/**
 The two tools the chef agent may call (main.py:35-61), with their I/O
 abstracted away: `generate_recipe` only builds a prompt string, and of
 `send_whatsapp_message` only the mapping from the gateway's answer to the
 string handed back to the agent is modelled.
 */
module Tools {
  import opened Text
  import opened Wrappers

  // ---------------------------------------------------------------------
  // generate_recipe
  // ---------------------------------------------------------------------

  /** The fixed text before the dish name in the recipe prompt. */
  const PromptHead: string := "Generate a simple and delicious recipe for the dish: "

  /** The fixed text after the dish name: the three f-string pieces joined. */
  const PromptTail: string :=
    ". The recipe should include a list of ingredients and step-by-step instructions. "
    + "Make it clear, fun, and beginner-friendly with emoji if needed."

  /** The prompt `generate_recipe` returns: the dish name, verbatim and
      unchecked (it may be empty), framed by the fixed head and tail. It has
      no failure case. */
  function RecipePrompt(dish: string): (p: string)
    ensures |p| == |PromptHead| + |dish| + |PromptTail|
    ensures StartsWith(p, PromptHead)
    ensures p[|PromptHead|..|PromptHead| + |dish|] == dish
    ensures p[|PromptHead| + |dish|..] == PromptTail
  {
    PromptHead + dish + PromptTail
  }

  /** Reads the dish name back out of a prompt; `None` for any string that
      is not a recipe prompt. */
  function DishOfPrompt(p: string): (d: Option<string>)
    ensures d.Some? ==> |d.value| == |p| - |PromptHead| - |PromptTail|
  {
    if |p| >= |PromptHead| + |PromptTail| && StartsWith(p, PromptHead)
       && p[|p| - |PromptTail|..] == PromptTail
    then Some(p[|PromptHead|..|p| - |PromptTail|])
    else None
  }

  /** Every prompt gives its dish name back. */
  lemma PromptRoundTrip(dish: string)
    ensures DishOfPrompt(RecipePrompt(dish)) == Some(dish)
  {
  }

  /** Whatever `DishOfPrompt` accepts is exactly the prompt of the dish it
      reads. */
  lemma PromptDecodeExact(p: string)
    requires DishOfPrompt(p).Some?
    ensures RecipePrompt(DishOfPrompt(p).value) == p
  {
    var d := DishOfPrompt(p).value;
    var h, t := p[..|PromptHead|], p[|p| - |PromptTail|..];
    assert h == PromptHead && t == PromptTail;
    assert p == h + d + t;
  }

  /** Different dishes give different prompts. */
  lemma RecipePromptInjective(a: string, b: string)
    ensures RecipePrompt(a) == RecipePrompt(b) <==> a == b
  {
    if RecipePrompt(a) == RecipePrompt(b) {
      PromptRoundTrip(a);
      PromptRoundTrip(b);
    }
  }

  // ---------------------------------------------------------------------
  // send_whatsapp_message
  // ---------------------------------------------------------------------

  /** What the HTTP POST to the gateway produced: a response with its status
      code and body text, or an exception whose `str()` is `message`. */
  datatype Response = Status(code: int, text: string) | Raised(message: string)

  /** The three ways a send can end, as the tool distinguishes them. */
  datatype Delivery = Sent | Refused(body: string) | Failed(error: string)

  /** Reply on status 200. */
  const SentText: string := "✅ Recipe sent successfully via WhatsApp!"

  /** Prefix of the reply on any other status; the response body follows. */
  const RefusedPrefix: string := "❌ Failed to send WhatsApp message: "

  /** Prefix of the reply when the call raised; the exception text follows. */
  const FailedPrefix: string := "❌ Exception: "

  /** The classification the tool makes: only status 200 is a success. */
  function Classify(resp: Response): (d: Delivery)
    ensures d.Sent? <==> resp.Status? && resp.code == 200
  {
    match resp
    case Status(code, text) => if code == 200 then Sent else Refused(text)
    case Raised(message) => Failed(message)
  }

  /** The string `send_whatsapp_message` returns to the agent. A status of
      any kind, and an `Exception` raised by the call, both become a string.
      `Raised` stands for an `Exception` subclass only: a `BaseException`
      outside it (`KeyboardInterrupt`, `SystemExit`) is not caught and is
      not modelled. */
  function SendOutcome(resp: Response): (r: string)
    ensures r == SentText <==> resp.Status? && resp.code == 200
    ensures resp.Status? && resp.code != 200 ==>
              StartsWith(r, RefusedPrefix) && r[|RefusedPrefix|..] == resp.text
    ensures resp.Raised? ==>
              StartsWith(r, FailedPrefix) && r[|FailedPrefix|..] == resp.message
  {
    match Classify(resp)
    case Sent => SentText
    case Refused(body) =>
      assert (RefusedPrefix + body)[2] != SentText[2];
      RefusedPrefix + body
    case Failed(error) =>
      assert (FailedPrefix + error)[2] != SentText[2];
      FailedPrefix + error
  }

  /** Reads a tool reply back into the delivery it reports; `None` for a
      string the tool never returns. Each delivery it reports is spelled
      out exactly by the reply. */
  function ReadOutcome(r: string): (d: Option<Delivery>)
    ensures d == Some(Sent) <==> r == SentText
    ensures d.Some? && d.value.Refused? ==> r == RefusedPrefix + d.value.body
    ensures d.Some? && d.value.Failed? ==> r == FailedPrefix + d.value.error
  {
    if r == SentText then Some(Sent)
    else if StartsWith(r, RefusedPrefix) then Some(Refused(r[|RefusedPrefix|..]))
    else if StartsWith(r, FailedPrefix) then Some(Failed(r[|FailedPrefix|..]))
    else None
  }

  /** The reply determines the classification: reading it back gives the
      delivery the response was classified as. */
  lemma OutcomeRoundTrip(resp: Response)
    ensures ReadOutcome(SendOutcome(resp)) == Some(Classify(resp))
  {
    var r := SendOutcome(resp);
    match Classify(resp)
    case Sent =>
    case Refused(body) =>
      assert r[2] == 'F' && SentText[2] == 'R';
    case Failed(error) =>
      assert r[2] == 'E' && SentText[2] == 'R' && RefusedPrefix[2] == 'F';
  }

  /** Two gateway answers give the same reply exactly when they are
      classified alike: the reply loses the status code of a refusal, and
      nothing else. */
  lemma SendOutcomeFaithful(a: Response, b: Response)
    ensures SendOutcome(a) == SendOutcome(b) <==> Classify(a) == Classify(b)
  {
    if SendOutcome(a) == SendOutcome(b) {
      OutcomeRoundTrip(a);
      OutcomeRoundTrip(b);
    }
  }

  /** Three sample gateway answers: a 200, a 500 whose body is reported,
      and a raised error whose text is reported. */
  lemma SampleOutcomes()
    ensures SendOutcome(Status(200, "ok")) == SentText
    ensures SendOutcome(Status(500, "down")) == RefusedPrefix + "down"
    ensures SendOutcome(Raised("timeout")) == FailedPrefix + "timeout"
  {
  }
}
