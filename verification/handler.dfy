/**
 The form submission handler (main.py:122-147): the presence check on the
 stripped fields, then the format check on the raw number, then, only when
 both pass, the instruction string the chef agent is run with.
 */
module Handler {
  import opened Text
  import opened Wrappers
  import opened Phone

  /** The two submitted form fields, exactly as typed. */
  datatype RecipeRequest = RecipeRequest(dish: string, number: string)

  /** What a submission leads to: one of the two error alerts, or a run of
      the agent with `instruction` as its input. */
  datatype Outcome = MissingFields | BadFormat | Proceed(instruction: string)

  /** The fixed pieces of the agent instruction around the two fields. */
  const InstructionHead: string := "Generate a delicious recipe for: "
  const InstructionMiddle: string := ". Then send it to this WhatsApp number: "
  const InstructionEnd: string := "."

  /** The alert shown when a field is blank. */
  const MissingFieldsAlert: string :=
    "📛 Oh dear! Both fields are required — without a dish name and WhatsApp number, "
    + "Chef Baba cannot cook up the magic! ✨"

  /** The alert shown when the number is malformed. */
  const BadFormatAlert: string :=
    "📵 The number must start with +92 and be exactly 13 digits long — like +92XXXXXXXXXX."

  /** The agent instruction: both fields inserted verbatim, untrimmed. */
  function Instruction(dish: string, number: string): (t: string)
    ensures |t| == |InstructionHead| + |dish| + |InstructionMiddle| + |number| + 1
    ensures StartsWith(t, InstructionHead)
    ensures t[|InstructionHead|..|InstructionHead| + |dish|] == dish
    ensures t[|t| - 1 - |number|..|t| - 1] == number
    ensures t[|t| - 1] == '.'
  {
    InstructionHead + dish + InstructionMiddle + number + InstructionEnd
  }

  /** The handler's decision. Blank fields win over a malformed number, and
      the format check sees the number as typed, not stripped. */
  function Handle(dish: string, number: string): (o: Outcome)
    ensures o.MissingFields? <==> AllSpace(dish) || AllSpace(number)
    ensures o.BadFormat? <==> !AllSpace(dish) && !AllSpace(number) && !IsValidNumber(number)
    ensures o.Proceed? <==> !AllSpace(dish) && IsValidNumber(number)
    ensures o.Proceed? ==> o.instruction == Instruction(dish, number)
  {
    ValidNumberNotBlank(number);
    if Strip(dish) == [] || Strip(number) == [] then
      MissingFields
    else if !IsValidNumber(number) then
      BadFormat
    else
      Proceed(Instruction(dish, number))
  }

  /** The alert the page shows for an outcome; a run of the agent shows
      none. */
  function Alert(o: Outcome): (msg: Option<string>)
    ensures msg.None? <==> o.Proceed?
  {
    match o
    case MissingFields => Some(MissingFieldsAlert)
    case BadFormat => Some(BadFormatAlert)
    case Proceed(_) => None
  }

  /** The two alerts differ, so the page tells the user which check failed. */
  lemma AlertsDistinguishErrors(a: Outcome, b: Outcome)
    requires !a.Proceed? && !b.Proceed?
    ensures Alert(a) == Alert(b) <==> a == b
  {
    assert |MissingFieldsAlert| != |BadFormatAlert|;
  }

  /** With both fields present, a number of any length but 13 is a format
      error. */
  lemma WrongLengthIsBadFormat(dish: string, number: string)
    requires !AllSpace(dish) && !AllSpace(number)
    requires |number| != NumberLength
    ensures Handle(dish, number) == BadFormat
  {
    WrongLengthRejected(number);
  }

  /** A number that `strip()` would change never reaches the agent: it is
      either blank, or padded and then too long or not all digits. With a
      dish and a non-blank number, the outcome is the format error. */
  lemma PaddedNumberRejected(dish: string, number: string)
    requires Strip(number) != number
    ensures !Handle(dish, number).Proceed?
    ensures !AllSpace(dish) && !AllSpace(number) ==> Handle(dish, number) == BadFormat
  {
    StripChangesPadded(number);
    if IsValidNumber(number) {
      AcceptedNumberHasNoSpace(number);
    }
  }

  /** A valid number with a leading space passes the presence check but
      fails the format check: it is 14 characters long. */
  lemma LeadingSpaceSample()
    ensures Handle("Chicken Biryani", " +923001234567") == BadFormat
  {
    var dish, number := "Chicken Biryani", " +923001234567";
    assert !IsSpace(dish[0]);
    assert !IsSpace(number[1]);
    WrongLengthIsBadFormat(dish, number);
  }

  /** Reads the two fields back out of an agent instruction that carries a
      well-formed number; `None` for any other string. */
  function ParseInstruction(t: string): (req: Option<RecipeRequest>)
    ensures req.Some? ==> IsValidNumber(req.value.number)
  {
    var n := |t| - 1 - NumberLength;
    if |t| >= |InstructionHead| + |InstructionMiddle| + NumberLength + 1
       && StartsWith(t, InstructionHead)
       && t[n - |InstructionMiddle|..n] == InstructionMiddle
       && t[|t| - 1..] == InstructionEnd
       && IsValidNumber(t[n..|t| - 1])
    then Some(RecipeRequest(t[|InstructionHead|..n - |InstructionMiddle|], t[n..|t| - 1]))
    else None
  }

  /** An instruction built from a valid number gives both fields back,
      untrimmed. */
  lemma InstructionRoundTrip(dish: string, number: string)
    requires IsValidNumber(number)
    ensures ParseInstruction(Instruction(dish, number)) == Some(RecipeRequest(dish, number))
  {
    var t := Instruction(dish, number);
    var n := |t| - 1 - NumberLength;
    assert t[n - |InstructionMiddle|..n] == InstructionMiddle;
    assert t[n..|t| - 1] == number;
    assert t[|InstructionHead|..n - |InstructionMiddle|] == dish;
  }

  /** Whatever `ParseInstruction` accepts is exactly the instruction of the
      request it reads. */
  lemma ParseInstructionExact(t: string)
    requires ParseInstruction(t).Some?
    ensures Instruction(ParseInstruction(t).value.dish, ParseInstruction(t).value.number) == t
  {
    var req := ParseInstruction(t).value;
    var n := |t| - 1 - NumberLength;
    assert t == t[..|InstructionHead|] + req.dish + t[n - |InstructionMiddle|..n]
                + req.number + t[|t| - 1..];
  }

  /** When the agent runs, its instruction names both fields exactly as
      typed. */
  lemma AgentSeesRequest(dish: string, number: string)
    ensures Handle(dish, number).Proceed? ==>
              ParseInstruction(Handle(dish, number).instruction) == Some(RecipeRequest(dish, number))
  {
    if Handle(dish, number).Proceed? {
      InstructionRoundTrip(dish, number);
    }
  }
}
