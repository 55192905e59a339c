# Chef Baba submission pipeline — Dafny model

Chef Baba is a one-page web form: the user types a dish name and a WhatsApp
number, the page validates both, and an LLM agent ("Chef Baba") is run with
an instruction to write a recipe and send it to that number. It has two tools:
`generate_recipe` (builds a prompt string) and `send_whatsapp_message` (POSTs
to a messaging gateway and reports the result as a string).

This project models the deterministic part of `main.py`:

- `Text`: Python's `str.strip()` (with its whitespace class), `isdigit()`
  and `startswith()` on `seq<char>`. Characters are Unicode scalar values,
  so `|s|` is Python's `len(s)`.
- `Phone`: the number format check: `"+92"` prefix, length 13, digits after
  the `+`.
- `Handler`: the submission decision. It checks presence on the stripped
  fields first, then the format of the raw number, and only then builds the
  agent instruction. `ParseInstruction` reads both fields back out of an
  instruction.
- `Tools`: the recipe prompt, and the mapping from a gateway answer to the
  tool's reply string. `DishOfPrompt` and `ReadOutcome` are their decoders.

The gateway answer is a parameter. It is either `Status(code, text)` or
`Raised(message)`, where `message` stands for `str(e)`. The agent run, the
HTTP call and the page rendering are outside the model.

The number is validated as typed, not trimmed, so `" +923001234567"` is
rejected: it is 14 characters long (`Handler.PaddedNumberRejected`,
`Handler.LeadingSpaceSample`). The instruction carries both fields verbatim,
surrounding whitespace included.

## Model

| member | source | states |
|---|---|---|
| Text.IsSpaceMatchesTable | main.py:123 | the whitespace class behind `strip()`, written as ranges, is exactly the 29 code points of Python's `str.isspace()` |
| Text.IsDigits | main.py:130 | `isdigit()` is false on the empty string and otherwise true exactly when every character is one of the ten ASCII digits |
| Text.StartsWith | main.py:128 | `startswith` holds exactly when the prefix fits and the string agrees with it at every position of the prefix |
| Text.TrimLeft | main.py:123 | removes exactly the leading whitespace: the result is a suffix of the input, everything removed is whitespace, and the result does not start with whitespace |
| Text.TrimRight | main.py:123 | removes exactly the trailing whitespace: the result is a prefix of the input, everything removed is whitespace, and the result does not end with whitespace |
| Text.Strip | main.py:123 | `strip()` is empty exactly when every character is whitespace; a non-empty result starts and ends with a non-space |
| Text.StripStart | main.py:123 | `strip()` only removes whitespace: its result is the contiguous slice of the input at this offset, with nothing but whitespace before and after it |
| Text.StripUnpadded | main.py:123 | a string with no whitespace at either end is unchanged by `strip()` |
| Text.StripChangesPadded | main.py:123 | if `strip()` changes a string, the string has whitespace at its first or last position |
| Text.StripIdempotent | main.py:123 | stripping an already stripped field changes nothing |
| Phone.IsValidNumber | main.py:127-131 | a number passes exactly when it has length 13, starts with "+92", and positions 3..12 are digits |
| Phone.AcceptsEveryLocalNumber | main.py:128-130 | every "+92" followed by ten digits is accepted |
| Phone.AcceptedNumberShape | main.py:128-130 | every accepted number is "+92" followed by a ten-digit string |
| Phone.WrongLengthRejected | main.py:129 | a number of any length other than 13 is rejected |
| Phone.AcceptedNumberHasNoSpace | main.py:123-131 | an accepted number contains no whitespace, so it is never blank and `strip()` leaves it unchanged |
| Phone.ValidNumberNotBlank | main.py:123-131 | an accepted number is never blank, so the presence check never stops a valid number |
| Phone.SampleNumbers | main.py:127-133 | "+923001234567" passes; "+92300123456" (12 chars), "923001234567" (no '+') and "+92abc1234567" (letters) fail |
| Handler.Instruction | main.py:136-139 | the agent instruction holds the dish right after the fixed head and the number right before the closing '.', both verbatim and untrimmed |
| Handler.Handle | main.py:122-147 | missing-fields exactly when a field is blank, whatever the number's format; format error exactly when both fields are present and the raw number is invalid; the agent runs exactly when the dish is present and the number is valid, with the instruction built from both fields |
| Handler.Alert | main.py:123-134 | an error alert is shown exactly when the agent is not run |
| Handler.AlertsDistinguishErrors | main.py:124-134 | the missing-fields alert and the format alert are different texts |
| Handler.WrongLengthIsBadFormat | main.py:127-133 | with both fields present, a number whose length is not 13 gives the format error |
| Handler.PaddedNumberRejected | main.py:123-131 | a number that `strip()` would change never reaches the agent; with a present dish and a non-blank number, the outcome is the format error |
| Handler.LeadingSpaceSample | main.py:123-131 | " +923001234567" passes the presence check and fails the format check |
| Handler.ParseInstruction | main.py:136-139 | whatever it reads back from an instruction carries a valid number |
| Handler.InstructionRoundTrip | main.py:136-139 | an instruction built from a valid number gives back the exact dish and number |
| Handler.ParseInstructionExact | main.py:136-139 | every string the parser accepts is exactly the instruction of the request it reads |
| Handler.AgentSeesRequest | main.py:122-147 | when the agent runs, its instruction reads back as both fields exactly as typed |
| Tools.RecipePrompt | main.py:57-61 | the prompt is the fixed head, the dish name verbatim, then the fixed tail; any dish, the empty one included, gives a prompt |
| Tools.DishOfPrompt | main.py:57-61 | a dish read back from a prompt is as long as the prompt minus the fixed text |
| Tools.PromptRoundTrip | main.py:57-61 | reading a prompt back gives the dish it was built from |
| Tools.PromptDecodeExact | main.py:57-61 | every string the prompt reader accepts is exactly the prompt of the dish it reads |
| Tools.RecipePromptInjective | main.py:57-61 | two prompts are equal exactly when their dishes are |
| Tools.Classify | main.py:45-50 | a send counts as delivered exactly when the gateway answered with status 200 |
| Tools.SendOutcome | main.py:44-50 | the reply is the success text exactly on status 200; any other status gives the failure prefix followed by the response body; an `Exception` raised by the call gives the exception prefix followed by its text |
| Tools.ReadOutcome | main.py:45-50 | reads a reply back: it reports a delivery exactly for the success text, and a reported refusal or exception is spelled out exactly by the reply's prefix and text |
| Tools.OutcomeRoundTrip | main.py:45-50 | reading a reply back gives the delivery outcome it reports, the response body or exception text included |
| Tools.SendOutcomeFaithful | main.py:45-50 | two gateway answers give the same reply exactly when they classify alike; only the status code of a refusal is lost |
| Tools.SampleOutcomes | main.py:45-50 | a 200 gives the success text, a 500 reports its body, and a raised connection error reports its text |

## Left out

- Text.IsDigits: Python's `str.isdigit()` also accepts non-ASCII digits such as Arabic-Indic digits and superscripts. The model accepts only '0'..'9', so `Phone.IsValidNumber` rejects numbers that the code would accept. Encoding the Unicode digit tables is out of proportion to this form.
- Tools.SendOutcome: `Raised` stands for an `Exception` subclass, which main.py:49 catches. A `BaseException` outside that class, such as `KeyboardInterrupt` or `SystemExit`, raised inside the POST at main.py:44 propagates out of the tool; the model does not represent it.
- The Streamlit page, form widgets, spinner and confirmation panel (main.py:92-120, 146-170): these are presentation only. The two error alert texts are kept, in `Handler.Alert`.
- The agent itself: its persona, model configuration, tool dispatch and the recipe text it writes (main.py:13-29, 63-89, 141-147). These are foreign library calls with nondeterministic output. The model stops at the instruction string the agent is given.
- The HTTP POST to the messaging gateway, with its URL, token and payload (main.py:38-44), and the loading of environment variables (main.py:9-11, 31-33): these are I/O. The gateway's answer is a parameter of `Tools.SendOutcome`.
- The asyncio event-loop setup around the agent run (main.py:141-144): this is concurrency plumbing with no effect on the decision.
- A failure of the agent run itself propagates out of the handler in the code. It is not modelled, because the agent is not modelled.
