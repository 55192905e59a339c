/**
 The WhatsApp number format the request handler enforces (main.py:127-131):
 the number must start with "+92", be exactly 13 characters long, and every
 character after the '+' must be a digit.
 */
module Phone {
  import opened Text

  /** The Pakistani country code every accepted number starts with. */
  const CountryCode: string := "+92"

  /** Total length of an accepted number: the country code and 10 digits. */
  const NumberLength: nat := 13

  /** The format check, in the order the source writes it. The digit test
      covers indices 1..12, so the '9' and '2' of the country code are
      checked twice. Accepted numbers are exactly "+92" followed by ten
      digits. */
  function IsValidNumber(s: string): (ok: bool)
    ensures ok <==> |s| == NumberLength && s[..|CountryCode|] == CountryCode
                    && forall i :: |CountryCode| <= i < NumberLength ==> IsDigit(s[i])
  {
    StartsWith(s, CountryCode) && |s| == NumberLength && IsDigits(s[1..])
  }

  /** Every "+92" plus ten digits is accepted. */
  lemma AcceptsEveryLocalNumber(digits: string)
    requires |digits| == 10 && IsDigits(digits)
    ensures IsValidNumber(CountryCode + digits)
  {
    var s := CountryCode + digits;
    assert forall i :: 3 <= i < 13 ==> s[i] == digits[i - 3];
  }

  /** Every accepted number is "+92" followed by ten digits. */
  lemma AcceptedNumberShape(s: string)
    requires IsValidNumber(s)
    ensures s == CountryCode + s[3..]
    ensures |s[3..]| == 10 && IsDigits(s[3..])
  {
    assert forall i :: 0 <= i < 10 ==> s[3..][i] == s[i + 3];
  }

  /** A number of any length other than 13 is rejected. */
  lemma WrongLengthRejected(s: string)
    requires |s| != NumberLength
    ensures !IsValidNumber(s)
  {
  }

  /** An accepted number has no whitespace anywhere, so it is never blank
      and `strip()` leaves it unchanged. */
  lemma AcceptedNumberHasNoSpace(s: string)
    requires IsValidNumber(s)
    ensures forall i :: 0 <= i < |s| ==> !IsSpace(s[i])
    ensures !AllSpace(s)
    ensures Strip(s) == s
  {
    assert s[0] == '+';
    StripUnpadded(s);
  }

  /** An accepted number is never blank: the presence check passes it.
      The fact is part of `AcceptedNumberHasNoSpace`; this implication form
      holds for every string, so `Handle` can use it before it knows which
      branch it takes. */
  lemma ValidNumberNotBlank(s: string)
    ensures IsValidNumber(s) ==> !AllSpace(s)
  {
    if IsValidNumber(s) {
      assert !IsSpace(s[0]);
    }
  }

  /** The sample inputs of the format rule. */
  lemma SampleNumbers()
    ensures IsValidNumber("+923001234567")
    ensures !IsValidNumber("+92300123456")
    ensures !IsValidNumber("923001234567")
    ensures !IsValidNumber("+92abc1234567")
  {
    assert "+923001234567"[..3] == "+92";
    assert "923001234567"[0] == '9';
    assert "+92abc1234567"[3] == 'a';
  }
}
