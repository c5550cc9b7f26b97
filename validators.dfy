/** The two validators the configuration properties use. */
module Validators {
  import opened Lang
  import opened Values

  predicate IsAsciiLetter(c: char) {
    'a' <= c <= 'z' || 'A' <= c <= 'Z'
  }

  /** Java's `\w` without UNICODE_CHARACTER_CLASS: `[a-zA-Z_0-9]`. */
  predicate IsWordChar(c: char) {
    IsAsciiLetter(c) || '0' <= c <= '9' || c == '_'
  }

  /** The language of `^[a-zA-Z]\w*$`, stated declaratively. */
  predicate IsIdShort(s: string) {
    |s| >= 1 && IsAsciiLetter(s[0]) && forall i :: 1 <= i < |s| ==> IsWordChar(s[i])
  }

  /** The matcher for `^[a-zA-Z]\w*$`: nothing read yet, inside the word, or failed. */
  datatype MatchState = Start | InWord | Rejected

  function Step(q: MatchState, c: char): MatchState {
    match q
    case Start => if IsAsciiLetter(c) then InWord else Rejected
    case InWord => if IsWordChar(c) then InWord else Rejected
    case Rejected => Rejected
  }

  /** Feeds `s` to the matcher, one character at a time, from the left. */
  function Run(q: MatchState, s: string): MatchState
    decreases |s|
  {
    if |s| == 0 then q else Run(Step(q, s[0]), s[1..])
  }

  /** A failed match stays failed. */
  lemma {:induction false} RunRejected(s: string)
    ensures Run(Rejected, s) == Rejected
    decreases |s|
  {
    if |s| > 0 {
      RunRejected(s[1..]);
    }
  }

  /** From inside the word, the matcher accepts exactly a run of word characters. */
  lemma {:induction false} RunInWord(s: string)
    ensures Run(InWord, s) == InWord <==> forall i :: 0 <= i < |s| ==> IsWordChar(s[i])
    decreases |s|
  {
    if |s| > 0 {
      if IsWordChar(s[0]) {
        RunInWord(s[1..]);
        assert forall i :: 1 <= i < |s| ==> s[i] == s[1..][i - 1];
      } else {
        RunRejected(s[1..]);
      }
    }
  }

  /** The matcher accepts exactly the idShorts. */
  lemma {:induction false} RunAcceptsIdShorts(s: string)
    ensures Run(Start, s) == InWord <==> IsIdShort(s)
  {
    if |s| > 0 {
      if IsAsciiLetter(s[0]) {
        RunInWord(s[1..]);
        assert forall i :: 1 <= i < |s| ==> s[i] == s[1..][i - 1];
      } else {
        RunRejected(s[1..]);
      }
    }
  }

  /** `IdShortValidator.isValid`; the regex validator answers `false` for null. */
  function IsValidIdShort(value: Option<string>): (valid: bool)
    ensures valid <==> value.Some? && IsIdShort(value.value)
  {
    if value.Some? then
      RunAcceptsIdShorts(value.value);
      Run(Start, value.value) == InWord
    else false
  }

  /** The value set of a Java `int`. */
  type Int32 = x: int | INT32_MIN <= x <= INT32_MAX

  /** `PositiveIntegerValidator.isValid(Integer)`: unboxing a null throws. */
  function IsValidPositive(value: Option<Int32>): (r: Result<bool>)
    ensures r.Err? <==> value.None?
    ensures r.Err? ==> r.error == NullPointerException
    ensures r.Ok? ==> (r.value <==> 1 <= value.value <= INT32_MAX)
  {
    match value
    case None => Err(NullPointerException)
    case Some(v) => Ok(v > 0)
  }

  /** Typical inputs: empty, a digit first, a hyphen, a single letter, and an
      idShort with digits and an underscore. */
  lemma IdShortExamples()
    ensures !IsValidIdShort(None)
    ensures !IsValidIdShort(Some(""))
    ensures !IsValidIdShort(Some("1motor"))
    ensures !IsValidIdShort(Some("motor-1"))
    ensures IsValidIdShort(Some("m"))
    ensures IsValidIdShort(Some("Motor_1"))
  {
    assert "1motor"[0] == '1';
    assert "motor-1"[5] == '-';
  }

  /** A character outside `[a-zA-Z_0-9]` anywhere, or anything but a letter
      first, rejects; a single letter is accepted. */
  lemma IdShortCorollaries(s: string, i: nat, c: char)
    ensures i < |s| && !IsWordChar(s[i]) ==> !IsValidIdShort(Some(s))
    ensures |s| >= 1 && !IsAsciiLetter(s[0]) ==> !IsValidIdShort(Some(s))
    ensures IsAsciiLetter(c) ==> IsValidIdShort(Some([c]))
  {
  }

  /** Zero, negative values and null are not positive; 1 and the largest `int`
      are. */
  lemma PositiveExamples(v: Int32)
    ensures IsValidPositive(Some(0)) == Ok(false)
    ensures v < 0 ==> IsValidPositive(Some(v)) == Ok(false)
    ensures IsValidPositive(Some(1)) == Ok(true) && IsValidPositive(Some(INT32_MAX)) == Ok(true)
    ensures IsValidPositive(None) == Err(NullPointerException)
  {
  }
}
