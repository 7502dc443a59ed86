/** Whole numbers as decimal text: Python's `str` and `int`. */
module Numerals {
  import Strings
  import opened Wrappers

  predicate Digital(s: string) {
    forall i :: 0 <= i < |s| ==> '0' <= s[i] <= '9'
  }

  function DigitChar(d: nat): char
    requires d < 10
  {
    '0' + d as char
  }

  function NatText(n: nat): (s: string)
    ensures s != [] && Digital(s)
  {
    if n < 10 then [DigitChar(n)] else NatText(n / 10) + [DigitChar(n % 10)]
  }

  /** `str(pk)`. */
  function IntText(i: int): (s: string)
    ensures s != [] && (s[0] == '-' || '0' <= s[0] <= '9') && Digital(s[1..])
    ensures '0' <= s[|s| - 1] <= '9'
  {
    if i < 0 then ['-'] + NatText(-i) else NatText(i)
  }

  /** Digits, with single underscores allowed between them. */
  function ReadNat(s: string): Option<nat> {
    if s == [] || !('0' <= s[|s| - 1] <= '9') then None
    else
      var d := (s[|s| - 1] - '0') as nat;
      if |s| == 1 then Some(d)
      else
        match ReadNat(if s[|s| - 2] == '_' then s[..|s| - 2] else s[..|s| - 1])
        case None => None
        case Some(n) => Some(10 * n + d)
  }

  /** A sign is allowed before the digits. */
  function ReadSigned(s: string): Option<int> {
    if s != [] && s[0] == '-' then (match ReadNat(s[1..]) case None => None case Some(n) => Some(-(n as int)))
    else (match ReadNat(if s != [] && s[0] == '+' then s[1..] else s) case None => None case Some(n) => Some(n))
  }

  /** `int(s)`, with whitespace around allowed. */
  function ReadInt(s: string): Option<int> {
    ReadSigned(Strings.Strip(s))
  }

  /** How a number reads: a digit appended, with an underscore between or not, makes it ten
      times as much and the digit; anything else appended makes it no number. */
  lemma ReadsAppended(s: string, c: char)
    ensures '0' <= c <= '9' && ReadNat(s).Some? ==>
      ReadNat(s + [c]) == ReadNat(s + ['_', c]) == Some(10 * ReadNat(s).value + (c as int - '0' as int))
    ensures !('0' <= c <= '9') ==> ReadNat(s + [c]) == None
  {
    if '0' <= c <= '9' && ReadNat(s).Some? {
      DigitLast(s, c);
      UnderscoreBefore(s, c);
    }
  }

  lemma DigitLast(s: string, c: char)
    requires '0' <= c <= '9' && ReadNat(s).Some?
    ensures ReadNat(s + [c]) == Some(10 * ReadNat(s).value + (c as int - '0' as int))
  {
    var one := s + [c];
    assert one[..|one| - 1] == s && s != "" && s[|s| - 1] != '_';
  }

  lemma UnderscoreBefore(s: string, c: char)
    requires '0' <= c <= '9' && ReadNat(s).Some?
    ensures ReadNat(s + ['_', c]) == Some(10 * ReadNat(s).value + (c as int - '0' as int))
  {
    var two := s + ['_', c];
    assert two[..|two| - 2] == s && s != "";
  }

  lemma SingleDigit(c: char)
    ensures '0' <= c <= '9' ==> ReadNat([c]) == Some(c as int - '0' as int)
  {
  }

  lemma UnderscoresRefused(s: string, c: char)
    ensures ReadNat("") == None && ReadNat("_" + [c]) == None && ReadNat(s + ['_', '_', c]) == None
  {
    var twice := s + ['_', '_', c];
    assert twice[..|twice| - 2] == s + ['_'];
    assert ReadNat(s + ['_']) == None;
  }

  /** A sign may stand before the digits, and whitespace around. */
  lemma ReadsSigned(a: string, digits: string, b: string)
    requires Strings.AllDropped(a, Strings.IsSpace) && Strings.AllDropped(b, Strings.IsSpace)
    requires digits != "" && Digital(digits)
    ensures ReadNat(digits).Some?
    ensures ReadInt(a + digits + b) == ReadInt(a + ("+" + digits) + b) == Some(ReadNat(digits).value)
    ensures ReadInt(a + ("-" + digits) + b) == Some(-(ReadNat(digits).value as int))
  {
    DigitalReads(digits);
    hide ReadNat;
    DigitsAreNotSpaces(digits);
    Strings.StripAround(a, digits, b, Strings.IsSpace);
    Strings.StripAround(a, "+" + digits, b, Strings.IsSpace);
    Strings.StripAround(a, "-" + digits, b, Strings.IsSpace);
    assert ("+" + digits)[1..] == digits && ("-" + digits)[1..] == digits;
  }

  lemma DigitsAreNotSpaces(digits: string)
    requires Digital(digits) && digits != ""
    ensures !Strings.IsSpace(digits[0]) && !Strings.IsSpace(digits[|digits| - 1])
    ensures !Strings.IsSpace('+') && !Strings.IsSpace('-')
  {
  }

  lemma {:induction false} DigitalReads(digits: string)
    requires digits != "" && Digital(digits)
    ensures ReadNat(digits).Some?
  {
    if |digits| > 1 {
      DigitalReads(digits[..|digits| - 1]);
    }
  }

  lemma {:induction false} NatRoundTrip(n: nat)
    ensures ReadNat(NatText(n)) == Some(n)
  {
    var s := NatText(n);
    if n >= 10 {
      NatRoundTrip(n / 10);
      assert s[..|s| - 1] == NatText(n / 10);
    }
  }

  lemma IntRoundTrip(i: int)
    ensures ReadInt(IntText(i)) == Some(i)
  {
    hide ReadNat, NatText, Strings.Strip;
    Strings.StripIdentity(IntText(i));
    if i < 0 {
      NatRoundTrip(-i);
      assert IntText(i)[1..] == NatText(-i);
    } else {
      NatRoundTrip(i);
    }
  }
}
