/** Base58 and Base58Check (btpay/bitcoin/xpub.py) and the second, independently
    written Base58Check decoder (btpay/security/validators.py). SHA-256 is a parameter. */
module Base58 {
  import opened Arithmetic
  import opened Strings
  import opened Wrappers

  const FIRST33: string := "123456789ABCDEFGHJKLMNPQRSTUVWXYZ"
  const LAST25: string := "abcdefghijkmnopqrstuvwxyz"
  const ALPHABET: string := FIRST33 + LAST25

  /** Any function on byte strings; `Digest` makes it one with n-byte results. */
  type Hash = seq<nat> -> seq<nat>

  function Digest(h: Hash, n: nat, data: seq<nat>): (d: seq<nat>)
    ensures |d| == n && Digits(d, 256)
  {
    seq(n, i requires 0 <= i < n => if i < |h(data)| then h(data)[i] % 256 else 0)
  }

  /** A hash that gives n bytes is used as it is. */
  lemma SameDigest(h: Hash, n: nat, data: seq<nat>)
    requires |h(data)| == n && Digits(h(data), 256)
    ensures Digest(h, n, data) == h(data)
  {
    forall i | 0 <= i < n ensures h(data)[i] % 256 == h(data)[i] {
    }
  }

  // ---- The alphabet ---------------------------------------------------------

  /** Position of a character of the alphabet, by its ASCII range. */
  function Rank(c: char): int {
    if '1' <= c <= '9' then c as int - 49
    else if 'A' <= c <= 'H' then c as int - 56
    else if 'J' <= c <= 'N' then c as int - 57
    else if 'P' <= c <= 'Z' then c as int - 58
    else if 'a' <= c <= 'k' then c as int - 64
    else if 'm' <= c <= 'z' then c as int - 65
    else -1
  }

  lemma RankOfFirst(d: nat)
    requires d < 33
    ensures |FIRST33| == 33 && Rank(FIRST33[d]) == d
  {
  }

  lemma RankOfLast(d: nat)
    requires d < 25
    ensures |LAST25| == 25 && Rank(LAST25[d]) == 33 + d
  {
  }

  lemma RankOf(d: nat)
    requires d < 58
    ensures |ALPHABET| == 58 && Rank(ALPHABET[d]) == d
  {
    RankOfFirst(0);
    RankOfLast(0);
    hide FIRST33, LAST25;
    if d < 33 {
      RankOfFirst(d);
    } else {
      RankOfLast(d - 33);
    }
  }

  function DigitChar(d: nat): char
    requires d < 58
  {
    RankOf(d);
    ALPHABET[d]
  }

  /** `index`, or -1 where it raises. */
  function CharDigit(c: char): (d: int)
    ensures -1 <= d < 58
    ensures d >= 0 ==> DigitChar(d) == c
  {
    RankOf(0);
    Find(ALPHABET, c)
  }

  lemma CharDigitOf(d: nat)
    requires d < 58
    ensures CharDigit(DigitChar(d)) == d && Rank(DigitChar(d)) == d
  {
    hide Find;
    RankOf(d);
    assert DigitChar(d) in ALPHABET;
    RankOf(CharDigit(DigitChar(d)));
  }

  // ---- Numbers as digit lists -----------------------------------------------

  /** The number a list of digits spells, most significant first. */
  function Number(digits: seq<nat>, base: nat): nat {
    if digits == [] then 0 else Number(digits[..|digits| - 1], base) * base + digits[|digits| - 1]
  }

  ghost predicate Digits(digits: seq<nat>, base: nat) {
    forall i :: 0 <= i < |digits| ==> digits[i] < base
  }

  lemma Shrinks(n: nat, base: nat)
    requires base > 1 && n > 0
    ensures 0 <= n / base < n && 0 <= n % base < base && n == n / base * base + n % base
  {
    DivMod(n, base);
    if n / base >= n {
      MulMono(n / base, 2, base);
    }
  }

  /** The digits of n without leading zeros; none at all for zero. */
  function Minimal(n: nat, base: nat): seq<nat>
    requires base > 1
  {
    if n == 0 then []
    else
      Shrinks(n, base);
      Minimal(n / base, base) + [n % base]
  }

  lemma {:induction false} MinimalSpells(n: nat, base: nat)
    requires base > 1
    ensures Digits(Minimal(n, base), base) && Number(Minimal(n, base), base) == n
    ensures n == 0 <==> Minimal(n, base) == []
    ensures n > 0 ==> Minimal(n, base)[0] != 0
  {
    if n > 0 {
      Shrinks(n, base);
      MinimalSpells(n / base, base);
      var d := Minimal(n, base);
      assert d[..|d| - 1] == Minimal(n / base, base);
    }
  }

  lemma NextDigit(q: nat, r: nat, base: nat)
    requires base > 1 && r < base && (q > 0 || r > 0)
    ensures q * base + r > 0 && Minimal(q * base + r, base) == Minimal(q, base) + [r]
  {
    DivUnique(q * base + r, base, q, r);
    if q > 0 {
      MulMono(base, 1, q);
    }
  }

  function Zeros(n: nat): (z: seq<nat>)
    ensures |z| == n
  {
    seq(n, _ => 0)
  }

  /** How many of the first digits are zero. */
  function LeadingZeros(digits: seq<nat>): (z: nat)
    ensures z <= |digits|
    ensures forall i :: 0 <= i < z ==> digits[i] == 0
    ensures z < |digits| ==> digits[z] != 0
  {
    if digits != [] && digits[0] == 0 then 1 + LeadingZeros(digits[1..]) else 0
  }

  /** A digit list is its leading zeros followed by the minimal digits of its number. */
  lemma {:induction false} Canonical(digits: seq<nat>, base: nat)
    requires base > 1 && Digits(digits, base)
    ensures digits == Zeros(LeadingZeros(digits)) + Minimal(Number(digits, base), base)
    ensures Number(digits, base) == 0 <==> LeadingZeros(digits) == |digits|
  {
    if digits != [] {
      var k := |digits| - 1;
      var d, r := digits[..k], digits[k];
      Canonical(d, base);
      LeadingOfPrefix(digits);
      var q := Number(d, base);
      assert Number(digits, base) == q * base + r;
      hide Number, Minimal, LeadingZeros;
      assert digits == d + [r];
      if q > 0 || r > 0 {
        NextDigit(q, r, base);
      } else {
        NoDigits(0, base);
        assert digits == Zeros(|digits|) + [];
      }
    }
  }

  lemma NoDigits(n: nat, base: nat)
    requires base > 1 && n == 0
    ensures Minimal(n, base) == [] && n * base == 0
  {
  }

  lemma LeadingOfPrefix(digits: seq<nat>)
    requires digits != []
    ensures var k := |digits| - 1;
      LeadingZeros(digits) == if LeadingZeros(digits[..k]) < k then LeadingZeros(digits[..k])
                              else if digits[k] == 0 then k + 1 else k
  {
    var k := |digits| - 1;
    var z, y := LeadingZeros(digits), LeadingZeros(digits[..k]);
    assert y < k ==> digits[y] != 0;
    assert z < k ==> digits[..k][z] != 0;
  }

  lemma {:induction false} NumberOfZeros(z: nat, digits: seq<nat>, base: nat)
    ensures Number(Zeros(z) + digits, base) == Number(digits, base)
  {
    if digits != [] {
      var k := |digits| - 1;
      NumberOfZeros(z, digits[..k], base);
      assert (Zeros(z) + digits)[..z + k] == Zeros(z) + digits[..k];
    } else if z > 0 {
      NumberOfZeros(z - 1, [], base);
      assert (Zeros(z) + [])[..z - 1] == Zeros(z - 1) + [];
    }
  }

  lemma LeadingOfPadded(z: nat, digits: seq<nat>)
    requires digits == [] || digits[0] != 0
    ensures LeadingZeros(Zeros(z) + digits) == z
  {
    var s := Zeros(z) + digits;
    assert z < |s| ==> s[z] == digits[0];
  }

  // ---- Strings of digits ----------------------------------------------------

  function CharsOf(digits: seq<nat>): (s: string)
    requires Digits(digits, 58)
    ensures |s| == |digits|
  {
    seq(|digits|, i requires 0 <= i < |digits| => DigitChar(digits[i]))
  }

  predicate InAlphabet(s: string) {
    forall i :: 0 <= i < |s| ==> CharDigit(s[i]) >= 0
  }

  function DigitsOf(s: string): (d: seq<nat>)
    requires InAlphabet(s)
    ensures |d| == |s| && Digits(d, 58)
  {
    seq(|s|, i requires 0 <= i < |s| => CharDigit(s[i]))
  }

  lemma DigitsOfChars(digits: seq<nat>)
    requires Digits(digits, 58)
    ensures InAlphabet(CharsOf(digits)) && DigitsOf(CharsOf(digits)) == digits
  {
    forall i | 0 <= i < |digits|
      ensures CharDigit(CharsOf(digits)[i]) == digits[i]
    {
      CharDigitOf(digits[i]);
    }
  }

  lemma CharsOfDigits(s: string)
    requires InAlphabet(s)
    ensures CharsOf(DigitsOf(s)) == s
  {
  }

  // ---- `_base58_encode` -----------------------------------------------------

  /** Base-58 digits of a byte string: one zero digit for each leading zero byte. */
  function EncodedDigits(data: seq<nat>): seq<nat> {
    Zeros(LeadingZeros(data)) + Minimal(Number(data, 256), 58)
  }

  lemma EncodedDigitsFit(data: seq<nat>)
    ensures Digits(EncodedDigits(data), 58)
  {
    MinimalSpells(Number(data, 256), 58);
  }

  ghost function Encoded(data: seq<nat>): string {
    EncodedDigitsFit(data);
    CharsOf(EncodedDigits(data))
  }

  function Reversed(s: seq<nat>): (r: seq<nat>)
    ensures |r| == |s|
  {
    seq(|s|, i requires 0 <= i < |s| => s[|s| - 1 - i])
  }

  /** Big-endian bytes to a number (`int.from_bytes`). */
  method FromBytes(data: seq<nat>) returns (n: nat)
    ensures n == Number(data, 256)
  {
    n := 0;
    for i := 0 to |data|
      invariant n == Number(data[..i], 256)
    {
      assert data[..i + 1][..i] == data[..i];
      n := n * 256 + data[i];
    }
    assert data[..|data|] == data;
  }

  method Encode(data: seq<nat>) returns (s: string)
    ensures s == Encoded(data)
  {
    var n := FromBytes(data);
    ghost var number := n;
    var chars: seq<nat> := [];
    while n > 0
      invariant Minimal(number, 58) == Minimal(n, 58) + Reversed(chars)
    {
      Shrinks(n, 58);
      var r: nat := n % 58;
      assert Reversed(chars + [r]) == [r] + Reversed(chars);
      assert Minimal(n, 58) + Reversed(chars) == Minimal(n / 58, 58) + ([r] + Reversed(chars));
      n := n / 58;
      chars := chars + [r];
    }
    ghost var low := chars;
    assert Minimal(number, 58) == Reversed(chars);
    var i := 0;
    while i < |data| && data[i] == 0
      invariant i <= LeadingZeros(data)
      invariant chars == low + Zeros(i)
    {
      chars := chars + [0];
      i := i + 1;
    }
    assert Reversed(chars) == Zeros(i) + Reversed(low);
    EncodedDigitsFit(data);
    s := CharsOf(Reversed(chars));
  }

  // ---- Base58Check ----------------------------------------------------------

  function Sha256d(h: Hash, data: seq<nat>): (r: seq<nat>)
    ensures |r| == 32 && Digits(r, 256)
  {
    Digest(h, 32, Digest(h, 32, data))
  }

  function WithChecksum(h: Hash, payload: seq<nat>): (data: seq<nat>)
    ensures |data| == |payload| + 4
  {
    payload + Sha256d(h, payload)[..4]
  }

  /** The checksum is the first four bytes of the hash of the hash. */
  lemma DoubleHash(h: Hash, payload: seq<nat>)
    requires |h(payload)| == 32 && Digits(h(payload), 256)
    requires |h(h(payload))| == 32 && Digits(h(h(payload)), 256)
    ensures Sha256d(h, payload) == h(h(payload)) && WithChecksum(h, payload) == payload + h(h(payload))[..4]
  {
    SameDigest(h, 32, payload);
    SameDigest(h, 32, h(payload));
    hide Digest;
  }

  lemma WithChecksumFits(h: Hash, payload: seq<nat>)
    requires Digits(payload, 256)
    ensures Digits(WithChecksum(h, payload), 256)
  {
  }

  /** `_base58check_encode`. */
  ghost function CheckEncoded(h: Hash, payload: seq<nat>): string {
    Encoded(WithChecksum(h, payload))
  }

  method CheckEncode(h: Hash, payload: seq<nat>) returns (s: string)
    ensures s == CheckEncoded(h, payload)
  {
    s := Encode(WithChecksum(h, payload));
  }

  /** Splitting off the last four bytes (all of them if there are fewer) and comparing. */
  function Checked(h: Hash, raw: seq<nat>): Result<seq<nat>> {
    var k := if |raw| < 4 then 0 else |raw| - 4;
    if Sha256d(h, raw[..k])[..4] == raw[k..] then Ok(raw[..k]) else Error
  }

  lemma CheckedExactly(h: Hash, raw: seq<nat>, payload: seq<nat>)
    ensures Checked(h, raw) == Ok(payload) <==> raw == WithChecksum(h, payload)
  {
    var k := if |raw| < 4 then 0 else |raw| - 4;
    if Checked(h, raw) == Ok(payload) {
      assert raw == raw[..k] + raw[k..];
    }
    if raw == WithChecksum(h, payload) {
      assert raw[..k] == payload && raw[k..] == Sha256d(h, payload)[..4];
    }
  }

  /** The bytes of a number, at least `least` of them (`to_bytes` with a computed length). */
  function ToBytes(n: nat, least: nat): seq<nat> {
    var d := Minimal(n, 256);
    if |d| < least then Zeros(least - |d|) + d else d
  }

  /** The bytes `_base58check_decode` rebuilds: a zero byte per leading '1', then the number. */
  function RawPadded(digits: seq<nat>): seq<nat> {
    Zeros(LeadingZeros(digits)) + ToBytes(Number(digits, 58), 1)
  }

  /** The bytes `_base58_decode_check` rebuilds: the number in at least 25 bytes. */
  function RawAddress(digits: seq<nat>): seq<nat> {
    ToBytes(Number(digits, 58), 25)
  }

  function CheckDecoded(h: Hash, s: string): Result<seq<nat>> {
    if InAlphabet(s) then Checked(h, RawPadded(DigitsOf(s))) else Error
  }

  function AddressDecoded(h: Hash, s: string): Result<seq<nat>> {
    if InAlphabet(s) then Checked(h, RawAddress(DigitsOf(s))) else Error
  }

  lemma PrefixInAlphabet(s: string, i: nat)
    requires i < |s|
    ensures InAlphabet(s[..i + 1]) <==> InAlphabet(s[..i]) && CharDigit(s[i]) >= 0
  {
    assert s[..i + 1][..i] == s[..i];
    assert s[..i + 1] == s[..i] + [s[i]];
    if InAlphabet(s[..i + 1]) {
      assert CharDigit(s[..i + 1][i]) >= 0;
      forall k | 0 <= k < i
        ensures CharDigit(s[..i][k]) >= 0
      {
        assert CharDigit(s[..i + 1][k]) >= 0;
      }
    }
  }

  /** The digit loop of both decoders; raises on a character outside the alphabet. */
  method ReadNumber(s: string) returns (n: Option<nat>)
    ensures n == if InAlphabet(s) then Some(Number(DigitsOf(s), 58)) else None
  {
    var acc: nat := 0;
    for i := 0 to |s|
      invariant InAlphabet(s[..i]) && acc == Number(DigitsOf(s[..i]), 58)
    {
      var d := CharDigit(s[i]);
      if d < 0 {
        return None;
      }
      PrefixInAlphabet(s, i);
      assert DigitsOf(s[..i + 1])[..i] == DigitsOf(s[..i]);
      acc := acc * 58 + d;
    }
    assert s[..|s|] == s;
    return Some(acc);
  }

  lemma LeadingOnes(s: string, pad: nat)
    requires InAlphabet(s) && pad <= |s| && (forall i :: 0 <= i < pad ==> s[i] == '1')
    requires pad < |s| ==> s[pad] != '1'
    ensures LeadingZeros(DigitsOf(s)) == pad
  {
    hide CharDigit, LeadingZeros;
    forall i | 0 <= i < |s|
      ensures DigitsOf(s)[i] == 0 <==> s[i] == '1'
    {
      OneIsZero(s[i]);
    }
    var z := LeadingZeros(DigitsOf(s));
    assert z < |s| ==> DigitsOf(s)[z] != 0;
  }

  lemma NotDecoded(h: Hash, s: string)
    requires !InAlphabet(s)
    ensures CheckDecoded(h, s) == Error && AddressDecoded(h, s) == Error
  {
  }

  lemma DecodedFrom(h: Hash, s: string, pad: nat)
    requires InAlphabet(s) && LeadingZeros(DigitsOf(s)) == pad
    ensures CheckDecoded(h, s) == Checked(h, Zeros(pad) + ToBytes(Number(DigitsOf(s), 58), 1))
    ensures AddressDecoded(h, s) == Checked(h, ToBytes(Number(DigitsOf(s), 58), 25))
  {
  }

  method CheckDecode(h: Hash, s: string) returns (r: Result<seq<nat>>)
    ensures r == CheckDecoded(h, s)
  {
    hide *;
    var n := ReadNumber(s);
    if n == None {
      NotDecoded(h, s);
      return Error;
    }
    var pad: nat := 0;
    while pad < |s| && s[pad] == '1'
      invariant pad <= |s| && forall i :: 0 <= i < pad ==> s[i] == '1'
    {
      pad := pad + 1;
    }
    LeadingOnes(s, pad);
    DecodedFrom(h, s, pad);
    return Checked(h, Zeros(pad) + ToBytes(n.value, 1));
  }

  lemma OneIsZero(c: char)
    ensures CharDigit(c) == 0 <==> c == '1'
  {
    CharDigitOf(0);
    RankOfFirst(0);
    assert DigitChar(0) == '1';
  }

  method AddressDecode(h: Hash, s: string) returns (r: Result<seq<nat>>)
    ensures r == AddressDecoded(h, s)
  {
    var n := ReadNumber(s);
    if n == None {
      return Error;
    }
    return Checked(h, ToBytes(n.value, 25));
  }

  // ---- Round trips ----------------------------------------------------------

  lemma DigitsOfEncoded(data: seq<nat>)
    ensures InAlphabet(Encoded(data)) && DigitsOf(Encoded(data)) == EncodedDigits(data)
  {
    EncodedDigitsFit(data);
    DigitsOfChars(EncodedDigits(data));
  }

  lemma EncodedNumber(data: seq<nat>)
    ensures Number(EncodedDigits(data), 58) == Number(data, 256)
    ensures LeadingZeros(EncodedDigits(data)) == LeadingZeros(data)
  {
    var n := Number(data, 256);
    MinimalSpells(n, 58);
    NumberOfZeros(LeadingZeros(data), Minimal(n, 58), 58);
    LeadingOfPadded(LeadingZeros(data), Minimal(n, 58));
  }

  ghost predicate AllZero(data: seq<nat>) {
    forall i :: 0 <= i < |data| ==> data[i] == 0
  }

  /** Rebuilding the bytes behind an encoding gives the bytes back, leading zeros
      included; all-zero bytes come back one zero longer. */
  lemma RawRoundTrip(data: seq<nat>)
    requires Digits(data, 256)
    ensures RawPadded(EncodedDigits(data)) == if AllZero(data) then data + [0] else data
  {
    var n, z := Number(data, 256), LeadingZeros(data);
    EncodedNumber(data);
    Canonical(data, 256);
    MinimalSpells(n, 256);
    if n == 0 {
      assert data == Zeros(|data|);
      assert RawPadded(EncodedDigits(data)) == Zeros(z) + Zeros(1);
    } else {
      assert data[z] != 0;
      assert RawPadded(EncodedDigits(data)) == Zeros(z) + Minimal(n, 256);
    }
  }

  /** Decoding undoes encoding for exactly those payloads that, with their checksum,
      are not all zero. */
  lemma CheckRoundTrip(h: Hash, payload: seq<nat>)
    requires Digits(payload, 256)
    ensures CheckDecoded(h, CheckEncoded(h, payload)) == Ok(payload) <==> !AllZero(WithChecksum(h, payload))
  {
    var data := WithChecksum(h, payload);
    WithChecksumFits(h, payload);
    DigitsOfEncoded(data);
    RawRoundTrip(data);
    CheckedExactly(h, RawPadded(EncodedDigits(data)), payload);
  }

  /** Whatever decodes, other than a string of '1's, is the encoding of what it decodes to:
      no two strings with another character in them decode to the same payload. */
  lemma DecodeEncode(h: Hash, s: string, payload: seq<nat>)
    requires CheckDecoded(h, s) == Ok(payload)
    requires exists i :: 0 <= i < |s| && s[i] != '1'
    ensures CheckEncoded(h, payload) == s
  {
    hide CharDigit, Number, LeadingZeros, Minimal;
    var digits := DigitsOf(s);
    var i :| 0 <= i < |s| && s[i] != '1';
    OneIsZero(s[i]);
    assert digits[i] != 0;
    var n, z := Number(digits, 58), LeadingZeros(digits);
    Canonical(digits, 58);
    assert n > 0;
    MinimalSpells(n, 256);
    var d := Minimal(n, 256);
    var raw := RawPadded(digits);
    assert raw == Zeros(z) + d;
    NumberOfZeros(z, d, 256);
    LeadingOfPadded(z, d);
    CheckedExactly(h, raw, payload);
    assert EncodedDigits(raw) == digits;
    CharsOfDigits(s);
  }

  /** The second decoder also returns the payload of every address-sized encoding, the
      all-zero one included. */
  lemma AddressRoundTrip(h: Hash, payload: seq<nat>)
    requires Digits(payload, 256) && |payload| == 21
    ensures AddressDecoded(h, CheckEncoded(h, payload)) == Ok(payload)
  {
    hide Number, LeadingZeros, Minimal;
    var data := WithChecksum(h, payload);
    WithChecksumFits(h, payload);
    DigitsOfEncoded(data);
    EncodedNumber(data);
    Canonical(data, 256);
    var n := Number(data, 256);
    assert |Minimal(n, 256)| == 25 - LeadingZeros(data);
    assert ToBytes(n, 25) == data;
    CheckedExactly(h, data, payload);
  }

  /** The two decoders agree on a string exactly when both rebuild the same bytes: when
      its leading '1's make up the difference between the number's length and 25. */
  lemma DecodersRebuildSame(s: string)
    requires InAlphabet(s)
    ensures var digits := DigitsOf(s);
      var k := |Minimal(Number(digits, 58), 256)|;
      RawPadded(digits) == RawAddress(digits)
      <==> LeadingZeros(digits) + (if k == 0 then 1 else k) == (if k < 25 then 25 else k)
  {
    hide CharDigit, Number, LeadingZeros;
    var digits := DigitsOf(s);
    var d := Minimal(Number(digits, 58), 256);
    if |RawPadded(digits)| == |RawAddress(digits)| {
      if d == [] {
        assert RawPadded(digits) == Zeros(25) == RawAddress(digits);
      } else if |d| < 25 {
        assert RawPadded(digits) == Zeros(25 - |d|) + d == RawAddress(digits);
      } else {
        assert RawPadded(digits) == Zeros(0) + d == RawAddress(digits);
      }
    }
  }
}
