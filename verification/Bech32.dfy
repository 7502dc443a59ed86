/** Bech32 and Bech32m (btpay/bitcoin/xpub.py): the checksum loop, the created
    checksum, and addresses that a BIP 173 decoder reads back. */
module Bech32 {
  import opened Bits
  import opened Strings
  import opened Wrappers
  import opened ShiftRegister
  import opened PackedRegister
  import ConvertBits

  const CHARSET: string := "qpzry9x8gf2tvdw0s3jn54khce6mua7l"

  const GEN: seq<nat> := [0x3b6a57b2, 0x26508e6d, 0x1ea119fa, 0x3d4233dd, 0x2a1462b3]

  /** Targets of the checksum: 1 for Bech32 (BIP 173), 0x2bc830a3 for Bech32m (BIP 350). */
  const BECH32: nat := 1
  const BECH32M: nat := 0x2bc830a3

  /** The six-symbol register behind the loop; row i of its tap table is GEN[i]. */
  ghost const REGISTER := Register(6, [
    Symbols(GEN[0], 6), Symbols(GEN[1], 6), Symbols(GEN[2], 6), Symbols(GEN[3], 6), Symbols(GEN[4], 6)])

  lemma RegisterPacked()
    ensures Packs(GEN, REGISTER)
  {
    Powers();
  }

  lemma RegisterInvertible()
    ensures WellFormed(REGISTER) && Invertible(REGISTER)
  {
    forall b | LastFeedback(REGISTER, b) == ZERO
      ensures b == ZERO
    {
      LastTaps(b);
    }
  }

  /** The constant terms of the generator: 18, 13, 26, 29 and 19. */
  lemma LastTaps(b: Symbol)
    ensures WellFormed(REGISTER)
    ensures LastFeedback(REGISTER, b)
         == Tap(b.b0, At(18, 0)).Xor(Tap(b.b1, At(13, 0))).Xor(Tap(b.b2, At(26, 0)))
                                .Xor(Tap(b.b3, At(29, 0))).Xor(Tap(b.b4, At(19, 0)))
  {
    LowSymbol(GEN[0], 0x1db52bd, 18);
    LowSymbol(GEN[1], 0x1328473, 13);
    LowSymbol(GEN[2], 0xf508cf, 26);
    LowSymbol(GEN[3], 0x1ea119e, 29);
    LowSymbol(GEN[4], 0x150a315, 19);
    assert REGISTER.taps[0][5] == At(18, 0);
    assert REGISTER.taps[1][5] == At(13, 0);
    assert REGISTER.taps[2][5] == At(26, 0);
    assert REGISTER.taps[3][5] == At(29, 0);
    assert REGISTER.taps[4][5] == At(19, 0);
    var m := REGISTER;
    assert Feedback(m, b, 5, 1) == Tap(b.b0, At(18, 0));
    assert Feedback(m, b, 5, 2) == Feedback(m, b, 5, 1).Xor(Tap(b.b1, At(13, 0)));
    assert Feedback(m, b, 5, 3) == Feedback(m, b, 5, 2).Xor(Tap(b.b2, At(26, 0)));
    assert Feedback(m, b, 5, 4) == Feedback(m, b, 5, 3).Xor(Tap(b.b3, At(29, 0)));
  }

  /** BIP 173: the rows of the tap table are the multiples by 1, x, .., x^4, in GF(32) modulo
      x^5 + x^3 + 1, of the generator x^6 + 29 x^5 + 22 x^4 + 20 x^3 + 21 x^2 + 29 x + 18. */
  lemma GeneratorPolynomial()
    ensures Generates(REGISTER, SymbolsOf([29, 22, 20, 21, 29, 18]))
  {
    var rows := [
      [29, 22, 20, 21, 29, 18],
      [19, 5, 1, 3, 19, 13],
      [15, 10, 2, 6, 15, 26],
      [30, 20, 4, 12, 30, 29],
      [21, 1, 8, 24, 21, 19]];
    RegisterPacked();
    RowWords(rows);
    RowDoubles(rows);
    RowsGenerate(REGISTER, GEN, rows);
  }

  lemma RowWords(rows: seq<seq<nat>>)
    requires rows == [
      [29, 22, 20, 21, 29, 18],
      [19, 5, 1, 3, 19, 13],
      [15, 10, 2, 6, 15, 26],
      [30, 20, 4, 12, 30, 29],
      [21, 1, 8, 24, 21, 19]]
    ensures forall i :: 0 <= i < 5 ==> |rows[i]| == 6 && Quintets(rows[i]) && Horner(rows[i]) == GEN[i]
  {
    Horner6(29, 22, 20, 21, 29, 18);
    Horner6(19, 5, 1, 3, 19, 13);
    Horner6(15, 10, 2, 6, 15, 26);
    Horner6(30, 20, 4, 12, 30, 29);
    Horner6(21, 1, 8, 24, 21, 19);
  }

  lemma RowDoubles(rows: seq<seq<nat>>)
    requires rows == [
      [29, 22, 20, 21, 29, 18],
      [19, 5, 1, 3, 19, 13],
      [15, 10, 2, 6, 15, 26],
      [30, 20, 4, 12, 30, 29],
      [21, 1, 8, 24, 21, 19]]
    ensures forall i :: 0 <= i < 4 ==> DoublesTo(rows[i], rows[i + 1])
  {
    DoublesSix(29, 22, 20, 21, 29, 18);
    DoublesSix(19, 5, 1, 3, 19, 13);
    DoublesSix(15, 10, 2, 6, 15, 26);
    DoublesSix(30, 20, 4, 12, 30, 29);
  }

  /** `_bech32_polymod`: the packed register after all of the values. */
  method Polymod(values: seq<nat>) returns (chk: nat)
    ensures chk == Word(GEN, 6, values, 5)
  {
    Powers();
    chk := 1;
    for k := 0 to |values|
      invariant chk == Word(GEN, 6, values[..k], 5)
    {
      ghost var fed := values[..k + 1];
      assert fed[..k] == values[..k];
      var b := chk / 0x2000000;
      chk := Xor(chk % 0x2000000 * 32, values[k]);
      for i := 0 to 5
        invariant chk == Word(GEN, 6, fed, i)
      {
        if Bit(b, i) {
          chk := Xor(chk, GEN[i]);
        }
      }
    }
    assert values[..|values|] == values;
  }

  /** The register a list of values leaves, and what the loop says about it. */
  lemma PolymodResidue(values: seq<nat>)
    requires Quintets(values)
    ensures WellFormed(REGISTER)
    ensures Word(GEN, 6, values, 5) < P2(30)
    ensures Symbols(Word(GEN, 6, values, 5), 6) == Residue(REGISTER, values)
  {
    RegisterPacked();
    WordRuns(REGISTER, GEN, values);
  }

  // ---- Checksums ------------------------------------------------------------

  predicate Ascii(s: string) {
    forall i :: 0 <= i < |s| ==> s[i] as int < 128
  }

  function HrpExpand(hrp: string): (r: seq<nat>)
    ensures |r| == 2 * |hrp| + 1
    ensures Ascii(hrp) ==> Quintets(r)
  {
    seq(|hrp|, i requires 0 <= i < |hrp| => hrp[i] as int / 32)
    + [0]
    + seq(|hrp|, i requires 0 <= i < |hrp| => hrp[i] as int % 32)
  }

  /** The checksum test of BIP 173: the register ends at the target. */
  ghost predicate Verifies(hrp: string, values: seq<nat>, spec: nat) {
    RegisterPacked();
    Residue(REGISTER, HrpExpand(hrp) + values) == Symbols(spec, 6)
  }

  /** The six values that make the test succeed after the human-readable part and the data. */
  ghost function Checksum(hrp: string, data: seq<nat>, spec: nat): (c: seq<nat>)
    ensures |c| == 6 && Quintets(c)
  {
    RegisterPacked();
    ChecksumValues(REGISTER, HrpExpand(hrp) + data, spec)
  }

  /** For any human-readable part, any data and any target, one and only one
      six-symbol suffix passes the test: the created checksum. */
  lemma ChecksumCorrectAndUnique(hrp: string, data: seq<nat>, spec: nat, c: seq<nat>)
    requires |c| == 6 && Quintets(c)
    ensures Verifies(hrp, data + c, spec) <==> c == Checksum(hrp, data, spec)
  {
    RegisterPacked();
    ChecksumUnique(REGISTER, HrpExpand(hrp) + data, spec, c);
    assert HrpExpand(hrp) + (data + c) == HrpExpand(hrp) + data + c;
  }

  /** Whatever passes the test fails it after any change confined to six consecutive
      symbols. */
  lemma BurstErrorDetected(hrp: string, pre: seq<nat>, xs: seq<nat>, ys: seq<nat>, post: seq<nat>, spec: nat)
    requires Quintets(xs) && Quintets(ys) && |xs| == |ys| <= 6 && xs != ys
    requires Verifies(hrp, pre + xs + post, spec)
    ensures !Verifies(hrp, pre + ys + post, spec)
  {
    RegisterInvertible();
    BurstChangesResidue(REGISTER, HrpExpand(hrp) + pre, xs, ys, post);
    assert HrpExpand(hrp) + (pre + xs + post) == HrpExpand(hrp) + pre + xs + post;
    assert HrpExpand(hrp) + (pre + ys + post) == HrpExpand(hrp) + pre + ys + post;
  }

  /** In particular after a change of one symbol. */
  lemma OneErrorDetected(hrp: string, values: seq<nat>, k: nat, v: nat, spec: nat)
    requires Quintets(values) && k < |values| && v < 32 && values[k] != v && Verifies(hrp, values, spec)
    ensures !Verifies(hrp, values[k := v], spec)
  {
    var pre, post := values[..k], values[k + 1..];
    assert pre + [values[k]] + post == values && pre + [v] + post == values[k := v];
    assert [values[k]][0] != [v][0];
    hide Verifies;
    BurstErrorDetected(hrp, pre, [values[k]], [v], post, spec);
  }

  method CreateChecksum(hrp: string, data: seq<nat>, spec: nat) returns (c: seq<nat>)
    requires Ascii(hrp) && Quintets(data)
    ensures c == Checksum(hrp, data, spec)
  {
    var values := HrpExpand(hrp) + data;
    var polymod := Polymod(values + ZeroValues(6));
    polymod := Xor(polymod, spec);
    c := seq(6, i requires 0 <= i < 6 => Extract(polymod, 5 - i));
    RegisterPacked();
    ChecksumFromWord(REGISTER, GEN, values, spec, c);
  }

  // ---- Addresses ------------------------------------------------------------

  function Spec(witver: nat): nat {
    if witver == 0 then BECH32 else BECH32M
  }

  function Chars(values: seq<nat>): (s: string)
    requires Quintets(values)
    ensures |s| == |values|
  {
    seq(|values|, i requires 0 <= i < |values| => Char(values, i))
  }

  function Char(values: seq<nat>, i: nat): char
    requires Quintets(values) && i < |values|
  {
    CHARSET[values[i]]
  }

  /** Version, program and checksum symbols of an address. */
  ghost function AddressValues(hrp: string, witver: nat, witprog: seq<nat>): (values: seq<nat>)
    requires witver < 32
    ensures |values| == 7 + |ConvertBits.ToFive(witprog)| && Quintets(values)
  {
    ConvertBits.EightToFive(witprog);
    var data := [witver] + ConvertBits.ToFive(witprog);
    data + Checksum(hrp, data, Spec(witver))
  }

  /** The string `bech32_encode` builds. */
  ghost function Encoded(hrp: string, witver: nat, witprog: seq<nat>): string
    requires witver < 32
  {
    hrp + "1" + Chars(AddressValues(hrp, witver, witprog))
  }

  method Encode(hrp: string, witver: nat, witprog: seq<nat>) returns (s: string)
    requires Ascii(hrp) && witver < 32 && ConvertBits.Fits(witprog, 8)
    ensures s == Encoded(hrp, witver, witprog)
  {
    ConvertBits.EightToFive(witprog);
    var spec := if witver == 0 then 1 else 0x2bc830a3;
    var symbols := ConvertBits.Convert(witprog, 8, 5, true);
    var data := [witver] + symbols.value;
    var checksum := CreateChecksum(hrp, data, spec);
    return hrp + "1" + Chars(data + checksum);
  }

  // ---- A BIP 173 decoder ----------------------------------------------------

  /** Values of the characters, if all of them are in the character set. */
  ghost predicate Spells(values: seq<nat>, s: string) {
    Quintets(values) && Chars(values) == s
  }

  /** Version, program and checksum are in order after a human-readable part. */
  ghost predicate Carries(hrp: string, values: seq<nat>, witver: nat, witprog: seq<nat>) {
    && |values| >= 7 && values[0] == witver
    && Verifies(hrp, values, Spec(witver))
    && ConvertBits.Regroup(values[1..|values| - 6], 5, 8, false) == Ok(witprog)
  }

  /** What BIP 173 and BIP 350 require of an address string: a part before the last '1',
      characters of the set after it, at least a version and six checksum symbols, the
      checksum the version calls for, and clean padding. */
  ghost predicate DecodesTo(s: string, hrp: string, witver: nat, witprog: seq<nat>) {
    var p := LastIndex(s, '1');
    && p < |s| && s[..p] == hrp
    && exists values :: Spells(values, s[p + 1..]) && Carries(hrp, values, witver, witprog)
  }

  /** The position of a character in the set. */
  function CharsetPosition(c: char): int {
    if c == 'q' then 0 else if c == 'p' then 1 else if c == 'z' then 2 else if c == 'r' then 3
    else if c == 'y' then 4 else if c == '9' then 5 else if c == 'x' then 6 else if c == '8' then 7
    else if c == 'g' then 8 else if c == 'f' then 9 else if c == '2' then 10 else if c == 't' then 11
    else if c == 'v' then 12 else if c == 'd' then 13 else if c == 'w' then 14 else if c == '0' then 15
    else if c == 's' then 16 else if c == '3' then 17 else if c == 'j' then 18 else if c == 'n' then 19
    else if c == '5' then 20 else if c == '4' then 21 else if c == 'k' then 22 else if c == 'h' then 23
    else if c == 'c' then 24 else if c == 'e' then 25 else if c == '6' then 26 else if c == 'm' then 27
    else if c == 'u' then 28 else if c == 'a' then 29 else if c == '7' then 30 else if c == 'l' then 31
    else -1
  }

  lemma PositionOf(i: nat)
    requires i < 32
    ensures CharsetPosition(CHARSET[i]) == i
  {
  }

  lemma CharsetDistinct(i: nat, j: nat)
    requires i < 32 && j < 32
    ensures CHARSET[i] == CHARSET[j] <==> i == j
    ensures CHARSET[i] != '1' && CHARSET[i] != '#'
  {
    PositionOf(i);
    PositionOf(j);
  }

  lemma CharAt(values: seq<nat>, i: nat)
    requires Quintets(values) && i < |values|
    ensures values[i] < 32 && Chars(values)[i] == CHARSET[values[i]]
  {
  }

  /** A string spells at most one list of values. */
  lemma SpellsUnique(xs: seq<nat>, ys: seq<nat>, s: string)
    requires Spells(xs, s) && Spells(ys, s)
    ensures xs == ys
  {
    assert |xs| == |Chars(xs)| == |Chars(ys)| == |ys|;
    forall i | 0 <= i < |xs|
      ensures xs[i] == ys[i]
    {
      CharAt(xs, i);
      CharAt(ys, i);
      CharsetDistinct(xs[i], ys[i]);
    }
  }

  lemma CharsDistinct(xs: seq<nat>, ys: seq<nat>)
    requires Quintets(xs) && Quintets(ys) && xs != ys
    ensures Chars(xs) != Chars(ys)
  {
    if Chars(xs) == Chars(ys) {
      SpellsUnique(xs, ys, Chars(xs));
    }
  }

  lemma NoSeparator(values: seq<nat>)
    requires Quintets(values)
    ensures '1' !in Chars(values) && '#' !in Chars(values)
  {
    forall i | 0 <= i < |values|
      ensures Chars(values)[i] != '1' && Chars(values)[i] != '#'
    {
      CharAt(values, i);
      CharsetDistinct(values[i], 0);
    }
  }

  lemma AddressVerifies(hrp: string, witver: nat, witprog: seq<nat>)
    requires witver < 32
    ensures Verifies(hrp, AddressValues(hrp, witver, witprog), Spec(witver))
  {
    var data := [witver] + ConvertBits.ToFive(witprog);
    ChecksumCorrectAndUnique(hrp, data, Spec(witver), Checksum(hrp, data, Spec(witver)));
    hide Verifies, Checksum;
  }

  /** Exactly one program is carried by the encoder's list of values. */
  lemma AddressCarries(hrp: string, witver: nat, witprog: seq<nat>, witver': nat, witprog': seq<nat>)
    requires witver < 32 && ConvertBits.Fits(witprog, 8)
    ensures Carries(hrp, AddressValues(hrp, witver, witprog), witver', witprog')
       <==> witver' == witver && witprog' == witprog
  {
    ConvertBits.RoundTrip(witprog);
    var data := [witver] + ConvertBits.ToFive(witprog);
    var c := Checksum(hrp, data, Spec(witver));
    ChecksumCorrectAndUnique(hrp, data, Spec(witver), c);
    assert (data + c)[1..|data + c| - 6] == ConvertBits.ToFive(witprog);
  }

  lemma SeparatorOfAddress(hrp: string, values: seq<nat>)
    requires Quintets(values)
    ensures var s := hrp + "1" + Chars(values);
      LastIndex(s, '1') == |hrp| < |s| && s[..|hrp|] == hrp && s[|hrp| + 1..] == Chars(values)
  {
    NoSeparator(values);
    LastIndexAfter(hrp, '1', Chars(values));
  }

  /** A decoder reads an encoded address back as the parts it was made of, and as nothing else. */
  lemma EncodeDecodes(hrp: string, witver: nat, witprog: seq<nat>, hrp': string, witver': nat, witprog': seq<nat>)
    requires witver < 32 && ConvertBits.Fits(witprog, 8)
    ensures DecodesTo(Encoded(hrp, witver, witprog), hrp', witver', witprog')
       <==> hrp' == hrp && witver' == witver && witprog' == witprog
  {
    var values := AddressValues(hrp, witver, witprog);
    SeparatorOfAddress(hrp, values);
    AddressCarries(hrp, witver, witprog, witver', witprog');
    assert Spells(values, Chars(values));
    forall vs | Spells(vs, Chars(values))
      ensures vs == values
    {
      SpellsUnique(vs, values, Chars(values));
    }
  }
}
