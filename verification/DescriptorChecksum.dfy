/** The checksum of output descriptors (btpay/bitcoin/descriptors.py; BIP 380, section "Checksum"). */
module DescriptorChecksum {
  import opened Bits
  import opened Strings
  import opened ShiftRegister
  import opened PackedRegister
  import Bech32

  const CLASS0: string := "0123456789()[],'/*abcdefgh@:$%{}"
  const CLASS1: string := "IJKLMNOPQRSTUVWXYZ&+-.;<=>?!^_|~"
  const CLASS2: string := "ijklmnopqrstuvwxyzABCDEFGH`#\"\\ "
  const INPUT_CHARSET: string := CLASS0 + CLASS1 + CLASS2

  const GEN: seq<nat> := [0xf5dee51989, 0xa9fdca3312, 0x1bab10e32d, 0x3706b1677a, 0x644d626ffd]

  ghost const REGISTER := Register(8, [
    Symbols(GEN[0], 8), Symbols(GEN[1], 8), Symbols(GEN[2], 8), Symbols(GEN[3], 8), Symbols(GEN[4], 8)])

  lemma RegisterPacked()
    ensures Packs(GEN, REGISTER)
  {
    Powers();
  }

  lemma RegisterInvertible()
    ensures WellFormed(REGISTER) && Invertible(REGISTER)
  {
    forall b | LastFeedback(REGISTER, b) == ZERO
      ensures b == ZERO
    {
      LastTaps(b);
    }
  }

  /** The constant terms of the generator: 9, 18, 13, 26 and 29. */
  lemma LastTaps(b: Symbol)
    ensures WellFormed(REGISTER)
    ensures LastFeedback(REGISTER, b)
         == Tap(b.b0, At(9, 0)).Xor(Tap(b.b1, At(18, 0))).Xor(Tap(b.b2, At(13, 0)))
                               .Xor(Tap(b.b3, At(26, 0))).Xor(Tap(b.b4, At(29, 0)))
  {
    LowSymbol(GEN[0], 0x7aef728cc, 9);
    LowSymbol(GEN[1], 0x54fee5198, 18);
    LowSymbol(GEN[2], 0xdd588719, 13);
    LowSymbol(GEN[3], 0x1b8358b3b, 26);
    LowSymbol(GEN[4], 0x3226b137f, 29);
    assert REGISTER.taps[0][7] == At(9, 0);
    assert REGISTER.taps[1][7] == At(18, 0);
    assert REGISTER.taps[2][7] == At(13, 0);
    assert REGISTER.taps[3][7] == At(26, 0);
    assert REGISTER.taps[4][7] == At(29, 0);
    var m := REGISTER;
    assert Feedback(m, b, 7, 1) == Tap(b.b0, At(9, 0));
    assert Feedback(m, b, 7, 2) == Feedback(m, b, 7, 1).Xor(Tap(b.b1, At(18, 0)));
    assert Feedback(m, b, 7, 3) == Feedback(m, b, 7, 2).Xor(Tap(b.b2, At(13, 0)));
    assert Feedback(m, b, 7, 4) == Feedback(m, b, 7, 3).Xor(Tap(b.b3, At(26, 0)));
  }

  /** BIP 380: the rows of the tap table are the multiples by 1, x, .., x^4, in GF(32) modulo
      x^5 + x^3 + 1, of the generator x^8 + 30 x^7 + 23 x^6 + 15 x^5 + 14 x^4 + 10 x^3 + 6 x^2 + 12 x + 9. */
  lemma GeneratorPolynomial()
    ensures Generates(REGISTER, SymbolsOf([30, 23, 15, 14, 10, 6, 12, 9]))
  {
    var rows := [
      [30, 23, 15, 14, 10, 6, 12, 9],
      [21, 7, 30, 28, 20, 12, 24, 18],
      [3, 14, 21, 17, 1, 24, 25, 13],
      [6, 28, 3, 11, 2, 25, 27, 26],
      [12, 17, 6, 22, 4, 27, 31, 29]];
    RegisterPacked();
    RowWords(rows);
    RowDoubles(rows);
    RowsGenerate(REGISTER, GEN, rows);
  }

  lemma RowWords(rows: seq<seq<nat>>)
    requires rows == [
      [30, 23, 15, 14, 10, 6, 12, 9],
      [21, 7, 30, 28, 20, 12, 24, 18],
      [3, 14, 21, 17, 1, 24, 25, 13],
      [6, 28, 3, 11, 2, 25, 27, 26],
      [12, 17, 6, 22, 4, 27, 31, 29]]
    ensures forall i :: 0 <= i < 5 ==> |rows[i]| == 8 && Quintets(rows[i]) && Horner(rows[i]) == GEN[i]
  {
    Horner8(30, 23, 15, 14, 10, 6, 12, 9);
    Horner8(21, 7, 30, 28, 20, 12, 24, 18);
    Horner8(3, 14, 21, 17, 1, 24, 25, 13);
    Horner8(6, 28, 3, 11, 2, 25, 27, 26);
    Horner8(12, 17, 6, 22, 4, 27, 31, 29);
  }

  lemma RowDoubles(rows: seq<seq<nat>>)
    requires rows == [
      [30, 23, 15, 14, 10, 6, 12, 9],
      [21, 7, 30, 28, 20, 12, 24, 18],
      [3, 14, 21, 17, 1, 24, 25, 13],
      [6, 28, 3, 11, 2, 25, 27, 26],
      [12, 17, 6, 22, 4, 27, 31, 29]]
    ensures forall i :: 0 <= i < 4 ==> DoublesTo(rows[i], rows[i + 1])
  {
    DoublesSix(30, 23, 15, 14, 10, 6);
    DoublesMore([30, 23, 15, 14, 10, 6], [21, 7, 30, 28, 20, 12], 12, 9);
    assert [30, 23, 15, 14, 10, 6] + [12, 9] == [30, 23, 15, 14, 10, 6, 12, 9];
    assert [21, 7, 30, 28, 20, 12] + [24, 18] == [21, 7, 30, 28, 20, 12, 24, 18];
    DoublesSix(21, 7, 30, 28, 20, 12);
    DoublesMore([21, 7, 30, 28, 20, 12], [3, 14, 21, 17, 1, 24], 24, 18);
    assert [21, 7, 30, 28, 20, 12] + [24, 18] == [21, 7, 30, 28, 20, 12, 24, 18];
    assert [3, 14, 21, 17, 1, 24] + [25, 13] == [3, 14, 21, 17, 1, 24, 25, 13];
    DoublesSix(3, 14, 21, 17, 1, 24);
    DoublesMore([3, 14, 21, 17, 1, 24], [6, 28, 3, 11, 2, 25], 25, 13);
    assert [3, 14, 21, 17, 1, 24] + [25, 13] == [3, 14, 21, 17, 1, 24, 25, 13];
    assert [6, 28, 3, 11, 2, 25] + [27, 26] == [6, 28, 3, 11, 2, 25, 27, 26];
    DoublesSix(6, 28, 3, 11, 2, 25);
    DoublesMore([6, 28, 3, 11, 2, 25], [12, 17, 6, 22, 4, 27], 27, 26);
    assert [6, 28, 3, 11, 2, 25] + [27, 26] == [6, 28, 3, 11, 2, 25, 27, 26];
    assert [12, 17, 6, 22, 4, 27] + [31, 29] == [12, 17, 6, 22, 4, 27, 31, 29];
  }

  /** `_polymod`: feed one more symbol to the packed register. */
  method Polymod(c: nat, val: nat, ghost fed: seq<nat>) returns (d: nat)
    requires c == Word(GEN, 8, fed, 5)
    ensures d == Word(GEN, 8, fed + [val], 5)
  {
    Powers();
    ghost var now := fed + [val];
    assert now[..|now| - 1] == fed;
    var c0 := c / 0x800000000;
    d := Xor(c % 0x800000000 * 32, val);
    assert d == Word(GEN, 8, now, 0);
    if Bit(c0, 0) {
      d := Xor(d, 0xf5dee51989);
    }
    assert d == Word(GEN, 8, now, 1);
    if Bit(c0, 1) {
      d := Xor(d, 0xa9fdca3312);
    }
    assert d == Word(GEN, 8, now, 2);
    if Bit(c0, 2) {
      d := Xor(d, 0x1bab10e32d);
    }
    assert d == Word(GEN, 8, now, 3);
    if Bit(c0, 3) {
      d := Xor(d, 0x3706b1677a);
    }
    assert d == Word(GEN, 8, now, 4);
    if Bit(c0, 4) {
      d := Xor(d, 0x644d626ffd);
    }
  }

  // ---- The symbols of a descriptor ------------------------------------------

  /** A character set whose positions split into five low bits and one of three classes. */
  predicate Charset(cs: string) {
    |cs| <= 96
  }

  predicate InSet(cs: string, desc: string) {
    forall i :: 0 <= i < |desc| ==> Find(cs, desc[i]) >= 0
  }

  function Positions(cs: string, desc: string): (p: seq<nat>)
    requires Charset(cs)
    ensures |p| == |desc| && Small(p)
  {
    seq(|desc|, i requires 0 <= i < |desc| => if Find(cs, desc[i]) < 0 then 0 else Find(cs, desc[i]))
  }

  predicate Small(p: seq<nat>) {
    forall i :: 0 <= i < |p| ==> p[i] < 96
  }

  lemma PositionsAt(cs: string, desc: string, i: nat)
    requires Charset(cs) && i < |desc| && Find(cs, desc[i]) >= 0
    ensures Positions(cs, desc)[i] == Find(cs, desc[i])
  {
  }

  /** The symbols of group g: the low parts of its up to three characters, then
      their classes read in base three. */
  function Group(p: seq<nat>, g: nat): seq<nat> {
    if 3 * g + 3 <= |p| then
      [p[3 * g] % 32, p[3 * g + 1] % 32, p[3 * g + 2] % 32,
       (p[3 * g] / 32 * 3 + p[3 * g + 1] / 32) * 3 + p[3 * g + 2] / 32]
    else if 3 * g + 2 == |p| then [p[3 * g] % 32, p[3 * g + 1] % 32, p[3 * g] / 32 * 3 + p[3 * g + 1] / 32]
    else if 3 * g + 1 == |p| then [p[3 * g] % 32, p[3 * g] / 32]
    else []
  }

  /** The groups before g, and the groups from g on. */
  function Head(p: seq<nat>, g: nat): seq<nat> {
    if g == 0 then [] else Head(p, g - 1) + Group(p, g - 1)
  }

  function Tail(p: seq<nat>, g: nat): seq<nat>
    decreases |p| - 3 * g
  {
    if 3 * g >= |p| then [] else Group(p, g) + Tail(p, g + 1)
  }

  /** The symbol stream of BIP 380. */
  function Expand(p: seq<nat>): seq<nat> {
    Tail(p, 0)
  }

  lemma {:induction false} HeadAndTail(p: seq<nat>, g: nat)
    requires 3 * g <= |p| + 2
    ensures Expand(p) == Head(p, g) + Tail(p, g)
  {
    hide Group;
    if g > 0 {
      HeadAndTail(p, g - 1);
    }
  }

  lemma {:induction false} TailSmall(p: seq<nat>, g: nat)
    requires Small(p)
    ensures Quintets(Tail(p, g))
    decreases |p| - 3 * g
  {
    if 3 * g < |p| {
      GroupSmall(p, g);
      TailSmall(p, g + 1);
    }
  }

  lemma GroupSmall(p: seq<nat>, g: nat)
    requires Small(p)
    ensures Quintets(Group(p, g)) && |Group(p, g)| <= 4
  {
    assert 3 * g < |p| ==> p[3 * g] < 96;
    assert 3 * g + 1 < |p| ==> p[3 * g + 1] < 96;
    assert 3 * g + 2 < |p| ==> p[3 * g + 2] < 96;
  }

  // ---- The loop -------------------------------------------------------------

  /** After k characters of group g: their low parts have been fed, their classes kept. */
  ghost predicate Progress(p: seq<nat>, g: nat, k: nat, fed: seq<nat>, cls: nat) {
    && k <= 3 && 3 * g + k <= |p|
    && fed == Head(p, g)
       + (if k == 0 then [] else if k == 1 then [p[3 * g] % 32]
          else if k == 2 then [p[3 * g] % 32, p[3 * g + 1] % 32]
          else [p[3 * g] % 32, p[3 * g + 1] % 32, p[3 * g + 2] % 32])
    && cls == if k == 0 then 0 else if k == 1 then p[3 * g] / 32
              else if k == 2 then p[3 * g] / 32 * 3 + p[3 * g + 1] / 32
              else (p[3 * g] / 32 * 3 + p[3 * g + 1] / 32) * 3 + p[3 * g + 2] / 32
  }

  lemma Advance(p: seq<nat>, g: nat, k: nat, fed: seq<nat>, cls: nat)
    requires Progress(p, g, k, fed, cls) && k < 3 && 3 * g + k < |p|
    ensures Progress(p, g, k + 1, fed + [p[3 * g + k] % 32], cls * 3 + p[3 * g + k] / 32)
  {
  }

  lemma CloseGroup(p: seq<nat>, g: nat, fed: seq<nat>, cls: nat)
    requires Progress(p, g, 3, fed, cls)
    ensures Progress(p, g + 1, 0, fed + [cls], 0)
  {
  }

  lemma LastGroup(p: seq<nat>, g: nat, k: nat, fed: seq<nat>, cls: nat)
    requires Progress(p, g, k, fed, cls) && k < 3 && 3 * g + k == |p|
    ensures Expand(p) == if k == 0 then fed else fed + [cls]
  {
    HeadAndTail(p, g);
    if k > 0 {
      assert Tail(p, g + 1) == [];
    }
  }

  /** The string `descriptor_checksum` returns. */
  ghost function ChecksumOf(cs: string, desc: string): string
    requires Charset(cs)
  {
    RegisterPacked();
    if InSet(cs, desc) then Bech32.Chars(ChecksumValues(REGISTER, Expand(Positions(cs, desc)), 1)) else ""
  }

  lemma Start(p: seq<nat>)
    ensures |GEN| == 5 && Progress(p, 0, 0, [], 0) && Word(GEN, 8, [], 5) == 1
  {
  }

  lemma OutsideSet(cs: string, desc: string, i: nat)
    requires Charset(cs) && i < |desc| && Find(cs, desc[i]) == -1
    ensures ChecksumOf(cs, desc) == ""
  {
  }

  lemma InsideSet(cs: string, desc: string)
    requires Charset(cs) && forall i :: 0 <= i < |desc| ==> Find(cs, desc[i]) >= 0
    ensures WellFormed(REGISTER)
    ensures ChecksumOf(cs, desc) == Bech32.Chars(ChecksumValues(REGISTER, Expand(Positions(cs, desc)), 1))
  {
    RegisterPacked();
  }

  lemma SpelledOut(p: seq<nat>, c: nat, values: seq<nat>)
    requires Small(p) && c == Word(GEN, 8, Expand(p) + ZeroValues(8), 5)
    requires |values| == 8 && forall i :: 0 <= i < 8 ==> values[i] == Extract(Xor(c, 1), 7 - i)
    ensures WellFormed(REGISTER) && values == ChecksumValues(REGISTER, Expand(p), 1)
  {
    RegisterPacked();
    TailSmall(p, 0);
    ChecksumFromWord(REGISTER, GEN, Expand(p), 1, values);
  }

  /** The end of `descriptor_checksum`: eight zero symbols, then the checksum's characters. */
  method SpellChecksum(start: nat, ghost p: seq<nat>) returns (s: string)
    requires Small(p) && start == Word(GEN, 8, Expand(p), 5)
    ensures WellFormed(REGISTER) && s == Bech32.Chars(ChecksumValues(REGISTER, Expand(p), 1))
  {
    hide Word, Expand, Xor;
    var c := start;
    ghost var fed := Expand(p);
    assert Expand(p) + ZeroValues(0) == fed;
    for k := 0 to 8
      invariant fed == Expand(p) + ZeroValues(k) && c == Word(GEN, 8, fed, 5)
    {
      c := Polymod(c, 0, fed);
      fed := fed + [0];
    }
    var result := seq(8, i requires 0 <= i < 8 => Extract(Xor(c, 1), 7 - i));
    SpelledOut(p, c, result);
    return Bech32.Chars(result);
  }

  method Checksum(cs: string, desc: string) returns (s: string)
    requires Charset(cs)
    ensures s == ChecksumOf(cs, desc)
  {
    hide *;
    ghost var p: seq<nat>, g: nat, fed: seq<nat> := Positions(cs, desc), 0, [];
    var c: nat, cls: nat, clscount: nat := 1, 0, 0;
    Start(p);
    for i := 0 to |desc|
      invariant forall k :: 0 <= k < i ==> Find(cs, desc[k]) >= 0
      invariant clscount < 3 && i == 3 * g + clscount && Progress(p, g, clscount, fed, cls)
      invariant c == Word(GEN, 8, fed, 5)
    {
      var pos := Find(cs, desc[i]);
      if pos == -1 {
        OutsideSet(cs, desc, i);
        return "";
      }
      PositionsAt(cs, desc, i);
      Advance(p, g, clscount, fed, cls);
      c := Polymod(c, pos % 32, fed);
      fed := fed + [pos % 32];
      cls := cls * 3 + pos / 32;
      clscount := clscount + 1;
      if clscount == 3 {
        CloseGroup(p, g, fed, cls);
        c := Polymod(c, cls, fed);
        fed := fed + [cls];
        g := g + 1;
        cls := 0;
        clscount := 0;
      }
    }
    LastGroup(p, g, clscount, fed, cls);
    if clscount > 0 {
      c := Polymod(c, cls, fed);
    }
    InsideSet(cs, desc);
    s := SpellChecksum(c, p);
  }

  // ---- Verification ---------------------------------------------------------

  /** `verify_descriptor_checksum`: split at the last '#'; without one, nothing is checked. */
  ghost function Verify(cs: string, s: string): (r: (string, bool))
    requires Charset(cs)
  {
    var p := LastIndex(s, '#');
    if p == |s| then (s, true) else (s[..p], s[p + 1..] == ChecksumOf(cs, s[..p]))
  }

  method VerifyChecksum(cs: string, s: string) returns (desc: string, valid: bool)
    requires Charset(cs)
    ensures (desc, valid) == Verify(cs, s)
  {
    var p := LastIndex(s, '#');
    if p == |s| {
      return s, true;
    }
    var expected := Checksum(cs, s[..p]);
    return s[..p], s[p + 1..] == expected;
  }

  lemma NoHash(cs: string, desc: string)
    requires Charset(cs)
    ensures '#' !in ChecksumOf(cs, desc)
  {
    RegisterPacked();
    if InSet(cs, desc) {
      Bech32.NoSeparator(ChecksumValues(REGISTER, Expand(Positions(cs, desc)), 1));
    }
  }

  /** A suffix free of '#' is accepted exactly if it is the checksum of the rest,
      whatever the rest contains. */
  lemma SuffixAccepted(cs: string, desc: string, suffix: string)
    requires Charset(cs) && '#' !in suffix
    ensures Verify(cs, desc + "#" + suffix) == (desc, suffix == ChecksumOf(cs, desc))
  {
    LastIndexAfter(desc, '#', suffix);
    var s := desc + ['#'] + suffix;
    assert s[..|desc|] == desc && s[|desc| + 1..] == suffix;
  }

  /** Appending its checksum to any descriptor verifies. */
  lemma AppendedVerifies(cs: string, desc: string)
    requires Charset(cs)
    ensures Verify(cs, desc + "#" + ChecksumOf(cs, desc)) == (desc, true)
  {
    NoHash(cs, desc);
    SuffixAccepted(cs, desc, ChecksumOf(cs, desc));
  }

  /** A descriptor with a character outside the set followed by a bare '#' is accepted. */
  lemma BareHashAccepted(cs: string, desc: string)
    requires Charset(cs)
    ensures Verify(cs, desc + "#") == (desc, true) <==> !InSet(cs, desc)
  {
    RegisterPacked();
    SuffixAccepted(cs, desc, "");
    assert desc + "#" + "" == desc + "#";
  }

  // ---- Detected errors ------------------------------------------------------

  /** A group of n characters spells n low parts and n base-three digits. */
  lemma GroupFields(p: seq<nat>, g: nat)
    requires Small(p) && 3 * g < |p|
    ensures |Group(p, g)| == (if 3 * g + 3 <= |p| then 3 else |p| - 3 * g) + 1
    ensures 3 * g + 1 == |p| ==> p[3 * g] == Group(p, g)[1] * 32 + Group(p, g)[0]
    ensures 3 * g + 2 == |p| ==>
      && p[3 * g] == Group(p, g)[2] / 3 * 32 + Group(p, g)[0]
      && p[3 * g + 1] == Group(p, g)[2] % 3 * 32 + Group(p, g)[1]
    ensures 3 * g + 3 <= |p| ==>
      && p[3 * g] == Group(p, g)[3] / 9 * 32 + Group(p, g)[0]
      && p[3 * g + 1] == Group(p, g)[3] / 3 % 3 * 32 + Group(p, g)[1]
      && p[3 * g + 2] == Group(p, g)[3] % 3 * 32 + Group(p, g)[2]
  {
    assert p[3 * g] < 96;
    if 3 * g + 1 < |p| {
      assert p[3 * g + 1] < 96;
    }
    if 3 * g + 2 < |p| {
      assert p[3 * g + 2] < 96;
      Digits(p[3 * g] / 32, p[3 * g + 1] / 32, p[3 * g + 2] / 32);
    }
  }

  lemma Digits(a: nat, b: nat, c: nat)
    requires a < 3 && b < 3 && c < 3
    ensures ((a * 3 + b) * 3 + c) / 9 == a && ((a * 3 + b) * 3 + c) / 3 % 3 == b && ((a * 3 + b) * 3 + c) % 3 == c
  {
  }

  lemma GroupDetermines(p: seq<nat>, q: seq<nat>, g: nat)
    requires Small(p) && Small(q) && |p| == |q| && Group(p, g) == Group(q, g)
    ensures forall i :: 3 * g <= i < 3 * g + 3 && i < |p| ==> p[i] == q[i]
  {
    hide Group, Small;
    if 3 * g < |p| {
      GroupFields(p, g);
      GroupFields(q, g);
    }
  }

  /** p and q differ at most in the six characters of groups g and g + 1. */
  ghost predicate SameOutside(p: seq<nat>, q: seq<nat>, g: nat) {
    |p| == |q| && forall i :: 0 <= i < |p| && !(3 * g <= i < 3 * g + 6) ==> p[i] == q[i]
  }

  lemma SameGroup(p: seq<nat>, q: seq<nat>, g: nat)
    requires |p| == |q| && forall i :: 3 * g <= i < 3 * g + 3 && i < |p| ==> p[i] == q[i]
    ensures Group(p, g) == Group(q, g)
  {
  }

  lemma {:induction false} SameHead(p: seq<nat>, q: seq<nat>, g: nat, h: nat)
    requires SameOutside(p, q, g) && h <= g && 3 * g <= |p|
    ensures Head(p, h) == Head(q, h)
  {
    hide Group;
    if h > 0 {
      SameHead(p, q, g, h - 1);
      SameGroup(p, q, h - 1);
    }
  }

  lemma {:induction false} SameTail(p: seq<nat>, q: seq<nat>, g: nat, h: nat)
    requires SameOutside(p, q, g) && g + 2 <= h
    ensures Tail(p, h) == Tail(q, h)
    decreases |p| - 3 * h
  {
    hide Group;
    if 3 * h < |p| {
      SameTail(p, q, g, h + 1);
      SameGroup(p, q, h);
    }
  }

  lemma Append4(h: seq<nat>, a: seq<nat>, b: seq<nat>, t: seq<nat>)
    ensures h + (a + (b + t)) == h + (a + b) + t
  {
  }

  lemma MiddleOf(p: seq<nat>, g: nat)
    requires 3 * g < |p|
    ensures Expand(p) == Head(p, g) + (Group(p, g) + Group(p, g + 1)) + Tail(p, g + 2)
  {
    HeadAndTail(p, g);
    Append4(Head(p, g), Group(p, g), Group(p, g + 1), Tail(p, g + 2));
    if 3 * g + 3 >= |p| {
      EmptyFrom(p, g + 1);
      EmptyFrom(p, g + 2);
      assert [] + [] == Tail(p, g + 1);
    } else {
      hide Group;
      assert Tail(p, g + 1) == Group(p, g + 1) + Tail(p, g + 2);
    }
  }

  lemma EmptyFrom(p: seq<nat>, g: nat)
    requires |p| <= 3 * g
    ensures Group(p, g) == [] && Tail(p, g) == []
  {
  }

  lemma MiddleDiffers(p: seq<nat>, q: seq<nat>, g: nat)
    requires Small(p) && Small(q) && SameOutside(p, q, g) && p != q
    ensures 3 * g < |p| && Group(p, g) + Group(p, g + 1) != Group(q, g) + Group(q, g + 1)
    ensures |Group(p, g) + Group(p, g + 1)| == |Group(q, g) + Group(q, g + 1)| <= 8
    ensures Quintets(Group(p, g) + Group(p, g + 1)) && Quintets(Group(q, g) + Group(q, g + 1))
  {
    GroupSmall(p, g);
    GroupSmall(p, g + 1);
    GroupSmall(q, g);
    GroupSmall(q, g + 1);
    SameGroupLength(p, q, g);
    SameGroupLength(p, q, g + 1);
    hide Group, Small;
    var k :| 0 <= k < |p| && p[k] != q[k];
    var x, y := Group(p, g) + Group(p, g + 1), Group(q, g) + Group(q, g + 1);
    if x == y {
      var n := |Group(p, g)|;
      assert Group(p, g) == x[..n] && Group(p, g + 1) == x[n..];
      assert Group(q, g) == y[..n] && Group(q, g + 1) == y[n..];
      GroupDetermines(p, q, g);
      GroupDetermines(p, q, g + 1);
    }
  }

  lemma SameGroupLength(p: seq<nat>, q: seq<nat>, g: nat)
    requires |p| == |q|
    ensures |Group(p, g)| == |Group(q, g)|
  {
  }

  /** Two different descriptors of one length that differ only within two consecutive
      groups of three characters (so in particular only within any four consecutive
      characters) have different checksums. */
  lemma TwoGroupErrorChangesChecksum(p: seq<nat>, q: seq<nat>, g: nat)
    requires Small(p) && Small(q) && SameOutside(p, q, g) && p != q
    ensures WellFormed(REGISTER)
    ensures ChecksumValues(REGISTER, Expand(p), 1) != ChecksumValues(REGISTER, Expand(q), 1)
  {
    hide *;
    RegisterInvertible();
    MiddleDiffers(p, q, g);
    MiddleOf(p, g);
    SameLength(p, q, g);
    MiddleOf(q, g);
    SameHead(p, q, g, g);
    SameTail(p, q, g, g + 2);
    var c := ChecksumValues(REGISTER, Expand(p), 1);
    BurstWithSuffix(Head(p, g), Group(p, g) + Group(p, g + 1), Group(q, g) + Group(q, g + 1), Tail(p, g + 2), c);
    ChecksumCompletes(p);
    ChecksumCompletes(q);
  }

  lemma SameLength(p: seq<nat>, q: seq<nat>, g: nat)
    requires SameOutside(p, q, g)
    ensures |p| == |q|
  {
  }

  /** BIP 380: with its checksum appended, a descriptor's symbols leave the register at 1. */
  lemma ChecksumCompletes(p: seq<nat>)
    ensures WellFormed(REGISTER)
    ensures Residue(REGISTER, Expand(p) + ChecksumValues(REGISTER, Expand(p), 1)) == Symbols(1, 8)
  {
    RegisterPacked();
    ChecksumUnique(REGISTER, Expand(p), 1, ChecksumValues(REGISTER, Expand(p), 1));
  }

  lemma BurstWithSuffix(pre: seq<nat>, xs: seq<nat>, ys: seq<nat>, post: seq<nat>, c: seq<nat>)
    requires Quintets(xs) && Quintets(ys) && |xs| == |ys| <= 8 && xs != ys
    ensures WellFormed(REGISTER)
    ensures Residue(REGISTER, pre + xs + post + c) != Residue(REGISTER, pre + ys + post + c)
  {
    RegisterInvertible();
    BurstChangesResidue(REGISTER, pre, xs, ys, post + c);
    assert pre + xs + post + c == pre + xs + (post + c);
    assert pre + ys + post + c == pre + ys + (post + c);
  }

  /** Corrupting a descriptor within two consecutive groups of three characters, by
      characters of the set or by others, makes its old checksum fail. */
  lemma CorruptionRejected(cs: string, desc: string, other: string, g: nat)
    requires Charset(cs) && InSet(cs, desc) && |desc| == |other| && desc != other
    requires forall i :: 0 <= i < |desc| && !(3 * g <= i < 3 * g + 6) ==> desc[i] == other[i]
    ensures Verify(cs, other + "#" + ChecksumOf(cs, desc)) == (other, false)
  {
    NoHash(cs, desc);
    SuffixAccepted(cs, other, ChecksumOf(cs, desc));
    ChecksumsDiffer(cs, desc, other, g);
  }

  lemma ChecksumsDiffer(cs: string, desc: string, other: string, g: nat)
    requires Charset(cs) && InSet(cs, desc) && |desc| == |other| && desc != other
    requires forall i :: 0 <= i < |desc| && !(3 * g <= i < 3 * g + 6) ==> desc[i] == other[i]
    ensures ChecksumOf(cs, desc) != ChecksumOf(cs, other)
  {
    RegisterPacked();
    if InSet(cs, other) {
      var p, q := Positions(cs, desc), Positions(cs, other);
      assert p != q by {
        var k :| 0 <= k < |desc| && desc[k] != other[k];
        assert cs[p[k]] == desc[k] && cs[q[k]] == other[k];
      }
      assert SameOutside(p, q, g);
      TwoGroupErrorChangesChecksum(p, q, g);
      Bech32.CharsDistinct(ChecksumValues(REGISTER, Expand(p), 1), ChecksumValues(REGISTER, Expand(q), 1));
    }
  }

  /** Any change of up to four consecutive characters, a swap of neighbours included, is rejected. */
  lemma FourCharacterErrorRejected(cs: string, desc: string, other: string, a: nat)
    requires Charset(cs) && InSet(cs, desc) && |desc| == |other| && desc != other
    requires forall i :: 0 <= i < |desc| && !(a <= i < a + 4) ==> desc[i] == other[i]
    ensures Verify(cs, other + "#" + ChecksumOf(cs, desc)) == (other, false)
  {
    CorruptionRejected(cs, desc, other, a / 3);
  }

  // ---- The set of BIP 380 ---------------------------------------------------

  predicate Printable(c: char) {
    ' ' <= c <= '~'
  }

  /** Where the set has a printable character. */
  function PositionOf(c: char): (k: nat)
    requires Printable(c)
    ensures k < 95
  {
    var n := c as int;
    if '0' <= c <= '9' then n - 48
    else if 'a' <= c <= 'h' then n - 97 + 18
    else if 'I' <= c <= 'Z' then n - 73 + 32
    else if 'i' <= c <= 'z' then n - 105 + 64
    else if 'A' <= c <= 'H' then n - 65 + 82
    else
      match c
      case '(' => 10
      case ')' => 11
      case '[' => 12
      case ']' => 13
      case ',' => 14
      case '\'' => 15
      case '/' => 16
      case '*' => 17
      case '@' => 26
      case ':' => 27
      case '$' => 28
      case '%' => 29
      case '{' => 30
      case '}' => 31
      case '&' => 50
      case '+' => 51
      case '-' => 52
      case '.' => 53
      case ';' => 54
      case '<' => 55
      case '=' => 56
      case '>' => 57
      case '?' => 58
      case '!' => 59
      case '^' => 60
      case '_' => 61
      case '|' => 62
      case '~' => 63
      case '`' => 90
      case '#' => 91
      case '\"' => 92
      case '\\' => 93
      case _ => 94
  }

  /** The characters of one class are those at the positions from k on. */
  ghost predicate Spells(chars: string, k: nat) {
    && (forall i :: 0 <= i < |chars| ==> Printable(chars[i]) && PositionOf(chars[i]) == k + i)
    && (forall c :: Printable(c) && k <= PositionOf(c) < k + |chars| ==> chars[PositionOf(c) - k] == c)
  }

  /** The set is the 95 printable ASCII characters, each at one position. */
  lemma InputCharset()
    ensures |INPUT_CHARSET| == 95 && Charset(INPUT_CHARSET) && Spells(INPUT_CHARSET, 0)
  {
    FirstClass();
    SecondClass();
    ThirdClass();
    hide Spells;
    SpellsBoth(CLASS0, CLASS1, 0);
    SpellsBoth(CLASS0 + CLASS1, CLASS2, 0);
  }

  lemma SpellsBoth(a: string, b: string, k: nat)
    requires Spells(a, k) && Spells(b, k + |a|)
    ensures Spells(a + b, k)
  {
    hide Printable, PositionOf;
  }

  lemma FirstClass()
    ensures |CLASS0| == 32 && Spells(CLASS0, 0)
  {
    hide Printable, PositionOf;
    forall i | 0 <= i < 32
      ensures Printable(CLASS0[i]) && PositionOf(CLASS0[i]) == 0 + i
    {
      AtFirstClass(i);
    }
    forall c | Printable(c) && 0 <= PositionOf(c) < 32
      ensures CLASS0[PositionOf(c) - 0] == c
    {
      InFirstClass(c);
    }
  }

  lemma AtFirstClass(i: nat)
    requires i < 32
    ensures Printable(CLASS0[i]) && PositionOf(CLASS0[i]) == 0 + i
  {
  }

  lemma InFirstClass(c: char)
    requires Printable(c) && 0 <= PositionOf(c) < 32
    ensures CLASS0[PositionOf(c) - 0] == c
  {
  }

  lemma SecondClass()
    ensures |CLASS1| == 32 && Spells(CLASS1, 32)
  {
    hide Printable, PositionOf;
    forall i | 0 <= i < 32
      ensures Printable(CLASS1[i]) && PositionOf(CLASS1[i]) == 32 + i
    {
      AtSecondClass(i);
    }
    forall c | Printable(c) && 32 <= PositionOf(c) < 64
      ensures CLASS1[PositionOf(c) - 32] == c
    {
      InSecondClass(c);
    }
  }

  lemma AtSecondClass(i: nat)
    requires i < 32
    ensures Printable(CLASS1[i]) && PositionOf(CLASS1[i]) == 32 + i
  {
    if i < 18 {
      assert CLASS1[i] as int == 73 + i;
    }
  }

  lemma InSecondClass(c: char)
    requires Printable(c) && 32 <= PositionOf(c) < 64
    ensures CLASS1[PositionOf(c) - 32] == c
  {
  }

  lemma ThirdClass()
    ensures |CLASS2| == 31 && Spells(CLASS2, 64)
  {
    hide Printable, PositionOf;
    forall i | 0 <= i < 31
      ensures Printable(CLASS2[i]) && PositionOf(CLASS2[i]) == 64 + i
    {
      AtThirdClass(i);
    }
    forall c | Printable(c) && 64 <= PositionOf(c) < 95
      ensures CLASS2[PositionOf(c) - 64] == c
    {
      InThirdClass(c);
    }
  }

  lemma AtThirdClass(i: nat)
    requires i < 31
    ensures Printable(CLASS2[i]) && PositionOf(CLASS2[i]) == 64 + i
  {
    if i < 18 {
      assert CLASS2[i] as int == 105 + i;
    }
  }

  lemma InThirdClass(c: char)
    requires Printable(c) && 64 <= PositionOf(c) < 95
    ensures CLASS2[PositionOf(c) - 64] == c
  {
  }

  /** A descriptor is in the set exactly if all its characters are printable ASCII. */
  lemma InSetExactly(desc: string)
    ensures InSet(INPUT_CHARSET, desc) <==> forall i :: 0 <= i < |desc| ==> Printable(desc[i])
  {
    InputCharset();
    hide PositionOf, Printable;
    forall i | 0 <= i < |desc|
      ensures Find(INPUT_CHARSET, desc[i]) >= 0 <==> Printable(desc[i])
    {
      var k := Find(INPUT_CHARSET, desc[i]);
      assert k >= 0 ==> Printable(INPUT_CHARSET[k]);
      if Printable(desc[i]) {
        assert INPUT_CHARSET[PositionOf(desc[i])] in INPUT_CHARSET;
      }
    }
  }

  /** So a line break followed by a bare '#' passes for a descriptor with its checksum. */
  lemma LineBreakAccepted()
    ensures Verify(INPUT_CHARSET, "\n" + "#") == ("\n", true)
  {
    InputCharset();
    InSetExactly("\n");
    assert !Printable("\n"[0]);
    hide Verify, InSet;
    BareHashAccepted(INPUT_CHARSET, "\n");
  }
}
