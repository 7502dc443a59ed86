/** The checksum registers on concrete values, with GF(32) in five-bit machine words: what is
    needed to follow a published test vector symbol by symbol to the printed string. */
module FiveBitWords {
  import opened ShiftRegister
  import opened PackedRegister
  import opened Strings
  import Bech32
  import opened Bits
  import opened ConvertBits
  import DescriptorChecksum

  // ---- GF(32) in five-bit words ---------------------------------------------

  function Low(x: bv5): Symbol {
    Symbol(x & 16 != 0, x & 8 != 0, x & 4 != 0, x & 2 != 0, x & 1 != 0)
  }

  function Twice(x: bv5): bv5 {
    (x << 1) ^ (if x & 16 != 0 then 9 else 0)
  }

  function Plus(a: bv5, b: bv5): bv5 {
    a ^ b
  }

  function Tapped(b: bv5, mask: bv5, k: bv5): bv5 {
    if b & mask != 0 then k else 0
  }

  function Sum(a: bv5, b: bv5, c: bv5, d: bv5, e: bv5): bv5 {
    a ^ b ^ c ^ d ^ e
  }

  function Times(b: bv5, k: bv5): bv5 {
    var k1 := Twice(k);
    var k2 := Twice(k1);
    var k3 := Twice(k2);
    Sum(if b & 1 != 0 then k else 0, if b & 2 != 0 then k1 else 0, if b & 4 != 0 then k2 else 0,
      if b & 8 != 0 then k3 else 0, if b & 16 != 0 then Twice(k3) else 0)
  }

  lemma LowPlus(a: bv5, b: bv5)
    ensures Low(Plus(a, b)) == Low(a).Xor(Low(b))
  {
  }

  lemma SumIsPlus(a: bv5, b: bv5)
    ensures a ^ b == Plus(a, b)
  {
  }

  lemma LowTwice(a: bv5)
    ensures Low(Twice(a)) == Doubled(Low(a))
  {
  }

  lemma LowTapped(b: bv5, k: bv5)
    ensures Low(Tapped(b, 1, k)) == Tap(Low(b).b0, Low(k)) && Low(Tapped(b, 2, k)) == Tap(Low(b).b1, Low(k))
    ensures Low(Tapped(b, 4, k)) == Tap(Low(b).b2, Low(k)) && Low(Tapped(b, 8, k)) == Tap(Low(b).b3, Low(k))
    ensures Low(Tapped(b, 16, k)) == Tap(Low(b).b4, Low(k))
  {
  }

  /** The words multiply as the symbols do. */
  lemma LowTimes(b: bv5, k: bv5)
    ensures Low(Times(b, k)) == Product(Low(b), Low(k))
  {
    var k1 := Twice(k);
    var k2 := Twice(k1);
    var k3 := Twice(k2);
    var k4 := Twice(k3);
    TimesSum(b, k);
    LowTwice(k);
    LowTwice(k1);
    LowTwice(k2);
    LowTwice(k3);
    LowTapped(b, k);
    LowTapped(b, k1);
    LowTapped(b, k2);
    LowTapped(b, k3);
    LowTapped(b, k4);
    hide Low, Times, Twice, Doubled, Tap, Tapped, Plus;
    LowSum(Tapped(b, 1, k), Tapped(b, 2, k1), Tapped(b, 4, k2), Tapped(b, 8, k3), Tapped(b, 16, k4));
  }

  lemma TimesSum(b: bv5, k: bv5)
    ensures var k1, k2 := Twice(k), Twice(Twice(k));
      Times(b, k) == Plus(Plus(Plus(Plus(Tapped(b, 1, k), Tapped(b, 2, k1)), Tapped(b, 4, k2)),
        Tapped(b, 8, Twice(k2))), Tapped(b, 16, Twice(Twice(k2))))
  {
    var k1 := Twice(k);
    var k2 := Twice(k1);
    var k3 := Twice(k2);
    TimesOf(b, k, k1, k2, k3, Twice(k3));
    hide *;
    FiveSum(Tapped(b, 1, k), Tapped(b, 2, k1), Tapped(b, 4, k2), Tapped(b, 8, k3), Tapped(b, 16, Twice(k3)));
  }

  lemma TimesOf(b: bv5, k: bv5, k1: bv5, k2: bv5, k3: bv5, k4: bv5)
    requires k1 == Twice(k) && k2 == Twice(k1) && k3 == Twice(k2) && k4 == Twice(k3)
    ensures Times(b, k)
         == Sum(Tapped(b, 1, k), Tapped(b, 2, k1), Tapped(b, 4, k2), Tapped(b, 8, k3), Tapped(b, 16, k4))
  {
    TappedIs(b, 1, k);
    TappedIs(b, 2, k1);
    TappedIs(b, 4, k2);
    TappedIs(b, 8, k3);
    TappedIs(b, 16, k4);
    hide Twice, Tapped, Sum;
  }

  lemma TappedIs(b: bv5, mask: bv5, k: bv5)
    ensures Tapped(b, mask, k) == if b & mask != 0 then k else 0
  {
  }

  lemma FiveSum(a: bv5, b: bv5, c: bv5, d: bv5, e: bv5)
    ensures Sum(a, b, c, d, e) == Plus(Plus(Plus(Plus(a, b), c), d), e)
  {
  }

  lemma LowSum(a: bv5, b: bv5, c: bv5, d: bv5, e: bv5)
    ensures Low(Plus(Plus(Plus(Plus(a, b), c), d), e)) == Low(a).Xor(Low(b)).Xor(Low(c)).Xor(Low(d)).Xor(Low(e))
  {
    LowPlus(a, b);
    LowPlus(Plus(a, b), c);
    LowPlus(Plus(Plus(a, b), c), d);
    LowPlus(Plus(Plus(Plus(a, b), c), d), e);
    hide Low, Plus;
  }

  // ---- One step of the registers --------------------------------------------

  /** A position takes over the one after it, plus a coefficient times what falls out. */
  predicate Moves(t: bv5, n: bv5, b: bv5, k: bv5) {
    t == n ^ Times(b, k)
  }

  predicate Steps6(a: bv5, b: bv5, c: bv5, d: bv5, e: bv5, f: bv5, v: bv5,
        t0: bv5, t1: bv5, t2: bv5, t3: bv5, t4: bv5, t5: bv5) {
    && t0 == b ^ Times(a, 29)
    && t1 == c ^ Times(a, 22)
    && t2 == d ^ Times(a, 20)
    && t3 == e ^ Times(a, 21)
    && t4 == f ^ Times(a, 29)
    && t5 == v ^ Times(a, 18)
  }

  lemma Steps6Move(a: bv5, b: bv5, c: bv5, d: bv5, e: bv5, f: bv5, v: bv5,
        t0: bv5, t1: bv5, t2: bv5, t3: bv5, t4: bv5, t5: bv5)
    requires Steps6(a, b, c, d, e, f, v, t0, t1, t2, t3, t4, t5)
    ensures Moves(t0, b, a, 29) && Moves(t1, c, a, 22)
    ensures Moves(t2, d, a, 20) && Moves(t3, e, a, 21)
    ensures Moves(t4, f, a, 29) && Moves(t5, v, a, 18)
  {
    hide Times;
  }

  predicate Steps8(a: bv5, b: bv5, c: bv5, d: bv5, e: bv5, f: bv5, g: bv5, h: bv5, v: bv5,
        t0: bv5, t1: bv5, t2: bv5, t3: bv5, t4: bv5, t5: bv5, t6: bv5, t7: bv5) {
    && t0 == b ^ Times(a, 30)
    && t1 == c ^ Times(a, 23)
    && t2 == d ^ Times(a, 15)
    && t3 == e ^ Times(a, 14)
    && t4 == f ^ Times(a, 10)
    && t5 == g ^ Times(a, 6)
    && t6 == h ^ Times(a, 12)
    && t7 == v ^ Times(a, 9)
  }

  lemma Steps8Move(a: bv5, b: bv5, c: bv5, d: bv5, e: bv5, f: bv5, g: bv5, h: bv5, v: bv5,
        t0: bv5, t1: bv5, t2: bv5, t3: bv5, t4: bv5, t5: bv5, t6: bv5, t7: bv5)
    requires Steps8(a, b, c, d, e, f, g, h, v, t0, t1, t2, t3, t4, t5, t6, t7)
    ensures Moves(t0, b, a, 30) && Moves(t1, c, a, 23)
    ensures Moves(t2, d, a, 15) && Moves(t3, e, a, 14)
    ensures Moves(t4, f, a, 10) && Moves(t5, g, a, 6)
    ensures Moves(t6, h, a, 12) && Moves(t7, v, a, 9)
  {
    hide Times;
  }

  lemma StepOf(t: bv5, n: bv5, b: bv5, k: bv5, value: nat)
    requires Moves(t, n, b, k) && At(value, 0) == Low(k)
    ensures Low(t) == Low(n).Xor(Product(Low(b), At(value, 0)))
  {
    SumIsPlus(n, Times(b, k));
    assert t == Plus(n, Times(b, k)) by {
      hide Times, Plus;
    }
    LowPlus(n, Times(b, k));
    LowTimes(b, k);
    hide *;
  }

  function Value(x: bv5): nat {
    SymbolValue(Low(x))
  }

  lemma ValueAt(x: bv5)
    ensures Value(x) < 32 && At(Value(x), 0) == Low(x)
  {
    SymbolOfValue(Low(x));
    hide SymbolValue, Low, At;
  }

  lemma TimesZero(k: bv5)
    ensures Times(0, k) == 0
  {
    hide Twice;
  }

  /** While zeros fall out, values are shifted in. */
  lemma Shifts6(b: bv5, c: bv5, d: bv5, e: bv5, f: bv5, v: bv5)
    ensures Steps6(0, b, c, d, e, f, v, b, c, d, e, f, v)
  {
    TimesZero(29);
    TimesZero(22);
    TimesZero(20);
    TimesZero(21);
    TimesZero(18);
    hide Times;
  }

  lemma Shifts8(b: bv5, c: bv5, d: bv5, e: bv5, f: bv5, g: bv5, h: bv5, v: bv5)
    ensures Steps8(0, b, c, d, e, f, g, h, v, b, c, d, e, f, g, h, v)
  {
    TimesZero(30);
    TimesZero(23);
    TimesZero(15);
    TimesZero(14);
    TimesZero(10);
    TimesZero(6);
    TimesZero(12);
    TimesZero(9);
    hide Times;
  }

  /** The register holds s after the values fed so far. */
  ghost predicate Reaches(m: Register, fed: seq<nat>, s: seq<Symbol>) {
    WellFormed(m) && Quintets(fed) && Residue(m, fed) == s
  }

  ghost predicate Stands6(fed: seq<nat>, a: bv5, b: bv5, c: bv5, d: bv5, e: bv5, f: bv5) {
    Reaches(Bech32.REGISTER, fed, [Low(a), Low(b), Low(c), Low(d), Low(e), Low(f)])
  }

  lemma Equations6(a: bv5, b: bv5, c: bv5, d: bv5, e: bv5, f: bv5, v: bv5,
        t0: bv5, t1: bv5, t2: bv5, t3: bv5, t4: bv5, t5: bv5)
    requires Steps6(a, b, c, d, e, f, v, t0, t1, t2, t3, t4, t5)
    ensures Low(t0) == Low(b).Xor(Product(Low(a), At(29, 0)))
    ensures Low(t1) == Low(c).Xor(Product(Low(a), At(22, 0)))
    ensures Low(t2) == Low(d).Xor(Product(Low(a), At(20, 0)))
    ensures Low(t3) == Low(e).Xor(Product(Low(a), At(21, 0)))
    ensures Low(t4) == Low(f).Xor(Product(Low(a), At(29, 0)))
    ensures Low(t5) == Low(v).Xor(Product(Low(a), At(18, 0)))
  {
    Steps6Move(a, b, c, d, e, f, v, t0, t1, t2, t3, t4, t5);
    hide Steps6, Low, Moves, Product, At;
    Named();
    StepOf(t0, b, a, 29, 29);
    StepOf(t1, c, a, 22, 22);
    StepOf(t2, d, a, 20, 20);
    StepOf(t3, e, a, 21, 21);
    StepOf(t4, f, a, 29, 29);
    StepOf(t5, v, a, 18, 18);
    hide *;
  }

  lemma Feed6(fed: seq<nat>, a: bv5, b: bv5, c: bv5, d: bv5, e: bv5, f: bv5, v: bv5,
        t0: bv5, t1: bv5, t2: bv5, t3: bv5, t4: bv5, t5: bv5) returns (next: seq<nat>)
    requires Stands6(fed, a, b, c, d, e, f) && Steps6(a, b, c, d, e, f, v, t0, t1, t2, t3, t4, t5)
    ensures next == fed + [Value(v)] && Stands6(next, t0, t1, t2, t3, t4, t5)
  {
    next := fed + [Value(v)];
    Equations6(a, b, c, d, e, f, v, t0, t1, t2, t3, t4, t5);
    ValueAt(v);
    hide Steps6, Low, Value, Product, At, Reaches;
    FeedSymbols6(fed, Low(a), Low(b), Low(c), Low(d), Low(e), Low(f), Value(v),
      Low(t0), Low(t1), Low(t2), Low(t3), Low(t4), Low(t5));
  }

  lemma FeedSymbols6(fed: seq<nat>, a: Symbol, b: Symbol, c: Symbol, d: Symbol, e: Symbol, f: Symbol, v: nat,
        t0: Symbol, t1: Symbol, t2: Symbol, t3: Symbol, t4: Symbol, t5: Symbol)
    requires Reaches(Bech32.REGISTER, fed, [a, b, c, d, e, f]) && v < 32
    requires t0 == b.Xor(Product(a, At(29, 0))) && t1 == c.Xor(Product(a, At(22, 0)))
    requires t2 == d.Xor(Product(a, At(20, 0))) && t3 == e.Xor(Product(a, At(21, 0)))
    requires t4 == f.Xor(Product(a, At(29, 0))) && t5 == At(v, 0).Xor(Product(a, At(18, 0)))
    ensures Reaches(Bech32.REGISTER, fed + [v], [t0, t1, t2, t3, t4, t5])
  {
    Bech32.GeneratorPolynomial();
    hide Product, Residue, Generates, Packs, At, Symbols;
    FeedWord(Bech32.REGISTER, [29, 22, 20, 21, 29, 18], fed, [a, b, c, d, e, f], v, [t0, t1, t2, t3, t4, t5]);
  }

  ghost predicate Stands8(fed: seq<nat>, a: bv5, b: bv5, c: bv5, d: bv5, e: bv5, f: bv5, g: bv5, h: bv5) {
    Reaches(DescriptorChecksum.REGISTER, fed, [Low(a), Low(b), Low(c), Low(d), Low(e), Low(f), Low(g), Low(h)])
  }

  lemma Equations8(a: bv5, b: bv5, c: bv5, d: bv5, e: bv5, f: bv5, g: bv5, h: bv5, v: bv5,
        t0: bv5, t1: bv5, t2: bv5, t3: bv5, t4: bv5, t5: bv5, t6: bv5, t7: bv5)
    requires Steps8(a, b, c, d, e, f, g, h, v, t0, t1, t2, t3, t4, t5, t6, t7)
    ensures Low(t0) == Low(b).Xor(Product(Low(a), At(30, 0)))
    ensures Low(t1) == Low(c).Xor(Product(Low(a), At(23, 0)))
    ensures Low(t2) == Low(d).Xor(Product(Low(a), At(15, 0)))
    ensures Low(t3) == Low(e).Xor(Product(Low(a), At(14, 0)))
    ensures Low(t4) == Low(f).Xor(Product(Low(a), At(10, 0)))
    ensures Low(t5) == Low(g).Xor(Product(Low(a), At(6, 0)))
    ensures Low(t6) == Low(h).Xor(Product(Low(a), At(12, 0)))
    ensures Low(t7) == Low(v).Xor(Product(Low(a), At(9, 0)))
  {
    Steps8Move(a, b, c, d, e, f, g, h, v, t0, t1, t2, t3, t4, t5, t6, t7);
    hide Steps8, Low, Moves, Product, At;
    Named();
    StepOf(t0, b, a, 30, 30);
    StepOf(t1, c, a, 23, 23);
    StepOf(t2, d, a, 15, 15);
    StepOf(t3, e, a, 14, 14);
    StepOf(t4, f, a, 10, 10);
    StepOf(t5, g, a, 6, 6);
    StepOf(t6, h, a, 12, 12);
    StepOf(t7, v, a, 9, 9);
    hide *;
  }

  lemma Feed8(fed: seq<nat>, a: bv5, b: bv5, c: bv5, d: bv5, e: bv5, f: bv5, g: bv5, h: bv5, v: bv5,
        t0: bv5, t1: bv5, t2: bv5, t3: bv5, t4: bv5, t5: bv5, t6: bv5, t7: bv5) returns (next: seq<nat>)
    requires Stands8(fed, a, b, c, d, e, f, g, h)
    requires Steps8(a, b, c, d, e, f, g, h, v, t0, t1, t2, t3, t4, t5, t6, t7)
    ensures next == fed + [Value(v)] && Stands8(next, t0, t1, t2, t3, t4, t5, t6, t7)
  {
    next := fed + [Value(v)];
    Equations8(a, b, c, d, e, f, g, h, v, t0, t1, t2, t3, t4, t5, t6, t7);
    ValueAt(v);
    hide Steps8, Low, Value, Product, At, Reaches;
    FeedSymbols8(fed, Low(a), Low(b), Low(c), Low(d), Low(e), Low(f), Low(g), Low(h), Value(v),
      Low(t0), Low(t1), Low(t2), Low(t3), Low(t4), Low(t5), Low(t6), Low(t7));
  }

  lemma FeedSymbols8(fed: seq<nat>, a: Symbol, b: Symbol, c: Symbol, d: Symbol, e: Symbol, f: Symbol, g: Symbol,
        h: Symbol, v: nat, t0: Symbol, t1: Symbol, t2: Symbol, t3: Symbol, t4: Symbol, t5: Symbol, t6: Symbol,
        t7: Symbol)
    requires Reaches(DescriptorChecksum.REGISTER, fed, [a, b, c, d, e, f, g, h]) && v < 32
    requires t0 == b.Xor(Product(a, At(30, 0))) && t1 == c.Xor(Product(a, At(23, 0)))
    requires t2 == d.Xor(Product(a, At(15, 0))) && t3 == e.Xor(Product(a, At(14, 0)))
    requires t4 == f.Xor(Product(a, At(10, 0))) && t5 == g.Xor(Product(a, At(6, 0)))
    requires t6 == h.Xor(Product(a, At(12, 0))) && t7 == At(v, 0).Xor(Product(a, At(9, 0)))
    ensures Reaches(DescriptorChecksum.REGISTER, fed + [v], [t0, t1, t2, t3, t4, t5, t6, t7])
  {
    DescriptorChecksum.GeneratorPolynomial();
    hide Product, Residue, Generates, Packs, At, Symbols;
    FeedWord(DescriptorChecksum.REGISTER, [30, 23, 15, 14, 10, 6, 12, 9], fed, [a, b, c, d, e, f, g, h], v,
      [t0, t1, t2, t3, t4, t5, t6, t7]);
  }

  lemma FeedWord(m: Register, poly: seq<nat>, fed: seq<nat>, s: seq<Symbol>, v: nat, t: seq<Symbol>)
    requires Generates(m, SymbolsOf(poly)) && Quintets(fed) && Residue(m, fed) == s && v < 32
    requires |poly| == |s| == |t|
    requires forall j :: 0 <= j < |t| ==>
      t[j] == (if j + 1 < |s| then s[j + 1] else At(v, 0)).Xor(Product(s[0], At(poly[j], 0)))
    ensures Quintets(fed + [v]) && Residue(m, fed + [v]) == t
  {
    FeedValue(m, fed, v);
    StepDivides(m, SymbolsOf(poly), s, At(v, 0));
    hide At, Product, Residue, Step;
  }

  lemma FeedValue(m: Register, fed: seq<nat>, v: nat)
    requires WellFormed(m) && Quintets(fed) && v < 32
    ensures Quintets(fed + [v]) && Residue(m, fed + [v]) == Step(m, Residue(m, fed), At(v, 0))
  {
    var vs := SymbolsOf(fed + [v]);
    assert vs[..|fed|] == SymbolsOf(fed) && vs[|fed|] == At(v, 0);
    hide At, Step;
  }

  lemma Named()
    ensures At(0, 0) == Low(0) && At(1, 0) == Low(1) && At(2, 0) == Low(2) && At(3, 0) == Low(3)
    ensures At(4, 0) == Low(4) && At(5, 0) == Low(5) && At(6, 0) == Low(6) && At(7, 0) == Low(7)
    ensures At(8, 0) == Low(8) && At(9, 0) == Low(9) && At(10, 0) == Low(10) && At(11, 0) == Low(11)
    ensures At(12, 0) == Low(12) && At(13, 0) == Low(13) && At(14, 0) == Low(14) && At(15, 0) == Low(15)
    ensures At(16, 0) == Low(16) && At(17, 0) == Low(17) && At(18, 0) == Low(18) && At(19, 0) == Low(19)
    ensures At(20, 0) == Low(20) && At(21, 0) == Low(21) && At(22, 0) == Low(22) && At(23, 0) == Low(23)
    ensures At(24, 0) == Low(24) && At(25, 0) == Low(25) && At(26, 0) == Low(26) && At(27, 0) == Low(27)
    ensures At(28, 0) == Low(28) && At(29, 0) == Low(29) && At(30, 0) == Low(30) && At(31, 0) == Low(31)
  {
  }

  lemma Values()
    ensures Value(0) == 0 && Value(1) == 1 && Value(2) == 2 && Value(3) == 3 && Value(4) == 4 && Value(5) == 5
    ensures Value(6) == 6 && Value(7) == 7
    ensures Value(8) == 8 && Value(9) == 9 && Value(10) == 10 && Value(11) == 11 && Value(12) == 12
    ensures Value(13) == 13 && Value(14) == 14 && Value(15) == 15
    ensures Value(16) == 16 && Value(17) == 17 && Value(18) == 18 && Value(19) == 19 && Value(20) == 20
    ensures Value(21) == 21 && Value(22) == 22 && Value(23) == 23
    ensures Value(24) == 24 && Value(25) == 25 && Value(26) == 26 && Value(27) == 27 && Value(28) == 28
    ensures Value(29) == 29 && Value(30) == 30 && Value(31) == 31
  {
  }

  lemma Words()
    ensures WellFormed(Bech32.REGISTER) && Symbols(1, 6) == [Low(0), Low(0), Low(0), Low(0), Low(0), Low(1)]
    ensures Symbols(0x2bc830a3, 6) == [Low(21), Low(28), Low(16), Low(12), Low(5), Low(3)]
    ensures WellFormed(DescriptorChecksum.REGISTER)
    ensures Symbols(1, 8) == [Low(0), Low(0), Low(0), Low(0), Low(0), Low(0), Low(0), Low(1)]
  {
    Bech32.RegisterPacked();
    DescriptorChecksum.RegisterPacked();
    Named();
    hide *;
    Word6(0, 0, 0, 0, 0, 1);
    Word6(21, 28, 16, 12, 5, 3);
    Word8(0, 0, 0, 0, 0, 0, 0, 1);
  }

  lemma Word6(a: nat, b: nat, c: nat, d: nat, e: nat, f: nat)
    requires a < 32 && b < 32 && c < 32 && d < 32 && e < 32 && f < 32
    ensures Symbols(((((a * 32 + b) * 32 + c) * 32 + d) * 32 + e) * 32 + f, 6)
         == [At(a, 0), At(b, 0), At(c, 0), At(d, 0), At(e, 0), At(f, 0)]
  {
    Horner6(a, b, c, d, e, f);
    SymbolsOfHorner([a, b, c, d, e, f]);
    hide At, Horner, Symbols;
  }

  lemma Word8(a: nat, b: nat, c: nat, d: nat, e: nat, f: nat, g: nat, h: nat)
    requires a < 32 && b < 32 && c < 32 && d < 32 && e < 32 && f < 32 && g < 32 && h < 32
    ensures Symbols(((((((a * 32 + b) * 32 + c) * 32 + d) * 32 + e) * 32 + f) * 32 + g) * 32 + h, 8)
         == [At(a, 0), At(b, 0), At(c, 0), At(d, 0), At(e, 0), At(f, 0), At(g, 0), At(h, 0)]
  {
    Horner8(a, b, c, d, e, f, g, h);
    SymbolsOfHorner([a, b, c, d, e, f, g, h]);
    hide At, Horner, Symbols;
  }

  lemma Started()
    ensures Stands6([], 0, 0, 0, 0, 0, 1) && Stands8([], 0, 0, 0, 0, 0, 0, 0, 1)
  {
    Words();
    hide Low, Symbols;
  }

  // ---- Printing -------------------------------------------------------------

  lemma CharsAppend(xs: seq<nat>, ys: seq<nat>)
    requires Quintets(xs) && Quintets(ys)
    ensures Quintets(xs + ys) && Bech32.Chars(xs + ys) == Bech32.Chars(xs) + Bech32.Chars(ys)
  {
  }

  /** The character of each value, as the table of BIP 173 lists them. */
  function Letter(v: nat): char {
    if v == 0 then 'q' else if v == 1 then 'p' else if v == 2 then 'z' else if v == 3 then 'r'
    else if v == 4 then 'y' else if v == 5 then '9' else if v == 6 then 'x' else if v == 7 then '8'
    else if v == 8 then 'g' else if v == 9 then 'f' else if v == 10 then '2' else if v == 11 then 't'
    else if v == 12 then 'v' else if v == 13 then 'd' else if v == 14 then 'w' else if v == 15 then '0'
    else if v == 16 then 's' else if v == 17 then '3' else if v == 18 then 'j' else if v == 19 then 'n'
    else if v == 20 then '5' else if v == 21 then '4' else if v == 22 then 'k' else if v == 23 then 'h'
    else if v == 24 then 'c' else if v == 25 then 'e' else if v == 26 then '6' else if v == 27 then 'm'
    else if v == 28 then 'u' else if v == 29 then 'a' else if v == 30 then '7'
    else 'l'
  }

  lemma LetterOf(v: nat)
    requires v < 32
    ensures Bech32.CHARSET[v] == Letter(v)
  {
  }

  lemma Spelled(values: seq<nat>, s: string)
    requires Quintets(values) && |values| == |s| && forall i :: 0 <= i < |s| ==> Letter(values[i]) == s[i]
    ensures Bech32.Chars(values) == s
  {
    hide Letter;
    forall i | 0 <= i < |s|
      ensures Bech32.Chars(values)[i] == s[i]
    {
      LetterOf(values[i]);
    }
  }

  // ---- Eight bits to five ---------------------------------------------------

  lemma {:induction false} FlattenAppend(xs: seq<nat>, ys: seq<nat>, w: nat)
    ensures Flatten(xs + ys, w) == Flatten(xs, w) + Flatten(ys, w)
    decreases |ys|
  {
    if ys == [] {
      assert xs + ys == xs && Flatten(xs, w) + [] == Flatten(xs, w);
    } else {
      var front, last := ys[..|ys| - 1], ys[|ys| - 1];
      FlattenAppend(xs, front, w);
      hide *;
      FlattenPush(xs + front, last, w);
      FlattenPush(front, last, w);
      assert xs + ys == xs + front + [last] && ys == front + [last];
      Associative(Flatten(xs, w), Flatten(front, w), BitsOf(last, w));
    }
  }

  /** The number a list of groups of w bits writes. */
  function Joined(d: seq<nat>, w: nat): nat {
    if d == [] then 0 else Join(Joined(d[..|d| - 1], w), w, d[|d| - 1])
  }

  lemma {:induction false} FlattenIsBits(d: seq<nat>, w: nat)
    requires Fits(d, w)
    ensures Flatten(d, w) == BitsOf(Joined(d, w), w * |d|)
  {
    if d == [] {
      NoBits(w);
    } else {
      hide BitsOf, Join, P2;
      var k := |d| - 1;
      FlattenIsBits(d[..k], w);
      BitsOfJoin(Joined(d[..k], w), w * k, d[k], w);
      OneMore(w, k);
    }
  }

  lemma NoBits(w: nat)
    ensures BitsOf(Joined([], w), w * 0) == []
  {
  }

  lemma OneMore(w: nat, k: nat)
    ensures w * k + w == w * (k + 1)
  {
  }

  lemma JoinedLast(d: seq<nat>, v: nat, w: nat)
    ensures Joined(d + [v], w) == P2(w) * Joined(d, w) + v
  {
    assert (d + [v])[..|d|] == d;
  }

  lemma JoinedFour(a: nat, b: nat, c: nat, d: nat, w: nat)
    ensures var p := P2(w); Joined([a, b, c, d], w) == p * (p * (p * a + b) + c) + d
  {
    JoinedNone(w);
    JoinedLast([], a, w);
    JoinedLast([a], b, w);
    JoinedLast([a, b], c, w);
    JoinedLast([a, b, c], d, w);
    hide *;
    assert [] + [a] == [a] && [a] + [b] == [a, b] && [a, b] + [c] == [a, b, c] && [a, b, c] + [d] == [a, b, c, d];
    assert Joined([a], w) == a;
  }

  lemma JoinedNone(w: nat)
    ensures Joined([], w) == 0
  {
  }

  lemma JoinedBytes(a: nat, b: nat, c: nat, d: nat, e: nat)
    ensures Joined([a, b, c, d, e], 8) == (((a * 256 + b) * 256 + c) * 256 + d) * 256 + e
  {
    assert P2(8) == 256;
    JoinedFour(a, b, c, d, 8);
    JoinedLast([a, b, c, d], e, 8);
    assert [a, b, c, d] + [e] == [a, b, c, d, e];
    hide *;
  }

  lemma JoinedFives(a: nat, b: nat, c: nat, d: nat, e: nat, f: nat, g: nat, h: nat)
    ensures Joined([a, b, c, d, e, f, g, h], 5)
         == ((((((a * 32 + b) * 32 + c) * 32 + d) * 32 + e) * 32 + f) * 32 + g) * 32 + h
  {
    assert P2(5) == 32;
    JoinedFour(a, b, c, d, 5);
    JoinedLast([a, b, c, d], e, 5);
    JoinedLast([a, b, c, d, e], f, 5);
    JoinedLast([a, b, c, d, e, f], g, 5);
    JoinedLast([a, b, c, d, e, f, g], h, 5);
    assert [a, b, c, d] + [e] == [a, b, c, d, e] && [a, b, c, d, e] + [f] == [a, b, c, d, e, f];
    assert [a, b, c, d, e, f] + [g] == [a, b, c, d, e, f, g];
    assert [a, b, c, d, e, f, g] + [h] == [a, b, c, d, e, f, g, h];
    hide *;
  }

  /** Five bytes and eight five-bit values that write one number are one stream. */
  lemma SameBlock(bytes: seq<nat>, fives: seq<nat>)
    requires |bytes| == 5 && |fives| == 8 && Fits(bytes, 8) && Fits(fives, 5)
    requires Joined(bytes, 8) == Joined(fives, 5)
    ensures Flatten(bytes, 8) == Flatten(fives, 5)
  {
    FlattenIsBits(bytes, 8);
    FlattenIsBits(fives, 5);
  }

  ghost predicate Regroups(bytes: seq<nat>, fives: seq<nat>) {
    Fits(bytes, 8) && Fits(fives, 5) && Flatten(bytes, 8) == Flatten(fives, 5)
  }

  lemma Block(bytes: seq<nat>, fives: seq<nat>, a: nat, b: nat, c: nat, d: nat, e: nat,
        s: nat, t: nat, u: nat, v: nat, w: nat, x: nat, y: nat, z: nat)
    requires Regroups(bytes, fives)
    requires a < 256 && b < 256 && c < 256 && d < 256 && e < 256
    requires s < 32 && t < 32 && u < 32 && v < 32 && w < 32 && x < 32 && y < 32 && z < 32
    requires (((a * 256 + b) * 256 + c) * 256 + d) * 256 + e
          == ((((((s * 32 + t) * 32 + u) * 32 + v) * 32 + w) * 32 + x) * 32 + y) * 32 + z
    ensures Regroups(bytes + [a, b, c, d, e], fives + [s, t, u, v, w, x, y, z])
  {
    var xs, ys := [a, b, c, d, e], [s, t, u, v, w, x, y, z];
    assert P2(8) == 256 && P2(5) == 32;
    JoinedBytes(a, b, c, d, e);
    JoinedFives(s, t, u, v, w, x, y, z);
    hide Flatten, Joined;
    SameBlock(xs, ys);
    FlattenAppend(bytes, xs, 8);
    FlattenAppend(fives, ys, 5);
  }

  /** The symbols of a list of bytes are the ones with their stream, completed by zero bits. */
  lemma FiveUnique(bytes: seq<nat>, fives: seq<nat>, pad: nat)
    requires Fits(fives, 5) && pad < 5 && Flatten(fives, 5) == Flatten(bytes, 8) + False(pad)
    ensures ToFive(bytes) == fives
  {
    var zeros := ToFiveStream(bytes);
    FlattenLength(fives, 5);
    FlattenLength(ToFive(bytes), 5);
    hide *;
    SamePad(|fives|, pad, |ToFive(bytes)|, zeros, |Flatten(bytes, 8)|);
    FivesDetermined(fives, ToFive(bytes));
  }

  lemma SamePad(m: nat, p: nat, n: nat, q: nat, bits: nat)
    requires 5 * m == bits + p && 5 * n == bits + q && p < 5 && q < 5
    ensures p == q
  {
  }

  lemma FivesDetermined(xs: seq<nat>, ys: seq<nat>)
    requires Fits(xs, 5) && Fits(ys, 5) && Flatten(xs, 5) == Flatten(ys, 5)
    ensures xs == ys
  {
    GroupsOfFlatten(xs, [], 5);
    GroupsOfFlatten(ys, [], 5);
    hide *;
  }

  /** The two bytes left over, completed by four zero bits. */
  lemma LastBlock(bytes: seq<nat>, fives: seq<nat>, a: nat, b: nat, s: nat, t: nat, u: nat, v: nat)
    requires Regroups(bytes, fives) && a < 256 && b < 256 && s < 32 && t < 32 && u < 32 && v < 32
    requires (a * 256 + b) * 16 == ((s * 32 + t) * 32 + u) * 32 + v
    ensures Fits(fives + [s, t, u, v], 5)
    ensures Flatten(fives + [s, t, u, v], 5) == Flatten(bytes + [a, b], 8) + False(4)
  {
    var xs, ys := [a, b], [s, t, u, v];
    assert P2(5) == 32;
    LastStream(a, b, s, t, u, v);
    hide Flatten, False, P2;
    FlattenAppend(bytes, xs, 8);
    FlattenAppend(fives, ys, 5);
    Associative(Flatten(bytes, 8), Flatten(xs, 8), False(4));
  }

  lemma LastStream(a: nat, b: nat, s: nat, t: nat, u: nat, v: nat)
    requires a < 256 && b < 256 && s < 32 && t < 32 && u < 32 && v < 32
    requires (a * 256 + b) * 16 == ((s * 32 + t) * 32 + u) * 32 + v
    ensures Flatten([s, t, u, v], 5) == Flatten([a, b], 8) + False(4)
  {
    hide BitsOf, Flatten, Joined, Join, False;
    var n := a * 256 + b;
    JoinedTwo(a, b);
    JoinedQuad(s, t, u, v);
    assert P2(8) == 256 && P2(5) == 32 && P2(4) == 16;
    FlattenIsBits([a, b], 8);
    FlattenIsBits([s, t, u, v], 5);
    BitsOfJoin(n, 16, 0, 4);
    JoinedZeros(n);
    ZeroBits(4);
  }

  lemma JoinedZeros(n: nat)
    ensures Join(n, 4, 0) == n * 16
  {
    assert P2(4) == 16;
  }

  lemma JoinedQuad(a: nat, b: nat, c: nat, d: nat)
    ensures Joined([a, b, c, d], 5) == ((a * 32 + b) * 32 + c) * 32 + d
  {
    assert P2(5) == 32;
    JoinedFour(a, b, c, d, 5);
    hide *;
  }

  lemma JoinedTwo(a: nat, b: nat)
    ensures Joined([a, b], 8) == a * 256 + b
  {
    assert P2(8) == 256;
    JoinedNone(8);
    JoinedLast([], a, 8);
    JoinedLast([a], b, 8);
    hide *;
    assert [] + [a] == [a] && [a] + [b] == [a, b];
    assert Joined([a], 8) == a;
  }

  // ---- From the register to the string --------------------------------------

  /** A suffix that brings the register to the target is the checksum. */
  lemma ChecksumIs(hrp: string, expanded: seq<nat>, data: seq<nat>, spec: nat, c: seq<nat>)
    requires Bech32.HrpExpand(hrp) == expanded && |c| == 6 && Quintets(c)
    requires Reaches(Bech32.REGISTER, expanded + (data + c), Symbols(spec, 6))
    ensures Bech32.Checksum(hrp, data, spec) == c
  {
    Bech32.ChecksumCorrectAndUnique(hrp, data, spec, c);
    hide Residue, Symbols, Bech32.HrpExpand, Bech32.Checksum;
  }

  lemma EncodedIs(hrp: string, witver: nat, witprog: seq<nat>, fives: seq<nat>, c: seq<nat>, values: seq<nat>)
    requires witver < 32 && ToFive(witprog) == fives
    requires Bech32.Checksum(hrp, [witver] + fives, Bech32.Spec(witver)) == c
    requires values == [witver] + fives + c && Quintets(values)
    ensures Bech32.Encoded(hrp, witver, witprog) == hrp + "1" + Bech32.Chars(values)
  {
    hide ToFive, Bech32.Checksum, Bech32.Chars;
  }

  lemma Gather4(x: seq<nat>, v: seq<nat>, f1: seq<nat>, f2: seq<nat>, f3: seq<nat>, f4: seq<nat>, c: seq<nat>)
    ensures x + v + f1 + f2 + f3 + f4 + c == x + (v + (f1 + f2 + f3 + f4) + c)
    ensures v + f1 + f2 + f3 + f4 + c == v + (f1 + f2 + f3 + f4) + c
  {
  }

  lemma Gather7(x: seq<nat>, v: seq<nat>, f1: seq<nat>, f2: seq<nat>, f3: seq<nat>, f4: seq<nat>, f5: seq<nat>,
          f6: seq<nat>, f7: seq<nat>, c: seq<nat>)
    ensures x + v + f1 + f2 + f3 + f4 + f5 + f6 + f7 + c == x + (v + (f1 + f2 + f3 + f4 + f5 + f6 + f7) + c)
    ensures v + f1 + f2 + f3 + f4 + f5 + f6 + f7 + c == v + (f1 + f2 + f3 + f4 + f5 + f6 + f7) + c
  {
  }

  lemma TargetReached(fed: seq<nat>)
    requires Stands6(fed, 0, 0, 0, 0, 0, 1)
    ensures Reaches(Bech32.REGISTER, fed, Symbols(1, 6))
  {
    Words();
    hide Residue, Low, Symbols;
  }

  lemma TargetMReached(fed: seq<nat>)
    requires Stands6(fed, 21, 28, 16, 12, 5, 3)
    ensures Reaches(Bech32.REGISTER, fed, Symbols(0x2bc830a3, 6))
  {
    Words();
    hide Residue, Low, Symbols;
  }

  lemma NothingRegrouped()
    ensures Regroups([], [])
  {
  }

  lemma Unpadded(bytes: seq<nat>, fives: seq<nat>)
    requires Regroups(bytes, fives)
    ensures ToFive(bytes) == fives
  {
    hide Flatten, ToFive;
    assert Flatten(bytes, 8) + False(0) == Flatten(bytes, 8);
    FiveUnique(bytes, fives, 0);
  }
}
