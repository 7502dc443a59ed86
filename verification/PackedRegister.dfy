/** A shift register of `n` symbols kept in one integer below P2(5 * n), as both
    checksum loops keep it: the symbol shifted out first is the most significant. */
module PackedRegister {
  import opened Arithmetic
  import opened Bits
  import opened ShiftRegister

  /** The k-th symbol of w, counted from the least significant end. */
  function At(w: nat, k: nat): Symbol {
    Symbol(Bit(w, 5 * k + 4), Bit(w, 5 * k + 3), Bit(w, 5 * k + 2), Bit(w, 5 * k + 1), Bit(w, 5 * k))
  }

  /** The low n symbols, most significant first. */
  function Symbols(w: nat, n: nat): (s: seq<Symbol>)
    ensures |s| == n
  {
    seq(n, j requires 0 <= j < n => At(w, n - 1 - j))
  }

  /** The symbols of a list of 5-bit values. */
  function SymbolsOf(vs: seq<nat>): (s: seq<Symbol>)
    ensures |s| == |vs|
  {
    seq(|vs|, i requires 0 <= i < |vs| => At(vs[i], 0))
  }

  function ZeroValues(n: nat): (z: seq<nat>)
    ensures |z| == n
  {
    seq(n, _ => 0)
  }

  lemma ZeroSymbols(n: nat)
    ensures Quintets(ZeroValues(n)) && SymbolsOf(ZeroValues(n)) == Zeros(n)
  {
    forall i | 0 <= i < n
      ensures SymbolsOf(ZeroValues(n))[i] == ZERO
    {
      BitOfZero(0);
      BitOfZero(1);
      BitOfZero(2);
      BitOfZero(3);
      BitOfZero(4);
    }
  }

  predicate Quintets(vs: seq<nat>) {
    forall i :: 0 <= i < |vs| ==> vs[i] < 32
  }

  lemma SymbolsOfAppend(xs: seq<nat>, ys: seq<nat>)
    ensures SymbolsOf(xs + ys) == SymbolsOf(xs) + SymbolsOf(ys)
  {
  }

  /** The lowest symbol of a number is its remainder modulo 32. */
  lemma LowSymbol(w: nat, q: nat, r: nat)
    requires w == 32 * q + r && r < 32
    ensures At(w, 0) == At(r, 0)
  {
    assert P2(5) == 32;
    BitOfSum(q, r, 5, 0);
    BitOfSum(q, r, 5, 1);
    BitOfSum(q, r, 5, 2);
    BitOfSum(q, r, 5, 3);
    BitOfSum(q, r, 5, 4);
  }

  /** A value below 32 is determined by its symbol. */
  lemma ValueDetermined(x: nat, y: nat)
    requires x < 32 && y < 32 && At(x, 0) == At(y, 0)
    ensures x == y
  {
    assert P2(5) == 32;
    forall i | 0 <= i < 5
      ensures Bit(x, i) == Bit(y, i)
    {
      assert At(x, 0).Bit(i) == At(y, 0).Bit(i);
    }
    Determined(x, y, 5);
  }

  lemma ValuesDetermined(xs: seq<nat>, ys: seq<nat>)
    requires Quintets(xs) && Quintets(ys) && SymbolsOf(xs) == SymbolsOf(ys)
    ensures xs == ys
  {
    assert |xs| == |SymbolsOf(xs)| == |ys|;
    forall i | 0 <= i < |xs|
      ensures xs[i] == ys[i]
    {
      assert SymbolsOf(xs)[i] == SymbolsOf(ys)[i];
      ValueDetermined(xs[i], ys[i]);
    }
  }

  /** `(w >> (5 * k)) & 31`. */
  function Extract(w: nat, k: nat): (v: nat)
    ensures v < 32
  {
    DivMod(w, P2(5 * k));
    w / P2(5 * k) % 32
  }

  lemma ExtractAt(w: nat, k: nat)
    ensures At(Extract(w, k), 0) == At(w, k)
  {
    var n := 5 * k;
    DivMod(w, P2(n));
    var q: nat := w / P2(n);
    assert P2(5) == 32;
    BitOfRemainder(q, 5, 0);
    BitOfRemainder(q, 5, 1);
    BitOfRemainder(q, 5, 2);
    BitOfRemainder(q, 5, 3);
    BitOfRemainder(q, 5, 4);
    BitOfQuotient(w, n, 0);
    BitOfQuotient(w, n, 1);
    BitOfQuotient(w, n, 2);
    BitOfQuotient(w, n, 3);
    BitOfQuotient(w, n, 4);
  }

  lemma ExtractAll(w: nat, n: nat, c: seq<nat>)
    requires |c| == n && forall i :: 0 <= i < n ==> c[i] == Extract(w, n - 1 - i)
    ensures Quintets(c) && SymbolsOf(c) == Symbols(w, n)
  {
    forall i | 0 <= i < n
      ensures SymbolsOf(c)[i] == Symbols(w, n)[i]
    {
      ExtractAt(w, n - 1 - i);
    }
  }

  lemma AtXor(x: nat, y: nat, k: nat)
    ensures At(Xor(x, y), k) == At(x, k).Xor(At(y, k))
  {
    BitXor(x, y, 5 * k);
    BitXor(x, y, 5 * k + 1);
    BitXor(x, y, 5 * k + 2);
    BitXor(x, y, 5 * k + 3);
    BitXor(x, y, 5 * k + 4);
  }

  lemma SymbolsXor(x: nat, y: nat, n: nat)
    ensures Symbols(Xor(x, y), n) == XorAll(Symbols(x, n), Symbols(y, n))
  {
    forall j | 0 <= j < n
      ensures Symbols(Xor(x, y), n)[j] == XorAll(Symbols(x, n), Symbols(y, n))[j]
    {
      AtXor(x, y, n - 1 - j);
    }
  }

  // ---- Words in base 32 -----------------------------------------------------

  /** The symbol of a value below 32, bit by bit. */
  function Sym(v: nat): Symbol {
    Symbol(v / 16 % 2 == 1, v / 8 % 2 == 1, v / 4 % 2 == 1, v / 2 % 2 == 1, v % 2 == 1)
  }

  lemma SymIsLow(v: nat)
    ensures At(v, 0) == Sym(v)
  {
    var h := v / 2;
    var q := h / 2;
    var e := q / 2;
    Halves(v);
    assert Bit(v, 1) == Bit(h, 0) && Bit(v, 2) == Bit(h, 1) == Bit(q, 0);
    assert Bit(v, 3) == Bit(h, 2) == Bit(q, 1) == Bit(e, 0);
    assert Bit(v, 4) == Bit(h, 3) == Bit(q, 2) == Bit(e, 1) == Bit(e / 2, 0);
  }

  lemma Halves(v: nat)
    ensures v / 2 / 2 == v / 4 && v / 4 / 2 == v / 8 && v / 8 / 2 == v / 16
  {
  }

  /** A word written in base 32. */
  function Horner(d: seq<nat>): nat {
    if d == [] then 0 else 32 * Horner(d[..|d| - 1]) + d[|d| - 1]
  }

  lemma Horner6(a: nat, b: nat, c: nat, d: nat, e: nat, f: nat)
    ensures Horner([a, b, c, d, e, f]) == ((((a * 32 + b) * 32 + c) * 32 + d) * 32 + e) * 32 + f
  {
    hide Horner;
    var s := [a, b, c, d, e, f];
    assert s[..5][..4] == s[..4] && s[..4][..3] == s[..3] && s[..3][..2] == s[..2] && s[..2][..1] == s[..1];
    assert s[..1][..0] == [];
    HornerLast(s);
    HornerLast(s[..5]);
    HornerLast(s[..4]);
    HornerLast(s[..3]);
    HornerLast(s[..2]);
    HornerLast(s[..1]);
    HornerNone();
  }

  lemma Horner8(a: nat, b: nat, c: nat, d: nat, e: nat, f: nat, g: nat, h: nat)
    ensures Horner([a, b, c, d, e, f, g, h])
         == ((((((a * 32 + b) * 32 + c) * 32 + d) * 32 + e) * 32 + f) * 32 + g) * 32 + h
  {
    hide Horner;
    var s := [a, b, c, d, e, f, g, h];
    assert s[..7][..6] == s[..6] == [a, b, c, d, e, f];
    HornerLast(s);
    HornerLast(s[..7]);
    Horner6(a, b, c, d, e, f);
  }

  lemma HornerNone()
    ensures Horner([]) == 0
  {
  }

  lemma AtAbove(q: nat, r: nat, k: nat)
    requires r < 32
    ensures At(32 * q + r, k + 1) == At(q, k)
  {
    assert P2(5) == 32;
    DivUnique(32 * q + r, 32, q, r);
    BitOfQuotient(32 * q + r, 5, 5 * k);
    BitOfQuotient(32 * q + r, 5, 5 * k + 1);
    BitOfQuotient(32 * q + r, 5, 5 * k + 2);
    BitOfQuotient(32 * q + r, 5, 5 * k + 3);
    BitOfQuotient(32 * q + r, 5, 5 * k + 4);
  }

  /** The symbols of a word are its digits in base 32. */
  lemma {:induction false} SymbolsOfHorner(d: seq<nat>)
    requires Quintets(d)
    ensures Symbols(Horner(d), |d|) == SymbolsOf(d)
  {
    if d != [] {
      var n := |d| - 1;
      var q, r := Horner(d[..n]), d[n];
      SymbolsOfHorner(d[..n]);
      LowSymbol(32 * q + r, q, r);
      hide At, Horner;
      forall j | 0 <= j < |d|
        ensures Symbols(32 * q + r, |d|)[j] == SymbolsOf(d)[j]
      {
        if j < n {
          AtAbove(q, r, n - 1 - j);
          assert Symbols(q, n)[j] == SymbolsOf(d[..n])[j];
        }
      }
      HornerLast(d);
    }
  }

  lemma HornerLast(d: seq<nat>)
    requires d != []
    ensures Horner(d) == 32 * Horner(d[..|d| - 1]) + d[|d| - 1]
  {
  }

  /** Each value of b is x times that of a in GF(32). */
  predicate DoublesTo(a: seq<nat>, b: seq<nat>) {
    |a| == |b| && forall j :: 0 <= j < |a| ==> a[j] < 32 && b[j] == DoubledValue(a[j])
  }

  /** Times x on values: bits 3 and 0 take in what leaves at the top. */
  function DoubledValue(v: nat): nat {
    if v < 16 then 2 * v else if v / 4 % 2 == 1 then 2 * v - 39 else 2 * v - 23
  }

  lemma SymDoubles(v: nat)
    requires v < 32
    ensures Sym(DoubledValue(v)) == Doubled(Sym(v))
  {
    var s := Sym(v);
    SymIsLow(v);
    SymbolOfValue(s);
    ValueDetermined(v, SymbolValue(s));
    ValueDoubles(s);
    SymbolOfValue(Doubled(s));
    SymIsLow(SymbolValue(Doubled(s)));
    hide Sym, SymbolValue, DoubledValue, Doubled, At;
  }

  lemma ValueDoubles(s: Symbol)
    ensures DoubledValue(SymbolValue(s)) == SymbolValue(Doubled(s))
  {
    var high, low := (if s.b4 then 4 else 0) + (if s.b3 then 2 else 0) + (if s.b2 then 1 else 0),
      (if s.b1 then 2 else 0) + (if s.b0 then 1 else 0);
    assert SymbolValue(s) == 4 * high + low;
    assert SymbolValue(s) / 4 == high;
  }

  lemma DoublesSix(a: nat, b: nat, c: nat, d: nat, e: nat, f: nat)
    requires a < 32 && b < 32 && c < 32 && d < 32 && e < 32 && f < 32
    ensures DoublesTo([a, b, c, d, e, f], [DoubledValue(a), DoubledValue(b), DoubledValue(c), DoubledValue(d),
        DoubledValue(e), DoubledValue(f)])
  {
    hide DoubledValue;
  }

  lemma DoublesMore(xs: seq<nat>, ys: seq<nat>, a: nat, b: nat)
    requires DoublesTo(xs, ys) && a < 32 && b < 32
    ensures DoublesTo(xs + [a, b], ys + [DoubledValue(a), DoubledValue(b)])
  {
    hide DoubledValue;
  }

  /** Words whose base-32 digits double row by row pack the register of a polynomial. */
  lemma RowsGenerate(m: Register, gen: seq<nat>, rows: seq<seq<nat>>)
    requires Packs(gen, m) && |rows| == 5
    requires forall i :: 0 <= i < 5 ==> |rows[i]| == m.width && Quintets(rows[i]) && Horner(rows[i]) == gen[i]
    requires forall i :: 0 <= i < 4 ==> DoublesTo(rows[i], rows[i + 1])
    ensures Generates(m, SymbolsOf(rows[0]))
  {
    hide Horner, Sym, Quintets;
    forall i, j | 0 <= i < 5 && 0 <= j < m.width
      ensures m.taps[i][j] == Shifted(SymbolsOf(rows[0])[j], i)
    {
      SymbolsOfHorner(rows[i]);
      SymIsLow(rows[i][j]);
      RowShifted(rows, i, j);
      SymIsLow(rows[0][j]);
    }
  }

  lemma {:induction false} RowShifted(rows: seq<seq<nat>>, i: nat, j: nat)
    requires |rows| == 5 && i < 5 && (forall k :: 0 <= k < 4 ==> DoublesTo(rows[k], rows[k + 1])) && j < |rows[0]|
    ensures |rows[i]| == |rows[0]| && Sym(rows[i][j]) == Shifted(Sym(rows[0][j]), i)
  {
    hide Sym, Doubled, DoubledValue;
    if i > 0 {
      RowShifted(rows, i - 1, j);
      assert DoublesTo(rows[i - 1], rows[i - 1 + 1]);
      SymDoubles(rows[i - 1][j]);
    }
  }

  function SymbolValue(s: Symbol): (v: nat)
    ensures v < 32
  {
    (if s.b4 then 16 else 0) + (if s.b3 then 8 else 0) + (if s.b2 then 4 else 0)
    + (if s.b1 then 2 else 0) + (if s.b0 then 1 else 0)
  }

  lemma SymbolOfValue(s: Symbol)
    ensures At(SymbolValue(s), 0) == s
  {
    var v := SymbolValue(s);
    var h4 := if s.b4 then 1 else 0;
    var h3 := 2 * h4 + (if s.b3 then 1 else 0);
    var h2 := 2 * h3 + (if s.b2 then 1 else 0);
    var h1 := 2 * h2 + (if s.b1 then 1 else 0);
    assert v == 2 * h1 + (if s.b0 then 1 else 0);
    assert Bit(v, 4) == Bit(h1, 3) == Bit(h2, 2) == Bit(h3, 1) == Bit(h4, 0);
    assert Bit(v, 3) == Bit(h1, 2) == Bit(h2, 1) == Bit(h3, 0);
    assert Bit(v, 2) == Bit(h1, 1) == Bit(h2, 0);
    assert Bit(v, 1) == Bit(h1, 0);
  }

  function ValuesOf(s: seq<Symbol>): (vs: seq<nat>)
    ensures |vs| == |s| && Quintets(vs)
  {
    seq(|s|, i requires 0 <= i < |s| => SymbolValue(s[i]))
  }

  lemma SymbolsOfValues(s: seq<Symbol>)
    ensures SymbolsOf(ValuesOf(s)) == s
  {
    forall i | 0 <= i < |s|
      ensures SymbolsOf(ValuesOf(s))[i] == s[i]
    {
      SymbolOfValue(s[i]);
    }
  }

  lemma TopSymbol(c: nat, n: nat, i: nat)
    requires n > 0 && i < 5
    ensures 0 <= c / P2(5 * (n - 1))
    ensures Bit(c / P2(5 * (n - 1)), i) == Symbols(c, n)[0].Bit(i)
  {
    BitOfQuotient(c, 5 * (n - 1), i);
    assert At(c, n - 1).Bit(i) == Bit(c, 5 * (n - 1) + i) by {
      if i == 0 {} else if i == 1 {} else if i == 2 {} else if i == 3 {} else {}
    }
  }

  /** Shifting a symbol in: `((c & mask) << 5) ^ v`. */
  function ShiftIn5(c: nat, n: nat, v: nat): nat
    requires n > 0
  {
    Xor(c % P2(5 * (n - 1)) * 32, v)
  }

  lemma BitShiftedIn(c: nat, n: nat, v: nat, i: nat)
    requires n > 0 && v < 32 && i < 5 * n
    ensures Bit(ShiftIn5(c, n, v), i) == if i < 5 then Bit(v, i) else Bit(c, i - 5)
  {
    var q := c % P2(5 * (n - 1));
    assert P2(5) == 32;
    BitXor(32 * q, v, i);
    BitOfShifted(q, 5, i);
    if i >= 5 {
      HighBits(v, 5, i);
      BitOfRemainder(c, 5 * (n - 1), i - 5);
    }
  }

  lemma AtShiftedIn(c: nat, n: nat, v: nat, k: nat)
    requires v < 32 && k < n
    ensures At(ShiftIn5(c, n, v), k) == if k == 0 then At(v, 0) else At(c, k - 1)
  {
    BitShiftedIn(c, n, v, 5 * k);
    BitShiftedIn(c, n, v, 5 * k + 1);
    BitShiftedIn(c, n, v, 5 * k + 2);
    BitShiftedIn(c, n, v, 5 * k + 3);
    BitShiftedIn(c, n, v, 5 * k + 4);
  }

  lemma SymbolsShiftedIn(c: nat, n: nat, v: nat)
    requires n > 0 && v < 32
    ensures Symbols(ShiftIn5(c, n, v), n) == Symbols(c, n)[1..] + [At(v, 0)]
  {
    forall j | 0 <= j < n
      ensures Symbols(ShiftIn5(c, n, v), n)[j] == (Symbols(c, n)[1..] + [At(v, 0)])[j]
    {
      AtShiftedIn(c, n, v, n - 1 - j);
    }
  }

  lemma ShiftedInBound(c: nat, n: nat, v: nat)
    requires n > 0 && v < 32
    ensures ShiftIn5(c, n, v) < P2(5 * n)
  {
    var p := P2(5 * (n - 1));
    assert P2(5) == 32;
    P2Add(5 * (n - 1), 5);
    assert c % p < p;
    XorBoundAt(c % p * 32, v, 5 * n);
  }

  lemma XorBoundAt(a: nat, b: nat, n: nat)
    requires a < P2(n) && b < 32 && n >= 5
    ensures Xor(a, b) < P2(n)
  {
    P2Add(n - 5, 5);
    assert P2(5) == 32;
    assert P2(n) == P2(n - 5) * 32 >= 32;
    XorBound(a, b, n);
  }

  /** The rows selected by the low n bits of the outgoing symbol, summed. */
  ghost function FeedbackRow(m: Register, b: Symbol, n: nat): (r: seq<Symbol>)
    requires WellFormed(m) && n <= 5
    ensures |r| == m.width
  {
    seq(m.width, j requires 0 <= j < m.width => Feedback(m, b, j, n))
  }

  lemma NoFeedback(m: Register, s: seq<Symbol>, b: Symbol)
    requires WellFormed(m) && |s| == m.width
    ensures XorAll(s, FeedbackRow(m, b, 0)) == s
  {
  }

  /** One more bit of the outgoing symbol handled. */
  lemma OneMoreTap(m: Register, start: nat, c: nat, b: Symbol, i: nat, g: nat)
    requires WellFormed(m) && i < 5 && Symbols(g, m.width) == m.taps[i]
    requires Symbols(c, m.width) == XorAll(Symbols(start, m.width), FeedbackRow(m, b, i))
    ensures Symbols(if b.Bit(i) then Xor(c, g) else c, m.width)
         == XorAll(Symbols(start, m.width), FeedbackRow(m, b, i + 1))
  {
    SymbolsXor(c, g, m.width);
    var d := if b.Bit(i) then Xor(c, g) else c;
    forall j | 0 <= j < m.width
      ensures Symbols(d, m.width)[j] == XorAll(Symbols(start, m.width), FeedbackRow(m, b, i + 1))[j]
    {
      assert Symbols(c, m.width)[j] == Symbols(start, m.width)[j].Xor(Feedback(m, b, j, i));
      XorAssociative(Symbols(start, m.width)[j], Feedback(m, b, j, i), Tap(b.Bit(i), m.taps[i][j]));
      XorZero(Symbols(c, m.width)[j]);
    }
  }

  lemma XorAssociative(p: Symbol, q: Symbol, r: Symbol)
    ensures p.Xor(q).Xor(r) == p.Xor(q.Xor(r))
  {
  }

  lemma XorZero(p: Symbol)
    ensures p.Xor(ZERO) == p
  {
  }

  /** A shift followed by all five taps is one step of the register. */
  lemma ShiftAndTaps(m: Register, c: nat, v: nat, d: nat)
    requires WellFormed(m) && v < 32
    requires Symbols(d, m.width)
          == XorAll(Symbols(ShiftIn5(c, m.width, v), m.width), FeedbackRow(m, Symbols(c, m.width)[0], 5))
    ensures Symbols(d, m.width) == Step(m, Symbols(c, m.width), At(v, 0))
  {
    SymbolsShiftedIn(c, m.width, v);
  }

  // ---- The packed loop ------------------------------------------------------

  /** `gen` packs the tap table of m. */
  ghost predicate Packs(gen: seq<nat>, m: Register) {
    && WellFormed(m) && |gen| == 5
    && forall i :: 0 <= i < 5 ==> gen[i] < P2(5 * m.width) && Symbols(gen[i], m.width) == m.taps[i]
  }

  /** The packed register, started at 1, after all of `fed`, of whose last symbol only
      the shift and the first i outgoing bits have been handled. */
  ghost function Word(gen: seq<nat>, n: nat, fed: seq<nat>, i: nat): nat
    requires |gen| == 5 && n > 0 && i <= 5
    decreases |fed|, i
  {
    if fed == [] then 1
    else
      var was := Word(gen, n, fed[..|fed| - 1], 5);
      if i == 0 then ShiftIn5(was, n, fed[|fed| - 1])
      else if Bit(was / P2(5 * (n - 1)), i - 1) then Xor(Word(gen, n, fed, i - 1), gen[i - 1])
      else Word(gen, n, fed, i - 1)
  }

  lemma {:induction false} TapsOfWord(m: Register, gen: seq<nat>, fed: seq<nat>, i: nat)
    requires Packs(gen, m) && i <= 5 && fed != [] && fed[|fed| - 1] < 32
    ensures var was := Word(gen, m.width, fed[..|fed| - 1], 5);
      && Word(gen, m.width, fed, i) < P2(5 * m.width)
      && Symbols(Word(gen, m.width, fed, i), m.width)
         == XorAll(Symbols(ShiftIn5(was, m.width, fed[|fed| - 1]), m.width),
             FeedbackRow(m, Symbols(was, m.width)[0], i))
    decreases i
  {
    var n, v := m.width, fed[|fed| - 1];
    var was := Word(gen, n, fed[..|fed| - 1], 5);
    var start := ShiftIn5(was, n, v);
    if i == 0 {
      ShiftedInBound(was, n, v);
      NoFeedback(m, Symbols(start, n), Symbols(was, n)[0]);
    } else {
      TapsOfWord(m, gen, fed, i - 1);
      var c := Word(gen, n, fed, i - 1);
      TopSymbol(was, n, i - 1);
      OneMoreTap(m, start, c, Symbols(was, n)[0], i - 1, gen[i - 1]);
      XorBound(c, gen[i - 1], 5 * n);
    }
  }

  /** The packed loop runs the register. */
  lemma {:induction false} WordRuns(m: Register, gen: seq<nat>, fed: seq<nat>)
    requires Packs(gen, m) && Quintets(fed)
    ensures Word(gen, m.width, fed, 5) < P2(5 * m.width)
    ensures Symbols(Word(gen, m.width, fed, 5), m.width) == Run(m, Symbols(1, m.width), SymbolsOf(fed))
    decreases |fed|
  {
    if fed == [] {
      assert P2(5) == 32;
      P2Add(5 * m.width - 5, 5);
    } else {
      var k := |fed| - 1;
      WordRuns(m, gen, fed[..k]);
      TapsOfWord(m, gen, fed, 5);
      ShiftAndTaps(m, Word(gen, m.width, fed[..k], 5), fed[k], Word(gen, m.width, fed, 5));
      assert SymbolsOf(fed)[..k] == SymbolsOf(fed[..k]);
    }
  }

  lemma RunValues(m: Register, s: seq<Symbol>, xs: seq<nat>, ys: seq<nat>)
    requires WellFormed(m) && |s| == m.width
    ensures Run(m, s, SymbolsOf(xs + ys)) == Run(m, Run(m, s, SymbolsOf(xs)), SymbolsOf(ys))
  {
    SymbolsOfAppend(xs, ys);
    RunAppend(m, s, SymbolsOf(xs), SymbolsOf(ys));
  }

  /** The register after a list of values, started at 1. */
  ghost function Residue(m: Register, values: seq<nat>): (r: seq<Symbol>)
    requires WellFormed(m)
    ensures |r| == m.width
  {
    Run(m, Symbols(1, m.width), SymbolsOf(values))
  }

  /** The values that bring the register from where `values` leave it to `target`. */
  ghost function ChecksumValues(m: Register, values: seq<nat>, target: nat): (c: seq<nat>)
    requires WellFormed(m)
    ensures |c| == m.width && Quintets(c)
  {
    ValuesOf(Completion(m, Residue(m, values), Symbols(target, m.width)))
  }

  /** One and only one block of `width` values makes the register end at the target. */
  lemma ChecksumUnique(m: Register, values: seq<nat>, target: nat, c: seq<nat>)
    requires WellFormed(m) && |c| == m.width && Quintets(c)
    ensures Residue(m, values + c) == Symbols(target, m.width) <==> c == ChecksumValues(m, values, target)
  {
    var good := Completion(m, Residue(m, values), Symbols(target, m.width));
    RunValues(m, Symbols(1, m.width), values, c);
    CompletionIsUnique(m, Residue(m, values), Symbols(target, m.width), SymbolsOf(c));
    SymbolsOfValues(good);
    if SymbolsOf(c) == good {
      ValuesDetermined(c, ValuesOf(good));
    }
  }

  /** The packed word after `width` zero symbols, with the target XORed in, spells out the checksum. */
  lemma ChecksumFromWord(m: Register, gen: seq<nat>, values: seq<nat>, target: nat, c: seq<nat>)
    requires Packs(gen, m) && Quintets(values) && |c| == m.width
    requires var w := Xor(Word(gen, m.width, values + ZeroValues(m.width), 5), target);
      forall i :: 0 <= i < |c| ==> c[i] == Extract(w, m.width - 1 - i)
    ensures c == ChecksumValues(m, values, target)
  {
    var n := m.width;
    ZeroSymbols(n);
    WordRuns(m, gen, values + ZeroValues(n));
    RunValues(m, Symbols(1, n), values, ZeroValues(n));
    var w := Word(gen, n, values + ZeroValues(n), 5);
    SymbolsXor(w, target, n);
    ExtractAll(Xor(w, target), n, c);
    var good := Completion(m, Residue(m, values), Symbols(target, n));
    SymbolsOfValues(good);
    ValuesDetermined(c, ValuesOf(good));
  }

  /** Any error confined to `width` consecutive values changes the residue. */
  lemma BurstChangesResidue(m: Register, pre: seq<nat>, xs: seq<nat>, ys: seq<nat>, post: seq<nat>)
    requires WellFormed(m) && Invertible(m)
    requires Quintets(xs) && Quintets(ys) && |xs| == |ys| <= m.width && xs != ys
    ensures Residue(m, pre + xs + post) != Residue(m, pre + ys + post)
  {
    SymbolsOfAppend(pre + xs, post);
    SymbolsOfAppend(pre + ys, post);
    SymbolsOfAppend(pre, xs);
    SymbolsOfAppend(pre, ys);
    if SymbolsOf(xs) == SymbolsOf(ys) {
      ValuesDetermined(xs, ys);
    }
    BurstDetected(m, Symbols(1, m.width), SymbolsOf(pre), SymbolsOf(xs), SymbolsOf(ys), SymbolsOf(post));
  }
}
