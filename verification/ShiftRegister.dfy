/** Feedback shift registers over 5-bit symbols.

    The Bech32 and descriptor checksums are both computed by a register of `width`
    symbols: feeding a symbol shifts the register, and the symbol that falls out
    selects, bit by bit, rows of a tap table that are XORed into the rest.
    Everything the two checksums promise follows from two facts proved here once:
    a step is linear over XOR, and (for an invertible tap table) injective. */
module ShiftRegister {

  /** A 5-bit symbol, most significant bit first. */
  datatype Symbol = Symbol(b4: bool, b3: bool, b2: bool, b1: bool, b0: bool) {
    function Xor(o: Symbol): Symbol {
      Symbol(b4 != o.b4, b3 != o.b3, b2 != o.b2, b1 != o.b1, b0 != o.b0)
    }

    /** Bit i, counted from the least significant. */
    predicate Bit(i: nat)
      requires i < 5
    {
      if i == 0 then b0 else if i == 1 then b1 else if i == 2 then b2 else if i == 3 then b3 else b4
    }
  }

  const ZERO := Symbol(false, false, false, false, false)

  /** `taps[i]` is the row selected by bit i of the outgoing symbol. */
  datatype Register = Register(width: nat, taps: seq<seq<Symbol>>)

  ghost predicate WellFormed(m: Register) {
    && 0 < m.width
    && |m.taps| == 5
    && (forall i :: 0 <= i < 5 ==> |m.taps[i]| == m.width)
  }

  function Tap(bit: bool, row: Symbol): Symbol {
    if bit then row else ZERO
  }

  /** What the low n bits of the outgoing symbol b contribute at position j. */
  ghost function Feedback(m: Register, b: Symbol, j: nat, n: nat): Symbol
    requires WellFormed(m) && j < m.width && n <= 5
  {
    if n == 0 then ZERO else Feedback(m, b, j, n - 1).Xor(Tap(b.Bit(n - 1), m.taps[n - 1][j]))
  }

  ghost function LastFeedback(m: Register, b: Symbol): Symbol
    requires WellFormed(m)
  {
    Feedback(m, b, m.width - 1, 5)
  }

  /** Only the zero symbol leaves the last position untouched. */
  ghost predicate Invertible(m: Register)
    requires WellFormed(m)
  {
    forall b :: LastFeedback(m, b) == ZERO ==> b == ZERO
  }

  ghost function Step(m: Register, s: seq<Symbol>, v: Symbol): (t: seq<Symbol>)
    requires WellFormed(m) && |s| == m.width
    ensures |t| == m.width
  {
    seq(m.width, j requires 0 <= j < m.width =>
      (if j + 1 < m.width then s[j + 1] else v).Xor(Feedback(m, s[0], j, 5)))
  }

  ghost function Run(m: Register, s: seq<Symbol>, vs: seq<Symbol>): (t: seq<Symbol>)
    requires WellFormed(m) && |s| == m.width
    ensures |t| == m.width
    decreases |vs|
  {
    if vs == [] then s else Step(m, Run(m, s, vs[..|vs| - 1]), vs[|vs| - 1])
  }

  ghost function XorAll(s: seq<Symbol>, t: seq<Symbol>): (r: seq<Symbol>)
    requires |s| == |t|
    ensures |r| == |s|
  {
    seq(|s|, j requires 0 <= j < |s| => s[j].Xor(t[j]))
  }

  function Zeros(n: nat): (z: seq<Symbol>)
    ensures |z| == n
  {
    seq(n, _ => ZERO)
  }

  // ---- Symbols as elements of GF(32) ----------------------------------------

  /** Times x, modulo x^5 + x^3 + 1. */
  function Doubled(s: Symbol): Symbol {
    Symbol(s.b3, s.b2 != s.b4, s.b1, s.b0, s.b4)
  }

  /** Times x^i. */
  function Shifted(s: Symbol, i: nat): Symbol {
    if i == 0 then s else Doubled(Shifted(s, i - 1))
  }

  /** The product in GF(32): the multiples of t by the powers of x that s has, summed. */
  function Product(s: Symbol, t: Symbol): Symbol {
    var d1 := Doubled(t);
    var d2 := Doubled(d1);
    var d3 := Doubled(d2);
    Tap(s.b0, t).Xor(Tap(s.b1, d1)).Xor(Tap(s.b2, d2)).Xor(Tap(s.b3, d3)).Xor(Tap(s.b4, Doubled(d3)))
  }

  /** The rows of the tap table are the multiples by 1, x, .., x^4 of a polynomial over GF(32),
      leading coefficient 1 left out. */
  ghost predicate Generates(m: Register, poly: seq<Symbol>) {
    && WellFormed(m) && |poly| == m.width
    && forall i, j :: 0 <= i < 5 && 0 <= j < m.width ==> m.taps[i][j] == Shifted(poly[j], i)
  }

  /** What falls out is multiplied by the polynomial. */
  lemma FeedbackIsProduct(m: Register, poly: seq<Symbol>, b: Symbol, j: nat)
    requires Generates(m, poly) && j < m.width
    ensures Feedback(m, b, j, 5) == Product(b, poly[j])
  {
    var p := poly[j];
    ShiftedFour(p);
    var f := Tap(b.b0, p);
    assert Feedback(m, b, j, 1) == ZERO.Xor(f) == f by {
      assert m.taps[0][j] == Shifted(p, 0);
      assert Feedback(m, b, j, 0) == ZERO;
    }
    hide Doubled, Tap;
    assert Feedback(m, b, j, 2) == Feedback(m, b, j, 1).Xor(Tap(b.b1, m.taps[1][j]));
    assert Feedback(m, b, j, 3) == Feedback(m, b, j, 2).Xor(Tap(b.b2, m.taps[2][j]));
    assert Feedback(m, b, j, 4) == Feedback(m, b, j, 3).Xor(Tap(b.b3, m.taps[3][j]));
    assert Feedback(m, b, j, 5) == Feedback(m, b, j, 4).Xor(Tap(b.b4, m.taps[4][j]));
  }

  lemma ShiftedFour(p: Symbol)
    ensures Shifted(p, 0) == p && Shifted(p, 1) == Doubled(p) && Shifted(p, 2) == Doubled(Doubled(p))
    ensures Shifted(p, 3) == Doubled(Doubled(Doubled(p))) && Shifted(p, 4) == Doubled(Doubled(Doubled(Doubled(p))))
  {
    hide Doubled;
    assert Shifted(p, 2) == Doubled(Shifted(p, 1));
    assert Shifted(p, 3) == Doubled(Shifted(p, 2));
    assert Shifted(p, 4) == Doubled(Shifted(p, 3));
  }

  /** A step is one of polynomial division over GF(32): the symbol that falls out, times the
      generator, is taken from the shifted rest. */
  lemma StepDivides(m: Register, poly: seq<Symbol>, s: seq<Symbol>, v: Symbol)
    requires Generates(m, poly) && |s| == m.width
    ensures forall j :: 0 <= j < m.width ==>
      Step(m, s, v)[j] == (if j + 1 < m.width then s[j + 1] else v).Xor(Product(s[0], poly[j]))
  {
    forall j | 0 <= j < m.width
      ensures Step(m, s, v)[j] == (if j + 1 < m.width then s[j + 1] else v).Xor(Product(s[0], poly[j]))
    {
      FeedbackIsProduct(m, poly, s[0], j);
      StepAt(m, s, v, j);
      hide *;
    }
  }

  lemma StepAt(m: Register, s: seq<Symbol>, v: Symbol, j: nat)
    requires WellFormed(m) && |s| == m.width && j < m.width
    ensures Step(m, s, v)[j] == (if j + 1 < m.width then s[j + 1] else v).Xor(Feedback(m, s[0], j, 5))
  {
    hide Feedback;
  }

  // ---- A step is linear -----------------------------------------------------

  lemma XorPairs(p: Symbol, q: Symbol, r: Symbol, s: Symbol)
    ensures p.Xor(r).Xor(q.Xor(s)) == p.Xor(q).Xor(r.Xor(s))
  {
  }

  lemma TapLinear(a: Symbol, b: Symbol, i: nat, row: Symbol)
    requires i < 5
    ensures Tap(a.Bit(i), row).Xor(Tap(b.Bit(i), row)) == Tap(a.Xor(b).Bit(i), row)
  {
  }

  lemma {:induction false} FeedbackLinear(m: Register, a: Symbol, b: Symbol, j: nat, n: nat)
    requires WellFormed(m) && j < m.width && n <= 5
    ensures Feedback(m, a, j, n).Xor(Feedback(m, b, j, n)) == Feedback(m, a.Xor(b), j, n)
  {
    if n > 0 {
      var row := m.taps[n - 1][j];
      FeedbackLinear(m, a, b, j, n - 1);
      TapLinear(a, b, n - 1, row);
      XorPairs(Feedback(m, a, j, n - 1), Feedback(m, b, j, n - 1), Tap(a.Bit(n - 1), row), Tap(b.Bit(n - 1), row));
    }
  }

  lemma StepLinear(m: Register, s: seq<Symbol>, t: seq<Symbol>, x: Symbol, y: Symbol)
    requires WellFormed(m) && |s| == |t| == m.width
    ensures XorAll(Step(m, s, x), Step(m, t, y)) == Step(m, XorAll(s, t), x.Xor(y))
  {
    forall j | 0 <= j < m.width
      ensures XorAll(Step(m, s, x), Step(m, t, y))[j] == Step(m, XorAll(s, t), x.Xor(y))[j]
    {
      FeedbackLinear(m, s[0], t[0], j, 5);
      var p := if j + 1 < m.width then s[j + 1] else x;
      var q := if j + 1 < m.width then t[j + 1] else y;
      XorPairs(p, q, Feedback(m, s[0], j, 5), Feedback(m, t[0], j, 5));
    }
  }

  lemma {:induction false} RunLinear(m: Register, s: seq<Symbol>, t: seq<Symbol>, xs: seq<Symbol>, ys: seq<Symbol>)
    requires WellFormed(m) && |s| == |t| == m.width && |xs| == |ys|
    ensures XorAll(Run(m, s, xs), Run(m, t, ys)) == Run(m, XorAll(s, t), XorAll(xs, ys))
    decreases |xs|
  {
    hide Step;
    if xs != [] {
      var k := |xs| - 1;
      RunLinear(m, s, t, xs[..k], ys[..k]);
      assert XorAll(xs, ys)[..k] == XorAll(xs[..k], ys[..k]);
      StepLinear(m, Run(m, s, xs[..k]), Run(m, t, ys[..k]), xs[k], ys[k]);
    }
  }

  lemma {:induction false} RunAppend(m: Register, s: seq<Symbol>, xs: seq<Symbol>, ys: seq<Symbol>)
    requires WellFormed(m) && |s| == m.width
    ensures Run(m, s, xs + ys) == Run(m, Run(m, s, xs), ys)
    decreases |ys|
  {
    hide Step;
    if ys == [] {
      assert xs + ys == xs;
    } else {
      var k := |ys| - 1;
      RunAppend(m, s, xs, ys[..k]);
      assert (xs + ys)[..|xs + ys| - 1] == xs + ys[..k];
    }
  }

  // ---- A step is injective --------------------------------------------------

  lemma {:induction false} ZeroFeedback(m: Register, j: nat, n: nat)
    requires WellFormed(m) && j < m.width && n <= 5
    ensures Feedback(m, ZERO, j, n) == ZERO
  {
    if n > 0 {
      ZeroFeedback(m, j, n - 1);
    }
  }

  /** The only state that one zero symbol sends to the zero state is the zero state. */
  lemma StepKernel(m: Register, d: seq<Symbol>)
    requires WellFormed(m) && Invertible(m) && |d| == m.width
    requires Step(m, d, ZERO) == Zeros(m.width)
    ensures d == Zeros(m.width)
  {
    var last := m.width - 1;
    assert Step(m, d, ZERO)[last] == LastFeedback(m, d[0]);
    assert d[0] == ZERO;
    forall i | 0 <= i < m.width
      ensures d[i] == ZERO
    {
      if i > 0 {
        ZeroFeedback(m, i - 1, 5);
        assert Step(m, d, ZERO)[i - 1] == ZERO;
      }
    }
  }

  lemma XorIsZero(s: seq<Symbol>, t: seq<Symbol>)
    requires |s| == |t|
    ensures XorAll(s, t) == Zeros(|s|) <==> s == t
  {
    if XorAll(s, t) == Zeros(|s|) {
      forall j | 0 <= j < |s|
        ensures s[j] == t[j]
      {
        assert XorAll(s, t)[j] == ZERO;
      }
    }
  }

  lemma StepInjective(m: Register, s: seq<Symbol>, t: seq<Symbol>, v: Symbol)
    requires WellFormed(m) && Invertible(m) && |s| == |t| == m.width
    requires Step(m, s, v) == Step(m, t, v)
    ensures s == t
  {
    StepLinear(m, s, t, v, v);
    XorIsZero(Step(m, s, v), Step(m, t, v));
    StepKernel(m, XorAll(s, t));
    XorIsZero(s, t);
  }

  lemma {:induction false} RunInjective(m: Register, s: seq<Symbol>, t: seq<Symbol>, vs: seq<Symbol>)
    requires WellFormed(m) && Invertible(m) && |s| == |t| == m.width
    requires Run(m, s, vs) == Run(m, t, vs)
    ensures s == t
    decreases |vs|
  {
    if vs != [] {
      var k := |vs| - 1;
      StepInjective(m, Run(m, s, vs[..k]), Run(m, t, vs[..k]), vs[k]);
      RunInjective(m, s, t, vs[..k]);
    }
  }

  // ---- Short inputs are stored, not folded ----------------------------------

  /** Up to `width` symbols fed to the zero register simply sit in it. */
  lemma {:induction false} ShiftIn(m: Register, e: seq<Symbol>)
    requires WellFormed(m) && |e| <= m.width
    ensures Run(m, Zeros(m.width), e) == Zeros(m.width - |e|) + e
    decreases |e|
  {
    hide Step;
    if e != [] {
      var k := |e| - 1;
      ShiftIn(m, e[..k]);
      ShiftOne(m, e[..k], e[k]);
      assert e == e[..k] + [e[k]];
    } else {
      assert Zeros(m.width) + e == Zeros(m.width);
    }
  }

  lemma ShiftOne(m: Register, e: seq<Symbol>, v: Symbol)
    requires WellFormed(m) && |e| < m.width
    ensures Step(m, Zeros(m.width - |e|) + e, v) == Zeros(m.width - |e| - 1) + (e + [v])
  {
    hide Feedback;
    var before, after := Zeros(m.width - |e|) + e, Zeros(m.width - |e| - 1) + (e + [v]);
    forall j | 0 <= j < m.width
      ensures Step(m, before, v)[j] == after[j]
    {
      ZeroFeedback(m, j, 5);
    }
  }

  // ---- Main results ---------------------------------------------------------

  /** From any state, different inputs of at most `width` symbols lead to different states. */
  lemma WindowInjective(m: Register, s: seq<Symbol>, xs: seq<Symbol>, ys: seq<Symbol>)
    requires WellFormed(m) && |s| == m.width
    requires |xs| == |ys| <= m.width && Run(m, s, xs) == Run(m, s, ys)
    ensures xs == ys
  {
    var e := XorAll(xs, ys);
    RunLinear(m, s, s, xs, ys);
    XorIsZero(s, s);
    XorIsZero(Run(m, s, xs), Run(m, s, ys));
    ShiftIn(m, e);
    assert e == (Zeros(m.width - |e|) + e)[m.width - |e|..];
    XorIsZero(xs, ys);
  }

  /** Every error confined to `width` consecutive symbols changes the final state. */
  lemma BurstDetected(m: Register, s: seq<Symbol>, pre: seq<Symbol>, xs: seq<Symbol>, ys: seq<Symbol>,
        post: seq<Symbol>)
    requires WellFormed(m) && Invertible(m) && |s| == m.width
    requires |xs| == |ys| <= m.width && xs != ys
    ensures Run(m, s, pre + xs + post) != Run(m, s, pre + ys + post)
  {
    RunAppend(m, s, pre + xs, post);
    RunAppend(m, s, pre + ys, post);
    RunAppend(m, s, pre, xs);
    RunAppend(m, s, pre, ys);
    var p := Run(m, s, pre);
    if Run(m, s, pre + xs + post) == Run(m, s, pre + ys + post) {
      RunInjective(m, Run(m, p, xs), Run(m, p, ys), post);
      WindowInjective(m, p, xs, ys);
    }
  }

  /** The symbols that bring the register from s to `target`. */
  ghost function Completion(m: Register, s: seq<Symbol>, target: seq<Symbol>): (c: seq<Symbol>)
    requires WellFormed(m) && |s| == |target| == m.width
    ensures |c| == m.width
  {
    XorAll(Run(m, s, Zeros(m.width)), target)
  }

  lemma XorSolve(r: seq<Symbol>, base: seq<Symbol>, t: seq<Symbol>)
    requires |r| == |base| == |t| && XorAll(r, base) == XorAll(base, t)
    ensures r == t
  {
    forall j | 0 <= j < |r|
      ensures r[j] == t[j]
    {
      assert XorAll(r, base)[j] == XorAll(base, t)[j];
    }
  }

  lemma XorZeros(s: seq<Symbol>)
    ensures XorAll(s, Zeros(|s|)) == s
  {
  }

  lemma CompletionReaches(m: Register, s: seq<Symbol>, target: seq<Symbol>)
    requires WellFormed(m) && |s| == |target| == m.width
    ensures Run(m, s, Completion(m, s, target)) == target
  {
    var c, z := Completion(m, s, target), Zeros(m.width);
    RunLinear(m, s, s, c, z);
    XorIsZero(s, s);
    XorZeros(c);
    ShiftIn(m, c);
    assert Zeros(0) + c == c;
    XorSolve(Run(m, s, c), Run(m, s, z), target);
  }

  /** Exactly one block of `width` symbols reaches the target. */
  lemma CompletionIsUnique(m: Register, s: seq<Symbol>, target: seq<Symbol>, c: seq<Symbol>)
    requires WellFormed(m) && |s| == |target| == |c| == m.width
    ensures Run(m, s, c) == target <==> c == Completion(m, s, target)
  {
    CompletionReaches(m, s, target);
    if Run(m, s, c) == target {
      WindowInjective(m, s, c, Completion(m, s, target));
    }
  }
}
