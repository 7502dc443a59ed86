/** Points of y^2 = x^3 + 7 modulo a prime, added by the chord-and-tangent rule of
    `_ec_point_add_pure` (btpay/bitcoin/xpub.py; SEC 1, section 2.2.1). */
module Curve {
  import opened Arithmetic

  // ---- Congruences ----------------------------------------------------------

  ghost predicate Zero(a: int, m: nat)
    requires m > 0
  {
    a % m == 0
  }

  lemma ZeroMultiple(k: int, m: nat)
    requires m > 0
    ensures Zero(m * k, m)
  {
    DivUnique(m * k, m, k, 0);
  }

  lemma ZeroAdd(a: int, b: int, m: nat)
    requires m > 0 && Zero(a, m) && Zero(b, m)
    ensures Zero(a + b, m) && Zero(a - b, m)
  {
    DivMod(a, m);
    DivMod(b, m);
    var q, r := a / m, b / m;
    Distribute(m, q, r);
    ZeroMultiple(q + r, m);
    ZeroMultiple(q - r, m);
  }

  lemma ZeroMul(a: int, c: int, m: nat)
    requires m > 0 && Zero(a, m)
    ensures Zero(a * c, m)
  {
    DivMod(a, m);
    var q := a / m;
    assert a * c == m * (q * c);
    ZeroMultiple(q * c, m);
  }

  lemma ZeroRemainder(a: int, m: nat)
    requires m > 0
    ensures Zero(a % m - a, m) && 0 <= a % m < m
  {
    DivMod(a, m);
    var q := a / m;
    assert a % m - a == m * (-q);
    ZeroMultiple(-q, m);
  }

  /** Numbers have the same remainder exactly if their difference is a multiple. */
  lemma SameRemainder(a: int, b: int, m: nat)
    requires m > 0
    ensures a % m == b % m <==> Zero(a - b, m)
  {
    if a % m == b % m {
      DivMod(a, m);
      DivMod(b, m);
      Distribute(m, a / m, b / m);
      ZeroMultiple(a / m - b / m, m);
    }
    if Zero(a - b, m) {
      RemainderOfSum(a, b, m);
    }
  }

  lemma Distribute(m: int, q: int, r: int)
    ensures m * q - m * r == m * (q - r) && m * q + m * r == m * (q + r)
  {
  }

  lemma RemainderOfSum(a: int, b: int, m: nat)
    requires m > 0 && Zero(a - b, m)
    ensures a % m == b % m
  {
    DivMod(b, m);
    DivMod(a - b, m);
    var r, k := b / m, (a - b) / m;
    Distribute(m, r, k);
    DivUnique(a, m, r + k, b % m);
  }

  // ---- The cubic identities -------------------------------------------------

  /** y^2 - x^3 - 7. */
  function Equation(x: int, y: int): int {
    y * y - x * x * x - 7
  }

  /** What is left of X^3 + 7 - (lam (X - x1) + y1)^2 after the factor X - x1. */
  function Cofactor(lam: int, x1: int, y1: int, X: int): int {
    X * X + X * x1 + x1 * x1 - lam * lam * (X - x1) - 2 * lam * y1
  }

  /** On the line through (x1, y1) of slope lam. */
  function Line(lam: int, x1: int, y1: int, X: int): int {
    lam * (X - x1) + y1
  }

  lemma Factored(lam: int, x1: int, y1: int, X: int)
    ensures Equation(X, Line(lam, x1, y1, X))
         == Equation(x1, y1) - (X - x1) * Cofactor(lam, x1, y1, X)
  {
    var d := X - x1;
    assert Line(lam, x1, y1, X) * Line(lam, x1, y1, X) == lam * lam * d * d + 2 * lam * y1 * d + y1 * y1;
    assert X * X * X - x1 * x1 * x1 == d * (X * X + X * x1 + x1 * x1);
    assert d * Cofactor(lam, x1, y1, X)
        == d * (X * X + X * x1 + x1 * x1) - lam * lam * d * d - 2 * lam * y1 * d;
  }

  lemma CofactorDifference(lam: int, x1: int, y1: int, x2: int, x3: int)
    ensures Cofactor(lam, x1, y1, x3) - Cofactor(lam, x1, y1, x2) == (x3 - x2) * (x3 + x2 + x1 - lam * lam)
  {
  }

  lemma EquationOfShifted(x: int, y: int, e: int)
    ensures Equation(x, y + e) == Equation(x, y) + e * (e + 2 * y)
  {
  }

  lemma EquationOfOpposite(x: int, y: int)
    ensures Equation(x, -y) == Equation(x, y)
  {
  }

  // ---- Powers and inverses --------------------------------------------------

  /** `pow(b, e, m)`. */
  function PowMod(b: int, e: nat, m: nat): (r: int)
    requires m > 0
    ensures 0 <= r < m
  {
    if e == 0 then 1 % m else b * PowMod(b, e - 1, m) % m
  }

  /** `modinv`. */
  function ModInv(a: int, m: nat): (r: int)
    requires m > 1
    ensures 0 <= r < m
  {
    PowMod(a, m - 2, m)
  }

  /** What primality of the modulus gives (Fermat): `modinv` inverts every nonzero residue. */
  ghost predicate Inverts(m: nat) {
    m > 2 && forall a: int :: !Zero(a, m) ==> Zero(a * ModInv(a, m) - 1, m)
  }

  // ---- `point_add` ----------------------------------------------------------

  datatype Point = Infinity | Affine(x: nat, y: nat)

  function PointAdd(p1: Point, p2: Point, m: nat): Point
    requires m > 1
  {
    if p1 == Infinity then p2
    else if p2 == Infinity then p1
    else
      var (x1, y1, x2, y2) := (p1.x, p1.y, p2.x, p2.y);
      if x1 == x2 && y1 != y2 then Infinity
      else Third(Slope(x1, y1, x2, y2, m), x1, y1, x2, m)
  }

  function Slope(x1: nat, y1: nat, x2: nat, y2: nat, m: nat): int
    requires m > 1
  {
    if x1 == x2 then 3 * x1 * x1 * ModInv(2 * y1, m) % m else (y2 - y1) * ModInv(x2 - x1, m) % m
  }

  function Third(lam: int, x1: nat, y1: nat, x2: nat, m: nat): Point
    requires m > 1
  {
    var x3 := (lam * lam - x1 - x2) % m;
    var y3 := (lam * (x1 - x3) - y1) % m;
    Affine(x3, y3)
  }

  /** A reduced point that satisfies the curve equation modulo m, or infinity. */
  ghost predicate OnCurve(p: Point, m: nat)
    requires m > 0
  {
    p.Affine? ==> p.x < m && p.y < m && Zero(Equation(p.x, p.y), m)
  }

  /** A quotient n * i times its divisor d is n again, when i inverts d. */
  lemma Quotient(n: int, d: int, i: int, m: nat)
    requires m > 0 && Zero(d * i - 1, m)
    ensures Zero(n * i % m * d - n, m)
  {
    ZeroRemainder(n * i, m);
    ZeroMul(n * i % m - n * i, d, m);
    ZeroMul(d * i - 1, n, m);
    var r := n * i % m;
    assert r * d - n == (r - n * i) * d + (d * i - 1) * n;
    ZeroAdd((r - n * i) * d, (d * i - 1) * n, m);
  }

  /** A factor with an inverse can be cancelled. */
  lemma Cancel(d: int, i: int, q: int, m: nat)
    requires m > 0 && Zero(d * i - 1, m) && Zero(d * q, m)
    ensures Zero(q, m)
  {
    ZeroMul(d * q, i, m);
    ZeroMul(d * i - 1, q, m);
    assert d * q * i - (d * i - 1) * q == q;
    ZeroAdd(d * q * i, (d * i - 1) * q, m);
  }

  lemma SmallNonzero(a: int, m: nat)
    requires 0 < m && a < m && 0 < a + m && a != 0
    ensures !Zero(a, m)
  {
    if a > 0 {
      DivUnique(a, m, 0, a);
    } else {
      DivUnique(a, m, -1, a + m);
    }
  }

  /** Chord: the cofactor vanishes at the second point. */
  lemma ChordCofactor(x1: nat, y1: nat, x2: nat, y2: nat, m: nat)
    requires Inverts(m) && x1 < m && x2 < m && x1 != x2
    requires Zero(Equation(x1, y1), m) && Zero(Equation(x2, y2), m)
    ensures Zero(Cofactor(Slope(x1, y1, x2, y2, m), x1, y1, x2), m)
  {
    var lam, d := Slope(x1, y1, x2, y2, m), x2 - x1;
    SmallNonzero(d, m);
    assert Zero(d * ModInv(d, m) - 1, m);
    Quotient(y2 - y1, d, ModInv(d, m), m);
    var e := lam * d - (y2 - y1);
    var q := Cofactor(lam, x1, y1, x2);
    assert Line(lam, x1, y1, x2) == y2 + e;
    EquationOfShifted(x2, y2, e);
    ZeroMul(e, e + 2 * y2, m);
    ZeroAdd(Equation(x2, y2), e * (e + 2 * y2), m);
    Factored(lam, x1, y1, x2);
    ZeroAdd(Equation(x1, y1), Equation(x2, y2 + e), m);
    assert d * q == Equation(x1, y1) - Equation(x2, y2 + e);
    Cancel(d, ModInv(d, m), q, m);
  }

  /** Tangent: the cofactor vanishes at the point itself. */
  lemma TangentCofactor(x1: nat, y1: nat, m: nat)
    requires Inverts(m) && !Zero(2 * y1, m)
    ensures Zero(Cofactor(Slope(x1, y1, x1, y1, m), x1, y1, x1), m)
  {
    var lam := Slope(x1, y1, x1, y1, m);
    assert Zero(2 * y1 * ModInv(2 * y1, m) - 1, m);
    Quotient(3 * x1 * x1, 2 * y1, ModInv(2 * y1, m), m);
    var e := lam * (2 * y1) - 3 * x1 * x1;
    ZeroMul(e, -1, m);
    assert Cofactor(lam, x1, y1, x1) == e * -1;
  }

  /** If the cofactor vanishes at the second abscissa, the third point is on the curve. */
  lemma ThirdOnCurve(lam: int, x1: nat, y1: nat, x2: nat, m: nat)
    requires m > 1 && Zero(Equation(x1, y1), m) && Zero(Cofactor(lam, x1, y1, x2), m)
    ensures OnCurve(Third(lam, x1, y1, x2, m), m)
  {
    var x3 := (lam * lam - x1 - x2) % m;
    var y3 := (lam * (x1 - x3) - y1) % m;
    ZeroRemainder(lam * lam - x1 - x2, m);
    ZeroRemainder(lam * (x1 - x3) - y1, m);
    CofactorDifference(lam, x1, y1, x2, x3);
    var f := x3 - (lam * lam - x1 - x2);
    ZeroMul(f, x3 - x2, m);
    assert (x3 - x2) * (x3 + x2 + x1 - lam * lam) == f * (x3 - x2);
    ZeroAdd(Cofactor(lam, x1, y1, x2), f * (x3 - x2), m);
    var w := Line(lam, x1, y1, x3);
    Factored(lam, x1, y1, x3);
    ZeroMul(Cofactor(lam, x1, y1, x3), x3 - x1, m);
    assert (x3 - x1) * Cofactor(lam, x1, y1, x3) == Cofactor(lam, x1, y1, x3) * (x3 - x1);
    ZeroAdd(Equation(x1, y1), Cofactor(lam, x1, y1, x3) * (x3 - x1), m);
    assert Zero(Equation(x3, w), m);
    var e := y3 + w;
    assert lam * (x1 - x3) - y1 == -w;
    assert Zero(e, m);
    EquationOfOpposite(x3, w);
    EquationOfShifted(x3, -w, e);
    ZeroMul(e, e + 2 * -w, m);
    ZeroAdd(Equation(x3, -w), e * (e + 2 * -w), m);
    assert -w + e == y3;
  }

  /** The sum of two points of the curve is a point of the curve or infinity, unless a
      point with y = 0 is doubled. */
  lemma PointAddOnCurve(p1: Point, p2: Point, m: nat)
    requires Inverts(m) && OnCurve(p1, m) && OnCurve(p2, m)
    requires p1 == p2 && p1.Affine? ==> p1.y != 0 && m % 2 == 1
    ensures OnCurve(PointAdd(p1, p2, m), m)
  {
    if p1.Affine? && p2.Affine? {
      if p1.x != p2.x {
        ChordCofactor(p1.x, p1.y, p2.x, p2.y, m);
        ThirdOnCurve(Slope(p1.x, p1.y, p2.x, p2.y, m), p1.x, p1.y, p2.x, m);
      } else if p1.y == p2.y {
        TwiceNonzero(p1.y, m);
        TangentCofactor(p1.x, p1.y, m);
        ThirdOnCurve(Slope(p1.x, p1.y, p2.x, p2.y, m), p1.x, p1.y, p2.x, m);
      }
    }
  }

  // ---- The chord-and-tangent law --------------------------------------------

  /** The line d (y - y1) = n (x - x1), as a multiple of d at an abscissa. */
  function Chord(n: int, d: int, x1: int, y1: int, X: int): int {
    n * (X - x1) + d * y1
  }

  /** Zero where the line meets the curve, apart from the three abscissas. */
  function Excess(n: int, d: int, x1: int, y1: int, x2: int, x3: int, X: int): int {
    d * d * (X * X * X + 7) - Chord(n, d, x1, y1, X) * Chord(n, d, x1, y1, X)
      - d * d * ((X - x1) * (X - x2) * (X - x3))
  }

  /** The line meets the curve in exactly these abscissas: the cubic splits. */
  ghost predicate MeetsIn(n: int, d: int, x1: int, y1: int, x2: int, x3: int, m: nat)
    requires m > 0
  {
    forall X: int :: Zero(Excess(n, d, x1, y1, x2, x3, X), m)
  }

  /** The point is the opposite of one on the line. */
  ghost predicate OppositeOnLine(n: int, d: int, x1: int, y1: int, x3: int, y3: int, m: nat)
    requires m > 0
  {
    Zero(d * (y3 + y1) - n * (x1 - x3), m)
  }

  /** The slope of the chord through two points, or of the tangent in one, as a fraction. */
  function Rise(p: Point, q: Point): int
    requires p.Affine? && q.Affine?
  {
    if p.x == q.x then 3 * p.x * p.x else q.y - p.y
  }

  function Span(p: Point, q: Point): int
    requires p.Affine? && q.Affine?
  {
    if p.x == q.x then 2 * p.y else q.x - p.x
  }

  /** SEC 1, section 2.2.1: infinity is neutral, opposite points cancel, and otherwise the sum
      is the opposite of the third point in which the chord, or the tangent, meets the curve. */
  ghost predicate IsSum(p: Point, q: Point, r: Point, m: nat)
    requires m > 0
  {
    if p == Infinity then r == q
    else if q == Infinity then r == p
    else if p.x == q.x && Zero(p.y + q.y, m) then r == Infinity
    else
      && r.Affine? && r.x < m && r.y < m
      && MeetsIn(Rise(p, q), Span(p, q), p.x, p.y, q.x, r.x, m)
      && OppositeOnLine(Rise(p, q), Span(p, q), p.x, p.y, r.x, r.y, m)
  }

  /** With the slope as a whole number. */
  function Remainder(lam: int, x1: int, y1: int, x2: int, x3: int, X: int): int {
    X * X * X + 7 - Line(lam, x1, y1, X) * Line(lam, x1, y1, X) - (X - x1) * (X - x2) * (X - x3)
  }

  lemma CubicSplits(lam: int, x1: int, y1: int, x2: int, x3: int, X: int)
    ensures Remainder(lam, x1, y1, x2, x3, X)
         == (X - x1) * (Cofactor(lam, x1, y1, x2) + (X - x2) * (x3 - (lam * lam - x1 - x2))) - Equation(x1, y1)
  {
    Factored(lam, x1, y1, X);
    CofactorDifference(lam, x1, y1, x2, X);
    var a, b, c, f := X - x1, X - x2, Cofactor(lam, x1, y1, x2), x3 - (lam * lam - x1 - x2);
    assert Cofactor(lam, x1, y1, X) == c + b * (b + x2 + x2 + x1 - lam * lam);
    SplitProduct(a, b, c, X - x3, f);
  }

  lemma SplitProduct(a: int, b: int, c: int, g: int, f: int)
    ensures a * (c + b * (g + f)) - a * b * g == a * (c + b * f)
  {
  }

  lemma RemainderZero(lam: int, x1: int, y1: int, x2: int, x3: int, X: int, m: nat)
    requires m > 0 && Zero(Equation(x1, y1), m) && Zero(Cofactor(lam, x1, y1, x2), m)
    requires Zero(x3 - (lam * lam - x1 - x2), m)
    ensures Zero(Remainder(lam, x1, y1, x2, x3, X), m)
  {
    hide Equation, Cofactor, Remainder, Zero;
    var c, f := Cofactor(lam, x1, y1, x2), x3 - (lam * lam - x1 - x2);
    CubicSplits(lam, x1, y1, x2, x3, X);
    ZeroMul(f, X - x2, m);
    Commute(f, X - x2);
    ZeroAdd(c, (X - x2) * f, m);
    ZeroMul(c + (X - x2) * f, X - x1, m);
    Commute(c + (X - x2) * f, X - x1);
    ZeroAdd((X - x1) * (c + (X - x2) * f), Equation(x1, y1), m);
  }

  lemma Commute(a: int, b: int)
    ensures a * b == b * a
  {
  }

  /** Clearing the denominator of the slope. */
  lemma ExcessOfRemainder(n: int, d: int, lam: int, x1: int, y1: int, x2: int, x3: int, X: int)
    ensures var e, line := lam * d - n, Line(lam, x1, y1, X);
      Excess(n, d, x1, y1, x2, x3, X)
        == d * d * Remainder(lam, x1, y1, x2, x3, X) + e * ((X - x1) * (2 * d * line - e * (X - x1)))
  {
    var e, line, a := lam * d - n, Line(lam, x1, y1, X), X - x1;
    ChordOfLine(n, d, lam, a, y1);
    assert Chord(n, d, x1, y1, X) == d * line - e * a;
    SquareOfDifference(d * line, e * a);
    Cleared(d, X * X * X + 7, line, a * (X - x2) * (X - x3), e, a);
  }

  lemma ChordOfLine(n: int, d: int, lam: int, a: int, y1: int)
    ensures n * a + d * y1 == d * (lam * a + y1) - (lam * d - n) * a
  {
  }

  lemma SquareOfDifference(u: int, v: int)
    ensures (u - v) * (u - v) == u * u - v * (2 * u - v)
  {
  }

  lemma Cleared(d: int, c: int, line: int, g: int, e: int, a: int)
    ensures d * d * c - ((d * line) * (d * line) - (e * a) * (2 * (d * line) - e * a)) - d * d * g
         == d * d * (c - line * line - g) + e * (a * (2 * d * line - e * a))
  {
  }

  /** What the program computes from a slope is the opposite of the third point. */
  lemma ThirdMeets(n: int, d: int, lam: int, x1: nat, y1: nat, x2: nat, m: nat)
    requires m > 1 && Zero(lam * d - n, m)
    requires Zero(Equation(x1, y1), m) && Zero(Cofactor(lam, x1, y1, x2), m)
    ensures var r := Third(lam, x1, y1, x2, m);
      r.x < m && r.y < m && MeetsIn(n, d, x1, y1, x2, r.x, m) && OppositeOnLine(n, d, x1, y1, r.x, r.y, m)
  {
    var r, e := Third(lam, x1, y1, x2, m), lam * d - n;
    ZeroRemainder(lam * lam - x1 - x2, m);
    ZeroRemainder(lam * (x1 - r.x) - y1, m);
    hide Equation, Cofactor, Remainder, Excess, Line;
    forall X: int ensures Zero(Excess(n, d, x1, y1, x2, r.x, X), m) {
      RemainderZero(lam, x1, y1, x2, r.x, X, m);
      ExcessOfRemainder(n, d, lam, x1, y1, x2, r.x, X);
      ZeroMul(Remainder(lam, x1, y1, x2, r.x, X), d * d, m);
      Commute(Remainder(lam, x1, y1, x2, r.x, X), d * d);
      var rest := (X - x1) * (2 * d * Line(lam, x1, y1, X) - e * (X - x1));
      ZeroMul(e, rest, m);
      ZeroAdd(d * d * Remainder(lam, x1, y1, x2, r.x, X), e * rest, m);
    }
    Reflected(n, d, lam, x1, y1, r.x, r.y, m);
  }

  lemma Reflected(n: int, d: int, lam: int, x1: int, y1: int, x3: int, y3: int, m: nat)
    requires m > 0 && Zero(lam * d - n, m) && Zero(y3 - (lam * (x1 - x3) - y1), m)
    ensures OppositeOnLine(n, d, x1, y1, x3, y3, m)
  {
    hide Zero;
    var e, g := lam * d - n, y3 - (lam * (x1 - x3) - y1);
    ZeroMul(g, d, m);
    ZeroMul(e, x1 - x3, m);
    ZeroAdd(g * d, e * (x1 - x3), m);
    ReflectedAlgebra(n, d, lam, y1, x1 - x3, y3);
  }

  lemma ReflectedAlgebra(n: int, d: int, lam: int, y1: int, a: int, y3: int)
    ensures d * (y3 + y1) - n * a == (y3 - (lam * a - y1)) * d + (lam * d - n) * a
  {
  }

  /** Two points with one abscissa are equal or opposite. */
  lemma SameAbscissa(x: int, y1: nat, y2: nat, m: nat)
    requires Inverts(m) && y1 < m && y2 < m && y1 != y2
    requires Zero(Equation(x, y1), m) && Zero(Equation(x, y2), m)
    ensures Zero(y1 + y2, m)
  {
    var d, s := y1 - y2, y1 + y2;
    ZeroAdd(Equation(x, y1), Equation(x, y2), m);
    DifferenceOfSquares(y1, y2);
    assert Equation(x, y1) - Equation(x, y2) == d * s;
    SmallNonzero(d, m);
    assert Zero(d * ModInv(d, m) - 1, m);
    hide Equation;
    Cancel(d, ModInv(d, m), s, m);
  }

  lemma DifferenceOfSquares(a: int, b: int)
    ensures a * a - b * b == (a - b) * (a + b)
  {
  }

  /** `point_add` is the chord-and-tangent law, wherever no point with y = 0 is doubled. */
  lemma PointAddIsSum(p: Point, q: Point, m: nat)
    requires Inverts(m) && m % 2 == 1 && OnCurve(p, m) && OnCurve(q, m)
    requires p == q && p.Affine? ==> p.y != 0
    ensures IsSum(p, q, PointAdd(p, q, m), m)
  {
    if p.Affine? && q.Affine? {
      if p.x != q.x {
        ChordSum(p, q, m);
      } else if p.y == q.y {
        TangentSum(p, m);
      } else {
        SameAbscissa(p.x, p.y, q.y, m);
      }
    }
  }

  lemma ChordSum(p: Point, q: Point, m: nat)
    requires Inverts(m) && p.Affine? && q.Affine? && OnCurve(p, m) && OnCurve(q, m) && p.x != q.x
    ensures IsSum(p, q, PointAdd(p, q, m), m)
  {
    var d := q.x - p.x;
    SmallNonzero(d, m);
    assert Zero(d * ModInv(d, m) - 1, m);
    Quotient(q.y - p.y, d, ModInv(d, m), m);
    ChordCofactor(p.x, p.y, q.x, q.y, m);
    hide ModInv, Third, Equation, Cofactor, MeetsIn, OppositeOnLine, Inverts;
    ThirdMeets(q.y - p.y, d, Slope(p.x, p.y, q.x, q.y, m), p.x, p.y, q.x, m);
  }

  lemma TangentSum(p: Point, m: nat)
    requires Inverts(m) && m % 2 == 1 && p.Affine? && OnCurve(p, m) && p.y != 0
    ensures IsSum(p, p, PointAdd(p, p, m), m)
  {
    TwiceNonzero(p.y, m);
    assert Zero(2 * p.y * ModInv(2 * p.y, m) - 1, m);
    Quotient(3 * p.x * p.x, 2 * p.y, ModInv(2 * p.y, m), m);
    TangentCofactor(p.x, p.y, m);
    hide ModInv, Third, Equation, Cofactor, MeetsIn, OppositeOnLine, Inverts;
    assert p.y + p.y == 2 * p.y;
    ThirdMeets(3 * p.x * p.x, 2 * p.y, Slope(p.x, p.y, p.x, p.y, m), p.x, p.y, p.x, m);
  }

  lemma CancelNonzero(d: int, q: int, m: nat)
    requires Inverts(m) && !Zero(d, m) && Zero(d * q, m)
    ensures Zero(q, m)
  {
    assert Zero(d * ModInv(d, m) - 1, m);
    Cancel(d, ModInv(d, m), q, m);
  }

  lemma SameResidue(a: nat, b: nat, m: nat)
    requires m > 0 && a < m && b < m && Zero(a - b, m)
    ensures a == b
  {
    if a != b {
      SmallNonzero(a - b, m);
    }
  }

  lemma ExcessDifference(n: int, d: int, x1: int, y1: int, x2: int, x3: int, z: int, X: int)
    ensures Excess(n, d, x1, y1, x2, x3, X) - Excess(n, d, x1, y1, x2, z, X)
         == d * (d * ((X - x1) * ((X - x2) * (x3 - z))))
  {
    hide Chord;
    var a, b := X - x1, X - x2;
    ProductDifference(d, a, b, X, x3, z);
  }

  lemma ProductDifference(d: int, a: int, b: int, X: int, x3: int, z: int)
    ensures d * d * (a * b * (X - z)) - d * d * (a * b * (X - x3)) == d * (d * (a * (b * (x3 - z))))
  {
  }

  /** The three abscissas leave no choice for the third. */
  lemma ThirdUnique(n: int, d: int, x1: nat, y1: int, x2: nat, x3: nat, z: nat, m: nat)
    requires Inverts(m) && !Zero(d, m) && x1 < m && x2 < m && x3 < m && z < m
    requires MeetsIn(n, d, x1, y1, x2, x3, m) && MeetsIn(n, d, x1, y1, x2, z, m)
    ensures x3 == z
  {
    var X: nat := if x1 != 0 && x2 != 0 then 0 else if x1 != 1 && x2 != 1 then 1 else 2;
    assert Zero(Excess(n, d, x1, y1, x2, x3, X), m) && Zero(Excess(n, d, x1, y1, x2, z, X), m);
    hide Excess, MeetsIn, Zero, Inverts;
    ZeroAdd(Excess(n, d, x1, y1, x2, x3, X), Excess(n, d, x1, y1, x2, z, X), m);
    ExcessDifference(n, d, x1, y1, x2, x3, z, X);
    AboveTwo(m);
    SmallNonzero(X - x1, m);
    SmallNonzero(X - x2, m);
    CancelNonzero(d, d * ((X - x1) * ((X - x2) * (x3 - z))), m);
    CancelNonzero(d, (X - x1) * ((X - x2) * (x3 - z)), m);
    CancelNonzero(X - x1, (X - x2) * (x3 - z), m);
    CancelNonzero(X - x2, x3 - z, m);
    SameResidue(x3, z, m);
  }

  lemma AboveTwo(m: nat)
    requires Inverts(m)
    ensures m > 2
  {
  }

  lemma OppositeUnique(n: int, d: int, x1: int, y1: int, x3: int, y: nat, z: nat, m: nat)
    requires Inverts(m) && !Zero(d, m) && y < m && z < m
    requires OppositeOnLine(n, d, x1, y1, x3, y, m) && OppositeOnLine(n, d, x1, y1, x3, z, m)
    ensures y == z
  {
    ZeroAdd(d * (y + y1) - n * (x1 - x3), d * (z + y1) - n * (x1 - x3), m);
    Distribute(d, y + y1, z + y1);
    hide Zero, Inverts;
    CancelNonzero(d, y - z, m);
    SameResidue(y, z, m);
  }

  /** The law leaves no choice: two points have one sum. */
  lemma SumUnique(p: Point, q: Point, r: Point, s: Point, m: nat)
    requires Inverts(m) && OnCurve(p, m) && OnCurve(q, m) && IsSum(p, q, r, m) && IsSum(p, q, s, m)
    requires m % 2 == 1 && (p == q && p.Affine? ==> p.y != 0)
    ensures r == s
  {
    if p.Affine? && q.Affine? && !(p.x == q.x && Zero(p.y + q.y, m)) {
      var n, d := Rise(p, q), Span(p, q);
      if p.x != q.x {
        SmallNonzero(q.x - p.x, m);
      } else if p.y != q.y {
        SameAbscissa(p.x, p.y, q.y, m);
      } else {
        TwiceNonzero(p.y, m);
      }
      hide Zero, Inverts, MeetsIn, OppositeOnLine, Equation;
      ThirdUnique(n, d, p.x, p.y, q.x, r.x, s.x, m);
      OppositeUnique(n, d, p.x, p.y, r.x, r.y, s.y, m);
    }
  }

  /** A point and its opposite add up to infinity. */
  lemma OppositesCancel(p: Point, m: nat)
    requires m % 2 == 1 && p.Affine? && 0 < p.y < m
    ensures m > 1 && PointAdd(p, Affine(p.x, m - p.y), m) == Infinity
  {
  }

  lemma TwiceNonzero(y: nat, m: nat)
    requires m % 2 == 1 && 0 < y < m
    ensures !Zero(2 * y, m)
  {
    if 2 * y < m {
      SmallNonzero(2 * y, m);
    } else {
      DivUnique(2 * y, m, 1, 2 * y - m);
    }
  }

  // ---- Laws of powers -------------------------------------------------------

  lemma ProductRemainder(a: int, b: int, m: nat)
    requires m > 0
    ensures a * (b % m) % m == a * b % m
    ensures (a % m) * b % m == a * b % m
  {
    ZeroRemainder(b, m);
    ZeroMul(b % m - b, a, m);
    assert a * (b % m) - a * b == (b % m - b) * a;
    SameRemainder(a * (b % m), a * b, m);
    ZeroRemainder(a, m);
    ZeroMul(a % m - a, b, m);
    assert (a % m) * b - a * b == (a % m - a) * b;
    SameRemainder((a % m) * b, a * b, m);
  }

  /** b^k = b * p carries over to the product with q. */
  lemma ProductStep(b: int, p: int, q: int, m: nat)
    requires m > 0
    ensures b * (p * q % m) % m == (b * p % m) * q % m
  {
    ProductRemainder(b, p * q, m);
    ProductRemainder(b * p, q, m);
    assert b * (p * q) == b * p * q;
  }

  lemma {:induction false} PowModAdd(b: int, d: nat, e: nat, m: nat)
    requires m > 0
    ensures PowMod(b, d + e, m) == PowMod(b, d, m) * PowMod(b, e, m) % m
  {
    if d == 0 {
      ProductRemainder(1, PowMod(b, e, m), m);
      DivUnique(PowMod(b, e, m), m, 0, PowMod(b, e, m));
    } else {
      PowModAdd(b, d - 1, e, m);
      ProductStep(b, PowMod(b, d - 1, m), PowMod(b, e, m), m);
      PowModUnfold(b, d + e, m);
      PowModUnfold(b, d, m);
    }
  }

  lemma PowModUnfold(b: int, e: nat, m: nat)
    requires m > 0 && e > 0
    ensures PowMod(b, e, m) == b * PowMod(b, e - 1, m) % m
  {
  }

  lemma {:induction false} PowModMul(b: int, d: nat, e: nat, m: nat)
    requires m > 0
    ensures PowMod(PowMod(b, d, m), e, m) == PowMod(b, d * e, m)
    decreases e
  {
    if e == 0 {
      assert d * e == 0;
    } else {
      assert d * e == d + d * (e - 1);
      PowModMul(b, d, e - 1, m);
      PowModAdd(b, d, d * (e - 1), m);
    }
  }

  lemma {:induction false} PowModCongruent(b: int, c: int, e: nat, m: nat)
    requires m > 0 && b % m == c % m
    ensures PowMod(b, e, m) == PowMod(c, e, m)
  {
    if e > 0 {
      PowModCongruent(b, c, e - 1, m);
      var p := PowMod(b, e - 1, m);
      ProductRemainder(b, p, m);
      ProductRemainder(c, p, m);
    }
  }

  /** Fermat's little theorem, as it follows from `modinv` inverting. */
  lemma Fermat(x: int, m: nat)
    requires Inverts(m) && !Zero(x, m)
    ensures PowMod(x, m - 1, m) == 1
  {
    assert Zero(x * ModInv(x, m) - 1, m);
    SameRemainder(x * ModInv(x, m), 1, m);
    DivUnique(1, m, 0, 1);
  }

  /** If -7 is not a cube, as its power with exponent (m - 1) / 3 tells, then no point of
      the curve has y = 0. */
  lemma NoZeroOrdinate(x: nat, m: nat)
    requires Inverts(m) && m > 7 && m % 3 == 1 && PowMod(-7, (m - 1) / 3, m) != 1
    ensures !Zero(Equation(x, 0), m)
  {
    if Zero(Equation(x, 0), m) {
      NotMultiple(x, m);
      CubeRootPower(x, m);
    }
  }

  lemma NotMultiple(x: nat, m: nat)
    requires m > 7 && Zero(Equation(x, 0), m)
    ensures !Zero(x, m)
  {
    if Zero(x, m) {
      ZeroMul(x, x * x, m);
      assert x * (x * x) == x * x * x;
      ZeroAdd(x * x * x, Equation(x, 0), m);
      assert x * x * x + Equation(x, 0) == -7;
      SmallNonzero(-7, m);
    }
  }

  lemma CubeRootPower(x: nat, m: nat)
    requires Inverts(m) && m > 7 && m % 3 == 1 && !Zero(x, m) && Zero(Equation(x, 0), m)
    ensures PowMod(-7, (m - 1) / 3, m) == 1
  {
    var e := (m - 1) / 3;
    Fermat(x, m);
    CubeAsPower(x, m);
    PowModMul(x, 3, e, m);
    ZeroMul(Equation(x, 0), -1, m);
    assert Equation(x, 0) * -1 == x * x * x - -7;
    SameRemainder(x * x * x, -7, m);
    DivUnique(PowMod(x, 3, m), m, 0, PowMod(x, 3, m));
    PowModCongruent(PowMod(x, 3, m), -7, e, m);
  }

  lemma CubeAsPower(x: int, m: nat)
    requires m > 1
    ensures PowMod(x, 3, m) == x * x * x % m
  {
    DivUnique(1, m, 0, 1);
    assert PowMod(x, 1, m) == x % m;
    ProductRemainder(x, x, m);
    assert PowMod(x, 2, m) == x * x % m;
    ProductRemainder(x, x * x, m);
    assert x * (x * x) == x * x * x;
  }
}
