/** Compressed public keys: the square root in `decompress_point` and the parity byte
    (btpay/bitcoin/xpub.py:226-240), for a field prime m with m % 4 == 3. */
module CompressedKeys {
  import opened Arithmetic
  import opened Base58
  import opened Curve
  import Addresses

  // ---- Fixed-width numbers --------------------------------------------------

  /** `to_bytes(k, 'big')`, as far as k bytes go. */
  function Fixed(n: nat, k: nat): (b: seq<nat>)
    ensures |b| == k
  {
    if k == 0 then [] else Fixed(n / 256, k - 1) + [n % 256]
  }

  lemma {:induction false} FixedNumber(n: nat, k: nat)
    requires n < Addresses.Pow(256, k)
    ensures Number(Fixed(n, k), 256) == n && Digits(Fixed(n, k), 256)
  {
    if k > 0 {
      var b := Fixed(n, k);
      assert b[..k - 1] == Fixed(n / 256, k - 1);
      FixedNumber(n / 256, k - 1);
    }
  }

  lemma {:induction false} NumberFixed(b: seq<nat>)
    requires Digits(b, 256)
    ensures Fixed(Number(b, 256), |b|) == b
    decreases |b|
  {
    if b != [] {
      var k := |b| - 1;
      NumberFixed(b[..k]);
      DivUnique(Number(b, 256), 256, Number(b[..k], 256), b[k]);
      assert b == b[..k] + [b[k]];
    }
  }

  // ---- Compression ----------------------------------------------------------

  /** x^3 + 7 as the program computes it. */
  function Radicand(x: nat, m: nat): (c: nat)
    requires m > 1
    ensures c < m
  {
    (PowMod(x, 3, m) + 7) % m
  }

  function Root(x: nat, m: nat): (y: nat)
    requires m > 1
    ensures y < m
  {
    PowMod(Radicand(x, m), (m + 1) / 4, m)
  }

  function Decompress(pub: seq<nat>, m: nat): Point
    requires m > 1 && |pub| == 33
  {
    Lift(pub[0], Number(pub[1..], 256), m)
  }

  /** The point with abscissa x whose ordinate has the parity the prefix asks for. */
  function Lift(prefix: nat, x: nat, m: nat): Point
    requires m > 1
  {
    var y: int := Root(x, m);
    Affine(x, if y % 2 != prefix - 2 then m - y else y)
  }

  function Compress(p: Point): (pub: seq<nat>)
    requires p.Affine?
    ensures |pub| == 33
  {
    [if p.y % 2 == 0 then 2 else 3] + Fixed(p.x, 32)
  }

  /** Compressing what was decompressed gives the key back, whether or not any point of
      the curve has that abscissa. */
  lemma CompressDecompress(pub: seq<nat>, m: nat)
    requires m > 1 && m % 2 == 1 && |pub| == 33 && Digits(pub, 256) && 2 <= pub[0] <= 3
    ensures Compress(Decompress(pub, m)) == pub
  {
    var x := Number(pub[1..], 256);
    var y := Root(x, m);
    OppositeParity(y, m);
    assert Digits(pub[1..], 256);
    NumberFixed(pub[1..]);
    hide Root, Number, Fixed;
    var p := Decompress(pub, m);
    assert p.y % 2 == pub[0] - 2;
    assert Fixed(p.x, 32) == pub[1..];
    assert pub == [pub[0]] + pub[1..];
  }

  lemma OppositeParity(y: nat, m: nat)
    requires m % 2 == 1 && y <= m
    ensures (m - y) % 2 == 1 - y % 2
  {
  }

  // ---- Square roots ---------------------------------------------------------

  lemma SquareAsPower(y: nat, m: nat)
    requires m > 1
    ensures PowMod(y, 2, m) == y * y % m
  {
    DivUnique(1, m, 0, 1);
    assert PowMod(y, 1, m) == y % m;
    ProductRemainder(y, y, m);
  }

  lemma Quarter(m: nat) returns (e: nat)
    requires m % 4 == 3
    ensures e == (m + 1) / 4 && 2 * e + 2 * e == (m - 1) + 2
  {
    e := (m + 1) / 4;
  }

  /** The power with exponent (m + 1) / 4 of a square is a square root of it. */
  lemma RootSquares(y: nat, m: nat)
    requires Inverts(m) && m % 4 == 3
    ensures var r := PowMod(y * y % m, (m + 1) / 4, m); r * r % m == y * y % m
  {
    hide *;
    var e := Quarter(m);
    SquareAsPower(y, m);
    PowModMul(y, 2, e, m);
    PowModAdd(y, 2 * e, 2 * e, m);
    PowModAdd(y, m - 1, 2, m);
    SquarePeriod(y, m);
  }

  lemma SquarePeriod(y: nat, m: nat)
    requires Inverts(m)
    ensures PowMod(y, m - 1, m) * PowMod(y, 2, m) % m == y * y % m
  {
    SquareAsPower(y, m);
    var s := y * y % m;
    DivMod(y * y, m);
    if Zero(y, m) {
      ZeroMul(y, y, m);
      assert s == 0;
      assert PowMod(y, m - 1, m) * s == 0;
      DivUnique(0, m, 0, 0);
    } else {
      Fermat(y, m);
      assert PowMod(y, m - 1, m) * s == s;
      DivUnique(s, m, 0, s);
    }
  }

  /** Two reduced numbers with the same square are equal or opposite. */
  lemma RootsOpposite(r: nat, y: nat, m: nat)
    requires Inverts(m) && r < m && 0 < y < m && r * r % m == y * y % m
    ensures r == y || r == m - y
  {
    SameRemainder(r * r, y * y, m);
    var d, s := r - y, r + y;
    assert r * r - y * y == d * s;
    if r != y {
      SmallNonzero(d, m);
      assert Zero(d * ModInv(d, m) - 1, m);
      Cancel(d, ModInv(d, m), s, m);
      if s < m {
        SmallNonzero(s, m);
      } else if s > m {
        SmallNonzero(s - m, m);
        SameRemainder(s, s - m, m);
        assert s - (s - m) == m * 1;
        ZeroMultiple(1, m);
      }
    }
  }

  lemma CubePlusSeven(x: nat, m: nat)
    requires m > 1
    ensures Radicand(x, m) == (x * x * x + 7) % m
  {
    CubeAsPower(x, m);
    var c := x * x * x;
    ZeroRemainder(c, m);
    SameRemainder(c % m + 7, c + 7, m);
  }

  lemma CurveEquation(x: nat, y: nat, m: nat)
    requires m > 0
    ensures Zero(Equation(x, y), m) <==> y * y % m == (x * x * x + 7) % m
  {
    SameRemainder(y * y, x * x * x + 7, m);
    assert Equation(x, y) == y * y - (x * x * x + 7);
  }

  /** If the curve has a point (x, y), the root is y or its opposite. */
  lemma RootFound(x: nat, y: nat, m: nat)
    requires Inverts(m) && m % 4 == 3 && 0 < y < m && Zero(Equation(x, y), m)
    ensures Root(x, m) == y || Root(x, m) == m - y
  {
    CurveEquation(x, y, m);
    CubePlusSeven(x, m);
    RootSquares(y, m);
    RootsOpposite(Root(x, m), y, m);
  }

  /** Decompression undoes compression on the curve. */
  lemma DecompressCompress(p: Point, m: nat)
    requires Inverts(m) && m % 4 == 3 && m <= Addresses.Pow(256, 32)
    requires p.Affine? && p.y != 0 && OnCurve(p, m)
    ensures Decompress(Compress(p), m) == p
  {
    hide *;
    Reduced(p, m);
    FixedNumber(p.x, 32);
    LiftParity(p, m);
    CompressShape(p);
    DecompressShape(Compress(p), m);
  }

  lemma Reduced(p: Point, m: nat)
    requires m > 0 && p.Affine? && OnCurve(p, m)
    ensures p.x < m && p.y < m
  {
  }

  lemma CompressShape(p: Point)
    requires p.Affine?
    ensures Compress(p)[0] == 2 + p.y % 2 && Compress(p)[1..] == Fixed(p.x, 32)
  {
    hide Fixed;
  }

  lemma DecompressShape(pub: seq<nat>, m: nat)
    requires m > 1 && |pub| == 33
    ensures Decompress(pub, m) == Lift(pub[0], Number(pub[1..], 256), m)
  {
    hide Lift, Number;
  }

  lemma LiftParity(p: Point, m: nat)
    requires Inverts(m) && m % 4 == 3 && p.Affine? && p.y != 0 && OnCurve(p, m)
    ensures Lift(2 + p.y % 2, p.x, m) == p
  {
    hide Root;
    RootFound(p.x, p.y, m);
    OppositeParity(p.y, m);
  }

  ghost predicate Abscissa(x: nat, m: nat)
    requires m > 0
  {
    x < m && exists y: nat :: OnCurve(Affine(x, y), m)
  }

  ghost predicate NoZeroOrdinates(m: nat)
    requires m > 0
  {
    forall x: nat :: !Zero(Equation(x, 0), m)
  }

  lemma OppositeOnCurve(x: nat, y: nat, m: nat)
    requires m > 0 && 0 < y < m && OnCurve(Affine(x, y), m)
    ensures OnCurve(Affine(x, m - y), m)
  {
    var z: int := 0 - y;
    EquationOfOpposite(x, y);
    EquationOfShifted(x, z, m);
    ZeroMultiple(m + 2 * z, m);
    ZeroAdd(Equation(x, z), m * (m + 2 * z), m);
    assert z + m == m - y;
  }

  /** `decompress_point` never checks its root. Its result is on the curve exactly if the
      curve has a point with that abscissa; otherwise it goes on with a bogus point. */
  lemma DecompressedOnCurve(pub: seq<nat>, m: nat)
    requires Inverts(m) && m % 4 == 3 && |pub| == 33
    requires NoZeroOrdinates(m)
    ensures OnCurve(Decompress(pub, m), m) <==> Abscissa(Number(pub[1..], 256), m)
  {
    hide *;
    DecompressShape(pub, m);
    LiftedOnCurve(pub[0], Number(pub[1..], 256), m);
  }

  lemma LiftedOnCurve(prefix: nat, x: nat, m: nat)
    requires Inverts(m) && m % 4 == 3 && NoZeroOrdinates(m)
    ensures OnCurve(Lift(prefix, x, m), m) <==> Abscissa(x, m)
  {
    hide *;
    var p := LiftedAs(prefix, x, m);
    AbscissaOf(p, m);
    if Abscissa(x, m) {
      var y := OrdinateOf(x, m);
      RootFound(x, y, m);
      OppositeOnCurve(x, y, m);
    }
  }

  lemma LiftedAs(prefix: nat, x: nat, m: nat) returns (p: Point)
    requires m > 1
    ensures p == Lift(prefix, x, m) && p.Affine? && p.x == x
    ensures p.y == Root(x, m) || p.y == m - Root(x, m)
  {
    hide Root;
    p := Lift(prefix, x, m);
  }

  lemma AbscissaOf(p: Point, m: nat)
    requires m > 0 && p.Affine?
    ensures OnCurve(p, m) ==> Abscissa(p.x, m)
  {
    if OnCurve(p, m) {
      assert OnCurve(Affine(p.x, p.y), m);
    }
  }

  lemma OrdinateOf(x: nat, m: nat) returns (y: nat)
    requires m > 0 && Abscissa(x, m) && NoZeroOrdinates(m)
    ensures 0 < y < m && OnCurve(Affine(x, y), m) && Zero(Equation(x, y), m)
  {
    hide Equation, Zero;
    y :| OnCurve(Affine(x, y), m);
  }

  // ---- Euler's criterion ----------------------------------------------------

  /** What a caller can compute: the abscissa is reduced, and x^3 + 7 passes Euler's test for
      squares. */
  predicate PassesEuler(x: nat, m: nat)
    requires m > 1
  {
    x < m && PowMod(Radicand(x, m), (m - 1) / 2, m) == 1
  }

  /** A number that passes has its power with exponent (m + 1) / 4 as a root. */
  lemma EulerRoot(c: nat, m: nat)
    requires m % 4 == 3 && c < m && PowMod(c, (m - 1) / 2, m) == 1
    ensures var r := PowMod(c, (m + 1) / 4, m); r < m && r * r % m == c
  {
    hide PowMod;
    var e := Quarter(m);
    SquareAsPower(PowMod(c, e, m), m);
    PowModMul(c, e, 2, m);
    PowModAdd(c, (m - 1) / 2, 1, m);
    PowModOne(c, m);
    assert e * 2 == (m - 1) / 2 + 1;
  }

  lemma PowModOne(c: nat, m: nat)
    requires m > 1 && c < m
    ensures PowMod(c, 1, m) == c && 1 * c % m == c
    ensures forall e: nat :: PowMod(c, e, m) < m
  {
    DivUnique(1, m, 0, 1);
    DivUnique(c, m, 0, c);
  }

  lemma SquarePasses(c: nat, y: nat, m: nat)
    requires Inverts(m) && m % 2 == 1 && 0 < y < m && y * y % m == c
    ensures PowMod(c, (m - 1) / 2, m) == 1
  {
    SmallNonzero(y, m);
    Fermat(y, m);
    SquareAsPower(y, m);
    PowModMul(y, 2, (m - 1) / 2, m);
    assert 2 * ((m - 1) / 2) == m - 1;
  }

  lemma EquationOfRadicand(x: nat, y: nat, m: nat)
    requires m > 1
    ensures Zero(Equation(x, y), m) <==> y * y % m == Radicand(x, m)
  {
    CubePlusSeven(x, m);
    CurveEquation(x, y, m);
    hide Radicand, Equation, Zero;
  }

  lemma AbscissaPasses(x: nat, m: nat)
    requires Inverts(m) && m % 4 == 3 && NoZeroOrdinates(m) && Abscissa(x, m)
    ensures PassesEuler(x, m)
  {
    hide PowMod, Inverts, Equation, Zero, NoZeroOrdinates, Radicand;
    var y := OrdinateOf(x, m);
    EquationOfRadicand(x, y, m);
    SquarePasses(Radicand(x, m), y, m);
  }

  lemma PassesAbscissa(x: nat, m: nat)
    requires m % 4 == 3 && PassesEuler(x, m)
    ensures Abscissa(x, m)
  {
    hide PowMod, Equation, Zero, Radicand;
    var r := PowMod(Radicand(x, m), (m + 1) / 4, m);
    EulerRoot(Radicand(x, m), m);
    EquationOfRadicand(x, r, m);
    assert OnCurve(Affine(x, r), m);
  }

  /** The curve has a point with an abscissa exactly if the abscissa passes the test. */
  lemma AbscissaExactly(x: nat, m: nat)
    requires Inverts(m) && m % 4 == 3 && NoZeroOrdinates(m)
    ensures Abscissa(x, m) <==> PassesEuler(x, m)
  {
    hide *;
    if Abscissa(x, m) {
      AbscissaPasses(x, m);
    }
    if PassesEuler(x, m) {
      PassesAbscissa(x, m);
    }
  }
}
