/** secp256k1 as `_ec_point_add_pure` computes in it, and BIP 32 derivation of child keys
    from public keys (btpay/bitcoin/xpub.py). HMAC-SHA512 is a parameter. */
module Secp256k1 {
  import opened Arithmetic
  import opened Wrappers
  import opened Base58
  import opened Curve
  import opened CompressedKeys
  import opened CubeCertificate
  import opened DoubleAndAdd
  import opened OrderCertificate
  import Addresses

  const N: nat := 0xFFFFFFFFFFFFFFFFFFFFFFFFFFFFFFFEBAAEDCE6AF48A03BBFD25E8CD0364141
  const GX: nat := 0x79BE667EF9DCBBAC55A06295CE870B07029BFCDB2DCE28D959F2815B16F81798
  const GY: nat := 0x483ADA7726A3C4655DA4FBFC0E1108A8FD17B448A68554199C47D08FFB10D4B8
  const G: Point := Affine(GX, GY)

  // ---- The group ------------------------------------------------------------

  function Add(p1: Point, p2: Point): Point {
    PointAdd(p1, p2, P)
  }

  ghost predicate Valid(p: Point) {
    OnCurve(p, P)
  }

  lemma GeneratorValid()
    ensures Valid(G)
  {
    var shift: nat := 0x10000000000000000000000000000000000000000000000000000000000000000;
    var q := -(0x1b888e01a06e974017a28a5b4da436169761c9730b7aeedf75fc60f6a33cfc77 * shift
               + 0x92fe74711f025d590b10e57f1b3a7ce38ffc4c885c515894b45c19c9f413e5e9);
    assert Equation(GX, GY) == P * q;
    ZeroMultiple(q, P);
  }

  /** With `modinv` inverting, addition never leaves the curve: the one case in which the
      tangent rule would, doubling a point with y = 0, does not arise on this curve. */
  lemma AddValid(p1: Point, p2: Point)
    requires Inverts(P) && Valid(p1) && Valid(p2)
    ensures Valid(Add(p1, p2))
  {
    hide Inverts, PointAdd, Equation;
    if p1.Affine? {
      NoPointWithZeroOrdinate(p1.x);
    }
    PointAddOnCurve(p1, p2, P);
  }

  lemma AddClosed()
    requires Inverts(P)
    ensures ClosedOn(Add, Infinity, Valid)
  {
    hide Inverts, Add, OnCurve;
    InfinityValid();
    forall a, b | Valid(a) && Valid(b) ensures Valid(Add(a, b)) {
      AddValid(a, b);
    }
  }

  lemma InfinityValid()
    ensures Valid(Infinity)
  {
  }

  /** k times the generator. */
  ghost function Times(k: nat): Point {
    Multiple(Add, Infinity, k, G)
  }

  /** The facts of mathematics that no code establishes: P and N are prime (so that powers
      invert), and the chord-and-tangent law is associative. */
  ghost predicate GroupFacts() {
    && Inverts(P) && Inverts(N)
    && forall a, b, c :: Valid(a) && Valid(b) && Valid(c) ==> Add(Add(a, b), c) == Add(a, Add(b, c))
  }

  lemma AddIsMonoid()
    requires GroupFacts()
    ensures Monoid(Add, Infinity, Valid)
  {
    AddClosed();
    hide Inverts, OnCurve, ClosedOn;
  }

  lemma TimesValid(k: nat)
    requires Inverts(P)
    ensures Valid(Times(k))
  {
    hide Inverts, Add, Valid, ClosedOn;
    AddClosed();
    GeneratorValid();
    MultipleOk(Add, Infinity, Valid, k, G);
  }

  lemma LoopIsTimes(k: nat)
    requires GroupFacts()
    ensures Loop(Add, k, G, Infinity) == Times(k)
  {
    hide GroupFacts, Add, Valid, Monoid;
    AddIsMonoid();
    FactsInvert();
    InfinityValid();
    GeneratorValid();
    LoopIsMultiple(Add, Infinity, Valid, k, G, Infinity);
    IdentityOfAdd(Times(k));
  }

  lemma IdentityOfAdd(p: Point)
    ensures Add(Infinity, p) == p && Add(p, Infinity) == p
  {
  }

  lemma FactsInvert()
    requires GroupFacts()
    ensures Inverts(P)
  {
  }

  lemma TimesAdd(j: nat, k: nat)
    requires GroupFacts()
    ensures Times(j + k) == Add(Times(j), Times(k))
  {
    hide GroupFacts, Add, Valid, Monoid;
    AddIsMonoid();
    GeneratorValid();
    MultipleAdd(Add, Infinity, Valid, j, k, G);
  }

  /** Multiples of G depend only on the factor modulo N. */
  lemma TimesReduced(k: nat)
    requires GroupFacts()
    ensures k % N < N && Times(k % N) == Times(k)
  {
    hide GroupFacts, Add, Valid, Monoid;
    AddIsMonoid();
    GeneratorValid();
    OrderVanishes();
    DivMod(k, N);
    MultipleReduced(Add, Infinity, Valid, N, k / N, k % N, G);
  }

  lemma TimesOne()
    ensures Times(1) == G
  {
    hide Add;
    assert Times(0) == Infinity;
    IdentityOfAdd(G);
  }

  /** N times the generator is infinity, by the certificate. */
  lemma OrderVanishes()
    requires GroupFacts()
    ensures Times(N) == Infinity
  {
    TimesOne();
    FactsInvert();
    forall j: nat, k: nat ensures Times(j + k) == PointAdd(Times(j), Times(k), P) {
      TimesAdd(j, k);
    }
    hide Times, Inverts;
    OrderIsInfinity(Times);
  }

  /** G has order N: exactly the multiples of N vanish. */
  lemma FactsOrder(k: nat)
    requires GroupFacts()
    ensures Times(k) == Infinity <==> k % N == 0
  {
    hide GroupFacts, Times;
    TimesReduced(k);
    if k % N == 0 {
      TimesNothing();
    } else {
      NoSmallerOrder(k % N);
    }
  }

  lemma TimesNothing()
    ensures Times(0) == Infinity
  {
  }

  lemma NoSmallerOrder(r: nat)
    requires GroupFacts() && 0 < r < N
    ensures Times(r) != Infinity
  {
    hide Times;
    var i: nat := ModInv(r, N);
    SmallNonzero(r, N);
    assert Zero(r * i - 1, N);
    SameRemainder(r * i, 1, N);
    DivUnique(1, N, 0, 1);
    TimesReduced(r * i);
    TimesOne();
    VanishingMultiple(r, i);
  }

  lemma VanishingMultiple(r: nat, i: nat)
    requires GroupFacts()
    ensures Times(r) == Infinity ==> Times(r * i) == Infinity
  {
    hide GroupFacts, Add, Valid, Monoid;
    AddIsMonoid();
    GeneratorValid();
    if Times(r) == Infinity {
      MultipleOfMultiple(Add, Infinity, Valid, r, i, G);
    }
  }

  /** What the program adds is the chord-and-tangent law, and nothing else. */
  lemma AddExactly(p: Point, q: Point, r: Point)
    requires Inverts(P) && Valid(p) && Valid(q)
    ensures Add(p, q) == r <==> IsSum(p, q, r, P)
  {
    FieldPrime();
    hide Inverts, PointAdd, Equation, IsSum;
    if p.Affine? {
      NoPointWithZeroOrdinate(p.x);
      NotZeroOrdinate(p);
    }
    PointAddIsSum(p, q, P);
    if IsSum(p, q, r, P) {
      SumUnique(p, q, r, Add(p, q), P);
    }
  }

  lemma NotZeroOrdinate(p: Point)
    requires p.Affine? && Valid(p) && !Zero(Equation(p.x, 0), P)
    ensures p.y != 0
  {
  }

  // ---- Tweaking a public key ------------------------------------------------

  /** `_ec_point_add_pure`, with the double-and-add loop as `Loop`. */
  ghost function TweakAdded(pub: seq<nat>, tweak: seq<nat>): Result<seq<nat>> {
    if |pub| != 33 || Number(tweak, 256) >= N then Error
    else
      var child := Add(Decompress(pub, P), Loop(Add, Number(tweak, 256), G, Infinity));
      if child == Infinity then Error else Ok(Compress(child))
  }

  method TweakAdd(pub: seq<nat>, tweak: seq<nat>) returns (r: Result<seq<nat>>)
    ensures r == TweakAdded(pub, tweak)
  {
    hide Add, Decompress, Compress, Number, Loop;
    if |pub| != 33 {
      return Error;
    }
    var parent := Decompress(pub, P);
    var scalar := Number(tweak, 256);
    if scalar >= N {
      return Error;
    }
    var point := ScalarMult(Add, Infinity, scalar, G);
    var child := Add(parent, point);
    if child == Infinity {
      return Error;
    }
    return Ok(Compress(child));
  }

  lemma FieldPrime()
    ensures P % 4 == 3 && P <= Addresses.Pow(256, 32) && P % 2 == 1
  {
    assert Addresses.Pow(256, 8) == 18446744073709551616;
    Addresses.PowAdd(256, 8, 8);
    Addresses.PowAdd(256, 16, 16);
  }

  /** Compressed points of the curve decompress to themselves. */
  lemma ValidRoundTrip(p: Point)
    requires Inverts(P) && p.Affine? && Valid(p)
    ensures Decompress(Compress(p), P) == p
  {
    FieldPrime();
    NoPointWithZeroOrdinate(p.x);
    hide Inverts, Decompress, Compress;
    DecompressCompress(p, P);
  }

  /** A compressed key decompresses to a point of the curve exactly if its abscissa is reduced
      and passes Euler's test, so exactly if the curve has a point with that abscissa.
      Nothing checks that: other keys go on as points off the curve. */
  lemma KeyOnCurve(pub: seq<nat>)
    requires Inverts(P) && |pub| == 33
    ensures Valid(Decompress(pub, P)) <==> PassesEuler(Number(pub[1..], 256), P)
    ensures Valid(Decompress(pub, P)) <==> Abscissa(Number(pub[1..], 256), P)
  {
    FieldPrime();
    NoOrdinateZero();
    hide Decompress, Abscissa, Number, NoZeroOrdinates, Inverts, PassesEuler;
    DecompressedOnCurve(pub, P);
    AbscissaExactly(Number(pub[1..], 256), P);
  }

  /** Such a key: the prefix 2 and the field modulus itself. */
  lemma ModulusIsOffCurve()
    ensures var pub := [2] + Fixed(P, 32);
      |pub| == 33 && Digits(pub, 256) && !Valid(Decompress(pub, P))
  {
    var pub := [2] + Fixed(P, 32);
    ModulusFits();
    FixedNumber(P, 32);
    assert pub[1..] == Fixed(P, 32);
    hide Number, Fixed, Root;
    assert Decompress(pub, P).x == P;
  }

  lemma ModulusFits()
    ensures P < Addresses.Pow(256, 32)
  {
    assert Addresses.Pow(256, 8) == 18446744073709551616;
    Addresses.PowAdd(256, 8, 8);
    Addresses.PowAdd(256, 16, 16);
  }

  lemma NoOrdinateZero()
    requires Inverts(P)
    ensures NoZeroOrdinates(P)
  {
    hide Inverts, Equation;
    forall x: nat ensures !Zero(Equation(x, 0), P) {
      NoPointWithZeroOrdinate(x);
    }
  }

  /** From a key on the curve only keys on the curve are derived. */
  lemma ChildOnCurve(pub: seq<nat>, tweak: seq<nat>)
    requires Inverts(P) && |pub| == 33 && Valid(Decompress(pub, P))
    ensures TweakAdded(pub, tweak).Ok? ==> Valid(Decompress(TweakAdded(pub, tweak).value, P))
  {
    hide Inverts, Add, Valid, ClosedOn, Loop, Decompress, Compress, Number;
    var k := Number(tweak, 256);
    AddClosed();
    GeneratorValid();
    InfinityValid();
    LoopOk(Add, Infinity, Valid, k, G, Infinity);
    var child := Add(Decompress(pub, P), Loop(Add, k, G, Infinity));
    Closed(Add, Infinity, Valid, Decompress(pub, P), Loop(Add, k, G, Infinity));
    if child != Infinity {
      ValidRoundTrip(child);
    }
  }

  /** The child of a key on the curve is the chord-and-tangent sum of the key and the tweak's
      multiple of the generator; there is none exactly if that sum is infinity or the tweak
      is out of range. */
  lemma TweakIsSum(pub: seq<nat>, tweak: seq<nat>)
    requires GroupFacts() && |pub| == 33 && Valid(Decompress(pub, P))
    ensures var t := Number(tweak, 256);
      match TweakAdded(pub, tweak)
      case Ok(child) => t < N && IsSum(Decompress(pub, P), Times(t), Decompress(child, P), P)
      case Error => t >= N || IsSum(Decompress(pub, P), Times(t), Infinity, P)
  {
    hide GroupFacts, Inverts, Add, Valid, Loop, Decompress, Compress, Number, Times, IsSum;
    FactsInvert();
    var t := Number(tweak, 256);
    LoopIsTimes(t);
    TimesValid(t);
    var sum := Add(Decompress(pub, P), Times(t));
    AddExactly(Decompress(pub, P), Times(t), sum);
    AddValid(Decompress(pub, P), Times(t));
    if sum.Affine? {
      ValidRoundTrip(sum);
    }
  }

  lemma DoubledGenerator()
    requires Inverts(P)
    ensures Add(G, G) == Affine(
      0xC6047F9441ED7D6D3045406E95C07CD85C778E4B8CEF3CA7ABAC09B95C709EE5,
      0x1ae168fea63dc339a3c58419466ceaeef7f632653266d0e1236431a950cfe52a)
  {
    hide Inverts, PointAdd;
    TangentOf(GX, GY,
      0xcb35b28428101a303eb9d1235992ac63f58857c2f631ee6936d3aebbeddcd1b1,
      -0x3b04fbed296cc1277f1659ab9a6f3feba665d74e98725ee2d39e827bc28878b0,
      0xa14e3460febe2c2316bfcccc1b764790c3b7d9ff92663ea740240f16b583e774,
      -0x3c8b95972f12b04b3ca25330b2bd449e8e938229d1fd14f76cae42249ce0dc11,
      0xC6047F9441ED7D6D3045406E95C07CD85C778E4B8CEF3CA7ABAC09B95C709EE5,
      0x1ae168fea63dc339a3c58419466ceaeef7f632653266d0e1236431a950cfe52a, P);
  }

  lemma TweakAddedOf(pub: seq<nat>, tweak: seq<nat>, p: Point, q: Point, r: Point)
    requires |pub| == 33 && Number(tweak, 256) < N && Decompress(pub, P) == p
    requires Loop(Add, Number(tweak, 256), G, Infinity) == q && Add(p, q) == r && r.Affine?
    ensures TweakAdded(pub, tweak) == Ok(Compress(r))
  {
    hide Add, Decompress, Compress, Number, Loop;
  }

  lemma CompressEven(p: Point)
    requires p.Affine? && p.y % 2 == 0
    ensures Compress(p) == [2] + Fixed(p.x, 32)
  {
    hide Fixed;
  }

  lemma OneAsBytes()
    ensures Number(Fixed(1, 32), 256) == 1
  {
    hide Fixed, Number;
    ModulusFits();
    FixedNumber(1, 32);
  }

  lemma LoopOnce()
    ensures Loop(Add, 1, G, Infinity) == G
  {
    hide Add;
    IdentityOfAdd(G);
    assert Loop(Add, 1, G, Infinity) == Add(Infinity, G);
  }

  lemma KeyOfGenerator(pub: seq<nat>)
    requires Inverts(P) && pub == Compress(G)
    ensures |pub| == 33 && Decompress(pub, P) == G
  {
    GeneratorValid();
    hide Inverts, Compress, Decompress, Valid;
    ValidRoundTrip(G);
  }

  /** The key of the generator tweaked by 1 is that of its double. */
  lemma TweakOfGenerator()
    requires Inverts(P)
    ensures TweakAdded([2] + Fixed(GX, 32), Fixed(1, 32))
         == Ok([2] + Fixed(0xC6047F9441ED7D6D3045406E95C07CD85C778E4B8CEF3CA7ABAC09B95C709EE5, 32))
  {
    hide Add, Compress, Decompress, Loop, Number, Fixed, TweakAdded, Inverts;
    CompressEven(G);
    KeyOfGenerator(Compress(G));
    OneAsBytes();
    LoopOnce();
    DoubledGenerator();
    CompressEven(Add(G, G));
    TweakAddedOf(Compress(G), Fixed(1, 32), G, G, Add(G, G));
  }

  /** Tweaking the public key of k by t gives the public key of k + t, and fails exactly
      if t is out of range or k + t is a multiple of the order. */
  lemma TweakOfMultiple(k: nat, tweak: seq<nat>)
    requires GroupFacts() && Times(k).Affine?
    ensures var t := Number(tweak, 256);
      TweakAdded(Compress(Times(k)), tweak)
        == if t >= N || (k + t) % N == 0 then Error else
           (assert Times(k + t).Affine? by { FactsOrder(k + t); } Ok(Compress(Times(k + t))))
  {
    hide GroupFacts, Add, Valid, Loop, Decompress, Compress, Number, Times;
    var t := Number(tweak, 256);
    FactsInvert();
    TimesValid(k);
    ValidRoundTrip(Times(k));
    LoopIsTimes(t);
    TimesAdd(k, t);
    FactsOrder(k + t);
  }
}
