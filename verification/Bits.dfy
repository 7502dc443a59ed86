/** Bitwise operations on non-negative integers of any size.
    `x >> n` is `x / P2(n)`, `x << n` is `x * P2(n)` and `x & ((1 << n) - 1)` is `x % P2(n)`;
    only exclusive or needs a definition of its own. */
module Bits {
  import opened Arithmetic

  function P2(n: nat): (p: nat)
    ensures p > 0
  {
    if n == 0 then 1 else 2 * P2(n - 1)
  }

  /** Bit i, counted from the least significant. */
  predicate Bit(x: nat, i: nat) {
    if i == 0 then x % 2 == 1 else Bit(x / 2, i - 1)
  }

  function Xor(a: nat, b: nat): nat {
    if a == 0 then b else if b == 0 then a
    else 2 * Xor(a / 2, b / 2) + (if a % 2 == b % 2 then 0 else 1)
  }

  lemma {:induction false} BitOfZero(i: nat)
    ensures !Bit(0, i)
  {
    if i > 0 {
      BitOfZero(i - 1);
    }
  }

  lemma Half(h: nat, c: nat)
    requires c < 2
    ensures (2 * h + c) / 2 == h && (2 * h + c) % 2 == c
  {
  }

  lemma XorUnfold(a: nat, b: nat)
    ensures Xor(a, b) == 2 * Xor(a / 2, b / 2) + (if a % 2 == b % 2 then 0 else 1)
  {
  }

  lemma XorHalves(a: nat, b: nat)
    ensures Xor(a, b) / 2 == Xor(a / 2, b / 2)
    ensures Xor(a, b) % 2 == (if a % 2 == b % 2 then 0 else 1)
  {
    var h := Xor(a / 2, b / 2);
    var c := if a % 2 == b % 2 then 0 else 1;
    XorUnfold(a, b);
    Half(h, c);
  }

  /** Exclusive or works bit by bit. */
  lemma {:induction false} BitXor(a: nat, b: nat, i: nat)
    ensures Bit(Xor(a, b), i) <==> Bit(a, i) != Bit(b, i)
  {
    XorHalves(a, b);
    if i > 0 {
      BitXor(a / 2, b / 2, i - 1);
    }
  }

  lemma Double(p: nat, q: nat)
    ensures 2 * p * q == 2 * (p * q)
  {
  }

  lemma {:induction false} P2Add(m: nat, n: nat)
    ensures P2(m + n) == P2(m) * P2(n)
  {
    if m > 0 {
      P2Add(m - 1, n);
      Double(P2(m - 1), P2(n));
    }
  }

  lemma Regroup(x: nat, h: nat, p: nat, q: nat, r: nat)
    requires h == x / 2 && h == p * q + r && r < p
    ensures x == (2 * p) * q + (2 * r + x % 2) && 2 * r + x % 2 < 2 * p
  {
  }

  lemma HalfOfQuotient(x: nat, p: nat)
    requires p > 0
    ensures x / (2 * p) == (x / 2) / p
  {
    var h := x / 2;
    var q, r := h / p, h % p;
    DivMod(h, p);
    Regroup(x, h, p, q, r);
    DivUnique(x, 2 * p, q, 2 * r + x % 2);
  }

  lemma {:induction false} BitOfQuotient(x: nat, n: nat, i: nat)
    ensures 0 <= x / P2(n) && Bit(x / P2(n), i) == Bit(x, i + n)
    decreases n
  {
    DivMod(x, P2(n));
    if n > 0 {
      HalfOfQuotient(x, P2(n - 1));
      BitOfQuotient(x / 2, n - 1, i);
    }
  }

  lemma HalfOfSum(t: nat, r: nat)
    ensures (2 * t + r) / 2 == t + r / 2 && (2 * t + r) % 2 == r % 2
  {
  }

  lemma {:induction false} BitOfSum(q: nat, r: nat, n: nat, i: nat)
    requires i < n
    ensures Bit(P2(n) * q + r, i) == Bit(r, i)
  {
    Double(P2(n - 1), q);
    HalfOfSum(P2(n - 1) * q, r);
    if i > 0 {
      BitOfSum(q, r / 2, n - 1, i - 1);
    }
  }

  lemma BitOfRemainder(x: nat, n: nat, i: nat)
    requires i < n
    ensures Bit(x % P2(n), i) == Bit(x, i)
  {
    var p := P2(n);
    DivMod(x, p);
    var q, r := x / p, x % p;
    BitOfSum(q, r, n, i);
  }

  lemma BitOfShifted(x: nat, n: nat, i: nat)
    ensures Bit(P2(n) * x, i) == (n <= i && Bit(x, i - n))
  {
    if i < n {
      BitOfSum(x, 0, n, i);
      BitOfZero(i);
    } else {
      DivUnique(P2(n) * x, P2(n), x, 0);
      BitOfQuotient(P2(n) * x, n, i - n);
    }
  }

  lemma {:induction false} HighBits(x: nat, n: nat, i: nat)
    requires x < P2(n) && n <= i
    ensures !Bit(x, i)
  {
    if n == 0 {
      BitOfZero(i);
    } else {
      HighBits(x / 2, n - 1, i - 1);
    }
  }

  lemma {:induction false} XorBound(a: nat, b: nat, n: nat)
    requires a < P2(n) && b < P2(n)
    ensures Xor(a, b) < P2(n)
  {
    if n > 0 {
      XorHalves(a, b);
      XorBound(a / 2, b / 2, n - 1);
    }
  }

  /** A number below P2(n) is determined by its n low bits. */
  lemma {:induction false} Determined(x: nat, y: nat, n: nat)
    requires x < P2(n) && y < P2(n)
    requires forall i :: 0 <= i < n ==> Bit(x, i) == Bit(y, i)
    ensures x == y
  {
    if n > 0 {
      forall i | 0 <= i < n - 1
        ensures Bit(x / 2, i) == Bit(y / 2, i)
      {
        assert Bit(x, i + 1) == Bit(y, i + 1);
      }
      Determined(x / 2, y / 2, n - 1);
      assert Bit(x, 0) == Bit(y, 0);
    }
  }

  lemma Powers()
    ensures P2(5) == 32 && P2(25) == 0x2000000 && P2(30) == 0x40000000
    ensures P2(35) == 0x800000000 && P2(40) == 0x10000000000
  {
    assert P2(5) == 32;
    P2Add(5, 5);
    P2Add(10, 10);
    P2Add(20, 5);
    P2Add(25, 5);
    P2Add(30, 5);
    P2Add(35, 5);
  }
}
