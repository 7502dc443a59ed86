/** The double-and-add loop of `scalar_mult` (btpay/bitcoin/xpub.py:215-224), for any
    addition: what it computes when the addition is associative. */
module DoubleAndAdd {

  /** An addition that does not leave `ok`. */
  ghost predicate ClosedOn<T(!new)>(add: (T, T) -> T, zero: T, ok: T -> bool) {
    ok(zero) && forall a, b :: ok(a) && ok(b) ==> ok(add(a, b))
  }

  /** An addition closed on `ok`, associative there, with `zero` as identity. */
  ghost predicate Monoid<T(!new)>(add: (T, T) -> T, zero: T, ok: T -> bool) {
    && ClosedOn(add, zero, ok)
    && (forall a, b, c :: ok(a) && ok(b) && ok(c) ==> add(add(a, b), c) == add(a, add(b, c)))
    && (forall a :: ok(a) ==> add(zero, a) == a && add(a, zero) == a)
  }

  /** p added to itself k times. */
  ghost function Multiple<T>(add: (T, T) -> T, zero: T, k: nat, p: T): T {
    if k == 0 then zero else add(Multiple(add, zero, k - 1, p), p)
  }

  /** What the loop returns from a given state. */
  ghost function Loop<T>(add: (T, T) -> T, k: nat, addend: T, result: T): T {
    if k == 0 then result
    else Loop(add, k / 2, add(addend, addend), if k % 2 == 1 then add(result, addend) else result)
  }

  method ScalarMult<T>(add: (T, T) -> T, zero: T, n: nat, point: T) returns (result: T)
    ensures result == Loop(add, n, point, zero)
  {
    var k: nat, addend := n, point;
    result := zero;
    while k != 0
      invariant Loop(add, k, addend, result) == Loop(add, n, point, zero)
      decreases k
    {
      if k % 2 == 1 {
        result := add(result, addend);
      }
      addend := add(addend, addend);
      k := k / 2;
    }
  }

  lemma Closed<T(!new)>(add: (T, T) -> T, zero: T, ok: T -> bool, a: T, b: T)
    requires ClosedOn(add, zero, ok) && ok(a) && ok(b)
    ensures ok(add(a, b)) && ok(zero)
  {
  }

  lemma Laws<T(!new)>(add: (T, T) -> T, zero: T, ok: T -> bool)
    requires Monoid(add, zero, ok)
    ensures ClosedOn(add, zero, ok)
  {
  }

  lemma Associates<T(!new)>(add: (T, T) -> T, zero: T, ok: T -> bool, a: T, b: T, c: T)
    requires Monoid(add, zero, ok) && ok(a) && ok(b) && ok(c)
    ensures add(add(a, b), c) == add(a, add(b, c))
  {
  }

  lemma Identity<T(!new)>(add: (T, T) -> T, zero: T, ok: T -> bool, a: T)
    requires Monoid(add, zero, ok) && ok(a)
    ensures add(zero, a) == a && add(a, zero) == a
  {
  }

  lemma {:induction false} MultipleOk<T(!new)>(add: (T, T) -> T, zero: T, ok: T -> bool, k: nat, p: T)
    requires ClosedOn(add, zero, ok) && ok(p)
    ensures ok(Multiple(add, zero, k, p))
  {
    hide ClosedOn;
    Closed(add, zero, ok, p, p);
    if k > 0 {
      MultipleOk(add, zero, ok, k - 1, p);
      Closed(add, zero, ok, Multiple(add, zero, k - 1, p), p);
    }
  }

  /** Every point the loop goes through, and the one it returns, is admissible. */
  lemma {:induction false} LoopOk<T(!new)>(add: (T, T) -> T, zero: T, ok: T -> bool, k: nat, addend: T, result: T)
    requires ClosedOn(add, zero, ok) && ok(addend) && ok(result)
    ensures ok(Loop(add, k, addend, result))
    decreases k
  {
    hide ClosedOn;
    if k > 0 {
      Closed(add, zero, ok, addend, addend);
      Closed(add, zero, ok, result, addend);
      LoopOk(add, zero, ok, k / 2, add(addend, addend), if k % 2 == 1 then add(result, addend) else result);
    }
  }

  lemma {:induction false} MultipleAdd<T(!new)>(add: (T, T) -> T, zero: T, ok: T -> bool, j: nat, k: nat, p: T)
    requires Monoid(add, zero, ok) && ok(p)
    ensures Multiple(add, zero, j + k, p) == add(Multiple(add, zero, j, p), Multiple(add, zero, k, p))
    decreases k
  {
    hide Monoid, ClosedOn;
    Laws(add, zero, ok);
    MultipleOk(add, zero, ok, j, p);
    if k == 0 {
      Identity(add, zero, ok, Multiple(add, zero, j, p));
    } else {
      MultipleAdd(add, zero, ok, j, k - 1, p);
      MultipleOk(add, zero, ok, k - 1, p);
      Associates(add, zero, ok, Multiple(add, zero, j, p), Multiple(add, zero, k - 1, p), p);
    }
  }

  lemma {:induction false} MultipleOfDouble<T(!new)>(add: (T, T) -> T, zero: T, ok: T -> bool, k: nat, p: T)
    requires Monoid(add, zero, ok) && ok(p)
    ensures Multiple(add, zero, k, add(p, p)) == Multiple(add, zero, 2 * k, p)
  {
    hide Monoid, ClosedOn;
    Laws(add, zero, ok);
    if k > 0 {
      MultipleOfDouble(add, zero, ok, k - 1, p);
      MultipleOk(add, zero, ok, 2 * k - 2, p);
      Associates(add, zero, ok, Multiple(add, zero, 2 * k - 2, p), p, p);
      assert Multiple(add, zero, 2 * k - 1, p) == add(Multiple(add, zero, 2 * k - 2, p), p);
    }
  }

  /** One step of the loop keeps result + k * addend. */
  lemma StepKeepsSum<T(!new)>(add: (T, T) -> T, zero: T, ok: T -> bool, k: nat, addend: T, result: T)
    requires Monoid(add, zero, ok) && ok(addend) && ok(result) && k > 0
    ensures add(if k % 2 == 1 then add(result, addend) else result,
                Multiple(add, zero, k / 2, add(addend, addend)))
         == add(result, Multiple(add, zero, k, addend))
  {
    hide Monoid, ClosedOn;
    Laws(add, zero, ok);
    MultipleOfDouble(add, zero, ok, k / 2, addend);
    if k % 2 == 1 {
      assert 2 * (k / 2) == k - 1;
      MultipleOk(add, zero, ok, k - 1, addend);
      Associates(add, zero, ok, result, addend, Multiple(add, zero, k - 1, addend));
      Identity(add, zero, ok, addend);
      assert Multiple(add, zero, 1, addend) == add(Multiple(add, zero, 0, addend), addend);
      MultipleAdd(add, zero, ok, 1, k - 1, addend);
    }
  }

  /** Double-and-add computes repeated addition. */
  lemma {:induction false} LoopIsMultiple<T(!new)>(add: (T, T) -> T, zero: T, ok: T -> bool, k: nat, addend: T,
        result: T)
    requires Monoid(add, zero, ok) && ok(addend) && ok(result)
    ensures Loop(add, k, addend, result) == add(result, Multiple(add, zero, k, addend))
    decreases k
  {
    hide Monoid, ClosedOn;
    Laws(add, zero, ok);
    if k == 0 {
      Identity(add, zero, ok, result);
    } else {
      Closed(add, zero, ok, addend, addend);
      Closed(add, zero, ok, result, addend);
      StepKeepsSum(add, zero, ok, k, addend, result);
      LoopIsMultiple(add, zero, ok, k / 2, add(addend, addend), if k % 2 == 1 then add(result, addend) else result);
    }
  }

  /** Multiplying a multiple multiplies the factors. */
  lemma {:induction false} MultipleOfMultiple<T(!new)>(add: (T, T) -> T, zero: T, ok: T -> bool, j: nat, k: nat, p: T)
    requires Monoid(add, zero, ok) && ok(p) && Multiple(add, zero, j, p) == zero
    ensures Multiple(add, zero, j * k, p) == zero
    decreases k
  {
    hide Monoid, ClosedOn;
    Laws(add, zero, ok);
    if k == 0 {
      assert j * k == 0;
    } else {
      MultipleOfMultiple(add, zero, ok, j, k - 1, p);
      assert j * k == j * (k - 1) + j;
      MultipleAdd(add, zero, ok, j * (k - 1), j, p);
      Closed(add, zero, ok, p, p);
      Identity(add, zero, ok, zero);
    }
  }

  /** With a multiple that vanishes, factors may be reduced by it. */
  lemma MultipleReduced<T(!new)>(add: (T, T) -> T, zero: T, ok: T -> bool, n: nat, q: nat, r: nat, p: T)
    requires Monoid(add, zero, ok) && ok(p) && Multiple(add, zero, n, p) == zero
    ensures Multiple(add, zero, n * q + r, p) == Multiple(add, zero, r, p)
  {
    hide Monoid, ClosedOn;
    Laws(add, zero, ok);
    MultipleOfMultiple(add, zero, ok, n, q, p);
    MultipleAdd(add, zero, ok, n * q, r, p);
    MultipleOk(add, zero, ok, r, p);
    Identity(add, zero, ok, Multiple(add, zero, r, p));
  }
}
