/** Division with remainder and products, in the small steps the verifier needs. */
module Arithmetic {

  lemma MulMono(p: nat, a: int, b: int)
    requires a <= b
    ensures p * a <= p * b
  {
  }

  lemma DivMod(x: int, p: nat)
    requires p > 0
    ensures x == p * (x / p) + x % p && 0 <= x % p < p
    ensures 0 <= x ==> 0 <= x / p
  {
  }

  lemma DivUnique(x: int, p: nat, q: int, r: nat)
    requires p > 0 && x == p * q + r && r < p
    ensures x / p == q && x % p == r
  {
    var a, b := x / p, x % p;
    DivMod(x, p);
    if a < q {
      MulMono(p, a + 1, q);
    } else if q < a {
      MulMono(p, q + 1, a);
    }
  }
}
