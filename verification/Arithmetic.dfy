/** Facts about products and quotients of natural numbers. */
module Arithmetic {

  function Least(a: nat, b: nat): nat {
    if a < b then a else b
  }

  lemma MulOrder(x: nat, y: nat, b: nat)
    ensures x <= y ==> x * b <= y * b
  {
  }

  lemma QuotientIsUnique(n: nat, b: nat, q: nat, r: nat)
    requires b >= 1 && n == q * b + r && r < b
    ensures n / b == q && n % b == r
  {
    var q', r' := n / b, n % b;
    assert n == q' * b + r';
    MulOrder(q' + 1, q, b);
    MulOrder(q + 1, q', b);
  }
}
