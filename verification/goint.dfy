/** Go's integer arithmetic where it differs from Dafny's. */
module GoInt {

  function Abs(x: int): nat
  {
    if x < 0 then -x else x
  }

  /** Go's `/` on integers truncates toward zero, while Dafny's `/` is
      Euclidean. The result is characterised by the remainder having the sign
      of the dividend and a magnitude below that of the divisor. */
  function Div(a: int, b: int): (q: int)
    requires b != 0
    ensures 0 <= a ==> 0 <= q * b <= a < q * b + Abs(b)
    ensures a <= 0 ==> q * b - Abs(b) < a <= q * b <= 0
    ensures 0 <= a && 0 < b ==> q == a / b
  {
    var m := Abs(a) / Abs(b);
    EuclideanBounds(Abs(a), Abs(b));
    var q := if (a < 0) == (b < 0) then m else -m;
    SignedProduct(m, b, q);
    q
  }

  lemma EuclideanBounds(n: nat, d: nat)
    requires d > 0
    ensures 0 <= (n / d) * d <= n < (n / d) * d + d
  {
  }

  lemma SignedProduct(m: int, b: int, q: int)
    requires 0 <= m && (q == m || q == -m)
    ensures q * b == (if (q == m) == (b >= 0) then m * Abs(b) else -(m * Abs(b)))
  {
  }

  /** Multiplying by a non-negative factor keeps an order. */
  lemma MulMonotone(x: int, y: int, c: int)
    requires x <= y && 0 <= c
    ensures x * c <= y * c
  {
    assert y * c - x * c == (y - x) * c;
  }

  /** Dividing an exact multiple gives the factor back. */
  lemma DivExact(x: int, c: int)
    requires c > 0
    ensures Div(x * c, c) == x
  {
    DivBetween(x * c, c, x, x);
  }

  /** Whatever the signs, a truncated quotient times the divisor is less
      than one divisor away from the dividend. */
  lemma DivNear(s: int, c: int)
    requires c > 0
    ensures Div(s, c) * c - c < s < Div(s, c) * c + c
  {
  }

  /** A quotient lies between any two bounds that bracket the dividend as
      multiples of the divisor. */
  lemma DivBetween(s: int, c: int, lo: int, hi: int)
    requires c > 0 && lo * c <= s <= hi * c
    ensures lo <= Div(s, c) <= hi
  {
    var q := Div(s, c);
    DivNear(s, c);
    assert (q - 1) * c == q * c - c && (q + 1) * c == q * c + c;
    if q > hi {
      MulMonotone(hi, q - 1, c);
    }
    if q < lo {
      MulMonotone(q + 1, lo, c);
    }
  }

  /** The truncated weighted mean of two values with positive weights lies
      between them. */
  lemma WeightedMeanBetween(x: int, y: int, ca: int, cb: int)
    requires ca > 0 && cb > 0
    ensures var q := Div(x * ca + y * cb, ca + cb);
      && (x <= q || y <= q) && (q <= x || q <= y)
  {
    var lo := if x < y then x else y;
    var hi := if x < y then y else x;
    MulMonotone(lo, x, ca);
    MulMonotone(lo, y, cb);
    MulMonotone(x, hi, ca);
    MulMonotone(y, hi, cb);
    assert lo * (ca + cb) == lo * ca + lo * cb;
    assert hi * (ca + cb) == hi * ca + hi * cb;
    DivBetween(x * ca + y * cb, ca + cb, lo, hi);
  }
}
