/** Small facts of real arithmetic that the proofs use one at a time: products, quotients,
    weighted means, and least and greatest elements. */
module RealArithmetic {
  import opened Common

  lemma NegatedProduct(x: real, y: real)
    ensures x * y == (-x) * (-y)
  {
  }

  lemma NegatedQuotient(x: real, y: real)
    requires y != 0.0
    ensures x / y == (-x) / (-y)
  {
    var z := x / y;
    assert z * y == x;
    assert z * (-y) == -x;
  }

  lemma QuotientTimes(x: real, y: real)
    requires y != 0.0
    ensures (x / y) * y == x && (x * y) / y == x
  {
  }

  lemma ProductMonotone(x: real, y: real, z: real)
    requires x <= y && z >= 0.0
    ensures x * z <= y * z
  {
  }

  lemma ProductStrict(x: real, y: real, z: real)
    requires x < y && z > 0.0
    ensures x * z < y * z
  {
  }

  lemma QuotientBetween(x: real, y: real, lo: real, hi: real)
    requires y > 0.0 && lo * y <= x <= hi * y
    ensures lo <= x / y <= hi
  {
    QuotientTimes(x, y);
    var z := x / y;
    if z < lo {
      ProductStrict(z, lo, y);
    } else if z > hi {
      ProductStrict(hi, z, y);
    }
  }

  lemma QuotientsAdd(x: real, y: real, z: real)
    requires z != 0.0
    ensures (x + y) / z == x / z + y / z
  {
    QuotientTimes(x, z);
    QuotientTimes(y, z);
    assert (x / z + y / z) * z == x + y;
    QuotientTimes(x / z + y / z, z);
  }

  lemma Negations(x: real, y: real)
    ensures -x * y == -(x * y)
  {
  }

  lemma QuotientOfNegation(x: real, y: real)
    requires y > 0.0
    ensures -x / y == -(x / y)
  {
    var z := x / y;
    assert -z * y == -x;
  }

  lemma Distribute(x: real, y: real, z: real)
    ensures x * (y + z) == x * y + x * z
  {
  }

  lemma WeightedMeanBetween(a: real, w: real, p: real, n: real, lo: real, hi: real)
    requires w > 0.0 && n > 0.0 && lo <= a <= hi && lo <= p <= hi
    ensures lo <= (a * w + p * n) / (w + n) <= hi
  {
    WeightedBelow(lo, a, w, p, n);
    WeightedAbove(a, hi, w, p, n);
    QuotientBetween(a * w + p * n, w + n, lo, hi);
  }

  lemma WeightedBelow(lo: real, a: real, w: real, p: real, n: real)
    requires w > 0.0 && n > 0.0 && lo <= a && lo <= p
    ensures lo * (w + n) <= a * w + p * n
  {
    ProductMonotone(lo, a, w);
    ProductMonotone(lo, p, n);
    Distribute(lo, w, n);
  }

  lemma WeightedAbove(a: real, hi: real, w: real, p: real, n: real)
    requires w > 0.0 && n > 0.0 && a <= hi && p <= hi
    ensures a * w + p * n <= hi * (w + n)
  {
    ProductMonotone(a, hi, w);
    ProductMonotone(p, hi, n);
    Distribute(hi, w, n);
  }

  function Least(xs: seq<real>): (m: real)
    requires xs != []
    ensures m in xs && forall x :: x in xs ==> m <= x
  {
    if |xs| == 1 then xs[0]
    else
      assert xs == Init(xs) + [Last(xs)];
      var m := Least(Init(xs));
      if m <= Last(xs) then m else Last(xs)
  }

  function Greatest(xs: seq<real>): (m: real)
    requires xs != []
    ensures m in xs && forall x :: x in xs ==> x <= m
  {
    if |xs| == 1 then xs[0]
    else
      assert xs == Init(xs) + [Last(xs)];
      var m := Greatest(Init(xs));
      if m >= Last(xs) then m else Last(xs)
  }

  lemma GrownBounds(entries: seq<real>, p: real)
    requires entries != []
    ensures Least(entries + [p]) <= p <= Greatest(entries + [p])
    ensures Least(entries + [p]) <= Least(entries) && Greatest(entries) <= Greatest(entries + [p])
    ensures Least(entries + [p]) == p || Least(entries + [p]) == Least(entries)
  {
    assert Init(entries + [p]) == entries;
  }
}
