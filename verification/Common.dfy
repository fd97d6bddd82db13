/** Vocabulary shared by every component: optional values, results, and sums and
    filters over table rows. Sequences are folded from the right end, because every
    table of the system grows by appending. */
module Common {

  datatype Option<+T> = None | Some(value: T)

  datatype Result<+T, +E> = Ok(value: T) | Err(error: E)

  function Abs(x: real): (r: real)
    ensures r >= 0.0 && (r == x || r == -x)
  {
    if x >= 0.0 then x else -x
  }

  function Init<T>(xs: seq<T>): seq<T>
    requires xs != []
  {
    xs[..|xs| - 1]
  }

  function Last<T>(xs: seq<T>): T
    requires xs != []
  {
    xs[|xs| - 1]
  }

  function Sum<T>(xs: seq<T>, f: T -> real): real {
    if xs == [] then 0.0 else Sum(Init(xs), f) + f(Last(xs))
  }

  function Filter<T>(xs: seq<T>, p: T -> bool): seq<T> {
    if xs == [] then []
    else Filter(Init(xs), p) + if p(Last(xs)) then [Last(xs)] else []
  }

  function Map<S, T>(xs: seq<S>, f: S -> T): seq<T> {
    seq(|xs|, i requires 0 <= i < |xs| => f(xs[i]))
  }

  predicate Distinct<T(==)>(xs: seq<T>) {
    forall i, j :: 0 <= i < j < |xs| ==> xs[i] != xs[j]
  }

  lemma SumAppend<T>(xs: seq<T>, x: T, f: T -> real)
    ensures Sum(xs + [x], f) == Sum(xs, f) + f(x)
  {
    assert Init(xs + [x]) == xs;
  }

  lemma OneRowSum<T>(x: T, f: T -> real)
    ensures Sum([x], f) == f(x)
  {
    assert Init([x]) == [];
  }

  lemma {:induction false} SumUpdate<T>(xs: seq<T>, i: nat, x: T, f: T -> real)
    requires i < |xs|
    ensures Sum(xs[i := x], f) == Sum(xs, f) - f(xs[i]) + f(x)
  {
    if i == |xs| - 1 {
      assert Init(xs[i := x]) == Init(xs);
    } else {
      assert Init(xs[i := x]) == Init(xs)[i := x];
      SumUpdate(Init(xs), i, x, f);
    }
  }

  lemma {:induction false} ZeroSum<T>(xs: seq<T>, f: T -> real)
    requires forall i :: 0 <= i < |xs| ==> f(xs[i]) == 0.0
    ensures Sum(xs, f) == 0.0
  {
    if xs != [] {
      ZeroSum(Init(xs), f);
    }
  }

  lemma FilterAppend<T>(xs: seq<T>, x: T, p: T -> bool)
    ensures Filter(xs + [x], p) == Filter(xs, p) + if p(x) then [x] else []
  {
    assert Init(xs + [x]) == xs;
  }

  lemma SumFilterStep<T>(xs: seq<T>, p: T -> bool, f: T -> real)
    requires xs != []
    ensures Sum(Filter(xs, p), f) == Sum(Filter(Init(xs), p), f) + if p(Last(xs)) then f(Last(xs)) else 0.0
    ensures Filter(xs, p) == [] <==> Filter(Init(xs), p) == [] && !p(Last(xs))
  {
    var before := Filter(Init(xs), p);
    if p(Last(xs)) {
      SumAppend(before, Last(xs), f);
    } else {
      assert Filter(xs, p) == before;
    }
  }

  lemma MapAppend<S, T>(xs: seq<S>, x: S, f: S -> T)
    ensures Map(xs + [x], f) == Map(xs, f) + [f(x)]
  {
  }

  /** Two tests that agree on the rows select the same rows. */
  lemma {:induction false} FilterCongruent<T>(xs: seq<T>, p: T -> bool, q: T -> bool)
    requires forall x :: x in xs ==> p(x) == q(x)
    ensures Filter(xs, p) == Filter(xs, q)
  {
    if xs != [] {
      FilterCongruent(Init(xs), p, q);
    }
  }

  lemma {:induction false} FilterMembers<T>(xs: seq<T>, p: T -> bool)
    ensures forall x :: x in Filter(xs, p) <==> x in xs && p(x)
  {
    if xs != [] {
      FilterMembers(Init(xs), p);
      assert xs == Init(xs) + [Last(xs)];
    }
  }
}
