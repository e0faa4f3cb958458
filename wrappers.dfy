/** Option and Result, as the Python code uses `None` and exceptions. */
module Wrappers {

  datatype Option<+T> = None | Some(value: T)

  datatype Result<+R, +E> = Success(value: R) | Failure(error: E)

  /** `[x for x in xs if x is not None]`: the present values, in order. */
  function FilterSome<T>(xs: seq<Option<T>>): (r: seq<T>)
    ensures |r| <= |xs|
    ensures forall x :: x in r ==> Some(x) in xs
    ensures forall i :: 0 <= i < |xs| && xs[i].Some? ==> xs[i].value in r
    ensures (forall i :: 0 <= i < |xs| ==> xs[i].Some?) ==>
              |r| == |xs| && forall i :: 0 <= i < |xs| ==> r[i] == xs[i].value
  {
    if xs == [] then []
    else
      var rest := FilterSome(xs[1..]);
      assert forall i :: 1 <= i < |xs| ==> xs[i] == xs[1..][i - 1];
      match xs[0]
      case None => rest
      case Some(x) => [x] + rest
  }

  /** Filtering a concatenation filters each part: the kept values stay in input order. */
  lemma {:induction false} FilterSomeAppend<T>(a: seq<Option<T>>, b: seq<Option<T>>)
    ensures FilterSome(a + b) == FilterSome(a) + FilterSome(b)
  {
    if a != [] {
      assert (a + b)[0] == a[0];
      assert (a + b)[1..] == a[1..] + b;
      FilterSomeAppend(a[1..], b);
    } else {
      assert a + b == b;
    }
  }

  /** Filtering one more element: kept when present, dropped when `None`. */
  lemma FilterSomeSnoc<T>(xs: seq<Option<T>>, o: Option<T>)
    ensures FilterSome(xs + [o]) == FilterSome(xs) + (if o.Some? then [o.value] else [])
  {
    FilterSomeAppend(xs, [o]);
  }
}
