/** Values and sequence operations the other modules share. */
module Common {

  datatype Option<+T> = None | Some(value: T)

  /** No value occurs twice. */
  ghost predicate Distinct<T>(xs: seq<T>) {
    forall a, b :: 0 <= a < b < |xs| ==> xs[a] != xs[b]
  }

  /** `indexOf` and `splice(index, 1)`: the sequence without the first occurrence of `x`. */
  function Without<T(==)>(xs: seq<T>, x: T): seq<T> {
    if xs == [] then []
    else if xs[0] == x then xs[1..]
    else [xs[0]] + Without(xs[1..], x)
  }

  lemma {:induction false} WithoutKeeps<T>(xs: seq<T>, x: T)
    ensures forall k :: 0 <= k < |Without(xs, x)| ==> Without(xs, x)[k] in xs
    ensures x in xs ==> |Without(xs, x)| == |xs| - 1
  {
    if xs != [] && xs[0] != x {
      WithoutKeeps(xs[1..], x);
    }
  }

  lemma {:induction false} WithoutDistinct<T>(xs: seq<T>, x: T)
    requires Distinct(xs)
    ensures Distinct(Without(xs, x))
    ensures forall y :: y in Without(xs, x) <==> y in xs && y != x
  {
    if xs != [] {
      assert forall y :: y in xs <==> y == xs[0] || y in xs[1..];
      if xs[0] != x {
        WithoutDistinct(xs[1..], x);
        var r := Without(xs[1..], x);
        assert forall y :: y in [xs[0]] + r <==> y == xs[0] || y in r;
        assert forall b :: 0 <= b < |r| ==> r[b] in r;
      }
    }
  }

  lemma Grouped<T>(a: seq<T>, b: seq<T>, c: seq<T>)
    ensures a + (b + c) == a + b + c
  {
  }

  /** A sequence and more of it: the last element, and what is before it. */
  lemma LastOf<T>(a: seq<T>, b: seq<T>)
    requires b != []
    ensures (a + b)[..|a + b| - 1] == a + b[..|b| - 1] && (a + b)[|a + b| - 1] == b[|b| - 1]
  {
  }

  /** A sequence and more of it, without the first element. */
  lemma RestOf<T>(a: seq<T>, b: seq<T>)
    requires a != []
    ensures (a + b)[0] == a[0] && (a + b)[1..] == a[1..] + b
  {
  }

  /** The first of more elements goes with the sequence before it. */
  lemma FirstOf<T>(a: seq<T>, b: seq<T>)
    requires b != []
    ensures a + b == a + [b[0]] + b[1..]
  {
  }

  /** Every element is smaller than the ones after it. */
  ghost predicate Ascending(xs: seq<nat>) {
    forall a, b :: 0 <= a < b < |xs| ==> xs[a] < xs[b]
  }
}
