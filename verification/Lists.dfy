/** Lists without repetition, and lists in order. */
module Lists {

  ghost predicate Distinct<T(!new)>(xs: seq<T>) { forall i, j :: 0 <= i < j < |xs| ==> xs[i] != xs[j] }

  ghost predicate Ascending(xs: seq<nat>) { forall i, j :: 0 <= i < j < |xs| ==> xs[i] < xs[j] }

  lemma DistinctAppend<T(!new)>(xs: seq<T>, x: T)
    requires Distinct(xs) && x !in xs
    ensures Distinct(xs + [x])
  {
  }

  lemma {:induction false} OnceInDistinct<T(!new)>(xs: seq<T>, x: T)
    requires Distinct(xs)
    ensures multiset(xs)[x] == if x in xs then 1 else 0
  {
    if xs != [] {
      assert xs == [xs[0]] + xs[1..];
      assert multiset(xs) == multiset{xs[0]} + multiset(xs[1..]);
      OnceInDistinct(xs[1..], x);
      assert xs[0] !in xs[1..];
    }
  }

  /** Two ascending lists with the same elements below a bound start alike, if all of the first are below it. */
  lemma {:induction false} SamePlace(a: seq<nat>, b: seq<nat>, bound: nat, k: nat)
    requires Ascending(a) && Ascending(b) && forall x :: x in a ==> x < bound
    requires forall x :: 0 <= x < bound ==> (x in a <==> x in b)
    requires k <= |a|
    ensures k <= |b| && forall i :: 0 <= i < k ==> b[i] == a[i]
  {
    if k > 0 {
      SamePlace(a, b, bound, k - 1);
      var x := a[k - 1];
      assert x in a && x in b;
      var i :| 0 <= i < |b| && b[i] == x;
      var y := b[k - 1];
      assert y <= x && y in b && y in a;
      var j :| 0 <= j < |a| && a[j] == y;
    }
  }
}
