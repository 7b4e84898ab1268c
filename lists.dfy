/** The JavaScript list idioms the components share: reading an index that may be
    past the end, `filter(Boolean)` on a list of team names, and `filter(t => t !== x)`. */
module Lists {
  import opened Types

  /** A team name is truthy exactly when it is not the empty string. */
  predicate Truthy(t: Team) {
    t != ""
  }

  /** `list[k]`, where reading past the end gives undefined; undefined and "" are
      both falsy, and every use of the value only tests it or filters it out, so the
      model reads them both as "". */
  function At(xs: seq<Team>, k: nat): (t: Team)
    ensures k < |xs| ==> t == xs[k]
    ensures k >= |xs| ==> t == ""
  {
    if k < |xs| then xs[k] else ""
  }

  /** `filter(Boolean)` on a list of names: the empty names are dropped. */
  function Compact(xs: seq<Team>): (r: seq<Team>)
    ensures |r| <= |xs|
    ensures forall k :: 0 <= k < |r| ==> Truthy(r[k])
    ensures forall t :: Truthy(t) ==> multiset(r)[t] == multiset(xs)[t]
  {
    if xs == [] then []
    else
      assert xs == [xs[0]] + xs[1..];
      if Truthy(xs[0]) then [xs[0]] + Compact(xs[1..]) else Compact(xs[1..])
  }

  /** `filter(t => t !== x)`: every occurrence of `x` is dropped. */
  function Without<T(==,!new)>(xs: seq<T>, x: T): (r: seq<T>)
    ensures x !in r
    ensures forall t :: t != x ==> multiset(r)[t] == multiset(xs)[t]
    ensures |r| + multiset(xs)[x] == |xs|
  {
    if xs == [] then []
    else
      assert xs == [xs[0]] + xs[1..];
      if xs[0] == x then Without(xs[1..], x) else [xs[0]] + Without(xs[1..], x)
  }

  /** Filtering works element by element, so the kept elements stay in their order. */
  lemma {:induction false} WithoutAppend<T(!new)>(a: seq<T>, b: seq<T>, x: T)
    ensures Without(a + b, x) == Without(a, x) + Without(b, x)
  {
    if a == [] {
      assert a + b == b;
    } else {
      assert (a + b)[1..] == a[1..] + b;
      WithoutAppend(a[1..], b, x);
    }
  }

  /** A list without `x` is left as it is. */
  lemma {:induction false} WithoutAbsent<T(!new)>(xs: seq<T>, x: T)
    requires x !in xs
    ensures Without(xs, x) == xs
  {
    if xs != [] {
      assert x !in xs[1..] by {
        forall k | 0 <= k < |xs[1..]| ensures xs[1..][k] != x {
          assert xs[1..][k] == xs[k + 1];
        }
      }
      WithoutAbsent(xs[1..], x);
    }
  }

  /** No element occurs twice. */
  predicate NoDuplicates<T(==)>(xs: seq<T>) {
    forall i, j :: 0 <= i < j < |xs| ==> xs[i] != xs[j]
  }

  /** The tail of a duplicate-free list is duplicate-free and does not hold its head. */
  lemma NoDuplicatesTail<T>(xs: seq<T>)
    requires xs != [] && NoDuplicates(xs)
    ensures NoDuplicates(xs[1..]) && xs[0] !in xs[1..]
  {
    forall i, j | 0 <= i < j < |xs[1..]| ensures xs[1..][i] != xs[1..][j] {
      assert xs[1..][i] == xs[i + 1] && xs[1..][j] == xs[j + 1];
    }
    forall k | 0 <= k < |xs[1..]| ensures xs[1..][k] != xs[0] {
      assert xs[1..][k] == xs[k + 1];
    }
  }

  /** Dropping elements keeps a duplicate-free list duplicate-free. */
  lemma {:induction false} WithoutKeepsDistinct<T(!new)>(xs: seq<T>, x: T)
    requires NoDuplicates(xs)
    ensures NoDuplicates(Without(xs, x))
  {
    if xs != [] {
      NoDuplicatesTail(xs);
      WithoutKeepsDistinct(xs[1..], x);
      var w := Without(xs[1..], x);
      if xs[0] != x {
        assert multiset(w)[xs[0]] == multiset(xs[1..])[xs[0]] == 0;
        assert xs[0] !in w;
        var r := [xs[0]] + w;
        forall i, j | 0 <= i < j < |r| ensures r[i] != r[j] {
          assert r[j] == w[j - 1];
          if i > 0 {
            assert r[i] == w[i - 1];
          }
        }
      }
    }
  }
}
