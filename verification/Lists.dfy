/** Filtering a sequence. */
module Lists {

  function Filter<T(!new)>(xs: seq<T>, keep: T -> bool): (r: seq<T>)
    ensures forall x :: x in r <==> x in xs && keep(x)
  {
    if xs == [] then []
    else
      assert xs == [xs[0]] + xs[1..];
      (if keep(xs[0]) then [xs[0]] else []) + Filter(xs[1..], keep)
  }

  ghost predicate Pairwise<T>(xs: seq<T>, r: (T, T) -> bool) {
    forall i, j :: 0 <= i < j < |xs| ==> r(xs[i], xs[j])
  }

  /** What holds of every two elements in their order still holds after filtering. */
  lemma {:induction false} FilterKeepsPairs<T(!new)>(xs: seq<T>, keep: T -> bool, r: (T, T) -> bool)
    requires Pairwise(xs, r)
    ensures Pairwise(Filter(xs, keep), r)
  {
    if xs != [] {
      var rest := Filter(xs[1..], keep);
      FilterKeepsPairs(xs[1..], keep, r);
      if keep(xs[0]) {
        forall i, j | 0 <= i < j < |rest| + 1 ensures r(([xs[0]] + rest)[i], ([xs[0]] + rest)[j]) {
          if i == 0 {
            assert rest[j - 1] in xs[1..];
            var k :| 0 <= k < |xs[1..]| && xs[1..][k] == rest[j - 1];
            assert r(xs[0], xs[k + 1]);
          } else {
            assert r(rest[i - 1], rest[j - 1]);
          }
        }
      }
    }
  }

  /** The two halves of a split make up the whole. */
  lemma {:induction false} FilterSplits<T(!new)>(xs: seq<T>, keep: T -> bool, drop: T -> bool)
    requires forall x :: drop(x) <==> !keep(x)
    ensures multiset(Filter(xs, keep)) + multiset(Filter(xs, drop)) == multiset(xs)
  {
    if xs != [] {
      FilterSplits(xs[1..], keep, drop);
      assert xs == [xs[0]] + xs[1..];
    }
  }

  lemma {:induction false} FilterAll<T(!new)>(xs: seq<T>, keep: T -> bool)
    requires forall x :: x in xs ==> keep(x)
    ensures Filter(xs, keep) == xs
  {
    if xs != [] {
      assert xs == [xs[0]] + xs[1..];
      FilterAll(xs[1..], keep);
    }
  }

  lemma {:induction false} FilterAppend<T(!new)>(a: seq<T>, b: seq<T>, keep: T -> bool)
    ensures Filter(a + b, keep) == Filter(a, keep) + Filter(b, keep)
  {
    if a == [] {
      assert a + b == b;
    } else {
      assert (a + b)[1..] == a[1..] + b;
      FilterAppend(a[1..], b, keep);
    }
  }

  lemma FilterOne<T(!new)>(x: T, keep: T -> bool)
    ensures Filter([x], keep) == if keep(x) then [x] else []
  {
    assert [x][1..] == [];
    assert Filter([], keep) == [];
  }

  lemma FilterSnoc<T(!new)>(t: seq<T>, x: T, keep: T -> bool)
    ensures Filter(t + [x], keep) == if keep(x) then Filter(t, keep) + [x] else Filter(t, keep)
  {
    FilterAppend(t, [x], keep);
    FilterOne(x, keep);
  }

  function Map<T, U>(xs: seq<T>, f: T -> U): (r: seq<U>)
    ensures |r| == |xs| && forall i :: 0 <= i < |r| ==> r[i] == f(xs[i])
  {
    seq(|xs|, i requires 0 <= i < |xs| => f(xs[i]))
  }

  lemma SomeElement<T>(xs: seq<T>) returns (x: T)
    requires xs != []
    ensures x in xs
  {
    x := xs[0];
  }

  lemma EmptyIfNone<T(!new)>(xs: seq<T>)
    requires forall x :: x !in xs
    ensures xs == []
  {
    if xs != [] {
      var x := SomeElement(xs);
    }
  }
}
