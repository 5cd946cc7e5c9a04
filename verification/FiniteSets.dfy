/** Cardinality arguments over finite sets. */
module FiniteSets {

  lemma {:induction false} SubsetCount<T>(a: set<T>, b: set<T>)
    requires a <= b
    ensures |a| <= |b|
  {
    if a != {} {
      var x :| x in a;
      SubsetCount(a - {x}, b - {x});
    }
  }

  /** Pigeonhole: an injection of `a` into `b`, given by a relation, bounds |a| by |b|. */
  lemma {:induction false} InjectionCount<S(!new), T(!new)>(a: set<S>, b: set<T>, to: (S, T) -> bool)
    requires forall x :: x in a ==> exists y :: y in b && to(x, y)
    requires forall x, x', y :: x in a && x' in a && to(x, y) && to(x', y) ==> x == x'
    ensures |a| <= |b|
  {
    if a != {} {
      var x :| x in a;
      var y :| y in b && to(x, y);
      forall x' | x' in a - {x} ensures exists y' :: y' in b - {y} && to(x', y') {
        var y' :| y' in b && to(x', y');
        assert y' in b - {y};
      }
      InjectionCount(a - {x}, b - {y}, to);
    }
  }

  ghost function Below(n: nat): (r: set<nat>)
    ensures forall j: nat :: j in r <==> j < n
  {
    if n == 0 then {} else Below(n - 1) + {n - 1}
  }

  lemma {:induction false} BelowCount(n: nat)
    ensures |Below(n)| == n
  {
    if n != 0 { BelowCount(n - 1); }
  }

  ghost function Elements<T>(a: seq<T>): set<T> {
    set x | x in a
  }

  lemma {:induction false} DistinctCount<T>(a: seq<T>)
    requires forall p, q :: 0 <= p < q < |a| ==> a[p] != a[q]
    ensures |Elements(a)| == |a|
  {
    if a == [] {
      assert Elements(a) == {};
    } else {
      DistinctCount(a[1..]);
      assert a == [a[0]] + a[1..];
      assert Elements(a) == Elements(a[1..]) + {a[0]};
      assert a[0] !in Elements(a[1..]);
    }
  }
}
