/** JavaScript's `Array.prototype.sort`: a stable sort by a comparator. The comparator enters as the
    relation "a may stand before b" (`cmp(a, b) <= 0`), which must be a total preorder. */
module StableSort {
  import opened FiniteSets
  import opened Lists

  /** Names a pair the order axioms below are to be instantiated with. */
  ghost predicate Compared<T>(x: T, y: T) { true }

  ghost predicate TotalPreorder<T(!new)>(le: (T, T) -> bool) {
    && (forall x, y {:trigger Compared(x, y)} :: le(x, y) || le(y, x))
    && (forall x, y, z {:trigger Compared(x, y), Compared(y, z)} :: le(x, y) && le(y, z) ==> le(x, z))
  }

  ghost predicate SortedBy<T>(s: seq<T>, le: (T, T) -> bool) {
    forall i, j :: 0 <= i < j < |s| ==> le(s[i], s[j])
  }

  function Insert<T>(s: seq<T>, x: T, le: (T, T) -> bool): seq<T> {
    if s == [] then [x]
    else if le(s[|s| - 1], x) then s + [x]
    else Insert(s[..|s| - 1], x, le) + [s[|s| - 1]]
  }

  function Sort<T>(s: seq<T>, le: (T, T) -> bool): seq<T> {
    if s == [] then [] else Insert(Sort(s[..|s| - 1], le), s[|s| - 1], le)
  }

  /** Where `Insert` puts the new element. */
  function InsertPos<T>(s: seq<T>, x: T, le: (T, T) -> bool): (k: nat)
    ensures k <= |s|
  {
    if s == [] || le(s[|s| - 1], x) then |s| else InsertPos(s[..|s| - 1], x, le)
  }

  lemma {:induction false} InsertShape<T(!new)>(s: seq<T>, x: T, le: (T, T) -> bool)
    requires TotalPreorder(le) && SortedBy(s, le)
    ensures var k := InsertPos(s, x, le);
            && Insert(s, x, le) == s[..k] + [x] + s[k..]
            && (forall i :: 0 <= i < k ==> le(s[i], x))
            && (forall i :: k <= i < |s| ==> !le(s[i], x))
  {
    if s == [] {
    } else if le(s[|s| - 1], x) {
      forall i | 0 <= i < |s| ensures le(s[i], x) {
        if i < |s| - 1 { assert Compared(s[i], s[|s| - 1]) && Compared(s[|s| - 1], x); }
      }
      assert s[..|s|] == s && s[|s|..] == [];
    } else {
      var t, last := s[..|s| - 1], s[|s| - 1];
      InsertShape(t, x, le);
      var k := InsertPos(t, x, le);
      assert s[..k] == t[..k] && s[k..] == t[k..] + [last];
      forall i | k <= i < |s| ensures !le(s[i], x) {
        if i < |t| { assert s[i] == t[i]; }
      }
    }
  }

  /** Position `i` of `s` comes before position `j`: by the comparator, ties by the original order. */
  ghost predicate Precedes<T>(s: seq<T>, le: (T, T) -> bool, i: nat, j: nat)
    requires i < |s| && j < |s|
  {
    le(s[i], s[j]) && (le(s[j], s[i]) ==> i < j)
  }

  /** `idx` lists the positions of `s` in stable sorted order. */
  ghost predicate StableOrder<T>(s: seq<T>, le: (T, T) -> bool, idx: seq<nat>) {
    && |idx| == |s|
    && (forall p :: 0 <= p < |idx| ==> idx[p] < |s|)
    && (forall p, q :: 0 <= p < q < |idx| ==> idx[p] != idx[q] && Precedes(s, le, idx[p], idx[q]))
  }

  /** In a stable order, the earlier of two positions is the one that precedes. */
  lemma OrderReflects<T>(s: seq<T>, le: (T, T) -> bool, idx: seq<nat>, p: nat, q: nat)
    requires StableOrder(s, le, idx) && p < |idx| && q < |idx|
    ensures p < q <==> p != q && Precedes(s, le, idx[p], idx[q])
  {
    if q < p { assert Precedes(s, le, idx[q], idx[p]); }
  }

  ghost predicate ReadsOff<T>(r: seq<T>, s: seq<T>, idx: seq<nat>) {
    && |r| == |idx|
    && forall p :: 0 <= p < |r| ==> idx[p] < |s| && r[p] == s[idx[p]]
  }

  lemma InsertKeepsOrder<T(!new)>(t: seq<T>, x: T, le: (T, T) -> bool, sub: seq<nat>, st: seq<T>, k: nat)
    requires TotalPreorder(le) && StableOrder(t, le, sub) && ReadsOff(st, t, sub)
    requires k <= |t| && (forall i :: 0 <= i < k ==> le(st[i], x)) && (forall i :: k <= i < |t| ==> !le(st[i], x))
    ensures var idx := sub[..k] + [|t|] + sub[k..];
            StableOrder(t + [x], le, idx) && ReadsOff(st[..k] + [x] + st[k..], t + [x], idx)
  {
    var idx := sub[..k] + [|t|] + sub[k..];
    var s := t + [x];
    forall p, q | 0 <= p < q < |idx|
      ensures idx[p] != idx[q] && idx[p] < |s| && idx[q] < |s| && Precedes(s, le, idx[p], idx[q])
    {
      var p' := if p < k then p else p - 1;
      var q' := if q < k then q else q - 1;
      if p == k {
        assert idx[q] == sub[q'] && st[q'] == t[sub[q']] && Compared(x, st[q']);
      } else if q == k {
        assert idx[p] == sub[p'] && st[p'] == t[sub[p']];
      } else {
        assert idx[p] == sub[p'] && idx[q] == sub[q'];
        assert Precedes(t, le, sub[p'], sub[q']);
      }
    }
    forall p | 0 <= p < |idx| ensures idx[p] < |s| && (st[..k] + [x] + st[k..])[p] == s[idx[p]] {
      if p < k {
        assert idx[p] == sub[p];
      } else if p > k {
        assert idx[p] == sub[p - 1];
      }
    }
  }

  lemma StableOrderSorts<T>(s: seq<T>, le: (T, T) -> bool, idx: seq<nat>, r: seq<T>)
    requires StableOrder(s, le, idx) && ReadsOff(r, s, idx)
    ensures SortedBy(r, le)
  {
    forall i, j | 0 <= i < j < |r| ensures le(r[i], r[j]) {
      assert Precedes(s, le, idx[i], idx[j]);
    }
  }

  /** The sort is correct: its result reads `s` off in stable sorted order. */
  lemma {:induction false} SortIsStable<T(!new)>(s: seq<T>, le: (T, T) -> bool) returns (idx: seq<nat>)
    requires TotalPreorder(le)
    ensures StableOrder(s, le, idx) && ReadsOff(Sort(s, le), s, idx)
    ensures SortedBy(Sort(s, le), le)
  {
    if s == [] {
      idx := [];
    } else {
      var sub := SortIsStable(s[..|s| - 1], le);
      idx := SortIsStableStep(s, le, sub);
    }
  }

  lemma SortIsStableStep<T(!new)>(s: seq<T>, le: (T, T) -> bool, sub: seq<nat>) returns (idx: seq<nat>)
    requires TotalPreorder(le) && s != []
    requires StableOrder(s[..|s| - 1], le, sub) && ReadsOff(Sort(s[..|s| - 1], le), s[..|s| - 1], sub)
    requires SortedBy(Sort(s[..|s| - 1], le), le)
    ensures StableOrder(s, le, idx) && ReadsOff(Sort(s, le), s, idx)
    ensures SortedBy(Sort(s, le), le)
  {
    var t, x := s[..|s| - 1], s[|s| - 1];
    var st := Sort(t, le);
    InsertShape(st, x, le);
    var k := InsertPos(st, x, le);
    InsertKeepsOrder(t, x, le, sub, st, k);
    idx := sub[..k] + [|t|] + sub[k..];
    assert s == t + [x];
    StableOrderSorts(s, le, idx, Sort(s, le));
  }

  lemma {:induction false} InsertKeepsElements<T>(s: seq<T>, x: T, le: (T, T) -> bool)
    ensures multiset(Insert(s, x, le)) == multiset(s) + multiset{x}
  {
    if s != [] {
      InsertKeepsElements(s[..|s| - 1], x, le);
      assert s == s[..|s| - 1] + [s[|s| - 1]];
    }
  }

  lemma {:induction false} SortKeepsElements<T>(s: seq<T>, le: (T, T) -> bool)
    ensures multiset(Sort(s, le)) == multiset(s)
    ensures |Sort(s, le)| == |s|
    ensures forall x :: x in Sort(s, le) <==> x in s
  {
    if s != [] {
      SortKeepsElements(s[..|s| - 1], le);
      InsertKeepsElements(Sort(s[..|s| - 1], le), s[|s| - 1], le);
      assert s == s[..|s| - 1] + [s[|s| - 1]];
    }
    assert |multiset(Sort(s, le))| == |Sort(s, le)|;
    forall y ensures y in Sort(s, le) <==> y in s {
      assert y in multiset(Sort(s, le)) <==> y in multiset(s);
    }
  }

  /** There is only one stable order, so any stable sort returns what `Sort` does. */
  lemma StableOrderIsUnique<T(!new)>(s: seq<T>, le: (T, T) -> bool, a: seq<nat>, b: seq<nat>)
    requires TotalPreorder(le) && StableOrder(s, le, a) && StableOrder(s, le, b)
    ensures a == b
  {
    forall i | 0 <= i < |s| ensures a[i] == b[i] {
      StablePositionIsRank(s, le, a, i);
      StableOrderListsAll(s, le, b, a[i]);
      var q :| 0 <= q < |b| && b[q] == a[i];
      StablePositionIsRank(s, le, b, q);
    }
  }

  ghost function Earlier<T>(s: seq<T>, le: (T, T) -> bool, j: nat): set<nat>
    requires j < |s|
  {
    set i | i in Below(|s|) && i != j && Precedes(s, le, i, j)
  }

  lemma StablePositionIsRank<T(!new)>(s: seq<T>, le: (T, T) -> bool, idx: seq<nat>, p: nat)
    requires TotalPreorder(le) && StableOrder(s, le, idx) && p < |s|
    ensures |Earlier(s, le, idx[p])| == p
  {
    var before := Earlier(s, le, idx[p]);
    forall i | i in before ensures i in idx[..p] {
      StableOrderListsAll(s, le, idx, i);
      var q :| 0 <= q < |idx| && idx[q] == i;
      assert q > p ==> Precedes(s, le, idx[p], idx[q]);
      assert idx[..p][q] == i;
    }
    assert before == Elements(idx[..p]);
    DistinctCount(idx[..p]);
  }

  /** A duplicate-free listing of |s| positions of `s` misses none. */
  lemma StableOrderListsAll<T>(s: seq<T>, le: (T, T) -> bool, idx: seq<nat>, i: nat)
    requires StableOrder(s, le, idx) && i < |s|
    ensures i in idx
  {
    DistinctCount(idx);
    BelowCount(|s|);
    assert i in Below(|s|);
    if i !in idx {
      assert Elements(idx) <= Below(|s|) - {i};
      SubsetCount(Elements(idx), Below(|s|) - {i});
    }
  }

  /** Sorting what is already sorted changes nothing. */
  lemma {:induction false} SortOfSorted<T(!new)>(s: seq<T>, le: (T, T) -> bool)
    requires TotalPreorder(le) && SortedBy(s, le)
    ensures Sort(s, le) == s
  {
    if s != [] {
      var t := s[..|s| - 1];
      SortOfSorted(t, le);
      assert s == t + [s[|s| - 1]];
      if t != [] { assert le(s[|s| - 2], s[|s| - 1]); }
    }
  }

  // ----- sorting parts -----

  lemma {:induction false} InsertAfter<T(!new)>(p: seq<T>, q: seq<T>, x: T, le: (T, T) -> bool)
    requires forall i :: 0 <= i < |p| ==> le(p[i], x)
    ensures Insert(p + q, x, le) == p + Insert(q, x, le)
  {
    if q == [] {
      assert p + q == p;
    } else {
      var q' := q[..|q| - 1];
      assert (p + q)[..|p + q| - 1] == p + q';
      InsertAfter(p, q', x, le);
    }
  }

  /** If everything in `a` may stand before everything in `b`, the two are sorted apart. */
  lemma {:induction false} SortConcat<T(!new)>(a: seq<T>, b: seq<T>, le: (T, T) -> bool)
    requires forall x, y :: x in a && y in b ==> le(x, y)
    ensures Sort(a + b, le) == Sort(a, le) + Sort(b, le)
  {
    if b == [] {
      assert a + b == a;
    } else {
      var b', x := b[..|b| - 1], b[|b| - 1];
      assert (a + b)[..|a + b| - 1] == a + b';
      SortConcat(a, b', le);
      SortKeepsElements(a, le);
      InsertAfter(Sort(a, le), Sort(b', le), x, le);
    }
  }

  lemma SortIsSorted<T(!new)>(s: seq<T>, le: (T, T) -> bool)
    requires TotalPreorder(le)
    ensures SortedBy(Sort(s, le), le)
  {
    var idx := SortIsStable(s, le);
  }

  lemma SortSnoc<T>(t: seq<T>, x: T, le: (T, T) -> bool)
    ensures Sort(t + [x], le) == Insert(Sort(t, le), x, le)
  {
    assert (t + [x])[..|t + [x]| - 1] == t;
  }

  /** Filtering and sorting commute. */
  lemma {:induction false} SortFilter<T(!new)>(s: seq<T>, keep: T -> bool, le: (T, T) -> bool)
    requires TotalPreorder(le)
    ensures Sort(Filter(s, keep), le) == Filter(Sort(s, le), keep)
  {
    if s != [] {
      var t, x := s[..|s| - 1], s[|s| - 1];
      SortFilter(t, keep, le);
      SortFilterSnoc(t, x, keep, le);
      assert s == t + [x];
    }
  }

  lemma SortFilterSnoc<T(!new)>(t: seq<T>, x: T, keep: T -> bool, le: (T, T) -> bool)
    requires TotalPreorder(le) && Sort(Filter(t, keep), le) == Filter(Sort(t, le), keep)
    ensures Sort(Filter(t + [x], keep), le) == Filter(Sort(t + [x], le), keep)
  {
    SortIsSorted(t, le);
    SortSnoc(t, x, le);
    FilterInsert(Sort(t, le), x, keep, le);
    SortKept(t, x, keep, le);
  }

  lemma SortKept<T(!new)>(t: seq<T>, x: T, keep: T -> bool, le: (T, T) -> bool)
    ensures Sort(Filter(t + [x], keep), le)
         == if keep(x) then Insert(Sort(Filter(t, keep), le), x, le) else Sort(Filter(t, keep), le)
  {
    FilterSnoc(t, x, keep);
    SortSnoc(Filter(t, keep), x, le);
  }

  lemma {:induction false} FilterInsert<T(!new)>(st: seq<T>, x: T, keep: T -> bool, le: (T, T) -> bool)
    requires TotalPreorder(le) && SortedBy(st, le)
    ensures Filter(Insert(st, x, le), keep) == if keep(x) then Insert(Filter(st, keep), x, le) else Filter(st, keep)
  {
    if st == [] {
      FilterOne(x, keep);
    } else {
      var t, y := st[..|st| - 1], st[|st| - 1];
      assert st == t + [y];
      if le(y, x) {
        FilterSnoc(st, x, keep);
        LastBoundsAll(st, x, le);
        InsertAfter(Filter(st, keep), [], x, le);
        assert Filter(st, keep) + [] == Filter(st, keep);
      } else {
        FilterInsert(t, x, keep, le);
        FilterSnoc(Insert(t, x, le), y, keep);
        FilterSnoc(t, y, keep);
        InsertBelowLast(Filter(t, keep), y, x, le);
      }
    }
  }

  lemma LastBoundsAll<T(!new)>(st: seq<T>, x: T, le: (T, T) -> bool)
    requires TotalPreorder(le) && SortedBy(st, le) && st != [] && le(st[|st| - 1], x)
    ensures forall y :: y in st ==> le(y, x)
  {
    forall i | 0 <= i < |st| ensures le(st[i], x) {
      if i < |st| - 1 { assert Compared(st[i], st[|st| - 1]) && Compared(st[|st| - 1], x); }
    }
  }

  lemma InsertBelowLast<T>(t: seq<T>, y: T, x: T, le: (T, T) -> bool)
    requires !le(y, x)
    ensures Insert(t + [y], x, le) == Insert(t, x, le) + [y]
  {
    assert (t + [y])[..|t + [y]| - 1] == t;
  }

  /** Sorting commutes with a map the order sees through. */
  lemma {:induction false} SortMap<S(!new), T(!new)>(s: seq<S>, f: S -> T, le: (T, T) -> bool, le': (S, S) -> bool)
    requires forall x, y :: le'(x, y) == le(f(x), f(y))
    ensures Sort(Map(s, f), le) == Map(Sort(s, le'), f)
  {
    if s != [] {
      var t, x := s[..|s| - 1], s[|s| - 1];
      assert Map(s, f)[..|s| - 1] == Map(t, f);
      SortMap(t, f, le, le');
      InsertMap(Sort(t, le'), x, f, le, le');
    }
  }

  lemma {:induction false} InsertMap<S(!new), T(!new)>(s: seq<S>, x: S, f: S -> T, le: (T, T) -> bool, le': (S, S) -> bool)
    requires forall x, y :: le'(x, y) == le(f(x), f(y))
    ensures Insert(Map(s, f), f(x), le) == Map(Insert(s, x, le'), f)
  {
    if s != [] {
      assert Map(s, f)[..|s| - 1] == Map(s[..|s| - 1], f);
      InsertMap(s[..|s| - 1], x, f, le, le');
    }
  }
}
