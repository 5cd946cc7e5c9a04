/** The pill row: what it counts, whom it marks, and that it does not reshuffle. */
module ReactionPills {
  import opened Wrappers
  import opened FiniteSets
  import opened Lists
  import opened StableSort
  import opened JsMap
  import opened Reactions
  import opened ReactionFold

  // ----- sums -----

  function Sum(pills: seq<Pill>): nat {
    if pills == [] then 0 else Sum(pills[..|pills| - 1]) + pills[|pills| - 1].count
  }

  lemma {:induction false} SumInsert(pills: seq<Pill>, p: Pill, le: (Pill, Pill) -> bool)
    ensures Sum(Insert(pills, p, le)) == Sum(pills) + p.count
  {
    if pills == [] || le(pills[|pills| - 1], p) {
      assert (pills + [p])[..|pills|] == pills;
    } else {
      SumInsert(pills[..|pills| - 1], p, le);
      assert Insert(pills, p, le)[..|Insert(pills, p, le)| - 1] == Insert(pills[..|pills| - 1], p, le);
    }
  }

  lemma {:induction false} SumSort(pills: seq<Pill>, le: (Pill, Pill) -> bool)
    ensures Sum(Sort(pills, le)) == Sum(pills)
  {
    if pills != [] {
      SumSort(pills[..|pills| - 1], le);
      SumInsert(Sort(pills[..|pills| - 1], le), pills[|pills| - 1], le);
    }
  }

  lemma {:induction false} SumCons(p: Pill, pills: seq<Pill>)
    ensures Sum([p] + pills) == p.count + Sum(pills)
  {
    if pills == [] {
      assert ([p] + pills)[..0] == [];
    } else {
      assert ([p] + pills)[..|pills|] == [p] + pills[..|pills| - 1];
      SumCons(p, pills[..|pills| - 1]);
    }
  }

  lemma {:induction false} SumSet(m: JsMap<string, Pill>, k: string, p: Pill)
    ensures var had := Get(m, k);
      Sum(Values(Set(m, k, p))) + (if had.Some? then had.value.count else 0) == Sum(Values(m)) + p.count
  {
    if m == [] {
      assert Values(Set(m, k, p)) == [p] + [];
      SumCons(p, []);
      assert Values(m) == [];
    } else {
      assert Values(m) == [m[0].value] + Values(m[1..]);
      SumCons(m[0].value, Values(m[1..]));
      if m[0].key == k {
        assert Values(Set(m, k, p)) == [p] + Values(m[1..]);
        SumCons(p, Values(m[1..]));
      } else {
        SumSet(m[1..], k, p);
        assert Values(Set(m, k, p)) == [m[0].value] + Values(Set(m[1..], k, p));
        SumCons(m[0].value, Values(Set(m[1..], k, p)));
      }
    }
  }

  // ----- the tally -----

  function Holding(live: JsMap<string, string>, emoji: string): seq<Entry<string, string>> {
    Filter(live, (h: Entry<string, string>) => h.value == emoji)
  }

  predicate MineHolds(live: JsMap<string, string>, me: Option<string>, emoji: string) {
    exists i :: 0 <= i < |live| && live[i].value == emoji && IsMe(me, live[i].key)
  }

  lemma MineHoldsSnoc(live: JsMap<string, string>, h: Entry<string, string>, me: Option<string>, emoji: string)
    ensures MineHolds(live + [h], me, emoji) <==> MineHolds(live, me, emoji) || (h.value == emoji && IsMe(me, h.key))
  {
    var all := live + [h];
    if MineHolds(live, me, emoji) {
      var i :| 0 <= i < |live| && live[i].value == emoji && IsMe(me, live[i].key);
      assert all[i] == live[i];
    }
    if h.value == emoji && IsMe(me, h.key) { assert all[|live|] == h; }
  }

  /** The pill an emoji should have: how many hold it, and whether I do. */
  function PillFor(live: JsMap<string, string>, me: Option<string>, emoji: string): Option<Pill> {
    if Holding(live, emoji) == [] then None
    else Some(Pill(emoji, |Holding(live, emoji)|, MineHolds(live, me, emoji)))
  }

  lemma PillForSnoc(live: JsMap<string, string>, h: Entry<string, string>, me: Option<string>, emoji: string)
    ensures PillFor(live + [h], me, emoji)
         == if h.value != emoji then PillFor(live, me, emoji)
            else var was := PillFor(live, me, emoji);
              if was.Some? then Some(Pill(emoji, was.value.count + 1, was.value.mine || IsMe(me, h.key)))
              else Some(Pill(emoji, 1, IsMe(me, h.key)))
  {
    FilterSnoc(live, h, (x: Entry<string, string>) => x.value == emoji);
    MineHoldsSnoc(live, h, me, emoji);
    if Holding(live, emoji) == [] { NoneHeld(live, me, emoji); }
  }

  lemma {:induction false} TallyMeaning(live: JsMap<string, string>, me: Option<string>, emoji: string)
    ensures Get(Tally(live, me), emoji) == PillFor(live, me, emoji)
  {
    if live != [] {
      var t, h := live[..|live| - 1], live[|live| - 1];
      assert live == t + [h];
      TallyMeaning(t, me, emoji);
      PillForSnoc(t, h, me, emoji);
      GetSet(Tally(t, me), h.value, Counted(Tally(t, me), h, me), emoji);
    }
  }

  lemma NoneHeld(live: JsMap<string, string>, me: Option<string>, emoji: string)
    requires Holding(live, emoji) == []
    ensures !MineHolds(live, me, emoji)
  {
    forall i | 0 <= i < |live| ensures live[i].value != emoji {
      assert live[i] !in Holding(live, emoji);
    }
  }

  lemma {:induction false} TallyTotals(live: JsMap<string, string>, me: Option<string>)
    ensures Proper(Tally(live, me))
    ensures Sum(Values(Tally(live, me))) == |live|
  {
    if live == [] {
      assert Values(Tally(live, me)) == [];
    } else {
      var t, h := live[..|live| - 1], live[|live| - 1];
      TallyTotals(t, me);
      var now := Counted(Tally(t, me), h, me);
      SetIsProper(Tally(t, me), h.value, now);
      SumSet(Tally(t, me), h.value, now);
      assert Tally(live, me) == Set(Tally(t, me), h.value, now);
    }
  }

  // ----- the row -----

  lemma SeenOrderIsPreorder(firstSeen: JsMap<string, int>)
    ensures TotalPreorder(SeenOrder(firstSeen))
  {
    var le := SeenOrder(firstSeen);
    assert forall x, y {:trigger le(x, y)} :: le(x, y) <==> SeenAt(firstSeen, x.emoji) <= SeenAt(firstSeen, y.emoji);
  }

  ghost function LiveSenders(events: seq<Event>): set<string> {
    set i | 0 <= i < |ReplayOf(events).live| :: ReplayOf(events).live[i].key
  }

  ghost function Holders(events: seq<Event>, emoji: string): set<string> {
    set s | s in LiveSenders(events) && HolderOf(events, s) == Some(emoji)
  }

  function Keys(live: JsMap<string, string>): seq<string> {
    seq(|live|, i requires 0 <= i < |live| => live[i].key)
  }

  lemma CountLive(events: seq<Event>)
    ensures |LiveSenders(events)| == |ReplayOf(events).live|
  {
    var live := ReplayOf(events).live;
    LiveIsOwn(Sort(events, ByTime), "");
    assert LiveSenders(events) == Elements(Keys(live)) by {
      forall s | s in LiveSenders(events) ensures s in Keys(live) {
        var i :| 0 <= i < |live| && live[i].key == s;
        assert Keys(live)[i] == s;
      }
    }
    DistinctCount(Keys(live));
  }

  lemma {:induction false} HoldingIsProper(live: JsMap<string, string>, emoji: string)
    requires Proper(live)
    ensures Proper(Holding(live, emoji))
  {
    var apart := (a: Entry<string, string>, b: Entry<string, string>) => a.key != b.key;
    assert Pairwise(live, apart);
    FilterKeepsPairs(live, (h: Entry<string, string>) => h.value == emoji, apart);
    forall i, j | 0 <= i < j < |Holding(live, emoji)| ensures Holding(live, emoji)[i].key != Holding(live, emoji)[j].key {
      assert apart(Holding(live, emoji)[i], Holding(live, emoji)[j]);
    }
  }

  lemma CountHolders(events: seq<Event>, emoji: string)
    ensures |Holders(events, emoji)| == |Holding(ReplayOf(events).live, emoji)|
  {
    var live := ReplayOf(events).live;
    LiveIsOwn(Sort(events, ByTime), "");
    var some := Holding(live, emoji);
    HoldingIsProper(live, emoji);
    DistinctCount(Keys(some));
    forall s ensures s in Holders(events, emoji) <==> s in Keys(some) {
      if s in Holders(events, emoji) {
        var i :| 0 <= i < |live| && live[i].key == s;
        GetAt(live, i);
        assert live[i] in some;
        var j :| 0 <= j < |some| && some[j] == live[i];
        assert Keys(some)[j] == s;
      }
      if s in Keys(some) {
        var j :| 0 <= j < |some| && some[j].key == s;
        assert some[j] in some;
        var i :| 0 <= i < |live| && live[i] == some[j];
        GetAt(live, i);
      }
    }
    assert Holders(events, emoji) == Elements(Keys(some));
  }

  /** I hold what my pill says. */
  lemma MineIsMyReaction(events: seq<Event>, me: Option<string>, emoji: string)
    ensures MineHolds(ReplayOf(events).live, me, emoji) <==> MyReaction(events, me) == Some(emoji)
  {
    var live := ReplayOf(events).live;
    LiveIsOwn(Sort(events, ByTime), "");
    if MineHolds(live, me, emoji) {
      var i :| 0 <= i < |live| && live[i].value == emoji && IsMe(me, live[i].key);
      GetAt(live, i);
    }
    if MyReaction(events, me) == Some(emoji) {
      GetIffKey(live, me.value);
      var i :| 0 <= i < |live| && live[i].key == me.value;
      GetAt(live, i);
    }
  }

  /** The pills, before they are put in order: one for each key, naming it. */
  lemma TallyEntries(events: seq<Event>, me: Option<string>, i: nat)
    requires i < |Tally(ReplayOf(events).live, me)|
    ensures var entry := Tally(ReplayOf(events).live, me)[i];
      && entry.value.emoji == entry.key
      && entry.value.count == |Holders(events, entry.key)| > 0
      && (entry.value.mine <==> MyReaction(events, me) == Some(entry.key))
  {
    var live := ReplayOf(events).live;
    var m := Tally(live, me);
    TallyTotals(live, me);
    GetAt(m, i);
    TallyMeaning(live, me, m[i].key);
    CountHolders(events, m[i].key);
    MineIsMyReaction(events, me, m[i].key);
  }

  /** The counts add up to the senders who hold anything. */
  lemma PillsAddUp(events: seq<Event>, me: Option<string>)
    ensures Sum(Summarize(events, me)) == |LiveSenders(events)|
  {
    var r := ReplayOf(events);
    SumSort(Values(Tally(r.live, me)), SeenOrder(r.firstSeen));
    TallyTotals(r.live, me);
    CountLive(events);
  }

  /** Every pill counts its holders, and is marked iff I am one. */
  lemma PillMeaning(events: seq<Event>, me: Option<string>, p: Pill)
    requires p in Summarize(events, me)
    ensures p.count == |Holders(events, p.emoji)| > 0
    ensures p.mine <==> MyReaction(events, me) == Some(p.emoji)
  {
    var r := ReplayOf(events);
    var m := Tally(r.live, me);
    SortKeepsElements(Values(m), SeenOrder(r.firstSeen));
    var i :| 0 <= i < |Values(m)| && Values(m)[i] == p;
    TallyEntries(events, me, i);
  }

  /** No emoji has two pills. */
  lemma PillsDiffer(events: seq<Event>, me: Option<string>, i: nat, j: nat)
    requires i < j < |Summarize(events, me)|
    ensures Summarize(events, me)[i].emoji != Summarize(events, me)[j].emoji
  {
    var r := ReplayOf(events);
    var m := Tally(r.live, me);
    var le := SeenOrder(r.firstSeen);
    SeenOrderIsPreorder(r.firstSeen);
    var idx := SortIsStable(Values(m), le);
    assert idx[i] != idx[j];
    TallyTotals(r.live, me);
    TallyEntries(events, me, idx[i]);
    TallyEntries(events, me, idx[j]);
    assert m[idx[i]].key != m[idx[j]].key by {
      if idx[i] < idx[j] { assert m[idx[i]].key != m[idx[j]].key; } else { assert m[idx[j]].key != m[idx[i]].key; }
    }
  }

  /** Every held emoji has a pill. */
  lemma EveryHeldEmojiHasAPill(events: seq<Event>, me: Option<string>, sender: string, emoji: string)
    requires HolderOf(events, sender) == Some(emoji)
    ensures exists p :: p in Summarize(events, me) && p.emoji == emoji
  {
    var r := ReplayOf(events);
    var m := Tally(r.live, me);
    LiveIsOwn(Sort(events, ByTime), "");
    GetIffKey(r.live, sender);
    var i :| 0 <= i < |r.live| && r.live[i].key == sender;
    GetAt(r.live, i);
    assert r.live[i] in Holding(r.live, emoji);
    TallyMeaning(r.live, me, emoji);
    GetIffKey(m, emoji);
    var k :| 0 <= k < |m| && m[k].key == emoji;
    TallyEntries(events, me, k);
    SortKeepsElements(Values(m), SeenOrder(r.firstSeen));
    assert Values(m)[k] == m[k].value && m[k].value in Values(m);
  }

  // ----- the row keeps its order -----

  lemma {:induction false} FirstSeenStays(es: seq<Event>, more: seq<Event>, emoji: string)
    requires Get(Fold(es).firstSeen, emoji).Some?
    ensures Get(Fold(es + more).firstSeen, emoji) == Get(Fold(es).firstSeen, emoji)
  {
    if more == [] {
      assert es + more == es;
    } else {
      var t, e := more[..|more| - 1], more[|more| - 1];
      FirstSeenStays(es, t, emoji);
      assert (es + more)[..|es + more| - 1] == es + t;
      SeenStep(Fold(es + t), e, emoji);
    }
  }

  lemma SeenStep(r: Replay, e: Event, emoji: string)
    requires Get(r.firstSeen, emoji).Some?
    ensures Get(Apply(r, e).firstSeen, emoji) == Get(r.firstSeen, emoji)
  {
    GetSet(r.firstSeen, e.emoji, e.sentNs, emoji);
  }

  lemma {:induction false} HeldWasSeen(es: seq<Event>, sender: string)
    ensures var held := Get(Fold(es).live, sender); held.Some? ==> Get(Fold(es).firstSeen, held.value).Some?
  {
    if es != [] {
      var t, e := es[..|es| - 1], es[|es| - 1];
      HeldWasSeen(t, sender);
      LiveIsOwn(t, sender);
      GetSet(Fold(t).live, e.sender, e.emoji, sender);
      GetDelete(Fold(t).live, e.sender, sender);
      var held := Get(Fold(es).live, sender);
      if held.Some? { GetSet(Fold(t).firstSeen, e.emoji, e.sentNs, held.value); }
    }
  }

  lemma PillWasSeen(events: seq<Event>, me: Option<string>, p: Pill)
    requires p in Summarize(events, me)
    ensures Get(ReplayOf(events).firstSeen, p.emoji).Some?
  {
    PillMeaning(events, me, p);
    SomeMember(Holders(events, p.emoji));
    var s :| s in Holders(events, p.emoji);
    HeldWasSeen(Sort(events, ByTime), s);
  }

  lemma SomeMember<T>(s: set<T>)
    requires |s| > 0
    ensures exists x :: x in s
  {
    var x :| x in s;
  }

  /** Events no earlier than all present ones never reorder two surviving pills whose emoji were first
      taken up at different times. */
  lemma PillsKeepTheirOrder(events: seq<Event>, more: seq<Event>, me: Option<string>, i: nat, j: nat, i': nat, j': nat)
    requires forall x, y :: x in events && y in more ==> x.sentNs <= y.sentNs
    requires i < j < |Summarize(events, me)|
    requires i' < |Summarize(events + more, me)| && j' < |Summarize(events + more, me)|
    requires Summarize(events + more, me)[i'].emoji == Summarize(events, me)[i].emoji
    requires Summarize(events + more, me)[j'].emoji == Summarize(events, me)[j].emoji
    requires var fs := ReplayOf(events).firstSeen;
      SeenAt(fs, Summarize(events, me)[i].emoji) != SeenAt(fs, Summarize(events, me)[j].emoji)
    ensures i' < j'
  {
    var p, q := Summarize(events, me)[i], Summarize(events, me)[j];
    SeenOnce(events, more, me, p);
    SeenOnce(events, more, me, q);
    RowInSeenOrder(events, me, i, j);
    if j' < i' { RowInSeenOrder(events + more, me, j', i'); }
  }

  lemma RowInSeenOrder(events: seq<Event>, me: Option<string>, i: nat, j: nat)
    requires i < j < |Summarize(events, me)|
    ensures var fs := ReplayOf(events).firstSeen;
      SeenAt(fs, Summarize(events, me)[i].emoji) <= SeenAt(fs, Summarize(events, me)[j].emoji)
  {
    var fs := ReplayOf(events).firstSeen;
    var le := SeenOrder(fs);
    SeenOrderIsPreorder(fs);
    SortIsSorted(Values(Tally(ReplayOf(events).live, me)), le);
    assert le(Summarize(events, me)[i], Summarize(events, me)[j]);
  }

  lemma SeenOnce(events: seq<Event>, more: seq<Event>, me: Option<string>, p: Pill)
    requires forall x, y :: x in events && y in more ==> x.sentNs <= y.sentNs
    requires p in Summarize(events, me)
    ensures SeenAt(ReplayOf(events + more).firstSeen, p.emoji) == SeenAt(ReplayOf(events).firstSeen, p.emoji)
  {
    var le := ByTime;
    forall x, y | x in events && y in more ensures le(x, y) {
      assert le(x, y) == ByTime(x, y);
    }
    SortConcat(events, more, ByTime);
    PillWasSeen(events, me, p);
    FirstSeenStays(Sort(events, ByTime), Sort(more, ByTime), p.emoji);
  }

  // ----- the row from the events alone -----

  predicate TakesUp(e: Event, emoji: string) {
    e.action == Added && e.emoji == emoji
  }

  /** `t` is the time of the first event of an ordered log that takes the emoji up. */
  ghost predicate FirstTaken(es: seq<Event>, emoji: string, t: Option<int>) {
    if t == None then forall k :: 0 <= k < |es| ==> !TakesUp(es[k], emoji)
    else exists k :: 0 <= k < |es| && TakesUp(es[k], emoji) && es[k].sentNs == t.value
                     && forall j :: 0 <= j < k ==> !TakesUp(es[j], emoji)
  }

  lemma {:induction false} SeenIsFirstTaken(es: seq<Event>, emoji: string)
    ensures FirstTaken(es, emoji, Get(Fold(es).firstSeen, emoji))
  {
    if es != [] {
      var t, e := es[..|es| - 1], es[|es| - 1];
      SeenIsFirstTaken(t, emoji);
      GetSet(Fold(t).firstSeen, e.emoji, e.sentNs, emoji);
      var before := Get(Fold(t).firstSeen, emoji);
      if before.Some? {
        var k :| 0 <= k < |t| && TakesUp(t[k], emoji) && t[k].sentNs == before.value
                 && forall j :: 0 <= j < k ==> !TakesUp(t[j], emoji);
        assert TakesUp(es[k], emoji);
      } else if TakesUp(e, emoji) {
        assert TakesUp(es[|es| - 1], emoji);
      }
    }
  }

  /** The pill's emoji was first taken up at `e`, no event that takes it up being earlier. */
  ghost predicate EarliestTaken(events: seq<Event>, emoji: string, e: Event) {
    e in events && TakesUp(e, emoji) && forall f :: f in events && TakesUp(f, emoji) ==> e.sentNs <= f.sentNs
  }

  lemma NoneEarlier(sorted: seq<Event>, emoji: string, k: nat, f: Event)
    requires SortedBy(sorted, ByTime) && k < |sorted| && forall j :: 0 <= j < k ==> !TakesUp(sorted[j], emoji)
    requires f in sorted && TakesUp(f, emoji)
    ensures sorted[k].sentNs <= f.sentNs
  {
    var le := ByTime;
    var j :| 0 <= j < |sorted| && sorted[j] == f;
    if k < j { assert le(sorted[k], sorted[j]) == ByTime(sorted[k], sorted[j]); }
  }

  lemma FirstIsEarliest(sorted: seq<Event>, emoji: string, t: int) returns (e: Event)
    requires SortedBy(sorted, ByTime) && FirstTaken(sorted, emoji, Some(t))
    ensures EarliestTaken(sorted, emoji, e) && e.sentNs == t
  {
    var k :| 0 <= k < |sorted| && TakesUp(sorted[k], emoji) && sorted[k].sentNs == t
             && forall j :: 0 <= j < k ==> !TakesUp(sorted[j], emoji);
    e := sorted[k];
    forall f | f in sorted && TakesUp(f, emoji) ensures e.sentNs <= f.sentNs { NoneEarlier(sorted, emoji, k, f); }
  }

  lemma SeenIsEarliest(events: seq<Event>, emoji: string) returns (e: Event)
    requires Get(ReplayOf(events).firstSeen, emoji).Some?
    ensures EarliestTaken(events, emoji, e) && e.sentNs == SeenAt(ReplayOf(events).firstSeen, emoji)
  {
    ByTimeIsPreorder();
    SortIsSorted(events, ByTime);
    SortKeepsElements(events, ByTime);
    SeenIsFirstTaken(Sort(events, ByTime), emoji);
    e := FirstIsEarliest(Sort(events, ByTime), emoji, Get(ReplayOf(events).firstSeen, emoji).value);
  }

  /** The row is ordered by when its emoji were first taken up, earliest first. */
  lemma RowByFirstTaken(events: seq<Event>, me: Option<string>, i: nat, j: nat) returns (e: Event, f: Event)
    requires i < j < |Summarize(events, me)|
    ensures EarliestTaken(events, Summarize(events, me)[i].emoji, e) && EarliestTaken(events, Summarize(events, me)[j].emoji, f)
    ensures e.sentNs <= f.sentNs
  {
    var row := Summarize(events, me);
    assert row[i] in row && row[j] in row;
    PillWasSeen(events, me, row[i]);
    PillWasSeen(events, me, row[j]);
    e := SeenIsEarliest(events, row[i].emoji);
    f := SeenIsEarliest(events, row[j].emoji);
    RowInSeenOrder(events, me, i, j);
  }

  /** The filled pill is the one I hold; without an inbox id none is. */
  lemma FilledPill(events: seq<Event>, me: Option<string>, p: Pill)
    requires p in Summarize(events, me)
    ensures p.mine <==> me != None && me != Some("") && HolderOf(events, me.value) == Some(p.emoji)
  {
    PillMeaning(events, me, p);
  }
}
