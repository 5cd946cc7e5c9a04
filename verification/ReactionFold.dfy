/** What the replay means, and what it does not care about: other senders, echoes, lost steps. */
module ReactionFold {
  import opened Wrappers
  import opened Lists
  import opened StableSort
  import opened JsMap
  import opened Reactions

  // ----- one sender's part of the log -----

  function HoldOne(held: Option<string>, s: Step): Option<string> {
    if s.action == Added then Some(s.emoji) else if held == Some(s.emoji) then None else held
  }

  function HoldAll(held: Option<string>, steps: seq<Step>): Option<string> {
    if steps == [] then held else HoldOne(HoldAll(held, steps[..|steps| - 1]), steps[|steps| - 1])
  }

  function By(sender: string): Event -> bool {
    (e: Event) => e.sender == sender
  }

  function StepsOf(es: seq<Event>, sender: string): seq<Step> {
    Map(Filter(es, By(sender)), StepOf)
  }

  lemma {:induction false} HoldAppend(held: Option<string>, a: seq<Step>, b: seq<Step>)
    ensures HoldAll(held, a + b) == HoldAll(HoldAll(held, a), b)
  {
    if b == [] {
      assert a + b == a;
    } else {
      assert (a + b)[..|a + b| - 1] == a + b[..|b| - 1];
      HoldAppend(held, a, b[..|b| - 1]);
    }
  }

  lemma StepsSnoc(es: seq<Event>, e: Event, sender: string)
    ensures StepsOf(es + [e], sender) == StepsOf(es, sender) + if e.sender == sender then [StepOf(e)] else []
  {
    FilterSnoc(es, e, By(sender));
  }

  /** A sender's entry in the replay depends on that sender's steps alone. */
  lemma {:induction false} LiveIsOwn(es: seq<Event>, sender: string)
    ensures Proper(Fold(es).live)
    ensures Get(Fold(es).live, sender) == HoldAll(None, StepsOf(es, sender))
  {
    if es != [] {
      var t, e := es[..|es| - 1], es[|es| - 1];
      assert es == t + [e];
      LiveIsOwn(t, sender);
      LiveIsOwn(t, e.sender);
      StepsSnoc(t, e, sender);
      HoldAppend(None, StepsOf(t, sender), if e.sender == sender then [StepOf(e)] else []);
      HoldSingle(HoldAll(None, StepsOf(t, sender)), StepOf(e));
      GetSet(Fold(t).live, e.sender, e.emoji, sender);
      SetIsProper(Fold(t).live, e.sender, e.emoji);
      GetDelete(Fold(t).live, e.sender, sender);
      DeleteIsProper(Fold(t).live, e.sender);
    }
  }

  lemma HoldSingle(held: Option<string>, s: Step)
    ensures HoldAll(held, [s]) == HoldOne(held, s)
  {
    assert [s][..0] == [];
  }

  lemma HolderIsOwn(es: seq<Event>, sender: string)
    ensures HolderOf(es, sender) == HoldAll(None, Map(Sort(Filter(es, By(sender)), ByTime), StepOf))
  {
    ByTimeIsPreorder();
    LiveIsOwn(Sort(es, ByTime), sender);
    SortFilter(es, By(sender), ByTime);
  }

  /** What a batch of events does to what its sender held, when none comes before what is there. */
  function Effect(held: Option<string>, es: seq<Event>, sender: string): Option<string> {
    HoldAll(held, Map(Sort(Filter(es, By(sender)), ByTime), StepOf))
  }

  ghost predicate NotBefore(prior: seq<Event>, later: seq<Event>, sender: string) {
    forall x, y :: x in prior && y in later && x.sender == sender && y.sender == sender ==> x.sentNs <= y.sentNs
  }

  lemma LaterEvents(prior: seq<Event>, later: seq<Event>, sender: string)
    requires NotBefore(prior, later, sender)
    ensures HolderOf(prior + later, sender) == Effect(HolderOf(prior, sender), later, sender)
  {
    var p, l := Filter(prior, By(sender)), Filter(later, By(sender));
    HolderIsOwn(prior, sender);
    HolderIsOwn(prior + later, sender);
    FilterAppend(prior, later, By(sender));
    SortedApart(p, l);
    HoldAppend(None, Map(Sort(p, ByTime), StepOf), Map(Sort(l, ByTime), StepOf));
  }

  lemma SortedApart(p: seq<Event>, l: seq<Event>)
    requires forall x, y :: x in p && y in l ==> x.sentNs <= y.sentNs
    ensures Map(Sort(p + l, ByTime), StepOf) == Map(Sort(p, ByTime), StepOf) + Map(Sort(l, ByTime), StepOf)
  {
    var le := ByTime;
    forall x, y | x in p && y in l ensures le(x, y) {
      assert le(x, y) == ByTime(x, y);
    }
    SortConcat(p, l, ByTime);
  }

  // ----- the declarative meaning -----

  /** Event `i` is the sender's last word in stable time order: it added `emoji`, and nothing of the
      sender's later in that order added anything or removed `emoji`. */
  ghost predicate LastWord(events: seq<Event>, sender: string, emoji: string, i: nat)
    requires i < |events|
  {
    && events[i].sender == sender && events[i].emoji == emoji && events[i].action == Added
    && forall j :: 0 <= j < |events| && j != i && Precedes(events, ByTime, i, j) && events[j].sender == sender ==>
         events[j].action == Removed && events[j].emoji != emoji
  }

  /** The same, in a log already in order. */
  ghost predicate LastInOrder(es: seq<Event>, sender: string, emoji: string, p: nat)
    requires p < |es|
  {
    && es[p].sender == sender && es[p].emoji == emoji && es[p].action == Added
    && forall q :: p < q < |es| && es[q].sender == sender ==> es[q].action == Removed && es[q].emoji != emoji
  }

  ghost predicate HasLastWord(es: seq<Event>, sender: string, emoji: string) {
    exists p: nat :: p < |es| && LastInOrder(es, sender, emoji, p)
  }

  /** One more event overturns the sender's last word or leaves it. */
  lemma LastWordSnoc(t: seq<Event>, e: Event, sender: string, emoji: string)
    ensures HasLastWord(t + [e], sender, emoji) <==>
      if e.sender != sender then HasLastWord(t, sender, emoji)
      else if e.action == Added then e.emoji == emoji
      else e.emoji != emoji && HasLastWord(t, sender, emoji)
  {
    var es, n := t + [e], |t|;
    assert es[n] == e && forall q :: 0 <= q < n ==> es[q] == t[q];
    if HasLastWord(t, sender, emoji) && (e.sender == sender ==> e.action == Removed && e.emoji != emoji) {
      var p: nat :| p < |t| && LastInOrder(t, sender, emoji, p);
      assert es[p] == t[p] && LastInOrder(es, sender, emoji, p);
    }
    if e.sender == sender && e.action == Added && e.emoji == emoji { assert LastInOrder(es, sender, emoji, n); }
    if HasLastWord(es, sender, emoji) {
      var p: nat :| p < |es| && LastInOrder(es, sender, emoji, p);
      assert p < n && e.sender == sender ==> es[n].action == Removed && es[n].emoji != emoji;
      if p < n { assert es[p] == t[p] && LastInOrder(t, sender, emoji, p); }
    }
  }

  lemma HoldSnoc(t: seq<Event>, e: Event, sender: string)
    ensures HoldAll(None, StepsOf(t + [e], sender))
         == var held := HoldAll(None, StepsOf(t, sender)); if e.sender == sender then HoldOne(held, StepOf(e)) else held
  {
    StepsSnoc(t, e, sender);
    HoldAppend(None, StepsOf(t, sender), if e.sender == sender then [StepOf(e)] else []);
    HoldSingle(HoldAll(None, StepsOf(t, sender)), StepOf(e));
  }

  lemma {:induction false} FoldMeaning(es: seq<Event>, sender: string, emoji: string)
    ensures HoldAll(None, StepsOf(es, sender)) == Some(emoji) <==> HasLastWord(es, sender, emoji)
  {
    if es != [] {
      var t, e := es[..|es| - 1], es[|es| - 1];
      FoldMeaning(t, sender, emoji);
      HoldSnoc(t, e, sender);
      LastWordSnoc(t, e, sender, emoji);
      assert es == t + [e];
    }
  }

  /** Who holds an emoji, said without replaying anything. */
  lemma HolderMeaning(events: seq<Event>, sender: string, emoji: string)
    ensures HolderOf(events, sender) == Some(emoji) <==> exists i: nat :: i < |events| && LastWord(events, sender, emoji, i)
  {
    ByTimeIsPreorder();
    var idx := SortIsStable(events, ByTime);
    var ordered := Sort(events, ByTime);
    LiveIsOwn(ordered, sender);
    FoldMeaning(ordered, sender, emoji);
    forall p: nat | p < |ordered| ensures LastInOrder(ordered, sender, emoji, p) <==> LastWord(events, sender, emoji, idx[p]) {
      LastWordInOrder(events, sender, emoji, idx, p);
    }
    forall i: nat | i < |events| && LastWord(events, sender, emoji, i)
      ensures HasLastWord(ordered, sender, emoji)
    {
      StableOrderListsAll(events, ByTime, idx, i);
      var p: nat :| p < |idx| && idx[p] == i;
      assert LastInOrder(ordered, sender, emoji, p);
    }
  }

  lemma LastWordInOrder(events: seq<Event>, sender: string, emoji: string, idx: seq<nat>, p: nat)
    requires StableOrder(events, ByTime, idx) && p < |idx|
    requires ReadsOff(Sort(events, ByTime), events, idx)
    ensures LastInOrder(Sort(events, ByTime), sender, emoji, p) <==> LastWord(events, sender, emoji, idx[p])
  {
    var ordered := Sort(events, ByTime);
    if LastInOrder(ordered, sender, emoji, p) {
      forall j | 0 <= j < |events| && j != idx[p] && Precedes(events, ByTime, idx[p], j) && events[j].sender == sender
        ensures events[j].action == Removed && events[j].emoji != emoji
      {
        StableOrderListsAll(events, ByTime, idx, j);
        var q :| 0 <= q < |idx| && idx[q] == j;
        OrderReflects(events, ByTime, idx, p, q);
        assert ordered[q] == events[j];
      }
    }
    if LastWord(events, sender, emoji, idx[p]) {
      forall q | p < q < |ordered| && ordered[q].sender == sender
        ensures ordered[q].action == Removed && ordered[q].emoji != emoji
      {
        assert idx[p] != idx[q] && Precedes(events, ByTime, idx[p], idx[q]);
      }
    }
  }

  // ----- steps up to what they do -----

  /** What the last `added` took up, and what was removed after it. */
  datatype Tail = Tail(add: Option<string>, removed: set<string>)

  function Extend(t: Tail, s: Step): Tail {
    if s.action == Added then Tail(Some(s.emoji), {}) else t.(removed := t.removed + {s.emoji})
  }

  function TailOf(steps: seq<Step>): Tail {
    if steps == [] then Tail(None, {}) else Extend(TailOf(steps[..|steps| - 1]), steps[|steps| - 1])
  }

  lemma {:induction false} HoldByTail(held: Option<string>, steps: seq<Step>)
    ensures HoldAll(held, steps)
         == var t := TailOf(steps);
            var taken := if t.add.Some? then t.add else held;
            if taken.Some? && taken.value in t.removed then None else taken
  {
    if steps != [] { HoldByTail(held, steps[..|steps| - 1]); }
  }

  // ----- echoes -----

  /** A reaction event, mine as my device wrote it or as the network echoed it back, or someone else's. */
  datatype Tagged = Tagged(event: Event, echo: bool)

  function EventOf(t: Tagged): Event { t.event }

  function TaggedStep(t: Tagged): Step { StepOf(t.event) }

  function Copy(l: seq<Tagged>, echo: bool): seq<Tagged> {
    Filter(l, (t: Tagged) => t.echo == echo)
  }

  function Mine(l: seq<Tagged>, me: string): seq<Tagged> {
    Filter(l, (t: Tagged) => t.event.sender == me)
  }

  /** The last word of a mixture is the last word of one copy, with at most the other's removals after it;
      with no `added` in either, it is the removals of both. */
  predicate Mixed(w: Tail, a: Tail, b: Tail) {
    && w.removed <= a.removed + b.removed
    && if a.add.None? && b.add.None? then w.add.None? && w.removed == a.removed + b.removed
       else (a.add.Some? && w.add == a.add && a.removed <= w.removed) || (b.add.Some? && w.add == b.add && b.removed <= w.removed)
  }

  lemma MixedStep(w: Tail, a: Tail, b: Tail, s: Step)
    requires Mixed(w, a, b)
    ensures Mixed(Extend(w, s), Extend(a, s), b) && Mixed(Extend(w, s), a, Extend(b, s))
  {
  }

  lemma {:induction false} MixtureTail(l: seq<Tagged>)
    ensures Mixed(TailIn(l), TailIn(Copy(l, false)), TailIn(Copy(l, true)))
  {
    if l != [] {
      var t, x := l[..|l| - 1], l[|l| - 1];
      assert l == t + [x];
      MixtureTail(t);
      CopySnoc(t, x);
      TailSnoc(t, x);
      TailSnoc(Copy(t, x.echo), x);
      MixedStep(TailIn(t), TailIn(Copy(t, false)), TailIn(Copy(t, true)), TaggedStep(x));
    }
  }

  function TailIn(l: seq<Tagged>): Tail {
    TailOf(Map(l, TaggedStep))
  }

  lemma CopySnoc(t: seq<Tagged>, x: Tagged)
    ensures Copy(t + [x], x.echo) == Copy(t, x.echo) + [x]
    ensures Copy(t + [x], !x.echo) == Copy(t, !x.echo)
  {
    var echo := x.echo;
    FilterSnoc(t, x, (y: Tagged) => y.echo == echo);
    FilterSnoc(t, x, (y: Tagged) => y.echo == !echo);
  }

  lemma TailSnoc(l: seq<Tagged>, x: Tagged)
    ensures TailIn(l + [x]) == Extend(TailIn(l), TaggedStep(x))
  {
    var s := Map(l, TaggedStep);
    assert Map(l + [x], TaggedStep) == s + [TaggedStep(x)];
    assert (s + [TaggedStep(x)])[..|s|] == s;
  }

  /** Two copies of one list of steps, shuffled together anyhow, do what one copy does. */
  lemma ShuffledCopies(l: seq<Tagged>, held: Option<string>)
    requires Map(Copy(l, false), TaggedStep) == Map(Copy(l, true), TaggedStep)
    ensures HoldAll(held, Map(l, TaggedStep)) == HoldAll(held, Map(Copy(l, false), TaggedStep))
  {
    MixtureTail(l);
    HoldByTail(held, Map(l, TaggedStep));
    HoldByTail(held, Map(Copy(l, false), TaggedStep));
  }

  predicate TaggedByTime(a: Tagged, b: Tagged) {
    a.event.sentNs <= b.event.sentNs
  }

  lemma TaggedByTimeIsPreorder()
    ensures TotalPreorder(TaggedByTime)
  {
    var le := TaggedByTime;
    forall x: Tagged, y: Tagged ensures le(x, y) <==> x.event.sentNs <= y.event.sentNs {
      assert le(x, y) == TaggedByTime(x, y);
    }
  }

  /** Filtering by sender and sorting, with or without the tags. */
  lemma {:induction false} FilterEvents(l: seq<Tagged>, sender: string)
    ensures Filter(Map(l, EventOf), By(sender)) == Map(Mine(l, sender), EventOf)
  {
    if l == [] {
      assert Map(l, EventOf) == [] && Mine(l, sender) == [];
    } else {
      var t, x := l[..|l| - 1], l[|l| - 1];
      assert l == t + [x];
      assert Map(l, EventOf) == Map(t, EventOf) + [x.event];
      FilterEvents(t, sender);
      FilterSnoc(Map(t, EventOf), x.event, By(sender));
      FilterSnoc(t, x, (y: Tagged) => y.event.sender == sender);
    }
  }

  lemma TaggedEffect(l: seq<Tagged>, sender: string, held: Option<string>)
    ensures Effect(held, Map(l, EventOf), sender) == HoldAll(held, Map(Sort(Mine(l, sender), TaggedByTime), TaggedStep))
  {
    var m := Mine(l, sender);
    FilterEvents(l, sender);
    var le, le' := ByTime, TaggedByTime;
    forall x: Tagged, y: Tagged ensures le'(x, y) == le(EventOf(x), EventOf(y)) {
      assert le'(x, y) == TaggedByTime(x, y) && le(x.event, y.event) == ByTime(x.event, y.event);
    }
    SortMap(m, EventOf, ByTime, TaggedByTime);
    assert Map(Map(Sort(m, TaggedByTime), EventOf), StepOf) == Map(Sort(m, TaggedByTime), TaggedStep);
  }

  /** My optimistic events and their echoes: the same steps, each copy in time order. Nothing is asked
      of the two copies' times relative to one another, nor of anyone else's events. */
  ghost predicate EchoedInFull(l: seq<Tagged>, me: string) {
    var sent, echoed := Copy(Mine(l, me), false), Copy(Mine(l, me), true);
    Map(sent, TaggedStep) == Map(echoed, TaggedStep) && SortedBy(sent, TaggedByTime) && SortedBy(echoed, TaggedByTime)
  }

  /** The log without my echoes, and without my optimistic events: my screen alone, the network alone. */
  function Without(l: seq<Tagged>, me: string, echo: bool): seq<Event> {
    Map(Filter(l, (t: Tagged) => t.event.sender != me || t.echo != echo), EventOf)
  }

  lemma {:induction false} MineWithout(l: seq<Tagged>, me: string, echo: bool)
    ensures Mine(Filter(l, (t: Tagged) => t.event.sender != me || t.echo != echo), me) == Copy(Mine(l, me), !echo)
  {
    if l != [] {
      var t, x := l[..|l| - 1], l[|l| - 1];
      assert l == t + [x];
      MineWithout(t, me, echo);
      var keep := (t: Tagged) => t.event.sender != me || t.echo != echo;
      FilterSnoc(t, x, keep);
      FilterSnoc(Filter(t, keep), x, (y: Tagged) => y.event.sender == me);
      FilterSnoc(t, x, (y: Tagged) => y.event.sender == me);
      FilterSnoc(Mine(t, me), x, (y: Tagged) => y.echo == !echo);
    }
  }

  lemma {:induction false} OthersWithout(l: seq<Tagged>, me: string, echo: bool, sender: string)
    requires sender != me
    ensures Mine(Filter(l, (t: Tagged) => t.event.sender != me || t.echo != echo), sender) == Mine(l, sender)
  {
    if l != [] {
      var t, x := l[..|l| - 1], l[|l| - 1];
      assert l == t + [x];
      OthersWithout(t, me, echo, sender);
      var keep := (t: Tagged) => t.event.sender != me || t.echo != echo;
      FilterSnoc(t, x, keep);
      FilterSnoc(Filter(t, keep), x, (y: Tagged) => y.event.sender == sender);
      FilterSnoc(t, x, (y: Tagged) => y.event.sender == sender);
    }
  }

  /** One copy alone does what the shuffle of both does. */
  lemma OneCopyIsEnough(l: seq<Tagged>, me: string, echo: bool, held: Option<string>)
    requires EchoedInFull(l, me)
    ensures Effect(held, Map(l, EventOf), me) == Effect(held, Without(l, me, echo), me)
  {
    var m := Mine(l, me);
    var w := Sort(m, TaggedByTime);
    TaggedByTimeIsPreorder();
    SortFilter(m, (t: Tagged) => t.echo == false, TaggedByTime);
    SortFilter(m, (t: Tagged) => t.echo == true, TaggedByTime);
    SortOfSorted(Copy(m, false), TaggedByTime);
    SortOfSorted(Copy(m, true), TaggedByTime);
    assert Copy(w, false) == Copy(m, false) && Copy(w, true) == Copy(m, true);
    ShuffledCopies(w, held);
    TaggedEffect(l, me, held);
    MineWithout(l, me, echo);
    TaggedEffect(Filter(l, (t: Tagged) => t.event.sender != me || t.echo != echo), me, held);
  }

  /** My events in the log and no one else's are compared in time with what came before. */
  lemma WithoutNotBefore(prior: seq<Event>, l: seq<Tagged>, me: string, echo: bool)
    requires NotBefore(prior, Map(l, EventOf), me)
    ensures NotBefore(prior, Without(l, me, echo), me)
  {
    var kept := Filter(l, (t: Tagged) => t.event.sender != me || t.echo != echo);
    forall y | y in Without(l, me, echo) ensures y in Map(l, EventOf) {
      var i :| 0 <= i < |kept| && y == kept[i].event;
      assert kept[i] in l;
      var j :| 0 <= j < |l| && l[j] == kept[i];
      assert Map(l, EventOf)[j] == y;
    }
  }

  lemma OthersUnmoved(prior: seq<Event>, l: seq<Tagged>, me: string, echo: bool, sender: string)
    requires sender != me
    ensures HolderOf(prior + Map(l, EventOf), sender) == HolderOf(prior + Without(l, me, echo), sender)
  {
    var kept := Filter(l, (t: Tagged) => t.event.sender != me || t.echo != echo);
    OthersWithout(l, me, echo, sender);
    FilterEvents(l, sender);
    FilterEvents(kept, sender);
    FilterAppend(prior, Map(l, EventOf), By(sender));
    FilterAppend(prior, Map(kept, EventOf), By(sender));
    HolderIsOwn(prior + Map(l, EventOf), sender);
    HolderIsOwn(prior + Map(kept, EventOf), sender);
  }

  /** With my optimistic events and all their echoes in the log, none of them before what I did earlier,
      everyone holds what they hold with either copy alone, however the two copies' clocks disagree. */
  lemma EitherCopyAlone(prior: seq<Event>, l: seq<Tagged>, me: string, echo: bool, sender: string)
    requires EchoedInFull(l, me) && NotBefore(prior, Map(l, EventOf), me)
    ensures HolderOf(prior + Map(l, EventOf), sender) == HolderOf(prior + Without(l, me, echo), sender)
  {
    if sender == me {
      LaterEvents(prior, Map(l, EventOf), me);
      WithoutNotBefore(prior, l, me, echo);
      LaterEvents(prior, Without(l, me, echo), me);
      OneCopyIsEnough(l, me, echo, HolderOf(prior, me));
    } else {
      OthersUnmoved(prior, l, me, echo, sender);
    }
  }
}
