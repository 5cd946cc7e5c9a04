/** The network has the last word: whatever times my device gave my own events, once all their echoes are in,
    everyone holds what the network's log alone says. */
module ReactionNetwork {
  import opened Wrappers
  import opened Lists
  import opened StableSort
  import Toggle = ReactionToggle
  import opened Reactions
  import opened ReactionFold

  /** One of my events: done earlier, shown at once on my screen, or echoed by the network. */
  datatype Part = Earlier | Shown | Echoed

  datatype Placed = Placed(event: Event, part: Part)

  function PlacedEvent(p: Placed): Event { p.event }

  function PlacedStep(p: Placed): Step { StepOf(p.event) }

  predicate PlacedByTime(a: Placed, b: Placed) {
    a.event.sentNs <= b.event.sentNs
  }

  lemma PlacedByTimeIsPreorder()
    ensures TotalPreorder(PlacedByTime)
  {
    var le := PlacedByTime;
    forall x: Placed, y: Placed ensures le(x, y) <==> x.event.sentNs <= y.event.sentNs {
      assert le(x, y) == PlacedByTime(x, y);
    }
  }

  function Parts(l: seq<Placed>, part: Part): seq<Placed> {
    Filter(l, (p: Placed) => p.part == part)
  }

  function TailIn(l: seq<Placed>): Tail {
    TailOf(Map(l, PlacedStep))
  }

  // ----- tails -----

  lemma TailSnoc(l: seq<Placed>, x: Placed)
    ensures TailIn(l + [x]) == Extend(TailIn(l), PlacedStep(x))
  {
    var s := Map(l, PlacedStep);
    assert Map(l + [x], PlacedStep) == s + [PlacedStep(x)];
    assert (s + [PlacedStep(x)])[..|s|] == s;
  }

  lemma PartsSnoc(l: seq<Placed>, x: Placed, part: Part)
    ensures Parts(l + [x], part) == if x.part == part then Parts(l, part) + [x] else Parts(l, part)
  {
    FilterSnoc(l, x, (p: Placed) => p.part == part);
  }

  lemma PartsConcat(a: seq<Placed>, b: seq<Placed>, part: Part)
    ensures Parts(a + b, part) == Parts(a, part) + Parts(b, part)
  {
    FilterAppend(a, b, (p: Placed) => p.part == part);
  }

  lemma {:induction false} TwoParts(l: seq<Placed>, a: Part, b: Part)
    requires a != b && forall p :: p in l ==> p.part == a || p.part == b
    ensures Mixed(TailIn(l), TailIn(Parts(l, a)), TailIn(Parts(l, b)))
  {
    if l != [] {
      var t, x := l[..|l| - 1], l[|l| - 1];
      assert l == t + [x] && x in l;
      TwoParts(t, a, b);
      PartsSnoc(t, x, a);
      PartsSnoc(t, x, b);
      TailSnoc(t, x);
      TailSnoc(Parts(t, x.part), x);
      MixedStep(TailIn(t), TailIn(Parts(t, a)), TailIn(Parts(t, b)), PlacedStep(x));
    }
  }

  /** One list of steps after another. */
  function Join(a: Tail, b: Tail): Tail {
    if b.add.Some? then b else Tail(a.add, a.removed + b.removed)
  }

  lemma {:induction false} TailConcat(a: seq<Placed>, b: seq<Placed>)
    ensures TailIn(a + b) == Join(TailIn(a), TailIn(b))
  {
    if b == [] {
      assert a + b == a;
    } else {
      var t, x := b[..|b| - 1], b[|b| - 1];
      assert b == t + [x] && a + b == (a + t) + [x];
      TailConcat(a, t);
      TailSnoc(a + t, x);
      TailSnoc(t, x);
    }
  }

  function HeldAfter(held: Option<string>, t: Tail): Option<string> {
    var taken := if t.add.Some? then t.add else held;
    if taken.Some? && taken.value in t.removed then None else taken
  }

  /** Earlier events mixed with the first optimistic ones, then the rest mixed with all the echoes: the same
      as the earlier events and then the echoes. */
  lemma EchoesHaveTheLastWord(earlier: Tail, shown1: Tail, shown2: Tail, w1: Tail, w2: Tail)
    requires Mixed(w1, earlier, shown1) && Mixed(w2, shown2, Join(shown1, shown2))
    ensures HeldAfter(None, Join(w1, w2)) == HeldAfter(HeldAfter(None, earlier), Join(shown1, shown2))
  {
    if shown1.add.None? && shown2.add.None? {
      assert w1.removed + w2.removed == earlier.removed + (shown1.removed + shown2.removed)
        || (earlier.add.None? && w1.add.None?);
    }
  }

  // ----- my events in order -----

  /** Nothing done earlier comes after an echo. */
  ghost predicate EchoesLater(l: seq<Placed>) {
    forall p, q :: 0 <= p < q < |l| && l[p].part == Echoed ==> l[q].part != Earlier
  }

  function FirstEcho(l: seq<Placed>): (k: nat)
    ensures k <= |l| && (k < |l| ==> l[k].part == Echoed)
    ensures forall i :: 0 <= i < k ==> l[i].part != Echoed
  {
    if l == [] || l[0].part == Echoed then 0
    else
      var k := FirstEcho(l[1..]);
      assert forall i :: 0 < i < k + 1 ==> l[i] == l[1..][i - 1];
      k + 1
  }

  lemma NoneOfPart(l: seq<Placed>, part: Part)
    requires forall p :: p in l ==> p.part != part
    ensures Parts(l, part) == []
  {
    EmptyIfNone(Parts(l, part));
  }

  /** Such a list falls into a part without echoes and a part without anything done earlier. */
  lemma SplitAtEchoes(l: seq<Placed>) returns (a: seq<Placed>, b: seq<Placed>)
    requires EchoesLater(l)
    ensures l == a + b
    ensures (forall p :: p in a ==> p.part != Echoed) && (forall p :: p in b ==> p.part != Earlier)
  {
    var k := FirstEcho(l);
    a, b := l[..k], l[k..];
    forall p | p in b ensures p.part != Earlier {
      var i :| 0 <= i < |b| && b[i] == p;
      assert l[k].part == Echoed && l[k + i] == p;
    }
  }

  lemma PartsOfHalves(a: seq<Placed>, b: seq<Placed>)
    requires (forall p :: p in a ==> p.part != Echoed) && (forall p :: p in b ==> p.part != Earlier)
    ensures Parts(a + b, Earlier) == Parts(a, Earlier) && Parts(a + b, Echoed) == Parts(b, Echoed)
    ensures Parts(a + b, Shown) == Parts(a, Shown) + Parts(b, Shown)
  {
    PartsConcat(a, b, Earlier);
    PartsConcat(a, b, Shown);
    PartsConcat(a, b, Echoed);
    NoneOfPart(b, Earlier);
    NoneOfPart(a, Echoed);
  }

  lemma HalvesHold(a: seq<Placed>, b: seq<Placed>)
    requires (forall p :: p in a ==> p.part != Echoed) && (forall p :: p in b ==> p.part != Earlier)
    requires TailIn(Parts(a, Shown) + Parts(b, Shown)) == TailIn(Parts(b, Echoed))
    ensures HeldAfter(None, TailIn(a + b)) == HeldAfter(HeldAfter(None, TailIn(Parts(a, Earlier))), TailIn(Parts(b, Echoed)))
  {
    TwoParts(a, Earlier, Shown);
    TwoParts(b, Shown, Echoed);
    TailConcat(a, b);
    TailConcat(Parts(a, Shown), Parts(b, Shown));
    EchoesHaveTheLastWord(TailIn(Parts(a, Earlier)), TailIn(Parts(a, Shown)), TailIn(Parts(b, Shown)), TailIn(a), TailIn(b));
  }

  lemma OrderedHolding(l: seq<Placed>)
    requires EchoesLater(l) && Map(Parts(l, Shown), PlacedStep) == Map(Parts(l, Echoed), PlacedStep)
    ensures HoldAll(None, Map(l, PlacedStep))
         == HoldAll(HoldAll(None, Map(Parts(l, Earlier), PlacedStep)), Map(Parts(l, Echoed), PlacedStep))
  {
    var a, b := SplitAtEchoes(l);
    PartsOfHalves(a, b);
    HalvesHold(a, b);
    HoldByTail(None, Map(l, PlacedStep));
    HoldByTail(None, Map(Parts(l, Earlier), PlacedStep));
    HoldByTail(HoldAll(None, Map(Parts(l, Earlier), PlacedStep)), Map(Parts(l, Echoed), PlacedStep));
  }

  // ----- my events in the log -----

  function AsEarlier(e: Event): Placed { Placed(e, Earlier) }

  function AsPlaced(t: Tagged): Placed { Placed(t.event, if t.echo then Echoed else Shown) }

  function MyEvents(prior: seq<Event>, l: seq<Tagged>, me: string): seq<Placed> {
    Map(Filter(prior, By(me)), AsEarlier) + Map(Mine(l, me), AsPlaced)
  }

  lemma {:induction false} PartsOfTagged(l: seq<Tagged>, echo: bool)
    ensures Parts(Map(l, AsPlaced), if echo then Echoed else Shown) == Map(Copy(l, echo), AsPlaced)
  {
    var part := if echo then Echoed else Shown;
    if l == [] {
      assert Map(l, AsPlaced) == [] && Copy(l, echo) == [];
    } else {
      var t, x := l[..|l| - 1], l[|l| - 1];
      assert l == t + [x] && Map(l, AsPlaced) == Map(t, AsPlaced) + [AsPlaced(x)];
      PartsOfTagged(t, echo);
      PartsSnoc(Map(t, AsPlaced), AsPlaced(x), part);
      FilterSnoc(t, x, (y: Tagged) => y.echo == echo);
    }
  }

  lemma PartsOfMine(prior: seq<Event>, l: seq<Tagged>, me: string)
    ensures Parts(MyEvents(prior, l, me), Earlier) == Map(Filter(prior, By(me)), AsEarlier)
    ensures Parts(MyEvents(prior, l, me), Shown) == Map(Copy(Mine(l, me), false), AsPlaced)
    ensures Parts(MyEvents(prior, l, me), Echoed) == Map(Copy(Mine(l, me), true), AsPlaced)
  {
    var p, q := Map(Filter(prior, By(me)), AsEarlier), Map(Mine(l, me), AsPlaced);
    PartsConcat(p, q, Earlier);
    PartsConcat(p, q, Shown);
    PartsConcat(p, q, Echoed);
    FilterAll(p, (x: Placed) => x.part == Earlier);
    NoneOfPart(p, Shown);
    NoneOfPart(p, Echoed);
    NoneOfPart(q, Earlier);
    PartsOfTagged(Mine(l, me), false);
    PartsOfTagged(Mine(l, me), true);
  }

  /** My echoes are not stamped before anything I did earlier. */
  ghost predicate EchoesNotBefore(prior: seq<Event>, l: seq<Tagged>, me: string) {
    forall x, t :: x in prior && t in l && x.sender == me && t.event.sender == me && t.echo ==> x.sentNs <= t.event.sentNs
  }

  /** Sorted, then, nothing done earlier comes after an echo: at equal times the earlier is listed first. */
  lemma SortedEchoesLater(prior: seq<Event>, l: seq<Tagged>, me: string)
    requires EchoesNotBefore(prior, l, me)
    ensures EchoesLater(Sort(MyEvents(prior, l, me), PlacedByTime))
  {
    var all := MyEvents(prior, l, me);
    PlacedByTimeIsPreorder();
    var idx := SortIsStable(all, PlacedByTime);
    var sorted := Sort(all, PlacedByTime);
    forall p: nat, q: nat | p < |sorted| && q < |sorted| && sorted[p].part == Echoed && sorted[q].part == Earlier ensures q < p {
      EarlierFirst(prior, l, me, idx[q], idx[p]);
      OrderReflects(all, PlacedByTime, idx, q, p);
    }
  }

  lemma EarlierFirst(prior: seq<Event>, l: seq<Tagged>, me: string, i: nat, j: nat)
    requires EchoesNotBefore(prior, l, me)
    requires i < |MyEvents(prior, l, me)| && j < |MyEvents(prior, l, me)|
    requires MyEvents(prior, l, me)[i].part == Earlier && MyEvents(prior, l, me)[j].part == Echoed
    ensures i != j && Precedes(MyEvents(prior, l, me), PlacedByTime, i, j)
  {
    var p, q := Filter(prior, By(me)), Mine(l, me);
    var le := PlacedByTime;
    var a, b := MyEvents(prior, l, me)[i], MyEvents(prior, l, me)[j];
    assert i < |p| && a == AsEarlier(p[i]) && p[i] in p;
    assert j >= |p| && b == AsPlaced(q[j - |p|]) && q[j - |p|] in q;
    assert le(a, b) == PlacedByTime(a, b);
  }

  lemma SortedPart(l: seq<Placed>, part: Part)
    ensures Parts(Sort(l, PlacedByTime), part) == Sort(Parts(l, part), PlacedByTime)
  {
    PlacedByTimeIsPreorder();
    SortFilter(l, (p: Placed) => p.part == part, PlacedByTime);
  }

  /** A copy in time order stays as it is. */
  lemma SortedCopy(c: seq<Tagged>)
    requires SortedBy(c, TaggedByTime)
    ensures Map(Sort(Map(c, AsPlaced), PlacedByTime), PlacedStep) == Map(c, TaggedStep)
  {
    var le, le' := TaggedByTime, PlacedByTime;
    var m := Map(c, AsPlaced);
    forall i, j | 0 <= i < j < |m| ensures le'(m[i], m[j]) {
      assert le(c[i], c[j]) && le(c[i], c[j]) == TaggedByTime(c[i], c[j]) && le'(m[i], m[j]) == PlacedByTime(m[i], m[j]);
    }
    PlacedByTimeIsPreorder();
    SortOfSorted(m, PlacedByTime);
  }

  lemma SortedEarlier(p: seq<Event>)
    ensures Map(Sort(Map(p, AsEarlier), PlacedByTime), PlacedStep) == Map(Sort(p, ByTime), StepOf)
  {
    var le, le' := PlacedByTime, ByTime;
    forall x: Event, y: Event ensures le'(x, y) == le(AsEarlier(x), AsEarlier(y)) {
      assert le'(x, y) == ByTime(x, y) && le(AsEarlier(x), AsEarlier(y)) == PlacedByTime(AsEarlier(x), AsEarlier(y));
    }
    SortMap(p, AsEarlier, PlacedByTime, ByTime);
  }

  lemma SortedPlaced(all: seq<Placed>)
    ensures Map(Sort(Map(all, PlacedEvent), ByTime), StepOf) == Map(Sort(all, PlacedByTime), PlacedStep)
  {
    var le, le' := ByTime, PlacedByTime;
    forall x: Placed, y: Placed ensures le'(x, y) == le(PlacedEvent(x), PlacedEvent(y)) {
      assert le'(x, y) == PlacedByTime(x, y) && le(x.event, y.event) == ByTime(x.event, y.event);
    }
    SortMap(all, PlacedEvent, ByTime, PlacedByTime);
    var sorted := Sort(all, PlacedByTime);
    assert Map(Map(sorted, PlacedEvent), StepOf) == Map(sorted, PlacedStep);
  }

  lemma MyEventsAreMine(prior: seq<Event>, l: seq<Tagged>, me: string)
    ensures Filter(prior + Map(l, EventOf), By(me)) == Map(MyEvents(prior, l, me), PlacedEvent)
  {
    FilterAppend(prior, Map(l, EventOf), By(me));
    FilterEvents(l, me);
    assert Map(MyEvents(prior, l, me), PlacedEvent) == Filter(prior, By(me)) + Map(Mine(l, me), EventOf);
  }

  lemma SortedMine(prior: seq<Event>, l: seq<Tagged>, me: string)
    ensures HolderOf(prior + Map(l, EventOf), me)
         == HoldAll(None, Map(Sort(MyEvents(prior, l, me), PlacedByTime), PlacedStep))
  {
    HolderIsOwn(prior + Map(l, EventOf), me);
    MyEventsAreMine(prior, l, me);
    SortedPlaced(MyEvents(prior, l, me));
  }

  /** What the network's log alone leaves me holding. */
  lemma EchoesAlone(prior: seq<Event>, l: seq<Tagged>, me: string)
    requires EchoedInFull(l, me) && EchoesNotBefore(prior, l, me)
    ensures HolderOf(prior + Without(l, me, false), me)
         == HoldAll(HolderOf(prior, me), Map(Copy(Mine(l, me), true), TaggedStep))
  {
    var kept := Filter(l, (t: Tagged) => t.event.sender != me || t.echo != false);
    forall x, y | x in prior && y in Without(l, me, false) && x.sender == me && y.sender == me ensures x.sentNs <= y.sentNs {
      var i :| 0 <= i < |kept| && y == kept[i].event;
      assert kept[i] in kept;
    }
    LaterEvents(prior, Without(l, me, false), me);
    MineWithout(l, me, false);
    TaggedEffect(kept, me, HolderOf(prior, me));
    TaggedByTimeIsPreorder();
    SortOfSorted(Copy(Mine(l, me), true), TaggedByTime);
  }

  /** With all my echoes in the log, none stamped before anything I did earlier, my own optimistic events make
      no difference to anyone, whatever times my device gave them. */
  lemma NetworkHasTheLastWord(prior: seq<Event>, l: seq<Tagged>, me: string, sender: string)
    requires EchoedInFull(l, me) && EchoesNotBefore(prior, l, me)
    ensures HolderOf(prior + Map(l, EventOf), sender) == HolderOf(prior + Without(l, me, false), sender)
  {
    if sender == me {
      MineByParts(prior, l, me);
      EchoesAlone(prior, l, me);
    } else {
      OthersUnmoved(prior, l, me, false, sender);
    }
  }

  lemma MineByParts(prior: seq<Event>, l: seq<Tagged>, me: string)
    requires EchoedInFull(l, me) && EchoesNotBefore(prior, l, me)
    ensures HolderOf(prior + Map(l, EventOf), me)
         == HoldAll(HolderOf(prior, me), Map(Copy(Mine(l, me), true), TaggedStep))
  {
    var sorted := Sort(MyEvents(prior, l, me), PlacedByTime);
    SortedMine(prior, l, me);
    SortedEchoesLater(prior, l, me);
    PartsOfMine(prior, l, me);
    SortedPart(MyEvents(prior, l, me), Earlier);
    SortedPart(MyEvents(prior, l, me), Shown);
    SortedPart(MyEvents(prior, l, me), Echoed);
    SortedCopy(Copy(Mine(l, me), false));
    SortedCopy(Copy(Mine(l, me), true));
    SortedEarlier(Filter(prior, By(me)));
    HolderIsOwn(prior, me);
    OrderedHolding(sorted);
  }

  /** Once all my echoes are in, none stamped before anything I did earlier, everyone holds what the network's
      log alone says, however far off my device's clock is; and what my screen alone said, if the tap itself
      was not stamped before anything I did earlier either. */
  lemma EchoesChangeNothing(prior: seq<Event>, l: seq<Tagged>, me: string, sender: string)
    requires EchoedInFull(l, me) && EchoesNotBefore(prior, l, me)
    ensures HolderOf(prior + Map(l, EventOf), sender) == HolderOf(prior + Without(l, me, false), sender)
    ensures NotBefore(prior, Map(l, EventOf), me) ==>
      HolderOf(prior + Map(l, EventOf), sender) == HolderOf(prior + Without(l, me, true), sender)
  {
    NetworkHasTheLastWord(prior, l, me, sender);
    if NotBefore(prior, Map(l, EventOf), me) { EitherCopyAlone(prior, l, me, true, sender); }
  }

  // ----- echoes stamped before what I did earlier -----

  /** My optimistic events are stamped no later than `t`. */
  ghost predicate ShownUpTo(l: seq<Tagged>, me: string, t: int) {
    forall x :: x in l && x.event.sender == me && !x.echo ==> x.event.sentNs <= t
  }

  lemma {:induction false} SameAfter(l: seq<Tagged>, me: string, t: int)
    requires ShownUpTo(l, me, t)
    ensures Filter(Toggle.After(Map(l, EventOf), t), By(me)) == Filter(Toggle.After(Without(l, me, false), t), By(me))
  {
    if l != [] {
      var front, x := l[..|l| - 1], l[|l| - 1];
      assert l == front + [x] && x in l;
      SameAfter(front, me, t);
      assert Map(l, EventOf) == Map(front, EventOf) + [x.event];
      AfterSnoc(Map(front, EventOf), x.event, t, me);
      WithoutSnoc(front, x, me);
      AfterSnoc(Without(front, me, false), x.event, t, me);
    }
  }

  lemma AfterSnoc(es: seq<Event>, e: Event, t: int, me: string)
    ensures Filter(Toggle.After(es + [e], t), By(me))
         == Filter(Toggle.After(es, t), By(me)) + if e.sentNs > t && e.sender == me then [e] else []
  {
    FilterSnoc(es, e, (y: Event) => !(y.sentNs <= t));
    FilterSnoc(Toggle.After(es, t), e, By(me));
  }

  lemma WithoutSnoc(l: seq<Tagged>, x: Tagged, me: string)
    ensures Without(l + [x], me, false)
         == if x.event.sender != me || x.echo then Without(l, me, false) + [x.event] else Without(l, me, false)
  {
    FilterSnoc(l, x, (y: Tagged) => y.event.sender != me || y.echo != false);
  }

  /** In general, whatever echoes are in and whenever they are stamped: everyone holds what the network's log
      alone says exactly when I held that at the time of my last optimistic event, or what I then held is
      overtaken since. */
  lemma EchoesChangeNothingIff(prior: seq<Event>, l: seq<Tagged>, me: string, t: int)
    requires ShownUpTo(l, me, t)
    ensures var all, network := prior + Map(l, EventOf), prior + Without(l, me, false);
            var held, alone := HolderOf(Toggle.UpTo(all, t), me), HolderOf(Toggle.UpTo(network, t), me);
            var later := Toggle.StepsAfter(all, t, me);
      (forall sender :: HolderOf(all, sender) == HolderOf(network, sender))
        <==> (held == alone || later.add.Some? || (Toggle.Gone(held, later) && Toggle.Gone(alone, later)))
  {
    var late := (y: Event) => !(y.sentNs <= t);
    var all, network := prior + Map(l, EventOf), prior + Without(l, me, false);
    SameAfter(l, me, t);
    FilterAppend(prior, Map(l, EventOf), late);
    FilterAppend(prior, Without(l, me, false), late);
    FilterAppend(Toggle.After(prior, t), Toggle.After(Map(l, EventOf), t), By(me));
    FilterAppend(Toggle.After(prior, t), Toggle.After(Without(l, me, false), t), By(me));
    Toggle.HoldersMeetIff(all, network, t, me);
    forall sender | sender != me ensures HolderOf(all, sender) == HolderOf(network, sender) {
      OthersUnmoved(prior, l, me, false, sender);
    }
  }

  /** My events since `prior` are one tap, its first `k` steps: shown, then echoed. */
  ghost predicate IsEchoedTap(prior: seq<Event>, l: seq<Tagged>, me: string, emoji: string, k: nat) {
    && EchoedInFull(l, me) && Mine(l, me) == Copy(Mine(l, me), false) + Copy(Mine(l, me), true)
    && me != "" && 1 <= k <= |ReactionPlan(prior, Some(me), emoji)|
    && Map(Copy(Mine(l, me), true), TaggedStep) == ReactionPlan(prior, Some(me), emoji)[..k]
  }

  /** When the last step of a copy is stamped. */
  function LastStamp(c: seq<Tagged>): int
    requires c != []
  {
    c[|c| - 1].event.sentNs
  }

  lemma CopyIsTap(prior: seq<Event>, l: seq<Tagged>, me: string, emoji: string, k: nat, echo: bool)
    requires IsEchoedTap(prior, l, me, emoji, k)
    ensures var c := Copy(Mine(l, me), echo);
      |c| == k && Toggle.IsTap(prior, me, emoji, k, Map(c, EventOf)) && Map(c, EventOf)[k - 1].sentNs == LastStamp(c)
  {
    var c := Copy(Mine(l, me), echo);
    assert |Map(c, TaggedStep)| == |c|;
    CopyInOrder(l, me, echo);
    assert Map(Map(c, EventOf), StepOf) == Map(c, TaggedStep);
  }

  lemma CopyInOrder(l: seq<Tagged>, me: string, echo: bool)
    requires EchoedInFull(l, me)
    ensures Toggle.InOrderBy(Map(Copy(Mine(l, me), echo), EventOf), me)
  {
    var c := Copy(Mine(l, me), echo);
    var es := Map(c, EventOf);
    var le, le' := TaggedByTime, ByTime;
    assert SortedBy(c, TaggedByTime);
    forall i, j | 0 <= i < j < |es| ensures le'(es[i], es[j]) {
      assert le(c[i], c[j]) && le(c[i], c[j]) == TaggedByTime(c[i], c[j]) && le'(es[i], es[j]) == ByTime(es[i], es[j]);
    }
    forall e | e in es ensures e.sender == me {
      var i :| 0 <= i < |es| && es[i] == e;
      assert c[i] in c;
    }
  }

  /** Only my own events decide what I hold. */
  lemma OnlyOwn(es: seq<Event>, es': seq<Event>, me: string)
    requires Filter(es, By(me)) == Filter(es', By(me))
    ensures HolderOf(es, me) == HolderOf(es', me)
  {
    HolderIsOwn(es, me);
    HolderIsOwn(es', me);
  }

  lemma OwnAfter(prior: seq<Event>, log: seq<Event>, own: seq<Event>, me: string)
    requires Filter(log, By(me)) == own && forall e :: e in own ==> e.sender == me
    ensures HolderOf(prior + log, me) == HolderOf(prior + own, me)
  {
    FilterAppend(prior, log, By(me));
    FilterAppend(prior, own, By(me));
    FilterAll(own, By(me));
    OnlyOwn(prior + log, prior + own, me);
  }

  /** What the screen and the network leave me holding after an echoed tap. */
  lemma EchoedTapHolders(prior: seq<Event>, l: seq<Tagged>, me: string, emoji: string, k: nat)
    requires IsEchoedTap(prior, l, me, emoji, k)
    ensures var shown, echoed := Copy(Mine(l, me), false), Copy(Mine(l, me), true);
      && |shown| == |echoed| == k
      && HolderOf(prior + Map(l, EventOf), me)
           == Toggle.Outcome(prior, me, emoji, k, Toggle.Later(LastStamp(shown), LastStamp(echoed)))
      && HolderOf(prior + Without(l, me, false), me) == Toggle.Outcome(prior, me, emoji, k, LastStamp(echoed))
  {
    var shown, echoed := Copy(Mine(l, me), false), Copy(Mine(l, me), true);
    CopyIsTap(prior, l, me, emoji, k, false);
    CopyIsTap(prior, l, me, emoji, k, true);
    ScreenIsOwn(prior, l, me);
    Toggle.DoubledTap(prior, me, emoji, k, Map(shown, EventOf), Map(echoed, EventOf));
    NetworkIsOwn(prior, l, me);
    Toggle.StampedTap(prior, me, emoji, k, Map(echoed, EventOf));
  }

  lemma ScreenIsOwn(prior: seq<Event>, l: seq<Tagged>, me: string)
    requires EchoedInFull(l, me) && Mine(l, me) == Copy(Mine(l, me), false) + Copy(Mine(l, me), true)
    ensures HolderOf(prior + Map(l, EventOf), me)
         == HolderOf(prior + (Map(Copy(Mine(l, me), false), EventOf) + Map(Copy(Mine(l, me), true), EventOf)), me)
  {
    var shown, echoed := Copy(Mine(l, me), false), Copy(Mine(l, me), true);
    FilterEvents(l, me);
    CopyInOrder(l, me, false);
    CopyInOrder(l, me, true);
    assert Map(Mine(l, me), EventOf) == Map(shown, EventOf) + Map(echoed, EventOf);
    OwnAfter(prior, Map(l, EventOf), Map(shown, EventOf) + Map(echoed, EventOf), me);
  }

  lemma NetworkIsOwn(prior: seq<Event>, l: seq<Tagged>, me: string)
    requires EchoedInFull(l, me)
    ensures HolderOf(prior + Without(l, me, false), me) == HolderOf(prior + Map(Copy(Mine(l, me), true), EventOf), me)
  {
    var kept := Filter(l, (t: Tagged) => t.event.sender != me || t.echo != false);
    MineWithout(l, me, false);
    FilterEvents(kept, me);
    CopyInOrder(l, me, true);
    OwnAfter(prior, Without(l, me, false), Map(Copy(Mine(l, me), true), EventOf), me);
  }

  /** The tap does not show: something of mine stamped later than `t` adds anything, or removes its last emoji. */
  predicate Overruled(prior: seq<Event>, me: string, emoji: string, t: int) {
    var later := Toggle.StepsAfter(prior, t, me);
    later.add.Some? || emoji in later.removed
  }

  /** Overruled at both stamps or at neither; and if at both, by an `added` after each or after none, or with
      nothing held. */
  predicate OverruledAlike(prior: seq<Event>, me: string, emoji: string, s: int, e: int) {
    && (Overruled(prior, me, emoji, s) <==> Overruled(prior, me, emoji, e))
    && (Overruled(prior, me, emoji, s) ==>
          || (Toggle.StepsAfter(prior, s, me).add.Some? <==> Toggle.StepsAfter(prior, e, me).add.Some?)
          || HolderOf(prior, me).None?)
  }

  /** One tap, whole or cut short, with all its echoes in, its last step stamped on the screen and by the network.
      Everyone holds what the network's log alone says exactly when what I did before the tap overrules it alike
      at the network's stamp and at the later of the two. */
  lemma EchoOfATapIff(prior: seq<Event>, l: seq<Tagged>, me: string, emoji: string, k: nat)
    requires IsEchoedTap(prior, l, me, emoji, k)
    ensures |Copy(Mine(l, me), false)| == |Copy(Mine(l, me), true)| == k
    ensures var e := LastStamp(Copy(Mine(l, me), true));
            var s := Toggle.Later(LastStamp(Copy(Mine(l, me), false)), e);
            var last := ReactionPlan(prior, Some(me), emoji)[k - 1].emoji;
      (forall sender :: HolderOf(prior + Map(l, EventOf), sender) == HolderOf(prior + Without(l, me, false), sender))
        <==> OverruledAlike(prior, me, last, s, e)
  {
    EchoedTapHolders(prior, l, me, emoji, k);
    forall sender | sender != me
      ensures HolderOf(prior + Map(l, EventOf), sender) == HolderOf(prior + Without(l, me, false), sender)
    {
      OthersUnmoved(prior, l, me, false, sender);
    }
    var e := LastStamp(Copy(Mine(l, me), true));
    var s := Toggle.Later(LastStamp(Copy(Mine(l, me), false)), e);
    OutcomesMeetIff(prior, me, emoji, k, e, s);
  }

  lemma OutcomesMeetIff(prior: seq<Event>, me: string, emoji: string, k: nat, e: int, s: int)
    requires me != "" && 1 <= k <= |ReactionPlan(prior, Some(me), emoji)|
    ensures var last := ReactionPlan(prior, Some(me), emoji)[k - 1].emoji;
      (Toggle.Outcome(prior, me, emoji, k, s) == Toggle.Outcome(prior, me, emoji, k, e))
        <==> OverruledAlike(prior, me, last, s, e)
  {
    Toggle.PlanStep(prior, me, emoji, k);
    HeldByTail(prior, me, s);
    HeldByTail(prior, me, e);
  }

  /** What is held at the end was not among what was last removed. */
  lemma HeldByTail(es: seq<Event>, me: string, t: int)
    ensures var held, later := HolderOf(es, me), Toggle.StepsAfter(es, t, me);
      held.Some? ==> held.value !in later.removed
  {
    Toggle.HolderAt(es, t, me);
    Toggle.EffectByTail(HolderOf(Toggle.UpTo(es, t), me), es, t, me);
  }

  /** My device's clock ahead of the network's: the tap shown after my earlier reaction, its echo stamped before
      it. The screen shows the tap, the network does not. */
  lemma EchoBehindIsOverruled(t: int)
    ensures var prior := [Event("m", "me", "x", Added, t + 1)];
            var l := [Tagged(Event("m", "me", "y", Added, t + 2), false), Tagged(Event("m", "me", "y", Added, t), true)];
      && EchoedInFull(l, "me")
      && HolderOf(prior + Map(l, EventOf), "me") == Some("y") && HolderOf(prior + Without(l, "me", false), "me") == Some("x")
  {
    var prior := [Event("m", "me", "x", Added, t + 1)];
    var shown, echo := Tagged(Event("m", "me", "y", Added, t + 2), false), Tagged(Event("m", "me", "y", Added, t), true);
    TwoTagged(shown, echo, "me");
    var all, network := prior + Map([shown, echo], EventOf), prior + Without([shown, echo], "me", false);
    assert all == [prior[0], shown.event, echo.event] && network == [prior[0], echo.event];
    assert LastWord(all, "me", "y", 1) && LastWord(network, "me", "x", 0);
    HolderMeaning(all, "me", "y");
    HolderMeaning(network, "me", "x");
  }

  lemma TwoTagged(shown: Tagged, echo: Tagged, me: string)
    requires shown.event.sender == echo.event.sender == me && !shown.echo && echo.echo && TaggedStep(shown) == TaggedStep(echo)
    ensures EchoedInFull([shown, echo], me)
    ensures Map([shown, echo], EventOf) == [shown.event, echo.event] && Without([shown, echo], me, false) == [echo.event]
  {
    var l := [shown, echo];
    assert l == [shown] + [echo];
    FilterAll(l, (t: Tagged) => t.event.sender == me);
    FilterSnoc([shown], echo, (t: Tagged) => t.echo == false);
    FilterSnoc([shown], echo, (t: Tagged) => t.echo == true);
    FilterSnoc([shown], echo, (t: Tagged) => t.event.sender != me || t.echo != false);
    FilterOne(shown, (t: Tagged) => t.echo == false);
    FilterOne(shown, (t: Tagged) => t.echo == true);
    FilterOne(shown, (t: Tagged) => t.event.sender != me || t.echo != false);
  }
}
