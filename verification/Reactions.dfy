/** A target's reaction log: replayed into who holds what, summed into pills, and toggled. */
module Reactions {
  import opened Wrappers
  import opened Lists
  import opened StableSort
  import opened JsMap

  datatype Action = Added | Removed

  /** One message a tap must send. */
  datatype Step = Step(emoji: string, action: Action)

  datatype Event = Event(reference: string, sender: string, emoji: string, action: Action, sentNs: int)

  function StepOf(e: Event): Step {
    Step(e.emoji, e.action)
  }

  predicate ByTime(a: Event, b: Event) {
    a.sentNs <= b.sentNs
  }

  lemma ByTimeIsPreorder()
    ensures TotalPreorder(ByTime)
  {
    var le := ByTime;
    forall x: Event, y: Event ensures le(x, y) <==> x.sentNs <= y.sentNs {
      assert le(x, y) == ByTime(x, y);
    }
  }

  // ----- replay -----

  datatype Replay = Replay(live: JsMap<string, string>, firstSeen: JsMap<string, int>)

  function Apply(r: Replay, e: Event): Replay {
    if e.action == Added then
      Replay(Set(r.live, e.sender, e.emoji),
             if Get(r.firstSeen, e.emoji).Some? then r.firstSeen else Set(r.firstSeen, e.emoji, e.sentNs))
    else if Get(r.live, e.sender) == Some(e.emoji) then r.(live := Delete(r.live, e.sender))
    else r
  }

  function Fold(es: seq<Event>): Replay {
    if es == [] then Replay([], []) else Apply(Fold(es[..|es| - 1]), es[|es| - 1])
  }

  function ReplayOf(events: seq<Event>): Replay {
    Fold(Sort(events, ByTime))
  }

  method RunReplay(events: seq<Event>) returns (r: Replay)
    ensures r == ReplayOf(events)
  {
    var ordered := Sort(events, ByTime);
    var live: JsMap<string, string>, firstSeen: JsMap<string, int> := [], [];
    var i := 0;
    while i < |ordered|
      invariant i <= |ordered|
      invariant Replay(live, firstSeen) == Fold(ordered[..i])
    {
      var e := ordered[i];
      assert ordered[..i + 1][..|ordered[..i + 1]| - 1] == ordered[..i];
      if e.action == Added {
        live := Set(live, e.sender, e.emoji);
        if Get(firstSeen, e.emoji).None? { firstSeen := Set(firstSeen, e.emoji, e.sentNs); }
      } else if Get(live, e.sender) == Some(e.emoji) {
        live := Delete(live, e.sender);
      }
      i := i + 1;
    }
    assert ordered[..i] == ordered;
    r := Replay(live, firstSeen);
  }

  /** Who holds what. */
  function HolderOf(events: seq<Event>, sender: string): Option<string> {
    Get(ReplayOf(events).live, sender)
  }

  /** No inbox id, or an empty one, is nobody. */
  predicate IsMe(me: Option<string>, sender: string) {
    me.Some? && me.value != "" && me.value == sender
  }

  function MyReaction(events: seq<Event>, me: Option<string>): Option<string> {
    if me.None? || me.value == "" then None else HolderOf(events, me.value)
  }

  // ----- pills -----

  datatype Pill = Pill(emoji: string, count: nat, mine: bool)

  function Counted(counts: JsMap<string, Pill>, holding: Entry<string, string>, me: Option<string>): Pill {
    var had := Get(counts, holding.value);
    var was := if had.Some? then had.value else Pill(holding.value, 0, false);
    Pill(was.emoji, was.count + 1, was.mine || IsMe(me, holding.key))
  }

  function Tally(live: JsMap<string, string>, me: Option<string>): JsMap<string, Pill> {
    if live == [] then []
    else
      var counts, holding := Tally(live[..|live| - 1], me), live[|live| - 1];
      Set(counts, holding.value, Counted(counts, holding, me))
  }

  function Values<V>(m: JsMap<string, V>): seq<V> {
    seq(|m|, i requires 0 <= i < |m| => m[i].value)
  }

  function SeenAt(firstSeen: JsMap<string, int>, emoji: string): int {
    var at := Get(firstSeen, emoji);
    if at.Some? then at.value else 0
  }

  function SeenOrder(firstSeen: JsMap<string, int>): (Pill, Pill) -> bool {
    (a: Pill, b: Pill) => SeenAt(firstSeen, a.emoji) <= SeenAt(firstSeen, b.emoji)
  }

  function Summarize(events: seq<Event>, me: Option<string>): seq<Pill> {
    var r := ReplayOf(events);
    Sort(Values(Tally(r.live, me)), SeenOrder(r.firstSeen))
  }

  method SummarizeReactions(events: seq<Event>, me: Option<string>) returns (pills: seq<Pill>)
    ensures pills == Summarize(events, me)
  {
    var r := RunReplay(events);
    if |r.live| == 0 { return []; }
    var counts: JsMap<string, Pill> := [];
    var i := 0;
    while i < |r.live|
      invariant i <= |r.live|
      invariant counts == Tally(r.live[..i], me)
    {
      var sender, emoji := r.live[i].key, r.live[i].value;
      var had := Get(counts, emoji);
      var entry := if had.Some? then had.value else Pill(emoji, 0, false);
      entry := entry.(count := entry.count + 1);
      if IsMe(me, sender) { entry := entry.(mine := true); }
      counts := Set(counts, emoji, entry);
      assert r.live[..i + 1][..|r.live[..i + 1]| - 1] == r.live[..i];
      i := i + 1;
    }
    assert r.live[..i] == r.live;
    pills := Sort(Values(counts), SeenOrder(r.firstSeen));
  }

  // ----- toggling -----

  function ReactionPlan(events: seq<Event>, me: Option<string>, emoji: string): seq<Step> {
    var mine := MyReaction(events, me);
    if mine == Some(emoji) then [Step(emoji, Removed)]
    else (if mine.Some? && mine.value != "" then [Step(mine.value, Removed)] else []) + [Step(emoji, Added)]
  }

  datatype Context = Context(reference: string, sender: string, baseNs: int)

  /** `plan.slice(0, Math.max(0, applied))`. */
  function Landed(plan: seq<Step>, applied: int): seq<Step> {
    plan[..if applied < 0 then 0 else if applied > |plan| then |plan| else applied]
  }

  /** `fine`: whether the double that holds the time can tell `baseNs + i` from `baseNs`. */
  function StepEvents(steps: seq<Step>, ctx: Context, fine: bool): seq<Event> {
    seq(|steps|, i requires 0 <= i < |steps| =>
      Event(ctx.reference, ctx.sender, steps[i].emoji, steps[i].action, ctx.baseNs + if fine then i else 0))
  }

  function ApplyReactionPlan(before: seq<Event>, plan: seq<Step>, applied: int, ctx: Context, fine: bool): seq<Event> {
    before + StepEvents(Landed(plan, applied), ctx, fine)
  }

  // ----- by target -----

  /** The targets in the order they first appear. */
  function Targets(es: seq<Event>): seq<string> {
    if es == [] then []
    else
      var rest, r := Targets(es[..|es| - 1]), es[|es| - 1].reference;
      if r in rest then rest else rest + [r]
  }

  function OnTarget(es: seq<Event>, r: string): seq<Event> {
    Filter(es, (e: Event) => e.reference == r)
  }

  function Groups(targets: seq<string>, es: seq<Event>): JsMap<string, seq<Event>> {
    if targets == [] then [] else [Entry(targets[0], OnTarget(es, targets[0]))] + Groups(targets[1..], es)
  }

  /** Every target with its events, both in order of appearance. */
  function Grouped(es: seq<Event>): JsMap<string, seq<Event>> {
    Groups(Targets(es), es)
  }

  function OrNone(list: Option<seq<Event>>): seq<Event> {
    if list.Some? then list.value else []
  }

  function MergeReaction(prev: JsMap<string, seq<Event>>, next: Event): JsMap<string, seq<Event>> {
    Set(prev, next.reference, OrNone(Get(prev, next.reference)) + [next])
  }

  /** Merging a streamed event into the map is grouping the longer log. */
  lemma MergeIsGrouping(es: seq<Event>, e: Event)
    ensures MergeReaction(Grouped(es), e) == Grouped(es + [e])
  {
    var targets := Targets(es);
    assert (es + [e])[..|es|] == es;
    TargetsDistinct(es);
    GetGroups(targets, es, e.reference);
    if e.reference in targets {
      SetGroups(targets, es, e);
    } else {
      TargetsListAll(es, e.reference);
      EmptyIfNone(OnTarget(es, e.reference));
      OnTargetSnoc(es, e, e.reference);
      SetNew(Groups(targets, es), e.reference, [e]);
      OtherGroups(targets, es, e);
      GroupsSnoc(targets, e.reference, es + [e]);
      assert OrNone(None) + [e] == [e] && OnTarget(es, e.reference) + [e] == [e];
    }
  }

  lemma OnTargetSnoc(es: seq<Event>, e: Event, r: string)
    ensures OnTarget(es + [e], r) == if r == e.reference then OnTarget(es, r) + [e] else OnTarget(es, r)
  {
    FilterSnoc(es, e, (x: Event) => x.reference == r);
  }

  lemma {:induction false} TargetsDistinct(es: seq<Event>)
    ensures forall i, j :: 0 <= i < j < |Targets(es)| ==> Targets(es)[i] != Targets(es)[j]
  {
    if es != [] { TargetsDistinct(es[..|es| - 1]); }
  }

  lemma {:induction false} TargetsListAll(es: seq<Event>, r: string)
    ensures r in Targets(es) <==> exists e :: e in es && e.reference == r
  {
    if es != [] {
      TargetsListAll(es[..|es| - 1], r);
      assert es == es[..|es| - 1] + [es[|es| - 1]];
    }
  }

  lemma {:induction false} GetGroups(targets: seq<string>, es: seq<Event>, r: string)
    ensures Get(Groups(targets, es), r) == if r in targets then Some(OnTarget(es, r)) else None
  {
    if targets != [] {
      GetGroups(targets[1..], es, r);
      assert targets == [targets[0]] + targets[1..];
    }
  }

  lemma {:induction false} OtherGroups(targets: seq<string>, es: seq<Event>, e: Event)
    requires e.reference !in targets
    ensures Groups(targets, es + [e]) == Groups(targets, es)
  {
    if targets != [] {
      OnTargetSnoc(es, e, targets[0]);
      OtherGroups(targets[1..], es, e);
    }
  }

  lemma {:induction false} SetGroups(targets: seq<string>, es: seq<Event>, e: Event)
    requires e.reference in targets && forall i, j :: 0 <= i < j < |targets| ==> targets[i] != targets[j]
    ensures Set(Groups(targets, es), e.reference, OnTarget(es, e.reference) + [e]) == Groups(targets, es + [e])
  {
    assert targets == [targets[0]] + targets[1..];
    OnTargetSnoc(es, e, targets[0]);
    if targets[0] == e.reference {
      OtherGroups(targets[1..], es, e);
    } else {
      SetGroups(targets[1..], es, e);
    }
  }

  lemma {:induction false} GroupsSnoc(targets: seq<string>, r: string, es: seq<Event>)
    ensures Groups(targets + [r], es) == Groups(targets, es) + [Entry(r, OnTarget(es, r))]
  {
    if targets == [] {
      assert targets + [r] == [r] && [r][1..] == [];
    } else {
      assert (targets + [r])[1..] == targets[1..] + [r];
      GroupsSnoc(targets[1..], r, es);
    }
  }

  lemma {:induction false} SetNew<V>(m: JsMap<string, V>, k: string, v: V)
    requires Get(m, k).None?
    ensures Set(m, k, v) == m + [Entry(k, v)]
  {
    if m != [] { SetNew(m[1..], k, v); }
  }

  method GroupReactions(events: seq<Event>) returns (byTarget: JsMap<string, seq<Event>>)
    ensures byTarget == Grouped(events)
  {
    byTarget := [];
    var i := 0;
    while i < |events|
      invariant i <= |events|
      invariant byTarget == Grouped(events[..i])
    {
      var e := events[i];
      MergeIsGrouping(events[..i], e);
      assert events[..i + 1] == events[..i] + [e];
      var list := Get(byTarget, e.reference);
      if list.Some? {
        byTarget := Set(byTarget, e.reference, list.value + [e]);
      } else {
        assert [] + [e] == [e];
        byTarget := Set(byTarget, e.reference, [e]);
      }
      i := i + 1;
    }
    assert events[..i] == events;
  }
}
