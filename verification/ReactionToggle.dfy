/** Toggles that land in part, and deliveries repeated. */
module ReactionToggle {
  import opened Wrappers
  import opened Lists
  import opened StableSort
  import opened Reactions
  import opened ReactionFold

  // ----- toggles -----

  /** The time the `k`-th step of a plan is given. */
  function Stamp(ctx: Context, fine: bool, k: nat): int
    requires k > 0
  {
    ctx.baseNs + if fine then k - 1 else 0
  }

  /** Sent by `sender` and in time order. */
  ghost predicate InOrderBy(es: seq<Event>, sender: string) {
    && (forall e :: e in es ==> e.sender == sender)
    && SortedBy(es, ByTime)
  }

  lemma {:induction false} OwnEffect(held: Option<string>, es: seq<Event>, sender: string)
    requires InOrderBy(es, sender)
    ensures Effect(held, es, sender) == HoldAll(held, Map(es, StepOf))
  {
    ByTimeIsPreorder();
    FilterAll(es, By(sender));
    SortOfSorted(es, ByTime);
  }

  lemma StepEventsInOrder(steps: seq<Step>, ctx: Context, fine: bool)
    ensures InOrderBy(StepEvents(steps, ctx, fine), ctx.sender)
    ensures Map(StepEvents(steps, ctx, fine), StepOf) == steps
    ensures forall e :: e in StepEvents(steps, ctx, fine) ==> e.sentNs >= ctx.baseNs
  {
    var es := StepEvents(steps, ctx, fine);
    var le := ByTime;
    forall i, j | 0 <= i < j < |es| ensures le(es[i], es[j]) {
      assert le(es[i], es[j]) == ByTime(es[i], es[j]);
    }
  }

  /** With the tap not before anything I did earlier, the first `applied` steps of any plan leave me holding
      what those steps make of what I held, and everyone else holding what they held. */
  lemma PartialToggle(before: seq<Event>, plan: seq<Step>, applied: int, ctx: Context, fine: bool, sender: string)
    requires forall x :: x in before && x.sender == ctx.sender ==> x.sentNs <= ctx.baseNs
    ensures HolderOf(ApplyReactionPlan(before, plan, applied, ctx, fine), sender)
         == if sender == ctx.sender then HoldAll(HolderOf(before, sender), Landed(plan, applied)) else HolderOf(before, sender)
  {
    StepEventsInOrder(Landed(plan, applied), ctx, fine);
    AppendedOwn(before, StepEvents(Landed(plan, applied), ctx, fine), ctx.sender, sender);
  }

  lemma AppendedOwn(before: seq<Event>, es: seq<Event>, me: string, sender: string)
    requires InOrderBy(es, me) && NotBefore(before, es, me)
    ensures HolderOf(before + es, sender)
         == if sender == me then HoldAll(HolderOf(before, sender), Map(es, StepOf)) else HolderOf(before, sender)
  {
    LaterEvents(before, es, sender);
    if sender == me {
      OwnEffect(HolderOf(before, me), es, me);
    } else {
      EmptyIfNone(Filter(es, By(sender)));
    }
  }

  /** The screen after a toggle of which `applied` steps landed is what the network says once exactly those
      steps are in its log, at whatever times it gave them. */
  lemma PartialToggleAgrees(before: seq<Event>, plan: seq<Step>, applied: int, ctx: Context, fine: bool,
                            network: seq<Event>, sender: string)
    requires forall x :: x in before && x.sender == ctx.sender ==> x.sentNs <= ctx.baseNs
    requires InOrderBy(network, ctx.sender) && NotBefore(before, network, ctx.sender)
    requires Map(network, StepOf) == Landed(plan, applied)
    ensures HolderOf(ApplyReactionPlan(before, plan, applied, ctx, fine), sender) == HolderOf(before + network, sender)
  {
    PartialToggle(before, plan, applied, ctx, fine, sender);
    AppendedOwn(before, network, ctx.sender, sender);
  }

  /** What a tap sends: the emoji I hold is taken back; another one takes its place, the old removed first. */
  lemma PlanMeaning(before: seq<Event>, me: Option<string>, emoji: string)
    ensures var plan := ReactionPlan(before, me, emoji);
      var held := if me == None || me == Some("") then None else HolderOf(before, me.value);
      if held == Some(emoji) then plan == [Step(emoji, Removed)]
      else if held == None || held == Some("") then plan == [Step(emoji, Added)]
      else plan == [Step(held.value, Removed), Step(emoji, Added)]
  {
  }

  /** The events a tap leaves: those before, then one for each step that landed, in order, in my name, each stamped
      a nanosecond after the one before where the clock can tell. */
  lemma LandedEvents(before: seq<Event>, plan: seq<Step>, applied: int, ctx: Context, fine: bool)
    ensures var es, n := ApplyReactionPlan(before, plan, applied, ctx, fine),
                         if applied < 0 then 0 else if applied < |plan| then applied else |plan|;
      && |es| == |before| + n && es[..|before|] == before
      && forall i :: 0 <= i < n ==>
           es[|before| + i] == Event(ctx.reference, ctx.sender, plan[i].emoji, plan[i].action,
                                     if fine then ctx.baseNs + i else ctx.baseNs)
  {
  }

  /** A whole tap gives the emoji or takes it back; a replace cut after its first step leaves nothing held. */
  lemma TapOutcome(before: seq<Event>, me: string, emoji: string)
    requires me != ""
    ensures var held, plan := HolderOf(before, me), ReactionPlan(before, Some(me), emoji);
      && HoldAll(held, plan) == (if held == Some(emoji) then None else Some(emoji))
      && (|plan| == 2 ==> held.Some? && HoldAll(held, plan[..1]) == None)
      && HoldAll(held, plan[..0]) == held
  {
    var held, plan := HolderOf(before, me), ReactionPlan(before, Some(me), emoji);
    HoldSingle(held, plan[0]);
    assert plan[..1] == [plan[0]];
    if |plan| == 2 {
      assert plan == [plan[0]] + [plan[1]];
      HoldAppend(held, [plan[0]], [plan[1]]);
      HoldSingle(HoldAll(held, [plan[0]]), plan[1]);
    } else {
      assert plan == [plan[0]];
    }
  }

  /** Tapping twice gives back what was held, unless the taps replaced something: then nothing is held. The
      second tap is not stamped before the first one's last step. */
  lemma TapTwice(before: seq<Event>, me: string, emoji: string, ctx: Context, ctx': Context, fine: bool)
    requires me != "" && ctx.sender == ctx'.sender == me
    requires forall x :: x in before && x.sender == me ==> x.sentNs <= ctx.baseNs
    requires Stamp(ctx, fine, |ReactionPlan(before, Some(me), emoji)|) <= ctx'.baseNs
    ensures var once := ApplyReactionPlan(before, ReactionPlan(before, Some(me), emoji), 2, ctx, fine);
            var twice := ApplyReactionPlan(once, ReactionPlan(once, Some(me), emoji), 2, ctx', fine);
      HolderOf(twice, me) == if HolderOf(before, me) == Some(emoji) then Some(emoji) else None
  {
    var plan := ReactionPlan(before, Some(me), emoji);
    var once := ApplyReactionPlan(before, plan, 2, ctx, fine);
    assert Landed(plan, 2) == plan;
    PartialToggle(before, plan, 2, ctx, fine, me);
    TapOutcome(before, me, emoji);
    var plan' := ReactionPlan(once, Some(me), emoji);
    assert Landed(plan', 2) == plan';
    PartialToggle(once, plan', 2, ctx', fine, me);
    TapOutcome(once, me, emoji);
  }

  // ----- repeated deliveries -----

  function UpTo(es: seq<Event>, t: int): seq<Event> {
    Filter(es, (x: Event) => x.sentNs <= t)
  }

  function After(es: seq<Event>, t: int): seq<Event> {
    Filter(es, (x: Event) => !(x.sentNs <= t))
  }

  lemma LatestIsLast(s: seq<Event>)
    requires SortedBy(s, ByTime) && s != []
    ensures forall y :: y in s ==> y.sentNs <= s[|s| - 1].sentNs
  {
    var le := ByTime;
    forall i | 0 <= i < |s| ensures s[i].sentNs <= s[|s| - 1].sentNs {
      if i < |s| - 1 { assert le(s[i], s[|s| - 1]) == ByTime(s[i], s[|s| - 1]); }
    }
  }

  lemma AllUpTo(s: seq<Event>, t: int)
    requires forall y :: y in s ==> y.sentNs <= t
    ensures UpTo(s, t) == s && After(s, t) == []
  {
    FilterAll(s, (y: Event) => y.sentNs <= t);
    EmptyIfNone(After(s, t));
  }

  lemma LaterSnoc(l: seq<Event>, x: Event, t: int)
    requires x.sentNs > t
    ensures UpTo(l + [x], t) == UpTo(l, t) && After(l + [x], t) == After(l, t) + [x]
  {
    FilterSnoc(l, x, (y: Event) => y.sentNs <= t);
    FilterSnoc(l, x, (y: Event) => !(y.sentNs <= t));
  }

  /** A sorted log is its part up to a time and its part after it. */
  lemma {:induction false} SortedSplits(s: seq<Event>, t: int)
    requires SortedBy(s, ByTime)
    ensures UpTo(s, t) + After(s, t) == s
  {
    if s == [] || s[|s| - 1].sentNs <= t {
      if s != [] { LatestIsLast(s); }
      AllUpTo(s, t);
    } else {
      SortedSplits(s[..|s| - 1], t);
      LaterSnoc(s[..|s| - 1], s[|s| - 1], t);
      assert s == s[..|s| - 1] + [s[|s| - 1]];
    }
  }

  lemma SortInParts(es: seq<Event>, t: int)
    ensures Sort(es, ByTime) == Sort(UpTo(es, t), ByTime) + Sort(After(es, t), ByTime)
  {
    ByTimeIsPreorder();
    SortIsSorted(es, ByTime);
    SortedSplits(Sort(es, ByTime), t);
    SortFilter(es, (x: Event) => x.sentNs <= t, ByTime);
    SortFilter(es, (x: Event) => !(x.sentNs <= t), ByTime);
  }

  lemma StepsConcat(a: seq<Event>, b: seq<Event>, sender: string)
    ensures StepsOf(a + b, sender) == StepsOf(a, sender) + StepsOf(b, sender)
  {
    FilterAppend(a, b, By(sender));
  }

  lemma SortedSteps(es: seq<Event>, sender: string, held: Option<string>)
    ensures HolderOf(es, sender) == HoldAll(None, StepsOf(Sort(es, ByTime), sender))
    ensures Effect(held, es, sender) == HoldAll(held, StepsOf(Sort(es, ByTime), sender))
  {
    LiveIsOwn(Sort(es, ByTime), sender);
    ByTimeIsPreorder();
    SortFilter(es, By(sender), ByTime);
  }

  /** What the sender's events after `t` make of what it held at `t`. */
  lemma HolderAt(es: seq<Event>, t: int, sender: string)
    ensures HolderOf(es, sender) == Effect(HolderOf(UpTo(es, t), sender), After(es, t), sender)
  {
    var a, b := Sort(UpTo(es, t), ByTime), Sort(After(es, t), ByTime);
    SortInParts(es, t);
    SortedSteps(es, sender, None);
    SortedSteps(UpTo(es, t), sender, None);
    SortedSteps(After(es, t), sender, HolderOf(UpTo(es, t), sender));
    StepsConcat(a, b, sender);
    HoldAppend(None, StepsOf(a, sender), StepsOf(b, sender));
  }

  lemma PartsSnoc(es: seq<Event>, e: Event)
    ensures UpTo(es + [e], e.sentNs) == UpTo(es, e.sentNs) + [e]
    ensures After(es + [e], e.sentNs) == After(es, e.sentNs)
  {
    var t := e.sentNs;
    FilterSnoc(es, e, (x: Event) => x.sentNs <= t);
    FilterSnoc(es, e, (x: Event) => !(x.sentNs <= t));
  }

  lemma HolderWithOneMore(upTo: seq<Event>, e: Event, sender: string)
    requires forall x :: x in upTo ==> x.sentNs <= e.sentNs
    ensures HolderOf(upTo + [e], sender)
         == if sender == e.sender then HoldOne(HolderOf(upTo, sender), StepOf(e)) else HolderOf(upTo, sender)
  {
    OneInOrder(e);
    AppendedOwn(upTo, [e], e.sender, sender);
    HoldSingle(HolderOf(upTo, sender), StepOf(e));
    assert Map([e], StepOf) == [StepOf(e)];
  }

  /** One more delivery of an event takes effect where its time puts it, after its equals. */
  lemma RedeliveredHolder(es: seq<Event>, e: Event, sender: string)
    ensures HolderOf(es + [e], sender)
         == if sender == e.sender
            then Effect(HoldOne(HolderOf(UpTo(es, e.sentNs), sender), StepOf(e)), After(es, e.sentNs), sender)
            else HolderOf(es, sender)
  {
    PartsSnoc(es, e);
    HolderAt(es, e.sentNs, sender);
    HolderAt(es + [e], e.sentNs, sender);
    HolderWithOneMore(UpTo(es, e.sentNs), e, sender);
  }

  lemma OneInOrder(e: Event)
    ensures InOrderBy([e], e.sender)
  {
  }

  /** What the sender did after time `t`. */
  function StepsAfter(es: seq<Event>, t: int, sender: string): Tail {
    TailOf(Map(Sort(Filter(After(es, t), By(sender)), ByTime), StepOf))
  }

  /** Whatever held at the time is gone at the end. */
  predicate Gone(held: Option<string>, later: Tail) {
    held.None? || held.value in later.removed
  }

  /** A repeated delivery changes nothing exactly when it changes nothing at its own time, or what it
      changes is overtaken: by a later `added`, or by removals of both emoji in question. */
  lemma RedeliveryIsIdempotentIff(es: seq<Event>, e: Event)
    ensures var held, later := HolderOf(UpTo(es, e.sentNs), e.sender), StepsAfter(es, e.sentNs, e.sender);
            var again := HoldOne(held, StepOf(e));
      (forall sender :: HolderOf(es + [e], sender) == HolderOf(es, sender))
        <==> (again == held || later.add.Some? || (Gone(held, later) && Gone(again, later)))
  {
    var held := HolderOf(UpTo(es, e.sentNs), e.sender);
    var steps := Map(Sort(Filter(After(es, e.sentNs), By(e.sender)), ByTime), StepOf);
    forall sender ensures sender != e.sender ==> HolderOf(es + [e], sender) == HolderOf(es, sender) {
      RedeliveredHolder(es, e, sender);
    }
    RedeliveredHolder(es, e, e.sender);
    HolderAt(es, e.sentNs, e.sender);
    HoldByTail(held, steps);
    HoldByTail(HoldOne(held, StepOf(e)), steps);
  }

  /** A repeat is harmless when its sender did nothing else at that very time. */
  lemma LoneRedelivery(es: seq<Event>, e: Event, sender: string)
    requires e in es && forall x :: x in es && x.sender == e.sender && x.sentNs == e.sentNs ==> x == e
    ensures HolderOf(es + [e], sender) == HolderOf(es, sender)
  {
    RedeliveryIsIdempotentIff(es, e);
    LastAtTime(es, e);
  }

  /** At its own time, such an event has just had its say. */
  lemma LastAtTime(es: seq<Event>, e: Event)
    requires e in es && forall x :: x in es && x.sender == e.sender && x.sentNs == e.sentNs ==> x == e
    ensures HoldOne(HolderOf(UpTo(es, e.sentNs), e.sender), StepOf(e)) == HolderOf(UpTo(es, e.sentNs), e.sender)
  {
    var mine := Filter(UpTo(es, e.sentNs), By(e.sender));
    var own := Sort(mine, ByTime);
    HolderIsOwn(UpTo(es, e.sentNs), e.sender);
    SortKeepsElements(mine, ByTime);
    ByTimeIsPreorder();
    SortIsSorted(mine, ByTime);
    assert e in own;
    LatestIsLast(own);
    assert own[|own| - 1] in own;
    HeldAfterLast(own);
  }

  lemma HeldAfterLast(own: seq<Event>)
    requires own != []
    ensures var held := HoldAll(None, Map(own, StepOf)); HoldOne(held, StepOf(own[|own| - 1])) == held
  {
    var steps := Map(own, StepOf);
    assert steps[|steps| - 1] == StepOf(own[|own| - 1]);
  }

  /** A log of one sender in time order is held as it reads. */
  lemma OwnLog(es: seq<Event>, sender: string)
    requires InOrderBy(es, sender)
    ensures HolderOf(es, sender) == HoldAll(None, Map(es, StepOf))
  {
    HolderIsOwn(es, sender);
    OwnEffect(None, es, sender);
  }

  lemma ThreeSteps(a: Step, b: Step, c: Step)
    ensures HoldAll(None, [a, b]) == HoldOne(HoldOne(None, a), b)
    ensures HoldAll(None, [a, b, c]) == HoldOne(HoldOne(HoldOne(None, a), b), c)
  {
    HoldSingle(None, a);
    assert [a, b][..1] == [a] && [a, b, c][..2] == [a, b];
  }

  /** Two events of one sender at one time: repeating the first brings back what the second took away. */
  lemma RedeliveryAtATieIsNot(t: int)
    ensures var add, remove := Event("m", "s", "x", Added, t), Event("m", "s", "x", Removed, t);
      HolderOf([add, remove], "s") == None && HolderOf([add, remove] + [add], "s") == Some("x")
  {
    var add, remove := Event("m", "s", "x", Added, t), Event("m", "s", "x", Removed, t);
    OwnLog([add, remove], "s");
    OwnLog([add, remove] + [add], "s");
    ThreeSteps(StepOf(add), StepOf(remove), StepOf(add));
    assert Map([add, remove], StepOf) == [StepOf(add), StepOf(remove)];
    assert Map([add, remove] + [add], StepOf) == [StepOf(add), StepOf(remove), StepOf(add)];
  }

  /** Two logs in which a sender did the same after time `t` leave it holding the same exactly when it held the
      same at `t`, or what it held is overtaken: by a later `added`, or by removals of both emoji. */
  lemma HoldersMeetIff(es: seq<Event>, es': seq<Event>, t: int, sender: string)
    requires Filter(After(es, t), By(sender)) == Filter(After(es', t), By(sender))
    ensures var held, held', later := HolderOf(UpTo(es, t), sender), HolderOf(UpTo(es', t), sender), StepsAfter(es, t, sender);
      (HolderOf(es, sender) == HolderOf(es', sender))
        <==> (held == held' || later.add.Some? || (Gone(held, later) && Gone(held', later)))
  {
    HolderAt(es, t, sender);
    HolderAt(es', t, sender);
    EffectByTail(HolderOf(UpTo(es, t), sender), es, t, sender);
    EffectByTail(HolderOf(UpTo(es', t), sender), es', t, sender);
  }

  // ----- taps behind the clock -----

  lemma TapOnOthers(before: seq<Event>, plan: seq<Step>, applied: int, ctx: Context, fine: bool, sender: string)
    requires sender != ctx.sender
    ensures HolderOf(ApplyReactionPlan(before, plan, applied, ctx, fine), sender) == HolderOf(before, sender)
  {
    var es := StepEvents(Landed(plan, applied), ctx, fine);
    LaterEvents(before, es, sender);
    EmptyIfNone(Filter(es, By(sender)));
  }

  /** Appending events of which the last is the latest, none after time `t`. */
  lemma AppendedUpTo(before: seq<Event>, es: seq<Event>, e: Event)
    requires forall x :: x in es ==> x.sentNs <= e.sentNs
    ensures HolderOf(before + (es + [e]), e.sender)
         == Effect(HoldOne(HolderOf(UpTo(before, e.sentNs) + es, e.sender), StepOf(e)), After(before, e.sentNs), e.sender)
  {
    var t := e.sentNs;
    HolderAt(before + es + [e], t, e.sender);
    assert before + (es + [e]) == before + es + [e];
    PartsSnoc(before + es, e);
    FilterAppend(before, es, (x: Event) => x.sentNs <= t);
    FilterAppend(before, es, (x: Event) => !(x.sentNs <= t));
    FilterAll(es, (x: Event) => x.sentNs <= t);
    EmptyIfNone(After(es, t));
    assert UpTo(before + es, t) == UpTo(before, t) + es && After(before + es, t) == After(before, t);
    HolderWithOneMore(UpTo(before, t) + es, e, e.sender);
  }

  lemma EffectByTail(held: Option<string>, es: seq<Event>, t: int, sender: string)
    ensures Effect(held, After(es, t), sender)
         == var later := StepsAfter(es, t, sender);
            var taken := if later.add.Some? then later.add else held;
            if taken.Some? && taken.value in later.removed then None else taken
  {
    HoldByTail(held, Map(Sort(Filter(After(es, t), By(sender)), ByTime), StepOf));
  }

  /** The `k`-th step of the plan a tap makes: a removal is the first and of what is held, and what an
      addition takes up is not held already. */
  lemma PlanStep(before: seq<Event>, me: string, emoji: string, k: nat)
    requires me != "" && 1 <= k <= |ReactionPlan(before, Some(me), emoji)|
    ensures var held, plan := HolderOf(before, me), ReactionPlan(before, Some(me), emoji);
      && (plan[k - 1].action == Removed ==> k == 1 && held == Some(plan[k - 1].emoji) && HoldAll(held, plan[..k]) == None)
      && (plan[k - 1].action == Added ==> held != Some(plan[k - 1].emoji) && HoldAll(held, plan[..k]) == Some(plan[k - 1].emoji))
  {
    var held, plan := HolderOf(before, me), ReactionPlan(before, Some(me), emoji);
    assert plan[..k] == plan[..k - 1] + [plan[k - 1]];
    HoldAppend(held, plan[..k - 1], [plan[k - 1]]);
    HoldSingle(HoldAll(held, plan[..k - 1]), plan[k - 1]);
  }

  /** What I hold once the `k`-th step of a tap, stamped `t`, is the last of the tap's: the steps' outcome, unless
      overruled by what I did stamped later. */
  function Outcome(before: seq<Event>, me: string, emoji: string, k: nat, t: int): Option<string>
    requires 1 <= k <= |ReactionPlan(before, Some(me), emoji)|
  {
    var held, plan, later := HolderOf(before, me), ReactionPlan(before, Some(me), emoji), StepsAfter(before, t, me);
    if later.add.Some? then held else if plan[k - 1].emoji in later.removed then None else HoldAll(held, plan[..k])
  }

  /** Of a list that ends with a tap's last step and holds nothing stamped after it, that step decides. `es` is
      whatever of the tap comes before: for a removal, at most a copy of it. */
  lemma LastStepDecides(before: seq<Event>, me: string, emoji: string, k: nat, es: seq<Event>, e: Event)
    requires me != "" && 1 <= k <= |ReactionPlan(before, Some(me), emoji)|
    requires e.sender == me && StepOf(e) == ReactionPlan(before, Some(me), emoji)[k - 1]
    requires forall x :: x in es ==> x.sentNs <= e.sentNs
    requires e.action == Removed ==> es == [] || (|es| == 1 && es[0].sender == me && StepOf(es[0]) == StepOf(e))
    ensures HolderOf(before + (es + [e]), me) == Outcome(before, me, emoji, k, e.sentNs)
  {
    var t := e.sentNs;
    var atTime := HolderOf(UpTo(before, t), me);
    AppendedUpTo(before, es, e);
    HolderAt(before, t, me);
    PlanStep(before, me, emoji, k);
    EffectByTail(atTime, before, t, me);
    EffectByTail(HoldOne(HolderOf(UpTo(before, t) + es, me), StepOf(e)), before, t, me);
    if e.action == Removed {
      if es == [] { assert UpTo(before, t) + es == UpTo(before, t); } else { RemovedOnce(UpTo(before, t), es[0]); }
    }
  }

  /** A removal of what is held leaves it held, if it comes too early, or nothing. */
  lemma RemovedOnce(before: seq<Event>, e: Event)
    requires e.action == Removed
    ensures HolderOf(before, e.sender) == Some(e.emoji) ==>
      HolderOf(before + [e], e.sender) == None || HolderOf(before + [e], e.sender) == Some(e.emoji)
  {
    RedeliveredHolder(before, e, e.sender);
    HolderAt(before, e.sentNs, e.sender);
    EffectByTail(HolderOf(UpTo(before, e.sentNs), e.sender), before, e.sentNs, e.sender);
    EffectByTail(HoldOne(HolderOf(UpTo(before, e.sentNs), e.sender), StepOf(e)), before, e.sentNs, e.sender);
  }

  /** A tap's steps, at whatever times in order. */
  lemma StampedTap(before: seq<Event>, me: string, emoji: string, k: nat, es: seq<Event>)
    requires IsTap(before, me, emoji, k, es)
    ensures HolderOf(before + es, me) == Outcome(before, me, emoji, k, es[k - 1].sentNs)
  {
    TapEnds(before, me, emoji, k, es);
    LastStepDecides(before, me, emoji, k, es[..k - 1], es[k - 1]);
  }

  lemma LastInOrder(es: seq<Event>, me: string)
    requires InOrderBy(es, me) && es != []
    ensures forall x :: x in es ==> x.sentNs <= es[|es| - 1].sentNs
    ensures Map(es, StepOf)[|es| - 1] == StepOf(es[|es| - 1]) && es[|es| - 1].sender == me
  {
    LatestIsLast(es);
    assert es[|es| - 1] in es;
  }

  /** Events stamped before one can be listed before it. */
  lemma ListedEarlier(a: seq<Event>, e: Event, es: seq<Event>, sender: string)
    requires forall x :: x in es ==> x.sentNs < e.sentNs
    ensures HolderOf(a + [e] + es, sender) == HolderOf(a + es + [e], sender)
  {
    var t := e.sentNs - 1;
    EarlierParts(a, es, t);
    LaterSnoc(a, e, t);
    LaterSnoc(a + es, e, t);
    EarlierParts(a + [e], es, t);
    HolderAt(a + [e] + es, t, sender);
    HolderAt(a + es + [e], t, sender);
  }

  lemma EarlierParts(a: seq<Event>, es: seq<Event>, t: int)
    requires forall x :: x in es ==> x.sentNs <= t
    ensures UpTo(a + es, t) == UpTo(a, t) + es && After(a + es, t) == After(a, t)
  {
    FilterAppend(a, es, (x: Event) => x.sentNs <= t);
    FilterAppend(a, es, (x: Event) => !(x.sentNs <= t));
    AllUpTo(es, t);
  }

  /** `es` are the first `k` steps of the tap on `emoji`, mine, in time order. */
  ghost predicate IsTap(before: seq<Event>, me: string, emoji: string, k: nat, es: seq<Event>) {
    && me != "" && 1 <= k <= |ReactionPlan(before, Some(me), emoji)|
    && InOrderBy(es, me) && Map(es, StepOf) == ReactionPlan(before, Some(me), emoji)[..k]
  }

  lemma TapEnds(before: seq<Event>, me: string, emoji: string, k: nat, es: seq<Event>)
    requires IsTap(before, me, emoji, k, es)
    ensures |es| == k && es == es[..k - 1] + [es[k - 1]] && es[k - 1].sender == me
    ensures StepOf(es[k - 1]) == ReactionPlan(before, Some(me), emoji)[k - 1]
    ensures es[k - 1].action == Removed ==> k == 1 && es == [es[0]]
    ensures forall x :: x in es ==> x.sentNs <= es[k - 1].sentNs
  {
    assert |Map(es, StepOf)| == |es|;
    LastInOrder(es, me);
    PlanStep(before, me, emoji, k);
  }

  lemma SecondDecides(before: seq<Event>, me: string, emoji: string, k: nat, first: seq<Event>, second: seq<Event>)
    requires IsTap(before, me, emoji, k, first) && IsTap(before, me, emoji, k, second)
    requires first[k - 1].sentNs <= second[k - 1].sentNs
    ensures HolderOf(before + (first + second), me) == Outcome(before, me, emoji, k, second[k - 1].sentNs)
  {
    TapEnds(before, me, emoji, k, first);
    TapEnds(before, me, emoji, k, second);
    var front, e := second[..k - 1], second[k - 1];
    if e.action == Removed { assert first + front == first && StepOf(first[0]) == StepOf(e); }
    forall x | x in first + front ensures x.sentNs <= e.sentNs { assert x in first || x in second; }
    LastStepDecides(before, me, emoji, k, first + front, e);
    assert first + second == first + front + [e];
  }

  lemma FirstDecides(before: seq<Event>, me: string, emoji: string, k: nat, first: seq<Event>, second: seq<Event>)
    requires IsTap(before, me, emoji, k, first) && IsTap(before, me, emoji, k, second)
    requires first[k - 1].sentNs > second[k - 1].sentNs
    ensures HolderOf(before + (first + second), me) == Outcome(before, me, emoji, k, first[k - 1].sentNs)
  {
    TapEnds(before, me, emoji, k, first);
    TapEnds(before, me, emoji, k, second);
    var front, e := first[..k - 1], first[k - 1];
    if e.action == Removed { assert front + second == second && StepOf(second[0]) == StepOf(e); }
    forall x | x in front + second ensures x.sentNs <= e.sentNs { assert x in first || x in second; }
    LastStepDecides(before, me, emoji, k, front + second, e);
    MovedLast(before, front, e, second, me);
    assert first + second == front + [e] + second;
  }

  lemma MovedLast(before: seq<Event>, front: seq<Event>, e: Event, es: seq<Event>, sender: string)
    requires forall x :: x in es ==> x.sentNs < e.sentNs
    ensures HolderOf(before + (front + [e] + es), sender) == HolderOf(before + (front + es + [e]), sender)
  {
    ListedEarlier(before + front, e, es, sender);
    assert before + (front + [e] + es) == before + front + [e] + es;
    assert before + (front + es + [e]) == before + front + es + [e];
  }

  /** The same tap twice over, as shown and as echoed: the later of the two last steps decides. */
  lemma DoubledTap(before: seq<Event>, me: string, emoji: string, k: nat, shown: seq<Event>, echoes: seq<Event>)
    requires IsTap(before, me, emoji, k, shown) && IsTap(before, me, emoji, k, echoes)
    ensures HolderOf(before + (shown + echoes), me)
         == Outcome(before, me, emoji, k, Later(shown[k - 1].sentNs, echoes[k - 1].sentNs))
  {
    if shown[k - 1].sentNs <= echoes[k - 1].sentNs {
      SecondDecides(before, me, emoji, k, shown, echoes);
    } else {
      FirstDecides(before, me, emoji, k, shown, echoes);
    }
  }

  function Later(a: int, b: int): int {
    if a <= b then b else a
  }

  /** What everyone holds after any number of steps of a tap, whatever the clock: I hold the steps' outcome,
      unless I did something stamped later than the last of them, a later `added` making the tap count for
      nothing, a later `removed` of the same emoji leaving nothing held; and nobody else is moved. */
  lemma TapHolder(before: seq<Event>, me: string, emoji: string, ctx: Context, fine: bool, k: nat)
    requires me != "" && ctx.sender == me && 1 <= k <= |ReactionPlan(before, Some(me), emoji)|
    ensures var held, plan := HolderOf(before, me), ReactionPlan(before, Some(me), emoji);
            var later := StepsAfter(before, Stamp(ctx, fine, k), me);
      && HolderOf(ApplyReactionPlan(before, plan, k, ctx, fine), me)
           == (if later.add.Some? then held
               else if plan[k - 1].emoji in later.removed then None
               else HoldAll(held, plan[..k]))
      && (forall other :: other != me ==>
            HolderOf(ApplyReactionPlan(before, plan, k, ctx, fine), other) == HolderOf(before, other))
  {
    var plan := ReactionPlan(before, Some(me), emoji);
    forall other | other != me
      ensures HolderOf(ApplyReactionPlan(before, plan, k, ctx, fine), other) == HolderOf(before, other)
    {
      TapOnOthers(before, plan, k, ctx, fine, other);
    }
    PlannedTap(before, me, emoji, ctx, fine, k);
  }

  lemma PlannedTap(before: seq<Event>, me: string, emoji: string, ctx: Context, fine: bool, k: nat)
    requires me != "" && ctx.sender == me && 1 <= k <= |ReactionPlan(before, Some(me), emoji)|
    ensures HolderOf(ApplyReactionPlan(before, ReactionPlan(before, Some(me), emoji), k, ctx, fine), me)
         == Outcome(before, me, emoji, k, Stamp(ctx, fine, k))
  {
    PlanIsTap(before, me, emoji, ctx, fine, k);
    StampedTap(before, me, emoji, k, StepEvents(Landed(ReactionPlan(before, Some(me), emoji), k), ctx, fine));
  }

  lemma PlanIsTap(before: seq<Event>, me: string, emoji: string, ctx: Context, fine: bool, k: nat)
    requires me != "" && ctx.sender == me && 1 <= k <= |ReactionPlan(before, Some(me), emoji)|
    ensures var es := StepEvents(Landed(ReactionPlan(before, Some(me), emoji), k), ctx, fine);
      IsTap(before, me, emoji, k, es) && es[k - 1].sentNs == Stamp(ctx, fine, k)
  {
    StepEventsInOrder(ReactionPlan(before, Some(me), emoji)[..k], ctx, fine);
  }

  /** A tap, whole or cut short, shows its outcome if and only if nothing of mine stamped later than its last
      step adds anything or removes that step's emoji. */
  lemma TapTakesEffectIff(before: seq<Event>, me: string, emoji: string, ctx: Context, fine: bool, k: nat)
    requires me != "" && ctx.sender == me && 1 <= k <= |ReactionPlan(before, Some(me), emoji)|
    ensures var held, plan := HolderOf(before, me), ReactionPlan(before, Some(me), emoji);
            var later := StepsAfter(before, Stamp(ctx, fine, k), me);
      (HolderOf(ApplyReactionPlan(before, plan, k, ctx, fine), me) == HoldAll(held, plan[..k]))
        <==> (later.add.None? && plan[k - 1].emoji !in later.removed)
  {
    var t := Stamp(ctx, fine, k);
    TapHolder(before, me, emoji, ctx, fine, k);
    PlanStep(before, me, emoji, k);
    HolderAt(before, t, me);
    EffectByTail(HolderOf(UpTo(before, t), me), before, t, me);
  }

  /** A device whose clock is behind my other device's: the tap shows nothing. */
  lemma TapBehindTheClockIsLost(t: int)
    ensures var before := [Event("m", "me", "x", Added, t + 10)];
            var after := ApplyReactionPlan(before, ReactionPlan(before, Some("me"), "y"), 2, Context("m", "me", t), true);
      HolderOf(before, "me") == Some("x") && HolderOf(after, "me") == Some("x")
  {
    var before := [Event("m", "me", "x", Added, t + 10)];
    assert LastWord(before, "me", "x", 0);
    HolderMeaning(before, "me", "x");
    assert |ReactionPlan(before, Some("me"), "y")| == 2;
    LoneStepAfter(before[0], t + 1);
    TapHolder(before, "me", "y", Context("m", "me", t), true, 2);
  }

  lemma LoneStepAfter(e: Event, t: int)
    requires e.sentNs > t
    ensures StepsAfter([e], t, e.sender) == TailOf([StepOf(e)])
  {
    FilterOne(e, (x: Event) => !(x.sentNs <= t));
    FilterOne(e, By(e.sender));
    assert After([e], t) == [e] && Filter([e], By(e.sender)) == [e];
    ByTimeIsPreorder();
    SortOfSorted([e], ByTime);
    assert Map([e], StepOf) == [StepOf(e)];
  }
}
