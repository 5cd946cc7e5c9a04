/** Taps on one message that overlap: each remembers the log it started from, and a failing one puts that log
    back with its own sent steps, whatever joined it meanwhile. */
module ReactionTaps {
  import opened Wrappers
  import opened Runs
  import opened Reactions
  import opened ReactionFold
  import opened ReactionToggle

  /** A tap being sent, or done: the log it started from, its plan, and the steps sent so far. */
  datatype Tap = Tap(prior: seq<Event>, plan: seq<Step>, ctx: Context, sent: nat, running: bool)

  /** The message's log as shown, and the taps on it; `fine` as for `StepEvents`. */
  datatype Screen = Screen(log: seq<Event>, taps: seq<Tap>, fine: bool)

  datatype TapEvent =
    | Tapped(emoji: string, ctx: Context)
    | StepSent(tap: nat)
    | StepThrew(tap: nat)
    | Arrived(event: Event)

  predicate IsSending(s: Screen, i: nat) {
    i < |s.taps| && s.taps[i].running && s.taps[i].sent < |s.taps[i].plan|
  }

  predicate CanHappen(s: Screen, e: TapEvent) {
    match e
    case Tapped(_, ctx) => ctx.sender != ""
    case StepSent(i) => IsSending(s, i)
    case StepThrew(i) => IsSending(s, i)
    case Arrived(_) => true
  }

  function Next(s: Screen, e: TapEvent): Screen
    requires CanHappen(s, e)
  {
    match e
    case Tapped(emoji, ctx) =>
      var plan := ReactionPlan(s.log, Some(ctx.sender), emoji);
      s.(log := ApplyReactionPlan(s.log, plan, |plan|, ctx, s.fine), taps := s.taps + [Tap(s.log, plan, ctx, 0, true)])
    case StepSent(i) => s.(taps := s.taps[i := s.taps[i].(sent := s.taps[i].sent + 1)])
    case StepThrew(i) =>
      var tap := s.taps[i];
      s.(log := ApplyReactionPlan(tap.prior, tap.plan, tap.sent, tap.ctx, s.fine), taps := s.taps[i := tap.(running := false)])
    case Arrived(e) => s.(log := s.log + [e])
  }

  ghost predicate TapStep(s: Screen, e: TapEvent, t: Screen) {
    CanHappen(s, e) && t == Next(s, e)
  }

  /** The steps tap `i` sends in `es`. */
  function StepsSent(es: seq<TapEvent>, i: nat): nat {
    if es == [] then 0 else (if es[0] == StepSent(i) then 1 else 0) + StepsSent(es[1..], i)
  }

  /** A tap keeps what it started from, whatever else happens, and counts its own steps. */
  lemma {:induction false} TapRemembers(s: Screen, es: seq<TapEvent>, t: Screen, i: nat)
    requires Run(TapStep, s, es, t) && i < |s.taps|
    ensures t.fine == s.fine && i < |t.taps|
    ensures t.taps[i].prior == s.taps[i].prior && t.taps[i].plan == s.taps[i].plan && t.taps[i].ctx == s.taps[i].ctx
    ensures t.taps[i].sent == s.taps[i].sent + StepsSent(es, i)
    decreases |es|
  {
    if es != [] {
      var m :| TapStep(s, es[0], m) && Run(TapStep, m, es[1..], t);
      TapRemembers(m, es[1..], t, i);
    }
  }

  /** Until some tap fails, the log only grows. */
  lemma {:induction false} LogGrows(s: Screen, es: seq<TapEvent>, t: Screen)
    requires Run(TapStep, s, es, t) && forall e :: e in es ==> !e.StepThrew?
    ensures s.log <= t.log
    decreases |es|
  {
    if es != [] {
      var m :| TapStep(s, es[0], m) && Run(TapStep, m, es[1..], t);
      assert es[0] in es;
      LogGrows(m, es[1..], t);
    }
  }

  function PlanOf(s: Screen, emoji: string, ctx: Context): seq<Step> {
    ReactionPlan(s.log, Some(ctx.sender), emoji)
  }

  lemma TapTaken(s: Screen, emoji: string, ctx: Context, es: seq<TapEvent>, t: Screen)
    requires Run(TapStep, s, [Tapped(emoji, ctx)] + es, t)
    ensures CanHappen(s, Tapped(emoji, ctx)) && Run(TapStep, Next(s, Tapped(emoji, ctx)), es, t)
  {
    assert ([Tapped(emoji, ctx)] + es)[1..] == es;
  }

  /** A tap that throws leaves the log it started from and the steps it sent, and nothing else: not what
      streamed in meanwhile, and not what another tap showed, sent or not. */
  lemma FailureLosesAllSince(s: Screen, emoji: string, ctx: Context, es: seq<TapEvent>, u: Screen)
    requires Run(TapStep, s, [Tapped(emoji, ctx)] + es, u) && CanHappen(u, StepThrew(|s.taps|))
    ensures Next(u, StepThrew(|s.taps|)).log
         == ApplyReactionPlan(s.log, PlanOf(s, emoji, ctx), StepsSent(es, |s.taps|), ctx, s.fine)
  {
    TapTaken(s, emoji, ctx, es, u);
    TapRemembers(Next(s, Tapped(emoji, ctx)), es, u, |s.taps|);
  }

  /** What is lost is everything past those steps: the steps not sent, and all that joined since. */
  lemma WhatAFailureLoses(s: Screen, emoji: string, ctx: Context, es: seq<TapEvent>, u: Screen)
    requires Run(TapStep, s, [Tapped(emoji, ctx)] + es, u) && CanHappen(u, StepThrew(|s.taps|))
    requires forall e :: e in es ==> !e.StepThrew?
    ensures var plan := PlanOf(s, emoji, ctx);
      && Next(u, StepThrew(|s.taps|)).log < ApplyReactionPlan(s.log, plan, |plan|, ctx, s.fine) <= u.log
  {
    TapTaken(s, emoji, ctx, es, u);
    var tapped := Next(s, Tapped(emoji, ctx));
    TapRemembers(tapped, es, u, |s.taps|);
    LogGrows(tapped, es, u);
    StepsArePrefix(PlanOf(s, emoji, ctx), StepsSent(es, |s.taps|), ctx, s.fine);
  }

  lemma StepsArePrefix(plan: seq<Step>, k: nat, ctx: Context, fine: bool)
    requires k < |plan|
    ensures StepEvents(Landed(plan, k), ctx, fine) < StepEvents(Landed(plan, |plan|), ctx, fine)
  {
  }

  /** A second tap, started while the first was shown, brings the first one's whole plan back when it fails:
      also the steps that were never sent, also when the first has failed and taken them back. */
  lemma FailedStepsComeBack(s: Screen, emoji: string, ctx: Context, es: seq<TapEvent>, m: Screen,
                            emoji': string, ctx': Context, es': seq<TapEvent>, u: Screen)
    requires Run(TapStep, s, [Tapped(emoji, ctx)] + es, m) && forall e :: e in es ==> !e.StepThrew?
    requires Run(TapStep, m, [Tapped(emoji', ctx')] + es', u) && CanHappen(u, StepThrew(|m.taps|))
    ensures var plan := PlanOf(s, emoji, ctx);
      ApplyReactionPlan(s.log, plan, |plan|, ctx, s.fine) <= Next(u, StepThrew(|m.taps|)).log
  {
    TapTaken(s, emoji, ctx, es, m);
    LogGrows(Next(s, Tapped(emoji, ctx)), es, m);
    FailureLosesAllSince(m, emoji', ctx', es', u);
  }

  /** The second of two taps goes through whole and is shown nowhere: the first one's failure took it away. */
  lemma SecondTapVanishes(ctx: Context, later: Context, fine: bool) returns (es: seq<TapEvent>, s: Screen)
    requires ctx.sender != "" && later.sender == ctx.sender
    ensures Run(TapStep, Screen([], [], fine), es, s)
    ensures |s.taps| == 2 && s.taps[1].sent == |s.taps[1].plan| == 2 && s.taps[1].plan[1] == Step("y", Added)
    ensures s.log == []
  {
    var start, first := Screen([], [], fine), AfterFirst(ctx, fine);
    FirstTapped(ctx, fine);
    SecondTapped(ctx, later, fine);
    es, s := More(start, [], start, Tapped("x", ctx));
    es, s := More(start, es, first, Tapped("y", later));
    es, s := FirstThrowsSecondSends(start, es, s, first.taps[0],
                                    Tap([FirstEvent(ctx)], [Step("x", Removed), Step("y", Added)], later, 0, true));
  }

  lemma FirstThrowsSecondSends(start: Screen, es: seq<TapEvent>, s: Screen, a: Tap, b: Tap)
    returns (fs: seq<TapEvent>, t: Screen)
    requires Run(TapStep, start, es, s) && s.taps == [a, b] && a.prior == [] && a.sent == 0 < |a.plan| && a.running
    requires b.sent == 0 && |b.plan| == 2 && b.running
    ensures Run(TapStep, start, fs, t) && t.log == [] && t.taps == [a.(running := false), b.(sent := 2)]
  {
    fs, t := More(start, es, s, StepThrew(0));
    assert t.log == [] && t.taps == [a.(running := false), b];
    fs, t := More(start, fs, t, StepSent(1));
    assert t.log == [] && t.taps == [a.(running := false), b.(sent := 1)];
    fs, t := More(start, fs, t, StepSent(1));
  }

  lemma More(start: Screen, es: seq<TapEvent>, s: Screen, e: TapEvent) returns (fs: seq<TapEvent>, t: Screen)
    requires Run(TapStep, start, es, s) && CanHappen(s, e)
    ensures t == Next(s, e) && fs == es + [e] && Run(TapStep, start, fs, t)
  {
    fs, t := es + [e], Next(s, e);
    RunSnoc(TapStep, start, es, s, e, t);
  }

  function FirstEvent(ctx: Context): Event {
    Event(ctx.reference, ctx.sender, "x", Added, ctx.baseNs)
  }

  function AfterFirst(ctx: Context, fine: bool): Screen {
    Screen([FirstEvent(ctx)], [Tap([], [Step("x", Added)], ctx, 0, true)], fine)
  }

  lemma FirstTapped(ctx: Context, fine: bool)
    requires ctx.sender != ""
    ensures Next(Screen([], [], fine), Tapped("x", ctx)) == AfterFirst(ctx, fine)
  {
    FirstIsHeld(ctx, fine);
  }

  lemma SecondTapped(ctx: Context, later: Context, fine: bool)
    requires ctx.sender != "" && later.sender == ctx.sender
    ensures var s := Next(AfterFirst(ctx, fine), Tapped("y", later));
      && s.fine == fine
      && s.taps == AfterFirst(ctx, fine).taps + [Tap([FirstEvent(ctx)], [Step("x", Removed), Step("y", Added)], later, 0, true)]
  {
    FirstIsHeld(ctx, fine);
  }

  lemma FirstIsHeld(ctx: Context, fine: bool)
    requires ctx.sender != ""
    ensures ReactionPlan([], Some(ctx.sender), "x") == [Step("x", Added)]
    ensures ApplyReactionPlan([], [Step("x", Added)], 1, ctx, fine) == [Event(ctx.reference, ctx.sender, "x", Added, ctx.baseNs)]
    ensures ReactionPlan([Event(ctx.reference, ctx.sender, "x", Added, ctx.baseNs)], Some(ctx.sender), "y")
         == [Step("x", Removed), Step("y", Added)]
  {
    var e := Event(ctx.reference, ctx.sender, "x", Added, ctx.baseNs);
    NothingHeld(ctx.sender, "x");
    assert LastWord([e], ctx.sender, "x", 0);
    HolderMeaning([e], ctx.sender, "x");
  }

  lemma NothingHeld(me: string, emoji: string)
    requires me != ""
    ensures ReactionPlan([], Some(me), emoji) == [Step(emoji, Added)]
  {
    OwnLog([], me);
  }
}
