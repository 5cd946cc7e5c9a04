/** A thread's reactions as they are held in state: streamed events merged in, taps shown at once and
    cut back to what was sent. */
module ThreadReactions {
  import opened Wrappers
  import opened Lists
  import opened JsMap
  import opened Reactions

  class ReactionState {
    var byTarget: JsMap<string, seq<Event>>

    constructor (es: seq<Event>)
      ensures byTarget == Grouped(es)
    {
      byTarget := Grouped(es);
    }

    function On(target: string): seq<Event>
      reads this
    {
      OrNone(Get(byTarget, target))
    }

    /** One streamed event joins the log of the message it names. */
    method Streamed(e: Event)
      modifies this
      ensures forall r :: On(r) == old(On(r)) + if r == e.reference then [e] else []
    {
      byTarget := MergeReaction(byTarget, e);
      forall r ensures On(r) == old(On(r)) + if r == e.reference then [e] else [] {
        GetSet(old(byTarget), e.reference, old(On(e.reference)) + [e], r);
      }
    }

    method StreamedAll(es: seq<Event>)
      modifies this
      ensures forall r :: On(r) == old(On(r)) + OnTarget(es, r)
    {
      var i := 0;
      assert forall r :: OnTarget([], r) == [];
      assert es[..0] == [];
      while i < |es|
        invariant i <= |es|
        invariant forall r :: On(r) == old(On(r)) + OnTarget(es[..i], r)
      {
        forall r ensures OnTarget(es[..i + 1], r) == OnTarget(es[..i], r) + if r == es[i].reference then [es[i]] else [] {
          assert es[..i + 1] == es[..i] + [es[i]];
          OnTargetSnoc(es[..i], es[i], r);
        }
        Streamed(es[i]);
        i := i + 1;
      }
      assert es[..i] == es;
    }

    method Show(target: string, events: seq<Event>)
      modifies this
      ensures forall r :: On(r) == if r == target then events else old(On(r))
    {
      byTarget := Set(byTarget, target, events);
      forall r ensures On(r) == if r == target then events else old(On(r)) {
        GetSet(old(byTarget), target, events, r);
      }
    }

    /** Send the plan's steps in order. `arriving[i]` streams in while step `i` is being sent; the first
        send that throws cuts the target back to what it held before plus the steps sent. */
    method SendSteps(target: string, prior: seq<Event>, plan: seq<Step>, ctx: Context, fine: bool, arriving: seq<seq<Event>>)
      returns (sent: nat, ghost streamed: seq<Event>)
      requires |arriving| >= |plan|
      modifies this
      ensures sent <= |plan|
      ensures forall r :: r != target ==> On(r) == old(On(r)) + OnTarget(streamed, r)
      ensures On(target) == if sent == |plan| then old(On(target)) + OnTarget(streamed, target)
                            else ApplyReactionPlan(prior, plan, sent, ctx, fine)
    {
      sent, streamed := 0, [];
      assert forall r :: OnTarget([], r) == [];
      while sent < |plan|
        invariant sent <= |plan|
        invariant forall r :: On(r) == old(On(r)) + OnTarget(streamed, r)
      {
        StreamedAll(arriving[sent]);
        forall r ensures OnTarget(streamed + arriving[sent], r) == OnTarget(streamed, r) + OnTarget(arriving[sent], r) {
          FilterAppend(streamed, arriving[sent], (e: Event) => e.reference == r);
        }
        streamed := streamed + arriving[sent];
        var thrown: bool := *;
        if thrown {
          Show(target, ApplyReactionPlan(prior, plan, sent, ctx, fine));
          return;
        }
        sent := sent + 1;
      }
    }

    /** One tap: the whole plan is shown first, then sent. Whatever the outcome, reactions streamed onto
        other messages meanwhile are kept; a failure loses those streamed onto this one. Without a thread
        or an inbox id to react as, nothing happens. */
    method ToggleReaction(target: string, emoji: string, attached: bool, me: string, baseNs: int, fine: bool,
                          arriving: seq<seq<Event>>)
      returns (sent: nat, ghost streamed: seq<Event>)
      requires |arriving| >= 2
      modifies this
      ensures var prior := old(On(target));
              var plan := ReactionPlan(prior, Some(me), emoji);
        if !attached || me == "" then byTarget == old(byTarget)
        else
          && sent <= |plan|
          && (forall r :: r != target ==> On(r) == old(On(r)) + OnTarget(streamed, r))
          && On(target) == ApplyReactionPlan(prior, plan, sent, Context(target, me, baseNs), fine)
               + if sent == |plan| then OnTarget(streamed, target) else []
    {
      if !attached || me == "" { return 0, []; }
      var prior := On(target);
      var plan := ReactionPlan(prior, Some(me), emoji);
      var ctx := Context(target, me, baseNs);
      Show(target, ApplyReactionPlan(prior, plan, |plan|, ctx, fine));
      sent, streamed := SendSteps(target, prior, plan, ctx, fine, arriving);
    }
  }
}
