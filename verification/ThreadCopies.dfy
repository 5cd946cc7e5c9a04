/** How many copies of a send the SDK is ever given: one, unless a history marked the message as given up, or its
    failed bubble was retried in a thread that could not have it published from where the SDK holds it. */
module ThreadCopies {
  import opened Wrappers
  import opened FiniteSets
  import opened Runs
  import opened DeliveryState
  import opened ThreadProtocol
  import opened ThreadInvariant
  import opened ThreadFailures
  import opened ThreadTheorems
  import opened ThreadGivenUp

  // ----- what a copy is -----

  /** Message `y` sends again what the stored message `z` says. */
  ghost predicate SendsAgain(log: seq<Msg>, y: nat, z: nat)
    requires y < |log| && z < |log|
  {
    log[y].origin.Again? && log[z].netId == Some(log[y].origin.oldId)
  }

  /** Message `y` is `x`, or sends it again, or sends again what sends it again, and so on. */
  ghost predicate CopyOf(log: seq<Msg>, y: nat, x: nat)
    requires y < |log|
  {
    y == x || exists z: nat :: z < y && SendsAgain(log, y, z) && CopyOf(log, z, x)
  }

  /** The copies of `x` the SDK was given to store. */
  ghost function Copies(log: seq<Msg>, x: nat): set<nat> {
    set y | y in Below(|log|) && log[y].netId.Some? && CopyOf(log, y, x)
  }

  // ----- every second send is traced -----

  ghost predicate Follows(log: seq<Msg>, y: nat)
    requires y < |log|
  {
    exists z: nat :: z < y && SendsAgain(log, y, z) && KeyOf(log[z].body) == KeyOf(log[y].body)
  }

  ghost predicate SecondsFollow(log: seq<Msg>) {
    forall y: nat :: y < |log| && log[y].origin.Again? ==> Follows(log, y)
  }

  /** A second send is as it was, or is the one just prepared. */
  ghost predicate SecondBefore(s: State, s': State, y: nat)
    requires y < |s'.log| && s'.log[y].origin.Again?
  {
    || (y < |s.log| && s.log[y].origin.Again?
        && s'.log[y].origin.oldId == s.log[y].origin.oldId && s'.log[y].body == s.log[y].body)
    || (y == |s.log|
        && exists r :: 0 <= r < |s.resends| && s.resends[r] == Reattempt(s'.log[y].origin.oldId, s'.log[y].body))
  }

  lemma SecondsBefore(s: State, e: Event, y: nat)
    requires Enabled(s, e) && y < |Apply(s, e).log| && Apply(s, e).log[y].origin.Again?
    ensures SecondBefore(s, Apply(s, e), y)
  {
    if e.ResendPrepared? { assert s.resends[e.r] == Reattempt(s.resends[e.r].oldId, s.resends[e.r].body); }
  }

  lemma FollowsStill(s: State, s': State, y: nat)
    requires ResendsOk(s) && SecondsFollow(s.log) && LogKept(s.log, s'.log)
    requires y < |s'.log| && s'.log[y].origin.Again? && SecondBefore(s, s', y)
    ensures Follows(s'.log, y)
  {
    var z: nat;
    if y < |s.log| {
      assert Follows(s.log, y);
      z :| z < y && SendsAgain(s.log, y, z) && KeyOf(s.log[z].body) == KeyOf(s.log[y].body);
    } else {
      var r :| 0 <= r < |s.resends| && s.resends[r] == Reattempt(s'.log[y].origin.oldId, s'.log[y].body);
      z :| z < |s.log| && s.log[z].netId == Some(s.resends[r].oldId) && KeyOf(s.log[z].body) == KeyOf(s.resends[r].body);
    }
    assert SendsAgain(s'.log, y, z);
  }

  lemma FollowStep(s: State, e: Event)
    requires Inv(s) && ResendsOk(s) && Enabled(s, e) && SecondsFollow(s.log)
    ensures SecondsFollow(Apply(s, e).log)
  {
    var s' := Apply(s, e);
    EventKeepsLog(s, e);
    forall y: nat | y < |s'.log| && s'.log[y].origin.Again? ensures Follows(s'.log, y) {
      SecondsBefore(s, e, y);
      FollowsStill(s, s', y);
    }
  }

  /** The invariant, with the account of failed bubbles and second sends. */
  ghost predicate Sound(s: State) {
    Inv(s) && ResendsOk(s) && FailuresKnown(s) && SecondsFollow(s.log)
  }

  lemma SoundStep(s: State, e: Event)
    requires Sound(s) && Enabled(s, e)
    ensures Sound(Apply(s, e)) && KnowsMore(s, Apply(s, e))
  {
    InvStep(s, e);
    FailuresStep(s, e);
    FollowStep(s, e);
    EventKnowsMore(s, e);
  }

  lemma SoundInit()
    ensures Sound(EMPTY_THREAD)
  {
    InvInit();
  }

  lemma {:induction false} SoundOver(s: State, es: seq<Event>, t: State)
    requires Sound(s) && Run(Step, s, es, t)
    ensures Sound(t) && KnowsMore(s, t)
    decreases |es|
  {
    if es != [] {
      var m :| Step(s, es[0], m) && Run(Step, m, es[1..], t);
      SoundStep(s, es[0]);
      SoundOver(m, es[1..], t);
    }
  }

  lemma ReachableSound(es: seq<Event>, s: State)
    requires Reaches(es, s)
    ensures Sound(s)
  {
    SoundInit();
    SoundOver(EMPTY_THREAD, es, s);
  }

  /** Every message is a copy, with the same words or file, of one that is no second send. */
  lemma EveryCopyIsTraced(es: seq<Event>, s: State, y: nat) returns (x: nat)
    requires Reaches(es, s) && y < |s.log|
    ensures x <= y && !s.log[x].origin.Again? && CopyOf(s.log, y, x) && KeyOf(s.log[x].body) == KeyOf(s.log[y].body)
  {
    ReachableSound(es, s);
    x := Traced(s.log, y);
  }

  lemma {:induction false} Traced(log: seq<Msg>, y: nat) returns (x: nat)
    requires SecondsFollow(log) && y < |log|
    ensures x <= y && !log[x].origin.Again? && CopyOf(log, y, x) && KeyOf(log[x].body) == KeyOf(log[y].body)
  {
    if !log[y].origin.Again? {
      x := y;
    } else {
      assert Follows(log, y);
      var z: nat :| z < y && SendsAgain(log, y, z) && KeyOf(log[z].body) == KeyOf(log[y].body);
      x := Traced(log, z);
    }
  }

  // ----- what the thread remembers of a run -----

  /** The event tells the thread that the SDK holds the message known by `id`: a publish that failed with the
      message stored, or a retry that publishes an unpublished message from where it is held. */
  predicate Remembers(log: seq<Msg>, e: Event, id: Id) {
    match e
    case PublishFailed(x) => x < |log| && log[x].netId == Some(id)
    case ResendPublishFailed(x) => x < |log| && log[x].netId == Some(id)
    case TapRetry(b, canRepublish) =>
      canRepublish && b.id == id && !IsLocalId(id) && !b.body.Card? && b.delivery == Some(Unpublished)
    case _ => false
  }

  /** The event loads a history that marks message `x` as given up. */
  predicate Marks(e: Event, x: nat) {
    (e.Load? || e.Resume?) && x in GivenUp(e.rows)
  }

  lemma RemembersStep(s: State, e: Event, id: Id)
    requires Enabled(s, e)
    ensures id in Apply(s, e).storedIds <==> id in s.storedIds || Remembers(s.log, e, id)
  {
  }

  lemma RemembersLater(s: State, e: Event, t: State, id: Id)
    requires Enabled(s, e) && LogKept(s.log, t.log)
    ensures Remembers(s.log, e, id) <==> Remembers(t.log, e, id)
  {
  }

  lemma MarksStep(s: State, e: Event, x: nat)
    requires Enabled(s, e)
    ensures x in Apply(s, e).givenUp <==> x in s.givenUp || Marks(e, x)
  {
  }

  lemma {:induction false} StoredIdsOver(s: State, es: seq<Event>, t: State, id: Id)
    requires Sound(s) && Run(Step, s, es, t)
    ensures id in t.storedIds <==> id in s.storedIds || exists e :: e in es && Remembers(t.log, e, id)
    decreases |es|
  {
    if es != [] {
      var m :| Step(s, es[0], m) && Run(Step, m, es[1..], t);
      SoundStep(s, es[0]);
      StoredIdsOver(m, es[1..], t, id);
      SoundOver(s, es, t);
      RemembersStep(s, es[0], id);
      RemembersLater(s, es[0], t, id);
      assert forall e :: e in es <==> e == es[0] || e in es[1..];
    }
  }

  /** The thread knows an id as stored exactly when some event of the run told it so. */
  lemma StoredIdsIff(es: seq<Event>, s: State, id: Id)
    requires Reaches(es, s)
    ensures id in s.storedIds <==> exists e :: e in es && Remembers(s.log, e, id)
  {
    SoundInit();
    StoredIdsOver(EMPTY_THREAD, es, s, id);
  }

  lemma {:induction false} GivenUpOver(s: State, es: seq<Event>, t: State, x: nat)
    requires Run(Step, s, es, t)
    ensures x in t.givenUp <==> x in s.givenUp || exists e :: e in es && Marks(e, x)
    decreases |es|
  {
    if es != [] {
      var m :| Step(s, es[0], m) && Run(Step, m, es[1..], t);
      MarksStep(s, es[0], x);
      GivenUpOver(m, es[1..], t, x);
      assert forall e :: e in es <==> e == es[0] || e in es[1..];
    }
  }

  /** A message is given up exactly when some history of the run marked it so. */
  lemma GivenUpIff(es: seq<Event>, s: State, x: nat)
    requires Reaches(es, s)
    ensures x in s.givenUp <==> exists e :: e in es && Marks(e, x)
  {
    GivenUpOver(EMPTY_THREAD, es, s, x);
  }

  /** The event tells that the network has message `x`: its echo, or a history that shows it published. */
  predicate Delivers(e: Event, x: nat) {
    || e == Echo(x)
    || ((e.Load? || e.Resume?) && exists i :: 0 <= i < |e.rows| && e.rows[i].x == x && e.rows[i].mark == NoMark)
  }

  lemma DeliversStep(s: State, e: Event, x: nat)
    requires Enabled(s, e)
    ensures x in Apply(s, e).delivered <==> x in s.delivered || Delivers(e, x)
  {
  }

  lemma {:induction false} DeliveredOver(s: State, es: seq<Event>, t: State, x: nat)
    requires Run(Step, s, es, t)
    ensures x in t.delivered <==> x in s.delivered || exists e :: e in es && Delivers(e, x)
    decreases |es|
  {
    if es != [] {
      var m :| Step(s, es[0], m) && Run(Step, m, es[1..], t);
      DeliversStep(s, es[0], x);
      DeliveredOver(m, es[1..], t, x);
      assert forall e :: e in es <==> e == es[0] || e in es[1..];
    }
  }

  /** A message counts as delivered exactly when some event of the run told so; no event takes that back. */
  lemma DeliveredIff(es: seq<Event>, s: State, x: nat)
    requires Reaches(es, s)
    ensures x in s.delivered <==> exists e :: e in es && Delivers(e, x)
  {
    DeliveredOver(EMPTY_THREAD, es, s, x);
  }

  // ----- retry with a conversation that can republish -----

  /** Then retry sends a stored message again exactly when its failed bubble has content and no event of the run
      told the thread that the SDK holds it; and only a message a loaded history marked as given up. */
  lemma AttachedSecondSendIff(es: seq<Event>, s: State, b: Bubble)
    requires Reaches(es, s) && b in s.list
    ensures (RetryChoice(b, s.storedIds, true) == Resend && IsStored(s, b)) <==>
              && b.delivery == Some(Failed) && !IsLocalId(b.id) && HasContent(b.body)
              && !(exists e :: e in es && Remembers(s.log, e, b.id))
    ensures RetryChoice(b, s.storedIds, true) == Resend && IsStored(s, b) ==> GaveUp(s, b.id)
  {
    ReachableSound(es, s);
    SecondSendIff(es, s, b, true);
    StoredIdsIff(es, s, b.id);
    if RetryChoice(b, s.storedIds, true) == Resend && !IsLocalId(b.id) { TappedIsAccounted(s, b, true); }
  }

  // ----- second sends of messages nobody gave up -----

  /** A tap that asks again where republishing is not possible. */
  predicate AsksDetached(e: Event, id: Id) {
    AsksAgain(e, id) && !e.canRepublish
  }

  function AskedDetached(es: seq<Event>, id: Id): nat {
    if es == [] then 0 else (if AsksDetached(es[0], id) then 1 else 0) + AskedDetached(es[1..], id)
  }

  lemma AttachedTapStartsNone(s: State, e: Event, id: Id)
    requires Sound(s) && Enabled(s, e) && !GaveUp(s, id) && !AsksDetached(e, id)
    ensures SecondSends(Apply(s, e), id) <= SecondSends(s, id)
  {
    SecondSendsStep(s, e, id);
    if AsksAgain(e, id) {
      if RetryChoice(e.bubble, s.storedIds, true) == Resend { TappedIsAccounted(s, e.bubble, true); }
      NoResendNoSecond(s, e.bubble, id);
    }
  }

  lemma NoResendNoSecond(s: State, b: Bubble, id: Id)
    requires b in s.list && RetryChoice(b, s.storedIds, true) != Resend
    ensures SecondSends(Apply(s, TapRetry(b, true)), id) == SecondSends(s, id)
  {
    assert Apply(s, TapRetry(b, true)).log == s.log;
  }

  lemma {:induction false} DetachedOver(s: State, es: seq<Event>, t: State, id: Id)
    requires Sound(s) && Run(Step, s, es, t) && !GaveUp(t, id)
    ensures SecondSends(t, id) <= SecondSends(s, id) + AskedDetached(es, id)
    decreases |es|
  {
    if es != [] {
      var m :| Step(s, es[0], m) && Run(Step, m, es[1..], t);
      SoundOver(s, es, t);
      if GaveUp(s, id) { GaveUpStays(s, t, id); }
      SoundStep(s, es[0]);
      SecondSendsStep(s, es[0], id);
      if !AsksDetached(es[0], id) { AttachedTapStartsNone(s, es[0], id); }
      DetachedOver(m, es[1..], t, id);
    }
  }

  /** A message no history gave up is sent again at most as often as its failed bubble was tapped where
      republishing was not possible. */
  lemma SecondSendsNeedGivingUp(es: seq<Event>, s: State, id: Id)
    requires Reaches(es, s)
    ensures GaveUp(s, id) || SecondSends(s, id) <= AskedDetached(es, id)
  {
    SoundInit();
    if !GaveUp(s, id) { DetachedOver(EMPTY_THREAD, es, s, id); }
  }

  // ----- no second copy -----

  /** The failed bubble `id` was retried in a thread that could not republish. */
  predicate RetriedDetached(es: seq<Event>, id: Id) {
    exists e :: e in es && AsksDetached(e, id)
  }

  lemma {:induction false} NoneAskedDetached(es: seq<Event>, id: Id)
    requires !RetriedDetached(es, id)
    ensures AskedDetached(es, id) == 0
    decreases |es|
  {
    if es != [] {
      assert es[0] in es;
      NoneAskedDetached(es[1..], id);
    }
  }

  lemma {:induction false} NonePrepared(log: seq<Msg>, id: Id, y: nat)
    requires Prepared(log, id) == 0 && y < |log|
    ensures !IsSecond(log[y], id)
    decreases |log|
  {
    if y < |log| - 1 { NonePrepared(log[..|log| - 1], id, y); }
  }

  lemma {:induction false} OnlyItself(log: seq<Msg>, y: nat, x: nat)
    requires y < |log| && x < |log| && CopyOf(log, y, x)
    requires forall z: nat :: z < |log| ==> !SendsAgain(log, z, x)
    ensures y == x
  {
    if y != x {
      var z: nat :| z < y && SendsAgain(log, y, z) && CopyOf(log, z, x);
      OnlyItself(log, z, x);
    }
  }

  /** Across every timeout, failure, republish and retry, a composer send is prepared once and its file uploaded
      once, second sends counted: the SDK is given one copy of it, unless a history of the run marked it as given
      up, or its failed bubble was retried where republishing was not possible. */
  lemma NoSecondCopy(es: seq<Event>, s: State, x: nat)
    requires Reaches(es, s) && x < |s.log| && s.log[x].origin.Composer?
    ensures s.log[x].origin.prepares <= 1 && s.log[x].origin.uploads <= 1
    ensures s.log[x].origin.prepares == 1 <==> s.log[x].netId.Some?
    ensures || (exists e :: e in es && Marks(e, x))
            || (s.log[x].netId.Some? && RetriedDetached(es, s.log[x].netId.value))
            || Copies(s.log, x) == if s.log[x].netId.Some? then {x} else {}
  {
    ReachableSound(es, s);
    GivenUpIff(es, s, x);
    assert MsgOk(s.log[x]);
    if x !in s.givenUp && !(s.log[x].netId.Some? && RetriedDetached(es, s.log[x].netId.value)) {
      NothingSendsAgain(es, s, x);
      OneCopy(s.log, x);
    }
  }

  lemma NothingSendsAgain(es: seq<Event>, s: State, x: nat)
    requires Reaches(es, s) && Inv(s) && x < |s.log| && x !in s.givenUp
    requires s.log[x].netId.Some? ==> !RetriedDetached(es, s.log[x].netId.value)
    ensures forall z: nat :: z < |s.log| ==> !SendsAgain(s.log, z, x)
  {
    if s.log[x].netId.Some? {
      var id := s.log[x].netId.value;
      if GaveUp(s, id) {
        var y :| y in s.givenUp && y < |s.log| && s.log[y].netId == Some(id);
        OneOwner(s.log, s.confirmed, x, y, id);
      } else {
        SecondSendsNeedGivingUp(es, s, id);
        NoneAskedDetached(es, id);
        forall z: nat | z < |s.log| ensures !SendsAgain(s.log, z, x) { NonePrepared(s.log, id, z); }
      }
    }
  }

  lemma OneCopy(log: seq<Msg>, x: nat)
    requires x < |log| && forall z: nat :: z < |log| ==> !SendsAgain(log, z, x)
    ensures Copies(log, x) == if log[x].netId.Some? then {x} else {}
  {
    forall y | y in Copies(log, x) ensures y == x { OnlyItself(log, y, x); }
    assert CopyOf(log, x, x);
  }

  /** With a conversation that can republish attached throughout, and no history giving anything up, nothing is
      ever sent a second time. */
  lemma AttachedThreadSendsOnce(es: seq<Event>, s: State)
    requires Reaches(es, s)
    requires forall e :: e in es && e.TapRetry? ==> e.canRepublish
    requires forall e :: e in es && (e.Load? || e.Resume?) ==> GivenUp(e.rows) == {}
    ensures s.resends == [] && forall y :: 0 <= y < |s.log| ==> !s.log[y].origin.Again?
  {
    forall y: nat | y < |s.log| && s.log[y].origin.Again? ensures false { NeverSecond(es, s, s.log[y].origin.oldId); }
    if s.resends != [] { NeverSecond(es, s, s.resends[|s.resends| - 1].oldId); }
  }

  lemma NeverSecond(es: seq<Event>, s: State, id: Id)
    requires Reaches(es, s)
    requires forall e :: e in es && e.TapRetry? ==> e.canRepublish
    requires forall e :: e in es && (e.Load? || e.Resume?) ==> GivenUp(e.rows) == {}
    ensures SecondSends(s, id) == 0 && forall y :: 0 <= y < |s.log| ==> !IsSecond(s.log[y], id)
  {
    if GaveUp(s, id) {
      var x :| x in s.givenUp && x < |s.log| && s.log[x].netId == Some(id);
      GivenUpIff(es, s, x);
    } else {
      SecondSendsNeedGivingUp(es, s, id);
      NoneAskedDetached(es, id);
      forall y: nat | y < |s.log| ensures !IsSecond(s.log[y], id) { NonePrepared(s.log, id, y); }
    }
  }

  /** The other exception has its run too: a publish that failed with the message stored, retried where
      republishing is not possible. */
  lemma DetachedRetrySendsTwice(netId: Id, secondId: Id, nowNs: int, sentNs: int, againNs: int)
    returns (es: seq<Event>, s: State)
    requires !IsLocalId(netId) && netId != "" && !IsLocalId(secondId) && secondId != "" && netId != secondId
    ensures Reaches(es, s) && s.givenUp == {} && |s.log| == 2 && s.log[0].origin.Composer?
    ensures Copies(s.log, 0) == {0, 1} && s.log[0].body == s.log[1].body
  {
    es, s := PublishFailedThread(netId, nowNs, sentNs);
    es, s := Extend(es, s, TapRetry(s.list[0], false));
    es, s := Extend(es, s, ResendPrepared(0, secondId, againNs));
    BothAreCopies(s.log);
  }

  lemma PublishFailedThread(netId: Id, nowNs: int, sentNs: int) returns (es: seq<Event>, s: State)
    requires !IsLocalId(netId) && netId != ""
    ensures Reaches(es, s) && s.givenUp == {} && s.resends == []
    ensures s.list == [Bubble(netId, nowNs, true, Text("hi", None), Some(Failed))]
    ensures |s.log| == 1 && s.log[0].origin.Composer? && s.log[0].netId == Some(netId) && s.log[0].body == Text("hi", None)
  {
    LocalIdsDistinct(1, 1);
    es, s := [], EMPTY_THREAD;
    es, s := Extend(es, s, SendText(LocalId(1), "hi", None, nowNs));
    assert s.list == [Bubble(LocalId(1), nowNs, true, Text("hi", None), Some(Pending))];
    es, s := Extend(es, s, PrepareOk(0, netId, sentNs));
    es, s := Extend(es, s, PublishFailed(0));
  }

  lemma BothAreCopies(log: seq<Msg>)
    requires |log| == 2 && log[0].netId.Some? && log[1].netId.Some? && IsSecond(log[1], log[0].netId.value)
    ensures Copies(log, 0) == {0, 1}
  {
    assert CopyOf(log, 0, 0) && SendsAgain(log, 1, 0);
  }
}
