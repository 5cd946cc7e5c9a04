/** Second sends: when retry prepares anew what the SDK has stored already, how often it can, and what
    becomes of the message it was shown under. */
module ThreadGivenUp {
  import opened Wrappers
  import opened Runs
  import opened StableSort
  import opened DeliveryState
  import opened ThreadProtocol
  import opened ThreadInvariant
  import opened ThreadLocals
  import opened ThreadTheorems

  /** The message listed as `b` has been stored by the SDK. */
  ghost predicate IsStored(s: State, b: Bubble) {
    exists x :: 0 <= x < |s.log| && s.log[x].netId == Some(b.id)
  }

  /** Retry sends a stored message a second time exactly when its bubble is failed, under a network id, with
      content, and the thread does not know the SDK to hold it, or cannot have it published from there. */
  lemma SecondSendIff(es: seq<Event>, s: State, b: Bubble, canRepublish: bool)
    requires Reaches(es, s) && b in s.list
    ensures (RetryChoice(b, s.storedIds, canRepublish) == Resend && IsStored(s, b)) <==>
              && b.delivery == Some(Failed) && !IsLocalId(b.id) && HasContent(b.body)
              && !(canRepublish && b.id in s.storedIds)
  {
    ReachableInv(es, s);
    if IsLocalId(b.id) {
      NetIdsAreNotLocal(s, b.id);
    } else {
      ListedIsKnown(s, b);
    }
  }

  // ----- how many second sends -----

  /** A tap on a failed bubble with content under network id `id`. */
  predicate AsksAgain(e: Event, id: Id) {
    && e.TapRetry? && e.bubble.id == id && !IsLocalId(id)
    && e.bubble.delivery == Some(Failed) && HasContent(e.bubble.body)
  }

  function Asked(es: seq<Event>, id: Id): nat {
    if es == [] then 0 else (if AsksAgain(es[0], id) then 1 else 0) + Asked(es[1..], id)
  }

  /** The second sends prepared for `id`. */
  function Prepared(log: seq<Msg>, id: Id): nat {
    if log == [] then 0
    else Prepared(log[..|log| - 1], id) + if IsSecond(log[|log| - 1], id) then 1 else 0
  }

  predicate IsSecond(msg: Msg, id: Id) {
    msg.origin.Again? && msg.origin.oldId == id
  }

  /** The second sends for `id` that have stored nothing yet. */
  function Unstored(resends: seq<Reattempt>, id: Id): nat {
    if resends == [] then 0
    else Unstored(resends[..|resends| - 1], id) + if resends[|resends| - 1].oldId == id then 1 else 0
  }

  function SecondSends(s: State, id: Id): nat {
    Prepared(s.log, id) + Unstored(s.resends, id)
  }

  lemma PreparedSnoc(log: seq<Msg>, msg: Msg, id: Id)
    ensures Prepared(log + [msg], id) == Prepared(log, id) + if IsSecond(msg, id) then 1 else 0
  {
    assert (log + [msg])[..|log|] == log;
  }

  /** Only what a message is a second send of matters. */
  lemma {:induction false} PreparedSame(log: seq<Msg>, log': seq<Msg>, id: Id)
    requires |log| == |log'| && forall x :: 0 <= x < |log| ==> (IsSecond(log[x], id) <==> IsSecond(log'[x], id))
    ensures Prepared(log, id) == Prepared(log', id)
    decreases |log|
  {
    if log != [] { PreparedSame(log[..|log| - 1], log'[..|log| - 1], id); }
  }

  lemma {:induction false} UnstoredWithout(resends: seq<Reattempt>, r: nat, id: Id)
    requires r < |resends|
    ensures Unstored(WithoutResend(resends, r), id) + (if resends[r].oldId == id then 1 else 0) == Unstored(resends, id)
    decreases |resends|
  {
    var n := |resends| - 1;
    if r == n {
      assert WithoutResend(resends, r) == resends[..n];
    } else {
      UnstoredWithout(resends[..n], r, id);
      UnstoredSnoc(WithoutResend(resends[..n], r), resends[n], id);
      assert WithoutResend(resends, r) == WithoutResend(resends[..n], r) + [resends[n]];
      assert resends[..n][r] == resends[r];
    }
  }

  lemma UnstoredSnoc(resends: seq<Reattempt>, t: Reattempt, id: Id)
    ensures Unstored(resends + [t], id) == Unstored(resends, id) + if t.oldId == id then 1 else 0
  {
    assert (resends + [t])[..|resends|] == resends;
  }

  /** Only such a tap starts a second send. */
  lemma SecondSendsStep(s: State, e: Event, id: Id)
    requires Enabled(s, e)
    ensures SecondSends(Apply(s, e), id) <= SecondSends(s, id) + if AsksAgain(e, id) then 1 else 0
  {
    match e {
      case SendText(_, _, _, _) => PreparedSnoc(s.log, Apply(s, e).log[|s.log|], id);
      case SendFile(_, _, _) => PreparedSnoc(s.log, Apply(s, e).log[|s.log|], id);
      case Learn(msg) => PreparedSnoc(s.log, msg, id);
      case TapRetry(b, canRepublish) => TapSends(s, b, canRepublish, id);
      case ResendFailed(r) => UnstoredWithout(s.resends, r, id);
      case ResendPrepared(r, netId, sentNs) =>
        UnstoredWithout(s.resends, r, id);
        PreparedSnoc(s.log, Apply(s, e).log[|s.log|], id);
      case _ => KindsKept(s, e, id);
    }
  }

  lemma KindsKept(s: State, e: Event, id: Id)
    requires Enabled(s, e)
    requires !(e.SendText? || e.SendFile? || e.Learn? || e.TapRetry? || e.ResendFailed? || e.ResendPrepared?)
    ensures SecondSends(Apply(s, e), id) == SecondSends(s, id)
  {
    PreparedSame(s.log, Apply(s, e).log, id);
  }

  lemma TapSends(s: State, b: Bubble, canRepublish: bool, id: Id)
    requires b in s.list
    ensures SecondSends(Apply(s, TapRetry(b, canRepublish)), id)
         <= SecondSends(s, id) + if AsksAgain(TapRetry(b, canRepublish), id) then 1 else 0
  {
    var s' := Apply(s, TapRetry(b, canRepublish));
    PreparedSame(s.log, s'.log, id);
    if s'.resends != s.resends { UnstoredSnoc(s.resends, Reattempt(b.id, b.body), id); }
  }

  lemma {:induction false} SecondSendsOver(s: State, es: seq<Event>, t: State, id: Id)
    requires Run(Step, s, es, t)
    ensures SecondSends(t, id) <= SecondSends(s, id) + Asked(es, id)
    decreases |es|
  {
    if es != [] {
      var m :| Step(s, es[0], m) && Run(Step, m, es[1..], t);
      SecondSendsStep(s, es[0], id);
      SecondSendsOver(m, es[1..], t, id);
    }
  }

  /** A message is sent again at most as often as its failed bubble was tapped; never on its own. */
  lemma SecondSendsAreAskedFor(es: seq<Event>, s: State, id: Id)
    requires Reaches(es, s)
    ensures SecondSends(s, id) <= Asked(es, id)
  {
    SecondSendsOver(EMPTY_THREAD, es, s, id);
  }

  // ----- the runs -----

  /** A send the SDK stored and gave up, loaded as failed and retried, is stored twice; the list shows it once. */
  lemma GivenUpIsSentTwice(netId: Id, secondId: Id, nowNs: int, sentNs: int, againNs: int)
    returns (es: seq<Event>, s: State)
    requires !IsLocalId(netId) && netId != "" && !IsLocalId(secondId) && secondId != "" && netId != secondId
    ensures Reaches(es, s) && |s.log| == 2 && s.log[0].origin.Composer? && IsSecond(s.log[1], netId)
    ensures s.log[0].netId == Some(netId) && s.log[1].netId == Some(secondId) && s.log[0].body == s.log[1].body
    ensures |s.list| == 1 && s.list[0].id == secondId && s.list[0].delivery == Some(Sent)
  {
    es, s := RetriedThread(netId, secondId, nowNs, sentNs, againNs);
    es, s := Extend(es, s, ResendAck(1, Sent));
  }

  lemma RetriedThread(netId: Id, secondId: Id, nowNs: int, sentNs: int, againNs: int) returns (es: seq<Event>, s: State)
    requires !IsLocalId(netId) && netId != "" && !IsLocalId(secondId) && secondId != "" && netId != secondId
    ensures Reaches(es, s) && |s.log| == 2 && s.log[0].origin.Composer? && IsSecond(s.log[1], netId) && IsAgain(s, 1, Publishing)
    ensures s.log[0].netId == Some(netId) && s.log[1].netId == Some(secondId) && s.log[0].body == s.log[1].body
    ensures |s.list| == 1 && s.list[0] == Bubble(netId, sentNs, true, Text("hi", None), Some(Pending))
  {
    es, s := GivenUpThread(netId, nowNs, sentNs);
    var b := Bubble(netId, sentNs, true, Text("hi", None), Some(Failed));
    es, s := Extend(es, s, TapRetry(b, true));
    es, s := Extend(es, s, ResendPrepared(0, secondId, againNs));
  }

  lemma GivenUpThread(netId: Id, nowNs: int, sentNs: int) returns (es: seq<Event>, s: State)
    requires !IsLocalId(netId) && netId != ""
    ensures Reaches(es, s) && |s.log| == 1 && s.log[0].origin.Composer? && s.log[0].netId == Some(netId)
    ensures s.log[0].body == Text("hi", None) && s.log[0].sentNs == sentNs && s.log[0].fromMe
    ensures s.list == [Bubble(netId, sentNs, true, Text("hi", None), Some(Failed))]
    ensures s.storedIds == {} && s.resends == [] && s.confirmed == s.delivered == {}
  {
    es, s := StoredThread(netId, nowNs, sentNs);
    OneRow(s, Bubble(netId, sentNs, true, Text("hi", None), Some(Failed)));
    es, s := Extend(es, s, Load([Row(0, MarkedFailed)], 0));
  }

  lemma StoredThread(netId: Id, nowNs: int, sentNs: int) returns (es: seq<Event>, s: State)
    requires !IsLocalId(netId) && netId != ""
    ensures Reaches(es, s) && |s.log| == 1 && s.log[0].origin.Composer? && s.log[0].netId == Some(netId)
    ensures s.log[0].body == Text("hi", None) && s.log[0].sentNs == sentNs && s.log[0].fromMe
    ensures s.storedIds == {} && s.resends == [] && s.confirmed == s.delivered == {}
  {
    LocalIdsDistinct(1, 1);
    es, s := [], EMPTY_THREAD;
    es, s := Extend(es, s, SendText(LocalId(1), "hi", None, nowNs));
    es, s := Extend(es, s, PrepareOk(0, netId, sentNs));
    es, s := Extend(es, s, Ack(0, Unpublished));
  }

  lemma OneRow(s: State, b: Bubble)
    requires |s.log| == 1 && s.log[0].netId.Some? && b == Copy(s.log[0]).(delivery := Some(Failed))
    ensures Fresh(s.log, [Row(0, MarkedFailed)], 0) == [b]
  {
    var rows := [Row(0, MarkedFailed)];
    assert seq(|rows|, i requires 0 <= i < |rows| => RowBubble(s.log, rows[i])) == [b];
    SortOne(b);
  }

  lemma SortOne(b: Bubble)
    ensures SortNewest([b]) == [b]
  {
    SortKeepsElements([b], NewestFirst);
    assert SortNewest([b])[0] in SortNewest([b]);
  }

  // ----- delivered after all -----

  /** The list shows message `x` as delivered. */
  ghost predicate ShownDelivered(s: State, x: nat) {
    x < |s.log| && exists b :: b in s.list && s.log[x].netId == Some(b.id) && !AwaitingEcho(b.delivery)
  }

  /** The event puts something else in the place of message `x`: the list is left or loaded without it, its
      bubble is discarded, or a second send shown under its id settles. */
  predicate Unseats(s: State, e: Event, x: nat)
    requires Enabled(s, e) && x < |s.log|
  {
    match e
    case ResendFailed(r) => s.log[x].netId == Some(s.resends[r].oldId)
    case ResendAck(y, _) => s.log[x].netId == Some(s.log[y].origin.oldId)
    case ResendPublishFailed(y) => s.log[x].netId == Some(s.log[y].origin.oldId)
    case Discard(id) => s.log[x].netId == Some(id)
    case Mount => true
    case Load(rows, _) => x !in Published(rows)
    case Resume(rows, _) => x !in Published(rows)
    case _ => false
  }

  /** What the thread shows as delivered it goes on showing so, over every event but those. */
  lemma DeliveredStaysIff(es: seq<Event>, s: State, e: Event, x: nat)
    requires Reaches(es, s) && Enabled(s, e) && x in s.confirmed
    ensures x < |s.log|
    ensures ShownDelivered(Apply(s, e), x) <==> !Unseats(s, e, x)
  {
    ReachableInv(es, s);
    InvStep(s, e);
    if !Unseats(s, e, x) {
      ConfirmedKept(s, e, x);
      ConfirmedShown(Apply(s, e), x);
    } else if e.Load? || e.Resume? {
      BindUnseats(s, e, x);
    } else {
      EventUnseats(s, e, x);
    }
  }

  lemma ConfirmedKept(s: State, e: Event, x: nat)
    requires Enabled(s, e) && x in s.confirmed && x < |s.log| && !Unseats(s, e, x)
    ensures x in Apply(s, e).confirmed
  {
  }

  lemma ConfirmedShown(s: State, x: nat)
    requires Inv(s) && x in s.confirmed
    ensures ShownDelivered(s, x)
  {
    assert MessageOk(Board(s.list), s.log[x], true, s.receipts);
    var b := Board(s.list)[s.log[x].netId.value];
    assert b in s.list;
  }

  lemma EventUnseats(s: State, e: Event, x: nat)
    requires Inv(s) && ResendsOk(s) && Enabled(s, e) && x < |s.log|
    requires Unseats(s, e, x) && !e.Load? && !e.Resume?
    ensures !ShownDelivered(Apply(s, e), x)
  {
    match e {
      case ResendFailed(r) => FailureUnseats(s, r, x);
      case ResendAck(y, d) => AckUnseats(s, y, d);
      case ResendPublishFailed(y) =>
        PublishFailedAgain(s, y);
        AckUnseats(s, y, Failed);
      case Discard(id) => DiscardBoard(s.list, id);
      case Mount =>
    }
  }

  lemma FailureUnseats(s: State, r: nat, x: nat)
    requires Inv(s) && ResendsOk(s) && Enabled(s, ResendFailed(r)) && x < |s.log|
    requires s.log[x].netId == Some(s.resends[r].oldId)
    ensures !ShownDelivered(Apply(s, ResendFailed(r)), x)
  {
    var oldId := s.resends[r].oldId;
    var z := OldMessage(s, oldId, s.resends[r].body);
    OneOwner(s.log, s.confirmed, x, z, oldId);
    RelabelBoard(s.list, oldId, oldId, Failed);
  }

  /** Whichever branch the ack takes, nothing is listed under the old id afterwards. */
  lemma AckUnseats(s: State, y: nat, d: Delivery)
    requires Inv(s) && ResendsOk(s) && IsAgain(s, y, Publishing)
    ensures forall b :: b in ReconcileSent(s.list, s.log[y].origin.oldId, s.log[y].netId.value, d) ==>
      b.id != s.log[y].origin.oldId
  {
    var oldId, netId := s.log[y].origin.oldId, s.log[y].netId.value;
    assert MsgOk(s.log[y]);
    var z := OldMessage(s, oldId, s.log[y].body);
    ReconcileBoard(s.list, oldId, netId, d);
    forall b | b in ReconcileSent(s.list, oldId, netId, d) ensures b.id != oldId {
      assert b.id in Reconciled(Board(s.list), oldId, netId, d);
    }
  }

  lemma BindUnseats(s: State, e: Event, x: nat)
    requires Inv(s) && Enabled(s, e) && (e.Load? || e.Resume?) && x < |s.log| && x in s.confirmed
    requires x !in Published(e.rows)
    ensures !ShownDelivered(Apply(s, e), x)
  {
    UnpublishedAwaits(s, e.rows, e.upToNs, x);
    if e.Resume? { KeptAwaits(s, Fresh(s.log, e.rows, e.upToNs), x); }
  }

  lemma UnpublishedAwaits(s: State, rows: seq<Row>, upToNs: int, x: nat)
    requires Inv(s) && RowsOk(s, rows) && x < |s.log| && x !in Published(rows)
    ensures UniqueIds(Fresh(s.log, rows, upToNs))
    ensures forall b :: b in Fresh(s.log, rows, upToNs) && s.log[x].netId == Some(b.id) ==> AwaitingEcho(b.delivery)
  {
    var history := Fresh(s.log, rows, upToNs);
    FreshContents(s, rows, upToNs);
    forall b | b in history && s.log[x].netId == Some(b.id) ensures AwaitingEcho(b.delivery) {
      var i := HistoryRow(s.log, rows, upToNs, history, b.id);
      OneOwner(s.log, s.confirmed, x, rows[i].x, b.id);
      MarkedAwaits(s.log, rows[i], upToNs);
    }
  }

  lemma MarkedAwaits(log: seq<Msg>, row: Row, upToNs: int)
    requires row.x < |log| && log[row.x].netId.Some? && !row.mark.NoMark?
    ensures AwaitingEcho(HistoryBubble(log, row, upToNs).delivery)
  {
  }

  lemma KeptAwaits(s: State, history: seq<Bubble>, x: nat)
    requires UniqueIds(s.list) && UniqueIds(history) && x < |s.log|
    requires forall b :: b in history && s.log[x].netId == Some(b.id) ==> AwaitingEcho(b.delivery)
    ensures forall b :: b in SortNewest(Kept(s.list, history) + history) && s.log[x].netId == Some(b.id) ==>
      AwaitingEcho(b.delivery)
  {
    SortKeepsElements(Kept(s.list, history) + history, NewestFirst);
    KeptContents(s.list, history);
  }

  /** Given up, retried, and delivered after all before the second send is acked: the ack takes the delivered
      message's bubble, and the list no longer shows a message the network has. */
  lemma DeliveredButNotShown(netId: Id, secondId: Id, nowNs: int, sentNs: int, againNs: int)
    returns (es: seq<Event>, s: State)
    requires !IsLocalId(netId) && netId != "" && !IsLocalId(secondId) && secondId != "" && netId != secondId
    ensures Reaches(es, s) && |s.log| == 2 && s.log[0].netId == Some(netId)
    ensures 0 in s.delivered && forall b :: b in s.list ==> b.id != netId
  {
    es, s := RetriedThread(netId, secondId, nowNs, sentNs, againNs);
    es, s := Extend(es, s, Echo(0));
    var fs, t := Extend(es, s, ResendAck(1, Sent));
    ReachableInv(es, s);
    AckUnseats(s, 1, Sent);
    es, s := fs, t;
  }
}
