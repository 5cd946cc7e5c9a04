/** What the thread knows of its failed bubbles: each one under a network id is of a message the SDK is known to
    hold, or of one a loaded history marked as given up. */
module ThreadFailures {
  import opened Wrappers
  import opened DeliveryState
  import opened ThreadProtocol
  import opened ThreadInvariant

  /** A loaded history marked the message known by `id` as given up. */
  ghost predicate GaveUp(s: State, id: Id) {
    exists x :: x in s.givenUp && x < |s.log| && s.log[x].netId == Some(id)
  }

  ghost predicate Accounted(s: State, id: Id) {
    id in s.storedIds || GaveUp(s, id)
  }

  predicate FailedAs(m: map<Id, Bubble>, id: Id) {
    id in m && m[id].delivery == Some(Failed) && !IsLocalId(id) && id != ""
  }

  ghost predicate FailuresKnown(s: State) {
    && UniqueIds(s.list)
    && (forall id :: FailedAs(Board(s.list), id) ==> Accounted(s, id))
    && (forall r :: 0 <= r < |s.resends| ==> Accounted(s, s.resends[r].oldId))
  }

  /** Nothing but `id` is failed afterwards that was not before. */
  ghost predicate OnlyFails(list: seq<Bubble>, list': seq<Bubble>, id: Id) {
    && UniqueIds(list) && UniqueIds(list')
    && forall i :: FailedAs(Board(list'), i) ==> FailedAs(Board(list), i) || i == id
  }

  /** Nothing learnt about ids is forgotten. */
  ghost predicate KnowsMore(s: State, s': State) {
    s.storedIds <= s'.storedIds && s.givenUp <= s'.givenUp && LogKept(s.log, s'.log)
  }

  lemma EventKnowsMore(s: State, e: Event)
    requires Inv(s) && Enabled(s, e)
    ensures KnowsMore(s, Apply(s, e))
  {
    EventKeepsLog(s, e);
  }

  lemma GaveUpStays(s: State, s': State, id: Id)
    requires KnowsMore(s, s') && GaveUp(s, id)
    ensures GaveUp(s', id)
  {
    var x :| x in s.givenUp && x < |s.log| && s.log[x].netId == Some(id);
    assert s'.log[x].netId == Some(id);
  }

  lemma AccountedStays(s: State, s': State, id: Id)
    requires KnowsMore(s, s') && Accounted(s, id)
    ensures Accounted(s', id)
  {
    if GaveUp(s, id) { GaveUpStays(s, s', id); }
  }

  lemma StillKnown(s: State, s': State, id: Id)
    requires FailuresKnown(s) && KnowsMore(s, s') && OnlyFails(s.list, s'.list, id)
    requires IsLocalId(id) || id == "" || Accounted(s', id)
    requires forall t :: t in s'.resends ==> t in s.resends || Accounted(s', t.oldId)
    ensures FailuresKnown(s')
  {
    forall i | FailedAs(Board(s'.list), i) ensures Accounted(s', i) {
      if i != id { AccountedStays(s, s', i); }
    }
    forall r | 0 <= r < |s'.resends| ensures Accounted(s', s'.resends[r].oldId) {
      var t := s'.resends[r];
      if t in s.resends { AccountedStays(s, s', t.oldId); }
    }
  }

  lemma NoNewFailure(s: State, s': State)
    requires FailuresKnown(s) && KnowsMore(s, s') && OnlyFails(s.list, s'.list, "")
    requires forall t :: t in s'.resends ==> t in s.resends || Accounted(s', t.oldId)
    ensures FailuresKnown(s')
  {
    StillKnown(s, s', "");
  }

  // ----- the list operations -----

  lemma PrependFails(list: seq<Bubble>, b: Bubble)
    requires UniqueIds(list) && b.id !in Board(list) && b.delivery == Some(Pending)
    ensures OnlyFails(list, [b] + list, "")
  {
    PrependBoard(list, b);
  }

  lemma UploadFails(list: seq<Bubble>, id: Id, digest: string)
    requires UniqueIds(list)
    ensures OnlyFails(list, AttachUploaded(list, id, digest), "")
  {
    UploadBoard(list, id, digest);
  }

  lemma DiscardFails(list: seq<Bubble>, id: Id)
    requires UniqueIds(list)
    ensures OnlyFails(list, DiscardMessage(list, id), "")
  {
    DiscardBoard(list, id);
  }

  lemma SetDeliveryFails(list: seq<Bubble>, id: Id, d: Delivery, newId: Id)
    requires UniqueIds(list)
    ensures OnlyFails(list, SetDelivery(list, id, d, newId), if d != Failed then "" else if newId != "" then newId else id)
  {
    SetDeliveryBoard(list, id, d, newId);
  }

  lemma ReconcileFails(list: seq<Bubble>, id: Id, newId: Id, d: Delivery)
    requires UniqueIds(list) && d != Failed
    ensures OnlyFails(list, ReconcileSent(list, id, newId, d), "")
  {
    ReconcileBoard(list, id, newId, d);
  }

  lemma MergeFails(list: seq<Bubble>, next: Bubble)
    requires UniqueIds(list) && next.delivery.None?
    ensures OnlyFails(list, MergeStreamed(list, next), "")
  {
    var _ := MergeBoard(list, next);
  }

  lemma MarkFails(list: seq<Bubble>, upToNs: int)
    requires UniqueIds(list)
    ensures OnlyFails(list, MarkReadUpTo(list, upToNs), "")
  {
    MarkBoard(list, upToNs);
  }

  lemma SettleFails(list: seq<Bubble>, id: Id, d: Delivery)
    requires UniqueIds(list)
    ensures OnlyFails(list, SettleRetry(list, id, d), id)
  {
    SettleBoard(list, id, d);
  }

  // ----- event by event -----

  lemma NewSendKnown(s: State, e: Event)
    requires Inv(s) && FailuresKnown(s) && (e.SendText? || e.SendFile?) && Enabled(s, e)
    ensures FailuresKnown(Apply(s, e))
  {
    var s' := Apply(s, e);
    EventKnowsMore(s, e);
    FreshIdUnlisted(s, s'.list[0].id);
    assert s'.list == [s'.list[0]] + s.list;
    PrependFails(s.list, s'.list[0]);
    NoNewFailure(s, s');
  }

  lemma UploadKnown(s: State, e: Event)
    requires Inv(s) && FailuresKnown(s) && (e.UploadOk? || e.UploadRejected?) && Enabled(s, e)
    ensures FailuresKnown(Apply(s, e))
  {
    EventKnowsMore(s, e);
    if e.UploadOk? {
      UploadFails(s.list, s.log[e.x].origin.localId, e.digest);
    } else {
      DiscardFails(s.list, s.log[e.x].origin.localId);
    }
    NoNewFailure(s, Apply(s, e));
  }

  lemma AttemptKnown(s: State, x: nat)
    requires Inv(s) && FailuresKnown(s) && Enabled(s, AttemptFailed(x))
    ensures FailuresKnown(Apply(s, AttemptFailed(x)))
  {
    EventKnowsMore(s, AttemptFailed(x));
    FailedMsgOk(s, x);
    SetDeliveryFails(s.list, s.log[x].origin.localId, Failed, "");
    StillKnown(s, Apply(s, AttemptFailed(x)), s.log[x].origin.localId);
  }

  lemma QuietLogKnown(s: State, e: Event)
    requires Inv(s) && FailuresKnown(s) && (e.PrepareOk? || e.Learn? || e.ResendPrepared?) && Enabled(s, e)
    ensures FailuresKnown(Apply(s, e))
  {
    EventKnowsMore(s, e);
    if e.ResendPrepared? { WithoutResendIn(s.resends, e.r); }
    NoNewFailure(s, Apply(s, e));
  }

  lemma AckKnown(s: State, e: Event)
    requires Inv(s) && FailuresKnown(s) && (e.Ack? || e.ResendAck?) && Enabled(s, e)
    ensures FailuresKnown(Apply(s, e))
  {
    EventKnowsMore(s, e);
    var shownId := if e.Ack? then s.log[e.x].origin.localId else s.log[e.x].origin.oldId;
    ReconcileFails(s.list, shownId, s.log[e.x].netId.value, e.delivery);
    NoNewFailure(s, Apply(s, e));
  }

  lemma PublishKnown(s: State, e: Event)
    requires Inv(s) && FailuresKnown(s) && (e.PublishFailed? || e.ResendPublishFailed?) && Enabled(s, e)
    ensures FailuresKnown(Apply(s, e))
  {
    EventKnowsMore(s, e);
    assert MsgOk(s.log[e.x]);
    var shownId := if e.PublishFailed? then s.log[e.x].origin.localId else s.log[e.x].origin.oldId;
    SetDeliveryFails(s.list, shownId, Failed, s.log[e.x].netId.value);
    StillKnown(s, Apply(s, e), s.log[e.x].netId.value);
  }

  lemma ResendKnown(s: State, r: nat)
    requires Inv(s) && FailuresKnown(s) && Enabled(s, ResendFailed(r))
    ensures FailuresKnown(Apply(s, ResendFailed(r)))
  {
    var s' := Apply(s, ResendFailed(r));
    EventKnowsMore(s, ResendFailed(r));
    WithoutResendIn(s.resends, r);
    SetDeliveryFails(s.list, s.resends[r].oldId, Failed, "");
    AccountedStays(s, s', s.resends[r].oldId);
    StillKnown(s, s', s.resends[r].oldId);
  }

  lemma TapKnown(s: State, b: Bubble, canRepublish: bool)
    requires Inv(s) && FailuresKnown(s) && b in s.list
    ensures FailuresKnown(Apply(s, TapRetry(b, canRepublish)))
  {
    var s' := Apply(s, TapRetry(b, canRepublish));
    EventKnowsMore(s, TapRetry(b, canRepublish));
    SetDeliveryFails(s.list, b.id, Pending, "");
    assert OnlyFails(s.list, s.list, "");
    if RetryChoice(b, s.storedIds, canRepublish) == Resend && !IsLocalId(b.id) {
      TappedIsAccounted(s, b, canRepublish);
      AccountedStays(s, s', b.id);
    }
    NoNewFailure(s, s');
  }

  lemma TappedIsAccounted(s: State, b: Bubble, canRepublish: bool)
    requires Inv(s) && FailuresKnown(s) && b in s.list && !IsLocalId(b.id)
    requires RetryChoice(b, s.storedIds, canRepublish) == Resend
    ensures Accounted(s, b.id)
  {
    TappedReplaces(s, b, canRepublish);
    assert Board(s.list)[b.id] == b && FailedAs(Board(s.list), b.id);
  }

  lemma ViewKnown(s: State, e: Event)
    requires Inv(s) && FailuresKnown(s) && (e.Echo? || e.Receipt? || e.Discard? || e.Mount?) && Enabled(s, e)
    ensures FailuresKnown(Apply(s, e))
  {
    EventKnowsMore(s, e);
    match e {
      case Echo(x) => MergeFails(s.list, Copy(s.log[x]));
      case Receipt(upToNs) => MarkFails(s.list, upToNs);
      case Discard(id) => DiscardFails(s.list, id);
      case Mount =>
    }
    NoNewFailure(s, Apply(s, e));
  }

  lemma SettledKnown(s: State, id: Id, d: Delivery)
    requires Inv(s) && FailuresKnown(s) && Enabled(s, RetrySettled(id, d))
    ensures FailuresKnown(Apply(s, RetrySettled(id, d)))
  {
    EventKnowsMore(s, RetrySettled(id, d));
    SettleFails(s.list, id, d);
    StillKnown(s, Apply(s, RetrySettled(id, d)), id);
  }

  /** A failed bubble of a loaded history is of a message it marks as given up. */
  lemma HistoryFailures(s: State, e: Event, id: Id)
    requires Inv(s) && (e.Load? || e.Resume?) && Enabled(s, e)
    ensures var history := Fresh(s.log, e.rows, e.upToNs);
      UniqueIds(history) && (FailedAs(Board(history), id) ==> GaveUp(Apply(s, e), id))
  {
    var history := Fresh(s.log, e.rows, e.upToNs);
    FreshContents(s, e.rows, e.upToNs);
    if FailedAs(Board(history), id) {
      var i := HistoryRow(s.log, e.rows, e.upToNs, history, id);
      MarkedFailedRow(s.log, e.rows[i], e.upToNs);
      assert e.rows[i].x in GivenUp(e.rows);
      assert s.log[e.rows[i].x].netId == Some(id);
    }
  }

  lemma MarkedFailedRow(log: seq<Msg>, row: Row, upToNs: int)
    requires row.x < |log| && log[row.x].netId.Some?
    ensures HistoryBubble(log, row, upToNs).delivery == Some(Failed) ==> row.mark.MarkedFailed?
  {
  }

  /** What is failed after a binding was so in the history, or before. */
  ghost predicate FailsLike(list: seq<Bubble>, history: seq<Bubble>, list': seq<Bubble>) {
    && UniqueIds(list) && UniqueIds(history) && UniqueIds(list')
    && forall id :: FailedAs(Board(list'), id) ==> FailedAs(Board(history), id) || FailedAs(Board(list), id)
  }

  lemma ResumedFails(list: seq<Bubble>, history: seq<Bubble>)
    requires UniqueIds(list) && UniqueIds(history)
    ensures FailsLike(list, history, history) && FailsLike(list, history, SortNewest(Kept(list, history) + history))
  {
    var _ := ResumeBoard(list, history);
  }

  lemma BoundFails(s: State, e: Event)
    requires Inv(s) && (e.Load? || e.Resume?) && Enabled(s, e)
    ensures FailsLike(s.list, Fresh(s.log, e.rows, e.upToNs), Apply(s, e).list)
  {
    FreshContents(s, e.rows, e.upToNs);
    ResumedFails(s.list, Fresh(s.log, e.rows, e.upToNs));
  }

  lemma BindKnown(s: State, e: Event)
    requires Inv(s) && FailuresKnown(s) && (e.Load? || e.Resume?) && Enabled(s, e)
    ensures FailuresKnown(Apply(s, e))
  {
    var s' := Apply(s, e);
    EventKnowsMore(s, e);
    BoundFails(s, e);
    forall id | FailedAs(Board(s'.list), id) ensures Accounted(s', id) {
      HistoryFailures(s, e, id);
      if FailedAs(Board(s.list), id) { AccountedStays(s, s', id); }
    }
    forall r | 0 <= r < |s'.resends| ensures Accounted(s', s'.resends[r].oldId) {
      AccountedStays(s, s', s.resends[r].oldId);
    }
  }

  /** Every event keeps the account of its failed bubbles. */
  lemma FailuresStep(s: State, e: Event)
    requires Inv(s) && FailuresKnown(s) && Enabled(s, e)
    ensures FailuresKnown(Apply(s, e))
  {
    if IsSendEvent(e) { SendFailuresKnown(s, e); } else { ViewFailuresKnown(s, e); }
  }

  lemma SendFailuresKnown(s: State, e: Event)
    requires Inv(s) && FailuresKnown(s) && Enabled(s, e) && IsSendEvent(e)
    ensures FailuresKnown(Apply(s, e))
  {
    match e {
      case SendText(_, _, _, _) => NewSendKnown(s, e);
      case SendFile(_, _, _) => NewSendKnown(s, e);
      case UploadOk(_, _) => UploadKnown(s, e);
      case UploadRejected(_) => UploadKnown(s, e);
      case AttemptFailed(x) => AttemptKnown(s, x);
      case PrepareOk(_, _, _) => QuietLogKnown(s, e);
      case Ack(_, _) => AckKnown(s, e);
      case PublishFailed(_) => PublishKnown(s, e);
      case Learn(_) => QuietLogKnown(s, e);
      case ResendFailed(r) => ResendKnown(s, r);
      case ResendPrepared(_, _, _) => QuietLogKnown(s, e);
      case ResendAck(_, _) => AckKnown(s, e);
      case ResendPublishFailed(_) => PublishKnown(s, e);
    }
  }

  lemma ViewFailuresKnown(s: State, e: Event)
    requires Inv(s) && FailuresKnown(s) && Enabled(s, e) && !IsSendEvent(e)
    ensures FailuresKnown(Apply(s, e))
  {
    if e.TapRetry? {
      TapKnown(s, e.bubble, e.canRepublish);
    } else if e.RetrySettled? {
      SettledKnown(s, e.id, e.delivery);
    } else if e.Load? || e.Resume? {
      BindKnown(s, e);
    } else {
      ViewKnown(s, e);
    }
  }
}
