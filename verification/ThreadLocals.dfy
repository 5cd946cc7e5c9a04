/** Local ids only ever leave the list: an id a send started under is listed from its start, never again
    once it is gone. So a message being sent a second time has no bubble left under its local id. */
module ThreadLocals {
  import opened Wrappers
  import opened DeliveryState
  import opened ThreadProtocol
  import opened ThreadInvariant
  import opened ThreadTwins

  /** Nothing but `id` is listed afterwards that was not before. */
  ghost predicate OnlyAdds(list: seq<Bubble>, list': seq<Bubble>, id: Id) {
    UniqueIds(list) && UniqueIds(list') && forall i :: i in Board(list') ==> i in Board(list) || i == id
  }

  /** No local id of a message comes back. */
  ghost predicate LocalsGo(s: State, s': State) {
    && UniqueIds(s.list) && UniqueIds(s'.list)
    && forall x :: 0 <= x < |s.log| && s.log[x].origin.Composer? ==>
         s.log[x].origin.localId in Board(s'.list) ==> s.log[x].origin.localId in Board(s.list)
  }

  lemma OnlyAddsNoLocal(s: State, s': State, id: Id)
    requires Inv(s) && OnlyAdds(s.list, s'.list, id) && (!IsLocalId(id) || FreshLocalId(s, id))
    ensures LocalsGo(s, s')
  {
    forall x | 0 <= x < |s.log| && s.log[x].origin.Composer? ensures s.log[x].origin.localId != id {
      assert MsgOk(s.log[x]);
    }
  }

  lemma SetDeliveryAdds(list: seq<Bubble>, id: Id, d: Delivery, newId: Id)
    requires UniqueIds(list)
    ensures OnlyAdds(list, SetDelivery(list, id, d, newId), newId)
  {
    SetDeliveryBoard(list, id, d, newId);
  }

  lemma ReconcileAdds(list: seq<Bubble>, id: Id, newId: Id, d: Delivery)
    requires UniqueIds(list)
    ensures OnlyAdds(list, ReconcileSent(list, id, newId, d), newId)
  {
    ReconcileBoard(list, id, newId, d);
  }

  lemma DiscardAdds(list: seq<Bubble>, id: Id)
    requires UniqueIds(list)
    ensures OnlyAdds(list, DiscardMessage(list, id), "")
  {
    DiscardBoard(list, id);
  }

  lemma SendLocalsGo(s: State, e: Event)
    requires Inv(s) && Enabled(s, e) && IsSendEvent(e)
    ensures LocalsGo(s, Apply(s, e))
  {
    match e {
      case SendText(id, _, _, _) => NewLocal(s, e, id);
      case SendFile(id, _, _) => NewLocal(s, e, id);
      case UploadOk(x, digest) => UploadLocalsGo(s, x, digest);
      case UploadRejected(x) =>
        DiscardAdds(s.list, s.log[x].origin.localId);
        OnlyAddsNoLocal(s, Apply(s, e), "");
      case AttemptFailed(x) =>
        SetDeliveryAdds(s.list, s.log[x].origin.localId, Failed, "");
        OnlyAddsNoLocal(s, Apply(s, e), "");
      case Ack(x, d) => SettledLocalsGo(s, x, s.log[x].origin.localId, d, Apply(s, e));
      case PublishFailed(x) => FailedLocalsGo(s, x, s.log[x].origin.localId, Apply(s, e));
      case ResendFailed(r) =>
        SetDeliveryAdds(s.list, s.resends[r].oldId, Failed, "");
        OnlyAddsNoLocal(s, Apply(s, e), "");
      case ResendAck(x, d) => SettledLocalsGo(s, x, s.log[x].origin.oldId, d, Apply(s, e));
      case ResendPublishFailed(x) => FailedLocalsGo(s, x, s.log[x].origin.oldId, Apply(s, e));
      case _ =>
    }
  }

  lemma NewLocal(s: State, e: Event, id: Id)
    requires Inv(s) && Enabled(s, e) && (e.SendText? || e.SendFile?) && FreshLocalId(s, id) && Apply(s, e).list[0].id == id
    requires Apply(s, e).list[1..] == s.list
    ensures LocalsGo(s, Apply(s, e))
  {
    var s' := Apply(s, e);
    FreshIdUnlisted(s, id);
    assert s'.list == [s'.list[0]] + s.list;
    PrependBoard(s.list, s'.list[0]);
    OnlyAddsNoLocal(s, s', id);
  }

  lemma UploadLocalsGo(s: State, x: nat, digest: string)
    requires Inv(s) && Enabled(s, UploadOk(x, digest))
    ensures LocalsGo(s, Apply(s, UploadOk(x, digest)))
  {
    UploadBoard(s.list, s.log[x].origin.localId, digest);
    OnlyAddsNoLocal(s, Apply(s, UploadOk(x, digest)), "");
  }

  lemma SettledLocalsGo(s: State, x: nat, shownId: Id, d: Delivery, s': State)
    requires Inv(s) && x < |s.log| && s.log[x].netId.Some?
    requires s'.list == ReconcileSent(s.list, shownId, s.log[x].netId.value, d)
    ensures LocalsGo(s, s')
  {
    assert MsgOk(s.log[x]);
    ReconcileAdds(s.list, shownId, s.log[x].netId.value, d);
    OnlyAddsNoLocal(s, s', s.log[x].netId.value);
  }

  lemma FailedLocalsGo(s: State, x: nat, shownId: Id, s': State)
    requires Inv(s) && x < |s.log| && s.log[x].netId.Some?
    requires s'.list == SetDelivery(s.list, shownId, Failed, s.log[x].netId.value)
    ensures LocalsGo(s, s')
  {
    assert MsgOk(s.log[x]);
    SetDeliveryAdds(s.list, shownId, Failed, s.log[x].netId.value);
    OnlyAddsNoLocal(s, s', s.log[x].netId.value);
  }

  lemma ViewLocalsGo(s: State, e: Event)
    requires Inv(s) && Enabled(s, e) && !IsSendEvent(e)
    ensures LocalsGo(s, Apply(s, e))
  {
    match e {
      case Echo(x) => EchoLocalsGo(s, x);
      case Receipt(upToNs) => QuietLocalsGo(s, e);
      case TapRetry(b, canRepublish) => TapLocalsGo(s, b, canRepublish);
      case RetrySettled(id, d) => QuietLocalsGo(s, e);
      case Discard(id) => QuietLocalsGo(s, e);
      case Mount =>
      case Load(_, _) => BindLocalsGo(s, e);
      case Resume(_, _) => BindLocalsGo(s, e);
    }
  }

  lemma QuietLocalsGo(s: State, e: Event)
    requires Inv(s) && Enabled(s, e) && (e.Receipt? || e.RetrySettled? || e.Discard?)
    ensures LocalsGo(s, Apply(s, e))
  {
    if e.Receipt? {
      MarkBoard(s.list, e.upToNs);
    } else if e.RetrySettled? {
      SettleBoard(s.list, e.id, e.delivery);
    } else {
      DiscardBoard(s.list, e.id);
    }
    OnlyAddsNoLocal(s, Apply(s, e), "");
  }

  lemma TapLocalsGo(s: State, b: Bubble, canRepublish: bool)
    requires Inv(s) && b in s.list
    ensures LocalsGo(s, Apply(s, TapRetry(b, canRepublish)))
  {
    SetDeliveryAdds(s.list, b.id, Pending, "");
    OnlyAddsNoLocal(s, Apply(s, TapRetry(b, canRepublish)), "");
  }

  lemma EchoLocalsGo(s: State, x: nat)
    requires Inv(s) && Enabled(s, Echo(x))
    ensures LocalsGo(s, Apply(s, Echo(x)))
  {
    var _ := MergeBoard(s.list, Copy(s.log[x]));
    assert MsgOk(s.log[x]);
    OnlyAddsNoLocal(s, Apply(s, Echo(x)), s.log[x].netId.value);
  }

  /** History brings network ids only. */
  lemma NoLocalsInHistory(s: State, rows: seq<Row>, upToNs: int)
    requires Inv(s) && RowsOk(s, rows)
    ensures var history := Fresh(s.log, rows, upToNs);
      && UniqueIds(history)
      && forall x :: 0 <= x < |s.log| && s.log[x].origin.Composer? ==> s.log[x].origin.localId !in Board(history)
  {
    var history := Fresh(s.log, rows, upToNs);
    FreshContents(s, rows, upToNs);
    forall x | 0 <= x < |s.log| && s.log[x].origin.Composer? ensures s.log[x].origin.localId !in Board(history) {
      assert MsgOk(s.log[x]);
      if s.log[x].origin.localId in Board(history) {
        var _ := HistoryRow(s.log, rows, upToNs, history, s.log[x].origin.localId);
      }
    }
  }

  lemma BindLocalsGo(s: State, e: Event)
    requires Inv(s) && Enabled(s, e) && (e.Load? || e.Resume?)
    ensures LocalsGo(s, Apply(s, e))
  {
    NoLocalsInHistory(s, e.rows, e.upToNs);
    if e.Resume? { var _ := ResumeBoard(s.list, Fresh(s.log, e.rows, e.upToNs)); }
  }

  // ----- messages being sent a second time -----

  /** A second send is or was shown under this id. */
  ghost predicate Resent(s: State, id: Id) {
    || (exists r :: 0 <= r < |s.resends| && s.resends[r].oldId == id)
    || (exists y :: 0 <= y < |s.log| && s.log[y].origin.Again? && s.log[y].origin.oldId == id)
  }

  /** A message sent again has no bubble under its local id. */
  ghost predicate RetriedAlone(s: State) {
    && UniqueIds(s.list)
    && forall x :: 0 <= x < |s.log| && s.log[x].origin.Composer? && s.log[x].netId.Some? ==>
         Resent(s, s.log[x].netId.value) ==> s.log[x].origin.localId !in Board(s.list)
  }

  /** Only a tap has an id sent again that was not before. */
  lemma ResentBefore(s: State, e: Event, id: Id)
    requires Enabled(s, e) && Resent(Apply(s, e), id)
    ensures Resent(s, id) || (e.TapRetry? && e.bubble.id == id && RetryChoice(e.bubble, s.storedIds, e.canRepublish) == Resend)
  {
    if IsSendEvent(e) { ResentBySend(s, e, id); }
  }

  lemma ResentBySend(s: State, e: Event, id: Id)
    requires Enabled(s, e) && IsSendEvent(e) && Resent(Apply(s, e), id)
    ensures Resent(s, id)
  {
    var s' := Apply(s, e);
    if r :| 0 <= r < |s'.resends| && s'.resends[r].oldId == id {
      assert s'.resends[r] in s.resends;
    } else {
      var y :| 0 <= y < |s'.log| && s'.log[y].origin.Again? && s'.log[y].origin.oldId == id;
      assert (y < |s.log| && s.log[y].origin.Again?) || e.ResendPrepared?;
    }
  }

  /** The id a second send is shown under is a message's. */
  lemma ResentIsKnown(s: State, id: Id)
    requires ResendsOk(s) && Resent(s, id)
    ensures exists x :: 0 <= x < |s.log| && s.log[x].netId == Some(id)
  {
  }

  lemma ListedIsKnown(s: State, b: Bubble)
    requires Inv(s) && b in s.list && !IsLocalId(b.id)
    ensures exists x :: 0 <= x < |s.log| && s.log[x].netId == Some(b.id)
  {
    var x := OwnerOf(s, b.id);
    assert s.log[x].netId == Some(b.id);
  }

  lemma TappedIsAlone(s: State, b: Bubble, canRepublish: bool, x: nat)
    requires Inv(s) && TwinFree(s) && b in s.list && RetryChoice(b, s.storedIds, canRepublish) == Resend
    requires x < |s.log| && s.log[x].origin.Composer? && s.log[x].netId == Some(b.id)
    ensures s.log[x].origin.localId !in Board(s.list)
  {
    assert Board(s.list)[b.id] == b;
    assert MessageOk(Board(s.list), s.log[x], x in s.confirmed, s.receipts);
  }

  lemma LocalsGoStep(s: State, e: Event)
    requires Inv(s) && Enabled(s, e)
    ensures LocalsGo(s, Apply(s, e))
  {
    if IsSendEvent(e) { SendLocalsGo(s, e); } else { ViewLocalsGo(s, e); }
  }

  /** How a composer send with both ids came by them. */
  ghost predicate NamedBefore(s: State, e: Event, s': State, x: nat)
    requires x < |s'.log| && s'.log[x].origin.Composer? && s'.log[x].netId.Some?
  {
    && x < |s.log| && s.log[x].origin.Composer? && s.log[x].origin.localId == s'.log[x].origin.localId
    && (s.log[x].netId == s'.log[x].netId || FreshNetId(s, s'.log[x].netId.value))
  }

  lemma SendNamesBefore(s: State, e: Event, x: nat)
    requires Enabled(s, e) && x < |Apply(s, e).log| && Apply(s, e).log[x].origin.Composer? && Apply(s, e).log[x].netId.Some?
    ensures NamedBefore(s, e, Apply(s, e), x)
  {
  }

  /** A message sent again stays without its local bubble. */
  lemma AloneStep(s: State, e: Event)
    requires Inv(s) && ResendsOk(s) && Enabled(s, e) && TwinFree(s) && RetriedAlone(s)
    ensures RetriedAlone(Apply(s, e))
  {
    var s' := Apply(s, e);
    LocalsGoStep(s, e);
    forall x | 0 <= x < |s'.log| && s'.log[x].origin.Composer? && s'.log[x].netId.Some? && Resent(s', s'.log[x].netId.value)
      ensures s'.log[x].origin.localId !in Board(s'.list)
    {
      SendNamesBefore(s, e, x);
      AloneBefore(s, e, x, s'.log[x].netId.value);
    }
  }

  lemma AloneBefore(s: State, e: Event, x: nat, netId: Id)
    requires Inv(s) && ResendsOk(s) && Enabled(s, e) && TwinFree(s) && RetriedAlone(s) && Resent(Apply(s, e), netId)
    requires x < |s.log| && s.log[x].origin.Composer? && (s.log[x].netId == Some(netId) || FreshNetId(s, netId))
    ensures s.log[x].origin.localId !in Board(s.list)
  {
    ResentBefore(s, e, netId);
    if Resent(s, netId) {
      ResentIsKnown(s, netId);
    } else if s.log[x].netId == Some(netId) {
      TappedIsAlone(s, e.bubble, e.canRepublish, x);
    } else {
      ListedIsKnown(s, e.bubble);
    }
  }

  lemma TwinsResendFailed(s: State, r: nat)
    requires Inv(s) && ResendsOk(s) && Enabled(s, ResendFailed(r)) && TwinFree(s) && RetriedAlone(s)
    ensures TwinFree(Apply(s, ResendFailed(r)))
  {
    var oldId := s.resends[r].oldId;
    assert Resent(s, oldId);
    RelabelCalm(s.list, oldId, Failed);
    var m' := Board(Apply(s, ResendFailed(r)).list);
    forall x | 0 <= x < |s.log| && Twin(m', s.log[x]) ensures x in ConfirmedBut(s, oldId) {
      assert Twin(Board(s.list), s.log[x]);
    }
  }

  lemma TwinsTakeOver(s: State, y: nat, d: Delivery)
    requires Inv(s) && IsAgain(s, y, Publishing) && TwinFree(s) && RetriedAlone(s)
    ensures var list' := ReconcileSent(s.list, s.log[y].origin.oldId, s.log[y].netId.value, d);
            && UniqueIds(list')
            && NoUnconfirmedTwins(Board(list'), s.log[y := AgainStored(s.log[y])], ConfirmedBut(s, s.log[y].origin.oldId))
  {
    var m, oldId, netId := Board(s.list), s.log[y].origin.oldId, s.log[y].netId.value;
    ReconcileBoard(s.list, oldId, netId, d);
    var m' := Reconciled(m, oldId, netId, d);
    assert MsgOk(s.log[y]) && Resent(s, oldId);
    forall x | 0 <= x < |s.log| && x != y && Twin(m', s.log[x]) ensures x in ConfirmedBut(s, oldId) {
      OtherTwinBefore(s, y, x, d);
    }
  }

  lemma OtherTwinBefore(s: State, y: nat, x: nat, d: Delivery)
    requires Inv(s) && IsAgain(s, y, Publishing) && TwinFree(s) && RetriedAlone(s) && x < |s.log| && x != y
    requires !IsLocalId(s.log[y].netId.value)
    requires Twin(Reconciled(Board(s.list), s.log[y].origin.oldId, s.log[y].netId.value, d), s.log[x])
    ensures x in ConfirmedBut(s, s.log[y].origin.oldId)
  {
    assert MsgOk(s.log[x]) && Resent(s, s.log[y].origin.oldId);
    OtherIdKept(s, y, x);
    assert Twin(Board(s.list), s.log[x]);
  }

  lemma TwinsResendAck(s: State, y: nat, d: Delivery)
    requires Inv(s) && Enabled(s, ResendAck(y, d)) && TwinFree(s) && RetriedAlone(s)
    ensures TwinFree(Apply(s, ResendAck(y, d)))
  {
    TwinsTakeOver(s, y, d);
  }

  lemma TwinsResendPublishFailed(s: State, y: nat)
    requires Inv(s) && IsAgain(s, y, Publishing) && TwinFree(s) && RetriedAlone(s)
    ensures TwinFree(Apply(s, ResendPublishFailed(y)))
  {
    PublishFailedAgain(s, y);
    TwinsTakeOver(s, y, Failed);
  }
}
