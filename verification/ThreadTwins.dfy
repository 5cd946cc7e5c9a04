/** A message shown under both its ids: in runs with safe re-binds it is then a confirmed one. */
module ThreadTwins {
  import opened DeliveryState
  import opened ThreadProtocol
  import opened ThreadInvariant

  /** The message is listed under its local id and under its network id too. */
  predicate Twin(m: map<Id, Bubble>, msg: Msg) {
    msg.origin.Composer? && msg.netId.Some? && msg.origin.localId in m && msg.netId.value in m
  }

  predicate NoUnconfirmedTwins(m: map<Id, Bubble>, log: seq<Msg>, confirmed: set<nat>) {
    forall x :: 0 <= x < |log| && Twin(m, log[x]) ==> x in confirmed
  }

  ghost predicate TwinFree(s: State) {
    UniqueIds(s.list) && NoUnconfirmedTwins(Board(s.list), s.log, s.confirmed)
  }

  predicate SameIds(log: seq<Msg>, log': seq<Msg>) {
    |log| == |log'| && forall x :: 0 <= x < |log| ==>
      && log'[x].netId == log[x].netId && (log'[x].origin.Composer? <==> log[x].origin.Composer?)
      && (log[x].origin.Composer? ==> log'[x].origin.localId == log[x].origin.localId)
  }

  /** Nothing is listed that was not before. */
  lemma TwinsCalm(m: map<Id, Bubble>, log: seq<Msg>, confirmed: set<nat>, m': map<Id, Bubble>, log': seq<Msg>)
    requires NoUnconfirmedTwins(m, log, confirmed) && (forall id :: id in m' ==> id in m) && SameIds(log, log')
    ensures NoUnconfirmedTwins(m', log', confirmed)
  {
    forall x | 0 <= x < |log'| && Twin(m', log'[x]) ensures x in confirmed {
      assert Twin(m, log[x]);
    }
  }

  // ----- event by event -----

  lemma TwinsAppend(s: State, e: Event)
    requires Inv(s) && (e.SendText? || e.SendFile?) && Enabled(s, e) && TwinFree(s)
    ensures TwinFree(Apply(s, e))
  {
    var s' := Apply(s, e);
    var b := s'.list[0];
    assert s'.list == [b] + s.list && s'.log == s.log + [s'.log[|s.log|]];
    FreshIdUnlisted(s, b.id);
    PrependBoard(s.list, b);
    forall x | 0 <= x < |s'.log| && Twin(Board(s'.list), s'.log[x]) ensures x in s.confirmed {
      assert x < |s.log|;
      assert MsgOk(s.log[x]) && !Owns(s.log[x], b.id) && Twin(Board(s.list), s.log[x]);
    }
  }

  lemma TwinsUpload(s: State, e: Event)
    requires Inv(s) && e.UploadOk? && Enabled(s, e) && TwinFree(s)
    ensures TwinFree(Apply(s, e))
  {
    UploadBoard(s.list, s.log[e.x].origin.localId, e.digest);
    TwinsCalm(Board(s.list), s.log, s.confirmed, Board(Apply(s, e).list), Apply(s, e).log);
  }

  lemma TwinsRefused(s: State, x: nat)
    requires Inv(s) && Enabled(s, UploadRejected(x)) && TwinFree(s)
    ensures TwinFree(Apply(s, UploadRejected(x)))
  {
    var s' := Apply(s, UploadRejected(x));
    DiscardBoard(s.list, s.log[x].origin.localId);
    TwinsCalm(Board(s.list), s.log, s.confirmed, Board(s'.list), s'.log);
  }

  lemma TwinsDiscard(s: State, id: Id)
    requires Inv(s) && Enabled(s, Discard(id)) && TwinFree(s)
    ensures TwinFree(Apply(s, Discard(id)))
  {
    DiscardBoard(s.list, id);
    TwinsCalm(Board(s.list), s.log, s.confirmed, Board(DiscardMessage(s.list, id)), s.log);
  }

  /** Relabelling lists nothing new. */
  lemma RelabelCalm(list: seq<Bubble>, id: Id, d: Delivery)
    requires UniqueIds(list)
    ensures UniqueIds(Relabel(list, id, id, d)) && forall i :: i in Board(Relabel(list, id, id, d)) ==> i in Board(list)
  {
    RelabelBoard(list, id, id, d);
  }

  lemma TwinsFailed(s: State, e: Event)
    requires Inv(s) && e.AttemptFailed? && Enabled(s, e) && TwinFree(s)
    ensures TwinFree(Apply(s, e))
  {
    var localId := s.log[e.x].origin.localId;
    RelabelCalm(s.list, localId, Failed);
    TwinsCalm(Board(s.list), s.log, s.confirmed, Board(Apply(s, e).list), Apply(s, e).log);
  }

  lemma TwinsPrepare(s: State, e: Event)
    requires Inv(s) && e.PrepareOk? && Enabled(s, e) && TwinFree(s)
    ensures TwinFree(Apply(s, e))
  {
    FreshIdUnlisted(s, e.netId);
    forall y | 0 <= y < |s.log| && Twin(Board(s.list), Apply(s, e).log[y]) ensures y in s.confirmed {
      assert Twin(Board(s.list), s.log[y]);
    }
  }

  /** Whichever branch links the two ids, the local one is gone afterwards. */
  lemma TwinsLink(s: State, x: nat, d: Delivery)
    requires Inv(s) && IsComposer(s, x, Publishing) && s.log[x].netId.Some? && TwinFree(s)
    ensures var list' := ReconcileSent(s.list, s.log[x].origin.localId, s.log[x].netId.value, d);
            UniqueIds(list') && NoUnconfirmedTwins(Board(list'), s.log[x := InPhase(s.log[x], Stored)], s.confirmed)
  {
    var m, localId, netId := Board(s.list), s.log[x].origin.localId, s.log[x].netId.value;
    ReconcileBoard(s.list, localId, netId, d);
    assert MsgOk(s.log[x]);
    assert MessageOk(m, s.log[x], x in s.confirmed, s.receipts);
    var m' := Reconciled(m, localId, netId, d);
    assert localId !in m';
    forall y | 0 <= y < |s.log| && y != x && Twin(m', s.log[y]) ensures y in s.confirmed {
      assert MsgOk(s.log[y]);
      OtherIdKept(s, x, y);
      assert Twin(m, s.log[y]);
    }
  }

  lemma TwinsEcho(s: State, e: Event)
    requires Inv(s) && e.Echo? && Enabled(s, e) && TwinFree(s)
    ensures TwinFree(Apply(s, e))
  {
    var m, copy := Board(s.list), Copy(s.log[e.x]);
    var absorbed := MergeBoard(s.list, copy);
    var m' := Board(Apply(s, e).list);
    assert MsgOk(s.log[e.x]);
    forall y | 0 <= y < |s.log| && Twin(m', s.log[y]) ensures y in Apply(s, e).confirmed {
      assert MsgOk(s.log[y]);
      if y != e.x { OtherIdKept(s, e.x, y); assert Twin(m, s.log[y]); }
    }
  }

  lemma OtherIdKept(s: State, x: nat, y: nat)
    requires Inv(s) && x < |s.log| && y < |s.log| && x != y && s.log[x].netId.Some?
    ensures s.log[y].netId != s.log[x].netId
  {
    if s.log[y].netId == s.log[x].netId { OneOwner(s.log, s.confirmed, x, y, s.log[x].netId.value); }
  }

  lemma TwinsReceipt(s: State, e: Event)
    requires Inv(s) && e.Receipt? && Enabled(s, e) && TwinFree(s)
    ensures TwinFree(Apply(s, e))
  {
    MarkBoard(s.list, e.upToNs);
    TwinsCalm(Board(s.list), s.log, s.confirmed, Board(Apply(s, e).list), s.log);
  }

  lemma TwinsSettled(s: State, e: Event)
    requires Inv(s) && e.RetrySettled? && Enabled(s, e) && TwinFree(s)
    ensures TwinFree(Apply(s, e))
  {
    SettleBoard(s.list, e.id, e.delivery);
    TwinsCalm(Board(s.list), s.log, s.confirmed, Board(Apply(s, e).list), s.log);
  }
}
