/** The thread invariant holds at every reachable state. */
module ThreadInvariant {
  import opened Wrappers
  import opened StableSort
  import opened DeliveryState
  import opened ThreadProtocol

  // ----- order -----

  lemma SortedIsOrdered(list: seq<Bubble>)
    requires SortedBy(list, NewestFirst)
    ensures OrderOk(list)
  {
    var le := NewestFirst;
    forall i, j | 0 <= i < j < |list| ensures list[i].sentNs >= list[j].sentNs {
      assert le(list[i], list[j]) == NewestFirst(list[i], list[j]);
    }
  }

  lemma {:induction false} DiscardOrdered(list: seq<Bubble>, id: Id)
    requires OrderOk(list)
    ensures OrderOk(DiscardMessage(list, id))
  {
    if list != [] {
      DiscardOrdered(list[1..], id);
      DiscardContents(list[1..], id);
      var rest := DiscardMessage(list[1..], id);
      forall j | 0 <= j < |rest| && list[0].delivery.None? && rest[j].delivery.None?
        ensures list[0].sentNs >= rest[j].sentNs
      {
        assert rest[j] in rest;
        var k :| 0 <= k < |list[1..]| && list[1..][k] == rest[j];
        assert list[k + 1] == rest[j];
      }
    }
  }

  lemma RelabelOrdered(list: seq<Bubble>, id: Id, newId: Id, d: Delivery)
    requires OrderOk(list)
    ensures OrderOk(Relabel(list, id, newId, d))
  {
    var r := Relabel(list, id, newId, d);
    forall i | 0 <= i < |list| ensures r[i].sentNs == list[i].sentNs && (r[i].delivery.None? ==> list[i].delivery.None?) {
    }
  }

  // ----- steps that leave the list alone or add one bubble -----

  lemma InvSendText(s: State, e: Event)
    requires Inv(s) && e.SendText? && Enabled(s, e)
    ensures Inv(Apply(s, e))
  {
    InvAppend(s, Msg(Composer(e.localId, Sending, 0, 0), Text(e.text, e.replyTo), true, e.nowNs, None),
              Bubble(e.localId, e.nowNs, true, Text(e.text, e.replyTo), Some(Pending)));
  }

  lemma InvSendFile(s: State, e: Event)
    requires Inv(s) && e.SendFile? && Enabled(s, e)
    ensures Inv(Apply(s, e))
  {
    InvAppend(s, Msg(Composer(e.localId, Uploading, 0, 0), Attachment(Some(e.file), None), true, e.nowNs, None),
              Bubble(e.localId, e.nowNs, true, Attachment(Some(e.file), None), Some(Pending)));
  }

  lemma InvAppend(s: State, msg: Msg, b: Bubble)
    requires Inv(s) && MsgOk(msg) && msg.origin.Composer? && msg.netId.None?
    requires FreshLocalId(s, b.id) && msg.origin.localId == b.id && LocalOk(msg, b)
    ensures Inv(s.(list := [b] + s.list, log := s.log + [msg]))
  {
    var s' := s.(list := [b] + s.list, log := s.log + [msg]);
    var m := Board(s.list);
    FreshIdUnlisted(s, b.id);
    PrependBoard(s.list, b);
    AppendBoard(m, s, msg, b);
    LogAppend(s.log, s.confirmed, msg);
    if !s.receipts { PrependOrdered(s.list, b); }
  }

  lemma PrependOrdered(list: seq<Bubble>, b: Bubble)
    requires OrderOk(list) && b.delivery.Some?
    ensures OrderOk([b] + list)
  {
  }

  lemma FreshIdUnlisted(s: State, id: Id)
    requires Inv(s) && (FreshLocalId(s, id) || FreshNetId(s, id))
    ensures id !in Board(s.list)
    ensures forall x :: 0 <= x < |s.log| ==> !Owns(s.log[x], id)
  {
    forall x | 0 <= x < |s.log| ensures !Owns(s.log[x], id) {
      assert MsgOk(s.log[x]);
    }
  }

  lemma AppendBoard(m: map<Id, Bubble>, s: State, msg: Msg, b: Bubble)
    requires BoardOk(m, s) && msg.origin.Composer? && msg.netId.None?
    requires b.id == msg.origin.localId && LocalOk(msg, b)
    requires forall x :: 0 <= x < |s.log| ==> !Owns(s.log[x], b.id)
    ensures BoardOk(m[b.id := b], s.(log := s.log + [msg]))
  {
    var log', m' := s.log + [msg], m[b.id := b];
    forall id | id in m' ensures exists x :: 0 <= x < |log'| && Owns(log'[x], id) {
      if id == b.id {
        assert Owns(log'[|s.log|], id);
      } else {
        var x :| 0 <= x < |s.log| && Owns(s.log[x], id);
        assert Owns(log'[x], id);
      }
    }
    forall x | 0 <= x < |log'| && log'[x].origin.Composer? && log'[x].origin.localId in m'
      ensures LocalOk(log'[x], m'[log'[x].origin.localId])
    {
      if x < |s.log| { assert !Owns(s.log[x], b.id); }
    }
    forall x | 0 <= x < |log'| && log'[x].netId.Some? && log'[x].netId.value in m'
      ensures NetOk(log'[x], m'[log'[x].netId.value], x in s.confirmed, s.receipts)
    {
      assert !Owns(s.log[x], b.id);
    }
  }

  lemma InvLearn(s: State, e: Event)
    requires Inv(s) && e.Learn? && Enabled(s, e)
    ensures Inv(Apply(s, e))
  {
    FreshIdUnlisted(s, e.msg.netId.value);
    LogAppend(s.log, s.confirmed, e.msg);
    LearnBoard(Board(s.list), s, e.msg);
  }

  lemma LogAppend(log: seq<Msg>, confirmed: set<nat>, msg: Msg)
    requires LogOk(log, confirmed) && MsgOk(msg)
    requires msg.netId.Some? ==> forall x :: 0 <= x < |log| ==> !Owns(log[x], msg.netId.value)
    requires msg.origin.Composer? ==> forall x :: 0 <= x < |log| ==> !Owns(log[x], msg.origin.localId)
    ensures LogOk(log + [msg], confirmed)
  {
  }

  lemma LearnBoard(m: map<Id, Bubble>, s: State, msg: Msg)
    requires BoardOk(m, s) && !msg.origin.Composer? && msg.netId.Some? && msg.netId.value !in m
    requires forall x :: x in s.confirmed ==> x < |s.log|
    ensures BoardOk(m, s.(log := s.log + [msg]))
  {
    var log' := s.log + [msg];
    forall id | id in m ensures exists x :: 0 <= x < |log'| && Owns(log'[x], id) {
      var x :| 0 <= x < |s.log| && Owns(s.log[x], id);
      assert Owns(log'[x], id);
    }
  }

  // ----- steps of one message -----

  /** `msg'` is a later form of `msg`: same local id, and a network id only gained. */
  ghost predicate Evolves(log: seq<Msg>, x: nat, msg': Msg) {
    && x < |log|
    && (log[x].origin.Composer? <==> msg'.origin.Composer?)
    && (msg'.origin.Composer? ==> msg'.origin.localId == log[x].origin.localId)
    && (msg'.netId == log[x].netId
        || (log[x].netId.None? && msg'.netId.Some? && forall y :: 0 <= y < |log| ==> !Owns(log[y], msg'.netId.value)))
  }

  lemma LogEvolves(log: seq<Msg>, confirmed: set<nat>, x: nat, msg': Msg)
    requires LogOk(log, confirmed) && Evolves(log, x, msg') && MsgOk(msg')
    ensures LogOk(log[x := msg'], confirmed)
  {
    var log' := log[x := msg'];
    forall y, z | 0 <= y < z < |log'|
      ensures log'[y].netId.Some? ==> log'[y].netId != log'[z].netId
    {
      if msg'.netId != log[x].netId {
        assert !Owns(log[y], msg'.netId.value) && !Owns(log[z], msg'.netId.value);
      }
    }
  }

  /** Two messages of a sound log never own the same id. */
  lemma OneOwner(log: seq<Msg>, confirmed: set<nat>, x: nat, y: nat, id: Id)
    requires LogOk(log, confirmed) && x < |log| && y < |log| && Owns(log[x], id) && Owns(log[y], id)
    ensures x == y
  {
    assert MsgOk(log[x]) && MsgOk(log[y]);
  }

  /** Nothing but ids of `msg` differs between the two boards. */
  ghost predicate OnlyTouches(m: map<Id, Bubble>, m': map<Id, Bubble>, msg: Msg) {
    && (forall id :: id in m' ==> m'[id].id == id)
    && (forall id :: id in m || id in m' ==> !Owns(msg, id) ==> id in m && id in m' && m[id] == m'[id])
  }

  /** The bubbles of one message are sound. */
  ghost predicate MessageOk(m: map<Id, Bubble>, msg: Msg, confirmed: bool, receipts: bool) {
    && (msg.origin.Composer? && msg.origin.localId in m ==> LocalOk(msg, m[msg.origin.localId]))
    && (msg.netId.Some? && msg.netId.value in m ==> NetOk(msg, m[msg.netId.value], confirmed, receipts))
    && (confirmed ==> msg.netId.Some? && msg.netId.value in m)
  }

  lemma OthersUntouched(m: map<Id, Bubble>, s: State, m': map<Id, Bubble>, msg': Msg, x: nat, y: nat)
    requires LogOk(s.log, s.confirmed) && BoardOk(m, s) && Evolves(s.log, x, msg') && OnlyTouches(m, m', msg')
    requires y < |s.log| && y != x
    ensures MessageOk(m', s.log[y], y in s.confirmed, s.receipts)
  {
    var msg := s.log[y];
    forall id | Owns(msg, id) ensures !Owns(msg', id) {
      assert MsgOk(msg) && MsgOk(s.log[x]);
      if Owns(s.log[x], id) { OneOwner(s.log, s.confirmed, x, y, id); }
    }
    if msg.origin.Composer? { assert Owns(msg, msg.origin.localId); }
    if msg.netId.Some? { assert Owns(msg, msg.netId.value); }
  }

  lemma OwnedAfter(m: map<Id, Bubble>, log: seq<Msg>, m': map<Id, Bubble>, x: nat, msg': Msg)
    requires OwnedOk(m, log) && x < |log| && OnlyTouches(m, m', msg')
    requires forall id :: Owns(log[x], id) ==> Owns(msg', id)
    ensures OwnedOk(m', log[x := msg'])
  {
    var log' := log[x := msg'];
    forall id | id in m' ensures exists y :: 0 <= y < |log'| && Owns(log'[y], id) {
      if Owns(msg', id) {
        assert Owns(log'[x], id);
      } else {
        var y :| 0 <= y < |log| && Owns(log[y], id);
        assert Owns(log'[y], id);
      }
    }
  }

  /** A step that touches only bubbles of message `x` keeps the board sound if those stay sound. */
  lemma MessageStep(m: map<Id, Bubble>, s: State, m': map<Id, Bubble>, s': State, x: nat, msg': Msg)
    requires LogOk(s.log, s.confirmed) && BoardOk(m, s) && Evolves(s.log, x, msg') && s'.log == s.log[x := msg']
    requires s'.receipts == s.receipts && s'.confirmed - {x} == s.confirmed - {x}
    requires OnlyTouches(m, m', msg')
    requires MessageOk(m', msg', x in s'.confirmed, s'.receipts)
    ensures BoardOk(m', s')
  {
    OwnedAfter(m, s.log, m', x, msg');
    forall y | y in s'.confirmed ensures y < |s.log| { assert y == x || y in s'.confirmed - {x}; }
    forall y | 0 <= y < |s'.log|
      ensures MessageOk(m', s'.log[y], y in s'.confirmed, s'.receipts)
    {
      if y != x {
        OthersUntouched(m, s, m', msg', x, y);
        assert y in s'.confirmed - {x} <==> y in s.confirmed - {x};
      }
    }
    AllMessagesOk(m', s');
  }

  lemma AllMessagesOk(m: map<Id, Bubble>, s: State)
    requires OwnedOk(m, s.log) && forall id :: id in m ==> m[id].id == id
    requires forall y :: y in s.confirmed ==> y < |s.log|
    requires forall y :: 0 <= y < |s.log| ==> MessageOk(m, s.log[y], y in s.confirmed, s.receipts)
    ensures BoardOk(m, s)
  {
  }

  lemma InvPrepareOk(s: State, e: Event)
    requires Inv(s) && e.PrepareOk? && Enabled(s, e)
    ensures Inv(Apply(s, e))
  {
    var s' := Apply(s, e);
    var m := Board(s.list);
    assert MsgOk(s.log[e.x]);
    FreshIdUnlisted(s, e.netId);
    LogEvolves(s.log, s.confirmed, e.x, s'.log[e.x]);
    MessageStep(m, s, m, s', e.x, s'.log[e.x]);
  }

  /** A composer step before the SDK stored anything: only the local bubble can change. */
  lemma LocalStep(m: map<Id, Bubble>, s: State, m': map<Id, Bubble>, x: nat, msg': Msg, s': State)
    requires LogOk(s.log, s.confirmed) && BoardOk(m, s) && x < |s.log| && MsgOk(msg')
    requires s.log[x].origin.Composer? && s.log[x].netId.None? && msg'.origin.Composer? && msg'.netId.None?
    requires msg'.origin.localId == s.log[x].origin.localId
    requires s' == s.(log := s.log[x := msg'], list := s'.list)
    requires m' - {msg'.origin.localId} == m - {msg'.origin.localId}
    requires msg'.origin.localId in m' ==>
      m'[msg'.origin.localId].id == msg'.origin.localId && LocalOk(msg', m'[msg'.origin.localId])
    ensures LogOk(s'.log, s'.confirmed) && BoardOk(m', s')
  {
    LogEvolves(s.log, s.confirmed, x, msg');
    var id := msg'.origin.localId;
    forall i | i in m || i in m' ensures i != id ==> i in m && i in m' && m[i] == m'[i] {
      assert i != id ==> (i in m - {id} <==> i in m' - {id});
      if i != id { assert (m - {id})[i] == (m' - {id})[i]; }
    }
    MessageStep(m, s, m', s', x, msg');
  }

  /** What an upload makes of its message. */
  function UploadedMsg(msg: Msg, digest: string): Msg
    requires msg.origin.Composer? && msg.body.Attachment?
  {
    var o := msg.origin;
    msg.(origin := Composer(o.localId, Sending, o.uploads + 1, o.prepares), body := Attachment(msg.body.localFile, Some(digest)))
  }

  lemma UploadEffect(s: State, x: nat, digest: string)
    requires Inv(s) && IsComposer(s, x, Uploading)
    ensures s.log[x].body.Attachment? && MsgOk(s.log[x]) && MsgOk(UploadedMsg(s.log[x], digest))
    ensures Apply(s, UploadOk(x, digest))
         == s.(list := AttachUploaded(s.list, s.log[x].origin.localId, digest), log := s.log[x := UploadedMsg(s.log[x], digest)])
  {
    assert MsgOk(s.log[x]);
  }

  lemma InvUploadOk(s: State, x: nat, digest: string)
    requires Inv(s) && Enabled(s, UploadOk(x, digest))
    ensures Inv(Apply(s, UploadOk(x, digest)))
  {
    UploadEffect(s, x, digest);
    var s' := Apply(s, UploadOk(x, digest));
    var m, localId := Board(s.list), s.log[x].origin.localId;
    UploadBoard(s.list, localId, digest);
    LocalStep(m, s, Uploaded(m, localId, digest), x, UploadedMsg(s.log[x], digest), s');
    UploadOrdered(s.list, localId, digest);
  }

  lemma UploadOrdered(list: seq<Bubble>, id: Id, digest: string)
    ensures OrderOk(list) ==> OrderOk(AttachUploaded(list, id, digest))
  {
  }

  lemma InvUploadRejected(s: State, e: Event)
    requires Inv(s) && e.UploadRejected? && Enabled(s, e)
    ensures Inv(Apply(s, e))
  {
    var s' := Apply(s, e);
    var m, localId := Board(s.list), s.log[e.x].origin.localId;
    assert MsgOk(s.log[e.x]);
    DiscardBoard(s.list, localId);
    LocalStep(m, s, m - {localId}, e.x, s'.log[e.x], s');
    if !s.receipts { DiscardOrdered(s.list, localId); }
  }

  lemma FailedMsgOk(s: State, x: nat)
    requires Inv(s) && Enabled(s, AttemptFailed(x))
    ensures MsgOk(s.log[x]) && s.log[x].netId.None? && MsgOk(InPhase(s.log[x], FailedNoId))
  {
    assert MsgOk(s.log[x]);
  }

  lemma InvAttemptFailed(s: State, x: nat)
    requires Inv(s) && Enabled(s, AttemptFailed(x))
    ensures Inv(Apply(s, AttemptFailed(x)))
  {
    var s' := Apply(s, AttemptFailed(x));
    var m, localId := Board(s.list), s.log[x].origin.localId;
    FailedMsgOk(s, x);
    RelabelBoard(s.list, localId, localId, Failed);
    LocalStep(m, s, Relabelled(m, localId, localId, Failed), x, InPhase(s.log[x], FailedNoId), s');
    if !s.receipts { RelabelOrdered(s.list, localId, localId, Failed); }
  }

  /** Linking a send to its network id, as sent, unpublished or failed. */
  lemma LinkBoard(m: map<Id, Bubble>, s: State, x: nat, d: Delivery, s': State)
    requires LogOk(s.log, s.confirmed) && BoardOk(m, s)
    requires IsComposer(s, x, Publishing) && s.log[x].netId.Some?
    requires d != Read && d != Pending
    requires s' == s.(log := s.log[x := InPhase(s.log[x], Stored)], storedIds := s'.storedIds, list := s'.list)
    ensures BoardOk(Reconciled(m, s.log[x].origin.localId, s.log[x].netId.value, d), s')
    ensures LogOk(s'.log, s'.confirmed)
  {
    var msg, msg' := s.log[x], InPhase(s.log[x], Stored);
    assert MsgOk(msg);
    LogEvolves(s.log, s.confirmed, x, msg');
    assert MessageOk(m, msg, x in s.confirmed, s.receipts);
    LinkMessage(m, msg, d, x in s.confirmed, s.receipts);
    MessageStep(m, s, Reconciled(m, msg.origin.localId, msg.netId.value, d), s', x, msg');
  }

  lemma LinkMessage(m: map<Id, Bubble>, msg: Msg, d: Delivery, confirmed: bool, receipts: bool)
    requires MsgOk(msg) && msg.origin.Composer? && msg.origin.phase == Publishing && msg.netId.Some?
    requires MessageOk(m, msg, confirmed, receipts)
    requires forall id :: id in m ==> m[id].id == id
    requires d != Read && d != Pending
    ensures var m' := Reconciled(m, msg.origin.localId, msg.netId.value, d);
            OnlyTouches(m, m', InPhase(msg, Stored)) && MessageOk(m', InPhase(msg, Stored), confirmed, receipts)
  {
  }

  lemma ReconcileOrdered(list: seq<Bubble>, id: Id, newId: Id, d: Delivery)
    requires OrderOk(list)
    ensures OrderOk(ReconcileSent(list, id, newId, d))
  {
    DiscardOrdered(list, id);
    RelabelOrdered(list, id, newId, d);
  }

  lemma InvAck(s: State, e: Event)
    requires Inv(s) && e.Ack? && Enabled(s, e)
    ensures Inv(Apply(s, e))
  {
    var localId, netId := s.log[e.x].origin.localId, s.log[e.x].netId.value;
    ReconcileBoard(s.list, localId, netId, e.delivery);
    LinkBoard(Board(s.list), s, e.x, e.delivery, Apply(s, e));
    if !s.receipts { ReconcileOrdered(s.list, localId, netId, e.delivery); }
  }

  lemma InvPublishFailed(s: State, e: Event)
    requires Inv(s) && e.PublishFailed? && Enabled(s, e)
    ensures Inv(Apply(s, e))
  {
    var localId, netId := s.log[e.x].origin.localId, s.log[e.x].netId.value;
    assert MsgOk(s.log[e.x]);
    assert SetDelivery(s.list, localId, Failed, netId) == ReconcileSent(s.list, localId, netId, Failed);
    ReconcileBoard(s.list, localId, netId, Failed);
    LinkBoard(Board(s.list), s, e.x, Failed, Apply(s, e));
    if !s.receipts { ReconcileOrdered(s.list, localId, netId, Failed); }
  }

  // ----- steps addressed by bubble id -----

  lemma OwnerOf(s: State, id: Id) returns (x: nat)
    requires Inv(s) && id in Board(s.list)
    ensures x < |s.log| && Owns(s.log[x], id) && MsgOk(s.log[x])
    ensures MessageOk(Board(s.list), s.log[x], x in s.confirmed, s.receipts)
  {
    x :| 0 <= x < |s.log| && Owns(s.log[x], id);
  }

  /** Retry of a bubble under a local id sends anew only what the SDK never stored. */
  lemma RetryResendsOnlyUnstored(s: State, b: Bubble, canRepublish: bool) returns (x: nat)
    requires Inv(s) && b in s.list && IsLocalId(b.id) && RetryChoice(b, s.storedIds, canRepublish) == Resend
    ensures IsComposer(s, x, FailedNoId) && s.log[x].origin.localId == b.id
    ensures s.log[x].netId.None? && s.log[x].origin.prepares == 0
    ensures b.body == s.log[x].body
  {
    x := OwnerOf(s, b.id);
  }

  lemma InvTapRetry(s: State, e: Event)
    requires Inv(s) && e.TapRetry? && Enabled(s, e)
    ensures Inv(Apply(s, e))
  {
    match RetryChoice(e.bubble, s.storedIds, e.canRepublish) {
      case Ignore =>
      case Republish => InvRepublish(s, e.bubble, e.canRepublish);
      case Resend =>
        if IsLocalId(e.bubble.id) {
          InvResend(s, e.bubble, e.canRepublish);
        } else {
          InvSecondSend(s, e.bubble, e.canRepublish);
        }
    }
  }

  /** What is left to see once a retried bubble is pending again. */
  lemma PendingInv(s: State, b: Bubble, s': State)
    requires Inv(s) && s'.list == Relabel(s.list, b.id, b.id, Pending) && s'.receipts == s.receipts
    requires LogOk(s'.log, s'.confirmed) && (forall id :: id in s'.storedIds ==> !IsLocalId(id))
    requires BoardOk(Relabelled(Board(s.list), b.id, b.id, Pending), s')
    ensures Inv(s')
  {
    RelabelBoard(s.list, b.id, b.id, Pending);
    if !s.receipts { RelabelOrdered(s.list, b.id, b.id, Pending); }
  }

  lemma InvRepublish(s: State, b: Bubble, canRepublish: bool)
    requires Inv(s) && b in s.list && RetryChoice(b, s.storedIds, canRepublish) == Republish
    ensures Inv(Apply(s, TapRetry(b, canRepublish)))
  {
    var s' := Apply(s, TapRetry(b, canRepublish));
    assert b.id in Board(s.list) && Board(s.list)[b.id] == b;
    FlipBoard(Board(s.list), s, b.id, Pending, s');
    PendingInv(s, b, s');
  }

  /** A failed bubble under a network id the SDK is not known to hold: it goes back to pending. */
  lemma InvSecondSend(s: State, b: Bubble, canRepublish: bool)
    requires Inv(s) && b in s.list && !IsLocalId(b.id) && RetryChoice(b, s.storedIds, canRepublish) == Resend
    ensures Inv(Apply(s, TapRetry(b, canRepublish)))
  {
    var s' := Apply(s, TapRetry(b, canRepublish));
    assert b.id in Board(s.list) && Board(s.list)[b.id] == b;
    FlipBoard(Board(s.list), s, b.id, Pending, s');
    PendingInv(s, b, s');
  }

  lemma InvResend(s: State, b: Bubble, canRepublish: bool)
    requires Inv(s) && b in s.list && IsLocalId(b.id) && RetryChoice(b, s.storedIds, canRepublish) == Resend
    ensures Inv(Apply(s, TapRetry(b, canRepublish)))
  {
    var s' := Apply(s, TapRetry(b, canRepublish));
    var x := RetryResendsOnlyUnstored(s, b, canRepublish);
    assert b.id in Board(s.list) && Board(s.list)[b.id] == b;
    RestartLog(s, b, x);
    ResendBoard(Board(s.list), s, b, x, s');
    PendingInv(s, b, s');
  }

  lemma RestartLog(s: State, b: Bubble, x: nat)
    requires LogOk(s.log, s.confirmed) && IsComposer(s, x, FailedNoId) && s.log[x].origin.localId == b.id
    requires b.body == s.log[x].body
    ensures seq(|s.log|, i requires 0 <= i < |s.log| => Restarted(s.log[i], b)) == s.log[x := Restarted(s.log[x], b)]
    ensures LogOk(s.log[x := Restarted(s.log[x], b)], s.confirmed)
  {
    assert MsgOk(s.log[x]);
    forall i | 0 <= i < |s.log| && i != x ensures Restarted(s.log[i], b) == s.log[i] {
      if Owns(s.log[i], b.id) { OneOwner(s.log, s.confirmed, x, i, b.id); }
    }
    LogEvolves(s.log, s.confirmed, x, Restarted(s.log[x], b));
  }

  lemma ResendBoard(m: map<Id, Bubble>, s: State, b: Bubble, x: nat, s': State)
    requires LogOk(s.log, s.confirmed) && BoardOk(m, s) && b.id in m && m[b.id] == b && !b.body.Card?
    requires IsComposer(s, x, FailedNoId) && s.log[x].origin.localId == b.id && b.body == s.log[x].body
    requires s' == s.(list := s'.list, log := s.log[x := Restarted(s.log[x], b)])
    ensures BoardOk(Relabelled(m, b.id, b.id, Pending), s')
  {
    assert MsgOk(s.log[x]);
    assert LocalOk(s.log[x], m[b.id]);
    MessageStep(m, s, Relabelled(m, b.id, b.id, Pending), s', x, Restarted(s.log[x], b));
  }

  /** Changing the delivery state of an unconfirmed bubble that has a network id. */
  lemma FlipBoard(m: map<Id, Bubble>, s: State, id: Id, d: Delivery, s': State)
    requires LogOk(s.log, s.confirmed) && BoardOk(m, s) && id in m && !IsLocalId(id) && AwaitingEcho(m[id].delivery)
    requires d != Read
    requires s' == s.(list := s'.list, storedIds := s'.storedIds, resends := s'.resends)
    ensures BoardOk(Relabelled(m, id, id, d), s')
  {
    var x :| 0 <= x < |s.log| && Owns(s.log[x], id);
    assert s'.log == s.log[x := s.log[x]];
    FlippedMessage(m, s, id, d, s', x);
    MessageStep(m, s, Relabelled(m, id, id, d), s', x, s.log[x]);
  }

  lemma FlippedMessage(m: map<Id, Bubble>, s: State, id: Id, d: Delivery, s': State, x: nat)
    requires LogOk(s.log, s.confirmed) && BoardOk(m, s) && id in m && !IsLocalId(id) && AwaitingEcho(m[id].delivery)
    requires d != Read
    requires x < |s.log| && Owns(s.log[x], id)
    ensures MessageOk(Relabelled(m, id, id, d), s.log[x], x in s.confirmed, s.receipts)
    ensures OnlyTouches(m, Relabelled(m, id, id, d), s.log[x]) && Evolves(s.log, x, s.log[x])
  {
    assert MsgOk(s.log[x]);
    assert MessageOk(m, s.log[x], x in s.confirmed, s.receipts);
  }

  lemma InvRetrySettled(s: State, e: Event)
    requires Inv(s) && e.RetrySettled? && Enabled(s, e)
    ensures Inv(Apply(s, e))
  {
    var m := Board(s.list);
    SettleBoard(s.list, e.id, e.delivery);
    if e.id in m && m[e.id].delivery == Some(Pending) { FlipBoard(m, s, e.id, e.delivery, Apply(s, e)); }
    SettleOrdered(s.list, e.id, e.delivery);
  }

  lemma SettleOrdered(list: seq<Bubble>, id: Id, d: Delivery)
    ensures OrderOk(list) ==> OrderOk(SettleRetry(list, id, d))
  {
    if OrderOk(list) { RelabelOrdered(list, id, id, d); }
  }

  lemma InvDiscard(s: State, e: Event)
    requires Inv(s) && e.Discard? && Enabled(s, e)
    ensures Inv(Apply(s, e))
  {
    var m, s' := Board(s.list), Apply(s, e);
    DiscardBoard(s.list, e.id);
    DropBoard(m, s, e.id, s');
    if !s.receipts { DiscardOrdered(s.list, e.id); }
  }

  /** Dropping any bubble: what it showed as confirmed is so no longer. */
  lemma DropBoard(m: map<Id, Bubble>, s: State, id: Id, s': State)
    requires LogOk(s.log, s.confirmed) && BoardOk(m, s)
    requires s' == s.(list := s'.list, confirmed := ConfirmedBut(s, id))
    ensures BoardOk(m - {id}, s')
  {
    forall y | 0 <= y < |s.log| ensures MessageOk(m - {id}, s.log[y], y in s'.confirmed, s.receipts) {
      assert MessageOk(m, s.log[y], y in s.confirmed, s.receipts);
    }
    AllMessagesOk(m - {id}, s');
  }

  /** Dropping a bubble the network has not confirmed. */
  lemma RemoveBoard(m: map<Id, Bubble>, s: State, id: Id, s': State)
    requires LogOk(s.log, s.confirmed) && BoardOk(m, s) && id in m && AwaitingEcho(m[id].delivery)
    requires s' == s.(list := s'.list)
    ensures BoardOk(m - {id}, s')
  {
    var x :| 0 <= x < |s.log| && Owns(s.log[x], id);
    assert MsgOk(s.log[x]);
    assert MessageOk(m, s.log[x], x in s.confirmed, s.receipts);
    assert s'.log == s.log[x := s.log[x]];
    MessageStep(m, s, m - {id}, s', x, s.log[x]);
  }

  // ----- echoes and receipts -----

  lemma InvEcho(s: State, e: Event)
    requires Inv(s) && e.Echo? && Enabled(s, e)
    ensures Inv(Apply(s, e))
  {
    var s' := Apply(s, e);
    var copy := Copy(s.log[e.x]);
    var absorbed := MergeBoard(s.list, copy);
    EchoBoard(Board(s.list), s, e.x, absorbed, Board(s'.list), s');
    if !s.receipts && MergeStreamed(s.list, copy) != s.list { SortedIsOrdered(s'.list); }
  }

  lemma EchoBoard(m: map<Id, Bubble>, s: State, x: nat, absorbed: Option<Id>, m': map<Id, Bubble>, s': State)
    requires LogOk(s.log, s.confirmed) && BoardOk(m, s) && x < |s.log| && s.log[x].netId.Some?
    requires s' == s.(list := s'.list, delivered := s'.delivered, confirmed := s.confirmed + {x})
    requires MergeOutcome(m, Copy(s.log[x]), absorbed, m')
    ensures LogOk(s'.log, s'.confirmed) && BoardOk(m', s')
  {
    var id := s.log[x].netId.value;
    if id in m && !IsOptimistic(m[id]) {
      assert MessageOk(m, s.log[x], x in s.confirmed, s.receipts);
      assert s'.log == s.log[x := s.log[x]];
      MessageStep(m, s, m, s', x, s.log[x]);
    } else if absorbed.None? {
      ConfirmBoard(m, s, x, s');
    } else {
      RemoveBoard(m, s, absorbed.value, s);
      ConfirmBoard(m - {absorbed.value}, s, x, s');
    }
  }

  lemma ConfirmBoard(m: map<Id, Bubble>, s: State, x: nat, s': State)
    requires LogOk(s.log, s.confirmed) && BoardOk(m, s) && x < |s.log| && s.log[x].netId.Some?
    requires s' == s.(list := s'.list, delivered := s'.delivered, confirmed := s.confirmed + {x})
    ensures BoardOk(m[s.log[x].netId.value := Copy(s.log[x])], s')
  {
    var copy := Copy(s.log[x]);
    assert MsgOk(s.log[x]);
    assert s'.log == s.log[x := s.log[x]];
    MessageStep(m, s, m[copy.id := copy], s', x, s.log[x]);
  }

  lemma InvReceipt(s: State, e: Event)
    requires Inv(s) && e.Receipt? && Enabled(s, e)
    ensures Inv(Apply(s, e))
  {
    MarkBoard(s.list, e.upToNs);
    MarkedBoardOk(Board(s.list), s, e.upToNs, Apply(s, e));
  }

  lemma MarkedBoardOk(m: map<Id, Bubble>, s: State, upToNs: int, s': State)
    requires LogOk(s.log, s.confirmed) && BoardOk(m, s)
    requires s' == s.(list := s'.list, receipts := true)
    ensures BoardOk(MarkedBoard(m, upToNs), s')
  {
    var m' := MarkedBoard(m, upToNs);
    forall y | 0 <= y < |s.log| ensures MessageOk(m', s.log[y], y in s.confirmed, true) {
      assert MsgOk(s.log[y]);
      assert MessageOk(m, s.log[y], y in s.confirmed, s.receipts);
    }
    AllMessagesOk(m', s');
  }

  // ----- history loads -----

  ghost predicate HistoryOf(history: seq<Bubble>, log: seq<Msg>, rows: seq<Row>, upToNs: int)
    requires RowsResolve(log, rows)
  {
    && (forall b :: b in history ==> exists i :: 0 <= i < |rows| && b == HistoryBubble(log, rows[i], upToNs))
    && (forall i :: 0 <= i < |rows| ==> HistoryBubble(log, rows[i], upToNs) in history)
  }

  ghost function HistoryBubble(log: seq<Msg>, row: Row, upToNs: int): (b: Bubble)
    requires row.x < |log| && log[row.x].netId.Some?
    ensures b.id == log[row.x].netId.value
  {
    if upToNs > 0 then MarkOne(RowBubble(log, row), upToNs) else RowBubble(log, row)
  }

  lemma RowsUnique(s: State, rows: seq<Row>)
    requires LogOk(s.log, s.confirmed) && RowsOk(s, rows)
    ensures UniqueIds(seq(|rows|, i requires 0 <= i < |rows| => RowBubble(s.log, rows[i])))
  {
    forall i, j | 0 <= i < j < |rows| ensures RowBubble(s.log, rows[i]).id != RowBubble(s.log, rows[j]).id {
      var x, y, id := rows[i].x, rows[j].x, RowBubble(s.log, rows[j]).id;
      assert Owns(s.log[y], id);
      if Owns(s.log[x], id) { OneOwner(s.log, s.confirmed, x, y, id); }
    }
  }

  lemma MarkContents(list: seq<Bubble>, upToNs: int)
    ensures forall b :: b in list ==> MarkOne(b, upToNs) in MarkReadUpTo(list, upToNs)
    ensures forall c :: c in MarkReadUpTo(list, upToNs) ==> exists b :: b in list && c == MarkOne(b, upToNs)
  {
    var r := MarkReadUpTo(list, upToNs);
    forall b | b in list ensures MarkOne(b, upToNs) in r {
      var k :| 0 <= k < |list| && list[k] == b;
      assert r[k] == MarkOne(b, upToNs);
    }
  }

  lemma FreshContents(s: State, rows: seq<Row>, upToNs: int)
    requires LogOk(s.log, s.confirmed) && RowsOk(s, rows)
    ensures var history := Fresh(s.log, rows, upToNs);
            UniqueIds(history) && HistoryOf(history, s.log, rows, upToNs)
            && (upToNs <= 0 ==> SortedBy(history, NewestFirst))
  {
    var mapped := seq(|rows|, i requires 0 <= i < |rows| => RowBubble(s.log, rows[i]));
    RowsUnique(s, rows);
    SortBoard(mapped);
    SortKeepsElements(mapped, NewestFirst);
    var sorted := SortNewest(mapped);
    MarkBoard(sorted, upToNs);
    MarkContents(sorted, upToNs);
    forall i | 0 <= i < |rows| ensures RowBubble(s.log, rows[i]) in sorted { assert mapped[i] in mapped; }
    forall b | b in Fresh(s.log, rows, upToNs)
      ensures exists i :: 0 <= i < |rows| && b == HistoryBubble(s.log, rows[i], upToNs)
    {
      var a := if upToNs > 0 then var a :| a in sorted && b == MarkOne(a, upToNs); a else b;
      var i :| 0 <= i < |mapped| && mapped[i] == a;
      assert b == HistoryBubble(s.log, rows[i], upToNs);
    }
  }

  lemma {:induction false} KeptContents(list: seq<Bubble>, history: seq<Bubble>)
    ensures forall b :: b in Kept(list, history) <==> b in list && !Listed(history, b.id) && IsOptimistic(b)
  {
    if list != [] {
      KeptContents(list[1..], history);
      assert list == [list[0]] + list[1..];
    }
  }

  lemma {:induction false} KeptUnique(list: seq<Bubble>, history: seq<Bubble>)
    requires UniqueIds(list)
    ensures UniqueIds(Kept(list, history))
  {
    if list != [] {
      KeptUnique(list[1..], history);
      var rest := Kept(list[1..], history);
      forall i | 0 <= i < |rest| ensures rest[i].id != list[0].id {
        KeptContents(list[1..], history);
        assert rest[i] in rest;
        var j :| 0 <= j < |list[1..]| && list[1..][j] == rest[i];
        assert list[j + 1] == rest[i];
      }
    }
  }

  /** `seen` are messages of the history, and those it shows published are among them. */
  ghost predicate ShownPublished(rows: seq<Row>, seen: set<nat>) {
    && (forall i :: 0 <= i < |rows| ==> (rows[i].x in seen <==> rows[i].mark.NoMark?))
    && (forall x :: x in seen ==> exists i :: 0 <= i < |rows| && rows[i].x == x)
  }

  lemma ConfirmedByHistory(s: State, rows: seq<Row>)
    requires RowsOk(s, rows)
    ensures ShownPublished(rows, Published(rows))
  {
    forall i | 0 <= i < |rows| ensures rows[i].x in Published(rows) <==> rows[i].mark.NoMark? {
      if rows[i].x in Published(rows) {
        var j :| 0 <= j < |rows| && rows[j].x == rows[i].x && rows[j].mark.NoMark?;
        assert j == i;
      }
    }
  }

  lemma HistorySound(s: State, rows: seq<Row>, i: nat, upToNs: int, seen: set<nat>, receipts: bool)
    requires LogOk(s.log, s.confirmed) && RowsOk(s, rows) && i < |rows| && (upToNs > 0 ==> receipts)
    requires ShownPublished(rows, seen)
    ensures var x := rows[i].x;
            NetOk(s.log[x], HistoryBubble(s.log, rows[i], upToNs), x in seen, receipts)
  {
    assert MsgOk(s.log[rows[i].x]);
  }

  lemma HistoryRow(log: seq<Msg>, rows: seq<Row>, upToNs: int, history: seq<Bubble>, id: Id) returns (i: nat)
    requires RowsResolve(log, rows) && (forall x :: 0 <= x < |log| ==> MsgOk(log[x]))
    requires UniqueIds(history) && HistoryOf(history, log, rows, upToNs) && id in Board(history)
    ensures i < |rows| && Board(history)[id] == HistoryBubble(log, rows[i], upToNs)
    ensures Owns(log[rows[i].x], id) && !IsLocalId(id)
  {
    var b := Board(history)[id];
    assert b in history && b.id == id;
    i :| 0 <= i < |rows| && b == HistoryBubble(log, rows[i], upToNs);
    assert MsgOk(log[rows[i].x]);
  }

  lemma HistoryMessageOk(s: State, rows: seq<Row>, upToNs: int, history: seq<Bubble>, y: nat,
                         seen: set<nat>, receipts: bool)
    requires LogOk(s.log, s.confirmed) && RowsOk(s, rows) && UniqueIds(history)
    requires HistoryOf(history, s.log, rows, upToNs) && y < |s.log| && (upToNs > 0 ==> receipts)
    requires ShownPublished(rows, seen)
    ensures MessageOk(Board(history), s.log[y], y in seen, receipts)
  {
    var msg, m' := s.log[y], Board(history);
    assert MsgOk(msg);
    if msg.origin.Composer? && msg.origin.localId in m' {
      var _ := HistoryRow(s.log, rows, upToNs, history, msg.origin.localId);
    }
    if y in seen {
      var i :| 0 <= i < |rows| && rows[i].x == y;
      RowListed(s.log, rows, upToNs, history, i);
    }
    if msg.netId.Some? && msg.netId.value in m' { NetInHistory(s, rows, upToNs, history, y, seen, receipts); }
  }

  lemma RowListed(log: seq<Msg>, rows: seq<Row>, upToNs: int, history: seq<Bubble>, i: nat)
    requires RowsResolve(log, rows) && UniqueIds(history) && HistoryOf(history, log, rows, upToNs) && i < |rows|
    ensures log[rows[i].x].netId.value in Board(history)
  {
    assert HistoryBubble(log, rows[i], upToNs) in history;
  }

  lemma NetInHistory(s: State, rows: seq<Row>, upToNs: int, history: seq<Bubble>, y: nat,
                         seen: set<nat>, receipts: bool)
    requires LogOk(s.log, s.confirmed) && RowsOk(s, rows) && UniqueIds(history)
    requires HistoryOf(history, s.log, rows, upToNs) && y < |s.log| && (upToNs > 0 ==> receipts)
    requires ShownPublished(rows, seen)
    requires s.log[y].netId.Some? && s.log[y].netId.value in Board(history)
    ensures NetOk(s.log[y], Board(history)[s.log[y].netId.value], y in seen, receipts)
  {
    var i := HistoryRow(s.log, rows, upToNs, history, s.log[y].netId.value);
    OneOwner(s.log, s.confirmed, y, rows[i].x, s.log[y].netId.value);
    HistorySound(s, rows, i, upToNs, seen, receipts);
  }

  /** A freshly loaded history is a sound board on its own. */
  lemma HistoryBoardOk(s: State, rows: seq<Row>, upToNs: int, s': State)
    requires LogOk(s.log, s.confirmed) && RowsOk(s, rows)
    requires s' == s.(list := s'.list, delivered := s'.delivered, confirmed := Published(rows),
                      givenUp := s'.givenUp, receipts := s.receipts || upToNs > 0)
    ensures UniqueIds(Fresh(s.log, rows, upToNs)) && BoardOk(Board(Fresh(s.log, rows, upToNs)), s')
  {
    FreshContents(s, rows, upToNs);
    ConfirmedByHistory(s, rows);
    var m' := Board(Fresh(s.log, rows, upToNs));
    forall id | id in m' ensures exists x :: 0 <= x < |s.log| && Owns(s.log[x], id) {
      var i := HistoryRow(s.log, rows, upToNs, Fresh(s.log, rows, upToNs), id);
    }
    forall y | 0 <= y < |s.log| ensures MessageOk(m', s.log[y], y in s'.confirmed, s'.receipts) {
      HistoryMessageOk(s, rows, upToNs, Fresh(s.log, rows, upToNs), y, s'.confirmed, s'.receipts);
    }
    AllMessagesOk(m', s');
  }

  /** An emptied list is sound, and confirms nothing. */
  lemma InvMount(s: State)
    requires Inv(s)
    ensures Inv(Apply(s, Mount))
  {
    assert Board(Apply(s, Mount).list) == map[];
  }

  lemma InvLoad(s: State, e: Event)
    requires Inv(s) && e.Load? && Enabled(s, e)
    ensures Inv(Apply(s, e))
  {
    var s' := Apply(s, e);
    FreshContents(s, e.rows, e.upToNs);
    HistoryBoardOk(s, e.rows, e.upToNs, s');
    if !s'.receipts { SortedIsOrdered(s'.list); }
  }

  /** Keeping unconfirmed bubbles beside a sound history is sound. */
  lemma UnionBoardOk(m: map<Id, Bubble>, s: State, h: map<Id, Bubble>, kept: map<Id, Bubble>, s': State)
    requires BoardOk(m, s) && BoardOk(h, s')
    requires s' == s.(list := s'.list, delivered := s'.delivered, confirmed := s'.confirmed, givenUp := s'.givenUp,
                      receipts := s'.receipts)
    requires (s.receipts ==> s'.receipts) && forall y :: y in s'.confirmed ==> y < |s.log|
    requires forall id :: id in kept ==> id in m && kept[id] == m[id] && IsOptimistic(m[id]) && id !in h
    ensures BoardOk(h + kept, s')
  {
    var m' := h + kept;
    forall id | id in m' ensures exists x :: 0 <= x < |s.log| && Owns(s.log[x], id) {
      assert id in h || id in m;
    }
    forall y | 0 <= y < |s.log| ensures MessageOk(m', s.log[y], y in s'.confirmed, s'.receipts) {
      assert MessageOk(m, s.log[y], y in s.confirmed, s.receipts);
      assert MessageOk(h, s.log[y], y in s'.confirmed, s'.receipts);
    }
    AllMessagesOk(m', s');
  }

  /** Re-binding shows the history and the unconfirmed bubbles it does not name, newest first. */
  lemma ResumeBoard(list: seq<Bubble>, history: seq<Bubble>) returns (kept: map<Id, Bubble>)
    requires UniqueIds(list) && UniqueIds(history)
    ensures var list' := SortNewest(Kept(list, history) + history);
            UniqueIds(list') && SortedBy(list', NewestFirst) && Board(list') == Board(history) + kept
    ensures forall id :: id in kept <==> id in Board(list) && IsOptimistic(Board(list)[id]) && id !in Board(history)
    ensures forall id :: id in kept ==> kept[id] == Board(list)[id]
  {
    KeptContents(list, history);
    KeptUnique(list, history);
    var pending := Kept(list, history);
    kept := Board(pending);
    var both := pending + history;
    forall id ensures Listed(history, id) <==> id in Board(history) { ListedOnBoard(history, id); }
    forall i, j | 0 <= i < j < |both| ensures both[i].id != both[j].id {
      if i < |pending| && j >= |pending| {
        assert both[i] in pending && both[j] in history;
      }
    }
    SameBoard(both, Board(history) + kept);
    SortBoard(both);
    forall id | id in Board(list) && IsOptimistic(Board(list)[id]) && id !in Board(history) ensures id in kept {
      assert Board(list)[id] in pending;
    }
  }

  lemma InvResume(s: State, e: Event)
    requires Inv(s) && e.Resume? && Enabled(s, e)
    ensures Inv(Apply(s, e))
  {
    var s' := Apply(s, e);
    HistoryBoardOk(s, e.rows, e.upToNs, s');
    var history := Fresh(s.log, e.rows, e.upToNs);
    var kept := ResumeBoard(s.list, history);
    UnionBoardOk(Board(s.list), s, Board(history), kept, s');
    if !s'.receipts { SortedIsOrdered(s'.list); }
  }

  // ----- second sends -----

  /** Messages stay what they are once the network knows them. */
  ghost predicate LogKept(log: seq<Msg>, log': seq<Msg>) {
    |log| <= |log'| && forall x :: 0 <= x < |log| && log[x].netId.Some? ==>
      log'[x].netId == log[x].netId && log'[x].fromMe == log[x].fromMe && KeyOf(log'[x].body) == KeyOf(log[x].body)
  }

  lemma EventKeepsLog(s: State, e: Event)
    requires Inv(s) && Enabled(s, e)
    ensures LogKept(s.log, Apply(s, e).log)
  {
    if IsSendEvent(e) { SendKeepsLog(s, e); } else { ViewKeepsLog(s, e); }
  }

  lemma ViewKeepsLog(s: State, e: Event)
    requires Enabled(s, e) && !IsSendEvent(e)
    ensures LogKept(s.log, Apply(s, e).log)
  {
  }

  lemma SendKeepsLog(s: State, e: Event)
    requires Inv(s) && Enabled(s, e) && IsSendEvent(e)
    ensures LogKept(s.log, Apply(s, e).log)
  {
    if e.UploadOk? || e.PrepareOk? { assert MsgOk(s.log[e.x]); }
  }

  lemma ReplacesKept(log: seq<Msg>, log': seq<Msg>, oldId: Id, body: Body)
    requires LogKept(log, log') && Replaces(log, oldId, body)
    ensures Replaces(log', oldId, body)
  {
    var x :| 0 <= x < |log| && log[x].netId == Some(oldId) && log[x].fromMe && KeyOf(log[x].body) == KeyOf(body);
    assert log'[x].netId == Some(oldId);
  }

  /** What is already being sent again still replaces a message of mine. */
  lemma ResendsKept(s: State, s': State)
    requires ResendsOk(s) && LogKept(s.log, s'.log)
    requires forall r :: r in s'.resends ==> r in s.resends
    requires forall x :: 0 <= x < |s'.log| && s'.log[x].origin.Again? ==>
      || (x < |s.log| && s.log[x].origin.Again? && s'.log[x].origin.oldId == s.log[x].origin.oldId
          && s'.log[x].body == s.log[x].body)
      || Replaces(s.log, s'.log[x].origin.oldId, s'.log[x].body)
    ensures ResendsOk(s')
  {
    forall r | 0 <= r < |s'.resends|
      ensures var t := s'.resends[r];
        Replaces(s'.log, t.oldId, t.body) && KeyOf(t.body) != NoKey && !IsLocalId(t.oldId) && t.oldId != ""
    {
      assert s'.resends[r] in s.resends;
      ReplacesKept(s.log, s'.log, s'.resends[r].oldId, s'.resends[r].body);
    }
    forall x | 0 <= x < |s'.log| && s'.log[x].origin.Again? ensures Replaces(s'.log, s'.log[x].origin.oldId, s'.log[x].body) {
      ReplacesKept(s.log, s'.log, s'.log[x].origin.oldId, s'.log[x].body);
    }
  }

  lemma TapStartsSecondSend(s: State, b: Bubble, canRepublish: bool)
    requires Inv(s) && ResendsOk(s) && b in s.list && !IsLocalId(b.id) && RetryChoice(b, s.storedIds, canRepublish) == Resend
    ensures ResendsOk(Apply(s, TapRetry(b, canRepublish)))
  {
    TappedReplaces(s, b, canRepublish);
    var s' := Apply(s, TapRetry(b, canRepublish));
    assert s'.log == s.log && s'.resends == s.resends + [Reattempt(b.id, b.body)];
  }

  lemma TappedReplaces(s: State, b: Bubble, canRepublish: bool)
    requires Inv(s) && b in s.list && !IsLocalId(b.id) && RetryChoice(b, s.storedIds, canRepublish) == Resend
    ensures Replaces(s.log, b.id, b.body) && KeyOf(b.body) != NoKey && b.id != ""
  {
    var x := OwnerOf(s, b.id);
    assert Board(s.list)[b.id] == b;
    assert s.log[x].netId == Some(b.id) && s.log[x].fromMe && KeyOf(s.log[x].body) == KeyOf(b.body);
  }

  lemma WithoutResendIn(resends: seq<Reattempt>, r: nat)
    requires r < |resends|
    ensures forall t :: t in WithoutResend(resends, r) ==> t in resends
  {
  }

  lemma ResendsStep(s: State, e: Event)
    requires Inv(s) && ResendsOk(s) && Enabled(s, e)
    ensures ResendsOk(Apply(s, e))
  {
    EventKeepsLog(s, e);
    if e.TapRetry? {
      TapResendsOk(s, e.bubble, e.canRepublish);
    } else if IsSendEvent(e) {
      SendResendsOk(s, e);
    } else {
      ResendsKept(s, Apply(s, e));
    }
  }

  lemma TapResendsOk(s: State, b: Bubble, canRepublish: bool)
    requires Inv(s) && ResendsOk(s) && b in s.list && LogKept(s.log, Apply(s, TapRetry(b, canRepublish)).log)
    ensures ResendsOk(Apply(s, TapRetry(b, canRepublish)))
  {
    if RetryChoice(b, s.storedIds, canRepublish) == Resend && !IsLocalId(b.id) {
      TapStartsSecondSend(s, b, canRepublish);
    } else {
      ResendsKept(s, Apply(s, TapRetry(b, canRepublish)));
    }
  }

  lemma SendResendsOk(s: State, e: Event)
    requires Inv(s) && ResendsOk(s) && Enabled(s, e) && IsSendEvent(e) && LogKept(s.log, Apply(s, e).log)
    ensures ResendsOk(Apply(s, e))
  {
    if e.ResendFailed? || e.ResendPrepared? { WithoutResendIn(s.resends, e.r); }
    ResendsKept(s, Apply(s, e));
  }

  /** The message a second send is shown under. */
  lemma OldMessage(s: State, oldId: Id, body: Body) returns (x: nat)
    requires Inv(s) && Replaces(s.log, oldId, body)
    ensures x < |s.log| && s.log[x].netId == Some(oldId) && s.log[x].fromMe && KeyOf(s.log[x].body) == KeyOf(body)
    ensures MsgOk(s.log[x]) && MessageOk(Board(s.list), s.log[x], x in s.confirmed, s.receipts)
  {
    x :| 0 <= x < |s.log| && s.log[x].netId == Some(oldId) && s.log[x].fromMe && KeyOf(s.log[x].body) == KeyOf(body);
  }

  lemma ConfirmedButOne(s: State, x: nat)
    requires Inv(s) && x < |s.log| && s.log[x].netId.Some?
    ensures ConfirmedBut(s, s.log[x].netId.value) == s.confirmed - {x}
  {
    var id := s.log[x].netId.value;
    forall y ensures y in ConfirmedBut(s, id) <==> y in s.confirmed - {x} {
      if y in s.confirmed && s.log[y].netId == Some(id) { OneOwner(s.log, s.confirmed, x, y, id); }
    }
  }

  /** Marking a message's bubble failed. */
  lemma FailBoard(m: map<Id, Bubble>, s: State, x: nat, s': State)
    requires LogOk(s.log, s.confirmed) && BoardOk(m, s) && x < |s.log| && s.log[x].netId.Some?
    requires s.log[x].fromMe
    requires s' == s.(list := s'.list, resends := s'.resends, confirmed := s.confirmed - {x})
    ensures BoardOk(Relabelled(m, s.log[x].netId.value, s.log[x].netId.value, Failed), s')
  {
    assert MsgOk(s.log[x]);
    assert MessageOk(m, s.log[x], x in s.confirmed, s.receipts);
    assert s'.log == s.log[x := s.log[x]];
    MessageStep(m, s, Relabelled(m, s.log[x].netId.value, s.log[x].netId.value, Failed), s', x, s.log[x]);
  }

  lemma InvResendFailed(s: State, e: Event)
    requires Inv(s) && ResendsOk(s) && e.ResendFailed? && Enabled(s, e)
    ensures Inv(Apply(s, e))
  {
    var oldId := s.resends[e.r].oldId;
    var x := OldMessage(s, oldId, s.resends[e.r].body);
    RelabelBoard(s.list, oldId, oldId, Failed);
    ConfirmedButOne(s, x);
    FailBoard(Board(s.list), s, x, Apply(s, e));
    if !s.receipts { RelabelOrdered(s.list, oldId, oldId, Failed); }
  }

  lemma InvResendPrepared(s: State, e: Event)
    requires Inv(s) && ResendsOk(s) && e.ResendPrepared? && Enabled(s, e)
    ensures Inv(Apply(s, e))
  {
    var t := s.resends[e.r];
    var x := OldMessage(s, t.oldId, t.body);
    var msg := Msg(Again(t.oldId, Publishing), t.body, true, e.sentNs, Some(e.netId));
    FreshIdUnlisted(s, e.netId);
    LogAppend(s.log, s.confirmed, msg);
    LearnBoard(Board(s.list), s, msg);
  }

  /** Dropping the bubble of a message. */
  lemma DropOld(m: map<Id, Bubble>, s: State, x: nat)
    requires LogOk(s.log, s.confirmed) && BoardOk(m, s) && x < |s.log| && s.log[x].netId.Some?
    ensures BoardOk(m - {s.log[x].netId.value}, s.(confirmed := s.confirmed - {x}))
    ensures LogOk(s.log, s.confirmed - {x})
  {
    assert MsgOk(s.log[x]);
    assert MessageOk(m, s.log[x], x in s.confirmed, s.receipts);
    assert s.log == s.log[x := s.log[x]];
    MessageStep(m, s, m - {s.log[x].netId.value}, s.(confirmed := s.confirmed - {x}), x, s.log[x]);
  }

  /** The bubble the second send was shown under becomes its own, unless the echo brought one already. */
  lemma TakeOver(m: map<Id, Bubble>, s: State, x: nat, y: nat, d: Delivery, s': State)
    requires LogOk(s.log, s.confirmed) && BoardOk(m, s) && x < |s.log|
    requires IsAgain(s, y, Publishing) && s.log[x].netId == Some(s.log[y].origin.oldId)
    requires s.log[x].fromMe && KeyOf(s.log[x].body) == KeyOf(s.log[y].body) && d != Read && d != Pending
    requires s' == s.(log := s.log[y := AgainStored(s.log[y])], storedIds := s'.storedIds, list := s'.list,
                      confirmed := s.confirmed - {x})
    ensures LogOk(s'.log, s'.confirmed)
    ensures BoardOk(Reconciled(m, s.log[y].origin.oldId, s.log[y].netId.value, d), s')
  {
    var oldId, netId, msg' := s.log[y].origin.oldId, s.log[y].netId.value, AgainStored(s.log[y]);
    assert MsgOk(s.log[y]) && MsgOk(msg');
    DropOld(m, s, x);
    LogEvolves(s.log, s.confirmed - {x}, y, msg');
    TakenOver(m, s, x, y, d);
    MessageStep(m - {oldId}, s.(confirmed := s.confirmed - {x}), Reconciled(m, oldId, netId, d), s', y, msg');
  }

  lemma TakenOver(m: map<Id, Bubble>, s: State, x: nat, y: nat, d: Delivery)
    requires LogOk(s.log, s.confirmed) && BoardOk(m, s) && x < |s.log|
    requires IsAgain(s, y, Publishing) && s.log[x].netId == Some(s.log[y].origin.oldId)
    requires s.log[x].fromMe && KeyOf(s.log[x].body) == KeyOf(s.log[y].body) && d != Read && d != Pending
    ensures var m', msg' := Reconciled(m, s.log[y].origin.oldId, s.log[y].netId.value, d), AgainStored(s.log[y]);
      OnlyTouches(m - {s.log[y].origin.oldId}, m', msg') && MessageOk(m', msg', y in s.confirmed, s.receipts)
  {
    assert MsgOk(s.log[x]) && MsgOk(s.log[y]);
    assert MessageOk(m, s.log[x], x in s.confirmed, s.receipts);
    assert MessageOk(m, s.log[y], y in s.confirmed, s.receipts);
  }

  lemma InvResendAck(s: State, e: Event)
    requires Inv(s) && ResendsOk(s) && e.ResendAck? && Enabled(s, e)
    ensures Inv(Apply(s, e))
  {
    var oldId, netId := s.log[e.x].origin.oldId, s.log[e.x].netId.value;
    var x := OldMessage(s, oldId, s.log[e.x].body);
    ReconcileBoard(s.list, oldId, netId, e.delivery);
    ConfirmedButOne(s, x);
    TakeOver(Board(s.list), s, x, e.x, e.delivery, Apply(s, e));
    if !s.receipts { ReconcileOrdered(s.list, oldId, netId, e.delivery); }
  }

  /** Failing under the stored id moves the bubble there as an ack would. */
  lemma PublishFailedAgain(s: State, y: nat)
    requires Inv(s) && IsAgain(s, y, Publishing)
    ensures var s' := Apply(s, ResendPublishFailed(y));
      && s'.list == ReconcileSent(s.list, s.log[y].origin.oldId, s.log[y].netId.value, Failed)
      && s'.log == s.log[y := AgainStored(s.log[y])] && s'.confirmed == ConfirmedBut(s, s.log[y].origin.oldId)
  {
    assert MsgOk(s.log[y]);
  }

  lemma InvResendPublishFailed(s: State, e: Event)
    requires Inv(s) && ResendsOk(s) && e.ResendPublishFailed? && Enabled(s, e)
    ensures Inv(Apply(s, e))
  {
    var oldId, netId := s.log[e.x].origin.oldId, s.log[e.x].netId.value;
    var x := OldMessage(s, oldId, s.log[e.x].body);
    assert MsgOk(s.log[e.x]);
    assert SetDelivery(s.list, oldId, Failed, netId) == ReconcileSent(s.list, oldId, netId, Failed);
    ReconcileBoard(s.list, oldId, netId, Failed);
    ConfirmedButOne(s, x);
    TakeOver(Board(s.list), s, x, e.x, Failed, Apply(s, e));
    if !s.receipts { ReconcileOrdered(s.list, oldId, netId, Failed); }
  }

  // ----- every run -----

  lemma InvInit()
    ensures Inv(EMPTY_THREAD) && ResendsOk(EMPTY_THREAD)
  {
  }

  /** Every event keeps the invariant. */
  lemma InvStep(s: State, e: Event)
    requires Inv(s) && ResendsOk(s) && Enabled(s, e)
    ensures Inv(Apply(s, e)) && ResendsOk(Apply(s, e))
  {
    ResendsStep(s, e);
    if IsSendEvent(e) { InvSendStep(s, e); } else { InvViewStep(s, e); }
  }

  lemma InvSendStep(s: State, e: Event)
    requires Inv(s) && ResendsOk(s) && Enabled(s, e) && IsSendEvent(e)
    ensures Inv(Apply(s, e))
  {
    match e {
      case SendText(_, _, _, _) => InvSendText(s, e);
      case SendFile(_, _, _) => InvSendFile(s, e);
      case UploadOk(x, digest) => InvUploadOk(s, x, digest);
      case UploadRejected(_) => InvUploadRejected(s, e);
      case AttemptFailed(x) => InvAttemptFailed(s, x);
      case PrepareOk(_, _, _) => InvPrepareOk(s, e);
      case Ack(_, _) => InvAck(s, e);
      case PublishFailed(_) => InvPublishFailed(s, e);
      case Learn(_) => InvLearn(s, e);
      case ResendFailed(_) => InvResendFailed(s, e);
      case ResendPrepared(_, _, _) => InvResendPrepared(s, e);
      case ResendAck(_, _) => InvResendAck(s, e);
      case ResendPublishFailed(_) => InvResendPublishFailed(s, e);
    }
  }

  lemma InvViewStep(s: State, e: Event)
    requires Inv(s) && Enabled(s, e) && !IsSendEvent(e)
    ensures Inv(Apply(s, e))
  {
    match e {
      case Echo(_) => InvEcho(s, e);
      case Receipt(_) => InvReceipt(s, e);
      case TapRetry(_, _) => InvTapRetry(s, e);
      case RetrySettled(_, _) => InvRetrySettled(s, e);
      case Discard(_) => InvDiscard(s, e);
      case Mount => InvMount(s);
      case Load(_, _) => InvLoad(s, e);
      case Resume(_, _) => InvResume(s, e);
    }
  }
}
