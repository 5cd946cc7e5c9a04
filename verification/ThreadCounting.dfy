/** Never double-bubbles: for each text or digest, my bubbles never outnumber my messages, even when an
    echo takes the bubble of another message with the same words. */
module ThreadCounting {
  import opened Wrappers
  import opened FiniteSets
  import opened DeliveryState
  import opened ThreadProtocol
  import opened ThreadInvariant

  predicate Mine(msg: Msg, k: Key) {
    msg.fromMe && KeyOf(msg.body) == k
  }

  /** My messages with key `k`, started here or elsewhere. */
  ghost function Started(log: seq<Msg>, k: Key): set<nat> {
    set x | x in Below(|log|) && Mine(log[x], k)
  }

  /** The list confirms this message: delivered, or read. */
  predicate Settled(m: map<Id, Bubble>, msg: Msg) {
    msg.netId.Some? && msg.netId.value in m && !AwaitingEcho(m[msg.netId.value].delivery)
  }

  ghost function Open(m: map<Id, Bubble>, log: seq<Msg>, k: Key): set<nat> {
    set x | x in Below(|log|) && Mine(log[x], k) && !Settled(m, log[x])
  }

  predicate WaitsFor(b: Bubble, k: Key) {
    b.fromMe && KeyOf(b.body) == k && AwaitingEcho(b.delivery)
  }

  ghost function Waiting(m: map<Id, Bubble>, k: Key): set<Id> {
    set id | id in m && WaitsFor(m[id], k)
  }

  /** Unconfirmed bubbles never outnumber messages the list has not confirmed. */
  ghost predicate Covered(m: map<Id, Bubble>, log: seq<Msg>, k: Key) {
    |Waiting(m, k)| <= |Open(m, log, k)|
  }

  lemma FewerWaiting(m: map<Id, Bubble>, log: seq<Msg>, m': map<Id, Bubble>, log': seq<Msg>, k: Key)
    requires Covered(m, log, k) && Waiting(m', k) <= Waiting(m, k) && Open(m, log, k) <= Open(m', log', k)
    ensures Covered(m', log', k)
  {
    SubsetCount(Waiting(m', k), Waiting(m, k));
    SubsetCount(Open(m, log, k), Open(m', log', k));
  }

  lemma OneMoreEach(m: map<Id, Bubble>, log: seq<Msg>, m': map<Id, Bubble>, log': seq<Msg>, k: Key, id: Id, x: nat)
    requires Covered(m, log, k) && Waiting(m', k) <= Waiting(m, k) + {id}
    requires Open(m, log, k) + {x} <= Open(m', log', k) && x !in Open(m, log, k)
    ensures Covered(m', log', k)
  {
    SubsetCount(Waiting(m', k), Waiting(m, k) + {id});
    SubsetCount(Open(m, log, k) + {x}, Open(m', log', k));
  }

  lemma OneLessEach(m: map<Id, Bubble>, log: seq<Msg>, m': map<Id, Bubble>, log': seq<Msg>, k: Key, id: Id, x: nat)
    requires Covered(m, log, k) && id in Waiting(m, k) && Waiting(m', k) <= Waiting(m, k) - {id}
    requires Open(m, log, k) - {x} <= Open(m', log', k)
    ensures Covered(m', log', k)
  {
    SubsetCount(Waiting(m', k), Waiting(m, k) - {id});
    SubsetCount(Open(m, log, k) - {x}, Open(m', log', k));
  }

  // ----- composer steps -----

  lemma CountAppend(m: map<Id, Bubble>, log: seq<Msg>, msg: Msg, b: Bubble, k: Key)
    requires Covered(m, log, k) && b.id !in m
    requires msg.netId.None? && msg.fromMe && b.body == msg.body
    requires forall x :: 0 <= x < |log| ==> log[x].netId != Some(b.id)
    ensures Covered(m[b.id := b], log + [msg], k)
  {
    var m', log' := m[b.id := b], log + [msg];
    assert Open(m, log, k) <= Open(m', log', k);
    if KeyOf(b.body) == k {
      OneMoreEach(m, log, m', log', k, b.id, |log|);
    } else {
      FewerWaiting(m, log, m', log', k);
    }
  }

  /** The upload gives the bubble and its message the digest as their key at once. */
  lemma CountUpload(m: map<Id, Bubble>, log: seq<Msg>, x: nat, msg': Msg, digest: string, k: Key)
    requires Covered(m, log, k) && k != NoKey && x < |log| && log[x].origin.Composer? && log[x].netId.None?
    requires KeyOf(log[x].body) == NoKey && KeyOf(msg'.body) == DigestKey(digest) && msg'.netId.None? && msg'.fromMe
    requires forall y :: 0 <= y < |log| ==> log[y].netId != Some(log[x].origin.localId)
    requires log[x].origin.localId in m ==> KeyOf(m[log[x].origin.localId].body) == NoKey
    ensures Covered(Uploaded(m, log[x].origin.localId, digest), log[x := msg'], k)
  {
    var m', log' := Uploaded(m, log[x].origin.localId, digest), log[x := msg'];
    assert Open(m, log, k) <= Open(m', log', k);
    if k == DigestKey(digest) {
      OneMoreEach(m, log, m', log', k, log[x].origin.localId, x);
    } else {
      FewerWaiting(m, log, m', log', k);
    }
  }

  lemma CountDrop(m: map<Id, Bubble>, log: seq<Msg>, id: Id, k: Key)
    requires Covered(m, log, k)
    ensures Covered(m - {id}, log, k)
  {
    FewerWaiting(m, log, m - {id}, log, k);
  }

  /** Relabelling an unconfirmed bubble as another unconfirmed state moves no count. */
  lemma CountRelabel(m: map<Id, Bubble>, log: seq<Msg>, id: Id, d: Delivery, k: Key)
    requires Covered(m, log, k) && d != Read && (id in m ==> AwaitingEcho(m[id].delivery))
    ensures Covered(Relabelled(m, id, id, d), log, k)
  {
    FewerWaiting(m, log, Relabelled(m, id, id, d), log, k);
  }

  lemma OpenInPhase(m: map<Id, Bubble>, log: seq<Msg>, x: nat, phase: Phase, k: Key)
    requires x < |log| && log[x].origin.Composer?
    ensures Open(m, log[x := InPhase(log[x], phase)], k) == Open(m, log, k)
  {
  }

  lemma CountLink(m: map<Id, Bubble>, log: seq<Msg>, localId: Id, netId: Id, d: Delivery, k: Key)
    requires Covered(m, log, k) && d != Read && k != NoKey
    requires forall y :: 0 <= y < |log| ==> log[y].netId != Some(localId)
    requires localId in m ==> AwaitingEcho(m[localId].delivery)
    ensures Covered(Reconciled(m, localId, netId, d), log, k)
  {
    var m' := Reconciled(m, localId, netId, d);
    if netId in m {
      CountDrop(m, log, localId, k);
    } else {
      assert Open(m', log, k) == Open(m, log, k);
      if localId in m && WaitsFor(m[localId], k) {
        assert Waiting(m', k) <= Waiting(m, k) - {localId} + {netId};
        SubsetCount(Waiting(m', k), Waiting(m, k) - {localId} + {netId});
      } else {
        FewerWaiting(m, log, m', log, k);
      }
    }
  }

  // ----- second sends -----

  /** Marking a message's bubble unconfirmed again, whatever it was: if that makes one more bubble wait, the
      message is open once more too. */
  lemma CountReopen(m: map<Id, Bubble>, log: seq<Msg>, x: nat, d: Delivery, k: Key)
    requires Covered(m, log, k) && d != Read && x < |log| && log[x].netId.Some?
    requires log[x].netId.value in m ==>
      var b := m[log[x].netId.value]; b.fromMe == log[x].fromMe && KeyOf(b.body) == KeyOf(log[x].body)
    ensures Covered(Relabelled(m, log[x].netId.value, log[x].netId.value, d), log, k)
  {
    var id := log[x].netId.value;
    var m' := Relabelled(m, id, id, d);
    assert Open(m, log, k) <= Open(m', log, k);
    if id in m && TracksDelivery(m[id]) && !AwaitingEcho(m[id].delivery) && Mine(log[x], k) {
      OneMoreEach(m, log, m', log, k, id, x);
    } else {
      FewerWaiting(m, log, m', log, k);
    }
  }

  lemma TakenOverOpen(m: map<Id, Bubble>, log: seq<Msg>, oldId: Id, netId: Id, d: Delivery, k: Key)
    requires d != Read && oldId != netId
    ensures Open(m, log, k) <= Open(Reconciled(m, oldId, netId, d), log, k)
  {
  }

  lemma TakenOverWaiting(m: map<Id, Bubble>, oldId: Id, netId: Id, d: Delivery, k: Key)
    requires d != Read && oldId != netId
    ensures var m' := Reconciled(m, oldId, netId, d);
      if netId !in m && oldId in m && TracksDelivery(m[oldId]) && m[oldId].fromMe && KeyOf(m[oldId].body) == k
      then Waiting(m', k) <= Waiting(m, k) - {oldId} + {netId}
      else Waiting(m', k) <= Waiting(m, k)
  {
  }

  /** A second send taking over the bubble it was shown under. */
  lemma CountTakeOver(m: map<Id, Bubble>, log: seq<Msg>, x: nat, netId: Id, d: Delivery, k: Key)
    requires Covered(m, log, k) && d != Read && x < |log| && log[x].netId.Some? && log[x].netId.value != netId
    requires log[x].netId.value in m ==>
      var b := m[log[x].netId.value]; b.fromMe == log[x].fromMe && KeyOf(b.body) == KeyOf(log[x].body)
    ensures Covered(Reconciled(m, log[x].netId.value, netId, d), log, k)
  {
    var oldId := log[x].netId.value;
    var m' := Reconciled(m, oldId, netId, d);
    TakenOverOpen(m, log, oldId, netId, d, k);
    TakenOverWaiting(m, oldId, netId, d, k);
    if netId in m || oldId !in m || !TracksDelivery(m[oldId]) || !Mine(log[x], k) {
      FewerWaiting(m, log, m', log, k);
    } else if AwaitingEcho(m[oldId].delivery) {
      SubsetCount(Waiting(m', k), Waiting(m, k) - {oldId} + {netId});
      SubsetCount(Open(m, log, k), Open(m', log, k));
    } else {
      TakenOverReopens(m, log, x, netId, d, k);
      OneMoreEach(m, log, m', log, k, netId, x);
    }
  }

  lemma TakenOverReopens(m: map<Id, Bubble>, log: seq<Msg>, x: nat, netId: Id, d: Delivery, k: Key)
    requires x < |log| && log[x].netId.Some? && log[x].netId.value in m && log[x].netId.value != netId && netId !in m
    requires TracksDelivery(m[log[x].netId.value]) && !AwaitingEcho(m[log[x].netId.value].delivery) && Mine(log[x], k)
    ensures x !in Open(m, log, k) && x in Open(Reconciled(m, log[x].netId.value, netId, d), log, k)
  {
  }

  lemma AgainStoredOpen(m: map<Id, Bubble>, log: seq<Msg>, y: nat, k: Key)
    requires y < |log| && log[y].origin.Again?
    ensures Open(m, log[y := AgainStored(log[y])], k) == Open(m, log, k)
  {
  }

  // ----- echoes and receipts -----

  lemma CountEcho(m: map<Id, Bubble>, s: State, x: nat, absorbed: Option<Id>, m': map<Id, Bubble>, k: Key)
    requires LogOk(s.log, s.confirmed) && BoardOk(m, s) && Covered(m, s.log, k) && k != NoKey
    requires x < |s.log| && s.log[x].netId.Some? && MergeOutcome(m, Copy(s.log[x]), absorbed, m')
    ensures Covered(m', s.log, k)
  {
    var id := s.log[x].netId.value;
    assert MessageOk(m, s.log[x], x in s.confirmed, s.receipts);
    if absorbed.Some? { AwaitingIsMine(m, s, absorbed.value); }
    if id !in m && absorbed.None? && Mine(s.log[x], k) { UnmatchedAreOthers(m, s, x, k); }
    forall y | 0 <= y < |s.log| && s.log[y].netId == Some(id) ensures y == x {
      OneOwner(s.log, s.confirmed, x, y, id);
    }
    EchoCounts(m, s.log, x, absorbed, m', k);
  }

  lemma AwaitingIsMine(m: map<Id, Bubble>, s: State, id: Id)
    requires BoardOk(m, s) && id in m && AwaitingEcho(m[id].delivery)
    ensures m[id].fromMe
  {
    var x :| 0 <= x < |s.log| && Owns(s.log[x], id);
    assert MessageOk(m, s.log[x], x in s.confirmed, s.receipts);
  }

  lemma EchoCounts(m: map<Id, Bubble>, log: seq<Msg>, x: nat, absorbed: Option<Id>, m': map<Id, Bubble>, k: Key)
    requires Covered(m, log, k) && x < |log| && log[x].netId.Some? && MergeOutcome(m, Copy(log[x]), absorbed, m')
    requires k != NoKey
    requires forall y :: 0 <= y < |log| && log[y].netId == log[x].netId ==> y == x
    requires absorbed.Some? && absorbed.value in m ==> m[absorbed.value].fromMe
    requires log[x].netId.value in m ==>
      m[log[x].netId.value].fromMe == log[x].fromMe && KeyOf(m[log[x].netId.value].body) == KeyOf(log[x].body)
    requires log[x].netId.value !in m && absorbed.None? && Mine(log[x], k) ==> |Waiting(m, k)| <= |Open(m, log, k) - {x}|
    ensures Covered(m', log, k)
  {
    var copy := Copy(log[x]);
    if copy.id in m && !IsOptimistic(m[copy.id]) { return; }
    EchoSettlesOnlyItsOwn(m, log, x, absorbed, m', k);
    if !Mine(log[x], k) {
      assert Open(m, log, k) - {x} == Open(m, log, k);
      FewerWaiting(m, log, m', log, k);
    } else if copy.id in m {
      OneLessEach(m, log, m', log, k, copy.id, x);
    } else if absorbed.Some? {
      OneLessEach(m, log, m', log, k, absorbed.value, x);
    } else {
      SubsetCount(Waiting(m', k), Waiting(m, k));
      SubsetCount(Open(m, log, k) - {x}, Open(m', log, k));
    }
  }

  lemma EchoSettlesOnlyItsOwn(m: map<Id, Bubble>, log: seq<Msg>, x: nat, absorbed: Option<Id>, m': map<Id, Bubble>, k: Key)
    requires x < |log| && log[x].netId.Some? && MergeOutcome(m, Copy(log[x]), absorbed, m')
    requires forall y :: 0 <= y < |log| && log[y].netId == log[x].netId ==> y == x
    ensures Open(m, log, k) - {x} <= Open(m', log, k)
  {
  }

  /** An echo that no bubble matches leaves only failed bubbles of other messages waiting for its key, so
      those are strictly fewer than the open messages. */
  lemma UnmatchedAreOthers(m: map<Id, Bubble>, s: State, x: nat, k: Key)
    requires LogOk(s.log, s.confirmed) && BoardOk(m, s) && k != NoKey
    requires x < |s.log| && s.log[x].netId.Some? && Mine(s.log[x], k) && s.log[x].netId.value !in m
    requires forall id :: id in m ==> !EchoMatches(m[id], Copy(s.log[x]))
    ensures |Waiting(m, k)| <= |Open(m, s.log, k) - {x}|
  {
    var to := (id: Id, y: nat) => y < |s.log| && Owns(s.log[y], id);
    forall id | id in Waiting(m, k) ensures m[id].delivery == Some(Failed) {
      assert !EchoMatches(m[id], Copy(s.log[x]));
    }
    forall id | id in Waiting(m, k) ensures exists y :: y in Open(m, s.log, k) - {x} && to(id, y) {
      var y :| 0 <= y < |s.log| && Owns(s.log[y], id);
      FailedOwnerIsOpen(m, s, id, y, k);
      assert to(id, y);
      assert MsgOk(s.log[x]);
    }
    forall id, id', y: nat | id in Waiting(m, k) && id' in Waiting(m, k) && to(id, y) && to(id', y) ensures id == id' {
      FailedOwnerIsOpen(m, s, id, y, k);
      FailedOwnerIsOpen(m, s, id', y, k);
    }
    InjectionCount(Waiting(m, k), Open(m, s.log, k) - {x}, to);
  }

  lemma FailedOwnerIsOpen(m: map<Id, Bubble>, s: State, id: Id, y: nat, k: Key)
    requires LogOk(s.log, s.confirmed) && BoardOk(m, s) && id in Waiting(m, k) && m[id].delivery == Some(Failed)
    requires y < |s.log| && Owns(s.log[y], id)
    ensures y in Open(m, s.log, k)
    ensures if s.log[y].netId.Some? then id == s.log[y].netId.value else id == s.log[y].origin.localId
  {
    assert MsgOk(s.log[y]);
    assert MessageOk(m, s.log[y], y in s.confirmed, s.receipts);
  }

  lemma CountReceipt(m: map<Id, Bubble>, s: State, upToNs: int, k: Key)
    requires LogOk(s.log, s.confirmed) && BoardOk(m, s) && Covered(m, s.log, k)
    ensures Covered(MarkedBoard(m, upToNs), s.log, k)
  {
    forall x | 0 <= x < |s.log| && s.log[x].netId.Some? && s.log[x].netId.value in m
      ensures var b := m[s.log[x].netId.value]; b.fromMe == s.log[x].fromMe && KeyOf(b.body) == KeyOf(s.log[x].body)
    {
      assert MessageOk(m, s.log[x], x in s.confirmed, s.receipts);
    }
    forall x, y | 0 <= x < |s.log| && 0 <= y < |s.log| && s.log[x].netId.Some? && s.log[x].netId == s.log[y].netId
      ensures x == y
    {
      OneOwner(s.log, s.confirmed, x, y, s.log[x].netId.value);
    }
    ReceiptCounts(m, s.log, upToNs, k);
  }

  /** Each bubble a receipt promotes confirms one message of the same key. */
  lemma ReceiptCounts(m: map<Id, Bubble>, log: seq<Msg>, upToNs: int, k: Key)
    requires Covered(m, log, k)
    requires forall x :: 0 <= x < |log| && log[x].netId.Some? && log[x].netId.value in m ==>
      var b := m[log[x].netId.value]; b.fromMe == log[x].fromMe && KeyOf(b.body) == KeyOf(log[x].body)
    requires forall x, y :: 0 <= x < |log| && 0 <= y < |log| && log[x].netId.Some? && log[x].netId == log[y].netId ==> x == y
    ensures Covered(MarkedBoard(m, upToNs), log, k)
  {
    var m' := MarkedBoard(m, upToNs);
    var read := set id | id in Waiting(m, k) && ReadBy(m[id], upToNs);
    var settled: set<nat> := set x: nat | x in Open(m, log, k) && Settled(m', log[x]);
    assert Waiting(m', k) <= Waiting(m, k) - read;
    SubsetCount(Waiting(m', k), Waiting(m, k) - read);
    assert Open(m, log, k) - settled <= Open(m', log, k);
    SubsetCount(Open(m, log, k) - settled, Open(m', log, k));
    SettledAreRead(m, log, upToNs, k, read, settled);
  }

  lemma SettledAreRead(m: map<Id, Bubble>, log: seq<Msg>, upToNs: int, k: Key, read: set<Id>, settled: set<nat>)
    requires forall x :: 0 <= x < |log| && log[x].netId.Some? && log[x].netId.value in m ==>
      var b := m[log[x].netId.value]; b.fromMe == log[x].fromMe && KeyOf(b.body) == KeyOf(log[x].body)
    requires forall x, y :: 0 <= x < |log| && 0 <= y < |log| && log[x].netId.Some? && log[x].netId == log[y].netId ==> x == y
    requires forall id :: id in Waiting(m, k) && ReadBy(m[id], upToNs) ==> id in read
    requires forall x :: x in settled ==> x in Open(m, log, k) && Settled(MarkedBoard(m, upToNs), log[x])
    ensures |settled| <= |read|
  {
    var to := (x: nat, id: Id) => x < |log| && log[x].netId == Some(id);
    forall x | x in settled ensures exists id :: id in read && to(x, id) {
      assert log[x].netId.value in read && to(x, log[x].netId.value);
    }
    InjectionCount(settled, read, to);
  }

  // ----- history loads -----

  /** When no unconfirmed bubble shares its message with another and each one's message is unconfirmed,
      the bubbles are covered whatever happened before. */
  lemma CoveredByOwners(m: map<Id, Bubble>, s: State, k: Key)
    requires LogOk(s.log, s.confirmed) && BoardOk(m, s) && NoTwins(m, s.log)
    ensures Covered(m, s.log, k)
  {
    var to := (id: Id, y: nat) => y < |s.log| && Owns(s.log[y], id);
    forall id, y: nat | id in Waiting(m, k) && to(id, y) ensures y in Open(m, s.log, k) {
      OwnerIsOpen(m, s, k, id, y);
    }
    forall id | id in Waiting(m, k) ensures exists y :: y in Open(m, s.log, k) && to(id, y) {
      var y :| 0 <= y < |s.log| && Owns(s.log[y], id);
      assert to(id, y);
    }
    forall id, id', y: nat | id in Waiting(m, k) && id' in Waiting(m, k) && to(id, y) && to(id', y) ensures id == id' {
      OneIdWaits(m, s, id, id', y);
    }
    InjectionCount(Waiting(m, k), Open(m, s.log, k), to);
  }

  lemma OwnerIsOpen(m: map<Id, Bubble>, s: State, k: Key, id: Id, y: nat)
    requires LogOk(s.log, s.confirmed) && BoardOk(m, s) && NoTwins(m, s.log)
    requires id in Waiting(m, k) && y < |s.log| && Owns(s.log[y], id)
    ensures y in Open(m, s.log, k)
  {
    assert MsgOk(s.log[y]);
    assert MessageOk(m, s.log[y], y in s.confirmed, s.receipts);
  }

  lemma OneIdWaits(m: map<Id, Bubble>, s: State, id: Id, id': Id, y: nat)
    requires NoTwins(m, s.log) && id in m && id' in m && y < |s.log| && Owns(s.log[y], id) && Owns(s.log[y], id')
    ensures id == id'
  {
  }

  /** No message shows under both its local and its network id. */
  predicate NoTwins(m: map<Id, Bubble>, log: seq<Msg>) {
    forall x :: 0 <= x < |log| ==> log[x].origin.Composer? && log[x].netId.Some? && log[x].origin.localId in m ==>
      log[x].netId.value !in m
  }
}
