/** What holds over every run of a thread. */
module ThreadTheorems {
  import opened Wrappers
  import opened FiniteSets
  import opened Runs
  import opened StableSort
  import opened DeliveryState
  import opened ThreadProtocol
  import opened ThreadInvariant
  import opened ThreadCounting
  import opened ThreadTwins
  import opened ThreadLocals

  /** `s` is reached from the empty thread by events `es`. */
  ghost predicate Reaches(es: seq<Event>, s: State) {
    Run(Step, EMPTY_THREAD, es, s)
  }

  /** Ids stay unique, and every other clause of the invariant holds, at every state of every run. */
  lemma ReachableInv(es: seq<Event>, s: State)
    requires Reaches(es, s)
    ensures Inv(s) && ResendsOk(s)
  {
    InvInit();
    var inv := (a: State) => Inv(a) && ResendsOk(a);
    forall a, e, b | inv(a) && Step(a, e, b) ensures inv(b) { InvStep(a, e); }
    RunInduction(Step, inv, EMPTY_THREAD, es, s);
  }

  // ----- convergence -----

  /** A send that came to nothing and is no longer shown: its file was refused, its attempt failed with nothing
      stored and the bubble is gone, or the SDK gave it up, the network never delivered it, and its bubble is
      gone, discarded or taken over by a second send. */
  predicate Abandoned(s: State, x: nat)
    requires x < |s.log|
  {
    var o := s.log[x].origin;
    || (o.Composer? && (o.phase == Rejected || (o.phase == FailedNoId && !Listed(s.list, o.localId))))
    || (x in s.givenUp && x !in s.delivered && forall b :: b in s.list ==> !Owns(s.log[x], b.id))
  }

  predicate Acked(msg: Msg) {
    (msg.origin.Composer? || msg.origin.Again?) ==> msg.origin.phase == Stored
  }

  /** Every send has had its ack, and the network has confirmed every message, by its echo or in a loaded
      history; sends that came to nothing are no messages. */
  ghost predicate Quiescent(s: State) {
    forall x :: 0 <= x < |s.log| && !Abandoned(s, x) ==> x in s.confirmed && Acked(s.log[x])
  }

  /** Whatever the interleaving, the thread ends with one bubble for each network message and none
      under a local id. */
  lemma ThreadConverges(es: seq<Event>, s: State)
    requires Reaches(es, s) && Quiescent(s)
    ensures UniqueIds(s.list)
    ensures forall b :: b in s.list ==>
      !IsLocalId(b.id) && exists x :: x in s.confirmed && x < |s.log| && s.log[x].netId == Some(b.id)
    ensures forall x :: x in s.confirmed ==>
      x < |s.log| && exists b :: b in s.list && s.log[x].netId == Some(b.id) && !AwaitingEcho(b.delivery)
  {
    ReachableInv(es, s);
    QuiescentOwners(s);
    forall x | x in s.confirmed
      ensures x < |s.log| && exists b :: b in s.list && s.log[x].netId == Some(b.id) && !AwaitingEcho(b.delivery)
    {
      var b := Board(s.list)[s.log[x].netId.value];
      assert b in s.list && MessageOk(Board(s.list), s.log[x], true, s.receipts);
    }
  }

  /** Every bubble shows a confirmed message. */
  ghost predicate ShowsConfirmed(s: State) {
    forall b :: b in s.list ==> exists x :: x in s.confirmed && x < |s.log| && s.log[x].netId == Some(b.id)
  }

  lemma QuiescentOwners(s: State)
    requires Inv(s) && Quiescent(s)
    ensures forall b :: b in s.list ==>
      !IsLocalId(b.id) && exists x :: x in s.confirmed && x < |s.log| && s.log[x].netId == Some(b.id)
    ensures ShowsConfirmed(s)
  {
    forall b | b in s.list
      ensures !IsLocalId(b.id) && exists x :: x in s.confirmed && x < |s.log| && s.log[x].netId == Some(b.id)
    {
      var x := OwnerOf(s, b.id);
      assert Board(s.list)[b.id] == b && MsgOk(s.log[x]);
    }
  }

  /** Opening a thread whose history names every message as published settles it, the stream aside. */
  lemma LoadSettles(es: seq<Event>, s: State, rows: seq<Row>, upToNs: int)
    requires Reaches(es, s) && RowsOk(s, rows)
    requires forall x :: 0 <= x < |s.log| ==>
      if s.log[x].origin.Composer? && s.log[x].origin.phase in {Rejected, FailedNoId} then true
      else x in Published(rows) && Acked(s.log[x])
    ensures Quiescent(Apply(s, Load(rows, upToNs)))
  {
    ReachableInv(es, s);
    NoLocalsInHistory(s, rows, upToNs);
  }

  /** `b` is the network's own copy of a confirmed message. */
  ghost predicate IsEchoCopy(s: State, b: Bubble, x: nat) {
    x in s.confirmed && x < |s.log| && s.log[x].netId.Some? && b == Copy(s.log[x])
  }

  /** The list is the network's own copies of the confirmed messages, each once, newest first. */
  ghost predicate IsNetworksList(s: State) {
    && (forall b :: b in s.list ==> exists x :: IsEchoCopy(s, b, x))
    && (forall x :: x in s.confirmed ==> x < |s.log| && s.log[x].netId.Some? && Copy(s.log[x]) in s.list)
    && SortedBy(s.list, NewestFirst) && |s.list| == |s.confirmed|
  }

  /** Without receipts the list is exactly the network's copies, newest first. */
  lemma ThreadConvergesToEchoes(es: seq<Event>, s: State)
    requires Reaches(es, s) && Quiescent(s) && !s.receipts
    ensures IsNetworksList(s)
  {
    ReachableInv(es, s);
    QuiescentConverges(s);
  }

  lemma QuiescentConverges(s: State)
    requires Inv(s) && Quiescent(s) && !s.receipts
    ensures IsNetworksList(s)
  {
    QuiescentOwners(s);
    ConvergedList(s);
  }

  lemma ConvergedList(s: State)
    requires Inv(s) && !s.receipts
    requires ShowsConfirmed(s)
    ensures IsNetworksList(s)
  {
    EchoesAreListed(s);
    ListedAreEchoes(s);
    EchoCount(s);
  }

  lemma EchoesAreListed(s: State)
    requires Inv(s) && !s.receipts
    ensures forall x :: x in s.confirmed ==> x < |s.log| && s.log[x].netId.Some? && Copy(s.log[x]) in s.list
  {
    forall x | x in s.confirmed ensures x < |s.log| && s.log[x].netId.Some? && Copy(s.log[x]) in s.list {
      EchoIsCopy(s, x, Board(s.list)[s.log[x].netId.value]);
    }
  }

  lemma ListedAreEchoes(s: State)
    requires Inv(s) && !s.receipts
    requires ShowsConfirmed(s)
    ensures forall b :: b in s.list ==> exists x :: IsEchoCopy(s, b, x)
    ensures SortedBy(s.list, NewestFirst)
  {
    forall b | b in s.list ensures b.delivery.None? && exists x :: IsEchoCopy(s, b, x) {
      var x :| x in s.confirmed && x < |s.log| && s.log[x].netId == Some(b.id);
      EchoIsCopy(s, x, b);
      assert IsEchoCopy(s, b, x);
    }
    OrderedConfirmed(s.list);
  }

  lemma EchoIsCopy(s: State, x: nat, b: Bubble)
    requires Inv(s) && x in s.confirmed && x < |s.log| && b in s.list && s.log[x].netId == Some(b.id) && !s.receipts
    ensures b == Copy(s.log[x])
  {
    assert Board(s.list)[b.id] == b;
    assert MessageOk(Board(s.list), s.log[x], true, s.receipts);
  }

  lemma OrderedConfirmed(list: seq<Bubble>)
    requires OrderOk(list) && forall b :: b in list ==> b.delivery.None?
    ensures SortedBy(list, NewestFirst)
  {
    var le := NewestFirst;
    forall i, j | 0 <= i < j < |list| ensures le(list[i], list[j]) {
      assert list[i] in list && list[j] in list;
      assert le(list[i], list[j]) == NewestFirst(list[i], list[j]);
    }
  }

  lemma EchoCount(s: State)
    requires LogOk(s.log, s.confirmed) && UniqueIds(s.list)
    requires forall x :: x in s.confirmed ==> x < |s.log| && s.log[x].netId.Some? && Copy(s.log[x]) in s.list
    requires forall b :: b in s.list ==> exists x :: IsEchoCopy(s, b, x)
    ensures |s.list| == |s.confirmed|
  {
    DistinctCount(s.list);
    EveryEchoHasItsBubble(s);
    EveryBubbleHasItsEcho(s);
  }

  lemma EveryEchoHasItsBubble(s: State)
    requires LogOk(s.log, s.confirmed)
    requires forall x :: x in s.confirmed ==> x < |s.log| && s.log[x].netId.Some? && Copy(s.log[x]) in s.list
    ensures |s.confirmed| <= |Elements(s.list)|
  {
    var toBubble := (x: nat, b: Bubble) => IsEchoCopy(s, b, x);
    forall x | x in s.confirmed ensures exists b :: b in Elements(s.list) && toBubble(x, b) {
      assert Copy(s.log[x]) in Elements(s.list) && toBubble(x, Copy(s.log[x]));
    }
    forall x: nat, y: nat, b | x in s.confirmed && y in s.confirmed && toBubble(x, b) && toBubble(y, b) ensures x == y {
      OneOwner(s.log, s.confirmed, x, y, b.id);
    }
    InjectionCount(s.confirmed, Elements(s.list), toBubble);
  }

  lemma EveryBubbleHasItsEcho(s: State)
    requires forall b :: b in s.list ==> exists x :: IsEchoCopy(s, b, x)
    ensures |Elements(s.list)| <= |s.confirmed|
  {
    var toMsg := (b: Bubble, x: nat) => IsEchoCopy(s, b, x);
    forall b | b in Elements(s.list) ensures exists x :: x in s.confirmed && toMsg(b, x) {
      var x :| IsEchoCopy(s, b, x);
      assert toMsg(b, x);
    }
    InjectionCount(Elements(s.list), s.confirmed, toMsg);
  }

  // ----- read state, re-binds -----

  /** A bubble with a local id is only ever pending or failed; it cannot have been read. */
  lemma LocalIsNeverRead(es: seq<Event>, s: State, b: Bubble)
    requires Reaches(es, s) && b in s.list && IsLocalId(b.id)
    ensures b.delivery == Some(Pending) || b.delivery == Some(Failed)
  {
    ReachableInv(es, s);
    var x := OwnerOf(s, b.id);
  }

  /** Re-binding after the background: every unconfirmed bubble survives unless history holds its id,
      every history row is shown, and the result is newest first. */
  lemma ResumeKeepsUnconfirmed(es: seq<Event>, s: State, rows: seq<Row>, upToNs: int)
    requires Reaches(es, s) && RowsOk(s, rows)
    ensures var list' := Apply(s, Resume(rows, upToNs)).list;
            var history := Fresh(s.log, rows, upToNs);
            && UniqueIds(list') && SortedBy(list', NewestFirst)
            && (forall b :: b in list' <==> b in history || (b in s.list && IsOptimistic(b) && !Listed(history, b.id)))
  {
    ReachableInv(es, s);
    FreshContents(s, rows, upToNs);
    var history := Fresh(s.log, rows, upToNs);
    var kept := ResumeBoard(s.list, history);
    var list' := Apply(s, Resume(rows, upToNs)).list;
    forall b ensures b in list' <==> b in history || (b in s.list && IsOptimistic(b) && !Listed(history, b.id)) {
      ListedOnBoard(history, b.id);
      assert b in list' <==> b.id in Board(list') && Board(list')[b.id] == b;
    }
  }

  // ----- never double-bubbles -----

  /** The positions of my bubbles with key `k`. */
  ghost function OwnBubbles(list: seq<Bubble>, k: Key): set<nat> {
    set i | i in Below(|list|) && list[i].fromMe && KeyOf(list[i].body) == k
  }

  /** No message the history names is still listed under its local id. */
  predicate RebindSafe(s: State, e: Event) {
    match e
    case Resume(rows, _) =>
      forall x :: 0 <= x < |s.log| ==>
        s.log[x].origin.Composer? && Listed(s.list, s.log[x].origin.localId) ==> forall i :: 0 <= i < |rows| ==> rows[i].x != x
    case _ => true
  }

  ghost predicate SafeStep(s: State, e: Event, t: State) {
    RebindSafe(s, e) && Step(s, e, t)
  }

  ghost predicate InvCovered(s: State, k: Key) {
    Inv(s) && ResendsOk(s) && CoveredAt(s, k) && TwinFree(s) && RetriedAlone(s)
  }

  /** Per text or digest, my bubbles never outnumber the messages I started, at every reachable state. */
  lemma NeverDoubleBubbles(es: seq<Event>, s: State, k: Key)
    requires Run(SafeStep, EMPTY_THREAD, es, s) && k != NoKey
    ensures |OwnBubbles(s.list, k)| <= |Started(s.log, k)|
  {
    InvInit();
    assert Waiting(Board(EMPTY_THREAD.list), k) == {};
    var inv := (a: State) => InvCovered(a, k);
    forall a, e, b | inv(a) && SafeStep(a, e, b) ensures inv(b) {
      InvStep(a, e);
      CoveredStep(a, e, k);
      TwinsStep(a, e);
      AloneStep(a, e);
    }
    RunInduction(SafeStep, inv, EMPTY_THREAD, es, s);
    CoveredBounds(s, k);
  }

  lemma Extend(es: seq<Event>, s: State, e: Event) returns (fs: seq<Event>, t: State)
    requires Reaches(es, s) && Enabled(s, e)
    ensures t == Apply(s, e) && fs == es + [e] && Reaches(fs, t)
  {
    fs, t := es + [e], Apply(s, e);
    RunSnoc(Step, EMPTY_THREAD, es, s, e, t);
  }

  /** Two bubbles of mine with one key, under the two ids. */
  predicate Doubled(list: seq<Bubble>, b: Id, c: Id, k: Key) {
    exists p, q :: p in list && q in list && p.id == b && q.id == c && p.fromMe && q.fromMe
                   && KeyOf(p.body) == KeyOf(q.body) == k
  }

  /** Without that hypothesis it fails, whenever a prepared send is still shown under its local id and the
      history already names it: the re-bind shows it twice. */
  lemma ResumeDoubles(es: seq<Event>, s: State, rows: seq<Row>, upToNs: int, i: nat, b: Bubble)
    requires Reaches(es, s) && RowsOk(s, rows) && i < |rows| && s.log[rows[i].x].origin.Composer?
    requires b in s.list && b.id == s.log[rows[i].x].origin.localId
    ensures Doubled(Apply(s, Resume(rows, upToNs)).list, b.id, s.log[rows[i].x].netId.value, KeyOf(b.body))
  {
    ReachableInv(es, s);
    LocalShowsMessage(s, rows[i].x, b);
    HistoryShows(s, rows, upToNs, i);
    ResumeKeepsUnconfirmed(es, s, rows, upToNs);
  }

  lemma HistoryShows(s: State, rows: seq<Row>, upToNs: int, i: nat)
    requires Inv(s) && RowsOk(s, rows) && i < |rows| && s.log[rows[i].x].origin.Composer?
    ensures var msg, history := s.log[rows[i].x], Fresh(s.log, rows, upToNs);
      && !Listed(history, msg.origin.localId)
      && exists c :: c in history && c.id == msg.netId.value && c.fromMe && KeyOf(c.body) == KeyOf(msg.body)
  {
    var history, x := Fresh(s.log, rows, upToNs), rows[i].x;
    assert MsgOk(s.log[x]);
    FreshContents(s, rows, upToNs);
    HistoryNames(s, rows, upToNs, history, x);
    ListedOnBoard(history, s.log[x].origin.localId);
    RowShowsMessage(s.log, rows[i], upToNs);
    assert HistoryBubble(s.log, rows[i], upToNs) in history;
  }

  lemma RowShowsMessage(log: seq<Msg>, row: Row, upToNs: int)
    requires row.x < |log| && log[row.x].netId.Some?
    ensures var c, msg := HistoryBubble(log, row, upToNs), log[row.x];
      c.id == msg.netId.value && c.fromMe == msg.fromMe && KeyOf(c.body) == KeyOf(msg.body)
  {
  }

  lemma LocalShowsMessage(s: State, x: nat, b: Bubble)
    requires Inv(s) && x < |s.log| && s.log[x].origin.Composer? && b in s.list && b.id == s.log[x].origin.localId
    ensures IsOptimistic(b) && b.fromMe && KeyOf(b.body) == KeyOf(s.log[x].body)
  {
    assert MsgOk(s.log[x]);
    assert Board(s.list)[b.id] == b && LocalOk(s.log[x], b);
  }

  /** Such runs exist: send, prepare, re-bind. */
  lemma ResumeCanDouble(netId: Id, nowNs: int, sentNs: int) returns (es: seq<Event>, s: State)
    requires !IsLocalId(netId) && netId != ""
    ensures Reaches(es, s) && |s.log| == 1 && Doubled(s.list, LocalId(1), netId, TextKey("hi"))
  {
    LocalIdsDistinct(1, 1);
    es, s := [], EMPTY_THREAD;
    es, s := Extend(es, s, SendText(LocalId(1), "hi", None, nowNs));
    var b := s.list[0];
    es, s := Extend(es, s, PrepareOk(0, netId, sentNs));
    ResumeDoubles(es, s, [Row(0, NoMark)], 0, 0, b);
    es, s := Extend(es, s, Resume([Row(0, NoMark)], 0));
  }

  /** Every event keeps unconfirmed bubbles covered; a re-bind does when it is safe. */
  lemma CoveredStep(s: State, e: Event, k: Key)
    requires Inv(s) && ResendsOk(s) && Enabled(s, e) && RebindSafe(s, e)
    requires k != NoKey && CoveredAt(s, k) && TwinFree(s)
    ensures CoveredAt(Apply(s, e), k)
  {
    if IsSendEvent(e) {
      CoveredSendStep(s, e, k);
    } else if e.Resume? {
      CoveredResume(s, e, k);
    } else {
      CoveredViewStep(s, e, k);
    }
  }

  lemma CoveredViewStep(s: State, e: Event, k: Key)
    requires Inv(s) && Enabled(s, e) && !IsSendEvent(e) && !e.Resume? && k != NoKey && CoveredAt(s, k)
    ensures CoveredAt(Apply(s, e), k)
  {
    match e {
      case Echo(_) => CoveredEcho(s, e, k);
      case Receipt(_) => CoveredReceipt(s, e, k);
      case TapRetry(b, canRepublish) => CoveredRetry(s, b, canRepublish, k);
      case RetrySettled(_, _) => CoveredSettled(s, e, k);
      case Discard(id) => CoveredDiscard(s, id, k);
      case Mount => CoveredMount(s, k);
      case Load(_, _) => CoveredLoad(s, e, k);
    }
  }

  ghost predicate CoveredAt(s: State, k: Key) {
    UniqueIds(s.list) && Covered(Board(s.list), s.log, k)
  }

  lemma CoveredSendStep(s: State, e: Event, k: Key)
    requires Inv(s) && ResendsOk(s) && Enabled(s, e) && IsSendEvent(e)
    requires k != NoKey && CoveredAt(s, k)
    ensures CoveredAt(Apply(s, e), k)
  {
    match e {
      case SendText(_, _, _, _) => CoveredSend(s, e, k);
      case SendFile(_, _, _) => CoveredSend(s, e, k);
      case UploadOk(_, _) => CoveredUpload(s, e, k);
      case UploadRejected(_) => CoveredAttempt(s, e, k);
      case AttemptFailed(_) => CoveredAttempt(s, e, k);
      case PrepareOk(_, _, _) => CoveredPrepare(s, e, k);
      case Ack(x, d) => CoveredLink(s, x, d, k);
      case PublishFailed(_) => CoveredPublishFailed(s, e, k);
      case Learn(_) => CoveredLearn(s, e, k);
      case ResendFailed(_) => CoveredResendFailed(s, e, k);
      case ResendPrepared(_, _, _) => CoveredResendPrepared(s, e, k);
      case ResendAck(x, d) => CoveredTakeOver(s, x, d, k);
      case ResendPublishFailed(x) => CoveredResendPublishFailed(s, x, k);
    }
  }

  lemma CoveredSend(s: State, e: Event, k: Key)
    requires Inv(s) && (e.SendText? || e.SendFile?) && Enabled(s, e) && CoveredAt(s, k)
    ensures CoveredAt(Apply(s, e), k)
  {
    CoveredAppend(s, Apply(s, e).log[|s.log|], Apply(s, e).list[0], k);
  }

  lemma CoveredPublishFailed(s: State, e: Event, k: Key)
    requires Inv(s) && e.PublishFailed? && Enabled(s, e) && k != NoKey && CoveredAt(s, k)
    ensures CoveredAt(Apply(s, e), k)
  {
    assert MsgOk(s.log[e.x]);
    CoveredLink(s, e.x, Failed, k);
  }

  lemma CoveredLearn(s: State, e: Event, k: Key)
    requires Inv(s) && e.Learn? && Enabled(s, e) && CoveredAt(s, k)
    ensures CoveredAt(Apply(s, e), k)
  {
    FewerWaiting(Board(s.list), s.log, Board(s.list), Apply(s, e).log, k);
  }

  lemma CoveredEcho(s: State, e: Event, k: Key)
    requires Inv(s) && e.Echo? && Enabled(s, e) && k != NoKey && CoveredAt(s, k)
    ensures CoveredAt(Apply(s, e), k)
  {
    var absorbed := MergeBoard(s.list, Copy(s.log[e.x]));
    CountEcho(Board(s.list), s, e.x, absorbed, Board(Apply(s, e).list), k);
  }

  lemma CoveredReceipt(s: State, e: Event, k: Key)
    requires Inv(s) && e.Receipt? && Enabled(s, e) && CoveredAt(s, k)
    ensures CoveredAt(Apply(s, e), k)
  {
    MarkBoard(s.list, e.upToNs);
    CountReceipt(Board(s.list), s, e.upToNs, k);
  }

  lemma CoveredSettled(s: State, e: Event, k: Key)
    requires Inv(s) && e.RetrySettled? && Enabled(s, e) && CoveredAt(s, k)
    ensures CoveredAt(Apply(s, e), k)
  {
    var m := Board(s.list);
    SettleBoard(s.list, e.id, e.delivery);
    if e.id in m && m[e.id].delivery == Some(Pending) { CountRelabel(m, s.log, e.id, e.delivery, k); }
  }

  lemma CoveredDiscard(s: State, id: Id, k: Key)
    requires CoveredAt(s, k)
    ensures CoveredAt(Apply(s, Discard(id)), k)
  {
    DroppedCovered(s.list, s.log, id, k);
  }

  lemma DroppedCovered(list: seq<Bubble>, log: seq<Msg>, id: Id, k: Key)
    requires UniqueIds(list) && Covered(Board(list), log, k)
    ensures UniqueIds(DiscardMessage(list, id)) && Covered(Board(DiscardMessage(list, id)), log, k)
  {
    DiscardBoard(list, id);
    CountDrop(Board(list), log, id, k);
  }

  lemma CoveredAppend(s: State, msg: Msg, b: Bubble, k: Key)
    requires Inv(s) && CoveredAt(s, k)
    requires FreshLocalId(s, b.id) && msg.netId.None? && msg.fromMe && b.body == msg.body
    ensures UniqueIds([b] + s.list) && Covered(Board([b] + s.list), s.log + [msg], k)
  {
    FreshIdUnlisted(s, b.id);
    PrependBoard(s.list, b);
    forall x | 0 <= x < |s.log| ensures s.log[x].netId != Some(b.id) { assert !Owns(s.log[x], b.id); }
    CountAppend(Board(s.list), s.log, msg, b, k);
  }

  lemma NetIdsAreNotLocal(s: State, id: Id)
    requires Inv(s) && IsLocalId(id)
    ensures forall y :: 0 <= y < |s.log| ==> s.log[y].netId != Some(id)
  {
    forall y | 0 <= y < |s.log| ensures s.log[y].netId != Some(id) { assert MsgOk(s.log[y]); }
  }

  lemma CoveredUpload(s: State, e: Event, k: Key)
    requires Inv(s) && e.UploadOk? && Enabled(s, e) && k != NoKey && CoveredAt(s, k)
    ensures CoveredAt(Apply(s, e), k)
  {
    var localId := s.log[e.x].origin.localId;
    assert MsgOk(s.log[e.x]);
    NetIdsAreNotLocal(s, localId);
    UploadBoard(s.list, localId, e.digest);
    assert MessageOk(Board(s.list), s.log[e.x], e.x in s.confirmed, s.receipts);
    CountUpload(Board(s.list), s.log, e.x, Apply(s, e).log[e.x], e.digest, k);
  }

  lemma CoveredAttempt(s: State, e: Event, k: Key)
    requires Inv(s) && (e.UploadRejected? || e.AttemptFailed?) && Enabled(s, e) && CoveredAt(s, k)
    ensures CoveredAt(Apply(s, e), k)
  {
    OpenInPhase(Board(s.list), s.log, e.x, if e.UploadRejected? then Rejected else FailedNoId, k);
    if e.UploadRejected? { CoveredRefusal(s, e.x, k); } else { CoveredFailure(s, e.x, k); }
  }

  lemma CoveredRefusal(s: State, x: nat, k: Key)
    requires Inv(s) && Enabled(s, UploadRejected(x)) && Covered(Board(s.list), Apply(s, UploadRejected(x)).log, k)
    ensures CoveredAt(Apply(s, UploadRejected(x)), k)
  {
    var localId := s.log[x].origin.localId;
    DiscardBoard(s.list, localId);
    CountDrop(Board(s.list), Apply(s, UploadRejected(x)).log, localId, k);
  }

  lemma CoveredFailure(s: State, x: nat, k: Key)
    requires Inv(s) && Enabled(s, AttemptFailed(x)) && Covered(Board(s.list), Apply(s, AttemptFailed(x)).log, k)
    ensures CoveredAt(Apply(s, AttemptFailed(x)), k)
  {
    var localId := s.log[x].origin.localId;
    assert MsgOk(s.log[x]);
    NetIdsAreNotLocal(s, localId);
    RelabelBoard(s.list, localId, localId, Failed);
    assert MessageOk(Board(s.list), s.log[x], x in s.confirmed, s.receipts);
    CountRelabel(Board(s.list), Apply(s, AttemptFailed(x)).log, localId, Failed, k);
  }

  lemma PreparedOpen(s: State, e: Event, k: Key)
    requires Inv(s) && e.PrepareOk? && Enabled(s, e)
    ensures Open(Board(s.list), s.log, k) <= Open(Board(s.list), Apply(s, e).log, k)
  {
    FreshIdUnlisted(s, e.netId);
  }

  lemma CoveredPrepare(s: State, e: Event, k: Key)
    requires Inv(s) && e.PrepareOk? && Enabled(s, e) && CoveredAt(s, k)
    ensures CoveredAt(Apply(s, e), k)
  {
    PreparedOpen(s, e, k);
    FewerWaiting(Board(s.list), s.log, Board(s.list), Apply(s, e).log, k);
  }

  lemma CoveredLink(s: State, x: nat, d: Delivery, k: Key)
    requires Inv(s) && IsComposer(s, x, Publishing) && s.log[x].netId.Some? && d != Read && k != NoKey
    requires Covered(Board(s.list), s.log, k)
    ensures var list' := ReconcileSent(s.list, s.log[x].origin.localId, s.log[x].netId.value, d);
            UniqueIds(list') && Covered(Board(list'), s.log[x := InPhase(s.log[x], Stored)], k)
  {
    var m, localId, netId := Board(s.list), s.log[x].origin.localId, s.log[x].netId.value;
    assert MsgOk(s.log[x]);
    NetIdsAreNotLocal(s, localId);
    assert MessageOk(m, s.log[x], x in s.confirmed, s.receipts);
    ReconcileBoard(s.list, localId, netId, d);
    CountLink(m, s.log, localId, netId, d, k);
    OpenInPhase(Reconciled(m, localId, netId, d), s.log, x, Stored, k);
  }

  lemma RestartedOpen(s: State, b: Bubble, m: map<Id, Bubble>, k: Key)
    ensures Open(m, RestartedLog(s.log, b), k) == Open(m, s.log, k)
  {
  }

  lemma CoveredRetry(s: State, b: Bubble, canRepublish: bool, k: Key)
    requires Inv(s) && b in s.list && CoveredAt(s, k)
    ensures CoveredAt(Apply(s, TapRetry(b, canRepublish)), k)
  {
    RetryEffect(s, b, canRepublish);
    if RetryChoice(b, s.storedIds, canRepublish) != Ignore {
      RetriedAwaits(b, s.storedIds, canRepublish);
      PendingCovered(s.list, s.log, b, k);
      RestartedCovered(s, b, Relabel(s.list, b.id, b.id, Pending), k);
    }
  }

  function RestartedLog(log: seq<Msg>, b: Bubble): seq<Msg> {
    seq(|log|, i requires 0 <= i < |log| => Restarted(log[i], b))
  }

  lemma RetryEffect(s: State, b: Bubble, canRepublish: bool)
    requires b in s.list
    ensures var s', action := Apply(s, TapRetry(b, canRepublish)), RetryChoice(b, s.storedIds, canRepublish);
      if action == Ignore then s' == s
      else s'.confirmed == s.confirmed && s'.list == Relabel(s.list, b.id, b.id, Pending)
           && s'.log == if action == Resend && IsLocalId(b.id) then RestartedLog(s.log, b) else s.log
  {
  }

  lemma RestartedCovered(s: State, b: Bubble, list': seq<Bubble>, k: Key)
    requires UniqueIds(list') && Covered(Board(list'), s.log, k)
    ensures Covered(Board(list'), RestartedLog(s.log, b), k)
  {
    RestartedOpen(s, b, Board(list'), k);
  }

  lemma RetriedAwaits(b: Bubble, storedIds: set<Id>, canRepublish: bool)
    requires RetryChoice(b, storedIds, canRepublish) != Ignore
    ensures AwaitingEcho(b.delivery)
  {
  }

  lemma PendingCovered(list: seq<Bubble>, log: seq<Msg>, b: Bubble, k: Key)
    requires UniqueIds(list) && b in list && AwaitingEcho(b.delivery) && Covered(Board(list), log, k)
    ensures var list' := Relabel(list, b.id, b.id, Pending); UniqueIds(list') && Covered(Board(list'), log, k)
  {
    RelabelBoard(list, b.id, b.id, Pending);
    CountRelabel(Board(list), log, b.id, Pending, k);
  }

  lemma CoveredResendFailed(s: State, e: Event, k: Key)
    requires Inv(s) && ResendsOk(s) && e.ResendFailed? && Enabled(s, e) && CoveredAt(s, k)
    ensures CoveredAt(Apply(s, e), k)
  {
    var t := s.resends[e.r];
    var x := OldMessage(s, t.oldId, t.body);
    RelabelBoard(s.list, t.oldId, t.oldId, Failed);
    CountReopen(Board(s.list), s.log, x, Failed, k);
  }

  lemma CoveredResendPrepared(s: State, e: Event, k: Key)
    requires Inv(s) && e.ResendPrepared? && Enabled(s, e) && CoveredAt(s, k)
    ensures CoveredAt(Apply(s, e), k)
  {
    FewerWaiting(Board(s.list), s.log, Board(s.list), Apply(s, e).log, k);
  }

  lemma CoveredTakeOver(s: State, y: nat, d: Delivery, k: Key)
    requires Inv(s) && ResendsOk(s) && IsAgain(s, y, Publishing) && d != Read && CoveredAt(s, k)
    ensures var list' := ReconcileSent(s.list, s.log[y].origin.oldId, s.log[y].netId.value, d);
            UniqueIds(list') && Covered(Board(list'), s.log[y := AgainStored(s.log[y])], k)
  {
    var oldId, netId := s.log[y].origin.oldId, s.log[y].netId.value;
    var x := OldMessage(s, oldId, s.log[y].body);
    assert MsgOk(s.log[y]);
    ReconcileBoard(s.list, oldId, netId, d);
    CountTakeOver(Board(s.list), s.log, x, netId, d, k);
    AgainStoredOpen(Reconciled(Board(s.list), oldId, netId, d), s.log, y, k);
  }

  lemma CoveredResendPublishFailed(s: State, y: nat, k: Key)
    requires Inv(s) && ResendsOk(s) && IsAgain(s, y, Publishing) && CoveredAt(s, k)
    ensures CoveredAt(Apply(s, ResendPublishFailed(y)), k)
  {
    PublishFailedAgain(s, y);
    CoveredTakeOver(s, y, Failed, k);
  }

  lemma CoveredMount(s: State, k: Key)
    requires Inv(s)
    ensures CoveredAt(Apply(s, Mount), k)
  {
    assert Waiting(Board(Apply(s, Mount).list), k) == {};
  }

  lemma CoveredLoad(s: State, e: Event, k: Key)
    requires Inv(s) && e.Load? && Enabled(s, e)
    ensures CoveredAt(Apply(s, e), k)
  {
    var s' := Apply(s, e);
    InvLoad(s, e);
    FreshContents(s, e.rows, e.upToNs);
    forall x | 0 <= x < |s.log| && s.log[x].origin.Composer? ensures s.log[x].origin.localId !in Board(s'.list) {
      assert MsgOk(s.log[x]);
      if s.log[x].origin.localId in Board(s'.list) {
        var _ := HistoryRow(s.log, e.rows, e.upToNs, s'.list, s.log[x].origin.localId);
      }
    }
    CoveredByOwners(Board(s'.list), s', k);
  }

  lemma CoveredResume(s: State, e: Event, k: Key)
    requires Inv(s) && e.Resume? && Enabled(s, e) && RebindSafe(s, e)
    requires TwinFree(s)
    ensures CoveredAt(Apply(s, e), k)
  {
    InvResume(s, e);
    SafeResumeHasNoTwins(s, e);
    CoveredByOwners(Board(Apply(s, e).list), Apply(s, e), k);
  }

  lemma SafeResumeHasNoTwins(s: State, e: Event)
    requires Inv(s) && e.Resume? && Enabled(s, e) && RebindSafe(s, e)
    requires TwinFree(s)
    ensures UniqueIds(Apply(s, e).list) && NoTwins(Board(Apply(s, e).list), s.log)
  {
    var s' := Apply(s, e);
    InvResume(s, e);
    forall x | 0 <= x < |s.log| && s.log[x].origin.Composer? && s.log[x].netId.Some?
               && s.log[x].origin.localId in Board(s'.list)
      ensures s.log[x].netId.value !in Board(s'.list)
    {
      ResumeTwins(s, e, x);
      ListedOnBoard(s.list, s.log[x].origin.localId);
      TwinIsSettled(s, x);
    }
  }

  /** A message still under its local id has no unconfirmed bubble under its network id. */
  lemma TwinIsSettled(s: State, x: nat)
    requires Inv(s) && TwinFree(s)
    requires x < |s.log| && s.log[x].origin.Composer? && s.log[x].netId.Some? && s.log[x].origin.localId in Board(s.list)
    ensures forall b :: b in s.list && b.id == s.log[x].netId.value ==> !IsOptimistic(b)
  {
    forall b | b in s.list && b.id == s.log[x].netId.value ensures !IsOptimistic(b) {
      assert Board(s.list)[b.id] == b && Twin(Board(s.list), s.log[x]);
      assert MessageOk(Board(s.list), s.log[x], true, s.receipts);
    }
  }

  // ----- no unconfirmed twins -----

  lemma TwinsRetry(s: State, b: Bubble, canRepublish: bool)
    requires Inv(s) && b in s.list && TwinFree(s)
    ensures TwinFree(Apply(s, TapRetry(b, canRepublish)))
  {
    RetryEffect(s, b, canRepublish);
    RestartedSameIds(s.log, b);
    if RetryChoice(b, s.storedIds, canRepublish) != Ignore {
      var s' := Apply(s, TapRetry(b, canRepublish));
      RelabelCalm(s.list, b.id, Pending);
      TwinsCalm(Board(s.list), s.log, s.confirmed, Board(s'.list), s'.log);
    }
  }

  lemma RestartedSameIds(log: seq<Msg>, b: Bubble)
    ensures SameIds(log, log) && SameIds(log, RestartedLog(log, b))
  {
  }

  lemma TwinsLoad(s: State, e: Event)
    requires Inv(s) && e.Load? && Enabled(s, e)
    ensures TwinFree(Apply(s, e))
  {
    InvLoad(s, e);
    NoLocalsInHistory(s, e.rows, e.upToNs);
    forall x | 0 <= x < |s.log| && s.log[x].origin.Composer? ensures s.log[x].origin.localId !in Board(Apply(s, e).list) {
      ListedOnBoard(Apply(s, e).list, s.log[x].origin.localId);
    }
  }

  lemma TwinsLearn(s: State, e: Event)
    requires Inv(s) && (e.Learn? || e.ResendPrepared?) && Enabled(s, e)
    requires TwinFree(s)
    ensures TwinFree(Apply(s, e))
  {
    forall x | 0 <= x < |Apply(s, e).log| && Twin(Board(s.list), Apply(s, e).log[x]) ensures x in s.confirmed {
      assert x < |s.log| && Twin(Board(s.list), s.log[x]);
    }
  }

  lemma TwinsMount(s: State)
    ensures TwinFree(Apply(s, Mount))
  {
    assert Board(Apply(s, Mount).list) == map[];
  }

  lemma TwinsResume(s: State, e: Event)
    requires Inv(s) && e.Resume? && Enabled(s, e) && RebindSafe(s, e)
    requires TwinFree(s)
    ensures TwinFree(Apply(s, e))
  {
    SafeResumeHasNoTwins(s, e);
  }

  /** Every event, a safe re-bind included, leaves only confirmed messages listed under both their ids. */
  lemma TwinsStep(s: State, e: Event)
    requires Inv(s) && ResendsOk(s) && Enabled(s, e) && RebindSafe(s, e) && TwinFree(s) && RetriedAlone(s)
    ensures TwinFree(Apply(s, e))
  {
    if IsSendEvent(e) {
      TwinsSendStep(s, e);
    } else if e.Resume? {
      TwinsResume(s, e);
    } else {
      TwinsViewStep(s, e);
    }
  }

  lemma TwinsViewStep(s: State, e: Event)
    requires Inv(s) && Enabled(s, e) && TwinFree(s) && !IsSendEvent(e) && !e.Resume?
    ensures TwinFree(Apply(s, e))
  {
    match e {
      case Echo(_) => TwinsEcho(s, e);
      case Receipt(_) => TwinsReceipt(s, e);
      case TapRetry(b, canRepublish) => TwinsRetry(s, b, canRepublish);
      case RetrySettled(_, _) => TwinsSettled(s, e);
      case Discard(id) => TwinsDiscard(s, id);
      case Mount => TwinsMount(s);
      case Load(_, _) => TwinsLoad(s, e);
    }
  }

  lemma TwinsSendStep(s: State, e: Event)
    requires Inv(s) && ResendsOk(s) && Enabled(s, e) && TwinFree(s) && RetriedAlone(s) && IsSendEvent(e)
    ensures TwinFree(Apply(s, e))
  {
    match e {
      case SendText(_, _, _, _) => TwinsAppend(s, e);
      case SendFile(_, _, _) => TwinsAppend(s, e);
      case UploadOk(_, _) => TwinsUpload(s, e);
      case UploadRejected(x) => TwinsRefused(s, x);
      case AttemptFailed(_) => TwinsFailed(s, e);
      case PrepareOk(_, _, _) => TwinsPrepare(s, e);
      case Ack(x, d) => TwinsLink(s, x, d);
      case PublishFailed(x) => TwinsPublishFailed(s, x);
      case Learn(_) => TwinsLearn(s, e);
      case ResendFailed(r) => TwinsResendFailed(s, r);
      case ResendPrepared(_, _, _) => TwinsLearn(s, e);
      case ResendAck(x, d) => TwinsResendAck(s, x, d);
      case ResendPublishFailed(x) => TwinsResendPublishFailed(s, x);
    }
  }

  lemma TwinsPublishFailed(s: State, x: nat)
    requires Inv(s) && Enabled(s, PublishFailed(x)) && TwinFree(s)
    ensures TwinFree(Apply(s, PublishFailed(x)))
  {
    assert MsgOk(s.log[x]);
    TwinsLink(s, x, Failed);
  }

  /** A re-bind shows a message under both ids exactly when its unconfirmed local copy is listed and
      either the history names it or the list already showed its unconfirmed network copy too. */
  lemma ResumeTwins(s: State, e: Event, x: nat)
    requires Inv(s) && e.Resume? && Enabled(s, e) && x < |s.log| && s.log[x].origin.Composer? && s.log[x].netId.Some?
    ensures var list' := Apply(s, e).list;
            && (Listed(list', s.log[x].origin.localId) <==> Listed(s.list, s.log[x].origin.localId))
            && (Listed(list', s.log[x].netId.value) <==>
                  || (exists i :: 0 <= i < |e.rows| && e.rows[i].x == x)
                  || (exists b :: b in s.list && b.id == s.log[x].netId.value && IsOptimistic(b)))
    ensures UniqueIds(Apply(s, e).list)
    ensures forall id :: id in Board(Apply(s, e).list) <==> Listed(Apply(s, e).list, id)
  {
    var history := Fresh(s.log, e.rows, e.upToNs);
    FreshContents(s, e.rows, e.upToNs);
    HistoryNames(s, e.rows, e.upToNs, history, x);
    var kept := ResumeBoard(s.list, history);
    TwinsByBoard(s, history, kept, x, Apply(s, e).list);
  }

  lemma HistoryNames(s: State, rows: seq<Row>, upToNs: int, history: seq<Bubble>, x: nat)
    requires Inv(s) && RowsOk(s, rows) && UniqueIds(history) && HistoryOf(history, s.log, rows, upToNs)
    requires x < |s.log| && s.log[x].origin.Composer? && s.log[x].netId.Some?
    ensures s.log[x].origin.localId !in Board(history)
    ensures s.log[x].netId.value in Board(history) <==> exists i :: 0 <= i < |rows| && rows[i].x == x
  {
    assert MsgOk(s.log[x]);
    if s.log[x].origin.localId in Board(history) {
      var _ := HistoryRow(s.log, rows, upToNs, history, s.log[x].origin.localId);
    }
    if s.log[x].netId.value in Board(history) {
      var i := HistoryRow(s.log, rows, upToNs, history, s.log[x].netId.value);
      OneOwner(s.log, s.confirmed, x, rows[i].x, s.log[x].netId.value);
    }
    if i :| 0 <= i < |rows| && rows[i].x == x { RowListed(s.log, rows, upToNs, history, i); }
  }

  lemma TwinsByBoard(s: State, history: seq<Bubble>, kept: map<Id, Bubble>, x: nat, list': seq<Bubble>)
    requires Inv(s) && x < |s.log| && s.log[x].origin.Composer? && s.log[x].netId.Some?
    requires UniqueIds(history) && s.log[x].origin.localId !in Board(history)
    requires UniqueIds(list') && Board(list') == Board(history) + kept
    requires forall id :: id in kept <==> id in Board(s.list) && IsOptimistic(Board(s.list)[id]) && id !in Board(history)
    ensures Listed(list', s.log[x].origin.localId) <==> Listed(s.list, s.log[x].origin.localId)
    ensures Listed(list', s.log[x].netId.value) <==>
              || s.log[x].netId.value in Board(history)
              || (exists b :: b in s.list && b.id == s.log[x].netId.value && IsOptimistic(b))
    ensures forall id :: id in Board(list') <==> Listed(list', id)
  {
    assert MsgOk(s.log[x]);
    assert MessageOk(Board(s.list), s.log[x], x in s.confirmed, s.receipts);
    forall id ensures id in Board(list') <==> Listed(list', id) { ListedOnBoard(list', id); }
    ListedOnBoard(s.list, s.log[x].origin.localId);
    assert s.log[x].netId.value in Board(s.list) ==> Board(s.list)[s.log[x].netId.value] in s.list;
  }

  ghost function Waits(list: seq<Bubble>, k: Key): set<nat> {
    set i: nat | i in OwnBubbles(list, k) && AwaitingEcho(list[i].delivery)
  }

  lemma CoveredBounds(s: State, k: Key)
    requires InvCovered(s, k)
    ensures |OwnBubbles(s.list, k)| <= |Started(s.log, k)|
  {
    WaitsAreWaiting(s.list, k, Waits(s.list, k));
    ShownBounds(s, k);
    SplitCounts(s.list, s.log, k);
  }

  lemma ShownBounds(s: State, k: Key)
    requires Inv(s)
    ensures |OwnBubbles(s.list, k) - Waits(s.list, k)| <= |Started(s.log, k) - Open(Board(s.list), s.log, k)|
  {
    var shown := OwnBubbles(s.list, k) - Waits(s.list, k);
    forall i | i in shown ensures exists x: nat :: ShownAs(s.list, s.log, i, x) { ConfirmedIsShown(s, i); }
    BoardKeys(s);
    ShownAreClosed(s.list, s.log, k, shown);
  }

  lemma SplitCounts(list: seq<Bubble>, log: seq<Msg>, k: Key)
    requires UniqueIds(list)
    ensures |OwnBubbles(list, k)| == |Waits(list, k)| + |OwnBubbles(list, k) - Waits(list, k)|
    ensures |Started(log, k)| == |Open(Board(list), log, k)| + |Started(log, k) - Open(Board(list), log, k)|
  {
    assert OwnBubbles(list, k) == Waits(list, k) + (OwnBubbles(list, k) - Waits(list, k));
    var open := Open(Board(list), log, k);
    assert Started(log, k) == open + (Started(log, k) - open);
  }

  predicate ShownAs(list: seq<Bubble>, log: seq<Msg>, i: nat, x: nat) {
    i < |list| && x < |log| && log[x].netId == Some(list[i].id)
  }

  lemma ConfirmedIsShown(s: State, i: nat)
    requires Inv(s) && i < |s.list| && !AwaitingEcho(s.list[i].delivery)
    ensures exists x: nat :: ShownAs(s.list, s.log, i, x)
  {
    assert s.list[i] in s.list;
    var x := OwnerOf(s, s.list[i].id);
    assert ShownAs(s.list, s.log, i, x);
  }

  lemma BoardKeys(s: State)
    requires Inv(s)
    ensures forall x :: 0 <= x < |s.log| && s.log[x].netId.Some? && s.log[x].netId.value in Board(s.list) ==>
      var b := Board(s.list)[s.log[x].netId.value]; b.fromMe == s.log[x].fromMe && KeyOf(b.body) == KeyOf(s.log[x].body)
  {
  }

  lemma WaitsAreWaiting(list: seq<Bubble>, k: Key, waits: set<nat>)
    requires UniqueIds(list)
    requires forall i :: i in waits ==> i in OwnBubbles(list, k) && AwaitingEcho(list[i].delivery)
    ensures |waits| <= |Waiting(Board(list), k)|
  {
    var toId := (i: nat, id: Id) => i < |list| && list[i].id == id;
    forall i | i in waits ensures exists id :: id in Waiting(Board(list), k) && toId(i, id) {
      assert list[i] in list && toId(i, list[i].id);
    }
    InjectionCount(waits, Waiting(Board(list), k), toId);
  }

  lemma ShownAreClosed(list: seq<Bubble>, log: seq<Msg>, k: Key, shown: set<nat>)
    requires UniqueIds(list)
    requires forall i :: i in shown ==>
      i in OwnBubbles(list, k) && !AwaitingEcho(list[i].delivery) && exists x: nat :: ShownAs(list, log, i, x)
    requires forall x :: 0 <= x < |log| && log[x].netId.Some? && log[x].netId.value in Board(list) ==>
      var b := Board(list)[log[x].netId.value]; b.fromMe == log[x].fromMe && KeyOf(b.body) == KeyOf(log[x].body)
    ensures |shown| <= |Started(log, k) - Open(Board(list), log, k)|
  {
    var closed := Started(log, k) - Open(Board(list), log, k);
    var to := (i: nat, x: nat) => ShownAs(list, log, i, x);
    forall i | i in shown ensures exists x :: x in closed && to(i, x) {
      var x: nat :| ShownAs(list, log, i, x);
      ShownIsClosed(list, log, k, i, x);
      assert to(i, x);
    }
    forall i: nat, j: nat, x: nat | i in shown && j in shown && to(i, x) && to(j, x) ensures i == j {
      assert list[i].id == list[j].id;
    }
    InjectionCount(shown, closed, to);
  }

  lemma ShownIsClosed(list: seq<Bubble>, log: seq<Msg>, k: Key, i: nat, x: nat)
    requires UniqueIds(list) && ShownAs(list, log, i, x) && i in OwnBubbles(list, k) && !AwaitingEcho(list[i].delivery)
    requires log[x].netId.Some? && log[x].netId.value in Board(list) ==>
      var b := Board(list)[log[x].netId.value]; b.fromMe == log[x].fromMe && KeyOf(b.body) == KeyOf(log[x].body)
    ensures x in Started(log, k) - Open(Board(list), log, k)
  {
    assert list[i] in list;
  }
}
