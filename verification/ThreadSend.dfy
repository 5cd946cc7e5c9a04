/** The thread's mutable state and the code that runs between its awaits. Every method is one event of the
    thread protocol, so what holds over the protocol's runs holds of this object. */
module ThreadSend {
  import opened Wrappers
  import opened Text
  import opened DeliveryState
  import opened DeliveryMeaning
  import opened PublishState
  import opened ThreadProtocol
  import opened ThreadInvariant

  /** The local ids in use are the first `n`. */
  ghost predicate Numbered(log: seq<Msg>, n: nat) {
    forall x :: 0 <= x < |log| && log[x].origin.Composer? ==> exists i: nat :: i <= n && log[x].origin.localId == LocalId(i)
  }

  /** Whose delivery the code after an awaited send settles: a composer send's, or a second send's of a message
      the thread shows under its network id, stored by the SDK or not yet. */
  datatype Attempt = First(x: nat) | Second(x: nat) | SecondUnstored(r: nat)

  /** The attempt runs, its bubble is listed under `shownId` if at all, and `prepared` is the id it is stored with. */
  ghost predicate IsAttempt(s: State, a: Attempt, shownId: Id, prepared: Option<Id>) {
    match a
    case First(x) =>
      && x < |s.log| && s.log[x].origin.Composer? && s.log[x].origin.localId == shownId && s.log[x].netId == prepared
      && if prepared.Some? then IsComposer(s, x, Publishing) else IsComposer(s, x, Uploading) || IsComposer(s, x, Sending)
    case Second(x) => IsAgain(s, x, Publishing) && s.log[x].origin.oldId == shownId && s.log[x].netId == prepared
    case SecondUnstored(r) => r < |s.resends| && s.resends[r].oldId == shownId && prepared.None?
  }

  ghost function Settles(a: Attempt, sent: TrackedSend): Event {
    match a
    case First(x) =>
      (match sent
       case Tracked(_, d) => Ack(x, d)
       case Threw(id) => if id.Some? then PublishFailed(x) else AttemptFailed(x))
    case Second(x) =>
      (match sent
       case Tracked(_, d) => ResendAck(x, d)
       case Threw(_) => ResendPublishFailed(x))
    case SecondUnstored(r) => ResendFailed(r)
  }

  /** What the awaited send shows in the end: its bubble, unless a card, as sent when the publish resolved, as
      unpublished when it timed out or could not be confirmed, as failed otherwise; under the stored id if there
      is one, and dropped when that is listed already. */
  ghost predicate SettledAs(before: seq<Bubble>, after: seq<Bubble>, shownId: Id, prepared: Option<Id>, first: Callback) {
    var id := if prepared.Some? then prepared.value else shownId;
    var d := if prepared.None? then Failed
             else match first
               case TimedOut => Unpublished
               case Resolved => Sent
               case RejectedWith(message) =>
                 if message.Some? && NamesSyncTimeout(message.value) then Unpublished else Failed;
    if prepared.Some? && Names(before, id) then forall b :: b in after <==> b in before && b.id != shownId
    else
      && |after| == |before|
      && forall i :: 0 <= i < |before| ==>
           after[i] == if before[i].id == shownId && !before[i].body.Card?
                       then before[i].(id := id, delivery := Some(d)) else before[i]
  }

  class Thread {
    var messages: seq<Bubble>
    var storedIds: set<Id>
    var localSeq: nat
    ghost var model: State

    ghost predicate Valid()
      reads this
    {
      Inv(model) && ResendsOk(model) && messages == model.list && storedIds == model.storedIds && Numbered(model.log, localSeq)
    }

    constructor ()
      ensures Valid() && model == EMPTY_THREAD
    {
      messages, storedIds, localSeq, model := [], {}, 0, EMPTY_THREAD;
      new;
      InvInit();
    }

    /** The thread has moved on by one event: the list already has, the model follows. What happens at the SDK
        or in the network alone, a preparation or news of a message, leaves the list as it is. */
    ghost method Follow(e: Event)
      requires Inv(model) && ResendsOk(model) && Enabled(model, e)
      requires messages == Apply(model, e).list && storedIds == Apply(model, e).storedIds
      requires Numbered(Apply(model, e).log, localSeq)
      modifies this`model
      ensures Valid() && model == Apply(old(model), e)
    {
      InvStep(model, e);
      model := Apply(model, e);
    }

    /** The next local id is one no message of this thread has. */
    method NextLocalId() returns (id: Id)
      requires Valid()
      modifies this`localSeq
      ensures localSeq == old(localSeq) + 1 && id == LocalId(localSeq) && Valid()
      ensures FreshLocalId(model, id)
    {
      localSeq := localSeq + 1;
      id := LocalId(localSeq);
      LocalIdsDistinct(localSeq, localSeq);
      forall x, n: nat | 0 <= x < |model.log| && model.log[x].origin.Composer? && n <= old(localSeq)
                         && model.log[x].origin.localId == LocalId(n)
        ensures model.log[x].origin.localId != id
      {
        LocalIdsDistinct(n, localSeq);
      }
    }

    /** Blank text sends nothing; otherwise a pending bubble appears at once. */
    method Send(text: string, replyTo: Option<Id>, nowMs: int)
      requires Valid()
      modifies this
      ensures Valid()
      ensures if Trim(text) == "" then model == old(model)
              else Enabled(old(model), SendText(LocalId(localSeq), Trim(text), replyTo, nowMs * 1_000_000))
                   && model == Apply(old(model), SendText(LocalId(localSeq), Trim(text), replyTo, nowMs * 1_000_000))
      ensures messages == (if Blank(text) then [] else
                             [Bubble(LocalId(localSeq), nowMs * 1_000_000, true, Text(Trim(text), replyTo), Some(Pending))])
                          + old(messages)
    {
      var trimmed := Trim(text);
      BlankTrimsToNothing(text);
      if trimmed == "" { return; }
      var id := NextLocalId();
      ghost var e := SendText(id, trimmed, replyTo, nowMs * 1_000_000);
      messages := [Bubble(id, nowMs * 1_000_000, true, Text(trimmed, replyTo), Some(Pending))] + messages;
      Follow(e);
    }

    method SendAttachment(file: string, nowMs: int)
      requires Valid()
      modifies this
      ensures Valid()
      ensures Enabled(old(model), SendFile(LocalId(localSeq), file, nowMs * 1_000_000))
      ensures model == Apply(old(model), SendFile(LocalId(localSeq), file, nowMs * 1_000_000))
      ensures messages == [Bubble(LocalId(localSeq), nowMs * 1_000_000, true, Attachment(Some(file), None), Some(Pending))]
                          + old(messages)
    {
      var id := NextLocalId();
      ghost var e := SendFile(id, file, nowMs * 1_000_000);
      messages := [Bubble(id, nowMs * 1_000_000, true, Attachment(Some(file), None), Some(Pending))] + messages;
      Follow(e);
    }

    method UploadFinished(ghost x: nat, localId: Id, digest: string)
      requires Valid() && Enabled(model, UploadOk(x, digest)) && model.log[x].origin.localId == localId
      modifies this
      ensures Valid() && model == Apply(old(model), UploadOk(x, digest))
      ensures UploadedTo(old(messages), messages, localId, digest)
    {
      UploadLands(messages, localId, digest);
      messages := AttachUploaded(messages, localId, digest);
      Follow(UploadOk(x, digest));
    }

    /** A file too large, or attachments not configured: the bubble goes, and the caller gets the error. */
    method UploadRefused(ghost x: nat, localId: Id) returns (rethrows: bool)
      requires Valid() && Enabled(model, UploadRejected(x)) && model.log[x].origin.localId == localId
      modifies this
      ensures Valid() && model == Apply(old(model), UploadRejected(x)) && rethrows
      ensures forall b :: b in messages <==> b in old(messages) && b.id != localId
    {
      DiscardContents(messages, localId);
      rethrows := true;
      messages := DiscardMessage(messages, localId);
      Follow(UploadRejected(x));
    }

    /** The awaited send is acked under the id the SDK stored it with. */
    method SendAcked(ghost a: Attempt, shownId: Id, id: Id, d: Delivery)
      requires Valid() && IsAttempt(model, a, shownId, Some(id)) && (d == Sent || d == Unpublished)
      modifies this
      ensures Valid() && model == Apply(old(model), Settles(a, Tracked(id, d)))
    {
      messages := ReconcileSent(messages, shownId, id, d);
      SettledNumbers(model, a, shownId, Tracked(id, d), localSeq);
      Follow(Settles(a, Tracked(id, d)));
    }

    /** The catch block, with whatever id the error carries. */
    method SendThrew(ghost a: Attempt, shownId: Id, messageId: Option<Id>)
      requires Valid() && IsAttempt(model, a, shownId, messageId)
      modifies this
      ensures Valid() && model == Apply(old(model), Settles(a, Threw(messageId)))
    {
      if messageId.Some? {
        storedIds := storedIds + {messageId.value};
        messages := SetDelivery(messages, shownId, Failed, messageId.value);
      } else {
        messages := SetDelivery(messages, shownId, Failed);
      }
      SettledNumbers(model, a, shownId, Threw(messageId), localSeq);
      Follow(Settles(a, Threw(messageId)));
    }

    /** What follows the awaited send. */
    method SettleSend(ghost a: Attempt, shownId: Id, prepared: Option<Id>, first: Callback)
      requires Valid() && IsAttempt(model, a, shownId, prepared)
      modifies this
      ensures Valid() && model == Apply(old(model), Settles(a, SendPrepared(prepared, first)))
      ensures SettledAs(old(messages), messages, shownId, prepared, first)
    {
      SettledList(model, a, shownId, prepared, first);
      var sent := SendPrepared(prepared, first);
      match sent {
        case Tracked(id, d) => SendAcked(a, shownId, id, d);
        case Threw(messageId) => SendThrew(a, shownId, messageId);
      }
    }

    /** What retry does with a bubble. What the SDK stored under the bubble's own id is published again when
        it can be; otherwise a failed text, or a failed attachment with something to send, is sent again. */
    method ChooseRetry(target: Bubble, canRepublish: bool) returns (action: RetryAction)
      ensures action == Republish <==>
        && canRepublish && TracksDelivery(target) && !IsLocalId(target.id)
        && (target.delivery == Some(Unpublished) || (target.delivery == Some(Failed) && target.id in storedIds))
      ensures action == Resend <==>
        && target.delivery == Some(Failed) && HasContent(target.body)
        && !(canRepublish && !IsLocalId(target.id) && target.id in storedIds)
      ensures action == RetryChoice(target, storedIds, canRepublish)
    {
      if target.body.Card? { return Ignore; }
      var held := !IsLocalId(target.id)
                  && (target.delivery == Some(Unpublished)
                      || (target.delivery == Some(Failed) && target.id in storedIds));
      if held && canRepublish { return Republish; }
      if target.delivery != Some(Failed) { return Ignore; }
      return if HasContent(target.body) then Resend else Ignore;
    }

    /** A retried bubble is pending again; one published again is known to be stored. */
    method ApplyRetry(id: Id, action: RetryAction)
      modifies `messages, `storedIds
      ensures messages == if action == Ignore then old(messages) else SetDelivery(old(messages), id, Pending)
      ensures storedIds == if action == Republish then old(storedIds) + {id} else old(storedIds)
    {
      if action == Republish { storedIds := storedIds + {id}; }
      if action != Ignore { messages := SetDelivery(messages, id, Pending); }
    }

    /** A tap on retry of a listed bubble, with or without a conversation that can republish. */
    method RetryMessage(target: Bubble, canRepublish: bool) returns (action: RetryAction)
      requires Valid() && target in messages
      modifies this
      ensures Valid() && model == Apply(old(model), TapRetry(target, canRepublish))
      ensures action == RetryChoice(target, old(storedIds), canRepublish)
    {
      action := ChooseRetry(target, canRepublish);
      ApplyRetry(target.id, action);
      TapEffect(model, target, canRepublish, localSeq);
      Follow(TapRetry(target, canRepublish));
    }

    method RepublishSettled(id: Id, c: Callback)
      requires Valid() && id in storedIds && !c.TimedOut?
      modifies this
      ensures Valid() && model == Apply(old(model), RetrySettled(id, RepublishStored(c)))
      ensures SettledTo(old(messages), messages, id, if c == Resolved then Sent
        else if c.message.Some? && NamesSyncTimeout(c.message.value) then Unpublished else Failed)
    {
      OutcomeLands(messages, id, RepublishStored(c));
      RepublishMeaning(if c.RejectedWith? then c.message else None);
      messages := SettleRetry(messages, id, RepublishStored(c));
      Follow(RetrySettled(id, RepublishStored(c)));
    }

    method DiscardFailed(id: Id)
      requires Valid()
      modifies this
      ensures Valid() && model == Apply(old(model), Discard(id))
      ensures forall b :: b in messages <==> b in old(messages) && b.id != id
    {
      DiscardContents(messages, id);
      messages := DiscardMessage(messages, id);
      Follow(Discard(id));
    }

    method OnStreamed(ghost x: nat, m: Bubble)
      requires Valid() && Enabled(model, Echo(x)) && m == Copy(model.log[x])
      modifies this
      ensures Valid() && model == Apply(old(model), Echo(x)) && messages == MergeStreamed(old(messages), m)
    {
      messages := MergeStreamedCopy(messages, m);
      EchoEffect(model, x);
      Follow(Echo(x));
    }

    method OnReceipt(upToNs: int)
      requires Valid()
      modifies this
      ensures Valid() && model == Apply(old(model), Receipt(upToNs))
      ensures ReadTo(old(messages), messages, upToNs)
    {
      ReceiptMarks(messages, upToNs);
      var changed;
      messages, changed := MarkReadUpToPass(messages, upToNs);
      Follow(Receipt(upToNs));
    }

    /** The thread's effect starts over: an empty list, until history is loaded. */
    method OnMount()
      requires Valid()
      modifies this
      ensures Valid() && model == Apply(old(model), Mount) && messages == []
    {
      messages := [];
      Follow(Mount);
    }

    /** Bind to the conversation: its history, newest first and marked read up to the newest receipt,
        replaces the list; on a re-bind the unconfirmed bubbles it does not hold are kept. */
    method AttachDm(ghost rows: seq<Row>, history: seq<Bubble>, upToNs: int, resume: bool)
      requires Valid() && RowsOk(model, rows)
      requires |history| == |rows| && forall i :: 0 <= i < |rows| ==> history[i] == RowBubble(model.log, rows[i])
      modifies this
      ensures Valid() && model == Apply(old(model), if resume then Resume(rows, upToNs) else Load(rows, upToNs))
    {
      var mapped := SortNewest(history);
      var shown := mapped;
      if upToNs > 0 {
        var changed;
        shown, changed := MarkReadUpToPass(mapped, upToNs);
      }
      HistoryIsFresh(model.log, rows, history, upToNs);
      AttachEffect(model, rows, upToNs);
      if resume {
        messages := SortNewest(Kept(messages, shown) + shown);
        Follow(Resume(rows, upToNs));
      } else {
        messages := shown;
        Follow(Load(rows, upToNs));
      }
    }
  }

  /** The parts of a tap's effect the object holds. */
  lemma TapEffect(s: State, b: Bubble, canRepublish: bool, n: nat)
    requires b in s.list && Numbered(s.log, n)
    ensures var s', action := Apply(s, TapRetry(b, canRepublish)), RetryChoice(b, s.storedIds, canRepublish);
      && s'.list == (if action == Ignore then s.list else SetDelivery(s.list, b.id, Pending))
      && s'.storedIds == (if action == Republish then s.storedIds + {b.id} else s.storedIds)
      && Numbered(s'.log, n)
  {
    var s' := Apply(s, TapRetry(b, canRepublish));
    assert |s'.log| == |s.log|;
    forall x | 0 <= x < |s.log| && s'.log[x].origin.Composer?
      ensures s.log[x].origin.Composer? && s'.log[x].origin.localId == s.log[x].origin.localId {}
  }

  /** A settlement the attempt allows can happen, and numbers no message anew. */
  lemma SettledNumbers(s: State, a: Attempt, shownId: Id, sent: TrackedSend, n: nat)
    requires Inv(s) && Numbered(s.log, n)
    requires match sent
             case Tracked(id, d) => IsAttempt(s, a, shownId, Some(id)) && (d == Sent || d == Unpublished)
             case Threw(id) => IsAttempt(s, a, shownId, id)
    ensures Enabled(s, Settles(a, sent)) && Numbered(Apply(s, Settles(a, sent)).log, n)
  {
    var log' := Apply(s, Settles(a, sent)).log;
    assert |log'| == |s.log|;
    forall x | 0 <= x < |s.log| && log'[x].origin.Composer?
      ensures s.log[x].origin.Composer? && log'[x].origin.localId == s.log[x].origin.localId {}
  }

  /** The catch block cannot tell whose id an error carries. One that names another message, the context card
      posted ahead of a text, puts the text's bubble under that message's id, or drops it when that is listed
      already; where the thread can republish, no retry of the bubble sends the text any more. */
  lemma ForeignIdKeepsTextUnsent(list: seq<Bubble>, b: Bubble, storedIds: set<Id>, foreign: Id, d: Delivery)
    requires UniqueIds(list) && b in list && b.body.Text? && foreign != b.id && !IsLocalId(foreign) && foreign != ""
    ensures var list', c := SetDelivery(list, b.id, Failed, foreign), b.(id := foreign, delivery := Some(Failed));
      && !Listed(list', b.id)
      && (c in list' <==> !Listed(list, foreign) || c in list)
      && RetryChoice(c, storedIds + {foreign}, true) == Republish
      && RetryChoice(c.(delivery := Some(d)), storedIds + {foreign}, true) != Resend
  {
    SetDeliveryBoard(list, b.id, Failed, foreign);
    ListedOnBoard(list, foreign);
    ListedOnBoard(SetDelivery(list, b.id, Failed, foreign), b.id);
    assert Board(list)[b.id] == b;
  }

  lemma SettledList(s: State, a: Attempt, shownId: Id, prepared: Option<Id>, first: Callback)
    requires Inv(s) && IsAttempt(s, a, shownId, prepared)
    ensures Enabled(s, Settles(a, SendPrepared(prepared, first)))
    ensures SettledAs(s.list, Apply(s, Settles(a, SendPrepared(prepared, first))).list, shownId, prepared, first)
  {
    PublishMeaning(if prepared.Some? then prepared.value else "", if first.RejectedWith? then first.message else None);
    var sent := SendPrepared(prepared, first);
    if sent.Tracked? { AckLands(s.list, shownId, sent.id, sent.delivery); }
    if prepared.Some? {
      StoredIdIsNew(s, a, shownId, prepared.value);
      DeliveryLands(s.list, shownId, Failed, prepared.value);
    } else {
      DeliveryLands(s.list, shownId, Failed, "");
    }
  }

  lemma StoredIdIsNew(s: State, a: Attempt, shownId: Id, id: Id)
    requires Inv(s) && IsAttempt(s, a, shownId, Some(id))
    ensures id != shownId && id != ""
  {
    if !a.SecondUnstored? { assert MsgOk(s.log[a.x]); }
  }

  lemma EchoEffect(s: State, x: nat)
    requires Enabled(s, Echo(x))
    ensures var s' := Apply(s, Echo(x));
      s'.list == MergeStreamed(s.list, Copy(s.log[x])) && s'.log == s.log && s'.storedIds == s.storedIds
  {
  }

  lemma HistoryIsFresh(log: seq<Msg>, rows: seq<Row>, history: seq<Bubble>, upToNs: int)
    requires RowsResolve(log, rows)
    requires |history| == |rows| && forall i :: 0 <= i < |rows| ==> history[i] == RowBubble(log, rows[i])
    ensures Fresh(log, rows, upToNs)
         == if upToNs > 0 then MarkReadUpTo(SortNewest(history), upToNs) else SortNewest(history)
  {
    assert history == seq(|rows|, i requires 0 <= i < |rows| => RowBubble(log, rows[i]));
  }

  lemma AttachEffect(s: State, rows: seq<Row>, upToNs: int)
    requires RowsOk(s, rows)
    ensures var history := Fresh(s.log, rows, upToNs);
            var l, r := Apply(s, Load(rows, upToNs)), Apply(s, Resume(rows, upToNs));
      && l.list == history && r.list == SortNewest(Kept(s.list, history) + history)
      && l.log == r.log == s.log && l.storedIds == r.storedIds == s.storedIds
  {
  }
}
