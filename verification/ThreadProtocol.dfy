/** One thread as a protocol: composer sends, their uploads, preparations, acks and failures, stream echoes, read
    receipts, retries, second sends of what the SDK stored already, discards, mounts and history loads,
    interleaved in any order. */
module ThreadProtocol {
  import opened Wrappers
  import opened DeliveryState

  /** Where a composer send stands: its upload or its preparation is running, its attempt failed with
      nothing stored, its publish is racing the timeout, it was acked or failed under its stored id, or
      its file was refused. */
  datatype Phase = Uploading | Sending | FailedNoId | Publishing | Stored | Rejected

  /** `Again`: a second send of a stored message, prepared anew while shown under the old one's id. */
  datatype Origin =
    | Composer(localId: Id, phase: Phase, uploads: nat, prepares: nat)
    | Elsewhere
    | Again(oldId: Id, phase: Phase)

  /** A message of the conversation: one of my composer sends here, one this composer did not make (the
      counterparty's, another device's, an earlier session's, a card), or a second send. `sentNs` and `netId` are
      the network's, known once the SDK has stored the message. */
  datatype Msg = Msg(origin: Origin, body: Body, fromMe: bool, sentNs: int, netId: Option<Id>)

  /** A second send under way, nothing stored yet: the id it is shown under, and what it sends. */
  datatype Reattempt = Reattempt(oldId: Id, body: Body)

  /** The list shown; the conversation's messages; the ids known to be stored by the SDK; the messages the
      network has ever delivered, by a stream echo or as published rows of a loaded history, and those of them
      this list shows as confirmed; those a loaded history marked as given up; the second sends that have stored
      nothing yet; and whether any receipt has been applied. */
  datatype State = State(list: seq<Bubble>, log: seq<Msg>, storedIds: set<Id>, delivered: set<nat>, confirmed: set<nat>,
                         givenUp: set<nat>, resends: seq<Reattempt>, receipts: bool)

  /** The SDK's mark on a history row of mine: none once published. */
  datatype Mark = NoMark | MarkedUnpublished | MarkedFailed

  /** A history row: which message, and how the SDK marks it. */
  datatype Row = Row(x: nat, mark: Mark)

  datatype Event =
    | SendText(localId: Id, text: string, replyTo: Option<Id>, nowNs: int)
    | SendFile(localId: Id, file: string, nowNs: int)
    | UploadOk(x: nat, digest: string)
    | UploadRejected(x: nat)
    | AttemptFailed(x: nat)
    | PrepareOk(x: nat, netId: Id, sentNs: int)
    | Ack(x: nat, delivery: Delivery)
    | PublishFailed(x: nat)
    | Learn(msg: Msg)
    | Echo(x: nat)
    | Receipt(upToNs: int)
    | TapRetry(bubble: Bubble, canRepublish: bool)
    | ResendFailed(r: nat)
    | ResendPrepared(r: nat, netId: Id, sentNs: int)
    | ResendAck(x: nat, delivery: Delivery)
    | ResendPublishFailed(x: nat)
    | RetrySettled(id: Id, delivery: Delivery)
    | Discard(id: Id)
    | Mount
    | Load(rows: seq<Row>, upToNs: int)
    | Resume(rows: seq<Row>, upToNs: int)

  /** The events of a send or a second send under way, and news of a message from elsewhere. */
  predicate IsSendEvent(e: Event) {
    !(e.Echo? || e.Receipt? || e.TapRetry? || e.RetrySettled? || e.Discard? || e.Mount? || e.Load? || e.Resume?)
  }

  const EMPTY_THREAD := State([], [], {}, {}, {}, {}, [], false)

  // ----- what the source does at each event -----

  function WireBody(body: Body): Body {
    if body.Attachment? then body.(localFile := None) else body
  }

  /** The authoritative copy the network delivers: the network's id and time, no delivery state. */
  function Copy(msg: Msg): Bubble
    requires msg.netId.Some?
  {
    Bubble(msg.netId.value, msg.sentNs, msg.fromMe, WireBody(msg.body), None)
  }

  datatype RetryAction = Ignore | Republish | Resend

  /** What tapping retry on a listed bubble does. `canRepublish`: a conversation is attached and its SDK
      offers to publish what it has stored. */
  function RetryChoice(b: Bubble, storedIds: set<Id>, canRepublish: bool): RetryAction {
    if b.body.Card? then Ignore
    else
      var held := !IsLocalId(b.id)
                  && (b.delivery == Some(Unpublished) || (b.delivery == Some(Failed) && b.id in storedIds));
      if held && canRepublish then Republish
      else if b.delivery != Some(Failed) then Ignore
      else if HasContent(b.body) then Resend
      else Ignore
  }

  /** Text, or an attachment with a file to upload or an upload to send. */
  predicate HasContent(body: Body) {
    body.Text? || (body.Attachment? && (body.localFile.Some? || body.digest.Some?))
  }

  function InPhase(msg: Msg, phase: Phase): Msg
    requires msg.origin.Composer?
  {
    var o := msg.origin;
    msg.(origin := Composer(o.localId, phase, o.uploads, o.prepares))
  }

  function AgainStored(msg: Msg): Msg
    requires msg.origin.Again?
  {
    msg.(origin := Again(msg.origin.oldId, Stored))
  }

  /** Sending a local bubble again restarts the attempt of the message whose local id the bubble carries. */
  function Restarted(msg: Msg, b: Bubble): Msg {
    if msg.origin.Composer? && msg.origin.localId == b.id
    then InPhase(msg, if b.body.Attachment? && b.body.digest.None? then Uploading else Sending)
    else msg
  }

  function RowBubble(log: seq<Msg>, row: Row): Bubble
    requires row.x < |log| && log[row.x].netId.Some?
  {
    match row.mark
    case NoMark => Copy(log[row.x])
    case MarkedUnpublished => Copy(log[row.x]).(delivery := Some(Unpublished))
    case MarkedFailed => Copy(log[row.x]).(delivery := Some(Failed))
  }

  /** The messages a history shows as published. */
  function Published(rows: seq<Row>): (r: set<nat>)
    ensures forall x :: x in r <==> exists i :: 0 <= i < |rows| && rows[i].x == x && rows[i].mark.NoMark?
  {
    set i | 0 <= i < |rows| && rows[i].mark.NoMark? :: rows[i].x
  }

  /** The messages a history marks as given up. */
  function GivenUp(rows: seq<Row>): (r: set<nat>)
    ensures forall x :: x in r <==> exists i :: 0 <= i < |rows| && rows[i].x == x && rows[i].mark.MarkedFailed?
  {
    set i | 0 <= i < |rows| && rows[i].mark.MarkedFailed? :: rows[i].x
  }

  predicate RowsResolve(log: seq<Msg>, rows: seq<Row>) {
    forall i :: 0 <= i < |rows| ==> rows[i].x < |log| && log[rows[i].x].netId.Some?
  }

  /** History as bubbles, newest first, with the counterparty's newest receipt applied. */
  function Fresh(log: seq<Msg>, rows: seq<Row>, upToNs: int): seq<Bubble>
    requires RowsResolve(log, rows)
  {
    var mapped := SortNewest(seq(|rows|, i requires 0 <= i < |rows| => RowBubble(log, rows[i])));
    if upToNs > 0 then MarkReadUpTo(mapped, upToNs) else mapped
  }

  /** The bubbles a re-bind keeps: unconfirmed, and not already in the history. */
  function Kept(list: seq<Bubble>, history: seq<Bubble>): seq<Bubble> {
    if list == [] then []
    else (if !Listed(history, list[0].id) && IsOptimistic(list[0]) then [list[0]] else []) + Kept(list[1..], history)
  }

  predicate IsComposer(s: State, x: nat, phase: Phase) {
    x < |s.log| && s.log[x].origin.Composer? && s.log[x].origin.phase == phase
  }

  predicate IsAgain(s: State, x: nat, phase: Phase) {
    x < |s.log| && s.log[x].origin.Again? && s.log[x].origin.phase == phase && s.log[x].netId.Some?
  }

  function WithoutResend(resends: seq<Reattempt>, r: nat): seq<Reattempt>
    requires r < |resends|
  {
    resends[..r] + resends[r + 1..]
  }

  /** The confirmed messages but for the one known by `id`: a second send that settles puts its own outcome on
      the bubble it is shown under, also when the network has delivered the old message after all. */
  function ConfirmedBut(s: State, id: Id): set<nat> {
    set x | x in s.confirmed && !(x < |s.log| && s.log[x].netId == Some(id))
  }

  predicate FreshNetId(s: State, id: Id) {
    && !IsLocalId(id) && id != ""
    && forall x :: 0 <= x < |s.log| ==> s.log[x].netId != Some(id)
  }

  predicate FreshLocalId(s: State, id: Id) {
    && IsLocalId(id)
    && forall x :: 0 <= x < |s.log| ==> s.log[x].origin.Composer? ==> s.log[x].origin.localId != id
  }

  /** History names each message once, and marks only my own text and attachments unpublished or failed. */
  predicate RowsOk(s: State, rows: seq<Row>) {
    && RowsResolve(s.log, rows)
    && (forall i, j :: 0 <= i < j < |rows| ==> rows[i].x != rows[j].x)
    && (forall i :: 0 <= i < |rows| ==> !rows[i].mark.NoMark? ==>
          s.log[rows[i].x].fromMe && !s.log[rows[i].x].body.Card?)
  }

  /** Which events can happen: what the SDK and the network promise, nothing more. */
  predicate Enabled(s: State, e: Event) {
    match e
    case SendText(localId, _, _, _) => FreshLocalId(s, localId)
    case SendFile(localId, _, _) => FreshLocalId(s, localId)
    case UploadOk(x, _) => IsComposer(s, x, Uploading)
    case UploadRejected(x) => IsComposer(s, x, Uploading)
    case AttemptFailed(x) => IsComposer(s, x, Uploading) || IsComposer(s, x, Sending)
    case PrepareOk(x, netId, _) => IsComposer(s, x, Sending) && FreshNetId(s, netId)
    case Ack(x, d) => IsComposer(s, x, Publishing) && s.log[x].netId.Some? && (d == Sent || d == Unpublished)
    case PublishFailed(x) => IsComposer(s, x, Publishing) && s.log[x].netId.Some?
    case Learn(msg) =>
      && msg.origin.Elsewhere? && msg.netId.Some? && FreshNetId(s, msg.netId.value)
      && (msg.body.Attachment? ==> msg.body.localFile.None? && msg.body.digest.Some?)
    case Echo(x) => x < |s.log| && s.log[x].netId.Some?
    case Receipt(_) => true
    case TapRetry(b, _) => b in s.list
    case ResendFailed(r) => r < |s.resends|
    case ResendPrepared(r, netId, _) => r < |s.resends| && FreshNetId(s, netId)
    case ResendAck(x, d) => IsAgain(s, x, Publishing) && (d == Sent || d == Unpublished)
    case ResendPublishFailed(x) => IsAgain(s, x, Publishing)
    case RetrySettled(id, d) => id in s.storedIds && (d == Sent || d == Unpublished || d == Failed)
    case Discard(_) => true
    case Mount => true
    case Load(rows, _) => RowsOk(s, rows)
    case Resume(rows, _) => RowsOk(s, rows)
  }

  function Apply(s: State, e: Event): State
    requires Enabled(s, e)
  {
    match e
    case SendText(localId, text, replyTo, nowNs) =>
      var body := Text(text, replyTo);
      s.(list := [Bubble(localId, nowNs, true, body, Some(Pending))] + s.list,
         log := s.log + [Msg(Composer(localId, Sending, 0, 0), body, true, nowNs, None)])
    case SendFile(localId, file, nowNs) =>
      var body := Attachment(Some(file), None);
      s.(list := [Bubble(localId, nowNs, true, body, Some(Pending))] + s.list,
         log := s.log + [Msg(Composer(localId, Uploading, 0, 0), body, true, nowNs, None)])
    case UploadOk(x, digest) =>
      var o := s.log[x].origin;
      var body := if s.log[x].body.Attachment? then s.log[x].body.(digest := Some(digest)) else s.log[x].body;
      s.(list := AttachUploaded(s.list, o.localId, digest),
         log := s.log[x := s.log[x].(origin := o.(phase := Sending, uploads := o.uploads + 1), body := body)])
    case UploadRejected(x) =>
      s.(list := DiscardMessage(s.list, s.log[x].origin.localId), log := s.log[x := InPhase(s.log[x], Rejected)])
    case AttemptFailed(x) =>
      s.(list := SetDelivery(s.list, s.log[x].origin.localId, Failed), log := s.log[x := InPhase(s.log[x], FailedNoId)])
    case PrepareOk(x, netId, sentNs) =>
      var o := s.log[x].origin;
      s.(log := s.log[x := s.log[x].(origin := o.(phase := Publishing, prepares := o.prepares + 1),
                                      netId := Some(netId), sentNs := sentNs)])
    case Ack(x, d) =>
      s.(list := ReconcileSent(s.list, s.log[x].origin.localId, s.log[x].netId.value, d),
         log := s.log[x := InPhase(s.log[x], Stored)])
    case PublishFailed(x) =>
      s.(list := SetDelivery(s.list, s.log[x].origin.localId, Failed, s.log[x].netId.value),
         log := s.log[x := InPhase(s.log[x], Stored)], storedIds := s.storedIds + {s.log[x].netId.value})
    case Learn(msg) => s.(log := s.log + [msg])
    case Echo(x) =>
      s.(list := MergeStreamed(s.list, Copy(s.log[x])), delivered := s.delivered + {x}, confirmed := s.confirmed + {x})
    case Receipt(upToNs) => s.(list := MarkReadUpTo(s.list, upToNs), receipts := true)
    case TapRetry(b, canRepublish) =>
      (match RetryChoice(b, s.storedIds, canRepublish)
       case Ignore => s
       case Republish => s.(list := SetDelivery(s.list, b.id, Pending), storedIds := s.storedIds + {b.id})
       case Resend =>
         if IsLocalId(b.id) then
           s.(list := SetDelivery(s.list, b.id, Pending),
              log := seq(|s.log|, i requires 0 <= i < |s.log| => Restarted(s.log[i], b)))
         else s.(list := SetDelivery(s.list, b.id, Pending), resends := s.resends + [Reattempt(b.id, b.body)]))
    case ResendFailed(r) =>
      s.(list := SetDelivery(s.list, s.resends[r].oldId, Failed), resends := WithoutResend(s.resends, r),
         confirmed := ConfirmedBut(s, s.resends[r].oldId))
    case ResendPrepared(r, netId, sentNs) =>
      s.(log := s.log + [Msg(Again(s.resends[r].oldId, Publishing), s.resends[r].body, true, sentNs, Some(netId))],
         resends := WithoutResend(s.resends, r))
    case ResendAck(x, d) =>
      s.(list := ReconcileSent(s.list, s.log[x].origin.oldId, s.log[x].netId.value, d),
         log := s.log[x := AgainStored(s.log[x])], confirmed := ConfirmedBut(s, s.log[x].origin.oldId))
    case ResendPublishFailed(x) =>
      s.(list := SetDelivery(s.list, s.log[x].origin.oldId, Failed, s.log[x].netId.value),
         log := s.log[x := AgainStored(s.log[x])], storedIds := s.storedIds + {s.log[x].netId.value},
         confirmed := ConfirmedBut(s, s.log[x].origin.oldId))
    case RetrySettled(id, d) => s.(list := SettleRetry(s.list, id, d))
    case Discard(id) => s.(list := DiscardMessage(s.list, id), confirmed := ConfirmedBut(s, id))
    case Mount => s.(list := [], confirmed := {})
    case Load(rows, upToNs) =>
      s.(list := Fresh(s.log, rows, upToNs), delivered := s.delivered + Published(rows),
         confirmed := Published(rows), givenUp := s.givenUp + GivenUp(rows), receipts := s.receipts || upToNs > 0)
    case Resume(rows, upToNs) =>
      var history := Fresh(s.log, rows, upToNs);
      s.(list := SortNewest(Kept(s.list, history) + history), delivered := s.delivered + Published(rows),
         confirmed := Published(rows), givenUp := s.givenUp + GivenUp(rows), receipts := s.receipts || upToNs > 0)
  }

  ghost predicate Step(s: State, e: Event, t: State) {
    Enabled(s, e) && t == Apply(s, e)
  }

  // ----- the invariant -----

  /** What a message is recognised by when ids are not linked yet. */
  datatype Key = TextKey(text: string) | DigestKey(digest: string) | NoKey

  function KeyOf(body: Body): Key {
    match body
    case Text(t, _) => TextKey(t)
    case Attachment(_, Some(d)) => DigestKey(d)
    case _ => NoKey
  }

  /** The bookkeeping of one message: what has been uploaded and stored, by phase. */
  ghost predicate MsgOk(m: Msg) {
    && (m.netId.Some? ==> !IsLocalId(m.netId.value) && m.netId.value != "")
    && match m.origin
       case Elsewhere => m.netId.Some? && (m.body.Attachment? ==> m.body.localFile.None? && m.body.digest.Some?)
       case Again(oldId, phase) =>
         && m.netId.Some? && m.netId.value != oldId && !IsLocalId(oldId) && oldId != ""
         && m.fromMe && KeyOf(m.body) != NoKey && (phase == Publishing || phase == Stored)
       case Composer(localId, phase, uploads, prepares) =>
         && IsLocalId(localId) && m.fromMe && !m.body.Card?
         && (m.netId.Some? <==> phase == Publishing || phase == Stored)
         && prepares == (if m.netId.Some? then 1 else 0)
         && match m.body
            case Attachment(file, digest) =>
              && file.Some? && uploads == (if digest.Some? then 1 else 0)
              && (digest.Some? <== phase == Sending || phase == Publishing || phase == Stored)
              && (digest.None? <== phase == Uploading || phase == Rejected)
            case _ => uploads == 0 && phase != Uploading && phase != Rejected
  }

  ghost predicate LogOk(log: seq<Msg>, confirmed: set<nat>) {
    && (forall x :: 0 <= x < |log| ==> MsgOk(log[x]))
    && (forall x, y :: 0 <= x < y < |log| ==>
          && (log[x].netId.Some? ==> log[x].netId != log[y].netId)
          && (log[x].origin.Composer? && log[y].origin.Composer? ==> log[x].origin.localId != log[y].origin.localId))
    && (forall x :: x in confirmed ==> x < |log| && log[x].netId.Some?)
  }

  /** A bubble still under its local id shows exactly its send, pending or failed. */
  ghost predicate LocalOk(msg: Msg, b: Bubble)
    requires msg.origin.Composer?
  {
    && msg.origin.phase != Stored && msg.origin.phase != Rejected
    && b.fromMe && b.body == msg.body
    && b.delivery == Some(if msg.origin.phase == FailedNoId then Failed else Pending)
  }

  /** A bubble under a network id shows that message; a confirmed one is the network's own copy. */
  ghost predicate NetOk(msg: Msg, b: Bubble, confirmed: bool, receipts: bool)
    requires msg.netId.Some?
  {
    && b.fromMe == msg.fromMe && KeyOf(b.body) == KeyOf(msg.body) && (b.body.Card? <==> msg.body.Card?)
    && (b.delivery.Some? ==> msg.fromMe && !b.body.Card?)
    && (confirmed ==> !AwaitingEcho(b.delivery))
    && (!receipts ==> b.delivery != Some(Read) && (b.delivery.None? ==> b == Copy(msg)))
  }

  /** Every listed id belongs to a message. */
  ghost predicate OwnedOk(m: map<Id, Bubble>, log: seq<Msg>) {
    forall id :: id in m ==> exists x :: 0 <= x < |log| && Owns(log[x], id)
  }

  ghost predicate LocalsOk(m: map<Id, Bubble>, log: seq<Msg>) {
    forall x :: 0 <= x < |log| ==> log[x].origin.Composer? && log[x].origin.localId in m ==>
      LocalOk(log[x], m[log[x].origin.localId])
  }

  ghost predicate NetsOk(m: map<Id, Bubble>, log: seq<Msg>, confirmed: set<nat>, receipts: bool) {
    forall x :: 0 <= x < |log| ==> log[x].netId.Some? && log[x].netId.value in m ==>
      NetOk(log[x], m[log[x].netId.value], x in confirmed, receipts)
  }

  ghost predicate ConfirmedOk(m: map<Id, Bubble>, log: seq<Msg>, confirmed: set<nat>) {
    forall x :: x in confirmed ==> x < |log| && log[x].netId.Some? && log[x].netId.value in m
  }

  ghost predicate BoardOk(m: map<Id, Bubble>, s: State) {
    && (forall id :: id in m ==> m[id].id == id)
    && OwnedOk(m, s.log)
    && LocalsOk(m, s.log)
    && NetsOk(m, s.log, s.confirmed, s.receipts)
    && ConfirmedOk(m, s.log, s.confirmed)
  }

  /** A message owns the id it started under and the id the network gave it. */
  predicate Owns(msg: Msg, id: Id) {
    msg.netId == Some(id) || (msg.origin.Composer? && msg.origin.localId == id)
  }

  /** Confirmed copies are listed newest first, whatever the local clock put around them. */
  ghost predicate OrderOk(list: seq<Bubble>) {
    forall i, j :: 0 <= i < j < |list| ==> list[i].delivery.None? && list[j].delivery.None? ==> list[i].sentNs >= list[j].sentNs
  }

  ghost predicate Inv(s: State) {
    && LogOk(s.log, s.confirmed)
    && (forall id :: id in s.storedIds ==> !IsLocalId(id))
    && UniqueIds(s.list)
    && BoardOk(Board(s.list), s)
    && (!s.receipts ==> OrderOk(s.list))
  }

  /** The id a second send is shown under is a message's of mine, with the same words or file. */
  ghost predicate Replaces(log: seq<Msg>, oldId: Id, body: Body) {
    exists x :: 0 <= x < |log| && log[x].netId == Some(oldId) && log[x].fromMe && KeyOf(log[x].body) == KeyOf(body)
  }

  ghost predicate ResendsOk(s: State) {
    && (forall r :: 0 <= r < |s.resends| ==>
          && Replaces(s.log, s.resends[r].oldId, s.resends[r].body) && KeyOf(s.resends[r].body) != NoKey
          && !IsLocalId(s.resends[r].oldId) && s.resends[r].oldId != "")
    && (forall x :: 0 <= x < |s.log| && s.log[x].origin.Again? ==> Replaces(s.log, s.log[x].origin.oldId, s.log[x].body))
  }
}
