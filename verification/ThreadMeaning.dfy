/** What a thread's events put on the screen, spelled out bubble by bubble. */
module ThreadMeaning {
  import opened Wrappers
  import opened DeliveryState
  import opened DeliveryMeaning
  import opened ThreadProtocol

  /** A text appears at once on top: mine, at the device's time, pending, with what it replies to. A file does the
      same, not uploaded yet. Both are sends under way, with nothing stored. */
  lemma SendsShowAtOnce(s: State, id: Id, text: string, replyTo: Option<Id>, file: string, nowNs: int)
    requires FreshLocalId(s, id)
    ensures var t := Apply(s, SendText(id, text, replyTo, nowNs));
      && t.list == [Bubble(id, nowNs, true, Text(text, replyTo), Some(Pending))] + s.list
      && t.log == s.log + [Msg(Composer(id, Sending, 0, 0), Text(text, replyTo), true, nowNs, None)]
      && t == s.(list := t.list, log := t.log)
    ensures var t := Apply(s, SendFile(id, file, nowNs));
      && t.list == [Bubble(id, nowNs, true, Attachment(Some(file), None), Some(Pending))] + s.list
      && t.log == s.log + [Msg(Composer(id, Uploading, 0, 0), Attachment(Some(file), None), true, nowNs, None)]
      && t == s.(list := t.list, log := t.log)
  {
  }

  /** The network's copy of a stored message: its id, its time, its author, its words or uploaded file, and no
      delivery state. */
  lemma CopyShows(msg: Msg)
    requires msg.netId.Some?
    ensures var c := Copy(msg);
      && Some(c.id) == msg.netId && c.sentNs == msg.sentNs && c.fromMe == msg.fromMe && c.delivery == None
      && (msg.body.Attachment? ==> c.body == Attachment(None, msg.body.digest)) && (!msg.body.Attachment? ==> c.body == msg.body)
  {
  }

  /** A history row shows that copy, as unpublished or failed where the SDK says so. */
  lemma RowShows(log: seq<Msg>, row: Row)
    requires row.x < |log| && log[row.x].netId.Some?
    ensures RowBubble(log, row).(delivery := None) == Copy(log[row.x])
    ensures RowBubble(log, row).delivery
         == match row.mark case NoMark => None case MarkedUnpublished => Some(Unpublished) case MarkedFailed => Some(Failed)
  {
  }

  /** `r` is `s` read up to the newest receipt; without a receipt (0) it is `s`. */
  ghost predicate ReadUpTo(r: seq<Bubble>, s: seq<Bubble>, upToNs: int) {
    if upToNs > 0 then ReadTo(s, r, upToNs) else r == s
  }

  /** The rows as bubbles, newest first, then read up to the newest receipt. */
  lemma HistoryShows(log: seq<Msg>, rows: seq<Row>, upToNs: int) returns (bubbles: seq<Bubble>, sorted: seq<Bubble>)
    requires RowsResolve(log, rows)
    ensures |bubbles| == |rows| && forall i :: 0 <= i < |rows| ==> bubbles[i] == RowBubble(log, rows[i])
    ensures NewestOf(sorted, bubbles) && ReadUpTo(Fresh(log, rows, upToNs), sorted, upToNs)
  {
    bubbles := RowBubbles(log, rows);
    sorted := SortNewest(bubbles);
    SortedIsNewest(bubbles);
    ReceiptReads(sorted, upToNs);
    FreshIsSorted(log, rows, upToNs);
  }

  function RowBubbles(log: seq<Msg>, rows: seq<Row>): seq<Bubble>
    requires RowsResolve(log, rows)
  {
    seq(|rows|, i requires 0 <= i < |rows| => RowBubble(log, rows[i]))
  }

  lemma FreshIsSorted(log: seq<Msg>, rows: seq<Row>, upToNs: int)
    requires RowsResolve(log, rows)
    ensures var sorted := SortNewest(RowBubbles(log, rows));
      Fresh(log, rows, upToNs) == if upToNs > 0 then MarkReadUpTo(sorted, upToNs) else sorted
  {
    assert RowBubbles(log, rows) == seq(|rows|, i requires 0 <= i < |rows| => RowBubble(log, rows[i]));
  }

  lemma ReceiptReads(s: seq<Bubble>, upToNs: int)
    ensures ReadUpTo(if upToNs > 0 then MarkReadUpTo(s, upToNs) else s, s, upToNs)
  {
  }

  /** A bubble the network has not confirmed: mine to wait for. */
  predicate Waits(b: Bubble) {
    && !b.body.Card?
    && (b.delivery == Some(Pending) || b.delivery == Some(Sent) || b.delivery == Some(Unpublished) || b.delivery == Some(Failed))
  }

  /** A first binding shows the history; a re-bind keeps, beside it, the unconfirmed bubbles it does not name. */
  lemma BindingShows(s: State, rows: seq<Row>, upToNs: int) returns (kept: seq<Bubble>)
    requires RowsOk(s, rows)
    ensures Apply(s, Load(rows, upToNs)).list == Fresh(s.log, rows, upToNs)
    ensures NewestOf(Apply(s, Resume(rows, upToNs)).list, kept + Fresh(s.log, rows, upToNs))
    ensures forall b :: b in kept <==> b in s.list && Waits(b) && !Names(Fresh(s.log, rows, upToNs), b.id)
    ensures UniqueIds(s.list) ==> UniqueIds(kept)
  {
    kept := Kept(s.list, Fresh(s.log, rows, upToNs));
    BoundLists(s, rows, upToNs);
    SortedIsNewest(kept + Fresh(s.log, rows, upToNs));
    KeptMeaning(s.list, Fresh(s.log, rows, upToNs));
  }

  lemma BoundLists(s: State, rows: seq<Row>, upToNs: int)
    requires RowsOk(s, rows)
    ensures Apply(s, Load(rows, upToNs)).list == Fresh(s.log, rows, upToNs)
    ensures var history := Fresh(s.log, rows, upToNs);
      Apply(s, Resume(rows, upToNs)).list == SortNewest(Kept(s.list, history) + history)
  {
  }

  lemma {:induction false} KeptMeaning(list: seq<Bubble>, history: seq<Bubble>)
    ensures forall b :: b in Kept(list, history) <==> b in list && Waits(b) && !Names(history, b.id)
    ensures UniqueIds(list) ==> UniqueIds(Kept(list, history))
  {
    if list != [] {
      KeptMeaning(list[1..], history);
      ListedMeaning(history, list[0].id);
      assert list == [list[0]] + list[1..];
      if UniqueIds(list) { KeptHead(list, history); }
    }
  }

  lemma KeptHead(list: seq<Bubble>, history: seq<Bubble>)
    requires list != [] && UniqueIds(list) && UniqueIds(Kept(list[1..], history))
    requires forall b :: b in Kept(list[1..], history) ==> b in list[1..]
    ensures UniqueIds(Kept(list, history))
  {
    var rest := Kept(list[1..], history);
    forall i | 0 <= i < |rest| ensures rest[i].id != list[0].id {
      assert rest[i] in rest;
      var j :| 0 <= j < |list[1..]| && list[1..][j] == rest[i];
      assert list[j + 1] == rest[i];
    }
  }

  /** What retry has to send: a text, or a file still to upload or uploaded. */
  lemma ContentMeaning(body: Body)
    ensures HasContent(body) <==>
      match body
      case Text(_, _) => true
      case Attachment(file, digest) => file != None || digest != None
      case Card(_) => false
  {
  }

  /** A retried bubble is pending again, in its place; nothing else on the list moves. One that is neither held
      where it can be published from, nor failed with something to send, is left alone. */
  lemma RetryShows(s: State, b: Bubble, canRepublish: bool)
    requires b in s.list && UniqueIds(s.list)
    ensures var t := Apply(s, TapRetry(b, canRepublish));
      var republished := canRepublish && !b.body.Card? && !IsLocalId(b.id)
                         && (b.delivery == Some(Unpublished) || (b.delivery == Some(Failed) && b.id in s.storedIds));
      var sentAgain := !republished && b.delivery == Some(Failed) && HasContent(b.body);
      && |t.list| == |s.list|
      && (forall i :: 0 <= i < |s.list| ==>
            t.list[i] == if s.list[i].id == b.id && (republished || sentAgain)
                         then s.list[i].(delivery := Some(Pending)) else s.list[i])
      && t.storedIds == (if republished then s.storedIds + {b.id} else s.storedIds)
      && t.resends == s.resends + if sentAgain && !IsLocalId(b.id) then [Reattempt(b.id, b.body)] else []
  {
    DeliveryLands(s.list, b.id, Pending, "");
    forall i | 0 <= i < |s.list| && s.list[i].id == b.id ensures s.list[i] == b {
      var k :| 0 <= k < |s.list| && s.list[k] == b;
    }
  }
}
