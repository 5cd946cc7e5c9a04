/** What each operation on the bubble list means for a bubble, spelled out in the bubble's own fields. */
module DeliveryMeaning {
  import opened Wrappers
  import opened StableSort
  import opened DeliveryState

  // ----- newest first, stably -----

  /** `r` lists `s` newest first; bubbles of one time keep their order. */
  ghost predicate NewestOf(r: seq<Bubble>, s: seq<Bubble>) {
    exists idx: seq<nat> :: IsNewestOrder(idx, s) && |r| == |s| && forall p :: 0 <= p < |r| ==> r[p] == s[idx[p]]
  }

  ghost predicate IsNewestOrder(idx: seq<nat>, s: seq<Bubble>) {
    && |idx| == |s| && (forall p :: 0 <= p < |idx| ==> idx[p] < |s|)
    && forall p, q :: 0 <= p < q < |idx| ==>
         s[idx[p]].sentNs > s[idx[q]].sentNs || (s[idx[p]].sentNs == s[idx[q]].sentNs && idx[p] < idx[q])
  }

  lemma SortedIsNewest(s: seq<Bubble>)
    ensures NewestOf(SortNewest(s), s)
  {
    NewestFirstIsPreorder();
    var le := NewestFirst;
    var idx := SortIsStable(s, NewestFirst);
    forall p, q | 0 <= p < q < |idx|
      ensures s[idx[p]].sentNs > s[idx[q]].sentNs || (s[idx[p]].sentNs == s[idx[q]].sentNs && idx[p] < idx[q])
    {
      assert Precedes(s, NewestFirst, idx[p], idx[q]);
      assert le(s[idx[p]], s[idx[q]]) == NewestFirst(s[idx[p]], s[idx[q]]);
      assert le(s[idx[q]], s[idx[p]]) == NewestFirst(s[idx[q]], s[idx[p]]);
    }
    assert IsNewestOrder(idx, s);
  }

  // ----- a streamed message -----

  /** Ten minutes, in nanoseconds. */
  predicate WithinTenMinutes(a: int, b: int) {
    a - b <= 10 * 60 * 1_000_000_000 && b - a <= 10 * 60 * 1_000_000_000
  }

  /** A copy of mine of the same words, still under way, stored, or failed near the time of the streamed one. */
  predicate IsTextCopy(m: Bubble, next: Bubble) {
    && m.body.Text? && next.body.Text? && m.body.text == next.body.text
    && (m.delivery == Some(Pending) || m.delivery == Some(Sent) || m.delivery == Some(Unpublished)
        || (m.delivery == Some(Failed) && WithinTenMinutes(m.sentNs, next.sentNs)))
  }

  /** A copy of the same uploaded file, under way, stored or failed whenever. */
  predicate IsFileCopy(m: Bubble, next: Bubble) {
    && m.body.Attachment? && next.body.Attachment?
    && next.body.digest.Some? && m.body.digest.Some? && next.body.digest.value == m.body.digest.value
    && (m.delivery == Some(Pending) || m.delivery == Some(Sent) || m.delivery == Some(Unpublished) || m.delivery == Some(Failed))
  }

  predicate IsCopy(m: Bubble, next: Bubble) {
    next.fromMe && (IsTextCopy(m, next) || IsFileCopy(m, next))
  }

  lemma CopiesAreMatches(m: Bubble, next: Bubble)
    ensures IsCopy(m, next) <==> EchoMatches(m, next)
  {
    if EchoMatches(m, next) && DigestEchoMatches(m, next) { assert m.body.digest == Some(next.body.digest.value); }
  }

  /** A message already listed is skipped, unless what is listed is my unconfirmed text or attachment: that is
      replaced. */
  lemma StreamedAgain(list: seq<Bubble>, next: Bubble, i: nat)
    requires i < |list| && list[i].id == next.id && forall j :: 0 <= j < i ==> list[j].id != next.id
    ensures var r := MergeStreamed(list, next);
      if !list[i].body.Card? && (list[i].delivery == Some(Pending) || list[i].delivery == Some(Sent)
                                 || list[i].delivery == Some(Unpublished) || list[i].delivery == Some(Failed))
      then NewestOf(r, list[i := next]) else r == list
  {
    SortedIsNewest(list[i := next]);
    var byId := FindIndex(list, (m: Bubble) => m.id == next.id);
    assert byId == i;
  }

  /** One not listed replaces the first copy it can stand in for, and only that. */
  lemma StreamedReplaces(list: seq<Bubble>, next: Bubble, i: nat)
    requires forall j :: 0 <= j < |list| ==> list[j].id != next.id
    requires i < |list| && IsCopy(list[i], next) && forall j :: 0 <= j < i ==> !IsCopy(list[j], next)
    ensures NewestOf(MergeStreamed(list, next), list[i := next])
  {
    forall j | 0 <= j < |list| ensures IsCopy(list[j], next) <==> EchoMatches(list[j], next) { CopiesAreMatches(list[j], next); }
    SortedIsNewest(list[i := next]);
    var byId := FindIndex(list, (m: Bubble) => m.id == next.id);
    var inFlight := FindIndex(list, (m: Bubble) => EchoMatches(m, next));
    assert byId == |list| && inFlight == i;
  }

  /** Without such a copy the list grows by it. What results is newest first in every case. */
  lemma StreamedIsNew(list: seq<Bubble>, next: Bubble)
    requires forall j :: 0 <= j < |list| ==> list[j].id != next.id && !IsCopy(list[j], next)
    ensures NewestOf(MergeStreamed(list, next), [next] + list)
    ensures |MergeStreamed(list, next)| == |list| + 1 && next in MergeStreamed(list, next)
  {
    forall j | 0 <= j < |list| ensures !EchoMatches(list[j], next) { CopiesAreMatches(list[j], next); }
    SortedIsNewest([next] + list);
    SortKeepsElements([next] + list, NewestFirst);
    var byId := FindIndex(list, (m: Bubble) => m.id == next.id);
    var inFlight := FindIndex(list, (m: Bubble) => EchoMatches(m, next));
    assert byId == |list| && inFlight == |list|;
  }

  /** A failed text sent more than ten minutes away from an echo of its words stays: it was not delivered. */
  lemma UndeliveredTextStays(list: seq<Bubble>, next: Bubble, b: Bubble)
    requires UniqueIds(list) && b in list && b.id != next.id
    requires b.body.Text? && b.delivery == Some(Failed)
    requires b.sentNs - next.sentNs > 600_000_000_000 || next.sentNs - b.sentNs > 600_000_000_000
    ensures b in MergeStreamed(list, next)
  {
    var absorbed := MergeBoard(list, next);
    CopiesAreMatches(b, next);
    assert Board(list)[b.id] == b;
  }

  // ----- delivery states -----

  /** My delivered texts and attachments sent no later than `upToNs` are read; nothing else moves. */
  ghost predicate ReadTo(before: seq<Bubble>, after: seq<Bubble>, upToNs: int) {
    && |after| == |before|
    && forall i :: 0 <= i < |before| ==>
         after[i] == if !before[i].body.Card? && before[i].fromMe && before[i].sentNs <= upToNs
                        && (before[i].delivery == None || before[i].delivery == Some(Sent))
                     then before[i].(delivery := Some(Read)) else before[i]
  }

  lemma ReceiptMarks(list: seq<Bubble>, upToNs: int)
    ensures ReadTo(list, MarkReadUpTo(list, upToNs), upToNs)
  {
  }

  /** Whether the list names the id. */
  ghost predicate Names(list: seq<Bubble>, id: Id) {
    exists i :: 0 <= i < |list| && list[i].id == id
  }

  /** A delivery state lands on the bubble of the id, card apart, which takes the new id when one is given;
      when that id is listed already the bubble goes instead. */
  lemma DeliveryLands(list: seq<Bubble>, id: Id, d: Delivery, newId: Id)
    ensures var r := SetDelivery(list, id, d, newId);
      if newId != "" && newId != id && Names(list, newId) then forall b :: b in r <==> b in list && b.id != id
      else |r| == |list| && forall i :: 0 <= i < |list| ==>
        r[i] == if list[i].id == id && !list[i].body.Card?
                then Bubble(if newId == "" then id else newId, list[i].sentNs, list[i].fromMe, list[i].body, Some(d))
                else list[i]
  {
    DiscardContents(list, id);
    ListedMeaning(list, newId);
  }

  lemma ListedMeaning(list: seq<Bubble>, id: Id)
    ensures Listed(list, id) <==> Names(list, id)
  {
    if Names(list, id) {
      var i :| 0 <= i < |list| && list[i].id == id;
      assert list[i] in list;
    }
    if Listed(list, id) {
      var m :| m in list && m.id == id;
      var i :| 0 <= i < |list| && list[i] == m;
    }
  }

  /** An ack renames the local copy; when the stored id is listed already the local copy goes. */
  lemma AckLands(list: seq<Bubble>, localId: Id, sentId: Id, d: Delivery)
    ensures var r := ReconcileSent(list, localId, sentId, d);
      if Names(list, sentId) then forall b :: b in r <==> b in list && b.id != localId
      else |r| == |list| && forall i :: 0 <= i < |list| ==>
        r[i] == if list[i].id == localId && !list[i].body.Card?
                then Bubble(sentId, list[i].sentNs, list[i].fromMe, list[i].body, Some(d)) else list[i]
  {
    DiscardContents(list, localId);
    ListedMeaning(list, sentId);
  }

  /** The outcome `d` lands on the bubble of that id, card apart, if it still waits for it, and on nothing else. */
  ghost predicate SettledTo(before: seq<Bubble>, after: seq<Bubble>, id: Id, d: Delivery) {
    && |after| == |before|
    && forall i :: 0 <= i < |before| ==>
         after[i] == if before[i].id == id && before[i].delivery == Some(Pending) && !before[i].body.Card?
                     then before[i].(delivery := Some(d)) else before[i]
  }

  lemma OutcomeLands(list: seq<Bubble>, id: Id, d: Delivery)
    requires UniqueIds(list)
    ensures SettledTo(list, SettleRetry(list, id, d), id, d)
  {
    if exists m :: m in list && m.id == id && m.delivery == Some(Pending) {
      var m :| m in list && m.id == id && m.delivery == Some(Pending);
      var k :| 0 <= k < |list| && list[k] == m;
    } else {
      forall i | 0 <= i < |list| ensures list[i].id == id ==> list[i].delivery != Some(Pending) { assert list[i] in list; }
    }
  }

  /** The attachment of that id has its digest; it keeps its file, and nothing else moves. */
  ghost predicate UploadedTo(before: seq<Bubble>, after: seq<Bubble>, id: Id, digest: string) {
    && |after| == |before|
    && forall i :: 0 <= i < |before| ==>
         after[i] == if before[i].id == id && before[i].body.Attachment?
                     then before[i].(body := Attachment(before[i].body.localFile, Some(digest))) else before[i]
  }

  lemma UploadLands(list: seq<Bubble>, localId: Id, digest: string)
    ensures UploadedTo(list, AttachUploaded(list, localId, digest), localId, digest)
  {
  }

  lemma {:induction false} DiscardNone(list: seq<Bubble>, id: Id)
    requires !Names(list, id)
    ensures DiscardMessage(list, id) == list
  {
    if list != [] {
      assert list[0].id != id;
      assert !Names(list[1..], id) by {
        forall i | 0 <= i < |list[1..]| ensures list[1..][i].id != id { assert list[1..][i] == list[i + 1]; }
      }
      DiscardNone(list[1..], id);
    }
  }

  /** Discarding keeps everything else, in order. */
  lemma {:induction false} DiscardKeepsOrder(front: seq<Bubble>, b: Bubble, back: seq<Bubble>)
    requires !Names(front, b.id) && !Names(back, b.id)
    ensures DiscardMessage(front + [b] + back, b.id) == front + back
  {
    var list := front + [b] + back;
    if front == [] {
      assert list[1..] == back && front + back == back;
      DiscardNone(back, b.id);
    } else {
      assert front[0].id != b.id;
      assert !Names(front[1..], b.id) by {
        forall i | 0 <= i < |front[1..]| ensures front[1..][i].id != b.id { assert front[1..][i] == front[i + 1]; }
      }
      DiscardKeepsOrder(front[1..], b, back);
      assert list[1..] == front[1..] + [b] + back && front + back == [front[0]] + (front[1..] + back);
    }
  }
}
