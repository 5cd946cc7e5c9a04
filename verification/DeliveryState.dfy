/** Optimistic delivery state of one thread: pure operations on its newest-first bubble list. */
module DeliveryState {
  import opened Wrappers
  import opened StableSort

  type Id = string

  datatype Delivery = Pending | Sent | Unpublished | Failed | Read

  /** What a bubble shows. `digest` is the uploaded content's digest, `localFile` the sender's own file;
      every other message kind is a card. */
  datatype Body =
    | Text(text: string, replyTo: Option<Id>)
    | Attachment(localFile: Option<string>, digest: Option<string>)
    | Card(kind: string)

  datatype Bubble = Bubble(id: Id, sentNs: int, fromMe: bool, body: Body, delivery: Option<Delivery>)

  const LOCAL_ID_PREFIX := "local-"
  const FAILED_ECHO_WINDOW_NS := 600_000_000_000

  // ----- ids -----

  function Digits(n: nat): (s: string)
    ensures |s| >= 1
  {
    var d := ['0' + (n % 10) as char];
    if n < 10 then d else Digits(n / 10) + d
  }

  /** The id the n-th call of the id generator returns. */
  function LocalId(n: nat): Id {
    LOCAL_ID_PREFIX + Digits(n)
  }

  predicate IsLocalId(id: Id) {
    LOCAL_ID_PREFIX <= id
  }

  lemma {:induction false} DigitsInjective(a: nat, b: nat)
    requires Digits(a) == Digits(b)
    ensures a == b
  {
    var da, db := Digits(a), Digits(b);
    assert da[|da| - 1] == '0' + (a % 10) as char && db[|db| - 1] == '0' + (b % 10) as char;
    assert |da| == 1 <==> a < 10;
    assert |db| == 1 <==> b < 10;
    if a >= 10 {
      assert Digits(a / 10) == da[..|da| - 1] && Digits(b / 10) == db[..|db| - 1];
      DigitsInjective(a / 10, b / 10);
    }
  }

  /** Local ids never collide: distinct counter values give distinct ids, all recognisable as local. */
  lemma LocalIdsDistinct(a: nat, b: nat)
    ensures IsLocalId(LocalId(a))
    ensures LocalId(a) == LocalId(b) ==> a == b
  {
    if LocalId(a) == LocalId(b) {
      assert LocalId(a)[|LOCAL_ID_PREFIX|..] == Digits(a) && LocalId(b)[|LOCAL_ID_PREFIX|..] == Digits(b);
      DigitsInjective(a, b);
    }
  }

  // ----- list operations -----

  predicate TracksDelivery(m: Bubble) {
    !m.body.Card?
  }

  predicate IsOptimistic(m: Bubble) {
    TracksDelivery(m) && AwaitingEcho(m.delivery)
  }

  /** `pending`, `sent`, `unpublished` or `failed`: the network has not confirmed this copy. */
  predicate AwaitingEcho(d: Option<Delivery>) {
    d.Some? && d.value != Read
  }

  predicate NewestFirst(a: Bubble, b: Bubble) {
    a.sentNs >= b.sentNs
  }

  lemma NewestFirstIsPreorder()
    ensures TotalPreorder(NewestFirst)
  {
    var le := NewestFirst;
    forall x: Bubble, y: Bubble ensures le(x, y) <==> x.sentNs >= y.sentNs {
      assert le(x, y) == NewestFirst(x, y);
    }
  }

  function SortNewest(list: seq<Bubble>): seq<Bubble> {
    Sort(list, NewestFirst)
  }

  function AttachUploaded(prev: seq<Bubble>, localId: Id, digest: string): seq<Bubble> {
    seq(|prev|, i requires 0 <= i < |prev| =>
      var m := prev[i];
      if m.id == localId && m.body.Attachment? then m.(body := m.body.(digest := Some(digest))) else m)
  }

  function DiscardMessage(prev: seq<Bubble>, id: Id): seq<Bubble> {
    if prev == [] then []
    else (if prev[0].id == id then [] else [prev[0]]) + DiscardMessage(prev[1..], id)
  }

  predicate Listed(prev: seq<Bubble>, id: Id) {
    exists m :: m in prev && m.id == id
  }

  /** A `newId` of "" counts as absent, as any falsy string does. */
  function SetDelivery(prev: seq<Bubble>, id: Id, delivery: Delivery, newId: Id := ""): seq<Bubble> {
    if newId != "" && newId != id && Listed(prev, newId) then DiscardMessage(prev, id)
    else Relabel(prev, id, if newId != "" then newId else id, delivery)
  }

  function ReconcileSent(prev: seq<Bubble>, localId: Id, sentId: Id, delivery: Delivery): seq<Bubble> {
    if Listed(prev, sentId) then DiscardMessage(prev, localId) else Relabel(prev, localId, sentId, delivery)
  }

  function Relabel(prev: seq<Bubble>, id: Id, newId: Id, delivery: Delivery): seq<Bubble> {
    seq(|prev|, i requires 0 <= i < |prev| =>
      var m := prev[i];
      if m.id == id && TracksDelivery(m) then m.(id := newId, delivery := Some(delivery)) else m)
  }

  function SettleRetry(prev: seq<Bubble>, id: Id, delivery: Delivery): seq<Bubble> {
    if exists m :: m in prev && m.id == id && m.delivery == Some(Pending) then SetDelivery(prev, id, delivery)
    else prev
  }

  predicate TextEchoMatches(m: Bubble, next: Bubble) {
    && m.body.Text? && next.body.Text?
    && AwaitingEcho(m.delivery)
    && m.body.text == next.body.text
    && (m.delivery == Some(Failed) ==> -FAILED_ECHO_WINDOW_NS <= next.sentNs - m.sentNs <= FAILED_ECHO_WINDOW_NS)
  }

  predicate DigestEchoMatches(m: Bubble, next: Bubble) {
    && m.body.Attachment? && next.body.Attachment? && next.body.digest.Some?
    && AwaitingEcho(m.delivery)
    && m.body.digest == next.body.digest
  }

  /** Whether echo `next`, whose id is not listed, may stand in for the local copy `m`. */
  predicate EchoMatches(m: Bubble, next: Bubble) {
    next.fromMe && (TextEchoMatches(m, next) || DigestEchoMatches(m, next))
  }

  /** First position satisfying `p`, or |s|. */
  function FindIndex(s: seq<Bubble>, p: Bubble -> bool): (k: nat)
    ensures k <= |s|
    ensures k < |s| ==> p(s[k])
    ensures forall i :: 0 <= i < k ==> !p(s[i])
  {
    if s == [] then 0
    else if p(s[0]) then 0
    else
      var k := FindIndex(s[1..], p);
      assert forall i :: 0 < i < k + 1 ==> s[i] == s[1..][i - 1];
      k + 1
  }

  function MergeStreamed(prev: seq<Bubble>, next: Bubble): seq<Bubble> {
    var byId := FindIndex(prev, (m: Bubble) => m.id == next.id);
    if byId < |prev| then
      if IsOptimistic(prev[byId]) then SortNewest(prev[byId := next]) else prev
    else
      var inFlight := FindIndex(prev, (m: Bubble) => EchoMatches(m, next));
      if inFlight < |prev| then SortNewest(prev[inFlight := next]) else SortNewest([next] + prev)
  }

  predicate ReadBy(m: Bubble, upToNs: int) {
    && TracksDelivery(m) && m.fromMe
    && (m.delivery.None? || m.delivery == Some(Sent))
    && m.sentNs <= upToNs
  }

  function MarkOne(m: Bubble, upToNs: int): Bubble {
    if ReadBy(m, upToNs) then m.(delivery := Some(Read)) else m
  }

  function MarkReadUpTo(prev: seq<Bubble>, upToNs: int): seq<Bubble> {
    seq(|prev|, i requires 0 <= i < |prev| => MarkOne(prev[i], upToNs))
  }

  // ----- the two operations the source writes with mutation -----

  /** Overwrites one slot of a copy, or prepends, then sorts. */
  method MergeStreamedCopy(prev: seq<Bubble>, next: Bubble) returns (r: seq<Bubble>)
    ensures r == MergeStreamed(prev, next)
  {
    var byId := 0;
    while byId < |prev| && prev[byId].id != next.id
      invariant byId <= |prev| && forall i :: 0 <= i < byId ==> prev[i].id != next.id
    {
      byId := byId + 1;
    }
    var slot := byId;
    if byId < |prev| {
      if !IsOptimistic(prev[byId]) { return prev; }
    } else {
      slot := 0;
      while slot < |prev| && !EchoMatches(prev[slot], next)
        invariant slot <= |prev| && forall i :: 0 <= i < slot ==> !EchoMatches(prev[i], next)
      {
        slot := slot + 1;
      }
      if slot == |prev| { return SortNewest([next] + prev); }
    }
    var copy := new Bubble[|prev|](i requires 0 <= i < |prev| => prev[i]);
    copy[slot] := next;
    assert copy[..] == prev[slot := next];
    r := SortNewest(copy[..]);
  }

  /** The `changed` flag tells exactly whether any bubble moved. */
  method MarkReadUpToPass(prev: seq<Bubble>, upToNs: int) returns (r: seq<Bubble>, changed: bool)
    ensures r == MarkReadUpTo(prev, upToNs)
    ensures changed <==> r != prev
  {
    changed := false;
    var next: seq<Bubble> := [];
    for i := 0 to |prev|
      invariant |next| == i && forall j :: 0 <= j < i ==> next[j] == MarkOne(prev[j], upToNs)
      invariant changed <==> exists j :: 0 <= j < i && next[j] != prev[j]
    {
      var m := prev[i];
      if ReadBy(m, upToNs) {
        changed := true;
        m := m.(delivery := Some(Read));
      }
      next := next + [m];
    }
    r := if changed then next else prev;
    assert forall j :: 0 <= j < |prev| ==> r[j] == MarkOne(prev[j], upToNs);
  }

  // ----- read marking is a watermark -----

  function Max(a: int, b: int): int {
    if a >= b then a else b
  }

  /** Marking up to a and then b is marking up to the later of the two. */
  lemma MarkReadIsWatermark(list: seq<Bubble>, a: int, b: int)
    ensures MarkReadUpTo(MarkReadUpTo(list, a), b) == MarkReadUpTo(list, Max(a, b))
  {
    var once, twice := MarkReadUpTo(list, a), MarkReadUpTo(MarkReadUpTo(list, a), b);
    forall i | 0 <= i < |list| ensures twice[i] == MarkReadUpTo(list, Max(a, b))[i] {
      assert once[i] == MarkOne(list[i], a) && twice[i] == MarkOne(once[i], b);
    }
  }

  /** Once `read`, a bubble survives every later merge unchanged. */
  lemma ReadSurvivesMerge(list: seq<Bubble>, b: Bubble, next: Bubble)
    requires b in list && b.delivery == Some(Read) && UniqueIds(list)
    ensures b in MergeStreamed(list, next)
  {
    var absorbed := MergeBoard(list, next);
    assert Board(list)[b.id] == b;
  }

  /** Once `read`, a bubble survives every settled retry, ack of another id and receipt unchanged. */
  lemma ReadIsFinal(list: seq<Bubble>, b: Bubble, id: Id, newId: Id, d: Delivery, upToNs: int)
    requires b in list && b.delivery == Some(Read) && UniqueIds(list)
    ensures b in SettleRetry(list, id, d)
    ensures id != b.id ==> b in ReconcileSent(list, id, newId, d)
    ensures b in MarkReadUpTo(list, upToNs)
  {
    SettleKeepsRead(list, b, id, d);
    if id != b.id { OthersKept(list, b, id, newId, d); }
    var k :| 0 <= k < |list| && list[k] == b;
    assert MarkReadUpTo(list, upToNs)[k] == b;
  }

  lemma SettleKeepsRead(list: seq<Bubble>, b: Bubble, id: Id, d: Delivery)
    requires b in list && b.delivery == Some(Read) && UniqueIds(list)
    ensures b in SettleRetry(list, id, d)
  {
    if m :| m in list && m.id == id && m.delivery == Some(Pending) {
      assert Board(list)[id] == m && Board(list)[b.id] == b;
      OthersKept(list, b, id, id, d);
    }
  }

  lemma OthersKept(list: seq<Bubble>, b: Bubble, id: Id, newId: Id, d: Delivery)
    requires b in list && b.id != id
    ensures b in Relabel(list, id, newId, d) && b in DiscardMessage(list, id)
  {
    DiscardContents(list, id);
    var k :| 0 <= k < |list| && list[k] == b;
    assert Relabel(list, id, newId, d)[k] == b;
  }

  lemma {:induction false} DiscardContents(prev: seq<Bubble>, id: Id)
    ensures forall b :: b in DiscardMessage(prev, id) <==> b in prev && b.id != id
  {
    if prev != [] {
      DiscardContents(prev[1..], id);
      assert prev == [prev[0]] + prev[1..];
    }
  }

  // ----- the list as a board: one bubble per id -----

  ghost predicate UniqueIds(list: seq<Bubble>) {
    forall i, j :: 0 <= i < j < |list| ==> list[i].id != list[j].id
  }

  ghost function Board(list: seq<Bubble>): (m: map<Id, Bubble>)
    requires UniqueIds(list)
    ensures forall b :: b in list <==> b.id in m && m[b.id] == b
    ensures forall id :: id in m ==> m[id].id == id && m[id] in list
  {
    var m := map id | id in Ids(list) :: BubbleOf(list, id);
    assert forall b :: b in list ==> b.id in m && m[b.id].id == b.id && m[b.id] in list;
    m
  }

  ghost function Ids(list: seq<Bubble>): set<Id> {
    set b | b in list :: b.id
  }

  ghost function BubbleOf(list: seq<Bubble>, id: Id): (b: Bubble)
    requires id in Ids(list)
    ensures b in list && b.id == id
  {
    var b :| b in list && b.id == id;
    b
  }

  /** Two lists of distinct ids with the same bubbles are the same board. */
  lemma SameBoard(a: seq<Bubble>, m: map<Id, Bubble>)
    requires UniqueIds(a)
    requires forall b :: b in a ==> b.id in m && m[b.id] == b
    requires forall id :: id in m ==> m[id].id == id && m[id] in a
    ensures Board(a) == m
  {
    var n := Board(a);
    assert n.Keys == m.Keys;
  }

  lemma SortBoard(list: seq<Bubble>)
    requires UniqueIds(list)
    ensures UniqueIds(SortNewest(list)) && Board(SortNewest(list)) == Board(list)
    ensures SortedBy(SortNewest(list), NewestFirst)
  {
    NewestFirstIsPreorder();
    var idx := SortIsStable(list, NewestFirst);
    SortKeepsElements(list, NewestFirst);
    forall i, j | 0 <= i < j < |list| ensures SortNewest(list)[i].id != SortNewest(list)[j].id {
      assert idx[i] != idx[j];
    }
    SameBoard(SortNewest(list), Board(list));
  }

  lemma SlotBoard(list: seq<Bubble>, k: nat, next: Bubble)
    requires UniqueIds(list) && k < |list|
    requires next.id == list[k].id || next.id !in Board(list)
    ensures UniqueIds(list[k := next])
    ensures Board(list[k := next]) == (Board(list) - {list[k].id})[next.id := next]
  {
    var r := list[k := next];
    var m := (Board(list) - {list[k].id})[next.id := next];
    forall i, j | 0 <= i < j < |r| ensures r[i].id != r[j].id {
      assert list[i] in list && list[j] in list;
    }
    forall b | b in r ensures b.id in m && m[b.id] == b {
      var i :| 0 <= i < |r| && r[i] == b;
      if i != k { assert list[i] in list && list[i].id != list[k].id; }
    }
    forall id | id in m ensures m[id].id == id && m[id] in r {
      if id == next.id {
        assert r[k] == m[id];
      } else {
        var i :| 0 <= i < |list| && list[i] == m[id];
        assert r[i] == m[id];
      }
    }
    SameBoard(r, m);
  }

  lemma PrependBoard(list: seq<Bubble>, next: Bubble)
    requires UniqueIds(list) && next.id !in Board(list)
    ensures UniqueIds([next] + list)
    ensures Board([next] + list) == Board(list)[next.id := next]
  {
    forall i | 0 <= i < |list| ensures list[i].id != next.id { assert list[i] in list; }
    SameBoard([next] + list, Board(list)[next.id := next]);
  }

  lemma {:induction false} DiscardUnique(list: seq<Bubble>, id: Id)
    requires UniqueIds(list)
    ensures UniqueIds(DiscardMessage(list, id))
  {
    if list != [] {
      DiscardUnique(list[1..], id);
      var rest := DiscardMessage(list[1..], id);
      forall i | 0 <= i < |rest| ensures rest[i].id != list[0].id {
        DiscardContents(list[1..], id);
        assert rest[i] in rest;
        var j :| 0 <= j < |list[1..]| && list[1..][j] == rest[i];
        assert list[j + 1] == rest[i];
      }
    }
  }

  lemma DiscardBoard(list: seq<Bubble>, id: Id)
    requires UniqueIds(list)
    ensures UniqueIds(DiscardMessage(list, id)) && Board(DiscardMessage(list, id)) == Board(list) - {id}
  {
    DiscardUnique(list, id);
    DiscardContents(list, id);
    SameBoard(DiscardMessage(list, id), Board(list) - {id});
  }

  /** What renaming or relabelling one bubble does to the board. */
  ghost function Relabelled(m: map<Id, Bubble>, id: Id, newId: Id, d: Delivery): map<Id, Bubble> {
    if id in m && TracksDelivery(m[id]) then (m - {id})[newId := m[id].(id := newId, delivery := Some(d))] else m
  }

  lemma RelabelBoard(list: seq<Bubble>, id: Id, newId: Id, d: Delivery)
    requires UniqueIds(list) && (newId == id || newId !in Board(list))
    ensures UniqueIds(Relabel(list, id, newId, d))
    ensures Board(Relabel(list, id, newId, d)) == Relabelled(Board(list), id, newId, d)
  {
    var r := Relabel(list, id, newId, d);
    if id in Board(list) && TracksDelivery(Board(list)[id]) {
      var k :| 0 <= k < |list| && list[k] == Board(list)[id];
      assert r == list[k := list[k].(id := newId, delivery := Some(d))];
      SlotBoard(list, k, r[k]);
    } else {
      forall i | 0 <= i < |list| ensures r[i] == list[i] { assert list[i] in list; }
      assert r == list;
    }
  }

  ghost function Reconciled(m: map<Id, Bubble>, id: Id, newId: Id, d: Delivery): map<Id, Bubble> {
    if newId in m then m - {id} else Relabelled(m, id, newId, d)
  }

  lemma ListedOnBoard(list: seq<Bubble>, id: Id)
    requires UniqueIds(list)
    ensures Listed(list, id) <==> id in Board(list)
  {
    if id in Board(list) { assert Board(list)[id] in list; }
  }

  lemma ReconcileBoard(list: seq<Bubble>, id: Id, newId: Id, d: Delivery)
    requires UniqueIds(list)
    ensures UniqueIds(ReconcileSent(list, id, newId, d))
    ensures Board(ReconcileSent(list, id, newId, d)) == Reconciled(Board(list), id, newId, d)
  {
    ListedOnBoard(list, newId);
    if newId in Board(list) { DiscardBoard(list, id); } else { RelabelBoard(list, id, newId, d); }
  }

  /** Setting a delivery state: the bubble keeps its id or takes the given one, unless that is listed already. */
  lemma SetDeliveryBoard(list: seq<Bubble>, id: Id, d: Delivery, newId: Id)
    requires UniqueIds(list)
    ensures UniqueIds(SetDelivery(list, id, d, newId))
    ensures Board(SetDelivery(list, id, d, newId))
         == if newId == "" || newId == id then Relabelled(Board(list), id, id, d) else Reconciled(Board(list), id, newId, d)
  {
    ListedOnBoard(list, newId);
    if newId != "" && newId != id && newId in Board(list) { DiscardBoard(list, id); }
    else { RelabelBoard(list, id, if newId != "" then newId else id, d); }
  }

  ghost function Settled(m: map<Id, Bubble>, id: Id, d: Delivery): map<Id, Bubble> {
    if id in m && m[id].delivery == Some(Pending) then Relabelled(m, id, id, d) else m
  }

  lemma SettleBoard(list: seq<Bubble>, id: Id, d: Delivery)
    requires UniqueIds(list)
    ensures UniqueIds(SettleRetry(list, id, d))
    ensures Board(SettleRetry(list, id, d)) == Settled(Board(list), id, d)
  {
    var m := Board(list);
    if id in m && m[id].delivery == Some(Pending) {
      assert m[id] in list;
      RelabelBoard(list, id, id, d);
    }
  }

  ghost function Uploaded(m: map<Id, Bubble>, id: Id, digest: string): map<Id, Bubble> {
    if id in m && m[id].body.Attachment? then m[id := m[id].(body := m[id].body.(digest := Some(digest)))] else m
  }

  lemma UploadBoard(list: seq<Bubble>, id: Id, digest: string)
    requires UniqueIds(list)
    ensures UniqueIds(AttachUploaded(list, id, digest))
    ensures Board(AttachUploaded(list, id, digest)) == Uploaded(Board(list), id, digest)
  {
    var r := AttachUploaded(list, id, digest);
    var m := Board(list);
    if id in m && m[id].body.Attachment? {
      var k :| 0 <= k < |list| && list[k] == m[id];
      var b := list[k].(body := list[k].body.(digest := Some(digest)));
      forall i | 0 <= i < |list| ensures r[i] == list[k := b][i] {
        assert i != k ==> list[i].id != list[k].id;
      }
      assert r == list[k := b];
      SlotBoard(list, k, b);
      assert (m - {id})[id := b] == m[id := b];
    } else {
      forall i | 0 <= i < |list| ensures r[i] == list[i] { assert list[i] in list; }
      assert r == list;
    }
  }

  ghost function MarkedBoard(m: map<Id, Bubble>, upToNs: int): map<Id, Bubble> {
    map id | id in m :: MarkOne(m[id], upToNs)
  }

  lemma MarkBoard(list: seq<Bubble>, upToNs: int)
    requires UniqueIds(list)
    ensures UniqueIds(MarkReadUpTo(list, upToNs))
    ensures Board(MarkReadUpTo(list, upToNs)) == MarkedBoard(Board(list), upToNs)
  {
    var r, m := MarkReadUpTo(list, upToNs), MarkedBoard(Board(list), upToNs);
    forall b | b in r ensures b.id in m && m[b.id] == b {
      var i :| 0 <= i < |r| && r[i] == b;
      assert list[i] in list;
    }
    forall id | id in m ensures m[id].id == id && m[id] in r {
      var i :| 0 <= i < |list| && list[i] == Board(list)[id];
      assert r[i] == m[id];
    }
    SameBoard(r, m);
  }

  /** A streamed message lands in one of four ways. `absorbed` is the other id whose bubble it took. */
  ghost predicate MergeOutcome(m: map<Id, Bubble>, next: Bubble, absorbed: Option<Id>, r: map<Id, Bubble>) {
    if next.id in m then
      absorbed.None? && r == if IsOptimistic(m[next.id]) then m[next.id := next] else m
    else if absorbed.Some? then
      && absorbed.value in m && EchoMatches(m[absorbed.value], next)
      && r == (m - {absorbed.value})[next.id := next]
    else
      && (forall id :: id in m ==> !EchoMatches(m[id], next))
      && r == m[next.id := next]
  }

  lemma MergeBoard(list: seq<Bubble>, next: Bubble) returns (absorbed: Option<Id>)
    requires UniqueIds(list)
    ensures UniqueIds(MergeStreamed(list, next))
    ensures MergeOutcome(Board(list), next, absorbed, Board(MergeStreamed(list, next)))
    ensures MergeStreamed(list, next) == list || SortedBy(MergeStreamed(list, next), NewestFirst)
    ensures next.id !in Board(list) ==> SortedBy(MergeStreamed(list, next), NewestFirst)
  {
    absorbed := None;
    var m := Board(list);
    var byId := FindIndex(list, (b: Bubble) => b.id == next.id);
    if byId < |list| {
      assert list[byId] in list;
      if IsOptimistic(list[byId]) { ReplaceAndSort(list, byId, next); }
    } else {
      assert next.id !in m;
      var inFlight := FindIndex(list, (b: Bubble) => EchoMatches(b, next));
      if inFlight < |list| {
        assert list[inFlight] in list;
        absorbed := Some(list[inFlight].id);
        ReplaceAndSort(list, inFlight, next);
      } else {
        PrependBoard(list, next);
        SortBoard([next] + list);
      }
    }
  }

  lemma ReplaceAndSort(list: seq<Bubble>, k: nat, next: Bubble)
    requires UniqueIds(list) && k < |list| && (next.id == list[k].id || next.id !in Board(list))
    ensures var r := SortNewest(list[k := next]);
            UniqueIds(r) && SortedBy(r, NewestFirst) && Board(r) == (Board(list) - {list[k].id})[next.id := next]
    ensures next.id == list[k].id ==> Board(SortNewest(list[k := next])) == Board(list)[next.id := next]
  {
    SlotBoard(list, k, next);
    SortBoard(list[k := next]);
    PutBack(Board(list), next.id, next);
  }

  lemma PutBack(m: map<Id, Bubble>, id: Id, b: Bubble)
    ensures (m - {id})[id := b] == m[id := b]
  {
  }
}
