/** Read watermarks, and two clients acknowledging each other. */
module ReadReceipts {
  import opened Wrappers
  import opened FiniteSets
  import opened Runs

  // ----- the watermark -----

  /** The watermark after marking `sentNs` read; 0 stands for a missing time. */
  function Marked(mark: int, sentNs: int): int {
    if sentNs != 0 && sentNs > mark then sentNs else mark
  }

  class ReadState {
    var lastReadNs: map<string, int>
    var notified: nat

    constructor ()
      ensures lastReadNs == map[] && notified == 0
    {
      lastReadNs, notified := map[], 0;
    }

    function GetLastReadNs(conversation: string): int
      reads this
    {
      if conversation in lastReadNs then lastReadNs[conversation] else 0
    }

    /** Advances the watermark, and tells the listeners, exactly when the time is newer. */
    method MarkRead(conversation: string, sentNs: int) returns (advanced: bool)
      modifies this
      ensures GetLastReadNs(conversation)
           == if conversation == "" then old(GetLastReadNs(conversation)) else Marked(old(GetLastReadNs(conversation)), sentNs)
      ensures forall c :: c != conversation ==> GetLastReadNs(c) == old(GetLastReadNs(c))
      ensures advanced <==> GetLastReadNs(conversation) > old(GetLastReadNs(conversation))
      ensures notified == old(notified) + if advanced then 1 else 0
    {
      if conversation == "" || sentNs == 0 { return false; }
      var prev := GetLastReadNs(conversation);
      if sentNs > prev {
        lastReadNs := lastReadNs[conversation := sentNs];
        notified := notified + 1;
        return true;
      }
      return false;
    }
  }

  function MarkedAll(mark: int, times: seq<int>): int {
    if times == [] then mark else Marked(MarkedAll(mark, times[..|times| - 1]), times[|times| - 1])
  }

  /** Marking any times in any order leaves the newest of them, or what was there. */
  lemma {:induction false} WatermarkIsNewest(mark: int, times: seq<int>)
    requires mark >= 0
    ensures MarkedAll(mark, times) >= mark
    ensures forall t :: t in times ==> MarkedAll(mark, times) >= t
    ensures MarkedAll(mark, times) == mark || MarkedAll(mark, times) in times
  {
    if times != [] {
      WatermarkIsNewest(mark, times[..|times| - 1]);
      assert times == times[..|times| - 1] + [times[|times| - 1]];
    }
  }

  // ----- one message seen -----

  datatype Side = Left | Right

  datatype Message = Message(from: Side, receipt: bool, sentNs: int)

  /** Whether an arriving message is acknowledged. `setting` is the thread's own, `host` the default. */
  predicate ShouldSendReadReceipt(m: Message, advanced: bool, fromMe: bool, setting: Option<bool>, host: bool) {
    !m.receipt && advanced && !fromMe && if setting.Some? then setting.value else host
  }

  /** The first of the newest messages of a history. */
  function Newest(log: seq<Message>, history: seq<nat>): (i: nat)
    requires history != [] && forall h :: h in history ==> h < |log|
    ensures i in history
    ensures forall h :: h in history ==> log[h].sentNs <= log[i].sentNs
    ensures exists k :: 0 <= k < |history| && history[k] == i
                        && forall j :: 0 <= j < k ==> history[j] < |log| && log[history[j]].sentNs < log[i].sentNs
  {
    if |history| == 1 then history[0]
    else
      var n := |history| - 1;
      assert history == history[..n] + [history[n]];
      assert forall h :: h in history[..n] ==> h in history;
      assert history[n] in history;
      var max := Newest(log, history[..n]);
      if log[history[n]].sentNs > log[max].sentNs then history[n] else max
  }

  // ----- two clients -----

  /** The conversation: its log, each side's watermark, and, for the proof, the message each receipt was
      sent for and the sides that have looked at it without knowing their own inbox id. */
  datatype Net = Net(log: seq<Message>, left: int, right: int, paidFor: map<nat, nat>, blind: set<Side>)

  function MarkOf(net: Net, side: Side): int {
    if side == Left then net.left else net.right
  }

  function SetMark(net: Net, side: Side, ns: int): Net {
    if side == Left then net.(left := ns) else net.(right := ns)
  }

  /** How a look at a message goes: the thread's setting, the host's, whether the own inbox id is known,
      and the receipt's fate: not landed, or landed with the network's time. */
  datatype Look = Look(setting: Option<bool>, host: bool, knowsMe: bool, lands: bool, ackNs: int)

  datatype Event =
    | Post(from: Side, sentNs: int)
    | Deliver(to: Side, i: nat, look: Look)
    | Open(to: Side, history: seq<nat>, look: Look)

  predicate Enabled(net: Net, e: Event) {
    match e
    case Post(_, _) => true
    case Deliver(_, i, _) => i < |net.log|
    case Open(_, history, _) => forall h :: h in history ==> h < |net.log|
  }

  /** Mark message `i` read and acknowledge it if that is due. */
  function See(net: Net, to: Side, i: nat, look: Look): Net
    requires i < |net.log|
  {
    var m := net.log[i];
    var advanced := Marked(MarkOf(net, to), m.sentNs) > MarkOf(net, to);
    var fromMe := look.knowsMe && m.from == to;
    var marked := SetMark(net, to, Marked(MarkOf(net, to), m.sentNs)).(
      blind := if look.knowsMe then net.blind else net.blind + {to});
    if ShouldSendReadReceipt(m, advanced, fromMe, look.setting, look.host) && look.lands
    then marked.(log := net.log + [Message(to, true, look.ackNs)], paidFor := net.paidFor[|net.log| := i])
    else marked
  }

  function Apply(net: Net, e: Event): Net
    requires Enabled(net, e)
  {
    match e
    case Post(from, ns) => net.(log := net.log + [Message(from, false, ns)])
    case Deliver(to, i, look) => if net.log[i].receipt then net else See(net, to, i, look)
    case Open(to, history, look) => if history == [] then net else See(net, to, Newest(net.log, history), look)
  }

  ghost predicate StepTo(net: Net, e: Event, net': Net) {
    Enabled(net, e) && net' == Apply(net, e)
  }

  // ----- what every receipt was sent for -----

  /** `r` is a receipt, paid for by a message that is none, that its sender has read, and that is the
      counterparty's if the sender always knew who it was. */
  ghost predicate PaidFor(net: Net, r: nat) {
    && r in net.paidFor && r < |net.log| && net.paidFor[r] < |net.log|
    && net.log[r].receipt && !net.log[net.paidFor[r]].receipt
    && net.log[net.paidFor[r]].sentNs <= MarkOf(net, net.log[r].from)
    && (net.log[r].from !in net.blind ==> net.log[net.paidFor[r]].from != net.log[r].from)
  }

  ghost predicate Inv(net: Net) {
    && (forall r: nat :: r < |net.log| && net.log[r].receipt ==> PaidFor(net, r))
    && (forall r :: r in net.paidFor ==> PaidFor(net, r))
    && (forall r, s :: r in net.paidFor && s in net.paidFor && r != s && net.log[r].from == net.log[s].from ==>
          net.paidFor[r] != net.paidFor[s])
  }

  /** Looking at a message moves the looker's watermark to its time when that is newer, and the other's not. A
      receipt follows exactly when it did, for a message that is no receipt and not known to be one's own, with
      receipts on for the thread, or for the host where the thread leaves it open; and only if it lands. */
  lemma LookMeaning(net: Net, to: Side, i: nat, look: Look)
    requires i < |net.log|
    ensures var m, t := net.log[i], See(net, to, i, look);
      var newer := m.sentNs != 0 && m.sentNs > (if to == Left then net.left else net.right);
      && t.left == (if to == Left && newer then m.sentNs else net.left)
      && t.right == (if to == Right && newer then m.sentNs else net.right)
      && t.log == net.log + if newer && !m.receipt && !(look.knowsMe && m.from == to) && look.lands
                               && (look.setting == Some(true) || (look.setting == None && look.host))
                            then [Message(to, true, look.ackNs)] else []
  {
  }

  /** A delivered receipt is not looked at; any other message is. Opening looks at the newest of the history. */
  lemma EventMeaning(net: Net, to: Side, i: nat, history: seq<nat>, look: Look)
    requires i < |net.log| && forall h :: h in history ==> h < |net.log|
    ensures Apply(net, Deliver(to, i, look)) == if net.log[i].receipt then net else See(net, to, i, look)
    ensures history == [] ==> Apply(net, Open(to, history, look)) == net
    ensures history != [] ==> exists n :: n in history && Apply(net, Open(to, history, look)) == See(net, to, n, look)
                                          && forall h :: h in history ==> net.log[h].sentNs <= net.log[n].sentNs
    ensures Apply(net, Post(to, look.ackNs)) == net.(log := net.log + [Message(to, false, look.ackNs)])
  {
    if history != [] { assert Newest(net.log, history) in history; }
  }

  /** A receipt sent now is for a message that strictly advanced its sender's watermark. */
  lemma ReceiptsAdvance(net: Net, to: Side, i: nat, look: Look)
    requires i < |net.log| && |See(net, to, i, look).log| > |net.log|
    ensures var net' := See(net, to, i, look);
      && net'.log == net.log + [Message(to, true, look.ackNs)] && net'.paidFor[|net.log|] == i
      && !net.log[i].receipt && MarkOf(net, to) < net.log[i].sentNs == MarkOf(net', to)
  {
  }

  lemma MarksOnlyRise(net: Net, to: Side, i: nat, look: Look, side: Side)
    requires i < |net.log|
    ensures MarkOf(net, side) <= MarkOf(See(net, to, i, look), side)
  {
  }

  lemma InvSee(net: Net, to: Side, i: nat, look: Look)
    requires Inv(net) && i < |net.log|
    ensures Inv(See(net, to, i, look))
  {
    var net' := See(net, to, i, look);
    MarksOnlyRise(net, to, i, look, Left);
    MarksOnlyRise(net, to, i, look, Right);
    forall r | r in net.paidFor ensures PaidFor(net', r) && net'.paidFor[r] == net.paidFor[r] {
      assert PaidFor(net, r);
    }
    if |net'.log| > |net.log| {
      ReceiptsAdvance(net, to, i, look);
      assert PaidFor(net', |net.log|);
      forall r | r in net.paidFor && net.log[r].from == to ensures net.paidFor[r] != i {
        assert PaidFor(net, r);
      }
    }
    forall r: nat | r < |net'.log| && net'.log[r].receipt ensures PaidFor(net', r) {
      if r < |net.log| { assert net.log[r] == net'.log[r] && PaidFor(net, r); }
    }
  }

  lemma InvPost(net: Net, from: Side, ns: int)
    requires Inv(net)
    ensures Inv(Apply(net, Post(from, ns)))
  {
    var net' := Apply(net, Post(from, ns));
    forall r | r in net.paidFor ensures PaidFor(net', r) {
      assert PaidFor(net, r);
    }
    forall r: nat | r < |net'.log| && net'.log[r].receipt ensures PaidFor(net', r) {
      assert net.log[r] == net'.log[r] && PaidFor(net, r);
    }
  }

  lemma InvStep(net: Net, e: Event, net': Net)
    requires Inv(net) && StepTo(net, e, net')
    ensures Inv(net')
  {
    match e
    case Post(from, ns) => InvPost(net, from, ns);
    case Deliver(to, i, look) => if !net.log[i].receipt { InvSee(net, to, i, look); }
    case Open(to, history, look) => if history != [] { InvSee(net, to, Newest(net.log, history), look); }
  }

  const EMPTY := Net([], 0, 0, map[], {})

  ghost predicate Reaches(es: seq<Event>, net: Net) {
    Run(StepTo, EMPTY, es, net)
  }

  lemma ReachableInv(es: seq<Event>, net: Net)
    requires Reaches(es, net)
    ensures Inv(net)
  {
    var step := StepTo;
    forall a: Net, e: Event, b: Net | Inv(a) && step(a, e, b) ensures Inv(b) {
      assert step(a, e, b) == StepTo(a, e, b);
      InvStep(a, e, b);
    }
    RunInduction(step, (s: Net) => Inv(s), EMPTY, es, net);
  }

  ghost function ReceiptsOf(net: Net, side: Side): set<nat> {
    set r: nat | r in Below(|net.log|) && net.log[r].receipt && net.log[r].from == side
  }

  ghost function ContentOf(net: Net, side: Side): set<nat> {
    set r: nat | r in Below(|net.log|) && !net.log[r].receipt && net.log[r].from == side
  }

  function Other(side: Side): Side {
    if side == Left then Right else Left
  }

  /** In every run a side that always knew its inbox id has sent at most one receipt for each of the
      counterparty's messages, receipts not counted among them: two clients cannot answer each other forever. */
  lemma ReceiptsAreBounded(es: seq<Event>, net: Net, side: Side)
    requires Reaches(es, net) && side !in net.blind
    ensures |ReceiptsOf(net, side)| <= |ContentOf(net, Other(side))|
  {
    ReachableInv(es, net);
    var to := (r: nat, m: nat) => r in net.paidFor && net.paidFor[r] == m;
    forall r | r in ReceiptsOf(net, side) ensures exists m :: m in ContentOf(net, Other(side)) && to(r, m) {
      assert PaidFor(net, r);
      assert to(r, net.paidFor[r]);
    }
    InjectionCount(ReceiptsOf(net, side), ContentOf(net, Other(side)), to);
  }

  /** A side that at times did not know itself may answer its own messages too, but still each message once. */
  lemma BlindReceiptsAreBounded(es: seq<Event>, net: Net, side: Side)
    requires Reaches(es, net)
    ensures |ReceiptsOf(net, side)| <= |ContentOf(net, Left) + ContentOf(net, Right)|
  {
    ReachableInv(es, net);
    var to := (r: nat, m: nat) => r in net.paidFor && net.paidFor[r] == m;
    var content := ContentOf(net, Left) + ContentOf(net, Right);
    forall r | r in ReceiptsOf(net, side) ensures exists m :: m in content && to(r, m) {
      assert PaidFor(net, r);
      assert to(r, net.paidFor[r]);
    }
    InjectionCount(ReceiptsOf(net, side), content, to);
  }

  function Posts(es: seq<Event>): nat {
    if es == [] then 0 else (if es[0].Post? then 1 else 0) + Posts(es[1..])
  }

  /** Every message that is not a receipt. */
  ghost function Content(net: Net): set<nat> {
    set r: nat | r in Below(|net.log|) && !net.log[r].receipt
  }

  lemma ContentSnoc(net: Net, net': Net, m: Message)
    requires net'.log == net.log + [m]
    ensures Content(net') == Content(net) + if m.receipt then {} else {|net.log|}
  {
    forall r: nat ensures r in Content(net') <==> r in Content(net) || (r == |net.log| && !m.receipt) {
      if r < |net.log| { assert net'.log[r] == net.log[r]; }
    }
  }

  lemma StepContent(net: Net, e: Event, net': Net)
    requires StepTo(net, e, net')
    ensures |Content(net')| == |Content(net)| + if e.Post? then 1 else 0
  {
    if |net'.log| > |net.log| {
      ContentSnoc(net, net', net'.log[|net.log|]);
    }
  }

  lemma {:induction false} ContentIsPosted(net: Net, es: seq<Event>, net': Net)
    requires Run(StepTo, net, es, net')
    ensures |Content(net')| == |Content(net)| + Posts(es)
    decreases |es|
  {
    if es != [] {
      var step := StepTo;
      var mid :| step(net, es[0], mid) && Run(step, mid, es[1..], net');
      assert step(net, es[0], mid) == StepTo(net, es[0], mid);
      StepContent(net, es[0], mid);
      ContentIsPosted(mid, es[1..], net');
    }
  }

  lemma DisjointCount(a: set<nat>, b: set<nat>)
    requires a !! b
    ensures |a + b| == |a| + |b|
  {
  }

  lemma ContentSplits(net: Net)
    ensures |Content(net)| == |ContentOf(net, Left)| + |ContentOf(net, Right)|
  {
    DisjointCount(ContentOf(net, Left), ContentOf(net, Right));
    assert Content(net) == ContentOf(net, Left) + ContentOf(net, Right);
  }

  lemma LogSplits(net: Net)
    ensures |net.log| == |ReceiptsOf(net, Left)| + |ReceiptsOf(net, Right)| + |Content(net)|
  {
    var l, r := ReceiptsOf(net, Left), ReceiptsOf(net, Right);
    BelowCount(|net.log|);
    EveryMessageIsOne(net);
    ThreePartCount(l, r, Content(net));
  }

  lemma EveryMessageIsOne(net: Net)
    ensures ReceiptsOf(net, Left) !! ReceiptsOf(net, Right) !! Content(net)
    ensures Below(|net.log|) == ReceiptsOf(net, Left) + ReceiptsOf(net, Right) + Content(net)
  {
  }

  lemma ThreePartCount(a: set<nat>, b: set<nat>, c: set<nat>)
    requires a !! b !! c
    ensures |a + b + c| == |a| + |b| + |c|
  {
    DisjointCount(a, b);
    DisjointCount(a + b, c);
  }

  /** However often things are opened, delivered and redelivered: a run in which n messages were posted has
      at most n receipts in its log. */
  lemma RunsAreFinite(es: seq<Event>, net: Net)
    requires Reaches(es, net) && net.blind == {}
    ensures |ReceiptsOf(net, Left)| + |ReceiptsOf(net, Right)| <= Posts(es)
    ensures |net.log| <= 2 * Posts(es)
  {
    ReceiptsAreBounded(es, net, Left);
    ReceiptsAreBounded(es, net, Right);
    ContentIsPosted(EMPTY, es, net);
    assert Content(EMPTY) == {};
    ContentSplits(net);
    LogSplits(net);
  }
}
