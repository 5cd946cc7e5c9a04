/** What a prefix of a reconcile's commits has done, seat by seat and role by role. */
module GroupCommits {
  import opened Lists
  import opened GroupReconcile

  predicate IsRoleCommit(c: Commit) {
    !c.AddMembers? && !c.RemoveMembers?
  }

  lemma {:induction false} CommitAllAppend(env: Env, g: Group, a: seq<Commit>, b: seq<Commit>)
    ensures CommitAll(env, g, a + b) == CommitAll(env, CommitAll(env, g, a), b)
    decreases |a|
  {
    if a == [] {
      assert a + b == b;
    } else {
      assert (a + b)[1..] == a[1..] + b;
      CommitAllAppend(env, Commit1(env, g, a[0]), a[1..], b);
    }
  }

  lemma {:induction false} RoleCommitsKeepSeats(env: Env, g: Group, cs: seq<Commit>)
    requires forall c :: c in cs ==> IsRoleCommit(c)
    ensures CommitAll(env, g, cs).seats == g.seats
    decreases |cs|
  {
    if cs != [] {
      assert cs[0] in cs;
      RoleCommitsKeepSeats(env, Commit1(env, g, cs[0]), cs[1..]);
    }
  }

  // ----- one inbox's place in the two role sets -----

  datatype Standing = Standing(admin: bool, super: bool)

  function StandingOf(g: Group, i: Inbox): Standing {
    Standing(i in g.admins, i in g.supers)
  }

  function RoleIn(st: Standing): Role {
    if st.super then SuperAdmin else if st.admin then Admin else PlainMember
  }

  function Stand(st: Standing, c: Commit): Standing {
    match c
    case AddSuper(_) => st.(super := true)
    case RemoveSuper(_) => st.(super := false)
    case AddAdmin(_) => st.(admin := true)
    case RemoveAdmin(_) => st.(admin := false)
    case _ => st
  }

  function StandAll(st: Standing, cs: seq<Commit>): Standing
    decreases |cs|
  {
    if cs == [] then st else StandAll(Stand(st, cs[0]), cs[1..])
  }

  /** The role steps a seat in this standing is due. */
  function Due(env: Env, seat: Seat, st: Standing): seq<Commit> {
    match Goal(env, seat, RoleIn(st))
    case None => []
    case Some(t) => RoleSteps(seat.inbox, RoleIn(st), t)
  }

  /** Commits about an inbox act on its standing, commits about others do not. */
  lemma {:induction false} OwnCommits(env: Env, g: Group, cs: seq<Commit>, i: Inbox)
    requires forall c :: c in cs ==> IsRoleCommit(c) && c.inbox == i
    ensures StandingOf(CommitAll(env, g, cs), i) == StandAll(StandingOf(g, i), cs)
    decreases |cs|
  {
    if cs != [] {
      assert cs[0] in cs;
      OwnCommits(env, Commit1(env, g, cs[0]), cs[1..], i);
    }
  }

  lemma {:induction false} OtherCommits(env: Env, g: Group, cs: seq<Commit>, i: Inbox)
    requires forall c :: c in cs ==> IsRoleCommit(c) && c.inbox != i
    ensures StandingOf(CommitAll(env, g, cs), i) == StandingOf(g, i)
    decreases |cs|
  {
    if cs != [] {
      assert cs[0] in cs;
      OtherCommits(env, Commit1(env, g, cs[0]), cs[1..], i);
    }
  }

  lemma StepsAreOwn(env: Env, g: Group, seat: Seat)
    ensures SeatSteps(env, g, seat) == Due(env, seat, StandingOf(g, seat.inbox))
    ensures forall c :: c in SeatSteps(env, g, seat) ==> IsRoleCommit(c) && c.inbox == seat.inbox
  {
  }

  lemma {:induction false} RolePlanIsOfSeats(env: Env, g: Group, seats: seq<Seat>)
    ensures forall c :: c in RolePlan(env, g, seats) ==> IsRoleCommit(c) && exists s :: s in seats && s.inbox == c.inbox
    decreases |seats|
  {
    if seats != [] {
      StepsAreOwn(env, g, seats[0]);
      RolePlanIsOfSeats(env, g, seats[1..]);
      assert seats == [seats[0]] + seats[1..];
    }
  }

  /** How many of a seat's own steps the first `k` commits of the role plan hold. */
  function StepsDone(env: Env, g: Group, seats: seq<Seat>, k: nat, seat: Seat): nat
    decreases |seats|
  {
    if seats == [] then 0
    else
      var n := |SeatSteps(env, g, seats[0])|;
      if seat == seats[0] then if k <= n then k else n
      else if k <= n then 0 else StepsDone(env, g, seats[1..], k - n, seat)
  }

  lemma {:induction false} StepsDoneGrows(env: Env, g: Group, seats: seq<Seat>, k: nat, k': nat, seat: Seat)
    requires k <= k' && seat in seats
    ensures StepsDone(env, g, seats, k, seat) <= StepsDone(env, g, seats, k', seat) <= |SeatSteps(env, g, seat)|
    decreases |seats|
  {
    var n := |SeatSteps(env, g, seats[0])|;
    assert seats == [seats[0]] + seats[1..];
    if seat != seats[0] {
      StepsDoneGrows(env, g, seats[1..], if k <= n then 0 else k - n, if k' <= n then 0 else k' - n, seat);
    }
  }

  /** The steps of the first seat and of the later seats concern different inboxes. */
  lemma LaterSeatsAreOthers(env: Env, g: Group, seats: seq<Seat>)
    requires DistinctSeats(seats) && seats != []
    ensures DistinctSeats(seats[1..])
    ensures forall s :: s in seats[1..] ==> s.inbox != seats[0].inbox
    ensures forall c :: c in RolePlan(env, g, seats[1..]) ==> IsRoleCommit(c) && c.inbox != seats[0].inbox
  {
    forall s | s in seats[1..] ensures s.inbox != seats[0].inbox {
      var p :| 0 <= p < |seats[1..]| && seats[1..][p] == s;
      assert Apart(seats[0], seats[p + 1]);
    }
    forall a, b | 0 <= a < b < |seats[1..]| ensures Apart(seats[1..][a], seats[1..][b]) {
      assert Apart(seats[a + 1], seats[b + 1]);
    }
    RolePlanIsOfSeats(env, g, seats[1..]);
  }

  lemma OwnThenOthers(env: Env, h: Group, own: seq<Commit>, others: seq<Commit>, i: Inbox)
    requires forall c :: c in own ==> IsRoleCommit(c) && c.inbox == i
    requires forall c :: c in others ==> IsRoleCommit(c) && c.inbox != i
    ensures StandingOf(CommitAll(env, h, own + others), i) == StandAll(StandingOf(h, i), own)
  {
    CommitAllAppend(env, h, own, others);
    OwnCommits(env, h, own, i);
    OtherCommits(env, CommitAll(env, h, own), others, i);
  }

  lemma OthersThenAny(env: Env, h: Group, others: seq<Commit>, rest: seq<Commit>, i: Inbox)
    requires forall c :: c in others ==> IsRoleCommit(c) && c.inbox != i
    ensures CommitAll(env, h, others + rest) == CommitAll(env, CommitAll(env, h, others), rest)
    ensures StandingOf(CommitAll(env, h, others), i) == StandingOf(h, i)
  {
    CommitAllAppend(env, h, others, rest);
    OtherCommits(env, h, others, i);
  }

  lemma {:induction false} AllStepsDone(env: Env, g: Group, seats: seq<Seat>, seat: Seat)
    requires seat in seats
    ensures StepsDone(env, g, seats, |RolePlan(env, g, seats)|, seat) == |SeatSteps(env, g, seat)|
    decreases |seats|
  {
    assert seats == [seats[0]] + seats[1..];
    if seat != seats[0] {
      AllStepsDone(env, g, seats[1..], seat);
      NothingDone(env, g, seats[1..], seat);
    }
  }

  lemma PrefixOfBoth(a: seq<Commit>, b: seq<Commit>, k: nat)
    requires k <= |a + b|
    ensures (a + b)[..k] == a[..if k <= |a| then k else |a|] + b[..if k <= |a| then 0 else k - |a|]
  {
  }

  /** The first `k` commits of the plan: first ones of the first seat, then some of the later seats. */
  lemma RolePlanSplits(env: Env, g: Group, seats: seq<Seat>, k: nat) returns (head: seq<Commit>, tail: seq<Commit>)
    requires DistinctSeats(seats) && seats != [] && k <= |RolePlan(env, g, seats)|
    ensures RolePlan(env, g, seats)[..k] == head + tail
    ensures var n := |SeatSteps(env, g, seats[0])|;
      && head == SeatSteps(env, g, seats[0])[..if k <= n then k else n]
      && tail == RolePlan(env, g, seats[1..])[..if k <= n then 0 else k - n]
    ensures forall c :: c in head ==> IsRoleCommit(c) && c.inbox == seats[0].inbox
    ensures forall c :: c in tail ==> IsRoleCommit(c) && c.inbox != seats[0].inbox
  {
    var first, rest := SeatSteps(env, g, seats[0]), RolePlan(env, g, seats[1..]);
    var k0 := if k <= |first| then k else |first|;
    head, tail := first[..k0], rest[..k - k0];
    assert RolePlan(env, g, seats) == first + rest;
    PrefixOfBoth(first, rest, k);
    SeatsDoNotMix(env, g, seats, head, tail);
  }

  lemma SeatsDoNotMix(env: Env, g: Group, seats: seq<Seat>, head: seq<Commit>, tail: seq<Commit>)
    requires DistinctSeats(seats) && seats != []
    requires head <= SeatSteps(env, g, seats[0]) && tail <= RolePlan(env, g, seats[1..])
    ensures forall c :: c in head ==> IsRoleCommit(c) && c.inbox == seats[0].inbox
    ensures forall c :: c in tail ==> IsRoleCommit(c) && c.inbox != seats[0].inbox
  {
    var first, rest := SeatSteps(env, g, seats[0]), RolePlan(env, g, seats[1..]);
    StepsAreOwn(env, g, seats[0]);
    LaterSeatsAreOthers(env, g, seats);
    forall c | c in head ensures c in first {}
    forall c | c in tail ensures c in rest {}
  }

  /** After any prefix of the role plan, read off the snapshot `g` but landing on `h`, a seat has had
      its first steps and nothing else. */
  lemma {:induction false} RolePrefix(env: Env, g: Group, h: Group, seats: seq<Seat>, k: nat, seat: Seat)
    requires DistinctSeats(seats) && seat in seats && k <= |RolePlan(env, g, seats)|
    requires StepsDone(env, g, seats, k, seat) <= |SeatSteps(env, g, seat)|
    ensures StandingOf(CommitAll(env, h, RolePlan(env, g, seats)[..k]), seat.inbox)
         == StandAll(StandingOf(h, seat.inbox), SeatSteps(env, g, seat)[..StepsDone(env, g, seats, k, seat)])
    decreases |seats|
  {
    var head, tail := RolePlanSplits(env, g, seats, k);
    if seat == seats[0] {
      OwnThenOthers(env, h, head, tail, seat.inbox);
    } else {
      RolePrefixLater(env, g, h, seats, k, seat, head, tail);
    }
  }

  lemma {:induction false} RolePrefixLater(env: Env, g: Group, h: Group, seats: seq<Seat>, k: nat, seat: Seat,
                                           head: seq<Commit>, tail: seq<Commit>)
    requires DistinctSeats(seats) && seat in seats && seat != seats[0]
    requires forall c :: c in head ==> IsRoleCommit(c) && c.inbox == seats[0].inbox
    requires var n := |SeatSteps(env, g, seats[0])|;
      k <= n + |RolePlan(env, g, seats[1..])| && tail == RolePlan(env, g, seats[1..])[..if k <= n then 0 else k - n]
    requires StepsDone(env, g, seats, k, seat) <= |SeatSteps(env, g, seat)|
    ensures StandingOf(CommitAll(env, h, head + tail), seat.inbox)
         == StandAll(StandingOf(h, seat.inbox), SeatSteps(env, g, seat)[..StepsDone(env, g, seats, k, seat)])
    decreases |seats|, 0
  {
    assert seats == [seats[0]] + seats[1..];
    LaterSeatsAreOthers(env, g, seats);
    OthersThenAny(env, h, head, tail, seat.inbox);
    NothingDone(env, g, seats[1..], seat);
    var n := |SeatSteps(env, g, seats[0])|;
    RolePrefix(env, g, CommitAll(env, h, head), seats[1..], if k <= n then 0 else k - n, seat);
  }

  lemma {:induction false} NothingDone(env: Env, g: Group, seats: seq<Seat>, seat: Seat)
    ensures StepsDone(env, g, seats, 0, seat) == 0
    decreases |seats|
  {
    if seats != [] { NothingDone(env, g, seats[1..], seat); }
  }

  // ----- the two membership commits -----

  /** The seats an addition brings: exactly the final members the group has no address of yet. */
  lemma NewSeats(env: Env, g: Group)
    ensures forall s :: s in SeatsOf(ToAdd(env, g), env.reach) <==> InFinal(env, g, s) && !HasAddress(g.seats, s.address)
  {
    var add := ToAdd(env, g);
    var added := SeatsOf(add, env.reach);
    forall s ensures s in added <==> InFinal(env, g, s) && !HasAddress(g.seats, s.address) {
      if InFinal(env, g, s) && !HasAddress(g.seats, s.address) {
        assert s.address in add;
        var i :| 0 <= i < |add| && add[i] == s.address;
        assert added[i] == s;
      }
      if s in added {
        var i :| 0 <= i < |add| && added[i] == s;
        assert add[i] in Missing(env, g);
      }
    }
  }

  lemma AddedSeats(env: Env, g: Group)
    requires Sound(env, g)
    ensures var h := Commit1(env, g, AddMembers(ToAdd(env, g)));
      && (forall s :: s in h.seats <==> s in g.seats || (InFinal(env, g, s) && !HasAddress(g.seats, s.address)))
      && Sound(env, h)
  {
    NewSeats(env, g);
    NewSeatsApart(env, g);
  }

  lemma NewSeatsApart(env: Env, g: Group)
    requires Sound(env, g)
    ensures DistinctSeats(g.seats + SeatsOf(ToAdd(env, g), env.reach))
  {
    var added := SeatsOf(ToAdd(env, g), env.reach);
    var all := g.seats + added;
    NewSeats(env, g);
    AddIsDistinct(env, g);
    forall i, j | 0 <= i < j < |all| ensures Apart(all[i], all[j]) {
      if j >= |g.seats| {
        assert all[j] == added[j - |g.seats|] && all[j] in added;
        if i >= |g.seats| {
          assert all[i] == added[i - |g.seats|] && all[i] in added;
        } else {
          assert all[i] in g.seats;
        }
      }
    }
  }

  lemma AddIsDistinct(env: Env, g: Group)
    requires Distinct(env.wanted)
    ensures Distinct(ToAdd(env, g))
  {
    var differ := (a: string, b: string) => a != b;
    assert Pairwise(env.wanted, differ);
    FilterKeepsPairs(env.wanted, (a: string) => !HasAddress(g.seats, a), differ);
    FilterKeepsPairs(Missing(env, g), (a: string) => a in env.reach, differ);
    forall i, j | 0 <= i < j < |ToAdd(env, g)| ensures ToAdd(env, g)[i] != ToAdd(env, g)[j] {
      assert differ(ToAdd(env, g)[i], ToAdd(env, g)[j]);
    }
  }

  /** Removing, from `h`, the addresses `g` says should go; `h` is `g`, with or without the additions. */
  lemma RemovedSeats(env: Env, g: Group, h: Group)
    requires Sound(env, g) && Sound(env, h)
    requires forall s :: s in g.seats ==> s in h.seats
    requires forall s :: s in h.seats ==> s in g.seats || s.address in env.wanted
    ensures var r := Commit1(env, h, RemoveMembers(ToRemove(env, g)));
      && (forall s :: s in r.seats <==> s in h.seats && Stays(env, s))
      && Sound(env, r)
  {
    var go := ToRemove(env, g);
    var r := Commit1(env, h, RemoveMembers(go));
    forall s | s in h.seats ensures s.address in go <==> !Stays(env, s) {
      var out := Filter(g.seats, (s: Seat) => !Stays(env, s));
      if !Stays(env, s) {
        assert s in out;
        var i :| 0 <= i < |out| && out[i] == s;
        assert go[i] == s.address;
      }
      if s.address in go {
        var i :| 0 <= i < |go| && go[i] == s.address;
        assert out[i] in out && out[i] in h.seats;
        SameAddressSameSeat(h.seats, s, out[i]);
      }
    }
    FilterKeepsPairs(h.seats, (s: Seat) => s.address !in go, Apart);
    forall i, j | 0 <= i < j < |r.seats| ensures Apart(r.seats[i], r.seats[j]) {
      assert Pairwise(r.seats, Apart);
    }
  }

  lemma SameAddressSameSeat(seats: seq<Seat>, s: Seat, t: Seat)
    requires DistinctSeats(seats) && s in seats && t in seats && s.address == t.address != ""
    ensures s == t
  {
    var i :| 0 <= i < |seats| && seats[i] == s;
    var j :| 0 <= j < |seats| && seats[j] == t;
    assert i < j ==> Apart(s, t);
    assert j < i ==> Apart(t, s);
  }

  /** Nobody who stays is gone, only wanted, reachable addresses came in, and finishing from here leads to
      the same members. */
  ghost predicate StillOn(env: Env, g: Group, h: Group) {
    && Sound(env, h)
    && (forall s :: s in g.seats && Stays(env, s) ==> s in h.seats)
    && (forall s :: s in h.seats ==> s in g.seats || InFinal(env, g, s))
    && (forall s :: InFinal(env, h, s) <==> InFinal(env, g, s))
  }

  /** A partly or wholly repeopled group, its roles still untouched. */
  ghost predicate OnTheWay(env: Env, g: Group, h: Group) {
    StillOn(env, g, h) && h.admins == g.admins && h.supers == g.supers
  }

  lemma AddOnTheWay(env: Env, g: Group)
    requires Sound(env, g)
    ensures OnTheWay(env, g, Commit1(env, g, AddMembers(ToAdd(env, g))))
  {
    AddedSeats(env, g);
    var h := Commit1(env, g, AddMembers(ToAdd(env, g)));
    forall s ensures InFinal(env, h, s) <==> InFinal(env, g, s) {
      if s.address in env.reach {
        var t := Seat(env.reach[s.address], s.address);
        if s.address in env.wanted && !HasAddress(g.seats, s.address) {
          assert InFinal(env, g, t) && t in h.seats;
        }
      }
    }
  }

  /** Once the removals have landed, exactly the final members sit. */
  lemma RemoveOnTheWay(env: Env, g: Group, h: Group)
    requires Sound(env, g) && OnTheWay(env, g, h) && (forall s :: s in g.seats ==> s in h.seats)
    requires forall s :: InFinal(env, g, s) ==> s in h.seats
    ensures var r := Commit1(env, h, RemoveMembers(ToRemove(env, g)));
      OnTheWay(env, g, r) && forall s :: s in r.seats <==> InFinal(env, g, s)
  {
    RemovedSeats(env, g, h);
    var r := Commit1(env, h, RemoveMembers(ToRemove(env, g)));
    forall s | InFinal(env, r, s) ensures InFinal(env, g, s) {
      assert forall u :: u in g.seats && u.address == s.address && Stays(env, u) ==> u in r.seats;
      assert s !in r.seats ==> !HasAddress(g.seats, s.address);
    }
  }
}
