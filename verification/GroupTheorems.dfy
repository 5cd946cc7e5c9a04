/** What a reconcile guarantees after every single commit, and wherever it is interrupted. */
module GroupTheorems {
  import opened Wrappers
  import opened Lists
  import opened GroupReconcile
  import opened GroupCommits

  /** The group after the first `k` commits of a reconcile. */
  function After(env: Env, g: Group, k: nat): Group
    requires k <= |Plan(env, g)|
  {
    CommitAll(env, g, Plan(env, g)[..k])
  }

  /** The roster's addresses not in the group are added or reported unreachable, each once. */
  lemma MissingSplits(env: Env, g: Group)
    requires Distinct(env.wanted)
    ensures multiset(ToAdd(env, g)) + multiset(Unreachable(env, g)) == multiset(Missing(env, g))
    ensures Distinct(ToAdd(env, g))
    ensures forall a :: a in Missing(env, g) <==> a in env.wanted && !HasAddress(g.seats, a)
  {
    var missing := Missing(env, g);
    FilterSplits(missing, (a: string) => a in env.reach, (a: string) => a !in env.reach);
    AddIsDistinct(env, g);
  }

  // ----- membership, commit by commit -----

  lemma EmptyCommits(env: Env, g: Group)
    ensures Commit1(env, g, AddMembers([])) == g
    ensures Commit1(env, g, RemoveMembers([])) == g
  {
    assert g.seats + SeatsOf([], env.reach) == g.seats;
    FilterAll(g.seats, (s: Seat) => s.address !in []);
  }

  /** With the additions landed, and then with the removals too. */
  function Added(env: Env, g: Group): Group {
    Commit1(env, g, AddMembers(ToAdd(env, g)))
  }

  function AddedAndRemoved(env: Env, g: Group): Group {
    Commit1(env, Added(env, g), RemoveMembers(ToRemove(env, g)))
  }

  lemma CommitOneOrTwo(env: Env, g: Group, c: Commit, d: Commit)
    ensures CommitAll(env, g, [c]) == Commit1(env, g, c)
    ensures CommitAll(env, g, [c, d]) == Commit1(env, Commit1(env, g, c), d)
  {
    assert [c][1..] == [] && [d][1..] == [] && [c, d][1..] == [d];
    assert CommitAll(env, Commit1(env, g, c), [d]) == Commit1(env, Commit1(env, g, c), d);
  }

  lemma MemberPlanShape(env: Env, g: Group, k: nat)
    requires k <= |MemberPlan(env, g)|
    ensures var h := CommitAll(env, g, MemberPlan(env, g)[..k]);
      h == if k == |MemberPlan(env, g)| then AddedAndRemoved(env, g) else if k == 1 then Added(env, g) else g
  {
    var add, remove := AddMembers(ToAdd(env, g)), RemoveMembers(ToRemove(env, g));
    EmptyCommits(env, g);
    EmptyCommits(env, Added(env, g));
    CommitOneOrTwo(env, g, add, remove);
    CommitOneOrTwo(env, g, remove, add);
    var plan := MemberPlan(env, g);
    assert plan[..k] == if k == 0 then [] else if k == 1 then [plan[0]] else plan;
  }

  lemma MemberPrefix(env: Env, g: Group, k: nat)
    requires Sound(env, g) && k <= |MemberPlan(env, g)|
    ensures OnTheWay(env, g, CommitAll(env, g, MemberPlan(env, g)[..k]))
    ensures k == |MemberPlan(env, g)| ==> forall s :: s in CommitAll(env, g, MemberPlan(env, g)[..k]).seats <==> InFinal(env, g, s)
  {
    MemberPlanShape(env, g, k);
    AddedSeats(env, g);
    AddOnTheWay(env, g);
    RemoveOnTheWay(env, g, Added(env, g));
  }

  lemma PeopledSeats(env: Env, g: Group)
    requires Sound(env, g)
    ensures OnTheWay(env, g, Peopled(env, g))
    ensures forall s :: s in Peopled(env, g).seats <==> InFinal(env, g, s)
  {
    var m := |MemberPlan(env, g)|;
    assert MemberPlan(env, g)[..m] == MemberPlan(env, g);
    MemberPrefix(env, g, m);
  }

  /** How far along each final seat's role steps are after `k` commits. */
  function RoleProgress(env: Env, g: Group, k: nat, seat: Seat): nat {
    var h, m := Peopled(env, g), |MemberPlan(env, g)|;
    if k <= m then 0 else StepsDone(env, h, h.seats, k - m, seat)
  }

  /** A prefix of the plan is a prefix of the member commits, or all of them and a prefix of the role commits. */
  lemma PlanPrefix(env: Env, g: Group, k: nat)
    requires k <= |Plan(env, g)|
    ensures var h, m := Peopled(env, g), |MemberPlan(env, g)|;
      && (k <= m ==> After(env, g, k) == CommitAll(env, g, MemberPlan(env, g)[..k]))
      && (k >= m ==> After(env, g, k) == CommitAll(env, h, RolePlan(env, h, h.seats)[..k - m]))
  {
    var h, m := Peopled(env, g), |MemberPlan(env, g)|;
    var roles := RolePlan(env, h, h.seats);
    if k <= m {
      assert Plan(env, g)[..k] == MemberPlan(env, g)[..k];
      assert k == m ==> MemberPlan(env, g)[..k] == MemberPlan(env, g);
    } else {
      assert Plan(env, g)[..k] == MemberPlan(env, g) + roles[..k - m];
      CommitAllAppend(env, g, MemberPlan(env, g), roles[..k - m]);
    }
  }

  lemma RolesKeepSeats(env: Env, h: Group, n: nat)
    requires n <= |RolePlan(env, h, h.seats)|
    ensures CommitAll(env, h, RolePlan(env, h, h.seats)[..n]).seats == h.seats
  {
    RolePlanIsOfSeats(env, h, h.seats);
    var tail := RolePlan(env, h, h.seats)[..n];
    forall c | c in tail ensures IsRoleCommit(c) {
      assert c in RolePlan(env, h, h.seats);
    }
    RoleCommitsKeepSeats(env, h, tail);
  }

  lemma SameSeatsStillOn(env: Env, g: Group, h: Group, h': Group)
    requires StillOn(env, g, h) && h.seats == h'.seats
    ensures StillOn(env, g, h')
  {
    forall s ensures InFinal(env, h', s) <==> InFinal(env, h, s) {}
  }

  lemma AfterPrefix(env: Env, g: Group, k: nat)
    requires Sound(env, g) && k <= |Plan(env, g)|
    ensures StillOn(env, g, After(env, g, k))
    ensures k == |Plan(env, g)| ==> forall s :: s in After(env, g, k).seats <==> InFinal(env, g, s)
  {
    PlanPrefix(env, g, k);
    var h, m := Peopled(env, g), |MemberPlan(env, g)|;
    if k < m {
      MemberPrefix(env, g, k);
    } else {
      PeopledSeats(env, g);
      assert StillOn(env, g, h);
      RolesKeepSeats(env, h, k - m);
      SameSeatsStillOn(env, g, h, After(env, g, k));
    }
  }

  /** After `k` commits a final member is part-way through its own role steps. */
  lemma AfterStanding(env: Env, g: Group, k: nat, seat: Seat)
    requires Sound(env, g) && k <= |Plan(env, g)| && InFinal(env, g, seat)
    ensures var st, j := StandingOf(g, seat.inbox), RoleProgress(env, g, k, seat);
      && j <= |Due(env, seat, st)|
      && StandingOf(After(env, g, k), seat.inbox) == StandAll(st, Due(env, seat, st)[..j])
      && (k == |Plan(env, g)| ==> j == |Due(env, seat, st)|)
  {
    var h, m := Peopled(env, g), |MemberPlan(env, g)|;
    PlanPrefix(env, g, k);
    PeopledSeats(env, g);
    if k < m {
      MemberPrefix(env, g, k);
    } else {
      RolesStanding(env, h, k - m, seat);
    }
  }

  lemma RolesStanding(env: Env, h: Group, n: nat, seat: Seat)
    requires DistinctSeats(h.seats) && seat in h.seats && n <= |RolePlan(env, h, h.seats)|
    ensures var st, j := StandingOf(h, seat.inbox), StepsDone(env, h, h.seats, n, seat);
      && j <= |Due(env, seat, st)|
      && StandingOf(CommitAll(env, h, RolePlan(env, h, h.seats)[..n]), seat.inbox) == StandAll(st, Due(env, seat, st)[..j])
      && (n == 0 ==> j == 0)
      && (n == |RolePlan(env, h, h.seats)| ==> j == |Due(env, seat, st)|)
  {
    StepsAreOwn(env, h, seat);
    NothingDone(env, h, h.seats, seat);
    AllStepsDone(env, h, h.seats, seat);
    StepsDoneGrows(env, h, h.seats, n, n, seat);
    RolePrefix(env, h, h, h.seats, n, seat);
  }

  // ----- one seat's steps -----

  /** Neither mine nor in the roster's `protect` list. */
  predicate Unguarded(env: Env, seat: Seat) {
    seat.inbox != env.me && seat.address !in env.protect
  }

  /** A guarded member's rank only rises, step by step. */
  lemma GuardedRises(env: Env, seat: Seat, st: Standing, j: nat, j': nat)
    requires !Unguarded(env, seat) && j <= j' <= |Due(env, seat, st)|
    ensures Rank(RoleIn(StandAll(st, Due(env, seat, st)[..j]))) <= Rank(RoleIn(StandAll(st, Due(env, seat, st)[..j'])))
    ensures seat.inbox == env.me ==> Due(env, seat, st) == []
  {
    var due := Due(env, seat, st);
    StandPrefix(st, due, j);
    StandPrefix(st, due, j');
  }

  /** The first two steps, unrolled. */
  lemma StandPrefix(st: Standing, due: seq<Commit>, j: nat)
    requires j <= |due| <= 2
    ensures StandAll(st, due[..j])
         == if j == 0 then st else if j == 1 then Stand(st, due[0]) else Stand(Stand(st, due[0]), due[1])
  {
    if j == 1 {
      assert due[..j] == [due[0]] && [due[0]][1..] == [];
    } else if j == 2 {
      assert due[..j] == [due[0], due[1]] && [due[0], due[1]][1..] == [due[1]] && [due[1]][1..] == [];
      assert StandAll(Stand(st, due[0]), [due[1]]) == Stand(Stand(st, due[0]), due[1]);
    }
  }

  /** Where a seat's steps take it. */
  function Landing(st: Standing, goal: Option<Role>): Standing {
    if goal.None? || goal.value == RoleIn(st) then st
    else match goal.value
      case SuperAdmin => Standing(false, true)
      case Admin => Standing(true, false)
      case PlainMember => Standing(st.admin && st.super, false)
  }

  lemma DueLands(env: Env, seat: Seat, st: Standing)
    ensures StandAll(st, Due(env, seat, st)) == Landing(st, Goal(env, seat, RoleIn(st)))
  {
    var due := Due(env, seat, st);
    StandPrefix(st, due, |due|);
    assert due[..|due|] == due;
  }

  /** In both role sets, and to be demoted to a plain member. */
  predicate TwiceToDemote(env: Env, seat: Seat, st: Standing) {
    st.admin && st.super && Goal(env, seat, SuperAdmin) == Some(PlainMember)
  }

  /** Interrupting a seat's steps anywhere and then running what is due lands on the same role, and
      nothing is due after a full run, except for a seat in both role sets that is to be demoted. */
  lemma SeatConverges(env: Env, seat: Seat, st: Standing, j: nat)
    requires j <= |Due(env, seat, st)|
    ensures var part := StandAll(st, Due(env, seat, st)[..j]);
            var full := StandAll(st, Due(env, seat, st));
      && (!TwiceToDemote(env, seat, st) ==>
            RoleIn(StandAll(part, Due(env, seat, part))) == RoleIn(full) && Due(env, seat, full) == [])
      && (TwiceToDemote(env, seat, st) ==>
            RoleIn(full) == Admin && RoleIn(StandAll(full, Due(env, seat, full))) == PlainMember && Due(env, seat, full) != [])
  {
    StandPrefix(st, Due(env, seat, st), j);
    var part, full := StandAll(st, Due(env, seat, st)[..j]), StandAll(st, Due(env, seat, st));
    DueLands(env, seat, st);
    DueLands(env, seat, part);
    DueLands(env, seat, full);
  }

  // ----- safety after every commit -----

  /** After every single commit: I sit where I sat with the role I had; a protected member sits, its rank
      no lower than a commit ago; whoever is a member before and after is one now; and whoever came in is
      wanted and reachable. */
  lemma StepwiseSafe(env: Env, g: Group, k: nat)
    requires Sound(env, g) && k < |Plan(env, g)|
    ensures var a, b := After(env, g, k), After(env, g, k + 1);
      && (forall s :: s in g.seats && s.inbox == env.me ==> s in b.seats && RoleOf(b, env.me) == RoleOf(g, env.me))
      && (forall s :: s in g.seats && s.address in env.protect ==>
            s in b.seats && Rank(RoleOf(a, s.inbox)) <= Rank(RoleOf(b, s.inbox)))
      && (forall s :: s in g.seats && s in Reconciled(env, g).seats ==> s in b.seats)
      && (forall s :: s in b.seats && s !in g.seats ==>
            s.address in env.wanted && s.address in env.reach && !HasAddress(g.seats, s.address))
  {
    var a, b := After(env, g, k), After(env, g, k + 1);
    AfterPrefix(env, g, k);
    AfterPrefix(env, g, k + 1);
    ReconciledSeats(env, g);
    forall s | s in g.seats && !Unguarded(env, s)
      ensures Stays(env, s) ==> Rank(RoleOf(a, s.inbox)) <= Rank(RoleOf(b, s.inbox))
      ensures s.inbox == env.me ==> RoleOf(b, env.me) == RoleOf(g, env.me)
    {
      if Stays(env, s) { GuardedAfter(env, g, k, s); }
    }
    forall s | s in g.seats && s in Reconciled(env, g).seats ensures s in b.seats {
      assert InFinal(env, g, s);
      assert !HasAddress(g.seats, s.address) ==> s !in g.seats;
    }
  }

  /** Additions come first: once anyone is gone, every final member sits, so the group is never emptied. */
  lemma NobodyLeavesBeforeAllCame(env: Env, g: Group, k: nat, gone: Seat)
    requires Sound(env, g) && k <= |Plan(env, g)| && gone in g.seats && gone !in After(env, g, k).seats
    ensures forall s :: InFinal(env, g, s) ==> s in After(env, g, k).seats
  {
    PlanPrefix(env, g, k);
    var h, m := Peopled(env, g), |MemberPlan(env, g)|;
    if k < m {
      MemberPlanShape(env, g, k);
      AddedSeats(env, g);
    } else {
      PeopledSeats(env, g);
      RolesKeepSeats(env, h, k - m);
    }
  }

  lemma GuardedAfter(env: Env, g: Group, k: nat, s: Seat)
    requires Sound(env, g) && k < |Plan(env, g)| && s in g.seats && Stays(env, s) && !Unguarded(env, s)
    ensures Rank(RoleOf(After(env, g, k), s.inbox)) <= Rank(RoleOf(After(env, g, k + 1), s.inbox))
    ensures s.inbox == env.me ==> RoleOf(After(env, g, k + 1), s.inbox) == RoleOf(g, s.inbox)
  {
    var st := StandingOf(g, s.inbox);
    var j, j' := RoleProgress(env, g, k, s), RoleProgress(env, g, k + 1, s);
    AfterStanding(env, g, k, s);
    AfterStanding(env, g, k + 1, s);
    ProgressGrows(env, g, k, s);
    GuardedRises(env, s, st, j, j');
  }

  lemma ProgressGrows(env: Env, g: Group, k: nat, s: Seat)
    requires Sound(env, g) && InFinal(env, g, s)
    ensures RoleProgress(env, g, k, s) <= RoleProgress(env, g, k + 1, s)
  {
    var h, m := Peopled(env, g), |MemberPlan(env, g)|;
    PeopledSeats(env, g);
    if k > m { StepsDoneGrows(env, h, h.seats, k - m, k + 1 - m, s); }
  }

  lemma ReconciledSeats(env: Env, g: Group)
    requires Sound(env, g)
    ensures Sound(env, Reconciled(env, g))
    ensures forall s :: s in Reconciled(env, g).seats <==> InFinal(env, g, s)
    ensures forall s :: InFinal(env, Reconciled(env, g), s) <==> InFinal(env, g, s)
  {
    var n := |Plan(env, g)|;
    assert Plan(env, g)[..n] == Plan(env, g);
    AfterPrefix(env, g, n);
  }

  /** The final role of every final member. */
  lemma ReconciledStanding(env: Env, g: Group, s: Seat)
    requires Sound(env, g) && InFinal(env, g, s)
    ensures var st := StandingOf(g, s.inbox); StandingOf(Reconciled(env, g), s.inbox) == StandAll(st, Due(env, s, st))
  {
    var n := |Plan(env, g)|;
    assert Plan(env, g)[..n] == Plan(env, g);
    AfterStanding(env, g, n, s);
    var due := Due(env, s, StandingOf(g, s.inbox));
    assert due[..|due|] == due;
  }

  // ----- interrupted anywhere, then run again -----

  /** The same members holding the same roles. */
  ghost predicate SameOutcome(a: Group, b: Group) {
    && (forall s :: s in a.seats <==> s in b.seats)
    && (forall s :: s in a.seats ==> RoleOf(a, s.inbox) == RoleOf(b, s.inbox))
  }

  /** Nobody who stays is in both role sets while the roster makes them a plain member. */
  ghost predicate DemotionsAreSingle(env: Env, g: Group) {
    forall s :: InFinal(env, g, s) ==> !TwiceToDemote(env, s, StandingOf(g, s.inbox))
  }

  lemma RerunRole(env: Env, g: Group, k: nat, s: Seat)
    requires Sound(env, g) && k <= |Plan(env, g)| && InFinal(env, g, s) && !TwiceToDemote(env, s, StandingOf(g, s.inbox))
    ensures RoleOf(Reconciled(env, After(env, g, k)), s.inbox) == RoleOf(Reconciled(env, g), s.inbox)
  {
    AfterPrefix(env, g, k);
    AfterStanding(env, g, k, s);
    ReconciledStanding(env, g, s);
    ReconciledStanding(env, After(env, g, k), s);
    SeatConverges(env, s, StandingOf(g, s.inbox), RoleProgress(env, g, k, s));
  }

  lemma RerunMissesTwice(env: Env, g: Group, s: Seat)
    requires Sound(env, g) && InFinal(env, g, s) && TwiceToDemote(env, s, StandingOf(g, s.inbox))
    ensures RoleOf(Reconciled(env, g), s.inbox) == Admin
    ensures RoleOf(Reconciled(env, Reconciled(env, g)), s.inbox) == PlainMember
    ensures Due(env, s, StandingOf(Reconciled(env, g), s.inbox)) != []
  {
    ReconciledSeats(env, g);
    ReconciledStanding(env, g, s);
    ReconciledStanding(env, Reconciled(env, g), s);
    SeatConverges(env, s, StandingOf(g, s.inbox), 0);
  }

  /** Wherever the first run stops, between any two commits, a completed second run reaches the members and
      roles of one uninterrupted run, if and only if nobody in both role sets is to become a plain member. */
  lemma InterruptedRunConverges(env: Env, g: Group)
    requires Sound(env, g)
    ensures (forall k: nat :: k <= |Plan(env, g)| ==> SameOutcome(Reconciled(env, After(env, g, k)), Reconciled(env, g)))
        <==> DemotionsAreSingle(env, g)
  {
    ReconciledSeats(env, g);
    if DemotionsAreSingle(env, g) {
      forall k: nat | k <= |Plan(env, g)|
        ensures SameOutcome(Reconciled(env, After(env, g, k)), Reconciled(env, g))
      {
        AfterPrefix(env, g, k);
        ReconciledSeats(env, After(env, g, k));
        forall s | InFinal(env, g, s)
          ensures RoleOf(Reconciled(env, After(env, g, k)), s.inbox) == RoleOf(Reconciled(env, g), s.inbox)
        {
          RerunRole(env, g, k, s);
        }
      }
    } else {
      var s :| InFinal(env, g, s) && TwiceToDemote(env, s, StandingOf(g, s.inbox));
      var n := |Plan(env, g)|;
      assert Plan(env, g)[..n] == Plan(env, g);
      RerunMissesTwice(env, g, s);
      assert !SameOutcome(Reconciled(env, After(env, g, n)), Reconciled(env, g));
    }
  }

  /** A further run commits nothing, under exactly the same condition. */
  lemma SecondRunIsSilent(env: Env, g: Group)
    requires Sound(env, g)
    ensures Plan(env, Reconciled(env, g)) == [] <==> DemotionsAreSingle(env, g)
  {
    var r := Reconciled(env, g);
    ReconciledSeats(env, g);
    MembersSettled(env, g);
    assert MemberPlan(env, r) == [] && Peopled(env, r) == r;
    if DemotionsAreSingle(env, g) {
      forall s | s in r.seats ensures SeatSteps(env, r, s) == [] {
        ReconciledStanding(env, g, s);
        SeatConverges(env, s, StandingOf(g, s.inbox), 0);
        StepsAreOwn(env, r, s);
      }
      NoStepsNoPlan(env, r, r.seats);
    } else {
      var s :| InFinal(env, g, s) && TwiceToDemote(env, s, StandingOf(g, s.inbox));
      RerunMissesTwice(env, g, s);
      StepsAreOwn(env, r, s);
      StepsMeanPlan(env, r, r.seats, s);
    }
  }

  lemma MembersSettled(env: Env, g: Group)
    requires Sound(env, g)
    ensures MemberPlan(env, Reconciled(env, g)) == []
  {
    var r := Reconciled(env, g);
    ReconciledSeats(env, g);
    forall a | a in Missing(env, r) ensures a !in env.reach {
      assert a in env.reach ==> InFinal(env, r, Seat(env.reach[a], a));
    }
    EmptyIfNone(ToAdd(env, r));
    EmptyIfNone(Filter(r.seats, (s: Seat) => !Stays(env, s)));
  }

  lemma {:induction false} NoStepsNoPlan(env: Env, g: Group, seats: seq<Seat>)
    requires forall s :: s in seats ==> SeatSteps(env, g, s) == []
    ensures RolePlan(env, g, seats) == []
    decreases |seats|
  {
    if seats != [] {
      NoStepsNoPlan(env, g, seats[1..]);
    }
  }

  lemma {:induction false} StepsMeanPlan(env: Env, g: Group, seats: seq<Seat>, s: Seat)
    requires s in seats && SeatSteps(env, g, s) != []
    ensures RolePlan(env, g, seats) != []
    decreases |seats|
  {
    assert seats == [seats[0]] + seats[1..];
    if s != seats[0] { StepsMeanPlan(env, g, seats[1..], s); }
  }

  /** The outcome, stated outright: who is a member and, unless twice to be demoted, in what role. */
  lemma ReconciledMeetsRoster(env: Env, g: Group, s: Seat)
    requires Sound(env, g)
    ensures s in Reconciled(env, g).seats <==> InFinal(env, g, s)
    ensures s in Reconciled(env, g).seats && !TwiceToDemote(env, s, StandingOf(g, s.inbox)) ==>
      RoleOf(Reconciled(env, g), s.inbox)
        == var t := Goal(env, s, RoleOf(g, s.inbox)); if t.Some? then t.value else RoleOf(g, s.inbox)
  {
    ReconciledSeats(env, g);
    if InFinal(env, g, s) {
      ReconciledStanding(env, g, s);
      var st := StandingOf(g, s.inbox);
      DueLands(env, s, st);
    }
  }

  // ----- what a reconcile reports -----

  /** `changed` is reported exactly when something is committed. */
  lemma ChangedIffCommitted(env: Env, g: Group)
    ensures ResultOf(env, g).changed <==> Plan(env, g) != []
  {
    var h := Peopled(env, g);
    ChangesFollowSteps(env, h, h.seats);
  }

  lemma {:induction false} ChangesFollowSteps(env: Env, g: Group, seats: seq<Seat>)
    ensures RoleChanges(env, g, seats) == [] <==> RolePlan(env, g, seats) == []
    decreases |seats|
  {
    if seats != [] {
      ChangesFollowSteps(env, g, seats[1..]);
    }
  }

  lemma {:induction false} ReportedChange(env: Env, g: Group, seats: seq<Seat>, c: RoleChange)
    ensures c in RoleChanges(env, g, seats) <==> exists s :: s in seats && SeatChange(env, g, s) == [c]
    decreases |seats|
  {
    if seats != [] {
      assert seats == [seats[0]] + seats[1..];
      ReportedChange(env, g, seats[1..], c);
      assert c in SeatChange(env, g, seats[0]) <==> SeatChange(env, g, seats[0]) == [c];
    }
  }

  lemma ReportedOfSeat(env: Env, g: Group, s: Seat, c: RoleChange)
    requires Sound(env, g) && InFinal(env, g, s) && s.address != "" && c.address == s.address
    ensures c in ResultOf(env, g).roleChanges <==> SeatChange(env, g, s) == [c]
  {
    var h := Peopled(env, g);
    PeopledSeats(env, g);
    ReportedChange(env, h, h.seats, c);
    forall t | t in h.seats && SeatChange(env, h, t) == [c] ensures t == s {
      SameAddressSameSeat(h.seats, s, t);
    }
    assert RoleOf(h, s.inbox) == RoleOf(g, s.inbox);
  }

  /** A reported role is the role held afterwards, except for a member in both role sets made a plain
      member: the report says plain member, the group says admin. */
  lemma ReportIsTrueUnlessTwice(env: Env, g: Group, s: Seat, role: Role)
    requires Sound(env, g) && InFinal(env, g, s) && s.address != ""
    ensures var reported := RoleChange(s.address, role) in ResultOf(env, g).roleChanges;
      if TwiceToDemote(env, s, StandingOf(g, s.inbox))
      then RoleOf(Reconciled(env, g), s.inbox) == Admin && (reported <==> role == PlainMember)
      else reported <==> role == RoleOf(Reconciled(env, g), s.inbox) != RoleOf(g, s.inbox)
  {
    ReconciledStanding(env, g, s);
    DueLands(env, s, StandingOf(g, s.inbox));
    ReportedOfSeat(env, g, s, RoleChange(s.address, role));
  }

  // ----- stopping again -----

  lemma StaysSingle(env: Env, g: Group, k: nat)
    requires Sound(env, g) && DemotionsAreSingle(env, g) && k <= |Plan(env, g)|
    ensures Sound(env, After(env, g, k)) && DemotionsAreSingle(env, After(env, g, k))
  {
    AfterPrefix(env, g, k);
    forall s | InFinal(env, g, s) ensures !TwiceToDemote(env, s, StandingOf(After(env, g, k), s.inbox)) {
      AfterStanding(env, g, k, s);
      StandPrefix(StandingOf(g, s.inbox), Due(env, s, StandingOf(g, s.inbox)), RoleProgress(env, g, k, s));
    }
  }

  /** A run that stopped anywhere, and then one that is through: the outcome of one uninterrupted run. */
  lemma FinishedLater(env: Env, g: Group, k: nat)
    requires Sound(env, g) && DemotionsAreSingle(env, g) && k <= |Plan(env, g)|
    ensures SameOutcome(Reconciled(env, After(env, g, k)), Reconciled(env, g))
  {
    InterruptedRunConverges(env, g);
  }

  /** Interrupted twice, a third run still lands on the same outcome; and so on. */
  lemma InterruptedAgain(env: Env, g: Group, k: nat, j: nat)
    requires Sound(env, g) && DemotionsAreSingle(env, g) && k <= |Plan(env, g)|
    requires j <= |Plan(env, After(env, g, k))|
    ensures SameOutcome(Reconciled(env, After(env, After(env, g, k), j)), Reconciled(env, g))
  {
    StaysSingle(env, g, k);
    InterruptedRunConverges(env, g);
    InterruptedRunConverges(env, After(env, g, k));
  }

  /** What the normalised roster gives the proofs above. */
  lemma RosterIsNormalised(roster: Roster, me: Inbox, myAddress: string, reach: map<string, Inbox>)
    ensures var env := EnvFor(roster, me, myAddress, reach);
      Distinct(env.wanted) && "" !in env.wanted && myAddress !in env.wanted
  {
    NormalizeIsASet(roster.members, myAddress);
  }
}
