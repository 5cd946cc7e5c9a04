/** The reconcile as it runs: commits that may fail, and may have landed when they do. */
module GroupSession {
  import opened GroupReconcile
  import opened GroupCommits
  import opened GroupTheorems
  import opened RosterOutcome

  datatype Outcome = Done(result: ReconcileResult) | Failed

  class SdkGroup {
    var seats: seq<Seat>
    var admins: set<Inbox>
    var supers: set<Inbox>

    constructor (g: Group)
      ensures State() == g
    {
      seats, admins, supers := g.seats, g.admins, g.supers;
    }

    function State(): Group
      reads this
    {
      Group(seats, admins, supers)
    }

    /** One commit. A call that throws may or may not have landed. */
    method Attempt(env: Env, c: Commit) returns (ok: bool, ghost landed: seq<Commit>)
      modifies this
      ensures landed <= [c] && State() == CommitAll(env, old(State()), landed)
      ensures ok ==> landed == [c]
    {
      ok := *;
      var lands: bool := *;
      landed := [];
      if ok || lands {
        var next := Commit1(env, State(), c);
        seats, admins, supers := next.seats, next.admins, next.supers;
        landed := [c];
        assert [c][1..] == [];
      }
    }

    /** Two commits in a row, the second only if the first did not throw. */
    method AttemptBoth(env: Env, c: Commit, d: Commit) returns (ok: bool, ghost landed: seq<Commit>)
      modifies this
      ensures landed <= [c, d] && State() == CommitAll(env, old(State()), landed)
      ensures ok ==> landed == [c, d]
    {
      ok, landed := Attempt(env, c);
      if ok {
        ghost var more;
        ok, more := Attempt(env, d);
        CommitAllAppend(env, old(State()), landed, more);
        landed := landed + more;
      }
    }

    /** Move one member from their current role; `changed` is false when they already hold it. */
    method ApplyRole(env: Env, inbox: Inbox, from: Role, role: Role) returns (ok: bool, changed: bool, ghost landed: seq<Commit>)
      modifies this
      ensures landed <= RoleSteps(inbox, from, role) && State() == CommitAll(env, old(State()), landed)
      ensures ok ==> landed == RoleSteps(inbox, from, role) && changed == (from != role)
    {
      ok, changed, landed := true, false, [];
      if from == role { return; }
      changed := true;
      match role {
        case SuperAdmin =>
          if from == Admin {
            ok, landed := AttemptBoth(env, AddSuper(inbox), RemoveAdmin(inbox));
          } else {
            ok, landed := Attempt(env, AddSuper(inbox));
          }
        case Admin =>
          if from == SuperAdmin {
            ok, landed := AttemptBoth(env, RemoveSuper(inbox), AddAdmin(inbox));
          } else {
            ok, landed := Attempt(env, AddAdmin(inbox));
          }
        case PlainMember =>
          if from == SuperAdmin {
            ok, landed := Attempt(env, RemoveSuper(inbox));
          } else {
            ok, landed := Attempt(env, RemoveAdmin(inbox));
          }
      }
    }

    /** Adds, then removals. */
    method ReconcileMembers(env: Env) returns (ok: bool, ghost landed: seq<Commit>)
      modifies this
      ensures landed <= MemberPlan(env, old(State())) && State() == CommitAll(env, old(State()), landed)
      ensures ok ==> landed == MemberPlan(env, old(State()))
    {
      ghost var g := State();
      var toAdd, toRemove := ToAdd(env, State()), ToRemove(env, State());
      ok, landed := true, [];
      if toAdd != [] {
        ok, landed := Attempt(env, AddMembers(toAdd));
        if !ok { return; }
      }
      if toRemove != [] {
        ghost var more;
        ok, more := Attempt(env, RemoveMembers(toRemove));
        CommitAllAppend(env, g, landed, more);
        landed := landed + more;
      }
    }

    /** One member's role, off the reading `g`. */
    method ReconcileSeat(env: Env, g: Group, seat: Seat) returns (ok: bool, changes: seq<RoleChange>, ghost landed: seq<Commit>)
      modifies this
      ensures landed <= SeatSteps(env, g, seat) && State() == CommitAll(env, old(State()), landed)
      ensures ok ==> landed == SeatSteps(env, g, seat) && changes == SeatChange(env, g, seat)
    {
      ok, changes, landed := true, [], [];
      var goal := Goal(env, seat, RoleOf(g, seat.inbox));
      if goal.None? { return; }
      var changed;
      ok, changed, landed := ApplyRole(env, seat.inbox, RoleOf(g, seat.inbox), goal.value);
      if ok && changed { changes := [RoleChange(seat.address, goal.value)]; }
    }

    /** Roles, off one reading of the group, one member after another. */
    method ReconcileRoles(env: Env) returns (ok: bool, changes: seq<RoleChange>, ghost landed: seq<Commit>)
      modifies this
      ensures var g := old(State());
        && landed <= RolePlan(env, g, g.seats)
        && State() == CommitAll(env, g, landed)
        && (ok ==> landed == RolePlan(env, g, g.seats) && changes == RoleChanges(env, g, g.seats))
    {
      var g := State();
      ok, changes, landed := true, [], [];
      if !env.managesRoles {
        NoRolesNoPlan(env, g, g.seats);
        return;
      }
      var i := 0;
      NobodySeated(env, g);
      while i < |g.seats|
        invariant SeatedUpTo(env, g, i, landed, changes)
        invariant State() == CommitAll(env, g, landed)
      {
        var change;
        ghost var more;
        ok, change, more := ReconcileSeat(env, g, g.seats[i]);
        CommitAllAppend(env, g, landed, more);
        NextSeated(env, g, i, landed, changes, more);
        landed := landed + more;
        if !ok { return; }
        changes := changes + change;
        i := i + 1;
      }
      AllSeated(env, g, landed, changes);
    }

    /** One reconcile: it lands a prefix of the plan, and all of it, reported truly, unless it throws. */
    method ReconcileOnce(env: Env) returns (outcome: Outcome, ghost landed: seq<Commit>)
      modifies this
      ensures landed <= Plan(env, old(State())) && State() == CommitAll(env, old(State()), landed)
      ensures outcome.Done? ==> landed == Plan(env, old(State())) && outcome.result == ResultOf(env, old(State()))
    {
      ghost var g := State();
      var added, removed, unreachable := ToAdd(env, State()), ToRemove(env, State()), Unreachable(env, State());
      outcome, landed := Failed, [];
      var reading: bool := *; // syncing, reading the members, or asking who is reachable may throw
      if !reading { return; }
      var ok;
      ok, landed := ReconcileMembers(env);
      if !ok { return; }
      var rereading: bool := *;
      if !rereading { return; }
      var changes;
      ghost var more;
      ok, changes, more := ReconcileRoles(env);
      CommitAllAppend(env, g, landed, more);
      landed := landed + more;
      if ok {
        outcome := Done(ReconcileResult(added, removed, changes, unreachable, added != [] || removed != [] || changes != []));
      }
    }

    /** At most two reconciles. Success is a whole run from wherever the first one stopped; with nobody
        twice to be demoted that is the outcome of one uninterrupted run, and a double failure is still on the way there. */
    method ReconcileGroupMembers(roster: Roster, me: Inbox, myAddress: string, reach: map<string, Inbox>)
      returns (outcome: Outcome, ghost k: nat)
      modifies this
      ensures var env, g := EnvFor(roster, me, myAddress, reach), old(State());
        && k <= |Plan(env, g)|
        && (outcome.Done? ==>
              State() == Reconciled(env, After(env, g, k)) && outcome.result == ResultOf(env, After(env, g, k)))
        && (outcome.Done? && Sound(env, g) && DemotionsAreSingle(env, g) ==> SameOutcome(State(), Reconciled(env, g)))
        && (outcome.Failed? && Sound(env, g) && DemotionsAreSingle(env, g) ==>
              SameOutcome(Reconciled(env, State()), Reconciled(env, g)))
        && (outcome.Done? && Sound(env, g) && (k == 0 || DemotionsAreSingle(env, g)) ==>
              Met(roster, me, myAddress, reach, g, State()))
        && (outcome.Done? && Sound(env, g) && k == 0 ==> ReportMet(roster, me, myAddress, reach, g, outcome.result))
    {
      var env := EnvFor(roster, me, myAddress, reach);
      ghost var g := State();
      ghost var landed;
      k := 0;
      assert Plan(env, g)[..0] == [];
      outcome, landed := ReconcileOnce(env);
      if outcome.Failed? {
        k := |landed|;
        assert landed == Plan(env, g)[..k];
        var synced: bool := *;
        if synced {
          outcome, landed := ReconcileOnce(env);
        } else {
          landed := [];
        }
      }
      assert landed == Plan(env, After(env, g, k))[..|landed|];
      if Sound(env, g) && DemotionsAreSingle(env, g) {
        if outcome.Done? { FinishedLater(env, g, k); } else { InterruptedAgain(env, g, k, |landed|); }
      }
      if Sound(env, g) && outcome.Done? && (k == 0 || DemotionsAreSingle(env, g)) {
        RunIsMet(roster, me, myAddress, reach, g, k);
      }
    }
  }

  lemma {:induction false} NoRolesNoPlan(env: Env, g: Group, seats: seq<Seat>)
    requires !env.managesRoles
    ensures RolePlan(env, g, seats) == [] && RoleChanges(env, g, seats) == []
    decreases |seats|
  {
    if seats != [] { NoRolesNoPlan(env, g, seats[1..]); }
  }

  /** The seats before the `i`-th have had their steps, and what they changed is reported. */
  ghost predicate SeatedUpTo(env: Env, g: Group, i: nat, landed: seq<Commit>, changes: seq<RoleChange>) {
    && i <= |g.seats|
    && landed + RolePlan(env, g, g.seats[i..]) == RolePlan(env, g, g.seats)
    && changes + RoleChanges(env, g, g.seats[i..]) == RoleChanges(env, g, g.seats)
  }

  lemma NobodySeated(env: Env, g: Group)
    ensures SeatedUpTo(env, g, 0, [], [])
  {
    assert g.seats[0..] == g.seats;
  }

  lemma NextSeated(env: Env, g: Group, i: nat, landed: seq<Commit>, changes: seq<RoleChange>, more: seq<Commit>)
    requires i < |g.seats| && SeatedUpTo(env, g, i, landed, changes) && more <= SeatSteps(env, g, g.seats[i])
    ensures landed + more <= RolePlan(env, g, g.seats)
    ensures more == SeatSteps(env, g, g.seats[i]) ==>
      SeatedUpTo(env, g, i + 1, landed + more, changes + SeatChange(env, g, g.seats[i]))
  {
    var rest := RolePlan(env, g, g.seats[i + 1..]);
    assert g.seats[i..][1..] == g.seats[i + 1..];
    assert landed + (SeatSteps(env, g, g.seats[i]) + rest) == landed + SeatSteps(env, g, g.seats[i]) + rest;
  }

  lemma AllSeated(env: Env, g: Group, landed: seq<Commit>, changes: seq<RoleChange>)
    requires SeatedUpTo(env, g, |g.seats|, landed, changes)
    ensures landed == RolePlan(env, g, g.seats) && changes == RoleChanges(env, g, g.seats)
  {
    assert g.seats[|g.seats|..] == [];
  }
}
