/** What a reconcile leaves, told from the roster's own lists and the group's own sets. */
module RosterOutcome {
  import opened Wrappers
  import opened Text
  import opened Lists
  import opened GroupReconcile
  import opened GroupCommits
  import opened GroupTheorems

  /** The list has the address, mine and blanks aside; blanks around an entry and its case do not matter. */
  ghost predicate Names(addresses: seq<string>, mine: string, a: string) {
    a != "" && a != mine && exists i :: 0 <= i < |addresses| && Lower(Trim(addresses[i])) == a
  }

  ghost predicate MayName(addresses: Option<seq<string>>, mine: string, a: string) {
    addresses.Some? && Names(addresses.value, mine, a)
  }

  /** Super admin before admin before member, once either role list is given. */
  ghost function Wanted(roster: Roster, mine: string, a: string): Option<Role> {
    if roster.superAdmins == None && roster.admins == None then None
    else if MayName(roster.superAdmins, mine, a) then Some(SuperAdmin)
    else if MayName(roster.admins, mine, a) then Some(Admin)
    else if Names(roster.members, mine, a) then Some(PlainMember)
    else None
  }

  ghost predicate HasRole(g: Group, i: Inbox, r: Role) {
    match r
    case SuperAdmin => i in g.supers
    case Admin => i in g.admins && i !in g.supers
    case PlainMember => i !in g.admins && i !in g.supers
  }

  ghost predicate Lowers(g: Group, i: Inbox, r: Role) {
    (i in g.supers && r != SuperAdmin) || (i in g.admins && r == PlainMember)
  }

  /** The roster moves this member to role `r`: not me, and a protected one not down. */
  ghost predicate Moves(roster: Roster, me: Inbox, mine: string, g: Group, s: Seat, r: Role) {
    s.inbox != me && Wanted(roster, mine, s.address) == Some(r)
    && !(MayName(roster.protect, mine, s.address) && Lowers(g, s.inbox, r))
  }

  ghost predicate Sits(roster: Roster, me: Inbox, mine: string, reach: map<string, Inbox>, g: Group, s: Seat) {
    || (s in g.seats && (s.inbox == me || s.address == "" || Names(roster.members, mine, s.address)
                         || MayName(roster.protect, mine, s.address)))
    || (Names(roster.members, mine, s.address) && s.address in reach && s.inbox == reach[s.address]
        && forall t :: t in g.seats ==> t.address != s.address)
  }

  /** In both role sets, and to become a plain member. */
  ghost predicate Twice(roster: Roster, me: Inbox, mine: string, g: Group, s: Seat) {
    s.inbox in g.supers && s.inbox in g.admins && Moves(roster, me, mine, g, s, PlainMember)
  }

  /** The role each member of the outcome has: the one the roster moves it to, except that a member of both sets
      made a plain member is left an admin; otherwise the one it had. */
  ghost predicate RoleMet(roster: Roster, me: Inbox, mine: string, g: Group, g': Group, s: Seat) {
    && (Twice(roster, me, mine, g, s) ==> HasRole(g', s.inbox, Admin))
    && (forall r :: Moves(roster, me, mine, g, s, r) && !Twice(roster, me, mine, g, s) ==> HasRole(g', s.inbox, r))
    && ((forall r :: !Moves(roster, me, mine, g, s, r)) ==>
          forall r :: HasRole(g', s.inbox, r) <==> HasRole(g, s.inbox, r))
  }

  ghost predicate Met(roster: Roster, me: Inbox, mine: string, reach: map<string, Inbox>, g: Group, g': Group) {
    && (forall s :: s in g'.seats <==> Sits(roster, me, mine, reach, g, s))
    && (forall s :: s in g'.seats ==> RoleMet(roster, me, mine, g, g', s))
  }

  // ----- the lists behind the plan -----

  lemma NamesMeaning(addresses: seq<string>, mine: string, a: string)
    ensures a in Normalize(addresses, mine) <==> Names(addresses, mine, a)
  {
    NormalizeIsASet(addresses, mine);
  }

  lemma ListsMeaning(roster: Roster, me: Inbox, mine: string, reach: map<string, Inbox>, a: string)
    ensures var env := EnvFor(roster, me, mine, reach);
      && (a in env.wanted <==> Names(roster.members, mine, a))
      && (a in env.protect <==> MayName(roster.protect, mine, a))
      && RosterRole(env, a) == Wanted(roster, mine, a)
  {
    NamesMeaning(roster.members, mine, a);
    NamesMeaning(OrEmpty(roster.protect), mine, a);
    NamesMeaning(OrEmpty(roster.admins), mine, a);
    NamesMeaning(OrEmpty(roster.superAdmins), mine, a);
  }

  lemma GoalMeaning(roster: Roster, me: Inbox, mine: string, reach: map<string, Inbox>, g: Group, s: Seat, r: Role)
    ensures Goal(EnvFor(roster, me, mine, reach), s, RoleOf(g, s.inbox)) == Some(r) <==> Moves(roster, me, mine, g, s, r)
  {
    ListsMeaning(roster, me, mine, reach, s.address);
  }

  lemma RoleMeaning(g: Group, i: Inbox, r: Role)
    ensures RoleOf(g, i) == r <==> HasRole(g, i, r)
  {
  }

  lemma SitsMeaning(roster: Roster, me: Inbox, mine: string, reach: map<string, Inbox>, g: Group, s: Seat)
    ensures InFinal(EnvFor(roster, me, mine, reach), g, s) <==> Sits(roster, me, mine, reach, g, s)
  {
    ListsMeaning(roster, me, mine, reach, s.address);
  }

  lemma TwiceMeaning(roster: Roster, me: Inbox, mine: string, reach: map<string, Inbox>, g: Group, s: Seat)
    ensures TwiceToDemote(EnvFor(roster, me, mine, reach), s, StandingOf(g, s.inbox)) <==> Twice(roster, me, mine, g, s)
  {
    GoalMeaning(roster, me, mine, reach, g, s, PlainMember);
  }

  // ----- the outcome -----

  lemma RoleIsMet(roster: Roster, me: Inbox, mine: string, reach: map<string, Inbox>, g: Group, s: Seat)
    requires var env := EnvFor(roster, me, mine, reach); Sound(env, g) && InFinal(env, g, s)
    ensures RoleMet(roster, me, mine, g, Reconciled(EnvFor(roster, me, mine, reach), g), s)
  {
    var env := EnvFor(roster, me, mine, reach);
    var g' := Reconciled(env, g);
    ReconciledStanding(env, g, s);
    DueLands(env, s, StandingOf(g, s.inbox));
    TwiceMeaning(roster, me, mine, reach, g, s);
    forall r ensures Goal(env, s, RoleOf(g, s.inbox)) == Some(r) <==> Moves(roster, me, mine, g, s, r) {
      GoalMeaning(roster, me, mine, reach, g, s, r);
    }
    forall r
      ensures RoleOf(g, s.inbox) == r <==> HasRole(g, s.inbox, r)
      ensures RoleOf(g', s.inbox) == r <==> HasRole(g', s.inbox, r)
    {
      RoleMeaning(g, s.inbox, r);
      RoleMeaning(g', s.inbox, r);
    }
  }

  /** A run that is through has met the roster. */
  lemma RosterIsMet(roster: Roster, me: Inbox, mine: string, reach: map<string, Inbox>, g: Group)
    requires Sound(EnvFor(roster, me, mine, reach), g)
    ensures Met(roster, me, mine, reach, g, Reconciled(EnvFor(roster, me, mine, reach), g))
  {
    var env := EnvFor(roster, me, mine, reach);
    ReconciledSeats(env, g);
    forall s ensures InFinal(env, g, s) <==> Sits(roster, me, mine, reach, g, s) { SitsMeaning(roster, me, mine, reach, g, s); }
    forall s | s in Reconciled(env, g).seats ensures RoleMet(roster, me, mine, g, Reconciled(env, g), s) {
      RoleIsMet(roster, me, mine, reach, g, s);
    }
  }

  /** So has any group with the same members in the same roles, nobody being twice to be demoted. */
  lemma SameOutcomeIsMet(roster: Roster, me: Inbox, mine: string, reach: map<string, Inbox>, g: Group, g': Group)
    requires var env := EnvFor(roster, me, mine, reach); Sound(env, g) && SameOutcome(g', Reconciled(env, g))
    ensures Met(roster, me, mine, reach, g, g')
  {
    var h := Reconciled(EnvFor(roster, me, mine, reach), g);
    RosterIsMet(roster, me, mine, reach, g);
    forall s | s in g'.seats ensures RoleMet(roster, me, mine, g, g', s) {
      assert RoleMet(roster, me, mine, g, h, s);
      forall r ensures HasRole(g', s.inbox, r) <==> HasRole(h, s.inbox, r) {
        RoleMeaning(g', s.inbox, r);
        RoleMeaning(h, s.inbox, r);
      }
    }
  }

  // ----- the report -----

  /** What a run reports: who was added, who was not reachable, who was removed, and each change of role. */
  ghost predicate ReportMet(roster: Roster, me: Inbox, mine: string, reach: map<string, Inbox>, g: Group, res: ReconcileResult) {
    && (forall a :: a in res.added <==>
          Names(roster.members, mine, a) && a in reach && forall t :: t in g.seats ==> t.address != a)
    && (forall a :: a in res.unreachable <==>
          Names(roster.members, mine, a) && a !in reach && forall t :: t in g.seats ==> t.address != a)
    && (forall a :: a in res.removed <==>
          && a != "" && !Names(roster.members, mine, a) && !MayName(roster.protect, mine, a)
          && exists s :: s in g.seats && s.address == a && s.inbox != me)
    && (forall s, r :: Sits(roster, me, mine, reach, g, s) && s.address != "" ==>
          (RoleChange(s.address, r) in res.roleChanges <==> Moves(roster, me, mine, g, s, r) && !HasRole(g, s.inbox, r)))
    && (res.changed <==> res.added != [] || res.removed != [] || res.roleChanges != [])
  }

  lemma AddedMeaning(roster: Roster, me: Inbox, mine: string, reach: map<string, Inbox>, g: Group, a: string)
    ensures var env := EnvFor(roster, me, mine, reach);
      && (a in ToAdd(env, g) <==> Names(roster.members, mine, a) && a in reach && forall t :: t in g.seats ==> t.address != a)
      && (a in Unreachable(env, g) <==>
            Names(roster.members, mine, a) && a !in reach && forall t :: t in g.seats ==> t.address != a)
  {
    ListsMeaning(roster, me, mine, reach, a);
  }

  lemma RemovedMeaning(roster: Roster, me: Inbox, mine: string, reach: map<string, Inbox>, g: Group, a: string)
    ensures a in ToRemove(EnvFor(roster, me, mine, reach), g) <==>
      && a != "" && !Names(roster.members, mine, a) && !MayName(roster.protect, mine, a)
      && exists s :: s in g.seats && s.address == a && s.inbox != me
  {
    var env := EnvFor(roster, me, mine, reach);
    var gone := Filter(g.seats, (s: Seat) => !Stays(env, s));
    ListsMeaning(roster, me, mine, reach, a);
    if a in ToRemove(env, g) {
      var i :| 0 <= i < |ToRemove(env, g)| && ToRemove(env, g)[i] == a;
      assert gone[i] in gone;
    }
    if s :| s in g.seats && s.address == a && s.inbox != me && !Stays(env, s) {
      var i :| 0 <= i < |gone| && gone[i] == s;
      assert ToRemove(env, g)[i] == a;
    }
  }

  lemma ReportIsMet(roster: Roster, me: Inbox, mine: string, reach: map<string, Inbox>, g: Group)
    requires Sound(EnvFor(roster, me, mine, reach), g)
    ensures ReportMet(roster, me, mine, reach, g, ResultOf(EnvFor(roster, me, mine, reach), g))
  {
    var env := EnvFor(roster, me, mine, reach);
    forall a
      ensures a in ToAdd(env, g) <==>
        Names(roster.members, mine, a) && a in reach && forall t :: t in g.seats ==> t.address != a
      ensures a in Unreachable(env, g) <==>
        Names(roster.members, mine, a) && a !in reach && forall t :: t in g.seats ==> t.address != a
      ensures a in ToRemove(env, g) <==>
        && a != "" && !Names(roster.members, mine, a) && !MayName(roster.protect, mine, a)
        && exists s :: s in g.seats && s.address == a && s.inbox != me
    {
      AddedMeaning(roster, me, mine, reach, g, a);
      RemovedMeaning(roster, me, mine, reach, g, a);
    }
    forall s, r | Sits(roster, me, mine, reach, g, s) && s.address != ""
      ensures RoleChange(s.address, r) in ResultOf(env, g).roleChanges <==>
        Moves(roster, me, mine, g, s, r) && !HasRole(g, s.inbox, r)
    {
      ChangeMeaning(roster, me, mine, reach, g, s, r);
    }
  }

  lemma ChangeMeaning(roster: Roster, me: Inbox, mine: string, reach: map<string, Inbox>, g: Group, s: Seat, r: Role)
    requires Sound(EnvFor(roster, me, mine, reach), g) && Sits(roster, me, mine, reach, g, s) && s.address != ""
    ensures RoleChange(s.address, r) in ResultOf(EnvFor(roster, me, mine, reach), g).roleChanges <==>
      Moves(roster, me, mine, g, s, r) && !HasRole(g, s.inbox, r)
  {
    var env := EnvFor(roster, me, mine, reach);
    SitsMeaning(roster, me, mine, reach, g, s);
    ReportedOfSeat(env, g, s, RoleChange(s.address, r));
    GoalMeaning(roster, me, mine, reach, g, s, r);
    RoleMeaning(g, s.inbox, r);
  }

  /** A run from wherever an earlier one stopped has met the roster; one that was not preceded reports truly. */
  lemma RunIsMet(roster: Roster, me: Inbox, mine: string, reach: map<string, Inbox>, g: Group, k: nat)
    requires var env := EnvFor(roster, me, mine, reach);
      Sound(env, g) && k <= |Plan(env, g)| && (k == 0 || DemotionsAreSingle(env, g))
    ensures var env := EnvFor(roster, me, mine, reach);
      && Met(roster, me, mine, reach, g, Reconciled(env, After(env, g, k)))
      && (k == 0 ==> ReportMet(roster, me, mine, reach, g, ResultOf(env, After(env, g, k))))
  {
    var env := EnvFor(roster, me, mine, reach);
    if k == 0 {
      assert Plan(env, g)[..0] == [];
      RosterIsMet(roster, me, mine, reach, g);
      ReportIsMet(roster, me, mine, reach, g);
    } else {
      FinishedLater(env, g, k);
      SameOutcomeIsMet(roster, me, mine, reach, g, Reconciled(env, After(env, g, k)));
    }
  }

  /** Entries that differ only in case, or in blanks around them, are one address. */
  lemma CaseIsOneAddress(addresses: seq<string>, mine: string, i: nat, j: nat)
    requires i < |addresses| && j < |addresses| && SameWord(Trim(addresses[i]), Trim(addresses[j]))
    ensures Lower(Trim(addresses[i])) == Lower(Trim(addresses[j]))
    ensures forall a :: a in Normalize(addresses, mine) ==> forall k :: 0 <= k < |a| ==> !('A' <= a[k] <= 'Z')
    ensures Distinct(Normalize(addresses, mine))
  {
    LowerForgetsCase(Trim(addresses[i]), Trim(addresses[j]));
    NormalizeIsASet(addresses, mine);
  }
}
