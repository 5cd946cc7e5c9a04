/** Matching a group to a roster by a sequence of commits, any of which may fail. */
module GroupReconcile {
  import opened Wrappers
  import opened Text
  import opened Lists

  type Inbox = string

  datatype Role = PlainMember | Admin | SuperAdmin

  function Rank(r: Role): nat {
    match r case PlainMember => 0 case Admin => 1 case SuperAdmin => 2
  }

  /** One member of the group; the address is "" when the inbox has none. */
  datatype Seat = Seat(inbox: Inbox, address: string)

  datatype Group = Group(seats: seq<Seat>, admins: set<Inbox>, supers: set<Inbox>)

  function RoleOf(g: Group, inbox: Inbox): Role {
    if inbox in g.supers then SuperAdmin else if inbox in g.admins then Admin else PlainMember
  }

  // ----- the roster, normalised -----

  datatype Roster = Roster(members: seq<string>, superAdmins: Option<seq<string>>, admins: Option<seq<string>>,
                           protect: Option<seq<string>>)

  /** Lowercased, trimmed, without repeats, blanks or my own address. */
  function Normalize(addresses: seq<string>, me: string): seq<string> {
    if addresses == [] then []
    else
      var rest, a := Normalize(addresses[..|addresses| - 1], me), Lower(Trim(addresses[|addresses| - 1]));
      if a == "" || a == me || a in rest then rest else rest + [a]
  }

  predicate Distinct(xs: seq<string>) {
    forall i, j :: 0 <= i < j < |xs| ==> xs[i] != xs[j]
  }

  /** `a` is how some listed address reads once trimmed and lowercased. */
  predicate Listed(addresses: seq<string>, a: string) {
    exists i :: 0 <= i < |addresses| && Lower(Trim(addresses[i])) == a
  }

  lemma {:induction false} NormalizeIsASet(addresses: seq<string>, me: string)
    ensures Distinct(Normalize(addresses, me))
    ensures forall a :: a in Normalize(addresses, me) <==> a != "" && a != me && Listed(addresses, a)
  {
    if addresses != [] {
      var n := |addresses| - 1;
      NormalizeIsASet(addresses[..n], me);
      forall a ensures Listed(addresses, a) <==> Listed(addresses[..n], a) || Lower(Trim(addresses[n])) == a {
        if Listed(addresses[..n], a) {
          var i :| 0 <= i < n && Lower(Trim(addresses[..n][i])) == a;
          assert Lower(Trim(addresses[i])) == a;
        }
        if Listed(addresses, a) && Lower(Trim(addresses[n])) != a {
          var i :| 0 <= i < |addresses| && Lower(Trim(addresses[i])) == a;
          assert Lower(Trim(addresses[..n][i])) == a;
        }
      }
    }
  }

  /** What one reconcile works with: me, the reachable addresses' inboxes, and the roster's lists. */
  datatype Env = Env(me: Inbox, reach: map<string, Inbox>, wanted: seq<string>, protect: seq<string>,
                     managesRoles: bool, admins: seq<string>, supers: seq<string>)

  function OrEmpty(s: Option<seq<string>>): seq<string> {
    if s.Some? then s.value else []
  }

  function EnvFor(roster: Roster, me: Inbox, myAddress: string, reach: map<string, Inbox>): Env {
    Env(me, reach, Normalize(roster.members, myAddress), Normalize(OrEmpty(roster.protect), myAddress),
        roster.superAdmins.Some? || roster.admins.Some?,
        Normalize(OrEmpty(roster.admins), myAddress), Normalize(OrEmpty(roster.superAdmins), myAddress))
  }

  /** The role the roster gives an address: super admin over admin over member. */
  function RosterRole(env: Env, address: string): Option<Role> {
    if !env.managesRoles then None
    else if address in env.supers then Some(SuperAdmin)
    else if address in env.admins then Some(Admin)
    else if address in env.wanted then Some(PlainMember)
    else None
  }

  /** The role a seat is to be moved to: not mine, and a protected one is never lowered. */
  function Goal(env: Env, seat: Seat, role: Role): Option<Role> {
    var t := RosterRole(env, seat.address);
    if seat.inbox == env.me || t.None? || (seat.address in env.protect && Rank(t.value) < Rank(role)) then None else t
  }

  // ----- commits -----

  datatype Commit =
    | AddMembers(addresses: seq<string>)
    | RemoveMembers(addresses: seq<string>)
    | AddSuper(inbox: Inbox)
    | RemoveSuper(inbox: Inbox)
    | AddAdmin(inbox: Inbox)
    | RemoveAdmin(inbox: Inbox)

  function SeatsOf(addresses: seq<string>, reach: map<string, Inbox>): seq<Seat> {
    seq(|addresses|, i requires 0 <= i < |addresses| =>
      Seat(if addresses[i] in reach then reach[addresses[i]] else "", addresses[i]))
  }

  function Commit1(env: Env, g: Group, c: Commit): Group {
    match c
    case AddMembers(addresses) => g.(seats := g.seats + SeatsOf(addresses, env.reach))
    case RemoveMembers(addresses) => g.(seats := Filter(g.seats, (s: Seat) => s.address !in addresses))
    case AddSuper(i) => g.(supers := g.supers + {i})
    case RemoveSuper(i) => g.(supers := g.supers - {i})
    case AddAdmin(i) => g.(admins := g.admins + {i})
    case RemoveAdmin(i) => g.(admins := g.admins - {i})
  }

  function CommitAll(env: Env, g: Group, cs: seq<Commit>): Group
    decreases |cs|
  {
    if cs == [] then g else CommitAll(env, Commit1(env, g, cs[0]), cs[1..])
  }

  // ----- one reconcile, planned -----

  predicate HasAddress(seats: seq<Seat>, address: string) {
    exists s :: s in seats && s.address == address
  }

  function Missing(env: Env, g: Group): seq<string> {
    Filter(env.wanted, (a: string) => !HasAddress(g.seats, a))
  }

  function ToAdd(env: Env, g: Group): seq<string> {
    Filter(Missing(env, g), (a: string) => a in env.reach)
  }

  function Unreachable(env: Env, g: Group): seq<string> {
    Filter(Missing(env, g), (a: string) => a !in env.reach)
  }

  /** Seats no reconcile removes. */
  predicate Stays(env: Env, s: Seat) {
    s.inbox == env.me || s.address == "" || s.address in env.wanted || s.address in env.protect
  }

  function AddressesOf(seats: seq<Seat>): (r: seq<string>)
    ensures |r| == |seats| && forall i :: 0 <= i < |r| ==> r[i] == seats[i].address
  {
    seq(|seats|, i requires 0 <= i < |seats| => seats[i].address)
  }

  function ToRemove(env: Env, g: Group): seq<string> {
    AddressesOf(Filter(g.seats, (s: Seat) => !Stays(env, s)))
  }

  /** How a member is moved from one role to another. */
  function RoleSteps(inbox: Inbox, from: Role, to: Role): seq<Commit> {
    if from == to then []
    else match to
      case SuperAdmin => [AddSuper(inbox)] + if from == Admin then [RemoveAdmin(inbox)] else []
      case Admin => (if from == SuperAdmin then [RemoveSuper(inbox)] else []) + [AddAdmin(inbox)]
      case PlainMember => if from == SuperAdmin then [RemoveSuper(inbox)] else [RemoveAdmin(inbox)]
  }

  function SeatSteps(env: Env, g: Group, seat: Seat): seq<Commit> {
    var role := RoleOf(g, seat.inbox);
    match Goal(env, seat, role)
    case None => []
    case Some(t) => RoleSteps(seat.inbox, role, t)
  }

  function RolePlan(env: Env, g: Group, seats: seq<Seat>): seq<Commit>
    decreases |seats|
  {
    if seats == [] then [] else SeatSteps(env, g, seats[0]) + RolePlan(env, g, seats[1..])
  }

  function MemberPlan(env: Env, g: Group): seq<Commit> {
    (if ToAdd(env, g) == [] then [] else [AddMembers(ToAdd(env, g))])
    + (if ToRemove(env, g) == [] then [] else [RemoveMembers(ToRemove(env, g))])
  }

  /** The group once its membership is right, as it is read again before roles are looked at. */
  function Peopled(env: Env, g: Group): Group {
    CommitAll(env, g, MemberPlan(env, g))
  }

  /** Everything one uninterrupted reconcile commits, in order: adds, removals, then roles. */
  function Plan(env: Env, g: Group): seq<Commit> {
    var h := Peopled(env, g);
    MemberPlan(env, g) + RolePlan(env, h, h.seats)
  }

  function Reconciled(env: Env, g: Group): Group {
    CommitAll(env, g, Plan(env, g))
  }

  datatype RoleChange = RoleChange(address: string, role: Role)

  function SeatChange(env: Env, g: Group, seat: Seat): seq<RoleChange> {
    var goal := Goal(env, seat, RoleOf(g, seat.inbox));
    if goal.None? || goal.value == RoleOf(g, seat.inbox) then [] else [RoleChange(seat.address, goal.value)]
  }

  function RoleChanges(env: Env, g: Group, seats: seq<Seat>): seq<RoleChange>
    decreases |seats|
  {
    if seats == [] then [] else SeatChange(env, g, seats[0]) + RoleChanges(env, g, seats[1..])
  }

  datatype ReconcileResult = ReconcileResult(added: seq<string>, removed: seq<string>, roleChanges: seq<RoleChange>,
                                             unreachable: seq<string>, changed: bool)

  /** What an uninterrupted reconcile reports. */
  function ResultOf(env: Env, g: Group): ReconcileResult {
    var h := Peopled(env, g);
    var changes := RoleChanges(env, h, h.seats);
    ReconcileResult(ToAdd(env, g), ToRemove(env, g), changes, Unreachable(env, g),
                    ToAdd(env, g) != [] || ToRemove(env, g) != [] || changes != [])
  }

  // ----- sound groups -----

  predicate DistinctSeats(seats: seq<Seat>) {
    forall i, j :: 0 <= i < j < |seats| ==> Apart(seats[i], seats[j])
  }

  predicate Apart(s: Seat, t: Seat) {
    s.inbox != t.inbox && (s.address != "" ==> s.address != t.address)
  }

  /** One address per inbox, and one inbox per address in the group and the directory alike. */
  ghost predicate Sound(env: Env, g: Group) {
    && DistinctSeats(g.seats)
    && (forall s, a :: s in g.seats && a in env.reach ==> (s.address == a <==> s.inbox == env.reach[a]))
    && (forall a, b :: a in env.reach && b in env.reach && env.reach[a] == env.reach[b] ==> a == b)
    && "" !in env.wanted && Distinct(env.wanted)
  }

  /** Who is a member once a reconcile is through. */
  ghost predicate InFinal(env: Env, g: Group, s: Seat) {
    || (s in g.seats && Stays(env, s))
    || (s.address in env.wanted && s.address in env.reach && s.inbox == env.reach[s.address] && !HasAddress(g.seats, s.address))
  }
}
