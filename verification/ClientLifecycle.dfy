/** One messaging client per wallet: a single-flight state machine whose attempts can settle or time out
    long after they were superseded. */
module ClientLifecycle {
  import opened Wrappers
  import opened Text
  import opened Runs

  /** A wallet to bring a client up for; without a signer the attempt can only open an installation. */
  datatype Identity = Identity(address: string, signer: Option<string>)

  datatype Client = Client(installationId: string)

  datatype Status =
    | Idle
    | Initializing(address: string)
    | Ready(address: string, client: Client)
    | Failed(address: string, error: string, withoutSigner: bool, installationLimit: bool)

  /** The module's variables. `initPromise` names the attempt whose promise the single-flight entry is. */
  datatype Vars = Vars(
    initPromise: Option<nat>, activeClient: Option<Client>, activeAddress: Option<string>,
    lastIdentity: Option<Identity>, lastError: Option<string>, attemptHasSigner: bool,
    attemptGeneration: nat, status: Status)

  const TIMEOUT_MESSAGE := "XMTP client creation timed out"
  const INITIAL_VARS := Vars(None, None, None, None, None, false, 0, Idle)

  predicate IsInstallationLimitError(message: string) {
    var m := Lower(message);
    Contains(m, "10/10") || Contains(m, "already registered")
    || Contains(m, "installation limit") || Contains(m, "maximum number of installations")
  }

  // ----- what each piece of code between two awaits does to the variables -----

  function DeriveStatus(v: Vars): Status {
    if v.activeClient.Some? && v.activeAddress.Some? then Ready(v.activeAddress.value, v.activeClient.value)
    else if v.initPromise.Some? && v.activeAddress.Some? then Initializing(v.activeAddress.value)
    else if v.lastIdentity.Some? && v.lastError.Some? then
      Failed(Lower(v.lastIdentity.value.address), v.lastError.value,
             v.lastIdentity.value.signer.None?, IsInstallationLimitError(v.lastError.value))
    else Idle
  }

  function Notified(v: Vars): Vars {
    v.(status := DeriveStatus(v))
  }

  /** The body of an attempt's start, up to its first settlement. */
  function Started(v: Vars, identity: Identity): Vars {
    var g := v.attemptGeneration + 1;
    Notified(v.(activeAddress := Some(Lower(identity.address)), lastIdentity := Some(identity),
                attemptHasSigner := identity.signer.Some?, attemptGeneration := g, initPromise := Some(g)))
  }

  predicate Adopts(v: Vars, g: nat) {
    g == v.attemptGeneration && v.activeClient.None?
  }

  function Adopted(v: Vars, g: nat, address: string, client: Client): Vars {
    if !Adopts(v, g) then v
    else Notified(v.(activeClient := Some(client), activeAddress := Some(address),
                     initPromise := if v.initPromise.None? then Some(g) else v.initPromise, lastError := None))
  }

  function Rejected(v: Vars, g: nat, message: string): Vars {
    if g != v.attemptGeneration || v.activeClient.Some? then v
    else Notified(v.(initPromise := None, activeAddress := None,
                     lastError := if v.initPromise.None? then v.lastError else Some(message)))
  }

  function TimedOutVars(v: Vars, g: nat): Vars {
    if g != v.attemptGeneration || v.activeClient.Some? then v
    else Notified(v.(initPromise := None, activeAddress := None, lastError := Some(TIMEOUT_MESSAGE)))
  }

  function Dropped(v: Vars): Vars {
    Notified(INITIAL_VARS.(attemptGeneration := v.attemptGeneration + 1))
  }

  function TornDown(v: Vars): Vars {
    Notified(v.(attemptGeneration := v.attemptGeneration + 1, activeClient := None, initPromise := None,
                activeAddress := None))
  }

  // ----- the machine -----

  datatype Settlement = Running | Made(client: Client) | Broke(message: string)

  datatype Attempt = Attempt(address: string, hasSigner: bool, settlement: Settlement, timedOut: bool)

  /** A caller with a signer waiting on a signer-less attempt. */
  datatype Join = Join(generation: nat, identity: Identity)

  /** The variables, every attempt ever started, what was announced, and the continuations still to run:
      wallet switches and resets inside their awaits, and joins. */
  datatype State = State(
    vars: Vars, attempts: map<nat, Attempt>, announced: seq<nat>,
    switching: seq<Identity>, resets: seq<Identity>, joins: seq<Join>, retrying: bool)

  const INITIAL := State(INITIAL_VARS, map[], [], [], [], [], false)

  datatype Event =
    | GetOrCreate(identity: Identity)
    | OpenClient(address: string)
    | Retry
    | RetryDone
    | Drop
    | Reset(identity: Identity)
    | ResetContinue(i: nat)
    | SwitchContinue(i: nat)
    | JoinRejected(i: nat)
    | SettleOk(g: nat, client: Client)
    | SettleFail(g: nat, message: string)
    | Timeout(g: nat)

  function Begin(s: State, identity: Identity): State {
    var g := s.vars.attemptGeneration + 1;
    s.(vars := Started(s.vars, identity),
       attempts := s.attempts[g := Attempt(Lower(identity.address), identity.signer.Some?, Running, false)])
  }

  /** A switch of wallets drops the old client and resumes after an await. */
  function StartAttempt(s: State, identity: Identity): State {
    if s.vars.activeAddress.Some? && s.vars.activeAddress.value != Lower(identity.address)
    then s.(vars := Dropped(s.vars), switching := s.switching + [identity])
    else Begin(s, identity)
  }

  predicate Joins(v: Vars, address: string) {
    v.activeAddress == Some(Lower(address)) && v.initPromise.Some?
  }

  function CallGetOrCreate(s: State, identity: Identity): State {
    if Joins(s.vars, identity.address) then
      var s' := s.(vars := s.vars.(lastIdentity := Some(identity)));
      if s.vars.activeClient.Some? || s.vars.attemptHasSigner then s'
      else s'.(joins := s.joins + [Join(s.vars.initPromise.value, identity)])
    else StartAttempt(s, identity)
  }

  function CallOpen(s: State, address: string): State {
    if Joins(s.vars, address) then s else StartAttempt(s, Identity(address, None))
  }

  function CallRetry(s: State): State {
    if s.vars.activeClient.Some? || s.vars.initPromise.Some? || s.retrying || s.vars.lastIdentity.None? then s
    else
      var identity := s.vars.lastIdentity.value;
      var s' := s.(retrying := true);
      if identity.signer.Some? then CallGetOrCreate(s', identity) else CallOpen(s', identity.address)
  }

  function Without<T>(q: seq<T>, i: nat): seq<T>
    requires i < |q|
  {
    q[..i] + q[i + 1..]
  }

  predicate IsRunning(s: State, g: nat) {
    g in s.attempts && s.attempts[g].settlement.Running?
  }

  predicate IsRejected(s: State, g: nat) {
    g in s.attempts && (s.attempts[g].settlement.Broke? || s.attempts[g].timedOut)
  }

  /** An identity is a wallet address, with a signer where the call takes one. */
  predicate Enabled(s: State, e: Event) {
    match e
    case GetOrCreate(identity) => identity.signer.Some?
    case OpenClient(_) => true
    case Retry => true
    case RetryDone => s.retrying
    case Drop => true
    case Reset(identity) => identity.signer.Some?
    case ResetContinue(i) => i < |s.resets|
    case SwitchContinue(i) => i < |s.switching|
    case JoinRejected(i) => i < |s.joins| && IsRejected(s, s.joins[i].generation)
    case SettleOk(g, _) => IsRunning(s, g)
    case SettleFail(g, _) => IsRunning(s, g)
    case Timeout(g) => IsRunning(s, g) && !s.attempts[g].timedOut
  }

  function Apply(s: State, e: Event): State
    requires Enabled(s, e)
  {
    match e
    case GetOrCreate(identity) => CallGetOrCreate(s, identity)
    case OpenClient(address) => CallOpen(s, address)
    case Retry => CallRetry(s)
    case RetryDone => s.(retrying := false)
    case Drop => s.(vars := Dropped(s.vars))
    case Reset(identity) => s.(vars := TornDown(s.vars), resets := s.resets + [identity])
    case ResetContinue(i) => CallGetOrCreate(s.(resets := Without(s.resets, i)), s.resets[i])
    case SwitchContinue(i) => Begin(s.(switching := Without(s.switching, i)), s.switching[i])
    case JoinRejected(i) =>
      var j, s' := s.joins[i].identity, s.(joins := Without(s.joins, i));
      if s.vars.lastIdentity.Some? && Lower(s.vars.lastIdentity.value.address) == Lower(j.address)
      then CallGetOrCreate(s', j) else s'
    case SettleOk(g, client) =>
      s.(vars := Adopted(s.vars, g, s.attempts[g].address, client),
         attempts := s.attempts[g := s.attempts[g].(settlement := Made(client))],
         announced := if Adopts(s.vars, g) then s.announced + [g] else s.announced)
    case SettleFail(g, message) =>
      s.(vars := Rejected(s.vars, g, message),
         attempts := s.attempts[g := s.attempts[g].(settlement := Broke(message))])
    case Timeout(g) =>
      s.(vars := TimedOutVars(s.vars, g), attempts := s.attempts[g := s.attempts[g].(timedOut := true)])
  }

  ghost predicate Step(s: State, e: Event, t: State) {
    Enabled(s, e) && t == Apply(s, e)
  }

  // ----- the invariant -----

  /** The single-flight entry, the client and the reported failure all belong to the current generation. */
  ghost predicate VarsOk(v: Vars, attempts: map<nat, Attempt>) {
    var g := v.attemptGeneration;
    && v.status == DeriveStatus(v)
    && (v.activeAddress.Some? <==> v.initPromise.Some?)
    && (v.initPromise.Some? ==>
          && v.initPromise.value == g && g in attempts
          && attempts[g].address == v.activeAddress.value)
    && (v.activeClient.Some? ==> v.initPromise.Some? && attempts[g].settlement == Made(v.activeClient.value))
    && (g in attempts && v.activeClient.None? ==>
          && !attempts[g].settlement.Made?
          && (v.initPromise.Some? <==> attempts[g].settlement.Running? && !attempts[g].timedOut)
          && (attempts[g].timedOut ==> v.lastError == Some(TIMEOUT_MESSAGE))
          && (attempts[g].settlement.Broke? && !attempts[g].timedOut ==> v.lastError == Some(attempts[g].settlement.message)))
    && (g in attempts ==>
          && attempts[g].hasSigner == v.attemptHasSigner
          && v.lastIdentity.Some? && Lower(v.lastIdentity.value.address) == attempts[g].address)
  }

  /** Announcements are of successful attempts, in strictly increasing generation, and the current
      generation is among them only while its client is up. */
  ghost predicate AnnouncedOk(s: State) {
    && (forall i, j :: 0 <= i < j < |s.announced| ==> s.announced[i] < s.announced[j])
    && (forall i :: 0 <= i < |s.announced| ==>
          && s.announced[i] in s.attempts && s.attempts[s.announced[i]].settlement.Made?
          && s.announced[i] <= s.vars.attemptGeneration
          && (s.announced[i] == s.vars.attemptGeneration ==> s.vars.activeClient.Some?))
    && (s.vars.activeClient.Some? ==> s.announced != [] && s.announced[|s.announced| - 1] == s.vars.attemptGeneration)
  }

  ghost predicate Inv(s: State) {
    && VarsOk(s.vars, s.attempts)
    && (forall g :: g in s.attempts ==> g <= s.vars.attemptGeneration)
    && (forall i :: 0 <= i < |s.joins| ==> s.joins[i].identity.signer.Some?)
    && (forall i :: 0 <= i < |s.resets| ==> s.resets[i].signer.Some?)
    && AnnouncedOk(s)
  }

  lemma InvInitial()
    ensures Inv(INITIAL)
  {
  }

  /** A start keeps the invariant exactly when no client is live under it. */
  lemma BeginSafeIff(s: State, identity: Identity)
    requires Inv(s)
    ensures Inv(Begin(s, identity)) <==> s.vars.activeClient.None?
  {
    var s' := Begin(s, identity);
    assert s'.vars.attemptGeneration !in s.attempts;
    assert s'.attempts[s'.vars.attemptGeneration].settlement.Running?;
  }

  lemma InvDropped(s: State)
    requires Inv(s)
    ensures Inv(s.(vars := Dropped(s.vars))) && Inv(s.(vars := TornDown(s.vars)))
  {
  }

  lemma InvStartAttempt(s: State, identity: Identity)
    requires Inv(s) && !Joins(s.vars, identity.address)
    ensures Inv(StartAttempt(s, identity))
  {
    if s.vars.activeAddress.Some? && s.vars.activeAddress.value != Lower(identity.address) {
      InvDropped(s);
    } else {
      BeginSafeIff(s, identity);
    }
  }

  lemma InvGetOrCreate(s: State, identity: Identity)
    requires Inv(s) && identity.signer.Some?
    ensures Inv(CallGetOrCreate(s, identity))
  {
    if !Joins(s.vars, identity.address) { InvStartAttempt(s, identity); }
  }

  lemma InvSettleOk(s: State, g: nat, client: Client)
    requires Inv(s) && IsRunning(s, g)
    ensures Inv(Apply(s, SettleOk(g, client)))
  {
    var s' := Apply(s, SettleOk(g, client));
    assert VarsOk(s'.vars, s'.attempts);
    AnnounceOk(s, g, client);
  }

  lemma AnnounceOk(s: State, g: nat, client: Client)
    requires Inv(s) && IsRunning(s, g)
    ensures AnnouncedOk(Apply(s, SettleOk(g, client)))
  {
    var s' := Apply(s, SettleOk(g, client));
    forall i | 0 <= i < |s.announced| ensures s.announced[i] != g {
      assert s.attempts[s.announced[i]].settlement.Made?;
    }
    if Adopts(s.vars, g) {
      forall i | 0 <= i < |s.announced| ensures s.announced[i] < g {
        assert s.announced[i] <= s.vars.attemptGeneration;
      }
    }
  }

  lemma InvSettleFail(s: State, g: nat, message: string)
    requires Inv(s) && IsRunning(s, g)
    ensures Inv(Apply(s, SettleFail(g, message)))
  {
    var s' := Apply(s, SettleFail(g, message));
    assert VarsOk(s'.vars, s'.attempts);
  }

  lemma InvTimeout(s: State, g: nat)
    requires Inv(s) && IsRunning(s, g) && !s.attempts[g].timedOut
    ensures Inv(Apply(s, Timeout(g)))
  {
    var s' := Apply(s, Timeout(g));
    assert VarsOk(s'.vars, s'.attempts);
  }

  lemma InvOpen(s: State, address: string)
    requires Inv(s)
    ensures Inv(CallOpen(s, address))
  {
    if !Joins(s.vars, address) { InvStartAttempt(s, Identity(address, None)); }
  }

  lemma InvRetry(s: State)
    requires Inv(s)
    ensures Inv(CallRetry(s))
  {
    if s.vars.activeClient.None? && s.vars.initPromise.None? && !s.retrying && s.vars.lastIdentity.Some? {
      var identity, s' := s.vars.lastIdentity.value, s.(retrying := true);
      assert Inv(s');
      if identity.signer.Some? { InvGetOrCreate(s', identity); } else { InvOpen(s', identity.address); }
    }
  }

  lemma InvPopJoin(s: State, i: nat)
    requires Inv(s) && i < |s.joins|
    ensures Inv(s.(joins := Without(s.joins, i)))
  {
  }

  lemma InvPopReset(s: State, i: nat)
    requires Inv(s) && i < |s.resets|
    ensures Inv(s.(resets := Without(s.resets, i)))
  {
  }

  /** Every step keeps the invariant, except a wallet switch resuming over a client that came up inside
      its await. */
  lemma InvStep(s: State, e: Event)
    requires Inv(s) && Enabled(s, e) && (e.SwitchContinue? ==> s.vars.activeClient.None?)
    ensures Inv(Apply(s, e))
  {
    match e {
      case GetOrCreate(identity) => InvGetOrCreate(s, identity);
      case OpenClient(address) => InvOpen(s, address);
      case Retry => InvRetry(s);
      case RetryDone =>
      case Drop => InvDropped(s);
      case Reset(identity) => InvDropped(s);
      case ResetContinue(i) =>
        InvPopReset(s, i);
        InvGetOrCreate(s.(resets := Without(s.resets, i)), s.resets[i]);
      case SwitchContinue(i) => BeginSafeIff(s.(switching := Without(s.switching, i)), s.switching[i]);
      case JoinRejected(i) =>
        InvPopJoin(s, i);
        InvGetOrCreate(s.(joins := Without(s.joins, i)), s.joins[i].identity);
      case SettleOk(g, client) => InvSettleOk(s, g, client);
      case SettleFail(g, message) => InvSettleFail(s, g, message);
      case Timeout(g) => InvTimeout(s, g);
    }
  }

  // ----- every run -----

  /** A switch resumes with no client up. */
  ghost predicate SafeStep(s: State, e: Event, t: State) {
    Step(s, e, t) && (e.SwitchContinue? ==> s.vars.activeClient.None?)
  }

  lemma SafeRunInv(es: seq<Event>, s: State)
    requires Run(SafeStep, INITIAL, es, s)
    ensures Inv(s)
  {
    InvInitial();
    var inv := (a: State) => Inv(a);
    forall a, e, b | inv(a) && SafeStep(a, e, b) ensures inv(b) { InvStep(a, e); }
    RunInduction(SafeStep, inv, INITIAL, es, s);
  }

  /** A live client is the one the current generation's attempt made, for the active address, and the
      reported status says so. */
  lemma ClientBelongsToCurrentAttempt(es: seq<Event>, s: State)
    requires Run(SafeStep, INITIAL, es, s) && s.vars.activeClient.Some?
    ensures var g := s.vars.attemptGeneration;
            && g in s.attempts && s.attempts[g].settlement == Made(s.vars.activeClient.value)
            && s.vars.activeAddress == Some(s.attempts[g].address)
            && s.vars.status == Ready(s.attempts[g].address, s.vars.activeClient.value)
  {
    SafeRunInv(es, s);
  }

  /** At every point the cached status is the status of the current variables, the address is set exactly
      when the single-flight entry is, and a running attempt has lost its entry exactly when it timed out. */
  lemma StatusIsCoherent(es: seq<Event>, s: State)
    requires Run(SafeStep, INITIAL, es, s)
    ensures s.vars.status == DeriveStatus(s.vars)
    ensures s.vars.activeAddress.Some? <==> s.vars.initPromise.Some?
    ensures var g := s.vars.attemptGeneration;
            IsRunning(s, g) ==> (s.vars.initPromise.None? <==> s.attempts[g].timedOut)
  {
    SafeRunInv(es, s);
  }

  /** Each generation is announced at most once, a timed-out attempt adopted late included. */
  lemma AnnouncedAtMostOnce(es: seq<Event>, s: State)
    requires Run(SafeStep, INITIAL, es, s)
    ensures forall i, j :: 0 <= i < j < |s.announced| ==> s.announced[i] < s.announced[j]
    ensures forall i :: 0 <= i < |s.announced| ==>
      s.announced[i] in s.attempts && s.attempts[s.announced[i]].settlement.Made?
  {
    SafeRunInv(es, s);
  }

  /** A late failure of a timed-out attempt keeps the reported timeout. */
  lemma LateFailureKeepsTimeout(es: seq<Event>, s: State, g: nat, message: string)
    requires Run(SafeStep, INITIAL, es, s) && IsRunning(s, g) && s.attempts[g].timedOut
    requires g == s.vars.attemptGeneration
    ensures Apply(s, SettleFail(g, message)).vars == s.vars
    ensures s.vars.status.Failed? && s.vars.status.error == TIMEOUT_MESSAGE && s.vars.status.address == s.attempts[g].address
  {
    SafeRunInv(es, s);
  }

  /** A timed-out attempt that nothing superseded is adopted when it succeeds after all. */
  lemma LateSuccessIsAdopted(es: seq<Event>, s: State, g: nat, client: Client)
    requires Run(SafeStep, INITIAL, es, s) && IsRunning(s, g) && g == s.vars.attemptGeneration
    ensures var t := Apply(s, SettleOk(g, client));
            && t.vars.status == Ready(s.attempts[g].address, client) && t.announced == s.announced + [g]
            && t.vars.initPromise == Some(g) && t.vars.lastError.None?
  {
    SafeRunInv(es, s);
  }

  /** Nothing a superseded attempt does reaches the variables or the listeners. */
  lemma SupersededIsInert(s: State, e: Event, g: nat)
    requires Enabled(s, e) && g != s.vars.attemptGeneration
    requires (e.SettleOk? || e.SettleFail? || e.Timeout?) && e.g == g
    ensures Apply(s, e).vars == s.vars && Apply(s, e).announced == s.announced
  {
  }

  /** Settlements and deadlines of attempts that are no longer the current one. */
  ghost predicate StaleStep(s: State, e: Event, t: State) {
    Step(s, e, t) && (e.SettleOk? || e.SettleFail? || e.Timeout?) && e.g != s.vars.attemptGeneration
  }

  /** However many superseded attempts settle or time out, in whatever order, neither the variables nor the
      listeners hear of it. */
  lemma SupersededRunsAreInert(s: State, es: seq<Event>, t: State)
    requires Run(StaleStep, s, es, t)
    ensures t.vars == s.vars && t.announced == s.announced
  {
    var inv := (a: State) => a.vars == s.vars && a.announced == s.announced;
    forall a, e, b | inv(a) && StaleStep(a, e, b) ensures inv(b) { SupersededIsInert(a, e, e.g); }
    RunInduction(StaleStep, inv, s, es, t);
  }

  /** No client up, none in flight, and no current attempt that is neither settled nor timed out. */
  predicate Clear(s: State) {
    && s.vars.activeClient.None? && s.vars.initPromise.None?
    && !(IsRunning(s, s.vars.attemptGeneration) && !s.attempts[s.vars.attemptGeneration].timedOut)
  }

  /** Going from `s` to `t`, an attempt started only if the way was clear, and it is the next generation's. */
  predicate StartsOnlyWhenClear(s: State, t: State) {
    t.attempts.Keys != s.attempts.Keys ==> Clear(s) && t.vars.attemptGeneration == s.vars.attemptGeneration + 1
  }

  lemma StartIsClear(s: State, identity: Identity)
    requires Inv(s) && !Joins(s.vars, identity.address)
    ensures StartsOnlyWhenClear(s, StartAttempt(s, identity))
  {
  }

  lemma CallIsClear(s: State, identity: Identity)
    requires Inv(s)
    ensures StartsOnlyWhenClear(s, CallGetOrCreate(s, identity)) && StartsOnlyWhenClear(s, CallOpen(s, identity.address))
  {
    if !Joins(s.vars, identity.address) {
      StartIsClear(s, identity);
      StartIsClear(s, Identity(identity.address, None));
    }
  }

  lemma RetryIsClear(s: State)
    requires Inv(s)
    ensures StartsOnlyWhenClear(s, CallRetry(s))
  {
    if s.vars.lastIdentity.Some? { CallIsClear(s.(retrying := true), s.vars.lastIdentity.value); }
  }

  lemma ContinuationIsClear(s: State, e: Event)
    requires Inv(s) && Enabled(s, e) && (e.ResetContinue? || e.JoinRejected?)
    ensures StartsOnlyWhenClear(s, Apply(s, e))
  {
    if e.ResetContinue? {
      CallIsClear(s.(resets := Without(s.resets, e.i)), s.resets[e.i]);
    } else {
      CallIsClear(s.(joins := Without(s.joins, e.i)), s.joins[e.i].identity);
    }
  }

  lemma SettlementStartsNothing(s: State, e: Event)
    requires Enabled(s, e) && (e.SettleOk? || e.SettleFail? || e.Timeout?)
    ensures Apply(s, e).attempts.Keys == s.attempts.Keys
  {
  }

  lemma EventIsClear(s: State, e: Event)
    requires Inv(s) && Enabled(s, e) && !e.SwitchContinue?
    ensures StartsOnlyWhenClear(s, Apply(s, e))
  {
    match e {
      case GetOrCreate(identity) => CallIsClear(s, identity);
      case OpenClient(address) => CallIsClear(s, Identity(address, None));
      case Retry => RetryIsClear(s);
      case RetryDone =>
      case Drop =>
      case Reset(_) =>
      case ResetContinue(_) => ContinuationIsClear(s, e);
      case JoinRejected(_) => ContinuationIsClear(s, e);
      case SettleOk(_, _) => SettlementStartsNothing(s, e);
      case SettleFail(_, _) => SettlementStartsNothing(s, e);
      case Timeout(_) => SettlementStartsNothing(s, e);
    }
  }

  /** A call starts an attempt only when no client is up and none is in flight: callers for an address whose
      client is up or coming up share that attempt. */
  lemma SingleFlight(es: seq<Event>, s: State, e: Event)
    requires Run(SafeStep, INITIAL, es, s) && Enabled(s, e) && !e.SwitchContinue?
    ensures StartsOnlyWhenClear(s, Apply(s, e))
  {
    SafeRunInv(es, s);
    EventIsClear(s, e);
  }

  // ----- sign-out -----

  /** No client, no entry, no identity to retry, and no continuation that starts one by itself. */
  ghost predicate SignedOut(s: State) {
    && s.vars.activeClient.None? && s.vars.initPromise.None? && s.vars.lastIdentity.None?
    && s.vars.attemptGeneration !in s.attempts && s.switching == [] && s.resets == []
    && forall g :: g in s.attempts ==> g <= s.vars.attemptGeneration
  }

  /** Anything but the host asking for a client. */
  ghost predicate UnaskedStep(s: State, e: Event, t: State) {
    Step(s, e, t) && !e.GetOrCreate? && !e.OpenClient? && !e.Reset?
  }

  /** After a sign-out no client appears, and status stays idle, until the host asks again: whatever
      attempts settle, time out or are retried, and whichever joins wake up. */
  lemma SignedOutStaysOut(s: State, es: seq<Event>, t: State)
    requires SignedOut(s) && s.vars.status == Idle && Run(UnaskedStep, s, es, t)
    ensures t.vars.activeClient.None? && t.vars.status == Idle && t.announced == s.announced
  {
    var inv := (a: State) => SignedOut(a) && a.vars.status == Idle && a.announced == s.announced;
    forall a, e, b | inv(a) && UnaskedStep(a, e, b) ensures inv(b) {}
    RunInduction(UnaskedStep, inv, s, es, t);
  }

  /** Signing out puts the module there, unless a switch or a reset is inside its await. */
  lemma DropSignsOut(es: seq<Event>, s: State)
    requires Run(SafeStep, INITIAL, es, s) && s.switching == [] && s.resets == []
    ensures SignedOut(Apply(s, Drop)) && Apply(s, Drop).vars.status == Idle
  {
    SafeRunInv(es, s);
  }

  /** A sign-out holds until the host asks again if and only if neither a switch nor a reset is inside its
      await when it comes. */
  lemma SignOutHoldsIff(es: seq<Event>, s: State)
    requires Run(SafeStep, INITIAL, es, s)
    ensures (forall fs, t :: Run(UnaskedStep, Apply(s, Drop), fs, t) ==> t.vars.activeClient.None? && t.vars.status == Idle)
        <==> s.switching == [] && s.resets == []
  {
    if s.switching == [] && s.resets == [] {
      DropSignsOut(es, s);
      forall fs, t | Run(UnaskedStep, Apply(s, Drop), fs, t) ensures t.vars.activeClient.None? && t.vars.status == Idle {
        SignedOutStaysOut(Apply(s, Drop), fs, t);
      }
    } else {
      var fs, t := UndoneRun(Apply(s, Drop), Client("i"));
      assert Run(UnaskedStep, Apply(s, Drop), fs, t);
    }
  }

  /** From a dropped state with a continuation waiting, a client comes up unasked. */
  lemma UndoneRun(s: State, client: Client) returns (fs: seq<Event>, t: State)
    requires s.vars.activeClient.None? && s.vars.initPromise.None? && s.vars.activeAddress.None?
    requires s.switching != [] || s.resets != []
    ensures Run(UnaskedStep, s, fs, t) && t.vars.activeClient == Some(client)
  {
    var e := if s.switching != [] then SwitchContinue(0) else ResetContinue(0);
    var mid := Apply(s, e);
    var f := SettleOk(mid.vars.attemptGeneration, client);
    t := Apply(mid, f);
    fs := [e, f];
    assert Run(UnaskedStep, t, [], t);
    assert fs[1..] == [f] && [f][1..] == [];
    assert Run(UnaskedStep, mid, [f], t);
  }

  // ----- what can land inside an await -----

  const ALICE := Identity("a", Some("sa"))
  const BOB := Identity("b", Some("sb"))
  const CAROL := Identity("c", Some("sc"))

  /** A call for a third wallet inside a switch's await: its client comes up, the switch resumes over it,
      and status then reports that client as ready for the wrong wallet. */
  lemma SwitchCanResumeOverLiveClient(carol: Client) returns (es: seq<Event>, s: State)
    ensures Run(Step, INITIAL, es, s)
    ensures s.vars.status == Ready("b", carol)
    ensures 3 in s.attempts && s.attempts[3] == Attempt("c", true, Made(carol), false)
  {
    assert Lower("a") == "a" && Lower("b") == "b" && Lower("c") == "c";
    es, s := [], INITIAL;
    es, s := Extend(es, s, GetOrCreate(ALICE));
    es, s := Extend(es, s, GetOrCreate(BOB));
    es, s := Extend(es, s, GetOrCreate(CAROL));
    es, s := Extend(es, s, SettleOk(3, carol));
    es, s := Extend(es, s, SwitchContinue(0));
  }

  lemma Extend(es: seq<Event>, s: State, e: Event) returns (fs: seq<Event>, t: State)
    requires Run(Step, INITIAL, es, s) && Enabled(s, e)
    ensures t == Apply(s, e) && fs == es + [e] && Run(Step, INITIAL, fs, t)
  {
    fs, t := es + [e], Apply(s, e);
    RunSnoc(Step, INITIAL, es, s, e, t);
  }

  /** A sign-out inside a reset's await does not hold, in any state: the reset goes on to start a client,
      which becomes the active one when it is made. */
  lemma SignOutInsideResetIsUndone(s: State, i: nat, client: Client)
    requires i < |s.resets|
    ensures var t := Apply(Apply(s, Drop), ResetContinue(i));
            var address := Lower(s.resets[i].address);
            && t.vars.status == Initializing(address) && IsRunning(t, t.vars.attemptGeneration)
            && Apply(t, SettleOk(t.vars.attemptGeneration, client)).vars.status == Ready(address, client)
  {
  }

  /** Nor does one inside a wallet switch's await: the switch goes on to start the new wallet's client. */
  lemma SignOutInsideSwitchIsUndone(s: State, i: nat, client: Client)
    requires i < |s.switching|
    ensures var t := Apply(Apply(s, Drop), SwitchContinue(i));
            var address := Lower(s.switching[i].address);
            && t.vars.status == Initializing(address) && IsRunning(t, t.vars.attemptGeneration)
            && Apply(t, SettleOk(t.vars.attemptGeneration, client)).vars.status == Ready(address, client)
  {
  }

  /** When no lifecycle call lands inside a switch's await, every switch resumes with no client up. */
  ghost predicate QuietStep(s: State, e: Event, t: State) {
    Step(s, e, t) && (s.switching != [] ==> !IsCall(e))
  }

  predicate IsCall(e: Event) {
    e.GetOrCreate? || e.OpenClient? || e.Retry? || e.Reset? || e.ResetContinue? || e.JoinRejected?
  }

  lemma QuietRunsAreSafe(es: seq<Event>, s: State)
    requires Run(QuietStep, INITIAL, es, s)
    ensures Inv(s) && |s.switching| <= 1 && (s.switching != [] ==> s.vars.activeClient.None? && s.vars.initPromise.None?)
  {
    InvInitial();
    forall a, e, b | Quiet(a) && QuietStep(a, e, b) ensures Quiet(b) {
      QuietKept(a, e, b);
    }
    RunInduction(QuietStep, (a: State) => Quiet(a), INITIAL, es, s);
  }

  /** At most one switch is waiting, over no client and no live attempt. */
  ghost predicate Waiting(s: State) {
    && |s.switching| <= 1
    && (s.switching != [] ==> s.vars.activeClient.None? && s.vars.attemptGeneration !in s.attempts)
  }

  ghost predicate Quiet(s: State) {
    Inv(s) && Waiting(s)
  }

  lemma QuietKept(a: State, e: Event, b: State)
    requires Quiet(a) && QuietStep(a, e, b)
    ensures Quiet(b)
  {
    InvStep(a, e);
    if a.switching == [] { FirstSwitch(a, e); } else { SwitchWaits(a, e); }
  }

  /** Whatever starts waiting has just dropped the client, under a generation no attempt has yet. */
  lemma FirstSwitch(a: State, e: Event)
    requires Enabled(a, e) && a.switching == [] && forall g :: g in a.attempts ==> g <= a.vars.attemptGeneration
    ensures Waiting(Apply(a, e))
  {
    StartWaits(a);
    if e.ResetContinue? { StartWaits(a.(resets := Without(a.resets, e.i))); }
    if e.JoinRejected? { StartWaits(a.(joins := Without(a.joins, e.i))); }
    if e.Retry? { StartWaits(a.(retrying := true)); }
  }

  lemma StartWaits(a: State)
    requires a.switching == [] && forall g :: g in a.attempts ==> g <= a.vars.attemptGeneration
    ensures forall identity :: Waiting(StartAttempt(a, identity))
  {
  }

  lemma SwitchWaits(a: State, e: Event)
    requires Enabled(a, e) && Waiting(a) && a.switching != [] && !IsCall(e)
    requires forall g :: g in a.attempts ==> g <= a.vars.attemptGeneration
    ensures Waiting(Apply(a, e))
  {
  }

  /** A quiet run is a safe run, so all that holds of safe runs holds of it. */
  lemma {:induction false} QuietIsSafe(a: State, es: seq<Event>, t: State)
    requires Quiet(a) && Run(QuietStep, a, es, t)
    ensures Run(SafeStep, a, es, t)
    decreases |es|
  {
    if es != [] {
      var m :| QuietStep(a, es[0], m) && Run(QuietStep, m, es[1..], t);
      QuietKept(a, es[0], m);
      assert SafeStep(a, es[0], m);
      QuietIsSafe(m, es[1..], t);
    }
  }

  /** In quiet runs every start, a resuming switch's own included, finds the way clear. */
  lemma QuietSingleFlight(es: seq<Event>, s: State, e: Event)
    requires Run(QuietStep, INITIAL, es, s) && Enabled(s, e) && (s.switching != [] ==> !IsCall(e))
    ensures StartsOnlyWhenClear(s, Apply(s, e))
  {
    InvInitial();
    QuietIsSafe(INITIAL, es, s);
    QuietRunsAreSafe(es, s);
    if !e.SwitchContinue? { SingleFlight(es, s, e); }
  }
}
