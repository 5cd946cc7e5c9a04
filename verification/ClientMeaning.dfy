/** What the lifecycle's calls come to, told from wallets, clients and the status a caller sees. */
module ClientMeaning {
  import opened Wrappers
  import opened Text
  import opened Runs
  import opened ClientLifecycle

  // ----- one entry per wallet -----

  /** While an attempt or its client is there, a call is for the same wallet when its address is that of the last
      identity, case aside. */
  lemma EntryIsPerWallet(es: seq<Event>, s: State, address: string)
    requires Run(SafeStep, INITIAL, es, s) && s.vars.initPromise.Some?
    ensures s.vars.lastIdentity.Some?
    ensures Joins(s.vars, address) <==> SameWord(s.vars.lastIdentity.value.address, address)
  {
    SafeRunInv(es, s);
    LowerForgetsCase(s.vars.lastIdentity.value.address, address);
  }

  /** An open of the wallet that is up or coming up changes nothing. */
  lemma SameWalletOpens(es: seq<Event>, s: State, address: string)
    requires Run(SafeStep, INITIAL, es, s) && s.vars.initPromise.Some?
    ensures s.vars.lastIdentity.Some?
    ensures SameWord(s.vars.lastIdentity.value.address, address) ==> Apply(s, OpenClient(address)) == s
  {
    EntryIsPerWallet(es, s, address);
  }

  /** A call with a signer for that wallet leaves its signer behind, and waits on an attempt that has none; no
      attempt starts and no client goes. */
  lemma SameWalletShares(es: seq<Event>, s: State, identity: Identity)
    requires Run(SafeStep, INITIAL, es, s) && s.vars.initPromise.Some? && identity.signer.Some?
    ensures s.vars.lastIdentity.Some?
    ensures SameWord(s.vars.lastIdentity.value.address, identity.address) ==>
      var t := Apply(s, GetOrCreate(identity));
      && t.vars == s.vars.(lastIdentity := Some(identity)) && t.attempts == s.attempts
      && t.switching == s.switching && t.resets == s.resets && t.announced == s.announced && t.retrying == s.retrying
      && t.joins == s.joins + if s.vars.activeClient == None && !s.vars.attemptHasSigner
                              then [Join(s.vars.attemptGeneration, identity)] else []
  {
    EntryIsPerWallet(es, s, identity.address);
    SafeRunInv(es, s);
  }

  /** A call for another wallet drops what is there, and goes on to start after the await. */
  lemma OtherWalletSwitches(es: seq<Event>, s: State, identity: Identity)
    requires Run(SafeStep, INITIAL, es, s) && s.vars.initPromise.Some?
    ensures s.vars.lastIdentity.Some?
    ensures !SameWord(s.vars.lastIdentity.value.address, identity.address) ==>
      var t := Apply(s, if identity.signer == None then OpenClient(identity.address) else GetOrCreate(identity));
      && t.vars == Vars(None, None, None, None, None, false, s.vars.attemptGeneration + 1, Idle)
      && t.switching == s.switching + [identity] && t.attempts == s.attempts
      && t.joins == s.joins && t.resets == s.resets && t.announced == s.announced && t.retrying == s.retrying
  {
    EntryIsPerWallet(es, s, identity.address);
    SafeRunInv(es, s);
  }

  // ----- what a start is -----

  /** A new attempt under the next generation, for this wallet: it is the entry, and the status says so. */
  ghost predicate HasStarted(s: State, t: State, identity: Identity) {
    var g := s.vars.attemptGeneration + 1;
    && t.vars == Vars(Some(g), s.vars.activeClient, Some(Lower(identity.address)), Some(identity), s.vars.lastError,
                      identity.signer != None, g, t.vars.status)
    && (s.vars.activeClient == None ==> t.vars.status == Initializing(Lower(identity.address)))
    && t.attempts == s.attempts[g := Attempt(Lower(identity.address), identity.signer != None, Running, false)]
    && t.announced == s.announced
  }

  lemma BeginStarts(s: State, identity: Identity)
    ensures HasStarted(s, Begin(s, identity), identity)
  {
  }

  /** With no entry a call starts an attempt. */
  lemma CallStarts(es: seq<Event>, s: State, identity: Identity)
    requires Run(SafeStep, INITIAL, es, s) && s.vars.initPromise.None?
    ensures var t := Apply(s, if identity.signer == None then OpenClient(identity.address) else GetOrCreate(identity));
      && HasStarted(s, t, identity)
      && t.switching == s.switching && t.resets == s.resets && t.joins == s.joins && t.retrying == s.retrying
  {
    SafeRunInv(es, s);
    BeginStarts(s, identity);
  }

  /** A retry runs the last identity's attempt again, unless a client is up or coming up, a retry is under way, or
      there is nothing to retry. */
  lemma RetryStarts(es: seq<Event>, s: State)
    requires Run(SafeStep, INITIAL, es, s)
    ensures var t := Apply(s, Retry);
      if s.vars.activeClient == None && s.vars.initPromise == None && !s.retrying && s.vars.lastIdentity != None
      then HasStarted(s, t, s.vars.lastIdentity.value) && t.retrying && t.switching == s.switching && t.joins == s.joins
           && t.resets == s.resets
      else t == s
  {
    SafeRunInv(es, s);
    if s.vars.lastIdentity.Some? { BeginStarts(s.(retrying := true), s.vars.lastIdentity.value); }
  }

  /** A retry that is over, however it ended, makes way for the next one. */
  lemma RetryMakesWay(es: seq<Event>, s: State)
    requires Run(SafeStep, INITIAL, es, s) && Enabled(s, RetryDone)
    ensures var t := Apply(s, RetryDone);
      && t == s.(retrying := false)
      && (s.vars.activeClient == None && s.vars.initPromise == None && s.vars.lastIdentity != None ==>
            HasStarted(t, Apply(t, Retry), s.vars.lastIdentity.value))
  {
    SafeRunInv(es, s);
    if s.vars.lastIdentity.Some? { BeginStarts(s, s.vars.lastIdentity.value); }
  }

  /** A caller whose shared attempt failed goes on only if its wallet is still the last one asked for: it then
      starts an attempt with its signer, or shares the one started meanwhile. */
  lemma RejectedJoinStarts(es: seq<Event>, s: State, i: nat)
    requires Run(SafeStep, INITIAL, es, s) && Enabled(s, JoinRejected(i))
    ensures var j, t, rest := s.joins[i].identity, Apply(s, JoinRejected(i)), s.joins[..i] + s.joins[i + 1..];
      if s.vars.lastIdentity != None && SameWord(s.vars.lastIdentity.value.address, j.address)
      then if s.vars.initPromise == None then HasStarted(s, t, j) && t.joins == rest
           else t.vars == s.vars.(lastIdentity := Some(j)) && t.attempts == s.attempts
                && t.joins == rest + if s.vars.activeClient == None && !s.vars.attemptHasSigner
                                     then [Join(s.vars.attemptGeneration, j)] else []
      else t == s.(joins := rest)
  {
    SafeRunInv(es, s);
    var j := s.joins[i].identity;
    if s.vars.lastIdentity.Some? { LowerForgetsCase(s.vars.lastIdentity.value.address, j.address); }
    BeginStarts(s.(joins := Without(s.joins, i)), j);
  }

  // ----- the status -----

  /** The error, case aside, holds one of XMTP's ways to say that the installation cap is reached. */
  ghost predicate NamesCap(error: string) {
    exists front, back ::
      || Lower(error) == front + "10/10" + back
      || Lower(error) == front + "already registered" + back
      || Lower(error) == front + "installation limit" + back
      || Lower(error) == front + "maximum number of installations" + back
  }

  lemma CapMeaning(error: string)
    ensures IsInstallationLimitError(error) <==> NamesCap(error)
  {
    var m := Lower(error);
    ContainsMeaning(m, "10/10");
    ContainsMeaning(m, "already registered");
    ContainsMeaning(m, "installation limit");
    ContainsMeaning(m, "maximum number of installations");
  }

  /** The status in every safe run: ready with the client while one is up, initializing while an attempt is the
      entry, failed with the last error once one is kept for an identity, idle otherwise. */
  lemma StatusMeaning(es: seq<Event>, s: State)
    requires Run(SafeStep, INITIAL, es, s)
    ensures var v := s.vars;
      if v.activeClient != None then v.activeAddress != None && v.status == Ready(v.activeAddress.value, v.activeClient.value)
      else if v.initPromise != None then v.activeAddress != None && v.status == Initializing(v.activeAddress.value)
      else if v.lastIdentity != None && v.lastError != None then
        v.status == Failed(Lower(v.lastIdentity.value.address), v.lastError.value, v.lastIdentity.value.signer == None,
                           NamesCap(v.lastError.value))
      else v.status == Idle
  {
    SafeRunInv(es, s);
    if s.vars.lastError.Some? { CapMeaning(s.vars.lastError.value); }
  }

  /** An attempt that is still the current one, with no client up, and makes its client: it is ready under its
      address, announced, and no error is kept. */
  lemma CurrentAttemptMakes(es: seq<Event>, s: State, client: Client)
    requires var g := s.vars.attemptGeneration;
      Run(SafeStep, INITIAL, es, s) && IsRunning(s, g) && s.vars.activeClient == None
    ensures var g, t := s.vars.attemptGeneration, Apply(s, SettleOk(s.vars.attemptGeneration, client));
      && t.vars == Vars(Some(g), Some(client), Some(s.attempts[g].address), s.vars.lastIdentity, None,
                        s.vars.attemptHasSigner, g, Ready(s.attempts[g].address, client))
      && t.announced == s.announced + [g]
  {
    SafeRunInv(es, s);
  }

  /** One that fails reports its error with the wallet, unless its timeout was already; whoever waits on it can
      go on. */
  lemma CurrentAttemptFails(es: seq<Event>, s: State, message: string)
    requires var g := s.vars.attemptGeneration;
      Run(SafeStep, INITIAL, es, s) && IsRunning(s, g) && s.vars.activeClient == None
    ensures s.vars.lastIdentity != None
    ensures var g, t := s.vars.attemptGeneration, Apply(s, SettleFail(s.vars.attemptGeneration, message));
      var error := if s.attempts[g].timedOut then TIMEOUT_MESSAGE else message;
      && t.vars == Vars(None, None, None, s.vars.lastIdentity, Some(error), s.vars.attemptHasSigner, g,
                        Failed(s.attempts[g].address, error, s.vars.lastIdentity.value.signer == None, NamesCap(error)))
      && t.announced == s.announced
      && forall i :: 0 <= i < |s.joins| && s.joins[i].generation == g ==> Enabled(t, JoinRejected(i))
  {
    SafeRunInv(es, s);
    CapMeaning(message);
    CapMeaning(TIMEOUT_MESSAGE);
  }

  /** At its deadline such an attempt loses the entry, the wallet can be asked for again, the timeout is the error
      reported, and whoever waits on it can go on. */
  lemma CurrentAttemptTimesOut(es: seq<Event>, s: State)
    requires var g := s.vars.attemptGeneration;
      Run(SafeStep, INITIAL, es, s) && Enabled(s, Timeout(g)) && s.vars.activeClient == None
    ensures s.vars.lastIdentity != None
    ensures var g, t := s.vars.attemptGeneration, Apply(s, Timeout(s.vars.attemptGeneration));
      && t.vars == Vars(None, None, None, s.vars.lastIdentity, Some("XMTP client creation timed out"), s.vars.attemptHasSigner, g,
                        Failed(s.attempts[g].address, "XMTP client creation timed out",
                               s.vars.lastIdentity.value.signer == None, NamesCap("XMTP client creation timed out")))
      && t.announced == s.announced && IsRunning(t, g)
      && forall i :: 0 <= i < |s.joins| && s.joins[i].generation == g ==> Enabled(t, JoinRejected(i))
  {
    SafeRunInv(es, s);
    CapMeaning(TIMEOUT_MESSAGE);
  }

  /** A sign-out forgets everything, and what was running can no longer land. */
  lemma SignOutForgets(s: State)
    ensures var t := Apply(s, Drop);
      && t.vars == Vars(None, None, None, None, None, false, s.vars.attemptGeneration + 1, Idle)
      && t == s.(vars := t.vars)
  {
  }

  /** A reset of local state drops client and entry, keeps whose they were and what failed, and remembers to ask
      for the client again. */
  lemma ResetKeepsIdentity(s: State, identity: Identity)
    requires identity.signer != None
    ensures var v, t := s.vars, Apply(s, Reset(identity));
      && t.vars == Vars(None, None, None, v.lastIdentity, v.lastError, v.attemptHasSigner, v.attemptGeneration + 1, t.vars.status)
      && t.resets == s.resets + [identity] && t == s.(vars := t.vars, resets := t.resets)
  {
  }

  /** When its await is over it asks, as any caller would. */
  lemma ResetAsksAgain(s: State, i: nat)
    requires Enabled(s, ResetContinue(i)) && s.resets[i].signer != None
    ensures Apply(s, ResetContinue(i)) == Apply(s.(resets := s.resets[..i] + s.resets[i + 1..]), GetOrCreate(s.resets[i]))
  {
  }

  /** A switch that resumes starts its wallet's attempt. */
  lemma SwitchStarts(s: State, i: nat)
    requires Enabled(s, SwitchContinue(i))
    ensures HasStarted(s, Apply(s, SwitchContinue(i)), s.switching[i])
    ensures Apply(s, SwitchContinue(i)).switching == s.switching[..i] + s.switching[i + 1..]
  {
    BeginStarts(s.(switching := Without(s.switching, i)), s.switching[i]);
  }
}
