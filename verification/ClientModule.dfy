/** The lifecycle module as it is written: variables assigned one by one, with listeners notified in
    between. Each method's effect is the matching function of `ClientLifecycle`. */
module ClientModule {
  import opened Wrappers
  import opened Text
  import opened ClientLifecycle

  /** What a call came to: it shares the attempt in flight (waiting to retry with its own signer if that
      fails), or a new attempt started, or the old wallet's client was dropped first and the start waits. */
  datatype CallOutcome = Shares(generation: nat, waits: bool) | Starts(generation: nat) | Switches

  class Module {
    var initPromise: Option<nat>
    var activeClient: Option<Client>
    var activeAddress: Option<string>
    var lastIdentity: Option<Identity>
    var lastError: Option<string>
    var attemptHasSigner: bool
    var attemptGeneration: nat
    var statusSnapshot: Status

    ghost function View(): Vars
      reads this
    {
      Vars(initPromise, activeClient, activeAddress, lastIdentity, lastError, attemptHasSigner,
           attemptGeneration, statusSnapshot)
    }

    constructor ()
      ensures View() == INITIAL_VARS
    {
      initPromise, activeClient, activeAddress, lastIdentity, lastError := None, None, None, None, None;
      attemptHasSigner, attemptGeneration, statusSnapshot := false, 0, Idle;
    }

    method NotifyLifecycle()
      modifies this`statusSnapshot
      ensures View() == Notified(old(View()))
    {
      if activeClient.Some? && activeAddress.Some? {
        statusSnapshot := Ready(activeAddress.value, activeClient.value);
      } else if initPromise.Some? && activeAddress.Some? {
        statusSnapshot := Initializing(activeAddress.value);
      } else if lastIdentity.Some? && lastError.Some? {
        var limit := IsInstallationLimitError(lastError.value);
        statusSnapshot := Failed(Lower(lastIdentity.value.address), lastError.value, lastIdentity.value.signer.None?, limit);
      } else {
        statusSnapshot := Idle;
      }
    }

    method DropXmtpClient()
      modifies this
      ensures View() == Dropped(old(View()))
    {
      attemptGeneration := attemptGeneration + 1;
      activeClient := None;
      initPromise := None;
      activeAddress := None;
      lastIdentity := None;
      lastError := None;
      attemptHasSigner := false;
      NotifyLifecycle();
    }

    /** The part of a local-state reset before its first await. */
    method ResetTeardown()
      modifies this
      ensures View() == TornDown(old(View()))
    {
      attemptGeneration := attemptGeneration + 1;
      activeClient := None;
      initPromise := None;
      activeAddress := None;
      NotifyLifecycle();
    }

    method GetOrCreate(identity: Identity) returns (r: CallOutcome)
      requires identity.signer.Some?
      modifies this
      ensures r.Shares? <==> Joins(old(View()), identity.address)
      ensures forall wallet :: old(activeAddress) == Some(Lower(wallet)) ==>
        (r.Shares? <==> old(initPromise).Some? && SameWord(wallet, identity.address))
      ensures r.Shares? ==>
        && View() == old(View()).(lastIdentity := Some(identity)) && r.generation == old(initPromise).value
        && (r.waits <==> old(activeClient).None? && !old(attemptHasSigner))
      ensures r.Starts? ==> View() == Started(old(View()), identity) && r.generation == attemptGeneration
      ensures r.Switches? ==> View() == Dropped(old(View())) && old(activeAddress).Some?
    {
      forall wallet ensures Lower(wallet) == Lower(identity.address) <==> SameWord(wallet, identity.address) {
        LowerForgetsCase(wallet, identity.address);
      }
      if activeAddress == Some(Lower(identity.address)) && initPromise.Some? {
        lastIdentity := Some(identity);
        return Shares(initPromise.value, activeClient.None? && !attemptHasSigner);
      }
      r := StartAttempt(identity);
    }

    method OpenClient(address: string) returns (r: CallOutcome)
      modifies this
      ensures r.Shares? <==> Joins(old(View()), address)
      ensures forall wallet :: old(activeAddress) == Some(Lower(wallet)) ==>
        (r.Shares? <==> old(initPromise).Some? && SameWord(wallet, address))
      ensures r.Shares? ==> View() == old(View()) && r.generation == old(initPromise).value
      ensures r.Starts? ==> View() == Started(old(View()), Identity(address, None)) && r.generation == attemptGeneration
      ensures r.Switches? ==> View() == Dropped(old(View())) && old(activeAddress).Some?
    {
      forall wallet ensures Lower(wallet) == Lower(address) <==> SameWord(wallet, address) {
        LowerForgetsCase(wallet, address);
      }
      if activeAddress == Some(Lower(address)) && initPromise.Some? {
        return Shares(initPromise.value, false);
      }
      r := StartAttempt(Identity(address, None));
    }

    method StartAttempt(identity: Identity) returns (r: CallOutcome)
      modifies this
      ensures r.Switches? <==> old(activeAddress).Some? && old(activeAddress).value != Lower(identity.address)
      ensures r.Switches? ==> View() == Dropped(old(View()))
      ensures !r.Switches? ==> r == Starts(attemptGeneration) && View() == Started(old(View()), identity)
    {
      if activeAddress.Some? && activeAddress.value != Lower(identity.address) {
        DropXmtpClient();
        return Switches;
      }
      BeginAttempt(identity);
      return Starts(attemptGeneration);
    }

    /** The rest of a start, run at once or after a switch's await. */
    method BeginAttempt(identity: Identity)
      modifies this
      ensures View() == Started(old(View()), identity)
    {
      activeAddress := Some(Lower(identity.address));
      lastIdentity := Some(identity);
      attemptHasSigner := identity.signer.Some?;
      attemptGeneration := attemptGeneration + 1;
      initPromise := Some(attemptGeneration);
      NotifyLifecycle();
    }

    method AdoptClient(client: Client, address: string, generation: nat) returns (announced: bool)
      modifies this
      ensures View() == Adopted(old(View()), generation, address, client)
      ensures announced <==> Adopts(old(View()), generation)
    {
      if generation != attemptGeneration || activeClient.Some? { return false; }
      activeClient := Some(client);
      activeAddress := Some(address);
      if initPromise.None? { initPromise := Some(generation); }
      lastError := None;
      NotifyLifecycle();
      return true;
    }

    method FailAttempt(message: string, generation: nat)
      modifies this
      ensures View() == Rejected(old(View()), generation, message)
    {
      if generation != attemptGeneration || activeClient.Some? { return; }
      var timedOut := initPromise.None?;
      initPromise := None;
      activeAddress := None;
      if !timedOut { lastError := Some(message); }
      NotifyLifecycle();
    }

    method DeadlinePassed(generation: nat)
      modifies this
      ensures View() == TimedOutVars(old(View()), generation)
    {
      if generation == attemptGeneration && activeClient.None? {
        initPromise := None;
        activeAddress := None;
        lastError := Some(TIMEOUT_MESSAGE);
        NotifyLifecycle();
      }
    }
  }
}
