/** Sending with a known outcome: prepare first, then race the publish against a timeout. */
module PublishState {
  import opened Wrappers
  import opened Text
  import opened DeliveryState

  /** What can settle the race: its timer, the publish resolving, or the publish rejecting with an error
      whose message, if it has one, is given. */
  datatype Callback = TimedOut | Resolved | RejectedWith(message: Option<string>)

  datatype Outcome = OutcomeSent | OutcomeUnpublished | OutcomeFailed

  /** libxmtp's "stored, but could not confirm the publish in time". */
  predicate IsUnconfirmedPublish(message: Option<string>) {
    message.Some? && (Contains(message.value, "SyncFailedToWait") || Contains(message.value, "Sync failed to wait for intent"))
  }

  /** The text holds one of libxmtp's two ways to say so. */
  ghost predicate NamesSyncTimeout(message: string) {
    exists front, back ::
      message == front + "SyncFailedToWait" + back || message == front + "Sync failed to wait for intent" + back
  }

  lemma RejectionMeaning(message: Option<string>)
    ensures IsUnconfirmedPublish(message) <==> message.Some? && NamesSyncTimeout(message.value)
  {
    if message.Some? {
      ContainsMeaning(message.value, "SyncFailedToWait");
      ContainsMeaning(message.value, "Sync failed to wait for intent");
    }
  }

  function OutcomeOf(c: Callback): Outcome {
    match c
    case TimedOut => OutcomeUnpublished
    case Resolved => OutcomeSent
    case RejectedWith(message) => if IsUnconfirmedPublish(message) then OutcomeUnpublished else OutcomeFailed
  }

  /** The race between one publish and its timer. */
  class PublishRace {
    var settled: bool
    var outcome: Option<Outcome>
    ghost var calls: seq<Callback>

    /** The first callback decides; later ones change nothing. */
    ghost predicate Valid()
      reads this
    {
      settled == (calls != []) && outcome == if calls == [] then None else Some(OutcomeOf(calls[0]))
    }

    constructor ()
      ensures Valid() && calls == []
    {
      settled, outcome, calls := false, None, [];
    }

    method OnTimeout()
      requires Valid()
      modifies this
      ensures Valid() && calls == old(calls) + [TimedOut]
      ensures outcome == if old(calls) == [] then Some(OutcomeUnpublished) else old(outcome)
    {
      calls := calls + [TimedOut];
      if settled { return; }
      settled := true;
      outcome := Some(OutcomeUnpublished);
    }

    method OnResolve()
      requires Valid()
      modifies this
      ensures Valid() && calls == old(calls) + [Resolved]
      ensures outcome == if old(calls) == [] then Some(OutcomeSent) else old(outcome)
    {
      calls := calls + [Resolved];
      if settled { return; }
      settled := true;
      outcome := Some(OutcomeSent);
    }

    method OnReject(message: Option<string>)
      requires Valid()
      modifies this
      ensures Valid() && calls == old(calls) + [RejectedWith(message)]
      ensures old(calls) != [] ==> outcome == old(outcome)
      ensures old(calls) == [] ==>
        && (outcome == Some(OutcomeUnpublished) <==> message.Some? && NamesSyncTimeout(message.value))
        && (outcome == Some(OutcomeFailed) <==> !(message.Some? && NamesSyncTimeout(message.value)))
    {
      RejectionMeaning(message);
      calls := calls + [RejectedWith(message)];
      if settled { return; }
      settled := true;
      outcome := Some(if IsUnconfirmedPublish(message) then OutcomeUnpublished else OutcomeFailed);
    }
  }

  /** A tracked send resolves with an id and how far it got, or throws, perhaps naming a stored id. */
  datatype TrackedSend = Tracked(id: Id, delivery: Delivery) | Threw(messageId: Option<Id>)

  /** Prepare (None when it throws), then race the publish. */
  function SendPrepared(prepared: Option<Id>, first: Callback): TrackedSend {
    if prepared.None? then Threw(None)
    else match OutcomeOf(first)
      case OutcomeSent => Tracked(prepared.value, Sent)
      case OutcomeUnpublished => Tracked(prepared.value, Unpublished)
      case OutcomeFailed => Threw(prepared)
  }

  /** Publishing what the SDK already holds keeps the id; only the delivery state comes back. */
  function RepublishStored(c: Callback): Delivery
    requires !c.TimedOut?
  {
    match OutcomeOf(c)
    case OutcomeSent => Sent
    case OutcomeUnpublished => Unpublished
    case OutcomeFailed => Failed
  }

  /** How a send that was stored as `id` comes out: a timeout leaves it unpublished, a publish that resolves has
      it sent, a rejection leaves it unpublished if it only says the publish could not be confirmed in time, and
      fails otherwise, naming the id. */
  lemma PublishMeaning(id: Id, message: Option<string>)
    ensures SendPrepared(Some(id), TimedOut) == Tracked(id, Unpublished)
    ensures SendPrepared(Some(id), Resolved) == Tracked(id, Sent)
    ensures SendPrepared(Some(id), RejectedWith(message))
         == if message.Some? && NamesSyncTimeout(message.value) then Tracked(id, Unpublished) else Threw(Some(id))
    ensures forall first :: SendPrepared(None, first) == Threw(None)
  {
    RejectionMeaning(message);
  }

  /** The same of publishing what the SDK holds already. */
  lemma RepublishMeaning(message: Option<string>)
    ensures RepublishStored(Resolved) == Sent
    ensures RepublishStored(RejectedWith(message))
         == if message.Some? && NamesSyncTimeout(message.value) then Unpublished else Failed
  {
    RejectionMeaning(message);
  }

  /** Once prepared, no outcome loses the stored id; and an id never appears without a preparation. */
  lemma PreparedIdIsNeverLost(prepared: Option<Id>, first: Callback)
    ensures var r := SendPrepared(prepared, first);
            prepared == match r { case Tracked(id, _) => Some(id) case Threw(id) => id }
    ensures SendPrepared(prepared, first).Threw? <==>
            prepared.None? || (first.RejectedWith? && !IsUnconfirmedPublish(first.message))
  {
  }
}
