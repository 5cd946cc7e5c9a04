# Verified model of the chat package's protocols

A Dafny model of how `xmtp-chat-rn` keeps a chat consistent over a network that answers late, twice, or not at
all, with proofs of what it keeps. `dafny verify dfyconfig.toml` checks everything.

## What is modelled

**A thread's delivery state** (`DeliveryState`, `DeliveryMeaning`, `PublishState`, `ThreadSend`, `ThreadProtocol`,
`ThreadMeaning`, `ThreadInvariant`, `ThreadCounting`, `ThreadTwins`, `ThreadLocals`, `ThreadFailures`, `ThreadTheorems`,
`ThreadGivenUp`, `ThreadCopies`).
The newest-first bubble list with its operations; the publish race; the thread's mutable state, one method per piece
of code between two awaits. Each method is one event of a protocol: composer sends, uploads, preparations, acks,
timeouts, failures carrying a stored id, stream echoes and repeats of them, read receipts, retries, discards, mounts,
history loads and re-binds, interleaved in any order. History rows carry the SDK's mark, `UNPUBLISHED` or `FAILED`, or
none. A retry that sends anew what the SDK stored already is a second send: a message of its own, shown under the old
one's id until it settles. `delivered` are the messages the network ever delivered, by an echo or as published rows of
a loaded history; `confirmed` are those of them the list still shows so. `Enabled` says which events can happen: local
ids are fresh, network ids are fresh and never local, retry is tapped on a listed bubble, an attempt that failed with
nothing stored is not echoed, and history names each message once. The ids of a thread are those its own composer made
plus those the network gave.

**The client lifecycle** (`ClientLifecycle`, `ClientMeaning`, `ClientModule`). The module's variables and a machine around them
that remembers every attempt ever started, so that settlements and timeouts can arrive at any later time, and
every continuation still to run: joins, wallet switches and resets inside their awaits. `ClientModule.Module` is
the code, variable by variable; each method's effect is one function of the machine.
`InstallationCap` is the recovery at the installation cap.

**Group reconciliation** (`GroupReconcile`, `GroupCommits`, `GroupTheorems`, `RosterOutcome`, `GroupSession`). A reconcile as the
list of commits it makes, computed from the group and the roster. `GroupSession.SdkGroup` runs it with commits
that may throw, having landed or not. A group is `Sound` when addresses and inboxes correspond one to one, in the
group and in the directory.

**Reactions** (`JsMap`, `Reactions`, `ReactionFold`, `ReactionNetwork`, `ReactionToggle`, `ReactionTaps`,
`ReactionPills`, `ThreadReactions`). The replay over a stable sort (`StableSort`), JavaScript maps in insertion order,
pills, toggles, taps that overlap, the per-target map.
Times are integers compared with `<=`; `fine` says whether the double that holds a time can tell `base + i` from
`base`, and everything is proved for both answers.

**Read receipts** (`ReadReceipts`), the **download cache** and the **recycled-cell guard** (`AttachmentCache`,
`UseAttachment`).

Runs are lists of events (`Runs`); counting arguments are in `FiniteSets`, filtering in `Lists`, lowercasing and
trimming in `Text`. The modules named after a meaning or an outcome say what an operation comes to in the words of its
inputs alone: fields of bubbles, entries of the roster, addresses, events of the log.

## What the proofs found

- A wallet switch awaits the drop of the old client and does not look again afterwards
  (`src/client.ts:298-304`). A call for a third wallet inside that await leaves a client reported ready under the
  wrong wallet (`ClientLifecycle.SwitchCanResumeOverLiveClient`). A start is safe exactly when no client is up
  (`BeginSafeIff`); with no call inside the await every run is safe (`QuietRunsAreSafe`).
- A sign-out inside a reset's or a wallet switch's await does not hold: either goes on to start a client
  (`ClientLifecycle.SignOutInsideResetIsUndone`, `SignOutInsideSwitchIsUndone`). With neither waiting it holds, so
  the condition is exact (`SignOutHoldsIff`).
- A composer send is given to the SDK once, over every timeout, failure, republish and retry, with two exceptions
  (`ThreadCopies.NoSecondCopy`): a loaded history marked the message `FAILED`, or its failed bubble was retried in a
  thread that could not republish. Both have a run (`ThreadGivenUp.GivenUpIsSentTwice`,
  `ThreadCopies.DetachedRetrySendsTwice`). With a conversation attached, retry sends a stored message again exactly
  when no event of the run told the thread that the SDK holds it, and only if a history marked it
  (`AttachedSecondSendIff`).
- When the context card posted ahead of a text fails with an error that names the card, the text's bubble is put under
  the card's id and a retry publishes the card; the text is not sent (`ThreadSend.ForeignIdKeepsTextUnsent`).
- A second send settles on the bubble it is shown under without looking at it again (`src/threadSend.ts:94-105`). When
  the network delivered the old message after all, its bubble is overwritten and the list no longer shows a message the
  network has (`ThreadGivenUp.DeliveredButNotShown`). `DeliveredStaysIff` lists exactly the events by which a message
  shown as delivered stops being so.
- A re-bind while a prepared send is still being published shows it twice until its ack, once from history and
  once as the pending local copy (`ThreadTheorems.ResumeCanDouble`); `ResumeTwins` says exactly when.
- A member in both role sets whom the roster makes a plain member ends as an admin, and is reported as a plain
  member (`GroupTheorems.ReportIsTrueUnlessTwice`). Nobody being in that position is exactly what convergence
  after an interruption, and silence of a further run, need (`InterruptedRunConverges`, `SecondRunIsSilent`).
- The comment on `mergeReaction` calls repeated deliveries idempotent. Two events of one sender at one time are
  an exception (`ReactionToggle.RedeliveryAtATieIsNot`); `RedeliveryIsIdempotentIff` is the exact condition, and a
  sender's only event at its time is always safe (`LoneRedelivery`).
- A tap on a device whose clock is behind the tapper's other device can show nothing
  (`ReactionToggle.TapBehindTheClockIsLost`). A tap takes effect exactly when nothing of the tapper's stamped later
  adds anything or removes the tapped emoji (`TapTakesEffectIff`); otherwise `TapHolder` says what is held instead.
  Once the echoes are in, the network's times decide, not the device's (`ReactionNetwork.EchoesChangeNothing`), unless
  an echo is stamped before an earlier reaction (`EchoBehindIsOverruled`; for a tap `EchoOfATapIff` is exact).
- Two taps on one message that overlap undo each other. A failing tap puts back the log it started from and its own
  sent steps (`ReactionTaps.FailureLosesAllSince`): a later tap sent whole can vanish (`SecondTapVanishes`), and when
  the later one fails, steps the first never sent come back (`FailedStepsComeBack`).
- The cache key of an attachment is injective for hex digests; in general two digests let different files share a
  key exactly when one, followed by the colon, starts the other (`AttachmentCache.CollidesIff`).

## Model

| member | source | states |
|---|---|---|
| `DeliveryState.LocalIdsDistinct` | src/deliveryState.ts:85-103 | the id generator never repeats an id, and every id it makes is recognised as local |
| `DeliveryState.UploadBoard` | src/deliveryState.ts:162-171 | a finished upload changes the content of that one attachment bubble; ids stay unique |
| `DeliveryState.DiscardBoard` | src/deliveryState.ts:211-213 | exactly the named bubble goes |
| `DeliveryState.SetDeliveryBoard` | src/deliveryState.ts:182-193 | a bubble changes state, keeps its id or takes the given one, and is dropped when that one is listed already; nothing else moves |
| `DeliveryState.ReconcileBoard` | src/deliveryState.ts:221-231 | an ack renames the local copy, or drops it when the network id is already listed; ids stay unique |
| `DeliveryState.SettleBoard` | src/deliveryState.ts:201-208 | a retry outcome lands only on a bubble that is still pending |
| `DeliveryMeaning.DeliveryLands` | src/deliveryState.ts:182-193 | bubble by bubble: who gets the state and the id, and that the bubble goes instead when that id is listed |
| `DeliveryMeaning.AckLands` | src/deliveryState.ts:221-231 | the same of an ack |
| `DeliveryMeaning.OutcomeLands` | src/deliveryState.ts:201-208 | bubble by bubble: only one that is pending takes the outcome |
| `DeliveryMeaning.UploadLands` | src/deliveryState.ts:162-171 | bubble by bubble: the attachment of that id gets its digest and keeps its file |
| `DeliveryMeaning.DiscardKeepsOrder` | src/deliveryState.ts:211-213 | a discarded bubble goes and the rest keep their order |
| `DeliveryState.MergeBoard` | src/deliveryState.ts:234-297 | an echo replaces its own unconfirmed copy, or exactly one copy it can stand in for, or is added; a confirmed copy stays. Which copies those are is `DeliveryMeaning.StreamedReplaces` |
| `DeliveryState.MergeStreamedCopy` | src/deliveryState.ts:266-297 | the loop-and-overwrite form computes the merge of which the `DeliveryMeaning` rows speak |
| `DeliveryMeaning.StreamedAgain` | src/deliveryState.ts:266-297 | a message already listed is skipped, unless what is listed is an unconfirmed text or attachment: that is replaced in place, newest first |
| `DeliveryMeaning.StreamedReplaces` | src/deliveryState.ts:245-297 | a message of mine that is not listed replaces the first same-text copy that is pending, sent, unpublished, or failed within ten minutes of it, or the first such copy of the same digest, failed whenever; nothing else changes |
| `DeliveryMeaning.StreamedIsNew` | src/deliveryState.ts:245-297 | with no such copy, or by someone else, it is added and nothing goes |
| `DeliveryMeaning.UndeliveredTextStays` | src/deliveryState.ts:245-252 | a failed text more than ten minutes away from an echo of the same words stays |
| `DeliveryState.MarkBoard` | src/deliveryState.ts:316-325 | a receipt marks exactly my delivered text and attachment bubbles up to its time |
| `DeliveryState.MarkReadUpToPass` | src/deliveryState.ts:316-325 | the pass computes that marking, and its flag tells exactly whether any bubble moved |
| `DeliveryMeaning.ReceiptMarks` | src/deliveryState.ts:299-325 | which bubbles a receipt moves, from their own fields: mine, no card, sent no later, delivered and not read; the rest stay as they are |
| `DeliveryState.MarkReadIsWatermark` | src/deliveryState.ts:299-325 | marking up to a then b is marking up to the later |
| `DeliveryState.ReadSurvivesMerge` | src/deliveryState.ts:266-297 | a read bubble survives every merge unchanged |
| `DeliveryState.ReadIsFinal` | src/deliveryState.ts:195-231 | a read bubble survives settled retries, acks of other ids and receipts unchanged |
| `PublishState.PublishRace.OnTimeout` | src/publishState.ts:88-93 | called first, the outcome is unpublished; a late timer changes nothing |
| `PublishState.PublishRace.OnResolve` | src/publishState.ts:94-100 | called first, the outcome is sent; a late publish changes nothing |
| `PublishState.PublishRace.OnReject` | src/publishState.ts:101-107 | called first, the outcome is unpublished exactly when the message holds one of the two libxmtp texts, else failed; a late rejection changes nothing |
| `PublishState.PublishMeaning` | src/publishState.ts:86-126 | what a send that was stored comes to: unpublished after a timeout, sent after a publish, unpublished or a throw that names the id after a rejection; without a preparation it throws with no id |
| `PublishState.RepublishMeaning` | src/publishState.ts:165-174 | a republish that resolves is sent, one rejected with one of the two texts unpublished, any other failed |
| `PublishState.PreparedIdIsNeverLost` | src/publishState.ts:111-126 | once prepared, every outcome reports the stored id, and it throws only without one or on an outright failure |
| `ThreadSend.Thread.NextLocalId` | src/deliveryState.ts:87-93 | the next local id is one no message of the thread has |
| `ThreadSend.Thread.Send` | src/threadSend.ts:160-171 | blank text does nothing; otherwise a pending bubble of mine, with the trimmed text and what it replies to, is on top at once, and the send event of the protocol happens |
| `ThreadSend.Thread.SendAttachment` | src/threadSend.ts:151-158 | a pending bubble with the local file is on top at once, and the file-send event happens |
| `ThreadSend.Thread.UploadFinished` | src/threadSend.ts:119-127 | the attachment of that id has its digest, nothing else moves, and the upload event happens |
| `ThreadSend.Thread.UploadRefused` | src/threadSend.ts:131-139 | a file too large, or attachments not configured, removes exactly its bubble and rethrows |
| `ThreadSend.Thread.SendAcked` | src/threadSend.ts:94-95 | the ack event happens, of a first or a second send |
| `ThreadSend.Thread.SendThrew` | src/threadSend.ts:96-105 | the failure event happens, of a first or a second send, under the stored id when the error carries one |
| `ThreadSend.Thread.SettleSend` | src/threadSend.ts:87-149 | the bubble ends as sent when the publish resolved first, unpublished when the timer fired or the rejection says it could not be confirmed, failed otherwise, under the stored id, or goes when that is listed; and the ack or failure event happens |
| `ThreadSend.Thread.ChooseRetry` | src/threadSend.ts:173-206 | exactly when retry publishes again what the SDK stored, when it sends again, and that it does nothing else, with and without a conversation that can republish |
| `ThreadSend.Thread.ApplyRetry` | src/threadSend.ts:192-205 | the retried bubble is pending again, and one published again is remembered as stored |
| `ThreadSend.Thread.RetryMessage` | src/threadSend.ts:173-209 | the retry event happens, with or without a conversation that can republish |
| `ThreadSend.Thread.RepublishSettled` | src/threadSend.ts:191-194 | the outcome of a republish settles the bubble that waits for it, as sent, unpublished or failed by what was thrown, and no other |
| `ThreadSend.Thread.DiscardFailed` | src/threadSend.ts:211-219 | exactly that bubble goes, and the discard event happens |
| `ThreadSend.Thread.OnStreamed` | src/useConversation.ts:505-511 | the echo event happens |
| `ThreadSend.Thread.OnReceipt` | src/useConversation.ts:489-494 | my delivered texts and attachments up to its time are read, nothing else moves, and the receipt event happens |
| `ThreadSend.Thread.OnMount` | src/useConversation.ts:520-530 | the mount event happens: the list is emptied until history is loaded |
| `ThreadSend.Thread.AttachDm` | src/useConversation.ts:446-463 | binding is the load event, re-binding the resume event |
| `ThreadMeaning.SendsShowAtOnce` | src/threadSend.ts:151-171 | the bubble a send puts on top, field by field, and the message it starts |
| `ThreadMeaning.HistoryShows` | src/useConversation.ts:446-453 | a history shows its rows newest first, unpublished or failed where marked, mine up to the newest receipt read |
| `ThreadMeaning.CopyShows` | src/deliveryState.ts:254-265 | the network's copy: its id and time, no delivery state, an attachment without its local file |
| `ThreadMeaning.RowShows` | src/useConversation.ts:113-131 | a row shows the network's copy of its message with the SDK's mark |
| `ThreadMeaning.BindingShows` | src/useConversation.ts:446-463 | a first binding shows the history; a re-bind keeps beside it exactly the pending, sent, unpublished and failed bubbles it does not name |
| `ThreadMeaning.ContentMeaning` | src/threadSend.ts:195-205 | what retry has to send: a text, or a file to upload or uploaded |
| `ThreadMeaning.RetryShows` | src/threadSend.ts:173-209 | which bubbles a retry turns pending, what it remembers as stored and what it sends again, from the fields of the bubble |
| `ThreadInvariant.InvStep` | src/threadSend.ts:68-219 | every event of the thread keeps unique ids, the bookkeeping of every message, and what each bubble may show |
| `ThreadInvariant.RetryResendsOnlyUnstored` | src/threadSend.ts:173-209 | retry of a bubble under a local id sends anew only a message the SDK has not stored |
| `ThreadTheorems.ReachableInv` | src/deliveryState.ts:182-325 | ids are unique, and the invariant holds, at every state of every run |
| `ThreadTheorems.ThreadConverges` | src/deliveryState.ts:254-297 | with every send acked and every message confirmed, by an echo or by a loaded history, the list has exactly one bubble per network message and no local id; re-binds, given-up messages and second sends may occur anywhere |
| `ThreadTheorems.ThreadConvergesToEchoes` | src/deliveryState.ts:254-297 | without receipts that list is exactly the network's copies, newest first |
| `ThreadTheorems.LoadSettles` | src/useConversation.ts:446-463 | opening a thread whose history names every message settles it, with no echo needed |
| `ThreadTheorems.NeverDoubleBubbles` | src/deliveryState.ts:247-297 | per text or digest my bubbles never outnumber the messages I started, second sends counted, when no re-bind's history names a message still listed under its local id |
| `ThreadTheorems.TwinsStep` | src/deliveryState.ts:182-297 | in such runs a message listed under both ids is a confirmed one under its network id |
| `ThreadLocals.LocalsGoStep` | src/deliveryState.ts:105-325 | over every event, a local id that has left the list does not come back |
| `ThreadLocals.AloneStep` | src/threadSend.ts:173-209 | a message being sent a second time has no bubble left under its local id |
| `ThreadTheorems.ResumeTwins` | src/useConversation.ts:455-463 | exactly when a re-bind shows a message under both its ids |
| `ThreadTheorems.ResumeDoubles` | src/useConversation.ts:455-463 | a re-bind over a prepared send still under its local id shows it twice |
| `ThreadTheorems.ResumeCanDouble` | src/useConversation.ts:455-463 | a run in which that happens: send, prepare, re-bind |
| `ThreadTheorems.ResumeKeepsUnconfirmed` | src/useConversation.ts:455-463 | a re-bind keeps every unconfirmed bubble history does not hold, shows every history row, newest first, ids unique |
| `ThreadCopies.NoSecondCopy` | src/threadSend.ts:87-209 | over all timeouts, failures, republishes and retries, one composer send is prepared once and its file uploaded once, second sends and second sends of those counted, unless a history of the run marked it given up or its failed bubble was retried where republishing was not possible |
| `ThreadCopies.EveryCopyIsTraced` | src/threadSend.ts:173-206 | every second send is a copy, with the same text or digest, of a message that is none, so no copy escapes that count |
| `ThreadCopies.AttachedThreadSendsOnce` | src/threadSend.ts:181-194 | with a conversation that can republish attached throughout and nothing given up, nothing is ever sent a second time |
| `ThreadCopies.AttachedSecondSendIff` | src/threadSend.ts:181-206 | with one attached, exactly when retry sends a stored message again, from the events of the run; it is then one a loaded history gave up |
| `ThreadCopies.SecondSendsNeedGivingUp` | src/threadSend.ts:181-206 | a message no history gave up is sent again at most as often as it was retried where republishing was not possible |
| `ThreadCopies.StoredIdsIff` | src/threadSend.ts:102-103 | the thread knows an id as stored exactly when a publish failed under it, or a retry republished its unpublished bubble |
| `ThreadCopies.GivenUpIff` | src/useConversation.ts:125-131 | a message is given up exactly when a history of the run marked it so |
| `ThreadCopies.DeliveredIff` | src/useConversation.ts:446-511 | a message counts as delivered exactly when the run echoed it or loaded a history that shows it published |
| `ThreadCopies.DetachedRetrySendsTwice` | src/threadSend.ts:187-202 | a run: stored, publish failed, retried where republishing is not possible; two copies |
| `ThreadFailures.FailuresStep` | src/threadSend.ts:96-206 | every event keeps that a failed bubble under a network id, and whatever is being sent again, is known as stored or was given up |
| `ThreadSend.ForeignIdKeepsTextUnsent` | src/threadSend.ts:96-105 | an error that names another message puts the text's bubble under that message's id, or drops it; retry then never sends the text |
| `ThreadGivenUp.SecondSendIff` | src/threadSend.ts:173-206 | exactly when retry sends a stored message a second time: failed, under a network id, with content, and not known to be held by the SDK or not to be published from there |
| `ThreadGivenUp.SecondSendsAreAskedFor` | src/threadSend.ts:173-206 | a message is sent a second time at most as often as its failed bubble was tapped |
| `ThreadGivenUp.GivenUpIsSentTwice` | src/useConversation.ts:113-131 | a run: sent, stored, given up, loaded as failed, retried; two stored messages, one bubble |
| `ThreadGivenUp.DeliveredStaysIff` | src/threadSend.ts:87-219 | a message shown as delivered stays so over every event but a mount, a binding whose history does not show it published, its discard, and the settlement of a second send under its id |
| `ThreadGivenUp.DeliveredButNotShown` | src/threadSend.ts:94-95 | a run in which a second send's ack takes the bubble of the message the network delivered after all |
| `ThreadTheorems.LocalIsNeverRead` | src/deliveryState.ts:299-325 | a bubble with a local id is pending or failed, never read |
| `ClientModule.Module.NotifyLifecycle` | src/client.ts:104-149 | the cached status becomes the status of the variables |
| `ClientModule.Module.GetOrCreate` | src/client.ts:258-274 | a call for the same wallet, letter case aside, shares the entry and remembers the signer; another starts or switches |
| `ClientModule.Module.OpenClient` | src/client.ts:289-293 | a signer-less call for the same wallet, letter case aside, changes nothing while its client is up or coming up; else it starts or switches |
| `ClientModule.Module.StartAttempt` | src/client.ts:296-325 | another wallet is dropped first, else the start happens |
| `ClientModule.Module.BeginAttempt` | src/client.ts:301-325 | one new generation, for this address, as the single-flight entry |
| `ClientModule.Module.AdoptClient` | src/client.ts:436-459 | a client of the current generation is adopted and announced unless one is up; any other changes nothing |
| `ClientModule.Module.FailAttempt` | src/client.ts:467-477 | a failure of the current generation clears the entry and keeps a reported timeout; any other changes nothing |
| `ClientModule.Module.DeadlinePassed` | src/client.ts:343-352 | a deadline of the current generation clears the entry and reports the timeout; any other changes nothing |
| `ClientModule.Module.DropXmtpClient` | src/client.ts:582-598 | signing out clears everything and advances the generation |
| `ClientModule.Module.ResetTeardown` | src/client.ts:546-558 | a reset drops client and entry and advances the generation, keeping identity and error |
| `ClientMeaning.EntryIsPerWallet` | src/client.ts:258-274 | in safe runs a call shares the entry exactly when its address is that of the last identity but for letter case |
| `ClientMeaning.SameWalletOpens` | src/client.ts:289-293 | an open of the wallet that is up or coming up changes nothing |
| `ClientMeaning.SameWalletShares` | src/client.ts:258-274 | a call with a signer for it starts nothing, drops nothing, leaves its signer, and waits on an attempt that has none |
| `ClientMeaning.OtherWalletSwitches` | src/client.ts:296-304 | a call for another wallet forgets everything and goes on to start after the await |
| `ClientMeaning.CallStarts` | src/client.ts:296-325 | with no entry a call starts an attempt: the next generation, for this wallet, as the entry, status initializing |
| `ClientMeaning.RetryStarts` | src/client.ts:188-203 | a retry starts the last identity's attempt exactly when no client is up or coming up, no retry is under way and there is an identity; else it does nothing |
| `ClientMeaning.RetryMakesWay` | src/client.ts:201-202 | a retry that is over makes way for the next one |
| `ClientMeaning.RejectedJoinStarts` | src/client.ts:262-271 | a caller whose shared attempt failed starts its own, or shares a newer one, exactly when its wallet is still the last asked for |
| `ClientMeaning.StatusMeaning` | src/client.ts:117-149 | ready, initializing, failed or idle in every safe run, with the failure flags: asked without a signer, and the error names the installation cap |
| `ClientMeaning.CapMeaning` | src/client.ts:483-487 | an error names the cap exactly when, case aside, it holds one of the four texts |
| `ClientMeaning.CurrentAttemptMakes` | src/client.ts:436-459 | a current attempt that makes its client is ready under its address, announced, and keeps no error |
| `ClientMeaning.CurrentAttemptFails` | src/client.ts:467-477 | one that fails reports its error, or the timeout it reported before, and lets go on whoever waits on it |
| `ClientMeaning.CurrentAttemptTimesOut` | src/client.ts:343-352 | at its deadline it loses the entry, the timeout is the error reported, and whoever waits on it goes on |
| `ClientMeaning.SignOutForgets` | src/client.ts:582-598 | a sign-out leaves no client, entry, address, identity or error |
| `ClientMeaning.ResetKeepsIdentity` | src/client.ts:546-558 | a reset drops client and entry and keeps identity and error |
| `ClientMeaning.ResetAsksAgain` | src/client.ts:559-575 | after its await a reset asks for the client as any caller would |
| `ClientMeaning.SwitchStarts` | src/client.ts:296-304 | a switch that resumes starts its wallet's attempt |
| `ClientLifecycle.BeginSafeIff` | src/client.ts:296-325 | a start keeps the invariant if and only if no client is up |
| `ClientLifecycle.InvStep` | src/client.ts:258-605 | every step keeps the invariant, but for a switch resuming over a client |
| `ClientLifecycle.ClientBelongsToCurrentAttempt` | src/client.ts:436-459 | in every run a live client was made by the current generation, for the active address, and status says so |
| `ClientLifecycle.StatusIsCoherent` | src/client.ts:104-149 | status is that of the variables at every point, the address is set iff the entry is, and a running attempt lacks its entry iff it timed out |
| `ClientLifecycle.AnnouncedAtMostOnce` | src/client.ts:425-459 | each generation is announced at most once, late adoptions included |
| `ClientLifecycle.LateFailureKeepsTimeout` | src/client.ts:467-477 | a late failure keeps the reported timeout |
| `ClientLifecycle.LateSuccessIsAdopted` | src/client.ts:425-459 | a timed-out attempt that nothing superseded is adopted when it succeeds |
| `ClientLifecycle.SupersededRunsAreInert` | src/client.ts:335-358 | however many superseded attempts settle or time out, in any order, neither the variables nor the listeners change |
| `ClientLifecycle.SingleFlight` | src/client.ts:258-325 | in safe runs a call or continuation starts an attempt only with no client up, no entry and no current attempt running, and it is the next generation's |
| `ClientLifecycle.QuietSingleFlight` | src/client.ts:258-325 | with no call inside a switch, the same of every start, the resuming switch's own included |
| `ClientLifecycle.QuietIsSafe` | src/client.ts:296-325 | such runs are safe runs, so all that holds of those holds of them |
| `ClientLifecycle.SignedOutStaysOut` | src/client.ts:582-605 | after a sign-out no client appears until the host asks again, whatever settles, times out, retries or wakes |
| `ClientLifecycle.SignOutHoldsIff` | src/client.ts:582-605 | a sign-out holds until the host asks again if and only if neither a switch nor a reset is inside its await |
| `ClientLifecycle.SwitchCanResumeOverLiveClient` | src/client.ts:298-304 | a run that ends ready for the wrong wallet |
| `ClientLifecycle.SignOutInsideResetIsUndone` | src/client.ts:546-575 | a sign-out inside a reset ends with a client |
| `ClientLifecycle.SignOutInsideSwitchIsUndone` | src/client.ts:296-325 | a sign-out inside a wallet switch ends with the new wallet's client |
| `ClientLifecycle.QuietRunsAreSafe` | src/client.ts:296-325 | with no call inside a switch, every run keeps the invariant and switches resume over no client |
| `InstallationCap.CapRecoveryIsMinimalAndOldestFirst` | src/client.ts:514-531 | the revoked leave at most nine, at the cap one fewer would leave no slot, and none is younger than a kept one, unknown ages last |
| `InstallationCap.OldestFirstIsPreorder` | src/client.ts:525-529 | the comparator is a total preorder |
| `GroupReconcile.NormalizeIsASet` | src/groups.ts:138-141 | normalised addresses are those of the list, trimmed and lowercased, distinct, not blank, not mine, and miss nothing |
| `RosterOutcome.CaseIsOneAddress` | src/groups.ts:138-141 | entries that differ in letter case or surrounding blanks are one address; no normalised address has a capital |
| `Text.LowerForgetsCase` | src/client.ts:258-274 | two strings lowercase alike exactly when they are equal but for the case of ASCII letters |
| `Text.TrimMeaning` | src/threadSend.ts:160-163 | trimming takes blanks off both ends, and all of them |
| `Text.BlankTrimsToNothing` | src/threadSend.ts:160-163 | only a blank text trims to nothing |
| `GroupTheorems.RosterIsNormalised` | src/groups.ts:403-414 | what a roster becomes meets what the other results ask of it |
| `GroupTheorems.MissingSplits` | src/groups.ts:420-430 | missing addresses split exactly into added and unreachable |
| `GroupTheorems.StepwiseSafe` | src/groups.ts:403-454 | after every commit I sit with my role unchanged, protected members sit with rank not lowered, nobody in both the first and last roster is missing, and only wanted, reachable addresses came in |
| `GroupTheorems.NobodyLeavesBeforeAllCame` | src/groups.ts:420-437 | once anyone is gone every final member sits, so the group is never emptied part-way |
| `GroupTheorems.AfterPrefix` | src/groups.ts:420-440 | at every point finishing leads to the same members |
| `GroupTheorems.AfterStanding` | src/groups.ts:442-450 | at every point a member is part-way through its own role steps, untouched by the others |
| `GroupTheorems.ReconciledMeetsRoster` | src/groups.ts:403-454 | who is a member afterwards, and in what role, as the plan has it; `RosterOutcome.RosterIsMet` says it from the roster |
| `RosterOutcome.RosterIsMet` | src/groups.ts:403-454 | from the roster's four lists: exactly those sit who are me, have no address, or are listed or protected, or are listed, missing and reachable; a member that is not me is a super admin if listed so, else admin, else plain member, once a role list is given; a protected one is never lowered; a member of both role sets made plain is left an admin; everyone else keeps the role |
| `RosterOutcome.SameOutcomeIsMet` | src/groups.ts:393-454 | the same of any group with that outcome, so of one reached after an interruption |
| `RosterOutcome.RunIsMet` | src/groups.ts:393-401 | a run from wherever an earlier one stopped has met the roster, nobody being twice to be demoted |
| `RosterOutcome.ReportIsMet` | src/groups.ts:420-454 | who is reported added, unreachable, removed, and with which new role, from the roster and the group before |
| `GroupTheorems.SeatConverges` | src/groups.ts:198-211 | interrupting one member's role change anywhere and running what is due lands on the same role |
| `GroupTheorems.InterruptedRunConverges` | src/groups.ts:393-454 | wherever a run stops, a second run reaches the outcome of one uninterrupted run, iff nobody in both role sets is to become a plain member |
| `GroupTheorems.InterruptedAgain` | src/groups.ts:393-454 | stopped twice, a third run still does |
| `GroupTheorems.SecondRunIsSilent` | src/groups.ts:452-454 | a further run commits nothing, under the same condition |
| `GroupTheorems.ChangedIffCommitted` | src/groups.ts:452 | `changed` is reported exactly when something is committed |
| `GroupTheorems.ReportIsTrueUnlessTwice` | src/groups.ts:442-450 | a role change is reported iff the role held afterwards is new, with that one exception, where the report is wrong |
| `GroupSession.SdkGroup.Attempt` | src/groups.ts:388-391 | a commit that throws may have landed |
| `GroupSession.SdkGroup.ApplyRole` | src/groups.ts:198-211 | a prefix of the member's role steps lands, all of them on success |
| `GroupSession.SdkGroup.ReconcileMembers` | src/groups.ts:420-440 | adds then removals: a prefix lands, all on success |
| `GroupSession.SdkGroup.ReconcileRoles` | src/groups.ts:442-450 | roles off one reading: a prefix lands, all on success, reported truly |
| `GroupSession.SdkGroup.ReconcileOnce` | src/groups.ts:403-454 | a run lands a prefix of its plan; on success all of it, with the result of an uninterrupted run |
| `GroupSession.SdkGroup.ReconcileGroupMembers` | src/groups.ts:393-401 | success leaves a group that meets the roster, with a report that says what changed when the first run went through; a double failure is still on the way to it |
| `Reactions.RunReplay` | src/chatReactions.ts:58-75 | the loop over the sorted copy computes the replay |
| `Reactions.SummarizeReactions` | src/chatReactions.ts:81-97 | the counting loop computes the pill row of which the `ReactionPills` rows speak |
| `Reactions.GroupReactions` | src/chatReactions.ts:164-174 | the loop gives every target its events, targets in order of first appearance |
| `Reactions.MergeIsGrouping` | src/chatReactions.ts:182-190 | merging a streamed event into the map is grouping the longer log |
| `ReactionFold.HolderMeaning` | src/chatReactions.ts:58-75 | a sender holds an emoji iff its last added in stable time order named it and no later removed did |
| `ReactionFold.LiveIsOwn` | src/chatReactions.ts:58-75 | what a sender holds depends on its own events alone |
| `ReactionFold.ShuffledCopies` | src/chatReactions.ts:176-181 | two copies of one list of steps, shuffled anyhow, do what one does |
| `ReactionNetwork.EchoesChangeNothing` | src/threadSend.ts:239-241 | with all my echoes in the log, none before what I did earlier, everyone holds what the network alone says, whatever times my device gave my own events; and what my screen alone said, when those were not before it either |
| `ReactionToggle.PartialToggle` | src/chatReactions.ts:131-161 | the first k steps of any plan leave me holding what those steps make of what I held, all others unchanged |
| `ReactionToggle.PartialToggleAgrees` | src/chatReactions.ts:131-161 | that is what the network says once exactly those steps are in its log |
| `ReactionToggle.TapOutcome` | src/chatReactions.ts:108-126 | a whole tap gives or takes back the emoji; a replace cut after its removal leaves nothing held |
| `ReactionToggle.PlanMeaning` | src/chatReactions.ts:108-126 | what a tap sends: the removal of the emoji I hold, or the new one, after the removal of another |
| `ReactionToggle.LandedEvents` | src/chatReactions.ts:143-161 | the events of the steps that landed, in order, in my name, stamped one apart where the clock can tell |
| `ReactionToggle.TapTwice` | src/chatReactions.ts:108-126 | a second tap not stamped before the first one's last step takes the emoji back, unless the first had already |
| `ReactionNetwork.EchoesChangeNothingIff` | src/threadSend.ts:239-241 | for any number of taps the question is settled by my last optimistic event: everyone holds what the network alone says iff I did at its time, or what I held then is overtaken since |
| `ReactionNetwork.EchoOfATapIff` | src/threadSend.ts:228-241 | one echoed tap: everyone holds what the network alone says iff what I did earlier but stamped later overrules the tap alike at the network's stamp and at the later of the two |
| `ReactionNetwork.EchoedTapHolders` | src/threadSend.ts:228-241 | what I hold after an echoed tap, on the screen and by the network alone, from what I did stamped later |
| `ReactionNetwork.EchoBehindIsOverruled` | src/threadSend.ts:231-241 | an echo stamped before an earlier reaction: the screen shows the tap, the network does not |
| `ReactionToggle.TapHolder` | src/chatReactions.ts:143-161 | what everyone holds after any number of steps of a tap, whatever the clock |
| `ReactionToggle.TapTakesEffectIff` | src/chatReactions.ts:143-161 | a tap, whole or cut short, shows its outcome iff nothing of mine stamped later than its last step adds anything or removes that step's emoji |
| `ReactionToggle.TapBehindTheClockIsLost` | src/threadSend.ts:231 | a tap stamped before an earlier event of the same sender shows nothing |
| `ReactionToggle.RedeliveredHolder` | src/chatReactions.ts:176-190 | one more delivery takes effect where its time puts it |
| `ReactionToggle.RedeliveryIsIdempotentIff` | src/chatReactions.ts:176-190 | when exactly a repeated delivery changes nothing |
| `ReactionToggle.LoneRedelivery` | src/chatReactions.ts:176-190 | it changes nothing when the sender did nothing else at that time |
| `ReactionToggle.RedeliveryAtATieIsNot` | src/chatReactions.ts:176-190 | a repeat that does change something |
| `ReactionPills.PillMeaning` | src/chatReactions.ts:81-97 | a pill counts exactly its holders and is marked iff it is my reaction |
| `ReactionPills.PillsDiffer` | src/chatReactions.ts:87-96 | no emoji has two pills |
| `ReactionPills.EveryHeldEmojiHasAPill` | src/chatReactions.ts:87-96 | every held emoji has one |
| `ReactionPills.PillsAddUp` | src/chatReactions.ts:87-96 | the counts add up to the senders who hold anything |
| `ReactionPills.RowByFirstTaken` | src/chatReactions.ts:58-97 | from the events alone: of two pills the one on the left was first added no later than the other |
| `ReactionPills.FilledPill` | src/chatReactions.ts:81-97 | the filled pill is the one I hold; without an inbox id none is |
| `ReactionPills.PillsKeepTheirOrder` | src/chatReactions.ts:77-97 | events no earlier than all present ones never reorder surviving pills first taken up at different times |
| `ThreadReactions.ReactionState.Streamed` | src/useConversation.ts:498-503 | a streamed reaction joins the log of the message it names and no other |
| `ThreadReactions.ReactionState.SendSteps` | src/threadSend.ts:242-260 | sent steps are kept; a failure leaves what was there before plus the steps sent |
| `ThreadReactions.ReactionState.ToggleReaction` | src/threadSend.ts:221-263 | a tap shows its plan at once; reactions streamed onto other messages meanwhile survive |
| `ReactionTaps.FailureLosesAllSince` | src/threadSend.ts:228-260 | whatever happens meanwhile, streamed events and other taps included, a failing tap leaves the log it started from and the steps it sent |
| `ReactionTaps.WhatAFailureLoses` | src/threadSend.ts:233-260 | while no other tap fails, what is lost is exactly the steps not sent and all that joined the message's log since |
| `ReactionTaps.FailedStepsComeBack` | src/threadSend.ts:233-260 | a later tap that fails brings an earlier one's whole plan back, also steps never sent |
| `ReactionTaps.SecondTapVanishes` | src/threadSend.ts:233-260 | a run: the later tap is sent whole and shown nowhere |
| `ReadReceipts.ReadState.MarkRead` | src/readState.ts:41-63 | the watermark advances, and listeners are told, exactly when the time is newer |
| `ReadReceipts.WatermarkIsNewest` | src/readState.ts:45-63 | any times in any order leave the newest |
| `ReadReceipts.ReceiptsAdvance` | src/readReceipt.ts:55-62 | a receipt is sent for a message that is none and strictly advanced the sender's watermark |
| `ReadReceipts.LookMeaning` | src/readReceipt.ts:44-62 | exactly when looking at a message moves the looker's watermark and exactly when it sends a receipt |
| `ReadReceipts.EventMeaning` | src/useConversation.ts:472-497 | a delivered receipt is not looked at, any other message is; opening looks at a newest one |
| `ReadReceipts.Newest` | src/useConversation.ts:474-478 | opening looks at the first of the newest history messages |
| `ReadReceipts.InvStep` | src/useConversation.ts:472-497 | every receipt stays paid for by its own message, over opens, deliveries and redeliveries |
| `ReadReceipts.ReceiptsAreBounded` | src/readReceipt.ts:44-62 | a side that knows its inbox id sends at most one receipt per message of the counterparty, receipts not counted |
| `ReadReceipts.BlindReceiptsAreBounded` | src/useConversation.ts:479-482 | without knowing it, still at most one per message |
| `ReadReceipts.RunsAreFinite` | src/readReceipt.ts:44-62 | n messages posted mean at most n receipts in all, in any run |
| `AttachmentCache.KeyIsInjective` | src/attachmentCache.ts:18-33 | for hex digests the key is the same iff digest and secret are |
| `AttachmentCache.CollidesIff` | src/attachmentCache.ts:31-33 | two digests let different files share a key iff they differ and one, followed by the colon, starts the other |
| `AttachmentCache.ColonsCollide` | src/attachmentCache.ts:31-33 | an instance of that |
| `AttachmentCache.LateFailureIsOwn` | src/attachments.ts:160-163 | a failure handler removes its own entry or nothing |
| `AttachmentCache.OneDownloadPerFile` | src/attachments.ts:148-165 | between two downloads of one key the first failed or the cache was cleared |
| `AttachmentCache.OpensShare` | src/attachments.ts:148-152 | later opens share the promise |
| `AttachmentCache.EntryMeaning` | src/attachments.ts:144-165 | what opens, uploads and clearing leave under a key and under every other |
| `AttachmentCache.OpenedFiles.OpenAttachment` | src/attachments.ts:148-165 | the cached promise, or one new download under the key |
| `AttachmentCache.OpenedFiles.OnRejected` | src/attachments.ts:160-163 | the failure handler is the eviction step |
| `AttachmentCache.OpenedFiles.PrimeUploaded` | src/attachments.ts:144 | an upload puts the sender's own file under its key |
| `AttachmentCache.OpenedFiles.ClearAttachmentCache` | src/attachmentCache.ts:35-44 | the cache is emptied |
| `UseAttachment.ShowsItsOwnFile` | src/useAttachment.ts:32-86 | after its effects a ready or failed bubble shows the file of the key it displays, and a loading one has that file in flight |
| `UseAttachment.AutoLoadFlipKeepsTheBubble` | src/useAttachment.ts:62-86 | turning autoLoad on or off never wipes a bubble |
| `UseAttachment.SettledMeaning` | src/useAttachment.ts:44-60 | a load that ends makes the bubble that still shows its file ready if it worked and failed if not, and no other |
| `UseAttachment.LoadMeaning` | src/useAttachment.ts:44-54 | a load shows loading and starts for the file shown now |
| `UseAttachment.NewFileMeaning` | src/useAttachment.ts:62-86 | a bubble given another file forgets the last one, and loads at once where autoLoad asks |
| `UseAttachment.InvStep` | src/useAttachment.ts:32-86 | every render, effect, load and settlement keeps that, a due reset aside |
| `UseAttachment.AttachmentHook.OnEffect` | src/useAttachment.ts:70-86 | the effect tells a new file from a bare autoLoad flip |
| `UseAttachment.AttachmentHook.OnSettled` | src/useAttachment.ts:48-60 | only the file the cell still shows may land |
| `UseAttachment.AttachmentHook.OnRender` | src/useAttachment.ts:32-42 | a render records the content and makes the effect due when key or autoLoad changed |
| `UseAttachment.AttachmentHook.OnLoad` | src/useAttachment.ts:44-54 | a load starts for what the cell shows now |
| `StableSort.SortIsStable` | src/deliveryState.ts:116 | the sort reads its input off in stable order |
| `StableSort.StableOrderIsUnique` | src/deliveryState.ts:116 | there is only one stable order, so any stable sort gives this result |

## Left out

- The SDK, MLS, encryption, storage and timers are steps (settle, fail, fire, land) or set operations on the group.
- Sends on an SDK without `prepareMessage`: only the prepare-and-publish path is modelled.
- Network ids are taken to be non-empty and never to start with the local prefix.
- The context card is posted inside the preparation of a send; an error of its own that names the card is `ForeignIdKeepsTextUnsent` and no step of the protocol (`src/useConversation.ts:636-638`).
- Lifecycle listeners are told, but one that calls `getOrCreateXmtpClient` from inside the notification is not modelled (`src/client.ts:104-149`, `src/client.ts:436-459`).
- The first send into a new conversation, which replaces the list while it binds, is not a step of the protocol.
- `loadHistory` and the decoding of messages into bubbles and reactions: history enters as decoded rows.
- ThreadTheorems.NeverDoubleBubbles: asks that re-binds name no message still listed under its local id; `ResumeDoubles` shows why.
- ThreadSend.Thread.NextLocalId: the source's counter is shared by all threads of the module, here by the sends of one.
- ThreadSend.Thread.RetryMessage: is given a bubble as currently listed; a stale one would put `pending` on a confirmed row (`src/threadSend.ts:191`).
- ThreadSend.Thread.OnStreamed: what is streamed is published; the `UNPUBLISHED` and `FAILED` marks are modelled on history rows only.
- ThreadSend.Thread.AttachDm: its history names each message once, and marks only my own text and attachments (`src/useConversation.ts:127`).
- ThreadReactions.ReactionState.ToggleReaction: is one tap from start to end; taps that overlap are `ReactionTaps`.
- The timeout error's text does not name the milliseconds, and error objects are their messages.
- Wallet addresses are non-empty, so an address field that is set is also truthy.
- The creation timeout's configuration is taken to be valid.
- Other devices committing to the group during a reconcile, and reachability changing during one.
- Groups in which two inboxes share an address, or one inbox has several.
- ReactionToggle.PartialToggle: for arbitrary plans it asks that the tap is not before any earlier event of the tapper on that message; for the plans a tap makes, `TapTakesEffectIff` is exact.
- ReactionToggle.PartialToggleAgrees: asks the same.
- ReactionNetwork.EchoesChangeNothing: asks that no echo is stamped before an earlier event of its sender; for one tap `EchoOfATapIff` is exact.
- ReactionNetwork.EchoesChangeNothingIff: with nothing of mine after the last optimistic event its condition is the property at that time; for one tap `EchoOfATapIff` reads it off the log.
- ReactionPills.RowByFirstTaken: leaves open how pills first taken up at one time are ordered; the source takes them in the order in which the senders started to hold anything.
- ReactionPills.PillsKeepTheirOrder: asks for different first-seen times; equal ones are ordered by who holds what, which changes.
- A failed tap loses reactions streamed onto the same message meanwhile (`src/threadSend.ts:236`); the model keeps that.
- An upload in flight across a sign-out refills the cache after it was cleared (`src/attachments.ts:144`); the model keeps that.
- Read watermarks shared between accounts on one device.
- ReadReceipts.ReceiptsAreBounded: asks that the side knew its inbox id; `BlindReceiptsAreBounded` is what holds without.
- React's rendering beyond one order: effects of a render run before the next render.
- Lowercasing and trimming beyond ASCII.
- Uploaders, push, consent, cards, group settings other than the roster, listings and user interface: they would add only easy members.
