# Verification of the rakazo message and desktop protocols

This project models the parts of rakazo where many actors meet on shared state and proves what they keep: the
delivery of team chat events, idempotent sends to threads, reading a thread page by page, the local docker stack and
the desktop updater, and two streaming scanners. `dafny verify dfyconfig.toml` checks all of it.

## How the model is built

**Team chat.** One external event is one database row (`TeamChatRow`, one function per `updateMany`, each a
compare-and-set that reports whether it hit). Everything a process does between two awaits is one step
(`TeamChatProtocol`): the reconciler of each bridge, the inbound handlers, their routine wakes and heartbeats, a clock,
crashes and restarts, and calls that fail before or after they took effect. An action that is not possible leaves the
world as it is, so every sequence of actions is a run. One write of the modelled code depends on another row: the
ambient pass ignores the other evaluated rows of a conversation only once their trigger was promoted. The machine lets a
pass dismiss an observed row at any time, which covers it, so one row at a time loses nothing; batches are modelled as
any selection. `TeamChatMoves` is the one table of who may change what, and the machine follows it exactly.
`TeamChatDelivery`, `TeamChatReplies`, `TeamChatExclusivity`, `TeamChatDirect`, `TeamChatOrphans` and `TeamChatLeases`
say what holds in all its runs, `TeamChatProgress` and `TeamChatStuck` from where an answer can still be reached;
`TeamChatWitnesses` builds runs step by step.
`TeamChatWorker` and `TeamChatInbound` are the same code as imperative programs. Each stretch between two awaits is
proved to be the machine's step, and at each await the other actors take any steps of theirs, so every call is a run
of the machine that goes on from what had happened before. `TeamChatRecovery` and `TeamChatAmbient` are the two batch
loops over whole tables, and `TeamChatVerdicts` says who decides what the second does.

**Promises.** `LocalStack` and `DesktopUpdate` model promise callbacks as steps that may fire in any order the chaining
allows; the objects of the classes are always where such a run ends. `LocalStackDisplay` says what is displayed in terms
of the operations and their reports, `DesktopUpdateOutcomes` what comes of a check, an offer and a failure.

**Threads.** `ThreadSends` specifies what a send does to the tables, `ThreadStore` is the transaction with its loops,
`ThreadReceipts` says in terms of the rows alone what a send leaves and answers, and `SendReplay` is any number of
requests with one nonce racing against a thread that goes on living. `MessagePages` reads
a table to which others append between any two reads.

**Scanners.** `Handshake` and `DockerLines` prove the incremental forms equal to searching and splitting the whole input
(the end of the header section is that of section 2.1 of RFC 9112).

Assumptions: `sendUserMessage` is idempotent per nonce and always yields a run; runs and messages are not deleted; the
digest in nonces is injective; transactions are serial; the clock never goes back; a lease deadline is computed at the
instant its write takes effect; a write under way when its process is lost has taken effect by then or never does; the
judge's text is never one of the ownership markers; triggers of runs do not change; how a finished run ended, and whether
it has a written answer, does not change any more.

## What the proofs found

- A routine wake and an agent run can both happen for one event. For direct events they are kept apart exactly when
  bridges do not overlap, handlers of one event do not overlap and no renewal fails, whatever other database calls fail;
  for ambient events exactly when moreover no other database call fails and a handler resumes before its first lease
  ends (`ExclusiveExactlyUnderTheRules`). Two paths are in the code itself: a failing renewal releases the row to the
  agent while the wake is still running (apps/api/src/app.ts:644-647), and `promoteAmbientTrigger` overwrites the wake's
  marker (apps/api/src/team-chat-bridge.ts:888-897).
- A send that steers the active run of a bot thread records no runs in its event. Once a run was started for the
  steered message (packages/db/src/events.ts:1154-1203) a retry with the same nonce is answered with that run instead
  of the one answered first (`SteeredRetryGetsAnotherRun`; exact condition in
  `RetryRepeatsTheReceiptExactlyUntilContinued`).
- `cancelSupersededQueuedRuns` never finds anything to cancel after a send (`NothingIsSuperseded`), and the conflict for
  an active run that can be neither answered nor steered is unreachable (`ActiveIsWaitingOrSteerable`).
- The check for repeated runs in `findExternalOrigin` never changes its answer (`NothingBeyondARepeat`).
- "The latest call wins" has one exception in the local stack: a start chained on a stop that rejects is rejected
  without ever running. `LatestCallWins` gives the exact condition, `RejectedStopLosesTheStart` such a run.
- A process lost between creating the agent run and linking it, or a link that fails, leaves a run that nobody cancels
  beside a row that a redelivery can still give to a routine (`LostProcessLeavesARun`, `FailedLinkLeavesARun`).
  Under the rules that exclude this a committed wake means that no run was created at all (`WakeMeansNoRun`, exact in
  `NoSecondAnswerExactlyUnderTheRules`).
- Twenty expired rows whose wakes run in the process fill every recovery batch, and a younger row that could be
  recovered waits behind them (`FullBatchStarves`). Progress is proved exactly when the table is not starved in this way
  (`PassSelectsMovable`, `PassDecreasesTotalRank`).
- A worker whose step fails may shorten the half-hour lease of a row that a handler has deferred since: its retry writes
  a lease to any row that still has the status it read (`HeldRowsChangeExactlyAt`, `RetryShortensADeferral`;
  apps/api/src/team-chat-bridge.ts:1267-1289).
- A received row can be parked under a routing marker that nobody will lift, where only a redelivery moves it on: by a
  late handler whose process is lost, and without any loss by a single failing renewal (`LateHandlerLeavesARowStuck`,
  `FailedRenewalLeavesARowStuck`). The exact condition is `MovesOnExactlyUnlessParked`. Such a row stays due, and twenty
  of them keep the queue from every younger row (`ParkedRowsStarveTheQueue`, exact in `QueueReachesExactlyWhenRoom`).
- An empty provider handle leaves a row in delivering for good unless the worker that posted also finishes it
  (`EmptyHandleLeavesARowInDelivering`, exact in `FinishesExactlyUnlessNameless`).
- These two are the only dead ends: from anywhere else an event that has a row can still be answered or given to a
  routine without another delivery (`ComesToAnEndExactlyUnlessStuck`), and what a restarted process then makes of it is
  the reply, posted once, wherever there is one (`EveryMovableRowIsAnswered`).
- The page around a message need not show the message: the filter of peer runs applies to it too
  (`AroundShowsTheTarget`).
- Two events whose provider and handle are split differently around a colon share a wake
  (`WakeIsFoundByItsEvent`, `ColonsMakeKeysClash`).

## Model

| member | source | states |
|---|---|---|
| `TeamChatDelivery.AtMostOnePost` | apps/api/src/team-chat-bridge.ts:1116-1290 | over every run of any number of bridges and handlers, with crashes, lease expiries, redeliveries and failing calls anywhere, the provider is posted to at most once per event, completion and failure together; a delivered row has a handle, and a handle that is not one of the three sentinels proves exactly one post |
| `TeamChatDelivery.RunIdExactlyWhenLinked` | apps/api/src/team-chat-bridge.ts:1092-1113 | in every run the row names a run exactly in running, delivering and delivered, and it is the run the agent nonce leads to |
| `TeamChatDelivery.ClaimantsLinkTheSameRun` | apps/api/src/team-chat-bridge.ts:1044-1104 | two workers that both hold a queue claim, one of them after its lease ended, are about to link the same run |
| `TeamChatDelivery.AgentMarkerOnlyOnClaimedRows` | apps/api/src/team-chat-bridge.ts:1003-1027 | no deferred, observed or received row ever carries the agent marker |
| `TeamChatDelivery.ProgressIsPermanent` | apps/api/src/team-chat-bridge.ts:607-671 | however a run is continued, a link is never changed, running to delivering to delivered only moves forward, an ignored row stays ignored, a committed wake and a made post stay |
| `TeamChatDelivery.FinalStatusesAbsorb` | apps/api/src/team-chat-bridge.ts:1237-1290 | a row that is ignored or delivered keeps that status and its run in every continuation |
| `TeamChatDelivery.LocalIsStable` | apps/api/src/team-chat-bridge.ts:1170-1235 | what a worker relies on at an await survives any step of any other actor |
| `TeamChatDelivery.RecoverKeeps` | apps/api/src/team-chat-bridge.ts:446-605 | recovery keeps the invariant of the shared row and never posts |
| `TeamChatDelivery.EngagementKeeps` | apps/api/src/team-chat-bridge.ts:888-1114 | the judge and the queue keep the invariant and never post |
| `TeamChatDelivery.DeliverKeeps` | apps/api/src/team-chat-bridge.ts:1116-1290 | delivery and retry keep the invariant; the right to post is won from a running row only, where nobody else can hold it |
| `TeamChatDelivery.PostKeeps` | apps/api/src/team-chat-bridge.ts:1116-1248 | each delivery step keeps the invariant, and only the holder of the right to post posts |
| `TeamChatDelivery.PutBackKeeps` | apps/api/src/team-chat-bridge.ts:1250-1290 | a retry keeps the invariant, posts nothing and never gives anyone the right to post |
| `TeamChatDelivery.MainKeeps` | apps/api/src/app.ts:594-662 | the handler keeps the invariant and never posts |
| `TeamChatDelivery.WakeKeeps` | apps/api/src/messaging-inbound.ts:168-254 | the routine wake keeps the invariant and never posts |
| `TeamChatDelivery.RenewalKeeps` | apps/api/src/team-chat-bridge.ts:351-365 | a renewal keeps the invariant, however late it lands |
| `TeamChatDelivery.ReconcileKeeps` | apps/api/src/team-chat-bridge.ts:615-671 | every step of a reconcile pass keeps the shared invariant and its own program point |
| `TeamChatDelivery.StepKeeps` | apps/api/src/team-chat-bridge.ts:615-671 | every action of the deployment keeps the invariant, and at most one worker holds the right to post |
| `TeamChatReplies.DeliveredMeansWhatItSays` | apps/api/src/team-chat-bridge.ts:1116-1163 | in every run a delivered row was posted, or lost its confirmation, or belongs to an ambient event whose run ended without an answer (silent) or failed (silent-failure), as its handle says; so an answered run, and any finished run of a direct event, is never left in silence |
| `TeamChatReplies.OnlyRepliesArePosted` | apps/api/src/team-chat-bridge.ts:1130-1163 | in every run a row is reserved or posted only when there is a reply: the run of the event has ended, and for an ambient event with a written answer |
| `TeamChatMoves.StateChangesExactlySo` | apps/api/src/team-chat-bridge.ts:244-1290 | every action of the machine changes the shared state exactly as one table says, which names for each program point the status it starts from and every column it writes, lease times included; nothing else is ever written |
| `TeamChatMoves.OnlyAReservationStartsDelivering` | apps/api/src/team-chat-bridge.ts:1195-1290 | in every run a running row comes to delivering only by a worker's reservation, after which that worker is about to post unless its call failed; no retry, recovery or handler does it |
| `TeamChatMoves.EveryPostWasReserved` | apps/api/src/team-chat-bridge.ts:1195-1290 | in every run a row in delivering, a row that was posted and a row that says its confirmation was lost has such a reservation in its past |
| `TeamChatMoves.LostLeaseMeansTaken` | apps/api/src/team-chat-bridge.ts:336-365 | in every run a handler that regards its lease as lost had in fact lost the row |
| `TeamChatMoves.RenewalTells` | apps/api/src/team-chat-bridge.ts:336-365 | while a handler races its wake, a renewal that does not fail counts as a lost lease if and only if the row is no longer deferred |
| `TeamChatProgress.EveryMovableRowIsAnswered` | apps/api/src/team-chat-bridge.ts:507-671 | from every reachable world whose row is deferred, observed, free and received, queueing or running, and for every way the agent run may end, a process that is restarted and left alone comes to the answer: a row that is not linked and has a committed wake is left to it; for any other the run of the agent nonce is linked and its reply posted once under the provider's handle, or, when there is none, the row is finished in silence with the handle that says why; a reserved row is finished |
| `TeamChatProgress.EveryIdleBridgeAnswers` | apps/api/src/team-chat-bridge.ts:507-671 | and nothing need be lost: a live bridge between two passes that is left alone does the same, in one pass or, when the row was marked for a routing that is gone, in two, unless it holds the row back for a wake of its own |
| `TeamChatProgress.RunIsLeased` | apps/api/src/team-chat-bridge.ts:244-1290 | in every run a deferred or claimed row has a lease, so its hold ends |
| `TeamChatLeases.HeldRowsChangeExactlyAt` | apps/api/src/team-chat-bridge.ts:942-1290 | in every run, before the lease of a claimed, deferred or still unposted reserved row ends, a reconciler can change the row with its next step if and only if it is about to link, abandon or retry a claimed row, to retry a row it read as deferred, or to store, mark or retry a reserved one |
| `TeamChatLeases.OthersLeaveHeldRows` | apps/api/src/team-chat-bridge.ts:262-411 | in every run nobody else changes a claimed or reserved row before its lease ends, and a deferred one is changed only by a handler that extends, reserves, renews or resolves; no redelivery takes it over |
| `TeamChatLeases.RetryShortensADeferral` | apps/api/src/team-chat-bridge.ts:1267-1289 | a run in which a failed read leaves a worker about to cut the half-hour lease of a row that a handler holds down to its retry delay |
| `TeamChatLeases.RunIsTimely` | apps/api/src/team-chat-bridge.ts:507-671 | in every run the times that reconcilers and handlers compare leases with lie in the past, and a queueing row carries the agent marker |
| `TeamChatLeases.ReleaseUndoesDeferral` | apps/api/src/team-chat-bridge.ts:262-270 | releasing a deferred row to the agent leaves the row that receiving without deferral creates |
| `TeamChatLeases.RecoveryUndoesDeferral` | apps/api/src/team-chat-bridge.ts:531-605 | recovery reaches the same row in two writes |
| `TeamChatExclusivity.RunKeepsExclusive` | apps/api/src/team-chat-bridge.ts:308-411 | the inductive invariant over the row, the reconciler, the handlers and the in-flight set holds of every run with one bridge and one handler at a time and no failing database call, and for ambient events handlers that resume promptly |
| `TeamChatExclusivity.RecoverRespectsWake` | apps/api/src/team-chat-bridge.ts:507-605 | recovery cannot take a row from a wake of its own process: the in-flight set and the lease see to it |
| `TeamChatExclusivity.EngagementRespectsWake` | apps/api/src/team-chat-bridge.ts:942-1114 | the judge never meets a row held for a wake, and the queue claim refuses its routing marker |
| `TeamChatExclusivity.DeliverRespectsWake` | apps/api/src/team-chat-bridge.ts:1116-1290 | delivery and retry leave a row held for a wake alone |
| `TeamChatExclusivity.MainRespectsQueue` | apps/api/src/app.ts:594-662 | no step of the handler disturbs a standing queue claim |
| `TeamChatExclusivity.WakeRespectsQueue` | apps/api/src/messaging-inbound.ts:199-252 | the wake commits only while its handler holds the row, so the row cannot be linked |
| `TeamChatExclusivity.RenewalRespectsBoth` | apps/api/src/team-chat-bridge.ts:351-365 | a renewal, even one of a handler that is over, disturbs neither the queue nor the handler that holds the row now |
| `TeamChatExclusivity.CrashKeepsExclusive` | apps/api/src/team-chat-bridge.ts:150-195 | losing a process with its handlers and in-flight set keeps the invariant |
| `TeamChatDirect.NeverBoth` | apps/api/src/app.ts:592-662 | no run ever has both a committed routine wake and a row linked to an agent run: for direct events while there is one live bridge and one handler at a time and no renewal fails, whatever else fails; for ambient events if moreover no other database call fails and handlers resume within their first lease |
| `TeamChatDirect.RunKeepsApart` | apps/api/src/team-chat-bridge.ts:308-411 | the inductive invariant for direct events holds of every such run, with any other database call failing before or after it took effect |
| `TeamChatWitnesses.ExclusiveExactlyUnderTheRules` | apps/api/src/app.ts:592-662 | all runs allowed by a set of rules keep wake and linked run apart if and only if the set contains the rules NeverBoth asks of that kind of event; no process needs to be lost for any of the others to fail |
| `TeamChatWitnesses.FailedRenewalBreaksExclusivity` | apps/api/src/app.ts:644-647 | a run in which only a renewal fails ends with both: the row is released to the agent while the wake goes on |
| `TeamChatWitnesses.SecondBridgeBreaksExclusivity` | apps/api/src/team-chat-bridge.ts:576-590 | a run with a second live bridge ends with both: it does not know the first one's in-flight wake |
| `TeamChatWitnesses.SecondHandlerBreaksExclusivity` | apps/api/src/team-chat-bridge.ts:273-288 | a run with a redelivery handled beside the first handler ends with both |
| `TeamChatWitnesses.LateHandlerBreaksExclusivity` | apps/api/src/team-chat-bridge.ts:888-897 | a run in which a handler resumes after its first lease ended ends with both: the judge's reason overwrites the wake's marker on the observed row |
| `TeamChatWitnesses.FailedReadBreaksExclusivity` | apps/api/src/team-chat-bridge.ts:1250-1289 | a run of an ambient event in which only a read of the queue fails ends with both: the retry shortens the lease of a row that a handler has deferred meanwhile |
| `TeamChatOrphans.WakeMeansNoRun` | apps/api/src/team-chat-bridge.ts:1044-1113 | if moreover no database call fails and no process is lost between creating the agent run and linking it, a committed wake means that no agent run was ever created for the event, linked or not |
| `TeamChatOrphans.LostProcessLeavesARun` | apps/api/src/team-chat-bridge.ts:1044-1099 | a run that keeps every other rule and loses one process at the link ends with a committed wake beside an agent run that nobody cancelled |
| `TeamChatOrphans.FailedLinkLeavesARun` | apps/api/src/team-chat-bridge.ts:1092-1113 | so does a run in which only the link fails, before it takes effect |
| `TeamChatOrphans.NoSecondAnswerExactlyUnderTheRules` | apps/api/src/team-chat-bridge.ts:1058-1113 | all runs allowed by a set of rules keep a committed wake and an uncancelled agent run apart if and only if the set contains all the rules of WakeMeansNoRun |
| `TeamChatStuck.MovesOnExactlyUnlessParked` | apps/api/src/team-chat-bridge.ts:942-961 | in every run a received row can move on without another delivery of the event if and only if it is not parked: it carries no routing marker, or some handler may still take it, or a worker that saw it free may still find a wake |
| `TeamChatStuck.OnlyARedeliveryMovesOn` | apps/api/src/team-chat-bridge.ts:942-961 | a parked row stays received and parked in every continuation without another delivery |
| `TeamChatStuck.LateHandlerLeavesARowStuck` | apps/api/src/messaging-inbound.ts:199-222 | a run that ends with a parked row and without a wake: a late handler reserves the row it was released to, and its process is lost |
| `TeamChatStuck.FailedRenewalLeavesARowStuck` | apps/api/src/app.ts:644-647 | a run in which no process is lost and one renewal fails ends with a parked row beside a committed wake |
| `TeamChatStuck.ComesToAnEndExactlyUnlessStuck` | apps/api/src/team-chat-bridge.ts:507-671 | from every reachable world the row can come to delivered or ignored without another delivery if and only if it is not stuck: there is a row or a handler about to create it, it is not received and parked, and it is not delivering under an empty handle that no worker holds |
| `TeamChatStuck.FinishesExactlyUnlessNameless` | apps/api/src/team-chat-bridge.ts:1175-1235 | in every run a row with an empty provider handle can leave delivering if and only if some worker already has a handle to finish it with; neither new processes nor redeliveries help |
| `TeamChatStuck.EmptyHandleLeavesARowInDelivering` | apps/api/src/team-chat-bridge.ts:1187-1193 | a run in which the provider answers with an empty handle and one write fails ends with such a row for good |
| `TeamChatRuns.RunWokenMeansWake` | apps/api/src/messaging-inbound.ts:224-254 | in every run a handler whose wake reports success has committed the wake message |
| `TeamChatWorker.TeamChatWorker.Await` | apps/api/src/team-chat-bridge.ts:615-671 | ties the program to the state machine: a stretch between two awaits must be the machine's step at that point, the others may then take any steps of theirs, and all of it is a run of the machine that goes on from what had happened before |
| `TeamChatWorker.TeamChatWorker.ReserveDelivery` | apps/api/src/team-chat-bridge.ts:1195-1235 | against any other actors: when the reservation is won nobody has posted; without an exception the row is in delivering or delivered |
| `TeamChatWorker.TeamChatWorker.SendOnce` | apps/api/src/team-chat-bridge.ts:1175-1193 | when it returns the row is delivered, posted exactly once unless its handle says why not |
| `TeamChatWorker.TeamChatWorker.MarkDelivered` | apps/api/src/team-chat-bridge.ts:1237-1248 | when it returns the row is delivered, whatever others did |
| `TeamChatWorker.TeamChatWorker.DeliverRunning` | apps/api/src/team-chat-bridge.ts:650-669 | when it reports a delivery the row was posted exactly once, or lost its confirmation, or belongs to an ambient event whose run had nothing to say, as its handle tells |
| `TeamChatWorker.TeamChatWorker.DeliverCompletion` | apps/api/src/team-chat-bridge.ts:1116-1143 | the same for a completed run, whose answer is read before the reservation: only an ambient run without an answer is finished in silence |
| `TeamChatWorker.TeamChatWorker.DeliverFailure` | apps/api/src/team-chat-bridge.ts:1145-1163 | the same for a failed run, which an ambient event keeps silent about |
| `TeamChatWorker.TeamChatWorker.SendAndLink` | apps/api/src/team-chat-bridge.ts:1044-1113 | a reported link is the run of the agent nonce; otherwise, unless it throws, a wake was committed, the run was cancelled, and the row was left to the routine or was no longer claimed |
| `TeamChatWorker.TeamChatWorker.Queue` | apps/api/src/team-chat-bridge.ts:942-1114 | when it linked, the row is linked to the run of the agent nonce and stays so |
| `TeamChatWorker.TeamChatWorker.Retry` | apps/api/src/team-chat-bridge.ts:1250-1290 | unless it throws: a row that was delivered or has a handle is delivered; any other was put back unsent with a lease to wait for, in the status it was read in or from the queue to received, unless somebody changed it since it was read or its handle is empty |
| `TeamChatWorker.TeamChatWorker.QueueAndDeliver` | apps/api/src/team-chat-bridge.ts:631-671 | the second half of a pass is a run of the machine from its received rows to its end, throws and whatever others do included |
| `TeamChatWorker.TeamChatWorker.LinkRun` | apps/api/src/team-chat-bridge.ts:1092-1113 | throws when the claim was lost; otherwise the row is linked to the run of the agent nonce, whatever others did since |
| `TeamChatInbound.InboundHandler.HandleTeamChatInbound` | apps/api/src/app.ts:592-662 | the call is a run of the machine from receipt to the end of routing; if it took the event on, the row once carried this delivery's deferral; without an exception a reported wake is committed and the row ignored, and without a wake the row was handed to the agent |
| `TeamChatInbound.InboundHandler.Receive` | apps/api/src/team-chat-bridge.ts:244-297 | true only after the row carried this delivery's deferral, created or taken over; otherwise the handler is done |
| `TeamChatInbound.InboundHandler.StartHeartbeat` | apps/api/src/team-chat-bridge.ts:308-335 | without a first extension there is no heartbeat and no wake; with it the row was marked as owned by routing |
| `TeamChatInbound.InboundHandler.HoldOn` | apps/api/src/app.ts:614-622 | after a lost lease the handler waits for its wake before it settles anything |
| `TeamChatInbound.InboundHandler.Resolve` | apps/api/src/team-chat-bridge.ts:383-411 | a row resolved for the routine is ignored, now and in every continuation; one resolved for the agent was released as if no routine had been there; a miss found the row out of reach of the resolution |
| `TeamChatInbound.InboundHandler.Settle` | apps/api/src/app.ts:601-658 | waits for the wake, also after a lost lease, and settles the row by its result: without an exception either the wake is committed and the row ignored, or the row was released to the agent |
| `TeamChatInbound.InboundHandler.Release` | apps/api/src/app.ts:623-647 | after a broken wake or a failed renewal a reported resolution released the row to the agent; without one, unless it throws, the row was no longer deferred |
| `TeamChatInbound.RoutineWake.WakeMessageRoutines` | apps/api/src/messaging-inbound.ts:168-254 | the call is a run of the machine amid any other actors; a reported wake is committed, and the row was reserved for it before |
| `Nonces.DeliveryNonceIsInjective` | apps/api/src/webhook-inbound.ts:142-149 | an inbound nonce determines its source, its bot and its key |
| `Nonces.WakeIsFoundByItsEvent` | apps/api/src/webhook-inbound.ts:138-149 | two events share a wake nonce if and only if they are the same or a part of one provider's name after a colon moves over to the other's handle |
| `Nonces.OnlyColonsMoveOver` | apps/api/src/webhook-inbound.ts:138-140 | which needs a colon in a provider's name |
| `Nonces.ColonsMakeKeysClash` | apps/api/src/webhook-inbound.ts:138-140 | with a colon in a provider's name two events share a key |
| `Nonces.AgentIsNoWake` | apps/api/src/team-chat-bridge.ts:1058-1058 | the agent's nonce is never an inbound nonce |
| `Nonces.AgentNonceIsInjective` | apps/api/src/team-chat-bridge.ts:1058-1058 | two events share an agent nonce exactly under the same condition |
| `TeamChatRecovery.BacklogClears` | apps/api/src/team-chat-bridge.ts:507-605 | however long the backlog of n stale rows, one of the first 2n + 1 passes finds every row it may move gone, or finds the table starved |
| `TeamChatRecovery.PassDecreasesTotalRank` | apps/api/src/team-chat-bridge.ts:507-605 | a pass lowers the total rank of the table exactly when there is a movable row and the table is not starved; otherwise it leaves the table as it is |
| `TeamChatRecovery.PassSelectsMovable` | apps/api/src/team-chat-bridge.ts:513-530 | while there is a movable row, a pass selects one if and only if fewer than 20 stale rows are older than the oldest of them |
| `TeamChatRecovery.InBatchExactlyWhenRoom` | apps/api/src/team-chat-bridge.ts:513-530 | a wanted row is selected if and only if fewer wanted rows than the batch holds are older |
| `TeamChatRecovery.QueueReachesExactlyWhenRoom` | apps/api/src/team-chat-bridge.ts:631-648 | a pass comes to a received row it may queue if and only if fewer than 20 due rows, parked ones included, are older than the oldest such row |
| `TeamChatRecovery.ParkedRowsStarveTheQueue` | apps/api/src/team-chat-bridge.ts:631-648 | twenty parked rows keep a younger free row out of every pass |
| `TeamChatRecovery.FullBatchStarves` | apps/api/src/team-chat-bridge.ts:513-564 | a table that is starved: twenty expired rows whose wakes run here keep a younger free row out of every pass |
| `TeamChatRecovery.MarkShieldsTheWake` | apps/api/src/team-chat-bridge.ts:142-148 | whether a row is in the in-flight set decides exactly whether a pass leaves a routing-owned row to its wake or takes its owner away, and nothing about any other row |
| `TeamChatRecovery.RecoveryDecreasesRank` | apps/api/src/team-chat-bridge.ts:531-605 | a selected row whose wake is not running here goes from routing-owned to free to no longer deferred |
| `TeamChatRecovery.TwoSelectionsSuffice` | apps/api/src/team-chat-bridge.ts:531-605 | two selections are enough |
| `TeamChatRecovery.TeamChatBridge.RecoverExpiredDeferredMessages` | apps/api/src/team-chat-bridge.ts:507-605 | with others writing during every await and any call failing, the loop takes the selected rows in order, each with the one write its marker, its wake and the in-flight set call for, and writes nothing else; it ends early exactly when a call has failed |
| `TeamChatRecovery.TurnMovesOnlyStaleRows` | apps/api/src/team-chat-bridge.ts:531-605 | whatever others did since the selection, a turn changes its own row only, and only one still deferred with its lease over and its marker unchanged |
| `TeamChatRecovery.UndisturbedPass` | apps/api/src/team-chat-bridge.ts:507-605 | if nobody writes beside it, a pass gives every selected row its outcome and changes no other row |
| `TeamChatRecovery.TeamChatBridge.RecoverExpired` | apps/api/src/team-chat-bridge.ts:531-605 | one row, with others writing before the look for its wake and before the write: ignored when its wake exists, left alone while its wake runs here, stripped of its routing marker, or released |
| `TeamChatRecovery.TeamChatBridge.FindExpired` | apps/api/src/team-chat-bridge.ts:513-530 | the oldest stale rows, at most a batch of them |
| `TeamChatRecovery.TeamChatBridge.RecoverInterruptedRoutineRoutes` | apps/api/src/team-chat-bridge.ts:446-463 | startup releases every expired routing claim and nothing else |
| `TeamChatRecovery.TeamChatBridge.ExtendDeferredReservation` | apps/api/src/team-chat-bridge.ts:308-326 | extends and marks a deferred row, and only such a row, and says whether it did |
| `TeamChatRecovery.TeamChatBridge.ResolveDeferredMessage` | apps/api/src/team-chat-bridge.ts:383-411 | resolves a deferred row, for a routine also a received or observed one, never a queueing one; a miss changes nothing |
| `TeamChatAmbient.TreatmentPartitions` | apps/api/src/team-chat-bridge.ts:812-828 | every message of a conversation is ignored, evaluated or held back, never two of them; only rollups that are not due are held back, and only when nothing needs an answer now |
| `TeamChatVerdicts.TreatmentIs` | apps/api/src/team-chat-bridge.ts:798-828 | a conversation that is not enabled is ignored altogether; otherwise exactly the bots without a policy or with one to ignore them are, and what is evaluated, in order, is everything else, or only the rollups that are due when nobody else wrote |
| `TeamChatVerdicts.VerdictIs` | apps/api/src/team-chat-bridge.ts:828-884 | an unsettled conversation waits; else the last of the twenty latest evaluated messages from an actionable sender promotes, else the judge decides on those twenty: an act promotes with its reason the first message of the event it was asked by, or the latest; a refusal, or no judge, dismisses all that was evaluated |
| `TeamChatAmbient.OutcomeOfRow` | apps/api/src/team-chat-bridge.ts:798-885 | what each statement of a treatment does to each row of the conversation, whatever others had written before it |
| `TeamChatAmbient.UndisturbedPass` | apps/api/src/team-chat-bridge.ts:761-886 | if nobody writes beside the pass, every row of the batch ends as its own conversation's treatment says |
| `TeamChatAmbient.UndisturbedOutcome` | apps/api/src/team-chat-bridge.ts:798-885 | the same for the rows of one conversation |
| `TeamChatAmbient.WritesAreLocal` | apps/api/src/team-chat-bridge.ts:791-798 | a conversation's statements leave the rows of all others alone |
| `TeamChatAmbient.OnePromotionPerConversation` | apps/api/src/team-chat-bridge.ts:857-884 | whoever writes beside the pass and wherever an exception ends it, a treatment promotes at most one row, the trigger's |
| `TeamChatAmbient.PromotionClearsTheOthers` | apps/api/src/team-chat-bridge.ts:880-884 | after a promotion the last statement of a whole treatment leaves no other evaluated row observed |
| `TeamChatAmbient.ExternalMessages.EvaluateAmbient` | apps/api/src/team-chat-bridge.ts:761-886 | with others writing before each of its statements, the pass issues exactly the statements of one treatment for each conversation of the batch, in turn, and writes nothing else; a failing judge, read or statement, and nothing else, ends it in the middle of one treatment |
| `TeamChatAmbient.ExternalMessages.EvaluateConversation` | apps/api/src/team-chat-bridge.ts:798-885 | with others writing before each statement, the branches of one conversation issue exactly the statements of its treatment, or the first of them before an exception |
| `TeamChatAmbient.ExternalMessages.JudgeEvaluated` | apps/api/src/team-chat-bridge.ts:828-884 | waits for the debounce, dismisses, or promotes the row the decision names, else the latest, and ignores the others only when the promotion was won |
| `TeamChatAmbient.ExternalMessages.PromoteAmbientTrigger` | apps/api/src/team-chat-bridge.ts:888-897 | promotes exactly a row still observed |
| `TeamChatAmbient.ExternalMessages.MarkAmbientIgnored` | apps/api/src/team-chat-bridge.ts:899-905 | ignores exactly the rows still observed |
| `TeamChatAmbient.ExternalMessages.GroupByConversation` | apps/api/src/team-chat-bridge.ts:791-796 | every conversation of the batch, each once |
| `ExternalOrigin.FindExternalOrigin` | apps/api/src/team-chat-bridge.ts:726-752 | on every reply graph, cyclic ones included, the walk ends with the nearest ancestor linked to a chat message within the hop bound, or with nothing when there is none |
| `ExternalOrigin.NothingBeyondARepeat` | apps/api/src/team-chat-bridge.ts:735-736 | stopping at a repeated run never hides a linked ancestor |
| `LocalStack.BodiesNeverOverlap` | apps/desktop/src/local-stack.ts:351-425 | for every sequence of starts, stops and aborts and every settlement order at most one body runs, so compose up and compose stop never overlap |
| `LocalStack.RunningIsWanted` | apps/desktop/src/local-stack.ts:355-375 | the attempt a caller would join was ticketed after the last stop |
| `LocalStack.StopAbortsTheAttempt` | apps/desktop/src/local-stack.ts:367-382 | after a stop every attempt in its body is aborted, in every run |
| `LocalStack.StopVoidsWaitingStarts` | apps/desktop/src/local-stack.ts:359-374 | a start that has not begun when a stop is called never runs, whatever happens afterwards |
| `LocalStack.VoidedNeverRuns` | apps/desktop/src/local-stack.ts:359-374 | voided starts stay voided in every continuation |
| `LocalStack.LatestCallWins` | apps/desktop/src/local-stack.ts:351-401 | once everything settled: after a start its body was the last to run if and only if it did not inherit a rejecting stop, and if it did it was rejected without running; after a stop the last body that ran is a stop's, and a stop that worked leaves the display idle |
| `LocalStack.RejectedStopLosesTheStart` | apps/desktop/src/local-stack.ts:355-365 | a settled run whose last call is a start that never ran, because the stop it was chained on rejected |
| `LocalStack.RunKeeps` | apps/desktop/src/local-stack.ts:355-390 | operations form a line in which each waits for its predecessor unless that one is already past its body |
| `LocalStack.RunAccounts` | apps/desktop/src/local-stack.ts:355-401 | an operation that is over ran its body, or is a start with one of two excuses |
| `LocalStack.TerminalPhasesHold` | apps/desktop/src/local-stack.ts:192-201 | the reducer leaves ready and failed through the next check-start only; what leads to them is said by the display theorems below |
| `LocalStack.OutputIsTheLastLines` | apps/desktop/src/local-stack.ts:214-226 | trimming line by line shows the last 20 lines of the whole output |
| `LocalStack.LayerBytesAreTheLargestSeen` | apps/desktop/src/local-stack.ts:181-190 | the size kept for a layer is the largest any line reported |
| `LocalStack.LocalStackController.Start` | apps/desktop/src/local-stack.ts:355-365 | extends the object's run by its step of the machine: joins the running attempt or queues a fresh one behind the running stop |
| `LocalStack.LocalStackController.Stop` | apps/desktop/src/local-stack.ts:373-390 | extends the object's run by its step of the machine: voids waiting starts, joins or queues a stop, and lets go of the attempt |
| `LocalStack.LocalStackController.Abort` | apps/desktop/src/local-stack.ts:367-370 | extends the object's run by its step of the machine: aborts the attempt in flight and nothing else |
| `LocalStack.LocalStackController.OnChainSettled` | apps/desktop/src/local-stack.ts:358-359 | extends the object's run by its step of the machine: a voided start is skipped, every other operation calls its body, which then runs alone |
| `LocalStack.LocalStackController.OnBodyEnded` | apps/desktop/src/local-stack.ts:392-425 | extends the object's run by its step of the machine: what the end of a body leaves displayed and in flight |
| `LocalStack.LocalStackController.OnFinally` | apps/desktop/src/local-stack.ts:360-362 | extends the object's run by its step of the machine: a field is cleared only if it still names this promise |
| `LocalStack.LocalStackController.OnLine` | apps/desktop/src/local-stack.ts:403-411 | extends the object's run by its step of the machine: a late line changes the display only while docker works |
| `LocalStackDisplay.DisplayIsTheLastBodys` | apps/desktop/src/local-stack.ts:192-249 | in every run the displayed phase and message are those of the last operation that decided: an attempt that ran shows its first report of success or failure, else its latest news, else that it checks docker; a stop that worked shows idle, one that did not shows failed with the stop message |
| `LocalStackDisplay.ReadyExactlyAfterSuccess` | apps/desktop/src/local-stack.ts:192-231 | in every run ready is displayed if and only if the operation that decides is an attempt whose body reported success before any failure |
| `LocalStackDisplay.FailedExactlyAfterFailure` | apps/desktop/src/local-stack.ts:192-231 | in every run failed is displayed with a message if and only if that attempt reported this failure first, or the operation is a stop that did not work and the message is the one about stopping |
| `LocalStackDisplay.LatestCallShows` | apps/desktop/src/local-stack.ts:351-401 | once everything settled, a stop that worked shows idle, one that did not work shows failed with its message, and a start that was not lost shows what its body reported |
| `LocalStackDisplay.OutputIsWhatWasHeard` | apps/desktop/src/local-stack.ts:181-226 | in every run the output shown is the last 20 lines that came while docker worked since the last attempt began or a stop worked, and the layer sizes are the largest among them |
| `ThreadSends.EachTargetIsServedOnce` | apps/api/src/thread-target.ts:649-906 | of the runs a send names, those of a target bot are all its waiting runs, or else one active run, or else exactly one new run for the message; no other bot's runs are named; the filter for created runs gives exactly the new ones |
| `ThreadSends.CreatedAreTheNewRuns` | apps/api/src/thread-target.ts:896-906 | the filter by bot maps recovers exactly the new runs, in order |
| `ThreadSends.NothingIsSuperseded` | apps/api/src/thread-target.ts:212-236 | after a send there is never a superseded queued run to cancel |
| `ThreadSends.CancelsOnlyWhatWasAskedFor` | apps/api/src/thread-target.ts:212-236 | what it would cancel: queued runs of the given bots started by a person's message or a reaction, except those to keep |
| `ThreadSends.IdleTargetsHaveNoActiveRun` | apps/api/src/thread-target.ts:649-656 | a target gets a new run only when all its runs are over |
| `ThreadSends.ActiveIsWaitingOrSteerable` | apps/api/src/thread-target.ts:700-705 | every active run of a target waits for an answer or can be steered, never both, so the conflict for a run that does neither never arises |
| `ThreadSends.SendKeepsOneActivePerBot` | apps/api/src/thread-target.ts:649-776 | a send never gives a bot a second active run |
| `ThreadSends.SendsKeepOneActivePerBot` | apps/api/src/thread-target.ts:624-926 | nor does any sequence of committed and rejected sends |
| `ThreadStore.ThreadStore.SendToBot` | apps/api/src/thread-target.ts:649-776 | the transaction on a bot thread commits exactly when the request resolves, its nonce is new and every waiting run takes the text; then it leaves exactly the rows of a send and answers with the first run and its task, the message's number and all runs; otherwise it throws and leaves everything as it was |
| `ThreadStore.ThreadStore.SendToGroup` | apps/api/src/thread-target.ts:779-926 | the same for a group thread, with its two loops and its maps |
| `ThreadReceipts.SendServes` | apps/api/src/thread-target.ts:649-926 | what a send leaves: one message linked to the first run, the targets' waiting runs queued again and all others untouched, for every target its waiting runs, else one run it is steered into, the first listed, else one new run, one steering row for each steered target, and one event that names the runs unless a bot thread was steered |
| `ThreadReceipts.SendAcknowledges` | apps/api/src/thread-target.ts:201-210 | its receipt names the first run, that run's task, the message's number, and exactly those runs |
| `ThreadReceipts.CommitsExactlyWhenAccepted` | apps/api/src/thread-target.ts:649-680 | a send commits if and only if it resolves, has a target, its nonce is new and every waiting run of a target takes the text |
| `ThreadStore.ThreadStore.Triage` | apps/api/src/thread-target.ts:816-849 | answers every waiting run or refuses, and sorts the active runs by bot |
| `ThreadStore.ThreadStore.Place` | apps/api/src/thread-target.ts:850-893 | serves the targets in turn as specified |
| `ThreadStore.ThreadStore.AnswerAll` | apps/api/src/thread-target.ts:658-680 | all waiting runs are answered, or the first that takes no text ends the send |
| `ThreadStore.NoneCancelled` | apps/api/src/thread-target.ts:896-906 | the runs untouched by the maps are the created ones, and cancelling superseded runs beside them changes nothing |
| `SendReplay.OneMessagePerNonce` | apps/api/src/thread-target.ts:138-210 | however requests with one nonce race, fail and retry, at most one message carries the nonce, and an answer means it is there |
| `SendReplay.OneCommitPerNonce` | apps/api/src/thread-target.ts:928-938 | the first commit is the only one |
| `SendReplay.EveryAnswerIsTheReceipt` | apps/api/src/thread-target.ts:580-938 | every answered request gets a receipt of the one message with the nonce that names its number, existing runs and the first run's task: the receipt of the send that committed, or, if that send steered a bot thread's active run and runs were since started for its message, one that names those, from the first on |
| `SendReplay.RequestTriesOnce` | apps/api/src/thread-target.ts:928-938 | however its transaction ends, a request never tries it again: it is answered, or looks for the message once more and is answered from it or throws |
| `SendReplay.RetryRepeatsTheReceiptExactlyUntilContinued` | apps/api/src/thread-target.ts:145-190 | a retry is answered with the original receipt if and only if the send did not steer a bot thread or no run was started for its message yet |
| `SendReplay.SteeredRetryGetsAnotherRun` | apps/api/src/thread-target.ts:708-735 | a run in which two requests with one nonce are answered with different runs |
| `SendReplay.RebuiltReceipt` | apps/api/src/thread-target.ts:145-210 | what is rebuilt from the rows: the committed receipt, or after steering exactly the runs started for the message |
| `SendReplay.SendSettles` | apps/api/src/thread-target.ts:624-926 | a committed send leaves an event that names every run it answered with, except after steering in a bot thread |
| `SendReplay.LaterEventsNameOthers` | apps/api/src/thread-target.ts:147-156 | events about later messages never change what a message's last event names |
| `SendReplay.RunKeepsInv` | apps/api/src/thread-target.ts:580-938 | the invariant behind these, over every interleaving with a thread that goes on living |
| `MessagePages.MessageTable.LoadMessagePage` | apps/api/src/thread-message-pages.ts:50-79 | the scanning loop returns the page of the thread as of its first read, even when messages are appended between its reads |
| `MessagePages.MessageTable.FormPage` | apps/api/src/thread-message-pages.ts:53-77 | what one turn of the loop makes of the rows it read |
| `MessagePages.LoadAllMessages` | apps/api/src/thread-message-pages.ts:81-94 | exactly the thread as of the first read, in order and each message once, for every page size of at least one |
| `MessagePages.LoadHistory` | apps/web/src/lib/peer-history.ts:22-33 | following the cursors while messages are appended between the reads covers the thread as of the first read: every visible message once and in order with peer runs or peer receipts, and every visible message that is more than a receipt otherwise |
| `MessagePages.PagesCoverTheThread` | apps/api/src/thread-message-pages.ts:50-118 | the same for a thread that stands still, as a statement about following the cursors |
| `MessagePages.PageShowsItsSpan` | apps/api/src/thread-message-pages.ts:50-79 | a page shows one stretch of the thread and skipped only pages with nothing to show |
| `MessagePages.CursorCutsAPrefix` | apps/api/src/thread-message-pages.ts:72-77 | what is older than the cursor is exactly what comes before the page |
| `MessagePages.CursorDecreases` | apps/api/src/thread-message-pages.ts:72-77 | the cursor is strictly below the one the page was asked with |
| `MessagePages.PeerFilterIsPointwise` | apps/api/src/thread-message-pages.ts:96-118 | the page-local lookup of peer runs is the one filter of the whole thread |
| `MessagePages.OnlyChatterIsHidden` | apps/api/src/thread-message-pages.ts:105-118 | of the rows of a page exactly those messages of peer runs are hidden that have no policy and no block that is a receipt, a question or text |
| `MessagePages.PeerFilterCommutesWithPages` | apps/api/src/thread-message-pages.ts:96-118 | so filtering commutes with concatenation |
| `MessagePages.OlderIsStable` | apps/api/src/thread-message-pages.ts:52-60 | messages appended later are never before a cursor into the thread |
| `MessagePages.AroundShowsTheTarget` | apps/api/src/thread-message-pages.ts:16-46 | the page around a message is what is visible of one stretch of the thread that holds the message and is no longer than a page; the message is on it if and only if peer runs are included or the filter lets it through |
| `MessagePages.AroundCursorLeadsBack` | apps/api/src/thread-message-pages.ts:34-46 | its cursor is there exactly when something is older, and leads to all of it |
| `DesktopUpdate.EveryRunIsOrderly` | apps/desktop/src/auto-update.ts:94-426 | over every run: offers carry a version, percentages lie in 0..100, at most one download is under way, installs start on a verified download only and at most once more than installs failed, an install without update support stays without |
| `DesktopUpdate.FeedChecksAreSpaced` | apps/desktop/src/auto-update.ts:198-209 | consecutive feed checks are at least the interval apart unless a requested check cleared an empty-feed freeze between them, and none replaces an offer; that the others do happen is ChecksReachTheFeedExactly |
| `DesktopUpdate.ReadyIsNeverLeft` | apps/desktop/src/auto-update.ts:94-189 | once ready, always ready |
| `DesktopUpdate.RunKeepsInv` | apps/desktop/src/auto-update.ts:248-426 | the invariant behind these, over calls, settlements and late updater events in any order |
| `DesktopUpdate.ReduceKeepsState` | apps/desktop/src/auto-update.ts:94-189 | the reducer keeps versions and percentages in order and never leaves ready or unsupported |
| `DesktopUpdate.OnlyARequestUnfreezes` | apps/desktop/src/auto-update.ts:347-360 | after an empty feed only a check somebody asked for leaves unsupported, and only in an environment that supports updates |
| `DesktopUpdate.DownloadIsNotDisturbed` | apps/desktop/src/auto-update.ts:101-146 | a download stays displayed until it is ready or something fails; checks and new offers do not disturb it, and a failure keeps the offered version |
| `DesktopUpdate.LateEventsChangeNothing` | apps/desktop/src/auto-update.ts:130-133 | late progress, and a failing check that is not displayed any more, change nothing |
| `DesktopUpdate.InstallCanBeRetried` | apps/desktop/src/auto-update.ts:399-413 | a failed install keeps the verified download, shows a message and can be started again |
| `DesktopUpdate.DesktopUpdateController.Check` | apps/desktop/src/auto-update.ts:331-360 | extends the object's run by its step of the machine: single flight; a freeze is cleared only by a requested check |
| `DesktopUpdate.DesktopUpdateController.CheckResumes` | apps/desktop/src/auto-update.ts:360-366 | extends the object's run by its step of the machine: the second look before the feed is asked |
| `DesktopUpdate.DesktopUpdateController.FeedSettles` | apps/desktop/src/auto-update.ts:365-372 | extends the object's run by its step of the machine: a failing check is shown only while nothing else is |
| `DesktopUpdate.DesktopUpdateController.Download` | apps/desktop/src/auto-update.ts:375-386 | extends the object's run by its step of the machine: single flight |
| `DesktopUpdate.DesktopUpdateController.DownloadResumes` | apps/desktop/src/auto-update.ts:386-390 | extends the object's run by its step of the machine: downloads only what is still on offer |
| `DesktopUpdate.DesktopUpdateController.DownloadSettles` | apps/desktop/src/auto-update.ts:389-396 | extends the object's run by its step of the machine: a failing download is shown only while it is displayed |
| `DesktopUpdate.DesktopUpdateController.Install` | apps/desktop/src/auto-update.ts:411-413 | extends the object's run by its step of the machine: only from ready and not twice |
| `DesktopUpdate.DesktopUpdateController.InstallResumes` | apps/desktop/src/auto-update.ts:413-424 | extends the object's run by its step of the machine: looks again after the await and survives a throwing updater |
| `DesktopUpdate.DesktopUpdateController.FailWith` | apps/desktop/src/auto-update.ts:399-409 | equals its part of a step: tells an install failure from a late error |
| `DesktopUpdate.DesktopUpdateController.UpdateAvailable` | apps/desktop/src/auto-update.ts:289-301 | extends the object's run by its step of the machine: an offer starts its download, an offer without a version is a failure |
| `DesktopUpdate.DesktopUpdateController.UpdateDownloaded` | apps/desktop/src/auto-update.ts:307-318 | extends the object's run by its step of the machine: a download without a version is a failure |
| `DesktopUpdate.DesktopUpdateController.PushEvent` | apps/desktop/src/auto-update.ts:270-275 | equals its part of a step: reduces, and forgets the request when an event ends it |
| `DesktopUpdateOutcomes.ChecksReachTheFeedExactly` | apps/desktop/src/auto-update.ts:198-209 | after every run in an installed build whose updater is loaded and not checking, a check reaches the feed exactly when the phase is idle or error and there was no feed check since the last unfreeze or the last one is at least the interval old, or when it is frozen and somebody asked, which unfreezes it first; while anything is on offer none does |
| `DesktopUpdateOutcomes.FirstCheckReachesTheFeed` | apps/desktop/src/auto-update.ts:342-366 | a started app is at rest once its updater is loaded, and its first check reaches the feed |
| `DesktopUpdateOutcomes.StartsIdleExactlyWhenSupported` | apps/desktop/src/auto-update.ts:14-40 | an installed build whose updates are not turned off starts idle, any other one without updates, and says why |
| `DesktopUpdateOutcomes.OfferIsDownloaded` | apps/desktop/src/auto-update.ts:285-301 | an offer of the feed is displayed with its version and is downloaded without being asked for, with its progress shown |
| `DesktopUpdateOutcomes.DownloadIsInstalled` | apps/desktop/src/auto-update.ts:306-318 | a finished download is ready, with its version, and is installed when asked |
| `DesktopUpdateOutcomes.FailureIsShown` | apps/desktop/src/auto-update.ts:147-188 | an error of the updater freezes it only when the feed is empty during a check, goes back to idle without a network and says so only to somebody who asked, leaves a download that is ready alone, and is displayed as an error otherwise |
| `DesktopUpdateOutcomes.LoaderFailureIsShown` | apps/desktop/src/auto-update.ts:322-326 | a loader that fails while there is no updater is shown in the same way |
| `DesktopUpdateOutcomes.LateLoaderFailureChangesNothing` | apps/desktop/src/auto-update.ts:277-326 | and otherwise changes nothing |
| `DesktopUpdateOutcomes.NothingNewTakesBackTheOffer` | apps/desktop/src/auto-update.ts:120-129 | an empty answer of the feed takes back an offer that is not being downloaded, and nothing else |
| `DesktopUpdateOutcomes.EndedPromisesAreCleared` | apps/desktop/src/auto-update.ts:331-396 | a check or download that is over makes room for the next, however it ended |
| `DesktopUpdateOutcomes.CheckStartKeepsTheOffer` | apps/desktop/src/auto-update.ts:101-108 | a check that starts is displayed but takes no offer, download or finished download off the display |
| `DesktopUpdateOutcomes.ProgressIsShown` | apps/desktop/src/auto-update.ts:132-142 | progress shows what is on offer as being downloaded, and is otherwise too late |
| `DesktopUpdateOutcomes.PercentIsRounded` | apps/desktop/src/auto-update.ts:134-141 | percentages are rounded to the nearest whole one and kept within bounds |
| `Handshake.ReleasedAtTheFirstBoundary` | apps/web/vite.config.ts:194-221 | for every chunking the head is released, with every byte received so far, if and only if a chunk completes it within the limit and none before did |
| `Handshake.TailSearchIsFullSearch` | apps/web/vite.config.ts:205-208 | searching the last three bytes and the new chunk finds a boundary exactly when searching everything does |
| `Handshake.TailAdvances` | apps/web/vite.config.ts:207-207 | the new tail is the tail of everything |
| `Handshake.WaitingIsOpen` | apps/web/vite.config.ts:200-209 | the handler waits exactly while nothing received so far ended the head or passed the limit |
| `Handshake.ForwardHandshake.Data` | apps/web/vite.config.ts:197-220 | the listener with its sliding tail reaches the outcome decided by whole-prefix search |
| `DockerLines.Stream` | apps/desktop/src/docker-cli.ts:162-182 | whatever the chunks, the lines reported are those of the whole text and the captured text is the whole text |
| `DockerLines.RenderingIs` | apps/desktop/src/docker-cli.ts:162-166 | a raw line shows exactly what follows its last carriage return, up to its last character that is no space |
| `DockerLines.SplitContinues` | apps/desktop/src/docker-cli.ts:171-172 | splitting the pending text with the next chunk continues the split of everything |
| `DockerLines.SplitThenJoin` | apps/desktop/src/docker-cli.ts:164-172 | the split loses nothing and leaves no separator behind |
| `DockerLines.CatchUp` | apps/desktop/src/docker-cli.ts:168-174 | one more chunk, wherever it was cut |
| `DockerLines.StreamLines.Data` | apps/desktop/src/docker-cli.ts:168-174 | complete lines are out, what follows the last newline is pending |
| `DockerLines.StreamLines.Close` | apps/desktop/src/docker-cli.ts:180-182 | the pending text is the last line |
| `DockerLines.DockerRun.Close` | apps/desktop/src/docker-cli.ts:180-184 | both streams report the lines of their whole texts, and an unsettled run settles with both texts |
| `DockerLines.DockerRun.Finish` | apps/desktop/src/docker-cli.ts:144-150 | the first to settle decides the result |
| `DockerLines.DockerRun.Fail` | apps/desktop/src/docker-cli.ts:176-179 | the error is added to the captured text and ends the run with 1 |

## Left out

- `deliverDelegatedReplies` beyond its origin walk: its posts are at least once, with an idempotency key.
- `PendingTeamChatInbound`, `mirrorMissingMessages`, `ensureTranscriptMessage` and the other transcript writes: they touch no column modelled here.
- Prompts, judge text, JSON, message text extraction, error classification by text, SHA-256 and UTF-8 decoding across a chunk boundary: parameters or abstract values.
- Prisma, Postgres, the job queue and the providers: atomic steps that may fail, with results chosen by the environment. Retry of serialization failures is part of an aborted commit.
- `reconcileOnce` called by the handler: its reconciler may step at any time, which covers waiting for it; the handler is not blocked by it.
- Renewals: a renewal may land at any time after the heartbeat started, also after it was stopped; the interval is not modelled.
- BacklogClears: it and `PassDecreasesTotalRank` assume what `AgentMarkerOnlyOnClaimedRows` proves of every run, and are about passes that nobody writes beside; under interference `TurnMovesOnlyStaleRows` says what each turn may do.
- Fairness: that a process does run again and calls stop failing is not assumed, so that an end is reached is proved as a way from every world that is not stuck, not as an eventuality.
- RecoveryDecreasesRank: assumes the same about the agent marker.
- CancelRun: a cancelled agent run counts as cancelled even if it had finished before.
- `SteeringMessage` rows after the send, tasks (a new run's task is numbered like the run), attachments, mentions, quotes, realtime notification and enqueueing of runs.
- EveryAnswerIsTheReceipt: other messages with the request's nonce, such as a reaction that used it, are excluded; a send then always throws.
- LoadMessagePage: a page size of zero is left out, with which the code's loop need not end; `toThreadMessage`, which copies fields; `shouldForwardPeerThreadEvent` and `isPeerRun`, single expressions.
- `LocalStackController`: what a body does inside (docker checks, pulls, health polls, ports, token and env files), and `matchesDesiredStack`; a body pushes `CheckStart` first and then any events.
- `reduceLayerBytes`: the progress pattern of a docker line is a parameter.
- `DesktopUpdateController`: the loader promise is a flag set once; which continuation waits on which load is left open, so each may go on without the updater.
- `stripSensitiveHandshakeHeaders` is a parameter; sockets, and what is piped after the release, are not modelled.
- `runDocker`: signals, timers and process groups; they appear as `Terminate`.
- The rest of the repository: UI, routing, computers, voice, skills, artifacts and HTTP plumbing.
