# agentops: the session record and its owners, in Dafny

agentops runs agent sessions in pods that lose their connection, attach again and outlive a restart of the manager.
This project models the parts that keep a session's record right through that, and proves what they promise. Concurrent
code is a step machine: a state, the steps any thread may take, and an invariant that every step keeps; results hold
of every state of every run. Objects whose methods update their fields are classes, whose methods are proved against
functions on values. The text splitters are loops proved against recursive definitions.

- `Outbox`, `PodPipeline`, `PodPipelineProof`, `PodPipelineWindow`: agent events from the runner's outbox, through the
  sidecar's relay and the AgentIO stream, into the durable log, and the acks back.
- `RunnerTurns`, `Bindings`, `TurnPipeline`, `TurnLink`, `TurnConservation`: turns, from allocation to their one terminal
  event.
- `EventLog`, `EventClient`: the published log, its lossy subscriptions, and the client that resumes them.
- `Sessions`, `Ownership`, `SessionEnd`: who may act on a session, stop requests, and terminal states.
- `PermissionSink`, `Permissions`: the waiter map and the life of one permission request.
- `AgentIO`, `Grace`: arbitration of AgentIO streams, the command queue, and the grace timer of a lost attachment.
- `Quotas`, `PromptKeys`: admission and idempotency keys.
- `Utf8`, `Aggregator`, `MdSplit`, `MdSplitProof`, `MdSplitWhole`, `MdSplitChars`, `MdSplitLoops`: text cut into bounded
  parts.

The store is taken at its interface: a call happens atomically or fails without effect, appending a pod event and moving
PodSeq are one call, and FinishSession refuses an ended session. Clocks, timers, the network, the launcher and the run
service are steps that may or may not happen. Text is bytes, and valid text is the syntax of section 4 of RFC 3629.

## Where a promise has a condition

These statements do not hold of the code without a condition. Each has a theorem with the condition and a reachable
counterexample without it.

- PodSeq <= delivered fails exactly between the inbox push and setDelivered, once the consumer has recorded the event
  (`PodSeqOvertakesDeliveredIff`, `PodSeqCanOvertakeDelivered`).
- A resent turn is accepted if and only if the runner has not gone past it (`BatchAcceptedIff`, `SkippedTurnNeverRuns`).
  The runner can go past a turn, without a stream being lost under it, if and only if the turn is not in line before
  every later one (`CanGoPastIff`). A turn is in line from the moment it is saved, also over crashes, until a stream that
  carries it is lost (`LostOnlyWithItsStream`); then the turns queued behind it leave on a new stream before its State
  frame is reconciled (`LostStreamLosesTurn`).
- A terminal status is final if and only if no thread is inside `write`, which holds if the creating launch got its
  claim; the row is stored before the claim, whose result is ignored (`EndIsKeptIff`, `ClaimedSessionKeepsItsEnd`,
  `UnclaimedLaunchOverwritesEnd`). SessionEnded is in the log once for each end, and events follow it exactly when the
  status read before an append fails (`SessionEndedOnce`, `OverwrittenSessionEndsTwice`).
- A client that finishes has reached SessionEnded if and only if the server did not cancel the stream and close it
  cleanly, or the client started there (`FinishedAtEndIff`, `CancelledStreamLooksFinished`).
- A permission request is resolved again exactly when it enters the waiter map again, which takes a waiter taken before
  its request is recorded, or a stopped pod that is adopted (`AtMostOneResolution`, `FurtherResolutionIff`,
  `OnlyTwoWaysBackIn`, `EarlyAnswerResolvesTwice`, `AdoptedAfterStopResolvesTwice`).
- A lost run is under a timer if and only if the timer has not run out and no evicted stream reported itself late
  (`LostRunIsTimed`, `LateReportCancelsTimer`). Supervision is told after Forget, or after the timer was stopped, if and
  only if a call of `fire` was on its way (`CanBeToldIff`, `AttachedRunToldLost`).
- The caps hold, from any state within them, until an admission's two reads are torn or a launch without its claim adds a
  session (`QuotasHold`, `CapsAreEnough`, `TornReadExceedsCap`, `UnclaimedLaunchExceedsCaps`); which steps pass a cap is
  exact (`ExceedsPendingIff`, `ExceedsLiveIff`).
- `cutPart` makes progress, and `Split` ends, exactly under the conditions of `CutStallsIff` and `SplitEndsIff`. Parts
  fit exactly under that of `SplitFitsIff`, and are cut between characters exactly under that of
  `SplitCutsBetweenCharactersIff` (`RuneSplitBreaksCharacter`).

## Model

| member | source | states |
|---|---|---|
| Outboxes.AppendHolds | harness/internal/runner/outbox.go:35-47 | an append numbers the event one past the last and extends the window onto the history by exactly it |
| Outboxes.AckHolds | harness/internal/runner/outbox.go:56-69 | an ack with any number leaves a gapless window onto the same history; its start moves only to a number the box held, and the byte count never grows |
| Outboxes.AfterReads | harness/internal/runner/outbox.go:71-108 | a feed reads the history behind its cursor; it is refused exactly when the cursor is before the last ack or past the last event |
| Outboxes.Outbox.constructor | harness/internal/runner/outbox.go:29-33 | a new outbox is empty and valid |
| Outboxes.Outbox.TryAppend | harness/internal/runner/outbox.go:35-47 | an append waits exactly while the box is full, closed and the event not urgent; otherwise the box moves as the append of the value does |
| Outboxes.Outbox.AckUpTo | harness/internal/runner/outbox.go:56-69 | trimming in place gives the same box as the ack of the value, with the size again the byte sum of what is left |
| PodPipelineProof.RecordedExactlyOnce | harness/internal/harnessapi/consume.go:129-150 | in every run with appends, drops, superseding streams, retries, crash and adopt, the rows of a session that has not ended are exactly those of events 1..PodSeq: in order, no gap, no duplicate |
| PodPipelineProof.CursorsStayOrdered | harness/internal/agentlink/agentio_server.go:107-144 | in every run outbox.acked <= run.acked, PodSeq <= top of what was put into the inbox <= highest fed <= last appended; and run.acked <= PodSeq as long as the session has not ended and did not fail to open |
| PodPipelineProof.PodSeqOvertakesDeliveredIff | harness/internal/agentlink/agentio_server.go:140-144 | for a session that has recorded events and has not ended, PodSeq > delivered if and only if serveIO has put an event into the inbox and not yet moved its cursor, and the consumer has taken that event out and holds none unrecorded |
| PodPipelineProof.NothingFails | harness/internal/runner/runner.go:215-234 | no run reaches a refused replay, a feed whose cursor was trimmed or a protocol violation; the next event a stream takes is always delivered + 1 |
| PodPipelineProof.QuietIsComplete | harness/internal/harnessapi/consume.go:35-56 | when nothing is in flight and the consumer waits, every event the runner ever appended is recorded |
| PodPipelineProof.StepKeeps | harness/internal/agentlink/agentio_server.go:78-155 | every step of runner, sidecar, manager and store keeps the invariant of the five cursors and the frames between them |
| PodPipelineProof.RunKeeps | harness/internal/harnessapi/lifecycle.go:218-257 | the invariant holds in every state of every run, across crash and adopt with ResumeAfter = PodSeq |
| PodPipelineProof.ReplayUp | harness/internal/runner/runner.go:215-234 | a replay at the cursor the manager names is always still held by the outbox |
| PodPipelineProof.FetchUp | harness/internal/runner/runner.go:261-280 | a feed always reads on from a cursor the outbox still holds |
| PodPipelineProof.ReceiveUp | harness/internal/agentlink/agentio_server.go:128-137 | the event the sequence filter sees next is old or exactly delivered + 1 |
| PodPipelineWindow.PodSeqCanOvertakeDelivered | harness/internal/agentlink/agentio_server.go:140-144 | a reachable state in which the stored PodSeq is past delivered: the consumer recorded the event before the cursor moved |
| RunnerTurns.TurnsRunOnceInOrder | harness/internal/runner/session.go:118-200 | under any duplication and resending of prompts, turns run at most once, in ascending turn_seq; TurnFinished events are a prefix of the accepted turns, and all of them once finish drained the queue |
| RunnerTurns.ReportIsExact | harness/internal/runner/session.go:235-249 | what a State report lists are accepted turns at or below last_turn_seq, and it equals the unfinished turns exactly outside the two moments between an end and its clearing |
| RunnerTurns.AscendingAccepted | harness/internal/runner/session.go:181-200 | an ascending batch above last_turn_seq is accepted whole and in order |
| RunnerTurns.AscendingSplits | harness/internal/runner/session.go:181-200 | of an ascending batch exactly the part above last_turn_seq is accepted |
| RunnerTurns.StepKeeps | harness/internal/runner/session.go:118-200 | every step of intake, turn loop and drain keeps started and ended turns prefixes of the accepted ones |
| RunnerTurns.Session.constructor | harness/internal/runner/session.go:48-63 | a new session has seen no turn |
| RunnerTurns.Session.Receive | harness/internal/runner/session.go:181-200 | a prompt is queued unless the session is finished or its turn_seq was seen |
| RunnerTurns.Session.NextTurn | harness/internal/runner/session.go:118-138 | the oldest queued turn starts, and none once the agent exited |
| RunnerTurns.Session.Finish | harness/internal/runner/session.go:164-179 | every queued turn gets its one TurnFinished, in queue order, and no prompt is accepted afterwards |
| RunnerTurns.Session.State | harness/internal/runner/session.go:235-249 | the report gives last_turn_seq and the running turn followed by the queued ones |
| Bindings.TurnNameInjective | harness/internal/harnessapi/consume.go:445-445 | turn ids name turn numbers one to one |
| Bindings.SortSorts | harness/internal/harnessapi/binding.go:59-68 | releasing sorts the held prompts by turn_seq and loses or repeats none |
| Bindings.WithoutRemovesOne | harness/internal/harnessapi/binding.go:98-105 | leave takes exactly one entry of the turn out of the outstanding list |
| Bindings.WithoutIsGone | harness/internal/harnessapi/binding.go:98-105 | on a list without duplicates the turn is gone afterwards and every other stays |
| Bindings.Binding.constructor | harness/internal/harnessapi/binding.go:45-57 | a new binding is open and holds nothing |
| Bindings.Binding.Release | harness/internal/harnessapi/binding.go:59-68 | nothing goes out while gated or syncing; otherwise all held prompts go out, sorted by turn_seq |
| Bindings.Binding.Enter | harness/internal/harnessapi/binding.go:85-96 | a turn enters once, and none after the binding closed |
| Bindings.Binding.Leave | harness/internal/harnessapi/binding.go:98-105 | one entry of the turn leaves the outstanding list |
| Bindings.Binding.Close | harness/internal/harnessapi/binding.go:119-131 | a binding closes once; an idle close is refused over an outstanding turn or recent activity |
| Bindings.Binding.Hold | harness/internal/harnessapi/consume.go:372-387 | a saved prompt is held, and released with the others unless gated or syncing |
| Bindings.Binding.Ungate | harness/internal/harnessapi/consume.go:389-394 | opening the gate releases what is held unless the binding syncs |
| Bindings.Binding.Reconcile | harness/internal/harnessapi/consume.go:242-285 | the turn half of reconcileState in place: which commands are dropped, what is sent in which order, and the new outstanding list |
| TurnPipeline.ReconcileSendsAll | harness/internal/harnessapi/consume.go:242-285 | in every run a reconcile selects, once each and ascending, exactly the saved turns above the reported number and the held ones; they are sent at once, or when the gate opens on a gated binding; the outstanding list then has no duplicate and covers them and the reported turns |
| TurnPipeline.ReconcileIsAccepted | harness/internal/runner/session.go:181-200 | if the runner still holds the reported last_turn_seq it accepts the whole batch in order |
| TurnPipeline.BatchAcceptedIff | harness/internal/runner/session.go:181-200 | the runner accepts the whole batch if and only if its number is below the first turn of the batch |
| TurnPipeline.SkippedTurnNeverRuns | harness/internal/runner/session.go:181-200 | a turn the runner went past without accepting it is never accepted later, whatever is resent |
| TurnLink.LinkRefines | harness/internal/agentlink/agentio_server.go:157-193 | every run over a link that queues, sends in order and loses what is on a lost stream is a run of the pipeline |
| TurnLink.CanGoPastIff | harness/internal/agentlink/agentio_server.go:157-193 | a saved turn that the runner has neither accepted nor gone past: the runner can go past it without a stream being lost under it, if and only if it takes turns in and the turn does not come up before every later one, from the pipe, the held turns or the next reconcile |
| TurnLink.LostOnlyWithItsStream | harness/internal/agentlink/agentio_server.go:157-193 | in every run, over crashes and lost streams, an issued turn is accepted or saved and not gone past, and in line as long as the runner takes turns in, unless a stream was lost that carried it |
| TurnLink.StepKeepsAhead | harness/internal/agentlink/agentio_server.go:157-193 | every step keeps a turn in line until it is accepted or the runner finishes, a crash and a lost stream that does not carry it included |
| TurnLink.CrashPutsBackInLine | harness/internal/harnessapi/lifecycle.go:218-257 | a crash followed by an adoption puts every saved turn the runner has not gone past back in line |
| TurnLink.LostStreamLosesTurn | harness/internal/agentlink/agentio_server.go:100-105 | a reachable state with a saved turn the runner went past: it was on a lost stream, and the next stream carried the turn queued behind it before the State report was reconciled |
| TurnPipeline.StepKeeps | harness/internal/harnessapi/consume.go:213-285 | every step of allocation, saving, releasing, delivery, reports, reconcile, crash and adopt keeps the order of issued, saved, held, sent and accepted turns |
| TurnPipeline.RunKeeps | harness/internal/harnessapi/service.go:277-302 | that order holds in every state of every run |
| TurnConservation.TurnsAreConserved | harness/internal/harnessapi/lifecycle.go:47-67 | when stopLive returns, every accepted and saved turn has exactly one terminal turn event and none is outstanding; before, a saved turn is outstanding exactly as long as it has no event |
| TurnConservation.ClosedBindingTakesNoTurn | harness/internal/harnessapi/binding.go:85-131 | no turn enters after the close, and an idle stop never closes over an outstanding turn |
| TurnConservation.StepKeeps | harness/internal/harnessapi/service.go:277-302 | every step of startTurn, the launch of an opening turn, the consumer and the stop keeps one owed event per outstanding saved turn |
| EventLogs.HistoryReadsOn | harness/internal/harnessapi/eventlog.go:84-101 | reading after any cursor returns the stored events right behind it: a full page, or all there are |
| EventLogs.EndsAtIffEnded | harness/internal/harnessapi/eventlog.go:162-168 | endsAt holds exactly when the event at the cursor is a SessionEnded |
| EventLogs.Hub.constructor | harness/internal/harnessapi/eventlog.go:46-48 | a new log has no subscription |
| EventLogs.Hub.Unsubscribe | harness/internal/harnessapi/eventlog.go:170-179 | exactly this subscription goes |
| EventLogs.Hub.Publish | harness/internal/harnessapi/eventlog.go:112-125 | every subscription gets the event or is marked stale, and none is lost or added |
| EventLogs.PumpEmitsLogSuffix | harness/internal/harnessapi/eventlog.go:204-262 | for any interleaving of commits, publishes, overflows and reads, a subscription has put out exactly log[afterSeq+1..sent], in order, and stops at the first SessionEnded |
| EventLogs.ParkedMissesNothing | harness/internal/harnessapi/eventlog.go:225-254 | parked in live mode, every published event past sent is in the live channel or the stale flag is up |
| EventLogs.QuietIsComplete | harness/internal/harnessapi/eventlog.go:225-254 | parked with empty channels, the whole published log behind afterSeq went out |
| EventLogs.PublishKeeps | harness/internal/harnessapi/eventlog.go:112-125 | a publish, also one that overflows, keeps every mode of the pump covered |
| EventLogs.DrainKeeps | harness/internal/harnessapi/eventlog.go:209-225 | a page is put out in order and leads to live mode only if it reached the end of the log |
| EventLogs.TakeLiveKeeps | harness/internal/harnessapi/eventlog.go:228-246 | a live event goes out only as the next one; a gap leads to a reread |
| EventLogs.CommitKeeps | harness/internal/harnessapi/finish.go:16-35 | a commit of several final events before any of them is published keeps the subscription covered |
| EventLogs.StepKeeps | harness/internal/harnessapi/eventlog.go:58-82 | every step of writer and pump keeps the invariant of log, channels and cursor |
| EventClient.ClientResumesExactly | harness/api/client/subscribe.go:78-187 | over any number of dropped streams the client hands on exactly the stored events behind its starting cursor: ascending, each once, nothing after SessionEnded |
| EventClient.FinishedAtEndIff | harness/api/client/subscribe.go:146-170 | a client that takes the stream to be over stands at a SessionEnded if and only if the server did not cancel that stream, or the client started there and got nothing |
| EventClient.SessionEndFinishes | harness/api/client/subscribe.go:172-187 | a stream that carries SessionEnded to the client hands it on and finishes it |
| EventClient.CancelledStreamLooksFinished | harness/api/server/stream.go:19-36 | a run in which a cancelled stream that is closed cleanly ends the client on a log without SessionEnded |
| EventClient.DrainExtends | harness/api/client/subscribe.go:116-187 | draining any overlapping stretch of the log adds exactly the events behind the cursor |
| EventClient.Subscription.constructor | harness/api/client/subscribe.go:44-64 | a subscription starts at the requested cursor |
| EventClient.Subscription.Drain | harness/api/client/subscribe.go:116-187 | one stream from first frame to end: events at or before the cursor are dropped, delivery stops at SessionEnded, the cursor never moves back |
| Ownership.Service.constructor | harness/internal/harnessapi/owner.go:9-21 | no session is owned |
| Ownership.Service.Claim | harness/internal/harnessapi/owner.go:23-31 | a claim succeeds exactly when the session has no owner, and touches no other session |
| Ownership.Service.Register | harness/internal/harnessapi/owner.go:67-76 | a binding goes live exactly when its owner is in the table and no stop is pending on it |
| Ownership.Service.TakeStop | harness/internal/harnessapi/owner.go:84-93 | the pending stop is handed out once |
| Ownership.Service.Detach | harness/internal/harnessapi/owner.go:95-126 | the five outcomes of detach: wrong owner, stop recorded on a non-live owner with or without a waiter, refused close, replaced owner, free session |
| Ownership.Service.Finish | harness/internal/harnessapi/owner.go:128-144 | an owner with a pending stop hands it out and stays; one without leaves the table and releases its waiters |
| Ownership.Service.Settle | harness/internal/harnessapi/owner.go:146-154 | while other threads ask for stops, settling serves every stop that gets recorded, in that order, and leaves the table without stop and without waiters |
| SessionEnd.NoStopIsLost | harness/internal/harnessapi/owner.go:67-154 | in every run: a live owner carries no stop, a stop is only on the owner in the table, a retired owner has neither stop nor waiters, and every recorded stop is pending there, being served or served |
| SessionEnd.OwnerLeavesWithNothingPending | harness/internal/harnessapi/owner.go:95-144 | when an owner leaves the table, every recorded stop is served and nobody waits |
| SessionEnd.EndIsKeptIff | harness/internal/harnessapi/lifecycle.go:47-53 | an ended session keeps its status over every later step of every thread and over crashes, if and only if no thread is inside write, between its check and an update |
| SessionEnd.ClaimedSessionKeepsItsEnd | harness/internal/harnessapi/service.go:648-664 | if the creating launch got its claim, no thread is inside write once FinishSession committed, and the status never changes again |
| SessionEnd.SessionEndedOnce | harness/internal/harnessapi/service.go:620-632 | the log has one SessionEnded for the current end and one for each end that was written over; if none was, SessionEnded stands exactly where the events whose status read failed begin; with a claimed launch none is written over |
| SessionEnd.OneActs | harness/internal/harnessapi/lifecycle.go:47-53 | while one thread is between the check and the update of write, no other thread can end the session |
| SessionEnd.UnclaimedLaunchOverwritesEnd | harness/internal/harnessapi/service.go:222-231 | a reachable run in which a launch whose claim failed writes over an end: the row is stored before the claim |
| SessionEnd.OverwrittenSessionEndsTwice | harness/internal/harnessapi/service.go:222-231 | such a session can end again, with a second SessionEnded in its log |
| SessionEnd.DetachKeeps | harness/internal/harnessapi/owner.go:95-126 | a detach, whatever its outcome, keeps every recorded stop on the current owner and every waiter on it |
| SessionEnd.FinishKeeps | harness/internal/harnessapi/owner.go:128-144 | finishing an owner keeps both |
| SessionEnd.StepKeeps | harness/internal/harnessapi/launch.go:179-277 | every step of launches, revives, stops, reconcile, sweeps and crashes keeps the ownership invariant |
| PermissionSink.LogSink.constructor | harness/internal/harnessapi/sink.go:34-42 | every request is as at the start of its machine: none waits |
| PermissionSink.LogSink.Await | harness/internal/harnessapi/sink.go:46-60 | the Await step of a reconcile in the machine of the request: a waiter that is there is kept, a new one has its recorded deadline; no other request changes |
| PermissionSink.LogSink.Register | harness/internal/harnessapi/sink.go:62-75 | the Handle step of the consumer: a new request enters unarmed, one that waits already is returned; no other request changes |
| PermissionSink.LogSink.Stamp | harness/internal/harnessapi/sink.go:77-87 | the event carries the deadline that the waiter keeps, fixed when the request is new; no step of the machine |
| PermissionSink.LogSink.Arm | harness/internal/harnessapi/sink.go:89-95 | the end of a Record step that succeeds: the timer runs if this waiter still waits, and a waiter that took its place is left alone |
| PermissionSink.LogSink.Drop | harness/internal/harnessapi/sink.go:97-106 | a Record step that fails: this waiter goes, and a waiter that took its place stays |
| PermissionSink.LogSink.Validate | harness/internal/harnessapi/sink.go:159-170 | an answer is accepted exactly for a waiting request and an offered option |
| PermissionSink.LogSink.Take | harness/internal/harnessapi/sink.go:172-184 | the Take step of an answer, an expiry or a reconcile: the waiter is handed out once |
| PermissionSink.LogSink.PutBack | harness/internal/harnessapi/sink.go:117-135 | the failing Save and RecordEnd steps: the taken waiter is back, with the timer of a restore or without that of a reinstate, unless another waits |
| PermissionSink.LogSink.SupersedeAll | harness/internal/harnessapi/sink.go:203-213 | for every request the Take step of the stop: each waiting one is resolved exactly once, and none waits any more |
| PermissionSink.RecordedDeadlines | harness/internal/harnessapi/consume.go:344-364 | the paged search that stops early finds exactly the requests that are in the log, with a recorded deadline |
| Permissions.AtMostOneResolution | harness/internal/harnessapi/consume.go:257-341 | over answer, expiry, reconcile, stop and crashes a request that does not enter the waiter map again after its resolution, or while it is answered, gets at most one PermissionResolved, and none is due once it has one; an entry during an answer whose save then fails is excluded too, and FurtherResolutionIff is exact there |
| Permissions.FurtherResolutionIff | harness/internal/harnessapi/consume.go:396-430 | without a new entry into the waiter map a further resolution can be written if and only if one is due: the request waits, or somebody took its waiter to resolve it |
| Permissions.OnlyTwoWaysBackIn | harness/internal/harnessapi/consume.go:257-341 | a request enters again only if it was taken before it was recorded or the pod of a stopped binding was adopted; in all other runs one with a saved decision never waits and a resolved one is recorded |
| Permissions.TimerRunsBehindRecord | harness/internal/harnessapi/sink.go:89-95 | a request whose timer can fire is recorded, unless it was taken early or reconcile could not read the log |
| Permissions.SavedBeforeSent | harness/internal/harnessapi/service.go:396-414 | no decision is sent that was not saved first |
| Permissions.EarlyAnswerResolvesTwice | harness/internal/harnessapi/consume.go:133-146 | a run in which a request is answered before it is recorded, the manager crashes, and the request is resolved twice |
| Permissions.AdoptedAfterStopResolvesTwice | harness/internal/harnessapi/lifecycle.go:52-84 | a run in which a stop that could not tear the pod down, followed by a restart, resolves a request twice |
| Permissions.ReconcileKeepsInv | harness/internal/harnessapi/consume.go:257-306 | handling a State frame keeps the saved decision of a listed request and never lets a resolved one wait |
| Permissions.AnswerKeepsInv | harness/internal/harnessapi/consume.go:410-430 | answer and expiry keep the invariant at every point between take, save, write and send |
| Permissions.StepKeeps | harness/internal/harnessapi/consume.go:396-430 | every step of runner, consumer, answer, reconcile and stop keeps the invariant |
| AgentIO.AttachedRun.constructor | harness/internal/agentlink/server.go:125-137 | a run resumes with both cursors at ResumeAfter |
| AgentIO.AttachedRun.SetDelivered | harness/internal/agentlink/run.go:235-241 | the delivered cursor only moves forward |
| AgentIO.AttachedRun.Ack | harness/internal/agentlink/run.go:339-346 | the acked cursor only moves forward |
| AgentIO.AttachedRun.Send | harness/internal/agentlink/run.go:348-354 | a command is queued last, under a new number |
| AgentIO.AttachedRun.NextCommand | harness/internal/agentlink/run.go:249-258 | the oldest command behind a number, or none |
| AgentIO.AttachedRun.CommitCommand | harness/internal/agentlink/run.go:260-264 | exactly the committed command leaves the queue |
| AgentIO.AttachedRun.SendCommands | harness/internal/agentlink/agentio_server.go:157-193 | a stream woken again and again sends all commands, those queued meanwhile included, in order and once each; what is left at a failing send stays queued; the acks in between rise, and a loop that did not fail has sent every command and the highest ack |
| AgentIO.OneStreamServes | harness/internal/agentlink/run.go:166-208 | in every interleaving at most one stream serves a run, and it alone has the turn |
| AgentIO.NewestWins | harness/internal/agentlink/server.go:259-287 | the current claim is the newest one, and every other is closed or about to be closed by the step that displaced it or by its own handler |
| AgentIO.StepKeeps | harness/internal/agentlink/run.go:166-279 | every step of claim, release, drop, finish, attach and stream drop keeps both |
| Grace.Attachment.constructor | harness/internal/sandbox/orchestrator.go:309-338 | a new attachment is the initial one of the machine; an adopted one starts under a grace timer |
| Grace.Attachment.Fire | harness/internal/sandbox/orchestrator.go:346-355 | a fire that nobody interrupts tells supervision at most once, and never after Forget |
| Grace.Attachment.Signal | harness/internal/sandbox/orchestrator.go:299-373 | every callback of the link and the timer that nobody interrupts moves the attachment as the machine says; what supervision was told stays, and a forgotten attachment tells nothing |
| Grace.UninterruptedCallback | harness/internal/sandbox/orchestrator.go:346-355 | such a callback is its signal followed by the check and the once of its fire in the machine, where other threads may come between them |
| Grace.Attachment.Forget | harness/internal/sandbox/orchestrator.go:272-280 | only the first Forget stops a timer, and after any no signal tells supervision anything |
| Grace.ReportedStreamHasNoTimer | harness/internal/agentlink/server.go:289-311 | once the current attach stream has completed OnAttached no grace timer is armed, for all interleavings of eviction, loss and re-attach and for the timer of an adoption |
| Grace.LostRunIsTimed | harness/internal/agentlink/server.go:289-311 | a run that was attached or adopted, has no stream and is not given up is under a running timer if and only if, since the loss, the timer has not run out and no displaced stream has reported itself |
| Grace.ToldOnce | harness/internal/sandbox/orchestrator.go:346-355 | over every interleaving what supervision was told never changes |
| Grace.CanBeToldIff | harness/internal/sandbox/orchestrator.go:346-355 | without another fire supervision can still be told if and only if nothing was told and a call of fire has made its check, or has begun on an attachment that is not forgotten: so after Forget exactly if a call had made its check before |
| Grace.ExpiryTells | harness/internal/sandbox/orchestrator.go:357-364 | a timer that runs out has its call pending, so supervision can be told, unless it was told before or the attachment is forgotten |
| Grace.AttachedRunToldLost | harness/internal/sandbox/orchestrator.go:357-373 | a reachable state in which a stream has attached, no timer is armed, and supervision was told all the same that the tunnel is lost: the timer ran out before it was stopped |
| Grace.LateReportCancelsTimer | harness/internal/agentlink/run.go:210-216 | a reachable state without stream and without timer: the late OnAttached of an evicted stream cancelled the timer of a newer loss |
| Grace.StepKeeps | harness/internal/sandbox/orchestrator.go:299-343 | every step of attach, notify, release, timer and forget keeps both |
| Quotas.CheckQuotas | harness/internal/harnessapi/quota.go:41-77 | a request is refused exactly when the limiter refuses it, the store it needs cannot be read, the live cap is reached, or the cap on launches united with waiting sessions is; lengths are compared as 32-bit integers that wrap around |
| Quotas.QuotasHold | harness/internal/harnessapi/quota.go:32-77 | from any state within the caps in which an admission in progress counted right, live sessions and the pending set stay within their caps over all creates, revives, failures, stops and restarts, as long as no admission is torn and no unclaimed launch adds a session |
| Quotas.CapsAreEnough | harness/internal/harnessapi/quota.go:32-40 | without an admission in progress, and after every crash, being within the caps is such a state, whatever happened before |
| Quotas.ExceedsPendingIff | harness/internal/harnessapi/quota.go:54-77 | a step takes a client over its pending cap if and only if the cap is reached and the step adds a session that was not pending: an accepted one, or one whose unclaimed launch writes a waiting status |
| Quotas.ExceedsLiveIff | harness/internal/harnessapi/quota.go:41-53 | the same for the live cap: a new row, or an unclaimed launch that writes over the end of its session |
| Quotas.UnclaimedLaunchExceedsCaps | harness/internal/harnessapi/service.go:222-231 | a run over both caps with no torn read: a launch whose claim failed writes over the end of its session after another was admitted |
| Quotas.TornReadExceedsCap | harness/internal/harnessapi/quota.go:54-63 | a run over the pending cap with no write of an unclaimed launch: a revive went live between the two reads of an admission |
| Quotas.StepKeeps | harness/internal/harnessapi/service.go:318-361 | every step but a torn read and an adding write of an unclaimed launch keeps the caps and what an admission in progress relies on |
| PromptKeys.Keys.constructor | harness/internal/harnessapi/promptkeys.go:21-23 | no key is known |
| PromptKeys.Keys.Prune | harness/internal/harnessapi/ttlmemo.go:27-37 | a prune that is due drops exactly the expired entries |
| PromptKeys.Keys.Begin | harness/internal/harnessapi/promptkeys.go:25-47 | a caller joins the live entry of its key or becomes the one that starts |
| PromptKeys.Keys.End | harness/internal/harnessapi/promptkeys.go:49-59 | a failed start leaves no entry, a successful one is stamped |
| PromptKeys.StartsAreExclusive | harness/internal/harnessapi/promptkeys.go:25-60 | one start per key is in flight, and two successful starts of a key are further apart than the time to live |
| PromptKeys.FailedLeavesNoEntry | harness/internal/harnessapi/promptkeys.go:52-53 | no entry is a failed start |
| PromptKeys.CallersShareTheTurn | harness/internal/harnessapi/promptkeys.go:30-47 | from start to expiry every caller of the key gets the same claim, and so the same turn, and starts nothing |
| PromptKeys.StepKeeps | harness/internal/harnessapi/ttlmemo.go:22-37 | callers, ends, prunes and a clock that does not run back keep this |
| Utf8.ValidCut | harness/internal/runner/acp.go:231-240 | valid text cut in front of a character start gives valid pieces |
| Utf8.LastStartIsNear | harness/internal/runner/acp.go:235-238 | in valid text a character start is at most three bytes back |
| Aggregators.CutPart | harness/internal/runner/acp.go:231-240 | the cut is the last character start within 256 KiB, and nothing is lost |
| Aggregators.CutIsValid | harness/internal/runner/acp.go:231-240 | both pieces of valid text are valid and the first is not empty |
| Aggregators.CutStallsIff | harness/internal/runner/acp.go:231-240 | on any bytes a cut makes no progress exactly when a full part of continuation bytes follows the first |
| Aggregators.ChunksLaw | harness/internal/runner/acp.go:285-303 | a flush gives off the whole buffer in non-empty, bounded, valid parts |
| Aggregators.FullLaw | harness/internal/runner/acp.go:305-317 | a full buffer gives off such parts and keeps at most one part of text |
| Aggregators.PartIdsDiffer | harness/internal/runner/acp.go:319-328 | part ids of a turn differ |
| Aggregators.TurnConserves | harness/internal/runner/acp.go:330-379 | at every point of a turn emitted parts followed by the buffers are exactly the text received since Begin; parts are non-empty, at most 256 KiB, valid, numbered 1..k, none final |
| Aggregators.TurnIsConserved | harness/internal/runner/acp.go:257-271 | from Begin to End all text went out; at most one part is final and it is last, and there is one if and only if message text was buffered at End |
| Aggregators.ToolConserves | harness/internal/runner/acp.go:381-394 | a tool call goes out behind all text that came before it |
| Aggregators.Aggregator.constructor | harness/internal/runner/acp.go:253-255 | nothing is buffered |
| Aggregators.Aggregator.Begin | harness/internal/runner/acp.go:257-263 | a turn starts with part 0 and empty buffers |
| Aggregators.Aggregator.EmitPart | harness/internal/runner/acp.go:319-328 | a part goes out under the next number |
| Aggregators.Aggregator.FlushThoughts | harness/internal/runner/acp.go:285-293 | the loop gives off the thought buffer as the parts of its value |
| Aggregators.Aggregator.FlushMessages | harness/internal/runner/acp.go:295-303 | the loop gives off the message buffer as the parts of its value, the last one final if asked |
| Aggregators.Aggregator.SplitMessages | harness/internal/runner/acp.go:305-317 | the loop gives off full parts of the message buffer and keeps the rest |
| Aggregators.Aggregator.SplitThoughts | harness/internal/runner/acp.go:305-317 | the same for thoughts |
| Aggregators.Aggregator.Handle | harness/internal/runner/acp.go:330-394 | an update changes the aggregator as the update of its value does |
| Aggregators.Aggregator.End | harness/internal/runner/acp.go:265-271 | both buffers are flushed, the message finally |
| MdSplitProof.BlocksAreTheText | slackbot/internal/mdsplit/mdsplit.go:41-81 | the blocks of a text concatenate to the text |
| MdSplitProof.SplitFitsIff | slackbot/internal/mdsplit/mdsplit.go:8-39 | the parts of an oversized text are non-empty and fit the limit, if and only if each oversized fence leaves room for its body |
| MdSplitProof.SplitIsLossless | slackbot/internal/mdsplit/mdsplit.go:8-39 | without an oversized fence or table the parts concatenate to the text |
| MdSplitWhole.SplitConserves | slackbot/internal/mdsplit/mdsplit.go:8-39 | for every text and limit the parts are consecutive segments: plain pieces, non-empty pieces of a fence body between its fence lines, or pieces of table rows behind their header, at least one of them so that the header is sent; with fence lines and headers once each the segments concatenate to the text, and every byte but a line end is in the parts at least as often as in the text |
| MdSplitWhole.RestoresHasAll | slackbot/internal/mdsplit/mdsplit.go:8-39 | whatever parts restore a text in this way lose no byte of it, except line ends behind a closing fence |
| MdSplitChars.SplitCutsBetweenCharactersIff | slackbot/internal/mdsplit/mdsplit.go:8-39 | valid text is cut between characters only, if and only if every character of every oversized block fits the room its lines are cut to |
| MdSplitChars.FourBytesAreEnough | slackbot/internal/mdsplit/mdsplit.go:8-39 | room for four bytes in every oversized block is enough |
| MdSplitChars.RuneCutIff | slackbot/internal/mdsplit/mdsplit.go:183-200 | a cut of valid text is between characters if and only if the first character fits the limit |
| MdSplitChars.RuneSplitIff | slackbot/internal/mdsplit/mdsplit.go:183-200 | an oversized line is cut between characters only, if and only if every character fits |
| MdSplitChars.PackIff | slackbot/internal/mdsplit/mdsplit.go:156-181 | packed lines are cut between characters only, if and only if every character of every line fits |
| MdSplitProof.SplitEndsIff | slackbot/internal/mdsplit/mdsplit.go:110-117 | a call ends if and only if the limit is not 1 or no fence has a body |
| MdSplitProof.RuneCutStallsIff | slackbot/internal/mdsplit/mdsplit.go:183-200 | a cut takes nothing off exactly when the limit is 0 |
| MdSplitChars.RuneSplitBreaksCharacter | slackbot/internal/mdsplit/mdsplit.go:183-200 | a valid text that a limit of 3 cuts inside a character |
| MdSplitProof.ParseFenceLaw | slackbot/internal/mdsplit/mdsplit.go:93-108 | a fence block is opening line, body and closing line, and what closes the parts is a closing fence of its marker |
| MdSplitProof.FencePartsStandAlone | slackbot/internal/mdsplit/mdsplit.go:110-131 | every part of an oversized fence is the opening line, a piece of the body on its own lines and the closing fence, and the pieces concatenate to the body |
| MdSplitProof.FenceFitsIff | slackbot/internal/mdsplit/mdsplit.go:110-131 | the parts of an oversized fence fit if and only if the fence lines leave more than nothing for the body, nothing for a body of one newline, or one byte less for no body |
| MdSplitProof.TablePartsStandAlone | slackbot/internal/mdsplit/mdsplit.go:133-154 | every part of an oversized table starts with its header, and what follows the headers concatenates to the rows |
| MdSplitProof.TableWithoutRoom | slackbot/internal/mdsplit/mdsplit.go:141-144 | a table whose header does not fit is packed line by line without repeating anything |
| MdSplitProof.TableFits | slackbot/internal/mdsplit/mdsplit.go:133-154 | the parts of a table fit |
| MdSplitProof.PackFlat | slackbot/internal/mdsplit/mdsplit.go:156-181 | packing lines loses nothing |
| MdSplitProof.PackFits | slackbot/internal/mdsplit/mdsplit.go:156-181 | packed parts are non-empty and fit |
| MdSplitLoops.FindCut | slackbot/internal/mdsplit/mdsplit.go:186-192 | the loop finds the last character start, or gives up at the limit |
| MdSplitLoops.RuneSplits | slackbot/internal/mdsplit/mdsplit.go:183-200 | the loop computes the split of an oversized line |
| MdSplitLoops.PackLines | slackbot/internal/mdsplit/mdsplit.go:156-181 | the loop computes the packing |
| MdSplitLoops.FindBlocks | slackbot/internal/mdsplit/mdsplit.go:41-81 | the scan computes the blocks |
| MdSplitLoops.TakeFence | slackbot/internal/mdsplit/mdsplit.go:61-71 | the inner loop takes the lines of a fence up to its closing line or the end |
| MdSplitLoops.FindClosing | slackbot/internal/mdsplit/mdsplit.go:98-108 | the search from the end finds the closing line behind trailing empty lines |
| MdSplitLoops.WrapChunks | slackbot/internal/mdsplit/mdsplit.go:116-126 | the fence lines go around every chunk |
| MdSplitLoops.SplitCodeBlock | slackbot/internal/mdsplit/mdsplit.go:93-131 | the split of an oversized fence |
| MdSplitLoops.SplitTables | slackbot/internal/mdsplit/mdsplit.go:133-154 | the split of an oversized table |
| MdSplitLoops.SplitOversized | slackbot/internal/mdsplit/mdsplit.go:83-91 | an oversized block is split by its kind |
| MdSplitLoops.SplitText | slackbot/internal/mdsplit/mdsplit.go:8-39 | the whole split is the one the laws are about |

## Left out

- gRPC and Connect plumbing, TLS, tokens, JWT verification, HTTP servers, metrics and telemetry: input and output, not where the invariants are.
- Kubernetes calls of the orchestrator, the launcher and the run service: only their success or failure matters to the model.
- Generated protobuf code and the SQLite queries: replaced by small datatypes and by the interface of the store.
- Process spawning, signals and the ACP SDK: the agent is a source of updates and an exit.
- Slack rendering, the TypeScript and Python clients and the stub server: presentation, or the Go client again.
- Backoff, heartbeat and deadline lengths: timers fire at any time.
- Service.Shutdown: it has no caller outside the tests of the repository.
- Quotas.CheckQuotas: the token bucket of the rate limiter is a library; its verdict is a parameter.
- The memo of resolved requests in RespondPermission: it only answers a repeated call early.
- PodPipelineProof.CursorsStayOrdered: run.acked <= PodSeq is for a session that has not ended and did not fail to open, because from then on events are acked without being recorded.
- TurnConservation.TurnsAreConserved: covers one binding without an AgentIO reconnect and with event writes that succeed, because without either the code makes no such promise.
- Permissions.AtMostOneResolution: conditional on no second entry, because a second resolution is written otherwise; models one request: requests share only the mutex, and their ids are unique.
- Quotas.QuotasHold: until a torn read or an adding write of an unclaimed launch, because the caps are exceeded otherwise; one client, whose quotas do not change.
- Grace.CanBeToldIff: a call of `fire` from a link callback goes on beside the other steps; the code holds `notifyMu` until it is over, so the machine has more interleavings.
- AgentIO.AttachedRun.SendCommands: what the manager queues and acks while the loop sends counts from the next time the loop is woken.
- Aggregators.Aggregator.Handle: takes valid text, because the split loops do not end on the bytes `CutStallsIff` names; the decoder of agent updates yields valid text.
- MdSplitLoops.SplitText: takes the calls that end, which `SplitEndsIff` gives exactly.
