# Paraegox verification

A Dafny model of the stateful core of Paraegox and proofs about it.

- **Agent turn ledger** (`AgentLedger`, `AgentStates`, `AgentRuns`, `AgentLaws`, `AgentScenarios`). The state
  behind the Agent's mutex, one function for each locked region, a class that runs the same regions in place,
  and the transition system in which callers, provider results, dropped futures, profile changes,
  notifications and shutdown interleave. A joint invariant over all its structures holds in every world of
  every run, and the promises made to callers are theorems about whole runs: one terminal per turn,
  cancellation that is never forgotten, eviction of the oldest idle session, no lost wakeup, a shutdown that
  ends and is final. Runs in which a turn is served, cancelled ahead, and stopped are constructed.
- **Context, providers and wire bounds** (`AgentContext`, `AgentTypes`, `Text`). What a model is asked, what
  it may answer, and why every stored terminal fits every message that carries it.
- **Runtime host** (`RuntimeHosts`). Ordered start, reverse rollback, the special case of an interrupted start,
  and the status published at every intermediate point.
- **JSONL adapter** (`JsonlReader`, `Adapter`). A bounded incremental framer that does not depend on how the
  stream is cut, and the turn protocol with the grammar of its traces.
- **Deck compiler** (`Deck`). Validation, canonical order, and an injective digest preimage.
- **Input editor** (`Editor`). A UTF-8 byte buffer that refines an editor of character sequences.
- **Fabric ingress** (`Fabric`). Bounded admission and dispatch, with conservation of queries.

`dafny verify dfyconfig.toml` checks the project.

How the model is written:

- Each mutex region is one atomic step; between steps anything enabled may happen. The result of a provider, a
  timeout, a dropped future, a failed write and the outcome of an owner's lifecycle call are arbitrary.
  `select!` is a free choice between its branches.
- A handle upgrade succeeds while the service exists and may or may not succeed afterwards.
- `World.clock` and `World.born` only record when sessions were created; no step reads them to decide anything.
- In `AgentRuns` a completion may propose any terminal. `AgentLaws.IsBoundedRun` adds that it proposes what
  `wire_safe_terminal` returns, which only the size bounds need.
- Callbacks, task ends and the owner's acts may happen between any two steps of the Fabric dispatcher. A callback
  loads the admission flag and sends in two separate steps.
- A finished task stays in the dispatcher's `JoinSet`, and counts against its limit, until it is joined; the
  model keeps this.

Branches that can never run are kept and proved dead: two size checks
(`crates/paraegox/src/textual_stdio.rs:614-616` and `638-640`) and the internal error
branches of the ledger.

## Model

| member | source | states |
|---|---|---|
| AgentLedger.EvictionTakesOldestInactive | crates/paraegox-agent/src/service.rs:572-592 | in a coherent ledger a session can always be ensured; when all 64 places are taken the victim sits at position 1 if the active session is the oldest and at position 0 otherwise |
| AgentLedger.EnsureSessionKeeps | crates/paraegox-agent/src/service.rs:572-593 | ensuring a session never fails, keeps the joint invariant, leaves every other retained session as it was, and a new session starts empty with a free slot |
| AgentLedger.RejectedSubmitChangesNothing | crates/paraegox-agent/src/service.rs:219-259 | a rejected submit leaves the whole ledger as it was although its session was ensured first, and the eviction error is not among its reasons |
| AgentLedger.SubmitKeeps | crates/paraegox-agent/src/service.rs:219-301 | a submit keeps the joint invariant and every cancellation promise, appends at most the record it answers with, and admits only into an idle ledger with the context of the session's history |
| AgentLedger.SubmitCallKeeps | crates/paraegox-agent/src/service.rs:208-301 | the same for the whole call: bad input, a bad deadline or a missing owner change nothing, and whatever is answered or admitted has valid input |
| AgentLedger.SubmitCancelledEarly | crates/paraegox-agent/src/service.rs:238-252 | a submit of a turn cancelled in advance answers `Cancelled`, removes its tombstone and records the turn as cancelled, in one step that keeps invariant, promises and the active turn |
| AgentLedger.CancelKeeps | crates/paraegox-agent/src/service.rs:321-367 | a cancel records nothing and keeps invariant and promises; when it fails or answers that nothing is active the ledger is unchanged; when it answers that cancellation was requested the turn can only end cancelled |
| AgentLedger.AdmissionIsExact | crates/paraegox-agent/src/service.rs:219-301 | the outcome of a submit, decided by the ledger before it: lifecycle, profile, what is recorded of the turn and its input, a tombstone, another active turn, the 32 slots of the session, and the context, in this order |
| AgentLedger.CancellationIsExact | crates/paraegox-agent/src/service.rs:321-367 | the answer to a cancel and what it changes, decided by the ledger before it: a recorded terminal, the active turn and its flag, whether turns are admitted at all, an old tombstone, the 32 slots, a new tombstone |
| AgentLedger.AdmittedContext | crates/paraegox-agent/src/service.rs:261-292 | the context of an admitted turn, message by message, and within 256 KiB |
| AgentLedger.SubmitCallIsExact | crates/paraegox-agent/src/service.rs:208-221 | the input, the deadline of at most 60 seconds, and the owner are checked first, in this order, and a refusal changes nothing |
| AgentLedger.ForeignGuardsChangeNothing | crates/paraegox-agent/src/service.rs:434-495 | a guard that does not own the active turn changes nothing, and completing it tells which of the two errors it is |
| AgentLedger.CapacityIsKept | crates/paraegox-agent/src/service.rs:572-614 | a coherent ledger holds at most 64 sessions, and at most 32 completed, pending and active turns in each |
| AgentLedger.ReturningSessionsForget | crates/paraegox-agent/src/service.rs:577-592 | an evicted session that returns has no record and no promise, so retention cannot be dropped from the laws |
| AgentLedger.CancelFlagDecides | crates/paraegox-agent/src/service.rs:447-455 | the three-way test of `complete` decides exactly as the cancel flag alone |
| AgentLedger.CompleteKeeps | crates/paraegox-agent/src/service.rs:434-500 | completing the active turn always succeeds and records exactly one terminal in a retained session; dropping its guard equals completing it as cancelled |
| AgentLedger.ControlsKeep | crates/paraegox-agent/src/service.rs:150-198 | start, both halves of stop, drop, activation and deactivation touch no session, keep invariant, promises and the active identity, and never move the lifecycle back |
| AgentLedger.ControlsTakeEffect | crates/paraegox-agent/src/service.rs:150-198 | when start, activation, deactivation and stop take effect, and that deactivation, stop and drop leave the active turn able to end only as cancelled |
| AgentLedger.StartIsExact | crates/paraegox-agent/src/service.rs:189-198 | a start succeeds exactly in `Created`, then only sets the service running, and otherwise changes nothing |
| AgentLedger.ActivationIsExact | crates/paraegox-agent/src/service.rs:369-393 | an activation succeeds exactly with the owner, the provider's own definition, a running service and no active profile, and otherwise names the first of these that is missing |
| AgentLedger.DeactivationIsExact | crates/paraegox-agent/src/service.rs:395-411 | only the card that owns the profile takes it away and must wait; another is refused, and without a profile there is nothing to do |
| AgentLedger.StopIsExact | crates/paraegox-agent/src/service.rs:150-185 | a stop is done at once over a service never started or already stopped, and otherwise dooms the active turn and must wait; the last region and a drop set the service stopped |
| AgentLedger.NoProfileDooms | crates/paraegox-agent/src/service.rs:685-689 | in a coherent ledger an active turn without a profile has been flagged |
| AgentStates.AgentState.EnsureSession | crates/paraegox-agent/src/service.rs:572-593 | in place, the ledger becomes the ensured one, or stays as it was with the error |
| AgentStates.AgentState.EnsureTurnSlot | crates/paraegox-agent/src/service.rs:595-614 | refuses exactly when completed, pending and reserved turns fill the 32 slots |
| AgentStates.AgentState.FindCompleted | crates/paraegox-agent/src/service.rs:223-225 | the search loop finds the recorded turn with the id, if there is one |
| AgentStates.AgentState.PendingPosition | crates/paraegox-agent/src/service.rs:239-242 | the search loop finds the first tombstone with the id |
| AgentStates.AgentState.EvictablePosition | crates/paraegox-agent/src/service.rs:578-583 | the search loop finds the oldest session that is not protected |
| AgentStates.AgentState.RecordCompletedTurn | crates/paraegox-agent/src/service.rs:616-628 | in place, one turn is appended to one session and nothing else changes |
| AgentStates.AgentState.AdmitTurn | crates/paraegox-agent/src/service.rs:208-301 | the whole admission, loops and context building included, leaves the ledger and gives the outcome of `SubmitCall` |
| AgentStates.AgentState.Cancel | crates/paraegox-agent/src/service.rs:321-367 | in place, the ledger and answer of `CancelCall` |
| AgentStates.AgentState.Complete | crates/paraegox-agent/src/service.rs:434-463 | in place, the ledger and result of `Complete`, on every coherent state |
| AgentStates.AgentState.DropGuard | crates/paraegox-agent/src/service.rs:470-495 | in place, the ledger of `DropGuard` and whether the active turn was cleared, on every state |
| AgentStates.AgentState.ActivateProfile | crates/paraegox-agent/src/service.rs:369-393 | in place, the profile is set exactly when the service runs without one; the error order is the source's |
| AgentStates.AgentState.DeactivateProfile | crates/paraegox-agent/src/service.rs:395-411 | in place, only the owner's profile is removed, and the active turn is then flagged |
| AgentStates.AgentState.StopBegin | crates/paraegox-agent/src/service.rs:150-164 | in place, the first region of a stop, with the state in which it must wait |
| AgentStates.AgentState.DropService | crates/paraegox-agent/src/service.rs:178-185 | in place, the ledger after the service is dropped |
| AgentRuns.EveryStepMoves | crates/paraegox-agent/src/service.rs:150-500 | any enabled step, from any world in which the invariant holds, keeps the ledger invariant, appends at most one record, forgets no cancellation promise, and changes the active turn and its guard together |
| AgentRuns.StepKeepsSound | crates/paraegox-agent/src/service.rs:150-500 | any enabled step keeps the whole invariant: ledger, guards, stop callers, sleepers and session ages; no `expect` under the lock can fail |
| AgentRuns.EveryWorldIsSound | crates/paraegox-agent/src/service.rs:150-500 | the whole invariant holds in every world of every run |
| AgentRuns.StepKeepsSleepers | crates/paraegox-agent/src/service.rs:702-710 | after any step, an unpermitted sleeper implies an active turn or a notification still owed |
| AgentRuns.StepKeepsAges | crates/paraegox-agent/src/service.rs:572-593 | after any step the creation order lists exactly the retained sessions by strictly increasing age |
| AgentLaws.TurnListsOnlyGrow | crates/paraegox-agent/src/service.rs:616-628 | over any run, while a session is retained its turn list only grows by appending |
| AgentLaws.ToldTerminalsAreRecorded | crates/paraegox-agent/src/service.rs:223-236 | every terminal told by a result or by a late cancel is the one recorded for that turn |
| AgentLaws.WriteOnce | crates/paraegox-agent/src/service.rs:223-337 | any two terminals told for the same turn while its session is retained are equal, over every interleaving |
| AgentLaws.ResubmitReplays | crates/paraegox-agent/src/service.rs:219-236 | at any later point of a run at which the service runs with an active profile and the session is still retained, a resubmit with the recorded input replays the recorded terminal, one with another input is refused, and neither changes the ledger |
| AgentLaws.CancellationIsKept | crates/paraegox-agent/src/service.rs:339-365 | after a cancel answered that cancellation was requested, whatever is recorded for the turn while its session is retained is `Cancelled` |
| AgentLaws.CancellationIsWhatIsTold | crates/paraegox-agent/src/service.rs:223-365 | nor is any other terminal told for it, by a result or by a late cancel |
| AgentLaws.ActiveCancellationIsUnconditional | crates/paraegox-agent/src/service.rs:339-345 | for a turn that is active when cancelled the same holds with no assumption of retention: it stays active until it is recorded as cancelled |
| AgentLaws.DoomedActiveEndsCancelled | crates/paraegox-agent/src/service.rs:447-461 | an active turn whose cancellation was promised in any way stays active until it is recorded as cancelled, its session retained throughout |
| AgentLaws.ProfileLossEndsTheTurn | crates/paraegox-agent/src/service.rs:395-411 | a turn that was active at any moment without a profile ends cancelled, even if another profile is activated before it completes |
| AgentLaws.EvictionTakesTheOldest | crates/paraegox-agent/src/service.rs:577-589 | a session disappears only for a new one when 64 are held, never the active turn's, and every other candidate was created later |
| AgentLaws.AgeIsCreationTime | crates/paraegox-agent/src/service.rs:590-591 | the age of a session is the step that created it, for as long as it is retained |
| AgentLaws.InternalErrorsAreUnreachable | crates/paraegox-agent/src/service.rs:437-461 | in every run, completions always succeed, dropped guards always clear the turn, and no session is ever unevictable |
| AgentLaws.FailuresChangeNothing | crates/paraegox-agent/src/service.rs:254-259 | in every run, a rejected submit and a failed cancel leave ledger and guards unchanged |
| AgentLaws.EventsAreTheirRegions | crates/paraegox-agent/src/service.rs:150-500 | in every run each event runs its own locked region on the ledger, and no other event touches it |
| AgentLaws.CompletionsRecord | crates/paraegox-agent/src/service.rs:434-495 | in every run a completion records and tells its proposal unless the turn was flagged, a dropped guard records `Cancelled`, and either leaves an idle ledger and no guard |
| AgentLaws.WaitersBeginAndEnd | crates/paraegox-agent/src/service.rs:150-169 | a stop or deactivate call that must wait starts to, and a deactivate call that waited returns only over an idle ledger |
| AgentLaws.CapacityIsNeverExceeded | crates/paraegox-agent/src/service.rs:572-614 | over any run, at most 64 sessions and at most 32 turns of any kind in each |
| AgentLaws.AdmittedContextIsHistory | crates/paraegox-agent/src/service.rs:630-666 | over any run, the context of a newly admitted turn is the profile's prompt, the pairs of exactly the `Final` turns of its session and its input |
| AgentLaws.NoWakeupIsLost | crates/paraegox-agent/src/service.rs:702-710 | when no guard is armed and no notification is owed, every sleeping stop or deactivate call has been woken |
| AgentLaws.ShutdownIsFinal | crates/paraegox-agent/src/service.rs:150-169 | when a stop call returns there is no active turn, and no later step of any kind changes the ledger |
| AgentLaws.LifecycleMovesForward | crates/paraegox-agent/src/service.rs:150-198 | over any run the lifecycle never moves back |
| AgentLaws.StopCallsApproachTheirEnd | crates/paraegox-agent/src/service.rs:464-498 | while a stop call waits no step takes it farther from its end, and every step the program takes itself brings it nearer |
| AgentLaws.StopIsNeverStuck | crates/paraegox-agent/src/service.rs:702-710 | while a stop call waits, it or somebody it waits for can take a step |
| AgentLaws.StopReturnsWithinBound | crates/paraegox-agent/src/service.rs:150-169 | the number of steps the program can take before a stop call returns is bounded at the call, whatever callers do meanwhile |
| AgentLaws.EveryStoredTerminalFits | crates/paraegox-agent/src/lib.rs:146-164 | over any run, every stored terminal fits 60 KiB as a turn response, and 64 KiB as a late cancel response and as a JSONL frame |
| AgentLaws.EveryReplyIsStoredUnchanged | crates/paraegox-agent/src/service.rs:303-312 | over any run, `wire_safe_terminal` is the identity on every reply either provider can give to an armed turn |
| AgentLaws.AdmittedReplyQuotesHistory | crates/paraegox-agent/src/provider.rs:253-267 | over any run, the deterministic reply to an admitted turn quotes the input of the session's latest `Final` turn and of no other |
| AgentScenarios.ATurnIsAdmitted | crates/paraegox-agent/src/service.rs:189-301 | for any profile and any valid input within the context limit a run leads by start, activation and submit to an armed guard |
| AgentScenarios.ATurnIsServed | crates/paraegox-agent/src/service.rs:303-318 | and on to the telling of whatever its provider proposes |
| AgentScenarios.ATurnIsCancelledAhead | crates/paraegox-agent/src/service.rs:238-252 | a run in which a cancel comes before its submit, is promised, and the submit is then answered as cancelled |
| AgentScenarios.AStopFallsAsleep | crates/paraegox-agent/src/service.rs:702-710 | a run in which a stop falls asleep over the turn that it cancels |
| AgentScenarios.AStopReturns | crates/paraegox-agent/src/service.rs:150-169 | and on to the turn told as cancelled whatever its provider proposes, the stop woken, and its return over a stopped service |
| AgentContext.PushContextMessage | crates/paraegox-agent/src/service.rs:668-683 | refuses exactly when the running total would leave 256 KiB, and otherwise appends and keeps the total |
| AgentContext.BuildModelContext | crates/paraegox-agent/src/service.rs:630-666 | message by message, the system prompt, then the input and the content of exactly the `Final` turns in order, then the current input; it fails exactly when their bytes exceed 256 KiB in all |
| AgentContext.ProjectionByIndex | crates/paraegox-agent/src/service.rs:635-665 | the specified context, message by message |
| AgentContext.FinalsAreInOrder | crates/paraegox-agent/src/service.rs:643-644 | the `Final` turns are only these, each behind exactly as many as come before it |
| AgentContext.LatestFinalIsLatest | crates/paraegox-agent/src/provider.rs:253-267 | the latest `Final` turn is one behind which no other ended so, and there is none exactly when no turn did |
| AgentContext.ReplyQuotesLatestFinal | crates/paraegox-agent/src/provider.rs:253-267 | on a built context the reply reads `previous: ` with the latest `Final` input, if there is one, and `current: ` with the current input, never that of a failed, cancelled or timed-out turn |
| AgentContext.DecodeResponse | crates/paraegox-agent/src/provider.rs:225-251 | a response is accepted exactly when it holds one choice that stopped normally with safe content, and every refusal is an invalid response |
| AgentContext.SafeContentIsExact | crates/paraegox-agent/src/provider.rs:245-251 | safe content has a character that is not white space, at most 16 KiB, and no control character but newline and tab |
| AgentContext.ReadPayload | crates/paraegox-agent/src/provider.rs:174-188 | however the response is chunked, it is refused exactly when what arrives exceeds 64 KiB, reported unavailable when the stream breaks before that, and otherwise returned whole |
| AgentContext.EveryReplyIsWireSafe | crates/paraegox-agent/src/provider.rs:245-267 | every reply of either provider to a context built from admitted inputs is left alone by the wire check |
| AgentTypes.SmallTerminalsFit | crates/paraegox-agent/src/lib.rs:146-164 | terminals without content always fit their response |
| AgentTypes.WireSafeFits | crates/paraegox-agent/src/lib.rs:146-164 | a terminal is kept exactly when its response has at most 60 KiB and is replaced by a failure otherwise, and what results always fits |
| AgentTypes.InputFaultIsExact | crates/paraegox-agent/src/lib.rs:122-135 | an input is refused as blank, over 4 KiB or for a control character, in this order, and admitted otherwise |
| AgentTypes.EscapeReads | crates/paraegox/src/textual_stdio.rs:570-572 | a JSON reader gets back exactly the text that was escaped |
| AgentTypes.MessagesCarryTheContent | crates/paraegox-agent/src/lib.rs:146-164 | each of the three messages carries the whole content of a terminal |
| AgentTypes.StoredTerminalFitsEverywhere | crates/paraegox/src/textual_stdio.rs:570-578 | a terminal that fits its turn response fits the larger limits of the cancel response and of the JSONL frame |
| AgentTypes.EscapeAtMostDoubles | crates/paraegox-agent/src/provider.rs:245-251 | JSON escaping at most doubles text whose only control characters are newline and tab |
| AgentTypes.PlainContentFits | crates/paraegox-agent/src/lib.rs:146-164 | plain content of at most 16 KiB always fits, however much of it is escaped |
| RuntimeHosts.RuntimeHost.InvokeOwner | crates/paraegox-runtime/src/host.rs:474-496 | one callback is made and its error or timeout is reported for that owner and action |
| RuntimeHosts.ReportsAreExact | crates/paraegox-runtime/src/host.rs:474-496 | a call that succeeded reports nothing; any other reports itself, as a timeout or as an error |
| RuntimeHosts.StartsAreInOrder | crates/paraegox-runtime/src/host.rs:143-262 | owners are started by index, services before cards, each with its own callback |
| RuntimeHosts.StopsAreInReverse | crates/paraegox-runtime/src/host.rs:498-546 | and stopped in the opposite order, each with its own callback |
| RuntimeHosts.StartedShows | crates/paraegox-runtime/src/host.rs:143-276 | the status a start leaves: all ready when every start succeeded, and otherwise failed, with each card untouched, failed or showing how its stop went |
| RuntimeHosts.StoppedShows | crates/paraegox-runtime/src/host.rs:278-313 | the status and report a stop leaves: a card is `Failed` exactly when its stop did not succeed, which is exactly when a failure of it is reported, and `Stopped` exactly otherwise |
| RuntimeHosts.StopFailuresAreExact | crates/paraegox-runtime/src/host.rs:498-546 | a run of stops reports an owner exactly when its stop did not succeed |
| RuntimeHosts.RuntimeHost.Start | crates/paraegox-runtime/src/host.rs:143-276 | services then cards start in order up to the first that does not succeed; then exactly the rollback calls are made and its failures returned in call order; every snapshot published on the way stays in the history, all of it coherent, with the final status last |
| RuntimeHosts.RuntimeHost.Stop | crates/paraegox-runtime/src/host.rs:278-313 | all owners stop in reverse start order; the failures are the failing stops in order; the host ends `Stopped` exactly when there were none; every snapshot published on the way stays in the history, all of it coherent |
| RuntimeHosts.RuntimeHost.Drive | crates/paraegox-runtime/src/host.rs:143-313 | over any sequence of start and stop calls, refused ones included, every owner is stopped exactly as often as is due: once if its start succeeded or was interrupted and the host is no longer up, otherwise never |
| RuntimeHosts.StopsAreDue | crates/paraegox-runtime/src/host.rs:143-313 | the stop counts of the calls that lead to each settled state of a host |
| RuntimeHosts.RuntimeHost.StartCards | crates/paraegox-runtime/src/host.rs:190-262 | cards start in order, and the first that fails leaves exactly its interrupted stop and the reverse stops of the cards before it |
| RuntimeHosts.RuntimeHost.StartServices | crates/paraegox-runtime/src/host.rs:143-188 | services start in order, and a failure leaves the whole rollback done and the host failed |
| RuntimeHosts.RuntimeHost.StopStartedServices | crates/paraegox-runtime/src/host.rs:498-517 | the started services stop in reverse, with the failing ones reported |
| RuntimeHosts.RuntimeHost.StopStartedCards | crates/paraegox-runtime/src/host.rs:519-546 | the started cards stop in reverse, and each is left published as `Stopped` exactly when its stop succeeded and as `Failed` otherwise |
| RuntimeHosts.EveryStartedOwnerStopsOnce | crates/paraegox-runtime/src/host.rs:143-313 | for any composition and any outcomes, an owner whose start succeeded is stopped exactly once, one whose start erred never, one whose start was interrupted once |
| RuntimeHosts.StopsMirrorStarts | crates/paraegox-runtime/src/host.rs:278-313 | a full stop visits the owners in exactly the opposite order of a full start |
| RuntimeHosts.InterruptedStopIsFirst | crates/paraegox-runtime/src/host.rs:208-236 | after an interrupted start its own stop precedes every other stop |
| RuntimeHosts.RollbackReportsAreFailingStops | crates/paraegox-runtime/src/host.rs:498-546 | a failed start reports exactly the cleanup stops that failed, in the order they were made |
| RuntimeHosts.Composition.ReportsAreFailingStops | crates/paraegox-runtime/src/host.rs:498-546 | the failures a stop loop collects are exactly those of its calls, in order |
| RuntimeHosts.Composition.SilentStopsSucceed | crates/paraegox-runtime/src/host.rs:296-312 | a stop reports nothing exactly when every owner stopped successfully |
| RuntimeHosts.StopDownUnwinds | crates/paraegox-runtime/src/host.rs:519-546 | stopping any run of cards in reverse keeps the published deck run a Ready prefix followed by finished cards |
| RuntimeHosts.RuntimeStatus.SetHostState | crates/paraegox-runtime/src/status.rs:132-137 | any state may be set; the new status is published after all earlier ones, and coherence of everything readable is kept when the new status is coherent |
| RuntimeHosts.RuntimeStatus.SetDeckRunState | crates/paraegox-runtime/src/status.rs:139-149 | the same for the deck run, which may be absent |
| RuntimeHosts.RuntimeStatus.SetCardState | crates/paraegox-runtime/src/status.rs:151-162 | the same for one card |
| RuntimeHosts.CheckLaunch | crates/paraegox-runtime/src/deck.rs:38-71 | a launch is accepted exactly when the implementations match the locked cards position by position, and otherwise the first mismatch is named |
| JsonlReader.BoundedJsonlReader.NextFrame | crates/paraegox/src/textual_stdio.rs:611-650 | however the stream is cut into reads, the result is the next line of what remains, or the size error exactly when that line is over 16384 bytes; at most 16385 bytes are buffered; a call interrupted at a read loses nothing |
| JsonlReader.BoundedJsonlReader.Drain | crates/paraegox/src/textual_stdio.rs:594-650 | any calls, with any chunking and any interruptions at a read, deliver a prefix of the frames of the whole stream, at least one for each call that is not interrupted, and all of them once finished |
| JsonlReader.FramesAreSegments | crates/paraegox/src/textual_stdio.rs:611-650 | those frames are the newline-separated segments, each without one trailing carriage return, up to the first that is too long |
| JsonlReader.FramesByIndex | crates/paraegox/src/textual_stdio.rs:611-650 | frame by frame: a line for each segment before the first over 16384 bytes, but none for an empty one at the end; then the size error, or the end |
| JsonlReader.TrimIsExact | crates/paraegox/src/textual_stdio.rs:619-621 | one trailing carriage return is taken off, and nothing else |
| JsonlReader.SplitIsUnique | crates/paraegox/src/textual_stdio.rs:611-622 | the segmentation is the only one that joins back to the stream |
| Adapter.SubmitReply | crates/paraegox-agent/src/transport.rs:87-99 | a submit yields a terminal exactly from a turn response with the same session and turn |
| Adapter.CancelReplyOf | crates/paraegox-agent/src/transport.rs:111-123 | a cancel yields a result exactly from a cancel response with the same session and turn |
| Adapter.TextualAdapter.Send | crates/paraegox/src/textual_stdio.rs:565-587 | a write adds exactly its frame to the trace unless it is the one that fails, which leaves the frame owed |
| Adapter.TextualAdapter.NextCommand | crates/paraegox/src/textual_stdio.rs:602-609 | commands are read in order, none twice; a malformed one is a fault, and no more input is the end |
| Adapter.TextualAdapter.FinishActiveShutdown | crates/paraegox/src/textual_stdio.rs:359-443 | the active turn is cancelled and ended by one terminal or one error unless a write fails, within the grammar |
| Adapter.TextualAdapter.FailActiveProtocol | crates/paraegox/src/textual_stdio.rs:343-357 | the protocol error is always reported, after the turn has been ended unless a write fails |
| Adapter.TextualAdapter.DriveTurn | crates/paraegox/src/textual_stdio.rs:140-341 | for every interleaving of commands and results the turn stays in the grammar, and each outcome tells exactly where the trace stands |
| Adapter.TextualAdapter.RunProtocol | crates/paraegox/src/textual_stdio.rs:75-138 | the whole command loop stays in the grammar; it is graceful only where the trace may still end with `Stopped` |
| Adapter.TextualAdapter.Run | crates/paraegox/src/textual_stdio.rs:28-73 | unless a write fails every submitted turn is ended exactly as often as it was submitted; the run succeeds exactly when `Stopped` was written, and then no error was and the terminals are the submits, in order |
| Adapter.SubmitsAreEnded | crates/paraegox/src/textual_stdio.rs:140-341 | at every point of every trace in the grammar, submissions of a turn equal its endings plus what the phase still owes |
| Adapter.EverySubmitEnds | crates/paraegox/src/textual_stdio.rs:75-138 | a whole trace ends every turn exactly as often as it was submitted, nested submits included |
| Adapter.CancelRepliesPrecedeTheEnding | crates/paraegox/src/textual_stdio.rs:240-265 | a cancel reply other than `not_active` is written only while its turn is open |
| Adapter.OpenTurnIsThePhases | crates/paraegox/src/textual_stdio.rs:82-138 | the open turn, read off the steps of a trace alone, is the one its phase names |
| Adapter.CancelsAreAsked | crates/paraegox/src/textual_stdio.rs:213-240 | a cancel of the open turn is put to the Agent, and a cancel of any other is answered at once |
| Adapter.CancelAnswersAreWritten | crates/paraegox/src/textual_stdio.rs:240-278 | what the Agent answers to a cancel is written next, with its own status, and a terminal right after it |
| Adapter.SubmissionEndsAreWritten | crates/paraegox/src/textual_stdio.rs:154-175 | how a submission ended is written next, for the open turn; giving up on it is an error |
| Adapter.CommandsBetweenTurns | crates/paraegox/src/textual_stdio.rs:82-137 | what each command between turns leads to; a shutdown or the end of the input closes the client, and `Stopped` follows exactly if that succeeds |
| Adapter.CommandsDuringATurn | crates/paraegox/src/textual_stdio.rs:176-338 | what each command during a turn leads to; a shutdown, the end of the input and any fault put a cancel to the Agent, and a second submit is refused first |
| Adapter.CancelRepliesComeFromAnswers | crates/paraegox/src/textual_stdio.rs:229-265 | a reply for the open turn, `not_active` included, is written only directly after the Agent answered so, and any other only directly after its cancel was read |
| Adapter.TerminalsComeFromTheAgent | crates/paraegox/src/textual_stdio.rs:154-161 | a terminal is written only for the open turn, directly after the Agent reported it or after the reply that it came with |
| Adapter.ShutdownEndsWithStopped | crates/paraegox/src/textual_stdio.rs:313-336 | a shutdown or the end of the input is the last thing read, and if nothing goes wrong after it a whole trace ends with `Stopped` |
| Adapter.FaultsRuleStoppedOut | crates/paraegox/src/textual_stdio.rs:189-212 | a fault, a command for another session or version, and a second submit rule `Stopped` out |
| Adapter.FreshTurnsEndOnceAfterTheirCancels | crates/paraegox/src/textual_stdio.rs:212-278 | with a fresh turn id there is one submit before, and one ending after, every such reply |
| Adapter.TerminalsFollowSubmits | crates/paraegox/src/textual_stdio.rs:75-138 | as long as a trace may still end gracefully it holds no error and its terminals are its submits in order, but for the open one |
| Adapter.StoppedMeansAllDone | crates/paraegox/src/textual_stdio.rs:57-66 | `Stopped` is last, implies that no error was written, and that terminals equal submits one for one |
| Adapter.TerminalsAreRelayed | crates/paraegox/src/textual_stdio.rs:152-265 | every terminal the Agent reports, by a result or by a cancel, is written exactly once, unchanged and in order |
| Text.TruncateUtf8 | crates/paraegox/src/textual_stdio.rs:475-484 | the result is the longest character prefix that fits the byte limit |
| Text.BoundaryIsPrefixEnd | crates/paraegox/src/textual_stdio.rs:480-482 | every byte position that passes the boundary test ends a character prefix |
| Text.EncodeInjective | crates/paraegox-deck/src/lib.rs:309-312 | two texts with the same UTF-8 bytes are equal |
| Text.AsciiClasses | crates/paraegox-agent/src/lib.rs:122-135 | which ASCII characters are control characters and which are white space |
| Text.EncodedSamples | crates/paraegox-deck/src/lib.rs:309-312 | the encodings that section 7 of RFC 3629 gives as examples |
| Deck.NewCompiler | crates/paraegox-deck/src/lib.rs:184-202 | a compiler is built exactly from valid definitions and accepts exactly those; otherwise the first faulty one is named |
| Deck.ResolveCards | crates/paraegox-deck/src/lib.rs:213-249 | the loop accepts exactly the good cards with distinct keys, and otherwise returns the fault of the first card in input order that has one |
| Deck.Compile | crates/paraegox-deck/src/lib.rs:204-258 | a spec compiles exactly when it is valid, and its lock holds its cards in key order with the digest of their preimage |
| Deck.FieldFaultIsExact | crates/paraegox-deck/src/lib.rs:261-288 | a field is refused as empty, padded with white space, holding a control character or too long, in this order |
| Deck.CompilesMeans | crates/paraegox-deck/src/lib.rs:204-249 | a deck compiles exactly with a sound key, 1 to 64 cards with sound keys and known definitions, and no key twice |
| Deck.CardFaultIsExact | crates/paraegox-deck/src/lib.rs:220-249 | of several things wrong with one card, its key comes first, then its definition, a repeated key, an unknown definition |
| Deck.BytesLessIsLexicographic | crates/paraegox-deck/src/lib.rs:250-251 | keys ascend: the first difference in their bytes decides, and a proper prefix comes first |
| Deck.SortUnstable | crates/paraegox-deck/src/lib.rs:250-251 | the sort is a sorted permutation of its input |
| Deck.DeckDigest | crates/paraegox-deck/src/lib.rs:290-307 | hashing field by field is hashing the preimage, and the digest is its hexadecimal text |
| Deck.HexReads | crates/paraegox-deck/src/lib.rs:302-306 | two hexadecimal digits for each byte, the high one first |
| Deck.PreimageLayout | crates/paraegox-deck/src/lib.rs:290-301 | the preimage can be read back from behind its domain: the deck key as a field, the number of cards, and the cards |
| Deck.CardFieldsRead | crates/paraegox-deck/src/lib.rs:297-300 | and from these, card by card, the bytes of its key and then of its definition |
| Deck.BigEndianReads | crates/paraegox-deck/src/lib.rs:309-312 | lengths are written with the most significant byte first |
| Deck.ArrangementIsUnique | crates/paraegox-deck/src/lib.rs:250-251 | a set of cards with distinct keys has one strictly sorted arrangement |
| Deck.PermutationInvariance | crates/paraegox-deck/src/lib.rs:204-258 | permuting the cards of a spec preserves whether it compiles and the whole lock |
| Deck.PreimageInjective | crates/paraegox-deck/src/lib.rs:290-312 | equal preimages mean the same deck key and the same cards |
| Deck.PreimageIsCanonical | crates/paraegox-deck/src/lib.rs:204-312 | two compiled decks have equal preimages exactly when they have the same key and the same cards up to order |
| Deck.DigestFieldPrefixFree | crates/paraegox-deck/src/lib.rs:309-312 | a length-prefixed field can be read back from the front of any bytes |
| Deck.DigestIdentifiesLock | crates/paraegox-deck/src/lib.rs:290-312 | if the hash does not collide on two locks, equal digests mean equal locks |
| Editor.EveryRunStaysEditable | crates/paraegox/src/tui/app.rs:107-182 | over any sequence of commands the cursor stays in the text, the text within 4096 bytes, and no control character is held |
| Editor.ApplyStaysEditable | crates/paraegox/src/tui/app.rs:113-182 | each command keeps the same |
| Editor.CommandsAreExact | crates/paraegox/src/tui/app.rs:113-178 | what each command does to the characters and to the cursor, and exactly when a character is accepted |
| Editor.PasteIsExact | crates/paraegox/src/tui/app.rs:124-133 | a paste inserts the longest prefix of its printable characters that fits, at the cursor |
| Editor.FittingIsMaximal | crates/paraegox/src/tui/app.rs:124-133 | pasted text is cut to its longest prefix of printable characters that fits |
| Editor.PastingIsTyping | crates/paraegox/src/tui/app.rs:124-133 | pasting equals typing the characters one by one up to the first that does not fit |
| Editor.TypingIsUndone | crates/paraegox/src/tui/app.rs:114-156 | an accepted character is undone by a backspace, and by a move to the left and a delete |
| Editor.BackspaceIsLeftDelete | crates/paraegox/src/tui/app.rs:135-156 | a backspace equals a move to the left and a delete exactly when the cursor is not at the start of a text |
| Editor.InputEditor.Insert | crates/paraegox/src/tui/app.rs:114-122 | on the byte buffer, exactly the character editor's insertion, accepted exactly when printable and within the limit |
| Editor.InputEditor.InsertText | crates/paraegox/src/tui/app.rs:124-133 | on the byte buffer, exactly the character editor's paste, reporting whether everything was taken |
| Editor.InputEditor.Backspace | crates/paraegox/src/tui/app.rs:135-143 | on the byte buffer, the character before the cursor is removed whole |
| Editor.InputEditor.Delete | crates/paraegox/src/tui/app.rs:145-152 | on the byte buffer, the character at the cursor is removed whole |
| Editor.InputEditor.ByteIndex | crates/paraegox/src/tui/app.rs:188-193 | the byte index of a character index ends exactly that many characters |
| Editor.InputEditor.Take | crates/paraegox/src/tui/app.rs:175-178 | returns the whole text and leaves an empty editor |
| Editor.InputEditor.Prefix | crates/paraegox/src/tui/app.rs:180-182 | exactly the characters before the cursor |
| Editor.InputEditor.Replay | crates/paraegox/src/tui/app.rs:107-182 | any sequence of commands on the byte buffer ends where the character editor ends |
| Fabric.FabricIngress.EnterCallback | crates/paraegox-fabric/src/service.rs:404-413 | in place, the ingress after a callback loads the flag: the query is rejected while admission is closed, and otherwise about to be sent |
| Fabric.FabricIngress.SendQuery | crates/paraegox-fabric/src/service.rs:415-436 | in place, the ingress after a send: a query that is over 64 KiB, or that finds 16 queued or the dispatcher gone, is rejected, and any other is queued last |
| Fabric.EntryIsExact | crates/paraegox-fabric/src/service.rs:404-413 | a callback's query goes on to be sent exactly when admission is open and is rejected otherwise; nothing else changes |
| Fabric.SendIsExact | crates/paraegox-fabric/src/service.rs:415-436 | a sent query is queued and admitted last exactly when it is at most 64 KiB, the dispatcher exists and fewer than 16 are queued, and is rejected otherwise; nothing else changes |
| Fabric.TaskEndIsExact | crates/paraegox-fabric/src/service.rs:455-499 | a task that ends has served its query and stays in the set until it is joined |
| Fabric.OwnerActsAreExact | crates/paraegox-fabric/src/service.rs:228-247 | the owner opens and closes admission and undeclares queryables, and nothing else |
| Fabric.FabricIngress.SpawnTask | crates/paraegox-fabric/src/service.rs:450-455 | in place, the query in hand gets a task with the handler of its own binding |
| Fabric.FabricIngress.AbortDispatcher | crates/paraegox-fabric/src/service.rs:249-261 | aborting the dispatcher closes the queue and loses exactly what was held, all of it still accounted for |
| Fabric.HappenPasses | crates/paraegox-fabric/src/service.rs:404-499 | nothing that callbacks, tasks and the owner do, at whatever moment, breaks the invariant or takes from the records |
| Fabric.FabricIngress.Dispatch | crates/paraegox-fabric/src/service.rs:438-459 | whatever happens beside the dispatcher, while it waits and while it does not, at most 16 queries are queued and 8 tasks held, and spawning follows admission order; when it ends every admitted query has been served, and when it does not it truly waits for a task or a query |
| Fabric.EveryQueryIsInOnePlace | crates/paraegox-fabric/src/service.rs:404-459 | in every state that satisfies the invariant, each query seen is counted exactly once among rejected, being sent, queued, in the dispatcher's hand, in flight, served and lost with an aborted dispatcher; nothing is lost while the dispatcher exists |

## Left out

- Zenoh sessions, the HTTP client, stdin and stdout, terminal rendering, the Textual client, command-line parsing: input and output.
- Real time: a deadline or timeout is an arbitrary outcome at the point where it may strike.
- Tokio itself: a `Notified` future receives `notify_waiters` from its creation, and a watch channel holds the flag; neither is modelled further.
- Poisoned locks and panics.
- SHA-256: an uninterpreted function from bytes to 32 bytes. Freedom from collisions is assumed only where `DigestIdentifiesLock` says so.
- UUID generation: identities are arbitrary texts of 36 characters; freshness is a hypothesis where it is needed.
- serde decoding of commands, requests and responses: a frame either decodes to a command or is a fault. JSON texts are modelled only for the size bounds.
- The conversation client's own check of input and deadline before it sends (`crates/paraegox-agent/src/transport.rs:76-77`): its failure is one of the arbitrary outcomes of a submission.
- The texts of error messages, and the size of the request sent to the external provider.
- Runtime identity, generation and card instance identifiers in status snapshots.
- A caller that drops `RuntimeHost::start` or `stop` midway.
- `FabricService::start_inner` and `stop_inner` beyond what they do to admission, senders and the dispatcher, and the replies of `serve_request`: a task ends at an arbitrary time.
- `ChatApp` and `bounded_display_text`: display only; the latter cuts text as `TruncateUtf8` does.
- Session state is held as values in a map that the methods reassign; aliasing of a mutable session is not modelled.
- Invariance under permutation of which compile error is returned: it is the first in input order.
