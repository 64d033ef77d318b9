# VibeDeck protocol cores

VibeDeck is a control layer between a phone and an agent on a PC. This project models the stateful parts that
carry its promises and proves those promises for every input, every run and every interleaving:

- **Patch text** (`PatchText.dfy`, `PatchHeaders.dfy`, `PatchApply.dfy`): the line-driven scanner that turns a git diff into files and
  hunks, the printer, and the filter behind "apply selected hunks".
- **Ack tracker** (`AckTracker.dfy`): the retry table with geometric back-off and its counters.
- **Bridge multiplexer** (`BridgeRpc.dfy`): callers, reader and shutdown sharing a map of one-shot channels, as a
  transition system over the atomic actions of each goroutine.
- **Relay** (`Relay.dfy`, `RelaySession.dfy`): bounded queues per peer, dropped terminal lines counted and reported.
- **Signaling rooms** (`SignalingRooms.dfy`): attach, detach, forward-or-queue and the direction rules.
- **Threads** (`ThreadStore.dfy`, `Orchestrator.dfy`, `Responses.dfy`, `OrchestratorService.dfy`,
  `ThreadCausality.dfy`): the event log with its cached summary and job index, the command handlers that drive it, what
  each command does, and what the logs say about jobs.
- **Control metrics** (`ControlMetrics.dfy`, `ControlMetricsService.dfy`): the cube of accumulators by type and path.
- **Connection state** (`StateManager.dfy`): the state machine with its outstanding timer callbacks.
- **Pairings** (`PairingStore.dfy`, `PairingService.dfy`): two maps over shared mutable records.

Each component has a pure specification (a step function and a run over a sequence of inputs), theorems about all
runs, and, where the code updates things in place, a class whose methods are proved equal to the specification.
`Common.dfy`, `Text.dfy`, `Sums.dfy` and `Protocol.dfy` hold shared types, string functions, sums over maps and the
envelope.

What the components cannot see is an input: the clock, random tokens, generated names, the answers of the workspace
adapter, whether a full queue drains in time, whether a timer's Stop comes before its callback starts, and the order
in which Go walks a map. SHA-1 is an arbitrary function from text to text. Handlers of the orchestrator run one at a
time; the theorems about job logs take generated job IDs to be fresh in the store.

Some properties one would expect hold only under a condition. Each has its exact condition or a concrete
counterexample beside it:

- Printing and parsing a patch is lossless exactly when no line ends in a carriage return (`RoundTrip`,
  `TrailingCRIsLost`).
- The relay's loss report is exact in position exactly when the drop counter started at zero and no packet was queued
  that itself reads as a report (`LossAccounting`, `InheritedCounter`, `SentSummary`). With the reader running in the
  middle of a send no loss goes uncounted, but a line can overtake the report of losses before it: for distinct lines
  exactly when the reader takes something between a summary that found the queue full and its line
  (`InterleavedAccount`, `PositionCanSlip`).
- A restart restores the job index exactly when it holds the jobs the records name, each under the last thread that
  names it (`SnapshotLoadIndex`, `AssignmentAloneIsLost`, `MovedJobReturns`); every run of the handlers meets this
  (`RestartRestoresStore`).
- A fallback entry needs a P2P attempt unless a caller passes the note reserved for the timeout
  (`NoFallbackWithoutAttempt`, `ForgedFallback`). A closed state manager stays closed exactly when no delayed fallback
  is outstanding (`ClosedIsFinal`, `ClosedCanReopen`): the delayed fallback is never cancelled.
- The pairing maps stay in agreement when a pairing is added exactly when its tokens are both unused or lead to the
  same record (`AddedAgrees`).

## Model

| member | source | states |
|---|---|---|
| PatchText.ParseCharacterised | internal/agent/cursor_agent_cli_adapter.go:732-805 | for every input the parse is the one well-shaped, properly numbered patch whose flattened lines are the normalised input from the first "diff --git " line on: lossless and unique, both directions |
| PatchText.ParseUnifiedPatch | internal/agent/cursor_agent_cli_adapter.go:732-805 | the loop with its flush helpers computes that parse; the result is well shaped and flattens to the input lines |
| PatchText.ScanAll | internal/agent/cursor_agent_cli_adapter.go:765-803 | the loop over the lines, with its four variables, is the scan of all lines followed by the final flush |
| PatchText.CloseHunk | internal/agent/cursor_agent_cli_adapter.go:743-751 | flushHunk: the open hunk is numbered, identified and appended to its file |
| PatchText.CloseFile | internal/agent/cursor_agent_cli_adapter.go:752-763 | flushFile: the open hunk is closed, a missing status becomes "modified", the file is appended and the count restarts |
| PatchText.NoteHeader | internal/agent/cursor_agent_cli_adapter.go:788-802 | a header line sets status or path in the order of the switch |
| PatchText.ReadBack | internal/agent/cursor_agent_cli_adapter.go:765-803 | scanning the lines of any well-shaped patch gives that patch back with recomputed hunk IDs |
| PatchText.HunkIdsDistinct | internal/agent/cursor_agent_cli_adapter.go:979-982 | two hunks of one parsed file never share an ID, whatever the hash returns |
| PatchHeaders.ParsedPath | internal/agent/cursor_agent_cli_adapter.go:955-977 | for every input the path of a parsed file is the one behind "a/" or "b/" in the last "+++ " line that names a file; without one, the path in the "diff --git" line, the old side if the new one is /dev/null; and empty if that line has fewer than four words |
| PatchHeaders.ParsedStatus | internal/agent/cursor_agent_cli_adapter.go:788-802 | for every input the status is "added", "deleted" or "renamed" by the last header line that tells one, and "modified" if none does |
| PatchHeaders.MarkedPath | internal/agent/cursor_agent_cli_adapter.go:970-977 | the side marker is cut off once, quotes around it too |
| PatchHeaders.DiffLinePath | internal/agent/cursor_agent_cli_adapter.go:955-968 | the path in a "diff --git" line, for any path without white space |
| PatchHeaders.ParsedHunkId | internal/agent/cursor_agent_cli_adapter.go:979-982 | the ID of the i-th hunk counts from one and digests the final path, the header and the lines |
| PatchApply.RoundTrip | internal/agent/cursor_agent_cli_adapter.go:884-904 | print then parse returns the same files, paths, statuses, headers and hunks in order, one empty line more per file and IDs recomputed, if and only if no line ends in a carriage return |
| PatchApply.TrailingCRIsLost | internal/agent/cursor_agent_cli_adapter.go:733-875 | a concrete diff with one hunk that selected mode does not give back: the apply text parses to a line with one carriage return less |
| PatchApply.RenderUnifiedPatch | internal/agent/cursor_agent_cli_adapter.go:884-904 | the printing loops write the text whose round trip is characterised |
| PatchApply.SelectedApply | internal/agent/cursor_agent_cli_adapter.go:838-879 | selected mode fails exactly when no (path, hunk ID) pair matches; otherwise count and re-parsed text are exactly the wanted hunks in original order under their full headers |
| PatchApply.WholeApply | internal/agent/cursor_agent_cli_adapter.go:835-837 | by default the text is the raw diff and the count is the number of its hunks |
| PatchApply.ApplyErrors | internal/agent/cursor_agent_cli_adapter.go:838-881 | there is an error exactly for an unknown mode and for a selection without a match, and each cause has its own message |
| PatchApply.FilterKeeps | internal/agent/cursor_agent_cli_adapter.go:852-874 | filtering keeps exactly the wanted hunks as a sub-sequence, each with its path, status and headers |
| PatchApply.OnlyPairsMatter | internal/agent/cursor_agent_cli_adapter.go:842-850 | order and repetition of the selection entries do not matter |
| PatchApply.CollectSelection | internal/agent/cursor_agent_cli_adapter.go:842-850 | the nested table holds exactly the pairs the entries name |
| PatchApply.FilterPatch | internal/agent/cursor_agent_cli_adapter.go:852-874 | the filtering loop gives the filtered files and counts their hunks |
| PatchApply.CountIsLength | internal/agent/cursor_agent_cli_adapter.go:984-990 | the hunk count is the number of hunks listed over all files |
| PatchApply.BuildPatchForApply | internal/agent/cursor_agent_cli_adapter.go:834-882 | all modes and errors: the whole diff, the selection, a missing selection, no match, an unknown mode |
| AckTracking.AckConservation | internal/runtime/ack_tracker.go:161-316 | in every reachable state registrations = acked + expired + exhausted + forgotten + overwritten + pending; retry counts are within their limits; dispatches are at most maxRetries per registration |
| AckTracking.HighWaterMark | internal/runtime/ack_tracker.go:312-315 | maxPendingCount is the largest table size over the whole run |
| AckTracking.GeometricBackoff | internal/runtime/ack_tracker.go:246-250 | for any clock, an entry with k retries expires timeout·m^k after its last send, and that send is at least timeout·(1+m+…+m^(k-1)) after registration |
| AckTracking.ExhaustedNotEarly | internal/runtime/ack_tracker.go:239-244 | an entry is given up no earlier than the full geometric sum after its registration |
| AckTracking.ReachableIsSound | internal/runtime/ack_tracker.go:223-316 | every reachable state satisfies the counting and back-off invariants |
| AckTracking.DueRetriesPass | internal/runtime/ack_tracker.go:223-260 | one pass is a pointwise update: due entries are retried once or removed, the rest untouched, none due afterwards, and the measure falls by exactly the number that were due |
| AckTracking.RetryingEnds | internal/runtime/ack_tracker.go:223-260 | without new registrations, retries and exhaustions together are bounded by the measure of the table |
| AckTracking.AverageWithinMaximum | internal/runtime/ack_tracker.go:204-219 | the reported average round trip is at most the reported maximum |
| AckTracking.AverageIsFloor | internal/runtime/ack_tracker.go:204-207 | the reported average is the true one rounded down to whole milliseconds |
| AckTracking.Defaults | internal/runtime/ack_tracker.go:109-128 | values out of range become two seconds, two retries and doubling; the others are kept |
| AckTracking.RegisteredWaits | internal/runtime/ack_tracker.go:301-316 | a registered entry waits under its request ID with its deadline and a full budget, or none if it may not be retried; the others stay |
| AckTracking.ExpiresExactly | internal/runtime/ack_tracker.go:262-284 | an entry before its deadline or with a retry left never expires, every other one does, and is counted |
| AckTracking.ForgetsExactly | internal/runtime/ack_tracker.go:286-299 | exactly the entries of that session on that transport are forgotten, uncounted |
| AckTracking.AckCountsRoundTrip | internal/runtime/ack_tracker.go:318-335 | an ack counts the time since the last send, or zero if the clock went back |
| AckTracking.BatchesAreThePass | internal/runtime/ack_tracker.go:253-256 | a pass hands back every entry sent again as it now stands, with its envelope, and the spent ones as they were |
| AckTracking.AckTracker.constructor | internal/runtime/ack_tracker.go:109-128 | out-of-range settings fall back to the defaults; the tracker is empty |
| AckTracking.AckTracker.NextDelayLoop | internal/runtime/ack_tracker.go:337-346 | the multiplying loop computes timeout·m^k |
| AckTracking.AckTracker.RegisterEntry | internal/runtime/ack_tracker.go:301-316 | the entry is stored under its rid, overwriting silently, and the high-water mark is updated |
| AckTracking.AckTracker.AckEntry | internal/runtime/ack_tracker.go:161-173 | a known entry is removed and the time since its last send counted; an unknown one changes nothing |
| AckTracking.AckTracker.CollectDueRetries | internal/runtime/ack_tracker.go:223-260 | the walk, in whatever order, is the pointwise pass and reports exactly the retried and the exhausted entries |
| AckTracking.AckTracker.CollectExpired | internal/runtime/ack_tracker.go:262-284 | the walk removes and reports exactly the entries past their deadline that may not be retried |
| AckTracking.AckTracker.ForgetBySessionTransport | internal/runtime/ack_tracker.go:286-299 | exactly the entries of that session and transport disappear; an empty session ID forgets nothing |
| BridgeRpc.MultiplexerSafety | internal/agent/cursor_bridge_adapter.go:367-506 | under every interleaving no channel is sent on after close, closed twice or sent on when full; a response reaches only the call with its ID; a returned call is no longer pending; "bridge stopped" only after finish began |
| BridgeRpc.LeavesOnce | internal/agent/cursor_bridge_adapter.go:469-506 | once a call's channel has left the pending map it never comes back |
| BridgeRpc.Delivered | internal/agent/cursor_bridge_adapter.go:398-481 | once the reader has taken the response for a pending call, in every continuation a call that still waits can receive exactly that response, as soon as it is sent, and never a closed channel instead |
| BridgeRpc.EndsForAReason | internal/agent/cursor_bridge_adapter.go:384-420 | over every run a call fails only if its write failed or it timed out, stops only after finish began, and returns only a response that the reader took |
| BridgeRpc.WrittenIsAnswered | internal/agent/cursor_bridge_adapter.go:390-412 | from every reachable state a request that is written and answered returns the answer and leaves the reader free |
| BridgeRpc.NewCallSucceeds | internal/agent/cursor_bridge_adapter.go:367-412 | from every reachable state with the reader idle a new call can be made, entered, written and answered |
| BridgeRpc.ShutdownWakes | internal/agent/cursor_bridge_adapter.go:489-506 | shutdown closes the channel of every pending call, and a caller waiting on it returns "bridge stopped" |
| BridgeRpc.CallersCanLeave | internal/agent/cursor_bridge_adapter.go:393-419 | a failed write, a timeout and an announced shutdown end a call, each with its own result |
| BridgeRpc.RunInv | internal/agent/cursor_bridge_adapter.go:367-506 | the invariant tying map, channels, reader and shutdown is kept by every step |
| Relay.LossAccounting | internal/relay/session.go:78-151 | over every run of a registration the queue is bounded and holds the newest envelopes in order; expanding summaries and the counter gives one slot per terminal line, exact in position, if and only if the counter started at zero and no packet was queued that itself reads as a report of losses |
| Relay.InheritedCounter | internal/relay/session.go:29-39 | a peer that registers again after an unreported loss starts with an account that is one off |
| Relay.SentSummary | internal/relay/session.go:98-101 | a TERM_SUMMARY that a peer sends itself spoils the account |
| Relay.InterleavedAccount | internal/relay/session.go:86-151 | with the reader running between the sender's actions and control packets among the lines, the account of pairwise distinct lines is exact in position if and only if the reader never takes something between a summary that found the queue full and its line, and no queued packet reads as a report |
| Relay.InterleavedCounts | internal/relay/session.go:86-151 | under every interleaving no loss goes uncounted: the account has one slot per line, plus the marks of queued packets that read as reports |
| Relay.PositionCanSlip | internal/relay/session.go:124-128 | a concrete interleaving in which the position is not exact |
| Relay.AtomicStep | internal/relay/session.go:86-96 | undisturbed, the sender's actions are the atomic routing step |
| Relay.AtomicControl | internal/relay/session.go:98-101 | a control packet that does not have to wait is queued in one action |
| Relay.LineFate | internal/relay/session.go:86-129 | a line is lost only if the queue is full after the report of earlier losses was tried; the report carries their number and goes first |
| Relay.ControlFate | internal/relay/session.go:98-104 | a control packet is queued, as the newest entry, exactly if there is room or the reader makes some in time |
| RelaySession.Session.Register | internal/relay/session.go:29-39 | a new empty queue; the drop counter of the name is kept |
| RelaySession.Session.Unregister | internal/relay/session.go:41-50 | queue and counter of the peer are gone, the other registrations untouched |
| RelaySession.Session.TryEmitTermSummary | internal/relay/session.go:107-129 | a summary with the count is queued and the counter reset only if there are drops and there is room |
| RelaySession.Session.RouteToPeer | internal/relay/session.go:78-105 | one peer's registration takes the routing step of `LineFate` and `ControlFate` and keeps its accounting invariant, no other peer changes; a target that has left is no error |
| RelaySession.Session.Route | internal/relay/session.go:58-76 | it fails exactly if a control packet meets another peer's queue that is full and not drained in time; otherwise every other peer has taken its step, so each of their queues ends with the control packet, and the sender's own queue is untouched |
| RelaySession.ServedIsQueued | internal/relay/session.go:98-104 | a control packet that was served is the last one in the peer's queue |
| SignalingRooms.DirectionRules | internal/signaling/validation.go:10-79 | an envelope passes exactly when it names the room, its direction is allowed and its sdp or candidate is there |
| SignalingRooms.RunOk | internal/signaling/server.go:193-324 | in every reachable state each room has a connection, and a backlog exists only for an absent role and holds only valid envelopes of that room that the other role may send |
| SignalingRooms.BoundedIsTrimmed | internal/signaling/server.go:318-324 | the server is an unbounded one with each backlog cut to its newest 128 |
| SignalingRooms.AttachHandsBacklog | internal/signaling/server.go:193-324 | in every reachable state what waits for an absent role, and what attach hands over, is exactly the newest 128 of the messages accepted for it since it became absent, in order; a connected role or a missing room has nothing waiting |
| SignalingRooms.AbsenceStartsEmpty | internal/signaling/server.go:193-254 | whichever step makes a role absent, leaving or the other role opening the room, its backlog is empty then |
| SignalingRooms.BacklogIsAccepted | internal/signaling/server.go:289-324 | without the bound the backlog is everything accepted since the absence began |
| SignalingRooms.AckTellsTheTruth | internal/signaling/server.go:264-316 | a positive ack means that the message was written to the other side or is the newest one waiting for it; after a negative ack nothing is queued |
| SignalingRooms.StaleDetach | internal/signaling/server.go:244-249 | the late detach of a replaced connection changes nothing |
| SignalingRooms.AttachTakesSlot | internal/signaling/server.go:193-233 | after any run the newest connection holds the slot; the other side and the other rooms stay |
| SignalingRooms.OwnDetach | internal/signaling/server.go:235-254 | a connection that leaves gives up its slot; with nobody left the room and its backlog are gone |
| SignalingRooms.Server.AttachConn | internal/signaling/server.go:193-233 | the slot is taken, the backlog returned and emptied, the displaced connection named, both told when the room is complete |
| SignalingRooms.Server.DetachConn | internal/signaling/server.go:235-254 | only the connection's own slot is cleared; an empty room is deleted |
| SignalingRooms.Server.ForwardOrQueue | internal/signaling/server.go:289-316 | unknown room is an error; an absent other side gets the message queued; otherwise its connection is returned |
| SignalingRooms.Server.HandleEnvelope | internal/signaling/server.go:264-286 | one turn of the read loop: the rooms and the ack for a rejected, queued, written or unwritable envelope |
| ThreadStore.SnapshotLoadThreads | internal/agent/thread_store.go:225-265 | loading a snapshot restores threads, summaries and event order |
| ThreadStore.SnapshotLoadIndex | internal/agent/thread_store.go:245-258 | reload restores the whole store if and only if exactly the jobs named by some record are indexed, each to the last thread, by ID, that names it |
| ThreadStore.AssignmentAloneIsLost | internal/agent/thread_store.go:166-179 | a concrete store whose index a restart does not restore |
| ThreadStore.MovedJobReturns | internal/agent/thread_store.go:148-151 | a job that moved to a thread with a smaller ID is back in the old one after a restart |
| ThreadStore.SummaryIsReplay | internal/agent/thread_store.go:86-179 | through any mix of operations and reloads, state, last kind and last text of a thread are the left fold of its log from "draft" |
| ThreadStore.SummaryMeans | internal/agent/thread_store.go:145-161 | in every reachable store the state is the one set by the last prompt_submitted, patch_ready, patch_applied or run_finished event, with the status its data gives, or "draft"; the last text is the body, or the title for a blank body, cut to 160 |
| ThreadStore.AppendStores | internal/agent/thread_store.go:131-147 | an event is stored as given with what was missing filled in, and dates its thread |
| ThreadStore.EnsureLeavesAlone | internal/agent/thread_store.go:86-120 | opening a thread makes a draft or fills in a missing title or session, and leaves logs, states, jobs and other threads alone |
| ThreadStore.TitleIs | internal/agent/thread_store.go:334-354 | the title is the first line that is not blank, cut to 72 |
| ThreadStore.LiveStore.Ensure | internal/agent/thread_store.go:86-120 | creates the thread as a draft, or fills in a missing title or session; nothing else changes |
| ThreadStore.LiveStore.Append | internal/agent/thread_store.go:122-164 | the completed event is appended and the summary and index updated; an unknown thread is an error and changes nothing |
| ThreadStore.LiveStore.Assign | internal/agent/thread_store.go:166-179 | the job becomes current in its thread and is indexed; empty names change nothing |
| ThreadStore.LiveStore.Snapshot | internal/agent/thread_store.go:296-321 | every thread is listed exactly once, by ascending ID |
| ThreadStore.LiveStore.LoadFrom | internal/agent/thread_store.go:243-263 | the loading loops rebuild threads and index as specified |
| Orchestrator.OneAckFirst | internal/agent/orchestrator.go:41-363 | each branch of each handler builds its own replies, ack flag and error; on all of them there is exactly one CMD_ACK, placed first, echoing a non-empty request ID, accepted exactly when no error is returned, the replies draw consecutive numbers, and every reply passes envelope validation, so that building it cannot fail |
| Orchestrator.SequenceNumbersRise | internal/agent/orchestrator.go:365-367 | over every run the n-th reply a process emits carries the number n |
| Responses.PatchResultIsLogged | internal/agent/orchestrator.go:172-242 | on a PATCH_APPLY envelope for a known job the adapter's verdict is the error, the PATCH_RESULT and what the thread logs after the request; only a success makes the job "applied" |
| Responses.RunResultIsLogged | internal/agent/orchestrator.go:244-327 | on a RUN_PROFILE envelope the request is logged; the adapter's result is the RUN_RESULT, with the patch's files where it names none, and what the thread ends with, and completes the job; a fault is acked and returned |
| Responses.PromptIsAnswered | internal/agent/orchestrator.go:68-170 | on a PROMPT_SUBMIT envelope the PROMPT_ACK names thread and job, PATCH_READY carries the adapter's patch, the thread logs prompt, acceptance and patch, and the job is recorded; a fault of the adapter is acked and returned, and leaves no job |
| Responses.LocationIsOnlyAcked | internal/agent/orchestrator.go:329-345 | on an OPEN_LOCATION envelope there is an ack and no other effect |
| Responses.RefusedChangesNothing | internal/agent/orchestrator.go:41-80 | an envelope that is invalid, unsupported, undecodable or names nothing known has no effect but its negative ack, with the reason of its case |
| Orchestrator.PathsOfPatch | internal/agent/orchestrator.go:390-408 | exactly the non-empty paths of the files, none twice |
| Orchestrator.PathsInOrder | internal/agent/orchestrator.go:395-406 | paths come in the order of their first appearance |
| OrchestratorService.Service.Handle | internal/agent/orchestrator.go:41-58 | jobs, counter, store, replies and error after one envelope are those of the specified step |
| OrchestratorService.Service.PromptSubmit | internal/agent/orchestrator.go:68-170 | payload faults refused, then the thread opened and the prompt submitted |
| OrchestratorService.Service.Submit | internal/agent/orchestrator.go:81-169 | every success and failure branch after the thread is open, with the store updated between adapter calls |
| OrchestratorService.Service.AnswerPrompt | internal/agent/orchestrator.go:160-169 | ack, prompt ack and ready patch, each with the next number and its payload |
| OrchestratorService.Service.CollectPaths | internal/agent/orchestrator.go:390-408 | the loop with its set of paths seen computes the list of paths |
| OrchestratorService.Service.PatchApply | internal/agent/orchestrator.go:172-242 | request and result events around the adapter call, with the replies of the failing and of the succeeding branch |
| OrchestratorService.Service.RunProfile | internal/agent/orchestrator.go:244-258 | unknown job and profile refused, nothing logged |
| OrchestratorService.Service.Execute | internal/agent/orchestrator.go:260-326 | the run requested, its failures, and its result with the changed files |
| OrchestratorService.Service.OpenLocation | internal/agent/orchestrator.go:329-345 | an ack only; nothing is logged |
| OrchestratorService.Service.Refuse | internal/agent/orchestrator.go:347-363 | one negative ack with substitutes for a missing session or request ID |
| OrchestratorService.Service.Resume | internal/agent/orchestrator.go:25-39 | a new process over a loaded store knows no jobs and counts from the start |
| ThreadCausality.CausalLogs | internal/agent/orchestrator.go:68-327 | for any adapter and through restarts, every job the store names lives in one thread, its log there starts with prompt_accepted and patch_ready, apply results match requests one for one and each run result has its own earlier request, at every moment; a process that knows the job has it in that thread |
| ThreadCausality.PromptStartsJob | internal/agent/orchestrator.go:117-169 | a prompt the adapter answers with a patch makes a job in the named thread whose log is exactly the acceptance and the patch |
| ThreadCausality.RestartRestoresStore | internal/agent/thread_store.go:225-265 | after any run of the handlers and any restarts, loading a snapshot gives the live store back, index included |
| ThreadCausality.RunOk | internal/agent/orchestrator.go:117-158 | threads, jobs, index and logs agree in every reachable state, restarts included |
| ControlMetrics.ConsistentCube | internal/agent/control_metrics.go:78-195 | after any observations the cells add up to row, column and totals in every counter and in total latency, maxima agree, outcomes add up to requests, and average and last latency are reported within the maximum |
| ControlMetrics.SlotIsFold | internal/agent/control_metrics.go:78-96 | every accumulator is the fold of exactly the observations it is about, and exists exactly if there was one or it was there from the start |
| ControlMetrics.OutcomesCounted | internal/agent/control_metrics.go:126-142 | successes, timeouts and failures are the numbers of observations with each outcome, total latency the time they took, the maximum and the last latency theirs |
| ControlMetrics.PathLabels | internal/agent/control_metrics.go:197-206 | two paths are told apart, whatever their case and the space around them; all else is "unknown" |
| ControlMetrics.TypeLabels | internal/agent/control_metrics.go:208-214 | a message type is its own label; a blank one is "UNKNOWN" |
| ControlMetrics.AverageIsFloor | internal/agent/control_metrics.go:180-184 | the reported average is the true one rounded down to whole milliseconds |
| ControlMetrics.ReportedFigures | internal/agent/control_metrics.go:186-194 | counts as they are, latencies rounded down |
| ControlMetricsService.Accumulator.Observe | internal/agent/control_metrics.go:126-142 | one observation counted once by outcome, with sum, last and maximum |
| ControlMetricsService.Accumulator.Report | internal/agent/control_metrics.go:180-195 | the reported figures in whole milliseconds |
| ControlMetricsService.Metrics.Observe | internal/agent/control_metrics.go:78-96 | updating the four shared accumulators in place is one step of the cube; no other accumulator changes |
| ControlMetricsService.Metrics.PathAccumulator | internal/agent/control_metrics.go:144-152 | the accumulator of the path, made on first use, hanging in one place only |
| ControlMetricsService.Metrics.TypeAccumulator | internal/agent/control_metrics.go:154-162 | the same for a message type |
| ControlMetricsService.Metrics.TypePathAccumulator | internal/agent/control_metrics.go:164-178 | the same for a cell, with its row made on first use |
| ControlMetricsService.Metrics.TakeSnapshot | internal/agent/control_metrics.go:98-124 | every accumulator is reported under its place, and nothing else |
| StateManager.NoFallbackWithoutAttempt | internal/runtime/state_manager.go:105-147 | in every prefix of every history fallback entries ≤ scheduling entries (plus forged ones) ≤ attempts, each scheduling entry directly follows an attempt, neighbours differ, the last entry is the state |
| StateManager.ImmediateFallback | internal/runtime/state_manager.go:122 | without a delay nothing is scheduled and attempts bound the fallbacks |
| StateManager.ForgedFallback | internal/runtime/state_manager.go:77-87 | a caller's note can look like a fallback |
| StateManager.ClosedIsFinal | internal/runtime/state_manager.go:97-119 | timers leave a closed manager alone if and only if no delayed fallback is outstanding |
| StateManager.ClosedCanReopen | internal/runtime/state_manager.go:105-119 | a run in which a timed-out attempt is closed and the delayed fallback then enters the relay state |
| StateManager.CallersGetTheirState | internal/runtime/state_manager.go:53-103 | each operation leads to its state from whatever state, with an entry and its note exactly on a change, and leaves the timers as stated |
| StateManager.TimeoutFallsBack | internal/runtime/state_manager.go:105-123 | a timeout during an attempt schedules or makes the fallback; at any other time it does nothing |
| StateManager.FallbackFires | internal/runtime/state_manager.go:116-118 | a delayed fallback enters the relay state, whatever happened in the meantime |
| StateManager.StartsPairing | internal/runtime/state_manager.go:20-36 | a manager starts in the pairing state with nothing outstanding |
| StateManager.LiveManager.constructor | internal/runtime/state_manager.go:20-36 | a negative delay becomes zero; the history starts with the pairing state |
| StateManager.LiveManager.SetState | internal/runtime/state_manager.go:132-147 | an entry is written exactly when the state changes |
| StateManager.LiveManager.Attempt | internal/runtime/state_manager.go:57-67 | a new timer replaces the old one, which may still fire if its Stop came too late |
| StateManager.LiveManager.ConnectRelay | internal/runtime/state_manager.go:77-87 | the timer is stopped and the relay state entered with the note given, or the default one |
| StateManager.LiveManager.OnP2PTimeout | internal/runtime/state_manager.go:105-123 | a timeout matters only while connecting, and schedules or makes the fallback |
| StateManager.LiveManager.OnFallback | internal/runtime/state_manager.go:116-118 | an outstanding fallback fires once, in whatever state |
| PairingStore.AddedAgrees | internal/signaling/store.go:58-70 | adding a pairing keeps both maps in agreement if and only if its tokens are unused or lead to one record |
| PairingStore.EvictAgrees | internal/signaling/store.go:126-134 | eviction keeps agreement and leaves nothing expired |
| PairingStore.ClaimAgrees | internal/signaling/store.go:73-101 | a claim, successful or not, keeps agreement |
| PairingStore.RunAgrees | internal/signaling/store.go:35-134 | with fresh tokens both maps hold the same records under their own keys after every run |
| PairingStore.ClaimedOnce | internal/signaling/store.go:89-100 | for any tokens and clock a pairing is handed out at most once, and is marked claimed exactly then |
| PairingStore.ExpiredForGood | internal/signaling/store.go:83-114 | with a monotone clock a pairing seen expired is never claimed again and validates no key |
| PairingStore.WorksUntilExpired | internal/signaling/store.go:73-124 | with fresh tokens and a monotone clock a pairing works until it expires: its PC key validates, its code is claimable exactly if unclaimed, its mobile key validates once claimed |
| PairingStore.CreatedPairing | internal/signaling/store.go:35-71 | a new pairing is unclaimed, lives for the store's time from now and is found under both names |
| PairingStore.ClaimOutcomes | internal/signaling/store.go:73-101 | all the ways a claim can end, and what each leaves behind |
| PairingStore.ValidateOutcomes | internal/signaling/store.go:103-124 | which keys give which role |
| PairingService.Store.EvictExpired | internal/signaling/store.go:126-134 | the loop over the shared records, in any order, evicts as specified |
| PairingService.Store.CreatePairing | internal/signaling/store.go:35-71 | eviction first, then the new record under both keys, or the token error |
| PairingService.Store.ClaimPairing | internal/signaling/store.go:73-101 | marking the shared record shows under both keys; an expired pairing is dropped from both |
| PairingService.Store.ValidateSessionKey | internal/signaling/store.go:103-124 | the role of a key, or none for unknown sessions, expired pairings and other keys |

## Left out

- HTTP, websocket, WebRTC, LAN discovery and process plumbing, prompt building, Prometheus text, the TypeScript extension, the phone app and the scripts: input and output around the cores, or easy members only.
- JSON: payloads, event data and snapshots are datatypes. A payload that cannot be decoded is modelled; which bytes cannot be decoded is not.
- Integer width: counters and nanoseconds are unbounded, so overflow of int64 times is not modelled.
- ThreadStore.LiveStore.Ensure: clips titles at 72 characters, where the source clips at 72 bytes; text is a sequence of characters here, so a clip inside a multi-byte character, whose rest JSON would replace, is not modelled.
- ThreadStore.LiveStore.Append: clips event text at 160 characters instead of bytes, for the same reason.
- Letter case is changed for ASCII only, and only where codes and paths are compared.
- Order inside batches: the retry and expiry lists are given as maps by request ID, which covers every order; List's sorting by time is not modelled.
- The description of a changed file beyond its path is opaque text; toPatchReadyPayload, the summary extracted from the agent's output and the context an adapter attaches to a prompt are not modelled.
- Orchestrator.SequenceNumbersRise: handlers are taken one at a time; concurrent handlers would still draw distinct numbers, but not in order of emission.
- BridgeRpc.MultiplexerSafety: the mutex-protected actions are single steps of a transition system rather than methods of a class, because they interleave; response decoding after receipt is not modelled.
- Relay.InterleavedAccount: one sender per target; several senders to one target and sends racing with the close of a replaced channel are not modelled.
- RelaySession.Session.Register: closing the old channel, and late sends to it, are not modelled; an unbuffered queue (size 0) hands control packets over only through `drained`, which needs a queued envelope, so size 0 accepts none.
- SignalingRooms.Server.HandleEnvelope: the text of a failed write's error is not modelled, and the order of writes on the wire is not claimed.
- SignalingRooms.Server.AttachConn: rooms are values in the map instead of shared pointers, and the role is always one of the two.
- AckTracking.AckTracker.AckEntry: records are values in the table, as in the source; the per-transport counts of Metrics are not modelled.
- OrchestratorService.Service.RunProfile: job records are values in the map, so a handler that keeps a pointer to a job while another changes its state is not captured.
- ControlMetricsService.Metrics.TakeSnapshot: the empty snapshot of a nil receiver is not modelled.
- StateManager.LiveManager.Attempt: the length of the P2P timeout is not modelled; a timer may fire at any time after it is set.
