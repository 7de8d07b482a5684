# GPULink: streaming clients, host broker, migration and framed IPC

A Dafny model of the parts of GPULink where order, durability and ownership are decided, and proofs of what they promise.

| files | part of the system |
|---|---|
| `SdkSession`, `SdkRuntime`, `SdkFifo`, `SdkListeners`, `SdkRelease`, `SdkTheorems`, `SdkObjects` | the TypeScript streaming client: relay handshake, data plane, session |
| `SdkLife` | one session ID from request to release: openSession and the session together |
| `Acquisition` | opening a session without leaking it, in both clients |
| `Dotnet`, `DotnetSession`, `DotnetObjects` | the .NET client: fragments, early queue, receive, cancellation and close, also while they overlap |
| `BrokerJournal`, `BrokerRuntime`, `BrokerSafety`, `BrokerTheorems`, `BrokerObjects`, `BrokerLedger` | the host broker, its journals, the control plane it asks, crashes |
| `HostProcess` | observing a process through procfs while the process table changes |
| `Json`, `MigrationRows`, `Migration`, `MigrationApply` | the SQLite to PostgreSQL migration |
| `Glip` | GLIP v1 frames, the echo adapter, the broker's length-prefixed messages |
| `AsrRuntime`, `Percentile`, `Retention` | ASR sequencing, benchmark figures, release retention |
| `Common` | option, name and sequence helpers |

`dafny verify dfyconfig.toml` checks everything.

## How it is modelled

**Streaming client.** `SdkRuntime.Step` is a transition system over socket events, timers, microtasks and an application that may do anything wherever its code runs: subscribe, unsubscribe, throw, close, queue jobs, re-enter. Control is an explicit stack of activations, so re-entrancy has no bound. The scheduling assumption is section 8.1.7 of the WHATWG HTML standard: a task starts only on an empty stack, and the microtask checkpoint after the relay's ready frame hands the socket over before the next socket event. Other socket events and tasks may arrive while microtasks are queued. The promise jobs between the resolved handshake and the new session are one microtask each for the data plane and for the session. `FrameBeforeReplayKeepsOrderOnlyIfItCommutes` says what the assumption is worth: a frame accepted before the replay callback breaks the order unless it commutes with every frame the callback holds. Histories of received, dispatched and heard frames are recorded beside the state and never read by the client. The classes in `SdkObjects` hold the source's fields, and each method is tied to the transition it takes.

**Broker.** `BrokerRuntime.Step` has the durable tables, the volatile activity of the single-threaded server, requests on the wire and the holds of an honest control plane that may commit at any later moment, deny, or lose its reply. A crash may come between any two commits. A broker starts with or without the synthetic provenance probe: only with it does it look at the event table and spawn. A start without an authority configuration touches none of these tables and counts as down. The request handlers of `BrokerObjects.Broker` are methods over the tables whose effects are runs of `Step`. `NULL` identities never collide under `UNIQUE`.

**.NET client.** `DotnetSession.Step` interleaves receives, cancellations, closes and settling releases, one stretch of code between two suspending awaits per label. Assumptions on the socket, as `ClientWebSocket` behaves: a cancelled read aborts it, and of an aborted socket at most the read under way can still complete; that read may report the abort as a cancellation or as a WebSocket failure.

**procfs.** Changes happen between the reads of one observation. Within a boot, births in one PID slot strictly increase; boot ids do not repeat.

**Migration.** JSON values carry their keys in JavaScript's property order (section 10.1.11.1 of ECMA-262: array indices first) and strings are UTF-16 code units. SHA-256 of the canonical text is taken to be injective, so a fingerprint is the canonical form. `jsonb` may give a document back in any key order. What PostgreSQL and the network decide (a failing statement, collation orders, the fate of COMMIT) is the parameter `World`.

**Streams.** A pipe or socket read returns any non-empty part of what is left, chosen freely; `ByteStreams.Source.Read` leaves the choice open, so the contracts of its callers hold for every chunking.

## Where the code does not do what its comments or documentation say

- A release in the .NET client that fails before yielding leaves its failed task cached, against the comment "Explicit retry permitted": `DotnetRelease.ReleaseIsSingleFlight` gives the exact condition and `RetryIsLost` the failing family.
- A .NET receive cancelled while it reads leaves a session whose socket is gone, which is neither closing nor released. A receive that fails closes and releases exactly when it was not cancelled (`DotnetSession.ClosesExactlyForCause`); further cancelled receives never release it (`OnlyCloseOrFailureReleases`).
- The fixed child's own cgroup path, PID and birth are journaled without the bounds that the restart validator demands. The broker then never serves with the probe again, though it still starts and serves without it. `RestartSucceedsIffReadingsFit` is the exact condition; `LockOutIsReachable`, `OversizedReadingLocksOut` and `WithoutProbeItServes` show both sides.
- A failed cleanup of `openSession` is reported but never retried, unlike a failed close of a session: `SdkLife.ThrownIsFinal`.
- A literal JSON `null` in a column with a default, source identifiers that the target's collation sorts differently, and more events than a call may have arguments (every sequence is spread into `Math.max`) each stop a migration that loses nothing else; `Target.Apply` states exactly when it commits. `setval` is not undone by ROLLBACK, nor is the schema initialization, and a lost reply to COMMIT is reported as a failure although the data is there.
- A HELLO document, or an ASR line, nested deeper than the JSON parser recurses raises an exception that neither handler catches: exit code 1 instead of 2 (`Glip.OutputIsWellFormed`, `AsrRuntime.Run`).

## Model

| member | source | states |
|---|---|---|
| SdkTheorems.FramesStayInOrder | packages/gpulink-sdk/src/session.ts:50-134 | end-to-end FIFO: over every run, dispatched ++ rest of the draining batch ++ session buffer ++ rest of the replay ++ early queue is what came off the wire minus the ready control frame, and dispatched stays a prefix of it after closing |
| SdkTheorems.QuietSessionOwesNothing | packages/gpulink-sdk/src/session.ts:115-134 | no lost wake-up: an idle open session with a listener has dispatched every frame received |
| SdkTheorems.QueuesStayBounded | packages/gpulink-sdk/src/session.ts:56-67 | byte counters are exact sums; both queues stay within 4 MiB, the session's within 256 frames; with listeners and pending frames a flush is queued or draining |
| SdkTheorems.FramesAreTakenUnlessFull | packages/gpulink-sdk/src/session.ts:50-68 | a frame at an open session is always taken; it is dispatched at once exactly when nothing waits, and overflows exactly when it has to wait and the buffer is full by count or bytes |
| SdkTheorems.HandshakeRefusesExactly | packages/gpulink-sdk/src/data-plane.ts:213-236 | before readiness the socket is given up exactly for a premature, foreign, oversized or unbufferable frame, and pairs exactly on the ready frame |
| SdkTheorems.ListenersHearSlices | packages/gpulink-sdk/src/session.ts:79-85 | each subscribed listener has heard a contiguous slice of the wire from its subscription on, complete when idle, even if other listeners throw, come or go |
| SdkTheorems.PermanentListenerHearsPrefix | packages/gpulink-sdk/src/session.ts:106-134 | a listener subscribed before the first dispatch and never removed hears an exact prefix of the wire: no gap, duplicate or reorder |
| SdkTheorems.ClosedSessionIsSilent | packages/gpulink-sdk/src/session.ts:106-113 | once closing, no message listener is ever called again, whatever happens later |
| SdkTheorems.ClosesOnlyForCause | packages/gpulink-sdk/src/session.ts:42-66 | an open session starts to close only through the application, the socket's close, or a reported overflow |
| SdkTheorems.SocketClosureReleases | packages/gpulink-sdk/src/session.ts:40-47 | a closed socket means a closing session whose remote release was started or is queued |
| SdkTheorems.ReleaseIsSingleFlight | packages/gpulink-sdk/src/session.ts:159-175 | at most one release is requested, in flight or succeeded; starts are exactly in flight plus succeeded plus failed; a closing session has asked for one |
| SdkTheorems.ReleaseNeverRestarts | packages/gpulink-sdk/src/session.ts:164-174 | no release starts after one succeeded, over every continuation |
| SdkTheorems.CloseRetriesExactlyAfterFailure | packages/gpulink-sdk/src/session.ts:155-175 | a further close() asks for a new release exactly when none is under way and none has succeeded |
| SdkTheorems.ErrorsAreTheLastReports | packages/gpulink-sdk/src/session.ts:97-104 | the error list is the last sixteen reports of the whole run, in order |
| SdkTheorems.FrameBeforeReplayKeepsOrderOnlyIfItCommutes | packages/gpulink-sdk/src/data-plane.ts:80-87 | without the microtask checkpoint, order survives if and only if the overtaking frame commutes with the frames still to be replayed |
| SdkFifo.RunIsSafe | packages/gpulink-sdk/src/data-plane.ts:180-262 | the joint invariant of handshake stage, stack shape, buffers and order holds in every reachable state |
| SdkListeners.RunIsHeard | packages/gpulink-sdk/src/session.ts:106-113 | the joint invariant of listener snapshots, current delivery and heard slices holds in every reachable state |
| SdkRelease.RunAccounts | packages/gpulink-sdk/src/session.ts:159-175 | the cached promise is present exactly while one release is under way or has succeeded |
| SdkObjects.GPULinkSession.Receive | packages/gpulink-sdk/src/session.ts:50-68 | on the private fields: which of ignore, deliver, overflow, buffer happens, and the buffer and microtasks afterwards |
| SdkObjects.GPULinkSession.TakeBatch | packages/gpulink-sdk/src/session.ts:118-123 | the flush callback takes the whole buffer or, without listeners or when closing, nothing |
| SdkObjects.GPULinkSession.Close | packages/gpulink-sdk/src/session.ts:159-175 | buffers are dropped and one release is requested unless one is cached |
| SdkObjects.RelayHandshake.Message | packages/gpulink-sdk/src/data-plane.ts:213-236 | the handshake closure's variables follow the transition system on every frame |
| SdkObjects.GPULinkDataPlane.OnMessage | packages/gpulink-sdk/src/data-plane.ts:76-89 | the first listener takes all early frames, once, for a later microtask |
| SdkObjects.GPULinkDataPlane.Incoming | packages/gpulink-sdk/src/data-plane.ts:45-59 | a frame closes the socket, is dropped or is forwarded, as the live transition does |
| Acquisition.Client.OpenSession | packages/gpulink-sdk/src/index.ts:113-173 | over every status sequence, abort point, drop and failure: a session comes back exactly when every step went well, and then with no closeSession call; every other end after a valid ID has exactly one closeSession call and no open socket |
| Acquisition.Client.ConnectSession | packages/gpulink-sdk/src/index.ts:187-242 | a stream comes back open exactly under the stated script, otherwise no socket stays open; protocol versions 1 and 2, and no other |
| Acquisition.Client.AwaitActivation | packages/gpulink-sdk/src/index.ts:139-150 | polling ends well exactly if some poll reports connecting or active and every earlier one a waiting status without abort |
| Acquisition.Client.OpenSessionAsync | packages/gpulink-dotnet/GPULink.Client/GPULinkClient.cs:75-162 | the .NET counterpart: a session holding exactly the early queue and the rest of the wire, or one closeSession call and no open socket |
| SdkLife.OneOwnerReleases | packages/gpulink-sdk/src/index.ts:128-173 | over every run from request to release, openSession's cleanup and the session's close together have at most one closeSession in flight and at most one success, and only one of the two ever calls; a thrown openSession has called exactly once, a returned session starts with none |
| SdkLife.SuccessIsFinal | packages/gpulink-sdk/src/session.ts:159-175 | after the first success neither of them calls closeSession for that ID again |
| SdkLife.ThrownIsFinal | packages/gpulink-sdk/src/index.ts:161-170 | after openSession threw there is never another call, whether or not its one cleanup succeeded |
| DotnetFrames.FramesAreMessages | packages/gpulink-dotnet/GPULink.Client/GPULinkSession.cs:135-159 | a frame is read if and only if the wire starts with one whole message: one type, one end marker, at most 1 MiB, text strict UTF-8; its payload is the concatenation |
| DotnetFrames.MessagesAreBounded | packages/gpulink-dotnet/GPULink.Client/GPULinkSession.cs:148-156 | every message on any wire is within 1 MiB and valid text if it is text |
| DotnetFrames.ConnectsExactly | packages/gpulink-dotnet/GPULink.Client/GPULinkClient.cs:141-154 | a connection is made if and only if READY follows at most 256 messages of at most 4 MiB together; those are the early queue and the rest stays on the wire |
| DotnetFrames.ReceivesRefineTheWire | packages/gpulink-dotnet/GPULink.Client/GPULinkSession.cs:62-100 | for every sequence of receives, cancelled before or while reading or not at all, and closes: the messages returned are the wire's messages minus the first READY, in order, exactly as many as the calls can fetch up to the next READY, failure, cancelled read or close |
| DotnetFrames.ReturnedInOrder | packages/gpulink-dotnet/GPULink.Client/GPULinkSession.cs:62-100 | the same from any open session state |
| DotnetSession.OverlappingCallsKeepOrder | packages/gpulink-dotnet/GPULink.Client/GPULinkSession.cs:62-111 | however receives, cancellations, closes, failures and releases overlap, what is returned is a prefix of the wire's messages minus the first READY, up to the next READY, and the rest is still to come while the socket is not aborted |
| DotnetSession.PendingReceiveReturns | packages/gpulink-dotnet/GPULink.Client/GPULinkSession.cs:135-159 | a waiting receive whose message's fragments arrive returns that message and leaves the rest of the wire |
| DotnetSession.ClosesExactlyForCause | packages/gpulink-dotnet/GPULink.Client/GPULinkSession.cs:64-124 | in every overlapping run a session closes and starts its release if and only if close was called or a receive failed in another way than by cancellation; at most one release is in flight and at most one succeeds |
| DotnetSession.CancelledReadDoesNotRelease | packages/gpulink-dotnet/GPULink.Client/GPULinkSession.cs:66-99 | a cancelled read leaves an open session aborted, neither closing nor released |
| DotnetSession.OnlyCloseOrFailureReleases | packages/gpulink-dotnet/GPULink.Client/GPULinkSession.cs:79-98 | from there no sequence of calls without a close or an uncancelled failure releases it or returns anything |
| DotnetSession.CloseStopsReceives | packages/gpulink-dotnet/GPULink.Client/GPULinkSession.cs:68-71 | after closing at most one more message is returned in any continuation, and only by a receive that was waiting then |
| DotnetRelease.ReleaseIsSingleFlight | packages/gpulink-dotnet/GPULink.Client/GPULinkSession.cs:103-124 | over every run at most one release is in flight and at most one succeeds; a close starts one if and only if none is in flight, none succeeded and none failed before yielding |
| DotnetRelease.YieldingReleasesRetry | packages/gpulink-dotnet/GPULink.Client/GPULinkSession.cs:113-124 | when every release yields first, close after a failure starts a new release |
| DotnetRelease.RetryIsLost | packages/gpulink-dotnet/GPULink.Client/GPULinkSession.cs:109-122 | after one release that failed at once, no sequence of later calls ever starts another |
| DotnetObjects.Socket.ReadFrame | packages/gpulink-dotnet/GPULink.Client/GPULinkSession.cs:135-159 | the fragment loop computes the assembly function and leaves the rest of the wire |
| DotnetObjects.Socket.AwaitReady | packages/gpulink-dotnet/GPULink.Client/GPULinkClient.cs:141-161 | the early loop returns the queue that the connection function names, or aborts the socket |
| DotnetObjects.GPULinkSession.ReceiveMessage | packages/gpulink-dotnet/GPULink.Client/GPULinkSession.cs:62-100 | one receive that nothing overlaps: early queue first, then the wire; READY and every failure but a cancellation close and enter the release machine |
| DotnetObjects.GPULinkSession.BeginReceive | packages/gpulink-dotnet/GPULink.Client/GPULinkSession.cs:62-78 | up to its wait the receive does to the fields what the overlapping machine does: refused when cancelled, locked or closing, served from the early queue, or waiting |
| DotnetObjects.GPULinkSession.Arrive | packages/gpulink-dotnet/GPULink.Client/GPULinkSession.cs:140-158 | one fragment continues, completes or fails the pending read as the machine does |
| DotnetObjects.GPULinkSession.CancelRead | packages/gpulink-dotnet/GPULink.Client/GPULinkSession.cs:79-99 | a cancellation frees the receive lock and does nothing else to the session |
| DotnetObjects.GPULinkSession.Close | packages/gpulink-dotnet/GPULink.Client/GPULinkSession.cs:103-124 | closes, aborts, and assigns the returned task after the release ran as far as it goes, also while a receive is waiting |
| BrokerTheorems.EpochsAgree | src/broker/broker_authority_bridge.py:111-148 | in every reachable state a local epoch is the one the control plane granted, and every hold made through this broker has a durable row with its subject and lease |
| BrokerTheorems.JournalIsMonotone | src/broker/broker_authority_bridge.py:101-145 | over every continuation with crashes: no row disappears, claims only move pending, reserved, quarantined, the epoch is written once, bindings and events never change |
| BrokerTheorems.RequestsAreSingleUse | src/broker/broker_authority_bridge.py:117-131 | at most one reservation request per attempt is ever sent, across restarts, only for a journaled one, and reserving a journaled attempt changes nothing |
| BrokerTheorems.SpawnsAtMostOnce | src/broker/synthetic_provenance_d2c.py:88-141 | per attempt the event log is a prefix of intent, observed; at most one process over all restarts, and only behind a durable intent with the same lease, worker and epoch |
| BrokerTheorems.IntentsAvoidBindings | src/broker/synthetic_provenance_d2c.py:93-117 | whatever the step, a new intent is for a live reservation without a host binding and without events |
| BrokerTheorems.IntentsExactly | src/broker/synthetic_provenance_d2c.py:88-117 | a spawn request makes an intent durable if and only if the probe is on, the caller may, the claim is reserved, nothing is bound or recorded yet and the control plane confirms the hold |
| BrokerTheorems.BindingsFollowWitnesses | src/broker/host_binding_journal.py:78-121 | a binding appears if and only if a capture found its claim, a witness agreeing with it, a confirmed hold, a present process and a free identity; it is then that witness |
| BrokerTheorems.RestartEndsLaunches | src/broker/broker_authority_bridge.py:101-109 | an attempt journaled before a restart gets no further intent, process or record in any continuation |
| BrokerTheorems.JournalsValidateIffReadingsFit | src/broker/synthetic_provenance_d2c.py:46-75 | every reachable journal passes start-up validation without the probe, and with it if and only if the recorded child readings are within bounds |
| BrokerTheorems.RestartSucceedsIffReadingsFit | src/broker/broker_server.py:163-173 | a broker that is down restarts on a valid configuration if and only if the probe is off or those readings fit |
| BrokerTheorems.WithoutProbeItServes | src/broker/broker_server.py:172 | whatever the journal holds, restarted without the probe it takes new reservations |
| BrokerTheorems.OversizedReadingLocksOut | src/broker/synthetic_provenance_d2c.py:71-75 | with one reading out of bounds a broker that is down never serves with the probe again, and no continuation adds a process or an event |
| BrokerTheorems.LockOutIsReachable | src/broker/synthetic_provenance_d2c.py:118-138 | from any valid reservation an over-long cgroup path of the child leads there |
| BrokerTheorems.EveryAttemptCanBeLaunched | src/broker/synthetic_provenance_d2c.py:88-124 | for every valid request there is a run that reserves it, commits the intent and forks |
| BrokerTheorems.RowsQuoteTheirClaims | src/broker/host_binding_journal.py:14-26 | binding and event rows agree with their claim's lease, worker and epoch forever, and boot, PID and birth are injective within each table |
| BrokerSafety.RunIsSound | src/broker/broker_authority_bridge.py:97-148 | the joint invariant of claims, network, holds, activity and events holds in every reachable state |
| BrokerObjects.LoadWitnesses | src/broker/host_process_observer.py:19-38 | the witness file is accepted exactly if it has at most 64 valid entries with distinct attempts, and then gives back each of them and nothing else |
| BrokerObjects.Broker.BindingsValidate | src/broker/host_binding_journal.py:46-50 | the start-up loop accepts exactly the coherent binding tables |
| BrokerObjects.Broker.RowsValidate | src/broker/synthetic_provenance_d2c.py:46-49 | the first loop accepts exactly if every row is well-formed, and collects exactly the attempts |
| BrokerObjects.Broker.EventsValidate | src/broker/synthetic_provenance_d2c.py:44-57 | both loops together accept exactly the coherent event tables |
| BrokerObjects.Broker.Start | src/broker/broker_server.py:163-173 | quarantines every open claim and serves exactly if the binding validator accepts and, with the probe, the event validator too |
| BrokerObjects.Broker.Reserve | src/broker/broker_authority_bridge.py:111-148 | grants exactly for an authorized new attempt with an acceptable answer; its effect is a run of the protocol whatever happens to the exchange |
| BrokerObjects.Broker.Observe | src/broker/broker_authority_bridge.py:150-178 | answers exactly for known attempts of this worker whose acknowledged epoch the answer repeats |
| BrokerObjects.Broker.CaptureHost | src/broker/host_binding_journal.py:78-121 | its effect on the tables is the protocol's capture step; denials change nothing |
| BrokerObjects.Broker.SpawnProbe | src/broker/synthetic_provenance_d2c.py:88-141 | its effect is a run of spawn, fork and recording; an uncertain reply means intent durable and birth not |
| BrokerLedger.ClaimsAreSingleUse | src/broker/broker_state.py:187-204 | over every history with restarts, no attempt and no reservation is accepted twice |
| BrokerLedger.FinalStatesAreFinal | src/broker/broker_state.py:215-231 | rows keep everything but their state, and cancelled and quarantined are terminal |
| BrokerLedger.Ledger.Claim | src/broker/broker_state.py:187-204 | accepts exactly well-formed intents that the fixture vouches for, of new attempts with unused reservations; a replay is exactly a vouched intent whose attempt or reservation is taken; denials change nothing |
| BrokerLedger.SessionsHaveOneLease | src/broker/broker_state.py:152-185 | while leases and reservations of the fixture stay the same, attempts of one session agree on lease, generation and worker over every history with restarts, and every row sits on the reservation that names it |
| BrokerLedger.OnlyIsUnique | src/broker/broker_state.py:153-157 | the record the authority check uses is the only one that matches |
| BrokerLedger.Ledger.Cancel | src/broker/broker_state.py:215-231 | cancels only the caller's reserved row and reports the final state |
| HostProcess.PresentHappened | src/broker/host_process_observer.py:68-90 | a present verdict names an instant of the call when that boot, PID and birth was alive in the witnessed cgroup; its slot is in that cgroup again at the later read |
| HostProcess.AbsentHappened | src/broker/host_process_observer.py:74-81 | an absent verdict names an instant of the call, in the witness's boot, without that process |
| HostProcess.QuietObservationDecides | src/broker/host_process_observer.py:68-90 | while nothing changes and no read fails, present and absent are exactly the truth |
| HostProcess.CapturedProcessNeverReturns | src/broker/host_binding_journal.py:98-143 | after a successful capture, an absent observation is never followed by present |
| HostProcess.AbsentThenPresentMeansBornBetween | src/broker/host_process_observer.py:79-81 | without a capture, absent before present means the process was born after the first look |
| HostProcess.UncapturedProcessMayAppear | src/broker/host_process_observer.py:74-78 | that case exists for every witness |
| Json.CanonicalFormDecidesEquivalence | scripts/migrate-sqlite-to-postgres.mjs:1261-1289 | equal canonical forms if and only if equal up to object key order at every depth, array order kept |
| Json.CanonicalizeIsIdempotent | scripts/migrate-sqlite-to-postgres.mjs:1261-1289 | canonicalizing twice changes nothing more |
| Json.CanonicalMeansFixed | scripts/migrate-sqlite-to-postgres.mjs:1261-1289 | the fixed points are exactly the recursively ordered values |
| Json.CanonicalizeIsCanonical | scripts/migrate-sqlite-to-postgres.mjs:1270-1286 | the result is ordered and equivalent to the argument |
| MigrationRows.SqliteRoundTrip | scripts/migrate-sqlite-to-postgres.mjs:443-620 | reading a stored value gives it back; an absent document gives its default |
| MigrationRows.CellRoundTrip | scripts/migrate-sqlite-to-postgres.mjs:793-932 | a cell written to and read from PostgreSQL keeps its value if and only if it is not a null that a default replaces |
| MigrationRows.RowEquivIsPointwise | scripts/migrate-sqlite-to-postgres.mjs:443-609 | row objects are equal up to key order exactly when they agree column by column |
| MigrationRows.RowRoundTrip | scripts/migrate-sqlite-to-postgres.mjs:934-1134 | the same for whole rows |
| Migration.CountByStatus | scripts/migrate-sqlite-to-postgres.mjs:1212-1239 | the map counts each status as often as it occurs |
| Migration.Verify | scripts/migrate-sqlite-to-postgres.mjs:1291-1317 | passes exactly on equal summaries and otherwise names a part that differs |
| Migration.FingerprintsDecide | scripts/migrate-sqlite-to-postgres.mjs:1241-1259 | fingerprints agree exactly when the tables agree row by row up to key order |
| Migration.SummariesDecide | scripts/migrate-sqlite-to-postgres.mjs:1160-1210 | verification accepts exactly equal data; fingerprints subsume counts, statuses and last sequence |
| MigrationApply.TableSurvives | scripts/migrate-sqlite-to-postgres.mjs:753-932 | a table reads back as it was if and only if the target sorts it as the source did and no null gives way to a default |
| MigrationApply.ReadBackIsSame | scripts/migrate-sqlite-to-postgres.mjs:170-278 | the same for the three tables together |
| MigrationApply.PassesMeans | scripts/migrate-sqlite-to-postgres.mjs:1136-1158 | the checks the tool makes succeed exactly under the condition stated on the data and the target |
| MigrationApply.NewSequencesAreAhead | scripts/migrate-sqlite-to-postgres.mjs:1136-1158 | after a successful import new events get sequences above every imported one |
| MigrationApply.LiteralNullsFailClosed | scripts/migrate-sqlite-to-postgres.mjs:611-620 | the rows that stop a migration are exactly those with the text of a JSON null in a column with a default |
| MigrationApply.Target.Apply | scripts/migrate-sqlite-to-postgres.mjs:123-278 | all or nothing: refused exactly for a partial schema or a target with rows, committed exactly under the stated condition, and in every other end the rows are untouched unless only the reply to COMMIT was lost; where schema and identity sequence stand in each case |
| MigrationApply.Target.Inspect | scripts/migrate-sqlite-to-postgres.mjs:641-736 | ready exactly for a whole or missing schema without rows; counting fails exactly on more events than a call may spread |
| MigrationApply.Target.Insert | scripts/migrate-sqlite-to-postgres.mjs:206-225 | the three loops insert the image of every row, or stop at the failing statement |
| ByteStreams.UnpackPack | examples/external-adapter/echo-subprocess.py:31-40 | big-endian lengths survive packing and unpacking |
| ByteStreams.PackUnpack | examples/external-adapter/echo-subprocess.py:31-40 | and unpacking and packing |
| ByteStreams.Source.ExactRead | examples/external-adapter/echo-subprocess.py:12-20 | for every chunking: exactly the next bytes, or the end of input |
| ByteStreams.Source.RecvExact | src/broker/broker_server.py:28-35 | for every chunking: exactly the next bytes, or a truncated message |
| Glip.EncodedFrameParses | examples/external-adapter/echo-subprocess.py:23-41 | an encoded frame followed by anything parses to that frame and that rest |
| Glip.ParsedFrameWasEncoded | examples/external-adapter/echo-subprocess.py:23-34 | whatever parses was the encoding of a frame |
| Glip.DecodeEncode | examples/external-adapter/echo-subprocess.py:23-41 | decoding the encoding of any frame sequence gives the frames |
| Glip.EncodeDecode | examples/external-adapter/echo-subprocess.py:23-41 | and encoding a decoded stream gives the stream |
| Glip.AdapterAcceptsExactly | examples/external-adapter/echo-subprocess.py:44-79 | exit 0 if and only if the input is a valid HELLO, binary or UTF-8 text frames, an empty END or CANCEL, and anything; the output is then READY, the same frames, and END after END |
| Glip.OutputIsWellFormed | examples/external-adapter/echo-subprocess.py:37-87 | on every input the output is whole frames: none, or READY and then data frames read from the input, in order, and at most one more; exit code 1 exactly for a HELLO document nested too deep |
| Glip.ReadFrame | examples/external-adapter/echo-subprocess.py:23-34 | for every chunking the reader computes the parse of the remaining input |
| Glip.EchoAdapter.Run | examples/external-adapter/echo-subprocess.py:44-87 | for every chunking exit code and output are those of the transducer |
| BrokerMessages.ReceiveMessage | src/broker/broker_server.py:38-45 | for every chunking the receiver computes the parse of the remaining bytes |
| BrokerMessages.SentMessageIsReceived | src/broker/broker_server.py:38-52 | a sent payload is received whole and alone if and only if it has at least two bytes and is UTF-8 |
| BrokerMessages.ReceivedMessageWasFramed | src/broker/broker_server.py:38-45 | a message is accepted if and only if the input starts with a length prefix and that many bytes, 2 to 16384, UTF-8 |
| AsrRuntime.Run | scripts/asr/synthetic_runtime.py:70-121 | ACKs 0..k-1 with prefix sums over the longest valid prefix; bytes consumed are twice the offset; completion last and only for k > 0 and lastSequence k-1, and exit 0 exactly then; exit 1 exactly at the end of input or a line nested too deep |
| AsrRuntime.LongestIsUnique | scripts/asr/synthetic_runtime.py:78-97 | that prefix is determined by the input |
| AsrRuntime.AcksAdvance | scripts/asr/synthetic_runtime.py:80-103 | acknowledged positions strictly increase and never pass the session bound |
| Percentile.Summarize | src/worker/runners/gpu-benchmark.py:97-106 | indices in range, min <= median <= P95 <= max, P95 between its neighbours |
| Percentile.OrderDoesNotMatter | src/worker/runners/gpu-benchmark.py:98 | the figures depend on the multiset of timings alone |
| Retention.Retain | scripts/prune-control-plane-releases.sh:53-108 | installed and deployed kept; size is max(protected, min(retention, protected + unprotected)); everything dropped is older than everything kept for its age |
| Retention.Prune | scripts/prune-control-plane-releases.sh:110-145 | image, directory and archive removals are carried out in the plan's order up to the first that fails, and the script passes exactly if all were |
| Retention.PlanIsRight | scripts/prune-control-plane-releases.sh:110-145 | the plan spares every kept tag, takes directory and archive of every other one and the image docker has, each once |
| Retention.ImagesGoFirst | scripts/prune-control-plane-releases.sh:132-144 | wherever the script stops, a directory is gone only after its image and an archive only after its directory |

## Left out

- The control plane's scheduler and persistence are not part of this model; an abstract authority grants epochs, denies, or has its reply lost.
- HTTP, TLS, WebSocket, Unix-socket, SQLite and PostgreSQL engines: only their events, transactions, keys and UNIQUE constraints.
- Wall-clock time: deadlines, timers and aborts are free events; timestamp columns of the broker's tables are dropped, and with them their positivity checks.
- Step: protocol version 1 of the handshake, which has no early frames, is not a label of the streaming client; its polling loop is in `Acquisition.Client.ConnectSession`.
- Step: the values with which promises of close() settle, and the contents of close events, are not modelled; listeners are told apart by number.
- ResumeClient: which error and close listeners run, and in which order, is modelled as transitions, but only their effect on the session and on message delivery is stated.
- Sending (`sendBinary`, `sendText`, back-pressure, the .NET send semaphore): single guarded calls.
- Canonicalize: numbers are integers; negative zero, fractions and their printing are not modelled, and JSON.stringify is taken to be injective on canonical values.
- FromSqlite: Number() of a text cell counts as a value no column accepts, and BLOB and REAL cells are not modelled; the schema keeps both out.
- CountByStatus: the order of the keys (localeCompare) is not modelled; equality of the counts does not depend on it after canonicalization.
- Reseeded: the upper end of the identity sequence (2^63 - 1) is not modelled; source sequences are safe integers.
- Apply: a connection or query that fails before BEGIN, which leaves everything as it was; a client that writes between the first inspection and the table locks; the second inspection refuses its rows as the first would have.
- The migration's dry run, argument parsing, source path and WAL checks: guards without state.
- HostProcess.Inspect: parsing of /proc/PID/stat and /proc/PID/cgroup is the result of a read; malformed text is a failing read.
- Claim: documents of the wrong shape or types, the validation of the fixture file and the version pattern itself; a principal counts if it is the only one with its uid.
- Credential, configuration, file-permission and lock checks of the broker: conjunctions over one record; elsewhere in the broker a caller is authorized or not.
- The read-only replies of the host and provenance observers, and the request dispatch by operation name: projections of rows already proved coherent.
- JSON lexing, regular expressions other than identifiers and boot ids, UTF-8 and base64 decoding: predicates or values given from outside.
- IsId: ASCII letters and digits, as the identifier pattern spells them.
- Percentile: real arithmetic, without rounding to six digits; the TFLOPS figure is left out.
- AsrRuntime.Run: the start message, the ready line and the fault modes other than normal.
- EchoAdapter.Run: output that cannot be written (a closed pipe) is not modelled.
- Prune: a failing docker inspect counts as no image.
- The dashboard, configuration loaders, package verifier, CLI packaging and other shell scripts.
