# A verified model of netft-cpp

netft-cpp is a client for force/torque sensors: it reads the sensor's configuration page, opens a UDP stream, turns
records into samples for a callback, and recovers from failures. This project models that client and proves what it
promises, in four parts that share one set of types.

**The lifecycle and recovery protocol** (`Protocol*.dfy`). Any number of caller threads run `start`, `stop`, `bias`,
`wait_for_first_sample`, `health` and the destructor against one worker. Every place in the code is a `Point`; taking a
mutex is one step and the section behind it is another, so everything between two steps is open to every other thread.
The fields behind the mutexes, the latch, the atomics, the thread handle and the wire are one `State`; the environment
decides discovery, sockets, clocks, exceptions and callbacks. `ProtocolRuns` states what holds in every reachable state
of every interleaving; `ProtocolCalls`, `ProtocolMeaning` and `ProtocolDecisions` state what the calls achieve, what a
record becomes and why a worker ends; the other files prove the invariants layer by layer: locks, workers, deadlock,
wire, stop, records, roll-back, data, storage.

**The record path** (`Pipeline*.dfy`, `ClientRecords.dfy`, `ReceiveLoop.dfy`, `Recovery.dfy`, `RateWindow.dfy`).
`Pipeline` is the state behind the record and data mutexes with one function for each locked section, and a history that
records what happened and decides nothing. The protocol runs these functions as its atomic steps; `ClientRecords` runs
them in place, field by field, in classes whose methods are proved to perform exactly these functions. `ReceiveLoop` and
`Recovery` are the two loops of the worker, played against a script of what the environment does.

**The sequence trackers** (`Sequence.dfy`): 32-bit counters compared across wrap-around, refined from unbounded numbers
and, for the FT counter, from the history of observations.

**The page scanner** (`Xml*.dfy`): the loop over the configuration page is proved equal to a scan of its text;
acceptance is characterised by document trees; each value comes from the element of its name; printing a document and
scanning it gives its values back; and comments change nothing. `UdpTransport.dfy` and `DeferredDestroyer.dfy` model the transport's flags and descriptors and the queue
behind a client that is destroyed from its own callback.

Places where the code behaves in a way its text does not show at first sight, all kept in the model:

- the run of malformed packets is cleared by a valid record or by `start`, not by a new session;
- the FT tracker keeps its baseline over `start` and over sessions; a session only drops the restart candidate;
- a successful `connect` clears the shutdown request, so `stop` relies on the check of `stopping_` under the command mutex;
- a rolled-back `start` puts the old generation number back;
- during that roll-back the stored health may say Faulted while the latch is empty;
- a receive of length zero ends the session like a timeout;
- the scanner's second check for a malformed name can never fire (`XmlScanner.MalformedMarkupExactly`);
- outside half of the counter range the wrapped RDT comparison agrees with the true one only about old numbers whose
  image happens to look old as well (`Sequence.ComparesRightExactly`).

`dafny verify dfyconfig.toml` checks the project.

## Model

| member | source | states |
|---|---|---|
| ProtocolLocks.LockOrder | src/detail/client_impl.hpp:79-83 | every mutex is taken in the order lifecycle, command, record, data, transport: whatever is held at a point comes before what is taken there |
| ProtocolLocks.PausesHoldNothing | src/detail/client_impl.cpp:120-128 | a thread that waits for a join, for joining_ or for the worker's exit, and a worker in its callback, holds no mutex |
| ProtocolLocks.MutualExclusion | src/detail/client_impl.hpp:77-83 | no two threads hold the same mutex |
| ProtocolLocks.StepKeepsLocks | src/detail/client_impl.cpp:111-303 | the mutex table records exactly what the threads' places hold, after every step |
| ProtocolWorkers.SelfCheckIsRight | src/detail/client_impl.cpp:116-117 | under the lifecycle mutex the self-check is true exactly for the worker's own thread |
| ProtocolWorkers.StepKeepsWorkers | src/detail/client_impl.cpp:111-289 | every step keeps the ownership of the worker: one worker, one joiner, exit flag and identity in agreement with it |
| ProtocolRuns.ReachableIsOk | src/detail/client_impl.cpp:111-736 | every state that any interleaving reaches satisfies all invariants at once |
| ProtocolRuns.OneWorkerOneOwner | src/detail/client_impl.cpp:115-132 | at most one unjoined worker, held by the handle or by the only caller that set joining_; that caller is another thread |
| ProtocolRuns.WritesNeedNoWorker | src/detail/client_impl.cpp:134-182 | the callback, the generation and a cleared stop flag are written only while no worker exists |
| ProtocolRuns.CallbackNeverWaitsForJoin | src/detail/client_impl.cpp:256-259 | a call from inside the callback never waits for joining_, for an exit or for a join |
| ProtocolDeadlock.WaitsGoDown | src/detail/client_impl.hpp:79-83 | every wait, for a mutex, a join or a predicate, is for a thread of lower rank that is not finished |
| ProtocolDeadlock.NoDeadlock | src/detail/client_impl.cpp:115-129 | no chain of waits leads back to its beginning |
| ProtocolDeadlock.SomeoneCanMove | src/detail/client_impl.cpp:239-275 | while a thread is unfinished, some thread is unblocked and has an enabled step |
| ProtocolRuns.NeverDeadlocked | src/detail/client_impl.cpp:111-303 | in every reachable state no thread waits, directly or through others, for itself |
| ProtocolRuns.AlwaysSomeoneCanMove | src/detail/client_impl.cpp:111-303 | in every reachable state with an unfinished thread some thread waits for nobody and has an enabled step |
| ProtocolStop.StopQuiets | src/detail/client_impl.cpp:243-254 | when stop leaves its command section no session is open and no worker is past the check that would open one |
| ProtocolStop.QuietStaysQuiet | src/detail/client_impl.cpp:450-457 | from then on every step but a new start leaves the wire alone, also if connect cleared the shutdown request |
| ProtocolStop.StopIsNeverLost | src/detail/client_impl.cpp:235-254 | over every run without a new start the wire stays as the stop left it |
| ProtocolStop.WorkerWindsDown | src/detail/client_impl.cpp:382-524 | with stopping_ set every step of the worker strictly decreases the steps it has left |
| ProtocolStop.StoppedWorkerFinishes | src/detail/client_impl.cpp:723-736 | a stopped worker that has used up its steps is done |
| ProtocolRuns.StopHolds | src/detail/client_impl.cpp:235-254 | both results from every reachable state in which a stop leaves its command section |
| ProtocolWire.StepKeepsSessions | src/detail/client_impl.cpp:243-303 | every step keeps the wire readable as closed sessions and at most one open one, in agreement with the session flag |
| ProtocolWire.WireIsBracketed | src/detail/client_impl.cpp:450-457 | the wire is a prefix of a word of (Start (Bias Start?)* Stop)*, and a word while no session is open |
| ProtocolWire.WireIsCompleteAfterExit | src/detail/client_impl.cpp:710-727 | it is a word once a worker has exited, whoever closed the sessions |
| ProtocolRuns.WireIsAlwaysBracketed | src/detail/client_impl.cpp:243-254 | both in every reachable state |
| ProtocolRuns.FirstFaultStays | src/detail/fault_latch.cpp:7-23 | a latched fault, its code, its message and the Faulted state stay as first published until a start resets them |
| ProtocolRuns.HealthIsTrue | src/detail/client_impl.cpp:331-347 | health() returns the stored snapshot, with Faulted and the first published fault if one is latched, the receipts and deliveries of the last second, and the time since the last record of the run, if any |
| ProtocolRuns.WaitMeansDelivered | src/detail/client_impl.cpp:305-325 | a true result means that the run current at the return has delivered and that the latest sample is its delivery; when it is true is stated by ProtocolCalls.WaitIsTrueExactly |
| ProtocolCalls.WaitIsTrueExactly | src/detail/client_impl.cpp:305-325 | over every run: a call that waited returns true exactly when the run it found at its entry is still the current one at its return and has delivered a sample |
| ProtocolCalls.WaiterReturns | src/detail/client_impl.cpp:312-325 | a waiter returns at its next step exactly if its run delivered, was superseded, is being stopped, has faulted or the time is up, and its result is whether that run is current and delivered |
| ProtocolCalls.WaitBegins | src/detail/client_impl.cpp:305-315 | a call before any start or over an ended wait returns at once, any other waits for the run at work |
| ProtocolRuns.DeliveryIsCreditedToItsRun | src/detail/client_impl.cpp:669-679 | a delivery sets the latest sample and the delivered generation of its own, current run |
| ProtocolMeaning.RecordIsJudged | src/detail/client_impl.cpp:533-639 | a record the worker counts is logged as received; it goes to conversion, as a sample of exactly that record scaled with the configuration in force, exactly when nothing is wrong with it and it is not earlier than the rate limit allows; its session ends exactly for a device error or, under FailStop, an FT discontinuity |
| ProtocolMeaning.RecordCounts | src/detail/client_impl.cpp:544-618 | one record raises exactly the counters it should: lost by the missing numbers, and one each for duplicate, late, stalled, backward, restarted, warning, device error and rate limited |
| ProtocolMeaning.SampleGoesOn | src/detail/client_impl.cpp:640-683 | a converted sample reaches the callback if finite, becomes the latest if the callback returns, and its session then goes on or ends as the record said; a throwing callback is counted, shown and ends a session by itself under FailStop only |
| ProtocolMeaning.DeliveriesShowRecords | src/detail/client_impl.cpp:627-649 | every delivered sample shows one received record, none twice and all in order, and its forces and torques times the divisors of its revision are the counts received |
| ProtocolMeaning.DiscoveredComesIntoForce | src/detail/client_impl.cpp:366-380 | after the section the discovered calibration and name are in force, and revision and change count rise by one exactly when another calibration was in force |
| ProtocolMeaning.DeliveredAsDiscovered | src/detail/client_impl.cpp:366-380 | over every run: a sample a session delivers was scaled with the calibration that session discovered, whatever other threads did in between |
| ProtocolMeaning.ClientKnowsRestarts | src/detail/client_impl.cpp:535-537 | the client classifies every FT value by the history of all values and sessions of its life, restarts included |
| ProtocolDecisions.WorkersEndForCause | src/detail/client_impl.cpp:382-417 | a worker is on its way to its exit only if a stop was asked for or a fault is latched, and a session says it was stopped only if a stop was asked for |
| ProtocolDecisions.SessionIsDecided | src/detail/client_impl.cpp:392-409 | a failed session faults under FailStop; otherwise the worker exits exactly if a stop was asked for, and else backs off |
| ProtocolDecisions.SessionEndsAs | src/detail/client_impl.cpp:419-511 | up to a record a session ends as stopped, timed out, failed at the transport or at the discovery, or in a storm, each exactly for its own cause |
| ProtocolDecisions.EndIsCarried | src/detail/client_impl.cpp:438-460 | that end reaches the decision unchanged, except that a failure under a stop becomes a stop |
| ProtocolDecisions.FaultsByName | src/detail/client_impl.cpp:22-68 | every way a session can fail has its own fault code, by name, and a message; a stopped session has neither |
| ProtocolDecisions.BackOffLeadsBack | src/detail/client_impl.cpp:411-416 | a back-off ends with its time or with a stop and leads back to the loop |
| ProtocolDecisions.FinishedWorkerShows | src/detail/client_impl.cpp:723-736 | a worker that has finished leaves the client Stopped, or Faulted with the fault that came first |
| ProtocolDecisions.WorkerReports | src/detail/client_impl.cpp:404-409 | connecting, a time-out, a back-off with its reason, the first fault and the end are shown and counted, and nothing else changes |
| ProtocolDecisions.StreamBegins | src/detail/client_impl.cpp:462-466 | a new stream takes any record as its first and has no pending restart; the FT baseline, the samples and the run of malformed packets stay |
| ProtocolDecisions.PacketsAreCounted | src/detail/client_impl.cpp:488-522 | silence, a garbled and a decoded packet each lead where they should: a garbled one is counted and extends the malformed run, a decoded one ends it and is handled with the time at which it came |
| ProtocolRuns.RecordsAreConserved | src/detail/client_impl.cpp:527-683 | received records are delivered, limited, failed, suppressed, dropped or the one a worker carries; suppression is bounded by its causes |
| ProtocolRuns.StreamingHasConfiguration | src/detail/client_impl.cpp:541-543 | the throw for a missing configuration is unreachable |
| ProtocolRuns.RevisionCountsChanges | src/detail/client_impl.cpp:366-380 | whenever a configuration exists its revision is one more than the calibration changes; before the first there are no deliveries |
| ProtocolRuns.RevisionsAreFaithful | src/detail/client_impl.cpp:627-647 | over deliveries the revision never falls nor passes the one in force, and two samples of one revision have counts that are their forces and torques times the same divisors |
| ProtocolRuns.DeliveriesMoveForward | src/detail/client_impl.cpp:596-610 | delivered samples strictly increase in restart epoch and unwrapped FT position over the client's life |
| ProtocolRuns.StreamsRefineUnbounded | src/detail/client_impl.cpp:555-570 | for every stream between two resets, finished or current, lost and accepted records add up to the span of the sensor's numbers, and the samples it delivered, before or after the reset, increase in them |
| ProtocolRuns.StreamsFollowOneAnother | src/detail/client_impl.cpp:462-466 | every delivered sample was accepted in a stream, and deliveries follow the order of streams and of records in them |
| ProtocolRuns.RateIsLimited | src/detail/client_impl.cpp:612-618 | any time window of length T of a run holds at most floor(T * limit) + 1 deliveries |
| ProtocolRuns.StormExactly | src/detail/client_impl.cpp:504-511 | a session ends in a malformed storm exactly when the trailing run of malformed packets, over all sessions of the run, reaches ten |
| ProtocolRuns.FailStopNeverReconnects | src/detail/client_impl.cpp:392-409 | under FailStop no reconnect is ever counted |
| ProtocolRuns.FailStopRunsOneSession | src/detail/client_impl.cpp:385-396 | under FailStop no action brings a worker back to the head of its loop: it runs at most one session |
| ProtocolRollback.FailedStartChangesNothing | src/detail/client_impl.cpp:183-210 | the last step of a roll-back restores latch, health, sample, generations, windows, malformed run, callback and flags |
| ProtocolRollback.RolledBackRates | src/detail/client_impl.cpp:183-210 | the windows it restores show the same rates from then on as the ones it found, whatever observers pruned meanwhile |
| ProtocolRuns.FailedStartIsNoOp | src/detail/client_impl.cpp:133-210 | over every run: from the step that enters the creation branch to the one by which its roll-back returns, whatever other threads do in between, the client comes back to the state it was entered with |
| ProtocolRuns.BranchBegins | src/detail/client_impl.cpp:133-137 | the entry recorded on entering the branch is the state of that moment |
| ProtocolRuns.StepKeepsEntry | src/detail/client_impl.cpp:133-210 | no action of any thread changes the entry of a thread that stays in the branch |
| ProtocolReclaim.StopLeavesNoWorker | src/detail/client_impl.cpp:256-287 | a stop by any thread but the worker's own returns only with no worker left |
| ProtocolRuns.StopReturnsWhenDone | src/detail/client_impl.cpp:256-287 | in every reachable state such a return leaves no worker and a complete wire |
| ProtocolCalls.StopShowsStopped | src/detail/client_impl.cpp:264-283 | and it leaves the client Stopped, or Faulted with the latched fault |
| ProtocolCalls.StartReturns | src/detail/client_impl.cpp:111-216 | start returns only with a new worker that has the callback of this call, cleared flags, a fresh run and the next generation; it throws only to the worker itself, over a live worker, or rolled back |
| ProtocolCalls.StartGoesOn | src/detail/client_impl.cpp:115-132 | a start that does not end waits exactly while another thread joins or a faulted worker is still exiting, joins exactly a worker that has exited, and then creates, with the callback it was given |
| ProtocolCalls.BiasChecks | src/detail/client_impl.cpp:291-299 | bias passes its check exactly while a started session streams, unstopped and unfaulted, and throws otherwise |
| ProtocolCalls.BiasSends | src/detail/client_impl.cpp:300-303 | past the check it sends the bias and then the start command as far as the sends succeed, and only then forgets the RDT number; the FT baseline stays |
| ProtocolReclaim.DestructorLeavesNoWorker | src/client.cpp:57-64 | when the destructor's last stop returns, no worker is left |
| ProtocolReclaim.DestroyerIsLast | src/client.cpp:57-64 | a destruction returns when it is the only call left, although its worker's callback may call while it waits |
| ProtocolReclaim.CallbackHandsOver | src/client.cpp:58-61 | a client destroyed from its callback is handed over while its worker still runs that callback |
| ProtocolReclaim.FreedIsFinal | src/client.cpp:26-37 | released storage has no worker and no call inside it |
| ProtocolRuns.FreedAfterJoin | src/client.cpp:26-37 | the same in every reachable state: storage is released only after the join |
| ProtocolData.StepKeepsConsistent | src/detail/client_impl.cpp:111-736 | every step keeps what each place relies on, the soundness of the records and the agreement of latch and snapshot |
| ProtocolRecords.WorkerBodyKeeps | src/detail/client_impl.cpp:382-736 | every step of the worker keeps the records sound and leaves its next place what it relies on |
| PipelineInvariants.ReceiveKeeps | src/detail/client_impl.cpp:533-621 | counting a record keeps conservation, windows, revisions, FT and RDT order, spacing and the malformed count |
| PipelineInvariants.DeliverKeeps | src/detail/client_impl.cpp:669-679 | completing a delivery keeps them and makes the limiter remember it |
| PipelineInvariants.FlightFailsKeeps | src/detail/client_impl.cpp:640-667 | a non-finite sample and a failed callback keep them and leave the limiter, the delivery window, the latest sample and the delivered count as they were |
| PipelineInvariants.ApplyConfigurationKeeps | src/detail/client_impl.cpp:366-380 | applying a configuration keeps them, with or without a change of scales |
| PipelineInvariants.PacketCounted | src/detail/client_impl.cpp:505-517 | the malformed counter is the trailing run of malformed packets, and the storm test is the test of that run |
| PipelineInvariants.ResetForRunKeeps | src/detail/client_impl.cpp:139-177 | preparing a run keeps them and leaves windows, limiter, latest sample, malformed run and the run's history empty |
| PipelineInvariants.SameRevisionSameScales | src/detail/client_impl.cpp:627-647 | the counts of two delivered samples of one revision are their forces and torques times the divisors of one calibration |
| PipelineInvariants.RatesAreCounts | src/detail/client_impl.cpp:331-342 | the reported rates equal the numbers of all receipts and deliveries of the run in the last second |
| PipelineInvariants.DeliveriesAreLimited | src/detail/client_impl.cpp:612-618 | spaced deliveries respect the rate limit in every time window |
| PipelineInvariants.StreamRefinesUnbounded | src/detail/client_impl.cpp:555-570 | what arrived in a stream determines tracker, lost count and the order of its deliveries as unbounded counting would |
| PipelineMeaning.FateExactly | src/detail/client_impl.cpp:596-618 | a record is suppressed exactly when something is wrong with it, rate limited exactly when it is closer than 1/limit to the last delivery of the run, and deliverable otherwise |
| PipelineMeaning.RecordIsShown | src/detail/client_impl.cpp:545-553 | after a record health shows Streaming and the record's own numbers and status |
| PipelineMeaning.SnapshotExactly | src/detail/client_impl.cpp:331-347 | the snapshot in terms of the run's receipts and deliveries alone |
| PipelineInvariants.SampleIsScaled | src/detail/client_impl.cpp:627-647 | the sample of a record shows that record, and its forces and torques times the divisors are the counts |
| RateWindow.PruneRateWindow | src/detail/client_impl.cpp:78-83 | the loop pops exactly the old front of the window |
| RateWindow.PruneIsFaithful | src/detail/client_impl.cpp:78-83 | pruning at any time up to now loses only receipts more than a second old |
| RateWindow.WindowEqualsFilter | src/detail/client_impl.cpp:331-342 | the pruned window equals the filter of the whole log, though only the front is ever popped and earlier times were used |
| RateLimit.WindowHoldsAtMost | src/detail/client_impl.cpp:612-618 | deliveries at least 1/limit apart number at most floor(T * limit) + 1 in a window of length T |
| ClientRecords.FaultLatch.Publish | src/detail/fault_latch.cpp:7-23 | only the first fault is latched and shown; a later one changes neither latch nor snapshot |
| ClientRecords.ClientData.ApplyConfiguration | src/detail/client_impl.cpp:366-380 | puts the calibration and the name in force and raises revision and change count by one exactly when another calibration was in force; nothing else changes |
| ClientRecords.ClientData.CountMalformed | src/detail/client_impl.cpp:505-509 | counts a malformed packet and reports the storm |
| ClientRecords.ClientData.Judge | src/detail/client_impl.cpp:588-610 | a serious status always ends the session; otherwise a stall or a backward value ends it under FailStop with its own result and never under Reconnect; delivery needs acceptance, no discontinuity and no error status unless configured |
| ClientRecords.ClientData.Receive | src/detail/client_impl.cpp:533-621 | the locked section in the source's branches performs the receive event and returns its fate and outcome; without a configuration only the trackers move |
| ClientRecords.ClientData.CompleteDelivery | src/detail/client_impl.cpp:669-679 | performs the delivery event |
| ClientRecords.ClientData.HandleRecord | src/detail/client_impl.cpp:527-683 | one record from trackers to callback comes to the state and outcome that RecordIsHandled describes |
| ClientRecords.RecordIsHandled | src/detail/client_impl.cpp:527-683 | told from the histories alone: the record is delivered exactly when it is not refused, in time, finite and its callback returns; then the latest sample is that record scaled with the configuration in force; the outcome is given for every case |
| ClientRecords.ClientData.Health | src/detail/client_impl.cpp:331-347 | prunes both windows and reports the latch over the stored state |
| ClientRecords.ClientData.PrepareRun | src/detail/client_impl.cpp:133-210 | a created thread gets a fresh run, cleared flags and the new callback; a failed creation leaves every field, both flags, the callback and the latch as they were |
| ClientRecords.ClientData.SetFault | src/detail/client_impl.cpp:685-694 | shows a fault exactly when it is the first |
| ReceiveLoop.ReadPacket | src/detail/client_impl.cpp:501-522 | a packet moves the state by its event; it ends the session in a storm exactly when the trailing run reaches ten, and a decoded one as its handling says |
| ReceiveLoop.AwaitPacket | src/detail/client_impl.cpp:471-499 | before its packet a turn ends the session exactly for a stop, a missed deadline, a failed wait or silence, with the result and message of that cause, and counts a time-out exactly when it reports one |
| ReceiveLoop.LoopEndsOnce | src/detail/client_impl.cpp:468-524 | for every script there is one place at which the loop ends, and one end |
| ReceiveLoop.RunReceiveLoop | src/detail/client_impl.cpp:468-524 | the loop reads on exactly while packets come in time and none ends the session; it ends at the first cause, with the result, message and valid flag of that cause; only valid records move the deadline; the state is the one the packets leave; a storm is exact over earlier sessions too |
| Recovery.DelayIsBounded | src/detail/client_impl.cpp:401-416 | every delay lies between the initial and the maximal one and only grows along a streak |
| Recovery.BackOffsCount | src/detail/client_impl.cpp:404-409 | n back-offs count n reconnects, show the last message and change nothing else |
| Recovery.RunSessions | src/detail/client_impl.cpp:382-417 | the k-th back-off of a streak waits min(initial * 2^k, max); sessions go on exactly while they back off; FailStop ends at the first failure with its fault |
| Sequence.RdtSequenceTracker.Observe | src/detail/sequence.cpp:11-28 | classifies by the signed distance in the half range and moves on accepted values only |
| Sequence.RdtRefinesUnbounded | src/detail/sequence.cpp:11-30 | within half the range the tracker stands at the highest number, every kind is the unbounded one, and lost plus accepted fill the span |
| Sequence.EveryClassificationIsUnbounded | src/detail/sequence.cpp:11-28 | the same for every observation of a run |
| Sequence.AcceptedMovesForward | src/detail/sequence.cpp:22-26 | an accepted record's number exceeds every number before it |
| Sequence.ComparesRightExactly | src/detail/sequence.cpp:18-27 | exactly which numbers the wrapped comparison classifies as the unbounded one does |
| Sequence.FtSequenceTracker.Observe | src/detail/sequence.cpp:34-65 | classifies and updates baseline and restart candidate |
| FtHistory.TrackerFollowsHistory | src/detail/sequence.cpp:32-65 | the tracker's fields are the baseline and the pending backward value of the observation history |
| FtHistory.RestartExactly | src/detail/sequence.cpp:52-60 | a restart is reported exactly when the observation just before, in the same session, was backward and lower, both are low and the baseline is not; the baseline is then in 0x10000..0x8000ffff |
| FtHistory.AdvanceMovesForward | src/detail/client_impl.cpp:596-610 | every advance moves the unwrapped position or the restart epoch forward |
| UdpTransport.Transport.Connect | src/detail/udp_transport_posix.cpp:36-75 | the first address that connects becomes the socket and clears the shutdown request; a failure changes nothing; no descriptor leaks |
| UdpTransport.Transport.Receive | src/detail/udp_transport_posix.cpp:91-152 | bytes come out exactly of an open, ready, valid socket that nobody shut down before or during the wait; it throws exactly for a missing socket or for a poll, socket or read that failed before a shutdown was seen; interrupted waits ask for exactly the time left |
| UdpTransport.Transport.Close | src/detail/udp_transport_posix.cpp:162-169 | sets the request and gives the descriptor back once |
| UdpTransport.SettlingIsFirst | src/detail/udp_transport_posix.cpp:116-130 | the wait is settled by the first poll that is not an interruption before the deadline |
| UdpTransport.SettlingRunsOut | src/detail/udp_transport_posix.cpp:116-130 | a wait that is only interrupted early runs out |
| UdpTransport.FirstConnectedIsFirst | src/detail/udp_transport_posix.cpp:36-75 | the address taken is the first that connects |
| UdpTransport.TimeoutMilliseconds | src/detail/udp_transport_posix.cpp:22-28 | the poll timeout is never shorter than the wait, less than a millisecond longer, and clamped |
| DeferredDestroyer.Destroyer.DestroyPending | src/client.cpp:27-38 | everything handed over is stopped and after that released, once each and in order |
| XmlText.TrimAsciiWhitespace | src/detail/xml_config.cpp:26-34 | the two loops trim both ends |
| XmlText.TrimUndoesPadding | src/detail/xml_config.cpp:26-34 | a trimmed core comes back whatever blanks surround it |
| XmlText.TrimSplits | src/detail/xml_config.cpp:26-34 | trimming removes blanks only, and all of them at both ends; the blanks are the characters 9 to 13 and 32 |
| XmlText.FindTagEnd | src/detail/xml_config.cpp:45-60 | the loop finds the end of the tag or that there is none |
| XmlText.TagEndExactly | src/detail/xml_config.cpp:45-60 | a tag ends at the one bracket outside quotes before which every bracket is quoted |
| XmlScanner.RequiredTagIndex | src/detail/xml_config.cpp:36-43 | the loop finds which value a tag supplies, by the tag's literal name |
| XmlScanner.TagIndexNames | src/detail/xml_config.cpp:18-19 | prodname, cfgcpf, cfgcpt, scfgfu and scfgtu supply values 0 to 4 in this order, and no other name supplies one |
| XmlScanner.AppendRequiredText | src/detail/xml_config.cpp:109-114 | text goes to the field whose element is innermost, and nowhere else |
| XmlScanner.ReadTag | src/detail/xml_config.cpp:161-202 | one tag opens or closes an element or is wrong, with the source's errors in the source's order |
| XmlScanner.ScanMarkup | src/detail/xml_config.cpp:131-203 | one piece of markup moves the position forward and the scan with it |
| XmlScanner.ExtractRequiredFields | src/detail/xml_config.cpp:116-231 | the loop ends and its fields or its error are those of the scan of the whole page, which XmlFields reads by name |
| XmlScanner.FinishFields | src/detail/xml_config.cpp:209-230 | the closing pass returns the values of all fields or the first error |
| XmlScanner.CollectExactly | src/detail/xml_config.cpp:209-230 | fields come out exactly when each has a value, and then they are those values |
| XmlScanner.MalformedMarkupExactly | src/detail/xml_config.cpp:161-186 | a tag is malformed exactly when it is blank; the second check never fires |
| XmlAcceptance.ScanFeedsTokens | src/detail/xml_config.cpp:122-204 | scanning is feeding the tokens of the page, whichever of token and structure fails first |
| XmlAcceptance.FeedOutsideField | src/detail/xml_config.cpp:188-202 | exactly the documents without elements in fields and without repeated tags are taken in, and the state is what they hold |
| XmlAcceptance.AcceptedTokensUnwind | src/detail/xml_config.cpp:166-208 | tokens that leave nothing open are those of a balanced, name-matched document |
| XmlAcceptance.AcceptanceExactly | src/detail/xml_config.cpp:122-230 | a page is accepted exactly when it tokenises into a balanced document with text-only fields, no repeated tag, and calibration fields of 1 to 128 characters |
| XmlFields.PageIsReadByName | src/detail/xml_config.cpp:116-231 | a page that is a document is accepted exactly when nothing stands inside the five elements, each calibration element comes once and the product name at most once, with 1 to 128 characters each; then the values are the trimmed texts of prodname (or "ATI Net F/T"), cfgcpf, cfgcpt, scfgfu and scfgtu, in this order |
| XmlFields.AcceptedByName | src/detail/xml_config.cpp:122-230 | every accepted page is such a document, and every such document is accepted |
| XmlRoundTrip.LexNodes | src/detail/xml_config.cpp:122-203 | a printed document is tokenised back node by node, whatever follows it |
| XmlFields.RoundTripByName | src/detail/xml_config.cpp:109-231 | a printed document is accepted exactly when it is such a page, and each value read back is the trimmed text and CDATA of the element it is named after |
| XmlRoundTrip.CommentChangesNothing | src/detail/xml_config.cpp:131-138 | a comment at any text position of any page leaves the fields, or the error, as they were |

## Left out

- Sockets, name resolution, the HTTP page request and their time-outs: every call is a step that returns data, nothing or an error.
- The Windows transport: it has the same flags.
- Delivery of wake-ups: a wait on a condition variable is an await on its predicate with timed and spurious wake-ups, so progress is stated as enabled steps and ranks, not as wake-ups that arrive.
- Weak memory: atomics are sequentially consistent. The stores of start() to stopping_, worker_exited_ and callback_ are one step, made under the lifecycle mutex while no worker exists.
- The store to session_started_ is made in the same step as the send before it; both are under the command mutex.
- A moved-from callback is the empty callback.
- The user's callback may call start, stop, bias, wait, health and the destructor from its thread and then return or throw; nothing else it does is modelled.
- Calls that are inside the client when its destruction begins, and calls by other threads after that: the interface forbids them. The worker's callback may still call while another thread's destructor waits for it.
- Wrap-around of the 64-bit counters and generations: they are unbounded.
- Floating point: rates, delays and scales are real numbers; a conversion that is not finite is an outcome of the environment.
- The steady clock never reads its own epoch, which the code uses for "not yet": runs begin after it and time does not go back.
- Allocation failure, test hooks and the mutex errors that noexcept functions swallow.
- Validation of the configuration, decoding of records, encoding of requests, unit and status texts and number parsing: one-step facts. The configuration is valid and a packet decodes or does not.
- The fields sensor_host, rdt_port and last_ft_progress of the health snapshot and the source of a configuration: they are copied and never read.
- A page is a sequence of characters, each of which stands for one byte.
- ProtocolRuns.StreamingHasConfiguration: the protocol's step for the unreachable throw leaves the trackers alone; ClientRecords.ClientData.Receive moves them first, as the code does.
- latest_sample(), faulted() and fault_code(): they return one field.
- ReceiveLoop.RunReceiveLoop: states the loop without other threads and with deadlines that the clock can hold; the interleavings, and the error thrown for a deadline outside its range, are in the protocol.
- Recovery.RunSessions: takes each session's end as given and leaves out a deadline outside the clock's range, which the protocol has as a thrown error.
- UdpTransport.Transport.Receive: the other thread's shutdown is the value of the flag at the second check.
- UdpTransport.Transport.Send: whether the system sends the request whole is given.
- DeferredDestroyer.Destroyer.DestroyPending: the endless loop up to its next wait; that a stop from another thread joins is in the protocol.
