# A verified model of netft

netft reads force and torque records that a sensor streams over UDP, hands them to a callback, and feeds them to a
ros2_control plugin. This project models the logic of its acquisition core and of the components around it in Dafny and
proves what they promise, over all inputs and all runs.

| file | what it holds |
|---|---|
| `Sequence.dfy` | 32-bit words; the RDT and FT sequence trackers as objects, and their meaning over unbounded numbers |
| `Protocol.dfy`, `Clock.dfy` | records and requests on the wire; deadlines of a steady clock in nanoseconds |
| `RecordHistory.dfy`, `HistoryMeaning.dfy` | the history of a client: counters, the fate of every record, the order of delivered samples; what sessions, biases and starts make it forget |
| `RateWindow.dfy`, `RateLimitExample.dfy` | the one-second windows and the rate limiter; a start that breaks the limit |
| `Session.dfy` | one session and the reconnect loop as folds over what the environment does |
| `ReconnectRuns.dfy`, `ReconnectFaults.dfy` | the waits of every run; exactly when a client that reconnects can be faulted |
| `AcquisitionCore.dfy` | the record machine as an object that updates its fields in place, proved against the folds and the history |
| `Lifecycle.dfy` | start, stop, bias, destruction, callback and worker as a state machine of any number of threads |
| `LifecycleInvariant.dfy`, `WorkerSteps.dfy`, `CallerSteps.dfy`, `LifecycleRuns.dfy` | its inductive invariant, kept by every step of every run |
| `LifecycleFrames.dfy`, `LifecycleSafety.dfy` | what single steps leave alone, and what follows for whole runs |
| `LifecyclePolicy.dfy`, `LifecycleConduct.dfy` | what recovery policy and stops make of a worker's failures, and what is published meanwhile |
| `LifecycleCalls.dfy`, `LifecycleDeliveries.dfy`, `LifecycleFlags.dfy` | what calls decide, which commands are sent, which samples count, which callback is called, whose stop a worker sees |
| `LifecycleWaits.dfy`, `LifecycleReuse.dfy` | which start a wait for the first sample answers for, and exactly when it can be misled |
| `XmlConfig.dfy`, `XmlPieces.dfy`, `XmlSpelling.dfy` | the calibration scanner; what a piece of a document is, in characters |
| `XmlMeaning.dfy`, `XmlComments.dfy` | the documents it accepts, and comments |
| `PluginLatch.dfy`, `PluginReads.dfy` | the plugin's latches, buffer and axes; exactly when a read succeeds |
| `NameToken.dfy` | the encoding of sensor names |
| `Diagnostics.dfy` | the diagnostics evaluator and the log throttle |

How to read it:

- A client's object (`AcquisitionCore.Client`) carries a ghost history; `Valid()` says that its fields are functions of
  that history. Laws are proved of histories and so hold of the object. `Legal` histories are those in which a record is
  finished before the next is observed, with sections of bias and health anywhere; `Session.LivesAreLegal` shows that
  whole lives, of any starts, sessions and such sections, produce no others.
- In the lifecycle one step is one lock-protected section or one atomic access; waiting on a condition variable is
  re-checking its predicate. Atomics are sequentially consistent. Threads, callbacks and failures of the environment are
  choices of the run. Only safety is claimed: some notifications of the source are made without the waiter's mutex.
- What the environment decides (clock readings, received bytes, failing sends, callback outcomes, whether a wrench is
  finite, which interface writes are accepted) is an argument of methods or part of an event.
- Integers are unbounded except where the width matters: sequence numbers are 32-bit words, the clock is a 64-bit range.

Where the code does something its description does not suggest, the model follows the code and says so in a lemma:

- A delivery at clock value zero reads as "never delivered" and switches the rate limit off for one record
  (`RateLimitExample.DeliveryAtNeverIsForgotten`); `RateWindow.DeliveriesSpaced` and `RateWindow.WindowBoundExactly`
  give the exact condition.
- A start that fails gives its generation number back, so a wait that begins inside it can answer for the start after it
  (`LifecycleReuse.FirstStartCanMislead`, exactly characterised by `LifecycleReuse.WaitMisledExactly`).
- A reconnecting client can be faulted, by a session or a wait that is too long for what is left of the clock since its
  construction (`ReconnectFaults.LateOpening`, `ReconnectFaults.WaitsFault`); `ReconnectFaults.FaultsExactly` and
  `ReconnectFaults.FaultsInTimeExactly` give the exact conditions.
- A record that finds no configuration still moves the trackers before the exception (`RecordHistory.LostGrowsByRun`);
  no session gets there (`Session.SessionThrowNeedsOverflow`).
- A read of the plugin that fails only because the buffer handed out a null pointer latches nothing
  (`PluginLatch.NullPointerDoesNotLatch`, exactly characterised by `PluginLatch.FailedReadLatches`).
- With the modern ros2_control interface, invalidating an axis can be refused, and the axis then keeps a number after a
  failed read (`PluginLatch.RefusedAxisKeepsItsNumber`, exactly characterised by `PluginLatch.FailedReadInvalidates`).
- A wrench that is not finite is reported before a serious status of the same record (`Session.FailStopPriority`).
- A datagram of zero bytes ends a session as a timeout, as a silent sensor does (`Session.ZeroBytesAreSilence`).

## Model

| member | source | states |
|---|---|---|
| `Sequence.RdtSequenceTracker.Observe` | src/core/src/detail/sequence.cpp:11-28 | the observation and the new fields are those of the tracker that every RDT statement below is about |
| `Sequence.RdtSequenceTracker.Reset` | src/core/src/detail/sequence.cpp:30 | only the baseline flag goes; the next arrival is a First whatever the remembered word is |
| `Sequence.FtSequenceTracker.Observe` | src/core/src/detail/sequence.cpp:34-65 | the kind and the new fields are those of the tracker that every FT statement below is about |
| `Sequence.FtSequenceTracker.BeginSession` | src/core/src/detail/sequence.cpp:32 | the restart candidate is forgotten, the baseline is not |
| `Sequence.LossConserved` | src/core/src/detail/sequence.cpp:11-30 | between resets, accepted records plus reported gaps equal the unwrapped span plus one, for any arrivals and any number of wraps |
| `Sequence.AcceptsSerialGreater` | src/core/src/detail/sequence.cpp:18-27 | a number is accepted exactly when it is greater in the serial-number order of section 3.2 of RFC 1982; the distance that RFC leaves undefined counts as OutOfOrder |
| `Sequence.TracksTruth` | src/core/src/detail/sequence.cpp:11-28 | while arrivals stay within half a range of the high-water mark, the 32-bit tracker says of every arrival what a comparison of the unbounded numbers says |
| `Sequence.LossCountsMissing` | src/core/src/detail/sequence.cpp:22-26 | in the same case the reported loss is the number of true sequence numbers below the high-water mark that were never accepted |
| `Sequence.ClassificationExact` | src/core/src/detail/sequence.cpp:18-27 | for one arrival, 32-bit and true classification agree if and only if it is less than half the range ahead and, when it is behind, its low word is behind too |
| `Sequence.CandidateIsLastBackward` | src/core/src/detail/sequence.cpp:32-64 | over any history a restart candidate exists exactly when the event before was an arrival classified Backward, and it is that value |
| `Sequence.FirstMeansNothingSeen` | src/core/src/detail/sequence.cpp:34-39 | there is a baseline exactly when anything was ever seen, whatever sessions came in between, so First is reported once in a life |
| `Sequence.RestartExactly` | src/core/src/detail/sequence.cpp:52-60 | Restart is reported exactly when the previous event was Backward, it and the current value are at most 0xffff and increasing, and the baseline is at least 0x10000 and ahead of the current value |
| `Sequence.FtIsSerial` | src/core/src/detail/sequence.cpp:41-64 | without a restart to confirm, an arrival is a stall, forward or backward as it is equal, greater or anything else in serial-number order |
| `Sequence.PositionTracksBaseline` | src/core/src/detail/sequence.cpp:34-65 | the unwrapped position in the current device life keeps the baseline as its low word |
| `Sequence.PositionMoves` | src/core/src/detail/sequence.cpp:34-65 | the position moves forward on First, Forward and Restart, and on nothing else |
| `Protocol.SignedReaderExact` | src/core/src/detail/protocol.cpp:14-22 | the signed reader is exact two's complement on all four-byte inputs |
| `Protocol.DecodeInvertsEncode` | src/core/src/detail/protocol.cpp:31-41 | every record survives encoding and decoding |
| `Protocol.EncodeInvertsDecode` | src/core/src/detail/protocol.cpp:31-41 | decoding succeeds exactly on 36 bytes and loses none of them |
| `Protocol.WordsCompareAsBytes` | src/core/src/detail/protocol.cpp:7-12 | words on the wire are ordered as their bytes are: most significant first |
| `Protocol.FieldsInOrder` | src/core/src/detail/protocol.cpp:31-41 | the nine fields of a record are the nine words of the datagram, in this order |
| `Protocol.RequestLayout` | src/core/src/detail/protocol.cpp:24-29 | a request is the header, the command and the count, each most significant byte first |
| `Protocol.RequestsDiffer` | src/core/src/detail/protocol.cpp:24-29 | different commands or counts give different requests |
| `Clock.DeadlineNeverOverflows` | src/core/src/detail/time.hpp:11-28 | a deadline is granted if and only if the duration is one the clock can hold and its whole ticks do not carry the origin beyond the end of the clock; it then lies at or after its origin and less than a tick before the exact sum |
| `RecordHistory.CountersMonotone` | src/core/src/detail/client_impl.cpp:545-617 | no counter ever shrinks, across sessions and starts |
| `RecordHistory.CountersCountEvents` | src/core/src/detail/client_impl.cpp:545-708 | each of fifteen counters is the number of the events it stands for, over the whole life |
| `RecordHistory.ConfigurationIsLast` | src/core/src/detail/client_impl.cpp:366-380 | the published calibration is the one applied last |
| `RecordHistory.RevisionCountsChanges` | src/core/src/detail/client_impl.cpp:366-380 | the published configuration revision is one more than the number of calibration changes |
| `RecordHistory.LostGrowsByRun` | src/core/src/detail/client_impl.cpp:534-558 | `lost_count` grows by the summed gaps of the current RDT run, so LossConserved applies to it; missing are only the gaps in front of records that an exception kept from being counted |
| `RecordHistory.ForeignKeeps` | src/core/src/detail/client_impl.cpp:291-347 | sections of bias and health, however many and wherever they come, keep a history legal, and leave the record in flight, the malformed run, the limiter clock and every counter as they were |
| `RecordHistory.CountersCountFates` | src/core/src/detail/client_impl.cpp:539-708 | delivered, callback-error and rate-limited counters and the records in flight each equal the number of records with that fate |
| `RecordHistory.FatesPartition` | src/core/src/detail/client_impl.cpp:539-682 | the six fates partition the received records |
| `RecordHistory.RecordsConserved` | src/core/src/detail/client_impl.cpp:539-708 | in every state of every legal history, received = delivered + callback errors + rate-limited + suppressed + not finite + at most one in flight |
| `RecordHistory.HandedStrictlyIncrease` | src/core/src/detail/client_impl.cpp:534-625 | over a whole life, with sessions, biases and starts in between, samples handed to the callback strictly increase in (restarts seen, unwrapped FT sequence) |
| `RecordHistory.HandedIncreaseWithinBaseline` | src/core/src/detail/client_impl.cpp:534-625 | within one RDT baseline they also strictly increase in unwrapped RDT sequence |
| `HistoryMeaning.FirstOfBaseline` | src/core/src/detail/client_impl.cpp:462-466 | a record is a First exactly when every earlier one lies before a session or a bias; starts forget nothing |
| `HistoryMeaning.RestartWithinSession` | src/core/src/detail/client_impl.cpp:462-466 | a restart is seen exactly for a low record right behind a lower one of the same session that was taken for backward, under a high baseline that is ahead |
| `HistoryMeaning.MalformedRunCounts` | src/core/src/detail/client_impl.cpp:501-517 | the malformed run is the number of malformed datagrams that no valid record and no start follows, across sessions |
| `HistoryMeaning.RatesCountEvents` | src/core/src/detail/client_impl.cpp:331-342 | the counts behind the two rates are the numbers of records received and samples delivered since the current start and within the last second |
| `RateWindow.PruneRateWindow` | src/core/src/detail/client_impl.cpp:78-83 | the loop removes exactly the stale prefix |
| `RateWindow.SnapshotRateIsWindowCount` | src/core/src/detail/client_impl.cpp:331-347 | for every interleaving of worker and health reads, the pruned deque has as many entries as the full history has records (or deliveries) of the current start in the last second |
| `RateWindow.DeliveriesRespectLimit` | src/core/src/detail/client_impl.cpp:612-618 | each delivery is at least 1/L seconds before the next unless it carries time zero, the code's "never" |
| `RateWindow.DisposedExactly` | src/core/src/detail/client_impl.cpp:588-622 | a record that is in order, continuous and permitted by its status is handed over if and only if there is no limit, no delivery of this start, a last one at time zero, or a last one at least 1/L seconds back; otherwise it is rate limited, and any other record is suppressed |
| `RateWindow.DeliveriesSpaced` | src/core/src/detail/client_impl.cpp:612-618 | so the deliveries of a start respect the limit exactly when no delivery at time zero is followed too soon |
| `RateLimitExample.DeliveryAtNeverIsForgotten` | src/core/src/detail/client_impl.cpp:612-615 | the first start of a valid configuration, run through the session fold: a delivery at time zero lets the next one through after a nanosecond, and the window between them holds two under a limit of 1 Hz |
| `RateWindow.DeliveriesPerWindow` | src/core/src/detail/client_impl.cpp:612-618 | with limit L > 0, any window of w seconds holds at most floor(w L) + 1 deliveries of one start, and one more for each delivery in it at time zero |
| `RateWindow.WindowBoundExactly` | src/core/src/detail/client_impl.cpp:612-618 | every window respects floor(w L) + 1 if and only if no delivery at time zero is followed too soon |
| `RateWindow.ReportedDeliveryRateBounded` | src/core/src/detail/client_impl.cpp:331-342 | no health snapshot reports a delivery rate above floor(L) + 1 and one for each delivery of the last second at time zero, and none above floor(L) + 1 when those keep their distance |
| `Session.FailStopPriority` | src/core/src/detail/client_impl.cpp:588-667 | which fault one record causes in FailStop, for every combination: a wrench that is not finite, then serious status, then FT discontinuity, a failing callback last |
| `Session.ReconnectTolerates` | src/core/src/detail/client_impl.cpp:602-667 | under Reconnect a record leaves the session open exactly when its status is not serious and, if it is handed over, its wrench is finite; and with which result it ends it otherwise |
| `Session.RecordEventsExactly` | src/core/src/detail/client_impl.cpp:627-683 | a record that is handed over has exactly one ending, a delivery if and only if its wrench is finite and the callback returned; any other has none |
| `Session.ZeroBytesAreSilence` | src/core/src/detail/client_impl.cpp:492-499 | a datagram of zero bytes is no malformed one: its turn is the same as one in which the deadline passed, and ends the session as a timeout |
| `Session.OnlyRecordsMoveDeadline` | src/core/src/detail/client_impl.cpp:471-523 | malformed datagrams change nothing but their counters; only a valid record moves the deadline |
| `Session.TurnEndsExactly` | src/core/src/detail/client_impl.cpp:471-523 | for every turn, when it ends its session, and as what: stopped, silent, a receive error, the tenth malformed datagram in a row, an exception |
| `Session.TurnCountsExactly` | src/core/src/detail/client_impl.cpp:471-523 | what a turn counts, which deadline the next one has, and that a record in time is treated after everything before it |
| `Session.StopsAtFirstEnd` | src/core/src/detail/client_impl.cpp:471-524 | a session is the turns up to and including the first one that ends it: nothing is handled after the fatal record |
| `Session.QuietRunsOut` | src/core/src/detail/client_impl.cpp:471-524 | every trace either has such a first ending turn or is consumed whole and ends as Stopped |
| `Session.MalformedBudget` | src/core/src/detail/client_impl.cpp:501-523 | a session that accepts v valid records consumes at most 9 v + 10 malformed datagrams, less what the run it inherits already used, and ends within v + malformed + 1 turns |
| `Session.TurnCost` | src/core/src/detail/client_impl.cpp:501-517 | the malformed run is extended by one, cleared by a valid record, and survives a turn only below ten |
| `Session.FailStopLatchesFirstFault` | src/core/src/detail/client_impl.cpp:382-470 | a FailStop start never waits and runs exactly one session, or none when its worker sees a stop before the first; for each way the session can open the latched fault is given, and once it receives, the latch is the fault of the first turn that ends the session and nothing happens after it |
| `Session.DelayDoubles` | src/core/src/detail/client_impl.cpp:383-416 | doubling under the cap walks through the waits min(initial * 2^k, max) |
| `ReconnectRuns.RunIsChain` | src/core/src/detail/client_impl.cpp:382-428 | every run is a chain of sessions, each but the last failed with no stop seen; the first wait is the initial delay, each later one min(twice the one before, longest), and the initial delay again after a session with a valid record; how the last session ends decides latch and history |
| `ReconnectRuns.WaitsDouble` | src/core/src/detail/client_impl.cpp:401-416 | so the i-th wait of a run is min(initial * 2^k, max), where k counts the sessions without a valid record since the last one that had one |
| `ReconnectRuns.ValidMeansDecoded` | src/core/src/detail/client_impl.cpp:512-518 | a session counts as one with a valid record exactly when it decoded one, even if that record ended it |
| `ReconnectRuns.SessionPublishes` | src/core/src/detail/client_impl.cpp:430-448 | a session publishes the calibration its discovery found, however it ends, and without one leaves the old one |
| `ReconnectRuns.SessionStartsFresh` | src/core/src/detail/client_impl.cpp:462-466 | a session that opens starts with no RDT baseline and no restart candidate |
| `Session.ReconnectNeverLatches` | src/core/src/detail/client_impl.cpp:382-428 | whatever fails, the only fault a reconnecting client can latch is a socket fault, and only with a clock reading that has no deadline after it |
| `ReconnectFaults.FaultsExactly` | src/core/src/detail/client_impl.cpp:382-428 | some start with its clock readings up to T faults a reconnecting client if and only if T leaves no room for the receive timeout or the longest wait: exactly when the configuration would be refused if the client were constructed at T |
| `ReconnectFaults.FaultsInTimeExactly` | src/core/src/detail/client_impl.cpp:382-428 | the same on a clock that runs from the start of the worker and on which no wait ends early: if and only if there is no room for the receive timeout, or the waits of some number of fruitless sessions in a row fit in but the next one has no deadline |
| `ReconnectFaults.WaitsFault` | src/core/src/detail/client_impl.cpp:402-416 | a start that is faulted by a wait: sessions that find no sensor, one after the other, up to the wait without a deadline |
| `ReconnectFaults.LateOpening` | src/core/src/detail/client_impl.cpp:468-469 | a start that is faulted by a session that opens too late for its first deadline |
| `Session.SessionThrowNeedsOverflow` | src/core/src/detail/client_impl.cpp:468-545 | an exception leaves a session only if one of its deadlines does not exist; the one for a missing configuration never does |
| `Session.RunSettles` | src/core/src/detail/client_impl.cpp:382-428 | whatever the environment does, and whatever sections of bias and health come between those of the worker, its callback included, a start leaves a legal history with nothing in flight |
| `Session.LivesAreLegal` | src/core/src/detail/client_impl.cpp:111-428 | so does a whole life of starts, those that get no thread included, whose histories the laws above are about |
| `AcquisitionCore.Client.constructor` | src/core/src/detail/client_impl.cpp:103-107 | the fields start as the functions of an empty history |
| `AcquisitionCore.Client.Start` | src/core/src/detail/client_impl.cpp:145-178 | a start clears the previous start's times, malformed run and fault, keeps every counter and the trackers, and the fields stay functions of the history |
| `AcquisitionCore.Client.FailStart` | src/core/src/detail/client_impl.cpp:134-209 | a start that gets no thread puts back everything it cleared, whatever health reads came in between; those reported rates of zero |
| `AcquisitionCore.Client.Bias` | src/core/src/detail/client_impl.cpp:291-303 | a bias is refused unless a session streams without a fault and no stop is visible; only when both commands were sent is the RDT baseline dropped, otherwise nothing changes |
| `AcquisitionCore.Client.Interlude` | src/core/src/detail/client_impl.cpp:291-347 | whatever other threads do between two sections of the worker, the fields stay functions of the history with their sections in it |
| `AcquisitionCore.Client.ReadHealth` | src/core/src/detail/client_impl.cpp:331-347 | the two rates of a snapshot are the true counts over the last second |
| `AcquisitionCore.Client.ApplyConfiguration` | src/core/src/detail/client_impl.cpp:366-380 | the new calibration is installed and the object stays the function of its history that RevisionCountsChanges is about |
| `AcquisitionCore.Client.BeginSession` | src/core/src/detail/client_impl.cpp:462-466 | a session drops the RDT baseline and the restart candidate |
| `AcquisitionCore.Client.CountMalformed` | src/core/src/detail/client_impl.cpp:504-511 | the in-place counter is the trailing malformed run of the whole history, and the storm is reported at ten |
| `AcquisitionCore.Client.ObserveRecord` | src/core/src/detail/client_impl.cpp:533-625 | counters, deques and trackers after a record are those of the history with the record, and it is handed on exactly when its disposition says so; without a configuration only the trackers hear of it and an exception follows |
| `AcquisitionCore.Client.CountAndJudge` | src/core/src/detail/client_impl.cpp:543-622 | the counters, the deque, the disposition and the outcome of one record, updated in place, are the functions of the history before it |
| `AcquisitionCore.Client.FinishDelivery` | src/core/src/detail/client_impl.cpp:669-679 | a delivery is counted, timed and pruned in place as the history says |
| `AcquisitionCore.Client.RecordCallbackError` | src/core/src/detail/client_impl.cpp:696-708 | a failed callback is counted and leaves the limiter's clock alone |
| `AcquisitionCore.Client.HandleRecord` | src/core/src/detail/client_impl.cpp:527-683 | the whole treatment of one record, with whatever comes in while its callback runs and with the exception for a missing configuration, equals the events and the ending of the fold |
| `AcquisitionCore.Client.HandleDatagram` | src/core/src/detail/client_impl.cpp:491-523 | a datagram in time equals the fold: silence, malformed data, a deadline that does not exist, or a record |
| `AcquisitionCore.Client.ReceiveOnce` | src/core/src/detail/client_impl.cpp:471-523 | one turn of the receive loop equals one turn of the fold: events, deadline, ending |
| `AcquisitionCore.Client.ReceiveLoop` | src/core/src/detail/client_impl.cpp:468-525 | the loop computes the session fold |
| `AcquisitionCore.Client.ReceiveSession` | src/core/src/detail/client_impl.cpp:430-525 | a session with its openings and early ends computes the session fold |
| `AcquisitionCore.Client.Run` | src/core/src/detail/client_impl.cpp:382-428 | one start's loop computes the run fold: history, latched fault and waits, with the backoff kept in place and the exception of a wait without a deadline |
| `LifecycleInvariant.InitialInv` | src/core/src/detail/client_impl.hpp:27-31 | a new client satisfies the invariant |
| `WorkerSteps.LinkingKeeps` | src/core/src/detail/udp_transport_posix.cpp:69-75 | connecting may clear the shutdown flag without losing a stop |
| `WorkerSteps.CommandingKeeps` | src/core/src/detail/client_impl.cpp:450-457 | the start command is sent only when no stop is visible under the command lock, which keeps the command order and every stop |
| `WorkerSteps.CloseKeeps` | src/core/src/detail/client_impl.cpp:710-721 | closing sends at most the one stop command its session still owes |
| `WorkerSteps.PublishKeeps` | src/core/src/detail/fault_latch.cpp:7-23 | publishing keeps state and latch in step |
| `WorkerSteps.FinishingKeeps` | src/core/src/detail/client_impl.cpp:669-679 | a delivery makes the latest sample one of the current start |
| `CallerSteps.StartArmsKeeps` | src/core/src/detail/client_impl.cpp:134-178 | a start clears and saves while no worker exists |
| `CallerSteps.CreateKeeps` | src/core/src/detail/client_impl.cpp:179-181 | a created worker is the only one |
| `CallerSteps.JoinKeeps` | src/core/src/detail/client_impl.cpp:219-225 | the joining thread is the only one that can end the worker, and ends it once |
| `CallerSteps.CommandedKeeps` | src/core/src/detail/client_impl.cpp:241-254 | a stop sends at most one stop command per session and raises the shutdown flag under the same lock |
| `CallerSteps.BiasInOrder` | src/core/src/detail/client_impl.cpp:291-303 | a bias, whichever of its sends fails, leaves the device streaming |
| `CallerSteps.StopFreesKeeps` | src/core/src/client.cpp:57-64 | the second stop of a destructor frees the implementation with no worker and nobody left inside |
| `CallerSteps.StopDefersKeeps` | src/core/src/client.cpp:57-62 | a callback that destroys the client hands it over with nobody else inside |
| `CallerSteps.DestroyerTakesKeeps` | src/core/src/client.cpp:27-38 | the deferred destroyer takes over an object nobody else uses |
| `LifecycleRuns.StepKeeps` | src/core/src/detail/client_impl.cpp:111-303 | every enabled step of every thread keeps the invariant |
| `LifecycleRuns.RunKeeps` | src/core/src/detail/client_impl.cpp:111-303 | so does every run, of any length and interleaving |
| `LifecyclePolicy.FailStopNeverWaits` | src/core/src/detail/client_impl.cpp:392-396 | in a run of a fail-stop client no worker is ever at its backoff or its wait |
| `LifecyclePolicy.SessionEndsByPolicy` | src/core/src/detail/client_impl.cpp:392-410 | a failed session of a fail-stop client latches its own fault and the worker retires, whether or not a stop is visible; one of a reconnecting client latches nothing and the worker backs off unless a stop is visible; a stopped session is followed by neither |
| `LifecyclePolicy.FaultsComeFrom` | src/core/src/detail/client_impl.cpp:392-426 | a latch is set by the end of a session under fail-stop, by an exception with no stop visible, or by a failed start that had found it; never while it is set, and no step of a worker clears it |
| `LifecyclePolicy.ReconnectLatchesEscapesOnly` | src/core/src/detail/client_impl.cpp:418-426 | in a run of a reconnecting client a latch that is set is a socket fault, and an exception has left a session with no stop visible before |
| `LifecycleConduct.StopEndsSession` | src/core/src/detail/client_impl.cpp:436-497 | a session ends as stopped exactly where it looks while a stop is visible; a worker that sees one begins nothing, and what it had found is not counted |
| `LifecycleConduct.GoesOnUnstopped` | src/core/src/detail/client_impl.cpp:436-460 | without a stop it goes on, and a failure counts for what it is |
| `LifecycleConduct.StopIsPrompt` | src/core/src/detail/client_impl.cpp:385-525 | once a stop is visible it stays visible to the worker that exists, which takes nine more steps of its own at most, whatever it was doing and whatever all other threads do |
| `LifecycleConduct.FailuresAreNamed` | src/core/src/detail/client_impl.cpp:440-499 | a failing operation fails the session with the fault of that operation, and a working one does not |
| `LifecycleConduct.StateTellsProgress` | src/core/src/detail/client_impl.cpp:404-435 | in every state of every run the published state tells what the worker is doing: connecting until its session streams, streaming in a callback, in backoff while it waits, idle or faulted when it is done |
| `LifecycleCalls.StartDecides` | src/core/src/detail/client_impl.cpp:113-133 | what a call of start comes to, told from the threads that exist: refused in the worker's callback and, nothing being latched, while a worker runs; delayed by a join and by a faulted worker that still runs; joining a finished one; a new start when there is none |
| `LifecycleCalls.StopDecides` | src/core/src/detail/client_impl.cpp:256-273 | what a stop comes to: over in the worker's callback, delayed by a join, over when no worker exists, and otherwise joining the one worker |
| `LifecycleCalls.SentExactly` | src/core/src/detail/client_impl.cpp:239-303 | which commands every step sends, told from what the device has heard: a stop goes only to a device that streams, and a bias only to a streaming device of an unfaulted, unstopped client, and changes nothing else |
| `LifecycleFlags.ShutdownExactly` | src/core/src/detail/udp_transport_posix.cpp:69-166 | the transport's shutdown flag is raised by a worker that closes its session or retires and by a stop's command section, lowered by a connection that succeeds, and touched by no other step |
| `LifecycleFlags.StopsAreCalled` | src/core/src/detail/client_impl.cpp:178-240 | a worker sees a stop only if one was called while its own start was current |
| `LifecycleDeliveries.FreshMeansDelivered` | src/core/src/detail/client_impl.cpp:305-325 | delivered generation equals generation above zero exactly when a worker has finished a delivery while the start that is current now was current, failed starts in between included |
| `LifecycleDeliveries.WorkerCallsItsStart` | src/core/src/detail/client_impl.cpp:178-182 | a worker calls the callback that the start which created it was given, whatever starts failed or were refused in between |
| `LifecycleSafety.OneWorkerJoinedOnce` | src/core/src/detail/client_impl.cpp:111-289 | at most one worker exists in any state; every thread ever created has been joined exactly once, except the one that exists |
| `LifecycleSafety.NeverJoinsItself` | src/core/src/detail/client_impl.cpp:113-122 | a worker's own thread calls only from inside its callback and never waits for a join or joins |
| `LifecycleSafety.FreedAfterEverything` | src/core/src/client.cpp:27-64 | when the implementation is freed every worker has been joined, no thread is inside a call, and nothing can happen afterwards |
| `LifecycleSafety.StateMatchesLatch` | src/core/src/detail/fault_latch.cpp:7-31 | state is Faulted, with that code, exactly when the latch is not None, but for the moment in a failed start's rollback |
| `LifecycleSafety.GenerationMeansFreshSample` | src/core/src/detail/client_impl.cpp:305-325 | delivered generation equals generation above zero exactly when the latest sample was delivered since the current start |
| `LifecycleWaits.WaitTellsTheTruth` | src/core/src/detail/client_impl.cpp:305-325 | a wait answers yes exactly when the generation it captured is current and a sample of the current start is there |
| `LifecycleWaits.WaitAnswersForItsStart` | src/core/src/detail/client_impl.cpp:305-325 | a wait that begins while no thread is inside a start that may still be taken back answers yes exactly when that very start is current and has delivered, whatever starts, failed ones included, come later |
| `LifecycleReuse.ArmedMisleads` | src/core/src/detail/client_impl.cpp:134-213 | from every state inside an unfinished start a run leads to a wrong yes: the start fails, its generation is used again by the next one, and that one delivers |
| `LifecycleReuse.WaitMisledExactly` | src/core/src/detail/client_impl.cpp:305-325 | a wait that begins at the end of a run can be misled by some continuation if and only if a thread is then inside a start that may still be taken back |
| `LifecycleReuse.FirstStartCanMislead` | src/core/src/detail/client_impl.cpp:134-213 | a run of a new client that ends in a wrong yes |
| `LifecycleSafety.HeardIsTranscript` | src/core/src/detail/client_impl.cpp:239-303 | what the command automaton accepts is, with all sends succeeding, (Start (Bias Start)* Stop)* with the last session perhaps open |
| `LifecycleSafety.CommandsFormSessions` | src/core/src/detail/client_impl.cpp:239-303 | for every interleaving the commands of a whole life form such sessions |
| `LifecycleSafety.NothingAfterStop` | src/core/src/detail/client_impl.cpp:710-721 | with failing sends too, a stop attempt is followed by a start attempt only |
| `LifecycleSafety.NoStopIsLost` | src/core/src/detail/client_impl.cpp:239-254 | from the moment a stop leaves its command section until that worker is joined, stopping and the shutdown flag are visible whenever the worker receives, and no command leaves the client |
| `LifecycleSafety.StopLeavesNoWorker` | src/core/src/detail/client_impl.cpp:256-289 | when a stop that was not called from the callback is over, no worker is left, so no callback runs until another start; a fault stays latched, and without one the client is idle |
| `LifecycleFrames.RollbackCompletes` | src/core/src/detail/client_impl.cpp:183-209 | the last step of a rollback makes the saved state true again, fault and latch included |
| `LifecycleSafety.FailedStartRestores` | src/core/src/detail/client_impl.cpp:134-213 | a start whose thread creation fails restores flags, callback, data and fault of the state in which it decided to start, whatever other threads did meanwhile, having sent and created nothing |
| `XmlConfig.TrimIs` | src/core/src/detail/xml_config.cpp:26-34 | trimming removes white space at both ends and nothing else |
| `XmlConfig.TrimAsciiWhitespace` | src/core/src/detail/xml_config.cpp:26-34 | the two loops trim |
| `XmlConfig.RequiredTagIndex` | src/core/src/detail/xml_config.cpp:36-43 | the loop finds the index of a required tag, or -1 for any other name |
| `XmlConfig.FindTagEnd` | src/core/src/detail/xml_config.cpp:45-60 | the loop finds the first `>` outside quotes from a position on, and fails exactly when there is none |
| `XmlConfig.ReadMarkup` | src/core/src/detail/xml_config.cpp:131-205 | the piece of markup at a position and its length, or the error of that branch |
| `XmlConfig.ReadTag` | src/core/src/detail/xml_config.cpp:160-187 | closing, opening and self-closing tags, with the names and errors of the source |
| `XmlConfig.AppendRequiredText` | src/core/src/detail/xml_config.cpp:109-114 | text is collected only directly inside an open required element |
| `XmlConfig.ExtractRequiredFields` | src/core/src/detail/xml_config.cpp:116-231 | for every document the position loop ends, with the result of the recursive scan or its first error |
| `XmlConfig.SettleFields` | src/core/src/detail/xml_config.cpp:207-230 | fields are trimmed and checked in order, and the first bad one decides the error |
| `XmlSpelling.CutsExactly` | src/core/src/detail/xml_config.cpp:121-205 | a document is cut after n characters into a piece if and only if these characters spell that piece: the text between `<![CDATA[` and the first `]]>`, a comment up to the first `-->`, an instruction, a tag with its name, or text up to the next `<` |
| `XmlSpelling.FailsExactly` | src/core/src/detail/xml_config.cpp:131-187 | where no piece can be cut, and with which error |
| `XmlMeaning.PiecesExactly` | src/core/src/detail/xml_config.cpp:116-205 | the pieces of a document are those that spell it |
| `XmlMeaning.RefusesExactly` | src/core/src/detail/xml_config.cpp:163-205 | which element or closing tag is refused after what was read, and with which error |
| `XmlMeaning.RefusesField` | src/core/src/detail/xml_config.cpp:207-230 | which field is refused, and with which error |
| `XmlMeaning.RunForest` | src/core/src/detail/xml_config.cpp:116-205 | scanning a properly nested forest adds exactly its fields and marks exactly its tags |
| `XmlMeaning.ParseForest` | src/core/src/detail/xml_config.cpp:116-205 | a scan that succeeds has seen a properly nested forest |
| `XmlMeaning.AcceptsExactlyForests` | src/core/src/detail/xml_config.cpp:116-231 | a document is accepted with given fields if and only if it is spelled, character by character, by the tags, texts, comments, CDATA sections and instructions of a forest in which each calibration tag occurs once, the display name at most once, and each field is the trimmed text and CDATA of its element, not empty and at most 128 characters |
| `XmlPieces.HeadLocal` | src/core/src/detail/xml_config.cpp:121-205 | a piece is decided by its own characters, text also by what ends it |
| `XmlComments.CommentInvariance` | src/core/src/detail/xml_config.cpp:131-138 | inserting a comment at any content position changes neither the fields nor which error is reported |
| `PluginLatch.NetFTHardware.constructor` | src/netft_hardware_interface.cpp:182-187 | an unconfigured plugin is dead: reads fail |
| `PluginLatch.NetFTHardware.ReadAxes` | src/netft_hardware_interface.cpp:327-361 | a read equals the read of the specification: buffer, latches, axes and answer |
| `PluginLatch.NetFTHardware.WriteAxes` | src/netft_hardware_interface.cpp:634-655 | values are written in order up to the first refused axis |
| `PluginLatch.NetFTHardware.InvalidateInterfaces` | src/netft_hardware_interface.cpp:657-666 | every axis whose write is accepted becomes NaN, the others keep their value |
| `PluginLatch.NetFTHardware.FaultLatched` | src/netft_hardware_interface.cpp:609-623 | a client's fault is copied into the latch unless an earlier fault is there |
| `PluginLatch.NetFTHardware.OnConfigure` | src/netft_hardware_interface.cpp:233-253 | configuring clears latches, buffer and generation and replaces the client |
| `PluginLatch.NetFTHardware.OnActivateBegin` | src/netft_hardware_interface.cpp:255-285 | activation up to its wait: handles, generation and client as specified, also when it fails |
| `PluginLatch.NetFTHardware.OnActivateEnd` | src/netft_hardware_interface.cpp:286-293 | activation succeeds exactly when the wait did, the client is not faulted and a sample was counted |
| `PluginLatch.NetFTHardware.OnCleanup` | src/netft_hardware_interface.cpp:309-325 | after cleanup there is no client and the axes are invalidated |
| `PluginLatch.NetFTHardware.OnAuxiliaryFailure` | src/netft_hardware_interface.cpp:530-541 | a failing auxiliary executor latches a callback fault unless one is latched |
| `PluginLatch.NetFTHardware.OnSample` | src/netft_hardware_interface.cpp:273-281 | a convertible sample is buffered and then counted; any other latches |
| `PluginLatch.LatchesHold` | src/netft_hardware_interface.cpp:609-623 | over any run of events without configuring, a dead plugin stays dead and a latched fault never changes |
| `PluginLatch.FailedReadLatches` | src/netft_hardware_interface.cpp:327-361 | a failed read leaves a latch behind, unless a null buffer pointer was all that was wrong: exactly then |
| `PluginLatch.ErrorsStay` | src/netft_hardware_interface.cpp:327-361 | once a read with a pointer in hand has failed, every later read fails until the plugin is configured, and every axis that was NaN after the failed read still is |
| `PluginLatch.DeadAxesStay` | src/netft_hardware_interface.cpp:327-361 | over any run of events without configuring, an axis of a dead plugin that is NaN stays NaN |
| `PluginLatch.NullPointerDoesNotLatch` | src/netft_hardware_interface.cpp:340-344 | a run from an unconfigured plugin to a read that fails on a null pointer alone and one after it that succeeds |
| `PluginLatch.FailedReadInvalidates` | src/netft_hardware_interface.cpp:344-358 | after a failed read an axis is NaN if and only if its write was accepted or it was NaN and not overwritten |
| `PluginLatch.RefusedAxisKeepsItsNumber` | src/netft_hardware_interface.cpp:657-666 | a run from an unconfigured plugin to a failed read that leaves a number on an axis whose invalidation is refused |
| `PluginLatch.OkReadExportsFreshSample` | src/netft_hardware_interface.cpp:327-361 | a read that succeeds exports the six finite values of one sample delivered since configuration and no older than the receive timeout, with nothing latched |
| `PluginLatch.ReadsMoveForward` | src/netft_hardware_interface.cpp:330-339 | successive reads see samples in their order of delivery |
| `PluginLatch.ActivationSawASample` | src/netft_hardware_interface.cpp:255-293 | an activation that succeeds saw a sample counted since it began and a client without fault |
| `PluginReads.ConfiguringRevives` | src/netft_hardware_interface.cpp:233-253 | whatever was latched, configuring clears every fault, the buffer and the count; the plugin is dead afterwards if and only if client or executor could not be made |
| `PluginReads.ReadSucceedsExactly` | src/netft_hardware_interface.cpp:233-361 | after configuring, a read succeeds if and only if no fault event and no failed read with a pointer in hand came since, the client has not faulted since it was started, the pointer is not null, a finite sample delivered since is in the slot within the timeout, and every write is accepted |
| `PluginReads.DeadExactly` | src/netft_hardware_interface.cpp:327-361 | and the plugin is dead if and only if one of those came since |
| `PluginReads.ReadFaultExactly` | src/netft_hardware_interface.cpp:327-361 | which fault a read leaves latched |
| `PluginReads.ActivatesExactly` | src/netft_hardware_interface.cpp:255-293 | an activation whose client starts succeeds if and only if the wait did, the client has not faulted since and a sample was counted since |
| `PluginReads.LeavingInvalidates` | src/netft_hardware_interface.cpp:295-325 | after deactivating, cleaning up or configuring an axis is NaN if and only if its write was accepted or it was before |
| `PluginReads.FailedActivationInvalidates` | src/netft_hardware_interface.cpp:286-293 | the same of an activation that fails at its end, and a successful one leaves the axes alone |
| `NameToken.IsRosNameToken` | src/netft_hardware_interface.cpp:144-156 | the loop decides whether a byte string is one ROS name token |
| `NameToken.CollisionSafeNameToken` | src/netft_hardware_interface.cpp:158-171 | the loop computes the encoding the lemmas are about |
| `NameToken.DecodeInvertsEncode` | src/netft_hardware_interface.cpp:158-171 | every byte string can be read back from its token |
| `NameToken.EncodeIsInjective` | src/netft_hardware_interface.cpp:158-171 | two names share a token exactly when they are equal |
| `NameToken.EncodeSpells` | src/netft_hardware_interface.cpp:158-171 | an encoded name is the prefix and two lower-case hexadecimal digits for each byte, in order |
| `NameToken.EncodeIsToken` | src/netft_hardware_interface.cpp:144-171 | ROS accepts the token of every name, the empty one included; a name is kept exactly when it is a token without the prefix |
| `NameToken.TokensOfNames` | src/netft_hardware_interface.cpp:158-171 | the tokens of names are exactly the plain ROS tokens without the prefix, and the prefix followed by lower-case hexadecimal of even length that does not spell such a token |
| `Diagnostics.DiagnosticEvaluator.Evaluate` | src/ros/diagnostics.cpp:72-191 | the level is the highest severity among all active conditions, the key is that of the first active one of that severity in the order of the source, and the stored counters are those of the last evaluation that was not faulted |
| `Diagnostics.DiagnosticEvaluator.Judge` | src/ros/diagnostics.cpp:142-190 | the chain of tests finds that maximum and that key |
| `Diagnostics.OneJudgement` | src/ros/diagnostics.cpp:115-190 | severities and order leave exactly one report for a snapshot |
| `Diagnostics.LevelExactly` | src/ros/diagnostics.cpp:115-190 | the level, from the snapshot alone: which states, faults, statuses, growths and rates make an error, which a warning |
| `Diagnostics.KeysAreTrue` | src/ros/diagnostics.cpp:115-190 | a key is given only when what it says is so |
| `Diagnostics.KeyIsFirstThatHolds` | src/ros/diagnostics.cpp:115-190 | and it is the first of the sixteen keys, in the order of the source, whose word holds |
| `Diagnostics.DiagnosticEvaluator.Create` | src/ros/diagnostics.cpp:61-70 | rates and tolerances outside their ranges are refused |
| `Diagnostics.DeltasTelescope` | src/ros/diagnostics.cpp:52-57 | over any run of snapshots, faulted ones included, reported growth equals the last stored counter plus all drops |
| `Diagnostics.DeltasAddUp` | src/ros/diagnostics.cpp:52-57 | with counters that never fall, reported growth adds up to the counter at the last evaluation that was not faulted |
| `Diagnostics.HealthyMeansQuiet` | src/ros/diagnostics.cpp:133-190 | level 0 means that no counter but the malformed one moved since the previous evaluation that was not faulted, and that one by less than ten |
| `Diagnostics.FaultLogThrottle.ShouldLog` | src/ros/diagnostics.cpp:202-219 | the answer and the stored fields are those of the throttle over the whole history of offers |
| `Diagnostics.ChangesAreLogged` | src/ros/diagnostics.cpp:208-215 | a report that starts an alarm or changes its level or key is logged |
| `Diagnostics.QuietEndsAlarm` | src/ros/diagnostics.cpp:202-207 | a report of level 0 is never logged and ends the alarm: the next one is logged |
| `Diagnostics.RepetitionIsLogged` | src/ros/diagnostics.cpp:208-215 | while one alarm lasts, it is logged again exactly when the interval has passed since its last log |

## Left out

- LifecycleSafety.StateMatchesLatch: leaves out the moment in a failed start's rollback when the data is restored and the latch is not yet.
- LifecycleSafety.FailedStartRestores: the fields that no statement here depends on are kept together as one value, `rest`.
- AcquisitionCore.Client.FailStart: is one method, with the health reads between its clearing and its restoring; its sections, and what waits and other starts make of them, are in the lifecycle model.
- AcquisitionCore.Client.Bias: whether a session is started and streams is an argument; the lifecycle model ties both to the session.
- PluginLatch.NetFTHardware.ReadAxes: is one step, ordered by its look at the latch; the buffer follows the documented behaviour of realtime_tools, whose code is not part of this model.
- Diagnostics.DiagnosticEvaluator.Evaluate: message texts and the key-value list are not modelled.
- Liveness: that a notified thread wakes up, that a stop returns, that data keeps flowing.
- Weak memory orders: atomics are taken to be sequentially consistent.
- Sockets, name resolution, polling, HTTP and the discovery of sensors: foreign calls, present only as results of the environment.
- The Windows transport: the same handshake over other system calls.
- Floating point: rounding, locales, number parsing and unit conversion; rates, limits and delays are real numbers, and a value that is not finite is a case of its own.
- Allocation failure and the overflow of 64-bit counters: counters are natural numbers.
- ROS nodes, publishers, services, plugin loading and launch files: wrappers around libraries.
- Parameter checks of the plugin and validation of client configurations: one test per field.
- Calibration numbers and unit names read from the extracted fields: a table and a library call per field.
