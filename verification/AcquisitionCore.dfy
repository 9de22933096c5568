/** The mutable record machine of src/core/src/detail/client_impl.cpp. Each lock-protected section is a method
    that updates the fields in place and appends its event to a ghost history; `Valid` says that the fields are
    functions of that history, so everything proved about legal histories holds of the object. */
module AcquisitionCore {
  import opened Words
  import opened Sequence
  import opened Protocol
  import opened Clock
  import opened RecordHistory
  import opened RateWindow
  import opened Session

  /** A reset tracker forgets that it has a baseline, not the word it last held. */
  predicate SameBaselineState(a: RdtState, b: RdtState) {
    a.hasLast == b.hasLast && (a.hasLast ==> a.previous == b.previous)
  }

  lemma SameObservation(a: RdtState, b: RdtState, current: u32)
    requires SameBaselineState(a, b)
    ensures RdtObservation(a, current) == RdtObservation(b, current)
    ensures SameBaselineState(RdtNext(a, current), RdtNext(b, current))
  {
  }

  class Client {
    const config: Config
    const rdtSequence: RdtSequenceTracker
    const ftSequence: FtSequenceTracker
    var health: Health
    var lastDeliveryAt: Time
    var receiveTimes: seq<Time>
    var deliveryTimes: seq<Time>
    var consecutiveMalformed: nat
    var fault: FaultCode
    ghost var history: seq<Event>

    ghost predicate Trackers()
      reads this`history, rdtSequence, ftSequence
    {
      && SameBaselineState(rdtSequence.State(), RdtRunOf(RdtArrivals(history)).tracker)
      && ftSequence.State() == FtStateOf(FtEvents(history))
    }

    ghost predicate Counters()
      reads this`history, this`health, this`consecutiveMalformed, this`lastDeliveryAt,
            this`receiveTimes, this`deliveryTimes
    {
      && health == HealthOf(config, history)
      && consecutiveMalformed == MalformedRun(history)
      && lastDeliveryAt == LastDelivery(history)
      && receiveTimes == Deque(Receipts, history)
      && deliveryTimes == Deque(Deliveries, history)
    }

    ghost predicate Valid()
      reads this`history, this`health, this`consecutiveMalformed, this`lastDeliveryAt,
            this`receiveTimes, this`deliveryTimes, rdtSequence, ftSequence
    {
      Trackers() && Counters()
    }

    constructor (config: Config)
      ensures Valid() && this.config == config && history == [] && fault == NoFault
      ensures fresh(rdtSequence) && fresh(ftSequence)
    {
      this.config := config;
      rdtSequence := new RdtSequenceTracker();
      ftSequence := new FtSequenceTracker();
      health := NO_HEALTH;
      lastDeliveryAt, receiveTimes, deliveryTimes, consecutiveMalformed := NEVER, [], [], 0;
      fault := NoFault;
      history := [];
    }

    // -------------------------------------------------------------- sections of start, bias and health

    /** A start that gets its thread: the data of the previous start goes, counters and trackers stay. */
    method Start()
      requires Valid()
      modifies this
      ensures Valid() && history == old(history) + [Started] && fault == NoFault
      ensures health == old(health)
    {
      Appended(history, Started);
      history := history + [Started];
      ClearStart();
    }

    method ClearStart()
      modifies this`lastDeliveryAt, this`fault, this`receiveTimes, this`deliveryTimes, this`consecutiveMalformed
      ensures lastDeliveryAt == NEVER && fault == NoFault && receiveTimes == [] && deliveryTimes == []
      ensures consecutiveMalformed == 0
    {
      lastDeliveryAt := NEVER;
      fault := NoFault;
      receiveTimes, deliveryTimes := [], [];
      consecutiveMalformed := 0;
    }

    /** A start that gets no thread: what it cleared is put back, and only the health reads that came in between, which
        found the times of no start, may have noticed. */
    method FailStart(readings: seq<Time>) returns (rates: seq<(nat, nat)>)
      requires Valid()
      modifies this
      ensures Valid() && history == old(history) + [StartFailed]
      ensures health == old(health) && lastDeliveryAt == old(lastDeliveryAt) && fault == old(fault)
      ensures receiveTimes == old(receiveTimes) && deliveryTimes == old(deliveryTimes)
      ensures consecutiveMalformed == old(consecutiveMalformed)
      ensures |rates| == |readings| && forall i :: 0 <= i < |rates| ==> rates[i] == (0, 0)
    {
      hide RdtArrivals, FtEvents, RdtRunOf, FtStateOf, HealthOf, MalformedRun, LastDelivery, Deque;
      AfterStartFailed(config, history);
      var previousFault, previousDelivery := fault, lastDeliveryAt;
      var previousReceipts, previousDeliveries, previousMalformed := receiveTimes, deliveryTimes, consecutiveMalformed;
      var previousHealth := health;
      ClearStart();
      rates := [];
      for i := 0 to |readings|
        modifies this`receiveTimes, this`deliveryTimes
        invariant receiveTimes == [] && deliveryTimes == [] && |rates| == i
        invariant forall j :: 0 <= j < i ==> rates[j] == (0, 0)
      {
        receiveTimes := PruneRateWindow(receiveTimes, readings[i]);
        deliveryTimes := PruneRateWindow(deliveryTimes, readings[i]);
        rates := rates + [(|receiveTimes|, |deliveryTimes|)];
      }
      lastDeliveryAt := previousDelivery;
      health := previousHealth;
      receiveTimes, deliveryTimes := previousReceipts, previousDeliveries;
      consecutiveMalformed := previousMalformed;
      fault := NoFault;
      if previousFault != NoFault {
        fault := previousFault;
      }
      history := history + [StartFailed];
    }

    method DropBaseline()
      requires Valid()
      modifies this`history, rdtSequence
      ensures Valid() && history == old(history) + [Biased]
    {
      Appended(history, Biased);
      history := history + [Biased];
      rdtSequence.Reset();
    }

    /** `bias`: refused without effect unless a session streams, and without effect on the baseline if the transport
        fails to send one of the two commands. */
    method Bias(stopping: bool, sessionStarted: bool, streaming: bool, biasSent: bool, startSent: bool)
      returns (ok: bool)
      requires Valid()
      modifies this`history, rdtSequence
      ensures Valid()
      ensures ok <==> && !stopping && sessionStarted && streaming && fault == NoFault
                      && biasSent && startSent
      ensures history == if ok then old(history) + [Biased] else old(history)
      ensures !ok ==> rdtSequence.State() == old(rdtSequence.State())
    {
      if stopping || !sessionStarted || fault != NoFault || !streaming {
        return false;
      }
      if !biasSent {
        return false;
      }
      if !startSent {
        return false;
      }
      DropBaseline();
      return true;
    }

    /** The rates of a snapshot are the true counts over the last second whenever the history is legal and the
        clock did not run backwards. */
    method ReadHealth(now: Time) returns (receiveRate: nat, deliveryRate: nat)
      requires Valid()
      modifies this`history, this`receiveTimes, this`deliveryTimes
      ensures Valid() && history == old(history) + [HealthRead(now)]
      ensures Legal(config, old(history)) && WellTimed(history) ==>
                && receiveRate == |InLastSecond(Times(Receipts, old(history)), now)|
                && deliveryRate == |InLastSecond(Times(Deliveries, old(history)), now)|
    {
      Appended(history, HealthRead(now));
      history := history + [HealthRead(now)];
      receiveTimes := PruneRateWindow(receiveTimes, now);
      deliveryTimes := PruneRateWindow(deliveryTimes, now);
      receiveRate, deliveryRate := |receiveTimes|, |deliveryTimes|;
      if Legal(config, old(history)) && WellTimed(history) {
        SnapshotRateIsWindowCount(config, Receipts, history);
        SnapshotRateIsWindowCount(config, Deliveries, history);
      }
    }

    /** What other threads do between two sections of the worker. */
    method Interlude(others: seq<Foreign>)
      requires Valid()
      modifies this`history, this`receiveTimes, this`deliveryTimes, rdtSequence
      ensures Valid() && history == old(history) + others
    {
      hide Trackers, Counters;
      var i := 0;
      while i < |others|
        invariant 0 <= i <= |others| && Valid()
        invariant history == old(history) + others[..i]
      {
        if others[i] == Biased {
          DropBaseline();
        } else {
          var receiveRate, deliveryRate := ReadHealth(others[i].now);
        }
        assert others[..i + 1] == others[..i] + [others[i]];
        i := i + 1;
      }
      assert others[..i] == others;
    }

    // -------------------------------------------------------------- sections of the worker

    method ApplyConfiguration(calibration: Calibration)
      requires Valid()
      modifies this`history, this`health
      ensures Valid() && history == old(history) + [Configured(calibration)]
      ensures health.configuration.Some? && health.configuration.value.calibration == calibration
    {
      Appended(history, Configured(calibration));
      history := history + [Configured(calibration)];
      if health.configuration.Some? {
        var previous := health.configuration.value;
        if previous.calibration != calibration {
          health := health.(configuration := Some(SensorConfiguration(calibration, previous.revision + 1)));
          health := health.(calibrationChange := health.calibrationChange + 1);
        }
      } else {
        health := health.(configuration := Some(SensorConfiguration(calibration, 1)));
      }
    }

    method BeginSession()
      requires Valid()
      modifies this`history, rdtSequence, ftSequence
      ensures Valid() && history == old(history) + [SessionBegan]
    {
      Appended(history, SessionBegan);
      assert FtEvents(history + [SessionBegan]) == FtEvents(history) + [SessionStarts];
      assert (FtEvents(history) + [SessionStarts])[..|FtEvents(history)|] == FtEvents(history);
      history := history + [SessionBegan];
      rdtSequence.Reset();
      ftSequence.BeginSession();
    }

    method CountTimeout()
      requires Valid()
      modifies this`history, this`health
      ensures Valid() && history == old(history) + [TimedOut]
      ensures health.configuration == old(health.configuration)
    {
      Appended(history, TimedOut);
      history := history + [TimedOut];
      health := health.(timeout := health.timeout + 1);
    }

    method CountBackoff()
      requires Valid()
      modifies this`history, this`health
      ensures Valid() && history == old(history) + [BackedOff]
      ensures health.configuration == old(health.configuration)
    {
      Appended(history, BackedOff);
      history := history + [BackedOff];
      health := health.(reconnect := health.reconnect + 1);
    }

    method CountMalformed() returns (storm: bool)
      requires Valid()
      modifies this`history, this`health, this`consecutiveMalformed
      ensures Valid() && history == old(history) + [MalformedSeen]
      ensures storm <==> MalformedRun(old(history)) + 1 >= MALFORMED_STORM_THRESHOLD
      ensures health.configuration == old(health.configuration)
    {
      Appended(history, MalformedSeen);
      history := history + [MalformedSeen];
      health := health.(malformed := health.malformed + 1);
      consecutiveMalformed := consecutiveMalformed + 1;
      storm := consecutiveMalformed >= MALFORMED_STORM_THRESHOLD;
    }

    method ClearMalformedRun()
      requires Valid()
      modifies this`history, this`consecutiveMalformed
      ensures Valid() && history == old(history) + [Decoded]
    {
      Appended(history, Decoded);
      history := history + [Decoded];
      consecutiveMalformed := 0;
    }

    /** Both trackers are told of a record, whatever becomes of it. */
    method ObserveSequences(record: RawRecord, ghost e: Event) returns (rdt: SequenceObservation, ft: FtKind)
      requires Trackers() && Arrives(e) && e.record == record
      modifies this`history, rdtSequence, ftSequence
      ensures Trackers() && history == old(history) + [e]
      ensures rdt == RdtSeen(old(history), record) && ft == FtSeen(old(history), record)
    {
      hide RdtObservation, RdtNext, FtObservation, FtNext;
      ghost var xs, es := RdtArrivals(history), FtEvents(history);
      Appended(history, e);
      assert RdtArrivals(history + [e]) == xs + [record.rdtSequence];
      assert FtEvents(history + [e]) == es + [Seen(record.ftSequence)];
      SameObservation(rdtSequence.State(), RdtRunOf(xs).tracker, record.rdtSequence);
      TrackersStep(xs, es, record);
      rdt := rdtSequence.Observe(record.rdtSequence);
      ft := ftSequence.Observe(record.ftSequence);
      history := history + [e];
    }

    /** The two sequence switches of `handle_record`. */
    method CountSequences(rdt: SequenceObservation, ft: FtKind) returns (inOrder: bool)
      requires rdt.kind != Gap ==> rdt.gap == 0
      modifies this`health
      ensures health == old(health).(lost := old(health).lost + rdt.gap,
                                     duplicate := old(health).duplicate + One(rdt.kind == Duplicate),
                                     outOfOrder := old(health).outOfOrder + One(rdt.kind == OutOfOrder),
                                     ftStall := old(health).ftStall + One(ft == FtStall),
                                     ftBackward := old(health).ftBackward + One(ft == FtBackward),
                                     ftRestart := old(health).ftRestart + One(ft == FtRestart))
      ensures inOrder <==> Advances(rdt)
    {
      inOrder := true;
      match rdt.kind {
        case Gap =>
          health := health.(lost := health.lost + rdt.gap);
        case Duplicate =>
          health := health.(duplicate := health.duplicate + 1);
          inOrder := false;
        case OutOfOrder =>
          health := health.(outOfOrder := health.outOfOrder + 1);
          inOrder := false;
        case First =>
        case Contiguous =>
      }
      match ft {
        case FtStall =>
          health := health.(ftStall := health.ftStall + 1);
        case FtBackward =>
          health := health.(ftBackward := health.ftBackward + 1);
        case FtRestart =>
          health := health.(ftRestart := health.ftRestart + 1);
        case FtFirst =>
        case FtForward =>
      }
    }

    /** The status and recovery-policy part of `handle_record`: what the record does to its session, and whether it
        may still be delivered. */
    method JudgeRecord(status: u32, ft: FtKind, inOrder: bool) returns (deliver: bool, outcome: Option<SessionResult>)
      modifies this`health
      ensures health == old(health).(warning := old(health).warning + One(ClassifyStatus(status) == Warn),
                                     deviceError := old(health).deviceError + One(ClassifyStatus(status) == Serious))
      ensures deliver <==> && inOrder && !Discontinuity(ft)
                           && (ClassifyStatus(status) == Serious ==> config.deliverWithErrorStatus)
      ensures outcome == if ClassifyStatus(status) == Serious then Some(Failed(SeriousStatusFault))
                         else if config.recoveryPolicy == Reconnect || !Discontinuity(ft) then None
                         else Some(Failed(if ft == FtStall then FtStallFault else FtBackwardFault))
    {
      deliver, outcome := inOrder, None;
      var severity := ClassifyStatus(status);
      if severity == Warn {
        health := health.(warning := health.warning + 1);
      } else if severity == Serious {
        health := health.(deviceError := health.deviceError + 1);
        deliver := config.deliverWithErrorStatus && deliver;
        outcome := Some(Failed(SeriousStatusFault));
      }
      if outcome.None? && ft == FtStall {
        outcome := Some(Failed(FtStallFault));
      } else if outcome.None? && ft == FtBackward {
        outcome := Some(Failed(FtBackwardFault));
      }
      if ft == FtStall || ft == FtBackward {
        deliver := false;
        if config.recoveryPolicy == Reconnect
           && (outcome == Some(Failed(FtStallFault)) || outcome == Some(Failed(FtBackwardFault))) {
          outcome := None;
        }
      }
    }

    /** What the first section of `handle_record` does under the data lock, with a configuration; `h` is the history
        before the record. */
    method CountAndJudge(record: RawRecord, at: Time, rdt: SequenceObservation, ft: FtKind, ghost h: seq<Event>)
      returns (deliver: bool, outcome: Option<SessionResult>)
      requires rdt == RdtSeen(h, record) && ft == FtSeen(h, record) && lastDeliveryAt == LastDelivery(h)
      modifies this`health, this`receiveTimes
      ensures health == CountRecord(config, h, old(health), record, at)
      ensures health.configuration == old(health.configuration)
      ensures receiveTimes == DropStale(old(receiveTimes) + [at], at)
      ensures deliver <==> Dispose(config, h, record, at) == Handed
      ensures outcome == ObservedOutcome(config, h, record)
    {
      hide RdtSeen, FtSeen, LastDelivery, DropStale, ClassifyStatus;
      RdtSeenGap(h, record);
      health := health.(received := health.received + 1);
      receiveTimes := receiveTimes + [at];
      receiveTimes := PruneRateWindow(receiveTimes, at);
      var inOrder := CountSequences(rdt, ft);
      deliver, outcome := JudgeRecord(record.status, ft, inOrder);
      if deliver && config.sampleRateLimitHz > 0.0 && lastDeliveryAt != NEVER
         && (at - lastDeliveryAt) as real / SECOND as real < 1.0 / config.sampleRateLimitHz {
        deliver := false;
        health := health.(rateLimited := health.rateLimited + 1);
      }
    }

    /** First section of `handle_record`. Without a configuration it throws, after telling the trackers. */
    method ObserveRecord(record: RawRecord, at: Time)
      returns (threw: bool, deliver: bool, outcome: Option<SessionResult>)
      requires Valid()
      modifies this`history, this`health, this`receiveTimes, rdtSequence, ftSequence
      ensures Valid() && history == old(history) + [if threw then Orphaned(record) else Observed(record, at)]
      ensures threw <==> old(health).configuration.None?
      ensures !threw ==> (deliver <==> Dispose(config, old(history), record, at) == Handed)
      ensures !threw ==> outcome == ObservedOutcome(config, old(history), record)
      ensures health.configuration == old(health.configuration)
    {
      hide Trackers, RdtSeen, FtSeen, HealthOf, MalformedRun, LastDelivery, Deque, CountRecord, DropStale, Dispose,
           ObservedOutcome;
      AfterObserved(config, history, record, at);
      AfterOrphaned(config, history, record);
      ghost var before := history;
      threw, deliver, outcome := health.configuration.None?, false, None;
      var rdt, ft := ObserveSequences(record, if threw then Orphaned(record) else Observed(record, at));
      if !threw {
        deliver, outcome := CountAndJudge(record, at, rdt, ft, before);
      }
    }

    /** Last section of `handle_record`, after the callback returned. */
    method FinishDelivery(at: Time)
      requires Valid()
      modifies this`history, this`health, this`lastDeliveryAt, this`deliveryTimes
      ensures Valid() && history == old(history) + [Delivered(at)]
      ensures health.configuration == old(health.configuration)
    {
      hide HealthOf, MalformedRun, LastDelivery, Deque, DropStale, RdtArrivals, FtEvents, RdtRunOf, FtStateOf;
      AfterDelivered(config, history, at);
      history := history + [Delivered(at)];
      lastDeliveryAt := at;
      health := health.(delivered := health.delivered + 1);
      deliveryTimes := deliveryTimes + [at];
      deliveryTimes := PruneRateWindow(deliveryTimes, at);
    }

    method RecordCallbackError()
      requires Valid()
      modifies this`history, this`health
      ensures Valid() && history == old(history) + [CallbackFailed]
      ensures health.configuration == old(health.configuration)
    {
      Appended(history, CallbackFailed);
      history := history + [CallbackFailed];
      health := health.(callbackError := health.callbackError + 1);
    }

    ghost method NoteConversionFailure()
      requires Valid()
      modifies this`history
      ensures Valid() && history == old(history) + [ConversionFailed]
    {
      Appended(history, ConversionFailed);
      history := history + [ConversionFailed];
    }

    /** `handle_record`, with whatever other threads do while the callback runs. */
    method HandleRecord(record: RawRecord, s: Reception, ghost later: Time) returns (end: Option<SessionEnd>)
      requires Valid() && s.Datagram?
      modifies this`history, this`health, this`receiveTimes, this`lastDeliveryAt, this`deliveryTimes,
               rdtSequence, ftSequence
      ensures Valid()
      ensures var t := TakeRecord(config, old(history), record, s, later);
              history == old(history) + t.events && end == t.end
      ensures health.configuration == old(health.configuration)
    {
      hide Trackers, Dispose, ObservedOutcome, HealthOf, MalformedRun, LastDelivery, Deque;
      var threw, deliver, outcome := ObserveRecord(record, s.at);
      if threw {
        return Some(Threw);
      }
      end := if outcome.Some? then Some(Returned(outcome.value)) else None;
      if !deliver {
        return;
      }
      if !s.finite {
        Interlude(s.during);
        NoteConversionFailure();
        return Some(Returned(Failed(SensorConfigurationFault)));
      }
      Interlude(s.during);
      if !s.callbackOk {
        RecordCallbackError();
        if outcome.Some? || config.recoveryPolicy == Reconnect {
          return;
        }
        return Some(Returned(Failed(CallbackFault)));
      }
      FinishDelivery(s.at);
    }

    // -------------------------------------------------------------- receive_session and run

    /** A datagram that arrived in time: it is decoded, moves the deadline and is handled. */
    method HandleDatagram(deadline: Time, s: Reception) returns (later: Time, end: Option<SessionEnd>, valid: bool)
      requires Valid() && s.Datagram?
      modifies this`history, this`health, this`receiveTimes, this`lastDeliveryAt, this`deliveryTimes,
               this`consecutiveMalformed, rdtSequence, ftSequence
      ensures Valid()
      ensures var t := TakeDatagram(config, old(history), deadline, s);
              && history == old(history) + t.events && later == t.deadline && end == t.end
              && (valid <==> Decoded in t.events)
      ensures health.configuration == old(health.configuration)
    {
      hide Trackers, Counters, TakeRecord, MalformedRun, DecodeRecord, CheckedDeadline;
      later, end, valid := deadline, None, false;
      if |s.data| == 0 {
        CountTimeout();
        return later, Some(Returned(Failed(TimeoutFault))), false;
      }
      var decoded := DecodeRecord(s.data);
      if decoded.None? {
        var storm := CountMalformed();
        return later, if storm then Some(Returned(Failed(MalformedStormFault))) else None, false;
      }
      ghost var was := history;
      ClearMalformedRun();
      var checked := CheckedDeadline(s.at, config.receiveTimeout);
      if checked.None? {
        return later, Some(Threw), true;
      }
      Interlude(s.between);
      ghost var before: seq<Event> := [Decoded] + s.between;
      assert history == was + before;
      ghost var t := TakeRecord(config, was + before, decoded.value, s, checked.value);
      end := HandleRecord(decoded.value, s, checked.value);
      TakeRecordKeepsDeadline(config, was + before, decoded.value, s, checked.value);
      assert history == was + (before + t.events);
      assert (before + t.events)[0] == Decoded;
      return checked.value, end, true;
    }

    /** One turn of the receive loop. */
    method ReceiveOnce(deadline: Time, step: Step) returns (later: Time, end: Option<SessionEnd>, valid: bool)
      requires Valid()
      modifies this`history, this`health, this`receiveTimes, this`lastDeliveryAt, this`deliveryTimes,
               this`consecutiveMalformed, rdtSequence, ftSequence
      ensures Valid()
      ensures var t := TakeTurn(config, old(history), deadline, step);
              && history == old(history) + t.events && later == t.deadline && end == t.end
              && (valid <==> Decoded in t.events)
      ensures health.configuration == old(health.configuration)
    {
      hide Trackers, Counters, TakeDatagram;
      Interlude(step.others);
      later, end, valid := deadline, None, false;
      if step.stopBefore {
        return later, Some(Returned(Stopped)), false;
      }
      if step.now >= deadline {
        if step.stopAfter {
          return later, Some(Returned(Stopped)), false;
        }
        CountTimeout();
        return later, Some(Returned(Failed(TimeoutFault))), false;
      }
      if step.reception.ReceiveFailed? {
        return later, Some(Returned(if step.stopAfter then Stopped else Failed(SocketFault))), false;
      }
      if step.stopAfter {
        return later, Some(Returned(Stopped)), false;
      }
      later, end, valid := HandleDatagram(deadline, step.reception);
    }

    method ReceiveSession(script: Script) returns (end: SessionEnd, receivedValid: bool)
      requires Valid()
      modifies this`history, this`health, this`receiveTimes, this`lastDeliveryAt, this`deliveryTimes,
               this`consecutiveMalformed, rdtSequence, ftSequence
      ensures Valid()
      ensures var run := RunSession(config, old(history), script);
              end == run.end && history == run.history && (receivedValid <==> run.valid > 0)
    {
      hide Trackers, Counters, TakeTurn, Receive, CheckedDeadline;
      receivedValid := false;
      Interlude(script.others);
      match script.opening {
        case StoppedAtEntry =>
          return Returned(Stopped), false;
        case DiscoveryFailed(stopSeen) =>
          return Returned(if stopSeen then Stopped else Failed(SensorConfigurationFault)), false;
        case StoppedAfterDiscovery(calibration) =>
          ApplyConfiguration(calibration);
          return Returned(Stopped), false;
        case ConnectFailed(calibration, stopSeen) =>
          ApplyConfiguration(calibration);
          return Returned(if stopSeen then Stopped else Failed(SocketFault)), false;
        case StoppedBeforeSend(calibration) =>
          ApplyConfiguration(calibration);
          return Returned(Stopped), false;
        case Opened(calibration, others, at) =>
          ApplyConfiguration(calibration);
          Interlude(others);
          BeginSession();
          var checked := CheckedDeadline(at, config.receiveTimeout);
          if checked.None? {
            return Threw, false;
          }
          end, receivedValid := ReceiveLoop(checked.value, script.steps);
      }
    }

    method ReceiveLoop(start: Time, steps: seq<Step>) returns (end: SessionEnd, receivedValid: bool)
      requires Valid()
      modifies this`history, this`health, this`receiveTimes, this`lastDeliveryAt, this`deliveryTimes,
               this`consecutiveMalformed, rdtSequence, ftSequence
      ensures Valid()
      ensures var run := Receive(config, old(history), start, steps, 0, 0, 0);
              end == run.end && history == run.history && (receivedValid <==> run.valid > 0)
    {
      hide Trackers, Counters, TakeTurn, Receive;
      receivedValid := false;
      var deadline := start;
      ghost var valid: nat, malformed: nat := 0, 0;
      var i := 0;
      while i < |steps|
        invariant 0 <= i <= |steps| && Valid()
        invariant receivedValid <==> valid > 0
        invariant Receive(config, history, deadline, steps[i..], valid, malformed, i)
                  == Receive(config, old(history), start, steps, 0, 0, 0)
      {
        ghost var t := TakeTurn(config, history, deadline, steps[i]);
        ReceiveUnfolds(config, history, deadline, steps[i..], valid, malformed, i);
        var ending, sawRecord;
        deadline, ending, sawRecord := ReceiveOnce(deadline, steps[i]);
        receivedValid := receivedValid || sawRecord;
        valid, malformed := valid + CountIn(t.events, Decoded), malformed + CountIn(t.events, MalformedSeen);
        if ending.Some? {
          return ending.value, receivedValid;
        }
        assert steps[i..][1..] == steps[i + 1..];
        i := i + 1;
      }
      ReceiveNothing(config, history, deadline, valid, malformed, i);
      end := Returned(Stopped);
    }

    /** `run` for one start: the waits between its sessions, and the fault it latches; the deadline of a wait may be
        one the clock cannot hold. */
    method Run(scripts: seq<Script>) returns (delays: seq<real>)
      requires Valid() && ValidConfig(config) && fault == NoFault
      modifies this, rdtSequence, ftSequence
      ensures Valid()
      ensures var run := RunClient(config, old(history), 0, scripts, [], 0);
              history == run.history && fault == run.latch && delays == run.delays
    {
      hide Trackers, Counters, RunSession, Delay, CheckedDeadline;
      DelayDoubles(config, 0);
      var backoff := config.reconnectInitialDelay;
      delays := [];
      ghost var failures := 0;
      var i := 0;
      while i < |scripts|
        invariant 0 <= i <= |scripts| && Valid() && fault == NoFault
        invariant backoff == Delay(config, failures)
        invariant RunClient(config, history, failures, scripts[i..], delays, i)
                  == RunClient(config, old(history), 0, scripts, [], 0)
      {
        var end, receivedValid := ReceiveSession(scripts[i]);
        var stopping := scripts[i].stopAtEnd;
        if end == Threw {
          if !stopping {
            fault := SocketFault;
          }
          return;
        }
        var result, wait := end.result, scripts[i].wait;
        if result.Failed? && config.recoveryPolicy == FailStop {
          fault := result.fault;
          return;
        }
        if result == Stopped || stopping {
          return;
        }
        if receivedValid {
          DelayDoubles(config, 0);
          backoff := config.reconnectInitialDelay;
          failures := 0;
        }
        Interlude(wait.others);
        CountBackoff();
        if CheckedDeadline(wait.at, backoff).None? {
          if !wait.stopSeen {
            fault := SocketFault;
          }
          return;
        }
        delays := delays + [backoff];
        DelayDoubles(config, failures);
        backoff := Smaller(backoff * 2.0, config.reconnectMaxDelay);
        failures := failures + 1;
        assert scripts[i..][1..] == scripts[i + 1..];
        i := i + 1;
      }
    }
  }

  lemma AfterObserved(cfg: Config, h: seq<Event>, r: RawRecord, at: Time)
    ensures var h' := h + [Observed(r, at)];
            && HealthOf(cfg, h') == CountRecord(cfg, h, HealthOf(cfg, h), r, at)
            && MalformedRun(h') == MalformedRun(h)
            && LastDelivery(h') == LastDelivery(h)
            && Deque(Receipts, h') == DropStale(Deque(Receipts, h) + [at], at)
            && Deque(Deliveries, h') == Deque(Deliveries, h)
  {
    hide CountRecord, DropStale;
    Appended(h, Observed(r, at));
  }

  lemma AfterDelivered(cfg: Config, h: seq<Event>, at: Time)
    ensures var h', b := h + [Delivered(at)], HealthOf(cfg, h);
            && HealthOf(cfg, h') == b.(delivered := b.delivered + 1)
            && MalformedRun(h') == MalformedRun(h)
            && LastDelivery(h') == at
            && Deque(Receipts, h') == Deque(Receipts, h)
            && Deque(Deliveries, h') == DropStale(Deque(Deliveries, h) + [at], at)
            && RdtArrivals(h') == RdtArrivals(h) && FtEvents(h') == FtEvents(h)
  {
    hide DropStale;
    Appended(h, Delivered(at));
  }

  lemma AfterStartFailed(cfg: Config, h: seq<Event>)
    ensures var h' := h + [StartFailed];
            && HealthOf(cfg, h') == HealthOf(cfg, h)
            && MalformedRun(h') == MalformedRun(h)
            && LastDelivery(h') == LastDelivery(h)
            && Deque(Receipts, h') == Deque(Receipts, h)
            && Deque(Deliveries, h') == Deque(Deliveries, h)
            && RdtArrivals(h') == RdtArrivals(h) && FtEvents(h') == FtEvents(h)
  {
    Appended(h, StartFailed);
  }

  lemma AfterOrphaned(cfg: Config, h: seq<Event>, r: RawRecord)
    ensures var h' := h + [Orphaned(r)];
            && HealthOf(cfg, h') == HealthOf(cfg, h)
            && MalformedRun(h') == MalformedRun(h)
            && LastDelivery(h') == LastDelivery(h)
            && Deque(Receipts, h') == Deque(Receipts, h)
            && Deque(Deliveries, h') == Deque(Deliveries, h)
  {
    Appended(h, Orphaned(r));
  }

  lemma TakeRecordKeepsDeadline(cfg: Config, g: seq<Event>, r: RawRecord, s: Reception, later: Time)
    requires s.Datagram?
    ensures TakeRecord(cfg, g, r, s, later).deadline == later
  {
    hide RecordEvents, RecordOutcome, HealthOf;
  }

  lemma RdtSeenGap(h: seq<Event>, r: RawRecord)
    ensures RdtSeen(h, r).kind != Gap ==> RdtSeen(h, r).gap == 0
  {
  }
}
