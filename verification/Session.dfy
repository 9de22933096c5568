/** What the worker's loops do to the history, as folds over what the environment hands them: sessions of
    `receive_session` and the reconnect loop of `run` (src/core/src/detail/client_impl.cpp:382-525, 588-667). The
    sections that other threads put between two sections of the worker are part of what is handed to it. */
module Session {
  import opened Sequence
  import opened Protocol
  import opened Clock
  import opened RecordHistory

  const MALFORMED_STORM_THRESHOLD := 10

  datatype FaultCode =
    | NoFault | SensorConfigurationFault | TimeoutFault | SocketFault | SeriousStatusFault
    | FtStallFault | FtBackwardFault | MalformedStormFault | CallbackFault

  /** The fault of a failed session is the one of the same name. */
  datatype SessionResult = Stopped | Failed(fault: FaultCode)

  /** A session returns a result, or lets the exception of an impossible deadline through to `run`. */
  datatype SessionEnd = Returned(result: SessionResult) | Threw

  /** One receive call: an error, or a datagram with what will become of its record: the clock reading after
      decoding, whether the scaled wrench is finite, whether the callback returns. Zero bytes stand for the
      transport's "nothing within the deadline", an empty datagram and a shut-down socket alike. `between` are
      sections of other threads before the record is observed, `during` those while its callback runs. */
  datatype Reception =
    | ReceiveFailed
    | Datagram(data: seq<byte>, at: Time, finite: bool, callbackOk: bool, between: seq<Foreign>, during: seq<Foreign>)

  /** One turn of the receive loop: the sections of other threads since the turn before, whether a stop is visible at
      its top, the clock, whether a stop is visible at one of the later checks, and the receive call. */
  datatype Step = Step(others: seq<Foreign>, stopBefore: bool, now: Time, stopAfter: bool, reception: Reception)

  // ---------------------------------------------------------------- one record

  /** The outcome fixed when the record is observed. */
  function ObservedOutcome(cfg: Config, h: seq<Event>, r: RawRecord): Option<SessionResult> {
    if ClassifyStatus(r.status) == Serious then Some(Failed(SeriousStatusFault))
    else if cfg.recoveryPolicy == Reconnect then None
    else if FtSeen(h, r) == FtStall then Some(Failed(FtStallFault))
    else if FtSeen(h, r) == FtBackward then Some(Failed(FtBackwardFault))
    else None
  }

  function Settle(finite: bool, callbackOk: bool, at: Time): Event {
    if !finite then ConversionFailed else if !callbackOk then CallbackFailed else Delivered(at)
  }

  function RecordEvents(cfg: Config, h: seq<Event>, r: RawRecord, at: Time, finite: bool, callbackOk: bool,
                        during: seq<Foreign>): seq<Event>
  {
    if Dispose(cfg, h, r, at) == Handed then [Observed(r, at)] + during + [Settle(finite, callbackOk, at)]
    else [Observed(r, at)]
  }

  function RecordOutcome(cfg: Config, h: seq<Event>, r: RawRecord, at: Time, finite: bool, callbackOk: bool)
    : Option<SessionResult>
  {
    var observed := ObservedOutcome(cfg, h, r);
    if Dispose(cfg, h, r, at) != Handed then observed
    else if !finite then Some(Failed(SensorConfigurationFault))
    else if !callbackOk && observed.None? && cfg.recoveryPolicy == FailStop then Some(Failed(CallbackFault))
    else observed
  }

  /** The order in which a record can fault a fail-stop client: a wrench that cannot be represented, then a
      serious status, then an FT discontinuity, and a failing callback last. */
  lemma FailStopPriority(cfg: Config, h: seq<Event>, r: RawRecord, at: Time, finite: bool, callbackOk: bool)
    requires cfg.recoveryPolicy == FailStop
    ensures var o := RecordOutcome(cfg, h, r, at, finite, callbackOk);
            var handed := Dispose(cfg, h, r, at) == Handed;
            var serious := ClassifyStatus(r.status) == Serious;
            && (o == Some(Failed(SensorConfigurationFault)) <==> handed && !finite)
            && (o == Some(Failed(SeriousStatusFault)) <==> serious && (handed ==> finite))
            && (o == Some(Failed(FtStallFault)) <==> !serious && FtSeen(h, r) == FtStall)
            && (o == Some(Failed(FtBackwardFault)) <==> !serious && FtSeen(h, r) == FtBackward)
            && (o == Some(Failed(CallbackFault)) <==> !serious && handed && finite && !callbackOk)
            && (o.None? <==> !serious && !Discontinuity(FtSeen(h, r)) && (handed ==> finite && callbackOk))
  {
  }

  /** A reconnecting client ends a session over a record only for a serious status or a wrench that cannot be
      represented: FT discontinuities and callback failures never do. */
  lemma ReconnectTolerates(cfg: Config, h: seq<Event>, r: RawRecord, at: Time, finite: bool, callbackOk: bool)
    requires cfg.recoveryPolicy == Reconnect
    ensures RecordOutcome(cfg, h, r, at, finite, callbackOk).None?
            <==> ClassifyStatus(r.status) != Serious && (Dispose(cfg, h, r, at) == Handed ==> finite)
    ensures RecordOutcome(cfg, h, r, at, finite, callbackOk) == Some(Failed(SensorConfigurationFault))
            <==> Dispose(cfg, h, r, at) == Handed && !finite
    ensures RecordOutcome(cfg, h, r, at, finite, callbackOk) == Some(Failed(SeriousStatusFault))
            <==> ClassifyStatus(r.status) == Serious && (Dispose(cfg, h, r, at) == Handed ==> finite)
  {
  }

  /** What is noted of a record: that it was observed, and for one that is handed over exactly one ending, a delivery
      only if its wrench is finite and the callback returned. */
  lemma RecordEventsExactly(cfg: Config, h: seq<Event>, r: RawRecord, at: Time, finite: bool, callbackOk: bool,
                            during: seq<Foreign>)
    ensures var es := RecordEvents(cfg, h, r, at, finite, callbackOk, during);
            var handed := Dispose(cfg, h, r, at) == Handed;
            && es != [] && es[0] == Observed(r, at)
            && (!handed ==> |es| == 1)
            && (handed ==> |es| == |during| + 2 && es[1..|es| - 1] == during
                           && (es[|es| - 1] == ConversionFailed <==> !finite)
                           && (es[|es| - 1] == CallbackFailed <==> finite && !callbackOk)
                           && (es[|es| - 1] == Delivered(at) <==> finite && callbackOk))
  {
    hide Dispose;
  }

  // ---------------------------------------------------------------- one turn of the receive loop

  datatype Turn = Turn(events: seq<Event>, deadline: Time, end: Option<SessionEnd>)

  function Stop(deadline: Time): Turn {
    Turn([], deadline, Some(Returned(Stopped)))
  }

  function Fail(events: seq<Event>, deadline: Time, f: FaultCode): Turn {
    Turn(events, deadline, Some(Returned(Failed(f))))
  }

  /** A record that was decoded, after `g`. */
  function TakeRecord(cfg: Config, g: seq<Event>, record: RawRecord, s: Reception, later: Time): Turn
    requires s.Datagram?
  {
    if HealthOf(cfg, g).configuration.None? then Turn([Orphaned(record)], later, Some(Threw))
    else
      var outcome := RecordOutcome(cfg, g, record, s.at, s.finite, s.callbackOk);
      Turn(RecordEvents(cfg, g, record, s.at, s.finite, s.callbackOk, s.during), later,
           if outcome.Some? then Some(Returned(outcome.value)) else None)
  }

  /** A datagram that arrived in time, after `g`. */
  function TakeDatagram(cfg: Config, g: seq<Event>, deadline: Time, s: Reception): Turn
    requires s.Datagram?
  {
    if s.data == [] then Fail([TimedOut], deadline, TimeoutFault)
    else match DecodeRecord(s.data)
      case None =>
        if MalformedRun(g) + 1 >= MALFORMED_STORM_THRESHOLD then Fail([MalformedSeen], deadline, MalformedStormFault)
        else Turn([MalformedSeen], deadline, None)
      case Some(record) =>
        match CheckedDeadline(s.at, cfg.receiveTimeout)
        case None => Turn([Decoded], deadline, Some(Threw))
        case Some(later) =>
          var before: seq<Event> := [Decoded] + s.between;
          var t := TakeRecord(cfg, g + before, record, s, later);
          t.(events := before + t.events)
  }

  /** What the worker does in a turn, after `g`. */
  function WorkTurn(cfg: Config, g: seq<Event>, deadline: Time, s: Step): Turn {
    if s.stopBefore then Stop(deadline)
    else if s.now >= deadline then
      if s.stopAfter then Stop(deadline) else Fail([TimedOut], deadline, TimeoutFault)
    else if s.reception.ReceiveFailed? then
      if s.stopAfter then Stop(deadline) else Fail([], deadline, SocketFault)
    else if s.stopAfter then Stop(deadline)
    else TakeDatagram(cfg, g, deadline, s.reception)
  }

  function TakeTurn(cfg: Config, h: seq<Event>, deadline: Time, s: Step): Turn {
    var t := WorkTurn(cfg, h + s.others, deadline, s);
    t.(events := s.others + t.events)
  }

  /** A datagram of zero bytes is taken for silence: nothing tells its turn from one in which the deadline passed. */
  lemma ZeroBytesAreSilence(cfg: Config, h: seq<Event>, deadline: Time, s: Step)
    requires s.reception.Datagram? && s.reception.data == []
    ensures TakeTurn(cfg, h, deadline, s) == TakeTurn(cfg, h, deadline, s.(now := deadline))
    ensures DecodeRecord(s.reception.data).None?
    ensures !s.stopBefore && !s.stopAfter ==>
              TakeTurn(cfg, h, deadline, s) == Fail(s.others + [TimedOut], deadline, TimeoutFault)
  {
    hide MalformedRun, CheckedDeadline;
  }

  /** Only a valid record moves the deadline, and malformed datagrams leave everything but their counters alone. */
  lemma OnlyRecordsMoveDeadline(cfg: Config, h: seq<Event>, deadline: Time, s: Step)
    ensures var t := TakeTurn(cfg, h, deadline, s);
            t.deadline != deadline ==> s.reception.Datagram? && DecodeRecord(s.reception.data).Some?
                                       && CheckedDeadline(s.reception.at, cfg.receiveTimeout) == Some(t.deadline)
    ensures var t := TakeTurn(cfg, h, deadline, s);
            MalformedSeen in t.events ==> t.events == s.others + [MalformedSeen] && t.deadline == deadline
  {
    hide Dispose, RecordOutcome, HealthOf, MalformedRun, DecodeRecord, CheckedDeadline;
  }

  /** A whole datagram arrived in time and no stop was seen. */
  predicate Arrived(deadline: Time, s: Step) {
    !s.stopBefore && !s.stopAfter && s.now < deadline && s.reception.Datagram? && s.reception.data != []
  }

  /** A record arrived, and there is a deadline for the next. */
  predicate GoesOn(cfg: Config, deadline: Time, s: Step) {
    Arrived(deadline, s) && |s.reception.data| == 36 && CheckedDeadline(s.reception.at, cfg.receiveTimeout).Some?
  }

  /** When and how a turn ends its session, and when it does not. */
  lemma TurnEndsExactly(cfg: Config, h: seq<Event>, deadline: Time, s: Step)
    ensures var t := TakeTurn(cfg, h, deadline, s);
            var stopped := s.stopBefore || s.stopAfter;
            var silent := s.now >= deadline || (s.reception.Datagram? && s.reception.data == []);
            var record := Arrived(deadline, s) && |s.reception.data| == 36;
            && (t.end == Some(Returned(Stopped)) <==> stopped)
            && (t.end == Some(Returned(Failed(TimeoutFault))) <==> !stopped && silent)
            && (t.end == Some(Returned(Failed(SocketFault)))
                <==> !stopped && s.now < deadline && s.reception.ReceiveFailed?)
            && (t.end == Some(Returned(Failed(MalformedStormFault)))
                <==> Arrived(deadline, s) && |s.reception.data| != 36 && MalformedRun(h) >= 9)
            && (t.end == Some(Threw)
                <==> record && (!GoesOn(cfg, deadline, s) || HealthOf(cfg, h).configuration.None?))
            && (t.end.None? ==> Arrived(deadline, s))
  {
    hide RecordEvents, RecordOutcome, MalformedRun, HealthOf, CheckedDeadline, DecodeRecord;
    ForeignKeeps(cfg, h, s.others);
    if s.reception.Datagram? {
      EncodeInvertsDecode(s.reception.data);
      RecordCanOnly(cfg, h + s.others + ([Decoded] + s.reception.between), s.reception);
      DecodedKeeps(cfg, h + s.others, s.reception.between);
    }
  }

  lemma RecordCanOnly(cfg: Config, g: seq<Event>, s: Reception)
    requires s.Datagram?
    ensures forall r, later ::
              var t := TakeRecord(cfg, g, r, s, later);
              && (t.end == Some(Threw) <==> HealthOf(cfg, g).configuration.None?)
              && t.end !in {Some(Returned(Stopped)), Some(Returned(Failed(TimeoutFault))),
                            Some(Returned(Failed(SocketFault))), Some(Returned(Failed(MalformedStormFault)))}
              && t.deadline == later
  {
    hide RecordEvents, Dispose, HealthOf;
  }

  lemma DecodedKeeps(cfg: Config, g: seq<Event>, between: seq<Foreign>)
    ensures HealthOf(cfg, g + ([Decoded] + between)) == HealthOf(cfg, g)
  {
    Appended(g, Decoded);
    ForeignKeeps(cfg, g + [Decoded], between);
    assert g + ([Decoded] + between) == g + [Decoded] + between;
  }

  /** Which deadline the next turn has, what a turn counts, and what a record that arrives in a session that goes on
      leads to. */
  lemma TurnCountsExactly(cfg: Config, h: seq<Event>, deadline: Time, s: Step)
    ensures var t := TakeTurn(cfg, h, deadline, s);
            && t.deadline == (if GoesOn(cfg, deadline, s)
                              then CheckedDeadline(s.reception.at, cfg.receiveTimeout).value else deadline)
            && (TimedOut in t.events <==> t.end == Some(Returned(Failed(TimeoutFault))))
            && (MalformedSeen in t.events <==> Arrived(deadline, s) && |s.reception.data| != 36)
            && (Decoded in t.events <==> Arrived(deadline, s) && |s.reception.data| == 36)
    ensures GoesOn(cfg, deadline, s) ==>
              var t := TakeTurn(cfg, h, deadline, s);
              var before := h + s.others + ([Decoded] + s.reception.between);
              && DecodeRecord(s.reception.data).Some?
              && t == TakeRecord(cfg, before, DecodeRecord(s.reception.data).value, s.reception, t.deadline).(
                        events := t.events)
              && h + t.events == before + TakeRecord(cfg, before, DecodeRecord(s.reception.data).value, s.reception,
                                                     t.deadline).events
  {
    hide RecordOutcome, MalformedRun, HealthOf, CheckedDeadline, DecodeRecord, TakeRecord;
    if s.reception.Datagram? {
      EncodeInvertsDecode(s.reception.data);
      var g := h + s.others + ([Decoded] + s.reception.between);
      RecordCanOnly(cfg, g, s.reception);
      RecordCountsNothing(cfg, g, s.reception);
    }
  }

  lemma RecordCountsNothing(cfg: Config, g: seq<Event>, s: Reception)
    requires s.Datagram?
    ensures forall r, later ::
              var es := TakeRecord(cfg, g, r, s, later).events; TimedOut !in es && MalformedSeen !in es && Decoded !in es
  {
    hide Dispose, RecordOutcome, HealthOf;
  }

  function CountIn(events: seq<Event>, e: Event): nat {
    One(e in events)
  }

  datatype SessionRun = SessionRun(history: seq<Event>, end: SessionEnd, valid: nat, malformed: nat, turns: nat)

  /** The receive loop. A script that runs out stands for a stop seen at the top of the loop. */
  function Receive(cfg: Config, h: seq<Event>, deadline: Time, steps: seq<Step>, valid: nat, malformed: nat, turns: nat)
    : SessionRun
    decreases |steps|
  {
    if steps == [] then SessionRun(h, Returned(Stopped), valid, malformed, turns)
    else
      var t := TakeTurn(cfg, h, deadline, steps[0]);
      var valid', malformed' := valid + CountIn(t.events, Decoded), malformed + CountIn(t.events, MalformedSeen);
      match t.end
      case Some(end) => SessionRun(h + t.events, end, valid', malformed', turns + 1)
      case None => Receive(cfg, h + t.events, t.deadline, steps[1..], valid', malformed', turns + 1)
  }

  lemma ReceiveNothing(cfg: Config, h: seq<Event>, deadline: Time, valid: nat, malformed: nat, turns: nat)
    ensures Receive(cfg, h, deadline, [], valid, malformed, turns)
            == SessionRun(h, Returned(Stopped), valid, malformed, turns)
  {
  }

  lemma ReceiveUnfolds(cfg: Config, h: seq<Event>, deadline: Time, steps: seq<Step>, valid: nat, malformed: nat, turns: nat)
    requires steps != []
    ensures var t := TakeTurn(cfg, h, deadline, steps[0]);
            var v, m := valid + CountIn(t.events, Decoded), malformed + CountIn(t.events, MalformedSeen);
            Receive(cfg, h, deadline, steps, valid, malformed, turns) ==
            if t.end.Some? then SessionRun(h + t.events, t.end.value, v, m, turns + 1)
            else Receive(cfg, h + t.events, t.deadline, steps[1..], v, m, turns + 1)
  {
    hide TakeTurn, CountIn;
  }

  // ----- the fatal event of a trace, stated without the loop

  /** No turn of the script ends the session. */
  predicate Quiet(cfg: Config, h: seq<Event>, deadline: Time, steps: seq<Step>)
    decreases |steps|
  {
    steps == [] ||
    (var t := TakeTurn(cfg, h, deadline, steps[0]);
     t.end.None? && Quiet(cfg, h + t.events, t.deadline, steps[1..]))
  }

  /** History and deadline after a script none of whose turns ended the session. */
  function After(cfg: Config, h: seq<Event>, deadline: Time, steps: seq<Step>): (seq<Event>, Time)
    decreases |steps|
  {
    if steps == [] then (h, deadline)
    else
      var t := TakeTurn(cfg, h, deadline, steps[0]);
      After(cfg, h + t.events, t.deadline, steps[1..])
  }

  /** Turn `i` is the one that ends the session. */
  predicate EndsAt(cfg: Config, h: seq<Event>, deadline: Time, steps: seq<Step>, i: nat) {
    && i < |steps|
    && Quiet(cfg, h, deadline, steps[..i])
    && (var (g, d) := After(cfg, h, deadline, steps[..i]); TakeTurn(cfg, g, d, steps[i]).end.Some?)
  }

  /** The loop stops at the first turn that ends the session, with that turn's result and with no event after it;
      in particular no callback runs after a fatal record. */
  lemma {:induction false} StopsAtFirstEnd(cfg: Config, h: seq<Event>, deadline: Time, steps: seq<Step>, i: nat,
                                           valid: nat, malformed: nat, turns: nat)
    requires EndsAt(cfg, h, deadline, steps, i)
    ensures var (g, d) := After(cfg, h, deadline, steps[..i]);
            var t := TakeTurn(cfg, g, d, steps[i]);
            var run := Receive(cfg, h, deadline, steps, valid, malformed, turns);
            Some(run.end) == t.end && run.history == g + t.events && run.turns == turns + i + 1
    decreases |steps|
  {
    hide TakeTurn, CountIn, Receive;
    ReceiveUnfolds(cfg, h, deadline, steps, valid, malformed, turns);
    if i > 0 {
      var t := TakeTurn(cfg, h, deadline, steps[0]);
      assert steps[..i][1..] == steps[1..][..i - 1];
      StopsAtFirstEnd(cfg, h + t.events, t.deadline, steps[1..], i - 1,
                      valid + CountIn(t.events, Decoded), malformed + CountIn(t.events, MalformedSeen), turns + 1);
    } else {
      assert steps[..0] == [];
    }
  }

  /** Either some turn ends the session, or the script runs out and the session was stopped. */
  lemma {:induction false} QuietRunsOut(cfg: Config, h: seq<Event>, deadline: Time, steps: seq<Step>,
                                        valid: nat, malformed: nat, turns: nat) returns (i: nat)
    ensures Quiet(cfg, h, deadline, steps) ==>
              Receive(cfg, h, deadline, steps, valid, malformed, turns).end == Returned(Stopped)
    ensures !Quiet(cfg, h, deadline, steps) ==> EndsAt(cfg, h, deadline, steps, i)
    decreases |steps|
  {
    hide TakeTurn, CountIn, Receive;
    if steps == [] {
      ReceiveNothing(cfg, h, deadline, valid, malformed, turns);
      return 0;
    }
    ReceiveUnfolds(cfg, h, deadline, steps, valid, malformed, turns);
    var t := TakeTurn(cfg, h, deadline, steps[0]);
    if t.end.Some? {
      assert steps[..0] == [];
      return 0;
    }
    var j := QuietRunsOut(cfg, h + t.events, t.deadline, steps[1..],
                          valid + CountIn(t.events, Decoded), malformed + CountIn(t.events, MalformedSeen), turns + 1);
    i := j + 1;
    if !Quiet(cfg, h, deadline, steps) {
      assert steps[..i][1..] == steps[1..][..j];
    }
  }

  // ----- malformed datagrams

  function Less(a: int, b: int): int {
    if a < b then a else b
  }

  /** A session that accepts v valid records consumes at most 9 v + 10 malformed datagrams, fewer if it starts
      inside a malformed run, and so ends within 10 v + 11 turns. */
  lemma {:induction false} MalformedBudget(cfg: Config, h: seq<Event>, deadline: Time, steps: seq<Step>,
                                           valid: nat, malformed: nat, turns: nat)
    ensures var run := Receive(cfg, h, deadline, steps, valid, malformed, turns);
            && run.valid >= valid && run.malformed >= malformed
            && run.malformed - malformed <= 9 * (run.valid - valid) + 10 - Less(MalformedRun(h), 9)
            && run.turns - turns <= (run.valid - valid) + (run.malformed - malformed) + 1
    decreases |steps|
  {
    hide TakeTurn, MalformedRun, Receive;
    if steps == [] {
      ReceiveNothing(cfg, h, deadline, valid, malformed, turns);
      return;
    }
    var t := TakeTurn(cfg, h, deadline, steps[0]);
    TurnCost(cfg, h, deadline, steps[0]);
    ReceiveUnfolds(cfg, h, deadline, steps, valid, malformed, turns);
    if t.end.None? {
      MalformedBudget(cfg, h + t.events, t.deadline, steps[1..],
                      valid + CountIn(t.events, Decoded), malformed + CountIn(t.events, MalformedSeen), turns + 1);
    }
  }

  /** What a turn costs: a valid record clears the run, a malformed datagram extends it and survives below the
      threshold only, and every turn that does not end the session is one of the two. */
  lemma TurnCost(cfg: Config, h: seq<Event>, deadline: Time, s: Step)
    ensures var t := TakeTurn(cfg, h, deadline, s); var c := MalformedRun(h);
            && (MalformedSeen in t.events ==> Decoded !in t.events && MalformedRun(h + t.events) == c + 1
                                              && (t.end.None? ==> c + 1 < MALFORMED_STORM_THRESHOLD))
            && (Decoded in t.events ==> MalformedSeen !in t.events && MalformedRun(h + t.events) == 0)
            && (t.end.None? ==> MalformedSeen in t.events || Decoded in t.events)
  {
    hide TakeRecord, MalformedRun, DecodeRecord, CheckedDeadline;
    var t := TakeTurn(cfg, h, deadline, s);
    var g := h + s.others;
    ForeignKeeps(cfg, h, s.others);
    if s.reception.Datagram? && DecodeRecord(s.reception.data).Some? {
      RecordIsQuiet(cfg, g + ([Decoded] + s.reception.between), DecodeRecord(s.reception.data).value, s.reception, 0);
    }
    if MalformedSeen in t.events {
      assert t.events == s.others + [MalformedSeen];
      assert h + t.events == g + [MalformedSeen];
      OneMoreMalformed(g);
    } else if Decoded in t.events {
      ClearedBy(h, t.events);
    }
  }

  lemma OneMoreMalformed(g: seq<Event>)
    ensures MalformedRun(g + [MalformedSeen]) == MalformedRun(g) + 1
  {
    Appended(g, MalformedSeen);
  }

  /** Observing a record touches the malformed run no more. */
  predicate LeavesRun(es: seq<Event>) {
    MalformedSeen !in es && Decoded !in es && Started !in es
  }

  lemma RecordIsQuiet(cfg: Config, g: seq<Event>, r: RawRecord, s: Reception, later: Time)
    requires s.Datagram?
    ensures forall later :: LeavesRun(TakeRecord(cfg, g, r, s, later).events)
  {
    hide Dispose, RecordOutcome, HealthOf;
  }

  lemma {:induction false} ClearedBy(h: seq<Event>, es: seq<Event>)
    requires MalformedSeen !in es && Decoded in es
    ensures MalformedRun(h + es) == 0
  {
    var n := |es| - 1;
    assert h + es == (h + es[..n]) + [es[n]];
    Appended(h + es[..n], es[n]);
    if es[n] != Decoded {
      assert Decoded in es[..n] by {
        var i :| 0 <= i < |es| && es[i] == Decoded;
        assert es[..n][i] == Decoded;
      }
      ClearedBy(h, es[..n]);
    }
  }

  // ---------------------------------------------------------------- sessions and the reconnect loop

  /** How a session opens; the stop flags are what the worker reads when an operation failed. */
  datatype Opening =
    | StoppedAtEntry
    | DiscoveryFailed(stopSeen: bool)
    | StoppedAfterDiscovery(calibration: Calibration)
    | ConnectFailed(calibration: Calibration, stopSeen: bool)
    | StoppedBeforeSend(calibration: Calibration)
    | Opened(calibration: Calibration, others: seq<Foreign>, at: Time)

  /** The wait after a failed session: the sections of other threads before it, the clock, and whether a stop is seen
      if its deadline does not exist. */
  datatype Wait = Wait(others: seq<Foreign>, at: Time, stopSeen: bool)

  /** One session as the environment plays it, whether `run` sees a stop after it, and the wait. */
  datatype Script = Script(others: seq<Foreign>, opening: Opening, steps: seq<Step>, stopAtEnd: bool, wait: Wait)

  function Refused(h: seq<Event>, stopSeen: bool, f: FaultCode): SessionRun {
    SessionRun(h, Returned(if stopSeen then Stopped else Failed(f)), 0, 0, 0)
  }

  /** The history when the receive loop begins. */
  function OpenedHistory(h: seq<Event>, script: Script): seq<Event>
    requires script.opening.Opened?
  {
    h + script.others + [Configured(script.opening.calibration)] + script.opening.others + [SessionBegan]
  }

  function RunSession(cfg: Config, h: seq<Event>, script: Script): SessionRun {
    var g := h + script.others;
    match script.opening
    case StoppedAtEntry => Refused(g, true, NoFault)
    case DiscoveryFailed(stopSeen) => Refused(g, stopSeen, SensorConfigurationFault)
    case StoppedAfterDiscovery(c) => Refused(g + [Configured(c)], true, NoFault)
    case ConnectFailed(c, stopSeen) => Refused(g + [Configured(c)], stopSeen, SocketFault)
    case StoppedBeforeSend(c) => Refused(g + [Configured(c)], true, NoFault)
    case Opened(_, _, at) =>
      match CheckedDeadline(at, cfg.receiveTimeout)
      case None => SessionRun(OpenedHistory(h, script), Threw, 0, 0, 0)
      case Some(deadline) => Receive(cfg, OpenedHistory(h, script), deadline, script.steps, 0, 0, 0)
  }

  function Pow2(k: nat): nat {
    if k == 0 then 1 else 2 * Pow2(k - 1)
  }

  function Smaller(a: real, b: real): real {
    if a < b then a else b
  }

  /** The wait after the k-th fruitless session in a row. */
  function Delay(cfg: Config, k: nat): real {
    Smaller(cfg.reconnectInitialDelay * Pow2(k) as real, cfg.reconnectMaxDelay)
  }

  /** A duration the clock can hold, of at least one tick. */
  predicate SafeDuration(seconds: real) {
    match CheckedDuration(seconds)
    case None => false
    case Some(ticks) => ticks > 0
  }

  /** What construction checks of a configuration, but for the clock at that moment. */
  predicate ValidConfig(cfg: Config) {
    && cfg.sampleRateLimitHz >= 0.0
    && SafeDuration(cfg.receiveTimeout) && SafeDuration(cfg.reconnectInitialDelay) && SafeDuration(cfg.reconnectMaxDelay)
    && cfg.reconnectInitialDelay <= cfg.reconnectMaxDelay
  }

  /** With the clock: each duration must have a deadline from now on. */
  predicate AcceptedAt(cfg: Config, now: Time) {
    && ValidConfig(cfg)
    && CheckedDeadline(now, cfg.receiveTimeout).Some?
    && CheckedDeadline(now, cfg.reconnectInitialDelay).Some? && CheckedDeadline(now, cfg.reconnectMaxDelay).Some?
  }

  lemma InitialIsPositive(cfg: Config)
    requires ValidConfig(cfg)
    ensures 0.0 < cfg.reconnectInitialDelay <= cfg.reconnectMaxDelay
  {
  }

  /** Doubling under the cap walks through exactly these waits. */
  lemma DelayDoubles(cfg: Config, k: nat)
    requires ValidConfig(cfg)
    ensures Smaller(Delay(cfg, k) * 2.0, cfg.reconnectMaxDelay) == Delay(cfg, k + 1)
    ensures Delay(cfg, 0) == cfg.reconnectInitialDelay
  {
    hide ValidConfig;
    InitialIsPositive(cfg);
    var a := cfg.reconnectInitialDelay;
    assert a * Pow2(k + 1) as real == (a * Pow2(k) as real) * 2.0;
  }

  datatype ClientRun = ClientRun(history: seq<Event>, latch: FaultCode, delays: seq<real>, sessions: nat)

  /** The fault that an end leaves behind when the client does not reconnect. */
  function FaultOf(end: SessionEnd, stopSeen: bool): FaultCode {
    match end
    case Threw => if stopSeen then NoFault else SocketFault
    case Returned(Stopped) => NoFault
    case Returned(Failed(f)) => f
  }

  /** The loop of `run`; `failures` counts the sessions in a row that saw no valid record. */
  function RunClient(cfg: Config, h: seq<Event>, failures: nat, scripts: seq<Script>, delays: seq<real>, sessions: nat)
    : ClientRun
    decreases |scripts|
  {
    if scripts == [] then ClientRun(h, NoFault, delays, sessions)
    else
      var script := scripts[0];
      var s := RunSession(cfg, h, script);
      if s.end.Threw? || s.end.result.Stopped? || cfg.recoveryPolicy == FailStop then
        ClientRun(s.history, FaultOf(s.end, script.stopAtEnd), delays, sessions + 1)
      else if script.stopAtEnd then ClientRun(s.history, NoFault, delays, sessions + 1)
      else
        var k := if s.valid > 0 then 0 else failures;
        var g := s.history + script.wait.others + [BackedOff];
        if CheckedDeadline(script.wait.at, Delay(cfg, k)).None? then
          ClientRun(g, FaultOf(Threw, script.wait.stopSeen), delays, sessions + 1)
        else RunClient(cfg, g, k + 1, scripts[1..], delays + [Delay(cfg, k)], sessions + 1)
  }

  lemma RunNothing(cfg: Config, h: seq<Event>, failures: nat, delays: seq<real>, sessions: nat)
    ensures RunClient(cfg, h, failures, [], delays, sessions) == ClientRun(h, NoFault, delays, sessions)
  {
  }

  /** A fail-stop client never waits and runs exactly one session, or none if its worker sees a stop before the first.
      What it latches is decided by the opening; once the session receives, by the first turn of the trace that ends it,
      and after that turn nothing happens. */
  lemma FailStopLatchesFirstFault(cfg: Config, h: seq<Event>, scripts: seq<Script>) returns (i: nat)
    requires cfg.recoveryPolicy == FailStop
    ensures scripts == [] ==> RunClient(cfg, h, 0, scripts, [], 0) == ClientRun(h, NoFault, [], 0)
    ensures scripts != [] ==>
            var run := RunClient(cfg, h, 0, scripts, [], 0);
            var script := scripts[0];
            && run.sessions == 1 && run.delays == []
            && match script.opening
               case StoppedAtEntry => run.latch == NoFault
               case StoppedAfterDiscovery(_) => run.latch == NoFault
               case StoppedBeforeSend(_) => run.latch == NoFault
               case DiscoveryFailed(stopSeen) => run.latch == if stopSeen then NoFault else SensorConfigurationFault
               case ConnectFailed(_, stopSeen) => run.latch == if stopSeen then NoFault else SocketFault
               case Opened(_, _, at) =>
                 var g := OpenedHistory(h, script);
                 match CheckedDeadline(at, cfg.receiveTimeout)
                 case None => run.history == g && run.latch == FaultOf(Threw, script.stopAtEnd)
                 case Some(deadline) => LatchesFirst(cfg, g, deadline, script, i, run)
  {
    hide TakeTurn, Quiet, EndsAt, Receive, CheckedDeadline, Delay, OpenedHistory, LatchesFirst;
    i := 0;
    if scripts == [] {
      return;
    }
    var script := scripts[0];
    if script.opening.Opened? {
      match CheckedDeadline(script.opening.at, cfg.receiveTimeout)
      case None =>
      case Some(deadline) =>
        i := LatchesFirstTurn(cfg, OpenedHistory(h, script), deadline, script, RunClient(cfg, h, 0, scripts, [], 0));
    }
  }

  /** The run ended with turn `i` of a script, or found none that ends the session. */
  predicate LatchesFirst(cfg: Config, g: seq<Event>, deadline: Time, script: Script, i: nat, run: ClientRun) {
    if Quiet(cfg, g, deadline, script.steps) then run.latch == NoFault
    else
      && EndsAt(cfg, g, deadline, script.steps, i)
      && (var (g', d') := After(cfg, g, deadline, script.steps[..i]);
          var t := TakeTurn(cfg, g', d', script.steps[i]);
          run.history == g' + t.events && run.latch == FaultOf(t.end.value, script.stopAtEnd))
  }

  lemma LatchesFirstTurn(cfg: Config, g: seq<Event>, deadline: Time, script: Script, run: ClientRun) returns (i: nat)
    requires var s := Receive(cfg, g, deadline, script.steps, 0, 0, 0);
             run.history == s.history && run.latch == FaultOf(s.end, script.stopAtEnd)
    ensures LatchesFirst(cfg, g, deadline, script, i, run)
  {
    hide TakeTurn, Quiet, After, Receive;
    i := QuietRunsOut(cfg, g, deadline, script.steps, 0, 0, 0);
    if !Quiet(cfg, g, deadline, script.steps) {
      StopsAtFirstEnd(cfg, g, deadline, script.steps, i, 0, 0, 0);
    }
  }

  predicate Overflows(cfg: Config, at: Time) {
    CheckedDeadline(at, cfg.receiveTimeout).None?
  }

  /** Some clock reading of the script is too late for a deadline, be it a datagram's or the longest wait's. */
  predicate ClockRunsOut(cfg: Config, script: Script) {
    SessionClockRunsOut(cfg, script) || CheckedDeadline(script.wait.at, cfg.reconnectMaxDelay).None?
  }

  predicate SessionClockRunsOut(cfg: Config, script: Script) {
    || (script.opening.Opened? && Overflows(cfg, script.opening.at))
    || (exists i :: 0 <= i < |script.steps| && script.steps[i].reception.Datagram?
                    && Overflows(cfg, script.steps[i].reception.at))
  }

  predicate HasConfiguration(cfg: Config, h: seq<Event>) {
    HealthOf(cfg, h).configuration.Some?
  }

  /** A configuration stays. */
  lemma ConfigurationStays(cfg: Config, h: seq<Event>, es: seq<Event>)
    requires HasConfiguration(cfg, h)
    ensures HasConfiguration(cfg, h + es)
  {
    hide HealthOf;
    assert (h + es)[..|h|] == h;
    CountersMonotone(cfg, h + es, |h|);
  }

  /** With a configuration a turn throws only if the deadline after its record does not exist. */
  lemma TurnThrows(cfg: Config, h: seq<Event>, deadline: Time, s: Step)
    requires HasConfiguration(cfg, h) && TakeTurn(cfg, h, deadline, s).end == Some(Threw)
    ensures s.reception.Datagram? && Overflows(cfg, s.reception.at)
  {
    hide HasConfiguration, RecordEvents, RecordOutcome, MalformedRun, DecodeRecord, CheckedDeadline;
    ConfigurationStays(cfg, h, s.others);
    if s.reception.Datagram? {
      ConfigurationStays(cfg, h + s.others, [Decoded] + s.reception.between);
      RecordThrows(cfg, h + s.others + ([Decoded] + s.reception.between), s.reception);
    }
  }

  lemma RecordThrows(cfg: Config, g: seq<Event>, s: Reception)
    requires s.Datagram? && HasConfiguration(cfg, g)
    ensures forall r, later :: TakeRecord(cfg, g, r, s, later).end != Some(Threw)
  {
    hide RecordEvents, RecordOutcome;
  }

  lemma {:induction false} ThrowNeedsOverflow(cfg: Config, h: seq<Event>, deadline: Time, steps: seq<Step>,
                                              valid: nat, malformed: nat, turns: nat)
    requires HasConfiguration(cfg, h) && steps != []
    requires Receive(cfg, h, deadline, steps, valid, malformed, turns).end == Threw
    ensures exists i :: 0 <= i < |steps| && steps[i].reception.Datagram? && Overflows(cfg, steps[i].reception.at)
    decreases |steps|
  {
    hide Receive, CountIn, TakeTurn, HasConfiguration, Overflows;
    ReceiveUnfolds(cfg, h, deadline, steps, valid, malformed, turns);
    var t := TakeTurn(cfg, h, deadline, steps[0]);
    if t.end == Some(Threw) {
      TurnThrows(cfg, h, deadline, steps[0]);
    } else {
      var rest := steps[1..];
      var v, m := valid + CountIn(t.events, Decoded), malformed + CountIn(t.events, MalformedSeen);
      if rest == [] {
        ReceiveNothing(cfg, h + t.events, t.deadline, v, m, turns + 1);
      }
      ConfigurationStays(cfg, h, t.events);
      ThrowNeedsOverflow(cfg, h + t.events, t.deadline, rest, v, m, turns + 1);
      var i :| 0 <= i < |rest| && rest[i].reception.Datagram? && Overflows(cfg, rest[i].reception.at);
      assert steps[i + 1] == rest[i];
    }
  }

  lemma OpenedIsConfigured(cfg: Config, h: seq<Event>, script: Script)
    requires script.opening.Opened?
    ensures HasConfiguration(cfg, OpenedHistory(h, script))
  {
    var g := h + script.others + [Configured(script.opening.calibration)];
    Appended(h + script.others, Configured(script.opening.calibration));
    assert HasConfiguration(cfg, g);
    hide HasConfiguration;
    ConfigurationStays(cfg, g, script.opening.others);
    ConfigurationStays(cfg, g + script.opening.others, [SessionBegan]);
  }

  /** An exception leaves a session only if one of its deadlines does not exist: in a session there is always a
      configuration. */
  lemma SessionThrowNeedsOverflow(cfg: Config, h: seq<Event>, script: Script)
    ensures RunSession(cfg, h, script).end == Threw ==> SessionClockRunsOut(cfg, script)
  {
    hide Receive, CheckedDeadline, OpenedHistory, HasConfiguration;
    if script.opening.Opened? && RunSession(cfg, h, script).end == Threw {
      var g, at := OpenedHistory(h, script), script.opening.at;
      if CheckedDeadline(at, cfg.receiveTimeout).Some? {
        var deadline := CheckedDeadline(at, cfg.receiveTimeout).value;
        if script.steps == [] {
          ReceiveNothing(cfg, g, deadline, 0, 0, 0);
        }
        OpenedIsConfigured(cfg, h, script);
        ThrowNeedsOverflow(cfg, g, deadline, script.steps, 0, 0, 0);
      }
    }
  }

  lemma DelayWithin(cfg: Config, k: nat)
    requires ValidConfig(cfg)
    ensures 0.0 <= Delay(cfg, k) <= cfg.reconnectMaxDelay
  {
    hide ValidConfig;
    InitialIsPositive(cfg);
    assert cfg.reconnectInitialDelay * Pow2(k) as real >= 0.0;
  }

  /** If the longest wait has a deadline, so has every other. */
  lemma ShorterWaits(at: Time, shorter: real, longer: real)
    requires 0.0 <= shorter <= longer && CheckedDeadline(at, longer).Some?
    ensures CheckedDeadline(at, shorter).Some?
  {
    assert shorter * SECOND as real <= longer * SECOND as real;
  }

  /** A reconnecting client never latches a session's failure; only a clock at the end of its range can fault it, in a
      session or in the wait after one, and then as a socket fault. */
  lemma {:induction false} ReconnectNeverLatches(cfg: Config, h: seq<Event>, failures: nat, scripts: seq<Script>,
                                                 delays: seq<real>, sessions: nat)
    requires cfg.recoveryPolicy == Reconnect && ValidConfig(cfg)
    ensures var latch := RunClient(cfg, h, failures, scripts, delays, sessions).latch;
            && latch in {NoFault, SocketFault}
            && (latch != NoFault ==> exists i :: 0 <= i < |scripts| && ClockRunsOut(cfg, scripts[i]))
    decreases |scripts|
  {
    hide RunSession, SessionClockRunsOut, CheckedDeadline, Delay, ValidConfig;
    if scripts == [] {
      RunNothing(cfg, h, failures, delays, sessions);
    } else {
      var script := scripts[0];
      var s := RunSession(cfg, h, script);
      SessionThrowNeedsOverflow(cfg, h, script);
      if s.end.Returned? && s.end.result.Failed? && !script.stopAtEnd {
        var k := if s.valid > 0 then 0 else failures;
        DelayWithin(cfg, k);
        if CheckedDeadline(script.wait.at, cfg.reconnectMaxDelay).Some? {
          ShorterWaits(script.wait.at, Delay(cfg, k), cfg.reconnectMaxDelay);
        }
        var g := s.history + script.wait.others + [BackedOff];
        ReconnectNeverLatches(cfg, g, k + 1, scripts[1..], delays + [Delay(cfg, k)], sessions + 1);
        if i :| 0 <= i < |scripts[1..]| && ClockRunsOut(cfg, scripts[1..][i]) {
          assert scripts[i + 1] == scripts[1..][i];
        }
      } else {
        assert scripts[0] == script;
      }
    }
  }

  // ---------------------------------------------------------------- the worker's histories are legal

  predicate Settled(cfg: Config, h: seq<Event>) {
    Legal(cfg, h) && InFlight(cfg, h).None?
  }

  lemma Extends(cfg: Config, h: seq<Event>, e: Event)
    requires Settled(cfg, h) && !e.Observed? && !Completes(e)
    ensures Settled(cfg, h + [e])
  {
    hide Dispose;
    Appended(h, e);
  }

  lemma ForeignSettles(cfg: Config, h: seq<Event>, others: seq<Foreign>)
    requires Settled(cfg, h)
    ensures Settled(cfg, h + others)
  {
    hide Legal, InFlight;
    ForeignKeeps(cfg, h, others);
  }

  lemma HandedFlies(cfg: Config, h: seq<Event>, r: RawRecord, at: Time)
    requires Settled(cfg, h)
    ensures var a := h + [Observed(r, at)];
            Legal(cfg, a) && InFlight(cfg, a) == if Dispose(cfg, h, r, at) == Handed then Some(at) else None
  {
    hide Dispose;
    Appended(h, Observed(r, at));
  }

  lemma Completed(cfg: Config, h: seq<Event>, e: Event)
    requires Legal(cfg, h) && InFlight(cfg, h).Some? && Completes(e)
    requires e.Delivered? ==> InFlight(cfg, h) == Some(e.at)
    ensures Settled(cfg, h + [e])
  {
    hide Dispose;
    Appended(h, e);
  }

  lemma HandedSettles(cfg: Config, a: seq<Event>, at: Time, during: seq<Foreign>, e: Event)
    requires Legal(cfg, a) && InFlight(cfg, a) == Some(at) && Completes(e) && (e.Delivered? ==> e.at == at)
    ensures Settled(cfg, a + during + [e])
  {
    hide Legal, InFlight, Settled;
    ForeignKeeps(cfg, a, during);
    Completed(cfg, a + during, e);
  }

  lemma Regroup(h: seq<Event>, a: Event, during: seq<Event>, e: Event)
    ensures h + ([a] + during + [e]) == h + [a] + during + [e]
  {
  }

  /** Whatever other threads do while the callback runs, the record is finished before the worker goes on. */
  lemma RecordSettles(cfg: Config, h: seq<Event>, r: RawRecord, at: Time, finite: bool, callbackOk: bool,
                      during: seq<Foreign>)
    requires Settled(cfg, h)
    ensures Settled(cfg, h + RecordEvents(cfg, h, r, at, finite, callbackOk, during))
  {
    hide Dispose, Legal, InFlight;
    HandedFlies(cfg, h, r, at);
    if Dispose(cfg, h, r, at) == Handed {
      hide Settled;
      var e := Settle(finite, callbackOk, at);
      HandedSettles(cfg, h + [Observed(r, at)], at, during, e);
      Regroup(h, Observed(r, at), during, e);
    }
  }

  lemma DatagramSettles(cfg: Config, g: seq<Event>, deadline: Time, s: Reception)
    requires Settled(cfg, g) && s.Datagram?
    ensures Settled(cfg, g + TakeDatagram(cfg, g, deadline, s).events)
  {
    hide Settled, RecordEvents, RecordOutcome, MalformedRun, DecodeRecord, CheckedDeadline, HealthOf;
    Extends(cfg, g, TimedOut);
    Extends(cfg, g, MalformedSeen);
    Extends(cfg, g, Decoded);
    if DecodeRecord(s.data).Some? && CheckedDeadline(s.at, cfg.receiveTimeout).Some? {
      var r, later := DecodeRecord(s.data).value, CheckedDeadline(s.at, cfg.receiveTimeout).value;
      var before: seq<Event> := [Decoded] + s.between;
      ForeignSettles(cfg, g + [Decoded], s.between);
      assert g + [Decoded] + s.between == g + before;
      RecordSettles(cfg, g + before, r, s.at, s.finite, s.callbackOk, s.during);
      Extends(cfg, g + before, Orphaned(r));
      var es := TakeRecord(cfg, g + before, r, s, later).events;
      assert (g + before) + es == g + (before + es);
    }
  }

  lemma TurnSettles(cfg: Config, h: seq<Event>, deadline: Time, s: Step)
    requires Settled(cfg, h)
    ensures Settled(cfg, h + TakeTurn(cfg, h, deadline, s).events)
  {
    hide Settled, TakeDatagram;
    var g := h + s.others;
    ForeignSettles(cfg, h, s.others);
    assert g + [] == g;
    Extends(cfg, g, TimedOut);
    if s.reception.Datagram? {
      DatagramSettles(cfg, g, deadline, s.reception);
    }
    var es := WorkTurn(cfg, g, deadline, s).events;
    assert g + es == h + (s.others + es);
  }

  lemma {:induction false} ReceiveSettles(cfg: Config, h: seq<Event>, deadline: Time, steps: seq<Step>,
                                          valid: nat, malformed: nat, turns: nat)
    requires Settled(cfg, h)
    ensures Settled(cfg, Receive(cfg, h, deadline, steps, valid, malformed, turns).history)
    decreases |steps|
  {
    hide Settled, TakeTurn, CountIn, Receive;
    if steps == [] {
      ReceiveNothing(cfg, h, deadline, valid, malformed, turns);
      return;
    }
    var t := TakeTurn(cfg, h, deadline, steps[0]);
    TurnSettles(cfg, h, deadline, steps[0]);
    ReceiveUnfolds(cfg, h, deadline, steps, valid, malformed, turns);
    if t.end.None? {
      ReceiveSettles(cfg, h + t.events, t.deadline, steps[1..],
                     valid + CountIn(t.events, Decoded), malformed + CountIn(t.events, MalformedSeen), turns + 1);
    }
  }

  lemma SessionSettles(cfg: Config, h: seq<Event>, script: Script)
    requires Settled(cfg, h)
    ensures Settled(cfg, RunSession(cfg, h, script).history)
  {
    hide Settled, Receive, CheckedDeadline;
    var g := h + script.others;
    ForeignSettles(cfg, h, script.others);
    if script.opening.Opened? || script.opening.StoppedAfterDiscovery? || script.opening.ConnectFailed?
       || script.opening.StoppedBeforeSend? {
      var c := script.opening.calibration;
      Extends(cfg, g, Configured(c));
      if script.opening.Opened? {
        ForeignSettles(cfg, g + [Configured(c)], script.opening.others);
        Extends(cfg, g + [Configured(c)] + script.opening.others, SessionBegan);
        if CheckedDeadline(script.opening.at, cfg.receiveTimeout).Some? {
          ReceiveSettles(cfg, OpenedHistory(h, script),
                         CheckedDeadline(script.opening.at, cfg.receiveTimeout).value, script.steps, 0, 0, 0);
        }
      }
    }
  }

  /** Whatever the environment does, and whatever sections of other threads come between those of the worker, one start
      leaves a legal history behind. */
  lemma {:induction false} RunSettles(cfg: Config, h: seq<Event>, failures: nat, scripts: seq<Script>,
                                      delays: seq<real>, sessions: nat)
    requires Settled(cfg, h)
    ensures Settled(cfg, RunClient(cfg, h, failures, scripts, delays, sessions).history)
    decreases |scripts|
  {
    hide RunSession, Delay, Settled, CheckedDeadline;
    if scripts == [] {
      RunNothing(cfg, h, failures, delays, sessions);
    } else {
      var script := scripts[0];
      var s := RunSession(cfg, h, script);
      SessionSettles(cfg, h, script);
      ForeignSettles(cfg, s.history, script.wait.others);
      Extends(cfg, s.history + script.wait.others, BackedOff);
      var k := if s.valid > 0 then 0 else failures;
      RunSettles(cfg, s.history + script.wait.others + [BackedOff], k + 1, scripts[1..], delays + [Delay(cfg, k)],
                 sessions + 1);
    }
  }

  /** One start of a client: what other threads did since the worker of the start before was gone, and its sessions; or
      a start that gets no thread. */
  datatype Life = Life(others: seq<Foreign>, scripts: seq<Script>) | NoThread(others: seq<Foreign>)

  /** A whole life: start after start. */
  function Lived(cfg: Config, starts: seq<Life>): seq<Event> {
    if starts == [] then []
    else
      var n := |starts| - 1;
      var h := Lived(cfg, starts[..n]) + starts[n].others;
      match starts[n]
      case Life(_, scripts) => RunClient(cfg, h + [Started], 0, scripts, [], 0).history
      case NoThread(_) => h + [StartFailed]
  }

  /** Conservation, order and rates hold over every whole life: its history is legal, with nothing in flight. */
  lemma {:induction false} LivesAreLegal(cfg: Config, starts: seq<Life>)
    ensures Settled(cfg, Lived(cfg, starts))
  {
    hide Settled, RunClient;
    if starts == [] {
      NothingSettles(cfg);
    } else {
      var n := |starts| - 1;
      var h := Lived(cfg, starts[..n]);
      LivesAreLegal(cfg, starts[..n]);
      ForeignSettles(cfg, h, starts[n].others);
      Extends(cfg, h + starts[n].others, StartFailed);
      if starts[n].Life? {
        Extends(cfg, h + starts[n].others, Started);
        RunSettles(cfg, h + starts[n].others + [Started], 0, starts[n].scripts, [], 0);
      }
    }
  }

  lemma NothingSettles(cfg: Config)
    ensures Settled(cfg, [])
  {
  }
}
