/** When a client that reconnects can be faulted: only at the end of the clock's range, and exactly when. */
module ReconnectFaults {
  import opened Protocol
  import opened Clock
  import opened RecordHistory
  import opened Session

  /** All readings of a script lie at or before `last`. */
  predicate ReadsUpTo(script: Script, last: Time) {
    && script.wait.at <= last
    && (script.opening.Opened? ==> script.opening.at <= last)
    && forall i :: 0 <= i < |script.steps| ==> StepUpTo(script.steps[i], last)
  }

  predicate StepUpTo(step: Step, last: Time) {
    step.now <= last && (step.reception.Datagram? ==> step.reception.at <= last)
  }

  predicate UpTo(scripts: seq<Script>, last: Time) {
    forall i :: 0 <= i < |scripts| ==> ReadsUpTo(scripts[i], last)
  }

  function LatchOf(cfg: Config, h: seq<Event>, scripts: seq<Script>): FaultCode {
    RunClient(cfg, h, 0, scripts, [], 0).latch
  }

  /** Some start with all its clock readings at or before `last` ends with a fault. */
  ghost predicate CanFault(cfg: Config, h: seq<Event>, last: Time) {
    exists scripts :: UpTo(scripts, last) && LatchOf(cfg, h, scripts) != NoFault
  }

  // ---------------------------------------------------------------- deadlines that do not exist

  lemma LaterHasNone(a: Time, b: Time, seconds: real)
    requires a <= b && CheckedDeadline(a, seconds).None?
    ensures CheckedDeadline(b, seconds).None?
  {
  }

  lemma OverflowBefore(cfg: Config, script: Script, last: Time)
    requires ReadsUpTo(script, last) && ClockRunsOut(cfg, script)
    ensures CheckedDeadline(last, cfg.receiveTimeout).None? || CheckedDeadline(last, cfg.reconnectMaxDelay).None?
  {
    hide CheckedDeadline;
    if CheckedDeadline(script.wait.at, cfg.reconnectMaxDelay).None? {
      LaterHasNone(script.wait.at, last, cfg.reconnectMaxDelay);
    } else if script.opening.Opened? && Overflows(cfg, script.opening.at) {
      LaterHasNone(script.opening.at, last, cfg.receiveTimeout);
    } else {
      var i :| 0 <= i < |script.steps| && script.steps[i].reception.Datagram?
               && Overflows(cfg, script.steps[i].reception.at);
      assert StepUpTo(script.steps[i], last);
      LaterHasNone(script.steps[i].reception.at, last, cfg.receiveTimeout);
    }
  }

  // ---------------------------------------------------------------- waits, one after the other

  lemma DelayHasTicks(cfg: Config, k: nat)
    requires ValidConfig(cfg)
    ensures CheckedDuration(Delay(cfg, k)).Some?
  {
    hide Delay;
    DelayWithin(cfg, k);
    assert Delay(cfg, k) * SECOND as real <= cfg.reconnectMaxDelay * SECOND as real;
  }

  /** The ticks of the k-th wait in a row, and of all before it. */
  function Ticks(cfg: Config, k: nat): nat
    requires ValidConfig(cfg)
  {
    DelayHasTicks(cfg, k);
    CheckedDuration(Delay(cfg, k)).value
  }

  function Waited(cfg: Config, k: nat): nat
    requires ValidConfig(cfg)
  {
    if k == 0 then 0 else Waited(cfg, k - 1) + Ticks(cfg, k - 1)
  }

  lemma WaitEnds(cfg: Config, at: Time, k: nat)
    requires ValidConfig(cfg) && CheckedDeadline(at, Delay(cfg, k)).Some?
    ensures CheckedDeadline(at, Delay(cfg, k)) == Some(at + Ticks(cfg, k))
  {
    hide Delay;
  }

  lemma Pow2Grows(k: nat)
    ensures Pow2(k) > k
  {
  }

  /** Doubling reaches the longest wait. */
  lemma LongestWait(cfg: Config) returns (k: nat)
    requires ValidConfig(cfg)
    ensures Delay(cfg, k) == cfg.reconnectMaxDelay
  {
    hide ValidConfig, Pow2;
    InitialIsPositive(cfg);
    k := PowerAbove(cfg.reconnectInitialDelay, cfg.reconnectMaxDelay);
  }

  lemma PowerAbove(a: real, b: real) returns (k: nat)
    requires 0.0 < a <= b
    ensures a * Pow2(k) as real >= b
  {
    hide Pow2;
    var q := b / a;
    assert q * a == b;
    assert q > 0.0;
    k := q.Floor;
    Pow2Grows(k);
    assert Pow2(k) as real >= q;
    TimesGrows(a, q, Pow2(k) as real);
  }

  lemma TimesGrows(a: real, x: real, y: real)
    requires 0.0 < a && x <= y
    ensures x * a <= a * y
  {
  }

  // ---------------------------------------------------------------- a clock that runs

  /** Every reading of a session in order: the opening's, then each turn's. */
  function StepReadings(steps: seq<Step>): seq<Time> {
    if steps == [] then []
    else
      var r := steps[0].reception;
      [steps[0].now] + (if r.Datagram? then [r.at] else []) + StepReadings(steps[1..])
  }

  function Readings(script: Script): seq<Time> {
    (if script.opening.Opened? then [script.opening.at] else []) + StepReadings(script.steps)
  }

  /** The clock does not run backwards, from one time to another. */
  predicate Runs(from: Time, readings: seq<Time>, to: Time) {
    && (forall i :: 0 <= i < |readings| ==> from <= readings[i] <= to)
    && (forall i, j :: 0 <= i < j < |readings| ==> readings[i] <= readings[j])
  }

  /** Whether a session is followed by a wait. */
  predicate Waits(s: SessionRun, script: Script) {
    s.end.Returned? && s.end.result.Failed? && !script.stopAtEnd
  }

  /** A start on a clock that runs from `from` and is not read after `last`: no wait ends before its deadline. */
  predicate Clocked(cfg: Config, h: seq<Event>, failures: nat, scripts: seq<Script>, from: Time, last: Time)
    decreases |scripts|
  {
    scripts == [] ||
    (var script := scripts[0];
     var s := RunSession(cfg, h, script);
     && Runs(from, Readings(script), last)
     && (Waits(s, script) ==>
           var k := if s.valid > 0 then 0 else failures;
           var at := script.wait.at;
           && Runs(from, Readings(script) + [at], last)
           && match CheckedDeadline(at, Delay(cfg, k))
              case None => true
              case Some(deadline) =>
                Clocked(cfg, s.history + script.wait.others + [BackedOff], k + 1, scripts[1..], deadline, last)))
  }

  /** The same for a client whose clock reads `from` when its worker begins and runs from there. */
  ghost predicate CanFaultInTime(cfg: Config, h: seq<Event>, from: Time, last: Time) {
    exists scripts :: Clocked(cfg, h, 0, scripts, from, last) && LatchOf(cfg, h, scripts) != NoFault
  }

  /** After `k` waits in a row there is still time for one without a deadline. */
  predicate RunsOutAfter(cfg: Config, from: Time, last: Time, k: nat)
    requires ValidConfig(cfg)
  {
    from + Waited(cfg, k) <= last && CheckedDeadline(last, Delay(cfg, k)).None?
  }

  lemma {:induction false} StepReadingsHave(steps: seq<Step>, i: nat)
    requires i < |steps| && steps[i].reception.Datagram?
    ensures steps[i].reception.at in StepReadings(steps)
  {
    if i > 0 {
      assert steps[1..][i - 1] == steps[i];
      StepReadingsHave(steps[1..], i - 1);
    }
  }

  lemma InRun(from: Time, readings: seq<Time>, to: Time, t: Time)
    requires Runs(from, readings, to) && t in readings
    ensures from <= t <= to
  {
  }

  /** A session that throws on a running clock does so for want of a receive deadline. */
  lemma SessionRunsOut(cfg: Config, h: seq<Event>, script: Script, from: Time, last: Time)
    requires Runs(from, Readings(script), last) && RunSession(cfg, h, script).end == Threw
    ensures from <= last && CheckedDeadline(last, cfg.receiveTimeout).None?
  {
    hide RunSession, CheckedDeadline, Runs, StepReadings;
    SessionThrowNeedsOverflow(cfg, h, script);
    var at: Time;
    if script.opening.Opened? && Overflows(cfg, script.opening.at) {
      at := script.opening.at;
    } else {
      var i :| 0 <= i < |script.steps| && script.steps[i].reception.Datagram?
               && Overflows(cfg, script.steps[i].reception.at);
      StepReadingsHave(script.steps, i);
      at := script.steps[i].reception.at;
    }
    InRun(from, Readings(script), last, at);
    LaterHasNone(at, last, cfg.receiveTimeout);
  }

  lemma NoWaitNoFault(cfg: Config, h: seq<Event>, failures: nat, scripts: seq<Script>, delays: seq<real>, sessions: nat)
    requires cfg.recoveryPolicy == Reconnect && scripts != []
    requires var s := RunSession(cfg, h, scripts[0]); s.end.Returned? && !Waits(s, scripts[0])
    ensures RunClient(cfg, h, failures, scripts, delays, sessions).latch == NoFault
  {
    hide RunSession, CheckedDeadline, Delay;
  }

  lemma WaitUnfolds(cfg: Config, h: seq<Event>, failures: nat, scripts: seq<Script>, delays: seq<real>, sessions: nat)
    requires cfg.recoveryPolicy == Reconnect && scripts != [] && Waits(RunSession(cfg, h, scripts[0]), scripts[0])
    ensures var script := scripts[0];
            var s := RunSession(cfg, h, script);
            var k := if s.valid > 0 then 0 else failures;
            var g := s.history + script.wait.others + [BackedOff];
            RunClient(cfg, h, failures, scripts, delays, sessions).latch ==
            if CheckedDeadline(script.wait.at, Delay(cfg, k)).None? then FaultOf(Threw, script.wait.stopSeen)
            else RunClient(cfg, g, k + 1, scripts[1..], delays + [Delay(cfg, k)], sessions + 1).latch
  {
    hide RunSession, CheckedDeadline, Delay;
  }

  lemma LastReading(from: Time, readings: seq<Time>, at: Time, to: Time)
    requires Runs(from, readings + [at], to)
    ensures from <= at <= to
  {
    assert (readings + [at])[|readings|] == at;
  }

  /** What a fault on a running clock means; `base` is where the fruitless sessions in a row began. */
  lemma {:induction false} FaultMeans(cfg: Config, h: seq<Event>, failures: nat, scripts: seq<Script>,
                                      delays: seq<real>, sessions: nat, base: Time, from: Time, last: Time)
    requires cfg.recoveryPolicy == Reconnect && ValidConfig(cfg) && base + Waited(cfg, failures) <= from
    requires Clocked(cfg, h, failures, scripts, from, last)
    requires RunClient(cfg, h, failures, scripts, delays, sessions).latch != NoFault
    ensures (base <= last && CheckedDeadline(last, cfg.receiveTimeout).None?)
            || exists k :: RunsOutAfter(cfg, base, last, k)
    decreases |scripts|
  {
    hide RunClient, RunSession, Runs, Readings, CheckedDeadline, Delay, ValidConfig, Ticks;
    if scripts == [] {
      RunNothing(cfg, h, failures, delays, sessions);
      return;
    }
    var script := scripts[0];
    var s := RunSession(cfg, h, script);
    if s.end.Threw? {
      SessionRunsOut(cfg, h, script, from, last);
    } else if !Waits(s, script) {
      NoWaitNoFault(cfg, h, failures, scripts, delays, sessions);
    } else {
      var k, at := if s.valid > 0 then 0 else failures, script.wait.at;
      LastReading(from, Readings(script), at, last);
      WaitUnfolds(cfg, h, failures, scripts, delays, sessions);
      if CheckedDeadline(at, Delay(cfg, k)).None? {
        LaterHasNone(at, last, Delay(cfg, k));
        assert RunsOutAfter(cfg, base, last, k);
      } else {
        WaitEnds(cfg, at, k);
        FaultMeans(cfg, s.history + script.wait.others + [BackedOff], k + 1, scripts[1..], delays + [Delay(cfg, k)],
                   sessions + 1, base, at + Ticks(cfg, k), last);
      }
    }
  }

  // ---------------------------------------------------------------- the starts that fault

  /** A sensor that is not found, and a wait. */
  function Fruitless(at: Time): Script {
    Script([], DiscoveryFailed(false), [], false, Wait([], at, false))
  }

  lemma FruitlessWaits(cfg: Config, h: seq<Event>, at: Time)
    ensures var s := RunSession(cfg, h, Fruitless(at)); Waits(s, Fruitless(at)) && s.valid == 0 && s.history == h + []
    ensures Readings(Fruitless(at)) == []
  {
  }

  /** Fruitless sessions one right after the other, up to a wait without a deadline. */
  lemma {:induction false} WaitsFault(cfg: Config, h: seq<Event>, failures: nat, delays: seq<real>, sessions: nat,
                                      from: Time, last: Time, k: nat)
    returns (scripts: seq<Script>)
    requires cfg.recoveryPolicy == Reconnect && ValidConfig(cfg) && failures <= k
    requires from + Waited(cfg, k) - Waited(cfg, failures) <= last && CheckedDeadline(last, Delay(cfg, k)).None?
    ensures Clocked(cfg, h, failures, scripts, from, last) && UpTo(scripts, last)
    ensures RunClient(cfg, h, failures, scripts, delays, sessions).latch == SocketFault
    decreases k - failures
  {
    hide RunClient, RunSession, CheckedDeadline, Delay, ValidConfig, Ticks, Fruitless, Readings;
    WaitedGrows(cfg, failures, k);
    var at := if failures == k then last else from;
    var script := Fruitless(at);
    FruitlessFields(at);
    FruitlessWaits(cfg, h, at);
    var rest: seq<Script> := [];
    if CheckedDeadline(at, Delay(cfg, failures)).Some? {
      WaitEnds(cfg, at, failures);
      rest := WaitsFault(cfg, h + [] + [] + [BackedOff], failures + 1, delays + [Delay(cfg, failures)], sessions + 1,
                         at + Ticks(cfg, failures), last, k);
    }
    scripts := [script] + rest;
    assert scripts[1..] == rest;
    WaitUnfolds(cfg, h, failures, scripts, delays, sessions);
  }

  lemma FruitlessFields(at: Time)
    ensures var script := Fruitless(at);
            && script.wait == Wait([], at, false) && !script.stopAtEnd && script.steps == [] && !script.opening.Opened?
  {
  }

  lemma {:induction false} WaitedGrows(cfg: Config, j: nat, k: nat)
    requires ValidConfig(cfg) && j <= k
    ensures Waited(cfg, j) <= Waited(cfg, k)
    ensures j < k ==> Waited(cfg, j) + Ticks(cfg, j) <= Waited(cfg, k)
    decreases k - j
  {
    hide Ticks, ValidConfig;
    if j < k {
      WaitedGrows(cfg, j + 1, k);
    }
  }

  /** A session that opens when it is too late for the first deadline. */
  lemma LateOpening(cfg: Config, h: seq<Event>, failures: nat, from: Time, last: Time) returns (scripts: seq<Script>)
    requires cfg.recoveryPolicy == Reconnect && from <= last && CheckedDeadline(last, cfg.receiveTimeout).None?
    ensures Clocked(cfg, h, failures, scripts, from, last) && UpTo(scripts, last)
    ensures RunClient(cfg, h, failures, scripts, [], 0).latch == SocketFault
  {
    hide CheckedDeadline, Delay;
    var script := Script([], Opened(Calibration(1.0, 1.0, "N", "Nm"), [], last), [], false, Wait([], last, false));
    scripts := [script];
    assert Readings(script) == [last];
    assert RunSession(cfg, h, script).end == Threw;
  }

  // ---------------------------------------------------------------- exactly when

  /** Up to a clock reading a reconnecting client can be faulted exactly when that reading leaves no room for the receive
      timeout or for the longest wait: exactly when its configuration would be refused if it were constructed then. */
  lemma FaultsExactly(cfg: Config, h: seq<Event>, last: Time)
    requires cfg.recoveryPolicy == Reconnect && ValidConfig(cfg)
    ensures CanFault(cfg, h, last)
            <==> CheckedDeadline(last, cfg.receiveTimeout).None? || CheckedDeadline(last, cfg.reconnectMaxDelay).None?
    ensures CanFault(cfg, h, last) <==> !AcceptedAt(cfg, last)
  {
    hide RunClient, Clocked, UpTo, ClockRunsOut, CheckedDeadline, Delay, ValidConfig, Waited;
    if CheckedDeadline(last, cfg.receiveTimeout).None? {
      var scripts := LateOpening(cfg, h, 0, last, last);
    } else if CheckedDeadline(last, cfg.reconnectMaxDelay).None? {
      var k := LongestWait(cfg);
      NothingWaited(cfg);
      var scripts := WaitsFault(cfg, h, 0, [], 0, last - Waited(cfg, k), last, k);
    } else {
      InitialIsPositive(cfg);
      ShorterWaits(last, cfg.reconnectInitialDelay, cfg.reconnectMaxDelay);
    }
    if scripts :| UpTo(scripts, last) && LatchOf(cfg, h, scripts) != NoFault {
      ReconnectNeverLatches(cfg, h, 0, scripts, [], 0);
      var i :| 0 <= i < |scripts| && ClockRunsOut(cfg, scripts[i]);
      EachUpTo(scripts, last, i);
      OverflowBefore(cfg, scripts[i], last);
    }
  }

  lemma EachUpTo(scripts: seq<Script>, last: Time, i: nat)
    requires UpTo(scripts, last) && i < |scripts|
    ensures ReadsUpTo(scripts[i], last)
  {
  }

  lemma NothingWaited(cfg: Config)
    requires ValidConfig(cfg)
    ensures Waited(cfg, 0) == 0
  {
  }

  /** On a clock that runs, from the moment the worker begins: exactly when there is no room for the receive timeout, or
      when the waits of some number of fruitless sessions in a row fit in, but not the next one. */
  lemma FaultsInTimeExactly(cfg: Config, h: seq<Event>, from: Time, last: Time)
    requires cfg.recoveryPolicy == Reconnect && ValidConfig(cfg)
    ensures CanFaultInTime(cfg, h, from, last)
            <==> || (from <= last && CheckedDeadline(last, cfg.receiveTimeout).None?)
                 || exists k :: RunsOutAfter(cfg, from, last, k)
  {
    hide RunClient, Clocked, UpTo, CheckedDeadline, Delay, ValidConfig, Waited;
    NothingWaited(cfg);
    if from <= last && CheckedDeadline(last, cfg.receiveTimeout).None? {
      var scripts := LateOpening(cfg, h, 0, from, last);
    } else if k :| RunsOutAfter(cfg, from, last, k) {
      var scripts := WaitsFault(cfg, h, 0, [], 0, from, last, k);
    }
    if scripts :| Clocked(cfg, h, 0, scripts, from, last) && LatchOf(cfg, h, scripts) != NoFault {
      FaultMeans(cfg, h, 0, scripts, [], 0, from, from, last);
    }
  }
}
