/** The sessions and waits of one start, read off a whole run: which follow each other, how long each wait is, and what
    the run ends with. */
module ReconnectRuns {
  import opened Sequence
  import opened Protocol
  import opened Clock
  import opened RecordHistory
  import opened Session

  /** Everything before the i-th session: it begins where the wait after the one before ended. */
  function Before(h: seq<Event>, scripts: seq<Script>, sessions: seq<SessionRun>, i: nat): seq<Event>
    requires i <= |sessions| <= |scripts|
  {
    if i == 0 then h else sessions[i - 1].history + scripts[i - 1].wait.others + [BackedOff]
  }

  /** A failed session, after which no stop was seen. */
  predicate Retries(cfg: Config, s: SessionRun, script: Script) {
    cfg.recoveryPolicy == Reconnect && s.end.Returned? && s.end.result.Failed? && !script.stopAtEnd
  }

  /** The wait after the i-th session, given those before it: the initial delay after a session that saw a valid record,
      otherwise twice the one before, up to the longest. `first` is what it is after the first session. */
  function NextWait(cfg: Config, first: real, sessions: seq<SessionRun>, delays: seq<real>, i: nat): real
    requires i < |sessions| && i <= |delays|
  {
    if sessions[i].valid > 0 then cfg.reconnectInitialDelay
    else if i == 0 then first
    else if delays[i - 1] * 2.0 <= cfg.reconnectMaxDelay then delays[i - 1] * 2.0
    else cfg.reconnectMaxDelay
  }

  predicate Sessions(cfg: Config, h: seq<Event>, scripts: seq<Script>, sessions: seq<SessionRun>) {
    && |sessions| <= |scripts|
    && forall i :: 0 <= i < |sessions| ==> sessions[i] == RunSession(cfg, Before(h, scripts, sessions, i), scripts[i])
  }

  /** A wait that the i-th session is followed by. */
  predicate WaitAt(cfg: Config, first: real, scripts: seq<Script>, sessions: seq<SessionRun>, delays: seq<real>, i: nat)
    requires i < |delays| <= |sessions| <= |scripts|
  {
    && Retries(cfg, sessions[i], scripts[i])
    && delays[i] == NextWait(cfg, first, sessions, delays, i)
    && CheckedDeadline(scripts[i].wait.at, delays[i]).Some?
  }

  predicate Waits(cfg: Config, first: real, scripts: seq<Script>, sessions: seq<SessionRun>, delays: seq<real>) {
    && |delays| <= |sessions| <= |scripts|
    && forall i :: 0 <= i < |delays| ==> WaitAt(cfg, first, scripts, sessions, delays, i)
  }

  /** How a run ends after `last`: with a session after which it does not retry, or with a wait without a deadline. */
  predicate EndsWith(cfg: Config, last: SessionRun, script: Script, wait: real, run: ClientRun) {
    if Retries(cfg, last, script) then
      && CheckedDeadline(script.wait.at, wait).None?
      && run.history == last.history + script.wait.others + [BackedOff]
      && run.latch == if script.wait.stopSeen then NoFault else SocketFault
    else
      && run.history == last.history
      && run.latch == if last.end.Threw? then (if script.stopAtEnd then NoFault else SocketFault)
                      else if last.end.result.Failed? && cfg.recoveryPolicy == FailStop then last.end.result.fault
                      else NoFault
  }

  /** Or with nothing left to play. */
  predicate Ends(cfg: Config, first: real, h: seq<Event>, scripts: seq<Script>, sessions: seq<SessionRun>,
                 delays: seq<real>, run: ClientRun)
    requires |delays| <= |sessions| <= |scripts|
  {
    if |delays| == |sessions| then
      |sessions| == |scripts| && run.latch == NoFault && run.history == Before(h, scripts, sessions, |sessions|)
    else
      && |sessions| == |delays| + 1
      && EndsWith(cfg, sessions[|delays|], scripts[|delays|], NextWait(cfg, first, sessions, delays, |delays|), run)
  }

  // ---------------------------------------------------------------- the fold, one session at a time

  lemma RunUnfolds(cfg: Config, h: seq<Event>, failures: nat, scripts: seq<Script>, delays: seq<real>, sessions: nat)
    requires scripts != []
    ensures var script := scripts[0];
            var s := RunSession(cfg, h, script);
            var d := Delay(cfg, if s.valid > 0 then 0 else failures);
            var run := RunClient(cfg, h, failures, scripts, delays, sessions);
            if Retries(cfg, s, script) && CheckedDeadline(script.wait.at, d).Some? then
              run == RunClient(cfg, s.history + script.wait.others + [BackedOff], (if s.valid > 0 then 0 else failures) + 1,
                               scripts[1..], delays + [d], sessions + 1)
            else run.delays == delays && run.sessions == sessions + 1 && EndsWith(cfg, s, script, d, run)
  {
    hide RunSession, CheckedDeadline, Delay;
  }

  lemma NextDelay(cfg: Config, k: nat)
    requires ValidConfig(cfg)
    ensures Delay(cfg, k + 1) == if Delay(cfg, k) * 2.0 <= cfg.reconnectMaxDelay then Delay(cfg, k) * 2.0
                                 else cfg.reconnectMaxDelay
    ensures Delay(cfg, 0) == cfg.reconnectInitialDelay
  {
    hide ValidConfig, Delay;
    DelayDoubles(cfg, k);
  }

  /** The history between the first session of a start and the next. */
  function AfterWait(s: SessionRun, script: Script): seq<Event> {
    s.history + script.wait.others + [BackedOff]
  }

  lemma BeforeLater(h: seq<Event>, scripts: seq<Script>, s: SessionRun, rest: seq<SessionRun>, i: nat)
    requires i <= |rest| < |scripts|
    ensures Before(h, scripts, [s] + rest, i + 1) == Before(AfterWait(s, scripts[0]), scripts[1..], rest, i)
  {
    if i > 0 {
      assert ([s] + rest)[i] == rest[i - 1] && scripts[i] == scripts[1..][i - 1];
    }
  }

  lemma SessionsLonger(cfg: Config, h: seq<Event>, scripts: seq<Script>, s: SessionRun, rest: seq<SessionRun>)
    requires scripts != [] && s == RunSession(cfg, h, scripts[0])
    requires Sessions(cfg, AfterWait(s, scripts[0]), scripts[1..], rest)
    ensures Sessions(cfg, h, scripts, [s] + rest)
  {
    hide RunSession, Before, AfterWait;
    var all := [s] + rest;
    forall i | 0 <= i < |all| ensures all[i] == RunSession(cfg, Before(h, scripts, all, i), scripts[i]) {
      if i > 0 {
        BeforeLater(h, scripts, s, rest, i - 1);
        assert scripts[i] == scripts[1..][i - 1];
      } else {
        BeforeFirst(h, scripts, all);
      }
    }
  }

  lemma BeforeFirst(h: seq<Event>, scripts: seq<Script>, sessions: seq<SessionRun>)
    requires |sessions| <= |scripts|
    ensures Before(h, scripts, sessions, 0) == h
  {
  }

  /** A session in front does not change the later waits, if the first of them is the one that was due. */
  lemma NextWaitLater(cfg: Config, first: real, s: SessionRun, d: real, next: real, rest: seq<SessionRun>,
                      delays: seq<real>, i: nat)
    requires i < |rest| && i <= |delays|
    requires next == if d * 2.0 <= cfg.reconnectMaxDelay then d * 2.0 else cfg.reconnectMaxDelay
    ensures NextWait(cfg, first, [s] + rest, [d] + delays, i + 1) == NextWait(cfg, next, rest, delays, i)
  {
    assert ([s] + rest)[i + 1] == rest[i];
    if i > 0 {
      assert ([d] + delays)[i] == delays[i - 1];
    } else {
      assert ([d] + delays)[0] == d;
    }
  }

  lemma WaitsLonger(cfg: Config, first: real, scripts: seq<Script>, s: SessionRun, d: real, next: real,
                    rest: seq<SessionRun>, delays: seq<real>)
    requires scripts != [] && Retries(cfg, s, scripts[0]) && CheckedDeadline(scripts[0].wait.at, d).Some?
    requires d == if s.valid > 0 then cfg.reconnectInitialDelay else first
    requires next == if d * 2.0 <= cfg.reconnectMaxDelay then d * 2.0 else cfg.reconnectMaxDelay
    requires Waits(cfg, next, scripts[1..], rest, delays)
    ensures Waits(cfg, first, scripts, [s] + rest, [d] + delays)
  {
    var sessions, all := [s] + rest, [d] + delays;
    assert NextWait(cfg, first, sessions, all, 0) == d;
    hide CheckedDeadline, Retries, NextWait;
    forall i | 0 <= i < |all| ensures WaitAt(cfg, first, scripts, sessions, all, i) {
      if i > 0 {
        assert WaitAt(cfg, next, scripts[1..], rest, delays, i - 1);
        NextWaitLater(cfg, first, s, d, next, rest, delays, i - 1);
        assert scripts[i] == scripts[1..][i - 1] && sessions[i] == rest[i - 1] && all[i] == delays[i - 1];
      }
    }
  }

  lemma EndsLater(cfg: Config, first: real, h: seq<Event>, scripts: seq<Script>, s: SessionRun, d: real, next: real,
                  rest: seq<SessionRun>, delays: seq<real>, run: ClientRun)
    requires scripts != [] && |delays| <= |rest| < |scripts|
    requires next == if d * 2.0 <= cfg.reconnectMaxDelay then d * 2.0 else cfg.reconnectMaxDelay
    requires Ends(cfg, next, AfterWait(s, scripts[0]), scripts[1..], rest, delays, run)
    ensures Ends(cfg, first, h, scripts, [s] + rest, [d] + delays, run)
  {
    hide EndsWith, NextWait, Before, AfterWait;
    if |rest| > |delays| {
      NextWaitLater(cfg, first, s, d, next, rest, delays, |delays|);
      assert ([s] + rest)[|delays| + 1] == rest[|delays|] && scripts[|delays| + 1] == scripts[1..][|delays|];
    } else {
      BeforeLater(h, scripts, s, rest, |rest|);
    }
  }

  /** The fold and its chain; `first` is the delay due after the first session. */
  ghost predicate Chained(cfg: Config, first: real, h: seq<Event>, scripts: seq<Script>, sessions: seq<SessionRun>,
                          waits: seq<real>, run: ClientRun)
  {
    && Sessions(cfg, h, scripts, sessions) && Waits(cfg, first, scripts, sessions, waits)
    && Ends(cfg, first, h, scripts, sessions, waits, run)
  }

  lemma NoSession(cfg: Config, first: real, h: seq<Event>, delays: seq<real>, n: nat)
    ensures Chained(cfg, first, h, [], [], [], ClientRun(h, NoFault, delays, n))
  {
  }

  lemma OneSession(cfg: Config, first: real, h: seq<Event>, scripts: seq<Script>, s: SessionRun, run: ClientRun)
    requires scripts != [] && s == RunSession(cfg, h, scripts[0])
    requires EndsWith(cfg, s, scripts[0], if s.valid > 0 then cfg.reconnectInitialDelay else first, run)
    ensures Chained(cfg, first, h, scripts, [s], [], run)
  {
    hide EndsWith, RunSession;
  }

  lemma MoreSessions(cfg: Config, first: real, h: seq<Event>, scripts: seq<Script>, s: SessionRun, d: real, next: real,
                     rest: seq<SessionRun>, delays: seq<real>, run: ClientRun)
    requires scripts != [] && s == RunSession(cfg, h, scripts[0])
    requires Retries(cfg, s, scripts[0]) && CheckedDeadline(scripts[0].wait.at, d).Some?
    requires d == if s.valid > 0 then cfg.reconnectInitialDelay else first
    requires next == if d * 2.0 <= cfg.reconnectMaxDelay then d * 2.0 else cfg.reconnectMaxDelay
    requires Chained(cfg, next, AfterWait(s, scripts[0]), scripts[1..], rest, delays, run)
    ensures Chained(cfg, first, h, scripts, [s] + rest, [d] + delays, run)
  {
    WaitSizes(cfg, next, scripts[1..], rest, delays);
    hide RunSession, Retries, CheckedDeadline, AfterWait, Sessions, Waits, Ends;
    SessionsLonger(cfg, h, scripts, s, rest);
    WaitsLonger(cfg, first, scripts, s, d, next, rest, delays);
    EndsLater(cfg, first, h, scripts, s, d, next, rest, delays, run);
    WaitSizes(cfg, first, scripts, [s] + rest, [d] + delays);
  }

  lemma WaitSizes(cfg: Config, first: real, scripts: seq<Script>, sessions: seq<SessionRun>, delays: seq<real>)
    requires Waits(cfg, first, scripts, sessions, delays)
    ensures |delays| <= |sessions| <= |scripts|
  {
  }

  lemma Prepended(delays: seq<real>, d: real, later: seq<real>)
    ensures delays + [d] + later == delays + ([d] + later) && delays + [] == delays
  {
  }

  lemma {:induction false} FoldIsChain(cfg: Config, h: seq<Event>, failures: nat, scripts: seq<Script>,
                                       delays: seq<real>, n: nat)
    returns (sessions: seq<SessionRun>, waits: seq<real>)
    requires ValidConfig(cfg)
    ensures var run := RunClient(cfg, h, failures, scripts, delays, n);
            && run.delays == delays + waits && run.sessions == n + |sessions|
            && Chained(cfg, Delay(cfg, failures), h, scripts, sessions, waits, run)
    decreases |scripts|
  {
    hide RunClient, RunSession, CheckedDeadline, Delay, ValidConfig, Chained, EndsWith, Retries;
    Prepended(delays, 0.0, []);
    if scripts == [] {
      RunNothing(cfg, h, failures, delays, n);
      NoSession(cfg, Delay(cfg, failures), h, delays, n);
      return [], [];
    }
    var s := RunSession(cfg, h, scripts[0]);
    var k := if s.valid > 0 then 0 else failures;
    var d := Delay(cfg, k);
    RunUnfolds(cfg, h, failures, scripts, delays, n);
    NextDelay(cfg, k);
    if Retries(cfg, s, scripts[0]) && CheckedDeadline(scripts[0].wait.at, d).Some? {
      var rest, later := FoldIsChain(cfg, AfterWait(s, scripts[0]), k + 1, scripts[1..], delays + [d], n + 1);
      Prepended(delays, d, later);
      MoreSessions(cfg, Delay(cfg, failures), h, scripts, s, d, Delay(cfg, k + 1), rest, later,
                   RunClient(cfg, h, failures, scripts, delays, n));
      return [s] + rest, [d] + later;
    }
    OneSession(cfg, Delay(cfg, failures), h, scripts, s, RunClient(cfg, h, failures, scripts, delays, n));
    return [s], [];
  }

  // ---------------------------------------------------------------- a whole start

  /** One start is a chain of sessions: each but the last failed with no stop seen and was followed by a wait with a
      deadline. The first wait is the initial delay, each later one twice the one before up to the longest, and the
      initial delay again after a session that saw a valid record. How the last one ends decides the latch. */
  lemma RunIsChain(cfg: Config, h: seq<Event>, scripts: seq<Script>) returns (sessions: seq<SessionRun>)
    requires ValidConfig(cfg)
    ensures var run, first := RunClient(cfg, h, 0, scripts, [], 0), cfg.reconnectInitialDelay;
            && run.sessions == |sessions| && Sessions(cfg, h, scripts, sessions)
            && Waits(cfg, first, scripts, sessions, run.delays)
            && Ends(cfg, first, h, scripts, sessions, run.delays, run)
  {
    hide RunClient, Delay, ValidConfig, Sessions, Waits, Ends;
    var waits;
    sessions, waits := FoldIsChain(cfg, h, 0, scripts, [], 0);
    assert [] + waits == waits;
    NextDelay(cfg, 0);
  }

  /** Sessions in a row without a valid record, up to and including the i-th, but for the first of the start. */
  function Row(sessions: seq<SessionRun>, i: nat): nat
    requires i < |sessions|
  {
    if i == 0 || sessions[i].valid > 0 then 0 else Row(sessions, i - 1) + 1
  }

  lemma DelayIs(cfg: Config, k: nat)
    ensures Delay(cfg, k) == var doubled := cfg.reconnectInitialDelay * Pow2(k) as real;
                             if doubled < cfg.reconnectMaxDelay then doubled else cfg.reconnectMaxDelay
  {
    hide Pow2;
  }

  lemma {:induction false} WaitIsDelay(cfg: Config, scripts: seq<Script>, sessions: seq<SessionRun>, delays: seq<real>,
                                       i: nat)
    requires ValidConfig(cfg) && Waits(cfg, cfg.reconnectInitialDelay, scripts, sessions, delays) && i < |delays|
    ensures delays[i] == Delay(cfg, Row(sessions, i))
  {
    hide ValidConfig, Retries, CheckedDeadline, Delay;
    assert WaitAt(cfg, cfg.reconnectInitialDelay, scripts, sessions, delays, i);
    NextDelay(cfg, 0);
    if i > 0 && sessions[i].valid == 0 {
      WaitIsDelay(cfg, scripts, sessions, delays, i - 1);
      NextDelay(cfg, Row(sessions, i - 1));
    }
  }

  /** So each wait is the initial delay doubled once for every fruitless session since, up to the longest. */
  lemma WaitsDouble(cfg: Config, scripts: seq<Script>, sessions: seq<SessionRun>, delays: seq<real>, i: nat)
    requires ValidConfig(cfg) && Waits(cfg, cfg.reconnectInitialDelay, scripts, sessions, delays) && i < |delays|
    ensures |delays| <= |sessions|
    ensures var doubled := cfg.reconnectInitialDelay * Pow2(Row(sessions, i)) as real;
            delays[i] == if doubled < cfg.reconnectMaxDelay then doubled else cfg.reconnectMaxDelay
  {
    hide ValidConfig, WaitAt, Delay, Row, Pow2;
    WaitIsDelay(cfg, scripts, sessions, delays, i);
    DelayIs(cfg, Row(sessions, i));
  }

  // ---------------------------------------------------------------- how a session begins

  /** The calibration an opening found, if it got that far. */
  function Found(o: Opening): Option<Calibration> {
    match o
    case StoppedAtEntry => None
    case DiscoveryFailed(_) => None
    case StoppedAfterDiscovery(c) => Some(c)
    case ConnectFailed(c, _) => Some(c)
    case StoppedBeforeSend(c) => Some(c)
    case Opened(c, _, _) => Some(c)
  }

  predicate NoConfiguring(es: seq<Event>) {
    forall i :: 0 <= i < |es| ==> !es[i].Configured?
  }

  lemma {:induction false} CalibrationStays(h: seq<Event>, es: seq<Event>)
    requires NoConfiguring(es)
    ensures LastCalibration(h + es) == LastCalibration(h)
  {
    if es == [] {
      assert h + es == h;
    } else {
      var n := |es| - 1;
      CalibrationStays(h, es[..n]);
      assert h + es == (h + es[..n]) + [es[n]];
      Appended(h + es[..n], es[n]);
    }
  }

  lemma TurnConfiguresNothing(cfg: Config, h: seq<Event>, deadline: Time, s: Step)
    ensures NoConfiguring(TakeTurn(cfg, h, deadline, s).events)
  {
    hide Dispose, RecordOutcome, HealthOf, MalformedRun, DecodeRecord, CheckedDeadline;
  }

  lemma {:induction false} ReceivingKeepsCalibration(cfg: Config, h: seq<Event>, deadline: Time, steps: seq<Step>,
                                                     valid: nat, malformed: nat, turns: nat)
    ensures LastCalibration(Receive(cfg, h, deadline, steps, valid, malformed, turns).history) == LastCalibration(h)
    decreases |steps|
  {
    hide Receive, TakeTurn, CountIn, LastCalibration;
    if steps == [] {
      ReceiveNothing(cfg, h, deadline, valid, malformed, turns);
      return;
    }
    var t := TakeTurn(cfg, h, deadline, steps[0]);
    ReceiveUnfolds(cfg, h, deadline, steps, valid, malformed, turns);
    TurnConfiguresNothing(cfg, h, deadline, steps[0]);
    CalibrationStays(h, t.events);
    if t.end.None? {
      ReceivingKeepsCalibration(cfg, h + t.events, t.deadline, steps[1..], valid + CountIn(t.events, Decoded),
                                malformed + CountIn(t.events, MalformedSeen), turns + 1);
    }
  }

  lemma ForeignConfiguresNothing(others: seq<Foreign>)
    ensures NoConfiguring(others)
  {
  }

  /** A session publishes the calibration its discovery found, however it ends; without one it leaves the old one. */
  lemma SessionPublishes(cfg: Config, h: seq<Event>, script: Script)
    ensures var after := LastCalibration(RunSession(cfg, h, script).history);
            after == if Found(script.opening).Some? then Found(script.opening) else LastCalibration(h)
  {
    hide Receive, CheckedDeadline;
    var g := h + script.others;
    ForeignConfiguresNothing(script.others);
    CalibrationStays(h, script.others);
    if Found(script.opening).Some? {
      var c := Found(script.opening).value;
      Appended(g, Configured(c));
      if script.opening.Opened? {
        var others := script.opening.others;
        ForeignConfiguresNothing(others);
        CalibrationStays(g + [Configured(c)], others);
        CalibrationStays(g + [Configured(c)] + others, [SessionBegan]);
        hide LastCalibration;
        if CheckedDeadline(script.opening.at, cfg.receiveTimeout).Some? {
          ReceivingKeepsCalibration(cfg, OpenedHistory(h, script),
                                    CheckedDeadline(script.opening.at, cfg.receiveTimeout).value, script.steps, 0, 0, 0);
        }
      }
    }
  }

  /** A session that opens starts with no RDT baseline and no restart candidate: its first record is a First. */
  lemma SessionStartsFresh(cfg: Config, h: seq<Event>, script: Script, others: seq<Foreign>, r: RawRecord)
    requires script.opening.Opened?
    ensures var g := OpenedHistory(h, script) + others;
            RdtSeen(g, r).kind == First && !FtStateOf(FtEvents(g)).hasCandidate
  {
    var g := h + script.others + [Configured(script.opening.calibration)] + script.opening.others;
    Appended(g, SessionBegan);
    assert FtEvents(g + [SessionBegan]) == FtEvents(g) + [SessionStarts];
    assert (FtEvents(g) + [SessionStarts])[..|FtEvents(g)|] == FtEvents(g);
    OthersLeaveTrackers(g + [SessionBegan], others);
    hide Front, Last;
    NothingArrived();
  }

  lemma NothingArrived()
    ensures RdtRunOf([]).tracker == FRESH_RDT
  {
  }

  lemma {:induction false} OthersLeaveTrackers(h: seq<Event>, others: seq<Foreign>)
    requires RdtArrivals(h) == []
    ensures RdtArrivals(h + others) == [] && FtEvents(h + others) == FtEvents(h)
  {
    if others == [] {
      assert h + others == h;
    } else {
      var n := |others| - 1;
      OthersLeaveTrackers(h, others[..n]);
      assert h + others == (h + others[..n]) + [others[n]];
      Appended(h + others[..n], others[n]);
    }
  }

  // ---------------------------------------------------------------- what counts as a valid record

  /** A record was decoded between `h` and `g`. */
  predicate DecodedSince(h: seq<Event>, g: seq<Event>) {
    h <= g && exists i :: |h| <= i < |g| && g[i] == Decoded
  }

  lemma DecodedIn(h: seq<Event>, es: seq<Event>, g: seq<Event>)
    requires h + es <= g
    ensures h <= g && (DecodedSince(h, g) <==> Decoded in es || DecodedSince(h + es, g))
  {
    var k := |h + es|;
    assert forall i :: |h| <= i < k ==> g[i] == (h + es)[i] == es[i - |h|];
    if Decoded in es {
      var j :| 0 <= j < |es| && es[j] == Decoded;
      assert g[|h| + j] == Decoded;
    }
    if DecodedSince(h, g) {
      var i :| |h| <= i < |g| && g[i] == Decoded;
      assert i < k ==> es[i - |h|] == Decoded;
    }
  }

  lemma {:induction false} ReceivingSees(cfg: Config, h: seq<Event>, deadline: Time, steps: seq<Step>,
                                         valid: nat, malformed: nat, turns: nat)
    ensures var run := Receive(cfg, h, deadline, steps, valid, malformed, turns);
            && h <= run.history && run.valid >= valid
            && (run.valid > valid <==> DecodedSince(h, run.history))
    decreases |steps|
  {
    hide Receive, TakeTurn, DecodedSince;
    if steps == [] {
      ReceiveNothing(cfg, h, deadline, valid, malformed, turns);
      NothingSince(h);
      return;
    }
    var t := TakeTurn(cfg, h, deadline, steps[0]);
    ReceiveUnfolds(cfg, h, deadline, steps, valid, malformed, turns);
    var g := Receive(cfg, h, deadline, steps, valid, malformed, turns).history;
    if t.end.None? {
      ReceivingSees(cfg, h + t.events, t.deadline, steps[1..], valid + CountIn(t.events, Decoded),
                    malformed + CountIn(t.events, MalformedSeen), turns + 1);
    } else {
      NothingSince(g);
    }
    DecodedIn(h, t.events, g);
  }

  lemma NothingSince(h: seq<Event>)
    ensures !DecodedSince(h, h)
  {
  }

  /** A session counts as one with a valid record, which resets the waits, exactly when it decoded one, even if that
      record ended it. */
  lemma ValidMeansDecoded(cfg: Config, h: seq<Event>, script: Script)
    ensures var run := RunSession(cfg, h, script);
            && h <= run.history
            && (run.valid > 0 <==> exists i :: |h| <= i < |run.history| && run.history[i] == Decoded)
  {
    hide Receive, CheckedDeadline, OpenedHistory;
    var run := RunSession(cfg, h, script);
    if script.opening.Opened? {
      OpeningDecodesNothing(h, script);
      NothingSince(OpenedHistory(h, script));
      var checked := CheckedDeadline(script.opening.at, cfg.receiveTimeout);
      if checked.Some? {
        ReceivingSees(cfg, OpenedHistory(h, script), checked.value, script.steps, 0, 0, 0);
      }
      var es :| OpenedHistory(h, script) == h + es && Decoded !in es;
      DecodedIn(h, es, run.history);
    }
  }

  lemma OpeningDecodesNothing(h: seq<Event>, script: Script)
    requires script.opening.Opened?
    ensures exists es :: OpenedHistory(h, script) == h + es && Decoded !in es
  {
    var others, later: seq<Event> := script.others, script.opening.others;
    var es := others + [Configured(script.opening.calibration)] + later + [SessionBegan];
    assert OpenedHistory(h, script) == h + es;
  }
}
