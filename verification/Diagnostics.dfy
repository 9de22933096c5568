/** The diagnostics evaluator and the log throttle of src/ros/diagnostics.cpp. Only what decides the level and the log
    key is kept; message texts and the key-value list are not. Rates and times are real numbers. */
module Diagnostics {
  import opened Protocol
  import opened Session
  import opened Lifecycle

  const STORM_BETWEEN_UPDATES: nat := 10

  datatype Kind = Lost | DeviceError | Timeout | Malformed | FtStall | FtBackward | FtRestart | CallbackError

  datatype Counters = Counters(lost: nat, deviceError: nat, timeout: nat, malformed: nat, ftStall: nat, ftBackward: nat,
                               ftRestart: nat, callbackError: nat)
  {
    function Of(k: Kind): nat {
      match k
      case Lost => lost
      case DeviceError => deviceError
      case Timeout => timeout
      case Malformed => malformed
      case FtStall => ftStall
      case FtBackward => ftBackward
      case FtRestart => ftRestart
      case CallbackError => callbackError
    }
  }

  const NO_COUNTS: Counters := Counters(0, 0, 0, 0, 0, 0, 0, 0)

  datatype StatusSeverity = StatusOk | StatusWarn | StatusError

  /** What an evaluation looks at. */
  datatype Health = Health(state: ClientState, fault: FaultCode, counts: Counters, status: StatusSeverity, receiveRate: real)

  datatype Report = Report(level: int, logKey: string)

  predicate IsFaulted(h: Health) {
    h.state == Faulted || h.fault != NoFault
  }

  function Growth(current: nat, previous: nat): nat {
    if current >= previous then current - previous else 0
  }

  function Deltas(now: Counters, before: Counters): Counters {
    Counters(Growth(now.lost, before.lost), Growth(now.deviceError, before.deviceError), Growth(now.timeout, before.timeout),
             Growth(now.malformed, before.malformed), Growth(now.ftStall, before.ftStall),
             Growth(now.ftBackward, before.ftBackward), Growth(now.ftRestart, before.ftRestart),
             Growth(now.callbackError, before.callbackError))
  }

  // ---------------------------------------------------------------- conditions, whatever their order

  datatype Condition =
    | FaultLatched | InBackoff | ClientStopped | DeviceInError | DeviceErrorSeen | TimeoutSeen | MalformedStorm
    | StallSeen | BackwardSeen | InConnecting | DeviceWarns | RestartSeen | LossSeen | RateOff | CallbackFailed

  predicate RateOutside(rate: real, expected: real, tolerance: real) {
    rate < expected * (1.0 - tolerance) || rate > expected * (1.0 + tolerance)
  }

  /** Whether a condition holds; counters are watched only while no fault is latched. */
  predicate Active(c: Condition, h: Health, d: Counters, expected: real, tolerance: real) {
    if c == FaultLatched then IsFaulted(h)
    else
      !IsFaulted(h) &&
      match c
      case InBackoff => h.state == Backoff
      case ClientStopped => h.state == Idle
      case DeviceInError => h.status == StatusError
      case DeviceErrorSeen => d.deviceError > 0
      case TimeoutSeen => d.timeout > 0
      case MalformedStorm => d.malformed >= STORM_BETWEEN_UPDATES
      case StallSeen => d.ftStall > 0
      case BackwardSeen => d.ftBackward > 0
      case InConnecting => h.state == Connecting
      case DeviceWarns => h.status == StatusWarn
      case RestartSeen => d.ftRestart > 0
      case LossSeen => d.lost > 0
      case RateOff => RateOutside(h.receiveRate, expected, tolerance)
      case CallbackFailed => d.callbackError > 0
  }

  function Severity(c: Condition): int {
    if c in {InConnecting, DeviceWarns, RestartSeen, LossSeen, RateOff, CallbackFailed} then 1 else 2
  }

  function LogKey(c: Condition): string {
    match c
    case FaultLatched => "faulted"
    case InBackoff => "backoff"
    case ClientStopped => "stopped"
    case DeviceInError => "device_error"
    case DeviceErrorSeen => "device_error_event"
    case TimeoutSeen => "receive_timeout"
    case MalformedStorm => "malformed_storm"
    case StallSeen => "ft_stall"
    case BackwardSeen => "ft_backward"
    case InConnecting => "connecting"
    case DeviceWarns => "condition_latch"
    case RestartSeen => "ft_restart"
    case LossSeen => "packet_loss"
    case RateOff => "receive_rate"
    case CallbackFailed => "callback_error"
  }

  /** Which of several conditions of one severity comes first. */
  function Rank(c: Condition): nat {
    match c
    case FaultLatched => 0
    case InBackoff => 1
    case ClientStopped => 2
    case DeviceInError => 3
    case DeviceErrorSeen => 4
    case TimeoutSeen => 5
    case MalformedStorm => 6
    case StallSeen => 7
    case BackwardSeen => 8
    case InConnecting => 9
    case DeviceWarns => 10
    case RestartSeen => 11
    case LossSeen => 12
    case RateOff => 13
    case CallbackFailed => 14
  }

  /** The first active condition of a severity. */
  ghost predicate FirstOf(c: Condition, level: int, h: Health, d: Counters, expected: real, tolerance: real) {
    && Active(c, h, d, expected, tolerance) && Severity(c) == level
    && forall b :: Active(b, h, d, expected, tolerance) && Severity(b) == level ==> Rank(c) <= Rank(b)
  }

  /** The level is the highest severity of all active conditions, and the key is that of the first active one of that
      severity. */
  ghost predicate Judges(r: Report, h: Health, d: Counters, expected: real, tolerance: real) {
    && (forall c :: Active(c, h, d, expected, tolerance) ==> Severity(c) <= r.level)
    && if r.level == 0 then r.logKey == "healthy"
       else exists c :: FirstOf(c, r.level, h, d, expected, tolerance) && LogKey(c) == r.logKey
  }

  lemma RanksDiffer(b: Condition, c: Condition)
    requires Rank(b) == Rank(c)
    ensures b == c
  {
  }

  lemma LaterIsMilder(b: Condition, c: Condition)
    requires Rank(c) <= Rank(b)
    ensures Severity(b) <= Severity(c)
    ensures Severity(c) > 0
  {
  }

  /** The first active condition of all gives the report. */
  lemma FirstDecides(c: Condition, h: Health, d: Counters, expected: real, tolerance: real)
    requires Active(c, h, d, expected, tolerance)
    requires forall b :: Rank(b) < Rank(c) ==> !Active(b, h, d, expected, tolerance)
    ensures Judges(Report(Severity(c), LogKey(c)), h, d, expected, tolerance)
  {
    hide Active, Severity, LogKey, Rank;
    forall b | Active(b, h, d, expected, tolerance) ensures Severity(b) <= Severity(c) && Rank(c) <= Rank(b) {
      LaterIsMilder(b, c);
    }
    LaterIsMilder(c, c);
    assert FirstOf(c, Severity(c), h, d, expected, tolerance);
  }

  lemma NoLower(r: Report, r': Report, h: Health, d: Counters, expected: real, tolerance: real)
    requires Judges(r, h, d, expected, tolerance) && Judges(r', h, d, expected, tolerance) && r.level >= 0
    ensures r'.level <= r.level
  {
    hide Active, Severity, LogKey, Rank;
    if r'.level > 0 {
      var c :| FirstOf(c, r'.level, h, d, expected, tolerance);
      assert Severity(c) <= r.level;
    }
  }

  /** That leaves one report. */
  lemma OneJudgement(r: Report, r': Report, h: Health, d: Counters, expected: real, tolerance: real)
    requires Judges(r, h, d, expected, tolerance) && Judges(r', h, d, expected, tolerance)
    requires r.level >= 0 && r'.level >= 0
    ensures r == r'
  {
    hide Active, Severity, LogKey, Rank;
    NoLower(r, r', h, d, expected, tolerance);
    NoLower(r', r, h, d, expected, tolerance);
    if r.level > 0 {
      var c :| FirstOf(c, r.level, h, d, expected, tolerance) && LogKey(c) == r.logKey;
      var c' :| FirstOf(c', r.level, h, d, expected, tolerance) && LogKey(c') == r'.logKey;
      RanksDiffer(c, c');
    }
  }

  /** What makes a report an error, with what grew since the last evaluation that was not faulted. */
  predicate Alarming(h: Health, d: Counters) {
    || h.state == Faulted || h.fault != NoFault || h.state == Backoff || h.state == Idle || h.status == StatusError
    || d.deviceError > 0 || d.timeout > 0 || d.malformed >= 10 || d.ftStall > 0 || d.ftBackward > 0
  }

  /** What makes it a warning when it is no error: the rate is that of the records received, the tolerance a fraction. */
  predicate Suspicious(h: Health, d: Counters, expected: real, tolerance: real) {
    || h.state == Connecting || h.status == StatusWarn || d.ftRestart > 0 || d.lost > 0 || d.callbackError > 0
    || h.receiveRate < expected - expected * tolerance || h.receiveRate > expected + expected * tolerance
  }

  lemma RateIs(rate: real, expected: real, tolerance: real)
    ensures RateOutside(rate, expected, tolerance)
            <==> rate < expected - expected * tolerance || rate > expected + expected * tolerance
  {
  }

  /** The level of a report, from the snapshot alone. */
  lemma LevelExactly(r: Report, h: Health, d: Counters, expected: real, tolerance: real)
    requires Judges(r, h, d, expected, tolerance) && r.level >= 0
    ensures r.level == 2 <==> Alarming(h, d)
    ensures r.level == 1 <==> !Alarming(h, d) && Suspicious(h, d, expected, tolerance)
    ensures r.level == 0 <==> !Alarming(h, d) && !Suspicious(h, d, expected, tolerance)
  {
    RateIs(h.receiveRate, expected, tolerance);
    hide RateOutside, LogKey, Rank;
    AlarmsActive(h, d, expected, tolerance);
    if r.level > 0 {
      var c :| FirstOf(c, r.level, h, d, expected, tolerance);
    }
  }

  lemma AlarmsActive(h: Health, d: Counters, expected: real, tolerance: real)
    ensures Alarming(h, d) ==> exists c :: Active(c, h, d, expected, tolerance) && Severity(c) == 2
    ensures !Alarming(h, d) && Suspicious(h, d, expected, tolerance) ==>
              exists c :: Active(c, h, d, expected, tolerance) && Severity(c) == 1
  {
    RateIs(h.receiveRate, expected, tolerance);
    hide RateOutside;
    var c :=
      if IsFaulted(h) then FaultLatched else if h.state == Backoff then InBackoff
      else if h.state == Idle then ClientStopped else if h.status == StatusError then DeviceInError
      else if d.deviceError > 0 then DeviceErrorSeen else if d.timeout > 0 then TimeoutSeen
      else if d.malformed >= 10 then MalformedStorm else if d.ftStall > 0 then StallSeen
      else if d.ftBackward > 0 then BackwardSeen else if h.state == Connecting then InConnecting
      else if h.status == StatusWarn then DeviceWarns else if d.ftRestart > 0 then RestartSeen
      else if d.lost > 0 then LossSeen else if d.callbackError > 0 then CallbackFailed else RateOff;
    assert Alarming(h, d) || Suspicious(h, d, expected, tolerance) ==> Active(c, h, d, expected, tolerance);
  }

  /** What a key says. */
  predicate KeyHolds(key: string, h: Health, d: Counters, expected: real, tolerance: real) {
    match key
    case "faulted" => h.state == Faulted || h.fault != NoFault
    case "backoff" => h.state == Backoff
    case "stopped" => h.state == Idle
    case "device_error" => h.status == StatusError
    case "device_error_event" => d.deviceError > 0
    case "receive_timeout" => d.timeout > 0
    case "malformed_storm" => d.malformed >= 10
    case "ft_stall" => d.ftStall > 0
    case "ft_backward" => d.ftBackward > 0
    case "connecting" => h.state == Connecting
    case "condition_latch" => h.status == StatusWarn
    case "ft_restart" => d.ftRestart > 0
    case "packet_loss" => d.lost > 0
    case "receive_rate" => RateOutside(h.receiveRate, expected, tolerance)
    case "callback_error" => d.callbackError > 0
    case "healthy" => !Alarming(h, d) && !Suspicious(h, d, expected, tolerance)
    case _ => false
  }

  lemma ConditionIsKey(c: Condition, h: Health, d: Counters, expected: real, tolerance: real)
    requires Active(c, h, d, expected, tolerance)
    ensures KeyHolds(LogKey(c), h, d, expected, tolerance)
  {
    hide RateOutside, Alarming, Suspicious;
    match c
    case FaultLatched =>
    case InBackoff =>
    case ClientStopped =>
    case DeviceInError =>
    case DeviceErrorSeen =>
    case TimeoutSeen =>
    case MalformedStorm =>
    case StallSeen =>
    case BackwardSeen =>
    case InConnecting =>
    case DeviceWarns =>
    case RestartSeen =>
    case LossSeen =>
    case RateOff =>
    case CallbackFailed =>
  }

  lemma HealthyIsKey(h: Health, d: Counters, expected: real, tolerance: real)
    requires !Alarming(h, d) && !Suspicious(h, d, expected, tolerance)
    ensures KeyHolds("healthy", h, d, expected, tolerance)
  {
    hide RateOutside, Alarming, Suspicious;
  }

  /** A key is only given when what it says is so. */
  lemma KeysAreTrue(r: Report, h: Health, d: Counters, expected: real, tolerance: real)
    requires Judges(r, h, d, expected, tolerance) && r.level >= 0
    ensures KeyHolds(r.logKey, h, d, expected, tolerance)
  {
    hide KeyHolds, RateOutside, Rank, LogKey, Active, Severity, Alarming, Suspicious;
    if r.level > 0 {
      var c :| FirstOf(c, r.level, h, d, expected, tolerance) && LogKey(c) == r.logKey;
      ConditionIsKey(c, h, d, expected, tolerance);
    } else {
      LevelExactly(r, h, d, expected, tolerance);
      HealthyIsKey(h, d, expected, tolerance);
    }
  }

  /** The keys in the order in which the evaluator looks for them. */
  const KEYS: seq<string> := [
    "faulted", "backoff", "stopped", "device_error", "device_error_event", "receive_timeout", "malformed_storm", "ft_stall",
    "ft_backward", "connecting", "condition_latch", "ft_restart", "packet_loss", "receive_rate", "callback_error", "healthy"
  ]

  lemma KeyOfRank(c: Condition)
    ensures Rank(c) < |KEYS| - 1 && KEYS[Rank(c)] == LogKey(c)
  {
  }

  function ConditionAt(k: nat): (c: Condition)
    requires k < |KEYS| - 1
    ensures Rank(c) == k
  {
    [FaultLatched, InBackoff, ClientStopped, DeviceInError, DeviceErrorSeen, TimeoutSeen, MalformedStorm, StallSeen,
     BackwardSeen, InConnecting, DeviceWarns, RestartSeen, LossSeen, RateOff, CallbackFailed][k]
  }

  /** What its key says makes a condition active, unless a fault is latched. */
  lemma KeyIsCondition(c: Condition, h: Health, d: Counters, expected: real, tolerance: real)
    requires KeyHolds(LogKey(c), h, d, expected, tolerance) && !Active(FaultLatched, h, d, expected, tolerance)
    ensures Active(c, h, d, expected, tolerance)
  {
    hide RateOutside, Alarming, Suspicious;
    match c
    case FaultLatched =>
    case InBackoff =>
    case ClientStopped =>
    case DeviceInError =>
    case DeviceErrorSeen =>
    case TimeoutSeen =>
    case MalformedStorm =>
    case StallSeen =>
    case BackwardSeen =>
    case InConnecting =>
    case DeviceWarns =>
    case RestartSeen =>
    case LossSeen =>
    case RateOff =>
    case CallbackFailed =>
  }

  lemma FaultComesFirst(c: Condition, h: Health, d: Counters, expected: real, tolerance: real)
    requires Active(c, h, d, expected, tolerance) && Active(FaultLatched, h, d, expected, tolerance)
    ensures c == FaultLatched && Rank(c) == 0
  {
  }

  /** The key of a report is the first of all whose word holds. */
  lemma KeyIsFirstThatHolds(r: Report, h: Health, d: Counters, expected: real, tolerance: real) returns (i: nat)
    requires Judges(r, h, d, expected, tolerance) && r.level >= 0
    ensures i < |KEYS| && r.logKey == KEYS[i] && KeyHolds(KEYS[i], h, d, expected, tolerance)
    ensures forall j :: 0 <= j < i ==> !KeyHolds(KEYS[j], h, d, expected, tolerance)
  {
    hide KeyHolds, RateOutside, Rank, LogKey, Active, Severity, Alarming, Suspicious;
    KeysAreTrue(r, h, d, expected, tolerance);
    i := |KEYS| - 1;
    if r.level > 0 {
      var c :| FirstOf(c, r.level, h, d, expected, tolerance) && LogKey(c) == r.logKey;
      KeyOfRank(c);
      i := Rank(c);
    }
    forall j | 0 <= j < i ensures !KeyHolds(KEYS[j], h, d, expected, tolerance) {
      EarlierKeyFails(r, h, d, expected, tolerance, i, j);
    }
  }

  lemma EarlierKeyFails(r: Report, h: Health, d: Counters, expected: real, tolerance: real, i: nat, j: nat)
    requires Judges(r, h, d, expected, tolerance) && r.level >= 0 && j < i < |KEYS| && r.logKey == KEYS[i]
    requires r.level > 0 ==> exists c :: FirstOf(c, r.level, h, d, expected, tolerance) && Rank(c) == i
    ensures !KeyHolds(KEYS[j], h, d, expected, tolerance)
  {
    hide KeyHolds, RateOutside, LogKey, Active, Severity, Alarming, Suspicious, Rank;
    var b := ConditionAt(j);
    KeyOfRank(b);
    if KeyHolds(KEYS[j], h, d, expected, tolerance) {
      if r.level > 0 {
        var c :| FirstOf(c, r.level, h, d, expected, tolerance) && Rank(c) == i;
        if Active(FaultLatched, h, d, expected, tolerance) {
          FaultComesFirst(c, h, d, expected, tolerance);
        }
        KeyIsCondition(b, h, d, expected, tolerance);
        LaterIsMilder(c, b);
      } else {
        NoneActive(r, h, d, expected, tolerance, FaultLatched);
        KeyIsCondition(b, h, d, expected, tolerance);
        NoneActive(r, h, d, expected, tolerance, b);
      }
    }
  }

  // ---------------------------------------------------------------- counters over a run

  /** The counters an evaluator remembers after evaluating these snapshots. */
  function LastSeen(history: seq<Health>): Counters {
    if history == [] then NO_COUNTS
    else
      var last := history[|history| - 1];
      if IsFaulted(last) then LastSeen(history[..|history| - 1]) else last.counts
  }

  /** What the evaluation of the last snapshot reports as growth. */
  function DeltaAt(history: seq<Health>, k: Kind): nat
    requires history != []
  {
    Growth(history[|history| - 1].counts.Of(k), LastSeen(history[..|history| - 1]).Of(k))
  }

  /** The growth reported by all evaluations that were not faulted. */
  function TotalGrowth(history: seq<Health>, k: Kind): nat {
    if history == [] then 0
    else if IsFaulted(history[|history| - 1]) then TotalGrowth(history[..|history| - 1], k)
    else TotalGrowth(history[..|history| - 1], k) + DeltaAt(history, k)
  }

  /** By how much counters fell between evaluations that were not faulted. */
  function TotalDrop(history: seq<Health>, k: Kind): nat {
    if history == [] then 0
    else if IsFaulted(history[|history| - 1]) then TotalDrop(history[..|history| - 1], k)
    else
      var before, now := LastSeen(history[..|history| - 1]).Of(k), history[|history| - 1].counts.Of(k);
      TotalDrop(history[..|history| - 1], k) + Growth(before, now)
  }

  predicate Nondecreasing(history: seq<Health>, k: Kind) {
    forall i, j :: 0 <= i < j < |history| ==> history[i].counts.Of(k) <= history[j].counts.Of(k)
  }

  lemma SeenStep(history: seq<Health>, k: Kind)
    requires history != []
    ensures var front, now := history[..|history| - 1], history[|history| - 1];
            LastSeen(history).Of(k) == if IsFaulted(now) then LastSeen(front).Of(k) else now.counts.Of(k)
  {
    hide Counters.Of;
  }

  lemma GrowthBalances(before: nat, now: nat)
    ensures before + Growth(now, before) == now + Growth(before, now)
  {
  }

  /** Deltas telescope: nothing is counted twice and nothing is lost, faulted evaluations in between included. */
  lemma {:induction false} DeltasTelescope(history: seq<Health>, k: Kind)
    ensures TotalGrowth(history, k) == LastSeen(history).Of(k) + TotalDrop(history, k)
  {
    if history != [] {
      hide LastSeen, Counters.Of, Growth, IsFaulted;
      var front, now := history[..|history| - 1], history[|history| - 1];
      DeltasTelescope(front, k);
      SeenStep(history, k);
      GrowthBalances(LastSeen(front).Of(k), now.counts.Of(k));
    } else {
      assert NO_COUNTS.Of(k) == 0;
    }
  }

  lemma {:induction false} NothingDropped(history: seq<Health>, k: Kind)
    requires Nondecreasing(history, k)
    ensures TotalDrop(history, k) == 0
    ensures history != [] ==> LastSeen(history).Of(k) <= history[|history| - 1].counts.Of(k)
  {
    if history != [] {
      var front := history[..|history| - 1];
      NothingDropped(front, k);
      if front != [] {
        assert front[|front| - 1].counts.Of(k) <= history[|history| - 1].counts.Of(k);
      } else {
        assert NO_COUNTS.Of(k) == 0;
      }
    }
  }

  /** With counters that never fall, the reported deltas add up to the counter at the last evaluation that was not
      faulted. */
  lemma DeltasAddUp(history: seq<Health>, k: Kind)
    requires Nondecreasing(history, k)
    ensures TotalGrowth(history, k) == LastSeen(history).Of(k)
  {
    DeltasTelescope(history, k);
    NothingDropped(history, k);
  }

  lemma DeltasOf(now: Counters, before: Counters, k: Kind)
    ensures Deltas(now, before).Of(k) == Growth(now.Of(k), before.Of(k))
  {
  }

  /** A healthy report hides no event: no counter but that of malformed datagrams moved since the previous evaluation
      that was not faulted, and that one moved by less than a storm. */
  lemma HealthyMeansQuiet(history: seq<Health>, h: Health, r: Report, k: Kind, expected: real, tolerance: real)
    requires Judges(r, h, Deltas(h.counts, LastSeen(history)), expected, tolerance) && r.level == 0
    requires Nondecreasing(history + [h], k)
    ensures !IsFaulted(h)
    ensures k != Malformed ==> h.counts.Of(k) == LastSeen(history).Of(k)
    ensures k == Malformed ==> h.counts.Of(k) < LastSeen(history).Of(k) + STORM_BETWEEN_UPDATES
  {
    hide Active, Deltas, LastSeen, Judges, Nondecreasing, Severity;
    var d := Deltas(h.counts, LastSeen(history));
    NoneActive(r, h, d, expected, tolerance, Watching(k));
    NoneActive(r, h, d, expected, tolerance, FaultLatched);
    QuietCounter(h, d, k, expected, tolerance);
    DeltasOf(h.counts, LastSeen(history), k);
    NothingFell(history, h, k);
  }

  lemma NoneActive(r: Report, h: Health, d: Counters, expected: real, tolerance: real, c: Condition)
    requires Judges(r, h, d, expected, tolerance) && r.level == 0
    ensures !Active(c, h, d, expected, tolerance)
  {
    hide Active;
  }

  lemma QuietCounter(h: Health, d: Counters, k: Kind, expected: real, tolerance: real)
    requires !Active(Watching(k), h, d, expected, tolerance) && !Active(FaultLatched, h, d, expected, tolerance)
    ensures !IsFaulted(h) && d.Of(k) < if k == Malformed then STORM_BETWEEN_UPDATES else 1
  {
  }

  function Watching(k: Kind): Condition {
    match k
    case Lost => LossSeen
    case DeviceError => DeviceErrorSeen
    case Timeout => TimeoutSeen
    case Malformed => MalformedStorm
    case FtStall => StallSeen
    case FtBackward => BackwardSeen
    case FtRestart => RestartSeen
    case CallbackError => CallbackFailed
  }

  lemma NothingFell(history: seq<Health>, h: Health, k: Kind)
    requires Nondecreasing(history + [h], k)
    ensures LastSeen(history).Of(k) <= h.counts.Of(k)
  {
    var all := history + [h];
    assert forall i :: 0 <= i < |history| ==> all[i] == history[i];
    NothingDropped(history, k);
    if history != [] {
      assert all[|history| - 1].counts.Of(k) <= all[|history|].counts.Of(k);
    } else {
      assert NO_COUNTS.Of(k) == 0;
    }
  }

  // ---------------------------------------------------------------- the evaluator

  class DiagnosticEvaluator {
    const expectedRate: real
    const tolerance: real
    var lost: nat
    var deviceError: nat
    var timeout: nat
    var malformed: nat
    var ftStall: nat
    var ftBackward: nat
    var ftRestart: nat
    var callbackError: nat
    ghost var history: seq<Health>

    ghost predicate Valid()
      reads this
    {
      Counters(lost, deviceError, timeout, malformed, ftStall, ftBackward, ftRestart, callbackError) == LastSeen(history)
    }

    constructor (expectedRate: real, tolerance: real)
      requires expectedRate > 0.0 && 0.0 <= tolerance <= 1.0
      ensures Valid() && history == [] && this.expectedRate == expectedRate && this.tolerance == tolerance
    {
      this.expectedRate, this.tolerance := expectedRate, tolerance;
      lost, deviceError, timeout, malformed, ftStall, ftBackward, ftRestart, callbackError := 0, 0, 0, 0, 0, 0, 0, 0;
      history := [];
    }

    /** The source's constructor throws on rates and tolerances outside their ranges. */
    static method Create(expectedRate: real, tolerance: real) returns (r: Option<DiagnosticEvaluator>)
      ensures r.Some? <==> expectedRate > 0.0 && 0.0 <= tolerance <= 1.0
      ensures r.Some? ==> fresh(r.value) && r.value.Valid() && r.value.history == []
                          && r.value.expectedRate == expectedRate && r.value.tolerance == tolerance
    {
      if expectedRate <= 0.0 || tolerance < 0.0 || tolerance > 1.0 {
        return None;
      }
      var e := new DiagnosticEvaluator(expectedRate, tolerance);
      return Some(e);
    }

    static method Delta(current: nat, previous: nat) returns (difference: nat, stored: nat)
      ensures difference == Growth(current, previous) && stored == current
    {
      difference := if current >= previous then current - previous else 0;
      stored := current;
    }

    /** All deltas are taken before anything is judged. */
    method TakeDeltas(c: Counters) returns (d: Counters)
      modifies this
      ensures d == Deltas(c, old(Counters(lost, deviceError, timeout, malformed, ftStall, ftBackward, ftRestart,
                                          callbackError)))
      ensures Counters(lost, deviceError, timeout, malformed, ftStall, ftBackward, ftRestart, callbackError) == c
      ensures history == old(history)
    {
      var dLost, dDevice, dTimeout, dMalformed, dStall, dBackward, dRestart, dCallback;
      dLost, lost := Delta(c.lost, lost);
      dDevice, deviceError := Delta(c.deviceError, deviceError);
      dTimeout, timeout := Delta(c.timeout, timeout);
      dMalformed, malformed := Delta(c.malformed, malformed);
      dStall, ftStall := Delta(c.ftStall, ftStall);
      dBackward, ftBackward := Delta(c.ftBackward, ftBackward);
      dRestart, ftRestart := Delta(c.ftRestart, ftRestart);
      dCallback, callbackError := Delta(c.callbackError, callbackError);
      d := Counters(dLost, dDevice, dTimeout, dMalformed, dStall, dBackward, dRestart, dCallback);
    }

    method Evaluate(h: Health) returns (r: Report)
      requires Valid()
      modifies this
      ensures Valid() && history == old(history) + [h]
      ensures Judges(r, h, Deltas(h.counts, LastSeen(old(history))), expectedRate, tolerance)
    {
      ghost var before := LastSeen(history);
      history := history + [h];
      assert history[..|history| - 1] == old(history);
      if IsFaulted(h) {
        r := Report(2, "faulted");
        FirstDecides(FaultLatched, h, Deltas(h.counts, before), expectedRate, tolerance);
        return;
      }
      var d := TakeDeltas(h.counts);
      r := Judge(h, d);
    }

    method Judge(h: Health, d: Counters) returns (r: Report)
      requires !IsFaulted(h)
      ensures Judges(r, h, d, expectedRate, tolerance)
    {
      hide RateOutside;
      ghost var because := FaultLatched;
      if h.state == Backoff {
        r, because := Report(2, "backoff"), InBackoff;
      } else if h.state == Idle {
        r, because := Report(2, "stopped"), ClientStopped;
      } else if h.status == StatusError {
        r, because := Report(2, "device_error"), DeviceInError;
      } else if d.deviceError != 0 {
        r, because := Report(2, "device_error_event"), DeviceErrorSeen;
      } else if d.timeout != 0 {
        r, because := Report(2, "receive_timeout"), TimeoutSeen;
      } else if d.malformed >= STORM_BETWEEN_UPDATES {
        r, because := Report(2, "malformed_storm"), MalformedStorm;
      } else if d.ftStall != 0 {
        r, because := Report(2, "ft_stall"), StallSeen;
      } else if d.ftBackward != 0 {
        r, because := Report(2, "ft_backward"), BackwardSeen;
      } else if h.state == Connecting {
        r, because := Report(1, "connecting"), InConnecting;
      } else if h.status == StatusWarn {
        r, because := Report(1, "condition_latch"), DeviceWarns;
      } else if d.ftRestart != 0 {
        r, because := Report(1, "ft_restart"), RestartSeen;
      } else if d.lost != 0 {
        r, because := Report(1, "packet_loss"), LossSeen;
      } else if RateOutside(h.receiveRate, expectedRate, tolerance) {
        r, because := Report(1, "receive_rate"), RateOff;
      } else if d.callbackError != 0 {
        r, because := Report(1, "callback_error"), CallbackFailed;
      } else {
        r := Report(0, "healthy");
      }
      if r.level > 0 {
        FirstDecides(because, h, d, expectedRate, tolerance);
      }
    }
  }

  // ---------------------------------------------------------------- the log throttle

  /** A report and when it is offered to the log. */
  datatype Offer = Offer(report: Report, at: real)

  datatype Throttle = Throttle(active: bool, level: int, key: string, lastLog: real)

  predicate Logs(s: Throttle, o: Offer, interval: real) {
    o.report.level > 0
    && (!s.active || o.report.level != s.level || o.report.logKey != s.key || o.at - s.lastLog >= interval)
  }

  function ThrottleNext(s: Throttle, o: Offer, interval: real): Throttle {
    if o.report.level <= 0 then s.(active := false)
    else if Logs(s, o, interval) then Throttle(true, o.report.level, o.report.logKey, o.at)
    else s
  }

  function ThrottleAfter(offers: seq<Offer>, interval: real): Throttle {
    if offers == [] then Throttle(false, 0, "", 0.0)
    else ThrottleNext(ThrottleAfter(offers[..|offers| - 1], interval), offers[|offers| - 1], interval)
  }

  /** Whether an offer of a run is logged. */
  predicate LoggedAt(offers: seq<Offer>, i: nat, interval: real)
    requires i < |offers|
  {
    Logs(ThrottleAfter(offers[..i], interval), offers[i], interval)
  }

  class FaultLogThrottle {
    const interval: real
    var active: bool
    var level: int
    var key: string
    var lastLog: real
    ghost var offers: seq<Offer>

    ghost predicate Valid()
      reads this
    {
      Throttle(active, level, key, lastLog) == ThrottleAfter(offers, interval)
    }

    constructor (interval: real)
      requires interval > 0.0
      ensures Valid() && offers == [] && this.interval == interval
    {
      this.interval := interval;
      active, level, key, lastLog, offers := false, 0, "", 0.0, [];
    }

    /** The source's constructor throws unless the interval is positive. */
    static method Create(interval: real) returns (r: Option<FaultLogThrottle>)
      ensures r.Some? <==> interval > 0.0
      ensures r.Some? ==> fresh(r.value) && r.value.Valid() && r.value.offers == [] && r.value.interval == interval
    {
      if interval <= 0.0 {
        return None;
      }
      var t := new FaultLogThrottle(interval);
      return Some(t);
    }

    method ShouldLog(report: Report, now: real) returns (log: bool)
      requires Valid()
      modifies this
      ensures Valid() && offers == old(offers) + [Offer(report, now)]
      ensures log == LoggedAt(offers, |old(offers)|, interval)
    {
      offers := offers + [Offer(report, now)];
      assert offers[..|offers| - 1] == old(offers);
      if report.level <= 0 {
        active := false;
        return false;
      }
      if !active || report.level != level || report.logKey != key || now - lastLog >= interval {
        active, level, key, lastLog := true, report.level, report.logKey, now;
        return true;
      }
      return false;
    }
  }

  /** The same report with a level above zero, from `i` up to `j`. */
  predicate SameAlarm(offers: seq<Offer>, i: nat, j: nat)
    requires i <= j <= |offers|
  {
    forall k :: i <= k < j ==> offers[k].report == offers[i].report && offers[k].report.level > 0
  }

  /** A report that starts an alarm, or changes its level or key, is always logged. */
  lemma {:induction false} ChangesAreLogged(offers: seq<Offer>, i: nat, interval: real)
    requires i < |offers| && offers[i].report.level > 0
    requires i == 0 || offers[i - 1].report != offers[i].report
    ensures LoggedAt(offers, i, interval)
  {
    if i > 0 {
      assert offers[..i][..i - 1] == offers[..i - 1];
    }
  }

  /** A report of level 0 is never logged and ends the alarm: whatever alarm comes next is logged. */
  lemma QuietEndsAlarm(offers: seq<Offer>, i: nat, interval: real)
    requires i < |offers| && offers[i].report.level <= 0
    ensures !LoggedAt(offers, i, interval)
    ensures i + 1 < |offers| && offers[i + 1].report.level > 0 ==> LoggedAt(offers, i + 1, interval)
  {
    if i + 1 < |offers| {
      assert offers[..i + 1][..i] == offers[..i];
    }
  }

  lemma {:induction false} RemembersLog(offers: seq<Offer>, i: nat, j: nat, interval: real)
    requires i < j < |offers| && SameAlarm(offers, i, j + 1) && LoggedAt(offers, i, interval)
    requires forall k :: i < k < j ==> !LoggedAt(offers, k, interval)
    ensures ThrottleAfter(offers[..j], interval)
            == Throttle(true, offers[i].report.level, offers[i].report.logKey, offers[i].at)
  {
    assert offers[..j][..j - 1] == offers[..j - 1];
    if j > i + 1 {
      RemembersLog(offers, i, j - 1, interval);
      assert !LoggedAt(offers, j - 1, interval);
    }
  }

  /** While one alarm lasts, it is logged again exactly when the interval has passed since it was last logged. */
  lemma RepetitionIsLogged(offers: seq<Offer>, i: nat, j: nat, interval: real)
    requires i < j < |offers| && SameAlarm(offers, i, j + 1) && LoggedAt(offers, i, interval)
    requires forall k :: i < k < j ==> !LoggedAt(offers, k, interval)
    ensures LoggedAt(offers, j, interval) <==> offers[j].at - offers[i].at >= interval
  {
    RemembersLog(offers, i, j, interval);
  }
}
