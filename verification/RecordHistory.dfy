/** The record machine as pure functions of everything that happened to one client: each event is one
    lock-protected section of src/core/src/detail/client_impl.cpp, so that sections of other threads
    (bias, health) may stand anywhere between those of the worker. */
module RecordHistory {
  import opened Words
  import opened Sequence
  import opened Protocol
  import opened Clock

  datatype Severity = Healthy | Warn | Serious

  function ClassifyStatus(status: u32): Severity {
    if status == 0 then Healthy else if status == 0x8001_0000 then Warn else Serious
  }

  datatype Calibration = Calibration(countsPerForceUnit: real, countsPerTorqueUnit: real,
                                     forceUnit: string, torqueUnit: string)
  datatype SensorConfiguration = SensorConfiguration(calibration: Calibration, revision: nat)

  datatype RecoveryPolicy = Reconnect | FailStop

  datatype Config = Config(recoveryPolicy: RecoveryPolicy, sampleRateLimitHz: real, deliverWithErrorStatus: bool,
                           receiveTimeout: real, reconnectInitialDelay: real, reconnectMaxDelay: real)

  datatype Event =
    | Started                                    // start(): per-start data cleared
    | StartFailed                                // start() without a thread: cleared data put back
    | Configured(calibration: Calibration)       // apply_configuration
    | SessionBegan                               // both trackers told of a new session
    | Biased                                     // bias(): RDT baseline dropped
    | MalformedSeen
    | Decoded                                    // malformed run cleared
    | Observed(record: RawRecord, at: Time)      // first section of handle_record
    | Orphaned(record: RawRecord)                // the same without a configuration: trackers told, then an exception
    | ConversionFailed                           // a wrench component is not finite
    | CallbackFailed
    | Delivered(at: Time)                        // last section of handle_record
    | TimedOut
    | BackedOff
    | HealthRead(now: Time)

  /** Sections of other threads, which may come between any two of the worker's. */
  type Foreign = e: Event | e.Biased? || e.HealthRead? witness Biased

  function Front(h: seq<Event>): seq<Event>
    requires h != []
  {
    h[..|h| - 1]
  }

  function Last(h: seq<Event>): Event
    requires h != []
  {
    h[|h| - 1]
  }

  lemma Appended(h: seq<Event>, e: Event)
    ensures Front(h + [e]) == h && Last(h + [e]) == e
  {
  }

  // ---------------------------------------------------------------- trackers

  /** RDT words since the baseline was last dropped. */
  function RdtArrivals(h: seq<Event>): seq<u32> {
    if h == [] then []
    else match Last(h)
      case SessionBegan => []
      case Biased => []
      case Observed(r, _) => RdtArrivals(Front(h)) + [r.rdtSequence]
      case Orphaned(r) => RdtArrivals(Front(h)) + [r.rdtSequence]
      case _ => RdtArrivals(Front(h))
  }

  function FtEvents(h: seq<Event>): seq<FtEvent> {
    if h == [] then []
    else match Last(h)
      case SessionBegan => FtEvents(Front(h)) + [SessionStarts]
      case Observed(r, _) => FtEvents(Front(h)) + [Seen(r.ftSequence)]
      case Orphaned(r) => FtEvents(Front(h)) + [Seen(r.ftSequence)]
      case _ => FtEvents(Front(h))
  }

  predicate Arrives(e: Event) {
    e.Observed? || e.Orphaned?
  }

  /** How a record arriving after `h` is classified. */
  function RdtSeen(h: seq<Event>, r: RawRecord): SequenceObservation {
    RdtObservation(RdtRunOf(RdtArrivals(h)).tracker, r.rdtSequence)
  }

  function FtSeen(h: seq<Event>, r: RawRecord): FtKind {
    FtObservation(FtStateOf(FtEvents(h)), r.ftSequence)
  }

  /** One record steps both trackers. */
  lemma TrackersStep(xs: seq<u32>, es: seq<FtEvent>, r: RawRecord)
    ensures RdtRunOf(xs + [r.rdtSequence]).tracker == RdtNext(RdtRunOf(xs).tracker, r.rdtSequence)
    ensures FtStateOf(es + [Seen(r.ftSequence)]) == FtNext(FtStateOf(es), r.ftSequence)
  {
    assert (xs + [r.rdtSequence])[..|xs|] == xs;
    assert (es + [Seen(r.ftSequence)])[..|es|] == es;
  }

  /** Malformed datagrams since the last valid one or the last start; sessions do not clear it. */
  function MalformedRun(h: seq<Event>): nat {
    if h == [] then 0
    else match Last(h)
      case Started => 0
      case Decoded => 0
      case MalformedSeen => MalformedRun(Front(h)) + 1
      case _ => MalformedRun(Front(h))
  }

  // ---------------------------------------------------------------- delivery decision

  datatype Disposition = Suppressed | RateLimited | Handed

  /** Time of the last successful delivery of this start, or NEVER. */
  function LastDelivery(h: seq<Event>): Time {
    if h == [] then NEVER
    else match Last(h)
      case Started => NEVER
      case Delivered(at) => at
      case _ => LastDelivery(Front(h))
  }

  predicate Discontinuity(k: FtKind) {
    k == FtStall || k == FtBackward
  }

  predicate Withheld(cfg: Config, h: seq<Event>, r: RawRecord) {
    || !Advances(RdtSeen(h, r))
    || Discontinuity(FtSeen(h, r))
    || (ClassifyStatus(r.status) == Serious && !cfg.deliverWithErrorStatus)
  }

  predicate TooSoon(cfg: Config, last: Time, at: Time) {
    && cfg.sampleRateLimitHz > 0.0
    && last != NEVER
    && (at - last) as real / SECOND as real < 1.0 / cfg.sampleRateLimitHz
  }

  function Dispose(cfg: Config, h: seq<Event>, r: RawRecord, at: Time): Disposition {
    if Withheld(cfg, h, r) then Suppressed
    else if TooSoon(cfg, LastDelivery(h), at) then RateLimited
    else Handed
  }

  /** The time of the record that is on its way to the callback, if any. */
  function InFlight(cfg: Config, h: seq<Event>): Option<Time> {
    if h == [] then None
    else match Last(h)
      case Observed(r, at) => if Dispose(cfg, Front(h), r, at) == Handed then Some(at) else None
      case ConversionFailed => None
      case CallbackFailed => None
      case Delivered(_) => None
      case _ => InFlight(cfg, Front(h))
  }

  /** Whether `e` can be the next section: the single worker finishes a record before its next section,
      while bias and health come from any thread at any time. */
  predicate CanFollow(cfg: Config, h: seq<Event>, e: Event) {
    match e
    case Biased => true
    case HealthRead(_) => true
    case Delivered(at) => InFlight(cfg, h) == Some(at)
    case ConversionFailed => InFlight(cfg, h).Some?
    case CallbackFailed => InFlight(cfg, h).Some?
    case _ => InFlight(cfg, h).None?
  }

  predicate Legal(cfg: Config, h: seq<Event>) {
    h == [] || (Legal(cfg, Front(h)) && CanFollow(cfg, Front(h), Last(h)))
  }

  // ---------------------------------------------------------------- health counters

  datatype Health = Health(received: nat, delivered: nat, rateLimited: nat, deviceError: nat, warning: nat,
                           lost: nat, duplicate: nat, outOfOrder: nat, malformed: nat, reconnect: nat,
                           timeout: nat, callbackError: nat, ftStall: nat, ftBackward: nat, ftRestart: nat,
                           calibrationChange: nat, configuration: Option<SensorConfiguration>)

  const NO_HEALTH := Health(0, 0, 0, 0, 0, 0, 0, 0, 0, 0, 0, 0, 0, 0, 0, 0, None)

  function One(b: bool): nat {
    if b then 1 else 0
  }

  /** What one record adds to the counters. */
  function CountRecord(cfg: Config, h: seq<Event>, b: Health, r: RawRecord, at: Time): Health {
    var rdt := RdtSeen(h, r);
    var ft := FtSeen(h, r);
    b.(received := b.received + 1,
       lost := b.lost + rdt.gap,
       duplicate := b.duplicate + One(rdt.kind == Duplicate),
       outOfOrder := b.outOfOrder + One(rdt.kind == OutOfOrder),
       ftStall := b.ftStall + One(ft == FtStall),
       ftBackward := b.ftBackward + One(ft == FtBackward),
       ftRestart := b.ftRestart + One(ft == FtRestart),
       warning := b.warning + One(ClassifyStatus(r.status) == Warn),
       deviceError := b.deviceError + One(ClassifyStatus(r.status) == Serious),
       rateLimited := b.rateLimited + One(Dispose(cfg, h, r, at) == RateLimited))
  }

  function Reconfigure(b: Health, calibration: Calibration): Health {
    match b.configuration
    case None => b.(configuration := Some(SensorConfiguration(calibration, 1)))
    case Some(previous) =>
      if previous.calibration == calibration then b
      else b.(configuration := Some(SensorConfiguration(calibration, previous.revision + 1)),
              calibrationChange := b.calibrationChange + 1)
  }

  function HealthOf(cfg: Config, h: seq<Event>): Health {
    if h == [] then NO_HEALTH
    else
      var b := HealthOf(cfg, Front(h));
      match Last(h)
      case Observed(r, at) => CountRecord(cfg, Front(h), b, r, at)
      case Configured(c) => Reconfigure(b, c)
      case MalformedSeen => b.(malformed := b.malformed + 1)
      case CallbackFailed => b.(callbackError := b.callbackError + 1)
      case Delivered(_) => b.(delivered := b.delivered + 1)
      case TimedOut => b.(timeout := b.timeout + 1)
      case BackedOff => b.(reconnect := b.reconnect + 1)
      case _ => b
  }

  /** Sections of other threads never make a history illegal, and the worker finds all but the RDT baseline and the
      deques as it left them. */
  lemma {:induction false} ForeignKeeps(cfg: Config, h: seq<Event>, others: seq<Foreign>)
    ensures Legal(cfg, h + others) == Legal(cfg, h) && InFlight(cfg, h + others) == InFlight(cfg, h)
    ensures MalformedRun(h + others) == MalformedRun(h) && LastDelivery(h + others) == LastDelivery(h)
    ensures HealthOf(cfg, h + others) == HealthOf(cfg, h)
  {
    if others == [] {
      assert h + others == h;
    } else {
      var n := |others| - 1;
      ForeignKeeps(cfg, h, others[..n]);
      assert h + others == (h + others[..n]) + [others[n]];
      ForeignStep(cfg, h + others[..n], others[n]);
    }
  }

  lemma ForeignStep(cfg: Config, h: seq<Event>, e: Foreign)
    ensures Legal(cfg, h + [e]) == Legal(cfg, h) && InFlight(cfg, h + [e]) == InFlight(cfg, h)
    ensures MalformedRun(h + [e]) == MalformedRun(h) && LastDelivery(h + [e]) == LastDelivery(h)
    ensures HealthOf(cfg, h + [e]) == HealthOf(cfg, h)
  {
    hide Dispose, CountRecord, Reconfigure;
    Appended(h, e);
  }

  predicate NoneShrinks(b: Health, c: Health) {
    && b.received <= c.received && b.delivered <= c.delivered && b.rateLimited <= c.rateLimited
    && b.deviceError <= c.deviceError && b.warning <= c.warning && b.lost <= c.lost
    && b.duplicate <= c.duplicate && b.outOfOrder <= c.outOfOrder && b.malformed <= c.malformed
    && b.reconnect <= c.reconnect && b.timeout <= c.timeout && b.callbackError <= c.callbackError
    && b.ftStall <= c.ftStall && b.ftBackward <= c.ftBackward && b.ftRestart <= c.ftRestart
    && b.calibrationChange <= c.calibrationChange
    && (b.configuration.Some? ==> c.configuration.Some?)
  }

  lemma HealthNeverShrinks(cfg: Config, h: seq<Event>)
    requires h != []
    ensures NoneShrinks(HealthOf(cfg, Front(h)), HealthOf(cfg, h))
  {
    hide RdtSeen, FtSeen, Dispose, ClassifyStatus;
  }

  lemma ShrinkingIsTransitive(a: Health, b: Health, c: Health)
    requires NoneShrinks(a, b) && NoneShrinks(b, c)
    ensures NoneShrinks(a, c)
  {
  }

  /** Every counter is monotone over the whole life: neither sessions nor starts clear one. */
  lemma {:induction false} CountersMonotone(cfg: Config, h: seq<Event>, n: nat)
    requires n <= |h|
    ensures NoneShrinks(HealthOf(cfg, h[..n]), HealthOf(cfg, h))
  {
    if n < |h| {
      hide NoneShrinks, HealthOf;
      CountersMonotone(cfg, Front(h), n);
      SlicesAgree(h, n, |h| - 1);
      HealthNeverShrinks(cfg, h);
      ShrinkingIsTransitive(HealthOf(cfg, h[..n]), HealthOf(cfg, Front(h)), HealthOf(cfg, h));
    } else {
      assert h[..n] == h;
    }
  }

  /** The published revision is one more than the number of calibration changes. */
  lemma {:induction false} RevisionCountsChanges(cfg: Config, h: seq<Event>)
    ensures var b := HealthOf(cfg, h);
            match b.configuration
            case None => b.calibrationChange == 0
            case Some(c) => c.revision == 1 + b.calibrationChange
  {
    if h != [] {
      RevisionCountsChanges(cfg, Front(h));
    }
  }

  /** The history up to the last drop of the RDT baseline. */
  function ResetPrefix(h: seq<Event>): seq<Event> {
    if h == [] || Last(h) in {SessionBegan, Biased} then h else ResetPrefix(Front(h))
  }

  /** The gaps in front of records that an exception kept from being counted, since that drop. */
  function OrphanGaps(h: seq<Event>): nat {
    if h == [] || Last(h) in {SessionBegan, Biased} then 0
    else OrphanGaps(Front(h)) + (if Last(h).Orphaned? then RdtSeen(Front(h), Last(h).record).gap else 0)
  }

  lemma RunLost(xs: seq<u32>, x: u32)
    ensures RdtRunOf(xs + [x]).lost == RdtRunOf(xs).lost + RdtObservation(RdtRunOf(xs).tracker, x).gap
  {
    hide Distance;
    assert (xs + [x])[..|xs|] == xs;
  }

  lemma LostCounted(cfg: Config, h: seq<Event>)
    requires h != []
    ensures HealthOf(cfg, h).lost
            == HealthOf(cfg, Front(h)).lost + (if Last(h).Observed? then RdtSeen(Front(h), Last(h).record).gap else 0)
  {
    hide Dispose, RdtSeen, FtSeen, ClassifyStatus, Front, Last;
  }

  lemma LostInRun(h: seq<Event>)
    requires h != [] && Last(h) !in {SessionBegan, Biased}
    ensures RdtRunOf(RdtArrivals(h)).lost == RdtRunOf(RdtArrivals(Front(h))).lost
            + (if Arrives(Last(h)) then RdtSeen(Front(h), Last(h).record).gap else 0)
  {
    hide RdtRunOf, RdtObservation, Front, Last;
    if Arrives(Last(h)) {
      RunLost(RdtArrivals(Front(h)), Last(h).record.rdtSequence);
    }
  }

  lemma LostStep(cfg: Config, h: seq<Event>)
    requires h != [] && Last(h) !in {SessionBegan, Biased}
    ensures HealthOf(cfg, h).lost - HealthOf(cfg, Front(h)).lost + OrphanGaps(h) - OrphanGaps(Front(h))
            == RdtRunOf(RdtArrivals(h)).lost - RdtRunOf(RdtArrivals(Front(h))).lost
  {
    hide HealthOf, RdtSeen, RdtRunOf, RdtArrivals, Front, Last;
    LostCounted(cfg, h);
    LostInRun(h);
  }

  /** Between two drops of the baseline `lost_count` grows by exactly the summed gaps of the run, whose
      conservation law is LossConserved; only gaps in front of uncounted records are missing. */
  lemma {:induction false} LostGrowsByRun(cfg: Config, h: seq<Event>)
    ensures HealthOf(cfg, h).lost + OrphanGaps(h) == HealthOf(cfg, ResetPrefix(h)).lost + RdtRunOf(RdtArrivals(h)).lost
  {
    hide RdtRunOf, RdtArrivals, HealthOf;
    if h == [] || Last(h) in {SessionBegan, Biased} {
      RunStartsEmpty(h);
    } else {
      LostGrowsByRun(cfg, Front(h));
      LostStep(cfg, h);
    }
  }

  lemma RunStartsEmpty(h: seq<Event>)
    requires h == [] || Last(h) in {SessionBegan, Biased}
    ensures RdtRunOf(RdtArrivals(h)).lost == 0
  {
  }

  // ---------------------------------------------------------------- what every counter counts

  /** The counters of a health snapshot, but for the summed gaps of `lost`. */
  datatype Tally =
    | Received | Samples | Limits | Duplicates | OutOfOrders | Stalls | Backwards | Restarts | Warnings | DeviceErrors
    | Malformeds | Timeouts | Reconnects | CallbackErrors | CalibrationChanges

  function CounterOf(b: Health, t: Tally): nat {
    match t
    case Received => b.received
    case Samples => b.delivered
    case Limits => b.rateLimited
    case Duplicates => b.duplicate
    case OutOfOrders => b.outOfOrder
    case Stalls => b.ftStall
    case Backwards => b.ftBackward
    case Restarts => b.ftRestart
    case Warnings => b.warning
    case DeviceErrors => b.deviceError
    case Malformeds => b.malformed
    case Timeouts => b.timeout
    case Reconnects => b.reconnect
    case CallbackErrors => b.callbackError
    case CalibrationChanges => b.calibrationChange
  }

  /** The calibration applied last. */
  function LastCalibration(h: seq<Event>): Option<Calibration> {
    if h == [] then None
    else if Last(h).Configured? then Some(Last(h).calibration)
    else LastCalibration(Front(h))
  }

  /** Whether an event that follows `g` is one of those. */
  predicate Tallied(cfg: Config, t: Tally, g: seq<Event>, e: Event) {
    match t
    case Received => e.Observed?
    case Samples => e.Delivered?
    case Limits => e.Observed? && Dispose(cfg, g, e.record, e.at) == RateLimited
    case Duplicates => e.Observed? && RdtSeen(g, e.record).kind == Duplicate
    case OutOfOrders => e.Observed? && RdtSeen(g, e.record).kind == OutOfOrder
    case Stalls => e.Observed? && FtSeen(g, e.record) == FtStall
    case Backwards => e.Observed? && FtSeen(g, e.record) == FtBackward
    case Restarts => e.Observed? && FtSeen(g, e.record) == FtRestart
    case Warnings => e.Observed? && e.record.status == 0x8001_0000
    case DeviceErrors => e.Observed? && e.record.status !in {0, 0x8001_0000}
    case Malformeds => e.MalformedSeen?
    case Timeouts => e.TimedOut?
    case Reconnects => e.BackedOff?
    case CallbackErrors => e.CallbackFailed?
    case CalibrationChanges => e.Configured? && LastCalibration(g) !in {None, Some(e.calibration)}
  }

  function TalliedEvents(cfg: Config, t: Tally, h: seq<Event>): set<nat> {
    set i: nat | i < |h| && Tallied(cfg, t, h[..i], h[i])
  }

  lemma FrontAgrees(h: seq<Event>, i: nat)
    requires i < |h| - 1
    ensures Front(h)[..i] == h[..i] && Front(h)[i] == h[i]
  {
  }

  lemma TalliedStep(cfg: Config, t: Tally, h: seq<Event>)
    requires h != []
    ensures |TalliedEvents(cfg, t, h)| == |TalliedEvents(cfg, t, Front(h))| + One(Tallied(cfg, t, Front(h), Last(h)))
  {
    hide Tallied;
    var g, n := Front(h), |h| - 1;
    forall i: nat | i < n ensures Tallied(cfg, t, g[..i], g[i]) == Tallied(cfg, t, h[..i], h[i]) {
      FrontAgrees(h, i);
    }
    assert TalliedEvents(cfg, t, h) == TalliedEvents(cfg, t, g) + (if Tallied(cfg, t, g, h[n]) then {n} else {});
  }

  /** The configuration published is the one applied last. */
  lemma {:induction false} ConfigurationIsLast(cfg: Config, h: seq<Event>)
    ensures match HealthOf(cfg, h).configuration
            case None => LastCalibration(h) == None
            case Some(c) => LastCalibration(h) == Some(c.calibration)
  {
    hide CountRecord;
    if h != [] {
      ConfigurationIsLast(cfg, Front(h));
      if Last(h).Observed? {
        CountingConfigures(cfg, Front(h), HealthOf(cfg, Front(h)), Last(h).record, Last(h).at);
      }
    }
  }

  lemma CountingConfigures(cfg: Config, h: seq<Event>, b: Health, r: RawRecord, at: Time)
    ensures CountRecord(cfg, h, b, r, at).configuration == b.configuration
  {
    hide RdtSeen, FtSeen, Dispose, ClassifyStatus;
  }

  lemma RecordTallied(cfg: Config, t: Tally, h: seq<Event>, b: Health, r: RawRecord, at: Time)
    ensures CounterOf(CountRecord(cfg, h, b, r, at), t) == CounterOf(b, t) + One(Tallied(cfg, t, h, Observed(r, at)))
  {
    hide RdtSeen, FtSeen, Dispose, LastCalibration;
  }

  lemma ChangeTallied(cfg: Config, t: Tally, h: seq<Event>, b: Health, c: Calibration)
    requires match b.configuration
             case None => LastCalibration(h) == None
             case Some(previous) => LastCalibration(h) == Some(previous.calibration)
    ensures CounterOf(Reconfigure(b, c), t) == CounterOf(b, t) + One(Tallied(cfg, t, h, Configured(c)))
  {
    hide LastCalibration;
  }

  lemma CounterStep(cfg: Config, t: Tally, h: seq<Event>)
    requires h != []
    ensures CounterOf(HealthOf(cfg, h), t) == CounterOf(HealthOf(cfg, Front(h)), t) + One(Tallied(cfg, t, Front(h), Last(h)))
  {
    hide CountRecord, Reconfigure, RdtSeen, FtSeen, Dispose, Front, Last, LastCalibration;
    var g, e := Front(h), Last(h);
    if e.Observed? {
      RecordTallied(cfg, t, g, HealthOf(cfg, g), e.record, e.at);
    } else if e.Configured? {
      ConfigurationIsLast(cfg, g);
      ChangeTallied(cfg, t, g, HealthOf(cfg, g), e.calibration);
    }
  }

  /** Every counter is the number of the events it stands for, over the whole life. */
  lemma {:induction false} CountersCountEvents(cfg: Config, t: Tally, h: seq<Event>)
    ensures CounterOf(HealthOf(cfg, h), t) == |TalliedEvents(cfg, t, h)|
  {
    if h == [] {
      assert TalliedEvents(cfg, t, h) == {};
    } else {
      hide CounterOf, HealthOf, Tallied, TalliedEvents;
      CountersCountEvents(cfg, t, Front(h));
      TalliedStep(cfg, t, h);
      CounterStep(cfg, t, h);
    }
  }

  // ---------------------------------------------------------------- every record has one fate

  datatype Fate = Dropped | Limited | NotFinite | CallbackThrew | Accepted | Pending

  predicate Completes(e: Event) {
    e.ConversionFailed? || e.CallbackFailed? || e.Delivered?
  }

  function CompletionFate(e: Event): Fate
    requires Completes(e)
  {
    if e.ConversionFailed? then NotFinite else if e.CallbackFailed? then CallbackThrew else Accepted
  }

  /** The first completing section after a record was handed over. */
  function Completion(t: seq<Event>): Fate {
    if t == [] then Pending
    else if Completes(t[0]) then CompletionFate(t[0])
    else Completion(t[1..])
  }

  function FateOf(cfg: Config, h: seq<Event>, i: nat): Fate
    requires i < |h| && h[i].Observed?
  {
    match Dispose(cfg, h[..i], h[i].record, h[i].at)
    case Suppressed => Dropped
    case RateLimited => Limited
    case Handed => Completion(h[i + 1..])
  }

  function Records(h: seq<Event>): set<nat> {
    set i: nat | i < |h| && h[i].Observed?
  }

  function WithFate(cfg: Config, h: seq<Event>, f: Fate): set<nat> {
    set i: nat | i < |h| && h[i].Observed? && FateOf(cfg, h, i) == f
  }

  lemma {:induction false} CompletionAppend(t: seq<Event>, e: Event)
    ensures Completion(t + [e]) == if Completion(t) == Pending && Completes(e) then CompletionFate(e) else Completion(t)
  {
    if t != [] {
      CompletionAppend(t[1..], e);
      assert (t + [e])[1..] == t[1..] + [e];
    } else {
      assert (t + [e])[1..] == [];
    }
  }

  /** An event changes the fate of no record but the pending one. */
  lemma FateStep(cfg: Config, h: seq<Event>, i: nat)
    requires h != [] && i < |h| - 1 && h[i].Observed?
    ensures FateOf(cfg, h, i) == if FateOf(cfg, Front(h), i) == Pending && Completes(Last(h))
                                 then CompletionFate(Last(h)) else FateOf(cfg, Front(h), i)
  {
    var g := Front(h);
    assert g[..i] == h[..i];
    assert h[i + 1..] == g[i + 1..] + [Last(h)];
    CompletionAppend(g[i + 1..], Last(h));
  }

  function NewFate(d: Disposition): Fate {
    match d case Suppressed => Dropped case RateLimited => Limited case Handed => Pending
  }

  lemma WithFateStep(cfg: Config, h: seq<Event>, f: Fate)
    requires h != []
    ensures var g := Front(h); var e := Last(h); var was := WithFate(cfg, g, f);
            WithFate(cfg, h, f) ==
            if e.Observed? then was + (if NewFate(Dispose(cfg, g, e.record, e.at)) == f then {|g|} else {})
            else if !Completes(e) then was
            else if f == Pending then {}
            else if f == CompletionFate(e) then was + WithFate(cfg, g, Pending)
            else was
  {
    hide Dispose;
    var g, e := Front(h), Last(h);
    forall i: nat | i < |g| && h[i].Observed?
      ensures FateOf(cfg, h, i) == if FateOf(cfg, g, i) == Pending && Completes(e)
                                   then CompletionFate(e) else FateOf(cfg, g, i)
    {
      FateStep(cfg, h, i);
    }
    if e.Observed? {
      assert h[..|g|] == g;
      assert h[|g| + 1..] == [];
      assert FateOf(cfg, h, |g|) == NewFate(Dispose(cfg, g, e.record, e.at));
    }
    forall i: nat | i < |g| ensures g[i] == h[i] {
    }
  }

  lemma WithFateSize(cfg: Config, h: seq<Event>, f: Fate)
    requires h != []
    ensures var g := Front(h); var e := Last(h); var n := |WithFate(cfg, g, f)|;
            |WithFate(cfg, h, f)| ==
            if e.Observed? then n + One(NewFate(Dispose(cfg, g, e.record, e.at)) == f)
            else if !Completes(e) then n
            else if f == Pending then 0
            else if f == CompletionFate(e) then n + |WithFate(cfg, g, Pending)|
            else n
  {
    WithFateStep(cfg, h, f);
    assert f != Pending ==> WithFate(cfg, Front(h), Pending) !! WithFate(cfg, Front(h), f);
  }

  lemma RecordsSize(h: seq<Event>)
    requires h != []
    ensures |Records(h)| == |Records(Front(h))| + One(Last(h).Observed?)
  {
    var g := Front(h);
    forall i: nat | i < |g| ensures g[i] == h[i] {
    }
    assert Records(h) == Records(g) + (if Last(h).Observed? then {|g|} else {});
  }

  lemma HealthStep(cfg: Config, h: seq<Event>)
    requires h != []
    ensures var b := HealthOf(cfg, Front(h)); var c := HealthOf(cfg, h); var e := Last(h);
            && c.received == b.received + One(e.Observed?)
            && c.delivered == b.delivered + One(e.Delivered?)
            && c.callbackError == b.callbackError + One(e.CallbackFailed?)
            && c.rateLimited == b.rateLimited
                                + One(e.Observed? && Dispose(cfg, Front(h), e.record, e.at) == RateLimited)
  {
    hide RdtSeen, FtSeen, Dispose;
  }

  lemma FlightStep(cfg: Config, h: seq<Event>)
    requires h != [] && Legal(cfg, h)
    ensures Legal(cfg, Front(h))
    ensures InFlight(cfg, h).Some? == if Last(h).Observed? then Dispose(cfg, Front(h), Last(h).record, Last(h).at) == Handed
                                      else !Completes(Last(h)) && InFlight(cfg, Front(h)).Some?
    ensures Last(h).Observed? ==> InFlight(cfg, Front(h)).None?
    ensures Completes(Last(h)) ==> InFlight(cfg, Front(h)).Some?
  {
    hide Dispose;
  }

  /** The counters are the sizes of the sets of records with that fate, and at most one is pending. */
  lemma {:induction false} CountersCountFates(cfg: Config, h: seq<Event>)
    requires Legal(cfg, h)
    ensures |WithFate(cfg, h, Limited)| == HealthOf(cfg, h).rateLimited
    ensures |WithFate(cfg, h, Accepted)| == HealthOf(cfg, h).delivered
    ensures |WithFate(cfg, h, CallbackThrew)| == HealthOf(cfg, h).callbackError
    ensures |WithFate(cfg, h, Pending)| == One(InFlight(cfg, h).Some?)
  {
    if h == [] {
      return;
    }
    hide WithFate, Dispose, HealthOf, InFlight, Legal;
    FlightStep(cfg, h);
    HealthStep(cfg, h);
    CountersCountFates(cfg, Front(h));
    WithFateSize(cfg, h, Limited);
    WithFateSize(cfg, h, Accepted);
    WithFateSize(cfg, h, CallbackThrew);
    WithFateSize(cfg, h, Pending);
  }

  /** Every record has exactly one fate. */
  lemma {:induction false} FatesPartition(cfg: Config, h: seq<Event>)
    ensures HealthOf(cfg, h).received == |Records(h)|
    ensures |Records(h)| == |WithFate(cfg, h, Dropped)| + |WithFate(cfg, h, Limited)| + |WithFate(cfg, h, NotFinite)|
                            + |WithFate(cfg, h, CallbackThrew)| + |WithFate(cfg, h, Accepted)|
                            + |WithFate(cfg, h, Pending)|
  {
    if h == [] {
      return;
    }
    hide WithFate, Records, Dispose, HealthOf;
    HealthStep(cfg, h);
    FatesPartition(cfg, Front(h));
    RecordsSize(h);
    WithFateSize(cfg, h, Dropped);
    WithFateSize(cfg, h, Limited);
    WithFateSize(cfg, h, NotFinite);
    WithFateSize(cfg, h, CallbackThrew);
    WithFateSize(cfg, h, Accepted);
    WithFateSize(cfg, h, Pending);
  }

  /** Record conservation, in every reachable state of every interleaving. */
  lemma RecordsConserved(cfg: Config, h: seq<Event>)
    requires Legal(cfg, h)
    ensures var b := HealthOf(cfg, h);
            b.received == b.delivered + b.callbackError + b.rateLimited
                          + |WithFate(cfg, h, Dropped)| + |WithFate(cfg, h, NotFinite)| + One(InFlight(cfg, h).Some?)
  {
    CountersCountFates(cfg, h);
    FatesPartition(cfg, h);
  }

  // ---------------------------------------------------------------- order of the samples handed over

  predicate HandedAt(cfg: Config, h: seq<Event>, i: nat) {
    i < |h| && h[i].Observed? && Dispose(cfg, h[..i], h[i].record, h[i].at) == Handed
  }

  /** Device position after the `i`-th event. */
  function PositionAfter(h: seq<Event>, i: nat): FtPosition
    requires i < |h|
  {
    FtPositionOf(FtEvents(h[..i + 1]))
  }

  lemma ObservationMoves(h: seq<Event>)
    requires h != [] && Arrives(Last(h))
    ensures var s := FtStateOf(FtEvents(Front(h))); var k := FtSeen(Front(h), Last(h).record);
            && FtStateOf(FtEvents(h)) == FtNext(s, Last(h).record.ftSequence)
            && (s.hasLast && MovesBaseline(k) ==> Before(FtPositionOf(FtEvents(Front(h))), FtPositionOf(FtEvents(h))))
            && (!MovesBaseline(k) ==> FtPositionOf(FtEvents(h)) == FtPositionOf(FtEvents(Front(h))))
  {
    PositionMoves(FtEvents(Front(h)), Last(h).record.ftSequence);
  }

  /** Once something was seen the position never moves back, whatever happens: reconnects, biases, restarts. */
  lemma {:induction false} PositionNeverRetreats(h: seq<Event>, n: nat)
    requires n <= |h| && FtStateOf(FtEvents(h[..n])).hasLast
    ensures FtStateOf(FtEvents(h)).hasLast
    ensures AtOrBefore(FtPositionOf(FtEvents(h[..n])), FtPositionOf(FtEvents(h)))
  {
    if n == |h| {
      assert h[..n] == h;
    } else {
      assert Front(h)[..n] == h[..n];
      PositionNeverRetreats(Front(h), n);
      var es := FtEvents(Front(h));
      if Arrives(Last(h)) {
        ObservationMoves(h);
      } else if Last(h).SessionBegan? {
        assert (es + [SessionStarts])[..|es|] == es;
      }
    }
  }

  lemma SlicesAgree(h: seq<Event>, i: nat, j: nat)
    requires i <= j <= |h|
    ensures h[..j][..i] == h[..i]
  {
  }

  lemma SliceEnd(h: seq<Event>, i: nat)
    requires i < |h|
    ensures var g := h[..i + 1]; g != [] && Front(g) == h[..i] && Last(g) == h[i]
  {
  }

  predicate SeenAny(h: seq<Event>) {
    FtStateOf(FtEvents(h)).hasLast
  }

  function Position(h: seq<Event>): FtPosition {
    FtPositionOf(FtEvents(h))
  }

  /** A sample that is handed over moves the device position. */
  lemma HandedMoves(cfg: Config, h: seq<Event>, i: nat)
    requires HandedAt(cfg, h, i)
    ensures SeenAny(h[..i + 1]) && PositionAfter(h, i) == Position(h[..i + 1])
    ensures SeenAny(h[..i]) ==> Before(Position(h[..i]), PositionAfter(h, i))
  {
    hide RdtSeen, FtPositionOf, FtStateOf, FtEvents, Front, Last;
    SliceEnd(h, i);
    ObservationMoves(h[..i + 1]);
  }

  lemma {:induction false} PositionStays(h: seq<Event>, i: nat, j: nat)
    requires i <= j <= |h| && SeenAny(h[..i])
    ensures SeenAny(h[..j]) && AtOrBefore(Position(h[..i]), Position(h[..j]))
  {
    hide FtPositionOf, FtStateOf, FtEvents, AtOrBefore;
    SlicesAgree(h, i, j);
    PositionNeverRetreats(h[..j], i);
  }

  /** Over the whole life, samples handed to the callback strictly increase in
      (device restarts seen, unwrapped FT sequence). */
  lemma HandedStrictlyIncrease(cfg: Config, h: seq<Event>, i: nat, j: nat)
    requires i < j && HandedAt(cfg, h, i) && HandedAt(cfg, h, j)
    ensures Before(PositionAfter(h, i), PositionAfter(h, j))
  {
    hide SeenAny, Position, PositionAfter;
    HandedMoves(cfg, h, i);
    HandedMoves(cfg, h, j);
    PositionStays(h, i + 1, j);
  }

  predicate SameBaseline(h: seq<Event>, i: nat, j: nat) {
    forall k :: i < k < j < |h| ==> h[k] !in {SessionBegan, Biased}
  }

  /** One more arrival never lowers the high-water mark, and raises it when it is accepted. */
  lemma RunAppend(xs: seq<u32>, x: u32)
    ensures var r := RdtRunOf(xs); var r' := RdtRunOf(xs + [x]);
            && r'.tracker.hasLast
            && (r.tracker.hasLast ==> r.high <= r'.high)
            && (r.tracker.hasLast && Advances(RdtObservation(r.tracker, x)) ==> r.high < r'.high)
  {
    assert (xs + [x])[..|xs|] == xs;
    DistanceSplits(RdtRunOf(xs).tracker.previous, x);
  }

  /** Whether anything arrived since the baseline was dropped, and the unwrapped high-water mark. */
  predicate HasHigh(h: seq<Event>) {
    RdtRunOf(RdtArrivals(h)).tracker.hasLast
  }

  function High(h: seq<Event>): int {
    RdtRunOf(RdtArrivals(h)).high
  }

  lemma HighStep(h: seq<Event>)
    requires h != [] && Last(h) !in {SessionBegan, Biased}
    ensures HasHigh(Front(h)) ==> HasHigh(h) && High(Front(h)) <= High(h)
    ensures Arrives(Last(h)) ==> HasHigh(h)
    ensures Arrives(Last(h)) && HasHigh(Front(h)) && Advances(RdtSeen(Front(h), Last(h).record))
            ==> High(Front(h)) < High(h)
  {
    if Arrives(Last(h)) {
      RunAppend(RdtArrivals(Front(h)), Last(h).record.rdtSequence);
    }
    hide RdtRunOf;
  }

  lemma {:induction false} HighNeverRetreats(h: seq<Event>, n: nat)
    requires 0 < n <= |h| && HasHigh(h[..n])
    requires forall k :: n <= k < |h| ==> h[k] !in {SessionBegan, Biased}
    ensures HasHigh(h) && High(h[..n]) <= High(h)
  {
    if n == |h| {
      assert h[..n] == h;
    } else {
      hide HasHigh, High;
      assert Front(h)[..n] == h[..n];
      HighNeverRetreats(Front(h), n);
      HighStep(h);
    }
  }

  /** Within one RDT baseline they also strictly increase in unwrapped RDT sequence. */
  lemma HandedIncreaseWithinBaseline(cfg: Config, h: seq<Event>, i: nat, j: nat)
    requires i < j && HandedAt(cfg, h, i) && HandedAt(cfg, h, j) && SameBaseline(h, i, j)
    ensures High(h[..i + 1]) < High(h[..j + 1])
  {
    assert Advances(RdtSeen(h[..j], h[j].record));
    hide HasHigh, High, RdtSeen, Dispose, HandedAt, Front, Last;
    SliceEnd(h, i);
    SliceEnd(h, j);
    HighStep(h[..i + 1]);
    HighStep(h[..j + 1]);
    SlicesAgree(h, i + 1, j);
    HighNeverRetreats(h[..j], i + 1);
  }
}
