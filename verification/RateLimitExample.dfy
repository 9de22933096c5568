/** A start whose deliveries break the rate limit: the steady clock reads zero at the first of them. */
module RateLimitExample {
  import opened Sequence
  import opened Protocol
  import opened Clock
  import opened RecordHistory
  import opened RateWindow
  import opened Session

  const ONE_HERTZ := Config(FailStop, 1.0, false, 1.0, 1.0, 1.0)
  const UNITS := Calibration(1.0, 1.0, "N", "Nm")
  const FIRST_RECORD := RawRecord(0, 0, 0, 0, 0, 0, 0, 0, 0)
  const SECOND_RECORD := RawRecord(1, 1, 0, 0, 0, 0, 0, 0, 0)

  function Arrival(r: RawRecord, at: Time): Step {
    Step([], false, 0, false, Datagram(EncodeRecord(r), at, true, true, [], []))
  }

  /** Two records, one nanosecond apart, and a stop. */
  function TwoRecords(): Script {
    Script([], Opened(UNITS, [], 0), [Arrival(FIRST_RECORD, 0), Arrival(SECOND_RECORD, 1)], true, Wait([], 0, false))
  }

  function Taken(r: RawRecord, at: Time): seq<Event> {
    [Decoded, Observed(r, at), Delivered(at)]
  }

  function Prologue(): seq<Event> {
    [Started, Configured(UNITS), SessionBegan]
  }

  /** The whole life of the client. */
  function WholeLife(): seq<Event> {
    Prologue() + Taken(FIRST_RECORD, 0) + Taken(SECOND_RECORD, 1)
  }

  // ---------------------------------------------------------------- the two records are delivered

  /** What the worker keeps between two records, at a time when the limiter takes the last delivery for none. */
  predicate Holds(h: seq<Event>, rdt: RdtState, ft: FtState) {
    && RdtRunOf(RdtArrivals(h)).tracker == rdt
    && FtStateOf(FtEvents(h)) == ft
    && LastDelivery(h) == NEVER
    && HealthOf(ONE_HERTZ, h).configuration.Some?
  }

  predicate Plain(r: RawRecord, rdt: RdtState, ft: FtState) {
    && r.status == 0
    && RdtObservation(rdt, r.rdtSequence).kind in {First, Contiguous}
    && FtObservation(ft, r.ftSequence) in {FtFirst, FtForward}
  }

  lemma DecodedKeeps(h: seq<Event>, rdt: RdtState, ft: FtState)
    requires Holds(h, rdt, ft)
    ensures Holds(h + [Decoded], rdt, ft)
  {
    hide RdtRunOf, FtStateOf;
    Appended(h, Decoded);
  }

  lemma DeliveredKeeps(h: seq<Event>, rdt: RdtState, ft: FtState)
    requires Holds(h, rdt, ft)
    ensures Holds(h + [Delivered(NEVER)], rdt, ft)
  {
    hide RdtRunOf, FtStateOf;
    Appended(h, Delivered(NEVER));
  }

  lemma ObservedMoves(h: seq<Event>, rdt: RdtState, ft: FtState, r: RawRecord, at: Time)
    requires Holds(h, rdt, ft)
    ensures Holds(h + [Observed(r, at)], RdtNext(rdt, r.rdtSequence), FtNext(ft, r.ftSequence))
  {
    hide RdtRunOf, FtStateOf, RdtNext, FtNext, CountRecord;
    Appended(h, Observed(r, at));
    TrackersStep(RdtArrivals(h), FtEvents(h), r);
    CountsConfigured(h, HealthOf(ONE_HERTZ, h), r, at);
  }

  lemma CountsConfigured(h: seq<Event>, b: Health, r: RawRecord, at: Time)
    ensures CountRecord(ONE_HERTZ, h, b, r, at).configuration == b.configuration
  {
    hide RdtSeen, FtSeen, Dispose;
  }

  lemma PlainIsHanded(h: seq<Event>, rdt: RdtState, ft: FtState, r: RawRecord, at: Time)
    requires Holds(h, rdt, ft) && Plain(r, rdt, ft)
    ensures Dispose(ONE_HERTZ, h, r, at) == Handed && ObservedOutcome(ONE_HERTZ, h, r).None?
  {
    hide RdtRunOf, FtStateOf, RdtArrivals, FtEvents, LastDelivery, HealthOf, RdtObservation, FtObservation;
  }

  lemma PlainIsTaken(g: seq<Event>, rdt: RdtState, ft: FtState, r: RawRecord, at: Time, later: Time)
    requires Holds(g, rdt, ft) && Plain(r, rdt, ft)
    ensures TakeRecord(ONE_HERTZ, g, r, Arrival(r, at).reception, later)
            == Turn([Observed(r, at), Delivered(at)], later, None)
  {
    PlainIsHanded(g, rdt, ft, r, at);
    hide Dispose, ObservedOutcome, Plain;
    assert Arrival(r, at).reception == Datagram(EncodeRecord(r), at, true, true, [], []);
    assert [Observed(r, at)] + [] + [Delivered(at)] == [Observed(r, at), Delivered(at)];
  }

  lemma LaterDeadline(at: Time)
    requires 0 <= at <= 1
    ensures CheckedDeadline(at, 1.0) == Some(at + SECOND)
  {
    assert 1.0 * SECOND as real == SECOND as real;
  }

  lemma PlainTurn(h: seq<Event>, rdt: RdtState, ft: FtState, r: RawRecord, at: Time, deadline: Time)
    requires Holds(h, rdt, ft) && Plain(r, rdt, ft) && 0 <= at <= 1 && 0 < deadline
    ensures TakeTurn(ONE_HERTZ, h, deadline, Arrival(r, at)) == Turn(Taken(r, at), at + SECOND, None)
  {
    hide Plain, Holds, DecodeRecord, EncodeRecord, CheckedDeadline, MalformedRun, TakeRecord;
    assert h + [] == h && [Decoded] + [] == [Decoded];
    DecodeInvertsEncode(r);
    EncodingIsNotEmpty(r);
    LaterDeadline(at);
    DecodedKeeps(h, rdt, ft);
    PlainIsTaken(h + [Decoded], rdt, ft, r, at, at + SECOND);
    assert [] + Taken(r, at) == Taken(r, at) == [Decoded] + [Observed(r, at), Delivered(at)];
  }

  lemma EncodingIsNotEmpty(r: RawRecord)
    ensures EncodeRecord(r) != []
  {
  }

  /** Nothing seen and nothing delivered. */
  predicate Untouched(h: seq<Event>) {
    RdtArrivals(h) == [] && FtEvents(h) == [] && LastDelivery(h) == NEVER
  }

  lemma StartTouchesNothing()
    ensures Untouched([Started])
  {
    Appended([], Started);
    assert [] + [Started] == [Started];
    assert RdtArrivals([]) == [] && FtEvents([]) == [];
  }

  lemma ConfiguringTouchesNothing(h: seq<Event>)
    requires Untouched(h)
    ensures Untouched(h + [Configured(UNITS)])
    ensures HealthOf(ONE_HERTZ, h + [Configured(UNITS)]).configuration.Some?
  {
    Appended(h, Configured(UNITS));
    hide Front, Last;
  }

  lemma SessionHolds(h: seq<Event>)
    requires Untouched(h) && HealthOf(ONE_HERTZ, h).configuration.Some?
    ensures Holds(h + [SessionBegan], FRESH_RDT, FRESH_FT)
  {
    Appended(h, SessionBegan);
    hide RdtRunOf, FtStateOf, Front, Last;
    EmptyRun();
    SessionAlone();
  }

  lemma Opens()
    ensures Holds(Prologue(), FRESH_RDT, FRESH_FT)
  {
    hide Untouched, HealthOf, Holds;
    StartTouchesNothing();
    ConfiguringTouchesNothing([Started]);
    SessionHolds([Started] + [Configured(UNITS)]);
    assert Prologue() == [Started] + [Configured(UNITS)] + [SessionBegan];
  }

  lemma EmptyRun()
    ensures RdtRunOf([]).tracker == FRESH_RDT
  {
  }

  lemma SessionAlone()
    ensures FtStateOf([] + [SessionStarts]) == FRESH_FT
  {
    assert ([] + [SessionStarts])[..0] == [];
  }

  /** After the first record. */
  const RDT_AT_ZERO := RdtState(true, 0)
  const FT_AT_ZERO := FtState(true, 0, false, 0)

  lemma BothArePlain()
    ensures Plain(FIRST_RECORD, FRESH_RDT, FRESH_FT) && Plain(SECOND_RECORD, RDT_AT_ZERO, FT_AT_ZERO)
    ensures RdtNext(FRESH_RDT, 0) == RDT_AT_ZERO && FtNext(FRESH_FT, 0) == FT_AT_ZERO
  {
  }

  lemma FirstTaken(g: seq<Event>)
    requires g == Prologue() + Taken(FIRST_RECORD, 0)
    ensures Holds(g, RDT_AT_ZERO, FT_AT_ZERO)
  {
    hide Holds, RdtNext, FtNext, Plain;
    BothArePlain();
    Opens();
    var h := Prologue();
    DecodedKeeps(h, FRESH_RDT, FRESH_FT);
    ObservedMoves(h + [Decoded], FRESH_RDT, FRESH_FT, FIRST_RECORD, 0);
    DeliveredKeeps(h + [Decoded] + [Observed(FIRST_RECORD, 0)], RDT_AT_ZERO, FT_AT_ZERO);
    assert g == h + [Decoded] + [Observed(FIRST_RECORD, 0)] + [Delivered(0)];
  }

  lemma ReceivesBoth()
    ensures var steps := TwoRecords().steps;
            var run := Receive(ONE_HERTZ, Prologue(), SECOND, steps, 0, 0, 0);
            run.history == WholeLife() && run.end == Returned(Stopped)
  {
    hide Receive, TakeTurn, Holds, Plain, Taken, Prologue, CountIn;
    var s1, s2 := Arrival(FIRST_RECORD, 0), Arrival(SECOND_RECORD, 1);
    var h, e1, e2 := Prologue(), Taken(FIRST_RECORD, 0), Taken(SECOND_RECORD, 1);
    BothArePlain();
    Opens();
    FirstTaken(h + e1);
    PlainTurn(h, FRESH_RDT, FRESH_FT, FIRST_RECORD, 0, SECOND);
    PlainTurn(h + e1, RDT_AT_ZERO, FT_AT_ZERO, SECOND_RECORD, 1, SECOND);
    var v1, m1 := CountIn(e1, Decoded), CountIn(e1, MalformedSeen);
    ReceiveUnfolds(ONE_HERTZ, h, SECOND, [s1, s2], 0, 0, 0);
    assert [s1, s2][1..] == [s2];
    ReceiveUnfolds(ONE_HERTZ, h + e1, SECOND, [s2], v1, m1, 1);
    assert [s2][1..] == [];
    ReceiveNothing(ONE_HERTZ, h + e1 + e2, 1 + SECOND, v1 + CountIn(e2, Decoded), m1 + CountIn(e2, MalformedSeen), 2);
  }

  lemma LivesIt()
    ensures Lived(ONE_HERTZ, [Life([], [TwoRecords()])]) == WholeLife()
  {
    hide Receive, WholeLife;
    var life := Life([], [TwoRecords()]);
    assert [life][..0] == [];
    assert [] + [] + [Started] == [Started];
    var script := TwoRecords();
    assert OpenedHistory([Started], script) == Prologue();
    LaterDeadline(0);
    ReceivesBoth();
    hide CheckedDeadline, OpenedHistory, Delay;
    assert RunSession(ONE_HERTZ, [Started], script).history == WholeLife();
    assert RunClient(ONE_HERTZ, [Started], 0, [script], [], 0).history == WholeLife();
  }

  // ---------------------------------------------------------------- and break the limit

  lemma TakenTimes(h: seq<Event>, r: RawRecord, at: Time)
    requires WellTimed(h) && NotAfter(LatestRecord(h), at)
    ensures var h' := h + Taken(r, at);
            Times(Deliveries, h') == Times(Deliveries, h) + [at] && LatestRecord(h') == Some(at) && WellTimed(h')
  {
    hide Times, WellTimed, LatestRecord;
    TimesStep(h, Decoded);
    TimesStep(h + [Decoded], Observed(r, at));
    TimesStep(h + [Decoded] + [Observed(r, at)], Delivered(at));
    assert h + [Decoded] + [Observed(r, at)] + [Delivered(at)] == h + Taken(r, at);
  }

  lemma BothTimes()
    ensures Times(Deliveries, WholeLife()) == [0, 1] && WellTimed(WholeLife())
  {
    hide Times, WellTimed, LatestRecord, Prologue, Taken;
    OpeningTimes();
    TakenTimes(Prologue(), FIRST_RECORD, 0);
    TakenTimes(Prologue() + Taken(FIRST_RECORD, 0), SECOND_RECORD, 1);
    assert [] + [0] + [1] == [0, 1];
  }

  lemma OpeningTimes()
    ensures Times(Deliveries, Prologue()) == [] && LatestRecord(Prologue()) == None && WellTimed(Prologue())
  {
    var h1: seq<Event> := [Started];
    var h2 := h1 + [Configured(UNITS)];
    assert [] + [Started] == h1 && Prologue() == h2 + [SessionBegan];
    hide Times, WellTimed, LatestRecord;
    NoTimes();
    TimesStep([], Started);
    TimesStep(h1, Configured(UNITS));
    TimesStep(h2, SessionBegan);
  }

  lemma NoTimes()
    ensures Times(Deliveries, []) == [] && LatestRecord([]) == None && WellTimed([])
  {
  }

  lemma TimesStep(h: seq<Event>, e: Event)
    requires !e.HealthRead?
    ensures Times(Deliveries, h + [e]) == if e.Started? then [] else if e.Delivered? then Times(Deliveries, h) + [e.at]
                                          else Times(Deliveries, h)
    ensures LatestRecord(h + [e]) == if e.Observed? then Some(e.at) else LatestRecord(h)
    ensures WellTimed(h + [e]) == (WellTimed(h) && (e.Observed? ==> NotAfter(LatestRecord(h), e.at)))
  {
    Appended(h, e);
  }

  /** The exception made for the time "never" is real, in the first start of a fail-stop client: a delivery at clock
      value zero switches the limit off for the next record, here one nanosecond later under a limit of one per second,
      and the window between the two holds one delivery too many. */
  lemma DeliveryAtNeverIsForgotten()
    ensures var h := Lived(ONE_HERTZ, [Life([], [TwoRecords()])]);
            var ts := Times(Deliveries, h);
            && ValidConfig(ONE_HERTZ) && Legal(ONE_HERTZ, h) && WellTimed(h)
            && ts == [0, 1] && !Spaced(1.0, ts) && !WindowHolds(1.0, ts, 0, 1, 0)
  {
    hide Legal, InFlight, Times, WellTimed, Lived, TwoRecords, WholeLife, WindowHolds;
    LivesAreLegal(ONE_HERTZ, [Life([], [TwoRecords()])]);
    LivesIt();
    BothTimes();
    LaterDeadline(0);
    var ts: seq<Time> := [0, 1];
    assert !FarFromNext(1.0, ts, 0);
    CloseOverfills(1.0, ts, 0);
  }
}
