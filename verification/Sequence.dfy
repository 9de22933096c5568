/** 32-bit counters as the device sends them, and the signed distance between two of them. */
module Words {
  const WORD: int := 0x1_0000_0000
  const HALF: int := 0x8000_0000

  type u32 = x: int | 0 <= x < 0x1_0000_0000

  /** The low 32 bits of a number. */
  function Low32(n: int): u32 {
    n % WORD
  }

  /** Unsigned 32-bit subtraction, with wrap-around. */
  function Sub32(a: u32, b: u32): u32 {
    (a - b) % WORD
  }

  /** The representative of `to - from` in [-2^31, 2^31). */
  function Distance(from: u32, to: u32): int {
    (to - from + HALF) % WORD - HALF
  }

  lemma DistanceSplits(from: u32, to: u32)
    ensures -HALF <= Distance(from, to) < HALF
    ensures Sub32(to, from) < HALF ==> Distance(from, to) == Sub32(to, from)
    ensures Sub32(to, from) >= HALF ==> Distance(from, to) == Sub32(to, from) - WORD
    ensures Distance(from, to) == 0 <==> from == to
    ensures Low32(from + Distance(from, to)) == to
  {
  }

  lemma WrapUnique(a: int, k: int)
    ensures (a + k * WORD) % WORD == a % WORD
  {
  }

  /** Inside the half-range window the distance of the low words is the true difference. */
  lemma DistanceOfTruth(from: int, to: int)
    requires -HALF <= to - from < HALF
    ensures Distance(Low32(from), Low32(to)) == to - from
  {
    var d := Low32(to) - Low32(from);
    var k := to / WORD - from / WORD;
    assert to - from == d + k * WORD;
    WrapUnique(d + HALF, k);
    assert (d + HALF + k * WORD) == to - from + HALF;
  }

  lemma Low32Shift(n: int, d: int)
    ensures Low32(Low32(n) + d) == Low32(n + d)
  {
    WrapUnique(n % WORD + d, n / WORD);
    assert n % WORD + d + (n / WORD) * WORD == n + d;
  }
}

/** The RDT and FT sequence trackers (src/core/src/detail/sequence.cpp). */
module Sequence {
  import opened Words

  const RESTART_LOW_MAX: u32 := 0x0000ffff
  const RESTART_MIN_BASELINE: u32 := 0x00010000

  datatype SequenceKind = First | Contiguous | Gap | Duplicate | OutOfOrder
  datatype SequenceObservation = SequenceObservation(kind: SequenceKind, gap: nat)
  datatype RdtState = RdtState(hasLast: bool, previous: u32)

  datatype FtKind = FtFirst | FtForward | FtStall | FtBackward | FtRestart
  datatype FtState = FtState(hasLast: bool, previous: u32, hasCandidate: bool, candidate: u32)

  const FRESH_RDT := RdtState(false, 0)
  const FRESH_FT := FtState(false, 0, false, 0)

  // ---------------------------------------------------------------- RDT tracker

  /** What an arrival at signed distance `d` from the high-water mark is. */
  function ClassifyDistance(d: int): SequenceObservation {
    if d == 0 then SequenceObservation(Duplicate, 0)
    else if d == 1 then SequenceObservation(Contiguous, 0)
    else if d > 1 then SequenceObservation(Gap, d - 1)
    else SequenceObservation(OutOfOrder, 0)
  }

  function RdtObservation(s: RdtState, current: u32): SequenceObservation {
    if !s.hasLast then SequenceObservation(First, 0)
    else ClassifyDistance(Distance(s.previous, current))
  }

  predicate Advances(o: SequenceObservation) {
    o.kind in {First, Contiguous, Gap}
  }

  function RdtNext(s: RdtState, current: u32): RdtState {
    if Advances(RdtObservation(s, current)) then RdtState(true, current) else s
  }

  class RdtSequenceTracker {
    var hasLast: bool
    var previous: u32

    ghost function State(): RdtState
      reads this
    {
      RdtState(hasLast, previous)
    }

    constructor ()
      ensures State() == FRESH_RDT
    {
      hasLast, previous := false, 0;
    }

    /** The body works on unsigned words; the contract on signed distances. */
    method Observe(current: u32) returns (o: SequenceObservation)
      modifies this
      ensures o == RdtObservation(old(State()), current)
      ensures State() == RdtNext(old(State()), current)
    {
      if !hasLast {
        hasLast := true;
        previous := current;
        return SequenceObservation(First, 0);
      }
      var delta := Sub32(current, previous);
      DistanceSplits(previous, current);
      if delta == 0 {
        return SequenceObservation(Duplicate, 0);
      }
      if delta < HALF {
        previous := current;
        return if delta == 1 then SequenceObservation(Contiguous, 0) else SequenceObservation(Gap, delta - 1);
      }
      return SequenceObservation(OutOfOrder, 0);
    }

    method Reset()
      modifies this
      ensures !hasLast && previous == old(previous)
    {
      hasLast := false;
    }
  }

  /** The arrivals since the last reset, summed up over unbounded integers. */
  datatype RdtRun = RdtRun(tracker: RdtState, accepted: nat, lost: nat, base: int, high: int)

  function ExtendRun(r: RdtRun, current: u32): RdtRun {
    var o := RdtObservation(r.tracker, current);
    var next := RdtNext(r.tracker, current);
    match o.kind
    case First => RdtRun(next, r.accepted + 1, r.lost, current, current)
    case Contiguous => RdtRun(next, r.accepted + 1, r.lost, r.base, r.high + Distance(r.tracker.previous, current))
    case Gap => RdtRun(next, r.accepted + 1, r.lost + o.gap, r.base, r.high + Distance(r.tracker.previous, current))
    case Duplicate => r
    case OutOfOrder => r
  }

  function RdtRunOf(xs: seq<u32>): RdtRun {
    if xs == [] then RdtRun(FRESH_RDT, 0, 0, 0, 0)
    else ExtendRun(RdtRunOf(xs[..|xs| - 1]), xs[|xs| - 1])
  }

  lemma ExtendByDistance(r: RdtRun, x: u32)
    requires r.tracker.hasLast
    ensures var d := Distance(r.tracker.previous, x);
            && RdtObservation(r.tracker, x) == ClassifyDistance(d)
            && ExtendRun(r, x).tracker == (if d > 0 then RdtState(true, x) else r.tracker)
            && ExtendRun(r, x).high == r.high + (if d > 0 then d else 0)
            && ExtendRun(r, x).base == r.base
  {
  }

  /** Accepted records plus summed gaps make up the unwrapped span, over any number of wraps. */
  lemma {:induction false} LossConserved(xs: seq<u32>)
    ensures var r := RdtRunOf(xs);
            && r.tracker.hasLast == (xs != [])
            && (xs != [] ==> r.accepted + r.lost == r.high - r.base + 1
                             && Low32(r.high) == r.tracker.previous)
  {
    if xs != [] {
      var n := |xs| - 1;
      LossConserved(xs[..n]);
      var r := RdtRunOf(xs[..n]);
      if r.tracker.hasLast {
        var d := Distance(r.tracker.previous, xs[n]);
        DistanceSplits(r.tracker.previous, xs[n]);
        Low32Shift(r.high, d);
      }
    }
  }

  /** Serial-number comparison of section 3.2 of RFC 1982, with SERIAL_BITS = 32. */
  predicate SerialLess(a: u32, b: u32) {
    || (a < b && b - a < HALF)
    || (a > b && a - b > HALF)
  }

  /** The tracker accepts exactly the serially greater values; the distance that the
      RFC leaves undefined is treated as out of order. */
  lemma AcceptsSerialGreater(s: RdtState, current: u32)
    requires s.hasLast
    ensures Advances(RdtObservation(s, current)) <==> SerialLess(s.previous, current)
    ensures RdtObservation(s, current).kind == OutOfOrder
            <==> SerialLess(current, s.previous) || (current - s.previous == HALF || s.previous - current == HALF)
    ensures RdtObservation(s, current).kind == Duplicate <==> current == s.previous
  {
    DistanceSplits(s.previous, current);
  }

  // ----- the 32-bit classification against true, unbounded sequence numbers

  function Max(ts: seq<int>): (m: int)
    requires ts != []
    ensures m in ts
    ensures forall t :: t in ts ==> t <= m
  {
    var last := ts[|ts| - 1];
    if |ts| == 1 then last
    else
      var m := Max(ts[..|ts| - 1]);
      assert forall t :: t in ts ==> t in ts[..|ts| - 1] || t == last;
      if last > m then last else m
  }

  function Words32(ts: seq<int>): (ws: seq<u32>)
    ensures |ws| == |ts|
  {
    seq(|ts|, i requires 0 <= i < |ts| => Low32(ts[i]))
  }

  /** What a tracker that saw the true numbers would say about the last of them. */
  function TrueObservation(ts: seq<int>): SequenceObservation
    requires ts != []
  {
    var n := |ts| - 1;
    if n == 0 then SequenceObservation(First, 0)
    else ClassifyDistance(ts[n] - Max(ts[..n]))
  }

  /** Every arrival lies within half the range of the high-water mark before it. */
  predicate InHalfWindow(ts: seq<int>) {
    forall i :: 0 < i < |ts| ==> -HALF <= ts[i] - Max(ts[..i]) < HALF
  }

  /** The true numbers that moved the high-water mark. */
  function AcceptedNumbers(ts: seq<int>): set<int> {
    if ts == [] then {}
    else
      var n := |ts| - 1;
      AcceptedNumbers(ts[..n]) + (if Advances(TrueObservation(ts)) then {ts[n]} else {})
  }

  function Interval(lo: int, hi: int): (r: set<int>)
    ensures forall n :: n in r <==> lo <= n < hi
    ensures lo <= hi ==> |r| == hi - lo
    decreases hi - lo
  {
    if hi <= lo then {} else Interval(lo, hi - 1) + {hi - 1}
  }

  /** Numbers of the span that never arrived in order. */
  function MissingNumbers(ts: seq<int>): set<int>
    requires ts != []
  {
    Interval(ts[0], Max(ts) + 1) - AcceptedNumbers(ts)
  }

  lemma PrefixKeepsWindow(ts: seq<int>)
    requires |ts| > 1 && InHalfWindow(ts)
    ensures InHalfWindow(ts[..|ts| - 1])
  {
    var us := ts[..|ts| - 1];
    forall i | 0 < i < |us| ensures -HALF <= us[i] - Max(us[..i]) < HALF {
      assert us[..i] == ts[..i];
    }
  }

  lemma {:induction false} AcceptedBounded(ts: seq<int>)
    requires ts != []
    ensures forall x :: x in AcceptedNumbers(ts) ==> ts[0] <= x <= Max(ts)
  {
    var n := |ts| - 1;
    if n > 0 {
      AcceptedBounded(ts[..n]);
      assert ts[..n][0] == ts[0];
      assert ts[0] in ts[..n];
    } else {
      assert ts[..n] == [];
    }
  }

  lemma WordsFront(ts: seq<int>)
    requires ts != []
    ensures var n := |ts| - 1; Words32(ts)[..n] == Words32(ts[..n]) && Words32(ts)[n] == Low32(ts[n])
  {
    hide Low32;
  }

  lemma RunLast(xs: seq<u32>)
    requires xs != []
    ensures RdtRunOf(xs) == ExtendRun(RdtRunOf(xs[..|xs| - 1]), xs[|xs| - 1])
  {
    hide ExtendRun;
  }

  /** One arrival near a true high-water mark. */
  lemma TruthStep(r: RdtRun, high: int, t: int)
    requires r.tracker == RdtState(true, Low32(high)) && -HALF <= t - high < HALF
    ensures RdtObservation(r.tracker, Low32(t)) == ClassifyDistance(t - high)
    ensures var r' := ExtendRun(r, Low32(t));
            && r'.tracker == RdtState(true, Low32(if t > high then t else high))
            && r'.high - r'.base == r.high - r.base + (if t > high then t - high else 0)
  {
    hide Distance, Low32, ClassifyDistance, ExtendRun;
    DistanceOfTruth(high, t);
    ExtendByDistance(r, Low32(t));
  }

  lemma TruthOfOne(t: int)
    ensures var r := RdtRunOf([Low32(t)]);
            && r.tracker == RdtState(true, Low32(t)) && r.high == r.base
            && RdtObservation(RdtRunOf([]).tracker, Low32(t)) == SequenceObservation(First, 0)
  {
    hide Low32, Distance;
    assert [Low32(t)][..0] == [];
  }

  /** In the half-range window the 32-bit tracker classifies every arrival as the comparison of the
      true numbers does, and its high-water mark is the true maximum. */
  lemma {:induction false} TracksTruth(ts: seq<int>)
    requires ts != [] && InHalfWindow(ts)
    ensures var ws := Words32(ts); var n := |ts| - 1;
            && RdtObservation(RdtRunOf(ws[..n]).tracker, ws[n]) == TrueObservation(ts)
            && RdtRunOf(ws).tracker == RdtState(true, Low32(Max(ts)))
            && RdtRunOf(ws).high - RdtRunOf(ws).base == Max(ts) - ts[0]
  {
    var ws, n := Words32(ts), |ts| - 1;
    WordsFront(ts);
    if n == 0 {
      TruthOfOne(ts[0]);
      assert ws == [Low32(ts[0])] && ws[..0] == [];
    } else {
      assert -HALF <= ts[n] - Max(ts[..n]) < HALF;
      MaxStep(ts);
      PrefixKeepsWindow(ts);
      hide Words32, RdtRunOf, RdtObservation, ExtendRun, InHalfWindow, Max, Low32;
      TracksTruth(ts[..n]);
      RunLast(ws);
      TruthStep(RdtRunOf(ws[..n]), Max(ts[..n]), ts[n]);
    }
  }

  lemma LossStep(ts: seq<int>)
    requires |ts| > 1 && InHalfWindow(ts)
    ensures var us := ts[..|ts| - 1]; var t := ts[|ts| - 1]; var r := RdtRunOf(Words32(us));
            && RdtRunOf(Words32(ts)).lost == r.lost + (if t > Max(us) then t - Max(us) - 1 else 0)
            && RdtRunOf(Words32(ts)).accepted == r.accepted + (if t > Max(us) then 1 else 0)
  {
    hide Words32, RdtRunOf, RdtObservation, Distance, Low32;
    var n := |ts| - 1;
    TracksTruth(ts);
    PrefixKeepsWindow(ts);
    TracksTruth(ts[..n]);
    WordsFront(ts);
    RunLast(Words32(ts));
  }

  /** In the half-range window the loss total is the number of true numbers of the span
      that never arrived in order, and the accepted total the number of those that did. */
  lemma {:induction false} LossCountsMissing(ts: seq<int>)
    requires ts != [] && InHalfWindow(ts)
    ensures RdtRunOf(Words32(ts)).lost == |MissingNumbers(ts)|
    ensures RdtRunOf(Words32(ts)).accepted == |AcceptedNumbers(ts)|
  {
    if |ts| == 1 {
      assert Words32(ts)[..0] == [];
      assert ts[..0] == [];
      assert MissingNumbers(ts) == {};
    } else {
      LossStep(ts);
      PrefixKeepsWindow(ts);
      LossCountsMissing(ts[..|ts| - 1]);
      MissingGrows(ts);
      AcceptedGrows(ts);
    }
  }

  lemma MaxStep(ts: seq<int>)
    requires |ts| > 1
    ensures var us := ts[..|ts| - 1]; var t := ts[|ts| - 1];
            Max(ts) == if t > Max(us) then t else Max(us)
  {
  }

  lemma AcceptedGrows(ts: seq<int>)
    requires |ts| > 1
    ensures var us := ts[..|ts| - 1]; var t := ts[|ts| - 1];
            && AcceptedNumbers(ts) == AcceptedNumbers(us) + (if t > Max(us) then {t} else {})
            && |AcceptedNumbers(ts)| == |AcceptedNumbers(us)| + (if t > Max(us) then 1 else 0)
  {
    AcceptedBounded(ts[..|ts| - 1]);
  }

  lemma MissingGrows(ts: seq<int>)
    requires |ts| > 1
    ensures var us := ts[..|ts| - 1]; var t := ts[|ts| - 1];
            |MissingNumbers(ts)| == |MissingNumbers(us)| + (if t > Max(us) then t - Max(us) - 1 else 0)
  {
    hide Interval, Max, AcceptedNumbers;
    var us, t := ts[..|ts| - 1], ts[|ts| - 1];
    AcceptedBounded(us);
    AcceptedGrows(ts);
    MaxStep(ts);
    FirstAtMost(us);
    SpanGrows(ts[0], Max(us), t, AcceptedNumbers(us));
  }

  lemma FirstAtMost(ts: seq<int>)
    requires ts != []
    ensures ts[0] <= Max(ts)
  {
    assert ts[0] in ts;
  }

  lemma SpanGrows(lo: int, high: int, t: int, accepted: set<int>)
    requires lo <= high
    requires forall x :: x in accepted ==> lo <= x <= high
    ensures t > high ==> |Interval(lo, t + 1) - (accepted + {t})|
                         == |Interval(lo, high + 1) - accepted| + t - high - 1
  {
    if t > high {
      DifferenceSize(Interval(lo, t + 1), accepted + {t});
      DifferenceSize(Interval(lo, high + 1), accepted);
    }
  }

  lemma DifferenceSize(a: set<int>, b: set<int>)
    requires b <= a
    ensures |a - b| == |a| - |b|
  {
    assert a == (a - b) + b;
  }

  /** One step, exactly: the word-sized classification and gap equal the true ones if and only if the
      arrival is less than half the range ahead and, when it is behind, its low word is also behind. */
  lemma ClassificationExact(high: int, t: int)
    ensures ClassifyDistance(Distance(Low32(high), Low32(t))) == ClassifyDistance(t - high)
            <==> t - high < HALF && (t < high ==> Sub32(Low32(t), Low32(high)) >= HALF)
  {
    DistanceSplits(Low32(high), Low32(t));
    var d := Distance(Low32(high), Low32(t));
    var k := (t / WORD - high / WORD);
    assert t - high == Low32(t) - Low32(high) + k * WORD;
    if -HALF <= t - high < HALF {
      DistanceOfTruth(high, t);
    }
  }

  // ---------------------------------------------------------------- FT tracker

  /** Device restart: two increasing low values in a row behind a baseline that is not low. */
  predicate ConfirmsRestart(s: FtState, current: u32) {
    && s.previous >= RESTART_MIN_BASELINE
    && s.hasCandidate
    && s.candidate < current <= RESTART_LOW_MAX
  }

  function FtObservation(s: FtState, current: u32): FtKind {
    if !s.hasLast then FtFirst
    else
      var d := Distance(s.previous, current);
      if d == 0 then FtStall
      else if d > 0 then FtForward
      else if ConfirmsRestart(s, current) then FtRestart
      else FtBackward
  }

  function FtNext(s: FtState, current: u32): FtState {
    match FtObservation(s, current)
    case FtFirst => FtState(true, current, s.hasCandidate, s.candidate)
    case FtForward => FtState(true, current, false, s.candidate)
    case FtStall => FtState(true, s.previous, false, s.candidate)
    case FtBackward => FtState(true, s.previous, true, current)
    case FtRestart => FtState(true, current, false, s.candidate)
  }

  class FtSequenceTracker {
    var hasLast: bool
    var previous: u32
    var hasCandidate: bool
    var candidate: u32

    ghost function State(): FtState
      reads this
    {
      FtState(hasLast, previous, hasCandidate, candidate)
    }

    constructor ()
      ensures State() == FRESH_FT
    {
      hasLast, previous, hasCandidate, candidate := false, 0, false, 0;
    }

    method BeginSession()
      modifies this
      ensures State() == old(State()).(hasCandidate := false)
    {
      hasCandidate := false;
    }

    method Observe(current: u32) returns (kind: FtKind)
      modifies this
      ensures kind == FtObservation(old(State()), current)
      ensures State() == FtNext(old(State()), current)
    {
      if !hasLast {
        hasLast := true;
        previous := current;
        return FtFirst;
      }
      DistanceSplits(previous, current);
      if current == previous {
        hasCandidate := false;
        return FtStall;
      }
      var delta := Sub32(current, previous);
      if delta < HALF {
        previous := current;
        hasCandidate := false;
        return FtForward;
      }
      if previous >= RESTART_MIN_BASELINE && hasCandidate && candidate <= RESTART_LOW_MAX && current <= RESTART_LOW_MAX {
        var candidateDelta := Sub32(current, candidate);
        if candidateDelta > 0 && candidateDelta < HALF {
          previous := current;
          hasCandidate := false;
          return FtRestart;
        }
      }
      candidate := current;
      hasCandidate := true;
      return FtBackward;
    }
  }

  /** What the FT tracker has lived through: its first memory is never erased, only the
      restart candidate is, at each session. */
  datatype FtEvent = SessionStarts | Seen(value: u32)

  function FtStateOf(h: seq<FtEvent>): FtState {
    if h == [] then FRESH_FT
    else
      var s := FtStateOf(h[..|h| - 1]);
      match h[|h| - 1]
      case SessionStarts => s.(hasCandidate := false)
      case Seen(v) => FtNext(s, v)
  }

  /** The classification of the `i`-th event. */
  function FtKindAt(h: seq<FtEvent>, i: nat): FtKind
    requires i < |h| && h[i].Seen?
  {
    FtObservation(FtStateOf(h[..i]), h[i].value)
  }

  predicate EndsBackward(h: seq<FtEvent>) {
    h != [] && h[|h| - 1].Seen? && FtKindAt(h, |h| - 1) == FtBackward
  }

  /** The restart memory is a function of the last event alone: there is a candidate exactly when the
      preceding event of this session was a Backward observation, and it is that observation's value. */
  lemma {:induction false} CandidateIsLastBackward(h: seq<FtEvent>)
    ensures FtStateOf(h).hasCandidate <==> EndsBackward(h)
    ensures EndsBackward(h) ==> FtStateOf(h).candidate == h[|h| - 1].value
  {
    if h != [] {
      var n := |h| - 1;
      CandidateIsLastBackward(h[..n]);
      if h[n].Seen? && FtKindAt(h, n) == FtFirst {
        FirstMeansNothingSeen(h[..n]);
      }
    }
  }

  lemma {:induction false} FirstMeansNothingSeen(h: seq<FtEvent>)
    ensures FtStateOf(h).hasLast <==> exists i :: 0 <= i < |h| && h[i].Seen?
    ensures !FtStateOf(h).hasLast ==> !FtStateOf(h).hasCandidate
  {
    if h != [] {
      var n := |h| - 1;
      var g := h[..n];
      FirstMeansNothingSeen(g);
      if FtStateOf(g).hasLast {
        var i :| 0 <= i < |g| && g[i].Seen?;
        assert h[i].Seen?;
      }
      if exists i :: 0 <= i < |h| && h[i].Seen? {
        var i :| 0 <= i < |h| && h[i].Seen?;
        if i < n {
          assert g[i].Seen?;
        }
      }
    }
  }

  /** Restart is reported exactly for the second of two consecutive low, increasing values
      behind a baseline of at least 0x10000; the first of them was reported Backward. */
  lemma RestartExactly(h: seq<FtEvent>, v: u32)
    ensures FtObservation(FtStateOf(h), v) == FtRestart
            <==> && EndsBackward(h)
                 && h[|h| - 1].value < v <= RESTART_LOW_MAX
                 && FtStateOf(h).previous >= RESTART_MIN_BASELINE
                 && Distance(FtStateOf(h).previous, v) < 0
  {
    CandidateIsLastBackward(h);
    FirstMeansNothingSeen(h);
  }

  /** Without a restart to confirm, an arrival is a stall, forward or backward as it is equal, greater or anything else in
      serial-number order. */
  lemma FtIsSerial(s: FtState, v: u32)
    requires s.hasLast
    ensures FtObservation(s, v) == FtStall <==> v == s.previous
    ensures FtObservation(s, v) == FtForward <==> SerialLess(s.previous, v)
    ensures FtObservation(s, v) in {FtBackward, FtRestart} <==> v != s.previous && !SerialLess(s.previous, v)
  {
    DistanceSplits(s.previous, v);
  }

  /** Where the device counter stands, unwrapped: the number of restarts seen, then the value. */
  datatype FtPosition = FtPosition(epoch: nat, unwrapped: int)

  predicate Before(p: FtPosition, q: FtPosition) {
    p.epoch < q.epoch || (p.epoch == q.epoch && p.unwrapped < q.unwrapped)
  }

  predicate AtOrBefore(p: FtPosition, q: FtPosition) {
    p == q || Before(p, q)
  }

  predicate MovesBaseline(k: FtKind) {
    k in {FtFirst, FtForward, FtRestart}
  }

  function FtPositionOf(h: seq<FtEvent>): FtPosition {
    if h == [] then FtPosition(0, 0)
    else
      var p := FtPositionOf(h[..|h| - 1]);
      match h[|h| - 1]
      case SessionStarts => p
      case Seen(v) =>
        match FtKindAt(h, |h| - 1)
        case FtFirst => FtPosition(0, v)
        case FtForward => p.(unwrapped := p.unwrapped + Distance(FtStateOf(h[..|h| - 1]).previous, v))
        case FtRestart => FtPosition(p.epoch + 1, v)
        case FtStall => p
        case FtBackward => p
  }

  /** The position's low word is the tracker's baseline. */
  lemma {:induction false} PositionTracksBaseline(h: seq<FtEvent>)
    ensures FtStateOf(h).hasLast ==> Low32(FtPositionOf(h).unwrapped) == FtStateOf(h).previous
  {
    if h != [] {
      var n := |h| - 1;
      PositionTracksBaseline(h[..n]);
      if h[n].Seen? {
        var s := FtStateOf(h[..n]);
        if s.hasLast {
          DistanceSplits(s.previous, h[n].value);
          Low32Shift(FtPositionOf(h[..n]).unwrapped, Distance(s.previous, h[n].value));
        }
      }
    }
  }

  /** The baseline moves on First, Forward and Restart only, and each of them moves the position
      strictly forward once anything has been seen. */
  lemma PositionMoves(h: seq<FtEvent>, v: u32)
    ensures var k := FtObservation(FtStateOf(h), v); var g := h + [Seen(v)];
            && FtStateOf(g) == FtNext(FtStateOf(h), v)
            && FtKindAt(g, |h|) == k
            && (MovesBaseline(k) ==> FtStateOf(g).previous == v)
            && (!MovesBaseline(k) ==> FtStateOf(g).previous == FtStateOf(h).previous && FtPositionOf(g) == FtPositionOf(h))
            && (MovesBaseline(k) && FtStateOf(h).hasLast ==> Before(FtPositionOf(h), FtPositionOf(g)))
  {
    assert (h + [Seen(v)])[..|h|] == h;
    if FtStateOf(h).hasLast {
      DistanceSplits(FtStateOf(h).previous, v);
    }
  }
}
