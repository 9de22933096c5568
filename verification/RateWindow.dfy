/** The two pruned deques behind the health rates and the delivery rate limit, against the full history
    (src/core/src/detail/client_impl.cpp:78-83, 331-347, 612-618, 669-678). */
module RateWindow {
  import opened Sequence
  import opened Protocol
  import opened Clock
  import opened RecordHistory

  /** Which of the two deques: records received, or samples delivered. */
  datatype Stream = Receipts | Deliveries

  function PushOf(s: Stream, e: Event): Option<Time> {
    match (s, e)
    case (Receipts, Observed(_, at)) => Some(at)
    case (Deliveries, Delivered(at)) => Some(at)
    case _ => None
  }

  /** Every push since the current start. */
  function Times(s: Stream, h: seq<Event>): seq<Time> {
    if h == [] || Last(h).Started? then []
    else match PushOf(s, Last(h))
      case Some(at) => Times(s, Front(h)) + [at]
      case None => Times(s, Front(h))
  }

  predicate Stale(now: Time, t: Time) {
    now - t > SECOND
  }

  /** What pruning leaves. */
  function DropStale(ts: seq<Time>, now: Time): seq<Time> {
    if ts == [] || !Stale(now, ts[0]) then ts else DropStale(ts[1..], now)
  }

  /** The deque as it is kept: pruned at each push with the push's own time, and by each health read. */
  function Deque(s: Stream, h: seq<Event>): seq<Time> {
    if h == [] || Last(h).Started? then []
    else
      var d := Deque(s, Front(h));
      if Last(h).HealthRead? then DropStale(d, Last(h).now)
      else match PushOf(s, Last(h))
        case Some(at) => DropStale(d + [at], at)
        case None => d
  }

  /** The loop of `prune_rate_window`. */
  method PruneRateWindow(ts: seq<Time>, now: Time) returns (kept: seq<Time>)
    ensures kept == DropStale(ts, now)
  {
    kept := ts;
    while kept != [] && now - kept[0] > SECOND
      invariant DropStale(kept, now) == DropStale(ts, now)
      decreases |kept|
    {
      kept := kept[1..];
    }
  }

  // ---------------------------------------------------------------- clock readings

  function LatestRecord(h: seq<Event>): Option<Time> {
    if h == [] then None
    else if Last(h).Observed? then Some(Last(h).at) else LatestRecord(Front(h))
  }

  function LatestReading(h: seq<Event>): Option<Time> {
    if h == [] then None
    else if Last(h).HealthRead? then Some(Last(h).now) else LatestReading(Front(h))
  }

  predicate NotAfter(t: Option<Time>, now: Time) {
    t.Some? ==> t.value <= now
  }

  /** The steady clock does not run backwards. The worker reads it before it takes the lock, so a record
      may carry an earlier time than a health read that got in before it. */
  predicate WellTimed(h: seq<Event>) {
    h == [] || (WellTimed(Front(h)) && ClockAdvances(Front(h), Last(h)))
  }

  predicate ClockAdvances(h: seq<Event>, e: Event) {
    match e
    case Observed(_, at) => NotAfter(LatestRecord(h), at)
    case HealthRead(now) => NotAfter(LatestRecord(h), now) && NotAfter(LatestReading(h), now)
    case _ => true
  }

  predicate Sorted(ts: seq<Time>) {
    forall i, j :: 0 <= i < j < |ts| ==> ts[i] <= ts[j]
  }

  lemma {:induction false} FlightIsLatestRecord(cfg: Config, h: seq<Event>)
    requires InFlight(cfg, h).Some?
    ensures LatestRecord(h) == InFlight(cfg, h)
  {
    hide Dispose;
    if !Last(h).Observed? {
      FlightIsLatestRecord(cfg, Front(h));
    }
  }

  lemma PushIsLatestRecord(cfg: Config, s: Stream, h: seq<Event>)
    requires h != [] && Legal(cfg, h) && PushOf(s, Last(h)).Some?
    ensures LatestRecord(h) == PushOf(s, Last(h))
  {
    hide Dispose;
    if s == Deliveries {
      FlightIsLatestRecord(cfg, Front(h));
    }
  }

  lemma FrontIsFine(cfg: Config, h: seq<Event>)
    requires h != [] && Legal(cfg, h) && WellTimed(h)
    ensures Legal(cfg, Front(h)) && WellTimed(Front(h))
    ensures LatestRecord(Front(h)).Some? ==> LatestRecord(h).Some? && LatestRecord(Front(h)).value <= LatestRecord(h).value
  {
    assert ClockAdvances(Front(h), Last(h));
    hide Dispose, InFlight;
  }

  predicate AllAtMost(ts: seq<Time>, bound: Option<Time>) {
    ts != [] ==> bound.Some? && forall i :: 0 <= i < |ts| ==> ts[i] <= bound.value
  }

  lemma AppendSorted(ts: seq<Time>, bound: Option<Time>, at: Time)
    requires Sorted(ts) && AllAtMost(ts, bound) && NotAfter(bound, at)
    ensures Sorted(ts + [at]) && AllAtMost(ts + [at], Some(at))
  {
  }

  lemma {:induction false} TimesSorted(cfg: Config, s: Stream, h: seq<Event>)
    requires Legal(cfg, h) && WellTimed(h)
    ensures Sorted(Times(s, h)) && AllAtMost(Times(s, h), LatestRecord(h))
  {
    if h == [] {
      return;
    }
    FrontIsFine(cfg, h);
    TimesSorted(cfg, s, Front(h));
    if PushOf(s, Last(h)).Some? {
      PushIsLatestRecord(cfg, s, h);
      hide Legal, WellTimed, LatestRecord, Sorted, AllAtMost;
      AppendSorted(Times(s, Front(h)), LatestRecord(Front(h)), PushOf(s, Last(h)).value);
    } else {
      hide Legal, WellTimed, Sorted;
    }
  }

  // ---------------------------------------------------------------- the deque is a window

  /** Stale already for the newest reading, hence for every later one. */
  predicate Outlived(h: seq<Event>, t: Time) {
    || (LatestRecord(h).Some? && Stale(LatestRecord(h).value, t))
    || (LatestReading(h).Some? && Stale(LatestReading(h).value, t))
  }

  lemma {:induction false} DropStaleSuffix(ts: seq<Time>, now: Time) returns (k: nat)
    ensures k <= |ts| && DropStale(ts, now) == ts[k..]
    ensures forall j :: 0 <= j < k ==> Stale(now, ts[j])
    ensures k < |ts| ==> !Stale(now, ts[k])
  {
    if ts == [] || !Stale(now, ts[0]) {
      k := 0;
    } else {
      var k' := DropStaleSuffix(ts[1..], now);
      k := k' + 1;
      forall j | 0 <= j < k ensures Stale(now, ts[j]) {
        if j > 0 {
          assert ts[j] == ts[1..][j - 1];
        }
      }
    }
  }

  lemma OutlivedStays(h: seq<Event>, t: Time)
    requires h != [] && WellTimed(h) && Outlived(Front(h), t)
    ensures Outlived(h, t)
  {
  }

  /** The deque is the full list without a prefix that no later window can contain. */
  lemma {:induction false} DequeIsSuffix(cfg: Config, s: Stream, h: seq<Event>) returns (k: nat)
    requires Legal(cfg, h) && WellTimed(h)
    ensures k <= |Times(s, h)| && Deque(s, h) == Times(s, h)[k..]
    ensures forall j :: 0 <= j < k ==> Outlived(h, Times(s, h)[j])
  {
    if h == [] || Last(h).Started? {
      return 0;
    }
    FrontIsFine(cfg, h);
    var g := Front(h);
    var k0 := DequeIsSuffix(cfg, s, g);
    forall j | 0 <= j < k0 ensures Outlived(h, Times(s, g)[j]) {
      OutlivedStays(h, Times(s, g)[j]);
    }
    if PushOf(s, Last(h)).Some? {
      PushIsLatestRecord(cfg, s, h);
    }
    hide Legal, WellTimed, Outlived;
    k := SuffixStep(s, h, k0);
  }

  lemma SuffixStep(s: Stream, h: seq<Event>, k: nat) returns (k': nat)
    requires h != [] && !Last(h).Started?
    requires PushOf(s, Last(h)).Some? ==> LatestRecord(h) == PushOf(s, Last(h))
    requires k <= |Times(s, Front(h))| && Deque(s, Front(h)) == Times(s, Front(h))[k..]
    requires forall j :: 0 <= j < k ==> Outlived(h, Times(s, Front(h))[j])
    ensures k' <= |Times(s, h)| && Deque(s, h) == Times(s, h)[k'..]
    ensures forall j :: 0 <= j < k' ==> Outlived(h, Times(s, h)[j])
  {
    var g := Front(h);
    if Last(h).HealthRead? {
      assert LatestReading(h) == Some(Last(h).now);
      hide Outlived, LatestRecord, LatestReading;
      var m := DropStaleSuffix(Times(s, g)[k..], Last(h).now);
      k' := StepSuffix(h, Times(s, g), k, m, Last(h).now);
    } else if PushOf(s, Last(h)).Some? {
      hide Outlived, LatestRecord, LatestReading;
      var at := PushOf(s, Last(h)).value;
      assert Times(s, g)[k..] + [at] == Times(s, h)[k..];
      var m := DropStaleSuffix(Times(s, h)[k..], at);
      k' := StepSuffix(h, Times(s, h), k, m, at);
    } else {
      k' := k;
    }
  }

  lemma StepSuffix(h: seq<Event>, ts: seq<Time>, k: nat, m: nat, now: Time) returns (k': nat)
    requires k + m <= |ts|
    requires LatestReading(h) == Some(now) || LatestRecord(h) == Some(now)
    requires forall j :: 0 <= j < k ==> Outlived(h, ts[j])
    requires forall j :: 0 <= j < m ==> Stale(now, ts[k..][j])
    ensures k' == k + m && ts[k..][m..] == ts[k'..]
    ensures forall j :: 0 <= j < k' ==> Outlived(h, ts[j])
  {
    k' := k + m;
    forall j | k <= j < k' ensures Outlived(h, ts[j]) {
      assert ts[k..][j - k] == ts[j];
    }
  }

  /** The pushes of the last second before `now`, out of the full history. */
  function InLastSecond(ts: seq<Time>, now: Time): set<nat> {
    set i: nat | i < |ts| && ts[i] >= now - SECOND
  }

  lemma {:induction false} SuffixSize(ts: seq<Time>, k: nat, window: set<nat>)
    requires k <= |ts|
    requires forall i: nat :: i in window <==> k <= i < |ts|
    ensures |window| == |ts| - k
    decreases |ts| - k
  {
    if k == |ts| {
      assert window == {};
    } else {
      SuffixSize(ts, k + 1, window - {k});
    }
  }

  /** Each health snapshot reports exactly the number of records received, and of samples delivered, since the
      current start whose time lies in the last second: pruning agrees with filtering the full history. */
  lemma SnapshotRateIsWindowCount(cfg: Config, s: Stream, h: seq<Event>)
    requires h != [] && Legal(cfg, h) && WellTimed(h) && Last(h).HealthRead?
    ensures |Deque(s, h)| == |InLastSecond(Times(s, Front(h)), Last(h).now)|
  {
    var g, now := Front(h), Last(h).now;
    var ts := Times(s, g);
    TimesSorted(cfg, s, g);
    var k := DequeIsSuffix(cfg, s, g);
    var m := DropStaleSuffix(ts[k..], now);
    assert ts[k..][m..] == ts[k + m..];
    forall j | 0 <= j < k ensures Stale(now, ts[j]) {
      assert Outlived(g, ts[j]);
    }
    forall j | k <= j < k + m ensures Stale(now, ts[j]) {
      assert ts[k..][j - k] == ts[j];
    }
    SuffixSize(ts, k + m, InLastSecond(ts, now));
  }

  // ---------------------------------------------------------------- rate limit

  /** A delivery is at least 1/L seconds before the next. */
  predicate FarFromNext(limit: real, ts: seq<Time>, i: nat)
    requires limit > 0.0 && i + 1 < |ts|
  {
    (ts[i + 1] - ts[i]) as real / SECOND as real >= 1.0 / limit
  }

  predicate Spaced(limit: real, ts: seq<Time>)
    requires limit > 0.0
  {
    forall i :: 0 <= i < |ts| - 1 ==> FarFromNext(limit, ts, i)
  }

  lemma {:induction false} LastDeliveryIsLastTime(h: seq<Event>)
    ensures LastDelivery(h) == var ts := Times(Deliveries, h); if ts == [] then NEVER else ts[|ts| - 1]
  {
    if h != [] {
      LastDeliveryIsLastTime(Front(h));
    }
  }

  lemma {:induction false} FlightRespectsLimit(cfg: Config, h: seq<Event>)
    requires Legal(cfg, h) && InFlight(cfg, h).Some?
    ensures !TooSoon(cfg, LastDelivery(h), InFlight(cfg, h).value)
  {
    hide Withheld;
    if !Last(h).Observed? {
      FlightRespectsLimit(cfg, Front(h));
    }
  }

  /** With a limit, a delivery of a start is far enough from the next, unless it carries the time the source uses as
      "never". */
  lemma {:induction false} DeliveriesRespectLimit(cfg: Config, h: seq<Event>, i: nat)
    requires Legal(cfg, h) && cfg.sampleRateLimitHz > 0.0 && i + 1 < |Times(Deliveries, h)|
    ensures Times(Deliveries, h)[i] != NEVER ==> FarFromNext(cfg.sampleRateLimitHz, Times(Deliveries, h), i)
  {
    hide Dispose, InFlight;
    var g := Front(h);
    if i + 1 < |Times(Deliveries, g)| {
      DeliveriesRespectLimit(cfg, g, i);
    } else {
      LastDeliveryIsLastTime(g);
      FlightRespectsLimit(cfg, g);
    }
  }

  /** Room for one more delivery at `at`: no limit, no delivery of this start yet, one at the time "never", or one at
      least 1/L seconds ago. */
  predicate HasRoom(limit: real, ts: seq<Time>, at: Time) {
    || limit <= 0.0
    || ts == []
    || ts[|ts| - 1] == NEVER
    || (at - ts[|ts| - 1]) as real >= SECOND as real / limit
  }

  /** In order, continuous, and of a status that may be delivered. */
  predicate Deliverable(cfg: Config, h: seq<Event>, r: RawRecord) {
    && RdtSeen(h, r).kind in {First, Contiguous, Gap}
    && FtSeen(h, r) in {FtFirst, FtForward, FtRestart}
    && (r.status == 0 || r.status == 0x8001_0000 || cfg.deliverWithErrorStatus)
  }

  /** What becomes of a record, exactly: the deliverable ones are handed over when there is room and counted as rate
      limited otherwise; the others are suppressed. */
  lemma DisposedExactly(cfg: Config, h: seq<Event>, r: RawRecord, at: Time)
    ensures var room := HasRoom(cfg.sampleRateLimitHz, Times(Deliveries, h), at);
            && (Dispose(cfg, h, r, at) == Handed <==> Deliverable(cfg, h, r) && room)
            && (Dispose(cfg, h, r, at) == RateLimited <==> Deliverable(cfg, h, r) && !room)
            && (Dispose(cfg, h, r, at) == Suppressed <==> !Deliverable(cfg, h, r))
  {
    hide RdtSeen, FtSeen, LastDelivery, Times;
    LastDeliveryIsLastTime(h);
    var ts, limit := Times(Deliveries, h), cfg.sampleRateLimitHz;
    if limit > 0.0 && ts != [] {
      GapInTicks(limit, at - ts[|ts| - 1]);
    }
  }

  lemma GapInTicks(limit: real, ns: Time)
    requires limit > 0.0
    ensures ns as real / SECOND as real < 1.0 / limit <==> !(ns as real >= SECOND as real / limit)
  {
    var x, y := ns as real / SECOND as real, 1.0 / limit;
    assert ns as real == x * SECOND as real;
    assert SECOND as real / limit == y * SECOND as real;
  }

  /** Deliveries at that time are nevertheless far enough from the next. */
  predicate NeverKeepsDistance(limit: real, ts: seq<Time>)
    requires limit > 0.0
  {
    forall i :: 0 <= i < |ts| - 1 && ts[i] == NEVER ==> FarFromNext(limit, ts, i)
  }

  /** So the deliveries of one start are spaced exactly when no delivery at that time is followed too soon; in
      particular when there is none. */
  lemma DeliveriesSpaced(cfg: Config, h: seq<Event>)
    requires Legal(cfg, h) && cfg.sampleRateLimitHz > 0.0
    ensures var ts := Times(Deliveries, h);
            Spaced(cfg.sampleRateLimitHz, ts) <==> NeverKeepsDistance(cfg.sampleRateLimitHz, ts)
    ensures NEVER !in Times(Deliveries, h) ==> Spaced(cfg.sampleRateLimitHz, Times(Deliveries, h))
  {
    hide Legal, Times, FarFromNext;
    var ts := Times(Deliveries, h);
    forall i: nat | i + 1 < |ts| ensures ts[i] != NEVER ==> FarFromNext(cfg.sampleRateLimitHz, ts, i) {
      DeliveriesRespectLimit(cfg, h, i);
    }
  }

  /** What a limit allows in a stretch of nanoseconds, times a second: kept apart so that products stay small. */
  function Allowed(limit: real, ns: Time): real {
    limit * ns as real
  }

  lemma AllowedIs(limit: real, ns: Time)
    ensures Allowed(limit, ns) == limit * ns as real
  {
  }

  lemma AllowedAdds(limit: real, a: Time, b: Time)
    ensures Allowed(limit, a + b) == Allowed(limit, a) + Allowed(limit, b)
  {
    assert (a + b) as real == a as real + b as real;
  }

  lemma AllowedGrows(limit: real, a: Time, b: Time)
    requires limit > 0.0 && a <= b
    ensures Allowed(limit, a) <= Allowed(limit, b)
  {
  }

  lemma OneGap(limit: real, ns: Time)
    requires limit > 0.0 && ns as real / SECOND as real >= 1.0 / limit
    ensures Allowed(limit, ns) >= SECOND as real
  {
    var x := ns as real / SECOND as real;
    assert limit * x >= limit * (1.0 / limit) == 1.0;
    assert ns as real == x * SECOND as real;
    assert Allowed(limit, ns) == (limit * x) * SECOND as real;
  }

  /** How many of these deliveries carry the time "never". */
  function NeverCount(ts: seq<Time>, i: nat, j: nat): nat
    requires i <= j <= |ts|
    decreases j - i
  {
    if i == j then 0 else NeverCount(ts, i, j - 1) + (if ts[j - 1] == NEVER then 1 else 0)
  }

  /** The gap rule for all deliveries but those. */
  predicate Limited(limit: real, ts: seq<Time>)
    requires limit > 0.0
  {
    forall i :: 0 <= i < |ts| - 1 && ts[i] != NEVER ==> FarFromNext(limit, ts, i)
  }

  lemma GapAllows(limit: real, ts: seq<Time>, i: nat)
    requires limit > 0.0 && Limited(limit, ts) && i + 1 < |ts|
    requires ts[i] <= ts[i + 1] || ts[i] != NEVER
    ensures Allowed(limit, ts[i + 1] - ts[i]) >= ((if ts[i] == NEVER then 0 else 1) * SECOND) as real
  {
    if ts[i] == NEVER {
      AllowedGrows(limit, 0, ts[i + 1] - ts[i]);
    } else {
      assert FarFromNext(limit, ts, i);
      OneGap(limit, ts[i + 1] - ts[i]);
    }
  }

  lemma {:induction false} LimitedFar(limit: real, ts: seq<Time>, i: nat, j: nat)
    requires limit > 0.0 && Limited(limit, ts) && i <= j < |ts|
    requires Sorted(ts) || NEVER !in ts
    ensures Allowed(limit, ts[j] - ts[i]) >= ((j - i - NeverCount(ts, i, j)) * SECOND) as real
    decreases j - i
  {
    hide Allowed, NeverCount, Limited, FarFromNext, Sorted;
    if i == j {
      NoGap(limit, ts, i);
    } else {
      NextToLast(ts, j);
      LimitedFar(limit, ts, i, j - 1);
      GapAllows(limit, ts, j - 1);
      AllowedAdds(limit, ts[j - 1] - ts[i], ts[j] - ts[j - 1]);
      AddGap(limit, ts, i, j);
    }
  }

  lemma NoGap(limit: real, ts: seq<Time>, i: nat)
    requires limit > 0.0 && i <= |ts|
    ensures Allowed(limit, 0) == 0.0 && NeverCount(ts, i, i) == 0
  {
  }

  lemma NextToLast(ts: seq<Time>, j: nat)
    requires 0 < j < |ts| && (Sorted(ts) || NEVER !in ts)
    ensures ts[j - 1] <= ts[j] || ts[j - 1] != NEVER
  {
  }

  lemma AddGap(limit: real, ts: seq<Time>, i: nat, j: nat)
    requires i < j < |ts|
    requires Allowed(limit, ts[j - 1] - ts[i]) >= ((j - 1 - i - NeverCount(ts, i, j - 1)) * SECOND) as real
    requires Allowed(limit, ts[j] - ts[j - 1]) >= ((if ts[j - 1] == NEVER then 0 else 1) * SECOND) as real
    requires Allowed(limit, ts[j - 1] - ts[i] + (ts[j] - ts[j - 1]))
             == Allowed(limit, ts[j - 1] - ts[i]) + Allowed(limit, ts[j] - ts[j - 1])
    ensures Allowed(limit, ts[j] - ts[i]) >= ((j - i - NeverCount(ts, i, j)) * SECOND) as real
  {
    hide Allowed;
    assert ts[j - 1] - ts[i] + (ts[j] - ts[j - 1]) == ts[j] - ts[i];
  }

  function InWindow(ts: seq<Time>, from: Time, to: Time): set<nat> {
    set i: nat | i < |ts| && from <= ts[i] <= to
  }

  lemma InWindowFront(ts: seq<Time>, from: Time, to: Time)
    requires ts != []
    ensures var n := |ts| - 1; var rest := InWindow(ts[..n], from, to);
            && n !in rest
            && InWindow(ts, from, to) == if from <= ts[n] <= to then rest + {n} else rest
  {
  }

  /** A set of indices is no larger than the stretch between two of its members. */
  lemma {:induction false} WindowStretch(ts: seq<Time>, from: Time, to: Time) returns (lo: nat, hi: nat)
    requires InWindow(ts, from, to) != {}
    ensures lo in InWindow(ts, from, to) && hi in InWindow(ts, from, to) && lo <= hi < |ts|
    ensures |InWindow(ts, from, to)| <= hi - lo + 1
  {
    assert ts != [];
    var n := |ts| - 1;
    InWindowFront(ts, from, to);
    hide InWindow;
    if InWindow(ts[..n], from, to) == {} {
      lo, hi := n, n;
    } else {
      lo, hi := WindowStretch(ts[..n], from, to);
      if from <= ts[n] <= to {
        hi := n;
      }
    }
  }

  lemma InWindowMember(ts: seq<Time>, from: Time, to: Time, i: nat)
    requires i in InWindow(ts, from, to)
    ensures i < |ts| && from <= ts[i] <= to
  {
  }

  lemma FloorBound(n: int, x: real)
    requires (n * SECOND) as real <= x
    ensures n <= (x / SECOND as real).Floor
  {
    assert n as real * SECOND as real <= x;
    assert n as real <= x / SECOND as real;
  }

  /** The deliveries of a window that carry the time "never". */
  function NeverInWindow(ts: seq<Time>, from: Time, to: Time): set<nat> {
    set i: nat | i < |ts| && ts[i] == NEVER && from <= ts[i] <= to
  }

  lemma {:induction false} NeverCounted(ts: seq<Time>, i: nat, j: nat, never: set<nat>)
    requires i <= j <= |ts|
    requires forall k: nat :: i <= k < j && ts[k] == NEVER ==> k in never
    ensures NeverCount(ts, i, j) <= |never|
    decreases j - i
  {
    if i < j {
      if ts[j - 1] == NEVER {
        NeverCounted(ts, i, j - 1, never - {j - 1});
      } else {
        NeverCounted(ts, i, j - 1, never);
      }
    }
  }

  /** What a window may hold. */
  predicate WindowHolds(limit: real, ts: seq<Time>, from: Time, width: nat, extra: nat) {
    |InWindow(ts, from, from + width)| <= (Allowed(limit, width) / SECOND as real).Floor + 1 + extra
  }

  lemma LimitedWindow(limit: real, ts: seq<Time>, from: Time, width: nat)
    requires limit > 0.0 && Limited(limit, ts) && (Sorted(ts) || NEVER !in ts)
    ensures WindowHolds(limit, ts, from, width, |NeverInWindow(ts, from, from + width)|)
  {
    hide InWindow, Limited, Allowed, NeverCount;
    AllowedGrows(limit, 0, width);
    AllowedIs(limit, 0);
    var n, never := |InWindow(ts, from, from + width)|, |NeverInWindow(ts, from, from + width)|;
    if InWindow(ts, from, from + width) == {} {
      FloorBound(0, Allowed(limit, width));
    } else {
      var lo, hi := WindowStretch(ts, from, from + width);
      InWindowMember(ts, from, from + width, lo);
      InWindowMember(ts, from, from + width, hi);
      LimitedFar(limit, ts, lo, hi);
      NeverCounted(ts, lo, hi, NeverInWindow(ts, from, from + width));
      AllowedGrows(limit, ts[hi] - ts[lo], width);
      assert (n - 1 - never) * SECOND <= (hi - lo - NeverCount(ts, lo, hi)) * SECOND;
      FloorBound(n - 1 - never, Allowed(limit, width));
    }
  }

  /** With a limit of L > 0, any window of w seconds (in nanoseconds here) holds at most floor(w * L) + 1 of the
      deliveries of one start, and one more for each delivery in it at the time "never". */
  lemma DeliveriesPerWindow(cfg: Config, h: seq<Event>, from: Time, width: nat)
    requires Legal(cfg, h) && WellTimed(h) && cfg.sampleRateLimitHz > 0.0
    ensures var ts := Times(Deliveries, h);
            |InWindow(ts, from, from + width)|
            <= (cfg.sampleRateLimitHz * width as real / SECOND as real).Floor + 1 + |NeverInWindow(ts, from, from + width)|
  {
    hide Times, Limited, Legal, WellTimed, InWindow, NeverInWindow, Allowed, Sorted;
    DeliveriesLimited(cfg, h);
    TimesSorted(cfg, Deliveries, h);
    LimitedWindow(cfg.sampleRateLimitHz, Times(Deliveries, h), from, width);
    AllowedIs(cfg.sampleRateLimitHz, width);
  }

  lemma DeliveriesLimited(cfg: Config, h: seq<Event>)
    requires Legal(cfg, h) && cfg.sampleRateLimitHz > 0.0
    ensures Limited(cfg.sampleRateLimitHz, Times(Deliveries, h))
  {
    hide Legal, Times, FarFromNext;
    var ts := Times(Deliveries, h);
    forall i: nat | i + 1 < |ts| ensures ts[i] != NEVER ==> FarFromNext(cfg.sampleRateLimitHz, ts, i) {
      DeliveriesRespectLimit(cfg, h, i);
    }
  }

  /** Spaced deliveries need no allowance. */
  lemma SpacedWindow(limit: real, ts: seq<Time>, from: Time, width: nat)
    requires limit > 0.0 && Spaced(limit, ts)
    ensures WindowHolds(limit, ts, from, width, 0)
  {
    hide InWindow, Allowed, FarFromNext, Spaced;
    AllowedGrows(limit, 0, width);
    AllowedIs(limit, 0);
    var n := |InWindow(ts, from, from + width)|;
    if InWindow(ts, from, from + width) == {} {
      FloorBound(0, Allowed(limit, width));
    } else {
      var lo, hi := WindowStretch(ts, from, from + width);
      InWindowMember(ts, from, from + width, lo);
      InWindowMember(ts, from, from + width, hi);
      SpacedFar(limit, ts, lo, hi);
      AllowedGrows(limit, ts[hi] - ts[lo], width);
      assert (n - 1) * SECOND <= (hi - lo) * SECOND;
      FloorBound(n - 1, Allowed(limit, width));
    }
  }

  lemma {:induction false} SpacedFar(limit: real, ts: seq<Time>, i: nat, j: nat)
    requires limit > 0.0 && Spaced(limit, ts) && i <= j < |ts|
    ensures Allowed(limit, ts[j] - ts[i]) >= ((j - i) * SECOND) as real
    decreases j - i
  {
    if i == j {
      assert Allowed(limit, 0) == 0.0;
    } else {
      SpacedFar(limit, ts, i, j - 1);
      assert FarFromNext(limit, ts, j - 1);
      OneGap(limit, ts[j] - ts[j - 1]);
      AllowedAdds(limit, ts[j - 1] - ts[i], ts[j] - ts[j - 1]);
      SpacedGap(limit, ts, i, j);
    }
  }

  lemma SpacedGap(limit: real, ts: seq<Time>, i: nat, j: nat)
    requires i < j < |ts|
    requires Allowed(limit, ts[j - 1] - ts[i]) >= ((j - 1 - i) * SECOND) as real
    requires Allowed(limit, ts[j] - ts[j - 1]) >= SECOND as real
    requires Allowed(limit, ts[j - 1] - ts[i] + (ts[j] - ts[j - 1]))
             == Allowed(limit, ts[j - 1] - ts[i]) + Allowed(limit, ts[j] - ts[j - 1])
    ensures Allowed(limit, ts[j] - ts[i]) >= ((j - i) * SECOND) as real
  {
    hide Allowed;
    assert ts[j - 1] - ts[i] + (ts[j] - ts[j - 1]) == ts[j] - ts[i];
  }

  /** Two deliveries that are too close overfill the window between them. */
  lemma CloseOverfills(limit: real, ts: seq<Time>, i: nat)
    requires limit > 0.0 && i + 1 < |ts| && ts[i] <= ts[i + 1] && !FarFromNext(limit, ts, i)
    ensures !WindowHolds(limit, ts, ts[i], ts[i + 1] - ts[i], 0)
  {
    var from, width := ts[i], ts[i + 1] - ts[i];
    assert {i, i + 1} <= InWindow(ts, from, from + width);
    SubsetSize({i, i + 1}, InWindow(ts, from, from + width));
    hide InWindow;
    TooCloseAllowsOne(limit, width);
  }

  lemma SubsetSize(a: set<nat>, b: set<nat>)
    requires a <= b
    ensures |a| <= |b|
  {
    assert b == a + (b - a);
  }

  lemma TooCloseAllowsOne(limit: real, width: nat)
    requires limit > 0.0 && width as real / SECOND as real < 1.0 / limit
    ensures (Allowed(limit, width) / SECOND as real).Floor <= 0
  {
    var x := width as real / SECOND as real;
    assert limit * x < limit * (1.0 / limit) == 1.0;
    assert Allowed(limit, width) == limit * (x * SECOND as real) == (limit * x) * SECOND as real;
    assert Allowed(limit, width) / SECOND as real == limit * x;
  }

  /** The bound without allowance holds in all windows exactly when deliveries at the time "never" keep their distance
      too. */
  lemma WindowBoundExactly(cfg: Config, h: seq<Event>)
    requires Legal(cfg, h) && WellTimed(h) && cfg.sampleRateLimitHz > 0.0
    ensures var limit, ts := cfg.sampleRateLimitHz, Times(Deliveries, h);
            (forall from, width: nat :: WindowHolds(limit, ts, from, width, 0)) <==> NeverKeepsDistance(limit, ts)
  {
    hide Times, Legal, WellTimed, WindowHolds, FarFromNext;
    var limit, ts := cfg.sampleRateLimitHz, Times(Deliveries, h);
    DeliveriesSpaced(cfg, h);
    if NeverKeepsDistance(limit, ts) {
      forall from, width: nat ensures WindowHolds(limit, ts, from, width, 0) {
        SpacedWindow(limit, ts, from, width);
      }
    } else {
      var i :| 0 <= i < |ts| - 1 && ts[i] == NEVER && !FarFromNext(limit, ts, i);
      TimesSorted(cfg, Deliveries, h);
      assert ts[i] <= ts[i + 1];
      CloseOverfills(limit, ts, i);
      var width: nat := ts[i + 1] - ts[i];
      assert !WindowHolds(limit, ts, ts[i], width, 0);
    }
  }

  /** No health snapshot reports a delivery rate above floor(L) + 1 and one for each delivery of the last second at the
      time "never"; above floor(L) + 1 only if one of those is followed too soon. */
  lemma ReportedDeliveryRateBounded(cfg: Config, h: seq<Event>)
    requires h != [] && Legal(cfg, h) && WellTimed(h) && Last(h).HealthRead? && cfg.sampleRateLimitHz > 0.0
    ensures var ts, now := Times(Deliveries, Front(h)), Last(h).now;
            && |Deque(Deliveries, h)| <= cfg.sampleRateLimitHz.Floor + 1 + |NeverInWindow(ts, now - SECOND, now)|
            && (NeverKeepsDistance(cfg.sampleRateLimitHz, ts) ==>
                  |Deque(Deliveries, h)| <= cfg.sampleRateLimitHz.Floor + 1)
  {
    hide Legal, WellTimed, Times, Deque, InWindow, NeverInWindow, Allowed, FarFromNext, NeverKeepsDistance, Spaced;
    var g, now := Front(h), Last(h).now;
    var ts, limit := Times(Deliveries, g), cfg.sampleRateLimitHz;
    FrontIsFine(cfg, h);
    SnapshotRateIsWindowCount(cfg, Deliveries, h);
    RateIsWindow(cfg, h);
    DeliveriesPerWindow(cfg, g, now - SECOND, SECOND);
    PerSecond(limit);
    if NeverKeepsDistance(limit, ts) {
      DeliveriesSpaced(cfg, g);
      SpacedWindow(limit, ts, now - SECOND, SECOND);
      AllowedIs(limit, SECOND);
    }
  }

  lemma RateIsWindow(cfg: Config, h: seq<Event>)
    requires h != [] && Legal(cfg, h) && WellTimed(h) && Last(h).HealthRead?
    ensures var ts, now := Times(Deliveries, Front(h)), Last(h).now;
            InLastSecond(ts, now) == InWindow(ts, now - SECOND, now)
  {
    var g := Front(h);
    TimesSorted(cfg, Deliveries, g);
    assert ClockAdvances(g, Last(h));
    hide Legal, Times;
  }

  lemma PerSecond(limit: real)
    ensures limit * SECOND as real / SECOND as real == limit
  {
  }
}
