/** What the record machine remembers of its history: what a session, a bias and a valid record make it forget. */
module HistoryMeaning {
  import opened Words
  import opened Sequence
  import opened Protocol
  import opened Clock
  import opened RecordHistory
  import opened RateWindow

  // ---------------------------------------------------------------- the RDT baseline

  /** The RDT baseline is dropped. */
  predicate Drops(e: Event) {
    e.SessionBegan? || e.Biased?
  }

  predicate Forgotten(h: seq<Event>, i: nat) {
    exists j :: i < j < |h| && Drops(h[j])
  }

  lemma ForgottenStep(h: seq<Event>, i: nat)
    requires i < |h| - 1
    ensures Forgotten(h, i) <==> Forgotten(Front(h), i) || Drops(Last(h))
  {
    var g, n := Front(h), |h| - 1;
    if Forgotten(g, i) {
      var j :| i < j < |g| && Drops(g[j]);
      assert h[j] == g[j];
    }
    if Forgotten(h, i) {
      var j :| i < j < |h| && Drops(h[j]);
      assert j < n ==> g[j] == h[j];
    }
  }

  ghost predicate AllForgotten(h: seq<Event>) {
    forall i: nat :: i < |h| && Arrives(h[i]) ==> Forgotten(h, i)
  }

  lemma AllForgottenStep(h: seq<Event>)
    requires h != []
    ensures AllForgotten(h) <==> Drops(Last(h)) || (!Arrives(Last(h)) && AllForgotten(Front(h)))
  {
    hide Arrives, Forgotten, Drops;
    var g, n := Front(h), |h| - 1;
    forall i: nat | i < n ensures g[i] == h[i] && (Forgotten(h, i) <==> Forgotten(g, i) || Drops(Last(h))) {
      ForgottenStep(h, i);
    }
    LastRemains(h);
  }

  lemma LastRemains(h: seq<Event>)
    requires h != []
    ensures !Forgotten(h, |h| - 1) && (Drops(Last(h)) ==> !Arrives(Last(h)))
  {
  }

  lemma {:induction false} ArrivalsRemain(h: seq<Event>)
    ensures RdtArrivals(h) == [] <==> AllForgotten(h)
  {
    hide AllForgotten;
    if h == [] {
      assert AllForgotten(h) by {
        Nothing();
      }
    } else {
      ArrivalsRemain(Front(h));
      AllForgottenStep(h);
    }
  }

  lemma Nothing()
    ensures AllForgotten([])
  {
  }

  lemma NotFirst(xs: seq<u32>)
    ensures RdtRunOf(xs).tracker.hasLast <==> xs != []
  {
  }

  /** A record is the first of its baseline exactly when every earlier one lies before a session or a bias: neither a
      start nor anything else drops the baseline. */
  lemma FirstOfBaseline(h: seq<Event>, r: RawRecord)
    ensures RdtSeen(h, r).kind == First
            <==> forall i: nat :: i < |h| && Arrives(h[i]) ==>
                   exists j :: i < j < |h| && (h[j].SessionBegan? || h[j].Biased?)
  {
    hide RdtRunOf, RdtArrivals;
    NotFirst(RdtArrivals(h));
    ArrivalsRemain(h);
    forall i: nat | i < |h|
      ensures Forgotten(h, i) <==> exists j :: i < j < |h| && (h[j].SessionBegan? || h[j].Biased?)
    {
    }
  }

  // ---------------------------------------------------------------- the FT restart candidate

  /** Record `i` is the last one of the session under way. */
  predicate LastOfSession(h: seq<Event>, i: nat) {
    i < |h| && Arrives(h[i]) && forall j :: i < j < |h| ==> !Arrives(h[j]) && !h[j].SessionBegan?
  }

  /** It was taken for backward. */
  predicate WasBackward(h: seq<Event>, i: nat) {
    LastOfSession(h, i) && FtSeen(h[..i], h[i].record) == FtBackward
  }

  lemma LastOfSessionStep(h: seq<Event>, i: nat)
    requires h != [] && i < |h|
    ensures WasBackward(h, i)
            <==> if i == |h| - 1 then Arrives(Last(h)) && FtSeen(Front(h), Last(h).record) == FtBackward
                 else !Arrives(Last(h)) && !Last(h).SessionBegan? && WasBackward(Front(h), i)
  {
    hide FtSeen;
    var g, n := Front(h), |h| - 1;
    if i < n {
      assert g[i] == h[i] && g[..i] == h[..i];
      forall j | i < j < n ensures g[j] == h[j] {
      }
    } else {
      assert h[..i] == g;
    }
  }

  lemma FtEventsStep(h: seq<Event>)
    requires h != []
    ensures EndsBackward(FtEvents(h))
            <==> if Arrives(Last(h)) then FtSeen(Front(h), Last(h).record) == FtBackward
                 else !Last(h).SessionBegan? && EndsBackward(FtEvents(Front(h)))
    ensures Arrives(Last(h)) ==> FtEvents(h) == FtEvents(Front(h)) + [Seen(Last(h).record.ftSequence)]
  {
    hide FtObservation, FtStateOf, Front, Last;
    var es := FtEvents(Front(h));
    if Arrives(Last(h)) {
      assert FtEvents(h)[..|es|] == es;
    }
  }

  /** The restart candidate is the record before, if it belongs to the session under way and was taken for backward. */
  lemma {:induction false} CandidateRemains(h: seq<Event>)
    ensures EndsBackward(FtEvents(h)) <==> exists i: nat :: i < |h| && WasBackward(h, i)
    ensures forall i: nat :: i < |h| && WasBackward(h, i) ==>
              FtEvents(h) != [] && FtEvents(h)[|FtEvents(h)| - 1] == Seen(h[i].record.ftSequence)
  {
    hide WasBackward, FtSeen, FtObservation, FtStateOf, EndsBackward;
    if h == [] {
      FreshIsForward();
    } else {
      var g, n := Front(h), |h| - 1;
      CandidateRemains(g);
      FtEventsStep(h);
      forall i: nat | i < |h|
        ensures WasBackward(h, i)
                <==> if i == n then Arrives(Last(h)) && FtSeen(g, Last(h).record) == FtBackward
                     else !Arrives(Last(h)) && !Last(h).SessionBegan? && WasBackward(g, i)
      {
        LastOfSessionStep(h, i);
      }
      assert forall i: nat | i < n :: g[i] == h[i];
      if exists i: nat :: i < |g| && WasBackward(g, i) {
        var i: nat :| i < |g| && WasBackward(g, i);
        assert i < |h| && (!Arrives(Last(h)) && !Last(h).SessionBegan? ==> WasBackward(h, i));
      }
      assert WasBackward(h, n) <==> Arrives(Last(h)) && FtSeen(g, Last(h).record) == FtBackward;
    }
  }

  lemma FreshIsForward()
    ensures !EndsBackward([])
  {
  }

  /** A restart is seen exactly for a low record right behind another in the same session that was lower still and taken
      for backward, while the baseline is high and ahead. */
  lemma RestartWithinSession(h: seq<Event>, r: RawRecord)
    ensures FtSeen(h, r) == FtRestart
            <==> exists i: nat ::
                   && i < |h| && Arrives(h[i])
                   && (forall j :: i < j < |h| ==> !Arrives(h[j]) && !h[j].SessionBegan?)
                   && FtSeen(h[..i], h[i].record) == FtBackward
                   && h[i].record.ftSequence < r.ftSequence <= 0xffff
                   && FtStateOf(FtEvents(h)).previous >= 0x1_0000
                   && Distance(FtStateOf(FtEvents(h)).previous, r.ftSequence) < 0
  {
    hide FtEvents, FtStateOf, FtObservation, Distance;
    CandidateRemains(h);
    RestartExactly(FtEvents(h), r.ftSequence);
    if exists i: nat :: i < |h| && WasBackward(h, i) {
      var i: nat :| i < |h| && WasBackward(h, i);
      assert LastOfSession(h, i);
    }
  }

  // ---------------------------------------------------------------- malformed runs

  /** A malformed datagram that no valid record and no start follows. */
  predicate InRun(h: seq<Event>, i: nat) {
    i < |h| && h[i].MalformedSeen? && forall j :: i < j < |h| ==> !h[j].Decoded? && !h[j].Started?
  }

  function RunMembers(h: seq<Event>): set<nat> {
    set i: nat | i < |h| && InRun(h, i)
  }

  lemma RunMembersStep(h: seq<Event>)
    requires h != []
    ensures RunMembers(h) == (if Last(h).Decoded? || Last(h).Started? then {} else RunMembers(Front(h)))
                             + (if Last(h).MalformedSeen? then {|h| - 1} else {})
  {
    var g, n := Front(h), |h| - 1;
    forall i: nat | i < n ensures InRun(h, i) <==> InRun(g, i) && !Last(h).Decoded? && !Last(h).Started? {
      assert forall j | i < j < n :: g[j] == h[j];
      assert g[i] == h[i];
    }
    assert InRun(h, n) <==> Last(h).MalformedSeen?;
  }

  /** The malformed run is the number of malformed datagrams that no valid record and no start follows; sessions end
      without ending it. */
  lemma {:induction false} MalformedRunCounts(h: seq<Event>)
    ensures MalformedRun(h) == |RunMembers(h)|
  {
    if h == [] {
      assert RunMembers(h) == {};
    } else {
      hide RunMembers;
      MalformedRunCounts(Front(h));
      RunMembersStep(h);
      RunMembersBelow(Front(h));
    }
  }

  lemma RunMembersBelow(h: seq<Event>)
    ensures |h| !in RunMembers(h)
  {
  }

  // ---------------------------------------------------------------- rates

  /** A record received, or a sample delivered, since the current start and within a second of `now`. */
  predicate Recent(s: Stream, h: seq<Event>, now: Time, i: nat) {
    && i < |h| && (forall j :: i < j < |h| ==> !h[j].Started?)
    && match s
       case Receipts => h[i].Observed? && h[i].at >= now - 1_000_000_000
       case Deliveries => h[i].Delivered? && h[i].at >= now - 1_000_000_000
  }

  function RecentEvents(s: Stream, h: seq<Event>, now: Time): set<nat> {
    set i: nat | i < |h| && Recent(s, h, now, i)
  }

  lemma RecentStep(s: Stream, h: seq<Event>, now: Time)
    requires h != []
    ensures var at := PushOf(s, Last(h));
            RecentEvents(s, h, now) == (if Last(h).Started? then {} else RecentEvents(s, Front(h), now))
                                       + (if at.Some? && at.value >= now - SECOND then {|h| - 1} else {})
  {
    var g, n := Front(h), |h| - 1;
    forall i: nat | i < n ensures Recent(s, h, now, i) <==> Recent(s, g, now, i) && !Last(h).Started? {
      assert forall j | i < j < n :: g[j] == h[j];
      assert g[i] == h[i];
    }
  }

  lemma WindowStep(ts: seq<Time>, at: Time, now: Time)
    ensures |InLastSecond(ts + [at], now)| == |InLastSecond(ts, now)| + One(at >= now - SECOND)
  {
    assert InLastSecond(ts + [at], now) == InLastSecond(ts, now) + (if at >= now - SECOND then {|ts|} else {});
  }

  /** The count behind a reported rate is the number of events of the current start within the last second. */
  lemma {:induction false} RatesCountEvents(s: Stream, h: seq<Event>, now: Time)
    ensures |InLastSecond(Times(s, h), now)| == |RecentEvents(s, h, now)|
  {
    if h == [] {
      assert InLastSecond([], now) == {} == RecentEvents(s, h, now);
    } else {
      hide InLastSecond, RecentEvents;
      RatesCountEvents(s, Front(h), now);
      RecentStep(s, h, now);
      RecentBelow(s, Front(h), now);
      NoTimes(now);
      if PushOf(s, Last(h)).Some? {
        WindowStep(Times(s, Front(h)), PushOf(s, Last(h)).value, now);
      }
    }
  }

  lemma NoTimes(now: Time)
    ensures InLastSecond([], now) == {}
  {
  }

  lemma RecentBelow(s: Stream, h: seq<Event>, now: Time)
    ensures |h| !in RecentEvents(s, h, now)
  {
  }
}
