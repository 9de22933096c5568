/** Which samples count for a start, and which callback a worker calls, told from the steps of a run. */
module LifecycleDeliveries {
  import opened Protocol
  import opened Session
  import opened Lifecycle
  import opened LifecycleInvariant
  import opened CallerSteps
  import opened LifecycleRuns
  import opened LifecycleFrames
  import opened LifecycleSafety
  import opened LifecycleWaits
  import opened LifecyclePolicy

  // ---------------------------------------------------------------- what a step does to starts, samples, callbacks

  /** A worker finishes the delivery of a sample. */
  predicate Delivers(s: State, a: Action) {
    a.WorkerStep? && a.w in s.workers && s.workers[a.w].pc == Finishing
  }

  /** A start sets the callback it was given. */
  predicate Sets(s: State, a: Action) {
    a.CallerStep? && a.t in s.callers && s.callers[a.t].StartArming?
  }

  /** The start and its callback stay, and the latest sample is `latest`. */
  predicate KeptBut(s: State, s': State, latest: Option<nat>) {
    && s'.data.serial == s.data.serial && s'.data.latest == latest && s'.starts == s.starts
    && s'.callback == s.callback
  }

  lemma AtKeeps(s: State, w: nat)
    requires w in s.workers
    ensures forall pc :: Kept(s, At(s, w, pc))
  {
  }

  lemma CommandingKept(s: State, w: nat, ok: bool)
    requires w in s.workers
    ensures Kept(s, CommandingNext(s, w, ok))
  {
    hide At;
    AtKeeps(s, w);
  }

  lemma EndKept(s: State, f: FaultCode, ok: bool)
    ensures Kept(s, Publish(s, f)) && Kept(s, MarkStopped(s)) && Kept(s, CloseSession(s, ok))
  {
  }

  lemma OpeningKept(s: State, w: nat, c: Choice)
    requires w in s.workers && OpeningPc(s.workers[w].pc)
    ensures Kept(s, OpeningNext(s, w, c))
  {
    hide At, CommandingNext;
    AtKeeps(s, w);
    CommandingKept(s, w, c.ok);
  }

  lemma StreamingKept(s: State, w: nat, c: Choice)
    requires w in s.workers && StreamingPc(s.workers[w].pc)
    ensures KeptBut(s, StreamingNext(s, w, c),
                    if s.workers[w].pc == Finishing then Some(s.workers[w].serial) else s.data.latest)
  {
    hide At;
    AtKeeps(s, w);
  }

  lemma ClosingKept(s: State, w: nat, c: Choice)
    requires w in s.workers && !OpeningPc(s.workers[w].pc) && !StreamingPc(s.workers[w].pc)
    ensures Kept(s, ClosingNext(s, w, c))
  {
    hide At, CloseSession, Publish, MarkStopped;
    AtKeeps(s, w);
    match s.workers[w].pc
    case Closing(o) => EndKept(At(s, w, Judging(o)), NoFault, c.ok);
    case Retiring => EndKept(At(s, w, Exiting), NoFault, c.ok);
    case Judging(o) => if o.Fail? { EndKept(At(s, w, Retiring), o.fault, true); }
    case Escaping => EndKept(At(s, w, Retiring), if s.stopping then NoFault else SocketFault, true);
    case Settling => EndKept(At(s, w, Done), NoFault, true);
    case _ =>
  }

  lemma SerialOf(s: State, w: nat)
    requires Inv(s) && w in s.workers
    ensures s.workers[w].serial == s.data.serial
  {
    hide Wires, Endings, Holders, IdPublished, CallersFit, FaultsNamed, FaultsInStep, GenerationTells;
    assert w in s.workers.Keys;
  }

  lemma WorkerKept(s: State, w: nat, c: Choice)
    requires Inv(s) && WorkerEnabled(s, w, c)
    ensures KeptBut(s, WorkerNext(s, w, c),
                    if s.workers[w].pc == Finishing then Some(s.data.serial) else s.data.latest)
  {
    hide Inv, OpeningNext, StreamingNext, ClosingNext, FollowsStreaming;
    SerialOf(s, w);
    if OpeningPc(s.workers[w].pc) {
      OpeningKept(s, w, c);
    } else if StreamingPc(s.workers[w].pc) {
      StreamingKept(s, w, c);
    } else {
      ClosingKept(s, w, c);
    }
  }

  // ----- callers

  /** What a step of a call can do: leave the start alone, begin a new one, set its callback, put back the callback or
      the data of the start before. */
  predicate CallTracks(s: State, s': State, t: Tid, callback: int)
    requires t in s.callers
  {
    match s.callers[t]
    case StartArming(_) => KeptBut(s, s'.(callback := s.callback), s.data.latest) && s'.callback == callback
    case RollbackFlags(_) => KeptBut(s, s'.(callback := s.callback), s.data.latest)
    case RollbackData(e) => s'.data == e.data && s'.starts == s.starts && s'.callback == s.callback
    case _ => Kept(s, s') || (s.workers == map[] && s.lock.None? && Begun(s, s'))
  }

  predicate Begun(s: State, s': State) {
    s'.data.serial == s'.starts == s.starts + 1 && s'.data.latest.None? && s'.callback == s.callback
  }

  lemma ArmBegins(s: State, t: Tid)
    ensures Begun(s, Arm(s, t))
  {
  }

  lemma DecideTracks(s: State, t: Tid)
    requires Inv(s) && !s.joining
    ensures Kept(s, StartDecide(s, t)) || (s.workers == map[] && Begun(s, StartDecide(s, t)))
  {
    hide Inv, Move, Leave, Arm, TakeHandle, Begun;
    if s.handle.None? {
      NobodyStored(s);
      ArmBegins(s, t);
    } else {
      LeaveHeld(s, t);
      MoveHeld(s, t, StartAwaitExit);
      TakeHeld(s, t, StartJoining(s.handle.value));
    }
  }

  lemma EntryTracks(s: State, t: Tid)
    requires Inv(s)
    ensures Kept(s, StartEntryNext(s, t)) || (s.workers == map[] && Begun(s, StartEntryNext(s, t)))
  {
    hide Inv, Move, Leave, StartDecide, OnWorkerThread, Begun;
    LeaveHeld(s, t);
    MoveHeld(s, t, StartAwaitJoin);
    if !s.joining {
      DecideTracks(s, t);
    }
  }

  lemma ArmingTracks(s: State, t: Tid, e: Snapshot, callback: int)
    ensures var s' := StartArmingNext(s, t, e, callback);
            s'.data == s.data && s'.starts == s.starts && s'.callback == callback
  {
  }

  lemma FlagsTrack(s: State, t: Tid, e: Snapshot)
    ensures var s' := RollbackFlagsNext(s, t, e); s'.data == s.data && s'.starts == s.starts
  {
  }

  lemma DataTracks(s: State, t: Tid, e: Snapshot)
    ensures var s' := RollbackDataNext(s, t, e); s'.data == e.data && s'.starts == s.starts && s'.callback == s.callback
  {
  }

  lemma LatchTracks(s: State, t: Tid, e: Snapshot)
    ensures Kept(s, RollbackLatchNext(s, t, e)) && Kept(s, RollbackFaultNext(s, t, e))
  {
  }

  lemma StartTracks(s: State, t: Tid, ok: bool, tid: Tid, callback: int)
    requires Inv(s) && CallerEnabled(s, t, ok, tid) && !StopPc(s.callers[t])
    ensures CallTracks(s, CallerNext(s, t, ok, tid, callback), t, callback)
  {
    hide Inv, Kept, Begun, Move, Joined, StartEntryNext, StartDecide, StartJoinedNext, StartArmingNext, StartCreatingNext,
         StartPublishingNext, RollbackFlagsNext, RollbackDataNext, RollbackLatchNext, RollbackFaultNext;
    match s.callers[t]
    case StartEntry => EntryTracks(s, t);
    case StartAwaitJoin => DecideTracks(s, t);
    case StartAwaitExit => MoveHeld(s, t, StartEntry);
    case StartJoining(w) => JoinHeld(s, t, w, StartJoined);
    case StartJoined => RejoinHeld(s, t);
    case StartArming(e) => ArmingTracks(s, t, e, callback);
    case StartCreating(e) => CreateHeld(s, t, tid); MoveHeld(s, t, RollbackFlags(e));
    case StartPublishing => PublishHeld(s, t);
    case RollbackFlags(e) => FlagsTrack(s, t, e);
    case RollbackData(e) => DataTracks(s, t, e);
    case RollbackLatch(e) => LatchTracks(s, t, e);
    case RollbackFault(e) => LatchTracks(s, t, e);
  }

  lemma MarkKept(s: State, t: Tid, n: Then)
    ensures Kept(s, Finish(MarkStopped(s), t, n).(lock := None)) && Kept(s, StopJoinedNext(s, t, n))
  {
  }

  lemma StopDecidingKept(s: State, t: Tid, n: Then)
    ensures Kept(s, StopDecidingNext(s, t, n))
  {
    hide Kept, Move, Finish, MarkStopped, TakeHandle, OnWorkerThread;
    FinishHeld(s, t, n);
    UnlockHeld(s, t, StopAwaitJoin(n));
    MarkKept(s, t, n);
    if s.handle.Some? {
      TakeHeld(s, t, StopJoining(n, s.handle.value));
    }
  }

  lemma StopTracks(s: State, t: Tid, ok: bool, tid: Tid, callback: int)
    requires t in s.callers && StopPc(s.callers[t])
    ensures Kept(s, CallerNext(s, t, ok, tid, callback))
  {
    hide Kept, Effect, Move, Joined, StopEntryNext, StopCommandingNext, StopDecidingNext, StopJoinedNext, DestroyEntryNext;
    match s.callers[t]
    case StopEntry(n) => StopEntryEffect(s, t, n);
    case StopCommanding(n) => CommandEffect(s, t, n, ok);
    case StopDeciding(n) => StopDecidingKept(s, t, n);
    case StopAwaitJoin(n) => MoveHeld(s, t, StopEntry(n));
    case StopJoining(n, w) => JoinHeld(s, t, w, StopJoined(n));
    case StopJoined(n) => MarkKept(s, t, n);
    case DestroyEntry => DestroyHeld(s, t);
  }

  lemma CallerTracks(s: State, t: Tid, ok: bool, tid: Tid, callback: int)
    requires Inv(s) && CallerEnabled(s, t, ok, tid)
    ensures CallTracks(s, CallerNext(s, t, ok, tid, callback), t, callback)
  {
    hide Inv, Kept, Begun, KeptBut, CallerNext;
    if StopPc(s.callers[t]) {
      StopTracks(s, t, ok, tid, callback);
    } else {
      StartTracks(s, t, ok, tid, callback);
    }
  }

  // ----- every step

  /** A step seen from the start that is current: it stays, with its latest sample or a new one; it gives way to the one
      before, put back by a failed start; or to a new one. */
  ghost predicate Tracks(s: State, s': State, a: Action) {
    || KeptBut(s, s'.(callback := s.callback), if Delivers(s, a) then Some(s.data.serial) else s.data.latest)
    || (a.CallerStep? && RollingBack(s, a.t) && s'.starts == s.starts && s'.data == s.callers[a.t].entry.data)
    || (!Delivers(s, a) && s.workers == map[] && s.lock.None? && Begun(s, s'))
  }

  /** The callback is set by a start, put back by a failed one, and else stays. */
  predicate Calls(s: State, s': State, a: Action) {
    if Sets(s, a) then s'.callback == a.callback
    else s'.callback == s.callback || (a.CallerStep? && a.t in s.callers && s.callers[a.t].RollbackFlags?)
  }

  lemma StepTracks(s: State, a: Action)
    requires Inv(s) && Enabled(s, a)
    ensures Tracks(s, Apply(s, a), a) && Calls(s, Apply(s, a), a)
  {
    hide Inv, WorkerEnabled, WorkerNext, CallerEnabled, CallerNext, KeepsWorkers, Effect;
    if a.WorkerStep? {
      Working(s, a.w, a.choice);
      WorkerKept(s, a.w, a.choice);
    } else if a.CallerStep? {
      Inside(s, a.t, a.ok, a.tid);
      CallerTracks(s, a.t, a.ok, a.tid, a.callback);
    } else {
      OutsideStep(s, a);
    }
  }

  // ---------------------------------------------------------------- samples

  /** The starts for which a delivery was finished before state `i`. */
  function DeliveredStarts(states: seq<State>, actions: seq<Action>, i: nat): set<nat>
    requires |states| == |actions| + 1 && i < |states|
  {
    if i == 0 then {}
    else
      DeliveredStarts(states, actions, i - 1) +
        if Delivers(states[i - 1], actions[i - 1]) then {states[i - 1].data.serial} else {}
  }

  lemma {:induction false} DeliveredMeans(states: seq<State>, actions: seq<Action>, i: nat, serial: nat)
    requires |states| == |actions| + 1 && i < |states|
    ensures serial in DeliveredStarts(states, actions, i)
            <==> exists k :: 0 <= k < i && Delivers(states[k], actions[k]) && states[k].data.serial == serial
  {
    hide Delivers;
    if i > 0 {
      DeliveredMeans(states, actions, i - 1, serial);
    }
  }

  /** The data has a latest sample exactly when one was delivered for its start. */
  predicate Told(d: Data, delivered: set<nat>) {
    d.latest.Some? <==> d.serial in delivered
  }

  ghost predicate Tells(s: State, delivered: set<nat>) {
    && Told(s.data, delivered) && (forall r :: r in delivered ==> r <= s.starts)
    && forall t :: Creating(s, t) ==> Told(EntryAt(s, t).value.data, delivered)
  }

  lemma SerialBounded(s: State)
    requires Inv(s)
    ensures s.data.serial <= s.starts
  {
    hide Wires, Endings, Threads, CallersFit, FaultsNamed, FaultsInStep, GenerationTells;
  }

  lemma RollingCreates(s: State, t: Tid)
    requires RollingBack(s, t)
    ensures Creating(s, t) && EntryAt(s, t).value == s.callers[t].entry
  {
  }

  lemma DataTold(s: State, a: Action, delivered: set<nat>)
    requires Inv(s) && Enabled(s, a) && Tells(s, delivered)
    ensures var d := if Delivers(s, a) then delivered + {s.data.serial} else delivered;
            Told(Apply(s, a).data, d) && forall r :: r in d ==> r <= Apply(s, a).starts
  {
    hide Inv, Enabled, Apply, EntryAt, RollingBack, Delivers, Creating;
    StepTracks(s, a);
    SerialBounded(s);
    if a.CallerStep? && RollingBack(s, a.t) {
      RollingCreates(s, a.t);
      NotDelivering(s, a);
    }
  }

  lemma NotDelivering(s: State, a: Action)
    requires a.CallerStep?
    ensures !Delivers(s, a)
  {
  }

  lemma WhoDelivers(s: State, a: Action, t: Tid)
    requires Inv(s) && Enabled(s, a) && Delivers(s, a)
    ensures !Creating(Apply(s, a), t)
  {
    hide Inv, WorkerEnabled, WorkerNext, Creating;
    WorkerEnters(s, a.w, a.choice, t);
    if Creating(s, t) {
      CreatingMeans(s, t);
    }
  }

  lemma StepTells(s: State, a: Action, delivered: set<nat>)
    requires Inv(s) && Enabled(s, a) && Tells(s, delivered)
    ensures Tells(Apply(s, a), if Delivers(s, a) then delivered + {s.data.serial} else delivered)
  {
    hide Inv, Enabled, Apply, EntryAt, Delivers, Creating;
    var d := if Delivers(s, a) then delivered + {s.data.serial} else delivered;
    var s' := Apply(s, a);
    DataTold(s, a, delivered);
    forall t | Creating(s', t) ensures Creating(s', t) && EntryAt(s', t).Some? && Told(EntryAt(s', t).value.data, d) {
      EntryExists(s', t);
      if Delivers(s, a) {
        WhoDelivers(s, a, t);
      } else {
        EntryTold(s, a, delivered, t);
      }
    }
  }

  lemma EntryExists(s: State, t: Tid)
    ensures Creating(s, t) <==> EntryAt(s, t).Some?
  {
  }

  lemma EntryTold(s: State, a: Action, delivered: set<nat>, t: Tid)
    requires Inv(s) && Enabled(s, a) && Tells(s, delivered) && Creating(Apply(s, a), t)
    ensures Told(EntryAt(Apply(s, a), t).value.data, delivered)
  {
    hide Inv, Enabled, Apply, EntryAt, Told;
    if Creating(s, t) {
      StepCarries(s, a, t);
    } else {
      NewEntry(s, a, t);
    }
  }

  lemma {:induction false} RunTells(states: seq<State>, actions: seq<Action>, i: nat)
    requires IsRun(states, actions) && i < |states|
    ensures Tells(states[i], DeliveredStarts(states, actions, i))
  {
    hide Inv, Apply, Enabled, Delivers, Told;
    if i == 0 {
      FirstTold(states[0]);
    } else {
      RunTells(states, actions, i - 1);
      RunStep(states, actions, i - 1);
      StepTells(states[i - 1], actions[i - 1], DeliveredStarts(states, actions, i - 1));
      assert DeliveredStarts(states, actions, i - 1) + {} == DeliveredStarts(states, actions, i - 1);
    }
  }

  lemma FirstTold(s: State)
    requires exists failStop :: s == Initial(failStop)
    ensures Tells(s, {})
  {
  }

  /** `delivered_generation_ == generation_ > 0` holds exactly when, at some earlier step, a worker finished a delivery
      while the start that is current now was current; and a wait is answered accordingly. */
  lemma FreshMeansDelivered(states: seq<State>, actions: seq<Action>, i: nat)
    requires IsRun(states, actions) && i < |states|
    ensures var d := states[i].data;
            d.deliveredGeneration == d.generation && d.generation > 0
            <==> exists k :: 0 <= k < i && Delivers(states[k], actions[k]) && states[k].data.serial == d.serial
  {
    hide IsRun, Delivers, Inv, Creating, EntryAt;
    RunTells(states, actions, i);
    GenerationMeansFreshSample(states, actions, i);
    RunKeeps(states, actions, i);
    LatestIsCurrent(states[i]);
    RunLength(states, actions);
    DeliveredMeans(states, actions, i, states[i].data.serial);
  }

  lemma RunLength(states: seq<State>, actions: seq<Action>)
    requires IsRun(states, actions)
    ensures |states| == |actions| + 1
  {
  }

  lemma LatestIsCurrent(s: State)
    requires Inv(s)
    ensures s.data.latest.Some? ==> s.data.latest == Some(s.data.serial)
  {
    hide Wires, Endings, Threads, CallersFit, FaultsNamed, FaultsInStep;
  }

  // ---------------------------------------------------------------- callbacks

  /** A start under this number set this callback before state `i`. */
  predicate Given(states: seq<State>, actions: seq<Action>, i: nat, serial: nat, callback: int)
    requires |states| == |actions| + 1 && i < |states|
  {
    exists k :: 0 <= k < i && Sets(states[k], actions[k]) && states[k].data.serial == serial
                && actions[k].callback == callback
  }

  lemma GivenNext(states: seq<State>, actions: seq<Action>, i: nat, serial: nat, callback: int)
    requires |states| == |actions| + 1 && i < |actions|
    ensures Given(states, actions, i, serial, callback) ==> Given(states, actions, i + 1, serial, callback)
    ensures Sets(states[i], actions[i]) && states[i].data.serial == serial && actions[i].callback == callback
            ==> Given(states, actions, i + 1, serial, callback)
  {
    hide Sets;
  }

  /** Its start is about to create a worker. */
  predicate CreatesAt(s: State, t: Tid) {
    t in s.callers && s.callers[t].StartCreating?
  }

  /** A worker exists or is about to. */
  ghost predicate HasCallback(s: State) {
    s.workers != map[] || exists t :: CreatesAt(s, t)
  }

  // ----- how a thread comes there

  lemma MovesElsewhere(s: State, t: Tid, pc: CallerPc)
    requires !pc.StartCreating?
    ensures !CreatesAt(Move(s, t, pc), t) && !CreatesAt(TakeHandle(s, t, pc), t)
  {
  }

  lemma DecidesElsewhere(s: State, t: Tid)
    ensures !CreatesAt(Arm(s, t), t) && !CreatesAt(Leave(s, t), t)
  {
  }

  lemma EntersElsewhere(s: State, t: Tid, ok: bool, tid: Tid, callback: int)
    requires t in s.callers && s.callers[t] in {StartEntry, StartAwaitJoin}
    ensures !CreatesAt(CallerNext(s, t, ok, tid, callback), t)
  {
    hide CreatesAt, Move, TakeHandle, Arm, Leave, OnWorkerThread;
    DecidesElsewhere(s, t);
    MovesElsewhere(s, t, StartAwaitJoin);
    MovesElsewhere(s, t, StartAwaitExit);
    if s.handle.Some? {
      MovesElsewhere(s, t, StartJoining(s.handle.value));
    }
  }

  lemma RollsElsewhere(s: State, t: Tid, e: Snapshot, tid: Tid)
    ensures !CreatesAt(StartCreatingNext(s, t, tid), t) && !CreatesAt(RollbackFlagsNext(s, t, e), t)
    ensures !CreatesAt(RollbackDataNext(s, t, e), t) && !CreatesAt(RollbackLatchNext(s, t, e), t)
    ensures !CreatesAt(RollbackFaultNext(s, t, e), t)
  {
  }

  lemma OwnCreates(s: State, t: Tid, ok: bool, tid: Tid, callback: int)
    requires t in s.callers && CreatesAt(CallerNext(s, t, ok, tid, callback), t)
    ensures s.callers[t].StartArming?
  {
    hide CreatesAt, CallerNext, Creating;
    CreatesCreating(CallerNext(s, t, ok, tid, callback), t);
    if Creating(s, t) {
      CarriesOn(s, t, ok, tid, callback);
    } else {
      OwnEntry(s, t, ok, tid, callback);
      EntersElsewhere(s, t, ok, tid, callback);
    }
  }

  lemma CreatesCreating(s: State, t: Tid)
    requires CreatesAt(s, t)
    ensures Creating(s, t)
  {
  }

  lemma CarriesOn(s: State, t: Tid, ok: bool, tid: Tid, callback: int)
    requires t in s.callers && Creating(s, t)
    ensures CreatesAt(CallerNext(s, t, ok, tid, callback), t) ==> s.callers[t].StartArming?
  {
    hide CreatesAt, Move, StartCreatingNext, RollbackFlagsNext, RollbackDataNext, RollbackLatchNext, RollbackFaultNext;
    CreatingIs(s, t);
    RollsElsewhere(s, t, EntryAt(s, t).value, tid);
    MovesElsewhere(s, t, RollbackFlags(EntryAt(s, t).value));
  }

  lemma OthersStay(s: State, s': State, u: Tid, t: Tid)
    requires (SameWorkers(s, s', u) || CallerQuiet(s, s', u)) && u != t
    ensures CreatesAt(s', t) ==> CreatesAt(s, t)
  {
    hide StartForward, RollingBack, WorkersFrom;
  }

  lemma CallsElsewhere(s: State, u: Tid, pc: CallerPc, t: Tid)
    requires pc in {StartEntry, StopEntry(Return)}
    ensures CreatesAt(Move(s, u, pc), t) ==> CreatesAt(s, t)
  {
  }

  lemma DestroysElsewhere(s: State, u: Tid, t: Tid)
    ensures CreatesAt(BeginDestroy(s, u), t) ==> CreatesAt(s, t)
    ensures CreatesAt(DestroyerTakes(s), t) ==> CreatesAt(s, t)
  {
    hide IsWorker;
  }

  lemma BiasElsewhere(s: State, biasOk: bool, startOk: bool)
    ensures BiasNext(s, biasOk, startOk).callers == s.callers
  {
  }

  /** A thread comes to create a worker by setting its callback only. */
  lemma ComesBySetting(s: State, a: Action, t: Tid)
    requires Enabled(s, a) && CreatesAt(Apply(s, a), t)
    ensures CreatesAt(s, t) || Sets(s, a)
  {
    hide MayCall, MayDestroy, CallerEnabled, CallerNext, WorkerNext, WorkerEnabled, BiasNext, Move, DestroyerTakes,
         BeginDestroy, SameWorkers, CallerQuiet;
    match a
    case CallStart(u) => CallsElsewhere(s, u, StartEntry, t);
    case CallStop(u) => CallsElsewhere(s, u, StopEntry(Return), t);
    case CallBias(_, biasOk, startOk) => BiasElsewhere(s, biasOk, startOk);
    case CallDestroy(u) => DestroysElsewhere(s, u, t);
    case DestroyerPicks => DestroysElsewhere(s, DESTROYER, t);
    case CallerStep(u, ok, tid, callback) =>
      Inside(s, u, ok, tid);
      if u == t {
        OwnCreates(s, t, ok, tid, callback);
      } else {
        CallerStaysSilent(s, u, ok, tid, callback);
        OthersStay(s, CallerNext(s, u, ok, tid, callback), u, t);
      }
    case WorkerStep(w, c) => WorkerSilent(s, w, c);
  }

  /** A worker appears by a creation only. */
  lemma AppearsByCreation(s: State, a: Action)
    requires Inv(s) && Enabled(s, a) && s.workers == map[] && Apply(s, a).workers != map[]
    ensures a.CallerStep? && CreatesAt(s, a.t)
  {
    hide Inv, CallerEnabled, CallerNext, Effect, KeepsWorkers, Held;
    if a.CallerStep? {
      Inside(s, a.t, a.ok, a.tid);
      if !s.callers[a.t].StartCreating? {
        OthersMakeNone(s, a.t, a.ok, a.tid, a.callback);
      }
    } else if !a.WorkerStep? {
      OutsideStep(s, a);
    }
  }

  lemma OthersMakeNone(s: State, t: Tid, ok: bool, tid: Tid, callback: int)
    requires t in s.callers && !s.callers[t].StartCreating? && s.workers == map[]
    ensures CallerNext(s, t, ok, tid, callback).workers == map[]
  {
    hide Move, StartEntryNext, StartDecide, StartJoinedNext, StopDecidingNext, StopJoinedNext, StopEntryNext,
         DestroyEntryNext, StartPublishingNext, StopCommandingNext, StartArmingNext, RollbackFlagsNext, RollbackDataNext,
         RollbackLatchNext, RollbackFaultNext, StartForward, RollingBack, Joined;
    match s.callers[t]
    case StartJoining(w) => JoinWorkers(s, t, w, StartJoined);
    case StopJoining(n, w) => JoinWorkers(s, t, w, StopJoined(n));
    case StopCommanding(n) => CommandWorkers(s, t, n, ok);
    case _ => CallerWorkers(s, t, ok, tid, callback);
  }

  /** While a worker exists or is about to, its start and its callback stay. */
  lemma CallbackStays(s: State, a: Action)
    requires Inv(s) && Enabled(s, a) && HasCallback(s) && !Sets(s, a)
    ensures Apply(s, a).data.serial == s.data.serial && Apply(s, a).callback == s.callback
  {
    hide Inv, Enabled, Apply, Delivers, RollingBack, Creating, EntryAt;
    StepTracks(s, a);
    if a.CallerStep? {
      RollsAlone(s, a);
    }
    if t :| CreatesAt(s, t) {
      CreatesCreating(s, t);
      CreatingMeans(s, t);
    }
  }

  /** Nobody rolls back while a worker exists or is about to. */
  lemma RollsAlone(s: State, a: Action)
    requires Inv(s) && a.CallerStep? && HasCallback(s)
    ensures !RollingBack(s, a.t) && !(a.t in s.callers && s.callers[a.t].RollbackFlags?)
  {
    hide Inv;
    if a.t in s.callers && (s.callers[a.t].RollbackData? || s.callers[a.t].RollbackFlags?) {
      CreatingIs(s, a.t);
      CreatingMeans(s, a.t);
      forall t ensures !CreatesAt(s, t) {
        CreatingIs(s, t);
      }
    }
  }

  /** What the callback is once a worker can exist. */
  lemma {:induction false} RunCalls(states: seq<State>, actions: seq<Action>, i: nat)
    requires IsRun(states, actions) && i < |states| && HasCallback(states[i])
    ensures Given(states, actions, i, states[i].data.serial, states[i].callback)
  {
    hide Inv, Apply, Enabled, Given, HasCallback, Sets;
    if i == 0 {
      NoneAtFirst(states[0]);
    } else {
      var s, a := states[i - 1], actions[i - 1];
      RunStep(states, actions, i - 1);
      GivenNext(states, actions, i - 1, s.data.serial, states[i].callback);
      if Sets(s, a) {
        SetsCallback(s, a);
      } else {
        HadCallback(s, a);
        RunCalls(states, actions, i - 1);
        CallbackStays(s, a);
      }
    }
  }

  lemma NoneAtFirst(s: State)
    requires exists failStop :: s == Initial(failStop)
    ensures !HasCallback(s)
  {
  }

  lemma SetsCallback(s: State, a: Action)
    requires Inv(s) && Enabled(s, a) && Sets(s, a)
    ensures Apply(s, a).callback == a.callback && Apply(s, a).data.serial == s.data.serial
  {
    hide StartArmingNext, Inv;
    ArmingTracks(s, a.t, s.callers[a.t].entry, a.callback);
  }

  lemma HadCallback(s: State, a: Action)
    requires Inv(s) && Enabled(s, a) && !Sets(s, a) && HasCallback(Apply(s, a))
    ensures HasCallback(s)
  {
    hide Inv, Apply, Enabled, Sets, CreatesAt;
    if s.workers == map[] && Apply(s, a).workers != map[] {
      AppearsByCreation(s, a);
    }
    if t :| CreatesAt(Apply(s, a), t) {
      ComesBySetting(s, a, t);
    }
  }

  /** A worker calls the callback that the start which created it was given, whatever starts failed or were refused in
      between. */
  lemma WorkerCallsItsStart(states: seq<State>, actions: seq<Action>, i: nat, w: nat)
    requires IsRun(states, actions) && i < |states| && w in states[i].workers
    ensures exists k :: 0 <= k < i && Sets(states[k], actions[k]) && states[k].data.serial == states[i].workers[w].serial
                        && actions[k].callback == states[i].callback
  {
    hide IsRun, Inv, Sets;
    RunKeeps(states, actions, i);
    SerialOf(states[i], w);
    RunLength(states, actions);
    RunCalls(states, actions, i);
  }
}
