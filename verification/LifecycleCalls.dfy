/** What a call of start or stop decides, told from the threads that exist, and which commands every step sends. */
module LifecycleCalls {
  import opened Protocol
  import opened Session
  import opened Lifecycle
  import opened LifecycleInvariant
  import opened CallerSteps
  import opened LifecycleFrames
  import opened LifecycleSafety
  import opened LifecyclePolicy

  // ---------------------------------------------------------------- what the flags tell

  /** The worker has not left its last section. */
  predicate Running(s: State, w: nat) {
    w in s.workers && !ExitedPc(s.workers[w].pc)
  }

  /** What the handle tells while nobody joins. */
  lemma HandleTells(s: State)
    requires Inv(s)
    ensures s.joining <==> s.joiner.Some?
    ensures !s.joining ==> (s.handle.None? <==> s.workers == map[])
    ensures !s.joining && s.handle.Some? ==> s.handle.value in s.workers
  {
    hide Wires, Faults, Endings, Holders, IdPublished, CallersFit;
    if s.current.Some? {
      assert s.current.value in s.workers.Keys;
    } else {
      assert s.workers.Keys == {};
    }
  }

  lemma ExitTells(s: State)
    requires Inv(s) && !s.joining && s.handle.Some?
    ensures s.handle.value in s.workers && (s.exited <==> ExitedPc(s.workers[s.handle.value].pc))
  {
    hide Wires, Faults, Endings, Holders, CallersFit, ExitedPc;
    assert s.handle.value in s.workers.Keys;
  }

  /** A thread that decides whether to start or stop finds the published id to be its own exactly when it is the
      worker's. */
  lemma IdTells(s: State, t: Tid)
    requires Inv(s) && t in s.callers && (s.lock.None? || s.callers[t].StopDeciding?)
    ensures OnWorkerThread(s, t) <==> IsWorker(s, t)
  {
    hide Wires, Faults, Endings, Holders, IsWorker, FitsRollback, FitsDestruction, OneWorker, InItsCallback;
    WorkerThread(s, t);
    AtCall(s, t);
  }

  // ---------------------------------------------------------------- start

  /** Everything of the previous start is saved and cleared, and a new one is current. */
  predicate Starts(s: State, s': State, t: Tid) {
    && t in s'.callers && s'.callers[t] == StartArming(TakeSnapshot(s)) && s'.lock == Some(t)
    && s'.latch == NoFault && s'.data.state == Connecting && s'.data.faultCode == NoFault
    && s'.data.generation == s.data.generation + 1 && s'.data.deliveredGeneration == 0 && s'.data.latest.None?
    && s'.data.serial == s'.starts == s.starts + 1
  }

  lemma ArmStarts(s: State, t: Tid)
    ensures Starts(s, Arm(s, t), t)
  {
  }

  lemma MoveIs(s: State, t: Tid, pc: CallerPc)
    ensures t in Move(s, t, pc).callers && Move(s, t, pc).callers[t] == pc
    ensures TakeSnapshot(Move(s, t, pc)) == TakeSnapshot(s)
  {
  }

  lemma LeaveIs(s: State, t: Tid)
    ensures t !in Leave(s, t).callers && TakeSnapshot(Leave(s, t)) == TakeSnapshot(s)
  {
  }

  lemma TakeIs(s: State, t: Tid, pc: CallerPc)
    ensures var s' := TakeHandle(s, t, pc);
            t in s'.callers && s'.callers[t] == pc && s'.joiner == Some(t) && TakeSnapshot(s') == TakeSnapshot(s)
  {
  }

  /** What a start that nobody's join delays comes to. */
  predicate Decided(s: State, s': State, t: Tid) {
    if s.workers == map[] then Starts(s, s', t)
    else
      TakeSnapshot(s') == TakeSnapshot(s) &&
      forall w :: w in s.workers ==>
        if !Running(s, w) then t in s'.callers && s'.callers[t] == StartJoining(w) && s'.joiner == Some(t)
        else if s.latch == NoFault then t !in s'.callers
        else t in s'.callers && s'.callers[t] == StartAwaitExit
  }

  lemma DecideIs(s: State, t: Tid)
    requires Inv(s) && !s.joining
    ensures Decided(s, StartDecide(s, t), t)
  {
    hide Inv, Arm, Move, Leave, TakeHandle, TakeSnapshot, Starts, ExitedPc;
    HandleTells(s);
    if s.handle.None? {
      ArmStarts(s, t);
    } else {
      var w := s.handle.value;
      ExitTells(s);
      LeaveIs(s, t);
      MoveIs(s, t, StartAwaitExit);
      TakeIs(s, t, StartJoining(w));
      forall v | v in s.workers ensures v == w {
        OnlyOne(s, v, w);
      }
    }
  }

  /** What a call of start decides: refused in the callback of the running worker and, nothing being latched, while one
      runs outside; delayed by a join under way and by a faulted worker that has not finished; joining a finished one;
      and otherwise, no worker existing, a new start. Until it starts, nothing changes. */
  lemma StartDecides(states: seq<State>, actions: seq<Action>, i: nat, t: Tid)
    requires IsRun(states, actions) && i < |actions| && actions[i].CallerStep? && actions[i].t == t
    requires t in states[i].callers && states[i].callers[t] in {StartEntry, StartAwaitJoin}
    ensures var s, s' := states[i], states[i + 1];
            if IsWorker(s, t) then t !in s'.callers && TakeSnapshot(s') == TakeSnapshot(s)
            else if s.joiner.Some? then
              t in s'.callers && s'.callers[t] == StartAwaitJoin && TakeSnapshot(s') == TakeSnapshot(s)
            else Decided(s, s', t)
  {
    hide Inv, TakeSnapshot, OnWorkerThread, IsWorker, Move, Leave, StartDecide, Decided;
    RunStep(states, actions, i);
    var s := states[i];
    HandleTells(s);
    IdTells(s, t);
    LeaveIs(s, t);
    MoveIs(s, t, StartAwaitJoin);
    if s.callers[t] == StartAwaitJoin {
      NeverJoinsItselfAt(s, t);
    }
    if !s.joining {
      DecideIs(s, t);
    }
  }

  lemma NeverJoinsItselfAt(s: State, t: Tid)
    requires Inv(s) && t in s.callers && s.callers[t] == StartAwaitJoin
    ensures !IsWorker(s, t)
  {
    hide Wires, Faults, Endings, Holders, IsWorker, FitsRollback, FitsDestruction, FitsThreads, OneWorker, InItsCallback;
    WorkerThread(s, t);
    AtCall(s, t);
  }

  // ---------------------------------------------------------------- stop

  lemma FinishIs(s: State, t: Tid, n: Then)
    ensures StopEnded(Finish(s, t, n).(lock := None), t)
  {
  }

  lemma MarkFinishIs(s: State, t: Tid, n: Then)
    ensures StopEnded(Finish(MarkStopped(s), t, n).(lock := None), t)
    ensures s.latch == NoFault ==> Finish(MarkStopped(s), t, n).(lock := None).data.state == Idle
  {
  }

  lemma WaitIs(s: State, t: Tid, n: Then)
    ensures var s' := Move(s, t, StopAwaitJoin(n)).(lock := None);
            t in s'.callers && s'.callers[t] == StopAwaitJoin(n)
  {
  }

  /** What a stop that no callback makes and no other join delays comes to. */
  predicate Stopped(s: State, s': State, t: Tid, n: Then) {
    if s.workers == map[] then StopEnded(s', t) && (s.latch == NoFault ==> s'.data.state == Idle)
    else t in s'.callers && forall w :: w in s.workers ==> s'.callers[t] == StopJoining(n, w)
  }

  lemma StopIs(s: State, t: Tid, n: Then)
    requires Inv(s) && !s.joining && !OnWorkerThread(s, t)
    ensures Stopped(s, StopDecidingNext(s, t, n), t, n)
  {
    hide Inv, OnWorkerThread, Move, Finish, MarkStopped, TakeHandle, StopEnded, TakeSnapshot;
    HandleTells(s);
    if s.handle.None? {
      MarkFinishIs(s, t, n);
    } else {
      TakeIs(s, t, StopJoining(n, s.handle.value));
      forall v | v in s.workers ensures v == s.handle.value {
        OnlyOne(s, v, s.handle.value);
      }
    }
  }

  /** What a stop decides once it is past its command: over in the callback of the worker; delayed by a join under way;
      over, with nothing left to stop, when no worker exists; and otherwise it joins the one worker. */
  lemma StopDecides(states: seq<State>, actions: seq<Action>, i: nat, t: Tid)
    requires IsRun(states, actions) && i < |actions| && actions[i].CallerStep? && actions[i].t == t
    requires t in states[i].callers && states[i].callers[t].StopDeciding?
    ensures var s, s', n := states[i], states[i + 1], states[i].callers[t].next;
            if IsWorker(s, t) then StopEnded(s', t)
            else if s.joiner.Some? then t in s'.callers && s'.callers[t] == StopAwaitJoin(n)
            else Stopped(s, s', t, n)
  {
    hide Inv, OnWorkerThread, IsWorker, StopDecidingNext, StopEnded, Stopped;
    RunStep(states, actions, i);
    StopFirst(states[i], t, states[i].callers[t].next);
    if !states[i].joining && !OnWorkerThread(states[i], t) {
      StopIs(states[i], t, states[i].callers[t].next);
    }
  }

  /** Before that, the callback and another join. */
  lemma StopFirst(s: State, t: Tid, n: Then)
    requires Inv(s) && t in s.callers && s.callers[t] == StopDeciding(n)
    ensures var s' := StopDecidingNext(s, t, n);
            if IsWorker(s, t) then StopEnded(s', t)
            else if s.joiner.Some? then t in s'.callers && s'.callers[t] == StopAwaitJoin(n)
            else !s.joining && !OnWorkerThread(s, t)
  {
    hide Inv, OnWorkerThread, IsWorker, Move, Finish, MarkStopped, TakeHandle, StopEnded;
    HandleTells(s);
    IdTells(s, t);
    FinishIs(s, t, n);
    WaitIs(s, t, n);
  }

  // ---------------------------------------------------------------- commands

  /** The device streams, or is about to. */
  predicate DeviceOnAir(s: State) {
    Heard(s.attempts) == Some(OnAir)
  }

  function Hush(s: State, ok: bool): seq<Attempt> {
    if DeviceOnAir(s) then [Attempt(WireStop, ok)] else []
  }

  /** What a step sends. */
  function Sends(s: State, a: Action): seq<Attempt> {
    match a
    case WorkerStep(w, c) =>
      if w !in s.workers then []
      else if s.workers[w].pc == Commanding && !s.stopping then [Attempt(WireStart, c.ok)]
      else if s.workers[w].pc.Closing? || s.workers[w].pc == Retiring then Hush(s, c.ok)
      else []
    case CallerStep(t, ok, _, _) => if t in s.callers && s.callers[t].StopCommanding? then Hush(s, ok) else []
    case CallBias(_, biasOk, startOk) =>
      if s.stopping || s.latch != NoFault || s.data.state != Streaming || !DeviceOnAir(s) then []
      else if biasOk then [Attempt(WireBias, true), Attempt(WireStart, startOk)]
      else [Attempt(WireBias, false)]
    case _ => []
  }

  lemma StartedMeansOnAir(s: State)
    requires Inv(s)
    ensures s.sessionStarted <==> DeviceOnAir(s)
  {
    hide Threads, Faults, Endings, CallersFit, StopNotLost, Heard;
  }

  lemma QuietAt(s: State, w: nat)
    requires w in s.workers
    ensures forall pc :: At(s, w, pc).attempts == s.attempts
  {
  }

  lemma QuietEnd(s: State, f: FaultCode)
    ensures Publish(s, f).attempts == s.attempts && MarkStopped(s).attempts == s.attempts
  {
  }

  lemma CloseSends(s: State, w: nat, pc: WorkerPc, ok: bool)
    requires w in s.workers
    ensures CloseSession(At(s, w, pc), ok).attempts
            == s.attempts + if s.sessionStarted then [Attempt(WireStop, ok)] else []
  {
  }

  lemma CommandingSends(s: State, w: nat, ok: bool)
    requires w in s.workers
    ensures CommandingNext(s, w, ok).attempts == s.attempts + if s.stopping then [] else [Attempt(WireStart, ok)]
  {
  }

  lemma OpeningSends(s: State, w: nat, c: Choice)
    requires w in s.workers && OpeningPc(s.workers[w].pc)
    ensures OpeningNext(s, w, c).attempts
            == s.attempts + if s.workers[w].pc == Commanding && !s.stopping then [Attempt(WireStart, c.ok)] else []
  {
    hide CommandingNext, At;
    CommandingSends(s, w, c.ok);
    QuietAt(s, w);
  }

  lemma StreamingSends(s: State, w: nat, c: Choice)
    requires w in s.workers && StreamingPc(s.workers[w].pc)
    ensures StreamingNext(s, w, c).attempts == s.attempts
  {
    hide At;
    QuietAt(s, w);
  }

  lemma ClosingSends(s: State, w: nat, c: Choice)
    requires w in s.workers && !OpeningPc(s.workers[w].pc) && !StreamingPc(s.workers[w].pc)
    ensures ClosingNext(s, w, c).attempts
            == s.attempts + if (s.workers[w].pc.Closing? || s.workers[w].pc == Retiring) && s.sessionStarted
                            then [Attempt(WireStop, c.ok)] else []
  {
    hide At, CloseSession, Publish, MarkStopped;
    QuietAt(s, w);
    match s.workers[w].pc
    case Closing(o) => CloseSends(s, w, Judging(o), c.ok);
    case Retiring => CloseSends(s, w, Exiting, c.ok);
    case Judging(o) => if o.Fail? { QuietEnd(At(s, w, Retiring), o.fault); }
    case Escaping => QuietEnd(At(s, w, Retiring), if s.stopping then NoFault else SocketFault);
    case Settling => QuietEnd(At(s, w, Done), NoFault);
    case _ =>
  }

  lemma WorkerSends(s: State, w: nat, c: Choice)
    requires Inv(s) && WorkerEnabled(s, w, c)
    ensures WorkerNext(s, w, c).attempts == s.attempts + Sends(s, WorkerStep(w, c))
  {
    hide Inv, DeviceOnAir, OpeningNext, StreamingNext, ClosingNext, FollowsStreaming;
    StartedMeansOnAir(s);
    if OpeningPc(s.workers[w].pc) {
      OpeningSends(s, w, c);
    } else if StreamingPc(s.workers[w].pc) {
      StreamingSends(s, w, c);
    } else {
      ClosingSends(s, w, c);
    }
  }

  lemma StopSends(s: State, t: Tid, n: Then, ok: bool)
    ensures StopCommandingNext(s, t, n, ok).attempts
            == s.attempts + if s.sessionStarted then [Attempt(WireStop, ok)] else []
  {
    hide DoomAll;
  }

  lemma CallerSends(s: State, t: Tid, ok: bool, tid: Tid, callback: int)
    requires Inv(s) && t in s.callers
    ensures CallerNext(s, t, ok, tid, callback).attempts == s.attempts + Sends(s, CallerStep(t, ok, tid, callback))
  {
    hide Inv, DeviceOnAir, Move, StartEntryNext, StartDecide, StartJoinedNext, StopDecidingNext, StopJoinedNext,
         StopEntryNext, DestroyEntryNext, StartPublishingNext, StopCommandingNext, StartCreatingNext, Joined,
         StartArmingNext, RollbackFlagsNext, RollbackDataNext, RollbackLatchNext, RollbackFaultNext, StartForward,
         RollingBack;
    match s.callers[t]
    case StopCommanding(n) => StartedMeansOnAir(s); StopSends(s, t, n, ok);
    case StartJoining(w) => JoinWorkers(s, t, w, StartJoined);
    case StopJoining(n, w) => JoinWorkers(s, t, w, StopJoined(n));
    case StartCreating(e) => CreateWorkers(s, t, tid, e);
    case _ => CallerWorkers(s, t, ok, tid, callback);
  }

  lemma BiasSends(s: State, t: Tid, biasOk: bool, startOk: bool)
    requires Inv(s)
    ensures BiasNext(s, biasOk, startOk)
            == s.(attempts := s.attempts + Sends(s, CallBias(t, biasOk, startOk)))
  {
    hide Inv, DeviceOnAir;
    StartedMeansOnAir(s);
  }

  lemma StepSends(s: State, a: Action)
    requires Inv(s) && Enabled(s, a)
    ensures Apply(s, a).attempts == s.attempts + Sends(s, a)
    ensures a.CallBias? ==> Apply(s, a) == s.(attempts := s.attempts + Sends(s, a))
  {
    hide Inv, MayCall, MayDestroy, CallerEnabled, CallerNext, WorkerNext, WorkerEnabled, BiasNext, Move, DestroyerTakes,
         BeginDestroy, DeviceOnAir, StartForward, RollingBack;
    match a
    case CallStart(t) => MoveWorkers(s, t, StartEntry);
    case CallStop(t) => MoveWorkers(s, t, StopEntry(Return));
    case CallBias(t, biasOk, startOk) => BiasSends(s, t, biasOk, startOk);
    case CallDestroy(t) => DestroyWorkers(s, t);
    case DestroyerPicks => DestroyWorkers(s, DESTROYER);
    case CallerStep(t, ok, tid, callback) => Inside(s, t, ok, tid); CallerSends(s, t, ok, tid, callback);
    case WorkerStep(w, c) => WorkerSends(s, w, c);
  }

  /** What every step sends, told from what the device has heard: a worker starts the stream where no stop is visible;
      a worker that closes a session or retires, and a stop, silence a device that streams and send nothing to one that
      does not; a bias goes to a streaming device of an unfaulted, unstopped client only and is followed by a start when
      it went through. No other step sends anything, and a bias changes nothing else. */
  lemma SentExactly(states: seq<State>, actions: seq<Action>, i: nat)
    requires IsRun(states, actions) && i < |actions|
    ensures states[i + 1].attempts == states[i].attempts + Sends(states[i], actions[i])
    ensures actions[i].CallBias? ==> states[i + 1] == states[i].(attempts := states[i + 1].attempts)
  {
    hide Inv, Apply, Enabled, Sends;
    RunStep(states, actions, i);
    StepSends(states[i], actions[i]);
  }
}
