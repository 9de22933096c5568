/** The flags by which a stop reaches the worker: who raises and who lowers them, and whose stop a worker sees. */
module LifecycleFlags {
  import opened Protocol
  import opened Session
  import opened Lifecycle
  import opened LifecycleInvariant
  import opened LifecycleRuns
  import opened LifecycleFrames
  import opened LifecycleSafety
  import opened LifecyclePolicy
  import opened LifecycleDeliveries

  // ---------------------------------------------------------------- steps of a worker

  predicate Closes(s: State, w: nat) {
    w in s.workers && (s.workers[w].pc.Closing? || s.workers[w].pc == Retiring)
  }

  /** Closing a session and stopping raise it, connecting lowers it. */
  function FlagAfter(s: State, a: Action): bool {
    match a
    case WorkerStep(w, c) =>
      Closes(s, w) || (s.shutdownRequested && !(w in s.workers && s.workers[w].pc == Linking && c.ok))
    case CallerStep(t, _, _, _) => s.shutdownRequested || (t in s.callers && s.callers[t].StopCommanding?)
    case _ => s.shutdownRequested
  }

  lemma AtFlag(s: State, w: nat)
    requires w in s.workers
    ensures forall pc :: At(s, w, pc).shutdownRequested == s.shutdownRequested
  {
  }

  lemma EndFlag(s: State, f: FaultCode, ok: bool)
    ensures Publish(s, f).shutdownRequested == s.shutdownRequested == MarkStopped(s).shutdownRequested
    ensures CloseSession(s, ok).shutdownRequested
  {
  }

  lemma CommandingFlag(s: State, w: nat, ok: bool)
    requires w in s.workers
    ensures CommandingNext(s, w, ok).shutdownRequested == s.shutdownRequested
  {
    hide At;
    AtFlag(s, w);
  }

  lemma OpeningFlag(s: State, w: nat, c: Choice)
    requires w in s.workers && OpeningPc(s.workers[w].pc)
    ensures OpeningNext(s, w, c).shutdownRequested <==> s.shutdownRequested && !(s.workers[w].pc == Linking && c.ok)
  {
    hide At, CommandingNext;
    AtFlag(s, w);
    CommandingFlag(s, w, c.ok);
  }

  lemma StreamingFlag(s: State, w: nat, c: Choice)
    requires w in s.workers && StreamingPc(s.workers[w].pc)
    ensures StreamingNext(s, w, c).shutdownRequested == s.shutdownRequested
  {
    hide At;
    AtFlag(s, w);
  }

  lemma ClosingFlag(s: State, w: nat, c: Choice)
    requires w in s.workers && !OpeningPc(s.workers[w].pc) && !StreamingPc(s.workers[w].pc)
    ensures ClosingNext(s, w, c).shutdownRequested <==> Closes(s, w) || s.shutdownRequested
  {
    hide At, CloseSession, Publish, MarkStopped;
    AtFlag(s, w);
    match s.workers[w].pc
    case Closing(o) => EndFlag(At(s, w, Judging(o)), NoFault, c.ok);
    case Retiring => EndFlag(At(s, w, Exiting), NoFault, c.ok);
    case Judging(o) => if o.Fail? { EndFlag(At(s, w, Retiring), o.fault, true); }
    case Escaping => EndFlag(At(s, w, Retiring), if s.stopping then NoFault else SocketFault, true);
    case Settling => EndFlag(At(s, w, Done), NoFault, true);
    case _ =>
  }

  lemma WorkerFlag(s: State, w: nat, c: Choice)
    requires WorkerEnabled(s, w, c)
    ensures WorkerNext(s, w, c).shutdownRequested == FlagAfter(s, WorkerStep(w, c))
  {
    hide OpeningNext, StreamingNext, ClosingNext, FollowsStreaming;
    if OpeningPc(s.workers[w].pc) {
      OpeningFlag(s, w, c);
    } else if StreamingPc(s.workers[w].pc) {
      StreamingFlag(s, w, c);
    } else {
      ClosingFlag(s, w, c);
    }
  }

  // ---------------------------------------------------------------- steps of a call

  predicate SameFlags(s: State, s': State) {
    s'.stopping == s.stopping && s'.shutdownRequested == s.shutdownRequested
  }

  lemma MarkLeavesFlags(s: State, t: Tid, n: Then)
    ensures SameFlags(s, Finish(MarkStopped(s), t, n).(lock := None)) && SameFlags(s, StopJoinedNext(s, t, n))
  {
  }

  lemma DecidingLeavesFlags(s: State, t: Tid, n: Then)
    ensures SameFlags(s, StopDecidingNext(s, t, n))
  {
    hide Kept, Move, Finish, MarkStopped, TakeHandle, OnWorkerThread;
    FinishHeld(s, t, n);
    UnlockHeld(s, t, StopAwaitJoin(n));
    MarkLeavesFlags(s, t, n);
    if s.handle.Some? {
      TakeHeld(s, t, StopJoining(n, s.handle.value));
    }
  }

  lemma StopFlags(s: State, t: Tid, ok: bool, tid: Tid, callback: int)
    requires t in s.callers && StopPc(s.callers[t]) && !s.callers[t].StopEntry?
    ensures var s' := CallerNext(s, t, ok, tid, callback);
            s'.stopping == s.stopping && (s'.shutdownRequested <==> s.shutdownRequested || s.callers[t].StopCommanding?)
  {
    hide Kept, Effect, Move, Joined, StopCommandingNext, StopDecidingNext, StopJoinedNext, DestroyEntryNext;
    match s.callers[t]
    case StopCommanding(n) => CommandEffect(s, t, n, ok);
    case StopDeciding(n) => DecidingLeavesFlags(s, t, n);
    case StopAwaitJoin(n) => MoveHeld(s, t, StopEntry(n));
    case StopJoining(n, w) => JoinHeld(s, t, w, StopJoined(n));
    case StopJoined(n) => MarkLeavesFlags(s, t, n);
    case DestroyEntry => DestroyHeld(s, t);
  }

  lemma ArmLeavesFlags(s: State, t: Tid)
    ensures SameFlags(s, Arm(s, t))
  {
  }

  lemma DecideFlags(s: State, t: Tid)
    ensures SameFlags(s, StartDecide(s, t))
  {
    hide Kept, Move, Leave, Arm, TakeHandle;
    ArmLeavesFlags(s, t);
    LeaveHeld(s, t);
    MoveHeld(s, t, StartAwaitExit);
    if s.handle.Some? {
      TakeHeld(s, t, StartJoining(s.handle.value));
    }
  }

  lemma EntryFlags(s: State, t: Tid)
    ensures SameFlags(s, StartEntryNext(s, t))
  {
    hide Kept, Move, Leave, StartDecide, OnWorkerThread;
    LeaveHeld(s, t);
    MoveHeld(s, t, StartAwaitJoin);
    DecideFlags(s, t);
  }

  lemma RestoreLeavesFlags(s: State, t: Tid, e: Snapshot)
    ensures SameFlags(s, RollbackDataNext(s, t, e))
  {
  }

  lemma ResetLeavesFlags(s: State, t: Tid, e: Snapshot)
    ensures SameFlags(s, RollbackLatchNext(s, t, e))
  {
  }

  lemma RelatchLeavesFlags(s: State, t: Tid, e: Snapshot)
    ensures SameFlags(s, RollbackFaultNext(s, t, e))
  {
  }

  lemma FlagsLeaveShutdown(s: State, t: Tid, e: Snapshot)
    ensures RollbackFlagsNext(s, t, e).shutdownRequested == s.shutdownRequested
  {
  }

  lemma StopEntryLeavesShutdown(s: State, t: Tid, n: Then)
    ensures StopEntryNext(s, t, n).shutdownRequested == s.shutdownRequested
  {
  }

  lemma ArmingFlags(s: State, t: Tid, e: Snapshot, callback: int)
    ensures var s' := StartArmingNext(s, t, e, callback);
            !s'.stopping && s'.shutdownRequested == s.shutdownRequested
  {
  }

  lemma StartFlags(s: State, t: Tid, ok: bool, tid: Tid, callback: int)
    requires t in s.callers && !StopPc(s.callers[t])
    ensures var s' := CallerNext(s, t, ok, tid, callback);
            && s'.shutdownRequested == s.shutdownRequested
            && if s.callers[t].StartArming? then !s'.stopping
               else s.callers[t].RollbackFlags? || s'.stopping == s.stopping
  {
    hide Kept, Move, Joined, StartEntryNext, StartDecide, StartJoinedNext, StartArmingNext, StartCreatingNext,
         StartPublishingNext, RollbackFlagsNext, RollbackDataNext, RollbackLatchNext, RollbackFaultNext;
    match s.callers[t]
    case StartEntry => EntryFlags(s, t);
    case StartAwaitJoin => DecideFlags(s, t);
    case StartAwaitExit => MoveHeld(s, t, StartEntry);
    case StartJoining(w) => JoinHeld(s, t, w, StartJoined);
    case StartJoined => RejoinHeld(s, t);
    case StartArming(e) => ArmingFlags(s, t, e, callback);
    case StartCreating(e) => CreateHeld(s, t, tid); MoveHeld(s, t, RollbackFlags(e));
    case StartPublishing => PublishHeld(s, t);
    case RollbackFlags(e) => FlagsLeaveShutdown(s, t, e);
    case RollbackData(e) => RestoreLeavesFlags(s, t, e);
    case RollbackLatch(e) => ResetLeavesFlags(s, t, e);
    case RollbackFault(e) => RelatchLeavesFlags(s, t, e);
  }

  lemma CallerFlag(s: State, t: Tid, ok: bool, tid: Tid, callback: int)
    requires t in s.callers
    ensures CallerNext(s, t, ok, tid, callback).shutdownRequested
            <==> s.shutdownRequested || s.callers[t].StopCommanding?
  {
    hide StopEntryNext, CallerNext;
    if s.callers[t].StopEntry? {
      StopEntryIs(s, t, ok, tid, callback);
      StopEntryLeavesShutdown(s, t, s.callers[t].next);
    } else if StopPc(s.callers[t]) {
      StopFlags(s, t, ok, tid, callback);
    } else {
      StartFlags(s, t, ok, tid, callback);
    }
  }

  lemma StopEntryIs(s: State, t: Tid, ok: bool, tid: Tid, callback: int)
    requires t in s.callers && s.callers[t].StopEntry?
    ensures CallerNext(s, t, ok, tid, callback) == StopEntryNext(s, t, s.callers[t].next)
  {
  }

  lemma StepShutdown(s: State, a: Action)
    requires Inv(s) && Enabled(s, a)
    ensures Apply(s, a).shutdownRequested == FlagAfter(s, a)
  {
    hide Inv, WorkerEnabled, WorkerNext, CallerEnabled, CallerNext, KeepsWorkers, Effect, Kept, Closes;
    if a.WorkerStep? {
      WorkerFlag(s, a.w, a.choice);
    } else if a.CallerStep? {
      Inside(s, a.t, a.ok, a.tid);
      CallerFlag(s, a.t, a.ok, a.tid, a.callback);
    } else {
      OutsideStep(s, a);
    }
  }

  /** The transport's shutdown flag is raised by a worker that closes its session or retires and by a stop's command
      section, and lowered by a connection that succeeds; no other step touches it. */
  lemma ShutdownExactly(states: seq<State>, actions: seq<Action>, i: nat)
    requires IsRun(states, actions) && i < |actions|
    ensures states[i + 1].shutdownRequested == FlagAfter(states[i], actions[i])
  {
    hide Inv, Apply, Enabled, FlagAfter;
    RunStep(states, actions, i);
    StepShutdown(states[i], actions[i]);
  }

  // ---------------------------------------------------------------- stops

  /** A call of stop makes itself visible. */
  predicate Halts(s: State, a: Action) {
    a.CallerStep? && a.t in s.callers && s.callers[a.t].StopEntry?
  }

  /** The stop flag is raised by a stop, lowered by a start, and put back by a failed one. */
  lemma StepFlags(s: State, a: Action)
    requires Inv(s) && Enabled(s, a)
    ensures var s' := Apply(s, a);
            && (Sets(s, a) ==> !s'.stopping)
            && (s'.stopping && !s.stopping ==>
                  Halts(s, a) || (a.CallerStep? && a.t in s.callers && s.callers[a.t].RollbackFlags?))
  {
    hide Inv, WorkerEnabled, WorkerNext, CallerEnabled, CallerNext, KeepsWorkers, Effect, Kept, Follow, StateNext;
    if a.WorkerStep? {
      Working(s, a.w, a.choice);
      var pc := WorkerStepIs(s, a.w, a.choice);
    } else if a.CallerStep? {
      Inside(s, a.t, a.ok, a.tid);
      if StopPc(s.callers[a.t]) {
        if !s.callers[a.t].StopEntry? {
          StopFlags(s, a.t, a.ok, a.tid, a.callback);
        }
      } else {
        StartFlags(s, a.t, a.ok, a.tid, a.callback);
      }
    } else {
      OutsideStep(s, a);
    }
  }

  /** A stop was called before state `i` while the start of this number was current. */
  predicate Halted(states: seq<State>, actions: seq<Action>, i: nat, serial: nat)
    requires |states| == |actions| + 1 && i < |states|
  {
    exists k :: 0 <= k < i && Halts(states[k], actions[k]) && states[k].data.serial == serial
  }

  lemma HaltedNext(states: seq<State>, actions: seq<Action>, i: nat, serial: nat)
    requires |states| == |actions| + 1 && i < |actions|
    ensures Halted(states, actions, i, serial) ==> Halted(states, actions, i + 1, serial)
    ensures Halts(states[i], actions[i]) && states[i].data.serial == serial ==> Halted(states, actions, i + 1, serial)
  {
    hide Halts;
  }

  lemma {:induction false} RunHalted(states: seq<State>, actions: seq<Action>, i: nat)
    requires IsRun(states, actions) && i < |states|
    ensures HasCallback(states[i]) && states[i].stopping ==> Halted(states, actions, i, states[i].data.serial)
  {
    hide Inv, Apply, Enabled, Halted, HasCallback, Sets, Halts;
    if i == 0 {
      NoneAtFirst(states[0]);
    } else {
      var s, a := states[i - 1], actions[i - 1];
      RunStep(states, actions, i - 1);
      RunHalted(states, actions, i - 1);
      StepFlags(s, a);
      HaltedNext(states, actions, i - 1, s.data.serial);
      if HasCallback(states[i]) && !Sets(s, a) {
        HadCallback(s, a);
        CallbackStays(s, a);
        if a.CallerStep? {
          RollsAlone(s, a);
        }
      }
    }
  }

  /** A worker sees a stop only if one was called while its own start was current; no earlier stop reaches it. */
  lemma StopsAreCalled(states: seq<State>, actions: seq<Action>, i: nat, w: nat)
    requires IsRun(states, actions) && i < |states| && w in states[i].workers && states[i].stopping
    ensures exists k :: 0 <= k < i && Halts(states[k], actions[k]) && states[k].data.serial == states[i].workers[w].serial
  {
    hide IsRun, Inv, Halts;
    RunKeeps(states, actions, i);
    SerialOf(states[i], w);
    RunLength(states, actions);
    RunHalted(states, actions, i);
  }
}
