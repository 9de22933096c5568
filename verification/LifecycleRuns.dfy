/** Every reachable state of the lifecycle satisfies its invariant. */
module LifecycleRuns {
  import opened Protocol
  import opened Session
  import opened Lifecycle
  import opened LifecycleInvariant
  import opened WorkerSteps
  import opened CallerSteps

  // ---------------------------------------------------------------- start

  lemma StartDecideKeeps(s: State, t: Tid)
    requires Inv(s) && t in s.callers && s.callers[t] in {StartEntry, StartAwaitJoin}
    requires s.lock.None? && !s.joining && !OnWorkerThread(s, t)
    ensures Inv(StartDecide(s, t))
  {
    hide Inv;
    match s.handle {
      case None => StartArmsKeeps(s, t);
      case Some(w) =>
        if s.exited {
          StartTakesKeeps(s, t, w);
        } else if s.latch == NoFault {
          StartThrowsKeeps(s, t);
        } else {
          StartMovesKeeps(s, t, StartAwaitExit);
        }
    }
  }

  lemma StartEntryKeeps(s: State, t: Tid)
    requires Inv(s) && t in s.callers && s.callers[t] == StartEntry && s.lock.None?
    ensures Inv(StartEntryNext(s, t))
  {
    hide Inv, StartDecide;
    if OnWorkerThread(s, t) {
      StartThrowsKeeps(s, t);
    } else if s.joining {
      StartMovesKeeps(s, t, StartAwaitJoin);
    } else {
      StartDecideKeeps(s, t);
    }
  }

  /** A thread that has waited for a join is not the worker's. */
  lemma WaiterIsOutside(s: State, t: Tid)
    requires Inv(s) && t in s.callers && s.callers[t] == StartAwaitJoin && s.lock.None?
    ensures !OnWorkerThread(s, t)
  {
    hide CallersFit, Wires, Faults, Endings;
    AtCall(s, t);
  }

  predicate StopPc(pc: CallerPc) {
    || pc.StopEntry? || pc.StopCommanding? || pc.StopDeciding? || pc.StopAwaitJoin?
    || pc.StopJoining? || pc.StopJoined? || pc.DestroyEntry?
  }

  lemma StartStepKeeps(s: State, t: Tid, ok: bool, tid: Tid, callback: int)
    requires Inv(s) && CallerEnabled(s, t, ok, tid)
    requires !StopPc(s.callers[t])
    ensures Inv(CallerNext(s, t, ok, tid, callback))
  {
    hide Inv, StartEntryNext, StartDecide, StartCreatingNext, StartPublishingNext, RollbackFlagsNext, RollbackFaultNext;
    match s.callers[t]
    case StartEntry => StartEntryKeeps(s, t);
    case StartAwaitJoin => WaiterIsOutside(s, t); StartDecideKeeps(s, t);
    case StartAwaitExit => StartMovesKeeps(s, t, StartEntry);
    case StartJoining(w) => StartJoinsKeeps(s, t, w);
    case StartJoined => StartJoinedKeeps(s, t);
    case StartArming(e) => StartArmingKeeps(s, t, e, callback);
    case StartCreating(e) => if ok { StartCreatesKeeps(s, t, e, tid); } else { StartFailsKeeps(s, t, e); }
    case StartPublishing => StartPublishesKeeps(s, t);
    case RollbackFlags(e) => RollbackFlagsKeeps(s, t, e);
    case RollbackData(e) => RollbackDataKeeps(s, t, e);
    case RollbackLatch(e) => RollbackLatchKeeps(s, t, e);
    case RollbackFault(e) => RollbackFaultKeeps(s, t, e);
  }

  // ---------------------------------------------------------------- stop

  lemma OnWorkerIsSelf(s: State, t: Tid)
    requires Inv(s) && t in s.callers && s.callers[t].StopDeciding? && OnWorkerThread(s, t)
    ensures NextOf(s.callers[t]) in {Return, Defer}
  {
    hide CallersFit, Wires, Faults, Endings;
    AtCall(s, t);
  }

  lemma DefersOnlySelf(s: State, t: Tid)
    requires Inv(s) && t in s.callers
    ensures s.callers[t] != StopJoined(Defer)
    ensures s.callers[t] == StopDeciding(Defer) ==> OnWorkerThread(s, t)
  {
    hide CallersFit, Wires, Faults, Endings;
    AtCall(s, t);
  }

  lemma StopEndsKeeps(s: State, t: Tid, n: Then)
    requires Inv(s) && MayEnd(s, t, n) 
    ensures Inv(StopJoinedNext(s, t, n).(lock := None))
  {
    hide Inv, StopJoinedNext;
    match n
    case Return => StopReturnsKeeps(s, t);
    case Again => StopAgainKeeps(s, t);
    case Free => StopFreesKeeps(s, t);
    case Defer => DefersOnlySelf(s, t);
  }

  /** Both ways to the end of a stop give the state after a join: with nothing to join, nothing was published. */
  lemma NothingToJoin(s: State, t: Tid, n: Then)
    requires Inv(s) && t in s.callers && s.callers[t] == StopDeciding(n) && s.handle.None? && !s.joining
    ensures Finish(MarkStopped(s), t, n).(lock := None) == StopJoinedNext(s, t, n).(lock := None)
  {
    hide CallersFit, Wires, Faults, Endings, Fits;
    AtCall(s, t);
    NothingPublished(s, t, n);
  }

  lemma NothingPublished(s: State, t: Tid, n: Then)
    requires Inv(s) && t in s.callers && s.callers[t] == StopDeciding(n) && s.handle.None? && !s.joining
    ensures s.active.None? && s.joiner.None?
  {
    hide CallersFit, Wires, Faults, Endings;
    AtCall(s, t);
  }

  lemma StopDecidingKeeps(s: State, t: Tid, n: Then)
    requires Inv(s) && t in s.callers && s.callers[t] == StopDeciding(n)
    ensures Inv(StopDecidingNext(s, t, n))
  {
    hide Inv, Finish, StopJoinedNext, MarkStopped;
    if OnWorkerThread(s, t) {
      OnWorkerIsSelf(s, t);
      if n == Defer { StopDefersKeeps(s, t); } else { StopOnWorkerKeeps(s, t, n); }
    } else if s.joining {
      StopWaitsKeeps(s, t, n);
    } else {
      match s.handle
      case None => NothingToJoin(s, t, n); StopEndsKeeps(s, t, n);
      case Some(w) => StopTakesKeeps(s, t, n, w);
    }
  }

  lemma StopJoinedKeeps(s: State, t: Tid, n: Then)
    requires Inv(s) && t in s.callers && s.callers[t] == StopJoined(n) && s.lock.None?
    ensures Inv(StopJoinedNext(s, t, n))
  {
    hide Inv, Finish, MarkStopped;
    JoinerIsOutside(s, t);
    StopEndsKeeps(s, t, n);
    FinishKeepsLock(s, t, n);
  }

  lemma FinishKeepsLock(s: State, t: Tid, n: Then)
    ensures StopJoinedNext(s, t, n).lock == s.lock
  {
  }

  lemma JoinerIsOutside(s: State, t: Tid)
    requires Inv(s) && t in s.callers && s.callers[t].StopJoined? && s.lock.None?
    ensures !OnWorkerThread(s, t)
  {
    hide CallersFit, Wires, Faults, Endings;
    AtCall(s, t);
  }

  lemma StopStepKeeps(s: State, t: Tid, ok: bool, tid: Tid, callback: int)
    requires Inv(s) && CallerEnabled(s, t, ok, tid) && StopPc(s.callers[t])
    ensures Inv(CallerNext(s, t, ok, tid, callback))
  {
    hide Inv, StopDecidingNext, StopJoinedNext, StopCommandingNext;
    match s.callers[t]
    case StopEntry(n) => StopEntryKeeps(s, t, n);
    case StopCommanding(n) => StopCommandingKeeps(s, t, n, ok);
    case StopDeciding(n) => StopDecidingKeeps(s, t, n);
    case StopAwaitJoin(n) => StopRetriesKeeps(s, t, n);
    case StopJoining(n, w) => StopJoinsKeeps(s, t, n, w);
    case StopJoined(n) => StopJoinedKeeps(s, t, n);
    case DestroyEntry => DestroyEntryKeeps(s, t);
  }

  // ---------------------------------------------------------------- worker

  /** Only inside its callback can a worker's thread be in a call. */
  lemma WorkerFree(s: State, w: nat, c: Choice)
    requires Inv(s) && WorkerEnabled(s, w, c)
    ensures s.workers[w].tid !in s.callers
    ensures FaultsNamed(Some(s.workers[w]))
  {
    hide Inv, CommandsInOrder, StopNotLost, FaultsInStep, Generations;
    Before(s, w);
  }

  lemma NotFaulted(s: State, w: nat)
    requires Inv(s) && w in s.workers && !RetiredPc(s.workers[w].pc)
    ensures s.data.state != Faulted && s.latch == NoFault
  {
    hide Inv, CommandsInOrder, StopNotLost, FaultsNamed, Generations;
    Before(s, w);
  }

  lemma CommandKeeps(s: State, w: nat, ok: bool)
    requires Inv(s) && w in s.workers && s.workers[w].pc == Commanding && s.workers[w].tid !in s.callers
    ensures Inv(CommandingNext(s, w, ok))
  {
    hide Inv, At;
    if s.stopping {
      MoveKeeps(s, w, Closing(Halt));
    } else {
      CommandingKeeps(s, w, ok);
    }
  }

  lemma OpeningKeeps(s: State, w: nat, c: Choice)
    requires Inv(s) && WorkerEnabled(s, w, c) && OpeningPc(s.workers[w].pc)
    ensures Inv(OpeningNext(s, w, c))
  {
    hide Inv, At, CommandingNext;
    WorkerFree(s, w, c);
    match s.workers[w].pc
    case LoopTop => MoveKeeps(s, w, if s.stopping || s.latch != NoFault then Retiring else Entering);
    case Entering => NotFaulted(s, w); PlainKeeps(s, w, EntryCheck, s.data.(state := Connecting));
    case EntryCheck => MoveKeeps(s, w, if s.stopping then Closing(Halt) else Configuring);
    case Configuring =>
      if c.throws {
        MoveKeeps(s, w, Escaping);
      } else {
        PlainKeeps(s, w, if c.ok then ConfigCheck else Failing(SensorConfigurationFault), s.data.(rest := c.rest));
      }
    case ConfigCheck => MoveKeeps(s, w, if s.stopping then Closing(Halt) else Linking);
    case Linking => if c.ok { LinkingKeeps(s, w); } else { MoveKeeps(s, w, Failing(SocketFault)); }
    case Commanding => CommandKeeps(s, w, c.ok);
  }

  lemma StreamingKeeps(s: State, w: nat, c: Choice)
    requires Inv(s) && WorkerEnabled(s, w, c) && StreamingPc(s.workers[w].pc)
    ensures Inv(StreamingNext(s, w, c))
  {
    hide Inv, FinishingNext, At;
    WorkerFree(s, w, c);
    NotFaulted(s, w);
    match s.workers[w].pc
    case Resetting => MoveKeeps(s, w, if c.throws then Escaping else LoopCheck);
    case LoopCheck =>
      MoveKeeps(s, w, if s.stopping then Closing(Halt) else if c.ok then Receiving else Failing(TimeoutFault));
    case Receiving => MoveKeeps(s, w, if c.ok then Received else Failing(SocketFault));
    case Received =>
      if s.stopping {
        MoveKeeps(s, w, Closing(Halt));
      } else if c.throws {
        MoveKeeps(s, w, Escaping);
      } else {
        PlainKeeps(s, w, c.after, s.data.(rest := c.rest));
      }
    case Observing => PlainKeeps(s, w, c.after, s.data.(state := Streaming, rest := c.rest));
    case InCallback => PlainKeeps(s, w, c.after, s.data.(rest := c.rest));
    case Finishing => FinishingKeeps(s, w, c);
  }

  lemma ClosingKeeps(s: State, w: nat, c: Choice)
    requires Inv(s) && WorkerEnabled(s, w, c) && !OpeningPc(s.workers[w].pc) && !StreamingPc(s.workers[w].pc)
    ensures Inv(ClosingNext(s, w, c))
  {
    hide Inv, CloseSession, Publish, MarkStopped, At;
    WorkerFree(s, w, c);
    match s.workers[w].pc
    case Failing(f) => MoveKeeps(s, w, Closing(if s.stopping then Halt else Fail(f)));
    case Closing(o) => CloseKeeps(s, w, Judging(o), c.ok);
    case Judging(o) =>
      if o.Fail? && s.failStop {
        PublishKeeps(s, w, o.fault);
      } else {
        MoveKeeps(s, w, if o.Halt? || s.stopping then Retiring else BackingOff);
      }
    case BackingOff => NotFaulted(s, w); PlainKeeps(s, w, Waiting, s.data.(state := Backoff, rest := c.rest));
    case Waiting => MoveKeeps(s, w, if c.throws then Escaping else LoopTop);
    case Escaping => PublishKeeps(s, w, if s.stopping then NoFault else SocketFault);
    case Retiring => CloseKeeps(s, w, Exiting, c.ok);
    case Exiting => ExitingKeeps(s, w);
    case Settling => SettlingKeeps(s, w);
  }

  // ---------------------------------------------------------------- every step, every run

  lemma StepKeeps(s: State, a: Action)
    requires Inv(s) && Enabled(s, a)
    ensures Inv(Apply(s, a))
  {
    hide Inv, MayCall, MayDestroy, BeginDestroy, DestroyerTakes, CallerNext, BiasNext, OpeningNext, StreamingNext,
         ClosingNext;
    match a
    case CallStart(t) => EntersKeeps(s, t, StartEntry);
    case CallStop(t) => EntersKeeps(s, t, StopEntry(Return));
    case CallBias(t, biasOk, startOk) => Outside(s, t); BiasKeeps(s, t, biasOk, startOk);
    case CallDestroy(t) => CallDestroyKeeps(s, t);
    case DestroyerPicks => DestroyerTakesKeeps(s);
    case CallerStep(t, ok, tid, callback) =>
      if StopPc(s.callers[t]) {
        StopStepKeeps(s, t, ok, tid, callback);
      } else {
        StartStepKeeps(s, t, ok, tid, callback);
      }
    case WorkerStep(w, c) =>
      if OpeningPc(s.workers[w].pc) {
        OpeningKeeps(s, w, c);
      } else if StreamingPc(s.workers[w].pc) {
        StreamingKeeps(s, w, c);
      } else {
        ClosingKeeps(s, w, c);
      }
  }

  lemma Outside(s: State, t: Tid)
    requires MayCall(s, t)
    ensures t !in s.callers
  {
  }

  lemma {:induction false} RunKeeps(states: seq<State>, actions: seq<Action>, i: nat)
    requires IsRun(states, actions) && i < |states|
    ensures Inv(states[i])
  {
    hide Inv, Apply, Enabled;
    if i == 0 {
      var failStop :| states[0] == Initial(failStop);
      InitialInv(failStop);
    } else {
      RunKeeps(states, actions, i - 1);
      assert Enabled(states[i - 1], actions[i - 1]);
      StepKeeps(states[i - 1], actions[i - 1]);
    }
  }
}
