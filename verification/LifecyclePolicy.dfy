/** What the recovery policy and a stop make of a worker's failures, and what the client publishes of it. */
module LifecyclePolicy {
  import opened Protocol
  import opened Session
  import opened Lifecycle
  import opened LifecycleInvariant
  import opened WorkerSteps
  import opened CallerSteps
  import opened LifecycleRuns
  import opened LifecycleFrames
  import opened LifecycleSafety
  import opened LifecycleWaits

  // ---------------------------------------------------------------- one step of a worker

  /** What the worker finds when it takes a step. */
  datatype Sight = Sight(stopping: bool, latch: FaultCode, failStop: bool)

  function SightOf(s: State): Sight {
    Sight(s.stopping, s.latch, s.failStop)
  }

  /** Where the worker can go. */
  predicate Follow(v: Sight, c: Choice, was: WorkerPc, pc: WorkerPc) {
    match was
    case LoopTop => pc == if v.stopping || v.latch != NoFault then Retiring else Entering
    case Entering => pc == EntryCheck
    case EntryCheck => pc == if v.stopping then Closing(Halt) else Configuring
    case Configuring =>
      pc == if c.throws then Escaping else if c.ok then ConfigCheck else Failing(SensorConfigurationFault)
    case ConfigCheck => pc == if v.stopping then Closing(Halt) else Linking
    case Linking => pc == if c.ok then Commanding else Failing(SocketFault)
    case Commanding => pc == if v.stopping then Closing(Halt) else if c.ok then Resetting else Failing(SocketFault)
    case Resetting => pc == if c.throws then Escaping else LoopCheck
    case LoopCheck => pc == if v.stopping then Closing(Halt) else if c.ok then Receiving else Failing(TimeoutFault)
    case Receiving => pc == if c.ok then Received else Failing(SocketFault)
    case Received =>
      if v.stopping then pc == Closing(Halt)
      else if c.throws then pc == Escaping
      else pc in {Failing(TimeoutFault), LoopCheck, Closing(Fail(MalformedStormFault)), Observing}
    case Observing => pc == InCallback || AfterRecord(pc)
    case InCallback => pc == Finishing || AfterRecord(pc)
    case Finishing => AfterRecord(pc)
    case Failing(f) => pc == Closing(if v.stopping then Halt else Fail(f))
    case Closing(o) => pc == Judging(o)
    case Judging(o) => pc == if (o.Fail? && v.failStop) || o.Halt? || v.stopping then Retiring else BackingOff
    case BackingOff => pc == Waiting
    case Waiting => pc == if c.throws then Escaping else LoopTop
    case Escaping => pc == Retiring
    case Retiring => pc == Exiting
    case Exiting => pc == Settling
    case Settling => pc == Done
    case Done => false
  }

  /** The fault a step publishes. */
  function Publishes(v: Sight, was: WorkerPc): FaultCode {
    if was.Judging? && was.outcome.Fail? && v.failStop then was.outcome.fault
    else if was == Escaping && !v.stopping then SocketFault
    else NoFault
  }

  /** The state a step publishes. */
  function StateNext(v: Sight, was: WorkerPc, state: ClientState): ClientState {
    if v.latch == NoFault && Publishes(v, was) != NoFault then Faulted
    else if was == Entering then Connecting
    else if was == Observing then Streaming
    else if was == BackingOff then Backoff
    else if was == Settling && v.latch == NoFault then Idle
    else state
  }

  predicate Moves(s: State, s': State, w: nat, pc: WorkerPc)
    requires w in s.workers
  {
    && s'.workers == s.workers[w := s.workers[w].(pc := pc)]
    && s'.failStop == s.failStop && s'.callers == s.callers && s'.stopping == s.stopping
  }

  /** The worker goes to `pc`, and nothing is published. */
  predicate Goes(s: State, s': State, w: nat, pc: WorkerPc, state: ClientState)
    requires w in s.workers
  {
    Moves(s, s', w, pc) && s'.latch == s.latch && s'.data.state == state
  }

  lemma AtGoes(s: State, w: nat, pc: WorkerPc, d: Data)
    requires w in s.workers
    ensures Goes(s, At(s, w, pc), w, pc, s.data.state) && Goes(s, At(s, w, pc).(data := d), w, pc, d.state)
  {
  }

  lemma LinkGoes(s: State, w: nat)
    requires w in s.workers
    ensures Goes(s, At(s, w, Commanding).(shutdownRequested := false), w, Commanding, s.data.state)
  {
  }

  lemma ExitGoes(s: State, w: nat)
    requires w in s.workers
    ensures Goes(s, At(s, w, Settling).(exited := true), w, Settling, s.data.state)
  {
  }

  lemma CommandGoes(s: State, w: nat, ok: bool)
    requires w in s.workers
    ensures Goes(s, CommandingNext(s, w, ok), w,
                 if s.stopping then Closing(Halt) else if ok then Resetting else Failing(SocketFault), s.data.state)
  {
  }

  lemma CloseGoes(s: State, w: nat, pc: WorkerPc, ok: bool)
    requires w in s.workers
    ensures Goes(s, CloseSession(At(s, w, pc), ok), w, pc, s.data.state)
  {
  }

  lemma PublishGoes(s: State, w: nat, f: FaultCode)
    requires w in s.workers
    ensures var s' := Publish(At(s, w, Retiring), f);
            && Moves(s, s', w, Retiring) && s'.latch == (if s.latch == NoFault then f else s.latch)
            && s'.data.state == if s.latch == NoFault && f != NoFault then Faulted else s.data.state
  {
  }

  lemma JudgeGoes(s: State, w: nat, o: Outcome)
    requires w in s.workers
    ensures var s' := JudgingNext(s, w, o); var f := if o.Fail? && s.failStop then o.fault else NoFault;
            && Moves(s, s', w, if (o.Fail? && s.failStop) || o.Halt? || s.stopping then Retiring else BackingOff)
            && s'.latch == (if s.latch == NoFault then f else s.latch)
            && s'.data.state == if s.latch == NoFault && f != NoFault then Faulted else s.data.state
  {
    hide Moves, At, Publish;
    PublishGoes(s, w, if o.Fail? then o.fault else NoFault);
    AtGoes(s, w, Retiring, s.data);
    AtGoes(s, w, BackingOff, s.data);
  }

  lemma SettleGoes(s: State, w: nat)
    requires w in s.workers
    ensures Goes(s, MarkStopped(At(s, w, Done)), w, Done, if s.latch == NoFault then Idle else s.data.state)
  {
  }

  /** What a step of a worker does, as far as its way and what it publishes are concerned. */
  predicate Stepped(s: State, s': State, w: nat, c: Choice, pc: WorkerPc)
    requires w in s.workers
  {
    var v, was := SightOf(s), s.workers[w].pc;
    && Moves(s, s', w, pc) && Follow(v, c, was, pc)
    && s'.latch == (if s.latch == NoFault then Publishes(v, was) else s.latch)
    && s'.data.state == StateNext(v, was, s.data.state)
  }

  lemma OpeningStep(s: State, w: nat, c: Choice) returns (pc: WorkerPc)
    requires w in s.workers && OpeningPc(s.workers[w].pc)
    ensures Stepped(s, OpeningNext(s, w, c), w, c, pc)
  {
    hide Moves, At, CommandingNext;
    match s.workers[w].pc
    case LoopTop => pc := if s.stopping || s.latch != NoFault then Retiring else Entering; AtGoes(s, w, pc, s.data);
    case Entering => pc := EntryCheck; AtGoes(s, w, pc, s.data.(state := Connecting));
    case EntryCheck => pc := if s.stopping then Closing(Halt) else Configuring; AtGoes(s, w, pc, s.data);
    case Configuring =>
      pc := if c.throws then Escaping else if c.ok then ConfigCheck else Failing(SensorConfigurationFault);
      AtGoes(s, w, pc, s.data.(rest := c.rest));
    case ConfigCheck => pc := if s.stopping then Closing(Halt) else Linking; AtGoes(s, w, pc, s.data);
    case Linking =>
      pc := if c.ok then Commanding else Failing(SocketFault);
      LinkGoes(s, w);
      AtGoes(s, w, pc, s.data);
    case Commanding =>
      pc := if s.stopping then Closing(Halt) else if c.ok then Resetting else Failing(SocketFault);
      CommandGoes(s, w, c.ok);
  }

  lemma StreamingStep(s: State, w: nat, c: Choice) returns (pc: WorkerPc)
    requires WorkerEnabled(s, w, c) && StreamingPc(s.workers[w].pc)
    ensures Stepped(s, StreamingNext(s, w, c), w, c, pc)
  {
    hide Moves, At;
    match s.workers[w].pc
    case Resetting => pc := if c.throws then Escaping else LoopCheck; AtGoes(s, w, pc, s.data);
    case LoopCheck =>
      pc := if s.stopping then Closing(Halt) else if c.ok then Receiving else Failing(TimeoutFault);
      AtGoes(s, w, pc, s.data);
    case Receiving => pc := if c.ok then Received else Failing(SocketFault); AtGoes(s, w, pc, s.data);
    case Received =>
      pc := if s.stopping then Closing(Halt) else if c.throws then Escaping else c.after;
      AtGoes(s, w, pc, s.data.(rest := c.rest));
    case Observing => pc := c.after; AtGoes(s, w, pc, s.data.(state := Streaming, rest := c.rest));
    case InCallback => pc := c.after; AtGoes(s, w, pc, s.data.(rest := c.rest));
    case Finishing => pc := c.after; AtGoes(s, w, pc, FinishingNext(s, w, c).data);
  }

  lemma ClosingStep(s: State, w: nat, c: Choice) returns (pc: WorkerPc)
    requires WorkerEnabled(s, w, c) && !OpeningPc(s.workers[w].pc) && !StreamingPc(s.workers[w].pc)
    ensures Stepped(s, ClosingNext(s, w, c), w, c, pc)
  {
    hide Moves, At, CloseSession, Publish, MarkStopped, JudgingNext;
    match s.workers[w].pc
    case Failing(f) => pc := Closing(if s.stopping then Halt else Fail(f)); AtGoes(s, w, pc, s.data);
    case Closing(o) => pc := Judging(o); CloseGoes(s, w, pc, c.ok);
    case Judging(o) =>
      pc := if (o.Fail? && s.failStop) || o.Halt? || s.stopping then Retiring else BackingOff;
      JudgeGoes(s, w, o);
    case BackingOff => pc := Waiting; AtGoes(s, w, pc, s.data.(state := Backoff, rest := c.rest));
    case Waiting => pc := if c.throws then Escaping else LoopTop; AtGoes(s, w, pc, s.data);
    case Escaping => pc := Retiring; PublishGoes(s, w, if s.stopping then NoFault else SocketFault);
    case Retiring => pc := Exiting; CloseGoes(s, w, pc, c.ok);
    case Exiting => pc := Settling; ExitGoes(s, w);
    case Settling => pc := Done; SettleGoes(s, w);
  }

  lemma WorkerStepIs(s: State, w: nat, c: Choice) returns (pc: WorkerPc)
    requires WorkerEnabled(s, w, c)
    ensures Stepped(s, WorkerNext(s, w, c), w, c, pc)
  {
    hide Stepped, OpeningNext, StreamingNext, ClosingNext;
    if OpeningPc(s.workers[w].pc) {
      pc := OpeningStep(s, w, c);
    } else if StreamingPc(s.workers[w].pc) {
      pc := StreamingStep(s, w, c);
    } else {
      pc := ClosingStep(s, w, c);
    }
  }

  // ---------------------------------------------------------------- steps of the callers

  /** The latch after a caller's step: as it was, cleared, or what a failed start found. */
  predicate LatchFrom(s: State, s': State, t: Tid) {
    || s'.latch == s.latch || s'.latch == NoFault
    || (t in s.callers && s.callers[t].RollbackFault? && s.latch == NoFault && s'.latch == s.callers[t].entry.latch)
  }

  /** The start, its latest sample and the callback stay. */
  predicate Kept(s: State, s': State) {
    && s'.data.serial == s.data.serial && s'.data.latest == s.data.latest && s'.starts == s.starts
    && s'.callback == s.callback
  }

  /** So do policy, latch, state and the flags of stop and shutdown. */
  predicate Held(s: State, s': State) {
    && s'.failStop == s.failStop && s'.latch == s.latch && s'.data.state == s.data.state
    && s'.stopping == s.stopping && s'.shutdownRequested == s.shutdownRequested && Kept(s, s')
  }

  /** The policy stays, and the latch is touched as it may be; the state is, and a stop taken back, only when no worker
      exists. */
  predicate Effect(s: State, s': State, t: Tid) {
    && s'.failStop == s.failStop && LatchFrom(s, s', t)
    && ((s'.data.state == s.data.state && (s.stopping ==> s'.stopping)) || s.workers == map[])
  }

  lemma HeldIsEffect(s: State, s': State, t: Tid)
    requires Held(s, s')
    ensures Effect(s, s', t)
  {
    hide LatchFrom;
    assert LatchFrom(s, s', t) by {
      SameLatch(s, s', t);
    }
  }

  lemma SameLatch(s: State, s': State, t: Tid)
    requires s'.latch == s.latch
    ensures LatchFrom(s, s', t)
  {
  }

  lemma MoveHeld(s: State, t: Tid, pc: CallerPc)
    ensures Held(s, Move(s, t, pc))
  {
  }

  lemma LeaveHeld(s: State, t: Tid)
    ensures Held(s, Leave(s, t))
  {
  }

  lemma TakeHeld(s: State, t: Tid, pc: CallerPc)
    ensures Held(s, TakeHandle(s, t, pc))
  {
  }

  lemma UnlockHeld(s: State, t: Tid, pc: CallerPc)
    ensures Held(s, Move(s, t, pc).(lock := None))
  {
  }

  lemma ArmEffect(s: State, t: Tid)
    requires s.workers == map[]
    ensures Effect(s, Arm(s, t), t)
  {
  }

  lemma NobodyStored(s: State)
    requires Inv(s) && s.handle.None? && !s.joining
    ensures s.workers == map[]
  {
    hide CallersFit, Wires, Faults, Endings, Holders, IdPublished;
    assert s.workers.Keys == {};
  }

  lemma StartDecideEffect(s: State, t: Tid)
    requires Inv(s) && !s.joining
    ensures Effect(s, StartDecide(s, t), t)
  {
    hide Inv, Effect, Held, Move, Leave, Arm, TakeHandle;
    if s.handle.None? {
      NobodyStored(s);
      ArmEffect(s, t);
    } else {
      LeaveHeld(s, t);
      MoveHeld(s, t, StartAwaitExit);
      TakeHeld(s, t, StartJoining(s.handle.value));
      HeldIsEffect(s, Leave(s, t), t);
      HeldIsEffect(s, Move(s, t, StartAwaitExit), t);
      HeldIsEffect(s, TakeHandle(s, t, StartJoining(s.handle.value)), t);
    }
  }

  lemma StartEntryEffect(s: State, t: Tid)
    requires Inv(s)
    ensures Effect(s, StartEntryNext(s, t), t)
  {
    hide Inv, Effect, Held, Move, Leave, StartDecide, OnWorkerThread;
    LeaveHeld(s, t);
    MoveHeld(s, t, StartAwaitJoin);
    HeldIsEffect(s, Leave(s, t), t);
    HeldIsEffect(s, Move(s, t, StartAwaitJoin), t);
    if !s.joining {
      StartDecideEffect(s, t);
    }
  }

  lemma JoinHeld(s: State, t: Tid, w: nat, pc: CallerPc)
    ensures Held(s, Move(Joined(s, w), t, pc))
  {
  }

  lemma RejoinHeld(s: State, t: Tid)
    ensures Held(s, StartJoinedNext(s, t))
  {
  }

  lemma CreateHeld(s: State, t: Tid, tid: Tid)
    ensures Held(s, StartCreatingNext(s, t, tid))
  {
  }

  lemma PublishHeld(s: State, t: Tid)
    ensures Held(s, StartPublishingNext(s, t))
  {
  }

  lemma ArmingEffect(s: State, t: Tid, e: Snapshot, callback: int)
    requires s.workers == map[]
    ensures Effect(s, StartArmingNext(s, t, e, callback), t)
  {
    hide LatchFrom;
    SameLatch(s, StartArmingNext(s, t, e, callback), t);
  }

  lemma FlagsEffect(s: State, t: Tid, e: Snapshot)
    requires s.workers == map[]
    ensures Effect(s, RollbackFlagsNext(s, t, e), t)
  {
    hide LatchFrom;
    SameLatch(s, RollbackFlagsNext(s, t, e), t);
  }

  lemma RollbackEffect(s: State, t: Tid, e: Snapshot)
    requires s.workers == map[]
    ensures Effect(s, RollbackDataNext(s, t, e), t) && Effect(s, RollbackLatchNext(s, t, e), t)
  {
    hide LatchFrom;
    SameLatch(s, RollbackDataNext(s, t, e), t);
    Cleared(s, RollbackLatchNext(s, t, e), t);
  }

  lemma Cleared(s: State, s': State, t: Tid)
    requires s'.latch == NoFault
    ensures LatchFrom(s, s', t)
  {
  }

  lemma RelatchEffect(s: State, t: Tid, e: Snapshot)
    requires s.workers == map[] && t in s.callers && s.callers[t] == RollbackFault(e)
    ensures Effect(s, RollbackFaultNext(s, t, e), t)
  {
  }

  lemma StopEntryEffect(s: State, t: Tid, n: Then)
    ensures Effect(s, StopEntryNext(s, t, n), t) && Kept(s, StopEntryNext(s, t, n))
  {
    hide LatchFrom;
    SameLatch(s, StopEntryNext(s, t, n), t);
  }

  lemma CommandEffect(s: State, t: Tid, n: Then, ok: bool)
    ensures var s' := StopCommandingNext(s, t, n, ok);
            Effect(s, s', t) && Kept(s, s') && s'.stopping == s.stopping && s'.shutdownRequested
  {
    hide DoomAll, LatchFrom;
    SameLatch(s, StopCommandingNext(s, t, n, ok), t);
  }

  lemma FinishHeld(s: State, t: Tid, n: Then)
    ensures Held(s, Finish(s, t, n).(lock := None))
  {
  }

  lemma DestroyHeld(s: State, t: Tid)
    ensures Held(s, DestroyEntryNext(s, t))
  {
    hide OnWorkerThread;
  }

  lemma MarkEffect(s: State, t: Tid, n: Then)
    requires s.workers == map[]
    ensures Effect(s, Finish(MarkStopped(s), t, n).(lock := None), t) && Effect(s, StopJoinedNext(s, t, n), t)
  {
  }

  lemma StopDecidingEffect(s: State, t: Tid, n: Then)
    requires Inv(s)
    ensures Effect(s, StopDecidingNext(s, t, n), t)
  {
    hide Inv, Effect, Held, Move, Finish, MarkStopped, TakeHandle, OnWorkerThread;
    FinishHeld(s, t, n);
    UnlockHeld(s, t, StopAwaitJoin(n));
    HeldIsEffect(s, Finish(s, t, n).(lock := None), t);
    HeldIsEffect(s, Move(s, t, StopAwaitJoin(n)).(lock := None), t);
    if s.handle.Some? {
      TakeHeld(s, t, StopJoining(n, s.handle.value));
      HeldIsEffect(s, TakeHandle(s, t, StopJoining(n, s.handle.value)), t);
    } else if !s.joining {
      NobodyStored(s);
      MarkEffect(s, t, n);
    }
  }

  lemma JoinedNobody(s: State, t: Tid)
    requires Inv(s) && t in s.callers && (s.callers[t].StopJoined? || s.callers[t].StartJoined?)
    ensures s.workers == map[]
  {
    hide Wires, Faults, Endings, Holders, IdPublished, FitsCallback, FitsRollback, FitsDestruction;
    assert Fits(AroundOf(s), t, s.callers[t]);
    assert s.workers.Keys == {};
  }

  lemma StartingEffect(s: State, t: Tid, ok: bool, tid: Tid, callback: int)
    requires Inv(s) && CallerEnabled(s, t, ok, tid) && !StopPc(s.callers[t])
    ensures Effect(s, CallerNext(s, t, ok, tid, callback), t)
  {
    hide Inv, Effect, Held, Move, Joined, StartEntryNext, StartDecide, StartJoinedNext, StartArmingNext, StartCreatingNext,
         StartPublishingNext, RollbackFlagsNext, RollbackDataNext, RollbackLatchNext, RollbackFaultNext;
    var s' := CallerNext(s, t, ok, tid, callback);
    match s.callers[t]
    case StartEntry => StartEntryEffect(s, t);
    case StartAwaitJoin => StartDecideEffect(s, t);
    case StartAwaitExit => MoveHeld(s, t, StartEntry); HeldIsEffect(s, s', t);
    case StartJoining(w) => JoinHeld(s, t, w, StartJoined); HeldIsEffect(s, s', t);
    case StartJoined => RejoinHeld(s, t); HeldIsEffect(s, s', t);
    case StartArming(e) => CreatingIs(s, t); CreatingMeans(s, t); ArmingEffect(s, t, e, callback);
    case StartCreating(e) =>
      CreateHeld(s, t, tid);
      MoveHeld(s, t, RollbackFlags(e));
      HeldIsEffect(s, s', t);
    case StartPublishing => PublishHeld(s, t); HeldIsEffect(s, s', t);
    case RollbackFlags(e) => CreatingIs(s, t); CreatingMeans(s, t); FlagsEffect(s, t, e);
    case RollbackData(e) => CreatingIs(s, t); CreatingMeans(s, t); RollbackEffect(s, t, e);
    case RollbackLatch(e) => CreatingIs(s, t); CreatingMeans(s, t); RollbackEffect(s, t, e);
    case RollbackFault(e) => CreatingIs(s, t); CreatingMeans(s, t); RelatchEffect(s, t, e);
  }

  lemma StoppingEffect(s: State, t: Tid, ok: bool, tid: Tid, callback: int)
    requires Inv(s) && CallerEnabled(s, t, ok, tid) && StopPc(s.callers[t])
    ensures Effect(s, CallerNext(s, t, ok, tid, callback), t)
  {
    hide Inv, Effect, Held, Move, Joined, StopEntryNext, StopCommandingNext, StopDecidingNext, StopJoinedNext,
         DestroyEntryNext, Finish;
    var s' := CallerNext(s, t, ok, tid, callback);
    match s.callers[t]
    case StopEntry(n) => StopEntryEffect(s, t, n);
    case StopCommanding(n) => CommandEffect(s, t, n, ok);
    case StopDeciding(n) => StopDecidingEffect(s, t, n);
    case StopAwaitJoin(n) => MoveHeld(s, t, StopEntry(n)); HeldIsEffect(s, s', t);
    case StopJoining(n, w) => JoinHeld(s, t, w, StopJoined(n)); HeldIsEffect(s, s', t);
    case StopJoined(n) => JoinedNobody(s, t); MarkEffect(s, t, n);
    case DestroyEntry => DestroyHeld(s, t); HeldIsEffect(s, s', t);
  }

  /** No caller moves a worker that exists. */
  ghost predicate KeepsWorkers(s: State, s': State) {
    forall w :: w in s'.workers ==> s'.workers[w].pc == if w in s.workers then s.workers[w].pc else LoopTop
  }

  lemma SameKeeps(s: State, s': State, t: Tid)
    requires SameWorkers(s, s', t)
    ensures KeepsWorkers(s, s')
  {
    hide StartForward, RollingBack;
  }

  lemma JoinKeepsPcs(s: State, t: Tid, w: nat, pc: CallerPc)
    ensures KeepsWorkers(s, Move(Joined(s, w), t, pc))
  {
    hide Move, Joined;
    JoinWorkers(s, t, w, pc);
  }

  lemma CreateKeepsPcs(s: State, t: Tid, tid: Tid, e: Snapshot)
    requires s.workers == map[]
    ensures KeepsWorkers(s, StartCreatingNext(s, t, tid)) && KeepsWorkers(s, Move(s, t, RollbackFlags(e)))
  {
    hide Move, StartCreatingNext, StartForward, RollingBack;
    CreateWorkers(s, t, tid, e);
  }

  lemma CommandKeepsPcs(s: State, t: Tid, n: Then, ok: bool)
    ensures KeepsWorkers(s, StopCommandingNext(s, t, n, ok))
  {
    hide StopCommandingNext;
    CommandWorkers(s, t, n, ok);
  }

  lemma CallerKeepsPcs(s: State, t: Tid, ok: bool, tid: Tid, callback: int)
    requires Inv(s) && t in s.callers
    ensures KeepsWorkers(s, CallerNext(s, t, ok, tid, callback))
  {
    hide Inv, Move, StartEntryNext, StartDecide, StartJoinedNext, StopDecidingNext, StopJoinedNext, StopEntryNext,
         DestroyEntryNext, RollbackFlagsNext, RollbackDataNext, RollbackLatchNext, RollbackFaultNext, StartPublishingNext,
         StartArmingNext, StartCreatingNext, StopCommandingNext, KeepsWorkers, SameWorkers, Joined;
    match s.callers[t]
    case StartJoining(v) => JoinKeepsPcs(s, t, v, StartJoined);
    case StopJoining(n, v) => JoinKeepsPcs(s, t, v, StopJoined(n));
    case StartCreating(e) => CreatingIs(s, t); CreatingMeans(s, t); CreateKeepsPcs(s, t, tid, e);
    case StopCommanding(n) => CommandKeepsPcs(s, t, n, ok);
    case _ =>
      CallerWorkers(s, t, ok, tid, callback);
      SameKeeps(s, CallerNext(s, t, ok, tid, callback), t);
  }

  // ---------------------------------------------------------------- every step

  /** Who takes a step that is not a worker's. */
  function CallerOf(a: Action): Tid {
    match a
    case CallStart(t) => t
    case CallStop(t) => t
    case CallBias(t, _, _) => t
    case CallDestroy(t) => t
    case DestroyerPicks => DESTROYER
    case CallerStep(t, _, _, _) => t
    case WorkerStep(_, _) => DESTROYER
  }

  lemma BiasHeld(s: State, biasOk: bool, startOk: bool)
    ensures Held(s, BiasNext(s, biasOk, startOk)) && BiasNext(s, biasOk, startOk).workers == s.workers
  {
  }

  lemma MoveLeaves(s: State, t: Tid, pc: CallerPc)
    ensures Held(s, Move(s, t, pc)) && Move(s, t, pc).workers == s.workers
  {
  }

  lemma BeginHeld(s: State, t: Tid)
    ensures Held(s, BeginDestroy(s, t)) && BeginDestroy(s, t).workers == s.workers
  {
    hide IsWorker;
  }

  lemma TakesHeld(s: State)
    ensures Held(s, DestroyerTakes(s)) && DestroyerTakes(s).workers == s.workers
  {
  }

  lemma UnmovedKeeps(s: State, s': State)
    requires s'.workers == s.workers
    ensures KeepsWorkers(s, s')
  {
  }

  lemma OutsideStep(s: State, a: Action)
    requires Inv(s) && Enabled(s, a) && !a.WorkerStep?
    ensures Effect(s, Apply(s, a), CallerOf(a)) && KeepsWorkers(s, Apply(s, a))
    ensures a.CallerStep? || (Held(s, Apply(s, a)) && Apply(s, a).workers == s.workers)
  {
    hide Inv, MayCall, MayDestroy, CallerEnabled, CallerNext, BiasNext, Move, BeginDestroy, DestroyerTakes, Effect, Held,
         KeepsWorkers;
    var s' := Apply(s, a);
    match a
    case CallStart(t) =>
      MoveLeaves(s, t, StartEntry); HeldIsEffect(s, s', t); UnmovedKeeps(s, s');
    case CallStop(t) =>
      MoveLeaves(s, t, StopEntry(Return)); HeldIsEffect(s, s', t); UnmovedKeeps(s, s');
    case CallBias(t, biasOk, startOk) =>
      BiasHeld(s, biasOk, startOk); HeldIsEffect(s, s', t); UnmovedKeeps(s, s');
    case CallDestroy(t) =>
      BeginHeld(s, t); HeldIsEffect(s, s', t); UnmovedKeeps(s, s');
    case DestroyerPicks =>
      TakesHeld(s); HeldIsEffect(s, s', DESTROYER); UnmovedKeeps(s, s');
    case CallerStep(t, ok, tid, callback) =>
      Inside(s, t, ok, tid);
      CallerKeepsPcs(s, t, ok, tid, callback);
      if StopPc(s.callers[t]) {
        StoppingEffect(s, t, ok, tid, callback);
      } else {
        StartingEffect(s, t, ok, tid, callback);
      }
  }

  lemma PolicyStays(states: seq<State>, actions: seq<Action>, i: nat)
    requires IsRun(states, actions) && i < |states|
    ensures states[i].failStop == states[0].failStop
  {
    hide Inv, Apply, Enabled;
    if i > 0 {
      PolicyStays(states, actions, i - 1);
      RunStep(states, actions, i - 1);
      StepKeepsPolicy(states[i - 1], actions[i - 1]);
    }
  }

  lemma StepKeepsPolicy(s: State, a: Action)
    requires Inv(s) && Enabled(s, a)
    ensures Apply(s, a).failStop == s.failStop
  {
    hide Inv, WorkerEnabled, WorkerNext, CallerEnabled, CallerNext, KeepsWorkers, Follow, StateNext, Publishes;
    if a.WorkerStep? {
      var pc := WorkerStepIs(s, a.w, a.choice);
    } else {
      OutsideStep(s, a);
    }
  }

  // ---------------------------------------------------------------- the policy

  predicate InBackoff(pc: WorkerPc) {
    pc == BackingOff || pc == Waiting
  }

  lemma StepNeverWaits(s: State, a: Action)
    requires Inv(s) && Enabled(s, a) && s.failStop
    requires forall w :: w in s.workers ==> !InBackoff(s.workers[w].pc)
    requires forall w :: w in s.workers ==> (s.workers[w].pc.Judging? ==> s.workers[w].pc.outcome.Halt? || s.failStop)
    ensures forall w :: w in Apply(s, a).workers ==> !InBackoff(Apply(s, a).workers[w].pc)
  {
    hide Inv, WorkerEnabled, WorkerNext, CallerEnabled, CallerNext, Effect, StateNext, Publishes;
    if a.WorkerStep? {
      Working(s, a.w, a.choice);
      var pc := WorkerStepIs(s, a.w, a.choice);
    } else {
      OutsideStep(s, a);
    }
  }

  lemma Working(s: State, w: nat, c: Choice)
    requires WorkerEnabled(s, w, c)
    ensures w in s.workers
  {
  }

  /** A fail-stop client never waits to reconnect. */
  lemma {:induction false} FailStopNeverWaits(states: seq<State>, actions: seq<Action>, i: nat)
    requires IsRun(states, actions) && i < |states| && states[0].failStop
    ensures forall w :: w in states[i].workers ==> !InBackoff(states[i].workers[w].pc)
  {
    hide Inv, Apply, Enabled;
    if i == 0 {
      assert states[0].workers == map[];
    } else {
      FailStopNeverWaits(states, actions, i - 1);
      PolicyStays(states, actions, i - 1);
      RunStep(states, actions, i - 1);
      StepNeverWaits(states[i - 1], actions[i - 1]);
    }
  }

  /** The end of a session, step by step: under fail-stop its failure is latched and the worker retires, whether or not a
      stop is visible; a reconnecting client latches nothing and waits unless a stop is visible. A session that was
      stopped is followed by neither. */
  lemma SessionEndsByPolicy(states: seq<State>, actions: seq<Action>, i: nat)
    requires IsRun(states, actions) && i < |actions| && actions[i].WorkerStep?
    requires actions[i].w in states[i].workers && states[i].workers[actions[i].w].pc.Judging?
    ensures actions[i].w in states[i + 1].workers
    ensures var s, s', w := states[i], states[i + 1], actions[i].w;
            var pc := s'.workers[w].pc;
            match s.workers[w].pc.outcome
            case Fail(f) =>
              if states[0].failStop then s'.latch == f && f != NoFault && pc == Retiring
              else s'.latch == NoFault && pc == if s.stopping then Retiring else BackingOff
            case Halt => s'.latch == NoFault && pc == Retiring
  {
    hide Inv, Apply, Enabled;
    PolicyStays(states, actions, i);
    RunStep(states, actions, i);
    JudgedByPolicy(states[i], actions[i].w, actions[i].choice, states[i + 1], actions[i]);
  }

  lemma JudgedByPolicy(s: State, w: nat, c: Choice, s': State, a: Action)
    requires Inv(s) && a == WorkerStep(w, c) && Enabled(s, a) && s' == Apply(s, a)
    requires w in s.workers && s.workers[w].pc.Judging?
    ensures w in s'.workers
    ensures match s.workers[w].pc.outcome
            case Fail(f) =>
              if s.failStop then s'.latch == f && f != NoFault && s'.workers[w].pc == Retiring
              else s'.latch == NoFault && s'.workers[w].pc == if s.stopping then Retiring else BackingOff
            case Halt => s'.latch == NoFault && s'.workers[w].pc == Retiring
  {
    hide WorkerNext, CommandsInOrder, StopNotLost, Generations;
    Before(s, w);
    hide Inv;
    var pc := WorkerStepIs(s, w, c);
  }

  /** Nothing, or the fault that an exception leaves. */
  predicate Excused(f: FaultCode, escaped: bool) {
    f == NoFault || (f == SocketFault && escaped)
  }

  /** What a reconnecting client and the starts under way can have latched. */
  ghost predicate OnlySocket(s: State, escaped: bool) {
    Excused(s.latch, escaped) && forall t :: Creating(s, t) ==> Excused(EntryAt(s, t).value.latch, escaped)
  }

  /** An exception leaves a session, and no stop is visible. */
  predicate Escapes(s: State, a: Action) {
    a.WorkerStep? && a.w in s.workers && s.workers[a.w].pc == Escaping && !s.stopping
  }

  /** An exception left a session before state `i`. */
  predicate Escaped(states: seq<State>, actions: seq<Action>, i: nat)
    requires |states| == |actions| + 1 && i < |states|
  {
    exists k :: 0 <= k < i && Escapes(states[k], actions[k])
  }

  /** Where a fault comes from that a step latches: from the end of a session under fail-stop, from an exception, or from
      a failed start that had found it. */
  predicate LatchedBy(s: State, a: Action, f: FaultCode) {
    || (Escapes(s, a) && f == SocketFault)
    || (s.failStop && a.WorkerStep? && a.w in s.workers && s.workers[a.w].pc == Judging(Fail(f)))
    || (a.CallerStep? && a.t in s.callers && s.callers[a.t].RollbackFault? && s.callers[a.t].entry.latch == f)
  }

  lemma StepLatches(s: State, a: Action)
    requires Inv(s) && Enabled(s, a)
    ensures var f := Apply(s, a).latch; f == s.latch || f == NoFault || (s.latch == NoFault && LatchedBy(s, a, f))
    ensures a.WorkerStep? && s.latch != NoFault ==> Apply(s, a).latch == s.latch
  {
    hide Inv, WorkerEnabled, WorkerNext, CallerEnabled, CallerNext, KeepsWorkers, Follow, StateNext;
    if a.WorkerStep? {
      Working(s, a.w, a.choice);
      var pc := WorkerStepIs(s, a.w, a.choice);
    } else {
      OutsideStep(s, a);
    }
  }

  /** A latch is set by one of three steps only, and never while it is set; no step of a worker clears it. */
  lemma FaultsComeFrom(states: seq<State>, actions: seq<Action>, i: nat)
    requires IsRun(states, actions) && i < |actions|
    ensures var f, f' := states[i].latch, states[i + 1].latch;
            f' == f || f' == NoFault || (f == NoFault && LatchedBy(states[i], actions[i], f'))
    ensures actions[i].WorkerStep? && states[i].latch != NoFault ==> states[i + 1].latch == states[i].latch
  {
    hide Inv, Apply, Enabled, LatchedBy;
    RunStep(states, actions, i);
    StepLatches(states[i], actions[i]);
  }

  lemma OnlySocketStays(s: State, a: Action, escaped: bool)
    requires Inv(s) && Enabled(s, a) && !s.failStop && OnlySocket(s, escaped)
    ensures OnlySocket(Apply(s, a), escaped || Escapes(s, a))
  {
    hide Inv, Enabled, Apply, EntryAt, Escapes;
    var s' := Apply(s, a);
    StepLatches(s, a);
    if a.CallerStep? && a.t in s.callers {
      RollbackCreates(s, a.t);
    }
    forall t | Creating(s', t) ensures Excused(EntryAt(s', t).value.latch, escaped || Escapes(s, a)) {
      if Creating(s, t) {
        StepCarries(s, a, t);
      } else {
        NewEntry(s, a, t);
      }
    }
  }

  lemma RollbackCreates(s: State, t: Tid)
    requires t in s.callers
    ensures s.callers[t].RollbackFault? ==> EntryAt(s, t) == Some(s.callers[t].entry)
  {
  }

  lemma EscapedNext(states: seq<State>, actions: seq<Action>, i: nat)
    requires |states| == |actions| + 1 && i < |actions|
    ensures Escaped(states, actions, i + 1) <==> Escaped(states, actions, i) || Escapes(states[i], actions[i])
  {
    hide Escapes;
  }

  lemma {:induction false} ReconnectOnlySocket(states: seq<State>, actions: seq<Action>, i: nat)
    requires IsRun(states, actions) && i < |states| && !states[0].failStop
    ensures OnlySocket(states[i], Escaped(states, actions, i))
  {
    hide Inv, Apply, Enabled, Escapes, Escaped;
    if i == 0 {
      assert states[0].callers == map[];
    } else {
      ReconnectOnlySocket(states, actions, i - 1);
      PolicyStays(states, actions, i - 1);
      RunStep(states, actions, i - 1);
      EscapedNext(states, actions, i - 1);
      OnlySocketStays(states[i - 1], actions[i - 1], Escaped(states, actions, i - 1));
    }
  }

  /** A reconnecting client latches a socket fault at most, and only once an exception has left a session while no stop
      was visible: the failures of its sessions are never latched. */
  lemma ReconnectLatchesEscapesOnly(states: seq<State>, actions: seq<Action>, i: nat)
    requires IsRun(states, actions) && i < |states| && !states[0].failStop && states[i].latch != NoFault
    ensures states[i].latch == SocketFault && exists k :: 0 <= k < i && Escapes(states[k], actions[k])
  {
    hide IsRun, Escapes;
    ReconnectOnlySocket(states, actions, i);
  }
}
