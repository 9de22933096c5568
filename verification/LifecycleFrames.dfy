/** What single steps leave alone: frames for the statements about whole runs. */
module LifecycleFrames {
  import opened Protocol
  import opened Session
  import opened Lifecycle
  import opened LifecycleInvariant
  import opened WorkerSteps
  import opened CallerSteps

  predicate DoomedAt(s: State, w: nat) {
    w in s.workers && s.workers[w].doomed
  }

  /** Which start the data belongs to: unchanged, or the next one. */
  predicate SameStart(d: Data, d': Data) {
    d'.generation == d.generation && d'.serial == d.serial
  }

  predicate StartForward(d: Data, d': Data) {
    SameStart(d, d') || d'.generation == d.generation + 1
  }

  /** About to restore the data of the start before. */
  predicate RollingBack(s: State, t: Tid) {
    t in s.callers && s.callers[t].RollbackData?
  }

  /** Most steps of a call leave the workers and the commands alone. */
  ghost predicate SameWorkers(s: State, s': State, t: Tid) {
    && s'.workers == s.workers && s'.attempts == s.attempts && s'.spawned == s.spawned
    && SameOthers(s.callers, s'.callers, t) && (StartForward(s.data, s'.data) || RollingBack(s, t))
  }

  lemma Moved(s: State, s': State, t: Tid, pc: CallerPc)
    requires s'.callers == s.callers[t := pc] || s'.callers == s.callers - {t} || s'.callers == s.callers
    requires s'.workers == s.workers && s'.attempts == s.attempts && s'.spawned == s.spawned
    requires StartForward(s.data, s'.data) || RollingBack(s, t)
    ensures SameWorkers(s, s', t)
  {
  }

  lemma MoveWorkers(s: State, t: Tid, pc: CallerPc)
    ensures SameWorkers(s, Move(s, t, pc), t) && SameWorkers(s, Leave(s, t), t) && SameWorkers(s, Arm(s, t), t)
    ensures SameWorkers(s, TakeHandle(s, t, pc), t)
  {
    hide SameWorkers, RollingBack, TakeSnapshot;
    Moved(s, Move(s, t, pc), t, pc);
    Moved(s, Leave(s, t), t, pc);
    Moved(s, Arm(s, t), t, StartArming(TakeSnapshot(s)));
    Moved(s, TakeHandle(s, t, pc), t, pc);
  }

  lemma StartDecideWorkers(s: State, t: Tid)
    ensures SameWorkers(s, StartDecide(s, t), t)
  {
    hide SameWorkers, Move, Leave, Arm, TakeHandle;
    MoveWorkers(s, t, StartAwaitExit);
    if s.handle.Some? {
      MoveWorkers(s, t, StartJoining(s.handle.value));
    }
  }

  lemma StartEntryWorkers(s: State, t: Tid)
    ensures SameWorkers(s, StartEntryNext(s, t), t)
  {
    hide SameWorkers, Move, Leave, StartDecide, OnWorkerThread;
    StartDecideWorkers(s, t);
    MoveWorkers(s, t, StartAwaitJoin);
  }

  lemma RestoreWorkers(s: State, t: Tid, e: Snapshot)
    ensures SameWorkers(s, RollbackFlagsNext(s, t, e), t)
    ensures RollingBack(s, t) ==> SameWorkers(s, RollbackDataNext(s, t, e), t)
  {
    hide SameWorkers, RollingBack;
    Moved(s, RollbackFlagsNext(s, t, e), t, RollbackData(e));
    if RollingBack(s, t) {
      Moved(s, RollbackDataNext(s, t, e), t, RollbackLatch(e));
    }
  }

  lemma RelatchWorkers(s: State, t: Tid, e: Snapshot)
    ensures SameWorkers(s, RollbackLatchNext(s, t, e), t) && SameWorkers(s, RollbackFaultNext(s, t, e), t)
  {
    hide SameWorkers, RollingBack;
    Moved(s, RollbackLatchNext(s, t, e), t, RollbackFault(e));
    Moved(s, RollbackFaultNext(s, t, e), t, StartEntry);
  }

  lemma FinishWorkers(s: State, t: Tid, n: Then)
    ensures SameWorkers(s, Finish(s, t, n), t) && Finish(s, t, n).data == s.data
  {
    hide SameWorkers, RollingBack;
    if n == Again {
      Moved(s, Finish(s, t, n), t, StopEntry(Free));
    } else {
      Moved(s, Finish(s, t, n), t, StartEntry);
    }
  }

  lemma MarkWorkers(s: State, t: Tid)
    ensures SameWorkers(s, MarkStopped(s), t) && SameStart(s.data, MarkStopped(s).data)
    ensures MarkStopped(s).callers == s.callers
  {
    hide SameWorkers, RollingBack;
    Moved(s, MarkStopped(s), t, StartEntry);
  }

  /** Locks and ids are nothing to the workers. */
  lemma Unlocked(s: State, s': State, t: Tid)
    requires SameWorkers(s, s', t)
    ensures SameWorkers(s, s'.(lock := None), t)
    ensures SameWorkers(s, s'.(active := None, joining := false, joiner := None), t)
  {
    hide StartForward, RollingBack;
  }

  lemma MarkThenFinish(s: State, t: Tid, n: Then)
    ensures SameWorkers(s, Finish(MarkStopped(s), t, n), t)
  {
    hide Finish, MarkStopped, RollingBack;
    MarkWorkers(s, t);
    FinishWorkers(MarkStopped(s), t, n);
  }

  lemma WaitsWorkers(s: State, t: Tid, n: Then)
    ensures SameWorkers(s, Move(s, t, StopAwaitJoin(n)).(lock := None), t)
    ensures SameWorkers(s, Finish(s, t, n).(lock := None), t)
    ensures SameWorkers(s, Finish(MarkStopped(s), t, n).(lock := None), t)
    ensures SameWorkers(s, StopJoinedNext(s, t, n), t)
  {
    hide Finish, MarkStopped, Move, SameWorkers;
    FinishWorkers(s, t, n);
    MarkThenFinish(s, t, n);
    MoveWorkers(s, t, StopAwaitJoin(n));
    Unlocked(s, Finish(s, t, n), t);
    Unlocked(s, Finish(MarkStopped(s), t, n), t);
    Unlocked(s, Move(s, t, StopAwaitJoin(n)), t);
  }

  lemma StopDecidingWorkers(s: State, t: Tid, n: Then)
    ensures SameWorkers(s, StopDecidingNext(s, t, n), t)
  {
    hide SameWorkers, Finish, MarkStopped, OnWorkerThread, Move, TakeHandle;
    WaitsWorkers(s, t, n);
    if s.handle.Some? {
      MoveWorkers(s, t, StopJoining(n, s.handle.value));
    }
  }

  lemma QuietWorkers(s: State, t: Tid, e: Snapshot, callback: int, n: Then)
    ensures SameWorkers(s, StartJoinedNext(s, t), t) && SameWorkers(s, StartArmingNext(s, t, e, callback), t)
    ensures SameWorkers(s, StartPublishingNext(s, t), t) && SameWorkers(s, StopEntryNext(s, t, n), t)
    ensures SameWorkers(s, DestroyEntryNext(s, t), t)
  {
    hide SameWorkers, RollingBack, OnWorkerThread;
    Moved(s, StartJoinedNext(s, t), t, StartEntry);
    Moved(s, StartArmingNext(s, t, e, callback), t, StartCreating(e));
    Moved(s, StartPublishingNext(s, t), t, StartEntry);
    Moved(s, StopEntryNext(s, t, n), t, StopCommanding(n));
    Moved(s, DestroyEntryNext(s, t), t, StopEntry(if OnWorkerThread(s, t) then Defer else Again));
  }

  lemma CallerWorkers(s: State, t: Tid, ok: bool, tid: Tid, callback: int)
    requires t in s.callers
    requires !s.callers[t].StartCreating? && !s.callers[t].StartJoining? && !s.callers[t].StopJoining?
             && !s.callers[t].StopCommanding?
    ensures SameWorkers(s, CallerNext(s, t, ok, tid, callback), t)
  {
    hide SameWorkers, Move, StartEntryNext, StartDecide, StartArmingNext, StartPublishingNext, StartJoinedNext,
         RollbackFlagsNext, RollbackDataNext, RollbackLatchNext, RollbackFaultNext, StopDecidingNext, StopJoinedNext,
         DestroyEntryNext, StopEntryNext;
    QuietWorkers(s, t, TakeSnapshot(s), callback, Return);
    match s.callers[t]
    case StartEntry => StartEntryWorkers(s, t);
    case StartAwaitJoin => StartDecideWorkers(s, t);
    case StartAwaitExit => MoveWorkers(s, t, StartEntry);
    case StartJoined =>
    case StartArming(e) => QuietWorkers(s, t, e, callback, Return);
    case StartPublishing =>
    case RollbackFlags(e) => RestoreWorkers(s, t, e);
    case RollbackData(e) => RestoreWorkers(s, t, e);
    case RollbackLatch(e) => RelatchWorkers(s, t, e);
    case RollbackFault(e) => RelatchWorkers(s, t, e);
    case StopEntry(n) => QuietWorkers(s, t, TakeSnapshot(s), callback, n);
    case StopDeciding(n) => StopDecidingWorkers(s, t, n);
    case StopAwaitJoin(n) => MoveWorkers(s, t, StopEntry(n));
    case StopJoined(n) => WaitsWorkers(s, t, n);
    case DestroyEntry =>
  }

  /** A worker's step makes and ends no worker, and under a stop it sends nothing. */
  ghost predicate SilentAt(s: State, s': State, w: nat) {
    && (s.stopping && !s.sessionStarted ==> s'.attempts == s.attempts) && s'.spawned == s.spawned
    && (forall u :: u in s'.workers <==> u in s.workers)
    && w in s.workers && s'.workers[w].doomed == s.workers[w].doomed && SameStart(s.data, s'.data)
    && s'.callers == s.callers
  }

  lemma MovesSilent(s: State, s': State, w: nat, pc: WorkerPc)
    requires w in s.workers && s'.workers == s.workers[w := s.workers[w].(pc := pc)] && s'.spawned == s.spawned
    requires s.stopping && !s.sessionStarted ==> s'.attempts == s.attempts
    requires SameStart(s.data, s'.data) && s'.callers == s.callers
    ensures SilentAt(s, s', w)
  {
  }

  lemma AtSilent(s: State, w: nat, pc: WorkerPc, d: Data)
    requires w in s.workers && SameStart(s.data, d)
    ensures SilentAt(s, At(s, w, pc), w) && SilentAt(s, At(s, w, pc).(data := d), w)
    ensures SilentAt(s, At(s, w, pc).(shutdownRequested := false), w)
    ensures SilentAt(s, At(s, w, pc).(exited := true), w)
  {
    hide SilentAt;
    MovesSilent(s, At(s, w, pc), w, pc);
    MovesSilent(s, At(s, w, pc).(data := d), w, pc);
    MovesSilent(s, At(s, w, pc).(shutdownRequested := false), w, pc);
    MovesSilent(s, At(s, w, pc).(exited := true), w, pc);
  }

  lemma EndSilent(s: State, w: nat, pc: WorkerPc, ok: bool, f: FaultCode)
    requires w in s.workers
    ensures SilentAt(s, CloseSession(At(s, w, pc), ok), w)
    ensures SilentAt(s, Publish(At(s, w, pc), f), w)
    ensures SilentAt(s, MarkStopped(At(s, w, pc)), w)
  {
    hide SilentAt;
    MovesSilent(s, CloseSession(At(s, w, pc), ok), w, pc);
    MovesSilent(s, Publish(At(s, w, pc), f), w, pc);
    MovesSilent(s, MarkStopped(At(s, w, pc)), w, pc);
  }

  lemma OpeningSilent(s: State, w: nat, c: Choice)
    requires w in s.workers && OpeningPc(s.workers[w].pc)
    ensures SilentAt(s, OpeningNext(s, w, c), w)
  {
    hide SilentAt, At, CommandingNext;
    match s.workers[w].pc
    case LoopTop => AtSilent(s, w, if s.stopping || s.latch != NoFault then Retiring else Entering, s.data);
    case Entering => AtSilent(s, w, EntryCheck, s.data.(state := Connecting));
    case EntryCheck => AtSilent(s, w, if s.stopping then Closing(Halt) else Configuring, s.data);
    case Configuring =>
      AtSilent(s, w, Escaping, s.data);
      AtSilent(s, w, if c.ok then ConfigCheck else Failing(SensorConfigurationFault), s.data.(rest := c.rest));
    case ConfigCheck => AtSilent(s, w, if s.stopping then Closing(Halt) else Linking, s.data);
    case Linking => AtSilent(s, w, Commanding, s.data); AtSilent(s, w, Failing(SocketFault), s.data);
    case Commanding => CommandingSilent(s, w, c.ok);
  }

  lemma CommandingSilent(s: State, w: nat, ok: bool)
    requires w in s.workers
    ensures SilentAt(s, CommandingNext(s, w, ok), w)
  {
    if s.stopping {
      AtSilent(s, w, Closing(Halt), s.data);
    }
  }

  lemma StreamingSilent(s: State, w: nat, c: Choice)
    requires w in s.workers && StreamingPc(s.workers[w].pc)
    ensures SilentAt(s, StreamingNext(s, w, c), w)
  {
    hide SilentAt, At;
    match s.workers[w].pc
    case Resetting => AtSilent(s, w, if c.throws then Escaping else LoopCheck, s.data);
    case LoopCheck =>
      AtSilent(s, w, if s.stopping then Closing(Halt) else if c.ok then Receiving else Failing(TimeoutFault), s.data);
    case Receiving => AtSilent(s, w, if c.ok then Received else Failing(SocketFault), s.data);
    case Received =>
      AtSilent(s, w, if s.stopping then Closing(Halt) else Escaping, s.data);
      AtSilent(s, w, c.after, s.data.(rest := c.rest));
    case Observing => AtSilent(s, w, c.after, s.data.(state := Streaming, rest := c.rest));
    case InCallback => AtSilent(s, w, c.after, s.data.(rest := c.rest));
    case Finishing => AtSilent(s, w, c.after, FinishingNext(s, w, c).data);
  }

  lemma ClosingSilent(s: State, w: nat, c: Choice)
    requires w in s.workers && s.workers[w].pc != Done
    requires !OpeningPc(s.workers[w].pc) && !StreamingPc(s.workers[w].pc)
    ensures SilentAt(s, ClosingNext(s, w, c), w)
  {
    hide SilentAt, At, CloseSession, Publish, MarkStopped;
    match s.workers[w].pc
    case Failing(f) => AtSilent(s, w, Closing(if s.stopping then Halt else Fail(f)), s.data);
    case Closing(o) => EndSilent(s, w, Judging(o), c.ok, NoFault);
    case Judging(o) =>
      AtSilent(s, w, Retiring, s.data);
      AtSilent(s, w, BackingOff, s.data);
      EndSilent(s, w, Retiring, c.ok, if o.Fail? then o.fault else NoFault);
    case BackingOff => AtSilent(s, w, Waiting, s.data.(state := Backoff, rest := c.rest));
    case Waiting => AtSilent(s, w, if c.throws then Escaping else LoopTop, s.data);
    case Escaping => EndSilent(s, w, Retiring, c.ok, if s.stopping then NoFault else SocketFault);
    case Retiring => EndSilent(s, w, Exiting, c.ok, NoFault);
    case Exiting => AtSilent(s, w, Settling, s.data);
    case Settling => EndSilent(s, w, Done, c.ok, NoFault);
  }

  lemma WorkerSilent(s: State, w: nat, c: Choice)
    requires WorkerEnabled(s, w, c)
    ensures SilentAt(s, WorkerNext(s, w, c), w)
  {
    hide SilentAt, OpeningNext, StreamingNext, ClosingNext;
    if OpeningPc(s.workers[w].pc) {
      OpeningSilent(s, w, c);
    } else if StreamingPc(s.workers[w].pc) {
      StreamingSilent(s, w, c);
    } else {
      ClosingSilent(s, w, c);
    }
  }

  /** What the invariant says of a doomed worker. */
  lemma DoomedMeans(s: State, w: nat)
    requires Inv(s) && DoomedAt(s, w)
    ensures s.stopping && !s.sessionStarted && (StreamingPc(s.workers[w].pc) ==> s.shutdownRequested) && w < s.spawned
  {
    hide CallersFit, Faults, Endings, Holders, IdPublished, CommandsInOrder;
    TheWorker(s, w);
  }

  /** Workers come only from a start's creation, with a fresh number. */
  predicate WorkersFrom(s: State, s': State) {
    s.spawned <= s'.spawned && forall w :: w in s'.workers ==> w == s.spawned || w in s.workers
  }

  lemma JoinWorkers(s: State, t: Tid, w: nat, pc: CallerPc)
    ensures var s' := Move(Joined(s, w), t, pc);
            && s'.data == s.data && s'.workers == s.workers - {w} && s'.attempts == s.attempts && s'.spawned == s.spawned
            && SameOthers(s.callers, s'.callers, t)
  {
  }

  lemma CreateWorkers(s: State, t: Tid, tid: Tid, e: Snapshot)
    ensures var s' := StartCreatingNext(s, t, tid);
            && s'.data == s.data && s'.workers == s.workers[s.spawned := Worker(tid, LoopTop, s.data.serial, false)]
            && s'.attempts == s.attempts && s'.spawned == s.spawned + 1 && SameOthers(s.callers, s'.callers, t)
    ensures SameWorkers(s, Move(s, t, RollbackFlags(e)), t)
  {
  }

  lemma CommandWorkers(s: State, t: Tid, n: Then, ok: bool)
    ensures var s' := StopCommandingNext(s, t, n, ok);
            && s'.data == s.data && s'.workers == DoomAll(s.workers) && s'.spawned == s.spawned
            && (!s.sessionStarted ==> s'.attempts == s.attempts) && SameOthers(s.callers, s'.callers, t)
  {
  }

  /** A call's step, seen from the workers. */
  ghost predicate CallerQuiet(s: State, s': State, t: Tid) {
    && WorkersFrom(s, s') && (!s.sessionStarted ==> s'.attempts == s.attempts)
    && SameOthers(s.callers, s'.callers, t) && (StartForward(s.data, s'.data) || RollingBack(s, t))
    && forall w :: DoomedAt(s, w) && w != s.spawned && w in s'.workers ==> DoomedAt(s', w)
  }

  lemma SameIsQuiet(s: State, s': State, t: Tid)
    requires SameWorkers(s, s', t)
    ensures CallerQuiet(s, s', t)
  {
    hide StartForward, RollingBack;
  }

  lemma JoinIsQuiet(s: State, t: Tid, w: nat, pc: CallerPc)
    ensures CallerQuiet(s, Move(Joined(s, w), t, pc), t)
  {
    hide RollingBack, Move, Joined;
    JoinWorkers(s, t, w, pc);
  }

  lemma CreateIsQuiet(s: State, t: Tid, tid: Tid, e: Snapshot)
    ensures CallerQuiet(s, StartCreatingNext(s, t, tid), t) && CallerQuiet(s, Move(s, t, RollbackFlags(e)), t)
  {
    hide RollingBack, Move, StartCreatingNext;
    CreateWorkers(s, t, tid, e);
  }

  lemma CommandIsQuiet(s: State, t: Tid, n: Then, ok: bool)
    ensures CallerQuiet(s, StopCommandingNext(s, t, n, ok), t)
  {
    hide RollingBack, StopCommandingNext;
    CommandWorkers(s, t, n, ok);
  }

  lemma CallerStaysSilent(s: State, t: Tid, ok: bool, tid: Tid, callback: int)
    requires t in s.callers
    ensures CallerQuiet(s, CallerNext(s, t, ok, tid, callback), t)
  {
    hide Move, StartEntryNext, StartDecide, StartJoinedNext, StopDecidingNext, StopJoinedNext, StopEntryNext,
         DestroyEntryNext, RollbackFlagsNext, RollbackDataNext, RollbackLatchNext, RollbackFaultNext, StartPublishingNext,
         StartArmingNext, StartCreatingNext, StopCommandingNext, CallerQuiet, SameWorkers, Joined;
    match s.callers[t]
    case StartJoining(v) => JoinIsQuiet(s, t, v, StartJoined);
    case StopJoining(n, v) => JoinIsQuiet(s, t, v, StopJoined(n));
    case StartCreating(e) => CreateIsQuiet(s, t, tid, e);
    case StopCommanding(n) => CommandIsQuiet(s, t, n, ok);
    case _ =>
      CallerWorkers(s, t, ok, tid, callback);
      SameIsQuiet(s, CallerNext(s, t, ok, tid, callback), t);
  }

  lemma Inside(s: State, t: Tid, ok: bool, tid: Tid)
    requires CallerEnabled(s, t, ok, tid)
    ensures t in s.callers
  {
  }

  lemma StepStaysSilent(s: State, a: Action, w: nat)
    requires Inv(s) && Enabled(s, a) && DoomedAt(s, w) && w in Apply(s, a).workers
    ensures DoomedAt(Apply(s, a), w) && Apply(s, a).attempts == s.attempts
  {
    hide Inv, MayCall, MayDestroy, CallerEnabled, CallerNext, WorkerNext, Move, DestroyerTakes, BeginDestroy;
    DoomedMeans(s, w);
    match a
    case CallStart(t) => MoveWorkers(s, t, StartEntry);
    case CallStop(t) => MoveWorkers(s, t, StopEntry(Return));
    case CallBias(_, _, _) =>
    case CallDestroy(t) => DestroyWorkers(s, t);
    case DestroyerPicks => DestroyWorkers(s, DESTROYER);
    case CallerStep(t, ok, tid, callback) => Inside(s, t, ok, tid); CallerStaysSilent(s, t, ok, tid, callback);
    case WorkerStep(v, c) =>
      OnlyOne(s, v, w);
      WorkerSilent(s, v, c);
  }

  /** The workers and the start's number after a step. */
  predicate Framed(s: State, s': State, forward: bool) {
    WorkersFrom(s, s') && (forward ==> StartForward(s.data, s'.data))
  }

  lemma QuietIsFramed(s: State, s': State, t: Tid)
    requires CallerQuiet(s, s', t) || SameWorkers(s, s', t)
    ensures Framed(s, s', !RollingBack(s, t))
  {
    hide StartForward, RollingBack;
  }

  lemma SilentIsFramed(s: State, s': State, w: nat)
    requires SilentAt(s, s', w)
    ensures Framed(s, s', true)
  {
  }

  lemma BiasIsFramed(s: State, biasOk: bool, startOk: bool)
    ensures Framed(s, BiasNext(s, biasOk, startOk), true)
  {
  }

  lemma Calling(s: State, t: Tid)
    requires MayCall(s, t)
    ensures !RollingBack(s, t)
  {
  }

  lemma Destroying(s: State, t: Tid)
    requires MayDestroy(s, t)
    ensures !RollingBack(s, t)
  {
    hide IsWorker, InItsCallback;
  }

  /** No step makes a worker but a start's creation; none but the restoring of data takes the generation back or
      repeats it for another start. */
  lemma StepFramed(s: State, a: Action)
    requires Enabled(s, a)
    ensures Framed(s, Apply(s, a), !(a.CallerStep? && RollingBack(s, a.t)))
  {
    hide MayCall, MayDestroy, CallerEnabled, CallerNext, WorkerNext, WorkerEnabled, BiasNext, Move, DestroyerTakes,
         BeginDestroy, Framed, SameWorkers, CallerQuiet, SilentAt, RollingBack;
    match a
    case CallStart(t) =>
      MoveWorkers(s, t, StartEntry);
      Calling(s, t);
      QuietIsFramed(s, Move(s, t, StartEntry), t);
    case CallStop(t) =>
      MoveWorkers(s, t, StopEntry(Return));
      Calling(s, t);
      QuietIsFramed(s, Move(s, t, StopEntry(Return)), t);
    case CallBias(_, biasOk, startOk) => BiasIsFramed(s, biasOk, startOk);
    case CallDestroy(t) =>
      DestroyWorkers(s, t);
      Destroying(s, t);
      QuietIsFramed(s, BeginDestroy(s, t), t);
    case DestroyerPicks => TakingIsFramed(s);
    case CallerStep(t, ok, tid, callback) =>
      Inside(s, t, ok, tid);
      CallerStaysSilent(s, t, ok, tid, callback);
      QuietIsFramed(s, CallerNext(s, t, ok, tid, callback), t);
    case WorkerStep(v, c) =>
      WorkerSilent(s, v, c);
      SilentIsFramed(s, Apply(s, a), v);
  }

  lemma TakingIsFramed(s: State)
    ensures Framed(s, DestroyerTakes(s), true)
  {
  }

  lemma StepWorkers(s: State, a: Action)
    requires Enabled(s, a)
    ensures WorkersFrom(s, Apply(s, a))
  {
    hide Enabled, Apply, WorkersFrom;
    StepFramed(s, a);
  }

  /** When a stop leaves its command section, every worker is doomed. */
  lemma StopDooms(s: State, a: Action, w: nat)
    requires Enabled(s, a) && a.CallerStep? && a.t in s.callers && s.callers[a.t].StopCommanding? && w in s.workers
    ensures DoomedAt(Apply(s, a), w)
  {
    hide StopCommandingNext, CallerEnabled;
    CommandWorkers(s, a.t, NextOf(s.callers[a.t]), a.ok);
  }

  /** No step but the restoring of data takes the generation back or repeats it for another start. */
  lemma StepStartForward(s: State, a: Action)
    requires Enabled(s, a) && !(a.CallerStep? && RollingBack(s, a.t))
    ensures StartForward(s.data, Apply(s, a).data)
  {
    hide Enabled, Apply, WorkersFrom, StartForward;
    StepFramed(s, a);
  }

  lemma OnlyOne(s: State, v: nat, w: nat)
    requires Inv(s) && v in s.workers && w in s.workers
    ensures v == w
  {
    hide CallersFit, Wires, Faults, Endings, Holders, IdPublished;
    assert v in s.workers.Keys && w in s.workers.Keys;
  }

  lemma DestroyWorkers(s: State, t: Tid)
    ensures SameWorkers(s, BeginDestroy(s, t), t) && SameWorkers(s, DestroyerTakes(s), DESTROYER)
    ensures BeginDestroy(s, t).data == s.data && DestroyerTakes(s).data == s.data
  {
  }

  // ---------------------------------------------------------------- a start under way

  function SavedBy(pc: CallerPc): Option<Snapshot> {
    match pc
    case StartArming(e) => Some(e)
    case StartCreating(e) => Some(e)
    case RollbackFlags(e) => Some(e)
    case RollbackData(e) => Some(e)
    case RollbackLatch(e) => Some(e)
    case RollbackFault(e) => Some(e)
    case _ => None
  }

  /** What a start that is creating its worker has saved. */
  function EntryAt(s: State, t: Tid): Option<Snapshot> {
    if t in s.callers then SavedBy(s.callers[t]) else None
  }

  predicate Creating(s: State, t: Tid) {
    EntryAt(s, t).Some?
  }

  lemma CreatingIs(s: State, t: Tid)
    ensures Creating(s, t) <==> t in s.callers && CreatingPc(s.callers[t])
  {
  }

  lemma CreatingMeans(s: State, t: Tid)
    requires Inv(s) && Creating(s, t)
    ensures s.workers == map[] && !s.sessionStarted && s.lock == Some(t)
    ensures forall u :: u != t ==> !Creating(s, u)
  {
    hide Faults, Endings, FitsRollback, FitsCallback, FitsDestruction, Holders, IdPublished, Heard;
    assert Fits(AroundOf(s), t, s.callers[t]);
    assert s.workers.Keys == {};
    forall u | u != t ensures !Creating(s, u) {
      if u in s.callers {
        assert Fits(AroundOf(s), u, s.callers[u]);
      }
    }
  }

  lemma StartCallers(s: State, t: Tid, e: Snapshot, callback: int, tid: Tid)
    ensures EntryAt(StartArmingNext(s, t, e, callback), t) == Some(e)
    ensures EntryAt(Move(s, t, RollbackFlags(e)), t) == Some(e)
    ensures EntryAt(StartCreatingNext(s, t, tid), t).None?
  {
  }

  lemma RollbackCallers(s: State, t: Tid, e: Snapshot)
    ensures EntryAt(RollbackFlagsNext(s, t, e), t) == Some(e) && EntryAt(RollbackDataNext(s, t, e), t) == Some(e)
    ensures EntryAt(RollbackLatchNext(s, t, e), t) == Some(e) && EntryAt(RollbackFaultNext(s, t, e), t).None?
  {
  }

  lemma OwnStepCarries(s: State, t: Tid, ok: bool, tid: Tid, callback: int)
    requires Creating(s, t) && Creating(CallerNext(s, t, ok, tid, callback), t)
    ensures EntryAt(CallerNext(s, t, ok, tid, callback), t) == EntryAt(s, t)
    ensures CallerNext(s, t, ok, tid, callback).spawned == s.spawned
  {
    hide Move, StartEntryNext, StartDecide, StartJoinedNext, StopDecidingNext, StopJoinedNext, StopEntryNext,
         DestroyEntryNext,
         StartPublishingNext, StopCommandingNext, StartArmingNext, RollbackFlagsNext, RollbackDataNext, RollbackLatchNext,
         RollbackFaultNext, StartCreatingNext, Joined;
    var e := EntryAt(s, t).value;
    StartCallers(s, t, e, callback, tid);
    RollbackCallers(s, t, e);
    if s.callers[t].StartCreating? {
      CreateWorkers(s, t, tid, e);
    } else {
      CallerWorkers(s, t, ok, tid, callback);
    }
  }

  /** While a start creates its worker, no step by anyone changes what it saved, sends or creates anything. */
  lemma StepCarries(s: State, a: Action, t: Tid)
    requires Inv(s) && Enabled(s, a) && Creating(s, t) && Creating(Apply(s, a), t)
    ensures var s' := Apply(s, a);
            EntryAt(s', t) == EntryAt(s, t) && s'.attempts == s.attempts && s'.spawned == s.spawned
  {
    hide Inv, MayCall, MayDestroy, CallerEnabled, CallerNext, WorkerNext, Move, DestroyerTakes, BeginDestroy;
    CreatingMeans(s, t);
    match a
    case CallStart(u) => MoveWorkers(s, u, StartEntry); Uninvolved(s, u, t);
    case CallStop(u) => MoveWorkers(s, u, StopEntry(Return)); Uninvolved(s, u, t);
    case CallBias(_, _, _) =>
    case CallDestroy(u) => DestroyWorkers(s, u); DestroyExcludes(s, u, t);
    case DestroyerPicks => DestroyWorkers(s, DESTROYER); NobodyIn(s);
    case CallerStep(u, ok, tid, callback) =>
      Inside(s, u, ok, tid);
      CallerStaysSilent(s, u, ok, tid, callback);
      if u == t {
        OwnStepCarries(s, t, ok, tid, callback);
      } else {
        CreatingIs(s, u);
        OthersCreateNothing(s, u, ok, tid, callback);
      }
  }

  lemma Uninvolved(s: State, u: Tid, t: Tid)
    requires MayCall(s, u) && t in s.callers
    ensures u != t
  {
  }

  lemma DestroyExcludes(s: State, u: Tid, t: Tid)
    requires MayDestroy(s, u) && t in s.callers
    ensures u != t
  {
  }

  lemma OthersCreateNothing(s: State, u: Tid, ok: bool, tid: Tid, callback: int)
    requires u in s.callers && !CreatingPc(s.callers[u])
    ensures CallerNext(s, u, ok, tid, callback).spawned == s.spawned
  {
    hide Move, StartEntryNext, StartDecide, StartJoinedNext, StopDecidingNext, StopJoinedNext, StopEntryNext,
         DestroyEntryNext, StartPublishingNext, StopCommandingNext;
    match s.callers[u]
    case StartJoining(v) => JoinWorkers(s, u, v, StartJoined);
    case StopJoining(n, v) => JoinWorkers(s, u, v, StopJoined(n));
    case StopCommanding(n) => CommandWorkers(s, u, n, ok);
    case _ => CallerWorkers(s, u, ok, tid, callback);
  }

  lemma DecideEntry(s: State, t: Tid)
    ensures EntryAt(Arm(s, t), t) == Some(TakeSnapshot(s)) && EntryAt(Leave(s, t), t).None?
    ensures EntryAt(Move(s, t, StartAwaitExit), t).None? && EntryAt(Move(s, t, StartAwaitJoin), t).None?
    ensures forall w :: EntryAt(TakeHandle(s, t, StartJoining(w)), t).None?
  {
    hide TakeSnapshot;
  }

  /** A start begins with its snapshot. */
  lemma StartTakesSnapshot(s: State, t: Tid, ok: bool, tid: Tid, callback: int)
    requires t in s.callers && s.callers[t] in {StartEntry, StartAwaitJoin}
    requires Creating(CallerNext(s, t, ok, tid, callback), t)
    ensures var s' := CallerNext(s, t, ok, tid, callback);
            EntryAt(s', t) == Some(TakeSnapshot(s)) && s'.attempts == s.attempts && s'.spawned == s.spawned
  {
    hide TakeSnapshot, EntryAt, Arm, Leave, Move, TakeHandle, OnWorkerThread;
    DecideEntry(s, t);
    CallerWorkers(s, t, ok, tid, callback);
  }

  /** The last step of a failed start makes the snapshot true again, fault included. */
  lemma RollbackCompletes(s: State, t: Tid)
    requires Inv(s) && t in s.callers && s.callers[t].RollbackFault?
    ensures var e := s.callers[t].entry; TakeSnapshot(RollbackFaultNext(s, t, e)) == e
  {
    hide CallersFit, Threads, Wires, Endings, FitsThreads, FitsCallback, FitsDestruction;
    AtCall(s, t);
  }
}
