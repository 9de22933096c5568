/** Steps of the worker keep the invariant. */
module WorkerSteps {
  import opened Protocol
  import opened Session
  import opened Lifecycle
  import opened LifecycleInvariant

  /** All that no step of a worker changes. */
  predicate SameOutside(s: State, s': State) {
    && s'.stopping == s.stopping && s'.active == s.active && s'.joining == s.joining && s'.handle == s.handle
    && s'.lock == s.lock
    && s'.callers == s.callers && s'.gone == s.gone && s'.pending == s.pending && s'.freed == s.freed
    && s'.spawned == s.spawned && s'.joined == s.joined && s'.starts == s.starts
    && s'.joiner == s.joiner && s'.current == s.current && s'.owner == s.owner
  }

  lemma TheWorker(s: State, w: nat)
    requires Threads(s) && w in s.workers
    ensures s.current == Some(w) && Cur(s.workers, s.current) == Some(s.workers[w])
    ensures s.exited <==> ExitedPc(s.workers[w].pc)
  {
    assert w in s.workers.Keys;
  }

  lemma AtWorker(s: State, s': State, w: nat, k: Worker)
    requires Threads(s) && w in s.workers && SameOutside(s, s')
    requires s'.workers == s.workers[w := k]
    ensures s'.workers.Keys == s.workers.Keys && Cur(s'.workers, s'.current) == Some(k)
  {
    hide IdPublished, Holders;
    assert w in s.workers.Keys;
  }

  /** While a worker exists nobody creates one, and its steps disturb no call of another thread. */
  lemma CallsPersist(a: Around, k: Worker, now: Snapshot, t: Tid, pc: CallerPc)
    requires Fits(a, t, pc) && a.current.Some? && a.worker.Some? && k.tid == a.worker.value.tid && k.tid != t
    requires now.stopping == a.now.stopping
    ensures Fits(a.(worker := Some(k), now := now), t, pc)
    ensures !CreatingPc(pc)
  {
  }

  /** A worker step need only look after commands and faults, and never leave its callback while a call runs on
      its thread. */
  lemma WorkerKeeps(s: State, s': State, w: nat, k: Worker)
    requires Inv(s) && w in s.workers && SameOutside(s, s')
    requires s'.workers == s.workers[w := k] && k.tid == s.workers[w].tid
    requires s'.exited <==> ExitedPc(k.pc)
    requires s.workers[w].tid !in s.callers
    requires CommandsInOrder(s'.attempts, s'.sessionStarted, Some(k))
    requires StopNotLost(s'.stopping, s'.sessionStarted, s'.shutdownRequested, Some(k))
    requires FaultsInStep(false, s'.latch, s'.data, Some(k)) && FaultsNamed(Some(k))
    requires Generations(s'.data, s'.starts, Some(k))
    ensures Inv(s')
  {
    hide CommandsInOrder, StopNotLost, FaultsInStep, FaultsNamed, Generations, JoinedOnce, Destruction, Cur,
         OneWorker, Fits;
    AtWorker(s, s', w, k);
    TheWorker(s, w);
    var a := AroundOf(s);
    forall t | t in s.callers ensures Fits(AroundOf(s'), t, s.callers[t]) && !CreatingPc(s.callers[t]) {
      CallsPersist(a, k, TakeSnapshot(s'), t, s.callers[t]);
    }
  }

  /** What is known where a worker step starts. */
  lemma Before(s: State, w: nat)
    requires Inv(s) && w in s.workers
    ensures var k := s.workers[w];
            && (s.exited <==> ExitedPc(k.pc))
            && CommandsInOrder(s.attempts, s.sessionStarted, Some(k))
            && StopNotLost(s.stopping, s.sessionStarted, s.shutdownRequested, Some(k))
            && FaultsInStep(false, s.latch, s.data, Some(k)) && FaultsNamed(Some(k))
            && Generations(s.data, s.starts, Some(k))
            && (k.tid in s.callers ==> k.pc == InCallback)
  {
    hide CommandsInOrder, StopNotLost, FaultsInStep, FaultsNamed, Generations, Endings, FitsRollback, FitsDestruction;
    TheWorker(s, w);
    var k := s.workers[w];
    if k.tid in s.callers {
      assert Fits(AroundOf(s), k.tid, s.callers[k.tid]);
    }
    if s.lock.Some? {
      assert Fits(AroundOf(s), s.lock.value, s.callers[s.lock.value]);
    }
  }

  predicate SameGenerations(d: Data, d': Data) {
    d' == d.(state := d'.state, rest := d'.rest)
  }

  /** A step that moves on and at most writes the state and fields without invariant. */
  lemma PlainKeeps(s: State, w: nat, pc: WorkerPc, d: Data)
    requires Inv(s) && w in s.workers && s.workers[w].tid !in s.callers
    requires SameGenerations(s.data, d) && (d.state == Faulted <==> s.data.state == Faulted)
    requires var was := s.workers[w].pc;
             && (ExitedPc(was) <==> ExitedPc(pc)) && (RetiredPc(was) ==> RetiredPc(pc))
             && (StreamingPc(pc) ==> StreamingPc(was)) && (SessionPc(was) ==> SessionPc(pc))
    requires FaultsNamed(Some(s.workers[w].(pc := pc)))
    ensures Inv(At(s, w, pc).(data := d))
  {
    hide Inv, Heard, ExitedPc, RetiredPc, StreamingPc, SessionPc, FaultsNamed;
    Before(s, w);
    var s' := At(s, w, pc).(data := d);
    WorkerKeeps(s, s', w, s.workers[w].(pc := pc));
  }

  /** The same, for the steps that touch no data. */
  lemma MoveKeeps(s: State, w: nat, pc: WorkerPc)
    requires Inv(s) && w in s.workers && s.workers[w].tid !in s.callers
    requires var was := s.workers[w].pc;
             && (ExitedPc(was) <==> ExitedPc(pc)) && (RetiredPc(was) ==> RetiredPc(pc))
             && (StreamingPc(pc) ==> StreamingPc(was)) && (SessionPc(was) ==> SessionPc(pc))
    requires FaultsNamed(Some(s.workers[w].(pc := pc)))
    ensures Inv(At(s, w, pc))
  {
    hide Inv, ExitedPc, RetiredPc, StreamingPc, SessionPc, FaultsNamed;
    PlainKeeps(s, w, pc, s.data);
    assert At(s, w, pc).(data := s.data) == At(s, w, pc);
  }

  /** Where the program counters around a session belong. */
  lemma Kinds()
    ensures !ExitedPc(Linking) && !ExitedPc(Commanding) && !ExitedPc(Resetting) && !ExitedPc(Retiring)
            && !ExitedPc(Exiting) && !ExitedPc(Escaping) && ExitedPc(Settling) && ExitedPc(Done)
    ensures !RetiredPc(Linking) && !RetiredPc(Commanding) && !RetiredPc(Escaping)
            && RetiredPc(Retiring) && RetiredPc(Exiting) && RetiredPc(Settling) && RetiredPc(Done)
    ensures !SessionPc(Linking) && !SessionPc(Commanding) && SessionPc(Resetting) && SessionPc(Escaping)
            && SessionPc(Retiring) && !SessionPc(Exiting) && !SessionPc(Settling) && !SessionPc(Done)
    ensures !StreamingPc(Linking) && !StreamingPc(Commanding) && !StreamingPc(Retiring) && !StreamingPc(Exiting)
            && !StreamingPc(Settling) && !StreamingPc(Done)
  {
  }

  lemma KindsOf(pc: WorkerPc)
    requires pc.Failing? || pc.Closing? || pc.Judging?
    ensures !ExitedPc(pc) && !RetiredPc(pc) && !StreamingPc(pc) && (SessionPc(pc) <==> !pc.Judging?)
  {
  }

  /** A worker's step, seen from the callers. */
  predicate MovedTo(s: State, s': State, w: nat, pc: WorkerPc)
    requires w in s.workers
  {
    SameOutside(s, s') && s'.workers == s.workers[w := s.workers[w].(pc := pc)]
  }

  predicate SameWires(s: State, s': State) {
    s'.attempts == s.attempts && s'.sessionStarted == s.sessionStarted && s'.shutdownRequested == s.shutdownRequested
  }

  predicate SameFaults(s: State, s': State) {
    s'.exited == s.exited && s'.latch == s.latch && s'.data == s.data
  }

  // ----- what moving on does to the parts

  lemma PcMoves(latch: FaultCode, d: Data, starts: nat, k: Worker, pc: WorkerPc)
    requires FaultsInStep(false, latch, d, Some(k)) && Generations(d, starts, Some(k))
    requires RetiredPc(k.pc) ==> RetiredPc(pc)
    ensures FaultsInStep(false, latch, d, Some(k.(pc := pc))) && Generations(d, starts, Some(k.(pc := pc)))
  {
    hide Coherent, GenerationTells, RetiredPc;
  }

  lemma WiresMove(attempts: seq<Attempt>, stopping: bool, started: bool, flag: bool, k: Worker, pc: WorkerPc)
    requires CommandsInOrder(attempts, started, Some(k)) && StopNotLost(stopping, started, flag, Some(k))
    requires (SessionPc(k.pc) ==> SessionPc(pc)) && !StreamingPc(pc)
    ensures CommandsInOrder(attempts, started, Some(k.(pc := pc)))
    ensures forall now :: StopNotLost(stopping, started, now, Some(k.(pc := pc)))
  {
    hide Heard, SessionPc, StreamingPc;
  }

  lemma LinkedState(s: State, w: nat)
    requires w in s.workers
    ensures var s' := At(s, w, Commanding).(shutdownRequested := false);
            && MovedTo(s, s', w, Commanding) && SameFaults(s, s') && !s'.shutdownRequested
            && s'.attempts == s.attempts && s'.sessionStarted == s.sessionStarted
  {
  }

  lemma LinkingKeeps(s: State, w: nat)
    requires Inv(s) && w in s.workers && s.workers[w].pc == Linking
    ensures Inv(At(s, w, Commanding).(shutdownRequested := false))
  {
    hide Inv, CommandsInOrder, StopNotLost, FaultsInStep, Generations, ExitedPc, RetiredPc, SessionPc, StreamingPc,
         At;
    var k := s.workers[w];
    Kinds();
    Before(s, w);
    WiresMove(s.attempts, s.stopping, s.sessionStarted, s.shutdownRequested, k, Commanding);
    PcMoves(s.latch, s.data, s.starts, k, Commanding);
    LinkedState(s, w);
    WorkerKeeps(s, At(s, w, Commanding).(shutdownRequested := false), w, k.(pc := Commanding));
  }

  lemma StartInOrder(attempts: seq<Attempt>, started: bool, k: Worker, k': Worker, ok: bool)
    requires CommandsInOrder(attempts, started, Some(k)) && !SessionPc(k.pc) && SessionPc(k'.pc)
    ensures CommandsInOrder(attempts + [Attempt(WireStart, ok)], ok, Some(k'))
  {
    hide Heard, SessionPc;
    HeardNext(attempts, Attempt(WireStart, ok));
  }

  lemma NoStopToLose(started: bool, flag: bool, k: Worker, started': bool, flag': bool, pc: WorkerPc)
    requires StopNotLost(false, started, flag, Some(k))
    ensures StopNotLost(false, started', flag', Some(k.(pc := pc)))
  {
  }

  lemma StartedState(s: State, w: nat, pc: WorkerPc, ok: bool)
    requires w in s.workers
    ensures var s' := At(s, w, pc).(attempts := s.attempts + [Attempt(WireStart, ok)], sessionStarted := ok);
            && MovedTo(s, s', w, pc) && SameFaults(s, s') && s'.shutdownRequested == s.shutdownRequested
            && s'.attempts == s.attempts + [Attempt(WireStart, ok)] && s'.sessionStarted == ok
  {
  }

  /** The start command goes out only if no stop is visible, under the lock a stop takes to end a session: so a stop
      that got there first silences it, and one that comes later finds the session started. */
  lemma CommandingKeeps(s: State, w: nat, ok: bool)
    requires Inv(s) && w in s.workers && s.workers[w].pc == Commanding && !s.stopping
    ensures Inv(At(s, w, if ok then Resetting else Failing(SocketFault)).(
                  attempts := s.attempts + [Attempt(WireStart, ok)], sessionStarted := ok))
  {
    hide Inv, CommandsInOrder, StopNotLost, FaultsInStep, Generations, ExitedPc, RetiredPc, SessionPc, StreamingPc,
         At;
    var k := s.workers[w];
    Kinds();
    var pc := if ok then Resetting else Failing(SocketFault);
    KindsOf(Failing(SocketFault));
    Before(s, w);
    StartInOrder(s.attempts, s.sessionStarted, k, k.(pc := pc), ok);
    NoStopToLose(s.sessionStarted, s.shutdownRequested, k, ok, s.shutdownRequested, pc);
    PcMoves(s.latch, s.data, s.starts, k, pc);
    StartedState(s, w, pc, ok);
    WorkerKeeps(s, At(s, w, pc).(attempts := s.attempts + [Attempt(WireStart, ok)], sessionStarted := ok), w,
                k.(pc := pc));
  }

  lemma Delivers(latch: FaultCode, d: Data, starts: nat, k: Worker, pc: WorkerPc, rest: int)
    requires FaultsInStep(false, latch, d, Some(k)) && Generations(d, starts, Some(k)) && !RetiredPc(k.pc)
    ensures var d' := d.(latest := Some(k.serial), deliveredGeneration := d.generation, rest := rest);
            FaultsInStep(false, latch, d', Some(k.(pc := pc))) && Generations(d', starts, Some(k.(pc := pc)))
  {
    hide RetiredPc;
  }

  lemma FinishingKeeps(s: State, w: nat, c: Choice)
    requires Inv(s) && w in s.workers && s.workers[w].pc == Finishing && AfterRecord(c.after)
    ensures Inv(FinishingNext(s, w, c))
  {
    hide Inv, Heard, FaultsInStep, Generations;
    var k := s.workers[w];
    Before(s, w);
    Delivers(s.latch, s.data, s.starts, k, c.after, c.rest);
    WorkerKeeps(s, FinishingNext(s, w, c), w, k.(pc := c.after));
  }

  lemma CloseInOrder(attempts: seq<Attempt>, stopping: bool, started: bool, flag: bool, k: Worker, pc: WorkerPc,
                     ok: bool)
    requires CommandsInOrder(attempts, started, Some(k)) && StopNotLost(stopping, started, flag, Some(k))
    ensures CommandsInOrder(if started then attempts + [Attempt(WireStop, ok)] else attempts, false, Some(k.(pc := pc)))
    ensures StopNotLost(stopping, false, true, Some(k.(pc := pc)))
  {
    hide Heard, SessionPc, StreamingPc;
    HeardNext(attempts, Attempt(WireStop, ok));
  }

  lemma ClosedState(s: State, w: nat, pc: WorkerPc, ok: bool)
    requires w in s.workers
    ensures var s' := CloseSession(At(s, w, pc), ok);
            && MovedTo(s, s', w, pc) && SameFaults(s, s') && s'.shutdownRequested && !s'.sessionStarted
            && s'.attempts == if s.sessionStarted then s.attempts + [Attempt(WireStop, ok)] else s.attempts
  {
  }

  /** `close_session`, at the end of a session and again when the worker retires. */
  lemma CloseKeeps(s: State, w: nat, pc: WorkerPc, ok: bool)
    requires Inv(s) && w in s.workers
    requires (s.workers[w].pc == Retiring && pc == Exiting)
             || (s.workers[w].pc.Closing? && pc == Judging(s.workers[w].pc.outcome))
    ensures Inv(CloseSession(At(s, w, pc), ok))
  {
    hide Inv, CommandsInOrder, StopNotLost, FaultsInStep, Generations, ExitedPc, RetiredPc, SessionPc, StreamingPc,
         At, CloseSession;
    var k := s.workers[w];
    Kinds();
    if k.pc.Closing? {
      KindsOf(k.pc);
      KindsOf(pc);
    }
    Before(s, w);
    CloseInOrder(s.attempts, s.stopping, s.sessionStarted, s.shutdownRequested, k, pc, ok);
    PcMoves(s.latch, s.data, s.starts, k, pc);
    ClosedState(s, w, pc, ok);
    WorkerKeeps(s, CloseSession(At(s, w, pc), ok), w, k.(pc := pc));
  }

  lemma Latches(latch: FaultCode, d: Data, starts: nat, k: Worker, f: FaultCode)
    requires FaultsInStep(false, latch, d, Some(k)) && Generations(d, starts, Some(k)) && !RetiredPc(k.pc)
    ensures var d' := if f != NoFault then d.(state := Faulted, faultCode := f) else d;
            FaultsInStep(false, f, d', Some(k.(pc := Retiring))) && Generations(d', starts, Some(k.(pc := Retiring)))
    ensures latch == NoFault
  {
    Kinds();
    hide RetiredPc;
  }

  lemma PublishedState(s: State, w: nat, f: FaultCode)
    requires w in s.workers
    ensures var s' := Publish(At(s, w, Retiring), f);
            && MovedTo(s, s', w, Retiring) && SameWires(s, s') && s'.exited == s.exited
            && (s.latch == NoFault ==> s'.latch == f)
            && (s.latch == NoFault && f == NoFault ==> s'.data == s.data)
            && (s.latch == NoFault && f != NoFault ==> s'.data == s.data.(state := Faulted, faultCode := f))
  {
  }

  lemma PublishKeeps(s: State, w: nat, f: FaultCode)
    requires Inv(s) && w in s.workers && (s.workers[w].pc.Judging? || s.workers[w].pc == Escaping)
    ensures Inv(Publish(At(s, w, Retiring), f))
  {
    hide Inv, CommandsInOrder, StopNotLost, FaultsInStep, Generations, ExitedPc, RetiredPc, SessionPc, StreamingPc,
         At, Publish;
    var k := s.workers[w];
    Kinds();
    if k.pc.Judging? {
      KindsOf(k.pc);
    }
    Before(s, w);
    WiresMove(s.attempts, s.stopping, s.sessionStarted, s.shutdownRequested, k, Retiring);
    Latches(s.latch, s.data, s.starts, k, f);
    PublishedState(s, w, f);
    WorkerKeeps(s, Publish(At(s, w, Retiring), f), w, k.(pc := Retiring));
  }

  lemma ExitedState(s: State, w: nat)
    requires w in s.workers
    ensures var s' := At(s, w, Settling).(exited := true);
            && MovedTo(s, s', w, Settling) && SameWires(s, s') && s'.exited && s'.latch == s.latch && s'.data == s.data
  {
  }

  lemma ExitingKeeps(s: State, w: nat)
    requires Inv(s) && w in s.workers && s.workers[w].pc == Exiting
    ensures Inv(At(s, w, Settling).(exited := true))
  {
    hide Inv, CommandsInOrder, StopNotLost, FaultsInStep, Generations, ExitedPc, RetiredPc, SessionPc, StreamingPc,
         At;
    var k := s.workers[w];
    Kinds();
    Before(s, w);
    WiresMove(s.attempts, s.stopping, s.sessionStarted, s.shutdownRequested, k, Settling);
    PcMoves(s.latch, s.data, s.starts, k, Settling);
    ExitedState(s, w);
    WorkerKeeps(s, At(s, w, Settling).(exited := true), w, k.(pc := Settling));
  }

  lemma Settles(latch: FaultCode, d: Data, starts: nat, k: Worker)
    requires FaultsInStep(false, latch, d, Some(k)) && Generations(d, starts, Some(k))
    ensures var d' := if latch == NoFault then d.(state := Idle) else d;
            FaultsInStep(false, latch, d', Some(k.(pc := Done))) && Generations(d', starts, Some(k.(pc := Done)))
  {
    Kinds();
    hide RetiredPc;
  }

  lemma SettledState(s: State, w: nat)
    requires w in s.workers
    ensures var s' := MarkStopped(At(s, w, Done));
            && MovedTo(s, s', w, Done) && SameWires(s, s') && s'.exited == s.exited && s'.latch == s.latch
            && s'.data == if s.latch == NoFault then s.data.(state := Idle) else s.data
  {
  }

  lemma SettlingKeeps(s: State, w: nat)
    requires Inv(s) && w in s.workers && s.workers[w].pc == Settling
    ensures Inv(MarkStopped(At(s, w, Done)))
  {
    hide Inv, CommandsInOrder, StopNotLost, FaultsInStep, Generations, ExitedPc, RetiredPc, SessionPc, StreamingPc,
         At, MarkStopped;
    var k := s.workers[w];
    Kinds();
    Before(s, w);
    WiresMove(s.attempts, s.stopping, s.sessionStarted, s.shutdownRequested, k, Done);
    Settles(s.latch, s.data, s.starts, k);
    SettledState(s, w);
    WorkerKeeps(s, MarkStopped(At(s, w, Done)), w, k.(pc := Done));
  }
}
