/** Steps of the threads that call start, stop and the destructors keep the invariant. */
module CallerSteps {
  import opened Protocol
  import opened Session
  import opened Lifecycle
  import opened LifecycleInvariant

  /** What only its holder changes. */
  predicate Owned(was: Option<Tid>, now: Option<Tid>, t: Tid) {
    now == was || (Mine(was, t) && Mine(now, t))
  }

  predicate Mine(holder: Option<Tid>, t: Tid) {
    holder.None? || holder == Some(t)
  }

  /** A joined worker was not in its callback; a new one is created only while nobody destroys the client. */
  predicate WorkerUndisturbed(a: Around, a': Around) {
    || (TidOf(a'.worker) == TidOf(a.worker) && (a'.worker.Some? ==> a'.worker.value.pc == a.worker.value.pc))
    || (a'.worker.None? && a.worker.value.pc != InCallback)
    || (a.worker.None? && a.owner.None? && a.gone == Present)
  }

  /** A step of `t` that leaves every other call in place. */
  predicate Undisturbed(a: Around, a': Around, t: Tid) {
    && Owned(a.lock, a'.lock, t) && Owned(a.joiner, a'.joiner, t)
    && (a'.joiner == a.joiner || a'.joiner.None? || Mine(a.lock, t))
    && (a'.current == a.current || (Mine(a.joiner, t) && (a'.current.None? || Mine(a.lock, t))))
    && (a'.handle == a.handle || Mine(a.lock, t))
    && ((a'.now == a.now && a'.starts == a.starts) || Mine(a.lock, t))
    && a'.owner == a.owner && a'.gone == a.gone
    && WorkerUndisturbed(a, a')
  }

  lemma Persists(a: Around, a': Around, t: Tid, u: Tid, pc: CallerPc)
    requires Fits(a, u, pc) && u != t && Undisturbed(a, a', t)
    requires a.worker.None? ==> TidOf(a'.worker) != Some(u)
    ensures Fits(a', u, pc)
  {
  }

  ghost predicate SameOthers(callers: Callers, callers': Callers, t: Tid) {
    forall u :: u != t ==> (u in callers' <==> u in callers) && (u in callers ==> callers'[u] == callers[u])
  }

  lemma OthersFit(a: Around, a': Around, t: Tid, callers: Callers, callers': Callers)
    requires CallersFit(a, callers) && SameOthers(callers, callers', t) && Undisturbed(a, a', t)
    requires a.worker.None? && a'.worker.Some? ==> a'.worker.value.tid !in callers && a'.worker.value.tid != t
    requires t in callers' ==> Fits(a', t, callers'[t])
    ensures CallersFit(a', callers')
  {
    hide Fits, Undisturbed;
    forall u | u in callers' ensures Fits(a', u, callers'[u]) {
      if u != t {
        Persists(a, a', t, u, callers[u]);
      }
    }
  }

  lemma CallKeeps(s: State, s': State, t: Tid)
    requires Inv(s)
    requires SameOthers(s.callers, s'.callers, t) && Undisturbed(AroundOf(s), AroundOf(s'), t)
    requires var k := Cur(s'.workers, s'.current);
             Cur(s.workers, s.current).None? && k.Some? ==> k.value.tid !in s.callers && k.value.tid != t
    requires t in s'.callers ==> Fits(AroundOf(s'), t, s'.callers[t])
    requires Threads(s') && Wires(s') && Faults(s') && Endings(s')
    ensures Inv(s')
  {
    hide Fits, Undisturbed, SameOthers, Threads, Wires, Faults, Endings, Cur;
    OthersFit(AroundOf(s), AroundOf(s'), t, s.callers, s'.callers);
  }

  /** What is known where a call's step starts. */
  lemma AtCall(s: State, t: Tid)
    requires Inv(s)
    ensures Threads(s) && Wires(s) && Faults(s) && Endings(s)
    ensures t in s.callers ==> Fits(AroundOf(s), t, s.callers[t])
  {
    hide Fits, Threads, Wires, Faults, Endings;
  }

  predicate Ordinary(lockPc: Option<CallerPc>) {
    lockPc.Some? ==> !CreatingPc(lockPc.value) && !lockPc.value.StartPublishing?
  }

  /** The bookkeeping between two calls' sections: only the caller's own program counter and the lock move. */
  lemma PassKeeps(s: State, s': State, t: Tid)
    requires Inv(s) && (t in s.callers || !s.freed)
    requires s' == s.(callers := s'.callers, lock := s'.lock)
    requires SameOthers(s.callers, s'.callers, t) && Owned(s.lock, s'.lock, t)
    requires Holders(s'.lock, s.joiner, s.owner, s'.callers)
    requires var was, now := LockPc(s.lock, s.callers), LockPc(s'.lock, s'.callers);
             now == was || (Ordinary(was) && Ordinary(now))
    requires t in s'.callers ==> Fits(AroundOf(s'), t, s'.callers[t])
    ensures Inv(s')
  {
    hide Inv, CallersFit, SameOthers, CommandsInOrder, StopNotLost, Generations, Coherent, FaultsNamed, JoinedOnce,
         OneWorker, Holders, Fits, LockPc, Cur;
    AtCall(s, t);
    CallKeeps(s, s', t);
  }

  /** Whether it is the worker's own thread that is in a call is what the test of the published id says. */
  lemma OwnThread(s: State, t: Tid)
    requires Inv(s) && t in s.callers && Mine(s.lock, t) && !CreatingPc(s.callers[t]) && !s.callers[t].StartPublishing?
    ensures OnWorkerThread(s, t) <==> TidOf(Cur(s.workers, s.current)) == Some(t)
  {
    hide CallersFit, Wires, Faults, Endings, OneWorker, FitsRollback, FitsDestruction, Cur;
    AtCall(s, t);
  }

  lemma StartThrowsKeeps(s: State, t: Tid)
    requires Inv(s)
    requires t in s.callers && s.callers[t] in {StartEntry, StartAwaitJoin} && s.lock.None?
    ensures Inv(Leave(s, t))
  {
    hide Inv, CallersFit, Wires, Faults, Endings, OneWorker, IdPublished, FitsRollback;
    AtCall(s, t);
    PassKeeps(s, Leave(s, t), t);
  }

  predicate Passes(s: State, s': State) {
    s' == s.(callers := s'.callers, lock := s'.lock)
  }

  /** The same for a call that goes on. */
  lemma ReplaceKeeps(s: State, s': State, t: Tid, pc: CallerPc)
    requires Inv(s) && t in s.callers && Passes(s, s')
    requires s'.callers == s.callers[t := pc] && Mine(s.lock, t) && Mine(s'.lock, t)
    requires !CreatingPc(s.callers[t]) && !s.callers[t].StartPublishing? && !CreatingPc(pc) && !pc.StartPublishing?
    requires Fits(AroundOf(s).(lock := s'.lock), t, pc)
    ensures Inv(s')
  {
    hide Inv, CallersFit, Wires, Faults, Endings, OneWorker, IdPublished, Fits, CreatingPc;
    AtCall(s, t);
    PassKeeps(s, s', t);
  }

  lemma Replaced(s: State, t: Tid, pc: CallerPc)
    ensures var s' := Move(s, t, pc); Passes(s, s') && s'.callers == s.callers[t := pc] && s'.lock == s.lock
    ensures var s' := Move(s, t, pc).(lock := None);
            Passes(s, s') && s'.callers == s.callers[t := pc] && s'.lock == None
  {
  }

  predicate StartPc(pc: CallerPc) {
    pc.StartEntry? || pc.StartAwaitJoin? || pc.StartAwaitExit?
  }

  lemma StartPcFits(a: Around, t: Tid, pc: CallerPc, pc': CallerPc)
    requires Fits(a, t, pc) && StartPc(pc) && StartPc(pc') && (TidOf(a.worker) == Some(t) ==> pc'.StartEntry?)
    ensures Fits(a, t, pc')
  {
  }

  lemma StartMovesKeeps(s: State, t: Tid, pc: CallerPc)
    requires Inv(s) && t in s.callers && s.lock.None? && StartPc(s.callers[t]) && StartPc(pc)
    requires !OnWorkerThread(s, t) || pc.StartEntry?
    ensures Inv(Move(s, t, pc))
  {
    hide Inv, Threads, Wires, Faults, Endings, Fits, OnWorkerThread, Move, Passes, Cur;
    AtCall(s, t);
    OwnThread(s, t);
    StartPcFits(AroundOf(s), t, s.callers[t], pc);
    Replaced(s, t, pc);
    ReplaceKeeps(s, Move(s, t, pc), t, pc);
  }

  lemma StopWaitsFits(a: Around, t: Tid, n: Then)
    requires Fits(a, t, StopDeciding(n)) && TidOf(a.worker) != Some(t)
    ensures Fits(a.(lock := None), t, StopAwaitJoin(n))
    ensures a.lock == Some(t)
  {
  }

  lemma StopWaitsKeeps(s: State, t: Tid, n: Then)
    requires Inv(s)
    requires t in s.callers && s.callers[t] == StopDeciding(n) && !OnWorkerThread(s, t)
    ensures Inv(Move(s, t, StopAwaitJoin(n)).(lock := None))
  {
    hide Inv, Threads, Wires, Faults, Endings, Fits, OnWorkerThread, Move, Passes, Cur;
    AtCall(s, t);
    DecidingHolds(s, t);
    OwnThread(s, t);
    StopWaitsFits(AroundOf(s), t, n);
    Replaced(s, t, StopAwaitJoin(n));
    ReplaceKeeps(s, Move(s, t, StopAwaitJoin(n)).(lock := None), t, StopAwaitJoin(n));
  }

  lemma DecidingHolds(s: State, t: Tid)
    requires Inv(s) && t in s.callers && s.callers[t].StopDeciding?
    ensures s.lock == Some(t)
  {
    hide CallersFit, Threads, Wires, Faults, Endings, FitsCallback, FitsRollback, FitsDestruction;
    AtCall(s, t);
  }

  lemma StopRetriesFits(a: Around, t: Tid, n: Then)
    requires Fits(a, t, StopAwaitJoin(n))
    ensures Fits(a, t, StopEntry(n))
  {
  }

  lemma StopRetriesKeeps(s: State, t: Tid, n: Then)
    requires Inv(s)
    requires t in s.callers && s.callers[t] == StopAwaitJoin(n) && s.lock.None?
    ensures Inv(Move(s, t, StopEntry(n)))
  {
    hide Inv, Threads, Wires, Faults, Endings, Fits, Move, Passes, Cur;
    AtCall(s, t);
    StopRetriesFits(AroundOf(s), t, n);
    Replaced(s, t, StopEntry(n));
    ReplaceKeeps(s, Move(s, t, StopEntry(n)), t, StopEntry(n));
  }

  lemma DestroyStopsFits(a: Around, t: Tid, n: Then)
    requires Fits(a, t, DestroyEntry) && n == if TidOf(a.worker) == Some(t) then Defer else Again
    ensures Fits(a, t, StopEntry(n))
  {
  }

  lemma DestroyEntryKeeps(s: State, t: Tid)
    requires Inv(s)
    requires t in s.callers && s.callers[t] == DestroyEntry && s.lock.None?
    ensures Inv(DestroyEntryNext(s, t))
  {
    hide Inv, Threads, Wires, Faults, Endings, Fits, OnWorkerThread, Move, Passes, Cur;
    var n := if OnWorkerThread(s, t) then Defer else Again;
    AtCall(s, t);
    OwnThread(s, t);
    DestroyStopsFits(AroundOf(s), t, n);
    Replaced(s, t, StopEntry(n));
    ReplaceKeeps(s, Move(s, t, StopEntry(n)), t, StopEntry(n));
  }

  lemma HandleTaken(s: State, t: Tid, pc: CallerPc)
    ensures var s' := TakeHandle(s, t, pc);
            && s' == s.(callers := s'.callers, lock := None, joining := true, joiner := Some(t), handle := None)
            && s'.callers == s.callers[t := pc]
  {
  }

  lemma LockPcIs(lock: Option<Tid>, callers: Callers, t: Tid)
    requires t in callers && Mine(lock, t) && !CreatingPc(callers[t]) && !callers[t].StartPublishing?
    ensures Ordinary(LockPc(lock, callers))
  {
  }

  lemma IdStays(exited: bool, active: Option<Tid>, joiner: Option<Tid>, lockPc: Option<CallerPc>, k: Option<Worker>,
                joiner': Option<Tid>)
    requires IdPublished(exited, active, joiner, lockPc, k) && Ordinary(lockPc) && joiner'.Some?
    ensures IdPublished(exited, active, joiner', None, k)
  {
  }

  lemma LatchStays(latch: FaultCode, d: Data, lockPc: Option<CallerPc>, k: Option<Worker>)
    requires FaultsInStep(Restoring(lockPc), latch, d, k) && Ordinary(lockPc)
    ensures FaultsInStep(Restoring(None), latch, d, k)
  {
    hide Coherent;
  }

  lemma TakesKeeps(s: State, s': State, t: Tid, w: nat, pc: CallerPc)
    requires Inv(s) && t in s.callers && s.handle == Some(w) && !s.joining && Mine(s.lock, t)
    requires !CreatingPc(s.callers[t]) && !s.callers[t].StartPublishing?
    requires s' == s.(callers := s.callers[t := pc], lock := None, joining := true, joiner := Some(t), handle := None)
    requires Fits(AroundOf(s'), t, pc)
    ensures Inv(s')
  {
    hide Inv, CallersFit, CommandsInOrder, StopNotLost, Generations, FaultsInStep, FaultsNamed, JoinedOnce, Fits,
         CreatingPc, IdPublished, Cur;
    AtCall(s, t);
    LockPcIs(s.lock, s.callers, t);
    IdStays(s.exited, s.active, s.joiner, LockPc(s.lock, s.callers), Cur(s.workers, s.current), Some(t));
    LatchStays(s.latch, s.data, LockPc(s.lock, s.callers), Cur(s.workers, s.current));
    CallKeeps(s, s', t);
  }

  lemma TakesFits(a: Around, t: Tid, pc: CallerPc, pc': CallerPc, w: nat)
    requires Fits(a, t, pc) && Mine(a.lock, t) && a.current == Some(w) && TidOf(a.worker) != Some(t)
    requires (pc in {StartEntry, StartAwaitJoin} && pc' == StartJoining(w))
             || (pc.StopDeciding? && pc' == StopJoining(pc.next, w))
    ensures Fits(a.(lock := None, joiner := Some(t), handle := None), t, pc')
  {
  }

  /** The stored handle is the worker's. */
  lemma HandleIsCurrent(s: State)
    requires Inv(s) && s.handle.Some?
    ensures s.current == s.handle && Cur(s.workers, s.current).Some? && s.joiner.None?
  {
    hide CallersFit, Wires, Faults, Endings, Holders, IdPublished;
    assert s.handle.value in s.workers.Keys;
  }

  lemma StartTakesKeeps(s: State, t: Tid, w: nat)
    requires Inv(s)
    requires t in s.callers && s.callers[t] in {StartEntry, StartAwaitJoin} && s.lock.None? && s.handle == Some(w)
             && s.exited && !s.joining
    ensures Inv(TakeHandle(s, t, StartJoining(w)))
  {
    hide Inv, Threads, Wires, Faults, Endings, Fits, TakeHandle, Cur;
    AtCall(s, t);
    HandleIsCurrent(s);
    OwnThread(s, t);
    HandleTaken(s, t, StartJoining(w));
    TakesFits(AroundOf(s), t, s.callers[t], StartJoining(w), w);
    TakesKeeps(s, TakeHandle(s, t, StartJoining(w)), t, w, StartJoining(w));
  }

  lemma StopTakesKeeps(s: State, t: Tid, n: Then, w: nat)
    requires Inv(s)
    requires t in s.callers && s.callers[t] == StopDeciding(n) && s.handle == Some(w) && !OnWorkerThread(s, t)
             && !s.joining
    ensures Inv(TakeHandle(s, t, StopJoining(n, w)))
  {
    hide Inv, Threads, Wires, Faults, Endings, Fits, TakeHandle, OnWorkerThread, Cur;
    AtCall(s, t);
    DecidingHolds(s, t);
    HandleIsCurrent(s);
    OwnThread(s, t);
    HandleTaken(s, t, StopJoining(n, w));
    TakesFits(AroundOf(s), t, s.callers[t], StopJoining(n, w), w);
    TakesKeeps(s, TakeHandle(s, t, StopJoining(n, w)), t, w, StopJoining(n, w));
  }

  lemma StartArmsKeeps(s: State, t: Tid)
    requires Inv(s)
    requires t in s.callers && s.callers[t] in {StartEntry, StartAwaitJoin} && s.lock.None? && s.handle.None?
             && !s.joining
    ensures Inv(Arm(s, t))
  {
    hide Inv, CallersFit, CommandsInOrder, StopNotLost, JoinedOnce;
    AtCall(s, t);
    CallKeeps(s, Arm(s, t), t);
  }

  lemma StartArmingKeeps(s: State, t: Tid, e: Snapshot, callback: int)
    requires Inv(s)
    requires t in s.callers && s.callers[t] == StartArming(e)
    ensures Inv(StartArmingNext(s, t, e, callback))
  {
    hide Inv, CallersFit, CommandsInOrder, JoinedOnce, Generations, Coherent, FaultsNamed;
    AtCall(s, t);
    CallKeeps(s, StartArmingNext(s, t, e, callback), t);
  }

  lemma StartFailsKeeps(s: State, t: Tid, e: Snapshot)
    requires Inv(s)
    requires t in s.callers && s.callers[t] == StartCreating(e)
    ensures Inv(Move(s, t, RollbackFlags(e)))
  {
    hide Inv, CallersFit, CommandsInOrder, StopNotLost, Generations, Coherent, FaultsNamed, JoinedOnce;
    AtCall(s, t);
    CallKeeps(s, Move(s, t, RollbackFlags(e)), t);
  }

  lemma StartPublishesKeeps(s: State, t: Tid)
    requires Inv(s)
    requires t in s.callers && s.callers[t] == StartPublishing
    ensures Inv(StartPublishingNext(s, t))
  {
    hide Inv, CallersFit, CommandsInOrder, StopNotLost, Generations, Coherent, FaultsNamed, JoinedOnce;
    AtCall(s, t);
    CallKeeps(s, StartPublishingNext(s, t), t);
  }

  lemma StartJoinedKeeps(s: State, t: Tid)
    requires Inv(s)
    requires t in s.callers && s.callers[t] == StartJoined && s.lock.None?
    ensures Inv(StartJoinedNext(s, t))
  {
    hide Inv, CallersFit, CommandsInOrder, StopNotLost, Generations, Coherent, FaultsNamed, JoinedOnce;
    AtCall(s, t);
    CallKeeps(s, StartJoinedNext(s, t), t);
  }

  lemma RollbackFlagsKeeps(s: State, t: Tid, e: Snapshot)
    requires Inv(s)
    requires t in s.callers && s.callers[t] == RollbackFlags(e)
    ensures Inv(RollbackFlagsNext(s, t, e))
  {
    hide Inv, CallersFit, CommandsInOrder, JoinedOnce, Generations, Coherent, FaultsNamed;
    AtCall(s, t);
    CallKeeps(s, RollbackFlagsNext(s, t, e), t);
  }

  lemma RollbackDataKeeps(s: State, t: Tid, e: Snapshot)
    requires Inv(s)
    requires t in s.callers && s.callers[t] == RollbackData(e)
    ensures Inv(RollbackDataNext(s, t, e))
  {
    hide Inv, CallersFit, CommandsInOrder, StopNotLost, JoinedOnce, Coherent, FaultsNamed;
    AtCall(s, t);
    CallKeeps(s, RollbackDataNext(s, t, e), t);
  }

  lemma RollbackLatchKeeps(s: State, t: Tid, e: Snapshot)
    requires Inv(s)
    requires t in s.callers && s.callers[t] == RollbackLatch(e)
    ensures Inv(RollbackLatchNext(s, t, e))
  {
    hide Inv, CallersFit, CommandsInOrder, StopNotLost, JoinedOnce, Coherent, FaultsNamed, Generations;
    AtCall(s, t);
    CallKeeps(s, RollbackLatchNext(s, t, e), t);
  }

  lemma RollbackFaultKeeps(s: State, t: Tid, e: Snapshot)
    requires Inv(s)
    requires t in s.callers && s.callers[t] == RollbackFault(e)
    ensures Inv(RollbackFaultNext(s, t, e))
  {
    hide Inv, CallersFit, CommandsInOrder, StopNotLost, JoinedOnce, FaultsNamed;
    AtCall(s, t);
    CallKeeps(s, RollbackFaultNext(s, t, e), t);
  }

  lemma StopBegun(s: State, t: Tid, n: Then)
    ensures var s' := StopEntryNext(s, t, n);
            && s' == s.(callers := s'.callers, lock := Some(t), stopping := true)
            && s'.callers == s.callers[t := StopCommanding(n)]
  {
  }

  lemma StopEntryKeeps(s: State, t: Tid, n: Then)
    requires Inv(s)
    requires t in s.callers && s.callers[t] == StopEntry(n) && s.lock.None?
    ensures Inv(StopEntryNext(s, t, n))
  {
    hide Inv, CallersFit, CommandsInOrder, JoinedOnce, Destruction, OneWorker, Generations, Coherent, FaultsNamed, Fits,
         StopEntryNext;
    AtCall(s, t);
    StopEntryFits(AroundOf(s), t, n);
    StopBegun(s, t, n);
    CallKeeps(s, StopEntryNext(s, t, n), t);
  }

  lemma StopEntryFits(a: Around, t: Tid, n: Then)
    requires Fits(a, t, StopEntry(n)) && a.lock.None?
    ensures Fits(a.(lock := Some(t), now := a.now.(stopping := true)), t, StopCommanding(n))
  {
  }

  lemma StartCreatingFits(a: Around, t: Tid, e: Snapshot, w: nat, k: Worker)
    requires Fits(a, t, StartCreating(e)) && k.tid != t
    ensures Fits(a.(handle := Some(w), current := Some(w), worker := Some(k)), t, StartPublishing)
  {
  }

  lemma JoinedState(s: State, t: Tid, w: nat, pc: CallerPc)
    ensures var s' := Move(Joined(s, w), t, pc);
            && s' == s.(callers := s'.callers, workers := s.workers - {w}, joined := s.joined + multiset{w},
                        current := None)
            && s'.callers == s.callers[t := pc]
  {
  }

  /** A worker that is done leaves nothing behind. */
  lemma DoneIsQuiet(s: State, w: nat)
    requires Threads(s) && Wires(s) && Faults(s) && w in s.workers && s.workers[w].pc == Done
    ensures s.exited && CommandsInOrder(s.attempts, s.sessionStarted, None)
    ensures StopNotLost(s.stopping, s.sessionStarted, s.shutdownRequested, None)
    ensures FaultsInStep(Restoring(LockPc(s.lock, s.callers)), s.latch, s.data, None) && FaultsNamed(None)
    ensures Generations(s.data, s.starts, None)
  {
    hide Heard, Coherent, GenerationTells, Restoring, Holders;
    assert w in s.workers.Keys;
  }

  /** A join ends the worker: it was the only one, and its handle was held by the thread that joins it. */
  lemma JoinKeeps(s: State, t: Tid, w: nat, pc: CallerPc)
    requires Inv(s) && t in s.callers && w in s.workers && s.workers[w].pc == Done
    requires s.lock != Some(t) && s.joiner == Some(t) && s.current == Some(w)
    requires Fits(AroundOf(s).(current := None, worker := None), t, pc)
    ensures Inv(Move(Joined(s, w), t, pc))
  {
    hide Inv, CallersFit, CommandsInOrder, StopNotLost, FaultsInStep, FaultsNamed, Generations, Fits, Move, Joined;
    AtCall(s, t);
    DoneIsQuiet(s, w);
    JoinedState(s, t, w, pc);
    CallKeeps(s, Move(Joined(s, w), t, pc), t);
  }

  lemma StartJoinsKeeps(s: State, t: Tid, w: nat)
    requires Inv(s) && t in s.callers && s.callers[t] == StartJoining(w) && w in s.workers && s.workers[w].pc == Done
    ensures Inv(Move(Joined(s, w), t, StartJoined))
  {
    hide Inv, CallersFit, Wires, Faults, Endings;
    AtCall(s, t);
    JoinKeeps(s, t, w, StartJoined);
  }

  lemma StopJoinsKeeps(s: State, t: Tid, n: Then, w: nat)
    requires Inv(s) && t in s.callers && s.callers[t] == StopJoining(n, w) && w in s.workers && s.workers[w].pc == Done
    ensures Inv(Move(Joined(s, w), t, StopJoined(n)))
  {
    hide Inv, CallersFit, Wires, Faults, Endings;
    AtCall(s, t);
    JoinKeeps(s, t, w, StopJoined(n));
  }

  lemma CreatedState(s: State, t: Tid, tid: Tid)
    ensures var s' := StartCreatingNext(s, t, tid); var w := s.spawned;
            && s' == s.(callers := s'.callers, workers := s'.workers, handle := Some(w), current := Some(w),
                        spawned := w + 1)
            && s'.callers == s.callers[t := StartPublishing]
            && s'.workers == s.workers[w := Worker(tid, LoopTop, s.data.serial, false)]
  {
  }

  /** No worker exists while a start creates one. */
  lemma CreateKeeps(s: State, t: Tid, tid: Tid)
    requires Inv(s) && t in s.callers && tid !in s.callers && tid != DESTROYER
    requires s.lock == Some(t) && s.joiner.None? && s.current.None? && s.gone == Present
    requires s.latch == NoFault && !s.exited && s.data.generation > 0 && s.callers[t].StartCreating?
    requires var w, k := s.spawned, Worker(tid, LoopTop, s.data.serial, false);
             Fits(AroundOf(s).(handle := Some(w), current := Some(w), worker := Some(k)), t, StartPublishing)
    ensures Inv(StartCreatingNext(s, t, tid))
  {
    hide Inv, CallersFit, Heard, Coherent, GenerationTells, Fits, StartCreatingNext;
    CreatedState(s, t, tid);
    AtCall(s, t);
    CallKeeps(s, StartCreatingNext(s, t, tid), t);
  }

  lemma StartCreatesKeeps(s: State, t: Tid, e: Snapshot, tid: Tid)
    requires Inv(s) && t in s.callers && s.callers[t] == StartCreating(e) && tid !in s.callers && tid != DESTROYER
    ensures Inv(StartCreatingNext(s, t, tid))
  {
    hide Inv, CallersFit, Wires, Faults, JoinedOnce, GoodEntry;
    AtCall(s, t);
    StartCreatingFits(AroundOf(s), t, e, s.spawned, Worker(tid, LoopTop, s.data.serial, false));
    CreateKeeps(s, t, tid);
  }

  lemma DoomedOne(workers: map<nat, Worker>, current: Option<nat>)
    ensures DoomAll(workers).Keys == workers.Keys
    ensures var k, k' := Cur(workers, current), Cur(DoomAll(workers), current);
            k'.Some? == k.Some? && (k.Some? ==> k'.value == k.value.(doomed := true))
  {
  }

  lemma StopDecidingFits(a: Around, t: Tid, n: Then)
    requires Fits(a, t, StopCommanding(n))
    ensures Fits(a, t, StopDeciding(n))
    ensures a.worker.Some? ==> Fits(a.(worker := Some(a.worker.value.(doomed := true))), t, StopDeciding(n))
    ensures a.lock == Some(t) && a.now.stopping
  {
  }

  lemma StopInOrder(attempts: seq<Attempt>, started: bool, k: Option<Worker>, k': Option<Worker>, ok: bool)
    requires CommandsInOrder(attempts, started, k)
    ensures CommandsInOrder(if started then attempts + [Attempt(WireStop, ok)] else attempts, false, k')
  {
    hide Heard;
    HeardNext(attempts, Attempt(WireStop, ok));
  }

  lemma CommandedKeeps(s: State, s': State, t: Tid, n: Then)
    requires Inv(s) && t in s.callers && s.callers[t] == StopCommanding(n)
    requires s' == s.(callers := s.callers[t := StopDeciding(n)], workers := s'.workers, attempts := s'.attempts,
                      sessionStarted := false, shutdownRequested := true)
    requires s'.workers.Keys == s.workers.Keys
    requires var k, k' := Cur(s.workers, s.current), Cur(s'.workers, s.current);
             k' == if k.Some? then Some(k.value.(doomed := true)) else None
    requires CommandsInOrder(s'.attempts, false, Cur(s'.workers, s.current))
    ensures Inv(s')
  {
    hide Inv, CallersFit, CommandsInOrder, Coherent, GenerationTells, JoinedOnce, Destruction, Cur, Fits, OneWorker;
    AtCall(s, t);
    StopDecidingFits(AroundOf(s), t, n);
    CallKeeps(s, s', t);
  }

  /** The stop command goes out once per session, and the shutdown flag is set under the same lock. */
  lemma StopCommandingKeeps(s: State, t: Tid, n: Then, ok: bool)
    requires Inv(s) && t in s.callers && s.callers[t] == StopCommanding(n)
    ensures Inv(StopCommandingNext(s, t, n, ok))
  {
    hide Inv, CallersFit, CommandsInOrder, StopNotLost, Threads, Faults, Endings, DoomAll, Cur, Fits;
    AtCall(s, t);
    var s' := StopCommandingNext(s, t, n, ok);
    DoomedOne(s.workers, s.current);
    StopInOrder(s.attempts, s.sessionStarted, Cur(s.workers, s.current), Cur(s'.workers, s.current), ok);
    CommandedKeeps(s, s', t, n);
  }

  lemma BiasInOrder(attempts: seq<Attempt>, k: Option<Worker>, startOk: bool)
    requires CommandsInOrder(attempts, true, k)
    ensures CommandsInOrder(attempts + [Attempt(WireBias, false)], true, k)
    ensures CommandsInOrder(attempts + [Attempt(WireBias, true), Attempt(WireStart, startOk)], true, k)
  {
    hide Heard;
    HeardNext(attempts, Attempt(WireBias, false));
    var biased := attempts + [Attempt(WireBias, true)];
    HeardNext(attempts, Attempt(WireBias, true));
    HeardNext(biased, Attempt(WireStart, startOk));
    assert biased + [Attempt(WireStart, startOk)] == attempts + [Attempt(WireBias, true), Attempt(WireStart, startOk)];
  }

  lemma SendsKeeps(s: State, t: Tid, attempts: seq<Attempt>)
    requires Inv(s) && t !in s.callers
    requires CommandsInOrder(attempts, s.sessionStarted, Cur(s.workers, s.current))
    ensures Inv(s.(attempts := attempts))
  {
    hide Inv, CallersFit, CommandsInOrder, StopNotLost, OneWorker, Holders, IdPublished, JoinedOnce, Destruction,
         FreedLast, FaultsInStep, FaultsNamed, Generations, Fits, Cur, LockPc;
    AtCall(s, t);
    CallKeeps(s, s.(attempts := attempts), t);
  }

  lemma BiasKeeps(s: State, t: Tid, biasOk: bool, startOk: bool)
    requires Inv(s) && t !in s.callers
    ensures Inv(BiasNext(s, biasOk, startOk))
  {
    hide Inv, CallersFit, CommandsInOrder, StopNotLost, Threads, Faults, Endings, Fits, Cur;
    AtCall(s, t);
    if BiasNext(s, biasOk, startOk) != s {
      BiasInOrder(s.attempts, Cur(s.workers, s.current), startOk);
      SendsKeeps(s, t, BiasNext(s, biasOk, startOk).attempts);
    }
  }

  lemma EntersKeeps(s: State, t: Tid, pc: CallerPc)
    requires Inv(s) && MayCall(s, t) && pc in {StartEntry, StopEntry(Return)}
    ensures Inv(Move(s, t, pc))
  {
    hide Inv, CallersFit, IsWorker, InItsCallback, Wires, Faults, Endings, OneWorker, IdPublished;
    AtCall(s, t);
    WorkerThread(s, t);
    PassKeeps(s, Move(s, t, pc), t);
  }

  lemma NobodyIn(s: State)
    requires Inv(s) && s.pending
    ensures s.callers == map[]
  {
    hide Threads, Wires, Faults, FitsThreads, FitsCallback, FitsRollback;
    forall u | u in s.callers ensures false {
      assert false;
    }
  }

  /** Stop and the destructors end: the one branch with nothing to join, the other after the join. */
  predicate MayEnd(s: State, t: Tid, n: Then) {
    && t in s.callers && !OnWorkerThread(s, t)
    && ((s.callers[t] == StopJoined(n) && s.lock.None?)
        || (s.callers[t] == StopDeciding(n) && s.handle.None? && !s.joining))
  }

  lemma StopAgainFits(a: Around, t: Tid, now: Snapshot)
    requires (Fits(a, t, StopDeciding(Again)) && a.joiner.None?) || (Fits(a, t, StopJoined(Again)) && a.lock.None?)
    requires a.worker.None?
    ensures Fits(a.(lock := None, joiner := None, now := now), t, StopEntry(Free))
  {
  }

  /** There is nothing left to join. */
  lemma MayEndMeans(s: State, t: Tid, n: Then)
    requires Inv(s) && MayEnd(s, t, n)
    ensures Mine(s.lock, t) && Mine(s.joiner, t) && s.current.None? && s.handle.None? && s.exited && !s.freed
    ensures s.callers[t] == StopDeciding(n) ==> s.joiner.None?
    ensures Ordinary(LockPc(s.lock, s.callers)) && (n == Return ==> s.owner != Some(t))
  {
    hide CallersFit, Wires, Faults, JoinedOnce, Destruction, FitsCallback, FitsRollback;
    AtCall(s, t);
  }

  /** What the end of a stop does to the state, for one that leaves the client alone. */
  predicate EndsWith(s: State, s': State) {
    s' == s.(callers := s'.callers, lock := None, active := None, joining := false, joiner := None,
             data := if s.latch == NoFault then s.data.(state := Idle) else s.data)
  }

  lemma StopEnds(s: State, t: Tid, n: Then)
    requires n in {Return, Again}
    ensures var s' := StopJoinedNext(s, t, n).(lock := None);
            EndsWith(s, s') && s'.callers == if n == Again then s.callers[t := StopEntry(Free)] else s.callers - {t}
  {
  }

  lemma EndedFaults(latch: FaultCode, d: Data, starts: nat, lockPc: Option<CallerPc>)
    requires FaultsInStep(Restoring(lockPc), latch, d, None) && Generations(d, starts, None) && Ordinary(lockPc)
    ensures var d' := if latch == NoFault then d.(state := Idle) else d;
            FaultsInStep(Restoring(None), latch, d', None) && Generations(d', starts, None)
  {
  }

  lemma EndKeeps(s: State, s': State, t: Tid, n: Then)
    requires Inv(s) && MayEnd(s, t, n) && EndsWith(s, s') && SameOthers(s.callers, s'.callers, t)
    requires t !in s'.callers ==> n == Return
    requires t in s'.callers ==> Fits(AroundOf(s'), t, s'.callers[t])
    ensures Inv(s')
  {
    hide Inv, CallersFit, CommandsInOrder, StopNotLost, Generations, FaultsInStep, FaultsNamed, JoinedOnce, Fits,
         MayEnd, Destruction;
    AtCall(s, t);
    MayEndMeans(s, t, n);
    EndedFaults(s.latch, s.data, s.starts, LockPc(s.lock, s.callers));
    CallKeeps(s, s', t);
  }

  lemma StopReturnsKeeps(s: State, t: Tid)
    requires Inv(s) && MayEnd(s, t, Return)
    ensures Inv(StopJoinedNext(s, t, Return).(lock := None))
  {
    hide Inv, Threads, Wires, Faults, Endings, Fits, MayEnd, EndsWith, StopJoinedNext;
    StopEnds(s, t, Return);
    EndKeeps(s, StopJoinedNext(s, t, Return).(lock := None), t, Return);
  }

  lemma StopAgainKeeps(s: State, t: Tid)
    requires Inv(s) && MayEnd(s, t, Again)
    ensures Inv(StopJoinedNext(s, t, Again).(lock := None))
  {
    hide Inv, Threads, Wires, Faults, Endings, Fits, StopJoinedNext;
    AtCall(s, t);
    MayEndMeans(s, t, Again);
    var s' := StopJoinedNext(s, t, Again).(lock := None);
    StopEnds(s, t, Again);
    StopAgainFits(AroundOf(s), t, TakeSnapshot(s'));
    EndKeeps(s, s', t, Again);
  }

  /** The destroying thread is the last one in. */
  lemma LastCaller(s: State, t: Tid)
    requires Inv(s) && t in s.callers && s.owner == Some(t) && (s.gone == ByCallback || s.current.None?)
    ensures s.callers - {t} == map[]
  {
    hide Threads, Wires, Faults, FitsThreads, FitsCallback, FitsRollback;
    assert Fits(AroundOf(s), t, s.callers[t]);
    forall u | u in s.callers ensures u == t {
      assert Fits(AroundOf(s), u, s.callers[u]);
    }
  }

  lemma LoneKeeps(s: State, t: Tid)
    requires s.callers.Keys <= {t}
    requires t in s.callers ==> Fits(AroundOf(s), t, s.callers[t])
    requires Threads(s) && Wires(s) && Faults(s) && Endings(s)
    ensures Inv(s)
  {
    hide Fits, Threads, Wires, Faults, Endings;
  }

  lemma StopFrees(s: State, t: Tid)
    ensures var s' := StopJoinedNext(s, t, Free).(lock := None);
            && s' == s.(callers := s'.callers, lock := None, active := None, joining := false, joiner := None,
                        owner := None, freed := true, data := if s.latch == NoFault then s.data.(state := Idle) else s.data)
            && s'.callers == s.callers - {t}
  {
  }

  lemma StopFreesKeeps(s: State, t: Tid)
    requires Inv(s) && MayEnd(s, t, Free)
    ensures Inv(StopJoinedNext(s, t, Free).(lock := None))
  {
    hide Inv, CallersFit, CommandsInOrder, StopNotLost, JoinedOnce, FaultsInStep, FaultsNamed, Generations,
         StopJoinedNext;
    AtCall(s, t);
    MayEndMeans(s, t, Free);
    EndedFaults(s.latch, s.data, s.starts, LockPc(s.lock, s.callers));
    LastCaller(s, t);
    StopFrees(s, t);
    LoneKeeps(StopJoinedNext(s, t, Free).(lock := None), t);
  }

  lemma StopOnWorkerKeeps(s: State, t: Tid, n: Then)
    requires Inv(s) && t in s.callers && s.callers[t] == StopDeciding(n) && OnWorkerThread(s, t) && n in {Return, Again}
    ensures Inv(Finish(s, t, n).(lock := None))
  {
    hide Inv, CallersFit, Wires, Faults, JoinedOnce, OneWorker, FitsRollback;
    AtCall(s, t);
    PassKeeps(s, Finish(s, t, n).(lock := None), t);
  }

  lemma StopDefersKeeps(s: State, t: Tid)
    requires Inv(s) && t in s.callers && s.callers[t] == StopDeciding(Defer) && OnWorkerThread(s, t)
    ensures Inv(Finish(s, t, Defer).(lock := None))
  {
    hide Inv, CallersFit, CommandsInOrder, StopNotLost, JoinedOnce, Coherent, Generations, FaultsNamed, OneWorker;
    AtCall(s, t);
    LastCaller(s, t);
    LoneKeeps(Finish(s, t, Defer).(lock := None), t);
  }

  lemma DestroyerTakesKeeps(s: State)
    requires Inv(s) && s.pending
    ensures Inv(DestroyerTakes(s))
  {
    hide Inv, CallersFit, CommandsInOrder, StopNotLost, JoinedOnce, Coherent, Generations, FaultsNamed, OneWorker;
    AtCall(s, DESTROYER);
    NobodyIn(s);
    LoneKeeps(DestroyerTakes(s), DESTROYER);
  }

  /** A callback thread that is in a call when another thread destroys the client stays where it is. */
  lemma PersistsDestroy(a: Around, t: Tid, u: Tid, pc: CallerPc)
    requires Fits(a, u, pc) && u != t && a.gone == Present && a.owner.None? && TidOf(a.worker) == Some(u)
    ensures Fits(a.(gone := ByCaller, owner := Some(t)), u, pc)
  {
  }

  lemma DestroyEntryFits(a: Around, t: Tid, gone: Gone)
    requires a.lock != Some(t) && a.joiner != Some(t) && t != DESTROYER
    requires TidOf(a.worker) == Some(t) ==> a.worker.value.pc == InCallback
    requires gone == if TidOf(a.worker) == Some(t) then ByCallback else ByCaller
    ensures Fits(a.(gone := gone, owner := Some(t)), t, DestroyEntry)
  {
  }

  lemma DestroyParts(s: State, t: Tid)
    requires Inv(s) && MayDestroy(s, t)
    ensures var s' := BeginDestroy(s, t); Threads(s') && Wires(s') && Faults(s') && Endings(s')
    ensures s.lock != Some(t) && s.joiner != Some(t) && s.owner.None?
  {
    hide Inv, CallersFit, MayDestroy, IsWorker, OneWorker, CommandsInOrder, StopNotLost, FaultsInStep, FaultsNamed,
         Generations, JoinedOnce, Fits, Cur;
    AtCall(s, t);
    DestroyCallable(s, t);
  }

  lemma DestroyCallable(s: State, t: Tid)
    requires MayDestroy(s, t)
    ensures t !in s.callers && t != DESTROYER && !s.freed && s.gone == Present
    ensures forall u :: u in s.callers ==> IsWorker(s, u)
    ensures IsWorker(s, t) ==> InItsCallback(s, t)
  {
  }

  lemma CallDestroyKeeps(s: State, t: Tid)
    requires Inv(s) && MayDestroy(s, t)
    ensures Inv(BeginDestroy(s, t))
  {
    hide MayDestroy, IsWorker, InItsCallback, Threads, Wires, Faults, Endings, Fits, Cur;
    var s' := BeginDestroy(s, t);
    DestroyParts(s, t);
    DestroyCallable(s, t);
    WorkerThread(s, t);
    forall u | u in s'.callers ensures Fits(AroundOf(s'), u, s'.callers[u]) {
      if u != t {
        WorkerThread(s, u);
        PersistsDestroy(AroundOf(s), t, u, s.callers[u]);
      } else {
        DestroyEntryFits(AroundOf(s), t, s'.gone);
      }
    }
  }
}
