/** The inductive invariant of the lifecycle state machine. */
module LifecycleInvariant {
  import opened Protocol
  import opened Session
  import opened Lifecycle

  // ---------------------------------------------------------------- kinds of program counters

  /** Between taking a worker's handle and giving the lifecycle back. */
  predicate JoinerPc(pc: CallerPc) {
    pc.StartJoining? || pc.StartJoined? || pc.StopJoining? || pc.StopJoined?
  }

  predicate CreatingPc(pc: CallerPc) {
    || pc.StartArming? || pc.StartCreating?
    || pc.RollbackFlags? || pc.RollbackData? || pc.RollbackLatch? || pc.RollbackFault?
  }

  predicate HoldsLock(pc: CallerPc) {
    CreatingPc(pc) || pc.StartPublishing? || pc.StopCommanding? || pc.StopDeciding?
  }

  /** Where a worker's own callback can be inside a call. */
  predicate SelfPc(pc: CallerPc) {
    pc.StartEntry? || pc.StopEntry? || pc.StopCommanding? || pc.StopDeciding? || pc.DestroyEntry?
  }

  function NextOf(pc: CallerPc): Then {
    match pc
    case StopEntry(n) => n
    case StopCommanding(n) => n
    case StopDeciding(n) => n
    case StopAwaitJoin(n) => n
    case StopJoining(n, _) => n
    case StopJoined(n) => n
    case _ => Return
  }

  predicate DestroyingPc(pc: CallerPc) {
    pc.DestroyEntry? || NextOf(pc) != Return
  }

  predicate ExitedPc(pc: WorkerPc) {
    pc == Settling || pc == Done
  }

  predicate RetiredPc(pc: WorkerPc) {
    pc == Retiring || pc == Exiting || ExitedPc(pc)
  }

  /** A session may be started here: after the start command and before the session is closed. */
  predicate SessionPc(pc: WorkerPc) {
    StreamingPc(pc) || pc.Failing? || pc.Closing? || pc == Escaping || pc == Retiring
  }

  // ---------------------------------------------------------------- the parts

  type Callers = map<Tid, CallerPc>

  /** The worker that exists, if one does. */
  function Cur(workers: map<nat, Worker>, current: Option<nat>): Option<Worker> {
    if current.Some? && current.value in workers then Some(workers[current.value]) else None
  }

  function TidOf(k: Option<Worker>): Option<Tid> {
    if k.Some? then Some(k.value.tid) else None
  }

  /** What the thread in the long sections of start and stop is at. */
  function LockPc(lock: Option<Tid>, callers: Callers): Option<CallerPc> {
    if lock.Some? && lock.value in callers then Some(callers[lock.value]) else None
  }

  /** At most one worker exists: the one whose handle is stored or is being joined. */
  predicate OneWorker(workers: set<nat>, current: Option<nat>, spawned: nat, handle: Option<nat>, joiner: Option<Tid>,
                      joining: bool)
  {
    && workers == (if current.Some? then {current.value} else {})
    && (current.Some? ==> current.value < spawned)
    && (handle.Some? ==> handle == current && joiner.None?)
    && (handle.None? && joiner.None? ==> current.None?)
    && joining == joiner.Some?
  }

  predicate Holders(lock: Option<Tid>, joiner: Option<Tid>, owner: Option<Tid>, callers: Callers) {
    && (lock.Some? ==> lock.value in callers)
    && (joiner.Some? ==> joiner.value in callers)
    && (owner.Some? ==> owner.value in callers)
  }

  /** The published id is the worker's from the moment the start releases the lock until the join is over. */
  predicate IdPublished(exited: bool, active: Option<Tid>, joiner: Option<Tid>, lockPc: Option<CallerPc>, k: Option<Worker>) {
    match k
    case Some(worker) =>
      && worker.tid != DESTROYER
      && (exited <==> ExitedPc(worker.pc))
      && (active == Some(worker.tid) || (lockPc.Some? && lockPc.value.StartPublishing?))
    case None =>
      && (exited || (lockPc.Some? && (lockPc.value.StartCreating? || lockPc.value.RollbackFlags?)))
      && (joiner.None? ==> active.None?)
  }

  // ----- commands and the shutdown flag

  datatype Air = OffAir | OnAir | MidBias

  function Hear(p: Option<Air>, a: Attempt): Option<Air> {
    match (p, a.command)
    case (Some(OffAir), WireStart) => Some(if a.ok then OnAir else OffAir)
    case (Some(OnAir), WireBias) => Some(if a.ok then MidBias else OnAir)
    case (Some(MidBias), WireStart) => Some(OnAir)
    case (Some(OnAir), WireStop) => Some(OffAir)
    case _ => None
  }

  /** Where a device stands that hears the attempts; None once one of them is out of order. */
  function Heard(attempts: seq<Attempt>): Option<Air> {
    if attempts == [] then Some(OffAir) else Hear(Heard(attempts[..|attempts| - 1]), attempts[|attempts| - 1])
  }

  lemma HeardNext(attempts: seq<Attempt>, a: Attempt)
    ensures Heard(attempts + [a]) == Hear(Heard(attempts), a)
  {
    assert (attempts + [a])[..|attempts|] == attempts;
  }

  predicate CommandsInOrder(attempts: seq<Attempt>, started: bool, k: Option<Worker>) {
    && Heard(attempts) == Some(if started then OnAir else OffAir)
    && (started ==> k.Some? && SessionPc(k.value.pc))
  }

  /** A stop that has left its command section is not lost, although connecting clears the flag. */
  predicate StopNotLost(stopping: bool, started: bool, shutdownRequested: bool, k: Option<Worker>) {
    k.Some? && k.value.doomed ==> stopping && !started && (StreamingPc(k.value.pc) ==> shutdownRequested)
  }

  // ----- fault latch, generations and rollback

  predicate Coherent(latch: FaultCode, d: Data) {
    && (d.state == Faulted <==> latch != NoFault)
    && d.faultCode == latch
  }

  /** `delivered_generation_ == generation_ > 0` says that the latest sample is one of the current start. */
  predicate GenerationTells(d: Data) {
    && (d.deliveredGeneration == d.generation && d.generation > 0 <==> d.latest.Some?)
    && (d.latest.Some? ==> d.latest == Some(d.serial))
    && d.deliveredGeneration <= d.generation
  }

  /** The short window in which a failed start has restored the data but not yet the latch. */
  predicate Restoring(lockPc: Option<CallerPc>) {
    lockPc.Some? && (lockPc.value.RollbackLatch? || lockPc.value.RollbackFault?)
  }

  predicate FaultsInStep(restoring: bool, latch: FaultCode, d: Data, k: Option<Worker>) {
    && (!restoring ==> Coherent(latch, d))
    && (k.Some? && !RetiredPc(k.value.pc) ==> latch == NoFault)
  }

  /** Only real faults are on their way to the latch. */
  predicate FaultsNamed(k: Option<Worker>) {
    k.Some? ==>
      match k.value.pc
      case Failing(f) => f != NoFault
      case Closing(o) => o.Fail? ==> o.fault != NoFault
      case Judging(o) => o.Fail? ==> o.fault != NoFault
      case _ => true
  }

  predicate Generations(d: Data, starts: nat, k: Option<Worker>) {
    && GenerationTells(d)
    && d.serial <= starts
    && (k.Some? ==> k.value.serial == d.serial && d.generation > 0)
  }

  predicate GoodEntry(e: Snapshot, starts: nat) {
    Coherent(e.latch, e.data) && GenerationTells(e.data) && e.data.serial <= starts && e.exited
  }

  // ----- joins and destruction

  /** Every thread ever created was joined once, except the one that still exists. */
  ghost predicate JoinedOnce(joined: multiset<nat>, spawned: nat, current: Option<nat>) {
    forall w: nat :: joined[w] == if w < spawned && current != Some(w) then 1 else 0
  }

  predicate Destruction(gone: Gone, owner: Option<Tid>, pending: bool, freed: bool) {
    && (gone == Present ==> owner.None? && !pending && !freed)
    && (gone != Present ==> owner.Some? || pending || freed)
    && (pending ==> gone == ByCallback && owner.None? && !freed)
    && (freed ==> owner.None?)
    && (owner == Some(DESTROYER) ==> gone == ByCallback)
  }

  predicate FreedLast(freed: bool, callers: Callers, k: Option<Worker>) {
    freed ==> k.None? && callers == map[]
  }

  // ----- one caller

  /** What a call depends on. */
  datatype Around = Around(lock: Option<Tid>, joiner: Option<Tid>, handle: Option<nat>, current: Option<nat>,
                           now: Snapshot, starts: nat, owner: Option<Tid>, gone: Gone, worker: Option<Worker>)

  /** Locks and joins: who holds the lifecycle, who joins, and that no worker exists while one is created. */
  predicate FitsThreads(a: Around, t: Tid, pc: CallerPc) {
    && (HoldsLock(pc) <==> a.lock == Some(t))
    && (JoinerPc(pc) <==> a.joiner == Some(t))
    && (pc.StartJoining? || pc.StopJoining? ==> a.current == Some(pc.worker))
    && (pc.StartJoined? || pc.StopJoined? ==> a.current.None?)
    && (CreatingPc(pc) ==> a.current.None? && a.joiner.None?)
    && (pc.StartPublishing? ==> a.handle.Some?)
    && (pc.StopCommanding? ==> a.now.stopping)
  }

  /** A worker's own thread is in a call only from inside its callback, and there only where nothing waits. */
  predicate FitsCallback(a: Around, t: Tid, pc: CallerPc) {
    TidOf(a.worker) == Some(t) ==> a.worker.value.pc == InCallback && SelfPc(pc)
  }

  /** The data belongs to the start that saved `e`, the next one after that of `e`. */
  predicate NextStart(e: Snapshot, d: Data) {
    d.generation == e.data.generation + 1 && d.serial > e.data.serial
  }

  /** What the rollback of a failed start has put back so far. */
  predicate FitsRollback(a: Around, pc: CallerPc) {
    match pc
    case StartArming(e) => GoodEntry(e, a.starts) && NextStart(e, a.now.data) && a.now.latch == NoFault && a.now.exited
    case StartCreating(e) => GoodEntry(e, a.starts) && NextStart(e, a.now.data) && a.now.latch == NoFault && !a.now.exited
    case RollbackFlags(e) => GoodEntry(e, a.starts) && NextStart(e, a.now.data) && a.now.latch == NoFault
    case RollbackData(e) =>
      GoodEntry(e, a.starts) && NextStart(e, a.now.data) && a.now == e.(latch := NoFault, data := a.now.data)
    case RollbackLatch(e) => GoodEntry(e, a.starts) && a.now == e.(latch := NoFault)
    case RollbackFault(e) => GoodEntry(e, a.starts) && a.now == e.(latch := NoFault)
    case _ => true
  }

  /** Once the client is gone only its destroyer and, after an outside destructor, its callback are in calls; and the
      implementation is freed by a second stop that finds nothing to do. */
  predicate FitsDestruction(a: Around, t: Tid, pc: CallerPc) {
    && (DestroyingPc(pc) <==> a.owner == Some(t))
    && (t == DESTROYER ==> a.owner == Some(t))
    && (a.gone != Present ==> a.owner == Some(t) || (a.gone == ByCaller && TidOf(a.worker) == Some(t)))
    && (pc.DestroyEntry? ==> (TidOf(a.worker) == Some(t) <==> a.gone == ByCallback))
    && (NextOf(pc) == Defer ==> TidOf(a.worker) == Some(t) && a.gone == ByCallback)
    && (NextOf(pc) in {Again, Free} ==> TidOf(a.worker) != Some(t))
    && (NextOf(pc) == Free ==> a.worker.None?)
  }

  predicate Fits(a: Around, t: Tid, pc: CallerPc) {
    FitsThreads(a, t, pc) && FitsCallback(a, t, pc) && FitsRollback(a, pc) && FitsDestruction(a, t, pc)
  }

  // ----- together

  function AroundOf(s: State): Around {
    Around(s.lock, s.joiner, s.handle, s.current, TakeSnapshot(s), s.starts, s.owner, s.gone, Cur(s.workers, s.current))
  }

  predicate Threads(s: State) {
    && OneWorker(s.workers.Keys, s.current, s.spawned, s.handle, s.joiner, s.joining)
    && Holders(s.lock, s.joiner, s.owner, s.callers)
    && IdPublished(s.exited, s.active, s.joiner, LockPc(s.lock, s.callers), Cur(s.workers, s.current))
  }

  predicate Wires(s: State) {
    && CommandsInOrder(s.attempts, s.sessionStarted, Cur(s.workers, s.current))
    && StopNotLost(s.stopping, s.sessionStarted, s.shutdownRequested, Cur(s.workers, s.current))
  }

  predicate Faults(s: State) {
    && FaultsInStep(Restoring(LockPc(s.lock, s.callers)), s.latch, s.data, Cur(s.workers, s.current))
    && FaultsNamed(Cur(s.workers, s.current))
    && Generations(s.data, s.starts, Cur(s.workers, s.current))
  }

  ghost predicate Endings(s: State) {
    && JoinedOnce(s.joined, s.spawned, s.current)
    && Destruction(s.gone, s.owner, s.pending, s.freed)
    && FreedLast(s.freed, s.callers, Cur(s.workers, s.current))
  }

  predicate CallersFit(a: Around, callers: Callers) {
    forall t :: t in callers ==> Fits(a, t, callers[t])
  }

  ghost predicate Inv(s: State) {
    Threads(s) && Wires(s) && Faults(s) && Endings(s) && CallersFit(AroundOf(s), s.callers)
  }

  lemma InitialInv(failStop: bool)
    ensures Inv(Initial(failStop))
  {
  }

  /** Whose thread it is, once there is at most one worker. */
  lemma WorkerThread(s: State, t: Tid)
    requires Threads(s)
    ensures IsWorker(s, t) <==> TidOf(Cur(s.workers, s.current)) == Some(t)
    ensures InItsCallback(s, t)
            <==> TidOf(Cur(s.workers, s.current)) == Some(t) && Cur(s.workers, s.current).value.pc == InCallback
  {
    if s.current.Some? {
      assert s.current.value in s.workers;
    }
  }
}
