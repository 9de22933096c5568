/** Client lifecycle as a state machine: any number of threads calling start, stop, bias and the destructor, one
    callback that may call them too, and the worker threads. One step is one lock-protected section or one atomic
    access of src/core/src/detail/client_impl.cpp, src/core/src/client.cpp and the shutdown flag of
    src/core/src/detail/udp_transport_posix.cpp; a condition-variable wait is re-checking its predicate. */
module Lifecycle {
  import opened Protocol
  import opened Session

  /** Thread ids. A worker's id may be reused once the worker has been joined. */
  type Tid = nat

  /** The thread of the deferred destroyer, alive for the whole process. */
  const DESTROYER: Tid := 0

  datatype Wire = WireStart | WireBias | WireStop

  /** A send and whether it went through. */
  datatype Attempt = Attempt(command: Wire, ok: bool)

  datatype ClientState = Idle | Connecting | Streaming | Backoff | Faulted

  /** What the data lock protects. `latest` names the start under which the latest sample was delivered, `serial` the
      current start (no two starts share one); `rest` stands for the remaining fields that a failed start restores. */
  datatype Data = Data(state: ClientState, faultCode: FaultCode, generation: nat, deliveredGeneration: nat,
                       latest: Option<nat>, serial: nat, rest: int)

  datatype Outcome = Halt | Fail(fault: FaultCode)

  datatype WorkerPc =
    | LoopTop | Entering | EntryCheck | Configuring | ConfigCheck | Linking | Commanding
    | Resetting | LoopCheck | Receiving | Received | Observing | InCallback | Finishing
    | Failing(fault: FaultCode)          // an operation failed; a stop decides how it counts
    | Closing(outcome: Outcome) | Judging(outcome: Outcome) | BackingOff | Waiting
    | Escaping                           // an exception left the session
    | Retiring | Exiting | Settling | Done

  /** `serial` is the start that created it; `doomed` records that a stop passed its command section. */
  datatype Worker = Worker(tid: Tid, pc: WorkerPc, serial: nat, doomed: bool)

  /** What a caller of stop does next: return, stop a second time (the implementation's destructor), free the
      implementation, or hand it to the deferred destroyer. */
  datatype Then = Return | Again | Free | Defer

  /** What a start saves before it touches anything. */
  datatype Snapshot = Snapshot(stopping: bool, exited: bool, latch: FaultCode, callback: int, data: Data)

  datatype CallerPc =
    | StartEntry | StartAwaitJoin | StartAwaitExit | StartJoining(worker: nat) | StartJoined
    | StartArming(entry: Snapshot) | StartCreating(entry: Snapshot) | StartPublishing
    | RollbackFlags(entry: Snapshot) | RollbackData(entry: Snapshot)
    | RollbackLatch(entry: Snapshot) | RollbackFault(entry: Snapshot)
    | StopEntry(next: Then) | StopCommanding(next: Then) | StopDeciding(next: Then)
    | StopAwaitJoin(next: Then) | StopJoining(next: Then, worker: nat) | StopJoined(next: Then)
    | DestroyEntry

  /** Whether the public object was destroyed, and from where. */
  datatype Gone = Present | ByCaller | ByCallback

  datatype State = State(
    failStop: bool,
    stopping: bool, exited: bool, active: Option<Tid>, joining: bool, handle: Option<nat>, lock: Option<Tid>,
    sessionStarted: bool, shutdownRequested: bool,
    latch: FaultCode, callback: int, data: Data,
    workers: map<nat, Worker>, callers: map<Tid, CallerPc>,
    gone: Gone, pending: bool, freed: bool,
    // bookkeeping of the model: sends, threads created and joined, starts, who joins, which worker exists,
    // which thread is destroying
    attempts: seq<Attempt>, spawned: nat, joined: multiset<nat>, starts: nat,
    joiner: Option<Tid>, current: Option<nat>, owner: Option<Tid>)

  function Initial(failStop: bool): State {
    State(failStop, false, true, None, false, None, None, false, false, NoFault, 0,
          Data(Idle, NoFault, 0, 0, None, 0, 0), map[], map[], Present, false, false,
          [], 0, multiset{}, 0, None, None, None)
  }

  // ---------------------------------------------------------------- who may do what

  /** The calling thread is a worker inside its callback. */
  predicate InItsCallback(s: State, t: Tid) {
    exists w :: w in s.workers && s.workers[w].tid == t && s.workers[w].pc == InCallback
  }

  predicate IsWorker(s: State, t: Tid) {
    exists w :: w in s.workers && s.workers[w].tid == t
  }

  /** A thread may call into a client that was not destroyed under it: a callback until it destroys the client
      itself, any other thread until the destructor begins. */
  predicate MayCall(s: State, t: Tid) {
    && t !in s.callers && t != DESTROYER && !s.freed
    && if IsWorker(s, t) then InItsCallback(s, t) && s.gone != ByCallback else s.gone == Present
  }

  /** Destroying an object asks that no other thread is using it; a callback may still be running. */
  predicate MayDestroy(s: State, t: Tid) {
    && MayCall(s, t) && s.gone == Present
    && forall u :: u in s.callers ==> IsWorker(s, u)
  }

  /** `called_from_worker_thread`, and the same test in start and stop. */
  predicate OnWorkerThread(s: State, t: Tid) {
    !s.exited && s.active == Some(t)
  }

  function TakeSnapshot(s: State): Snapshot {
    Snapshot(s.stopping, s.exited, s.latch, s.callback, s.data)
  }

  function Move(s: State, t: Tid, pc: CallerPc): State {
    s.(callers := s.callers[t := pc])
  }

  function Leave(s: State, t: Tid): State {
    s.(callers := s.callers - {t})
  }

  // ---------------------------------------------------------------- start

  function StartEntryNext(s: State, t: Tid): State {
    if OnWorkerThread(s, t) then Leave(s, t)          // throws: already running
    else if s.joining then Move(s, t, StartAwaitJoin)
    else StartDecide(s, t)
  }

  function StartDecide(s: State, t: Tid): State {
    match s.handle
    case Some(w) =>
      if s.exited then TakeHandle(s, t, StartJoining(w))
      else if s.latch == NoFault then Leave(s, t)     // throws: already running
      else Move(s, t, StartAwaitExit)
    case None => Arm(s, t)
  }

  /** The worker's handle moves from the client to the thread that will join it. */
  function TakeHandle(s: State, t: Tid, pc: CallerPc): State {
    s.(callers := s.callers[t := pc], lock := None, joining := true, joiner := Some(t), handle := None)
  }

  /** Everything of the previous start is saved and cleared. */
  function Arm(s: State, t: Tid): State {
    s.(callers := s.callers[t := StartArming(TakeSnapshot(s))],
       lock := Some(t), latch := NoFault, starts := s.starts + 1,
       data := Data(Connecting, NoFault, s.data.generation + 1, 0, None, s.starts + 1, 0))
  }

  function Joined(s: State, w: nat): State {
    s.(workers := s.workers - {w}, joined := s.joined + multiset{w}, current := None)
  }

  function StartJoinedNext(s: State, t: Tid): State {
    Move(s, t, StartEntry).(active := None, joining := false, joiner := None)
  }

  function StartArmingNext(s: State, t: Tid, entry: Snapshot, callback: int): State {
    Move(s, t, StartCreating(entry)).(stopping := false, exited := false, callback := callback)
  }

  function StartCreatingNext(s: State, t: Tid, tid: Tid): State {
    Move(s, t, StartPublishing).(
      workers := s.workers[s.spawned := Worker(tid, LoopTop, s.data.serial, false)],
      handle := Some(s.spawned), current := Some(s.spawned), spawned := s.spawned + 1)
  }

  function StartPublishingNext(s: State, t: Tid): State {
    Leave(s, t).(lock := None,
                 active := if s.handle.Some? && s.handle.value in s.workers then Some(s.workers[s.handle.value].tid)
                           else None)
  }

  function RollbackFlagsNext(s: State, t: Tid, entry: Snapshot): State {
    Move(s, t, RollbackData(entry)).(stopping := entry.stopping, exited := entry.exited, callback := entry.callback)
  }

  function RollbackDataNext(s: State, t: Tid, entry: Snapshot): State {
    Move(s, t, RollbackLatch(entry)).(data := entry.data)
  }

  function RollbackLatchNext(s: State, t: Tid, entry: Snapshot): State {
    Move(s, t, RollbackFault(entry)).(latch := NoFault)
  }

  /** `FaultLatch::publish`: the first fault wins. */
  function Publish(s: State, f: FaultCode): State {
    s.(latch := if s.latch == NoFault then f else s.latch,
       data := if s.latch == NoFault && f != NoFault then s.data.(state := Faulted, faultCode := f) else s.data)
  }

  function RollbackFaultNext(s: State, t: Tid, entry: Snapshot): State {
    Leave(Publish(s, entry.latch), t).(lock := None)
  }

  // ---------------------------------------------------------------- stop and the destructors

  function Finish(s: State, t: Tid, next: Then): State {
    s.(callers := if next == Again then s.callers[t := StopEntry(Free)] else s.callers - {t},
       freed := s.freed || next == Free,
       pending := s.pending || next == Defer,
       owner := if next == Free || next == Defer then None else s.owner)
  }

  function StopEntryNext(s: State, t: Tid, next: Then): State {
    Move(s, t, StopCommanding(next)).(stopping := true, lock := Some(t))
  }

  function SendStop(s: State, ok: bool): State {
    s.(attempts := if s.sessionStarted then s.attempts + [Attempt(WireStop, ok)] else s.attempts,
       sessionStarted := false)
  }

  function DoomAll(workers: map<nat, Worker>): map<nat, Worker> {
    map w | w in workers :: workers[w].(doomed := true)
  }

  function StopCommandingNext(s: State, t: Tid, next: Then, ok: bool): State {
    Move(SendStop(s, ok), t, StopDeciding(next)).(shutdownRequested := true, workers := DoomAll(s.workers))
  }

  function MarkStopped(s: State): State {
    s.(data := if s.latch == NoFault then s.data.(state := Idle) else s.data)
  }

  function StopDecidingNext(s: State, t: Tid, next: Then): State {
    if OnWorkerThread(s, t) then Finish(s, t, next).(lock := None)
    else if s.joining then Move(s, t, StopAwaitJoin(next)).(lock := None)
    else match s.handle
      case None => Finish(MarkStopped(s), t, next).(lock := None)
      case Some(w) => TakeHandle(s, t, StopJoining(next, w))
  }

  function StopJoinedNext(s: State, t: Tid, next: Then): State {
    Finish(MarkStopped(s), t, next).(active := None, joining := false, joiner := None)
  }

  function DestroyEntryNext(s: State, t: Tid): State {
    Move(s, t, StopEntry(if OnWorkerThread(s, t) then Defer else Again))
  }

  function BeginDestroy(s: State, t: Tid): State {
    Move(s, t, DestroyEntry).(gone := if IsWorker(s, t) then ByCallback else ByCaller, owner := Some(t))
  }

  function DestroyerTakes(s: State): State {
    Move(s, DESTROYER, StopEntry(Again)).(pending := false, owner := Some(DESTROYER))
  }

  // ---------------------------------------------------------------- bias

  function BiasNext(s: State, biasOk: bool, startOk: bool): State {
    if s.stopping || !s.sessionStarted || s.latch != NoFault || s.data.state != Streaming then s   // throws
    else if !biasOk then s.(attempts := s.attempts + [Attempt(WireBias, false)])
    else s.(attempts := s.attempts + [Attempt(WireBias, true), Attempt(WireStart, startOk)])
  }

  // ---------------------------------------------------------------- worker

  function At(s: State, w: nat, pc: WorkerPc): State
    requires w in s.workers
  {
    s.(workers := s.workers[w := s.workers[w].(pc := pc)])
  }

  function Quit(s: State, w: nat, f: FaultCode): State
    requires w in s.workers
  {
    At(s, w, Closing(if s.stopping then Halt else Fail(f)))
  }

  /** `close_session`. */
  function CloseSession(s: State, ok: bool): State {
    SendStop(s, ok).(shutdownRequested := true)
  }

  function CommandingNext(s: State, w: nat, ok: bool): State
    requires w in s.workers
  {
    if s.stopping then At(s, w, Closing(Halt))
    else
      At(s, w, if ok then Resetting else Failing(SocketFault)).(
        attempts := s.attempts + [Attempt(WireStart, ok)], sessionStarted := ok)
  }

  /** Environment's choice for a worker step: success or a failure, an exception, what a fold over the record's content
      decides (`after`), and new values for the data it overwrites. */
  datatype Choice = Choice(ok: bool, throws: bool, after: WorkerPc, rest: int)

  /** Where the loop can go after a section of one record. */
  predicate AfterRecord(pc: WorkerPc) {
    pc == LoopCheck || (pc.Closing? && pc.outcome.Fail? && pc.outcome.fault != NoFault)
  }

  function JudgingNext(s: State, w: nat, o: Outcome): State
    requires w in s.workers
  {
    if o.Fail? && s.failStop then Publish(At(s, w, Retiring), o.fault)
    else if o.Halt? || s.stopping then At(s, w, Retiring)
    else At(s, w, BackingOff)
  }

  function FinishingNext(s: State, w: nat, c: Choice): State
    requires w in s.workers
  {
    At(s, w, c.after).(data := s.data.(latest := Some(s.workers[w].serial),
                                       deliveredGeneration := s.data.generation, rest := c.rest))
  }

  /** Steps before a session streams. */
  function OpeningNext(s: State, w: nat, c: Choice): State
    requires w in s.workers
  {
    match s.workers[w].pc
    case LoopTop => At(s, w, if s.stopping || s.latch != NoFault then Retiring else Entering)
    case Entering => At(s, w, EntryCheck).(data := s.data.(state := Connecting))
    case EntryCheck => At(s, w, if s.stopping then Closing(Halt) else Configuring)
    case Configuring =>
      if c.throws then At(s, w, Escaping)
      else At(s, w, if c.ok then ConfigCheck else Failing(SensorConfigurationFault)).(data := s.data.(rest := c.rest))
    case ConfigCheck => At(s, w, if s.stopping then Closing(Halt) else Linking)
    case Linking =>
      if c.ok then At(s, w, Commanding).(shutdownRequested := false) else At(s, w, Failing(SocketFault))
    case Commanding => CommandingNext(s, w, c.ok)
    case _ => s
  }

  /** Steps of the receive loop. */
  function StreamingNext(s: State, w: nat, c: Choice): State
    requires w in s.workers
  {
    match s.workers[w].pc
    case Resetting => At(s, w, if c.throws then Escaping else LoopCheck)
    case LoopCheck => At(s, w, if s.stopping then Closing(Halt) else if c.ok then Receiving else Failing(TimeoutFault))
    case Receiving => At(s, w, if c.ok then Received else Failing(SocketFault))
    case Received =>
      if s.stopping then At(s, w, Closing(Halt))
      else if c.throws then At(s, w, Escaping)
      else At(s, w, c.after).(data := s.data.(rest := c.rest))
    case Observing => At(s, w, c.after).(data := s.data.(state := Streaming, rest := c.rest))
    case InCallback => At(s, w, c.after).(data := s.data.(rest := c.rest))
    case Finishing => FinishingNext(s, w, c)
    case _ => s
  }

  /** What may follow: an empty datagram or a quiet deadline is a timeout unless a stop is seen, malformed data loops
      or ends the session, a record is observed. */
  predicate FollowsStreaming(pc: WorkerPc, after: WorkerPc) {
    match pc
    case Received => after in {Failing(TimeoutFault), LoopCheck, Closing(Fail(MalformedStormFault)), Observing}
    case Observing => after == InCallback || AfterRecord(after)
    case InCallback => after == Finishing || AfterRecord(after)
    case Finishing => AfterRecord(after)
    case _ => true
  }

  function ClosingNext(s: State, w: nat, c: Choice): State
    requires w in s.workers
  {
    match s.workers[w].pc
    case Failing(f) => Quit(s, w, f)
    case Closing(o) => CloseSession(At(s, w, Judging(o)), c.ok)
    case Judging(o) => JudgingNext(s, w, o)
    case BackingOff => At(s, w, Waiting).(data := s.data.(state := Backoff, rest := c.rest))
    case Waiting => At(s, w, if c.throws then Escaping else LoopTop)
    case Escaping => Publish(At(s, w, Retiring), if s.stopping then NoFault else SocketFault)
    case Retiring => CloseSession(At(s, w, Exiting), c.ok)
    case Exiting => At(s, w, Settling).(exited := true)
    case Settling => MarkStopped(At(s, w, Done))
    case _ => s
  }

  predicate OpeningPc(pc: WorkerPc) {
    pc in {LoopTop, Entering, EntryCheck, Configuring, ConfigCheck, Linking, Commanding}
  }

  /** From the command that starts the stream to the end of the receive loop. */
  predicate StreamingPc(pc: WorkerPc) {
    pc in {Resetting, LoopCheck, Receiving, Received, Observing, InCallback, Finishing}
  }

  function WorkerNext(s: State, w: nat, c: Choice): State
    requires w in s.workers
  {
    var pc := s.workers[w].pc;
    if OpeningPc(pc) then OpeningNext(s, w, c)
    else if StreamingPc(pc) then StreamingNext(s, w, c)
    else ClosingNext(s, w, c)
  }

  predicate WorkerEnabled(s: State, w: nat, c: Choice) {
    && w in s.workers
    && s.workers[w].pc != Done
    && FollowsStreaming(s.workers[w].pc, c.after)
    && (s.workers[w].pc == InCallback ==> s.workers[w].tid !in s.callers)
  }

  // ---------------------------------------------------------------- actions and runs

  datatype Action =
    | CallStart(t: Tid) | CallStop(t: Tid) | CallBias(t: Tid, biasOk: bool, startOk: bool) | CallDestroy(t: Tid)
    | DestroyerPicks
    | CallerStep(t: Tid, ok: bool, tid: Tid, callback: int)
    | WorkerStep(w: nat, choice: Choice)

  /** Whether the section of a call can be entered now: locks free, waited-for predicates true. */
  predicate CallerEnabled(s: State, t: Tid, ok: bool, tid: Tid) {
    && t in s.callers
    && match s.callers[t]
       case StartEntry => s.lock.None?
       case StartAwaitJoin => s.lock.None? && !s.joining
       case StartAwaitExit => s.lock.None? && (s.exited || s.latch == NoFault)
       case StartJoining(w) => w in s.workers && s.workers[w].pc == Done
       case StartJoined => s.lock.None?
       case StartCreating(_) => ok ==> tid !in s.callers && tid != DESTROYER && !IsWorker(s, tid)
       case StopEntry(_) => s.lock.None?
       case StopAwaitJoin(_) => s.lock.None? && !s.joining
       case StopJoining(_, w) => w in s.workers && s.workers[w].pc == Done
       case StopJoined(_) => s.lock.None?
       case DestroyEntry => s.lock.None?
       case _ => true
  }

  function CallerNext(s: State, t: Tid, ok: bool, tid: Tid, callback: int): State
    requires t in s.callers
  {
    match s.callers[t]
    case StartEntry => StartEntryNext(s, t)
    case StartAwaitJoin => StartDecide(s, t)
    case StartAwaitExit => Move(s, t, StartEntry)
    case StartJoining(w) => Move(Joined(s, w), t, StartJoined)
    case StartJoined => StartJoinedNext(s, t)
    case StartArming(entry) => StartArmingNext(s, t, entry, callback)
    case StartCreating(entry) => if ok then StartCreatingNext(s, t, tid) else Move(s, t, RollbackFlags(entry))
    case StartPublishing => StartPublishingNext(s, t)
    case RollbackFlags(entry) => RollbackFlagsNext(s, t, entry)
    case RollbackData(entry) => RollbackDataNext(s, t, entry)
    case RollbackLatch(entry) => RollbackLatchNext(s, t, entry)
    case RollbackFault(entry) => RollbackFaultNext(s, t, entry)
    case StopEntry(next) => StopEntryNext(s, t, next)
    case StopCommanding(next) => StopCommandingNext(s, t, next, ok)
    case StopDeciding(next) => StopDecidingNext(s, t, next)
    case StopAwaitJoin(next) => Move(s, t, StopEntry(next))
    case StopJoining(next, w) => Move(Joined(s, w), t, StopJoined(next))
    case StopJoined(next) => StopJoinedNext(s, t, next)
    case DestroyEntry => DestroyEntryNext(s, t)
  }

  predicate Enabled(s: State, a: Action) {
    match a
    case CallStart(t) => MayCall(s, t)
    case CallStop(t) => MayCall(s, t)
    case CallBias(t, _, _) => MayCall(s, t)
    case CallDestroy(t) => MayDestroy(s, t)
    case DestroyerPicks => s.pending
    case CallerStep(t, ok, tid, _) => CallerEnabled(s, t, ok, tid)
    case WorkerStep(w, c) => WorkerEnabled(s, w, c)
  }

  function Apply(s: State, a: Action): State
    requires Enabled(s, a)
  {
    match a
    case CallStart(t) => Move(s, t, StartEntry)
    case CallStop(t) => Move(s, t, StopEntry(Return))
    case CallBias(_, biasOk, startOk) => BiasNext(s, biasOk, startOk)
    case CallDestroy(t) => BeginDestroy(s, t)
    case DestroyerPicks => DestroyerTakes(s)
    case CallerStep(t, ok, tid, callback) => CallerNext(s, t, ok, tid, callback)
    case WorkerStep(w, c) => WorkerNext(s, w, c)
  }

  /** A run: the states after each prefix of a sequence of enabled actions. */
  predicate IsRun(states: seq<State>, actions: seq<Action>) {
    && |states| == |actions| + 1
    && (exists failStop :: states[0] == Initial(failStop))
    && forall i :: 0 <= i < |actions| ==> Enabled(states[i], actions[i]) && states[i + 1] == Apply(states[i], actions[i])
  }
}
