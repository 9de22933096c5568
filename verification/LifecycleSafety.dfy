/** What every run of the lifecycle guarantees. */
module LifecycleSafety {
  import opened Protocol
  import opened Session
  import opened Lifecycle
  import opened LifecycleInvariant
  import opened CallerSteps
  import opened LifecycleRuns
  import opened LifecycleFrames

  // ---------------------------------------------------------------- threads

  /** At most one worker thread exists, whatever calls are under way; each thread ever created is joined exactly once,
      and not before its last step. */
  lemma OneWorkerJoinedOnce(states: seq<State>, actions: seq<Action>, i: nat)
    requires IsRun(states, actions) && i < |states|
    ensures forall w, u :: w in states[i].workers && u in states[i].workers ==> w == u
    ensures forall w: nat :: states[i].joined[w] == if w < states[i].spawned && w !in states[i].workers then 1 else 0
    ensures forall w :: w in states[i].workers ==> w < states[i].spawned
  {
    hide IsRun, CallersFit, Wires, Faults, Holders, IdPublished, Destruction, FreedLast;
    RunKeeps(states, actions, i);
  }

  /** A join waits for a thread that is not the joining one. */
  lemma NeverJoinsItself(states: seq<State>, actions: seq<Action>, i: nat, t: Tid)
    requires IsRun(states, actions) && i < |states| && t in states[i].callers && IsWorker(states[i], t)
    ensures InItsCallback(states[i], t)
    ensures var pc := states[i].callers[t];
            !pc.StartJoining? && !pc.StopJoining? && !pc.StartAwaitJoin? && !pc.StopAwaitJoin? && !pc.StartAwaitExit?
  {
    hide IsRun, Wires, Faults, Endings, IsWorker, InItsCallback, Threads, FitsRollback, FitsDestruction, FitsThreads;
    RunKeeps(states, actions, i);
    WorkerThread(states[i], t);
    assert Fits(AroundOf(states[i]), t, states[i].callers[t]);
  }

  /** The implementation is freed after its last worker was joined and when no thread is inside a call; nothing can
      happen to it afterwards. */
  lemma FreedAfterEverything(states: seq<State>, actions: seq<Action>, i: nat)
    requires IsRun(states, actions) && i < |states| && states[i].freed
    ensures states[i].workers == map[] && states[i].callers == map[]
    ensures forall w: nat :: w < states[i].spawned ==> states[i].joined[w] == 1
    ensures forall a :: !Enabled(states[i], a)
    ensures i == |states| - 1
  {
    hide CallersFit, Wires, Faults, Holders, IdPublished;
    RunKeeps(states, actions, i);
    assert states[i].workers.Keys == {};
    assert i < |actions| ==> Enabled(states[i], actions[i]);
  }

  // ---------------------------------------------------------------- faults and generations

  /** The published state and the latch agree, but for the moment between a failed start's restoring the data and its
      restoring the latch. */
  lemma StateMatchesLatch(states: seq<State>, actions: seq<Action>, i: nat)
    requires IsRun(states, actions) && i < |states|
    ensures var s := states[i];
            || ((s.data.state == Faulted <==> s.latch != NoFault) && s.data.faultCode == s.latch)
            || (s.lock.Some? && s.lock.value in s.callers
                && (s.callers[s.lock.value].RollbackLatch? || s.callers[s.lock.value].RollbackFault?))
  {
    hide IsRun, CallersFit, Wires, Threads, Endings;
    RunKeeps(states, actions, i);
  }

  /** `delivered_generation_ == generation_ > 0` holds exactly when the latest sample was delivered since the current
      start, through failed starts too. */
  lemma GenerationMeansFreshSample(states: seq<State>, actions: seq<Action>, i: nat)
    requires IsRun(states, actions) && i < |states|
    ensures var d := states[i].data;
            d.deliveredGeneration == d.generation && d.generation > 0 <==> d.latest == Some(d.serial)
  {
    hide IsRun, CallersFit, Wires, Threads, Endings;
    RunKeeps(states, actions, i);
  }

  // ---------------------------------------------------------------- commands

  function Commands(attempts: seq<Attempt>): seq<Wire> {
    seq(|attempts|, i requires 0 <= i < |attempts| => attempts[i].command)
  }

  predicate AllSent(attempts: seq<Attempt>) {
    forall i :: 0 <= i < |attempts| ==> attempts[i].ok
  }

  /** A session's commands so far: started, and biased as many times. */
  function Opened(biases: nat): seq<Wire> {
    if biases == 0 then [WireStart] else Opened(biases - 1) + [WireBias, WireStart]
  }

  /** Closed sessions one after the other, each given by its number of biases. */
  function Transcript(sessions: seq<nat>): seq<Wire> {
    if sessions == [] then [] else Transcript(sessions[..|sessions| - 1]) + Opened(sessions[|sessions| - 1]) + [WireStop]
  }

  function Tail(air: Air, biases: nat): seq<Wire> {
    match air
    case OffAir => []
    case OnAir => Opened(biases)
    case MidBias => Opened(biases) + [WireBias]
  }

  /** The sequences the automaton accepts are (Start (Bias Start)* Stop)*, perhaps with the last session open. */
  lemma {:induction false} HeardIsTranscript(attempts: seq<Attempt>) returns (sessions: seq<nat>, biases: nat)
    requires Heard(attempts).Some? && AllSent(attempts)
    ensures Commands(attempts) == Transcript(sessions) + Tail(Heard(attempts).value, biases)
  {
    if attempts == [] {
      sessions, biases := [], 0;
    } else {
      var n := |attempts| - 1;
      var front, last := attempts[..n], attempts[n];
      sessions, biases := HeardIsTranscript(front);
      assert Commands(attempts) == Commands(front) + [last.command];
      match (Heard(front).value, last.command)
      case (OffAir, WireStart) => biases := 0;
      case (OnAir, WireBias) =>
      case (MidBias, WireStart) => biases := biases + 1;
      case (OnAir, WireStop) =>
        assert (sessions + [biases])[..|sessions|] == sessions;
        sessions := sessions + [biases];
    }
  }

  lemma {:induction false} HeardPrefix(attempts: seq<Attempt>, k: nat)
    requires Heard(attempts).Some? && k <= |attempts|
    ensures Heard(attempts[..k]).Some?
    decreases |attempts|
  {
    if k == |attempts| {
      assert attempts[..k] == attempts;
    } else {
      HeardPrefix(attempts[..|attempts| - 1], k);
      assert attempts[..|attempts| - 1][..k] == attempts[..k];
    }
  }

  /** Over the whole life of a client, if every send goes through, the commands are sessions one after the other. */
  lemma CommandsFormSessions(states: seq<State>, actions: seq<Action>, i: nat)
    requires IsRun(states, actions) && i < |states| && AllSent(states[i].attempts)
    ensures var cs := Commands(states[i].attempts);
            if states[i].sessionStarted then exists sessions, biases :: cs == Transcript(sessions) + Opened(biases)
            else exists sessions :: cs == Transcript(sessions)
  {
    hide IsRun, CallersFit, Faults, Threads, Endings, Heard;
    RunKeeps(states, actions, i);
    var sessions, biases := HeardIsTranscript(states[i].attempts);
    assert Transcript(sessions) + [] == Transcript(sessions);
  }

  lemma RunIsHeard(states: seq<State>, actions: seq<Action>, i: nat)
    requires IsRun(states, actions) && i < |states|
    ensures Heard(states[i].attempts).Some?
  {
    hide IsRun, CallersFit, Faults, Threads, Endings, Heard;
    RunKeeps(states, actions, i);
  }

  /** Whether or not sends fail, a stop command is followed by a start command only, and so is a start that failed. */
  lemma NothingAfterStop(states: seq<State>, actions: seq<Action>, i: nat, k: nat)
    requires IsRun(states, actions) && i < |states| && k + 1 < |states[i].attempts|
    requires var attempts := states[i].attempts;
             || attempts[k].command == WireStop
             || (attempts[k] == Attempt(WireStart, false) && (k > 0 ==> attempts[k - 1].command != WireBias))
    ensures states[i].attempts[k + 1].command == WireStart
  {
    hide IsRun, Heard;
    RunIsHeard(states, actions, i);
    StartsAfterStop(states[i].attempts, k);
  }

  lemma StartsAfterStop(attempts: seq<Attempt>, k: nat)
    requires Heard(attempts).Some? && k + 1 < |attempts|
    requires attempts[k].command == WireStop
             || (attempts[k] == Attempt(WireStart, false) && (k > 0 ==> attempts[k - 1].command != WireBias))
    ensures attempts[k + 1].command == WireStart
  {
    HeardPrefix(attempts, k + 2);
    assert attempts[..0] == [];
    assert Heard([]) == Some(OffAir);
    hide Heard;
    HeardStep(attempts, k + 1);
    HeardStep(attempts, k);
    if k > 0 {
      HeardStep(attempts, k - 1);
    }
  }

  lemma HeardStep(attempts: seq<Attempt>, k: nat)
    requires k < |attempts|
    ensures Heard(attempts[..k + 1]) == Hear(Heard(attempts[..k]), attempts[k])
  {
    assert attempts[..k + 1] == attempts[..k] + [attempts[k]];
    HeardNext(attempts[..k], attempts[k]);
  }

  // ---------------------------------------------------------------- no stop is lost

  lemma RunStep(states: seq<State>, actions: seq<Action>, k: nat)
    requires IsRun(states, actions) && k + 1 < |states|
    ensures k < |actions|
    ensures Inv(states[k]) && Enabled(states[k], actions[k]) && states[k + 1] == Apply(states[k], actions[k])
  {
    hide Inv, Apply, Enabled;
    RunKeeps(states, actions, k);
  }

  /** No stop is lost: from the moment a stop leaves its command section until the worker it found is joined, that
      worker sees the shutdown flag whenever it receives, and no command leaves the client. */
  lemma {:induction false} NoStopIsLost(states: seq<State>, actions: seq<Action>, i: nat, j: nat, t: Tid, w: nat)
    requires IsRun(states, actions) && i < j < |states| && w in states[i].workers && w in states[j].workers
    requires actions[i].CallerStep? && actions[i].t == t && t in states[i].callers
             && states[i].callers[t].StopCommanding?
    ensures states[j].stopping && !states[j].sessionStarted
    ensures StreamingPc(states[j].workers[w].pc) ==> states[j].shutdownRequested
    ensures states[j].attempts == states[i + 1].attempts
  {
    hide IsRun, Inv, StreamingPc;
    StaysDoomed(states, actions, i, j, t, w);
    RunKeeps(states, actions, j);
    DoomedMeans(states[j], w);
  }

  /** A joined worker never comes back, so it was there all along. */
  lemma {:induction false} StaysDoomed(states: seq<State>, actions: seq<Action>, i: nat, j: nat, t: Tid, w: nat)
    requires IsRun(states, actions) && i < j < |states| && w in states[i].workers && w in states[j].workers
    requires actions[i].CallerStep? && actions[i].t == t && t in states[i].callers
             && states[i].callers[t].StopCommanding?
    ensures DoomedAt(states[j], w) && states[j].attempts == states[i + 1].attempts
  {
    hide Inv, Apply, Enabled, DoomedAt;
    RunStep(states, actions, j - 1);
    if j == i + 1 {
      StopDooms(states[i], actions[i], w);
    } else {
      OldWorkers(states, actions, i, j - 1, w);
      StepWorkers(states[j - 1], actions[j - 1]);
      StaysDoomed(states, actions, i, j - 1, t, w);
      StepStaysSilent(states[j - 1], actions[j - 1], w);
    }
  }

  lemma {:induction false} OldWorkers(states: seq<State>, actions: seq<Action>, i: nat, j: nat, w: nat)
    requires IsRun(states, actions) && i <= j < |states| && w in states[i].workers
    ensures w < states[j].spawned
  {
    hide Inv, Apply, Enabled, IsRun;
    if i == j {
      OneWorkerJoinedOnce(states, actions, i);
    } else {
      RunStep(states, actions, j - 1);
      OldWorkers(states, actions, i, j - 1, w);
      StepWorkers(states[j - 1], actions[j - 1]);
    }
  }

  // ---------------------------------------------------------------- a failed start

  lemma {:induction false} EntryCarried(states: seq<State>, actions: seq<Action>, i: nat, j: nat, t: Tid)
    requires IsRun(states, actions) && i < j < |states|
    requires forall k :: i < k <= j ==> Creating(states[k], t)
    ensures EntryAt(states[j], t) == EntryAt(states[i + 1], t)
    ensures states[j].attempts == states[i + 1].attempts && states[j].spawned == states[i + 1].spawned
  {
    hide Inv, Apply, Enabled, EntryAt, Creating;
    if j > i + 1 {
      RunStep(states, actions, j - 1);
      EntryCarried(states, actions, i, j - 1, t);
      StepCarries(states[j - 1], actions[j - 1], t);
    }
  }

  /** A start whose thread creation fails leaves the client as it found it, whatever other threads did meanwhile: flags,
      callback, data and fault are those of the state in which it decided to start; nothing was sent or created. */
  lemma FailedStartRestores(states: seq<State>, actions: seq<Action>, i: nat, j: nat, t: Tid)
    requires IsRun(states, actions) && i < j < |actions|
    requires actions[i].CallerStep? && actions[i].t == t
    requires t in states[i].callers && states[i].callers[t] in {StartEntry, StartAwaitJoin}
    requires forall k :: i < k <= j ==> Creating(states[k], t)
    requires actions[j].CallerStep? && actions[j].t == t
    requires t in states[j].callers && states[j].callers[t].RollbackFault?
    ensures TakeSnapshot(states[j + 1]) == TakeSnapshot(states[i])
    ensures states[j].attempts == states[i].attempts && states[j].spawned == states[i].spawned
            && states[j].workers == map[]
  {
    hide Inv, Enabled, TakeSnapshot, RollbackFaultNext, CallerNext;
    RunStep(states, actions, i);
    RunStep(states, actions, j);
    EntryCarried(states, actions, i, j, t);
    StartTakesSnapshot(states[i], t, actions[i].ok, actions[i].tid, actions[i].callback);
    CreatingMeans(states[j], t);
    RollbackCompletes(states[j], t);
    RollbackIs(states[j], t, actions[j].ok, actions[j].tid, actions[j].callback);
  }

  lemma RollbackIs(s: State, t: Tid, ok: bool, tid: Tid, callback: int)
    requires t in s.callers && s.callers[t].RollbackFault?
    ensures CallerNext(s, t, ok, tid, callback) == RollbackFaultNext(s, t, s.callers[t].entry)
  {
  }

  // ---------------------------------------------------------------- what a stop leaves behind

  /** The call of stop is over: the thread left, or its destructor goes on. */
  predicate StopEnded(s: State, t: Tid) {
    t !in s.callers || s.callers[t] == StopEntry(Free)
  }

  lemma NoWorkerAtEnd(s: State, t: Tid)
    requires Inv(s) && t in s.callers
    ensures s.callers[t].StopJoined? ==> s.workers == map[]
    ensures s.callers[t].StopDeciding? && s.handle.None? && !s.joining ==> s.workers == map[]
  {
    hide CallersFit, Wires, Faults, Endings, Holders, IdPublished, FitsRollback, FitsDestruction, FitsCallback;
    AtCall(s, t);
    if s.current.None? {
      assert s.workers.Keys == {};
    }
  }

  lemma StopEndsWith(s: State, t: Tid, n: Then)
    requires t in s.callers && s.callers[t] == StopDeciding(n) && !OnWorkerThread(s, t)
    ensures StopEnded(StopDecidingNext(s, t, n), t) ==> s.handle.None? && !s.joining
  {
    hide Finish, MarkStopped;
  }

  lemma JoinedMarks(s: State, t: Tid, n: Then)
    ensures var s' := StopJoinedNext(s, t, n); s'.latch == s.latch && (s.latch == NoFault ==> s'.data.state == Idle)
  {
  }

  lemma DecidingMarks(s: State, t: Tid, n: Then)
    requires s.handle.None? && !s.joining && !OnWorkerThread(s, t)
    ensures var s' := StopDecidingNext(s, t, n); s'.latch == s.latch && (s.latch == NoFault ==> s'.data.state == Idle)
  {
    hide OnWorkerThread;
  }

  /** When a stop that was not called from the callback is over, the worker is gone: no callback runs and nothing is
      received until another start. What was latched stays, and otherwise the client is idle. */
  lemma StopLeavesNoWorker(states: seq<State>, actions: seq<Action>, i: nat, t: Tid)
    requires IsRun(states, actions) && i < |actions| && actions[i].CallerStep? && actions[i].t == t
    requires t in states[i].callers && (states[i].callers[t].StopDeciding? || states[i].callers[t].StopJoined?)
    requires !OnWorkerThread(states[i], t) && StopEnded(states[i + 1], t)
    ensures states[i + 1].workers == map[]
    ensures states[i + 1].latch == states[i].latch && (states[i].latch == NoFault ==> states[i + 1].data.state == Idle)
  {
    hide Inv, OnWorkerThread, StopDecidingNext, StopJoinedNext, StopEnded, CallerEnabled;
    RunStep(states, actions, i);
    NoWorkerAtEnd(states[i], t);
    var a := actions[i];
    var n := NextOf(states[i].callers[t]);
    if states[i].callers[t].StopDeciding? {
      StopEndsWith(states[i], t, n);
      DecidingMarks(states[i], t, n);
    } else {
      JoinedMarks(states[i], t, n);
    }
    CallerWorkers(states[i], t, a.ok, a.tid, a.callback);
  }
}
