/** What a worker makes of a stop and of a failing operation, how soon it is done, and what is published meanwhile. */
module LifecycleConduct {
  import opened Protocol
  import opened Session
  import opened Lifecycle
  import opened LifecycleInvariant
  import LifecycleFrames
  import opened LifecycleSafety
  import opened LifecyclePolicy

  /** The worker's step `i` of a run. */
  predicate IsWorkerStep(states: seq<State>, actions: seq<Action>, i: nat) {
    IsRun(states, actions) && i < |actions| && actions[i].WorkerStep?
  }

  lemma WorkerActs(states: seq<State>, actions: seq<Action>, i: nat) returns (pc: WorkerPc)
    requires IsWorkerStep(states, actions, i)
    ensures |states| == |actions| + 1 && Inv(states[i]) && WorkerEnabled(states[i], actions[i].w, actions[i].choice)
    ensures states[i + 1] == WorkerNext(states[i], actions[i].w, actions[i].choice)
    ensures actions[i].w in states[i].workers && Stepped(states[i], states[i + 1], actions[i].w, actions[i].choice, pc)
  {
    hide Inv, WorkerNext, Stepped;
    RunStep(states, actions, i);
    pc := WorkerStepIs(states[i], actions[i].w, actions[i].choice);
  }

  // ---------------------------------------------------------------- a visible stop

  /** Where a session looks for a stop. */
  predicate Looks(pc: WorkerPc) {
    pc in {EntryCheck, ConfigCheck, Commanding, LoopCheck, Received} || pc.Failing?
  }

  /** What a worker that sees a stop never begins: a session, a configuration, a connection, a stream, a receive, the
      handling of a record, a pause. */
  predicate Begins(pc: WorkerPc) {
    pc in {Entering, Configuring, Linking, Resetting, Receiving, Observing, BackingOff}
  }

  /** A session ends as stopped exactly where it looks and a stop is visible; the worker begins nothing then, and what it
      had found is not counted. */
  lemma StopEndsSession(states: seq<State>, actions: seq<Action>, i: nat)
    requires IsWorkerStep(states, actions, i)
    ensures actions[i].w in states[i].workers && actions[i].w in states[i + 1].workers
    ensures var s, was, pc := states[i], states[i].workers[actions[i].w].pc, states[i + 1].workers[actions[i].w].pc;
            && (pc == Closing(Halt) <==> s.stopping && Looks(was))
            && (s.stopping ==> !Begins(pc))
            && (s.stopping && !was.Judging? ==> states[i + 1].latch == s.latch)
  {
    hide IsRun, Inv, WorkerEnabled, WorkerNext, StateNext;
    var pc := WorkerActs(states, actions, i);
  }

  /** Without one it goes on, and a failure counts for what it is. */
  lemma GoesOnUnstopped(states: seq<State>, actions: seq<Action>, i: nat)
    requires IsWorkerStep(states, actions, i) && !states[i].stopping
    ensures actions[i].w in states[i].workers && actions[i].w in states[i + 1].workers
    ensures var was, pc := states[i].workers[actions[i].w].pc, states[i + 1].workers[actions[i].w].pc;
            && (was == LoopTop ==> pc == Entering) && (was == EntryCheck ==> pc == Configuring)
            && (was == ConfigCheck ==> pc == Linking) && (was.Failing? ==> pc == Closing(Fail(was.fault)))
  {
    hide IsRun, WorkerEnabled, WorkerNext, StateNext, Wires, Endings, CallersFit, Threads;
    var pc := WorkerActs(states, actions, i);
    if states[i].workers[actions[i].w].pc == LoopTop {
      UnlatchedAtTop(states[i], actions[i].w);
    }
  }

  lemma UnlatchedAtTop(s: State, w: nat)
    requires Inv(s) && w in s.workers && s.workers[w].pc == LoopTop
    ensures s.latch == NoFault
  {
    hide Wires, Endings, CallersFit, Holders, IdPublished, Generations, Coherent, Restoring;
    assert w in s.workers.Keys;
  }

  /** The steps a worker has left once it sees a stop. */
  function StepsLeft(pc: WorkerPc): nat {
    match pc
    case Done => 0
    case Settling => 1
    case Exiting => 2
    case Retiring => 3
    case LoopTop => 4
    case Escaping => 4
    case Judging(_) => 4
    case Waiting => 5
    case Closing(_) => 5
    case BackingOff => 6
    case Failing(_) => 6
    case EntryCheck => 6
    case ConfigCheck => 6
    case Commanding => 6
    case LoopCheck => 6
    case Received => 6
    case Entering => 7
    case Configuring => 7
    case Linking => 7
    case Resetting => 7
    case Receiving => 7
    case Finishing => 7
    case InCallback => 8
    case Observing => 9
  }

  function OwnSteps(actions: seq<Action>, w: nat): nat {
    if actions == [] then 0
    else
      OwnSteps(actions[..|actions| - 1], w) +
        if actions[|actions| - 1].WorkerStep? && actions[|actions| - 1].w == w then 1 else 0
  }

  lemma StepCounts(s: State, a: Action, w: nat)
    requires Inv(s) && Enabled(s, a) && s.stopping && w in s.workers && w in Apply(s, a).workers
    ensures var s' := Apply(s, a);
            && s'.stopping
            && StepsLeft(s'.workers[w].pc) + (if a.WorkerStep? && a.w == w then 1 else 0) <= StepsLeft(s.workers[w].pc)
  {
    hide Inv, WorkerEnabled, WorkerNext, CallerEnabled, CallerNext, StateNext, Publishes, LatchFrom, StepsLeft, Follow;
    if a.WorkerStep? {
      Working(s, a.w, a.choice);
      var pc := WorkerStepIs(s, a.w, a.choice);
      FollowCounts(SightOf(s), a.choice, s.workers[a.w].pc, pc);
    } else {
      OutsideStep(s, a);
    }
  }

  lemma FollowCounts(v: Sight, c: Choice, was: WorkerPc, pc: WorkerPc)
    requires Follow(v, c, was, pc) && v.stopping
    ensures StepsLeft(pc) < StepsLeft(was)
  {
  }

  lemma OwnStepsNext(actions: seq<Action>, i: nat, j: nat, w: nat)
    requires i < j <= |actions|
    ensures OwnSteps(actions[i..j], w)
            == OwnSteps(actions[i..j - 1], w) + if actions[j - 1].WorkerStep? && actions[j - 1].w == w then 1 else 0
  {
    assert actions[i..j][..j - i - 1] == actions[i..j - 1];
  }

  /** A stop takes effect: once one is visible it stays visible to the worker that exists, and that worker takes nine
      more steps of its own at most, whatever it was doing and whatever every other thread does. */
  lemma {:induction false} StopIsPrompt(states: seq<State>, actions: seq<Action>, i: nat, j: nat, w: nat)
    requires IsRun(states, actions) && i <= j < |states|
    requires states[i].stopping && w in states[i].workers && w in states[j].workers
    ensures states[j].stopping
    ensures OwnSteps(actions[i..j], w) + StepsLeft(states[j].workers[w].pc) <= StepsLeft(states[i].workers[w].pc)
    ensures OwnSteps(actions[i..j], w) <= 9
  {
    hide Inv, Apply, Enabled, StepsLeft;
    if i < j {
      RunStep(states, actions, j - 1);
      WasThere(states, actions, i, j - 1, w);
      StopIsPrompt(states, actions, i, j - 1, w);
      StepCounts(states[j - 1], actions[j - 1], w);
      OwnStepsNext(actions, i, j, w);
    }
    LeftBounded(states[i].workers[w].pc);
  }

  lemma LeftBounded(pc: WorkerPc)
    ensures StepsLeft(pc) <= 9
  {
  }

  /** A worker that is there before and after was there in between. */
  lemma WasThere(states: seq<State>, actions: seq<Action>, i: nat, j: nat, w: nat)
    requires IsRun(states, actions) && i <= j < |actions| && w in states[i].workers && w in states[j + 1].workers
    ensures w in states[j].workers
  {
    hide Inv, Apply, Enabled;
    OldWorkers(states, actions, i, j, w);
    RunStep(states, actions, j);
    LifecycleFrames.StepWorkers(states[j], actions[j]);
  }

  // ---------------------------------------------------------------- failing operations

  /** The fault that stands for a failure of what is done there. */
  function FailureOf(pc: WorkerPc): FaultCode {
    match pc
    case Configuring => SensorConfigurationFault
    case Linking => SocketFault
    case Commanding => SocketFault
    case Receiving => SocketFault
    case LoopCheck => TimeoutFault
    case _ => NoFault
  }

  /** A failing operation fails the session with the fault of that operation, and a working one does not; only an
      exception while configuring and a stop seen before the operation come first. Besides, a received datagram can be
      one that stands for silence. */
  lemma FailuresAreNamed(states: seq<State>, actions: seq<Action>, i: nat)
    requires IsWorkerStep(states, actions, i)
    ensures actions[i].w in states[i].workers && actions[i].w in states[i + 1].workers
    ensures var s, c := states[i], actions[i].choice;
            var was, pc := s.workers[actions[i].w].pc, states[i + 1].workers[actions[i].w].pc;
            if FailureOf(was) == NoFault then pc.Failing? ==> was == Received && pc.fault == TimeoutFault
            else
              && (pc.Failing? <==> !c.ok && !(was == Configuring && c.throws)
                                   && !((was == Commanding || was == LoopCheck) && s.stopping))
              && (pc.Failing? ==> pc.fault == FailureOf(was))
  {
    hide IsRun, Inv, WorkerEnabled, WorkerNext, StateNext;
    var pc := WorkerActs(states, actions, i);
  }

  // ---------------------------------------------------------------- what is published

  /** The states a client can show while its worker is there. */
  predicate Shows(pc: WorkerPc, state: ClientState) {
    if pc in {EntryCheck, Configuring, ConfigCheck, Linking, Commanding, Resetting} then state == Connecting
    else if pc in {LoopCheck, Receiving, Received, Observing} then state == Connecting || state == Streaming
    else if pc in {InCallback, Finishing} then state == Streaming
    else if pc == Waiting then state == Backoff
    else if pc == Done then state == Idle || state == Faulted
    else true
  }

  lemma ShowsNext(v: Sight, c: Choice, was: WorkerPc, pc: WorkerPc, state: ClientState)
    requires Follow(v, c, was, pc) && Shows(was, state) && (v.latch != NoFault ==> state == Faulted)
    ensures Shows(pc, StateNext(v, was, state))
  {
  }

  lemma LatchedIsFaulted(s: State, w: nat)
    requires Inv(s) && w in s.workers
    ensures s.latch != NoFault ==> s.data.state == Faulted
  {
    hide Wires, Endings, Holders, IdPublished, Generations, FaultsNamed, FitsCallback, FitsRollback, FitsDestruction;
    assert w in s.workers.Keys;
    if s.lock.Some? && s.lock.value in s.callers {
      assert Fits(AroundOf(s), s.lock.value, s.callers[s.lock.value]);
    }
  }

  ghost predicate AllShow(s: State) {
    forall w :: w in s.workers ==> Shows(s.workers[w].pc, s.data.state)
  }

  lemma StepShows(s: State, a: Action)
    requires Inv(s) && Enabled(s, a) && AllShow(s)
    ensures AllShow(Apply(s, a))
  {
    hide Inv, WorkerEnabled, WorkerNext, CallerEnabled, CallerNext, StateNext, Publishes, LatchFrom, Follow, Shows;
    if a.WorkerStep? {
      Working(s, a.w, a.choice);
      var pc := WorkerStepIs(s, a.w, a.choice);
      LatchedIsFaulted(s, a.w);
      ShowsNext(SightOf(s), a.choice, s.workers[a.w].pc, pc, s.data.state);
      forall v | v in s.workers ensures v == a.w {
        LifecycleFrames.OnlyOne(s, v, a.w);
      }
    } else {
      OutsideStep(s, a);
      TopShowsAny(Apply(s, a).data.state);
    }
  }

  lemma TopShowsAny(state: ClientState)
    ensures Shows(LoopTop, state)
  {
  }

  /** In every state of every run the published state tells what the worker is doing. */
  lemma {:induction false} StateTellsProgress(states: seq<State>, actions: seq<Action>, i: nat)
    requires IsRun(states, actions) && i < |states|
    ensures forall w :: w in states[i].workers ==> Shows(states[i].workers[w].pc, states[i].data.state)
  {
    hide Inv, Apply, Enabled, Shows;
    if i == 0 {
      assert states[0].workers == map[];
    } else {
      StateTellsProgress(states, actions, i - 1);
      RunStep(states, actions, i - 1);
      StepShows(states[i - 1], actions[i - 1]);
    }
  }
}
