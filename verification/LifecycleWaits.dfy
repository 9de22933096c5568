/** What `wait_for_first_sample` answers, and for which start. */
module LifecycleWaits {
  import opened Protocol
  import opened Lifecycle
  import opened LifecycleInvariant
  import opened CallerSteps
  import opened LifecycleRuns
  import opened LifecycleFrames
  import opened LifecycleSafety

  /** What a wait answers when it captured the generation in one state and was woken in a later one. */
  function WaitAnswer(captured: Data, woken: Data): bool {
    captured.generation != 0 && woken.generation == captured.generation && woken.deliveredGeneration == captured.generation
  }

  lemma WaitTellsTheTruth(states: seq<State>, actions: seq<Action>, i: nat, j: nat)
    requires IsRun(states, actions) && i <= j < |states|
    ensures var c, d := states[i].data, states[j].data;
            WaitAnswer(c, d) <==> c.generation != 0 && d.generation == c.generation && d.latest == Some(d.serial)
  {
    hide IsRun, Inv;
    GenerationMeansFreshSample(states, actions, j);
  }

  // ---------------------------------------------------------------- a wait that begins between starts

  /** Inside a start whose data is published but may still be taken back. */
  predicate ArmedPc(pc: CallerPc) {
    pc.StartArming? || pc.StartCreating? || pc.RollbackFlags? || pc.RollbackData?
  }

  predicate Armed(s: State, t: Tid) {
    t in s.callers && ArmedPc(s.callers[t])
  }

  /** Not an earlier start than that of `c`, and with its generation only that start itself. */
  predicate NotBefore(c: Data, d: Data) {
    c.generation < d.generation || SameStart(c, d)
  }

  /** So far the run has not fallen behind the start of `c`, and no rollback under way can take it there. */
  ghost predicate Ahead(c: Data, s: State) {
    NotBefore(c, s.data) && forall t :: Creating(s, t) ==> NotBefore(c, EntryAt(s, t).value.data)
  }

  lemma AheadAtFirst(s: State)
    requires Inv(s) && forall t :: !Armed(s, t)
    ensures Ahead(s.data, s)
  {
    hide Threads, Wires, Faults, Endings, FitsThreads, FitsCallback, FitsDestruction, GoodEntry;
    forall t | Creating(s, t) ensures NotBefore(s.data, EntryAt(s, t).value.data) {
      assert !Armed(s, t);
      AtCall(s, t);
    }
  }

  lemma OthersEntry(s: State, s': State, u: Tid, t: Tid)
    requires (SameWorkers(s, s', u) || CallerQuiet(s, s', u)) && u != t
    ensures Creating(s', t) == Creating(s, t)
  {
    hide StartForward, RollingBack, WorkersFrom;
  }

  lemma SameCallersEntry(s: State, s': State, t: Tid)
    requires s'.callers == s.callers
    ensures Creating(s', t) == Creating(s, t)
  {
  }

  lemma WorkerEnters(s: State, w: nat, c: Choice, t: Tid)
    requires WorkerEnabled(s, w, c)
    ensures Creating(WorkerNext(s, w, c), t) == Creating(s, t)
  {
    hide WorkerNext, Creating;
    WorkerSilent(s, w, c);
    SameCallersEntry(s, WorkerNext(s, w, c), t);
  }

  lemma BiasEnters(s: State, biasOk: bool, startOk: bool, t: Tid)
    ensures Creating(BiasNext(s, biasOk, startOk), t) == Creating(s, t)
  {
  }

  /** A start is being created only by a step of its own thread. */
  lemma NewEntry(s: State, a: Action, t: Tid)
    requires Enabled(s, a) && !Creating(s, t) && Creating(Apply(s, a), t)
    ensures EntryAt(Apply(s, a), t) == Some(TakeSnapshot(s))
  {
    hide MayCall, MayDestroy, CallerEnabled, CallerNext, WorkerNext, WorkerEnabled, BiasNext, Move, DestroyerTakes,
         BeginDestroy, TakeSnapshot, Creating, SameWorkers, CallerQuiet;
    match a
    case CallStart(u) => CallEnters(s, u, StartEntry, t);
    case CallStop(u) => CallEnters(s, u, StopEntry(Return), t);
    case CallBias(_, biasOk, startOk) => BiasEnters(s, biasOk, startOk, t);
    case CallDestroy(u) => DestroyEnters(s, u, t);
    case DestroyerPicks => DestroyEnters(s, DESTROYER, t);
    case CallerStep(u, ok, tid, callback) =>
      Inside(s, u, ok, tid);
      CallerStaysSilent(s, u, ok, tid, callback);
      if u == t {
        OwnEntry(s, t, ok, tid, callback);
        StartTakesSnapshot(s, t, ok, tid, callback);
      } else {
        OthersEntry(s, CallerNext(s, u, ok, tid, callback), u, t);
      }
    case WorkerStep(w, c) => WorkerEnters(s, w, c, t);
  }

  lemma CallEnters(s: State, u: Tid, pc: CallerPc, t: Tid)
    requires pc in {StartEntry, StopEntry(Return)}
    ensures Creating(Move(s, u, pc), t) ==> Creating(s, t)
  {
    hide Creating, SameWorkers, Move;
    MoveWorkers(s, u, pc);
    EntersNothing(s, u, pc);
    if u != t {
      OthersEntry(s, Move(s, u, pc), u, t);
    }
  }

  /** No start is created at program counters outside one. */
  lemma Uncreated(s: State, s': State, t: Tid, pc: CallerPc)
    requires SavedBy(pc).None? && (s'.callers == s.callers[t := pc] || s'.callers == s.callers - {t})
    ensures !Creating(s', t)
  {
  }

  lemma EntersNothing(s: State, t: Tid, pc: CallerPc)
    ensures SavedBy(pc).None? ==> !Creating(Move(s, t, pc), t)
    ensures SavedBy(StartEntry).None? && SavedBy(StopEntry(Return)).None?
  {
  }

  lemma DestroyEnters(s: State, u: Tid, t: Tid)
    ensures Creating(BeginDestroy(s, u), t) ==> Creating(s, t)
    ensures Creating(DestroyerTakes(s), t) ==> Creating(s, t)
  {
    hide Creating, SameWorkers, BeginDestroy, DestroyerTakes;
    DestroyWorkers(s, u);
    DestroyedPcs(s, u);
    if u != t {
      OthersEntry(s, BeginDestroy(s, u), u, t);
    }
    if DESTROYER != t {
      OthersEntry(s, DestroyerTakes(s), DESTROYER, t);
    }
  }

  lemma DestroyedPcs(s: State, t: Tid)
    ensures !Creating(BeginDestroy(s, t), t) && !Creating(DestroyerTakes(s), DESTROYER)
  {
    hide Creating, IsWorker;
    Uncreated(s, BeginDestroy(s, t), t, DestroyEntry);
    Uncreated(s, DestroyerTakes(s), DESTROYER, StopEntry(Again));
  }

  lemma FinishEnters(s: State, t: Tid, n: Then)
    ensures !Creating(Finish(s, t, n), t) && !Creating(Finish(s, t, n).(lock := None), t)
  {
    hide Creating;
    Uncreated(s, Finish(s, t, n), t, StopEntry(Free));
    Uncreated(s, Finish(s, t, n).(lock := None), t, StopEntry(Free));
  }

  lemma WaitEnters(s: State, t: Tid, n: Then, w: nat)
    ensures !Creating(Move(s, t, StopAwaitJoin(n)).(lock := None), t)
    ensures !Creating(TakeHandle(s, t, StopJoining(n, w)), t)
  {
    hide Creating;
    Uncreated(s, Move(s, t, StopAwaitJoin(n)).(lock := None), t, StopAwaitJoin(n));
    Uncreated(s, TakeHandle(s, t, StopJoining(n, w)), t, StopJoining(n, w));
  }

  lemma StopDecidingEnters(s: State, t: Tid, n: Then)
    ensures !Creating(StopDecidingNext(s, t, n), t)
  {
    hide Creating, Finish, MarkStopped, Move, TakeHandle, OnWorkerThread;
    FinishEnters(s, t, n);
    FinishEnters(MarkStopped(s), t, n);
    WaitEnters(s, t, n, if s.handle.Some? then s.handle.value else 0);
  }

  lemma JoinEnters(s: State, t: Tid, n: Then, w: nat)
    ensures !Creating(Move(Joined(s, w), t, StartJoined), t) && !Creating(Move(Joined(s, w), t, StopJoined(n)), t)
    ensures !Creating(StartJoinedNext(s, t), t) && !Creating(StartPublishingNext(s, t), t)
  {
    hide Creating;
    Uncreated(s, Move(Joined(s, w), t, StartJoined), t, StartJoined);
    Uncreated(s, Move(Joined(s, w), t, StopJoined(n)), t, StopJoined(n));
    Uncreated(s, StartJoinedNext(s, t), t, StartEntry);
    Uncreated(s, StartPublishingNext(s, t), t, StartEntry);
  }

  lemma CommandEnters(s: State, t: Tid, n: Then, ok: bool)
    ensures !Creating(StopEntryNext(s, t, n), t) && !Creating(StopCommandingNext(s, t, n, ok), t)
  {
    hide Creating, DoomAll;
    Uncreated(s, StopEntryNext(s, t, n), t, StopCommanding(n));
    Uncreated(s, StopCommandingNext(s, t, n, ok), t, StopDeciding(n));
  }

  lemma DestroyEntryEnters(s: State, t: Tid)
    ensures !Creating(DestroyEntryNext(s, t), t)
  {
    hide OnWorkerThread;
  }

  lemma StopJoinedEnters(s: State, t: Tid, n: Then)
    ensures !Creating(StopJoinedNext(s, t, n), t)
  {
    hide MarkStopped;
  }

  lemma OwnEntry(s: State, t: Tid, ok: bool, tid: Tid, callback: int)
    requires t in s.callers && !Creating(s, t) && Creating(CallerNext(s, t, ok, tid, callback), t)
    ensures s.callers[t] in {StartEntry, StartAwaitJoin}
  {
    hide Move, StartEntryNext, StartDecide, StartJoinedNext, StopDecidingNext, StopJoinedNext, StopEntryNext,
         DestroyEntryNext, StartPublishingNext, StopCommandingNext, Joined, Creating;
    CreatingIs(s, t);
    match s.callers[t]
    case StopEntry(n) => CommandEnters(s, t, n, ok);
    case StopCommanding(n) => CommandEnters(s, t, n, ok);
    case StopDeciding(n) => StopDecidingEnters(s, t, n);
    case StopAwaitJoin(n) => EntersNothing(s, t, StopEntry(n));
    case StopJoining(n, w) => JoinEnters(s, t, n, w);
    case StopJoined(n) => StopJoinedEnters(s, t, n);
    case StartJoining(w) => JoinEnters(s, t, Return, w);
    case StartAwaitExit => EntersNothing(s, t, StartEntry);
    case StartJoined => JoinEnters(s, t, Return, 0);
    case StartPublishing => JoinEnters(s, t, Return, 0);
    case DestroyEntry => DestroyEntryEnters(s, t);
    case _ =>
  }

  /** The step that restores the data takes it from the entry. */
  lemma RollingBackRestores(s: State, t: Tid, ok: bool, tid: Tid, callback: int)
    requires RollingBack(s, t)
    ensures Creating(s, t) && CallerNext(s, t, ok, tid, callback).data == EntryAt(s, t).value.data
  {
    hide TakeSnapshot;
  }

  lemma StaysAhead(c: Data, s: State, a: Action)
    requires Inv(s) && Enabled(s, a) && Ahead(c, s)
    ensures Ahead(c, Apply(s, a))
  {
    hide Inv, Enabled, Apply, EntryAt;
    var s' := Apply(s, a);
    if a.CallerStep? && RollingBack(s, a.t) {
      RollingBackStep(s, a);
    } else {
      StepStartForward(s, a);
    }
    forall t | Creating(s', t) ensures NotBefore(c, EntryAt(s', t).value.data) {
      if Creating(s, t) {
        StepCarries(s, a, t);
      } else {
        NewEntry(s, a, t);
      }
    }
  }

  lemma RollingBackStep(s: State, a: Action)
    requires Enabled(s, a) && a.CallerStep? && RollingBack(s, a.t)
    ensures Creating(s, a.t) && Apply(s, a).data == EntryAt(s, a.t).value.data
  {
    hide CallerNext, EntryAt;
    RollingBackRestores(s, a.t, a.ok, a.tid, a.callback);
  }

  lemma {:induction false} RunStaysAhead(states: seq<State>, actions: seq<Action>, i: nat, j: nat)
    requires IsRun(states, actions) && i <= j < |states| && forall t :: !Armed(states[i], t)
    ensures Ahead(states[i].data, states[j])
  {
    hide Inv, Apply, Enabled, Ahead, Armed;
    RunKeeps(states, actions, i);
    if i == j {
      AheadAtFirst(states[i]);
    } else {
      RunStep(states, actions, j - 1);
      RunStaysAhead(states, actions, i, j - 1);
      StaysAhead(states[i].data, states[j - 1], actions[j - 1]);
    }
  }

  /** A wait that begins while no start can still be taken back answers for the start that was current then: yes exactly
      when that start is still current and has delivered. */
  lemma WaitAnswersForItsStart(states: seq<State>, actions: seq<Action>, i: nat, j: nat)
    requires IsRun(states, actions) && i <= j < |states| && forall t :: !Armed(states[i], t)
    ensures var c, d := states[i].data, states[j].data;
            WaitAnswer(c, d) <==> c.generation != 0 && d.generation == c.generation && d.latest == Some(c.serial)
  {
    hide IsRun, Armed, Inv, Creating;
    RunStaysAhead(states, actions, i, j);
    WaitTellsTheTruth(states, actions, i, j);
    GenerationMeansFreshSample(states, actions, j);
  }
}
