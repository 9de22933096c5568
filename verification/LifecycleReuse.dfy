/** Why a wait may be misled when it begins inside a start: if that start fails, its generation is used again. From every
    such state a run is built that ends with a wrong yes. */
module LifecycleReuse {
  import opened Protocol
  import opened Session
  import opened Lifecycle
  import opened LifecycleInvariant
  import opened CallerSteps
  import opened LifecycleRuns
  import opened LifecycleFrames
  import opened LifecycleWaits

  // ---------------------------------------------------------------- continuations

  /** The run of `actions` from `s` ends in `s'`. */
  predicate Leads(s: State, actions: seq<Action>, s': State)
    decreases |actions|
  {
    if actions == [] then s == s'
    else Enabled(s, actions[0]) && Leads(Apply(s, actions[0]), actions[1..], s')
  }

  lemma LeadsFirst(s: State, a: Action, actions: seq<Action>, s': State)
    requires Enabled(s, a) && Leads(Apply(s, a), actions, s')
    ensures Leads(s, [a] + actions, s')
  {
    hide Enabled, Apply;
    assert ([a] + actions)[1..] == actions;
  }

  predicate Follows(s: State, a: Action, s': State) {
    Enabled(s, a) && s' == Apply(s, a)
  }

  predicate IsTrace(states: seq<State>, actions: seq<Action>) {
    && |states| == |actions| + 1
    && forall k :: 0 <= k < |actions| ==> Follows(states[k], actions[k], states[k + 1])
  }

  lemma TraceLonger(s: State, a: Action, rest: seq<State>, actions: seq<Action>)
    requires IsTrace(rest, actions) && Follows(s, a, rest[0])
    ensures IsTrace([s] + rest, [a] + actions)
  {
    hide Follows;
    var states, all := [s] + rest, [a] + actions;
    forall k | 0 <= k < |all| ensures Follows(states[k], all[k], states[k + 1]) {
      if k > 0 {
        assert Follows(rest[k - 1], actions[k - 1], rest[k]);
      }
    }
  }

  /** The states a continuation goes through. */
  lemma {:induction false} Trace(s: State, actions: seq<Action>, s': State) returns (states: seq<State>)
    requires Leads(s, actions, s')
    ensures IsTrace(states, actions) && states[0] == s && states[|actions|] == s'
    decreases |actions|
  {
    hide Enabled, Apply, IsTrace;
    if actions == [] {
      states := [s];
      TraceOfNothing(s);
    } else {
      var rest := Trace(Apply(s, actions[0]), actions[1..], s');
      TraceSize(rest, actions[1..]);
      TraceLonger(s, actions[0], rest, actions[1..]);
      assert [actions[0]] + actions[1..] == actions;
      states := [s] + rest;
    }
  }

  lemma TraceOfNothing(s: State)
    ensures IsTrace([s], [])
  {
  }

  lemma TraceSize(states: seq<State>, actions: seq<Action>)
    requires IsTrace(states, actions)
    ensures |states| == |actions| + 1
  {
  }

  lemma TracesJoin(states: seq<State>, actions: seq<Action>, trace: seq<State>, more: seq<Action>)
    requires IsTrace(states, actions) && IsTrace(trace, more) && trace[0] == states[|actions|]
    ensures IsTrace(states + trace[1..], actions + more)
  {
    hide Follows;
    var all, acts := states + trace[1..], actions + more;
    forall k | 0 <= k < |acts| ensures Follows(all[k], acts[k], all[k + 1]) {
      if k < |actions| {
        assert Follows(states[k], actions[k], states[k + 1]);
      } else {
        var m := k - |actions|;
        assert all[k] == trace[m] && all[k + 1] == trace[m + 1];
        assert Follows(trace[m], more[m], trace[m + 1]);
      }
    }
  }

  lemma RunIsTrace(states: seq<State>, actions: seq<Action>)
    ensures IsRun(states, actions) <==> IsTrace(states, actions) && exists failStop :: states[0] == Initial(failStop)
  {
    hide Enabled, Apply;
    if IsTrace(states, actions) {
      forall k | 0 <= k < |actions|
        ensures Enabled(states[k], actions[k]) && states[k + 1] == Apply(states[k], actions[k])
      {
        assert Follows(states[k], actions[k], states[k + 1]);
      }
    }
  }

  /** A continuation of a run makes a longer run. */
  lemma RunGoesOn(states: seq<State>, actions: seq<Action>, more: seq<Action>, s': State)
    returns (states': seq<State>)
    requires IsRun(states, actions) && Leads(states[|actions|], more, s')
    ensures IsRun(states', actions + more) && states' != [] && states'[|states'| - 1] == s'
    ensures |states'| >= |states| && states'[..|states|] == states
  {
    hide IsRun, IsTrace, Leads;
    RunIsTrace(states, actions);
    TraceSize(states, actions);
    var trace := Trace(states[|actions|], more, s');
    TraceSize(trace, more);
    TracesJoin(states, actions, trace, more);
    states' := states + trace[1..];
    RunIsTrace(states', actions + more);
  }

  // ---------------------------------------------------------------- a worker delivers

  function Path(k: nat): WorkerPc
    requires k <= 13
  {
    [LoopTop, Entering, EntryCheck, Configuring, ConfigCheck, Linking, Commanding, Resetting, LoopCheck, Receiving,
     Received, Observing, InCallback, Finishing][k]
  }

  /** Everything goes well. */
  function Luck(after: WorkerPc): Choice {
    Choice(true, false, after, 0)
  }

  function LuckAt(k: nat): Choice
    requires k <= 13
  {
    Luck(if k < 13 then Path(k + 1) else LoopCheck)
  }

  /** A worker on its way to a delivery that nothing interrupts. */
  predicate OnItsWay(s: State, w: nat, k: nat) {
    && k <= 13 && w in s.workers && s.workers[w].pc == Path(k)
    && !s.stopping && s.latch == NoFault && s.workers[w].tid !in s.callers
  }

  predicate Unchanged(s: State, s': State, w: nat) {
    && s'.stopping == s.stopping && s'.latch == s.latch && s'.callers == s.callers
    && s'.data.generation == s.data.generation
    && w in s.workers && w in s'.workers && s'.workers[w] == s.workers[w].(pc := s'.workers[w].pc)
  }

  lemma Goes(s: State, s': State, w: nat, pc: WorkerPc)
    requires w in s.workers && s'.workers == s.workers[w := s.workers[w].(pc := pc)]
    requires s'.stopping == s.stopping && s'.latch == s.latch && s'.callers == s.callers
    requires s'.data.generation == s.data.generation
    ensures Unchanged(s, s', w) && s'.workers[w].pc == pc
  {
  }

  predicate GoesTo(s: State, s': State, w: nat, pc: WorkerPc) {
    Unchanged(s, s', w) && s'.workers[w].pc == pc
  }

  lemma AtGoes(s: State, w: nat, pc: WorkerPc, d: Data)
    requires w in s.workers && d.generation == s.data.generation
    ensures GoesTo(s, At(s, w, pc), w, pc) && GoesTo(s, At(s, w, pc).(data := d), w, pc)
  {
    hide Unchanged;
    Goes(s, At(s, w, pc), w, pc);
    Goes(s, At(s, w, pc).(data := d), w, pc);
  }

  lemma LinksWell(s: State, w: nat)
    requires w in s.workers
    ensures GoesTo(s, At(s, w, Commanding).(shutdownRequested := false), w, Commanding)
  {
    hide Unchanged;
    Goes(s, At(s, w, Commanding).(shutdownRequested := false), w, Commanding);
  }

  lemma CommandsWell(s: State, w: nat)
    requires w in s.workers && !s.stopping
    ensures GoesTo(s, CommandingNext(s, w, true), w, Resetting)
  {
    hide Unchanged;
    Goes(s, CommandingNext(s, w, true), w, Resetting);
  }

  lemma OpensWell(s: State, w: nat, k: nat)
    requires OnItsWay(s, w, k) && k <= 6
    ensures GoesTo(s, OpeningNext(s, w, LuckAt(k)), w, Path(k + 1))
  {
    hide GoesTo, At, CommandingNext;
    var d := s.data;
    match s.workers[w].pc
    case LoopTop => AtGoes(s, w, Entering, d);
    case Entering => AtGoes(s, w, EntryCheck, d.(state := Connecting));
    case EntryCheck => AtGoes(s, w, Configuring, d);
    case Configuring => AtGoes(s, w, ConfigCheck, d.(rest := 0));
    case ConfigCheck => AtGoes(s, w, Linking, d);
    case Linking => LinksWell(s, w);
    case Commanding => CommandsWell(s, w);
  }

  lemma StreamsWell(s: State, w: nat, k: nat)
    requires OnItsWay(s, w, k) && 7 <= k <= 12
    ensures GoesTo(s, StreamingNext(s, w, LuckAt(k)), w, Path(k + 1))
  {
    hide GoesTo, At;
    var d := s.data;
    match s.workers[w].pc
    case Resetting => AtGoes(s, w, LoopCheck, d);
    case LoopCheck => AtGoes(s, w, Receiving, d);
    case Receiving => AtGoes(s, w, Received, d);
    case Received => AtGoes(s, w, Observing, d.(rest := 0));
    case Observing => AtGoes(s, w, InCallback, d.(state := Streaming, rest := 0));
    case InCallback => AtGoes(s, w, Finishing, d.(rest := 0));
  }

  lemma Advances(s: State, w: nat, k: nat)
    requires OnItsWay(s, w, k) && k < 13
    ensures WorkerEnabled(s, w, LuckAt(k))
    ensures var s' := WorkerNext(s, w, LuckAt(k));
            && OnItsWay(s', w, k + 1) && s'.data.generation == s.data.generation
            && s'.workers[w].serial == s.workers[w].serial
  {
    hide OpeningNext, StreamingNext, ClosingNext;
    if k <= 6 {
      OpensWell(s, w, k);
    } else {
      StreamsWell(s, w, k);
    }
  }

  lemma Delivers(s: State, w: nat)
    requires OnItsWay(s, w, 13)
    ensures WorkerEnabled(s, w, LuckAt(13))
    ensures var d := WorkerNext(s, w, LuckAt(13)).data;
            d.generation == s.data.generation == d.deliveredGeneration && d.latest == Some(s.workers[w].serial)
  {
  }

  lemma {:induction false} DeliveryFollows(s: State, w: nat, k: nat) returns (actions: seq<Action>, s': State)
    requires OnItsWay(s, w, k)
    ensures Leads(s, actions, s')
    ensures s'.data.generation == s.data.generation == s'.data.deliveredGeneration
    ensures s'.data.latest == Some(s.workers[w].serial)
    decreases 13 - k
  {
    hide WorkerNext, WorkerEnabled, Path;
    var a := WorkerStep(w, LuckAt(k));
    if k == 13 {
      Delivers(s, w);
      s' := Apply(s, a);
      actions := [];
    } else {
      Advances(s, w, k);
      actions, s' := DeliveryFollows(Apply(s, a), w, k + 1);
    }
    LeadsFirst(s, a, actions, s');
    actions := [a] + actions;
  }

  // ---------------------------------------------------------------- a start that succeeds

  /** Nothing keeps `t` from starting the client. */
  predicate Startable(s: State, t: Tid) {
    && t !in s.callers && t != DESTROYER && !s.freed && s.gone == Present
    && s.lock.None? && s.handle.None? && !s.joining && s.exited && s.workers == map[]
  }

  /** In a start: armed as start `serial` with generation `g`. */
  predicate Begun(s: State, t: Tid, g: nat, serial: nat) {
    && t in s.callers && s.latch == NoFault && s.workers == map[]
    && s.data.generation == g && s.data.serial == serial
  }

  lemma {:induction false} FreshTid(used: set<Tid>) returns (tid: Tid)
    ensures tid > DESTROYER && forall t :: t in used ==> t < tid
  {
    if used == {} {
      tid := 1;
    } else {
      var t :| t in used;
      var above := FreshTid(used - {t});
      tid := if above > t then above else t + 1;
      forall u | u in used ensures u < tid {
        assert u == t || u in used - {t};
      }
    }
  }

  lemma CallsStart(s: State, t: Tid)
    requires Startable(s, t)
    ensures Enabled(s, CallStart(t))
    ensures var s' := Apply(s, CallStart(t)); s' == Move(s, t, StartEntry)
  {
  }

  lemma Arms(s: State, t: Tid)
    requires Startable(s, t)
    ensures var s' := Move(s, t, StartEntry);
            && CallerEnabled(s', t, true, 0)
            && CallerNext(s', t, true, 0, 0) == Arm(s', t)
            && Begun(Arm(s', t), t, s.data.generation + 1, s.starts + 1)
            && Arm(s', t).callers[t].StartArming?
  {
    hide TakeSnapshot;
  }

  lemma Clears(s: State, t: Tid, g: nat, serial: nat)
    requires Begun(s, t, g, serial) && s.callers[t].StartArming?
    ensures CallerEnabled(s, t, true, 0)
    ensures var s' := CallerNext(s, t, true, 0, 0);
            Begun(s', t, g, serial) && s'.callers[t].StartCreating? && !s'.stopping
  {
  }

  lemma Creates(s: State, t: Tid, g: nat, serial: nat, tid: Tid)
    requires Begun(s, t, g, serial) && s.callers[t].StartCreating? && !s.stopping
    requires tid > DESTROYER && forall u :: u in s.callers ==> u < tid
    ensures CallerEnabled(s, t, true, tid)
    ensures var s' := CallerNext(s, t, true, tid, 0);
            OnItsWay(s', s.spawned, 0) && s'.data.generation == g && s'.workers[s.spawned].serial == serial
  {
  }

  lemma CreationFollows(s: State, t: Tid, g: nat, serial: nat) returns (actions: seq<Action>, s': State)
    requires Begun(s, t, g, serial) && s.callers[t].StartCreating? && !s.stopping
    ensures Leads(s, actions, s')
    ensures s'.data.generation == g == s'.data.deliveredGeneration && s'.data.latest == Some(serial)
  {
    hide Begun, OnItsWay, CallerEnabled, CallerNext, Leads;
    var tid := FreshTid(s.callers.Keys);
    InKeys(s.callers, tid);
    Creates(s, t, g, serial, tid);
    var rest;
    rest, s' := DeliveryFollows(CallerNext(s, t, true, tid, 0), s.spawned, 0);
    LeadsFirst(s, CallerStep(t, true, tid, 0), rest, s');
    actions := [CallerStep(t, true, tid, 0)] + rest;
  }

  lemma InKeys(callers: Callers, tid: Tid)
    requires forall t :: t in callers.Keys ==> t < tid
    ensures forall t :: t in callers ==> t < tid
  {
  }

  /** A start by `t` can go through and deliver. */
  lemma StartFollows(s: State, t: Tid) returns (actions: seq<Action>, s': State)
    requires Startable(s, t)
    ensures Leads(s, actions, s')
    ensures s'.data.generation == s.data.generation + 1 == s'.data.deliveredGeneration
    ensures s'.data.latest == Some(s.starts + 1)
  {
    hide Startable, Begun, CallerEnabled, CallerNext, Leads, MayCall;
    CallsStart(s, t);
    Arms(s, t);
    var s1 := Move(s, t, StartEntry);
    var s2 := Arm(s1, t);
    Clears(s2, t, s.data.generation + 1, s.starts + 1);
    var step := CallerStep(t, true, 0, 0);
    var s3 := CallerNext(s2, t, true, 0, 0);
    actions, s' := CreationFollows(s3, t, s.data.generation + 1, s.starts + 1);
    LeadsFirst(s2, step, actions, s');
    LeadsFirst(s1, step, [step] + actions, s');
    LeadsFirst(s, CallStart(t), [step] + ([step] + actions), s');
    actions := [CallStart(t)] + ([step] + ([step] + actions));
  }

  // ---------------------------------------------------------------- a start that fails

  function Rank(pc: CallerPc): nat {
    match pc
    case StartArming(_) => 5
    case StartCreating(_) => 4
    case RollbackFlags(_) => 3
    case RollbackData(_) => 2
    case RollbackLatch(_) => 1
    case _ => 0
  }

  /** One step on the way of a start that fails. */
  predicate FailsInto(s: State, s': State, t: Tid, e: Snapshot, pc: CallerPc) {
    s'.callers == s.callers[t := pc] && SavedBy(pc) == Some(e) && s'.starts == s.starts
  }

  lemma CreationFails(s: State, t: Tid, e: Snapshot)
    ensures FailsInto(s, StartArmingNext(s, t, e, 0), t, e, StartCreating(e))
    ensures FailsInto(s, Move(s, t, RollbackFlags(e)), t, e, RollbackFlags(e))
  {
  }

  lemma RollbackFails(s: State, t: Tid, e: Snapshot)
    ensures FailsInto(s, RollbackFlagsNext(s, t, e), t, e, RollbackData(e))
    ensures FailsInto(s, RollbackDataNext(s, t, e), t, e, RollbackLatch(e))
    ensures FailsInto(s, RollbackLatchNext(s, t, e), t, e, RollbackFault(e))
  {
    hide SavedBy;
    assert SavedBy(RollbackData(e)) == SavedBy(RollbackLatch(e)) == SavedBy(RollbackFault(e)) == Some(e) by {
      Saved(e);
    }
  }

  lemma Saved(e: Snapshot)
    ensures SavedBy(RollbackData(e)) == SavedBy(RollbackLatch(e)) == SavedBy(RollbackFault(e)) == Some(e)
  {
  }

  lemma FailsInOrder(s: State, s': State, t: Tid, e: Snapshot, pc: CallerPc)
    requires FailsInto(s, s', t, e, pc) && EntryAt(s, t) == Some(e) && Rank(pc) < Rank(s.callers[t])
    ensures Creating(s', t) && EntryAt(s', t) == EntryAt(s, t) && t in s'.callers
    ensures Rank(s'.callers[t]) < Rank(s.callers[t]) && s'.starts == s.starts
  {
  }

  lemma FailsOn(s: State, t: Tid)
    requires Creating(s, t) && !s.callers[t].RollbackFault?
    ensures CallerEnabled(s, t, false, 0)
    ensures var s' := CallerNext(s, t, false, 0, 0);
            && Creating(s', t) && EntryAt(s', t) == EntryAt(s, t)
            && Rank(s'.callers[t]) < Rank(s.callers[t]) && s'.starts == s.starts
  {
    hide FailsInto, StartEntryNext, StartDecide, StartArmingNext, Move, RollbackFlagsNext, RollbackDataNext,
         RollbackLatchNext;
    var e := EntryAt(s, t).value;
    var s' := CallerNext(s, t, false, 0, 0);
    CreationFails(s, t, e);
    RollbackFails(s, t, e);
    match s.callers[t]
    case StartArming(_) => FailsInOrder(s, s', t, e, StartCreating(e));
    case StartCreating(_) => FailsInOrder(s, s', t, e, RollbackFlags(e));
    case RollbackFlags(_) => FailsInOrder(s, s', t, e, RollbackData(e));
    case RollbackData(_) => FailsInOrder(s, s', t, e, RollbackLatch(e));
    case RollbackLatch(_) => FailsInOrder(s, s', t, e, RollbackFault(e));
  }

  lemma AtTheEnd(s: State, t: Tid)
    requires Inv(s) && Creating(s, t) && s.callers[t].RollbackFault?
    ensures t != DESTROYER && !s.freed && s.gone == Present && s.handle.None? && !s.joining && s.exited
    ensures s.workers == map[] && s.data.generation == EntryAt(s, t).value.data.generation
  {
    hide CallersFit, Wires, Faults, JoinedOnce, FreedLast, IdPublished, Holders, FitsCallback;
    AtCall(s, t);
    assert s.workers.Keys == {};
  }

  lemma GivesUp(s: State, t: Tid)
    requires Inv(s) && Creating(s, t) && s.callers[t].RollbackFault?
    ensures CallerEnabled(s, t, false, 0)
    ensures var s' := CallerNext(s, t, false, 0, 0);
            && Startable(s', t) && s'.starts == s.starts
            && s'.data.generation == EntryAt(s, t).value.data.generation
  {
    hide Inv;
    AtTheEnd(s, t);
  }

  /** A start that has not created its worker can fail, and then leaves the generation it found. */
  lemma {:induction false} FailureFollows(s: State, t: Tid) returns (actions: seq<Action>, s': State)
    requires Inv(s) && Creating(s, t)
    ensures Leads(s, actions, s') && Startable(s', t) && s'.starts == s.starts
    ensures s'.data.generation == EntryAt(s, t).value.data.generation
    decreases Rank(s.callers[t])
  {
    hide Inv, CallerEnabled, CallerNext, Startable, Leads;
    var a := CallerStep(t, false, 0, 0);
    if s.callers[t].RollbackFault? {
      GivesUp(s, t);
      s' := Apply(s, a);
      actions := [];
      LeadsNowhere(s');
    } else {
      FailsOn(s, t);
      StepKeeps(s, a);
      actions, s' := FailureFollows(Apply(s, a), t);
    }
    LeadsFirst(s, a, actions, s');
    actions := [a] + actions;
  }

  lemma LeadsNowhere(s: State)
    ensures Leads(s, [], s)
  {
  }

  lemma {:induction false} LeadsThrough(s: State, first: seq<Action>, s1: State, second: seq<Action>, s2: State)
    requires Leads(s, first, s1) && Leads(s1, second, s2)
    ensures Leads(s, first + second, s2)
    decreases |first|
  {
    hide Enabled, Apply;
    if first == [] {
      assert first + second == second;
    } else {
      LeadsThrough(Apply(s, first[0]), first[1..], s1, second, s2);
      assert (first + second)[1..] == first[1..] + second;
    }
  }

  // ---------------------------------------------------------------- exactly when a wait can be misled

  /** A yes in `s'` to a wait that began in `s`, though the latest sample is not one of the start current in `s`. */
  predicate Misled(s: State, s': State) {
    WaitAnswer(s.data, s'.data) && s'.data.latest != Some(s.data.serial)
  }

  lemma ArmedMeans(s: State, t: Tid)
    requires Inv(s) && Armed(s, t)
    ensures Creating(s, t) && s.data.generation == EntryAt(s, t).value.data.generation + 1 && s.data.serial <= s.starts
  {
    hide CallersFit, Threads, Wires, Endings, FitsThreads, FitsCallback, FitsDestruction;
    AtCall(s, t);
  }

  /** From every state inside an unfinished start a run leads to a wrong yes: the start fails, and the next one takes its
      generation and delivers. */
  lemma ArmedMisleads(s: State, t: Tid) returns (actions: seq<Action>, s': State)
    requires Inv(s) && Armed(s, t)
    ensures Leads(s, actions, s') && Misled(s, s')
  {
    hide Inv, Armed, Startable, Leads;
    ArmedMeans(s, t);
    var fails, failed := FailureFollows(s, t);
    var starts;
    starts, s' := StartFollows(failed, t);
    LeadsThrough(s, fails, failed, starts, s');
    actions := fails + starts;
  }

  /** No continuation of a run misleads a wait that begins at its end, exactly when no thread is then inside a start that
      may still be taken back. */
  lemma WaitMisledExactly(states: seq<State>, actions: seq<Action>)
    requires IsRun(states, actions)
    ensures var s := states[|actions|];
            (exists more, s' :: Leads(s, more, s') && Misled(s, s')) <==> (exists t :: Armed(s, t))
  {
    hide Inv, Armed, Leads, Misled, Enabled, Apply;
    var s := states[|actions|];
    RunKeeps(states, actions, |actions|);
    if t :| Armed(s, t) {
      var more, s' := ArmedMisleads(s, t);
    }
    if more, s' :| Leads(s, more, s') && Misled(s, s') {
      if forall t :: !Armed(s, t) {
        NeverMisled(states, actions, more, s');
      }
    }
  }

  lemma NeverMisled(states: seq<State>, actions: seq<Action>, more: seq<Action>, s': State)
    requires IsRun(states, actions) && Leads(states[|actions|], more, s')
    requires forall t :: !Armed(states[|actions|], t)
    ensures !Misled(states[|actions|], s')
  {
    hide Inv, Armed, Leads, Enabled, Apply;
    var all := RunGoesOn(states, actions, more, s');
    assert all[..|states|][|actions|] == all[|actions|];
    WaitAnswersForItsStart(all, actions + more, |actions|, |all| - 1);
  }

  /** Such states are reached: a wait that begins while the very first start is under way can be misled. */
  lemma FirstStartCanMislead(failStop: bool) returns (actions: seq<Action>, s: State, more: seq<Action>, s': State)
    ensures Leads(Initial(failStop), actions, s) && Leads(s, more, s') && Misled(s, s')
  {
    hide Inv, Leads, CallerNext, CallerEnabled, MayCall;
    var s0, me: Tid := Initial(failStop), 1;
    InitialInv(failStop);
    CallsStart(s0, me);
    Arms(s0, me);
    var s1 := Move(s0, me, StartEntry);
    s := Arm(s1, me);
    var call, step := CallStart(me), CallerStep(me, true, 0, 0);
    StepKeeps(s0, call);
    StepKeeps(s1, step);
    LeadsNowhere(s);
    LeadsFirst(s1, step, [], s);
    LeadsFirst(s0, call, [step] + [], s);
    actions := [call] + ([step] + []);
    more, s' := ArmedMisleads(s, me);
  }
}
