/** The ros2_control plugin of src/netft_hardware_interface.cpp: fault latches, the real-time sample buffer and the six
    exported axes. Lifecycle calls and reads are methods; callbacks of the client's worker and failures of the auxiliary
    executor come in between. */
module PluginLatch {
  import opened Protocol
  import opened Session

  const AXES: nat := 6

  datatype Double = Finite(value: real) | Infinite | NaN

  /** A converted sample: force and torque components, and when its record was received (steady clock, nanoseconds). */
  datatype SiSample = SiSample(values: seq<Double>, receivedAt: int)

  const ZERO: Double := Finite(0.0)
  const NO_SAMPLE: SiSample := SiSample([ZERO, ZERO, ZERO, ZERO, ZERO, ZERO], 0)

  const ALL_NAN: seq<Double> := [NaN, NaN, NaN, NaN, NaN, NaN]
  const NONE: seq<bool> := [false, false, false, false, false, false]
  const EVERY: seq<bool> := [true, true, true, true, true, true]

  predicate SixValues(s: SiSample) {
    |s.values| == AXES
  }

  predicate SampleIsFinite(s: SiSample) {
    forall i :: 0 <= i < |s.values| ==> s.values[i].Finite?
  }

  predicate SampleIsStale(s: SiSample, now: int, timeout: int) {
    s.receivedAt <= 0 || now - s.receivedAt > timeout
  }

  // ---------------------------------------------------------------- the plugin as a value

  /** One of the buffer's two slots: a sample and its position among those delivered, 0 for the initial one. */
  datatype Slot = Slot(sample: SiSample, order: nat)

  /** The buffer between the callback and the reads; `delivered` are the samples written since configuration. */
  datatype Buffer = Buffer(realtime: Slot, waiting: Slot, unread: bool, delivered: seq<SiSample>)
  {
    /** The sample in a slot is one delivered since configuration, in its place, or the initial one. */
    predicate Holds(slot: Slot) {
      if slot.order == 0 then slot.sample == NO_SAMPLE
      else slot.order <= |delivered| && slot.sample == delivered[slot.order - 1]
    }

    predicate Valid() {
      && (forall i :: 0 <= i < |delivered| ==> SixValues(delivered[i]))
      && Holds(realtime) && Holds(waiting)
      && (if unread then waiting.order == |delivered| else realtime.order == |delivered|)
    }

    function Deliver(sample: SiSample): Buffer {
      this.(waiting := Slot(sample, |delivered| + 1), unread := true, delivered := delivered + [sample])
    }

    /** `readFromRT`: the slots change places if there is something new and the lock is free. */
    function Swap(locks: bool): Buffer {
      if locks && unread then this.(realtime := waiting, waiting := realtime, unread := false) else this
    }

    /** `initRT` fills both slots and leaves the flag. */
    function Clear(): Buffer {
      this.(realtime := Slot(NO_SAMPLE, 0), waiting := Slot(NO_SAMPLE, 0), delivered := [])
    }

    lemma Keeps(sample: SiSample, locks: bool)
      requires Valid()
      ensures SixValues(sample) ==> Deliver(sample).Valid()
      ensures Swap(locks).Valid() && Clear().Valid() && SixValues(realtime.sample)
      ensures realtime.order <= Swap(locks).realtime.order <= |delivered|
    {
    }
  }

  datatype Plugin = Plugin(
    modern: bool, timeout: int,
    hasClient: bool, clientFault: FaultCode, fatal: FaultCode, writeFault: bool, generation: nat,
    buffer: Buffer, handles: seq<bool>, axes: seq<Double>)
  {
    predicate Shaped() {
      |handles| == AXES && |axes| == AXES
    }

    predicate Valid() {
      Shaped() && buffer.Valid()
    }

    function Invalid(clears: seq<bool>): (axes': seq<Double>)
      requires Shaped() && |clears| == AXES
      ensures |axes'| == AXES
    {
      Invalidated(modern, handles, axes, clears)
    }

    /** Reads fail from here until the plugin is configured. */
    predicate Dead() {
      !hasClient || fatal != NoFault || writeFault
    }
  }

  /** Before `on_configure` there is no client. */
  function Unconfigured(modern: bool, timeout: int): Plugin {
    Plugin(modern, timeout, false, NoFault, NoFault, false, 0,
           Buffer(Slot(NO_SAMPLE, 0), Slot(NO_SAMPLE, 0), false, []), NONE, ALL_NAN)
  }

  /** `compare_exchange_strong` from None: the first fault wins. */
  function Latched(fatal: FaultCode, fault: FaultCode): FaultCode {
    if fatal == NoFault then fault else fatal
  }

  /** The legacy interface writes the axes itself; in the modern one each write needs a handle and may be refused. */
  function Invalidated(modern: bool, handles: seq<bool>, axes: seq<Double>, clears: seq<bool>): (axes': seq<Double>)
    requires |handles| == |axes| == |clears| == AXES
    ensures |axes'| == AXES
  {
    seq(AXES, i requires 0 <= i < AXES => if !modern || (handles[i] && clears[i]) then NaN else axes[i])
  }

  /** The first axis whose write is refused. */
  function FirstRefused(modern: bool, stores: seq<bool>, i: nat): (k: nat)
    requires i <= AXES == |stores|
    ensures i <= k <= AXES
    ensures forall j :: i <= j < k ==> !modern || stores[j]
    ensures k < AXES ==> modern && !stores[k]
    decreases AXES - i
  {
    if i < AXES && (!modern || stores[i]) then FirstRefused(modern, stores, i + 1) else i
  }

  function Written(axes: seq<Double>, values: seq<Double>, k: nat): (axes': seq<Double>)
    requires |axes| == AXES == |values| && k <= AXES
    ensures |axes'| == AXES
  {
    values[..k] + axes[k..]
  }

  /** What the environment decides: `now`, whether the real-time side gets the buffer's lock, whether the buffer hands out
      a null pointer, and which interface writes are accepted. */
  datatype Event =
    | Configure(clientMade: bool, auxiliaryMade: bool, clears: seq<bool>)
    | ActivateBegin(failsAt: nat, started: bool, clears: seq<bool>, again: seq<bool>)
    | ActivateEnd(waited: bool, clears: seq<bool>)
    | Deactivate(clears: seq<bool>)
    | Cleanup(clears: seq<bool>)
    | Deliver(sample: SiSample) | Count | ConversionFails | AuxiliaryFails | ClientFaults(fault: FaultCode)
    | Read(now: int, locks: bool, isNull: bool, stores: seq<bool>, clears: seq<bool>)

  predicate Legal(e: Event) {
    match e
    case Configure(_, _, clears) => |clears| == AXES
    case ActivateBegin(_, _, clears, again) => |clears| == AXES && |again| == AXES
    case ActivateEnd(_, clears) => |clears| == AXES
    case Deactivate(clears) => |clears| == AXES
    case Cleanup(clears) => |clears| == AXES
    case Deliver(sample) => SixValues(sample)
    case Read(_, _, _, stores, clears) => |stores| == AXES && |clears| == AXES
    case _ => true
  }

  // ---------------------------------------------------------------- steps

  function ConfigureNext(p: Plugin, clientMade: bool, auxiliaryMade: bool, clears: seq<bool>): Plugin
    requires p.Shaped() && |clears| == AXES
  {
    p.(hasClient := clientMade && auxiliaryMade, clientFault := NoFault, fatal := NoFault, writeFault := false,
       generation := 0, buffer := p.buffer.Clear(), axes := p.Invalid(clears))
  }

  /** Handles fetched before a failure stay. */
  function Fetched(p: Plugin, failsAt: nat): (handles: seq<bool>)
    requires p.Shaped()
    ensures |handles| == AXES
  {
    seq(AXES, i requires 0 <= i < AXES => p.handles[i] || i < failsAt)
  }

  /** A start that throws invalidates the axes a second time. */
  function ActivateBeginNext(p: Plugin, failsAt: nat, started: bool, clears: seq<bool>, again: seq<bool>): Plugin
    requires p.Shaped() && |clears| == AXES && |again| == AXES
  {
    if !p.hasClient then p
    else
      var q := if p.modern then p.(handles := Fetched(p, failsAt)) else p;
      var r := q.(axes := q.Invalid(clears));
      if p.modern && failsAt < AXES then r
      else if started then r.(generation := 0, clientFault := NoFault)
      else r.(generation := 0, axes := r.Invalid(again))
  }

  /** Whether activation succeeds once the first sample was waited for. */
  predicate Activates(p: Plugin, waited: bool) {
    waited && p.clientFault == NoFault && p.generation > 0
  }

  function ActivateEndNext(p: Plugin, waited: bool, clears: seq<bool>): Plugin
    requires p.Shaped() && |clears| == AXES
  {
    if Activates(p, waited) then p else p.(axes := p.Invalid(clears))
  }

  function StopNext(p: Plugin, clears: seq<bool>): Plugin
    requires p.Shaped() && |clears| == AXES
  {
    p.(generation := 0, axes := p.Invalid(clears))
  }

  /** `fault_latched`: a client's fault is copied into the plugin's latch. */
  function Copied(p: Plugin): Plugin {
    p.(fatal := if p.hasClient then Latched(p.fatal, p.clientFault) else p.fatal)
  }

  datatype ReadResult = ReadResult(plugin: Plugin, ok: bool)

  function Rejects(p: Plugin, clears: seq<bool>): ReadResult
    requires p.Shaped() && |clears| == AXES
  {
    ReadResult(p.(axes := p.Invalid(clears)), false)
  }

  function ReadNext(p: Plugin, e: Event): ReadResult
    requires p.Valid() && e.Read? && Legal(e)
  {
    p.buffer.Keeps(NO_SAMPLE, e.locks);
    var q := Copied(p.(buffer := p.buffer.Swap(e.locks)));
    var s := q.buffer.realtime.sample;
    if q.Dead() || e.isNull then Rejects(q, e.clears)
    else if !SampleIsFinite(s) then Rejects(q.(fatal := SensorConfigurationFault), e.clears)
    else if SampleIsStale(s, e.now, q.timeout) then Rejects(q.(fatal := TimeoutFault), e.clears)
    else
      var k := FirstRefused(q.modern, e.stores, 0);
      var r := q.(axes := Written(q.axes, s.values, k));
      if k < AXES then Rejects(r.(writeFault := true), e.clears) else ReadResult(r, true)
  }

  function Next(p: Plugin, e: Event): Plugin
    requires p.Valid() && Legal(e)
  {
    match e
    case Configure(clientMade, auxiliaryMade, clears) => ConfigureNext(p, clientMade, auxiliaryMade, clears)
    case ActivateBegin(failsAt, started, clears, again) => ActivateBeginNext(p, failsAt, started, clears, again)
    case ActivateEnd(waited, clears) => ActivateEndNext(p, waited, clears)
    case Deactivate(clears) => StopNext(p, clears)
    case Cleanup(clears) => StopNext(p, clears).(hasClient := false)
    case Deliver(sample) => p.(buffer := p.buffer.Deliver(sample))
    case Count => p.(generation := p.generation + 1)
    case ConversionFails => p.(fatal := Latched(p.fatal, SensorConfigurationFault))
    case AuxiliaryFails => p.(fatal := Latched(p.fatal, CallbackFault))
    case ClientFaults(fault) => p.(clientFault := Latched(p.clientFault, fault))
    case Read(_, _, _, _, _) => ReadNext(p, e).plugin
  }

  lemma NextValid(p: Plugin, e: Event)
    requires p.Valid() && Legal(e)
    ensures Next(p, e).Valid()
    ensures e.Read? ==> ReadNext(p, e).plugin.buffer == p.buffer.Swap(e.locks)
  {
    hide Buffer.Valid, Buffer.Swap, Buffer.Clear, Buffer.Deliver, Invalidated, Written, FirstRefused, Fetched;
    p.buffer.Keeps(if e.Deliver? then e.sample else NO_SAMPLE, e.Read? && e.locks);
  }

  lemma SampleSteps(p: Plugin, s: SiSample)
    requires p.Valid() && SixValues(s)
    ensures Next(p, Deliver(s)).Valid()
    ensures Next(Next(p, Deliver(s)), Count) == p.(buffer := p.buffer.Deliver(s), generation := p.generation + 1)
  {
    hide Buffer.Valid;
    p.buffer.Keeps(s, false);
  }

  lemma ConversionStep(p: Plugin)
    requires p.Valid()
    ensures Next(p, ConversionFails) == p.(fatal := Latched(p.fatal, SensorConfigurationFault))
  {
  }

  // ---------------------------------------------------------------- the plugin as an object

  class NetFTHardware {
    const modern: bool
    const timeout: int
    var hasClient: bool
    var clientFault: FaultCode
    var fatal: FaultCode
    var writeFault: bool
    var generation: nat
    var realtime: SiSample
    var waiting: SiSample
    var unread: bool
    var handles: seq<bool>
    const axes: array<Double>
    ghost var delivered: seq<SiSample>
    ghost var realtimeOrder: nat
    ghost var waitingOrder: nat

    ghost function Now(): Plugin
      reads this, axes
    {
      Plugin(modern, timeout, hasClient, clientFault, fatal, writeFault, generation,
             Buffer(Slot(realtime, realtimeOrder), Slot(waiting, waitingOrder), unread, delivered), handles, axes[..])
    }

    /** Before `on_configure` there is no client. */
    constructor (modern: bool, timeout: int)
      ensures Now() == Unconfigured(modern, timeout) && fresh(axes) && Now().Valid() && Now().Dead()
    {
      this.modern, this.timeout := modern, timeout;
      hasClient, clientFault, fatal, writeFault, generation := false, NoFault, NoFault, false, 0;
      realtime, waiting, unread := NO_SAMPLE, NO_SAMPLE, false;
      realtimeOrder, waitingOrder := 0, 0;
      handles := NONE;
      axes := new Double[AXES](_ => NaN);
      delivered := [];
      new;
      assert axes[..] == ALL_NAN;
    }

    method InvalidateInterfaces(clears: seq<bool>)
      requires Now().Shaped() && |clears| == AXES
      modifies axes
      ensures Now() == old(Now()).(axes := old(Now()).Invalid(clears))
    {
      ghost var was := Now();
      for i := 0 to AXES
        invariant forall j :: 0 <= j < AXES ==> axes[j] == if j < i then was.Invalid(clears)[j] else was.axes[j]
        invariant Now() == was.(axes := axes[..])
      {
        if !modern || (handles[i] && clears[i]) {
          axes[i] := NaN;
        }
      }
      assert axes[..] == was.Invalid(clears);
    }

    method WriteAxes(sample: SiSample, stores: seq<bool>) returns (ok: bool)
      requires Now().Shaped() && SixValues(sample) && |stores| == AXES
      modifies axes
      ensures var k := FirstRefused(modern, stores, 0);
              Now() == old(Now()).(axes := Written(old(Now()).axes, sample.values, k)) && ok == (k == AXES)
    {
      ghost var was := Now();
      for i := 0 to AXES
        invariant forall j :: 0 <= j < AXES ==> axes[j] == if j < i then sample.values[j] else was.axes[j]
        invariant Now() == was.(axes := axes[..])
        invariant FirstRefused(modern, stores, i) == FirstRefused(modern, stores, 0)
      {
        if modern && !stores[i] {
          assert axes[..] == Written(was.axes, sample.values, i);
          return false;
        }
        axes[i] := sample.values[i];
      }
      assert axes[..] == Written(was.axes, sample.values, AXES);
      return true;
    }

    method LatchFatalFault(fault: FaultCode)
      modifies `fatal
      ensures fatal == Latched(old(fatal), fault)
    {
      if fatal == NoFault {
        fatal := fault;
      }
    }

    method FaultLatched() returns (latched: bool)
      modifies `fatal
      ensures Now() == Copied(old(Now()))
      ensures latched == (!hasClient || fatal != NoFault)
    {
      if !hasClient {
        return true;
      }
      if clientFault != NoFault {
        LatchFatalFault(clientFault);
      }
      return fatal != NoFault;
    }

    method ReadFromRT(locks: bool) returns (sample: SiSample)
      requires Now().Valid()
      modifies `realtime, `waiting, `unread, `realtimeOrder, `waitingOrder
      ensures Now() == old(Now()).(buffer := old(Now()).buffer.Swap(locks)) && Now().Valid()
      ensures sample == realtime && SixValues(sample)
    {
      Now().buffer.Keeps(NO_SAMPLE, locks);
      if locks && unread {
        realtime, waiting, unread := waiting, realtime, false;
        realtimeOrder, waitingOrder := waitingOrder, realtimeOrder;
      }
      return realtime;
    }

    method InitRT()
      requires Now().Shaped()
      modifies `realtime, `waiting, `realtimeOrder, `waitingOrder, `delivered
      ensures Now() == old(Now()).(buffer := old(Now()).buffer.Clear())
    {
      realtime, waiting := NO_SAMPLE, NO_SAMPLE;
      realtimeOrder, waitingOrder := 0, 0;
      delivered := [];
    }

    method ReadAxes(now: int, locks: bool, isNull: bool, stores: seq<bool>, clears: seq<bool>) returns (ok: bool)
      requires Now().Valid() && |stores| == AXES && |clears| == AXES
      modifies this, axes
      ensures var r := ReadNext(old(Now()), Read(now, locks, isNull, stores, clears)); Now() == r.plugin && ok == r.ok
    {
      hide Invalidated, Written, FirstRefused, Buffer.Valid, Buffer.Swap, SampleIsFinite, SampleIsStale;
      var sample := ReadFromRT(locks);
      var latched := FaultLatched();
      if latched || writeFault || isNull {
        InvalidateInterfaces(clears);
        return false;
      }
      if !SampleIsFinite(sample) {
        LatchFatalFault(SensorConfigurationFault);
        InvalidateInterfaces(clears);
        return false;
      }
      if SampleIsStale(sample, now, timeout) {
        LatchFatalFault(TimeoutFault);
        InvalidateInterfaces(clears);
        return false;
      }
      var written := WriteAxes(sample, stores);
      if !written {
        writeFault := true;
        InvalidateInterfaces(clears);
        return false;
      }
      return true;
    }

    method OnConfigure(clientMade: bool, auxiliaryMade: bool, clears: seq<bool>) returns (ok: bool)
      requires Now().Shaped() && |clears| == AXES
      modifies this, axes
      ensures Now() == ConfigureNext(old(Now()), clientMade, auxiliaryMade, clears) && ok == hasClient
    {
      hide Invalidated, Buffer.Valid, Buffer.Clear;
      hasClient := false;
      generation := 0;
      writeFault := false;
      fatal := NoFault;
      InitRT();
      InvalidateInterfaces(clears);
      clientFault := NoFault;
      hasClient := clientMade && auxiliaryMade;
      return hasClient;
    }

    /** `on_activate` up to the wait for the first sample. */
    method OnActivateBegin(failsAt: nat, started: bool, clears: seq<bool>, again: seq<bool>) returns (goesOn: bool)
      requires Now().Shaped() && |clears| == AXES && |again| == AXES
      modifies this, axes
      ensures Now() == ActivateBeginNext(old(Now()), failsAt, started, clears, again)
      ensures goesOn == (hasClient && (modern ==> failsAt >= AXES) && started)
    {
      hide Invalidated, Fetched;
      if !hasClient {
        return false;
      }
      if modern {
        FetchHandles(failsAt);
        if failsAt < AXES {
          InvalidateInterfaces(clears);
          return false;
        }
      }
      generation := 0;
      InvalidateInterfaces(clears);
      if !started {
        InvalidateInterfaces(again);
        return false;
      }
      clientFault := NoFault;
      return true;
    }

    method FetchHandles(failsAt: nat)
      requires Now().Shaped()
      modifies `handles
      ensures Now() == old(Now()).(handles := Fetched(old(Now()), failsAt))
    {
      ghost var was := Now();
      for i := 0 to AXES
        invariant |handles| == AXES && i <= failsAt && Now() == was.(handles := handles)
        invariant forall j :: 0 <= j < AXES ==> handles[j] == (was.handles[j] || (j < i && j < failsAt))
      {
        if i == failsAt {
          break;
        }
        handles := handles[i := true];
      }
      assert handles == Fetched(was, failsAt);
    }

    method OnActivateEnd(waited: bool, clears: seq<bool>) returns (ok: bool)
      requires Now().Shaped() && |clears| == AXES
      modifies axes
      ensures Now() == ActivateEndNext(old(Now()), waited, clears) && ok == Activates(old(Now()), waited)
    {
      if !waited || clientFault != NoFault || generation == 0 {
        InvalidateInterfaces(clears);
        return false;
      }
      return true;
    }

    /** `on_deactivate` and `on_error`. */
    method StopAndInvalidate(clears: seq<bool>)
      requires Now().Shaped() && |clears| == AXES
      modifies this, axes
      ensures Now() == StopNext(old(Now()), clears)
    {
      generation := 0;
      InvalidateInterfaces(clears);
    }

    /** `on_cleanup` and `on_shutdown`. */
    method OnCleanup(clears: seq<bool>)
      requires Now().Shaped() && |clears| == AXES
      modifies this, axes
      ensures Now() == StopNext(old(Now()), clears).(hasClient := false)
    {
      StopAndInvalidate(clears);
      hasClient := false;
    }

    /** The auxiliary executor dies of an exception. */
    method OnAuxiliaryFailure()
      requires Now().Valid()
      modifies this`fatal
      ensures Now() == Next(old(Now()), AuxiliaryFails)
    {
      LatchFatalFault(CallbackFault);
    }

    /** The sample callback: a sample that cannot be converted latches a fault and throws, any other is buffered and
        then counted. */
    method OnSample(sample: Option<SiSample>)
      requires Now().Valid() && (sample.Some? ==> SixValues(sample.value))
      modifies this
      ensures Now() == if sample.None? then Next(old(Now()), ConversionFails)
                       else Next(Next(old(Now()), Deliver(sample.value)), Count)
    {
      hide Next, Buffer.Valid;
      match sample
      case None =>
        ConversionStep(Now());
        LatchFatalFault(SensorConfigurationFault);
      case Some(s) =>
        SampleSteps(Now(), s);
        waiting, unread := s, true;
        waitingOrder := |delivered| + 1;
        delivered := delivered + [s];
        generation := generation + 1;
    }
  }

  // ---------------------------------------------------------------- runs

  function After(p: Plugin, events: seq<Event>): (p': Plugin)
    requires p.Valid() && forall i :: 0 <= i < |events| ==> Legal(events[i])
    ensures p'.Valid()
  {
    if events == [] then p
    else
      var before := After(p, events[..|events| - 1]);
      NextValid(before, events[|events| - 1]);
      Next(before, events[|events| - 1])
  }

  predicate AllLegal(events: seq<Event>) {
    forall i :: 0 <= i < |events| ==> Legal(events[i])
  }

  predicate NeverConfigured(events: seq<Event>) {
    forall i :: 0 <= i < |events| ==> !events[i].Configure?
  }

  /** No step but configuring revives the plugin or replaces its fault. */
  lemma StaysDead(p: Plugin, e: Event)
    requires p.Valid() && Legal(e) && !e.Configure?
    ensures p.Dead() ==> Next(p, e).Dead() && (e.Read? ==> !ReadNext(p, e).ok)
    ensures p.fatal != NoFault ==> Next(p, e).fatal == p.fatal
  {
  }

  lemma {:induction false} LatchesHold(p: Plugin, events: seq<Event>)
    requires p.Valid() && AllLegal(events) && NeverConfigured(events)
    ensures p.Dead() ==> After(p, events).Dead()
    ensures p.fatal != NoFault ==> After(p, events).fatal == p.fatal
  {
    if events != [] {
      LatchesHold(p, events[..|events| - 1]);
      StaysDead(After(p, events[..|events| - 1]), events[|events| - 1]);
    }
  }

  /** A read that fails leaves a latch behind, except when all it had against it was a null pointer. */
  lemma FailedReadLatches(p: Plugin, e: Event)
    requires p.Valid() && e.Read? && Legal(e) && !ReadNext(p, e).ok
    ensures !ReadNext(p, e).plugin.Dead() <==> e.isNull && !p.Dead() && p.clientFault == NoFault
  {
  }

  lemma InvalidStays(modern: bool, handles: seq<bool>, axes: seq<Double>, clears: seq<bool>, i: nat)
    requires |handles| == |axes| == |clears| == AXES && i < AXES && axes[i] == NaN
    ensures Invalidated(modern, handles, axes, clears)[i] == NaN
  {
  }

  /** Nothing writes a number to the axes of a dead plugin. */
  lemma DeadStep(p: Plugin, e: Event, i: nat)
    requires p.Valid() && Legal(e) && !e.Configure? && p.Dead() && i < AXES && p.axes[i] == NaN
    ensures Next(p, e).axes[i] == NaN
  {
    hide Invalidated, Written, FirstRefused, Buffer.Valid, Buffer.Swap, Buffer.Deliver, SampleIsFinite, SampleIsStale;
    match e
    case ActivateBegin(failsAt, _, clears, again) =>
      InvalidStays(p.modern, p.handles, p.axes, clears, i);
      InvalidStays(p.modern, Fetched(p, failsAt), p.axes, clears, i);
      var q := if p.modern then Fetched(p, failsAt) else p.handles;
      InvalidStays(p.modern, q, Invalidated(p.modern, q, p.axes, clears), again, i);
    case ActivateEnd(_, clears) => InvalidStays(p.modern, p.handles, p.axes, clears, i);
    case Deactivate(clears) => InvalidStays(p.modern, p.handles, p.axes, clears, i);
    case Cleanup(clears) => InvalidStays(p.modern, p.handles, p.axes, clears, i);
    case Read(_, _, _, _, clears) => InvalidStays(p.modern, p.handles, p.axes, clears, i);
    case _ =>
  }

  /** An axis of a dead plugin that is not a number stays so over any run without configuring. */
  lemma {:induction false} DeadAxesStay(p: Plugin, events: seq<Event>, i: nat)
    requires p.Valid() && AllLegal(events) && NeverConfigured(events) && p.Dead() && i < AXES && p.axes[i] == NaN
    ensures After(p, events).axes[i] == NaN
  {
    hide Next, Plugin.Dead, Buffer.Valid;
    if events != [] {
      var front := events[..|events| - 1];
      DeadAxesStay(p, front, i);
      LatchesHold(p, front);
      DeadStep(After(p, front), events[|events| - 1], i);
    }
  }

  /** Once a read has failed with a pointer in hand, every later read fails until the plugin is configured again, and the
      axes it invalidated stay invalid. */
  lemma ErrorsStay(p: Plugin, first: Event, between: seq<Event>, last: Event)
    requires p.Valid() && first.Read? && last.Read? && Legal(first) && Legal(last)
    requires !first.isNull && !ReadNext(p, first).ok
    requires AllLegal(between) && NeverConfigured(between)
    ensures Next(p, first).Valid() && !ReadNext(After(Next(p, first), between), last).ok
    ensures var later := After(Next(p, first), between);
            forall i :: 0 <= i < AXES && Next(p, first).axes[i] == NaN ==>
              later.axes[i] == NaN && Next(later, last).axes[i] == NaN
  {
    hide Next, ReadNext, Buffer.Valid;
    NextValid(p, first);
    FailedReadLatches(p, first);
    FailedIsNext(p, first);
    LatchesHold(Next(p, first), between);
    var later := After(Next(p, first), between);
    StaysDead(later, last);
    NextValid(later, last);
    forall i | 0 <= i < AXES && Next(p, first).axes[i] == NaN
      ensures later.axes[i] == NaN && Next(later, last).axes[i] == NaN
    {
      DeadAxesStay(Next(p, first), between, i);
      DeadStep(later, last, i);
    }
  }

  lemma FailedIsNext(p: Plugin, e: Event)
    requires p.Valid() && e.Read? && Legal(e)
    ensures Next(p, e) == ReadNext(p, e).plugin
  {
    hide ReadNext;
  }

  lemma Extended(p: Plugin, events: seq<Event>, e: Event)
    requires p.Valid() && AllLegal(events) && Legal(e)
    ensures AllLegal(events + [e]) && After(p, events + [e]) == Next(After(p, events), e)
  {
    assert (events + [e])[..|events|] == events;
  }

  const GOOD_SAMPLE: SiSample := NO_SAMPLE.(receivedAt := 1)

  /** A plugin that has just been activated: one sample delivered and not yet read. */
  const ACTIVATED: Plugin :=
    Plugin(true, 10, true, NoFault, NoFault, false, 1,
           Buffer(Slot(NO_SAMPLE, 0), Slot(GOOD_SAMPLE, 1), true, [GOOD_SAMPLE]), EVERY, ALL_NAN)

  /** On the way there: configured, begun to activate, and with a sample in the buffer. */
  const CONFIGURED: Plugin := Unconfigured(true, 10).(hasClient := true)
  const READY: Plugin := CONFIGURED.(handles := EVERY)
  const SAMPLED: Plugin := ACTIVATED.(generation := 0)

  lemma Activating() returns (events: seq<Event>)
    ensures AllLegal(events) && Unconfigured(true, 10).Valid() && After(Unconfigured(true, 10), events) == ACTIVATED
  {
    hide Next;
    var p := Unconfigured(true, 10);
    var none: seq<Event> := [];
    var configure, begin := Configure(true, true, NONE), ActivateBegin(AXES, true, EVERY, EVERY);
    var deliver, end := Deliver(GOOD_SAMPLE), ActivateEnd(true, EVERY);
    Configures(p);
    Begins(CONFIGURED);
    Buffers(READY);
    Counts(SAMPLED);
    Ends(ACTIVATED);
    assert After(p, none) == p;
    hide After;
    Extended(p, none, configure);
    Extended(p, none + [configure], begin);
    Extended(p, none + [configure] + [begin], deliver);
    Extended(p, none + [configure] + [begin] + [deliver], Count);
    Extended(p, none + [configure] + [begin] + [deliver] + [Count], end);
    events := none + [configure] + [begin] + [deliver] + [Count] + [end];
  }

  lemma Configures(p: Plugin)
    requires p == Unconfigured(true, 10)
    ensures p.Valid() && Next(p, Configure(true, true, NONE)) == CONFIGURED
  {
    assert p.Invalid(NONE) == ALL_NAN;
  }

  lemma Begins(p: Plugin)
    requires p == CONFIGURED
    ensures p.Valid() && Next(p, ActivateBegin(AXES, true, EVERY, EVERY)) == READY
  {
    assert Fetched(p, AXES) == EVERY;
    assert READY.Invalid(EVERY) == ALL_NAN;
  }

  lemma Buffers(p: Plugin)
    requires p == READY
    ensures p.Valid() && Next(p, Deliver(GOOD_SAMPLE)) == SAMPLED
  {
  }

  lemma Counts(p: Plugin)
    requires p == SAMPLED
    ensures p.Valid() && Next(p, Count) == ACTIVATED
  {
  }

  lemma Ends(p: Plugin)
    requires p == ACTIVATED
    ensures p.Valid() && Next(p, ActivateEnd(true, EVERY)) == ACTIVATED
  {
  }

  /** With a null pointer a failed read may be followed by one that succeeds: a run from an unconfigured plugin. */
  lemma NullPointerDoesNotLatch() returns (events: seq<Event>, first: Event, last: Event)
    ensures AllLegal(events) && Legal(first) && Legal(last) && first.Read? && last.Read? && first.isNull
    ensures Unconfigured(true, 10).Valid()
    ensures var p := After(Unconfigured(true, 10), events);
            !ReadNext(p, first).ok && Next(p, first).Valid() && ReadNext(Next(p, first), last).ok
  {
    hide After, ReadNext;
    events := Activating();
    first, last := Read(2, true, true, EVERY, EVERY), Read(2, true, false, EVERY, EVERY);
    NullRead(ACTIVATED);
    SecondRead(TAKEN);
  }

  /** The same after a read that took the sample and then found its pointer null. */
  const TAKEN: Plugin := ACTIVATED.(buffer := Buffer(Slot(GOOD_SAMPLE, 1), Slot(NO_SAMPLE, 0), false, [GOOD_SAMPLE]))

  lemma NullRead(p: Plugin)
    requires p == ACTIVATED
    ensures p.Valid() && ReadNext(p, Read(2, true, true, EVERY, EVERY)) == ReadResult(TAKEN, false)
  {
    assert p.buffer.Swap(true) == TAKEN.buffer;
    assert TAKEN.Invalid(EVERY) == ALL_NAN;
  }

  lemma SecondRead(p: Plugin)
    requires p == TAKEN
    ensures p.Valid() && ReadNext(p, Read(2, true, false, EVERY, EVERY)).ok
  {
    assert p.buffer.Swap(true) == p.buffer;
    assert FirstRefused(true, EVERY, 0) == AXES;
  }

  /** The six axes after a failed read, exactly: an axis is not a number if the interface is the legacy one, if its
      handle accepts the write, or if it was not a number already; a refused axis keeps what this read wrote or found. */
  lemma FailedReadInvalidates(p: Plugin, e: Event, i: nat)
    requires p.Valid() && e.Read? && Legal(e) && !ReadNext(p, e).ok && i < AXES
    ensures var accepted := !p.modern || (p.handles[i] && e.clears[i]);
            var overwritten := !p.Dead() && p.clientFault == NoFault && !e.isNull
                               && SampleIsFinite(p.buffer.Swap(e.locks).realtime.sample)
                               && !SampleIsStale(p.buffer.Swap(e.locks).realtime.sample, e.now, p.timeout)
                               && i < FirstRefused(p.modern, e.stores, 0);
            ReadNext(p, e).plugin.axes[i] == NaN <==> accepted || (p.axes[i] == NaN && !overwritten)
  {
    p.buffer.Keeps(NO_SAMPLE, e.locks);
  }

  /** The same after a good read and a fault of the client. */
  const BROKEN: Plugin := TAKEN.(axes := NO_SAMPLE.values, clientFault := TimeoutFault)

  /** In the modern interface a refused write can leave a number behind a failed read: a run from an unconfigured
      plugin, in which the client faults after a good read. */
  lemma RefusedAxisKeepsItsNumber() returns (events: seq<Event>, e: Event)
    ensures AllLegal(events) && Legal(e) && e.Read? && Unconfigured(true, 10).Valid()
    ensures var p := After(Unconfigured(true, 10), events);
            !ReadNext(p, e).ok && ReadNext(p, e).plugin.axes[0].Finite?
  {
    hide After, ReadNext, Next;
    var before := Activating();
    var good, faults := Read(2, true, false, EVERY, EVERY), ClientFaults(TimeoutFault);
    Extended(Unconfigured(true, 10), before, good);
    Extended(Unconfigured(true, 10), before + [good], faults);
    events, e := before + [good] + [faults], Read(3, true, false, EVERY, EVERY[0 := false]);
    GoodRead(ACTIVATED);
    BrokenRead(BROKEN);
  }

  lemma GoodRead(p: Plugin)
    requires p == ACTIVATED
    ensures p.Valid() && Next(p, Read(2, true, false, EVERY, EVERY)).Valid()
    ensures Next(Next(p, Read(2, true, false, EVERY, EVERY)), ClientFaults(TimeoutFault)) == BROKEN
  {
    assert FirstRefused(true, EVERY, 0) == AXES;
    assert NO_SAMPLE.values[..AXES] + ALL_NAN[AXES..] == NO_SAMPLE.values;
    assert p.buffer.Swap(true) == TAKEN.buffer;
  }

  lemma BrokenRead(p: Plugin)
    requires p == BROKEN
    ensures p.Valid()
    ensures var r := ReadNext(p, Read(3, true, false, EVERY, EVERY[0 := false])); !r.ok && r.plugin.axes[0].Finite?
  {
    assert p.buffer.Swap(true) == p.buffer;
    assert p.handles[0] && !EVERY[0 := false][0];
  }

  /** A read that succeeds exports the six finite values of one sample delivered since configuration, received no longer
      than the timeout ago, and nothing had been latched. */
  lemma OkReadExportsFreshSample(p: Plugin, e: Event)
    requires p.Valid() && e.Read? && Legal(e) && ReadNext(p, e).ok
    ensures var q := ReadNext(p, e).plugin;
            && 0 < q.buffer.realtime.order <= |p.buffer.delivered|
            && q.axes == p.buffer.delivered[q.buffer.realtime.order - 1].values
            && (forall i :: 0 <= i < AXES ==> q.axes[i].Finite?)
            && 0 < p.buffer.delivered[q.buffer.realtime.order - 1].receivedAt
            && e.now - p.buffer.delivered[q.buffer.realtime.order - 1].receivedAt <= p.timeout
            && !p.Dead() && !q.Dead() && p.clientFault == NoFault
  {
    p.buffer.Keeps(NO_SAMPLE, e.locks);
    var q := ReadNext(p, e).plugin;
    assert q.axes == q.buffer.realtime.sample.values + p.axes[AXES..];
  }

  lemma StepMovesForward(p: Plugin, e: Event)
    requires p.Valid() && Legal(e) && !e.Configure?
    ensures p.buffer.realtime.order <= Next(p, e).buffer.realtime.order
    ensures p.buffer.delivered <= Next(p, e).buffer.delivered
  {
    hide Invalidated, Written, FirstRefused, Fetched, Buffer.Clear;
    NextValid(p, e);
    p.buffer.Keeps(NO_SAMPLE, e.Read? && e.locks);
  }

  /** Successful reads never go back: the samples they export are in the order of delivery. */
  lemma {:induction false} ReadsMoveForward(p: Plugin, events: seq<Event>)
    requires p.Valid() && AllLegal(events) && NeverConfigured(events)
    ensures p.buffer.realtime.order <= After(p, events).buffer.realtime.order
    ensures p.buffer.delivered <= After(p, events).buffer.delivered
  {
    hide Next, Buffer.Valid;
    if events != [] {
      ReadsMoveForward(p, events[..|events| - 1]);
      StepMovesForward(After(p, events[..|events| - 1]), events[|events| - 1]);
    }
  }

  lemma StepCounts(p: Plugin, e: Event)
    requires p.Valid() && Legal(e)
    ensures Next(p, e).generation > 0 ==> p.generation > 0 || e.Count?
  {
    hide Invalidated, Written, FirstRefused, Fetched, Buffer.Clear, Buffer.Swap, Buffer.Deliver, Buffer.Valid;
  }

  lemma {:induction false} SomethingCounted(p: Plugin, events: seq<Event>)
    requires p.Valid() && AllLegal(events) && p.generation == 0
    ensures After(p, events).generation > 0 ==> exists i :: 0 <= i < |events| && events[i].Count?
  {
    hide Next, Buffer.Valid;
    if events != [] {
      var front := events[..|events| - 1];
      SomethingCounted(p, front);
      StepCounts(After(p, front), events[|events| - 1]);
      if After(p, front).generation > 0 {
        var i :| 0 <= i < |front| && front[i].Count?;
        assert events[i].Count?;
      }
    }
  }

  /** An activation that succeeds saw a sample buffered and counted since it began, and its client is not faulted. */
  lemma ActivationSawASample(p: Plugin, begin: Event, events: seq<Event>, waited: bool)
    requires p.Valid() && AllLegal(events) && begin.ActivateBegin? && Legal(begin)
    requires p.hasClient && (p.modern ==> begin.failsAt >= AXES)
    ensures Next(p, begin).Valid()
    ensures Activates(After(Next(p, begin), events), waited) ==>
              After(Next(p, begin), events).clientFault == NoFault && exists i :: 0 <= i < |events| && events[i].Count?
  {
    NextValid(p, begin);
    SomethingCounted(Next(p, begin), events);
  }
}
