/** What configuring the plugin undoes, and exactly when a read succeeds, in terms of what happened since. */
module PluginReads {
  import opened Protocol
  import opened Session
  import opened PluginLatch

  /** Everything a plugin remembers of a fault is gone once it is configured, whatever was latched; without a client it
      is dead. */
  lemma ConfiguringRevives(p: Plugin, clientMade: bool, auxiliaryMade: bool, clears: seq<bool>)
    requires p.Valid() && |clears| == AXES
    ensures var q := Next(p, Configure(clientMade, auxiliaryMade, clears));
            && q.Valid() && (q.Dead() <==> !(clientMade && auxiliaryMade))
            && q.fatal == NoFault && !q.writeFault && q.clientFault == NoFault && q.generation == 0
            && q.buffer.delivered == [] && q.buffer.realtime == Slot(NO_SAMPLE, 0)
            && q.modern == p.modern && q.timeout == p.timeout && q.handles == p.handles
  {
    NextValid(p, Configure(clientMade, auxiliaryMade, clears));
  }

  // ---------------------------------------------------------------- what happened since

  /** The samples delivered. */
  function Samples(es: seq<Event>): seq<SiSample> {
    if es == [] then []
    else
      var e := es[|es| - 1];
      Samples(es[..|es| - 1]) + (if e.Deliver? then [e.sample] else [])
  }

  /** How many of them had been delivered at the last read that got the buffer's lock. */
  function Taken(es: seq<Event>): (n: nat)
    ensures n <= |Samples(es)|
  {
    if es == [] then 0
    else
      var e := es[|es| - 1];
      if e.Read? && e.locks then |Samples(es[..|es| - 1])| else Taken(es[..|es| - 1])
  }

  /** The fault of the client since it was last started. */
  function FaultOfClient(modern: bool, es: seq<Event>): FaultCode {
    if es == [] then NoFault
    else
      var before := FaultOfClient(modern, es[..|es| - 1]);
      match es[|es| - 1]
      case ActivateBegin(failsAt, started, _, _) => if started && (!modern || failsAt >= 6) then NoFault else before
      case ClientFaults(fault) => if before == NoFault then fault else before
      case _ => before
  }

  /** The order of the sample a read looks at. */
  function LooksAt(es: seq<Event>, locks: bool): (n: nat)
    ensures n <= |Samples(es)|
  {
    if locks then |Samples(es)| else Taken(es)
  }

  predicate Fresh(s: SiSample, now: int, timeout: int) {
    && (forall i :: 0 <= i < |s.values| ==> s.values[i].Finite?)
    && 0 < s.receivedAt && now - s.receivedAt <= timeout
  }

  /** A read finds a delivered, finite sample that is not older than the timeout, and every axis accepts it. */
  predicate Exports(modern: bool, timeout: int, es: seq<Event>, e: Event)
    requires e.Read?
  {
    var n := LooksAt(es, e.locks);
    && n > 0 && Fresh(Samples(es)[n - 1], e.now, timeout)
    && (modern ==> forall i :: 0 <= i < |e.stores| ==> e.stores[i])
  }

  /** An event that latches nothing and leaves the client: no cleanup, no failed conversion or executor, and a read only
      if it succeeds or finds nothing wrong but a null pointer. */
  predicate Harmless(modern: bool, timeout: int, es: seq<Event>, e: Event) {
    match e
    case Cleanup(_) => false
    case ConversionFails => false
    case AuxiliaryFails => false
    case Read(_, _, isNull, _, _) => FaultOfClient(modern, es) == NoFault && (isNull || Exports(modern, timeout, es, e))
    case _ => true
  }

  predicate AllHarmless(modern: bool, timeout: int, es: seq<Event>) {
    forall i :: 0 <= i < |es| ==> Harmless(modern, timeout, es[..i], es[i])
  }

  // ---------------------------------------------------------------- the plugin follows

  /** What the plugin holds after the events. */
  predicate Keeps(q: Plugin, p: Plugin, es: seq<Event>) {
    && p.modern == q.modern && p.timeout == q.timeout
    && p.buffer.delivered == Samples(es) && p.buffer.realtime.order == Taken(es)
    && (!p.Dead() ==> p.clientFault == FaultOfClient(q.modern, es))
    && (p.Dead() <==> !AllHarmless(q.modern, q.timeout, es))
  }

  lemma HarmlessStep(modern: bool, timeout: int, es: seq<Event>)
    requires es != []
    ensures AllHarmless(modern, timeout, es) <==>
            AllHarmless(modern, timeout, es[..|es| - 1]) && Harmless(modern, timeout, es[..|es| - 1], es[|es| - 1])
  {
    hide Harmless;
    var front := es[..|es| - 1];
    forall i: nat | i < |front| ensures front[..i] == es[..i] && front[i] == es[i] {
    }
  }

  /** The samples of a buffer are those of its slots' places. */
  lemma SlotIs(p: Plugin, locks: bool)
    requires p.Valid()
    ensures var slot := p.buffer.Swap(locks).realtime;
            && slot.order == (if locks then |p.buffer.delivered| else p.buffer.realtime.order)
            && slot.order <= |p.buffer.delivered|
            && slot.sample == if slot.order == 0 then NO_SAMPLE else p.buffer.delivered[slot.order - 1]
  {
  }

  lemma {:induction false} AllStored(modern: bool, stores: seq<bool>, i: nat)
    requires i <= AXES == |stores|
    ensures FirstRefused(modern, stores, i) == AXES <==> (modern ==> forall j :: i <= j < |stores| ==> stores[j])
    decreases AXES - i
  {
    if i < AXES && (!modern || stores[i]) {
      AllStored(modern, stores, i + 1);
    }
  }

  /** The sample in the slot is finite and fresh. */
  predicate Usable(s: SiSample, now: int, timeout: int) {
    SampleIsFinite(s) && !SampleIsStale(s, now, timeout)
  }

  /** When a read of a plugin succeeds, and when it leaves it dead. */
  lemma ReadIs(p: Plugin, e: Event)
    requires p.Valid() && e.Read? && Legal(e)
    ensures var r := ReadNext(p, e); var s := p.buffer.Swap(e.locks).realtime.sample;
            var stored := FirstRefused(p.modern, e.stores, 0) == AXES;
            && (r.ok <==> !p.Dead() && p.clientFault == NoFault && !e.isNull && Usable(s, e.now, p.timeout) && stored)
            && (r.plugin.Dead() <==> p.Dead() || p.clientFault != NoFault
                                     || (!e.isNull && !(Usable(s, e.now, p.timeout) && stored)))
            && r.plugin.clientFault == p.clientFault && r.plugin.modern == p.modern && r.plugin.timeout == p.timeout
  {
    hide Invalidated, Written, FirstRefused, Buffer.Valid, Buffer.Swap, SampleIsFinite, SampleIsStale;
    p.buffer.Keeps(NO_SAMPLE, e.locks);
  }

  lemma NothingUsable(now: int, timeout: int)
    ensures !Usable(NO_SAMPLE, now, timeout)
  {
  }

  lemma UsableIs(s: SiSample, now: int, timeout: int)
    ensures Usable(s, now, timeout) <==> Fresh(s, now, timeout)
  {
  }

  lemma ExportsIs(q: Plugin, p: Plugin, es: seq<Event>, e: Event)
    requires p.Valid() && Keeps(q, p, es) && e.Read? && Legal(e)
    ensures Exports(q.modern, q.timeout, es, e) <==>
            Usable(p.buffer.Swap(e.locks).realtime.sample, e.now, p.timeout) && FirstRefused(p.modern, e.stores, 0) == AXES
  {
    SlotIs(p, e.locks);
    AllStored(p.modern, e.stores, 0);
    NothingUsable(e.now, p.timeout);
    hide FirstRefused, Buffer.Valid, Buffer.Swap, AllHarmless, FaultOfClient, Plugin.Dead, Usable, Samples, Taken;
    var slot, n := p.buffer.Swap(e.locks).realtime, LooksAt(es, e.locks);
    assert slot.order == n;
    if n > 0 {
      assert slot.sample == Samples(es)[n - 1];
      UsableIs(Samples(es)[n - 1], e.now, p.timeout);
    } else {
      assert slot.sample == NO_SAMPLE;
    }
  }

  lemma ReadTakes(es: seq<Event>, e: Event, modern: bool)
    requires e.Read?
    ensures Samples(es + [e]) == Samples(es)
    ensures Taken(es + [e]) == if e.locks then |Samples(es)| else Taken(es)
    ensures FaultOfClient(modern, es + [e]) == FaultOfClient(modern, es)
  {
    assert (es + [e])[..|es|] == es;
  }

  lemma HarmlessMore(modern: bool, timeout: int, es: seq<Event>, e: Event)
    ensures AllHarmless(modern, timeout, es + [e]) <==> AllHarmless(modern, timeout, es) && Harmless(modern, timeout, es, e)
  {
    hide AllHarmless, Harmless;
    assert (es + [e])[..|es|] == es;
    HarmlessStep(modern, timeout, es + [e]);
  }

  lemma ReadKeeps(q: Plugin, p: Plugin, es: seq<Event>, e: Event)
    requires p.Valid() && Keeps(q, p, es) && e.Read? && Legal(e)
    ensures Keeps(q, Next(p, e), es + [e])
    ensures ReadNext(p, e).ok <==> AllHarmless(q.modern, q.timeout, es) && FaultOfClient(q.modern, es) == NoFault
                                   && !e.isNull && Exports(q.modern, q.timeout, es, e)
  {
    hide AllHarmless, Exports, ReadNext, FaultOfClient, Usable, Buffer.Swap, FirstRefused, Plugin.Dead, Buffer.Valid,
         Samples, Taken;
    HarmlessMore(q.modern, q.timeout, es, e);
    ReadTakes(es, e, q.modern);
    ReadIs(p, e);
    ExportsIs(q, p, es, e);
    SlotIs(p, e.locks);
    NextValid(p, e);
    SwapDelivers(p.buffer, e.locks);
  }

  lemma SwapDelivers(b: Buffer, locks: bool)
    ensures b.Swap(locks).delivered == b.delivered
  {
  }

  predicate Hurts(e: Event) {
    e.Cleanup? || e.ConversionFails? || e.AuxiliaryFails?
  }

  lemma OtherTakes(modern: bool, timeout: int, es: seq<Event>, e: Event)
    requires !e.Read?
    ensures Samples(es + [e]) == Samples(es) + (if e.Deliver? then [e.sample] else [])
    ensures Taken(es + [e]) == Taken(es)
    ensures Harmless(modern, timeout, es, e) <==> !Hurts(e)
    ensures var before := FaultOfClient(modern, es);
            FaultOfClient(modern, es + [e]) ==
            if e.ActivateBegin? && e.started && (!modern || e.failsAt >= 6) then NoFault
            else if e.ClientFaults? && before == NoFault then e.fault
            else before
  {
    assert (es + [e])[..|es|] == es;
  }

  lemma OtherNext(p: Plugin, e: Event)
    requires p.Valid() && !e.Read? && !e.Configure? && Legal(e)
    ensures var q := Next(p, e);
            && q.modern == p.modern && q.timeout == p.timeout && q.buffer.realtime.order == p.buffer.realtime.order
            && q.buffer.delivered == p.buffer.delivered + (if e.Deliver? then [e.sample] else [])
            && (q.Dead() <==> p.Dead() || Hurts(e))
            && (q.Dead() || q.clientFault == (if e.ActivateBegin? && e.started && (!p.modern || e.failsAt >= 6) then NoFault
                                              else if e.ClientFaults? && p.clientFault == NoFault then e.fault
                                              else p.clientFault))
  {
    hide Invalidated, Fetched, Buffer.Valid;
  }

  /** The other events. */
  lemma OtherKeeps(q: Plugin, p: Plugin, es: seq<Event>, e: Event)
    requires p.Valid() && Keeps(q, p, es) && !e.Read? && !e.Configure? && Legal(e)
    ensures Keeps(q, Next(p, e), es + [e])
  {
    hide AllHarmless, Harmless, Samples, Taken, FaultOfClient, Buffer.Valid, Next, Plugin.Dead, Hurts;
    HarmlessMore(q.modern, q.timeout, es, e);
    OtherTakes(q.modern, q.timeout, es, e);
    OtherNext(p, e);
  }

  lemma NothingFollows(q: Plugin)
    requires q.Valid() && !q.Dead() && q.clientFault == NoFault
    requires q.buffer.delivered == [] && q.buffer.realtime.order == 0
    ensures Keeps(q, q, [])
  {
    hide Buffer.Valid, Plugin.Dead, Harmless;
  }

  lemma {:induction false} FollowsEvents(q: Plugin, es: seq<Event>)
    requires q.Valid() && !q.Dead() && q.clientFault == NoFault
    requires q.buffer.delivered == [] && q.buffer.realtime.order == 0
    requires AllLegal(es) && NeverConfigured(es)
    ensures Keeps(q, PluginLatch.After(q, es), es)
  {
    hide Keeps, Next, Buffer.Valid, Plugin.Dead;
    if es == [] {
      NothingFollows(q);
    } else {
      var front, e := es[..|es| - 1], es[|es| - 1];
      FollowsEvents(q, front);
      assert front + [e] == es;
      if e.Read? {
        ReadKeeps(q, PluginLatch.After(q, front), front, e);
      } else {
        OtherKeeps(q, PluginLatch.After(q, front), front, e);
      }
    }
  }

  // ---------------------------------------------------------------- exactly

  /** After configuring with a client and an executor, whatever was latched before: a read succeeds if and only if every
      event since was harmless, the client has not faulted since it was started, the pointer is not null, and there is a
      sample to export. */
  lemma ReadSucceedsExactly(p: Plugin, clears: seq<bool>, es: seq<Event>, e: Event)
    requires p.Valid() && |clears| == AXES && AllLegal(es) && NeverConfigured(es) && e.Read? && Legal(e)
    ensures Next(p, Configure(true, true, clears)).Valid()
    ensures ReadNext(PluginLatch.After(Next(p, Configure(true, true, clears)), es), e).ok
            <==> && AllHarmless(p.modern, p.timeout, es) && FaultOfClient(p.modern, es) == NoFault
                 && !e.isNull && Exports(p.modern, p.timeout, es, e)
  {
    hide Next, ReadNext, AllHarmless, Exports, FaultOfClient, Buffer.Valid;
    ConfiguringRevives(p, true, true, clears);
    var q := Next(p, Configure(true, true, clears));
    FollowsEvents(q, es);
    ReadKeeps(q, PluginLatch.After(q, es), es, e);
  }

  /** And the plugin is dead if and only if some event since was not harmless. */
  lemma DeadExactly(p: Plugin, clears: seq<bool>, es: seq<Event>)
    requires p.Valid() && |clears| == AXES && AllLegal(es) && NeverConfigured(es)
    ensures Next(p, Configure(true, true, clears)).Valid()
    ensures PluginLatch.After(Next(p, Configure(true, true, clears)), es).Dead() <==> !AllHarmless(p.modern, p.timeout, es)
  {
    hide Next, AllHarmless, Buffer.Valid;
    ConfiguringRevives(p, true, true, clears);
    FollowsEvents(Next(p, Configure(true, true, clears)), es);
  }

  /** Which fault a read leaves: the client's if it has one, otherwise that of a sample that is not finite or too old;
      the latch that is there stays. A refused write leaves its own. */
  lemma ReadFaultExactly(p: Plugin, e: Event)
    requires p.Valid() && e.Read? && Legal(e)
    ensures var q := ReadNext(p, e).plugin; var s := p.buffer.Swap(e.locks).realtime.sample;
            var looks := !p.Dead() && p.clientFault == NoFault && !e.isNull;
            && q.fatal == (if p.fatal != NoFault then p.fatal
                           else if p.hasClient && p.clientFault != NoFault then p.clientFault
                           else if looks && !SampleIsFinite(s) then SensorConfigurationFault
                           else if looks && (s.receivedAt <= 0 || e.now - s.receivedAt > p.timeout) then TimeoutFault
                           else NoFault)
            && (q.writeFault <==> p.writeFault || (looks && Usable(s, e.now, p.timeout) && p.modern
                                                   && exists i :: 0 <= i < |e.stores| && !e.stores[i]))
  {
    hide Invalidated, Written, FirstRefused, Buffer.Valid, Buffer.Swap, SampleIsFinite;
    p.buffer.Keeps(NO_SAMPLE, e.locks);
    AllStored(p.modern, e.stores, 0);
  }

  // ---------------------------------------------------------------- activation and leaving

  /** What may come between the begin and the end of an activation. */
  predicate FromOutside(es: seq<Event>) {
    forall i :: 0 <= i < |es| ==>
                  es[i].Deliver? || es[i].Count? || es[i].ConversionFails? || es[i].AuxiliaryFails? || es[i].ClientFaults?
                  || es[i].Read?
  }

  predicate ClientFaulted(es: seq<Event>) {
    exists i :: 0 <= i < |es| && es[i].ClientFaults? && es[i].fault != NoFault
  }

  predicate SampleCounted(es: seq<Event>) {
    exists i :: 0 <= i < |es| && es[i].Count?
  }

  lemma OutsideStep(p: Plugin, e: Event)
    requires p.Valid() && Legal(e) && FromOutside([e])
    ensures var q := Next(p, e);
            && (q.generation > 0 <==> p.generation > 0 || e.Count?)
            && (q.clientFault == NoFault <==> p.clientFault == NoFault && !(e.ClientFaults? && e.fault != NoFault))
  {
    hide Invalidated, Written, FirstRefused, Fetched, Buffer.Valid, Buffer.Swap, Buffer.Deliver, SampleIsFinite,
         SampleIsStale;
    assert [e][0] == e;
  }

  lemma CountedStep(es: seq<Event>)
    requires es != []
    ensures SampleCounted(es) <==> SampleCounted(es[..|es| - 1]) || es[|es| - 1].Count?
  {
    var front := es[..|es| - 1];
    forall i: nat | i < |front| ensures front[i] == es[i] {
    }
    if SampleCounted(front) {
      var i :| 0 <= i < |front| && front[i].Count?;
      assert es[i].Count?;
    }
  }

  lemma FaultedStep(es: seq<Event>)
    requires es != []
    ensures ClientFaulted(es) <==>
            ClientFaulted(es[..|es| - 1]) || (es[|es| - 1].ClientFaults? && es[|es| - 1].fault != NoFault)
  {
    var front := es[..|es| - 1];
    forall i: nat | i < |front| ensures front[i] == es[i] {
    }
    if ClientFaulted(front) {
      var i :| 0 <= i < |front| && front[i].ClientFaults? && front[i].fault != NoFault;
      assert es[i].ClientFaults? && es[i].fault != NoFault;
    }
  }

  lemma {:induction false} OutsideKeeps(p: Plugin, es: seq<Event>)
    requires p.Valid() && AllLegal(es) && FromOutside(es)
    ensures var q := PluginLatch.After(p, es);
            && (q.generation > 0 <==> p.generation > 0 || SampleCounted(es))
            && (q.clientFault == NoFault <==> p.clientFault == NoFault && !ClientFaulted(es))
  {
    if es != [] {
      hide Next, Buffer.Valid, SampleCounted, ClientFaulted;
      var front, e := es[..|es| - 1], es[|es| - 1];
      OutsideKeeps(p, front);
      OutsideStep(PluginLatch.After(p, front), e);
      CountedStep(es);
      FaultedStep(es);
    }
  }

  /** An activation whose client starts succeeds if and only if the wait did, the client has not faulted since, and a
      sample was counted since. */
  lemma ActivatesExactly(p: Plugin, begin: Event, es: seq<Event>, waited: bool)
    requires p.Valid() && AllLegal(es) && FromOutside(es) && begin.ActivateBegin? && Legal(begin)
    requires p.hasClient && begin.started && (p.modern ==> begin.failsAt >= 6)
    ensures Next(p, begin).Valid()
    ensures Activates(PluginLatch.After(Next(p, begin), es), waited) <==> waited && !ClientFaulted(es) && SampleCounted(es)
  {
    hide Buffer.Valid, Invalidated, Fetched;
    NextValid(p, begin);
    OutsideKeeps(Next(p, begin), es);
  }

  /** Whatever leaves the active state invalidates: afterwards an axis is not a number if and only if the interface is the
      legacy one, its handle accepts the write, or it was not a number before. */
  lemma LeavingInvalidates(p: Plugin, e: Event, i: nat)
    requires p.Valid() && Legal(e) && i < AXES && (e.Deactivate? || e.Cleanup? || e.Configure?)
    ensures Next(p, e).axes[i] == NaN <==> !p.modern || (p.handles[i] && e.clears[i]) || p.axes[i] == NaN
    ensures Next(p, e).generation == 0 && (e.Cleanup? ==> Next(p, e).Dead())
  {
    hide Buffer.Valid;
  }

  /** So does an activation that fails at its end. */
  lemma FailedActivationInvalidates(p: Plugin, waited: bool, clears: seq<bool>, i: nat)
    requires p.Valid() && |clears| == AXES && i < AXES
    ensures Next(p, ActivateEnd(waited, clears)).axes[i] == NaN
            <==> p.axes[i] == NaN || (!Activates(p, waited) && (!p.modern || (p.handles[i] && clears[i])))
  {
    hide Buffer.Valid;
  }
}
