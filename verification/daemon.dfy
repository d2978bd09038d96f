/** The daemon process: the aggregator, the session manager, its devices
    and the global stream slot, wired together as in the source. The
    aggregator's signals go to the manager (`sink-added`, `sink-removed`,
    `notify::has-providers`) and to the providers (the forwarded `discover`
    flag). A device's request to switch discovery goes to the aggregator.
    Everything else arrives from outside as an `Input`: provider and sink
    reports, D-Bus calls, the completions of asynchronous requests, the
    state changes of the streams the devices started and the idle timer.

    Once the main loop has quit, or a `g_assert` has failed, nothing more
    happens. */
module Daemon {
  import opened Common
  import opened SinkStates
  import opened DbusSink
  import MetaProvider
  import DbusManager

  datatype Phase = Running | Quit | Aborted

  datatype World = World(
    agg: MetaProvider.Aggregator,
    mgr: DbusManager.Manager,
    streams: Streams,
    phase: Phase)

  /** What the daemon consults but does not compute: which raw sinks belong
      to one device, what a meta sink reports about itself (both in
      nd-meta-sink.c, which is not part of this model) and the wall clock. */
  datatype Env = Env(
    matches: MetaProvider.Matcher,
    describe: MetaProvider.MetaSink -> SinkInfo,
    now: int)

  /** Everything that can happen to the daemon. Devices are addressed by the
      meta sink they were built for; an input for a meta sink that has no
      device is dropped. */
  datatype Input =
    | ProviderAdded(provider: ProviderId, providerSinks: seq<SinkId>)
    | ProviderRemoved(provider: ProviderId, providerSinks: seq<SinkId>)
    | SinkSighted(sink: SinkId)
    | SinkLost(sink: SinkId)
    | BusAcquired
    | NameLost
    | ManagerCall(methodName: string, enableArg: Option<bool>)
    | DeviceCall(meta: MetaId, methodName: string)
    | PortalFinished(meta: MetaId, result: InitResult, wayland: bool)
    | PulseFinished(meta: MetaId, result: InitResult, start: StartResult)
    | UnloadFinished(meta: MetaId)
    | TimerFired(meta: MetaId)
    | StreamStateReported(meta: MetaId, state: SinkState)
    | MetaRenamed(meta: MetaId, displayName: Option<string>)
    | IdleTick

  /** The world after an input, what was emitted, and the reply when the
      input was a method call. */
  datatype Moved = Moved(world: World, signals: seq<Signal>, reply: Option<Reply>)

  /* ---------------------------------------------------------------- */
  /* Wiring                                                            */

  /** One aggregator signal reaching the manager or the providers. */
  function DeliverOne(m: DbusManager.Manager, e: MetaProvider.AggEvent,
                      describe: MetaProvider.MetaSink -> SinkInfo): (r: DbusManager.Step)
    ensures r.mgr.bus == m.bus && r.mgr.discover == m.discover && r.mgr.busyTime == m.busyTime
    ensures m.aborted ==> r.mgr.aborted
  {
    match e
    case MetaAdded(ms) => DbusManager.SinkAdded(m, ms.id, describe(ms))
    case MetaRemoved(id) => DbusManager.SinkRemoved(m, id)
    case DiscoverForwarded(p, on) => DbusManager.Step(m, [ProviderDiscover(p, on)])
    case HasProvidersNotified(h) => DbusManager.OnHasProviders(m, h)
  }

  /** The aggregator's signals, delivered in emission order. The manager's
      bus, flag and busy time are never touched on the way, and an abort is
      final. */
  function Deliver(m: DbusManager.Manager, events: seq<MetaProvider.AggEvent>,
                   describe: MetaProvider.MetaSink -> SinkInfo): (r: DbusManager.Step)
    ensures r.mgr.bus == m.bus && r.mgr.discover == m.discover && r.mgr.busyTime == m.busyTime
    ensures m.aborted ==> r.mgr.aborted
    decreases |events|
  {
    if |events| == 0 then DbusManager.Step(m, [])
    else
      var first := DeliverOne(m, events[0], describe);
      var rest := Deliver(first.mgr, events[1..], describe);
      DbusManager.Step(rest.mgr, first.signals + rest.signals)
  }

  datatype Applied = Applied(agg: MetaProvider.Aggregator, signals: seq<Signal>)

  /** A device's effects in order: its signals go out, and a discovery
      switch goes to the aggregator, which forwards it to every provider. */
  function ApplyEffects(a: MetaProvider.Aggregator, effects: seq<Effect>): (r: Applied)
    ensures r.agg.metas == a.metas && r.agg.providers == a.providers && r.agg.nextId == a.nextId
    ensures |effects| > 0 && effects[|effects| - 1].SetDiscover? ==>
              r.agg.discover == effects[|effects| - 1].on
    decreases |effects|
  {
    if |effects| == 0 then Applied(a, [])
    else
      var last := effects[|effects| - 1];
      var init := ApplyEffects(a, effects[..|effects| - 1]);
      match last
      case Out(sig) => Applied(init.agg, init.signals + [sig])
      case SetDiscover(on) =>
        var e := MetaProvider.SetDiscover(init.agg, on);
        Applied(e.agg, init.signals + Forwarded(init.agg.providers, on))
  }

  /** The `discover` setter's calls into the providers, as signals. */
  function Forwarded(ps: seq<ProviderId>, on: bool): (r: seq<Signal>)
    ensures |r| == |ps|
    ensures forall i :: 0 <= i < |ps| ==> r[i] == ProviderDiscover(ps[i], on)
  {
    if |ps| == 0 then [] else [ProviderDiscover(ps[0], on)] + Forwarded(ps[1..], on)
  }

  /** An aggregator change and its signals reaching the manager; a device
      export that fails on the way aborts the process. */
  function Relay(w: World, a: MetaProvider.Aggregator, events: seq<MetaProvider.AggEvent>, env: Env): (r: Moved)
    ensures r.world.phase == Aborted || r.world.phase == w.phase
  {
    var d := Deliver(w.mgr, events, env.describe);
    if d.mgr.aborted then Moved(w.(phase := Aborted), [], None)
    else Moved(w.(agg := a, mgr := d.mgr), d.signals, None)
  }

  /** A device transition written back, with its effects applied. */
  function Commit(w: World, i: nat, o: DbusSink.Outcome, reply: Option<Reply>): (r: Moved)
    requires i < |w.mgr.devices|
    ensures r.world.phase == w.phase
  {
    var applied := ApplyEffects(w.agg, o.effects);
    Moved(World(applied.agg, w.mgr.(devices := w.mgr.devices[i := o.dev]), o.streams, w.phase),
          applied.signals, reply)
  }

  /** The (meta sink, description) pairs `Enable(true)` replays. */
  function Described(metas: seq<MetaProvider.MetaSink>, describe: MetaProvider.MetaSink -> SinkInfo)
    : (r: seq<(MetaId, SinkInfo)>)
    ensures |r| == |metas|
    ensures forall i :: 0 <= i < |metas| ==> r[i] == (metas[i].id, describe(metas[i]))
  {
    if |metas| == 0 then [] else [(metas[0].id, describe(metas[0]))] + Described(metas[1..], describe)
  }

  function PhaseAfter(signals: seq<Signal>, p: Phase): Phase
  {
    if LoopQuit in signals then Quit else p
  }

  /* ---------------------------------------------------------------- */
  /* The step                                                          */

  /** The manager's method call. `Enable` with a boolean first sets the
      aggregator's flag (forwarded to every provider), then the manager's;
      a device export that fails during the replay aborts the process. */
  function OnManagerCall(w: World, name: string, arg: Option<bool>, env: Env): Moved
  {
    var pre := if name == "Enable" && arg.Some? then MetaProvider.SetDiscover(w.agg, arg.value)
               else MetaProvider.Emitted(w.agg, []);
    var fwd := Deliver(w.mgr, pre.events, env.describe);
    var replay := Described(MetaProvider.GetSinks(pre.agg), env.describe);
    var c := DbusManager.MethodCall(fwd.mgr, env.now, name, arg, replay);
    if c.mgr.aborted then Moved(w.(phase := Aborted), [], None)
    else
      Moved(World(pre.agg, c.mgr, w.streams, PhaseAfter(c.signals, w.phase)),
            fwd.signals + c.signals, Some(c.reply))
  }

  /** An input addressed to the device built for a meta sink. A stream's
      state change reaches the device that started it while that device's
      handler is connected, whether or not the stream is still in the slot. */
  function OnDevice(w: World, input: Input): (r: Moved)
    requires input.DeviceCall? || input.PortalFinished? || input.PulseFinished?
             || input.UnloadFinished? || input.TimerFired? || input.MetaRenamed?
             || input.StreamStateReported?
    ensures r.world.phase == w.phase
  {
    match DbusManager.Find(w.mgr.devices, input.meta)
    case None => Moved(w, [], if input.DeviceCall? then Some(ReplyError(UnknownMethod)) else None)
    case Some(i) =>
      var d := w.mgr.devices[i];
      match input
      case DeviceCall(_, name) =>
        var c := MethodCall(d, w.streams, name);
        Commit(w, i, c.outcome, Some(c.reply))
      case PortalFinished(_, result, wayland) => Commit(w, i, PortalDone(d, w.streams, result, wayland), None)
      case PulseFinished(_, result, start) => Commit(w, i, PulseDone(d, w.streams, result, start), None)
      case UnloadFinished(_) => Commit(w, i, UnloadDone(d, w.streams), None)
      case TimerFired(_) => Commit(w, i, QuitTimeout(d, w.streams), None)
      case MetaRenamed(_, displayName) =>
        var (d1, e) := NameChanged(d, displayName);
        Commit(w, i, DbusSink.Outcome(d1, w.streams, e), None)
      case StreamStateReported(_, s) =>
        if !d.watching then Moved(w, [], None)
        else
          var (d1, e) := StreamStateChanged(d, s);
          Commit(w, i, DbusSink.Outcome(d1, w.streams, e), None)
  }


  /** One input. */
  function Step(w: World, input: Input, env: Env): (r: Moved)
    ensures w.phase != Running ==> r == Moved(w, [], None)
    ensures r.world.phase == Quit && w.phase == Running ==> input.ManagerCall? || input.IdleTick? || input.NameLost?
  {
    if w.phase != Running then Moved(w, [], None)
    else
      match input
      case ProviderAdded(p, sinks) =>
        (match MetaProvider.AddProvider(w.agg, p, sinks, env.matches)
         case AssertionFailed => Moved(w.(phase := Aborted), [], None)
         case Done(a, events) => Relay(w, a, events, env))
      case ProviderRemoved(p, sinks) =>
        (match MetaProvider.RemoveProvider(w.agg, p, sinks)
         case AssertionFailed => Moved(w.(phase := Aborted), [], None)
         case Done(a, events) => Relay(w, a, events, env))
      case SinkSighted(s) =>
        var e := MetaProvider.AddSink(w.agg, s, env.matches);
        Relay(w, e.agg, e.events, env)
      case SinkLost(s) =>
        (match MetaProvider.RemoveSink(w.agg, s)
         case AssertionFailed => Moved(w.(phase := Aborted), [], None)
         case Done(a, events) => Relay(w, a, events, env))
      case BusAcquired => Moved(w.(mgr := DbusManager.BusAcquired(w.mgr)), [], None)
      case NameLost =>
        var q := DbusManager.Quit(w.mgr);
        Moved(w.(mgr := q.mgr, phase := Quit), q.signals, None)
      case ManagerCall(name, arg) => OnManagerCall(w, name, arg, env)
      case StreamStateReported(_, _) => OnDevice(w, input)
      case IdleTick =>
        var t := DbusManager.IdleCheck(w.mgr, env.now);
        Moved(w.(mgr := t.mgr, phase := if t.keep then Running else Quit), t.signals, None)
      case DeviceCall(_, _) => OnDevice(w, input)
      case PortalFinished(_, _, _) => OnDevice(w, input)
      case PulseFinished(_, _, _) => OnDevice(w, input)
      case UnloadFinished(_) => OnDevice(w, input)
      case TimerFired(_) => OnDevice(w, input)
      case MetaRenamed(_, _) => OnDevice(w, input)
  }

  /** `main`: the manager is built (which sets the aggregator's flag to its
      own, `true`), nothing is registered yet. */
  function Start(haveBasicCodecs: bool, now: int): (w: World)
  {
    var a := MetaProvider.SetDiscover(MetaProvider.Init(), true).agg;
    World(a, DbusManager.Init(haveBasicCodecs, now).mgr, Streams(None, {}), Running)
  }

  /** A sequence of inputs, each with the environment it met. */
  function Run(w: World, inputs: seq<(Input, Env)>): World
    decreases |inputs|
  {
    if |inputs| == 0 then w else Run(Step(w, inputs[0].0, inputs[0].1).world, inputs[1..])
  }

  /* ---------------------------------------------------------------- */
  /* The invariant                                                     */

  ghost predicate AllOk(devices: seq<Device>)
  {
    forall d :: d in devices ==> DeviceOk(d)
  }

  /** "NotSupportP2P" is listed at most once, and never while a provider is
      registered. */
  ghost predicate P2PListed(w: World)
  {
    && multiset(w.mgr.missing)[DbusManager.NotSupportP2P] <= 1
    && (MetaProvider.HasProviders(w.agg) ==> DbusManager.NotSupportP2P !in w.mgr.missing)
  }

  /** What holds between any two inputs: the aggregator is well formed;
      every device stands for a distinct meta sink the aggregator still
      lists; at most one stream runs, the one in the slot; every device's
      stored timer is pending; the capability list is consistent with the
      providers; the process has not aborted, and every device is exported
      on the bus at a path of its own. */
  ghost predicate Inv(w: World)
  {
    && !w.mgr.aborted
    && DbusManager.Exported(w.mgr)
    && MetaProvider.Valid(w.agg)
    && DbusManager.DistinctMetas(w.mgr.devices)
    && DbusManager.Metas(w.mgr.devices) <= MetaProvider.Ids(w.agg.metas)
    && SingleStream(w.streams)
    && AllOk(w.mgr.devices)
    && P2PListed(w)
  }

  /* ---------------------------------------------------------------- */
  /* Lemmas: wiring                                                    */

  lemma DeliverOneTracks(m: DbusManager.Manager, known: set<MetaId>, e: MetaProvider.AggEvent,
                         describe: MetaProvider.MetaSink -> SinkInfo)
    requires DbusManager.DistinctMetas(m.devices) && DbusManager.Metas(m.devices) <= known
    requires AllOk(m.devices) && DbusManager.Exported(m)
    ensures var r := DeliverOne(m, e, describe).mgr;
            && DbusManager.DistinctMetas(r.devices)
            && DbusManager.Metas(r.devices) <= MetaProvider.HeardOne(known, e)
            && AllOk(r.devices)
            && (!r.aborted ==> DbusManager.Exported(r))
  {
    match e
    case MetaAdded(ms) =>
      DbusManager.SinkAddedMetas(m, ms.id, describe(ms));
      DbusManager.SinkAddedExports(m, ms.id, describe(ms));
    case MetaRemoved(id) =>
      DbusManager.SinkRemovedMetas(m, id);
      DbusManager.SinkRemovedExports(m, id);
    case DiscoverForwarded(_, _) =>
    case HasProvidersNotified(_) =>
  }

  /** Unless an export aborts the process, following the aggregator's
      signals keeps the device list free of duplicates, within what a
      listener following the same signals believes the meta sinks are, and
      exported at distinct paths. */
  lemma {:induction false} DeliverTracks(m: DbusManager.Manager, known: set<MetaId>,
                                         events: seq<MetaProvider.AggEvent>,
                                         describe: MetaProvider.MetaSink -> SinkInfo)
    requires DbusManager.DistinctMetas(m.devices) && DbusManager.Metas(m.devices) <= known
    requires AllOk(m.devices) && DbusManager.Exported(m)
    ensures var r := Deliver(m, events, describe).mgr;
            !r.aborted ==>
              && DbusManager.DistinctMetas(r.devices)
              && DbusManager.Metas(r.devices) <= MetaProvider.Heard(known, events)
              && AllOk(r.devices)
              && DbusManager.Exported(r)
    decreases |events|
  {
    if |events| > 0 {
      var first := DeliverOne(m, events[0], describe);
      DeliverOneTracks(m, known, events[0], describe);
      if !first.mgr.aborted {
        DeliverTracks(first.mgr, MetaProvider.HeardOne(known, events[0]), events[1..], describe);
      }
    }
  }

  lemma {:induction false} DeliverAppend(m: DbusManager.Manager, e1: seq<MetaProvider.AggEvent>,
                                         e2: seq<MetaProvider.AggEvent>,
                                         describe: MetaProvider.MetaSink -> SinkInfo)
    ensures Deliver(m, e1 + e2, describe).mgr == Deliver(Deliver(m, e1, describe).mgr, e2, describe).mgr
    decreases |e1|
  {
    if |e1| > 0 {
      assert (e1 + e2)[0] == e1[0];
      assert (e1 + e2)[1..] == e1[1..] + e2;
      DeliverAppend(DeliverOne(m, e1[0], describe).mgr, e1[1..], e2, describe);
    } else {
      assert e1 + e2 == e2;
    }
  }

  /** Signals other than `notify::has-providers` leave the capability list alone. */
  lemma {:induction false} DeliverQuiet(m: DbusManager.Manager, events: seq<MetaProvider.AggEvent>,
                                        describe: MetaProvider.MetaSink -> SinkInfo)
    requires forall e :: e in events ==> !e.HasProvidersNotified?
    ensures Deliver(m, events, describe).mgr.missing == m.missing
    decreases |events|
  {
    if |events| > 0 {
      assert events[0] in events;
      DeliverQuiet(DeliverOne(m, events[0], describe).mgr, events[1..], describe);
    }
  }

  /** Forwarded flags reach the providers and change nothing in the manager. */
  lemma {:induction false} DeliverForwards(m: DbusManager.Manager, ps: seq<ProviderId>, on: bool,
                                           describe: MetaProvider.MetaSink -> SinkInfo)
    ensures Deliver(m, MetaProvider.Forwards(ps, on), describe).mgr == m
    decreases |ps|
  {
    if |ps| > 0 {
      assert MetaProvider.Forwards(ps, on)[1..] == MetaProvider.Forwards(ps[1..], on);
      DeliverForwards(m, ps[1..], on, describe);
    }
  }

  /** A list of quiet signals closed by one `notify::has-providers`: the
      capability is listed once more, or once less. */
  lemma DeliverEndsWithNotice(m: DbusManager.Manager, body: seq<MetaProvider.AggEvent>, h: bool,
                              describe: MetaProvider.MetaSink -> SinkInfo)
    requires forall e :: e in body ==> !e.HasProvidersNotified?
    ensures var c := multiset(Deliver(m, body + [MetaProvider.HasProvidersNotified(h)], describe).mgr.missing);
            c == if h then multiset(m.missing) - multiset{DbusManager.NotSupportP2P}
                 else multiset(m.missing) + multiset{DbusManager.NotSupportP2P}
  {
    DeliverAppend(m, body, [MetaProvider.HasProvidersNotified(h)], describe);
    DeliverQuiet(m, body, describe);
    var mid := Deliver(m, body, describe).mgr;
    assert Deliver(mid, [MetaProvider.HasProvidersNotified(h)], describe).mgr
        == DbusManager.OnHasProviders(mid, h).mgr;
  }

  lemma {:induction false} ReplayOk(m: DbusManager.Manager, sinks: seq<(MetaId, SinkInfo)>)
    requires AllOk(m.devices)
    ensures AllOk(DbusManager.Replay(m, sinks).mgr.devices)
    decreases |sinks|
  {
    if |sinks| > 0 {
      ReplayOk(DbusManager.SinkAdded(m, sinks[0].0, sinks[0].1).mgr, sinks[1..]);
    }
  }

  /* ---------------------------------------------------------------- */
  /* Lemmas: the invariant                                             */

  /** The freshly started daemon satisfies the invariant. */
  lemma StartInv(haveBasicCodecs: bool, now: int)
    ensures Inv(Start(haveBasicCodecs, now))
    ensures Start(haveBasicCodecs, now).phase == Running
    ensures DbusManager.NotSupportP2P !in Start(haveBasicCodecs, now).mgr.missing
  {
    MetaProvider.InitValid();
  }

  /** An aggregator change whose signals describe it exactly keeps the
      device part of the invariant. */
  lemma RelayKeepsDevices(w: World, a: MetaProvider.Aggregator, events: seq<MetaProvider.AggEvent>, env: Env)
    requires Inv(w) && MetaProvider.Valid(a)
    requires MetaProvider.Heard(MetaProvider.Ids(w.agg.metas), events) == MetaProvider.Ids(a.metas)
    ensures var r := Relay(w, a, events, env).world;
            && MetaProvider.Valid(r.agg)
            && DbusManager.DistinctMetas(r.mgr.devices)
            && DbusManager.Metas(r.mgr.devices) <= MetaProvider.Ids(r.agg.metas)
            && SingleStream(r.streams) && AllOk(r.mgr.devices)
            && !r.mgr.aborted && DbusManager.Exported(r.mgr)
            && (r.phase == Running ==> r.agg == a && r.mgr == Deliver(w.mgr, events, env.describe).mgr)
  {
    DeliverTracks(w.mgr, MetaProvider.Ids(w.agg.metas), events, env.describe);
  }

  lemma ProviderAddedKeepsInv(w: World, p: ProviderId, sinks: seq<SinkId>, env: Env)
    requires Inv(w) && w.phase == Running
    ensures Inv(Step(w, ProviderAdded(p, sinks), env).world)
  {
    var r := MetaProvider.AddProvider(w.agg, p, sinks, env.matches);
    if r.Done? {
      MetaProvider.ProvidersValid(w.agg, p, sinks, env.matches);
      MetaProvider.OperationsAnnounceChanges(w.agg, p, sinks, true, env.matches);
      RelayKeepsDevices(w, r.agg, r.events, env);
      ProviderAddedP2P(w, p, sinks, env);
    }
  }

  /** Registering a provider withdraws one `NotSupportP2P`. */
  lemma ProviderAddedP2P(w: World, p: ProviderId, sinks: seq<SinkId>, env: Env)
    requires Inv(w) && w.phase == Running
    requires MetaProvider.AddProvider(w.agg, p, sinks, env.matches).Done?
    ensures var r := MetaProvider.AddProvider(w.agg, p, sinks, env.matches);
            multiset(Deliver(w.mgr, r.events, env.describe).mgr.missing)
              == multiset(w.mgr.missing) - multiset{DbusManager.NotSupportP2P}
  {
    var r := MetaProvider.AddProvider(w.agg, p, sinks, env.matches);
    var a1 := w.agg.(providers := w.agg.providers + [p]);
    var added := MetaProvider.AddAll(a1, sinks, env.matches);
    MetaProvider.AddAllListEvents(a1, sinks, env.matches);
    var body := [MetaProvider.DiscoverForwarded(p, w.agg.discover)] + added.events;
    assert r.events == body + [MetaProvider.HasProvidersNotified(true)];
    DeliverEndsWithNotice(w.mgr, body, true, env.describe);
  }

  lemma ProviderRemovedKeepsInv(w: World, p: ProviderId, sinks: seq<SinkId>, env: Env)
    requires Inv(w) && w.phase == Running
    ensures Inv(Step(w, ProviderRemoved(p, sinks), env).world)
  {
    var r := MetaProvider.RemoveProvider(w.agg, p, sinks);
    if r.Done? {
      MetaProvider.ProvidersValid(w.agg, p, sinks, env.matches);
      MetaProvider.OperationsAnnounceChanges(w.agg, p, sinks, true, env.matches);
      RelayKeepsDevices(w, r.agg, r.events, env);
      var removed := MetaProvider.RemoveAll(w.agg, sinks);
      MetaProvider.RemoveAllListEvents(w.agg, sinks);
      var h := |r.agg.providers| > 0;
      assert r.events == removed.events + [MetaProvider.HasProvidersNotified(h)];
      DeliverEndsWithNotice(w.mgr, removed.events, h, env.describe);
      assert MetaProvider.HasProviders(w.agg);
    }
  }

  lemma SinkSightedKeepsInv(w: World, s: SinkId, env: Env)
    requires Inv(w) && w.phase == Running
    ensures Inv(Step(w, SinkSighted(s), env).world)
  {
    var e := MetaProvider.AddSink(w.agg, s, env.matches);
    MetaProvider.AddSinkValid(w.agg, s, env.matches);
    MetaProvider.AddSinkHeard(w.agg, s, env.matches);
    RelayKeepsDevices(w, e.agg, e.events, env);
    MetaProvider.AddAllListEvents(w.agg, [s], env.matches);
    assert MetaProvider.AddAll(w.agg, [s], env.matches).events == e.events + [];
    DeliverQuiet(w.mgr, e.events, env.describe);
  }

  lemma SinkLostKeepsInv(w: World, s: SinkId, env: Env)
    requires Inv(w) && w.phase == Running
    ensures Inv(Step(w, SinkLost(s), env).world)
  {
    var r := MetaProvider.RemoveSink(w.agg, s);
    if r.Done? {
      MetaProvider.RemoveSinkValid(w.agg, s);
      MetaProvider.RemoveSinkHeard(w.agg, s);
      RelayKeepsDevices(w, r.agg, r.events, env);
      MetaProvider.RemoveAllListEvents(w.agg, [s]);
      assert MetaProvider.RemoveAll(w.agg, [s]).events == r.events + [];
      DeliverQuiet(w.mgr, r.events, env.describe);
    }
  }

  /** `Enable(true)` replays only meta sinks the aggregator lists. */
  lemma EnableKeepsInv(w: World, env: Env)
    requires Inv(w)
    ensures var a := MetaProvider.SetDiscover(w.agg, true).agg;
            var replay := Described(MetaProvider.GetSinks(a), env.describe);
            var m := DbusManager.Replay(w.mgr.(busyTime := env.now, discover := true), replay).mgr;
            && DbusManager.DistinctMetas(m.devices)
            && DbusManager.Metas(m.devices) <= MetaProvider.Ids(a.metas)
            && AllOk(m.devices) && m.missing == w.mgr.missing
            && (!m.aborted ==> DbusManager.Exported(m))
  {
    var a := MetaProvider.SetDiscover(w.agg, true).agg;
    var replay := Described(MetaProvider.GetSinks(a), env.describe);
    var m1 := w.mgr.(busyTime := env.now, discover := true);
    DbusManager.ReplayCovers(m1, replay);
    DbusManager.ReplayExports(m1, replay);
    ReplayOk(m1, replay);
    forall k | 0 <= k < |replay| ensures replay[k].0 in MetaProvider.Ids(a.metas) {
      var j := |a.metas| - 1 - k;
      assert replay[k].0 == a.metas[j].id;
      assert a.metas[j] in a.metas;
    }
  }

  lemma ManagerCallKeepsInv(w: World, name: string, arg: Option<bool>, env: Env)
    requires Inv(w) && w.phase == Running
    ensures Inv(Step(w, ManagerCall(name, arg), env).world)
  {
    ManagerCallInv(w, name, arg, env);
  }

  lemma ManagerCallInv(w: World, name: string, arg: Option<bool>, env: Env)
    requires Inv(w)
    ensures Inv(OnManagerCall(w, name, arg, env).world)
  {
    var pre := if name == "Enable" && arg.Some? then MetaProvider.SetDiscover(w.agg, arg.value)
               else MetaProvider.Emitted(w.agg, []);
    if name == "Enable" && arg.Some? {
      DeliverForwards(w.mgr, w.agg.providers, arg.value, env.describe);
    }
    assert Deliver(w.mgr, pre.events, env.describe).mgr == w.mgr;
    if name == "Enable" && arg == Some(true) {
      EnableKeepsInv(w, env);
    }
  }

  /** Writing a transition back keeps the invariant when the transition
      keeps the device's meta sink and address, its timer bookkeeping and
      the single stream. */
  lemma CommitKeepsInv(w: World, i: nat, o: DbusSink.Outcome, reply: Option<Reply>)
    requires Inv(w) && i < |w.mgr.devices|
    requires o.dev.meta == w.mgr.devices[i].meta && o.dev.hwAddress == w.mgr.devices[i].hwAddress
    requires DeviceOk(o.dev) && SingleStream(o.streams)
    ensures Inv(Commit(w, i, o, reply).world)
  {
    var devs := w.mgr.devices;
    var devs1 := devs[i := o.dev];
    assert forall k :: 0 <= k < |devs1| ==> devs1[k].meta == devs[k].meta;
    assert forall k :: 0 <= k < |devs1| ==> devs1[k].hwAddress == devs[k].hwAddress;
    assert DbusManager.Metas(devs1) == DbusManager.Metas(devs) by {
      forall x | x in DbusManager.Metas(devs1) ensures x in DbusManager.Metas(devs) {
        var k :| 0 <= k < |devs1| && devs1[k].meta == x;
        assert devs[k] in devs;
      }
      forall x | x in DbusManager.Metas(devs) ensures x in DbusManager.Metas(devs1) {
        var k :| 0 <= k < |devs| && devs[k].meta == x;
        assert devs1[k] in devs1;
      }
    }
    assert AllOk(devs1) by {
      forall d | d in devs1 ensures DeviceOk(d) {
        var k :| 0 <= k < |devs1| && devs1[k] == d;
        if k != i { assert devs[k] in devs; }
      }
    }
  }

  lemma DeviceCallOk(w: World, i: nat, name: string)
    requires Inv(w) && i < |w.mgr.devices|
    ensures var c := MethodCall(w.mgr.devices[i], w.streams, name);
            Inv(Commit(w, i, c.outcome, Some(c.reply)).world)
  {
    var d := w.mgr.devices[i];
    assert d in w.mgr.devices;
    TransitionsKeepSingleStream(d, w.streams, name, InitOk, false, StartFailed);
    CallsKeepDeviceOk(d, w.streams, name, InitOk, false, StartFailed);
    var c := MethodCall(d, w.streams, name);
    CommitKeepsInv(w, i, c.outcome, Some(c.reply));
  }

  lemma PortalDoneOk(w: World, i: nat, result: InitResult, wayland: bool)
    requires Inv(w) && i < |w.mgr.devices|
    ensures Inv(Commit(w, i, PortalDone(w.mgr.devices[i], w.streams, result, wayland), None).world)
  {
    var d := w.mgr.devices[i];
    assert d in w.mgr.devices;
    TransitionsKeepSingleStream(d, w.streams, "", result, wayland, StartFailed);
    CallsKeepDeviceOk(d, w.streams, "", result, wayland, StartFailed);
    CommitKeepsInv(w, i, PortalDone(d, w.streams, result, wayland), None);
  }

  lemma PulseDoneOk(w: World, i: nat, result: InitResult, start: StartResult)
    requires Inv(w) && i < |w.mgr.devices|
    ensures Inv(Commit(w, i, PulseDone(w.mgr.devices[i], w.streams, result, start), None).world)
  {
    var d := w.mgr.devices[i];
    assert d in w.mgr.devices;
    TransitionsKeepSingleStream(d, w.streams, "", result, false, start);
    PulseDoneKeepsDeviceOk(d, w.streams, result, start);
    CommitKeepsInv(w, i, PulseDone(d, w.streams, result, start), None);
  }

  lemma DeviceTeardownOk(w: World, i: nat, displayName: Option<string>)
    requires Inv(w) && i < |w.mgr.devices|
    ensures var d := w.mgr.devices[i];
            && Inv(Commit(w, i, UnloadDone(d, w.streams), None).world)
            && Inv(Commit(w, i, QuitTimeout(d, w.streams), None).world)
            && Inv(Commit(w, i, DbusSink.Outcome(NameChanged(d, displayName).0, w.streams,
                                                 NameChanged(d, displayName).1), None).world)
  {
    var d := w.mgr.devices[i];
    assert d in w.mgr.devices;
    TransitionsKeepSingleStream(d, w.streams, "", InitOk, false, StartFailed);
    CompletionsKeepDeviceOk(d, w.streams, Disconnected);
    CommitKeepsInv(w, i, UnloadDone(d, w.streams), None);
    CommitKeepsInv(w, i, QuitTimeout(d, w.streams), None);
    CommitKeepsInv(w, i, DbusSink.Outcome(NameChanged(d, displayName).0, w.streams,
                                          NameChanged(d, displayName).1), None);
  }

  lemma DeviceInputKeepsInv(w: World, input: Input)
    requires Inv(w)
    requires input.DeviceCall? || input.PortalFinished? || input.PulseFinished?
             || input.UnloadFinished? || input.TimerFired? || input.MetaRenamed?
             || input.StreamStateReported?
    ensures Inv(OnDevice(w, input).world)
  {
    match DbusManager.Find(w.mgr.devices, input.meta)
    case None =>
    case Some(i) =>
      match input
      case DeviceCall(_, name) => DeviceCallOk(w, i, name);
      case PortalFinished(_, result, wayland) => PortalDoneOk(w, i, result, wayland);
      case PulseFinished(_, result, start) => PulseDoneOk(w, i, result, start);
      case UnloadFinished(_) => DeviceTeardownOk(w, i, None);
      case TimerFired(_) => DeviceTeardownOk(w, i, None);
      case MetaRenamed(_, displayName) => DeviceTeardownOk(w, i, displayName);
      case StreamStateReported(_, s) => StreamStateOk(w, i, s);
  }

  /** A state report for the stream a device started reaches that device
      exactly while the device's handler is connected, whichever stream the
      slot holds; otherwise it changes nothing. */
  lemma StreamReportRouting(w: World, i: nat, s: SinkState, env: Env)
    requires w.phase == Running && i < |w.mgr.devices|
    requires DbusManager.DistinctMetas(w.mgr.devices)
    ensures var d := w.mgr.devices[i];
            var r := Step(w, StreamStateReported(d.meta, s), env);
            && (d.watching ==>
                  && r.world.mgr.devices == w.mgr.devices[i := StreamStateChanged(d, s).0]
                  && r.world.streams == w.streams && r.world.phase == Running)
            && (!d.watching ==> r == Moved(w, [], None))
  {
    var d := w.mgr.devices[i];
    assert d in w.mgr.devices;
  }

  lemma StreamStateOk(w: World, i: nat, s: SinkState)
    requires Inv(w) && i < |w.mgr.devices|
    ensures var (d1, e) := StreamStateChanged(w.mgr.devices[i], s);
            Inv(Commit(w, i, DbusSink.Outcome(d1, w.streams, e), None).world)
  {
    var d := w.mgr.devices[i];
    assert d in w.mgr.devices;
    CompletionsKeepDeviceOk(d, w.streams, s);
    var (d1, e) := StreamStateChanged(d, s);
    CommitKeepsInv(w, i, DbusSink.Outcome(d1, w.streams, e), None);
  }

  lemma QuitKeepsInv(w: World)
    requires Inv(w)
    ensures Inv(w.(mgr := DbusManager.Quit(w.mgr).mgr, phase := Quit))
  {
  }

  lemma IdleTickKeepsInv(w: World, env: Env)
    requires Inv(w) && w.phase == Running
    ensures Inv(Step(w, IdleTick, env).world)
  {
    DbusManager.IdleCheckQuitsIff(w.mgr, env.now);
  }

  /** Every input keeps the invariant. */
  lemma StepKeepsInv(w: World, input: Input, env: Env)
    requires Inv(w)
    ensures Inv(Step(w, input, env).world)
  {
    if w.phase == Running {
      match input
      case ProviderAdded(p, sinks) => ProviderAddedKeepsInv(w, p, sinks, env);
      case ProviderRemoved(p, sinks) => ProviderRemovedKeepsInv(w, p, sinks, env);
      case SinkSighted(s) => SinkSightedKeepsInv(w, s, env);
      case SinkLost(s) => SinkLostKeepsInv(w, s, env);
      case BusAcquired =>
      case NameLost => QuitKeepsInv(w);
      case ManagerCall(name, arg) => ManagerCallKeepsInv(w, name, arg, env);
      case StreamStateReported(_, _) => DeviceInputKeepsInv(w, input);
      case IdleTick => IdleTickKeepsInv(w, env);
      case DeviceCall(_, _) => DeviceInputKeepsInv(w, input);
      case PortalFinished(_, _, _) => DeviceInputKeepsInv(w, input);
      case PulseFinished(_, _, _) => DeviceInputKeepsInv(w, input);
      case UnloadFinished(_) => DeviceInputKeepsInv(w, input);
      case TimerFired(_) => DeviceInputKeepsInv(w, input);
      case MetaRenamed(_, _) => DeviceInputKeepsInv(w, input);
    }
  }

  /** Every run from a fresh start keeps the invariant: in particular, at no
      point do two streams run. */
  lemma {:induction false} RunKeepsInv(w: World, inputs: seq<(Input, Env)>)
    requires Inv(w)
    ensures Inv(Run(w, inputs))
    decreases |inputs|
  {
    if |inputs| > 0 {
      StepKeepsInv(w, inputs[0].0, inputs[0].1);
      RunKeepsInv(Step(w, inputs[0].0, inputs[0].1).world, inputs[1..]);
    }
  }

  /** A device sighted before the session bus is acquired cannot be
      exported: the process aborts. */
  lemma EarlySightingAborts(haveBasicCodecs: bool, now: int, s: SinkId, env: Env)
    ensures Step(Start(haveBasicCodecs, now), SinkSighted(s), env).world.phase == Aborted
  {
    var w := Start(haveBasicCodecs, now);
    var e := MetaProvider.AddSink(w.agg, s, env.matches);
    var ms := MetaProvider.MetaSink(w.agg.nextId, [s]);
    assert e.events == [MetaProvider.MetaAdded(ms)];
    assert Deliver(w.mgr, e.events, env.describe).mgr.aborted by {
      assert e.events[1..] == [];
    }
  }

  /** Only `Enable(false)` makes a manager call stop the process. */
  lemma ManagerCallQuitsOnDisable(w: World, name: string, arg: Option<bool>, env: Env)
    requires w.phase == Running
    requires OnManagerCall(w, name, arg, env).world.phase == Quit
    ensures name == "Enable" && arg == Some(false)
  {
    var pre := if name == "Enable" && arg.Some? then MetaProvider.SetDiscover(w.agg, arg.value)
               else MetaProvider.Emitted(w.agg, []);
    var fwd := Deliver(w.mgr, pre.events, env.describe);
    var replay := Described(MetaProvider.GetSinks(pre.agg), env.describe);
    var c := DbusManager.MethodCall(fwd.mgr, env.now, name, arg, replay);
    assert LoopQuit in c.signals;
  }

  /** `Enable(false)` withdraws every device, and the loop quit is the last
      thing it emits. */
  lemma DisableWithdraws(w: World, env: Env)
    requires !w.mgr.aborted
    ensures OnManagerCall(w, "Enable", Some(false), env).world.mgr.devices == []
    ensures var s := OnManagerCall(w, "Enable", Some(false), env).signals; |s| > 0 && s[|s| - 1] == LoopQuit
  {
    var pre := MetaProvider.SetDiscover(w.agg, false);
    var fwd := Deliver(w.mgr, pre.events, env.describe);
    var replay := Described(MetaProvider.GetSinks(pre.agg), env.describe);
    DeliverForwards(w.mgr, w.agg.providers, false, env.describe);
    var c := DbusManager.MethodCall(fwd.mgr, env.now, "Enable", Some(false), replay);
    var s := fwd.signals + c.signals;
    assert s[|s| - 1] == c.signals[|c.signals| - 1];
  }

  lemma ManagerCallQuitWithdraws(w: World, name: string, arg: Option<bool>, env: Env)
    requires w.phase == Running
    requires OnManagerCall(w, name, arg, env).world.phase == Quit
    ensures OnManagerCall(w, name, arg, env).world.mgr.devices == []
    ensures var s := OnManagerCall(w, name, arg, env).signals; |s| > 0 && s[|s| - 1] == LoopQuit
  {
    ManagerCallQuitsOnDisable(w, name, arg, env);
    DeliverForwards(w.mgr, w.agg.providers, false, env.describe);
    DisableWithdraws(w, env);
  }

  /** When the process stops of its own accord, every device has been
      withdrawn first and the loop's quit is the last thing emitted. */
  lemma QuitWithdrawsDevices(w: World, input: Input, env: Env)
    requires w.phase == Running
    requires Step(w, input, env).world.phase == Quit
    ensures Step(w, input, env).world.mgr.devices == []
    ensures var s := Step(w, input, env).signals; |s| > 0 && s[|s| - 1] == LoopQuit
  {
    if input.ManagerCall? {
      ManagerCallQuitWithdraws(w, input.methodName, input.enableArg, env);
    } else if input.IdleTick? {
      DbusManager.IdleCheckQuitsIff(w.mgr, env.now);
      var q := DbusManager.Quit(w.mgr);
      assert q.signals[|q.signals| - 1] == LoopQuit;
    }
  }
}
