/** The session manager (NdDbusManager): the exported list of devices, the
    `Enabled` flag, the list of missing capabilities and the idle timer that
    ends the process.

    The manager keeps its own `discover` flag next to the aggregator's one.
    A device is created for a meta sink when the aggregator reports it, but
    only while that flag is on, and exported on the bus at a path made from
    its hardware address; the export asserts that it succeeded, so a
    sighting before the bus is there, or one whose path is already taken,
    aborts the process (`aborted`). Property broadcasts go out only once the
    session bus has been acquired (`bus`); before that they are dropped. */
module DbusManager {
  import opened Common
  import opened SinkStates
  import opened DbusSink

  const ManagerPath: string := "/com/deepin/Cooperation/NetworkDisplay"

  /** The capability names published in `MissingCapabilities`. */
  const NoExistWireless: string := "NoExistWireless"
  const NotSupportP2P: string := "NotSupportP2P"
  const NoVideoEncoder: string := "NoVideoEncoder"

  /** `idle_quit_sec`: the idle check's period and the idle time after which
      the process quits. */
  const IdleQuitSeconds: int := 180

  datatype Manager = Manager(
    bus: bool,
    discover: bool,
    devices: seq<Device>,
    missing: seq<string>,
    busyTime: int,
    aborted: bool)

  /** A new manager state and what was emitted on the way, in order. */
  datatype Step = Step(mgr: Manager, signals: seq<Signal>)

  /** The outcome of one method call on the manager's interface. */
  datatype Call = Call(mgr: Manager, signals: seq<Signal>, reply: Reply)

  /** The outcome of one run of the idle check; `keep` is whether the check
      stays scheduled. */
  datatype Tick = Tick(mgr: Manager, signals: seq<Signal>, keep: bool)

  /* ---------------------------------------------------------------- */
  /* Helpers                                                           */

  /** `emit_nd_manager_dbus_value_changed`: a broadcast when the bus is there. */
  function Emit(m: Manager, property: string, value: Value): seq<Signal>
  {
    if m.bus then [PropertiesChanged(ManagerPath, property, value)] else []
  }

  /** The meta sinks the devices were built for. */
  function Metas(devices: seq<Device>): set<MetaId>
  {
    set d | d in devices :: d.meta
  }

  /** No two devices stand for the same meta sink. */
  ghost predicate DistinctMetas(devices: seq<Device>)
  {
    forall i, j :: 0 <= i < j < |devices| ==> devices[i].meta != devices[j].meta
  }

  /** `g_ptr_array_find_with_equal_func` with `nd_dbus_sink_equal_sink`. */
  function Find(devices: seq<Device>, meta: MetaId): (r: Option<nat>)
    ensures r.None? <==> meta !in Metas(devices)
    ensures r.Some? ==> r.value < |devices| && EqualSink(devices[r.value], meta)
    ensures r.Some? ==> forall i :: 0 <= i < r.value ==> !EqualSink(devices[i], meta)
  {
    if |devices| == 0 then None
    else if EqualSink(devices[0], meta) then Some(0)
    else
      var t := Find(devices[1..], meta);
      assert Metas(devices) == {devices[0].meta} + Metas(devices[1..]) by {
        assert forall d :: d in devices <==> d == devices[0] || d in devices[1..];
      }
      match t
      case None => None
      case Some(k) => Some(k + 1)
  }

  /** `get_sink_list`: one object path per device, in list order. */
  function SinkList(devices: seq<Device>): (r: seq<string>)
    ensures |r| == |devices|
    ensures forall i :: 0 <= i < |devices| ==> r[i] == ObjectPath(devices[i].hwAddress)
  {
    if |devices| == 0 then [] else [ObjectPath(devices[0].hwAddress)] + SinkList(devices[1..])
  }

  /** The `SinkList` broadcast for a manager state. */
  function SinkListChanged(m: Manager): seq<Signal>
  {
    Emit(m, "SinkList", PathList(SinkList(m.devices)))
  }

  /** `g_dbus_connection_register_object` for a new device succeeds: there
      is a connection, the path is a valid object path, and no device is
      exported at it yet. */
  predicate CanExport(m: Manager, hwAddress: string)
  {
    m.bus && ValidObjectPath(ObjectPath(hwAddress)) && ObjectPath(hwAddress) !in SinkList(m.devices)
  }

  /** What a manager that has not aborted looks like: devices exist only
      on a bus, each at a path of its own. */
  ghost predicate Exported(m: Manager)
  {
    && (|m.devices| > 0 ==> m.bus)
    && forall i, j :: 0 <= i < j < |m.devices| ==>
         ObjectPath(m.devices[i].hwAddress) != ObjectPath(m.devices[j].hwAddress)
  }

  /** The first index holding a string. */
  function IndexOf(xs: seq<string>, x: string): (r: Option<nat>)
    ensures r.None? <==> x !in xs
    ensures r.Some? ==> r.value < |xs| && xs[r.value] == x && x !in xs[..r.value]
  {
    if |xs| == 0 then None
    else if xs[0] == x then Some(0)
    else
      match IndexOf(xs[1..], x)
      case None => None
      case Some(k) =>
        assert xs[..k + 1] == [xs[0]] + xs[1..][..k];
        Some(k + 1)
  }

  /* ---------------------------------------------------------------- */
  /* Missing capabilities                                              */

  /** `add_dbus_missing_capabilities`: appends, even when already listed. */
  function AddMissing(m: Manager, capability: string): (r: Step)
    ensures r.mgr == m.(missing := m.missing + [capability])
    ensures multiset(r.mgr.missing) == multiset(m.missing) + multiset{capability}
    ensures r.signals == Emit(m, "MissingCapabilities", StringList(r.mgr.missing))
  {
    var missing := m.missing + [capability];
    Step(m.(missing := missing), Emit(m, "MissingCapabilities", StringList(missing)))
  }

  /** `delete_dbus_missing_capabilities`: removes the first equal entry and
      publishes the list only when there was one. */
  function DeleteMissing(m: Manager, capability: string): (r: Step)
    ensures capability !in m.missing ==> r == Step(m, [])
    ensures capability in m.missing ==>
              && r.mgr == m.(missing := r.mgr.missing)
              && |r.mgr.missing| == |m.missing| - 1
              && r.signals == Emit(m, "MissingCapabilities", StringList(r.mgr.missing))
    ensures multiset(r.mgr.missing) == multiset(m.missing) - multiset{capability}
  {
    match IndexOf(m.missing, capability)
    case None => Step(m, [])
    case Some(i) =>
      var missing := m.missing[..i] + m.missing[i + 1..];
      assert m.missing == m.missing[..i] + [capability] + m.missing[i + 1..];
      Step(m.(missing := missing), Emit(m, "MissingCapabilities", StringList(missing)))
  }

  /** `on_meta_provider_has_provider_changed_cb`. */
  function OnHasProviders(m: Manager, has: bool): (r: Step)
    ensures !has ==> r == AddMissing(m, NotSupportP2P)
    ensures has ==> r == DeleteMissing(m, NotSupportP2P)
  {
    if has then DeleteMissing(m, NotSupportP2P) else AddMissing(m, NotSupportP2P)
  }

  /* ---------------------------------------------------------------- */
  /* Construction and the bus                                          */

  /** `nd_dbus_manager_init`: discovery on, no devices, the encoder probe's
      verdict recorded. The bus is not there yet, so nothing is broadcast,
      and the initial has-providers probe is not run. */
  function Init(haveBasicCodecs: bool, now: int): (r: Step)
    ensures !r.mgr.bus && r.mgr.discover && r.mgr.devices == [] && r.mgr.busyTime == now
    ensures !r.mgr.aborted
    ensures r.mgr.missing == (if haveBasicCodecs then [] else [NoVideoEncoder])
    ensures r.signals == []
  {
    var m := Manager(false, true, [], [], now, false);
    if haveBasicCodecs then Step(m, []) else AddMissing(m, NoVideoEncoder)
  }

  /** `on_bus_acquired`: broadcasts go out from now on. */
  function BusAcquired(m: Manager): (r: Manager)
    ensures r.bus && r == m.(bus := true)
  {
    m.(bus := true)
  }

  /* ---------------------------------------------------------------- */
  /* Devices                                                           */

  /** `sink_added_cb`: a meta sink that already has a device is ignored,
      then so is any sink while discovery is off; otherwise a device is
      built, appended and exported, and the list published. An export that
      fails trips the `g_assert` in `nd_sink_dbus_export`: the process
      aborts and nothing is published. */
  function SinkAdded(m: Manager, meta: MetaId, info: SinkInfo): (r: Step)
    ensures meta in Metas(m.devices) || !m.discover ==> r == Step(m, [])
    ensures meta !in Metas(m.devices) && m.discover && !CanExport(m, info.hwAddress) ==>
              r == Step(m.(aborted := true), [])
    ensures meta !in Metas(m.devices) && m.discover && CanExport(m, info.hwAddress) ==>
              && r.mgr == m.(devices := m.devices + [NewDevice(meta, info)])
              && r.signals == SinkListChanged(r.mgr)
  {
    if Find(m.devices, meta).Some? then Step(m, [])
    else if !m.discover then Step(m, [])
    else if !CanExport(m, info.hwAddress) then Step(m.(aborted := true), [])
    else
      var m1 := m.(devices := m.devices + [NewDevice(meta, info)]);
      Step(m1, SinkListChanged(m1))
  }

  /** `sink_removed_cb`: drops the first device built for the meta sink,
      keeping the order of the others, and publishes the list; a meta sink
      without a device only draws a warning. */
  function SinkRemoved(m: Manager, meta: MetaId): (r: Step)
    ensures meta !in Metas(m.devices) ==> r == Step(m, [])
    ensures meta in Metas(m.devices) ==>
              && |r.mgr.devices| == |m.devices| - 1
              && r.mgr == m.(devices := r.mgr.devices)
              && r.signals == SinkListChanged(r.mgr)
    ensures forall d :: d in r.mgr.devices ==> d in m.devices
  {
    match Find(m.devices, meta)
    case None => Step(m, [])
    case Some(i) =>
      var m1 := m.(devices := m.devices[..i] + m.devices[i + 1..]);
      assert forall d :: d in m1.devices ==> d in m.devices[..i] || d in m.devices[i + 1..];
      Step(m1, SinkListChanged(m1))
  }

  /** The sinks re-announced by `Enable(true)`, one `sink_added_cb` each. */
  function Replay(m: Manager, sinks: seq<(MetaId, SinkInfo)>): (r: Step)
    ensures r.mgr == m.(devices := r.mgr.devices, aborted := r.mgr.aborted)
    ensures m.aborted ==> r.mgr.aborted
    ensures m.devices <= r.mgr.devices
    ensures LoopQuit !in r.signals
    decreases |sinks|
  {
    if |sinks| == 0 then Step(m, [])
    else
      var first := SinkAdded(m, sinks[0].0, sinks[0].1);
      var rest := Replay(first.mgr, sinks[1..]);
      Step(rest.mgr, first.signals + rest.signals)
  }

  /** `free_sink_list`: every device is withdrawn and the empty list
      published. */
  function FreeSinkList(m: Manager): (r: Step)
    ensures r.mgr == m.(devices := [])
    ensures r.signals == Emit(m, "SinkList", PathList([]))
  {
    var m1 := m.(devices := []);
    Step(m1, SinkListChanged(m1))
  }

  /** `manager_real_quit`: the device list is freed, then the main loop quits. */
  function Quit(m: Manager): (r: Step)
    ensures r.mgr.devices == [] && r.mgr == m.(devices := [])
    ensures |r.signals| > 0 && r.signals[|r.signals| - 1] == LoopQuit
    ensures LoopQuit !in r.signals[..|r.signals| - 1]
  {
    var f := FreeSinkList(m);
    Step(f.mgr, f.signals + [LoopQuit])
  }

  /* ---------------------------------------------------------------- */
  /* D-Bus interface                                                   */

  /** `handle_manager_method_call`. The busy time is refreshed before the
      method is looked at. `args` is the `(b)` argument of `Enable`, absent
      when the parameters have another type. The aggregator's own flag is
      set by the caller; `replay` is what the aggregator lists afterwards. */
  function MethodCall(m: Manager, now: int, name: string, args: Option<bool>,
                      replay: seq<(MetaId, SinkInfo)>): (r: Call)
    ensures r.mgr.busyTime == now && r.mgr.bus == m.bus
    ensures m.aborted ==> r.mgr.aborted
    ensures !(name == "Enable" && args == Some(true)) ==> r.mgr.aborted == m.aborted
    ensures name == "Refresh" ==>
              && r.mgr == m.(busyTime := now) && r.signals == []
              && (r.reply == ReplyError(Failed) <==> !m.discover)
              && (r.reply == ReplyOk <==> m.discover)
    ensures name == "Enable" && args.None? ==>
              r == Call(m.(busyTime := now), [], ReplyError(InvalidArgs))
    ensures name == "Enable" && args.Some? ==>
              && r.reply == ReplyOk
              && r.mgr.discover == args.value
              && Emit(m, "Enabled", BoolValue(args.value)) <= r.signals
    ensures name == "Enable" && args == Some(false) ==>
              r.mgr.devices == [] && |r.signals| > 0 && r.signals[|r.signals| - 1] == LoopQuit
    ensures LoopQuit in r.signals <==> name == "Enable" && args == Some(false)
    ensures name != "Refresh" && name != "Enable" ==>
              r == Call(m.(busyTime := now), [], ReplyError(UnknownMethod))
  {
    var m0 := m.(busyTime := now);
    if name == "Refresh" then
      if !m0.discover then Call(m0, [], ReplyError(Failed)) else Call(m0, [], ReplyOk)
    else if name == "Enable" then
      match args
      case None => Call(m0, [], ReplyError(InvalidArgs))
      case Some(enable) => Enable(m0, enable, replay)
    else Call(m0, [], ReplyError(UnknownMethod))
  }

  /** The `Enable` branch once its argument has been read as a boolean:
      the flag is announced first; turning discovery on replays the
      aggregator's meta sinks, turning it off withdraws every device and
      quits. */
  function Enable(m: Manager, enable: bool, replay: seq<(MetaId, SinkInfo)>): (r: Call)
    ensures r.reply == ReplyOk && r.mgr.discover == enable
    ensures r.mgr.busyTime == m.busyTime && r.mgr.bus == m.bus
    ensures m.aborted ==> r.mgr.aborted
    ensures !enable ==> r.mgr.aborted == m.aborted
    ensures Emit(m, "Enabled", BoolValue(enable)) <= r.signals
    ensures !enable ==> r.mgr.devices == [] && |r.signals| > 0 && r.signals[|r.signals| - 1] == LoopQuit
    ensures enable ==> LoopQuit !in r.signals
  {
    var m1 := m.(discover := enable);
    var announced := Emit(m, "Enabled", BoolValue(enable));
    assert LoopQuit !in announced;
    if enable then
      var rp := Replay(m1, replay);
      Call(rp.mgr, announced + rp.signals, ReplyOk)
    else
      var q := Quit(m1);
      Call(q.mgr, announced + q.signals, ReplyOk)
  }

  /** `handle_manager_get_property`; an unknown property has no value. */
  function GetProperty(m: Manager, property: string): (r: Option<Value>)
    ensures property == "SinkList" ==> r == Some(PathList(SinkList(m.devices)))
    ensures property == "Enabled" ==> r == Some(BoolValue(m.discover))
    ensures property == "MissingCapabilities" ==> r == Some(StringList(m.missing))
    ensures r.None? <==> property !in {"SinkList", "Enabled", "MissingCapabilities"}
  {
    if property == "SinkList" then Some(PathList(SinkList(m.devices)))
    else if property == "Enabled" then Some(BoolValue(m.discover))
    else if property == "MissingCapabilities" then Some(StringList(m.missing))
    else None
  }

  /** What a client following the manager's broadcasts learns of one
      property across a step from `before` to `after` that emitted
      `signals`: the last value broadcast is the one the getter now
      returns; a change made while on the bus is broadcast; off the bus
      nothing is. */
  ghost predicate Announces(before: Manager, after: Manager, signals: seq<Signal>, property: string)
  {
    var last := LastBroadcast(signals, ManagerPath, property);
    && (last.Some? ==> last == GetProperty(after, property))
    && (before.bus && GetProperty(after, property) != GetProperty(before, property) ==>
          last == GetProperty(after, property))
    && (!before.bus ==> last.None?)
  }

  /** A step on an unchanged bus announces every property of the interface. */
  ghost predicate InSync(before: Manager, after: Manager, signals: seq<Signal>)
  {
    && after.bus == before.bus
    && Announces(before, after, signals, "SinkList")
    && Announces(before, after, signals, "Enabled")
    && Announces(before, after, signals, "MissingCapabilities")
  }

  /* ---------------------------------------------------------------- */
  /* Idle timer                                                        */

  /** Some device is not disconnected. */
  predicate AnyBusy(devices: seq<Device>)
  {
    exists i :: 0 <= i < |devices| && devices[i].status != Disconnected
  }

  /** `idle_auto_quit_check`: a device that is not disconnected keeps the
      process alive; otherwise it quits once more than the idle period has
      passed since the last method call. */
  function IdleCheck(m: Manager, now: int): (r: Tick)
  {
    if AnyBusy(m.devices) then Tick(m, [], true)
    else if now - m.busyTime > IdleQuitSeconds then
      var q := Quit(m);
      Tick(q.mgr, q.signals, false)
    else Tick(m, [], true)
  }

  /* ---------------------------------------------------------------- */
  /* Lemmas                                                            */

  /** The idle check stops the process exactly when every device is
      disconnected and the idle period has been exceeded; when it does, the
      device list has been withdrawn and the loop told to quit. */
  lemma IdleCheckQuitsIff(m: Manager, now: int)
    ensures !IdleCheck(m, now).keep <==>
              (forall i :: 0 <= i < |m.devices| ==> m.devices[i].status == Disconnected)
              && now - m.busyTime > IdleQuitSeconds
    ensures IdleCheck(m, now).keep ==> IdleCheck(m, now) == Tick(m, [], true)
    ensures !IdleCheck(m, now).keep ==>
              IdleCheck(m, now).mgr.devices == [] && LoopQuit in IdleCheck(m, now).signals
  {
    if !IdleCheck(m, now).keep {
      var q := Quit(m);
      assert q.signals[|q.signals| - 1] == LoopQuit;
    }
  }

  /** A method call, whatever it is, postpones the idle quit by a full
      period. */
  lemma CallPostponesIdleQuit(m: Manager, now: int, name: string, args: Option<bool>,
                              replay: seq<(MetaId, SinkInfo)>, later: int)
    requires later <= now + IdleQuitSeconds
    ensures IdleCheck(MethodCall(m, now, name, args, replay).mgr, later).keep
  {
  }

  /** A device appended for a meta sink no other device stands for is the
      first one found for it. */
  lemma {:induction false} FindAppended(devices: seq<Device>, d: Device)
    requires d.meta !in Metas(devices)
    ensures Find(devices + [d], d.meta) == Some(|devices|)
    decreases |devices|
  {
    var devs := devices + [d];
    if |devices| > 0 {
      assert devices[0] in devices;
      assert devs[1..] == devices[1..] + [d];
      assert Metas(devices[1..]) <= Metas(devices) by {
        forall x | x in Metas(devices[1..]) ensures x in Metas(devices) {
          var e :| e in devices[1..] && e.meta == x;
        }
      }
      FindAppended(devices[1..], d);
    }
  }

  /** Adding a meta sink's device and removing it again restores the list,
      unless the export aborted the process. */
  lemma AddThenRemoveRestores(m: Manager, meta: MetaId, info: SinkInfo)
    requires meta !in Metas(m.devices) && m.discover
    ensures SinkAdded(m, meta, info).mgr.aborted <==> m.aborted || !CanExport(m, info.hwAddress)
    ensures CanExport(m, info.hwAddress) ==> SinkRemoved(SinkAdded(m, meta, info).mgr, meta).mgr == m
  {
    if CanExport(m, info.hwAddress) {
      var devs := m.devices + [NewDevice(meta, info)];
      FindAppended(m.devices, NewDevice(meta, info));
      assert devs[..|m.devices|] + devs[|m.devices| + 1..] == m.devices;
    }
  }

  /** A meta sink seen a second time does not get a second device (unless
      the process has aborted). */
  lemma SinkAddedIdempotent(m: Manager, meta: MetaId, info: SinkInfo, again: SinkInfo)
    ensures var a := SinkAdded(m, meta, info);
            !a.mgr.aborted ==> SinkAdded(a.mgr, meta, again) == Step(a.mgr, [])
  {
    var a := SinkAdded(m, meta, info);
    if meta !in Metas(m.devices) && m.discover && CanExport(m, info.hwAddress) {
      assert NewDevice(meta, info) in a.mgr.devices;
    }
  }

  /** The devices' meta sinks after an addition: a new one is there
      exactly when discovery is on and its export succeeds; nothing else
      changes. */
  lemma SinkAddedMetas(m: Manager, meta: MetaId, info: SinkInfo)
    ensures Metas(SinkAdded(m, meta, info).mgr.devices) ==
              Metas(m.devices) + (if m.discover && CanExport(m, info.hwAddress) then {meta} else {})
    ensures DistinctMetas(m.devices) ==> DistinctMetas(SinkAdded(m, meta, info).mgr.devices)
  {
    var r := SinkAdded(m, meta, info);
    if meta !in Metas(m.devices) && m.discover && CanExport(m, info.hwAddress) {
      var devs := m.devices + [NewDevice(meta, info)];
      assert forall d :: d in devs <==> d in m.devices || d == NewDevice(meta, info);
      assert Metas(devs) == Metas(m.devices) + {meta};
      if DistinctMetas(m.devices) {
        forall i, j | 0 <= i < j < |devs| ensures devs[i].meta != devs[j].meta {
          if j == |m.devices| { assert devs[i] in m.devices; }
        }
      }
    }
  }

  /** Deleting one entry of a list of devices with distinct meta sinks
      removes exactly that entry's meta sink. */
  lemma {:induction false} DeleteAtMetas(devs: seq<Device>, i: nat)
    requires i < |devs| && DistinctMetas(devs)
    ensures Metas(devs[..i] + devs[i + 1..]) == Metas(devs) - {devs[i].meta}
    ensures DistinctMetas(devs[..i] + devs[i + 1..])
  {
    var rest := devs[..i] + devs[i + 1..];
    assert forall k :: 0 <= k < |rest| ==> rest[k] == devs[if k < i then k else k + 1];
    forall x | x in Metas(rest) ensures x in Metas(devs) - {devs[i].meta} {
      var k :| 0 <= k < |rest| && rest[k].meta == x;
      assert devs[if k < i then k else k + 1] in devs;
    }
    forall x | x in Metas(devs) - {devs[i].meta} ensures x in Metas(rest) {
      var k :| 0 <= k < |devs| && devs[k].meta == x;
      assert rest[if k < i then k else k - 1] in rest;
    }
  }

  /** A successful addition keeps every device on the bus at a path of its
      own. */
  lemma SinkAddedExports(m: Manager, meta: MetaId, info: SinkInfo)
    requires Exported(m)
    ensures var r := SinkAdded(m, meta, info).mgr;
            !r.aborted ==> Exported(r)
  {
    if meta !in Metas(m.devices) && m.discover && CanExport(m, info.hwAddress) {
      var devs := m.devices + [NewDevice(meta, info)];
      forall i, j | 0 <= i < j < |devs|
        ensures ObjectPath(devs[i].hwAddress) != ObjectPath(devs[j].hwAddress)
      {
        if j == |m.devices| {
          assert SinkList(m.devices)[i] == ObjectPath(devs[i].hwAddress);
        }
      }
    }
  }

  /** A sighting before the bus is there aborts the process. */
  lemma SightingBeforeBusAborts(m: Manager, meta: MetaId, info: SinkInfo)
    requires !m.bus && m.discover && meta !in Metas(m.devices)
    ensures SinkAdded(m, meta, info) == Step(m.(aborted := true), [])
  {
  }

  /** A new meta sink whose path is already exported aborts the process. */
  lemma TakenPathAborts(m: Manager, meta: MetaId, info: SinkInfo)
    requires m.discover && meta !in Metas(m.devices)
    requires exists k :: 0 <= k < |m.devices| && ObjectPath(m.devices[k].hwAddress) == ObjectPath(info.hwAddress)
    ensures SinkAdded(m, meta, info) == Step(m.(aborted := true), [])
  {
    var k :| 0 <= k < |m.devices| && ObjectPath(m.devices[k].hwAddress) == ObjectPath(info.hwAddress);
    assert SinkList(m.devices)[k] == ObjectPath(info.hwAddress);
  }

  /** Addresses that differ only in a colon against an underscore share a
      path: the second one's export aborts the process. */
  lemma CollidingAddressesAbort(m: Manager, a: MetaId, b: MetaId)
    requires m.bus && m.discover && m.devices == [] && !m.aborted && a != b
    ensures var first := SinkAdded(m, a, SinkInfo("aa:bb", "A", 0, Disconnected));
            && !first.mgr.aborted && |first.mgr.devices| == 1
            && SinkAdded(first.mgr, b, SinkInfo("aa_bb", "B", 0, Disconnected)).mgr.aborted
  {
    var infoA := SinkInfo("aa:bb", "A", 0, Disconnected);
    ObjectPathCollides();
    MacAddressPathValid(infoA.hwAddress);
    assert CanExport(m, infoA.hwAddress);
    var first := SinkAdded(m, a, infoA);
    var dev := NewDevice(a, infoA);
    assert first.mgr == m.(devices := [dev]);
    assert Metas([dev]) == {a};
    TakenPathAborts(first.mgr, b, SinkInfo("aa_bb", "B", 0, Disconnected));
  }

  /** An address with a character no object path may hold, such as a
      hyphen, fails the registration and aborts the process. */
  lemma MalformedAddressAborts(m: Manager, a: MetaId)
    requires m.bus && m.discover && a !in Metas(m.devices)
    ensures SinkAdded(m, a, SinkInfo("aa-bb", "A", 0, Disconnected)) == Step(m.(aborted := true), [])
  {
    HyphenatedAddressPathInvalid();
  }

  /** With distinct meta sinks, a removal takes the meta sink's device out
      and keeps every other one. */
  lemma SinkRemovedMetas(m: Manager, meta: MetaId)
    requires DistinctMetas(m.devices)
    ensures Metas(SinkRemoved(m, meta).mgr.devices) == Metas(m.devices) - {meta}
    ensures DistinctMetas(SinkRemoved(m, meta).mgr.devices)
  {
    match Find(m.devices, meta)
    case None =>
    case Some(i) => DeleteAtMetas(m.devices, i);
  }

  /** A removal keeps every remaining device at a path of its own. */
  lemma SinkRemovedExports(m: Manager, meta: MetaId)
    requires Exported(m)
    ensures Exported(SinkRemoved(m, meta).mgr)
  {
    match Find(m.devices, meta)
    case None =>
    case Some(i) =>
      var devs := m.devices;
      var rest := devs[..i] + devs[i + 1..];
      forall a, b | 0 <= a < b < |rest|
        ensures ObjectPath(rest[a].hwAddress) != ObjectPath(rest[b].hwAddress)
      {
        var a1 := if a < i then a else a + 1;
        var b1 := if b < i then b else b + 1;
        assert rest[a] == devs[a1] && rest[b] == devs[b1] && a1 < b1;
      }
  }

  /** A replay that does not abort keeps every device at a path of its own. */
  lemma {:induction false} ReplayExports(m: Manager, sinks: seq<(MetaId, SinkInfo)>)
    requires Exported(m)
    ensures var r := Replay(m, sinks).mgr;
            !r.aborted ==> Exported(r)
    decreases |sinks|
  {
    if |sinks| > 0 {
      var first := SinkAdded(m, sinks[0].0, sinks[0].1);
      SinkAddedExports(m, sinks[0].0, sinks[0].1);
      if !first.mgr.aborted {
        ReplayExports(first.mgr, sinks[1..]);
      }
    }
  }

  /** After `Enable(true)` the devices present before keep their place in
      front, no meta sink gets two, and unless an export aborted the
      process every replayed meta sink has a device. */
  lemma {:induction false} ReplayCovers(m: Manager, sinks: seq<(MetaId, SinkInfo)>)
    requires m.discover && DistinctMetas(m.devices)
    ensures var r := Replay(m, sinks).mgr;
            && Metas(r.devices) <= Metas(m.devices) + (set k | 0 <= k < |sinks| :: sinks[k].0)
            && (!r.aborted ==> Metas(r.devices) == Metas(m.devices) + (set k | 0 <= k < |sinks| :: sinks[k].0))
            && DistinctMetas(r.devices)
            && m.devices <= r.devices
            && r == m.(devices := r.devices, aborted := r.aborted)
    decreases |sinks|
  {
    if |sinks| > 0 {
      var first := SinkAdded(m, sinks[0].0, sinks[0].1);
      SinkAddedMetas(m, sinks[0].0, sinks[0].1);
      ReplayCovers(first.mgr, sinks[1..]);
      var tail := set k | 0 <= k < |sinks[1..]| :: sinks[1..][k].0;
      var all := set k | 0 <= k < |sinks| :: sinks[k].0;
      assert all == {sinks[0].0} + tail by {
        forall x | x in all ensures x in {sinks[0].0} + tail {
          var k :| 0 <= k < |sinks| && sinks[k].0 == x;
          if k > 0 { assert sinks[1..][k - 1].0 == x; }
        }
        forall x | x in tail ensures x in all {
          var k :| 0 <= k < |sinks[1..]| && sinks[1..][k].0 == x;
          assert sinks[k + 1].0 == x;
        }
      }
    }
  }

  /** Publishing a missing capability and withdrawing it again restores the
      list when it was not listed, and its contents in every case. */
  lemma AddThenDeleteMissing(m: Manager, capability: string)
    ensures var d := DeleteMissing(AddMissing(m, capability).mgr, capability).mgr;
            && multiset(d.missing) == multiset(m.missing)
            && (capability !in m.missing ==> d == m)
  {
    var a := AddMissing(m, capability).mgr;
    if capability !in m.missing {
      assert IndexOf(a.missing, capability) == Some(|m.missing|);
      assert a.missing[..|m.missing|] + a.missing[|m.missing| + 1..] == m.missing;
    }
  }

  /** Two "no provider" notifications in a row list the capability twice,
      and one "provider" notification then withdraws only one of them. */
  lemma NotSupportP2PAccumulates(m: Manager)
    requires NotSupportP2P !in m.missing
    ensures var twice := OnHasProviders(OnHasProviders(m, false).mgr, false).mgr;
            && multiset(twice.missing)[NotSupportP2P] == 2
            && NotSupportP2P in OnHasProviders(twice, true).mgr.missing
  {
  }

  /** `Enable(false)` quits the process after withdrawing every device;
      a later sighting adds nothing, since discovery is off. */
  lemma DisableQuits(m: Manager, now: int, replay: seq<(MetaId, SinkInfo)>, meta: MetaId, info: SinkInfo)
    ensures var r := MethodCall(m, now, "Enable", Some(false), replay);
            && r.reply == ReplyOk && !r.mgr.discover && r.mgr.devices == []
            && LoopQuit in r.signals
            && SinkAdded(r.mgr, meta, info) == Step(r.mgr, [])
  {
  }

  /* ---------------------------------------------------------------- */
  /* Lemmas: what a client sees                                        */

  lemma AnnouncesCompose(a: Manager, b: Manager, c: Manager, s1: seq<Signal>, s2: seq<Signal>,
                         property: string)
    requires a.bus == b.bus
    requires Announces(a, b, s1, property) && Announces(b, c, s2, property)
    ensures Announces(a, c, s1 + s2, property)
  {
    LastBroadcastAppend(s1, s2, ManagerPath, property);
  }

  /** Two steps in a row announce what their composition changed. */
  lemma InSyncCompose(a: Manager, b: Manager, c: Manager, s1: seq<Signal>, s2: seq<Signal>)
    requires InSync(a, b, s1) && InSync(b, c, s2)
    ensures InSync(a, c, s1 + s2)
  {
    AnnouncesCompose(a, b, c, s1, s2, "SinkList");
    AnnouncesCompose(a, b, c, s1, s2, "Enabled");
    AnnouncesCompose(a, b, c, s1, s2, "MissingCapabilities");
  }

  /** What a client reads from a broadcast made by `Emit`. */
  lemma EmitLast(m: Manager, property: string, value: Value, q: string)
    ensures LastBroadcast(Emit(m, property, value), ManagerPath, q) ==
              if m.bus && q == property then Some(value) else None
  {
    if m.bus {
      assert [PropertiesChanged(ManagerPath, property, value)][..0] == [];
    }
  }

  /** A step that broadcasts one property's new value, and changes no other
      property, announces every property. */
  lemma EmitInSync(before: Manager, after: Manager, property: string, value: Value)
    requires after.bus == before.bus
    requires GetProperty(after, property) == Some(value)
    requires property != "SinkList" ==> GetProperty(after, "SinkList") == GetProperty(before, "SinkList")
    requires property != "Enabled" ==> GetProperty(after, "Enabled") == GetProperty(before, "Enabled")
    requires property != "MissingCapabilities" ==>
               GetProperty(after, "MissingCapabilities") == GetProperty(before, "MissingCapabilities")
    ensures InSync(before, after, Emit(before, property, value))
  {
    EmitLast(before, property, value, "SinkList");
    EmitLast(before, property, value, "Enabled");
    EmitLast(before, property, value, "MissingCapabilities");
  }

  /** Every change to the capability list is broadcast, and the list last
      broadcast is the one the getter returns. */
  lemma MissingPublished(m: Manager, capability: string, has: bool)
    ensures InSync(m, AddMissing(m, capability).mgr, AddMissing(m, capability).signals)
    ensures InSync(m, DeleteMissing(m, capability).mgr, DeleteMissing(m, capability).signals)
    ensures InSync(m, OnHasProviders(m, has).mgr, OnHasProviders(m, has).signals)
  {
    AddMissingPublished(m, capability);
    DeleteMissingPublished(m, capability);
    AddMissingPublished(m, NotSupportP2P);
    DeleteMissingPublished(m, NotSupportP2P);
  }

  lemma AddMissingPublished(m: Manager, capability: string)
    ensures InSync(m, AddMissing(m, capability).mgr, AddMissing(m, capability).signals)
  {
    var a := AddMissing(m, capability);
    EmitInSync(m, a.mgr, "MissingCapabilities", StringList(a.mgr.missing));
  }

  lemma DeleteMissingPublished(m: Manager, capability: string)
    ensures InSync(m, DeleteMissing(m, capability).mgr, DeleteMissing(m, capability).signals)
  {
    var d := DeleteMissing(m, capability);
    if capability in m.missing {
      EmitInSync(m, d.mgr, "MissingCapabilities", StringList(d.mgr.missing));
    }
  }

  /** Every change to the device list is broadcast, and the list last
      broadcast is the one the getter returns. */
  lemma DevicesPublished(m: Manager, meta: MetaId, info: SinkInfo)
    ensures InSync(m, SinkAdded(m, meta, info).mgr, SinkAdded(m, meta, info).signals)
    ensures InSync(m, SinkRemoved(m, meta).mgr, SinkRemoved(m, meta).signals)
  {
    var a := SinkAdded(m, meta, info);
    if meta !in Metas(m.devices) && m.discover && CanExport(m, info.hwAddress) {
      EmitInSync(m, a.mgr, "SinkList", PathList(SinkList(a.mgr.devices)));
    }
    var r := SinkRemoved(m, meta);
    if meta in Metas(m.devices) {
      EmitInSync(m, r.mgr, "SinkList", PathList(SinkList(r.mgr.devices)));
    }
  }

  /** Quitting publishes the empty device list, and so does the idle check
      when it quits. */
  lemma QuitPublished(m: Manager, now: int)
    ensures InSync(m, Quit(m).mgr, Quit(m).signals)
    ensures var t := IdleCheck(m, now); InSync(m, t.mgr, t.signals)
  {
    var f := FreeSinkList(m);
    EmitInSync(m, f.mgr, "SinkList", PathList([]));
    LastBroadcastAppend(f.signals, [LoopQuit], ManagerPath, "SinkList");
    LastBroadcastAppend(f.signals, [LoopQuit], ManagerPath, "Enabled");
    LastBroadcastAppend(f.signals, [LoopQuit], ManagerPath, "MissingCapabilities");
  }

  lemma {:induction false} ReplayPublished(m: Manager, sinks: seq<(MetaId, SinkInfo)>)
    ensures InSync(m, Replay(m, sinks).mgr, Replay(m, sinks).signals)
    decreases |sinks|
  {
    if |sinks| > 0 {
      var first := SinkAdded(m, sinks[0].0, sinks[0].1);
      DevicesPublished(m, sinks[0].0, sinks[0].1);
      ReplayPublished(first.mgr, sinks[1..]);
      var rest := Replay(first.mgr, sinks[1..]);
      InSyncCompose(m, first.mgr, rest.mgr, first.signals, rest.signals);
    } else {
      assert Replay(m, sinks) == Step(m, []);
    }
  }

  /** `Enable` announces the flag and then every device it adds or
      withdraws. */
  lemma EnablePublished(m: Manager, enable: bool, replay: seq<(MetaId, SinkInfo)>)
    ensures var r := Enable(m, enable, replay); InSync(m, r.mgr, r.signals)
  {
    var m1 := m.(discover := enable);
    var announced := Emit(m, "Enabled", BoolValue(enable));
    EmitInSync(m, m1, "Enabled", BoolValue(enable));
    if enable {
      var rp := Replay(m1, replay);
      ReplayPublished(m1, replay);
      InSyncCompose(m, m1, rp.mgr, announced, rp.signals);
    } else {
      var q := Quit(m1);
      QuitPublished(m1, 0);
      InSyncCompose(m, m1, q.mgr, announced, q.signals);
    }
  }

  /** Whatever a method call does, every property it changes is broadcast,
      and the last broadcast of each property is what the getter returns
      afterwards. */
  lemma CallsPublished(m: Manager, now: int, name: string, args: Option<bool>,
                       replay: seq<(MetaId, SinkInfo)>)
    ensures var r := MethodCall(m, now, name, args, replay); InSync(m, r.mgr, r.signals)
  {
    var m0 := m.(busyTime := now);
    assert GetProperty(m0, "SinkList") == GetProperty(m, "SinkList");
    assert GetProperty(m0, "Enabled") == GetProperty(m, "Enabled");
    assert GetProperty(m0, "MissingCapabilities") == GetProperty(m, "MissingCapabilities");
    if name == "Enable" && args.Some? {
      EnablePublished(m0, args.value, replay);
    }
  }
}
