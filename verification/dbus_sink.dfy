/** One exported device (NdDbusSink): its published properties and the
    connect/cancel state machine that sets a cast up and tears it down.

    The process has a single global slot for the stream being cast
    (`stream_sink`). The model threads it through every transition as
    `Streams`: the slot itself plus the set of streams that have been
    started and not stopped yet, identified by the meta sink of the device
    that started them. Asynchronous completions (portal, PulseAudio, the
    unload callback, the 25-second timer) are inputs; each one is counted
    when it is requested, and a completion nothing is waiting for changes
    nothing. */
module DbusSink {
  import opened Common
  import opened SinkStates

  /* ---------------------------------------------------------------- */
  /* Constants                                                         */

  const SinkPathPrefix: string := "/com/deepin/Cooperation/NetworkDisplay/Sink"

  /** `G_IO_ERROR_FAILED` and `G_IO_ERROR_CANCELLED`. */
  const IoErrorFailed: int := 0
  const IoErrorCancelled: int := 19

  /** `quit_timeout`: the fallback delay of a teardown, in seconds. */
  const QuitTimeoutSeconds: nat := 25

  /* ---------------------------------------------------------------- */
  /* Object path                                                       */

  /** `g_strdelimit (s, ":", '_')`. */
  function Delimit(s: string): (r: string)
    ensures |r| == |s|
    ensures forall i :: 0 <= i < |s| ==> r[i] == (if s[i] == ':' then '_' else s[i])
  {
    if |s| == 0 then [] else [if s[0] == ':' then '_' else s[0]] + Delimit(s[1..])
  }

  /** The object path a device is exported at, from its hardware address. */
  function ObjectPath(hwAddress: string): string
  {
    SinkPathPrefix + Delimit(hwAddress)
  }

  /** The path keeps the prefix and the address, character for character,
      with every colon turned into an underscore. */
  lemma ObjectPathShape(hwAddress: string)
    ensures var p := ObjectPath(hwAddress);
            && |p| == |SinkPathPrefix| + |hwAddress|
            && p[..|SinkPathPrefix|] == SinkPathPrefix
            && ':' !in p[|SinkPathPrefix|..]
            && forall i :: 0 <= i < |hwAddress| && hwAddress[i] != ':' ==>
                 p[|SinkPathPrefix| + i] == hwAddress[i]
  {
    var p := ObjectPath(hwAddress);
    var d := Delimit(hwAddress);
    assert p[|SinkPathPrefix|..] == d;
    forall i | 0 <= i < |d| ensures d[i] != ':' { }
  }

  /** Addresses without underscores get distinct paths. */
  lemma ObjectPathInjective(a: string, b: string)
    requires '_' !in a && '_' !in b
    requires ObjectPath(a) == ObjectPath(b)
    ensures a == b
  {
    var n := |SinkPathPrefix|;
    assert Delimit(a) == ObjectPath(a)[n..] == ObjectPath(b)[n..] == Delimit(b);
    forall i | 0 <= i < |a| ensures a[i] == b[i] {
      assert a[i] in a && b[i] in b;
      assert Delimit(a)[i] == Delimit(b)[i];
    }
  }

  /** An address containing an underscore can collide with another one. */
  lemma ObjectPathCollides()
    ensures ObjectPath("aa:bb") == ObjectPath("aa_bb")
  {
    assert Delimit("aa:bb") == "aa_bb";
    assert Delimit("aa_bb") == "aa_bb";
  }

  /** A character allowed inside an element of a D-Bus object path
      (ASCII letters, digits and the underscore). */
  predicate PathElementChar(c: char)
  {
    'A' <= c <= 'Z' || 'a' <= c <= 'z' || '0' <= c <= '9' || c == '_'
  }

  /** Only element characters and slashes, and never two slashes in a row. */
  predicate PathChars(p: string)
  {
    && (forall i :: 0 <= i < |p| ==> p[i] == '/' || PathElementChar(p[i]))
    && (forall i :: 0 <= i < |p| - 1 ==> !(p[i] == '/' && p[i + 1] == '/'))
  }

  /** `g_variant_is_object_path`, which `g_dbus_connection_register_object`
      demands of its path: a leading slash, non-empty elements of element
      characters separated by single slashes, and no trailing slash except
      in the root path. */
  predicate ValidObjectPath(p: string)
  {
    && |p| > 0 && p[0] == '/'
    && (|p| == 1 || p[|p| - 1] != '/')
    && PathChars(p)
  }

  /** What an address, once delimited, must look like for the device's
      path to be valid. */
  predicate FitsPath(d: string)
  {
    PathChars(d) && (|d| > 0 ==> d[|d| - 1] != '/')
  }

  lemma PrefixValid()
    ensures ValidObjectPath(SinkPathPrefix)
    ensures SinkPathPrefix[|SinkPathPrefix| - 1] == 'k'
  {
  }

  /** The prefix is a valid path ending in an element character, so a
      device's path is valid exactly when its delimited address fits. */
  lemma ObjectPathValidIff(hwAddress: string)
    ensures ValidObjectPath(ObjectPath(hwAddress)) <==> FitsPath(Delimit(hwAddress))
  {
    var d := Delimit(hwAddress);
    if FitsPath(d) {
      FitsPathValid(d);
    }
    if ValidObjectPath(SinkPathPrefix + d) {
      ValidPathFits(d);
    }
  }

  lemma FitsPathValid(d: string)
    requires FitsPath(d)
    ensures ValidObjectPath(SinkPathPrefix + d)
  {
    PrefixValid();
    var p := SinkPathPrefix + d;
    var n := |SinkPathPrefix|;
    forall i | 0 <= i < |p| ensures p[i] == '/' || PathElementChar(p[i]) {
      if i >= n { assert p[i] == d[i - n]; } else { assert p[i] == SinkPathPrefix[i]; }
    }
    forall i | 0 <= i < |p| - 1 ensures !(p[i] == '/' && p[i + 1] == '/') {
      if i >= n {
        assert p[i] == d[i - n] && p[i + 1] == d[i + 1 - n];
      } else if i == n - 1 {
        assert p[i] == 'k';
      } else {
        assert p[i] == SinkPathPrefix[i] && p[i + 1] == SinkPathPrefix[i + 1];
      }
    }
  }

  lemma ValidPathFits(d: string)
    requires ValidObjectPath(SinkPathPrefix + d)
    ensures FitsPath(d)
  {
    var p := SinkPathPrefix + d;
    var n := |SinkPathPrefix|;
    forall i | 0 <= i < |d| ensures d[i] == '/' || PathElementChar(d[i]) {
      assert p[n + i] == d[i];
    }
    forall i | 0 <= i < |d| - 1 ensures !(d[i] == '/' && d[i + 1] == '/') {
      assert p[n + i] == d[i] && p[n + i + 1] == d[i + 1];
    }
  }

  predicate HexDigit(c: char)
  {
    '0' <= c <= '9' || 'a' <= c <= 'f' || 'A' <= c <= 'F'
  }

  /** A MAC address in the usual notation, hex digits and colons, always
      gives a valid path. */
  lemma MacAddressPathValid(hwAddress: string)
    requires forall i :: 0 <= i < |hwAddress| ==> HexDigit(hwAddress[i]) || hwAddress[i] == ':'
    ensures ValidObjectPath(ObjectPath(hwAddress))
  {
    ObjectPathValidIff(hwAddress);
    var d := Delimit(hwAddress);
    assert forall i :: 0 <= i < |d| ==> PathElementChar(d[i]);
  }

  /** Any other character, a hyphen say, makes the path invalid. */
  lemma HyphenatedAddressPathInvalid()
    ensures !ValidObjectPath(ObjectPath("aa-bb"))
  {
    ObjectPathValidIff("aa-bb");
    assert Delimit("aa-bb")[2] == '-';
  }

  /* ---------------------------------------------------------------- */
  /* State                                                             */

  /** What a meta sink reports about itself when a device is built for it. */
  datatype SinkInfo = SinkInfo(hwAddress: string, displayName: string, strength: int, state: SinkState)

  /** The device's `GCancellable`: none yet, armed for a pending
      initialisation, or cancelled. */
  datatype CancelState = NoCancellable | Armed | Cancelled

  /* `watching` is whether `sink_notify_state_cb` is connected, with this
     device as its data, to a stream the device started: connected when the
     device's start succeeds, disconnected only by the device's own real
     cancel, and only from the stream the global slot holds at that moment. */

  datatype Device = Device(
    meta: MetaId,
    path: string,
    hwAddress: string,
    name: string,
    strength: int,
    status: SinkState,
    initRunning: bool,
    x11: bool,
    hasPortal: bool,
    hasPulse: bool,
    cancellable: CancelState,
    portalPending: nat,
    pulsePending: nat,
    unloadsPending: nat,
    timersPending: nat,
    timerStored: bool,
    watching: bool)

  /** The global stream slot and the streams that run. */
  datatype Streams = Streams(slot: Option<MetaId>, live: set<MetaId>)

  function SlotSet(slot: Option<MetaId>): set<MetaId>
  {
    if slot.Some? then {slot.value} else {}
  }

  /** At most one stream runs, and it is the one in the slot. */
  ghost predicate SingleStream(st: Streams)
  {
    st.live == SlotSet(st.slot)
  }

  /** What a transition does besides changing state. */
  datatype Effect =
    | Out(signal: Signal)
    | SetDiscover(on: bool)

  datatype Outcome = Outcome(dev: Device, streams: Streams, effects: seq<Effect>)

  /** The reply to a method call together with what the call did. */
  datatype CallOutcome = CallOutcome(outcome: Outcome, reply: Reply)

  /** `nd_dbus_sink_prop_init` and `nd_sink_dbus_export`: the published
      properties are copied from the meta sink once, at construction. */
  function NewDevice(meta: MetaId, info: SinkInfo): (d: Device)
    ensures d.meta == meta && d.path == ObjectPath(info.hwAddress)
    ensures d.hwAddress == info.hwAddress && d.name == info.displayName
    ensures d.strength == info.strength && d.status == info.state
    ensures !d.initRunning && !d.x11 && !d.hasPortal && !d.hasPulse
    ensures d.portalPending == d.pulsePending == d.unloadsPending == d.timersPending == 0
    ensures !d.watching
  {
    Device(meta, ObjectPath(info.hwAddress), info.hwAddress, info.displayName, info.strength,
           info.state, false, false, false, false, NoCancellable, 0, 0, 0, 0, false, false)
  }

  /** What every device satisfies between events. */
  ghost predicate DeviceOk(d: Device)
  {
    d.timerStored ==> d.timersPending > 0
  }

  /* ---------------------------------------------------------------- */
  /* Teardown                                                          */

  /** `handle_cancel`: asks PulseAudio to unload its module and arms the
      fallback timer; both lead to the real cancel. */
  function HandleCancel(d: Device): (r: Device)
    ensures r.unloadsPending == d.unloadsPending + 1
    ensures r.timersPending == d.timersPending + 1 && r.timerStored
    ensures r == d.(unloadsPending := r.unloadsPending, timersPending := r.timersPending, timerStored := true)
  {
    d.(unloadsPending := d.unloadsPending + 1, timersPending := d.timersPending + 1, timerStored := true)
  }

  function TeardownEffects(d: Device): seq<Effect>
  {
    [Out(UnloadRequested(d.path)), Out(TimerArmed(d.path, QuitTimeoutSeconds))]
  }

  /** `sink_real_cancel` with `stop_stream`: stops the stream in the global
      slot, whichever device started it, and only then re-enables discovery;
      in every case empties the slot, cancels the pending initialisation and
      runs the cancel callback. The device's state handler is disconnected
      from the slot's stream only, so it stays connected when the slot holds
      another device's stream or none. */
  function RealCancel(d: Device, st: Streams): (r: Outcome)
    ensures r.streams.slot.None?
    ensures r.streams.live == st.live - SlotSet(st.slot)
    ensures SetDiscover(true) in r.effects <==> st.slot.Some?
    ensures st.slot.Some? ==> Out(StreamStopped(st.slot.value)) in r.effects
    ensures |r.effects| > 0 && r.effects[|r.effects| - 1] == Out(CancelCallback(d.path))
    ensures r.dev.cancellable != Armed
    ensures d.cancellable == Armed ==> r.dev.cancellable == Cancelled
    ensures r.dev.watching <==> d.watching && st.slot != Some(d.meta)
    ensures r.dev == d.(cancellable := r.dev.cancellable, watching := r.dev.watching)
  {
    var stop := if st.slot.Some? then [Out(StreamStopped(st.slot.value)), SetDiscover(true)] else [];
    var c := if d.cancellable == Armed then Cancelled else d.cancellable;
    var watching := d.watching && st.slot != Some(d.meta);
    Outcome(d.(cancellable := c, watching := watching), Streams(None, st.live - SlotSet(st.slot)),
            stop + [Out(CancelCallback(d.path))])
  }

  /** `nd_pulseaudio_unload_module_cb`: the real cancel, then the most
      recently armed timer is removed. */
  function UnloadDone(d: Device, st: Streams): (r: Outcome)
    ensures d.unloadsPending == 0 ==> r == Outcome(d, st, [])
    ensures d.unloadsPending > 0 ==>
              && r.dev.unloadsPending == d.unloadsPending - 1
              && r.streams.slot.None?
              && !r.dev.timerStored
              && r.dev.timersPending == (if d.timerStored && d.timersPending > 0 then d.timersPending - 1
                                         else d.timersPending)
    ensures DeviceOk(d) ==> DeviceOk(r.dev)
  {
    if d.unloadsPending == 0 then Outcome(d, st, [])
    else
      var c := RealCancel(d.(unloadsPending := d.unloadsPending - 1), st);
      var timers := if d.timerStored && d.timersPending > 0 then d.timersPending - 1 else d.timersPending;
      Outcome(c.dev.(timersPending := timers, timerStored := false), c.streams, c.effects)
  }

  /** The 25-second fallback fires: the real cancel. Timers fire in the
      order they were armed, so the stored one fires last. */
  function QuitTimeout(d: Device, st: Streams): (r: Outcome)
    ensures d.timersPending == 0 ==> r == Outcome(d, st, [])
    ensures d.timersPending > 0 ==>
              && r.dev.timersPending == d.timersPending - 1
              && r.streams.slot.None?
              && (r.dev.timerStored <==> d.timerStored && d.timersPending > 1)
    ensures DeviceOk(d) ==> DeviceOk(r.dev)
  {
    if d.timersPending == 0 then Outcome(d, st, [])
    else
      var d1 := d.(timersPending := d.timersPending - 1,
                   timerStored := d.timerStored && d.timersPending - 1 > 0);
      RealCancel(d1, st)
  }

  /* ---------------------------------------------------------------- */
  /* Stream state                                                      */

  /** `sink_notify_state_cb`: stores and publishes the state, then reacts. */
  function StreamStateChanged(d: Device, s: SinkState): (r: (Device, seq<Effect>))
    ensures r.0.status == s
    ensures |r.1| > 0 && r.1[0] == Out(PropertiesChanged(d.path, "Status", IntValue(s.Code())))
    ensures s == Disconnected || s == Error ==>
              r.0 == HandleCancel(d).(status := s)
              && r.1[1..] == TeardownEffects(d) + [Out(Notification("error"))]
    ensures s == Streaming ==> r.0 == d.(status := s) && r.1[1..] == [Out(Notification("streaming"))]
    ensures s != Disconnected && s != Error && s != Streaming ==> r.0 == d.(status := s) && |r.1| == 1
  {
    var published := [Out(PropertiesChanged(d.path, "Status", IntValue(s.Code())))];
    var d1 := d.(status := s);
    match s
    case Disconnected => (HandleCancel(d1), published + TeardownEffects(d) + [Out(Notification("error"))])
    case Error => (HandleCancel(d1), published + TeardownEffects(d) + [Out(Notification("error"))])
    case Streaming => (d1, published + [Out(Notification("streaming"))])
    case _ => (d1, published)
  }

  /* ---------------------------------------------------------------- */
  /* Starting the stream                                               */

  /** What `nd_sink_start_stream` gives back: nothing, or a stream in its
      current state. */
  datatype StartResult = StartFailed | Started(current: SinkState)

  /** `nd_sink_start_stream_real` as written: the slot is overwritten
      unconditionally, even while another device's stream runs, and a
      failed start overwrites it with nothing. A started stream gets the
      device's state handler, which is run once at once. */
  function StartStreamAsWritten(d: Device, st: Streams, start: StartResult): (r: Outcome)
    ensures !d.hasPortal && !d.x11 ==> r == Outcome(d, st, [])
    ensures (d.hasPortal || d.x11) && start.StartFailed? ==> r == Outcome(d, st.(slot := None), [])
    ensures (d.hasPortal || d.x11) && start.Started? ==>
              && r.streams == Streams(Some(d.meta), st.live + {d.meta})
              && r.dev.status == start.current && r.dev.watching
              && |r.effects| >= 2 && r.effects[0] == Out(StreamStarted(d.meta))
              && r.effects[|r.effects| - 1] == SetDiscover(false)
  {
    if !d.hasPortal && !d.x11 then Outcome(d, st, [])
    else
      match start
      case StartFailed => Outcome(d, st.(slot := None), [])
      case Started(s0) =>
        var (d1, e) := StreamStateChanged(d.(watching := true), s0);
        Outcome(d1, Streams(Some(d.meta), st.live + {d.meta}),
                [Out(StreamStarted(d.meta))] + e + [SetDiscover(false)])
  }

  /** The start with the evidently intended guard: a device never starts a
      stream while the slot holds one. */
  function StartStream(d: Device, st: Streams, start: StartResult): (r: Outcome)
    ensures st.slot.Some? ==> r == Outcome(d, st, [])
    ensures st.slot.None? ==> r == StartStreamAsWritten(d, st, start)
  {
    if st.slot.Some? then Outcome(d, st, []) else StartStreamAsWritten(d, st, start)
  }

  /* ---------------------------------------------------------------- */
  /* Initialisation chain                                              */

  /** How an asynchronous initialisation finished. */
  datatype InitResult = InitOk | InitError(ioDomain: bool, code: int)

  predicate IsCancellation(r: InitResult)
  {
    r.InitError? && r.ioDomain && r.code == IoErrorCancelled
  }

  /** `init_pulse_async`: a fresh cancellable and one more pending audio init. */
  function StartPulse(d: Device): Device
  {
    d.(cancellable := Armed, pulsePending := d.pulsePending + 1)
  }

  /** `nd_dbus_screencast_portal_init_async_cb`. `wayland` says whether
      `XDG_SESSION_TYPE` is "wayland". The Wayland test looks at the error
      code alone, whatever the error's domain. */
  function PortalDone(d: Device, st: Streams, result: InitResult, wayland: bool): (r: Outcome)
    ensures r.streams == st
    ensures d.portalPending == 0 ==> r == Outcome(d, st, [])
    ensures d.portalPending > 0 && IsCancellation(result) ==>
              r.dev == d.(portalPending := d.portalPending - 1) && r.effects == []
    ensures d.portalPending > 0 && result.InitError? && !IsCancellation(result)
            && result.code == IoErrorFailed && wayland ==>
              && r.dev == HandleCancel(d.(portalPending := d.portalPending - 1, initRunning := false))
              && r.effects == TeardownEffects(d)
    ensures d.portalPending > 0 && result.InitError? && !IsCancellation(result)
            && !(result.code == IoErrorFailed && wayland) ==>
              && r.dev == StartPulse(d.(portalPending := d.portalPending - 1, initRunning := false, x11 := true))
              && r.effects == []
    ensures d.portalPending > 0 && result.InitOk? ==>
              && r.dev == StartPulse(d.(portalPending := d.portalPending - 1, initRunning := false,
                                        x11 := false, hasPortal := true))
              && r.effects == []
  {
    if d.portalPending == 0 then Outcome(d, st, [])
    else if IsCancellation(result) then Outcome(d.(portalPending := d.portalPending - 1), st, [])
    else if result.InitError? then
      var d2 := d.(portalPending := d.portalPending - 1, initRunning := false);
      if result.code == IoErrorFailed && wayland then Outcome(HandleCancel(d2), st, TeardownEffects(d))
      else Outcome(StartPulse(d2.(x11 := true)), st, [])
    else
      Outcome(StartPulse(d.(portalPending := d.portalPending - 1, initRunning := false,
                            x11 := false, hasPortal := true)), st, [])
  }

  /** `nd_dbus_pulseaudio_init_async_cb` as written: any error ends the
      chain with no stream and no status change; success starts the stream. */
  function PulseDoneAsWritten(d: Device, st: Streams, result: InitResult, start: StartResult): (r: Outcome)
    ensures d.pulsePending == 0 ==> r == Outcome(d, st, [])
    ensures d.pulsePending > 0 && result.InitError? ==>
              r == Outcome(d.(pulsePending := d.pulsePending - 1), st, [])
    ensures d.pulsePending > 0 && result.InitOk? ==>
              r == StartStreamAsWritten(d.(pulsePending := d.pulsePending - 1, hasPulse := true), st, start)
  {
    if d.pulsePending == 0 then Outcome(d, st, [])
    else
      var d1 := d.(pulsePending := d.pulsePending - 1);
      if result.InitError? then Outcome(d1, st, [])
      else StartStreamAsWritten(d1.(hasPulse := true), st, start)
  }

  /** The audio completion with the corrected start. */
  function PulseDone(d: Device, st: Streams, result: InitResult, start: StartResult): (r: Outcome)
    ensures d.pulsePending == 0 ==> r == Outcome(d, st, [])
    ensures d.pulsePending > 0 && result.InitError? ==>
              r == Outcome(d.(pulsePending := d.pulsePending - 1), st, [])
    ensures d.pulsePending > 0 && result.InitOk? ==>
              r == StartStream(d.(pulsePending := d.pulsePending - 1, hasPulse := true), st, start)
  {
    if d.pulsePending == 0 then Outcome(d, st, [])
    else
      var d1 := d.(pulsePending := d.pulsePending - 1);
      if result.InitError? then Outcome(d1, st, [])
      else StartStream(d1.(hasPulse := true), st, start)
  }

  /* ---------------------------------------------------------------- */
  /* D-Bus interface                                                   */

  /** `handle_sink_method_call`. `Connect` consults the global slot but
      only this device's own initialisation flag. */
  function MethodCall(d: Device, st: Streams, name: string): (r: CallOutcome)
    ensures r.outcome.streams == st
    ensures name == "Connect" ==>
              && (r.reply == ReplyError(LimitsExceeded) <==> st.slot.Some? || d.initRunning)
              && (r.reply == ReplyOk <==> !(st.slot.Some? || d.initRunning))
              && (r.reply == ReplyOk ==>
                    && r.outcome.dev.initRunning && r.outcome.dev.hasPortal
                    && r.outcome.dev.cancellable == Armed
                    && r.outcome.dev.portalPending == d.portalPending + 1)
    ensures name == "Cancel" ==>
              && (r.reply == ReplyError(LimitsExceeded) <==> st.slot.None? && !d.initRunning)
              && (r.reply == ReplyOk <==> st.slot.Some? || d.initRunning)
              && (r.reply == ReplyOk ==>
                    r.outcome.dev == HandleCancel(d.(initRunning := false))
                    && r.outcome.effects == TeardownEffects(d))
    ensures name != "Connect" && name != "Cancel" ==> r.reply == ReplyError(UnknownMethod)
    ensures r.reply.ReplyError? ==> r.outcome == Outcome(d, st, [])
  {
    if name == "Connect" then
      if st.slot.Some? || d.initRunning then CallOutcome(Outcome(d, st, []), ReplyError(LimitsExceeded))
      else
        var d1 := d.(initRunning := true, hasPortal := true, cancellable := Armed,
                     portalPending := d.portalPending + 1);
        CallOutcome(Outcome(d1, st, []), ReplyOk)
    else if name == "Cancel" then
      if st.slot.None? && !d.initRunning then CallOutcome(Outcome(d, st, []), ReplyError(LimitsExceeded))
      else CallOutcome(Outcome(HandleCancel(d.(initRunning := false)), st, TeardownEffects(d)), ReplyOk)
    else CallOutcome(Outcome(d, st, []), ReplyError(UnknownMethod))
  }

  /** `handle_sink_get_property`; an unknown property has no value. */
  function GetProperty(d: Device, property: string): (r: Option<Value>)
    ensures property == "Status" ==> r == Some(IntValue(d.status.Code()))
    ensures property == "Name" ==> r == Some(StringValue(d.name))
    ensures property == "Strength" ==> r == Some(IntValue(Wrap32(d.strength)))
    ensures property == "HwAddress" ==> r == Some(StringValue(d.hwAddress))
    ensures r.None? <==> property !in {"Status", "Name", "Strength", "HwAddress"}
  {
    if property == "Status" then Some(IntValue(d.status.Code()))
    else if property == "Name" then Some(StringValue(d.name))
    else if property == "Strength" then Some(IntValue(Wrap32(d.strength)))
    else if property == "HwAddress" then Some(StringValue(d.hwAddress))
    else None
  }

  /** The signals among a transition's effects, in order. */
  function Outs(effects: seq<Effect>): (r: seq<Signal>)
    ensures forall k :: 0 <= k < |r| ==> Out(r[k]) in effects
  {
    if |effects| == 0 then []
    else (if effects[0].Out? then [effects[0].signal] else []) + Outs(effects[1..])
  }

  /** No property broadcast among the effects. */
  ghost predicate Quiet(effects: seq<Effect>)
  {
    forall k :: 0 <= k < |effects| ==> !(effects[k].Out? && effects[k].signal.PropertiesChanged?)
  }

  /** What a client following the device's broadcasts learns of one
      property across a transition from `before` to `after`: the last value
      broadcast is the one the getter now returns, and a change is
      broadcast. */
  ghost predicate DeviceAnnounces(before: Device, after: Device, effects: seq<Effect>, property: string)
  {
    var last := LastBroadcast(Outs(effects), before.path, property);
    && (last.Some? ==> last == GetProperty(after, property))
    && (GetProperty(after, property) != GetProperty(before, property) ==> last == GetProperty(after, property))
  }

  /** A transition at an unchanged path announces every property of the
      interface. */
  ghost predicate DeviceInSync(before: Device, after: Device, effects: seq<Effect>)
  {
    && after.path == before.path
    && DeviceAnnounces(before, after, effects, "Status")
    && DeviceAnnounces(before, after, effects, "Name")
    && DeviceAnnounces(before, after, effects, "Strength")
    && DeviceAnnounces(before, after, effects, "HwAddress")
  }

  /** `nd_dbus_sink_handle_property_changed`: any change on the meta sink
      re-reads only its display name, and publishes it when there is one. */
  function NameChanged(d: Device, displayName: Option<string>): (r: (Device, seq<Effect>))
    ensures displayName.None? ==> r == (d, [])
    ensures displayName.Some? ==>
              r.0 == d.(name := displayName.value)
              && r.1 == [Out(PropertiesChanged(d.path, "Name", StringValue(displayName.value)))]
  {
    match displayName
    case None => (d, [])
    case Some(n) => (d.(name := n), [Out(PropertiesChanged(d.path, "Name", StringValue(n)))])
  }

  /** `nd_dbus_sink_equal_sink`: a device is identified with the meta sink
      it was built for, by identity. */
  predicate EqualSink(d: Device, meta: MetaId)
  {
    d.meta == meta
  }

  /* ---------------------------------------------------------------- */
  /* X11 capture rectangle                                             */

  /** `PrimaryRect` as the "(nnqq)" tuple: two int16 and two uint16. */
  datatype PrimaryRect = PrimaryRect(x: int, y: int, width: nat, height: nat)

  predicate RectInRange(r: PrimaryRect)
  {
    -0x8000 <= r.x < 0x8000 && -0x8000 <= r.y < 0x8000 && r.width < 0x1_0000 && r.height < 0x1_0000
  }

  /** The `startx`/`starty`/`endx`/`endy` properties handed to ximagesrc. */
  datatype CaptureArea = CaptureArea(startX: nat, startY: nat, endX: nat, endY: nat)

  /** The capture rectangle of the X11 fallback. Without the display proxy,
      with fewer than two monitors or without a primary rectangle every
      coordinate is 0; otherwise the corner is the primary rectangle's
      origin and the far edge is origin + size - 1, all read as guint. */
  function X11CaptureArea(hasDisplayProxy: bool, monitors: Option<seq<string>>,
                          primary: Option<PrimaryRect>): (r: CaptureArea)
    requires primary.Some? ==> RectInRange(primary.value)
    ensures !(hasDisplayProxy && monitors.Some? && |monitors.value| >= 2 && primary.Some?) ==>
              r == CaptureArea(0, 0, 0, 0)
    ensures r.startX < TwoTo32 && r.startY < TwoTo32 && r.endX < TwoTo32 && r.endY < TwoTo32
  {
    var screens := if monitors.Some? then |monitors.value| else 0;
    if hasDisplayProxy && screens >= 2 && primary.Some? then
      var p := primary.value;
      CaptureArea(Wrap32(p.x), Wrap32(p.y), Wrap32(p.x + p.width - 1), Wrap32(p.y + p.height - 1))
    else CaptureArea(0, 0, 0, 0)
  }

  /** For a primary monitor at a non-negative origin with a non-zero size,
      the captured span is exactly its size. */
  lemma CaptureAreaSpansPrimary(monitors: seq<string>, p: PrimaryRect)
    requires RectInRange(p) && |monitors| >= 2
    requires p.x >= 0 && p.y >= 0 && p.width >= 1 && p.height >= 1
    ensures var a := X11CaptureArea(true, Some(monitors), Some(p));
            && a.startX == p.x && a.startY == p.y
            && a.endX - a.startX + 1 == p.width && a.endY - a.startY + 1 == p.height
  {
  }

  /** A primary monitor left of or above the origin yields a start
      coordinate that wraps to a huge unsigned value, and an empty width at
      the origin wraps the far edge to 2^32 - 1. */
  lemma CaptureAreaWraps(monitors: seq<string>, p: PrimaryRect)
    requires RectInRange(p) && |monitors| >= 2
    ensures var a := X11CaptureArea(true, Some(monitors), Some(p));
            && (p.x < 0 ==> a.startX == p.x + TwoTo32 && a.startX >= 0x8000_0000)
            && (p.x == 0 && p.width == 0 ==> a.endX == TwoTo32 - 1)
  {
  }

  /* ---------------------------------------------------------------- */
  /* The single-stream property                                        */

  lemma RealCancelKeepsSingleStream(d: Device, st: Streams)
    requires SingleStream(st)
    ensures SingleStream(RealCancel(d, st).streams) && RealCancel(d, st).streams.live == {}
  {
  }

  /** The corrected start never lets a second stream run. */
  lemma StartStreamKeepsSingleStream(d: Device, st: Streams, start: StartResult)
    requires SingleStream(st)
    ensures SingleStream(StartStream(d, st, start).streams)
  {
  }

  /** The start as written breaks the property as soon as a second device
      reaches it while a stream runs. */
  lemma StartStreamAsWrittenBreaksSingleStream(d: Device, st: Streams, start: StartResult)
    requires SingleStream(st) && st.slot.Some? && st.slot.value != d.meta
    requires d.hasPortal || d.x11
    ensures !SingleStream(StartStreamAsWritten(d, st, start).streams)
  {
    var r := StartStreamAsWritten(d, st, start).streams;
    assert st.slot.value in st.live;
    if start.StartFailed? {
      assert st.slot.value in r.live && r.slot.None?;
    } else {
      assert st.slot.value in r.live && d.meta in r.live;
    }
  }

  /** An idle device, connected while no stream runs, whose portal
      initialisation succeeds is waiting for its audio initialisation. */
  lemma ConnectedAwaitsAudio(d: Device)
    requires !d.initRunning && d.portalPending == 0 && d.pulsePending == 0
    ensures var st := Streams(None, {});
            var c := MethodCall(d, st, "Connect");
            var p := PortalDone(c.outcome.dev, st, InitOk, false);
            && c.reply == ReplyOk
            && p.dev.pulsePending == 1 && p.dev.hasPortal && p.dev.meta == d.meta
  {
  }

  /** A concrete run: two devices are connected one after the other before
      either stream starts; both chains finish, and two streams run. */
  lemma TwoDevicesBothStream()
    ensures var a0 := NewDevice(1, SinkInfo("aa:aa", "A", 0, Disconnected));
            var b0 := NewDevice(2, SinkInfo("bb:bb", "B", 0, Disconnected));
            var st0 := Streams(None, {});
            var ca := MethodCall(a0, st0, "Connect");
            var cb := MethodCall(b0, st0, "Connect");
            var pa := PortalDone(ca.outcome.dev, st0, InitOk, false);
            var pb := PortalDone(cb.outcome.dev, st0, InitOk, false);
            var sa := PulseDoneAsWritten(pa.dev, st0, InitOk, Started(WaitP2P));
            var sb := PulseDoneAsWritten(pb.dev, sa.streams, InitOk, Started(WaitP2P));
            && ca.reply == ReplyOk && cb.reply == ReplyOk
            && SingleStream(sa.streams)
            && sb.streams.live == {1, 2}
            && !SingleStream(sb.streams)
  {
    var a0 := NewDevice(1, SinkInfo("aa:aa", "A", 0, Disconnected));
    var b0 := NewDevice(2, SinkInfo("bb:bb", "B", 0, Disconnected));
    var st0 := Streams(None, {});
    var ca := MethodCall(a0, st0, "Connect");
    var cb := MethodCall(b0, st0, "Connect");
    var pa := PortalDone(ca.outcome.dev, st0, InitOk, false);
    var pb := PortalDone(cb.outcome.dev, st0, InitOk, false);
    ConnectedAwaitsAudio(a0);
    ConnectedAwaitsAudio(b0);
    var sa := PulseDoneAsWritten(pa.dev, st0, InitOk, Started(WaitP2P));
    assert sa.streams == Streams(Some(1), {1});
    var sb := PulseDoneAsWritten(pb.dev, sa.streams, InitOk, Started(WaitP2P));
    assert sb.streams == Streams(Some(2), {1, 2});
  }

  /** Every device transition with the corrected start keeps at most one
      stream running. */
  lemma TransitionsKeepSingleStream(d: Device, st: Streams, name: string, result: InitResult,
                                    wayland: bool, start: StartResult)
    requires SingleStream(st)
    ensures SingleStream(MethodCall(d, st, name).outcome.streams)
    ensures SingleStream(PortalDone(d, st, result, wayland).streams)
    ensures SingleStream(PulseDone(d, st, result, start).streams)
    ensures SingleStream(UnloadDone(d, st).streams)
    ensures SingleStream(QuitTimeout(d, st).streams)
  {
    PulseDoneKeepsSingleStream(d, st, result, start);
    TeardownKeepsSingleStream(d, st);
  }

  lemma PulseDoneKeepsSingleStream(d: Device, st: Streams, result: InitResult, start: StartResult)
    requires SingleStream(st)
    ensures SingleStream(PulseDone(d, st, result, start).streams)
  {
    if d.pulsePending > 0 && result.InitOk? {
      StartStreamKeepsSingleStream(d.(pulsePending := d.pulsePending - 1, hasPulse := true), st, start);
    }
  }

  lemma TeardownKeepsSingleStream(d: Device, st: Streams)
    requires SingleStream(st)
    ensures SingleStream(UnloadDone(d, st).streams)
    ensures SingleStream(QuitTimeout(d, st).streams)
  {
    if d.unloadsPending > 0 {
      RealCancelKeepsSingleStream(d.(unloadsPending := d.unloadsPending - 1), st);
    }
    if d.timersPending > 0 {
      RealCancelKeepsSingleStream(d.(timersPending := d.timersPending - 1,
                                     timerStored := d.timerStored && d.timersPending - 1 > 0), st);
    }
  }

  /* ---------------------------------------------------------------- */
  /* Runs of the state machine                                         */

  /** While any device's stream runs, `Connect` is refused on every device
      and `Cancel` is accepted on every device. */
  lemma StreamingLocksEveryDevice(d: Device, st: Streams)
    requires st.slot.Some?
    ensures MethodCall(d, st, "Connect").reply == ReplyError(LimitsExceeded)
    ensures MethodCall(d, st, "Connect").outcome.dev == d
    ensures MethodCall(d, st, "Cancel").reply == ReplyOk
  {
  }

  /** An idle device that is connected, whose portal and audio
      initialisations succeed, ends up owning the only stream, publishes the
      stream's state and switches discovery off last. */
  lemma ConnectChainStarts(d: Device, s: SinkState)
    requires !d.initRunning && d.portalPending == 0 && d.pulsePending == 0
    ensures var st := Streams(None, {});
            var c := MethodCall(d, st, "Connect");
            var p := PortalDone(c.outcome.dev, st, InitOk, false);
            var a := PulseDone(p.dev, p.streams, InitOk, Started(s));
            && c.reply == ReplyOk
            && p.dev.pulsePending == 1 && !p.dev.initRunning && !p.dev.x11
            && a.streams == Streams(Some(d.meta), {d.meta})
            && a.dev.status == s && a.dev.hasPulse
            && Out(PropertiesChanged(d.path, "Status", IntValue(s.Code()))) in a.effects
            && a.effects[|a.effects| - 1] == SetDiscover(false)
  {
    var st := Streams(None, {});
    var c := MethodCall(d, st, "Connect");
    var p := PortalDone(c.outcome.dev, st, InitOk, false);
    var a := PulseDone(p.dev, p.streams, InitOk, Started(s));
    var (d1, e) := StreamStateChanged(p.dev.(pulsePending := 0, hasPulse := true, watching := true), s);
    assert a.effects == [Out(StreamStarted(d.meta))] + e + [SetDiscover(false)];
    assert a.effects[1] == e[0];
  }

  /** A failed audio initialisation ends the chain: no stream, no status
      change, nothing published. */
  lemma PulseFailureEndsChain(d: Device, st: Streams, code: int, io: bool, start: StartResult)
    requires d.pulsePending > 0
    ensures var r := PulseDone(d, st, InitError(io, code), start);
            r.streams == st && r.dev.status == d.status && r.effects == [] && !r.dev.hasPulse == !d.hasPulse
  {
  }

  /** On Wayland, a failed portal with error code 0 aborts the cast whatever
      the error's domain (a D-Bus `Failed` error too); the same failure on
      X11 falls back to capturing the X11 screen. */
  lemma WaylandAbortIgnoresDomain(d: Device, st: Streams, io: bool)
    requires d.portalPending > 0
    ensures var w := PortalDone(d, st, InitError(io, IoErrorFailed), true);
            && w.dev.pulsePending == d.pulsePending && w.dev.unloadsPending == d.unloadsPending + 1
            && !w.dev.initRunning && w.effects == TeardownEffects(d)
    ensures var x := PortalDone(d, st, InitError(io, IoErrorFailed), false);
            && x.dev.pulsePending == d.pulsePending + 1 && x.dev.x11 && !x.dev.initRunning
            && x.effects == []
  {
  }

  /** A cancellation outside the I/O domain is not recognised as one: it is
      handled like any other failure and falls back to X11. */
  lemma ForeignCancelCodeFallsBack(d: Device, st: Streams)
    requires d.portalPending > 0
    ensures var r := PortalDone(d, st, InitError(false, IoErrorCancelled), false);
            r.dev.x11 && r.dev.pulsePending == d.pulsePending + 1
    ensures var r := PortalDone(d, st, InitError(true, IoErrorCancelled), false);
            r.dev == d.(portalPending := d.portalPending - 1) && r.effects == []
  {
  }

  /** Cancelling while a stream runs, once PulseAudio reports the module
      unloaded, stops that stream, re-enables discovery and leaves no stream
      and no armed cancellable behind. */
  lemma CancelThenUnloadStops(d: Device, st: Streams)
    requires SingleStream(st) && st.slot.Some?
    ensures var c := MethodCall(d, st, "Cancel");
            var u := UnloadDone(c.outcome.dev, c.outcome.streams);
            && c.reply == ReplyOk
            && u.streams == Streams(None, {})
            && SetDiscover(true) in u.effects
            && Out(StreamStopped(st.slot.value)) in u.effects
            && u.dev.cancellable != Armed
            && u.dev.timersPending == d.timersPending
            && !u.dev.timerStored
  {
  }

  /** A cancel on a device that does not own the running stream is
      accepted; once its unload completes the owner's stream is stopped and
      the slot emptied, but the canceller's real cancel leaves the owner's
      state handler connected, so the owner still hears that its stream
      ended and then tears itself down. */
  lemma ForeignCancelLeavesOwnerListening(a: Device, b: Device)
    requires a.watching && b.meta != a.meta
    ensures var st := Streams(Some(a.meta), {a.meta});
            var c := MethodCall(b, st, "Cancel");
            var u := UnloadDone(c.outcome.dev, c.outcome.streams);
            && c.reply == ReplyOk
            && u.streams == Streams(None, {})
            && Out(StreamStopped(a.meta)) in u.effects
            && u.dev.watching == b.watching
    ensures var t := StreamStateChanged(a, Disconnected).0;
            t.watching && t.status == Disconnected && t.unloadsPending == a.unloadsPending + 1
  {
  }

  /** When the fallback timer fires before the unload callback, the real
      cancel runs once for each: the cancel callback is run twice. */
  lemma TimerThenUnloadCancelsTwice(d: Device, st: Streams)
    requires d.unloadsPending == 0 && d.timersPending == 0
    ensures var h := HandleCancel(d);
            var t := QuitTimeout(h, st);
            var u := UnloadDone(t.dev, t.streams);
            && t.effects[|t.effects| - 1] == Out(CancelCallback(d.path))
            && u.effects[|u.effects| - 1] == Out(CancelCallback(d.path))
            && u.dev.unloadsPending == 0 && u.dev.timersPending == 0
  {
  }

  /** Every transition keeps the device's identity, its address, and its
      stored timer pointing at a pending one. */
  lemma CallsKeepDeviceOk(d: Device, st: Streams, name: string, result: InitResult,
                          wayland: bool, start: StartResult)
    requires DeviceOk(d)
    ensures var e := MethodCall(d, st, name).outcome.dev;
            DeviceOk(e) && e.meta == d.meta && e.hwAddress == d.hwAddress
    ensures var e := PortalDone(d, st, result, wayland).dev;
            DeviceOk(e) && e.meta == d.meta && e.hwAddress == d.hwAddress
  {
    MethodCallKeepsDeviceOk(d, st, name);
    PortalDoneKeepsDeviceOk(d, st, result, wayland);
  }

  lemma MethodCallKeepsDeviceOk(d: Device, st: Streams, name: string)
    requires DeviceOk(d)
    ensures var e := MethodCall(d, st, name).outcome.dev;
            DeviceOk(e) && e.meta == d.meta && e.hwAddress == d.hwAddress
  {
    var c := MethodCall(d, st, name);
    if name == "Cancel" && c.reply == ReplyOk {
      assert c.outcome.dev == HandleCancel(d.(initRunning := false));
    }
  }

  lemma PortalDoneKeepsDeviceOk(d: Device, st: Streams, result: InitResult, wayland: bool)
    requires DeviceOk(d)
    ensures var e := PortalDone(d, st, result, wayland).dev;
            DeviceOk(e) && e.meta == d.meta && e.hwAddress == d.hwAddress
  {
    if d.portalPending > 0 && result.InitError? && !IsCancellation(result)
       && result.code == IoErrorFailed && wayland {
      var d2 := d.(portalPending := d.portalPending - 1, initRunning := false);
      assert PortalDone(d, st, result, wayland).dev == HandleCancel(d2);
    }
  }

  lemma PulseDoneKeepsDeviceOk(d: Device, st: Streams, result: InitResult, start: StartResult)
    requires DeviceOk(d)
    ensures var e := PulseDone(d, st, result, start).dev;
            DeviceOk(e) && e.meta == d.meta && e.hwAddress == d.hwAddress
  {
    if d.pulsePending > 0 && result.InitOk? && st.slot.None? {
      var d1 := d.(pulsePending := d.pulsePending - 1, hasPulse := true);
      if (d1.hasPortal || d1.x11) && start.Started? {
        var r := StreamStateChanged(d1.(watching := true), start.current).0;
        assert r.meta == d.meta && r.hwAddress == d.hwAddress && DeviceOk(r);
      }
    }
  }

  lemma CompletionsKeepDeviceOk(d: Device, st: Streams, s: SinkState)
    requires DeviceOk(d)
    ensures var e := UnloadDone(d, st).dev; DeviceOk(e) && e.meta == d.meta && e.hwAddress == d.hwAddress
    ensures var e := QuitTimeout(d, st).dev; DeviceOk(e) && e.meta == d.meta && e.hwAddress == d.hwAddress
    ensures var e := StreamStateChanged(d, s).0; DeviceOk(e) && e.meta == d.meta && e.hwAddress == d.hwAddress
  {
  }

  /* ---------------------------------------------------------------- */
  /* What a client sees                                                */

  /** A client reading `Status` recovers the device's state from the
      published integer. */
  lemma StatusRoundTrip(d: Device)
    ensures GetProperty(d, "Status") == Some(IntValue(d.status.Code()))
    ensures FromCode(GetProperty(d, "Status").value.i) == Some(d.status)
  {
    CodeRoundTrip(d.status);
  }

  lemma {:induction false} OutsAppend(a: seq<Effect>, b: seq<Effect>)
    ensures Outs(a + b) == Outs(a) + Outs(b)
    decreases |a|
  {
    if |a| == 0 {
      assert a + b == b;
    } else {
      assert (a + b)[1..] == a[1..] + b;
      OutsAppend(a[1..], b);
    }
  }

  lemma QuietLast(effects: seq<Effect>, path: string, property: string)
    requires Quiet(effects)
    ensures LastBroadcast(Outs(effects), path, property).None?
  {
  }

  /** One broadcast followed by effects that broadcast nothing: the client
      reads that broadcast's value, and nothing for the other properties. */
  lemma OneBroadcastLast(path: string, property: string, v: Value, rest: seq<Effect>, q: string)
    requires Quiet(rest)
    ensures LastBroadcast(Outs([Out(PropertiesChanged(path, property, v))] + rest), path, q) ==
              if q == property then Some(v) else None
  {
    var sig := PropertiesChanged(path, property, v);
    OutsAppend([Out(sig)], rest);
    assert Outs([Out(sig)]) == [sig];
    QuietLast(rest, path, q);
    LastBroadcastAppend([sig], Outs(rest), path, q);
    assert [sig][..0] == [];
  }

  /** A transition that broadcasts nothing and changes no property is in
      sync. */
  lemma QuietInSync(before: Device, after: Device, effects: seq<Effect>)
    requires Quiet(effects) && after.path == before.path
    requires after.status == before.status && after.name == before.name
    requires after.strength == before.strength && after.hwAddress == before.hwAddress
    ensures DeviceInSync(before, after, effects)
  {
    QuietLast(effects, before.path, "Status");
    QuietLast(effects, before.path, "Name");
    QuietLast(effects, before.path, "Strength");
    QuietLast(effects, before.path, "HwAddress");
  }

  /** A state change publishes the new state, which is what `Status` then
      reads. */
  lemma StatusPublished(d: Device, s: SinkState)
    ensures DeviceInSync(d, StreamStateChanged(d, s).0, StreamStateChanged(d, s).1)
  {
    var (d1, e) := StreamStateChanged(d, s);
    var rest := e[1..];
    assert e == [e[0]] + rest;
    assert Quiet(rest);
    OneBroadcastLast(d.path, "Status", IntValue(s.Code()), rest, "Status");
    OneBroadcastLast(d.path, "Status", IntValue(s.Code()), rest, "Name");
    OneBroadcastLast(d.path, "Status", IntValue(s.Code()), rest, "Strength");
    OneBroadcastLast(d.path, "Status", IntValue(s.Code()), rest, "HwAddress");
  }

  /** A new display name is published, and is what `Name` then reads. */
  lemma NamePublished(d: Device, displayName: Option<string>)
    ensures DeviceInSync(d, NameChanged(d, displayName).0, NameChanged(d, displayName).1)
  {
    match displayName
    case None => QuietInSync(d, d, []);
    case Some(n) =>
      var v := StringValue(n);
      assert [Out(PropertiesChanged(d.path, "Name", v))] + [] == NameChanged(d, displayName).1;
      OneBroadcastLast(d.path, "Name", v, [], "Status");
      OneBroadcastLast(d.path, "Name", v, [], "Name");
      OneBroadcastLast(d.path, "Name", v, [], "Strength");
      OneBroadcastLast(d.path, "Name", v, [], "HwAddress");
  }

  lemma TeardownQuiet(d: Device, st: Streams)
    ensures Quiet(TeardownEffects(d))
    ensures Quiet(RealCancel(d, st).effects)
  {
  }

  /** A method call changes no published property and broadcasts none. */
  lemma MethodCallInSync(d: Device, st: Streams, name: string)
    ensures var c := MethodCall(d, st, name).outcome; DeviceInSync(d, c.dev, c.effects)
  {
    TeardownQuiet(d, st);
    var c := MethodCall(d, st, name).outcome;
    QuietInSync(d, c.dev, c.effects);
  }

  /** The portal's completion changes no published property and broadcasts
      none. */
  lemma PortalDoneInSync(d: Device, st: Streams, result: InitResult, wayland: bool)
    ensures var c := PortalDone(d, st, result, wayland); DeviceInSync(d, c.dev, c.effects)
  {
    var c := PortalDone(d, st, result, wayland);
    if d.portalPending > 0 && result.InitError? && !IsCancellation(result)
       && result.code == IoErrorFailed && wayland {
      TeardownQuiet(d, st);
      assert c.effects == TeardownEffects(d);
    } else {
      assert c.effects == [];
    }
    QuietInSync(d, c.dev, c.effects);
  }

  /** Neither teardown path changes a published property or broadcasts one. */
  lemma TeardownInSync(d: Device, st: Streams)
    ensures var c := UnloadDone(d, st); DeviceInSync(d, c.dev, c.effects)
    ensures var c := QuitTimeout(d, st); DeviceInSync(d, c.dev, c.effects)
  {
    if d.unloadsPending > 0 {
      TeardownQuiet(d.(unloadsPending := d.unloadsPending - 1), st);
    }
    if d.timersPending > 0 {
      TeardownQuiet(d.(timersPending := d.timersPending - 1,
                       timerStored := d.timerStored && d.timersPending - 1 > 0), st);
    }
    var u := UnloadDone(d, st);
    QuietInSync(d, u.dev, u.effects);
    var t := QuitTimeout(d, st);
    QuietInSync(d, t.dev, t.effects);
  }

  /** Effects that start with a signal other than a broadcast read as the
      rest does. */
  lemma PrefixedLast(first: Signal, e: seq<Effect>, path: string, q: string)
    requires !first.PropertiesChanged?
    ensures LastBroadcast(Outs([Out(first)] + e), path, q) == LastBroadcast(Outs(e), path, q)
  {
    OutsAppend([Out(first)], e);
    assert Outs([Out(first)]) == [first];
    LastBroadcastAppend([first], Outs(e), path, q);
    assert [first][..0] == [];
  }

  /** A started stream's first state is published, and is what `Status`
      then reads; a start that does not happen publishes nothing. */
  lemma StartPublished(d: Device, st: Streams, start: StartResult)
    ensures var r := StartStreamAsWritten(d, st, start); DeviceInSync(d, r.dev, r.effects)
  {
    var r := StartStreamAsWritten(d, st, start);
    if (d.hasPortal || d.x11) && start.Started? {
      var d0 := d.(watching := true);
      var (d1, e) := StreamStateChanged(d0, start.current);
      StatusPublished(d0, start.current);
      var tail := e + [SetDiscover(false)];
      assert r.effects == [Out(StreamStarted(d.meta))] + tail;
      OutsAppend(e, [SetDiscover(false)]);
      assert Outs([SetDiscover(false)]) == [];
      assert Outs(tail) == Outs(e);
      PrefixedLast(StreamStarted(d.meta), tail, d.path, "Status");
      PrefixedLast(StreamStarted(d.meta), tail, d.path, "Name");
      PrefixedLast(StreamStarted(d.meta), tail, d.path, "Strength");
      PrefixedLast(StreamStarted(d.meta), tail, d.path, "HwAddress");
    } else {
      QuietInSync(d, r.dev, r.effects);
    }
  }

  lemma PulseDonePublished(d: Device, st: Streams, result: InitResult, start: StartResult)
    ensures var r := PulseDone(d, st, result, start); DeviceInSync(d, r.dev, r.effects)
  {
    var r := PulseDone(d, st, result, start);
    if d.pulsePending > 0 && result.InitOk? && st.slot.None? {
      var d1 := d.(pulsePending := d.pulsePending - 1, hasPulse := true);
      StartPublished(d1, st, start);
    } else {
      QuietInSync(d, r.dev, r.effects);
    }
  }
}
