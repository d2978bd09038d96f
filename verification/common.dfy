/** Vocabulary shared by the daemon modules: identities, optional values,
    the values carried by D-Bus property broadcasts and the replies of the
    two exported interfaces. */
module Common {

  /** The conventional Some/None datatype standing in for a nullable pointer. */
  datatype Option<+T> = None | Some(value: T)

  /** A raw sink reported by one provider (compared by pointer). */
  type SinkId = nat

  /** A meta sink built by the aggregator. Meta sinks are compared by pointer,
      and a pointer that is freed is never handed out again while anyone
      still holds it, so the model never reuses an id. */
  type MetaId = nat

  /** A registered provider (compared by pointer). */
  type ProviderId = nat

  /** A GVariant carried by a PropertiesChanged broadcast. */
  datatype Value =
    | BoolValue(b: bool)
    | IntValue(i: int)
    | StringValue(s: string)
    | PathList(paths: seq<string>)
    | StringList(items: seq<string>)

  /** Everything the daemon does to the outside world, in emission order:
      D-Bus broadcasts and notifications, calls into providers, PulseAudio
      and GStreamer, timers armed on the main loop. */
  datatype Signal =
    | PropertiesChanged(path: string, property: string, value: Value)
    | Notification(body: string)
    | ProviderDiscover(provider: ProviderId, on: bool)
    | CancelCallback(path: string)
    | UnloadRequested(path: string)
    | TimerArmed(path: string, seconds: nat)
    | StreamStarted(owner: MetaId)
    | StreamStopped(owner: MetaId)
    | LoopQuit

  /** A broadcast of a property of the object at a path. */
  predicate Broadcasts(sig: Signal, path: string, property: string)
  {
    sig.PropertiesChanged? && sig.path == path && sig.property == property
  }

  /** The value last broadcast for a property of the object at a path, or
      nothing when no broadcast of it went out: what a client that follows
      the broadcasts believes the property holds. */
  function LastBroadcast(signals: seq<Signal>, path: string, property: string): (r: Option<Value>)
    ensures r.Some? ==> PropertiesChanged(path, property, r.value) in signals
    ensures r.None? <==> forall k :: 0 <= k < |signals| ==> !Broadcasts(signals[k], path, property)
    decreases |signals|
  {
    if |signals| == 0 then None
    else
      var last := signals[|signals| - 1];
      var init := signals[..|signals| - 1];
      assert forall k :: 0 <= k < |init| ==> init[k] == signals[k];
      if Broadcasts(last, path, property) then Some(last.value)
      else LastBroadcast(init, path, property)
  }

  /** In a log made of two parts, the last broadcast is the second part's,
      if it has one. */
  lemma {:induction false} LastBroadcastAppend(s1: seq<Signal>, s2: seq<Signal>, path: string, property: string)
    ensures LastBroadcast(s1 + s2, path, property) ==
              if LastBroadcast(s2, path, property).Some? then LastBroadcast(s2, path, property)
              else LastBroadcast(s1, path, property)
    decreases |s2|
  {
    if |s2| == 0 {
      assert s1 + s2 == s1;
    } else {
      assert (s1 + s2)[..|s1 + s2| - 1] == s1 + s2[..|s2| - 1];
      LastBroadcastAppend(s1, s2[..|s2| - 1], path, property);
    }
  }

  /** The D-Bus error names the two interfaces return. */
  datatype DBusError = Failed | InvalidArgs | UnknownMethod | LimitsExceeded

  const TwoTo32: int := 0x1_0000_0000

  /** Reinterprets a C integer as a `guint`/`quint32` (modulo 2^32). */
  function Wrap32(x: int): (r: nat)
    ensures r < TwoTo32
    ensures 0 <= x < TwoTo32 ==> r == x
    ensures -TwoTo32 <= x < 0 ==> r == x + TwoTo32
  {
    x % TwoTo32
  }

  /** The answer to one method invocation. */
  datatype Reply = ReplyOk | ReplyError(error: DBusError)
}
