/** The client-side view model of the casting plugins: a key-ordered map from
    sink object path to `Monitor`, the monitor currently streaming, and the
    `CastingState` the dock and control-center widgets display. D-Bus
    property reads and NetworkManager replies are inputs; what the model
    tells its widgets and the daemon is an event log. */
module CastingModel {
  import opened Common
  import opened LexOrder
  import SinkStates

  /** The bus name of the daemon whose disappearance resets the model. */
  const ServiceName: string := "com.deepin.Cooperation.NetworkDisplay"

  /** NetworkManager's `DeviceType` value for a Wi-Fi device. */
  const WifiDeviceType: int := 2

  /** What the widgets show, in enumerator order. */
  datatype CastingState =
    | List
    | Connected
    | NoMonitor
    | WarningInfo
    | DisabledWirelessDevice
    | NoWirelessDevice
  {
    /** The value of the enumerator. */
    function Ordinal(): nat
    {
      match this
      case List => 0
      case Connected => 1
      case NoMonitor => 2
      case WarningInfo => 3
      case DisabledWirelessDevice => 4
      case NoWirelessDevice => 5
    }
  }

  /** The trailing `Count` enumerator: the number of real states. */
  const CastingStateCount: nat := 6

  function CastingFromOrdinal(n: int): (r: Option<CastingState>)
    ensures r.Some? ==> r.value.Ordinal() == n
    ensures r.None? ==> forall s: CastingState :: s.Ordinal() != n
  {
    if n == 0 then Some(List)
    else if n == 1 then Some(Connected)
    else if n == 2 then Some(NoMonitor)
    else if n == 3 then Some(WarningInfo)
    else if n == 4 then Some(DisabledWirelessDevice)
    else if n == 5 then Some(NoWirelessDevice)
    else None
  }

  /** The enumerators are numbered 0 to 5 without gaps, `Count` is one past
      the last, and every value reads back as itself. */
  lemma OrdinalsAreDense(s: CastingState, t: CastingState)
    ensures s.Ordinal() < CastingStateCount
    ensures CastingFromOrdinal(s.Ordinal()) == Some(s)
    ensures s.Ordinal() == t.Ordinal() <==> s == t
    ensures CastingFromOrdinal(CastingStateCount).None?
  {
  }

  /** One remote sink as the client sees it. `id` stands for the object's
      address: a monitor created later for the same path is a different
      object. `state` is whatever 32-bit value the daemon published. */
  datatype Monitor = Monitor(
    id: nat,
    path: string,
    name: string,
    hwAddr: string,
    state: nat,
    strength: nat)
  {
    /** The `hwAddress()` accessor, which hands back the name field. */
    function HwAddress(): string
    {
      name
    }

    /** The accessor as evidently intended: the stored hardware address. */
    function IntendedHwAddress(): string
    {
      hwAddr
    }
  }

  /** `hwAddress()` answers with the monitor's name, so it differs from
      the hardware address read from the daemon whenever the two differ. */
  lemma HwAddressReturnsName(m: Monitor)
    ensures m.HwAddress() == m.name
    ensures m.hwAddr != m.name ==> m.HwAddress() != m.hwAddr
  {
  }

  /** The four properties a new monitor reads from its sink object; `None`
      is a read that came back invalid. */
  datatype MonitorProps = MonitorProps(
    name: Option<string>,
    hwAddress: Option<string>,
    status: Option<int>,
    strength: Option<int>)

  /** A monitor freshly constructed for `path`: empty strings, state
      DISCONNECTED and strength 0 unless the corresponding read succeeds. */
  function NewMonitor(id: nat, path: string, p: MonitorProps): (r: Monitor)
    ensures r.id == id && r.path == path
    ensures p.name.Some? ==> r.name == p.name.value
    ensures p.name.None? ==> r.name == ""
    ensures p.hwAddress.Some? ==> r.hwAddr == p.hwAddress.value
    ensures p.hwAddress.None? ==> r.hwAddr == ""
    ensures p.status.None? ==> r.state == SinkStates.DisconnectedCode
    ensures p.status.Some? && 0 <= p.status.value < TwoTo32 ==> r.state == p.status.value
    ensures p.strength.None? ==> r.strength == 0
    ensures r.state < TwoTo32 && r.strength < TwoTo32
  {
    Monitor(
      id, path,
      if p.name.Some? then p.name.value else "",
      if p.hwAddress.Some? then p.hwAddress.value else "",
      if p.status.Some? then Wrap32(p.status.value) else 0,
      if p.strength.Some? then Wrap32(p.strength.value) else 0)
  }

  /** A monitor built for a sink named "TV" at address `aa:bb` reports "TV"
      as its hardware address. */
  lemma NewMonitorMisreportsAddress(id: nat, path: string)
    ensures var m := NewMonitor(id, path, MonitorProps(Some("TV"), Some("aa:bb"), None, None));
            m.HwAddress() == "TV" && m.HwAddress() != "aa:bb"
  {
    var m := NewMonitor(id, path, MonitorProps(Some("TV"), Some("aa:bb"), None, None));
    HwAddressReturnsName(m);
    assert "TV"[0] != "aa:bb"[0];
  }

  /** The intended accessor answers with the `HwAddress` property the
      monitor read from the daemon, or the empty default when that read
      failed. */
  lemma IntendedHwAddressReadsDaemon(id: nat, path: string, p: MonitorProps)
    ensures p.hwAddress.Some? ==> NewMonitor(id, path, p).IntendedHwAddress() == p.hwAddress.value
    ensures p.hwAddress.None? ==> NewMonitor(id, path, p).IntendedHwAddress() == ""
  {
  }

  /** `Monitor::checkState`: a status broadcast. The result pairs the
      updated monitor with whether `stateChanged` was emitted. */
  function MonitorCheckState(m: Monitor, v: Option<int>): (r: (Monitor, bool))
    ensures v.None? ==> r == (m, false)
    ensures r.1 <==> v.Some? && Wrap32(v.value) != m.state
    ensures r.0 == m.(state := if r.1 then Wrap32(v.value) else m.state)
  {
    if v.None? then (m, false)
    else if Wrap32(v.value) != m.state then (m.(state := Wrap32(v.value)), true)
    else (m, false)
  }

  /** A broadcast repeated verbatim changes nothing the second time. */
  lemma MonitorCheckStateSettles(m: Monitor, v: Option<int>)
    ensures MonitorCheckState(MonitorCheckState(m, v).0, v) == (MonitorCheckState(m, v).0, false)
  {
  }

  /** What the model reports: to its widgets (`addMonitor`, `removeMonitor`,
      `stateChanged`) and to the daemon (a `Cancel` call on a sink). */
  datatype ClientEvent =
    | AddMonitor(path: string)
    | RemoveMonitor(path: string)
    | StateChanged(state: CastingState)
    | CancelRequested(path: string)

  /** `WirelessCastingModel`'s fields. `cur` is the id of the monitor
      `m_curConnected` points at; `listening` records whether the handlers
      for `SinkList` and `MissingCapabilities` changes are connected;
      `nextMonitor` is the next fresh monitor id. */
  datatype Client = Client(
    monitors: seq<Entry<Monitor>>,
    state: CastingState,
    cur: Option<nat>,
    warnings: seq<string>,
    devCheck: bool,
    enabled: bool,
    listening: bool,
    nextMonitor: nat)

  datatype Update = Update(client: Client, events: seq<ClientEvent>)

  /** The state the widgets are meant to show, by precedence: no wireless
      device, wireless disabled, missing capabilities, casting, no monitor,
      otherwise the monitor list. */
  function Target(c: Client): CastingState
  {
    if !c.devCheck then NoWirelessDevice
    else if !c.enabled then DisabledWirelessDevice
    else if |c.warnings| > 0 then WarningInfo
    else if c.cur.Some? then Connected
    else if |c.monitors| == 0 then NoMonitor
    else List
  }

  /** `checkState` as written. Its first and third guards also test the
      current state, so when that state is already the one the guard would
      choose, evaluation falls through to the next rule. */
  function CheckStateAsWritten(c: Client): (r: Update)
    ensures r.client == c.(state := r.client.state)
    ensures r.events == [] || r.events == [StateChanged(r.client.state)]
    ensures r.client.state != c.state ==> r.events == [StateChanged(r.client.state)]
    ensures r.client.state in {DisabledWirelessDevice, Connected} ==> r.events == [StateChanged(r.client.state)]
    ensures !(!c.devCheck && c.state == NoWirelessDevice)
         && !(c.devCheck && c.enabled && |c.warnings| > 0 && c.state == WarningInfo)
        ==> r.client.state == Target(c)
  {
    if !c.devCheck && c.state != NoWirelessDevice then
      Update(c.(state := NoWirelessDevice), [StateChanged(NoWirelessDevice)])
    else if !c.enabled then
      Update(c.(state := DisabledWirelessDevice), [StateChanged(DisabledWirelessDevice)])
    else if |c.warnings| > 0 && c.state != WarningInfo then
      Update(c.(state := WarningInfo), [StateChanged(WarningInfo)])
    else if c.cur.None? then
      var s := if |c.monitors| == 0 then NoMonitor else List;
      if s != c.state then Update(c.(state := s), [StateChanged(s)]) else Update(c, [])
    else
      Update(c.(state := Connected), [StateChanged(Connected)])
  }

  /** With no wireless device the written `checkState` never settles:
      every evaluation changes the state, alternating between
      NoWirelessDevice and DisabledWirelessDevice, and from
      NoWirelessDevice it leaves the state it should keep. */
  lemma NoDeviceFlipFlops(c: Client)
    requires !c.devCheck && !c.enabled
    ensures var once := CheckStateAsWritten(c).client;
            var twice := CheckStateAsWritten(once).client;
            once.state != twice.state
            && {once.state, twice.state} == {NoWirelessDevice, DisabledWirelessDevice}
    ensures c.state == NoWirelessDevice ==> CheckStateAsWritten(c).client.state != Target(c)
  {
  }

  /** With capabilities missing the written `checkState` alternates between
      WarningInfo and the state the remaining rules pick. */
  lemma WarningFlipFlops(c: Client)
    requires c.devCheck && c.enabled && |c.warnings| > 0
    ensures var once := CheckStateAsWritten(c).client;
            var twice := CheckStateAsWritten(once).client;
            once.state != twice.state && WarningInfo in {once.state, twice.state}
    ensures c.state == WarningInfo ==> CheckStateAsWritten(c).client.state != Target(c)
  {
  }

  /** `checkState` with both guards applied as the precedence intends: a
      rule whose state is already shown stops evaluation instead of
      falling through. Emission is kept as written: DisabledWirelessDevice
      and Connected are always announced, other states only on change. */
  function CheckState(c: Client): (r: Update)
    ensures r.client == c.(state := Target(c))
    ensures r.events == [] || r.events == [StateChanged(Target(c))]
    ensures r.events == [] <==> Target(c) == c.state && Target(c) !in {DisabledWirelessDevice, Connected}
  {
    if !c.devCheck then
      if c.state != NoWirelessDevice then
        Update(c.(state := NoWirelessDevice), [StateChanged(NoWirelessDevice)])
      else Update(c, [])
    else if !c.enabled then
      Update(c.(state := DisabledWirelessDevice), [StateChanged(DisabledWirelessDevice)])
    else if |c.warnings| > 0 then
      if c.state != WarningInfo then Update(c.(state := WarningInfo), [StateChanged(WarningInfo)])
      else Update(c, [])
    else if c.cur.None? then
      var s := if |c.monitors| == 0 then NoMonitor else List;
      if s != c.state then Update(c.(state := s), [StateChanged(s)]) else Update(c, [])
    else
      Update(c.(state := Connected), [StateChanged(Connected)])
  }

  /** The corrected evaluation settles: running it again keeps the state
      and announces nothing new except the always-announced states. */
  lemma {:induction false} CheckStateSettles(c: Client)
    ensures CheckState(CheckState(c).client).client == CheckState(c).client
    ensures CheckState(c).client.state !in {DisabledWirelessDevice, Connected}
        ==> CheckState(CheckState(c).client).events == []
  {
    var once := CheckState(c).client;
    assert Target(once) == Target(c);
  }

  /** Both versions agree everywhere except in the two fall-through cases. */
  lemma CheckStateAgreesOutsideFallThrough(c: Client)
    requires !(!c.devCheck && c.state == NoWirelessDevice)
    requires !(c.devCheck && c.enabled && |c.warnings| > 0 && c.state == WarningInfo)
    ensures CheckStateAsWritten(c) == CheckState(c)
  {
  }

  /** The identities of the monitors the map holds. */
  function Ids(m: seq<Entry<Monitor>>): set<nat>
  {
    if |m| == 0 then {} else {m[0].value.id} + Ids(m[1..])
  }

  /** `m_curConnected` points at a monitor still held in the map. */
  predicate CurValid(c: Client)
  {
    c.cur.None? || c.cur.value in Ids(c.monitors)
  }

  /** The monitor with the given identity, if the map holds it. */
  function FindById(m: seq<Entry<Monitor>>, id: nat): (r: Option<Monitor>)
    ensures r.None? <==> id !in Ids(m)
    ensures r.Some? ==> r.value.id == id && exists i :: 0 <= i < |m| && m[i].value == r.value
  {
    if |m| == 0 then None
    else if m[0].value.id == id then Some(m[0].value)
    else
      var r := FindById(m[1..], id);
      assert forall i :: 0 < i < |m| ==> m[i] == m[1..][i - 1];
      r
  }

  /** The result of dereferencing `m_curConnected`: either a monitor in the
      map, or a pointer to a monitor already removed from the map and
      handed to `deleteLater`. */
  datatype Access<T> = Fine(value: T) | Stale

  /** `curMonitorName`: empty when no monitor is current. */
  function CurMonitorName(c: Client): (r: Access<string>)
    ensures c.cur.None? ==> r == Fine("")
    ensures r.Stale? <==> !CurValid(c)
    ensures c.cur.Some? && r.Fine? ==>
      exists i :: 0 <= i < |c.monitors| && c.monitors[i].value.id == c.cur.value
                  && c.monitors[i].value.name == r.value
  {
    if c.cur.None? then Fine("")
    else match FindById(c.monitors, c.cur.value)
      case Some(m) => Fine(m.name)
      case None => Stale
  }

  /** `disconnMonitor`: a `Cancel` call on the current monitor's sink, and
      nothing when no monitor is current. */
  function DisconnMonitor(c: Client): (r: Access<seq<ClientEvent>>)
    ensures c.cur.None? ==> r == Fine([])
    ensures r.Stale? <==> !CurValid(c)
    ensures c.cur.Some? && r.Fine? ==>
      exists i :: 0 <= i < |c.monitors| && c.monitors[i].value.id == c.cur.value
                  && r.value == [CancelRequested(c.monitors[i].value.path)]
  {
    if c.cur.None? then Fine([])
    else match FindById(c.monitors, c.cur.value)
      case Some(m) => Fine([CancelRequested(m.path)])
      case None => Stale
  }

  /** The set of paths a published list names. */
  function Listed(list: seq<string>): (r: set<string>)
    ensures forall p :: p in r <==> p in list
  {
    set p | p in list
  }

  /** The first loop of `updateSinkList`: every listed path not yet in the
      map gets a new monitor, announced with `addMonitor`, in list order;
      a path listed twice is added once. */
  function AddNew(m: seq<Entry<Monitor>>, next: nat, list: seq<string>, probe: string -> MonitorProps)
    : (r: (seq<Entry<Monitor>>, nat, seq<ClientEvent>))
    ensures next <= r.1
    ensures Keys(r.0) == Keys(m) + Listed(list)
    ensures forall k :: k in Keys(m) ==> Lookup(r.0, k) == Lookup(m, k)
    ensures forall k :: k in Keys(r.0) && k !in Keys(m) ==>
      Lookup(r.0, k).value == NewMonitor(Lookup(r.0, k).value.id, k, probe(k))
      && next <= Lookup(r.0, k).value.id < r.1
    ensures forall i :: 0 <= i < |r.2| ==> r.2[i].AddMonitor?
    decreases |list|
  {
    if |list| == 0 then (m, next, [])
    else if list[0] in Keys(m) then
      AddNew(m, next, list[1..], probe)
    else
      var m1 := Insert(m, list[0], NewMonitor(next, list[0], probe(list[0])));
      var rest := AddNew(m1, next + 1, list[1..], probe);
      (rest.0, rest.1, [AddMonitor(list[0])] + rest.2)
  }

  /** The first loop announces each new path exactly once, however often
      the list names it, and no path already in the map. */
  lemma {:induction false} AddNewAnnounces(m: seq<Entry<Monitor>>, next: nat, list: seq<string>, probe: string -> MonitorProps)
    ensures forall p :: multiset(AddNew(m, next, list, probe).2)[AddMonitor(p)]
                        == if p in list && p !in Keys(m) then 1 else 0
    decreases |list|
  {
    if |list| == 0 {
    } else if list[0] in Keys(m) {
      AddNewAnnounces(m, next, list[1..], probe);
      assert forall p :: p in list <==> p == list[0] || p in list[1..];
    } else {
      var m1 := Insert(m, list[0], NewMonitor(next, list[0], probe(list[0])));
      AddNewAnnounces(m1, next + 1, list[1..], probe);
      assert forall p :: p in list <==> p == list[0] || p in list[1..];
    }
  }

  /** The first loop keeps the map sorted. */
  lemma {:induction false} AddNewSorted(m: seq<Entry<Monitor>>, next: nat, list: seq<string>, probe: string -> MonitorProps)
    requires Sorted(m)
    ensures Sorted(AddNew(m, next, list, probe).0)
    decreases |list|
  {
    if |list| == 0 {
    } else if list[0] in Keys(m) {
      AddNewSorted(m, next, list[1..], probe);
    } else {
      var m1 := Insert(m, list[0], NewMonitor(next, list[0], probe(list[0])));
      InsertSorted(m, list[0], NewMonitor(next, list[0], probe(list[0])));
      AddNewSorted(m1, next + 1, list[1..], probe);
    }
  }

  /** When every listed path is already a key the first loop does nothing. */
  lemma {:induction false} AddNewNothingNew(m: seq<Entry<Monitor>>, next: nat, list: seq<string>, probe: string -> MonitorProps)
    requires Listed(list) <= Keys(m)
    ensures AddNew(m, next, list, probe) == (m, next, [])
    decreases |list|
  {
    if |list| > 0 {
      AddNewNothingNew(m, next, list[1..], probe);
    }
  }

  /** The `removeMonitor` announcements of the second loop, in key order. */
  function Removals(m: seq<Entry<Monitor>>, keep: set<string>): (r: seq<ClientEvent>)
    ensures forall i :: 0 <= i < |r| ==> r[i].RemoveMonitor?
    ensures Keys(m) <= keep ==> r == []
  {
    if |m| == 0 then []
    else if m[0].key in keep then Removals(m[1..], keep)
    else [RemoveMonitor(m[0].key)] + Removals(m[1..], keep)
  }

  /** In a sorted map each dropped key is announced exactly once and no
      other key is. */
  lemma {:induction false} RemovalsOnce(m: seq<Entry<Monitor>>, keep: set<string>)
    requires Sorted(m)
    ensures forall p :: multiset(Removals(m, keep))[RemoveMonitor(p)]
                        == if p in Keys(m) && p !in keep then 1 else 0
  {
    if |m| > 0 {
      HeadKeyUnique(m);
      RemovalsOnce(m[1..], keep);
    }
  }

  /** Whether the monitor's last published status is STREAMING. */
  predicate IsStreaming(m: Monitor)
  {
    m.state == SinkStates.StreamingCode
  }

  /** The second loop's choice of current monitor: the last streaming one
      in key order, or none. */
  function LastStreaming(m: seq<Entry<Monitor>>): (r: Option<nat>)
    ensures r.None? <==> forall i :: 0 <= i < |m| ==> !IsStreaming(m[i].value)
    ensures r.Some? ==> r.value in Ids(m)
    ensures r.Some? ==>
      exists i :: 0 <= i < |m| && m[i].value.id == r.value && IsStreaming(m[i].value)
                  && forall j :: i < j < |m| ==> !IsStreaming(m[j].value)
  {
    if |m| == 0 then None
    else
      var rest := LastStreaming(m[1..]);
      assert forall i :: 0 < i < |m| ==> m[i] == m[1..][i - 1];
      if rest.Some? then rest
      else if IsStreaming(m[0].value) then Some(m[0].value.id)
      else None
  }

  /** `updateSinkList`: reconcile the map with a published `SinkList`,
      pick the current monitor, then re-evaluate the displayed state. */
  function UpdateSinkList(c: Client, list: seq<string>, probe: string -> MonitorProps): (r: Update)
    ensures r.client.warnings == c.warnings && r.client.devCheck == c.devCheck
    ensures r.client.enabled == c.enabled && r.client.listening == c.listening
    ensures r.client.state == Target(r.client)
    ensures r.client.cur == LastStreaming(r.client.monitors) && CurValid(r.client)
    ensures Keys(r.client.monitors) == Listed(list)
    ensures forall k :: k in Keys(c.monitors) && k in list ==> Lookup(r.client.monitors, k) == Lookup(c.monitors, k)
    ensures forall k :: k in list && k !in Keys(c.monitors) ==>
      Lookup(r.client.monitors, k).value == NewMonitor(Lookup(r.client.monitors, k).value.id, k, probe(k))
      && c.nextMonitor <= Lookup(r.client.monitors, k).value.id < r.client.nextMonitor
  {
    var added := AddNew(c.monitors, c.nextMonitor, list, probe);
    var kept := FilterKeys(added.0, Listed(list));
    var c1 := c.(monitors := kept, nextMonitor := added.1, cur := LastStreaming(kept));
    var checked := CheckState(c1);
    Update(checked.client, added.2 + Removals(added.0, Listed(list)) + checked.events)
  }

  /** Counting announcements of one kind in a log made of an `addMonitor`
      part, a `removeMonitor` part and a `stateChanged` part. */
  lemma CountByKind(adds: seq<ClientEvent>, rems: seq<ClientEvent>, rest: seq<ClientEvent>, p: string)
    requires forall i :: 0 <= i < |adds| ==> adds[i].AddMonitor?
    requires forall i :: 0 <= i < |rems| ==> rems[i].RemoveMonitor?
    requires forall i :: 0 <= i < |rest| ==> rest[i].StateChanged?
    ensures multiset(adds + rems + rest)[AddMonitor(p)] == multiset(adds)[AddMonitor(p)]
    ensures multiset(adds + rems + rest)[RemoveMonitor(p)] == multiset(rems)[RemoveMonitor(p)]
  {
    assert AddMonitor(p) !in rems && AddMonitor(p) !in rest;
    assert RemoveMonitor(p) !in adds && RemoveMonitor(p) !in rest;
  }

  /** `updateSinkList` keeps the map sorted. */
  lemma UpdateSinkListSorted(c: Client, list: seq<string>, probe: string -> MonitorProps)
    requires Sorted(c.monitors)
    ensures Sorted(UpdateSinkList(c, list, probe).client.monitors)
  {
    var added := AddNew(c.monitors, c.nextMonitor, list, probe);
    AddNewSorted(c.monitors, c.nextMonitor, list, probe);
    FilterKeysSorted(added.0, Listed(list));
  }

  /** Every added and every removed path is announced exactly once, and
      only the state is announced besides. */
  lemma UpdateSinkListAnnounces(c: Client, list: seq<string>, probe: string -> MonitorProps)
    requires Sorted(c.monitors)
    ensures forall p :: multiset(UpdateSinkList(c, list, probe).events)[AddMonitor(p)]
                        == if p in list && p !in Keys(c.monitors) then 1 else 0
    ensures forall p :: multiset(UpdateSinkList(c, list, probe).events)[RemoveMonitor(p)]
                        == if p in Keys(c.monitors) && p !in list then 1 else 0
  {
    var added := AddNew(c.monitors, c.nextMonitor, list, probe);
    var keep := Listed(list);
    AddNewSorted(c.monitors, c.nextMonitor, list, probe);
    AddNewAnnounces(c.monitors, c.nextMonitor, list, probe);
    RemovalsOnce(added.0, keep);
    var kept := FilterKeys(added.0, keep);
    var checked := CheckState(c.(monitors := kept, nextMonitor := added.1, cur := LastStreaming(kept)));
    forall p ensures multiset(added.2 + Removals(added.0, keep) + checked.events)[AddMonitor(p)]
                     == multiset(added.2)[AddMonitor(p)]
             ensures multiset(added.2 + Removals(added.0, keep) + checked.events)[RemoveMonitor(p)]
                     == multiset(Removals(added.0, keep))[RemoveMonitor(p)]
    {
      CountByKind(added.2, Removals(added.0, keep), checked.events, p);
    }
  }

  /** Publishing the same list twice is the same as publishing it once:
      no monitor is created or dropped, and the state stays. */
  lemma {:induction false} UpdateSinkListIdempotent(c: Client, list: seq<string>, probe: string -> MonitorProps)
    ensures var once := UpdateSinkList(c, list, probe);
            var twice := UpdateSinkList(once.client, list, probe);
            twice.client == once.client
            && forall e :: e in twice.events ==> e.StateChanged?
  {
    var once := UpdateSinkList(c, list, probe).client;
    var m := once.monitors;
    var keep := Listed(list);
    AddNewNothingNew(m, once.nextMonitor, list, probe);
    assert FilterKeys(m, keep) == m;
    assert Removals(m, keep) == [];
    assert once.(monitors := m, nextMonitor := once.nextMonitor, cur := LastStreaming(m)) == once;
    CheckStateSettles(once);
    assert UpdateSinkList(once, list, probe).events == CheckState(once).events;
  }

  /** `updateWarningInfo`: store the missing capabilities and re-evaluate. */
  function UpdateWarningInfo(c: Client, warnings: seq<string>): (r: Update)
    ensures r.client.warnings == warnings
    ensures r.client == c.(warnings := warnings, state := r.client.state)
    ensures r.client.state == Target(r.client)
    ensures |warnings| > 0 && c.devCheck && c.enabled ==> r.client.state == WarningInfo
  {
    CheckState(c.(warnings := warnings))
  }

  /** `handleMonitorStateCanged`, run for the monitor `sender` whose state
      just changed to `code`. */
  function HandleMonitorStateChanged(c: Client, sender: nat, code: nat): (r: Update)
    ensures (code == SinkStates.DisconnectedCode || code == SinkStates.ErrorCode)
        ==> r.client.cur == (if c.cur == Some(sender) then None else c.cur)
    ensures code == SinkStates.StreamingCode ==> r.client.cur == Some(sender)
    ensures code !in {SinkStates.DisconnectedCode, SinkStates.ErrorCode, SinkStates.StreamingCode}
        ==> r.client.cur == c.cur
    ensures r.client == c.(cur := r.client.cur, state := Target(r.client))
  {
    var cur :=
      if code == SinkStates.DisconnectedCode || code == SinkStates.ErrorCode then
        (if c.cur == Some(sender) then None else c.cur)
      else if code == SinkStates.StreamingCode then Some(sender)
      else c.cur;
    CheckState(c.(cur := cur))
  }

  /** Storing a monitor under its own key with the same identity keeps the
      set of identities. */
  lemma {:induction false} ReplaceKeepsIds(m: seq<Entry<Monitor>>, k: string, v: Monitor)
    requires Lookup(m, k).Some? && Lookup(m, k).value.id == v.id
    ensures Ids(Replace(m, k, v)) == Ids(m)
    ensures v.id in Ids(m)
  {
    if m[0].key != k {
      ReplaceKeepsIds(m[1..], k, v);
      assert Replace(m, k, v)[1..] == Replace(m[1..], k, v);
    }
  }

  /** A `Status` broadcast for the monitor at `path`. A path no longer in
      the map is ignored (its monitor is disconnected from the model). */
  function MonitorStatus(c: Client, path: string, v: Option<int>): (r: Update)
    ensures Lookup(c.monitors, path).None? ==> r == Update(c, [])
    ensures Lookup(c.monitors, path).Some? && !MonitorCheckState(Lookup(c.monitors, path).value, v).1
        ==> r == Update(c, [])
    ensures Lookup(c.monitors, path).Some? && MonitorCheckState(Lookup(c.monitors, path).value, v).1 ==>
      Lookup(r.client.monitors, path) == Some(MonitorCheckState(Lookup(c.monitors, path).value, v).0)
      && r.client.state == Target(r.client)
    ensures Keys(r.client.monitors) == Keys(c.monitors)
    ensures forall k :: k != path ==> Lookup(r.client.monitors, k) == Lookup(c.monitors, k)
  {
    match Lookup(c.monitors, path)
    case None => Update(c, [])
    case Some(mon) =>
      var (mon2, changed) := MonitorCheckState(mon, v);
      if !changed then Update(c, [])
      else HandleMonitorStateChanged(c.(monitors := Replace(c.monitors, path, mon2)), mon.id, mon2.state)
  }

  /** A status change keeps the map sorted and the current pointer valid,
      and the monitor that starts streaming becomes current. */
  lemma MonitorStatusKeepsShape(c: Client, path: string, v: Option<int>)
    requires Sorted(c.monitors) && CurValid(c)
    ensures Sorted(MonitorStatus(c, path, v).client.monitors) && CurValid(MonitorStatus(c, path, v).client)
    ensures Lookup(c.monitors, path).Some? && v.Some? && Wrap32(v.value) == SinkStates.StreamingCode
            && Lookup(c.monitors, path).value.state != SinkStates.StreamingCode
        ==> MonitorStatus(c, path, v).client.cur == Some(Lookup(c.monitors, path).value.id)
  {
    match Lookup(c.monitors, path)
    case None =>
    case Some(mon) =>
      var (mon2, changed) := MonitorCheckState(mon, v);
      if changed {
        ReplaceKeepsIds(c.monitors, path, mon2);
      }
  }

  /** The answers of the wireless probe: NetworkManager's `DeviceType`
      read for one device (`None` when invalid) and the reply of the
      `IsDeviceEnabled` call for it (`None` when the call failed). */
  datatype NetDevice = NetDevice(deviceType: Option<int>, enabledReply: Option<bool>)

  predicate IsWireless(d: NetDevice)
  {
    d.deviceType.Some? && Wrap32(d.deviceType.value) == WifiDeviceType
  }

  predicate IsEnabledWireless(d: NetDevice)
  {
    IsWireless(d) && d.enabledReply == Some(true)
  }

  /** The device loop of `checkWirelessDev`, from device `devices[0]` on,
      with `seen` the wireless flag so far: it stops at the first enabled
      Wi-Fi device. The result is (wireless device seen, wireless enabled). */
  function ProbeWireless(devices: seq<NetDevice>, seen: bool): (r: (bool, bool))
    ensures r.0 <==> seen || exists i :: 0 <= i < |devices| && IsWireless(devices[i])
    ensures r.1 <==> exists i :: 0 <= i < |devices| && IsEnabledWireless(devices[i])
    ensures r.1 ==> r.0
  {
    if |devices| == 0 then (seen, false)
    else
      var rest := ProbeWireless(devices[1..], seen || IsWireless(devices[0]));
      assert forall i :: 0 < i < |devices| ==> devices[i] == devices[1..][i - 1];
      if IsEnabledWireless(devices[0]) then (true, true)
      else rest
  }

  /** `checkWirelessDev`: both flags recomputed from scratch, then the
      state re-evaluated. */
  function WirelessChanged(c: Client, devices: seq<NetDevice>): (r: Update)
    ensures r.client.devCheck <==> exists i :: 0 <= i < |devices| && IsWireless(devices[i])
    ensures r.client.enabled <==> exists i :: 0 <= i < |devices| && IsEnabledWireless(devices[i])
    ensures r.client == c.(devCheck := r.client.devCheck, enabled := r.client.enabled, state := Target(r.client))
  {
    var (devCheck, enabled) := ProbeWireless(devices, false);
    CheckState(c.(devCheck := devCheck, enabled := enabled))
  }

  /** `initData`: read `SinkList`, then `MissingCapabilities`, stopping at
      the first invalid read; only when both succeed are the change
      handlers connected. */
  function InitData(c: Client, sinkRead: Option<seq<string>>, missingRead: Option<seq<string>>,
                    probe: string -> MonitorProps): (r: Update)
    ensures sinkRead.None? ==> r == Update(c, [])
    ensures r.client.listening <==> c.listening || (sinkRead.Some? && missingRead.Some?)
    ensures sinkRead.Some? ==> r.client.state == Target(r.client) && CurValid(r.client)
    ensures sinkRead.Some? && missingRead.Some? ==> r.client.warnings == missingRead.value
  {
    if sinkRead.None? then Update(c, [])
    else
      var u := UpdateSinkList(c, sinkRead.value, probe);
      if missingRead.None? then u
      else
        var w := UpdateWarningInfo(u.client, missingRead.value);
        Update(w.client.(listening := true), u.events + w.events)
  }

  /** The removal loop of `resetNetworkDisplayData`: every monitor leaves
      the map, announced with `removeMonitor` in key order. */
  function ClearMonitors(c: Client): (r: Update)
    ensures r.client == c.(monitors := [])
    ensures forall i :: 0 <= i < |r.events| ==> r.events[i].RemoveMonitor?
  {
    Update(c.(monitors := []), Removals(c.monitors, {}))
  }

  /** `onDBusNameOwnerChanged` as written: when the daemon's name loses its
      owner the map is emptied and re-read, but `m_curConnected` keeps
      pointing at the monitor it pointed at. */
  function NameOwnerChangedAsWritten(c: Client, name: string, newOwner: string,
                                     sinkRead: Option<seq<string>>, missingRead: Option<seq<string>>,
                                     probe: string -> MonitorProps): (r: Update)
    ensures !(name == ServiceName && newOwner == "") ==> r == Update(c, [])
    ensures name == ServiceName && newOwner == "" && sinkRead.None? ==>
      r.client == c.(monitors := [], state := Target(r.client))
  {
    if !(name == ServiceName && newOwner == "") then Update(c, [])
    else
      var cleared := ClearMonitors(c);
      var init := InitData(cleared.client, sinkRead, missingRead, probe);
      var checked := CheckState(init.client);
      Update(checked.client, cleared.events + init.events + checked.events)
  }

  /** If the daemon vanishes while a monitor is current and the list cannot
      be re-read, the written reset leaves the model showing Connected with
      an empty map, and the current pointer refers to a removed monitor. */
  lemma ResetLeavesStaleCurrent(c: Client, missingRead: Option<seq<string>>, probe: string -> MonitorProps)
    requires c.cur.Some? && c.devCheck && c.enabled && |c.warnings| == 0
    ensures var n := NameOwnerChangedAsWritten(c, ServiceName, "", None, missingRead, probe).client;
            n.monitors == [] && n.state == Connected && !CurValid(n)
            && CurMonitorName(n).Stale? && DisconnMonitor(n).Stale?
  {
  }

  /** `onDBusNameOwnerChanged` with the current pointer cleared together
      with the map it points into. */
  function NameOwnerChanged(c: Client, name: string, newOwner: string,
                            sinkRead: Option<seq<string>>, missingRead: Option<seq<string>>,
                            probe: string -> MonitorProps): (r: Update)
    ensures !(name == ServiceName && newOwner == "") ==> r == Update(c, [])
    ensures name == ServiceName && newOwner == "" ==>
      r.client.state == Target(r.client) && CurValid(r.client)
    ensures name == ServiceName && newOwner == "" && sinkRead.None? ==>
      r.client == c.(monitors := [], cur := None, state := Target(r.client))
  {
    if !(name == ServiceName && newOwner == "") then Update(c, [])
    else
      var cleared := ClearMonitors(c);
      var init := InitData(cleared.client.(cur := None), sinkRead, missingRead, probe);
      var checked := CheckState(init.client);
      Update(checked.client, cleared.events + init.events + checked.events)
  }

  /** When the daemon vanishes, each monitor the map held is announced
      removed exactly once, and no other path is. */
  lemma NameOwnerChangedRemovesEach(c: Client, sinkRead: Option<seq<string>>, missingRead: Option<seq<string>>,
                                    probe: string -> MonitorProps)
    requires Sorted(c.monitors)
    ensures forall p :: multiset(NameOwnerChanged(c, ServiceName, "", sinkRead, missingRead, probe).events)[RemoveMonitor(p)]
                        == if p in Keys(c.monitors) then 1 else 0
  {
    RemovalsOnce(c.monitors, {});
    var cleared := ClearMonitors(c);
    var init := InitData(cleared.client.(cur := None), sinkRead, missingRead, probe);
    InitDataRemovesNothing(cleared.client.(cur := None), sinkRead, missingRead, probe);
    var checked := CheckState(init.client);
    assert NameOwnerChanged(c, ServiceName, "", sinkRead, missingRead, probe).events
        == cleared.events + init.events + checked.events;
    forall p ensures multiset(checked.events)[RemoveMonitor(p)] == 0 {
      assert RemoveMonitor(p) !in checked.events;
    }
  }

  /** Re-reading the list into an empty map announces no removal. */
  lemma InitDataRemovesNothing(c: Client, sinkRead: Option<seq<string>>, missingRead: Option<seq<string>>,
                               probe: string -> MonitorProps)
    requires c.monitors == []
    ensures forall p :: multiset(InitData(c, sinkRead, missingRead, probe).events)[RemoveMonitor(p)] == 0
  {
    if sinkRead.Some? {
      var u := UpdateSinkList(c, sinkRead.value, probe);
      UpdateSinkListAnnounces(c, sinkRead.value, probe);
      assert forall p :: multiset(u.events)[RemoveMonitor(p)] == 0;
      if missingRead.Some? {
        var w := UpdateWarningInfo(u.client, missingRead.value);
        forall p ensures multiset(w.events)[RemoveMonitor(p)] == 0 {
          assert RemoveMonitor(p) !in w.events;
        }
        assert InitData(c, sinkRead, missingRead, probe).events == u.events + w.events;
      }
    }
  }

  /** The initial field values, before the constructor's body runs. */
  const Fresh: Client := Client([], NoMonitor, None, [], false, false, false, 0)

  /** The constructor: probe the wireless devices, then `initData`. */
  function Init(devices: seq<NetDevice>, sinkRead: Option<seq<string>>, missingRead: Option<seq<string>>,
                probe: string -> MonitorProps): (r: Update)
    ensures r.client.state == Target(r.client) && CurValid(r.client)
    ensures r.client.listening <==> sinkRead.Some? && missingRead.Some?
    ensures sinkRead.None? ==> r.client.monitors == [] && r.client.cur.None?
    ensures |r.events| > 0 && r.events[0] == StateChanged(Target(r.client)) <== sinkRead.None? && !r.client.devCheck
  {
    var w := WirelessChanged(Fresh, devices);
    var i := InitData(w.client, sinkRead, missingRead, probe);
    Update(i.client, w.events + i.events)
  }

  /** What reaches the model after construction. `SinkList` and
      `MissingCapabilities` changes are handled only once their handlers
      are connected. */
  datatype ClientInput =
    | SinkListChanged(paths: seq<string>)
    | MissingCapabilitiesChanged(items: seq<string>)
    | MonitorStatusChanged(path: string, status: Option<int>)
    | WirelessDevicesChanged(devices: seq<NetDevice>)
    | OwnerChanged(name: string, newOwner: string, sinkRead: Option<seq<string>>, missingRead: Option<seq<string>>)

  function Step(c: Client, i: ClientInput, probe: string -> MonitorProps): (r: Update)
  {
    match i
    case SinkListChanged(paths) =>
      if c.listening then UpdateSinkList(c, paths, probe) else Update(c, [])
    case MissingCapabilitiesChanged(items) =>
      if c.listening then UpdateWarningInfo(c, items) else Update(c, [])
    case MonitorStatusChanged(path, status) => MonitorStatus(c, path, status)
    case WirelessDevicesChanged(devices) => WirelessChanged(c, devices)
    case OwnerChanged(name, newOwner, sinkRead, missingRead) =>
      NameOwnerChanged(c, name, newOwner, sinkRead, missingRead, probe)
  }

  /** What holds of the model between events: the map is sorted, the
      current pointer refers into it, `enabled` implies a wireless device,
      and the displayed state is the one the precedence picks. */
  ghost predicate ClientInv(c: Client)
  {
    Sorted(c.monitors) && CurValid(c) && (c.enabled ==> c.devCheck) && c.state == Target(c)
  }

  lemma InitInv(devices: seq<NetDevice>, sinkRead: Option<seq<string>>, missingRead: Option<seq<string>>,
                probe: string -> MonitorProps)
    ensures ClientInv(Init(devices, sinkRead, missingRead, probe).client)
  {
    if sinkRead.Some? {
      UpdateSinkListSorted(WirelessChanged(Fresh, devices).client, sinkRead.value, probe);
    }
  }

  lemma SinkListKeepsInv(c: Client, paths: seq<string>, probe: string -> MonitorProps)
    requires ClientInv(c)
    ensures ClientInv(Step(c, SinkListChanged(paths), probe).client)
  {
    if c.listening {
      UpdateSinkListSorted(c, paths, probe);
    }
  }

  lemma MonitorStatusKeepsInv(c: Client, path: string, status: Option<int>, probe: string -> MonitorProps)
    requires ClientInv(c)
    ensures ClientInv(Step(c, MonitorStatusChanged(path, status), probe).client)
  {
    MonitorStatusKeepsShape(c, path, status);
  }

  lemma OwnerChangedKeepsInv(c: Client, name: string, newOwner: string, sinkRead: Option<seq<string>>,
                             missingRead: Option<seq<string>>, probe: string -> MonitorProps)
    requires ClientInv(c)
    ensures ClientInv(Step(c, OwnerChanged(name, newOwner, sinkRead, missingRead), probe).client)
  {
    if name == ServiceName && newOwner == "" && sinkRead.Some? {
      UpdateSinkListSorted(ClearMonitors(c).client.(cur := None), sinkRead.value, probe);
    }
  }

  /** Every input keeps the invariant, so the displayed state always
      matches the inputs and the current monitor can always be named. */
  lemma StepKeepsInv(c: Client, i: ClientInput, probe: string -> MonitorProps)
    requires ClientInv(c)
    ensures ClientInv(Step(c, i, probe).client)
    ensures CurMonitorName(Step(c, i, probe).client).Fine?
    ensures DisconnMonitor(Step(c, i, probe).client).Fine?
  {
    match i
    case SinkListChanged(paths) => SinkListKeepsInv(c, paths, probe);
    case MissingCapabilitiesChanged(items) =>
    case MonitorStatusChanged(path, status) => MonitorStatusKeepsInv(c, path, status, probe);
    case WirelessDevicesChanged(devices) =>
    case OwnerChanged(name, newOwner, sinkRead, missingRead) =>
      OwnerChangedKeepsInv(c, name, newOwner, sinkRead, missingRead, probe);
  }
}
