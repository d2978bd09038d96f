# deepin-network-displays, modelled in Dafny

This project models the core of deepin-network-displays, a daemon that finds
wireless display receivers ("sinks"), merges the sightings different
transports make of one receiver into a single device, casts the screen to at
most one receiver at a time, and publishes all of this on the session bus as
`com.deepin.Cooperation.NetworkDisplay`. The model also covers the Qt view-model
that the dock and control-center plugins build on that bus interface.

The model is a set of pure transition functions over immutable state. Every
signal the program emits is appended to an event log. The bus, timers, clock,
GStreamer, the screencast portal, PulseAudio and NetworkManager become inputs
or parameters.

| file | module | what it models |
|---|---|---|
| `common.dfy` | `Common` | `Option`, identities, bus values, the emitted signals, D-Bus error names, 32-bit unsigned wrap-around |
| `sink_state.dfy` | `SinkStates` | the `NdSinkState` codes published as `Status` |
| `meta_provider.dfy` | `MetaProvider` | the discovery aggregator (`NdMetaProvider`) |
| `dbus_manager.dfy` | `DbusManager` | the session manager (`NdDbusManager`) |
| `dbus_sink.dfy` | `DbusSink` | one exported device (`NdDbusSink`) and its connect/cancel state machine |
| `daemon.dfy` | `Daemon` | the three wired together, with the process-global stream slot |
| `lex_order.dfy` | `LexOrder` | `QString` ordering, and a sorted association list standing in for `QMap` |
| `casting_model.dfy` | `CastingModel` | the client view-model (`WirelessCastingModel`, `Monitor`) |

The daemon-wide invariant is `Daemon.Inv`. It says:

- the aggregator is well formed: no empty meta sink, and distinct identities;
- each device stands for a distinct meta sink that the aggregator still lists;
- at most one stream runs, and it is the one in `stream_sink`;
- `NotSupportP2P` is listed at most once, and never while a provider is registered;
- the process has not aborted, so every device is exported on the bus at an object path of its own.

`Daemon.StepKeepsInv` proves that every input preserves it. This holds with
`DbusSink.StartStream` corrected; see "Findings".

The client-side invariant is `CastingModel.ClientInv`. It says:

- the monitor map is sorted by key;
- the current monitor is one of the map's monitors;
- the widget state is the intended precedence.

`CastingModel.StepKeepsInv` proves that every input preserves it, with the
corrected `checkState` and reset.

### Behaviour worth knowing

- `Enable(false)` quits the process (`DbusManager.DisableQuits`), so no later `Enable(true)` reaches it.
- A sink reported twice is appended to its meta sink twice, so a double sighting survives a single removal (`MetaProvider.DuplicateSightingOutlivesRemoval`).
- Of a device's properties, only `Name` is re-read from its meta sink. `Status` follows the stream the device started, and `Strength` never changes after construction. Whatever changes is broadcast, and the last broadcast of each property is what its getter answers (`DbusSink.StatusPublished`, `DbusSink.NamePublished`, `DbusManager.CallsPublished`).
- Devices are kept distinct by meta-sink identity, not by object path. Exporting a device whose path is already taken fails the registration assertion and aborts the process. Two hardware addresses that differ only in `:` versus `_` map to one path (`DbusSink.ObjectPathCollides`), so the second sighting aborts (`DbusManager.CollidingAddressesAbort`). An address with any character that an object path may not hold, a hyphen say, aborts too (`DbusManager.MalformedAddressAborts`); MAC addresses in the usual notation never do (`DbusSink.MacAddressPathValid`). A sighting that arrives before the bus is acquired aborts as well (`DbusManager.SightingBeforeBusAborts`, `Daemon.EarlySightingAborts`).
- A device's stream-state handler stays connected until that device's own real cancel runs while its stream is in the slot. `Cancel` on another device is accepted whenever a stream exists, and its unload stops the owner's stream; the owner still hears the stream end and tears itself down (`DbusSink.ForeignCancelLeavesOwnerListening`, `Daemon.StreamReportRouting`). A stream's report that it stopped is taken to arrive as a later input; see `DbusSink.RealCancel` under "Left out".
- The `Connect` guard does not keep at most one stream; see finding 1.

## Model

| member | source | states |
|---|---|---|
| SinkStates.FromCode | plugins/common/wirelesscastingmodel.h:21-29 | a code decodes to the state whose enumerator has that value, and to nothing when no enumerator has it |
| SinkStates.CodeRoundTrip | plugins/common/wirelesscastingmodel.h:21-29 | decoding a state's code gives back that state |
| SinkStates.CodesFollowProgress | plugins/common/wirelesscastingmodel.h:21-29 | codes strictly increase in the order a cast progresses, are distinct, and Error is the largest |
| Common.Wrap32 | src/nd-dbus-sink.c:819 | an int published as uint32 keeps non-negative values below 2^32 and gains 2^32 when negative |
| MetaProvider.Init | src/nd-meta-provider.c:240-247 | a new aggregator has discovery on, no meta sinks and no providers |
| MetaProvider.InitValid | src/nd-meta-provider.c:240-247 | the new aggregator satisfies the aggregator invariant |
| MetaProvider.Matching | src/nd-meta-provider.c:63-65 | collects every meta sink that matches the new sink, and only those |
| MetaProvider.MatchingFirst | src/nd-meta-provider.c:70-73 | the survivor of a merge is the first matching meta sink in list order |
| MetaProvider.FastDrainIsPermutation | src/nd-meta-provider.c:75-89 | the order in which `g_ptr_array_remove_index_fast(…, 0)` hands out the other matches is a permutation of them |
| MetaProvider.IndexHolding | src/nd-meta-provider.c:130-135 | finds the first meta sink holding the sink, or reports that none does |
| MetaProvider.AddSink | src/nd-meta-provider.c:52-101 | with no match, a one-sink meta sink is appended and announced once; with a match, nothing is announced as added; discover and providers are untouched |
| MetaProvider.AddSinkValid | src/nd-meta-provider.c:52-101 | adding a sighting keeps the invariant and adds exactly that sink to the multiset of all constituents |
| MetaProvider.AddSinkMerges | src/nd-meta-provider.c:70-92 | the non-first matches leave the list; the survivor stays and ends up holding its own sinks, all of theirs, and the new sink |
| MetaProvider.AddSinkMergeEvents | src/nd-meta-provider.c:75-89 | a merge emits one `sink-removed` per non-first match and nothing else |
| MetaProvider.MergeLoopSinks | src/nd-meta-provider.c:75-89 | draining the other matches into the survivor loses and duplicates no constituent |
| MetaProvider.MergeLoopIds | src/nd-meta-provider.c:75-89 | after the drain, exactly the drained identities are gone and identities stay distinct |
| MetaProvider.MergeLoopNoEmpty | src/nd-meta-provider.c:75-89 | the drain leaves no empty meta sink in the list |
| MetaProvider.MergeLoopSurvivor | src/nd-meta-provider.c:84-88 | the survivor gains every constituent of every drained meta sink |
| MetaProvider.RemoveSink | src/nd-meta-provider.c:104-154 | a sink no meta sink holds is an assertion failure, and otherwise the removal succeeds; discover, providers and identities are untouched |
| MetaProvider.RemoveSinkShape | src/nd-meta-provider.c:144-153 | emptying a meta sink deletes it and emits `sink-removed` once; otherwise one occurrence is removed in place and nothing is emitted |
| MetaProvider.RemoveSinkConserves | src/nd-meta-provider.c:144-153 | a removal takes exactly one occurrence of the sink out of the multiset of all constituents |
| MetaProvider.RemoveSinkValid | src/nd-meta-provider.c:144-153 | a successful removal keeps the aggregator invariant, so no empty meta sink survives |
| MetaProvider.RemoveSinkOutcome | src/nd-meta-provider.c:130-153 | the first meta sink holding the sink is the one changed; it disappears with one event iff the sink was its only constituent |
| MetaProvider.SetDiscover | src/nd-meta-provider.c:190-196 | stores the flag and forwards the same value to every provider in order; meta sinks untouched |
| MetaProvider.AddAll | src/nd-meta-provider.c:332-338 | replaying a provider's sinks leaves discover and providers untouched |
| MetaProvider.AddAllValid | src/nd-meta-provider.c:332-338 | replaying a provider's sinks keeps the invariant and adds exactly those sinks |
| MetaProvider.RemoveAll | src/nd-meta-provider.c:362-368 | replaying removals leaves discover and providers untouched |
| MetaProvider.RemoveAllValid | src/nd-meta-provider.c:362-368 | successful replayed removals keep the invariant and take out exactly those sinks |
| MetaProvider.AddProvider | src/nd-meta-provider.c:304-341 | fails iff the provider is already registered; otherwise appends it, first syncs discover to it, and last notifies has-providers as true |
| MetaProvider.Unregister | src/nd-meta-provider.c:370 | removing a registered provider shortens the list by one and keeps every other provider |
| MetaProvider.UnregisterDistinct | src/nd-meta-provider.c:370 | with no duplicate registrations, the removed provider is gone afterwards |
| MetaProvider.RemoveProvider | src/nd-meta-provider.c:351-373 | fails when the provider is not registered; otherwise unregisters it and ends by notifying has-providers with the new count |
| MetaProvider.ProvidersValid | src/nd-meta-provider.c:304-373 | adding and removing providers keep the invariant; after an add has-providers reads true, and after a remove the provider is gone |
| MetaProvider.GetSinks | src/nd-meta-provider.c:260-270 | lists every meta sink in reverse list order (`g_list_prepend`) |
| MetaProvider.DuplicateSightingOutlivesRemoval | src/nd-meta-provider.c:91-92 | when every withdrawal succeeds, a sink reported more often than withdrawn is still held afterwards |
| MetaProvider.AddSinkHeard | src/nd-meta-provider.c:52-101 | a listener applying the added/removed signals of a sighting ends with exactly the aggregator's identities |
| MetaProvider.RemoveSinkHeard | src/nd-meta-provider.c:144-153 | likewise for a removal |
| MetaProvider.AddAllHeard | src/nd-meta-provider.c:332-338 | likewise for a provider's replayed sinks |
| MetaProvider.RemoveAllHeard | src/nd-meta-provider.c:362-368 | likewise for a provider's replayed removals |
| MetaProvider.OperationsAnnounceChanges | src/nd-meta-provider.c:304-373 | setting discover, adding and removing providers announce every identity change and nothing else |
| DbusManager.Init | src/nd-dbus-manager.c:109-145 | a new manager has discover on, no devices, no bus yet, the busy time set to now, and `NoVideoEncoder` listed iff the codec probe fails |
| DbusManager.OnHasProviders | src/nd-dbus-manager.c:149-162 | has-providers false appends `NotSupportP2P`; true removes its first occurrence |
| DbusManager.AddMissing | src/nd-dbus-manager.c:509-515 | appends the capability without a duplicate check and broadcasts the new list |
| DbusManager.DeleteMissing | src/nd-dbus-manager.c:518-533 | removes only the first equal entry and broadcasts then; an absent capability changes and emits nothing |
| DbusManager.AddThenDeleteMissing | src/nd-dbus-manager.c:509-533 | deleting what was just added restores the multiset of capabilities, and the whole state when the capability was absent |
| DbusManager.NotSupportP2PAccumulates | src/nd-dbus-manager.c:149-162 | two has-providers=false notifications list `NotSupportP2P` twice, and one true leaves it listed |
| DbusManager.BusAcquired | src/nd-dbus-manager.c:621-641 | acquiring the bus only records the connection |
| DbusManager.Find | src/nd-dbus-manager.c:178-182 | finds the first device built for the meta sink (identity, not address), or none iff no device was |
| DbusManager.SinkAdded | src/nd-dbus-manager.c:172-206 | an already-exported meta sink, or discover off, changes nothing; otherwise, with no bus, with a path that is not a valid D-Bus object path, or with the path already exported, the process aborts (the registration assertion at src/nd-dbus-sink.c:735), and else exactly one device is appended and `SinkList` broadcast |
| DbusManager.SinkAddedExports | src/nd-dbus-sink.c:714-737 | an addition that does not abort keeps every device on the bus at a distinct object path |
| DbusManager.SightingBeforeBusAborts | src/nd-dbus-manager.c:197-203 | a new sighting before the bus is acquired aborts the process and adds no device |
| DbusManager.CollidingAddressesAbort | src/nd-dbus-sink.c:720-735 | after `aa:bb` is exported, a second meta sink with address `aa_bb` aborts the process |
| DbusManager.TakenPathAborts | src/nd-dbus-sink.c:727-735 | a new meta sink whose path some device already holds aborts the process and adds nothing |
| DbusManager.MalformedAddressAborts | src/nd-dbus-sink.c:720-735 | a new meta sink with address `aa-bb` aborts the process, since its path is not a valid object path |
| DbusManager.SinkAddedIdempotent | src/nd-dbus-manager.c:178-189 | unless the first `sink-added` aborted, a second one for the same meta sink changes and emits nothing |
| DbusManager.SinkAddedMetas | src/nd-dbus-manager.c:172-206 | the exported meta sinks gain this one iff discover is on and the export can succeed, and stay distinct |
| DbusManager.SinkRemoved | src/nd-dbus-manager.c:209-234 | removes the one device for the meta sink and broadcasts `SinkList`; an unknown meta sink changes and emits nothing |
| DbusManager.SinkRemovedMetas | src/nd-dbus-manager.c:209-234 | afterwards exactly that meta sink is no longer exported |
| DbusManager.SinkRemovedExports | src/nd-dbus-manager.c:209-234 | a removal keeps the remaining devices at distinct object paths |
| DbusManager.AddThenRemoveRestores | src/nd-dbus-manager.c:172-234 | the addition aborts iff the process had aborted or the export cannot succeed; when it can, removing the meta sink again restores the manager |
| DbusManager.SinkList | src/nd-dbus-manager.c:451-465 | the published list is the prefix plus each device's delimited address, in export order |
| DbusManager.Replay | src/nd-dbus-manager.c:411-425 | `Enable(true)`'s replay only appends devices and never quits |
| DbusManager.ReplayCovers | src/nd-dbus-manager.c:411-425 | the replay exports only earlier and replayed meta sinks, each once; unless an export aborted the process, every replayed meta sink is exported |
| DbusManager.ReplayExports | src/nd-dbus-manager.c:411-425 | a replay that does not abort keeps every device at a distinct object path |
| DbusManager.FreeSinkList | src/nd-dbus-manager.c:297-310 | empties the device list and broadcasts an empty `SinkList` |
| DbusManager.Quit | src/nd-dbus-manager.c:313-319 | quitting empties the list first and quits the main loop last, once |
| DbusManager.MethodCall | src/nd-dbus-manager.c:366-440 | every call refreshes the busy time; Refresh fails iff discover is off; Enable without `(b)` is InvalidArgs with no change; other names are UnknownMethod; the loop quits iff the call is `Enable(false)` |
| DbusManager.Enable | src/nd-dbus-manager.c:406-429 | `Enabled` is broadcast first; true replays without quitting; false withdraws every device and quits last |
| DbusManager.DisableQuits | src/nd-dbus-manager.c:426-429 | after `Enable(false)` the list is empty, the loop has quit, and later `sink-added` signals are ignored |
| DbusManager.GetProperty | src/nd-dbus-manager.c:574-599 | answers `SinkList`, `Enabled` and `MissingCapabilities` from the state, and nothing for any other name; the lemmas below tie each answer to the broadcasts |
| DbusManager.InSyncCompose | src/nd-dbus-manager.c:536-545 | if two steps each broadcast every property they change, with the getter's value last, so does the two in a row |
| DbusManager.MissingPublished | src/nd-dbus-manager.c:509-533 | adding or deleting a missing capability, and a has-providers notice, broadcast `MissingCapabilities` whenever it changes on the bus, and the last value broadcast is the getter's |
| DbusManager.DevicesPublished | src/nd-dbus-manager.c:172-234 | a sighting and a removal broadcast `SinkList` whenever it changes on the bus, and the last value broadcast is the getter's |
| DbusManager.QuitPublished | src/nd-dbus-manager.c:297-319 | quitting, directly or from the idle check, broadcasts (on the bus) the emptied `SinkList` that the getter then answers |
| DbusManager.ReplayPublished | src/nd-dbus-manager.c:411-425 | the `Enable(true)` replay leaves the last broadcast of each property equal to the getter's answer |
| DbusManager.EnablePublished | src/nd-dbus-manager.c:406-429 | on the bus, `Enable` broadcasts `Enabled` and every device change, each property's last broadcast being the getter's answer |
| DbusManager.CallsPublished | src/nd-dbus-manager.c:366-440 | after any method call, each property's last broadcast equals the getter's answer, and on the bus every property that changed was broadcast; before the bus is acquired nothing is broadcast |
| DbusManager.IdleCheckQuitsIff | src/nd-dbus-manager.c:255-277 | the check quits iff every device is Disconnected and more than 180 s have passed since the last call; quitting withdraws every device |
| DbusManager.CallPostponesIdleQuit | src/nd-dbus-manager.c:380 | no idle check within 180 s of any method call, even a failed one, quits |
| DbusSink.Delimit | src/nd-dbus-sink.c:720 | `g_strdelimit` replaces every `:` by `_` and keeps every other character |
| DbusSink.ObjectPathShape | src/nd-dbus-sink.c:720 | a device path is the sink prefix followed by the address with no `:` left |
| DbusSink.ObjectPathInjective | src/nd-dbus-sink.c:720 | addresses without `_` map to distinct paths |
| DbusSink.ObjectPathCollides | src/nd-dbus-sink.c:720 | `aa:bb` and `aa_bb` get the same path |
| DbusSink.ObjectPathValidIff | src/nd-dbus-sink.c:720 | a device's path is a valid D-Bus object path exactly when its delimited address has only ASCII letters, digits, `_` and single, non-trailing `/` |
| DbusSink.MacAddressPathValid | src/nd-dbus-sink.c:720 | an address of hex digits and colons always gives a valid object path |
| DbusSink.HyphenatedAddressPathInvalid | src/nd-dbus-sink.c:720 | the address `aa-bb` gives an invalid object path |
| DbusSink.NewDevice | src/nd-dbus-sink.c:188-212 | a new device copies address, name, strength and state from its meta sink, with nothing running |
| DbusSink.HandleCancel | src/nd-dbus-sink.c:562-566 | a teardown requests one unload and arms one 25 s fallback timer, and changes nothing else |
| DbusSink.RealCancel | src/nd-dbus-sink.c:529-546 | the slot is emptied; whichever stream it held is stopped and discovery re-enabled only then; the device stops listening to stream states only when the slot held its own stream; pending init is cancelled; the cancel callback runs last |
| DbusSink.ForeignCancelLeavesOwnerListening | src/nd-dbus-sink.c:529-541 | Cancel on a device that does not own the running stream is accepted, its unload stops the owner's stream, and the owner keeps listening, so a Disconnected report still tears it down |
| DbusSink.UnloadDone | src/nd-dbus-sink.c:550-557 | an awaited unload runs the real cancel and removes the stored fallback timer; one not awaited changes nothing |
| DbusSink.QuitTimeout | src/nd-dbus-sink.c:559-566 | a pending fallback timer runs the real cancel once and is forgotten; none pending changes nothing |
| DbusSink.StreamStateChanged | src/nd-dbus-sink.c:673-701 | Status is stored and published first; Disconnected or Error tears down and notifies "error"; Streaming notifies "streaming"; other states do nothing more |
| DbusSink.StartStreamAsWritten | src/nd-dbus-sink.c:372-420 | with neither portal nor x11 nothing happens; a failed start empties the slot; otherwise the slot takes this device's stream, its state is evaluated, and discovery is switched off last |
| DbusSink.StartStream | src/nd-dbus-sink.c:372-420 | as above, except that nothing happens while another stream occupies the slot |
| DbusSink.StartStreamKeepsSingleStream | src/nd-dbus-sink.c:381 | the corrected start never leaves two streams running |
| DbusSink.StartStreamAsWrittenBreaksSingleStream | src/nd-dbus-sink.c:381 | the start as written, with another device's stream in the slot, leaves two streams running |
| DbusSink.RealCancelKeepsSingleStream | src/nd-dbus-sink.c:533-538 | after the real cancel no stream runs |
| DbusSink.PortalDone | src/nd-dbus-sink.c:423-467 | a cancellation does nothing; Wayland with `G_IO_ERROR_FAILED` tears down with no audio step; other failures set x11 and go on to audio; success clears x11 and goes on to audio; the init flag is cleared except on cancellation |
| DbusSink.PulseDoneAsWritten | src/nd-dbus-sink.c:485-503 | an audio failure ends the chain with no state change; success starts the stream as written |
| DbusSink.PulseDone | src/nd-dbus-sink.c:485-503 | the same, except that success uses the corrected start |
| DbusSink.PulseFailureEndsChain | src/nd-dbus-sink.c:491-497 | an audio-init failure starts no stream, publishes nothing and keeps the status |
| DbusSink.WaylandAbortIgnoresDomain | src/nd-dbus-sink.c:445-456 | code `G_IO_ERROR_FAILED` of any error domain aborts on Wayland and falls back to x11 elsewhere |
| DbusSink.ForeignCancelCodeFallsBack | src/nd-dbus-sink.c:431 | only an IO-domain `G_IO_ERROR_CANCELLED` counts as cancellation; the same code in another domain falls back to x11 |
| DbusSink.MethodCall | src/nd-dbus-sink.c:748-797 | Connect fails iff a stream exists or this device's init flag is set, otherwise it starts the portal; Cancel fails iff neither, otherwise it clears the flag and tears down; other names are UnknownMethod; errors change nothing |
| DbusSink.StreamingLocksEveryDevice | src/nd-dbus-sink.c:762-787 | while any device streams, every device refuses Connect and accepts Cancel |
| DbusSink.TwoDevicesBothStream | src/nd-dbus-sink.c:764-773 | two idle devices can both pass the Connect guard, and with the start as written both streams run |
| DbusSink.ConnectChainStarts | src/nd-dbus-sink.c:423-503 | Connect, portal success and audio success on an idle device start its stream, publish its status, and end by switching discovery off |
| DbusSink.CancelThenUnloadStops | src/nd-dbus-sink.c:777-787 | Cancel during a stream, then the unload completion, stop the stream, re-enable discovery and remove the fallback timer |
| DbusSink.TimerThenUnloadCancelsTwice | src/nd-dbus-sink.c:550-566 | when the fallback timer fires before the unload completes, the cancel callback runs twice |
| DbusSink.GetProperty | src/nd-dbus-sink.c:800-827 | answers Status, Name, Strength (as uint32) and HwAddress, and nothing for any other name; the lemmas below tie each answer to the broadcasts |
| DbusSink.StatusRoundTrip | src/nd-dbus-sink.c:809-812 | the `Status` integer a client reads decodes back to the device's state |
| DbusSink.StatusPublished | src/nd-dbus-sink.c:836-841 | a stream-state change broadcasts `Status`, and that is the getter's answer afterwards; no other property changes |
| DbusSink.NamePublished | src/nd-dbus-sink.c:179-185 | a new display name is broadcast and is the getter's answer afterwards; no name changes and broadcasts nothing |
| DbusSink.MethodCallInSync | src/nd-dbus-sink.c:748-797 | a method call changes no published property and broadcasts none |
| DbusSink.PortalDoneInSync | src/nd-dbus-sink.c:423-467 | the portal's completion changes no published property and broadcasts none |
| DbusSink.TeardownInSync | src/nd-dbus-sink.c:529-566 | the unload completion and the fallback timer change no published property and broadcast none |
| DbusSink.StartPublished | src/nd-dbus-sink.c:372-420 | a start publishes the new stream's first state, which `Status` then answers; a start that does not happen publishes nothing |
| DbusSink.PulseDonePublished | src/nd-dbus-sink.c:485-503 | the audio completion leaves each property's last broadcast equal to the getter's answer |
| DbusSink.NameChanged | src/nd-dbus-sink.c:179-185 | a meta-sink notification re-reads only the name, and publishes it when there is one |
| DbusSink.X11CaptureArea | src/nd-dbus-sink.c:581-611 | without a display proxy, two monitors and a primary rectangle, every coordinate is 0; all are read as guint |
| DbusSink.CaptureAreaSpansPrimary | src/nd-dbus-sink.c:606-609 | for a primary rectangle at a non-negative origin, the capture spans exactly its width and height |
| DbusSink.CaptureAreaWraps | src/nd-dbus-sink.c:582-609 | a negative origin wraps to a large unsigned value, and a zero width wraps the far edge to 2^32-1 |
| DbusSink.CallsKeepDeviceOk | src/nd-dbus-sink.c:555-565 | method calls and portal completions keep the device invariant (a stored timer is pending) |
| DbusSink.PulseDoneKeepsDeviceOk | src/nd-dbus-sink.c:555-565 | audio completions keep the device invariant |
| DbusSink.CompletionsKeepDeviceOk | src/nd-dbus-sink.c:555-565 | unload, timer and stream-state events keep the device invariant |
| DbusSink.TransitionsKeepSingleStream | src/nd-dbus-sink.c:97 | with the corrected start, no device transition leaves two streams running |
| Daemon.Deliver | src/nd-dbus-manager.c:237-251 | relaying aggregator signals to the manager never touches its bus, flag or busy time |
| Daemon.DeliverTracks | src/nd-dbus-manager.c:237-251 | unless an export aborts the process, relayed signals keep the devices distinct, exported at distinct paths, and within the identities the signals announced |
| Daemon.DeliverEndsWithNotice | src/nd-dbus-manager.c:129-133 | a has-providers notice at the end of a relay adds or removes one `NotSupportP2P` |
| Daemon.DeliverForwards | src/nd-meta-provider.c:193-194 | forwarding discover to the providers does not affect the manager |
| Daemon.ApplyEffects | src/nd-dbus-sink.c:419 | the aggregator's flag ends as the last discovery switch a device asked for; its meta sinks and providers are untouched |
| Daemon.Step | src/nd-dbus-manager.c:313-319 | once the loop has quit or an assertion has failed, nothing more happens |
| Daemon.StartInv | src/nd-dbus-manager.c:109-145 | the daemon starts running, satisfying the invariant, without `NotSupportP2P` |
| Daemon.ProviderAddedKeepsInv | src/nd-meta-provider.c:304-341 | registering a provider keeps the daemon invariant |
| Daemon.ProviderRemovedKeepsInv | src/nd-meta-provider.c:351-373 | unregistering a provider keeps the daemon invariant |
| Daemon.SinkSightedKeepsInv | src/nd-meta-provider.c:52-101 | a new sighting keeps the daemon invariant |
| Daemon.SinkLostKeepsInv | src/nd-meta-provider.c:104-154 | a lost sighting keeps the daemon invariant |
| Daemon.EnableKeepsInv | src/nd-dbus-manager.c:411-425 | `Enable(true)` exports only meta sinks the aggregator lists, each once |
| Daemon.ManagerCallKeepsInv | src/nd-dbus-manager.c:366-440 | every manager call keeps the daemon invariant |
| Daemon.DeviceInputKeepsInv | src/nd-dbus-sink.c:748-797 | every device call and completion keeps the daemon invariant |
| Daemon.StreamStateOk | src/nd-dbus-sink.c:673-701 | a stream-state report to a device keeps the daemon invariant |
| Daemon.StreamReportRouting | src/nd-dbus-sink.c:399-403 | a stream-state report reaches the device that started the stream while that device listens, whether or not the stream is still in the slot, and is ignored otherwise |
| Daemon.EarlySightingAborts | src/nd-dbus-manager.c:197-203 | a sighting before the bus is acquired aborts the daemon |
| Daemon.IdleTickKeepsInv | src/nd-dbus-manager.c:255-277 | the idle check keeps the daemon invariant |
| Daemon.StepKeepsInv | src/nd-dbus-sink.c:97 | every input keeps the daemon invariant, so at most one stream ever runs |
| Daemon.RunKeepsInv | src/nd-dbus-sink.c:97 | every run of inputs keeps the daemon invariant |
| Daemon.ManagerCallQuitsOnDisable | src/nd-dbus-manager.c:426-429 | the only manager call that stops the process is `Enable(false)` |
| Daemon.DisableWithdraws | src/nd-dbus-manager.c:313-319 | `Enable(false)` withdraws every device, and the loop quit is the last thing emitted |
| Daemon.QuitWithdrawsDevices | src/nd-dbus-manager.c:313-319 | whenever the process stops of its own accord, every device is withdrawn first and the loop quit is emitted last |
| LexOrder.Lookup | plugins/common/wirelesscastingmodel.cpp:92 | a key is found iff it is in the map |
| LexOrder.Insert | plugins/common/wirelesscastingmodel.cpp:94 | inserting a new key adds exactly it, with its value, and leaves every other key's entry alone |
| LexOrder.InsertSorted | plugins/common/wirelesscastingmodel.cpp:94 | inserting keeps the keys ascending |
| LexOrder.FilterKeys | plugins/common/wirelesscastingmodel.cpp:100-114 | erasing the unlisted keys keeps exactly the listed ones with their entries, and is the identity when every key is listed |
| LexOrder.FilterKeysSorted | plugins/common/wirelesscastingmodel.cpp:100-114 | erasing keeps the keys ascending |
| LexOrder.Replace | plugins/common/wirelesscastingmodel.cpp:323-324 | updating a key's entry changes only that key and keeps the map sorted |
| CastingModel.CastingFromOrdinal | plugins/common/wirelesscastingmodel.h:62-70 | an ordinal decodes to the state with that position, and to nothing outside 0..5 |
| CastingModel.OrdinalsAreDense | plugins/common/wirelesscastingmodel.h:62-70 | the states take the distinct ordinals 0..5, and Count (6) is no state |
| CastingModel.HwAddressReturnsName | plugins/common/wirelesscastingmodel.h:37 | `hwAddress()` returns the name, which differs from the stored address whenever those two differ |
| CastingModel.NewMonitorMisreportsAddress | plugins/common/wirelesscastingmodel.h:37 | a monitor for a sink named "TV" at `aa:bb` reports "TV" as its hardware address |
| CastingModel.IntendedHwAddressReadsDaemon | plugins/common/wirelesscastingmodel.cpp:294-310 | the intended accessor returns the `HwAddress` the monitor read from the daemon, or the empty default when the read failed |
| CastingModel.NewMonitor | plugins/common/wirelesscastingmodel.cpp:294-310 | a new monitor takes each property that can be read and keeps its default (empty, Disconnected, 0) otherwise; Status and Strength are read as uint32 |
| CastingModel.MonitorCheckState | plugins/common/wirelesscastingmodel.cpp:318-327 | an invalid value is ignored; `stateChanged` is emitted iff the new state differs, and the state is stored then |
| CastingModel.MonitorCheckStateSettles | plugins/common/wirelesscastingmodel.cpp:318-327 | a repeated status changes and emits nothing |
| CastingModel.CheckStateAsWritten | plugins/common/wirelesscastingmodel.cpp:127-161 | the state is the intended precedence except in the two fall-through cases; Disabled and Connected are always announced, and every change is announced |
| CastingModel.NoDeviceFlipFlops | plugins/common/wirelesscastingmodel.cpp:129-137 | with no wireless device, successive evaluations alternate between NoWirelessDevice and DisabledWirelessDevice |
| CastingModel.WarningFlipFlops | plugins/common/wirelesscastingmodel.cpp:140-160 | with warnings pending, successive evaluations alternate between WarningInfo and a later rule |
| CastingModel.CheckState | plugins/common/wirelesscastingmodel.cpp:127-161 | the state becomes the intended precedence; it is announced when it changes, and Disabled and Connected are announced always |
| CastingModel.CheckStateSettles | plugins/common/wirelesscastingmodel.cpp:127-161 | re-evaluating changes nothing, and announces nothing outside Disabled and Connected |
| CastingModel.CheckStateAgreesOutsideFallThrough | plugins/common/wirelesscastingmodel.cpp:127-161 | outside the two fall-through cases, the corrected and the as-written evaluations coincide |
| CastingModel.CurMonitorName | plugins/common/wirelesscastingmodel.cpp:54-60 | empty without a current monitor; otherwise that monitor's name, and a dangling read exactly when it is no longer in the map |
| CastingModel.DisconnMonitor | plugins/common/wirelesscastingmodel.cpp:48-52 | Cancel goes to the current monitor's path only when there is one; a dangling call exactly when it is no longer in the map |
| CastingModel.AddNew | plugins/common/wirelesscastingmodel.cpp:89-98 | every listed path gets a monitor; existing monitors are kept as they are; new ones are fresh, with new identities |
| CastingModel.AddNewAnnounces | plugins/common/wirelesscastingmodel.cpp:89-98 | `addMonitor` is emitted exactly once for each listed path that was not in the map, and for no other |
| CastingModel.AddNewSorted | plugins/common/wirelesscastingmodel.cpp:94 | inserting the new monitors keeps the map sorted |
| CastingModel.AddNewNothingNew | plugins/common/wirelesscastingmodel.cpp:89-98 | when every listed path is known, nothing changes and nothing is emitted |
| CastingModel.Removals | plugins/common/wirelesscastingmodel.cpp:100-114 | the erase loop emits only `removeMonitor`, and none when every key is listed |
| CastingModel.RemovalsOnce | plugins/common/wirelesscastingmodel.cpp:110-113 | `removeMonitor` is emitted exactly once for each map key not listed, and for no other |
| CastingModel.LastStreaming | plugins/common/wirelesscastingmodel.cpp:100-117 | picks the last Streaming monitor in key order, and none iff no monitor is Streaming |
| CastingModel.UpdateSinkList | plugins/common/wirelesscastingmodel.cpp:81-119 | the keys become exactly the listed paths; retained monitors are not recreated; the current monitor is the last Streaming one or none; the state follows |
| CastingModel.UpdateSinkListSorted | plugins/common/wirelesscastingmodel.cpp:81-119 | reconciling keeps the map sorted |
| CastingModel.UpdateSinkListAnnounces | plugins/common/wirelesscastingmodel.cpp:89-114 | each new path is announced once by `addMonitor`, and each dropped path once by `removeMonitor` |
| CastingModel.UpdateSinkListIdempotent | plugins/common/wirelesscastingmodel.cpp:81-119 | reconciling twice against the same list leaves the client as once and emits no add or remove |
| CastingModel.UpdateWarningInfo | plugins/common/wirelesscastingmodel.cpp:121-125 | stores the warnings and re-evaluates; with a device enabled and warnings the state is WarningInfo |
| CastingModel.HandleMonitorStateChanged | plugins/common/wirelesscastingmodel.cpp:234-250 | Disconnected or Error clears the current monitor only if it is the sender; Streaming makes the sender current; the state is re-evaluated |
| CastingModel.MonitorStatus | plugins/common/wirelesscastingmodel.cpp:312-327 | a status for an unknown path or an unchanged state does nothing; otherwise only that monitor changes, and the state follows |
| CastingModel.MonitorStatusKeepsShape | plugins/common/wirelesscastingmodel.cpp:234-250 | keeps the map sorted and the current monitor valid; a monitor turning Streaming becomes current |
| CastingModel.ProbeWireless | plugins/common/wirelesscastingmodel.cpp:165-192 | a wireless device is found iff some device reports type 2; one is enabled iff some such device confirms it |
| CastingModel.WirelessChanged | plugins/common/wirelesscastingmodel.cpp:165-192 | the probe's two flags are stored, and only they and the state change |
| CastingModel.InitData | plugins/common/wirelesscastingmodel.cpp:62-79 | an unreadable `SinkList` changes nothing; handlers are connected only when both properties are read; the warnings are stored when read |
| CastingModel.ClearMonitors | plugins/common/wirelesscastingmodel.cpp:224-230 | the map is emptied, and only `removeMonitor` is emitted |
| CastingModel.NameOwnerChangedAsWritten | plugins/common/wirelesscastingmodel.cpp:213-232 | only the service losing its owner resets; with the list unreadable the map is emptied but the current monitor is kept |
| CastingModel.ResetLeavesStaleCurrent | plugins/common/wirelesscastingmodel.cpp:221-232 | after that reset, the state is Connected with no monitor, and the current monitor dangles |
| CastingModel.NameOwnerChanged | plugins/common/wirelesscastingmodel.cpp:213-219 | the corrected reset also forgets the current monitor, so it is always valid afterwards |
| CastingModel.NameOwnerChangedRemovesEach | plugins/common/wirelesscastingmodel.cpp:221-232 | the reset emits `removeMonitor` exactly once per monitor that was in the map |
| CastingModel.InitDataRemovesNothing | plugins/common/wirelesscastingmodel.cpp:62-79 | re-reading into an empty map removes nothing |
| CastingModel.Init | plugins/common/wirelesscastingmodel.cpp:18-31 | construction probes the devices, reads the service, and ends in the intended state with a valid current monitor |
| CastingModel.InitInv | plugins/common/wirelesscastingmodel.cpp:18-31 | the constructed client satisfies the client invariant |
| CastingModel.SinkListKeepsInv | plugins/common/wirelesscastingmodel.cpp:73-75 | a `SinkList` change keeps the client invariant |
| CastingModel.MonitorStatusKeepsInv | plugins/common/wirelesscastingmodel.cpp:312-315 | a monitor status change keeps the client invariant |
| CastingModel.OwnerChangedKeepsInv | plugins/common/wirelesscastingmodel.cpp:213-219 | an owner change keeps the client invariant |
| CastingModel.StepKeepsInv | plugins/common/wirelesscastingmodel.cpp:54-60 | every input keeps the client invariant, so the current monitor never dangles |

## Left out

- D-Bus plumbing is left out: object registration and export, `g_bus_own_name`, the main loop, XML introspection data and the notification proxy. Broadcasts, notifications and the loop quit are entries in an emitted-signal log. Bus acquisition and name loss are inputs.
- GStreamer bin construction, the screencast portal and PulseAudio are external libraries. Their completions are inputs. Only the X11 capture-rectangle arithmetic is modelled.
- nd-meta-sink.c is not part of this model. It decides whether a sink matches a meta sink, and what a meta sink reports about itself. Both are parameters. Adding a constituent appends it, and removing one removes its first occurrence and reports emptiness.
- `get_`/`set_deepin_audio_auto_switch` are left out because they spawn external processes. The only call site of the setter is commented out, and `nd_dbus_sink_cancel_cb` has an empty body.
- `GMutex` and all concurrency are left out: every handler runs to completion, one at a time, as the main loop does.
- Reference counting and object lifetime are left out. This includes the portal unreferenced in `sink_real_cancel` without being cleared, and the client's `deleteLater`. Only the client's dangling current-monitor pointer is modelled (as a stale read), because it shows up in its state.
- The clock is an integer number of seconds, `tv_sec`, supplied with each input. Timer scheduling is reduced to the timer firing as an input.
- Every NetworkManager call in the client probe is a given reply: the device type, and whether `IsDeviceEnabled` answered true.
- The client's one-minute `Refresh` timer (`timerEvent`, `refresh`) and `Monitor::connMonitor` are left out. Each only forwards a call and ignores its reply.
- A reset connects the `SinkList` and `MissingCapabilities` handlers again without disconnecting them. The model records only whether the handlers are connected. Running a duplicate handler leaves the client unchanged (`CastingModel.UpdateSinkListIdempotent`), but its state announcements would be emitted once more.
- `Monitor::name()`, `Monitor::state()` and `WirelessCastingModel::monitors()` only return a stored field or a copy of the map. The model reads the fields directly.
- `QString` keys are compared by character code. This is the order `QMap` uses on object paths, which are ASCII.
- Widgets (the dock item, applet, plugin, control-center module) are pure presentation and are left out. So are the header files holding declarations only, and finalisers.
- A device that is started again connects its stream-state handler once more. The model records only whether a handler is connected, so a report reaches the device once however often it was connected.
- When an export aborts the process, the signals emitted earlier in the same step are dropped from the log. The process ends at the assertion, so a client sees no further state.
- DbusManager.SinkAddedIdempotent: promised only when the first `sink-added` did not abort the process.
- DbusManager.ReplayCovers: every replayed meta sink is exported only when no export aborted the process.
- Daemon.DeliverTracks: the tracking is promised only while no export aborts the process.
- DbusManager.AddThenRemoveRestores: the manager is restored only when the export could succeed.
- A meta sink always reports a non-NULL hardware address and name: both are strings in the model. A NULL address would give the path `…Sink(null)`, which fails registration. A NULL name would reach `g_variant_new_string` in the property getter.
- DbusSink.RealCancel: a stream's stop report is assumed to arrive after the real cancel has finished, and so after the owner's own cancel has disconnected its handler. `nd_sink_stop_stream` lives in a stream implementation that is not part of this model. If it emitted `notify::state` synchronously (src/nd-dbus-sink.c:523, before the disconnect at line 535), the owner's own real cancel would run `sink_notify_state_cb` nested inside it. That would publish `Status` Disconnected, request a second unload and a second 25 s timer, and send the "error" notification. The model cannot produce that run, so after its own cancel a device keeps its last published `Status`.
- `Status` is declared with type `u` in the sink interface (src/nd-dbus-sink.c:332), but the getter and `set_prop_status` build it with `g_variant_new_int32` (lines 811 and 840). The model's bus values are untyped integers, so this wire-type mismatch does not show in it. The client in the modelled sources reads it through `QVariant::toUInt` (plugins/common/wirelesscastingmodel.cpp:306).
- DbusSink.X11CaptureArea: requires the primary rectangle to fit `(nnqq)`, as the bus type guarantees.

## Findings

| source | as written | input that shows it | evidently intended | confidence | as-written member | corrected member |
|---|---|---|---|---|---|---|
| src/nd-dbus-sink.c:381 | `nd_sink_start_stream_real` stores the new stream in `stream_sink` even when another device's stream is there. The Connect guard (line 764) checks only the global slot and this device's own init flag. | Devices A and B both get Connect while nothing streams. Both guards pass, both portal and audio inits succeed, and A's start fills the slot. B's start then overwrites it, so two streams run and A's can no longer be stopped. | at most one stream runs; a start while the slot is occupied does nothing | medium; not executed | DbusSink.TwoDevicesBothStream | DbusSink.StartStream |
| plugins/common/wirelesscastingmodel.cpp:129-137 | the first guard also tests `NoWirelessDevice != m_state`, so when the state is already NoWirelessDevice, evaluation falls through to the disabled rule | no wireless device, and any evaluation after the first: the state alternates between NoWirelessDevice and DisabledWirelessDevice | with no wireless device the state stays NoWirelessDevice | high; not executed | CastingModel.NoDeviceFlipFlops | CastingModel.CheckState |
| plugins/common/wirelesscastingmodel.cpp:140-144 | the warning guard also tests `WarningInfo != m_state`, so when the state is already WarningInfo, evaluation falls through to Connected, NoMonitor or List | a device is enabled and `MissingCapabilities` is non-empty; the state alternates between WarningInfo and the next rule on every evaluation | with warnings pending the state stays WarningInfo | high; not executed | CastingModel.WarningFlipFlops | CastingModel.CheckState |
| plugins/common/wirelesscastingmodel.h:37 | `Monitor::hwAddress()` returns `m_name` rather than `m_hwAddress` | a sink named "TV" at address `aa:bb`: `hwAddress()` answers "TV" | the accessor returns the stored hardware address | high; not executed | CastingModel.NewMonitorMisreportsAddress | CastingModel.IntendedHwAddressReadsDaemon |
| plugins/common/wirelesscastingmodel.cpp:221-232 | the reset empties the map but never clears `m_curConnected`. `initData` returns early when `SinkList` cannot be read (line 66-67), and that is likely just after the service has lost its owner. | A monitor is streaming and the service exits. The map becomes empty, the state becomes Connected, and `curMonitorName`/`disconnMonitor` use a deleted monitor. | the reset forgets the current monitor | medium; not executed | CastingModel.ResetLeavesStaleCurrent | CastingModel.NameOwnerChanged |

The corrected members are the ones the rest of the model uses. The daemon's
step (`Daemon.Step`) starts streams with `DbusSink.PulseDone`, which calls
`DbusSink.StartStream`. The client's every update goes through
`CastingModel.CheckState`, and its reset through `CastingModel.NameOwnerChanged`.
No code in the modelled sources calls `Monitor::hwAddress()`, so nothing else in
the model depends on which accessor is used.
