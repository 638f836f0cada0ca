# Muse headband bridge for Unity (Android side), modelled in Dafny

The Android bridge object `LibmuseUnityProjectAndroid` connects the closed
Muse SDK to Unity. It does four things, and this project models all four:

- **Listener registry.** Unity registers (object, method) pairs in four lists:
  headband list, connection state, data and artifacts. Each SDK event is sent
  to every pair of the matching list, in list order.
- **Headband catalog.** A scan fills a name -> headband map. It also builds the
  payload for Unity: each name followed by one space. `connect` looks the
  chosen name up in the map.
- **Packet-type codec.** A fixed map from 23 names to SDK packet types, plus
  its reverse, built by visiting the names. `listenForDataPacket` uses it to
  collect the types that `connect` subscribes to.
- **Per-type extraction.** A data packet's values are read through fixed
  index -> channel tables. In the EEG family, NaN becomes 0.

Files:

- `packet_types.dfy` (module `PacketTypes`): the 23 (name, type) pairs, the
  name map they build, and the facts that make its reverse well defined.
- `packets.dfy` (module `Packets`): the inbound packets, the channel tables,
  and `createDataJSONArray` as a loop method proved against `Extract`.
- `catalog.dfy` (module `Catalog`): the joined headband names, the map puts,
  and the split on ' ' that the Unity sample uses to read the list back.
- `registry.dfy` (module `Registry`): listeners, payloads, and `Deliveries`,
  the messages that one fan-out sends.
- `bridge.dfy` (module `Bridge`): the class `LibmuseUnityProjectAndroid`. Its
  fields are `seq`s and `map`s. Three ghost logs stand in for the world
  outside:
  - `Sent` records every `UnitySendMessage` call.
  - `SdkCalls` records what the bridge asks of the SDK.
  - `Errors` records every `Log.e`.
- `wrappers.dfy` (module `Wrappers`): `Option`, for the nullable `muse` field.

In these places the code does something a reader might not expect, and the
model follows the code:

- The catalog is never cleared. A new scan adds and overwrites names, so a
  headband from an earlier scan still resolves (`Catalog.EarlierScanStillResolves`).
- The headband list ends with a space after every name. Splitting it on ' '
  gives the names followed by one empty piece (`Catalog.JoinNamesRoundTrip`).
- `disconnect` dereferences `muse` without a check, so the model requires that
  a headband has been connected.
- A table overrun in extraction is an `ArrayIndexOutOfBoundsException`.
  Nothing in the bridge catches it, so the data callback sends nothing.

## Model

| member | source | states |
|---|---|---|
| PacketTypes.NameMapSize | unity/Assets/Plugins/Android/LibmuseUnityProjectAndroid.java:317-339 | the name map has exactly the 23 names put into it, no more and no fewer |
| PacketTypes.NameMapLookup | unity/Assets/Plugins/Android/LibmuseUnityProjectAndroid.java:317-339 | each of the 23 names maps to the packet type it is put with |
| PacketTypes.NameMapInjective | unity/Assets/Plugins/Android/LibmuseUnityProjectAndroid.java:317-339 | no two names share a packet type, so inverting the map loses no entry |
| PacketTypes.NameMapCoversTypes | unity/Assets/Plugins/Android/LibmuseUnityProjectAndroid.java:317-339 | every packet type has a name, so the reverse lookup in the data callback always finds one |
| PacketTypes.CodecRoundTrip | unity/Assets/Plugins/Android/LibmuseUnityProjectAndroid.java:341-344 | the reverse map has every packet type as a key (23 keys), and name -> type -> name and type -> name -> type are both the identity |
| PacketTypes.InverseSize | unity/Assets/Plugins/Android/LibmuseUnityProjectAndroid.java:341-344 | an injective map and its inverse have the same number of entries |
| PacketTypes.InverseIsUnique | unity/Assets/Plugins/Android/LibmuseUnityProjectAndroid.java:341-344 | the reverse map does not depend on the order of the key set: an injective map has only one inverse |
| PacketTypes.EegName | unity/Assets/Plugins/Android/LibmuseUnityProjectAndroid.java:319 | the reverse map names the EEG type "EEG", and "EEG" maps back to EEG |
| PacketTypes.PutPairsKeys | unity/Assets/Plugins/Android/LibmuseUnityProjectAndroid.java:317-339 | putting pairs with distinct names yields exactly those names as keys, one key per pair |
| PacketTypes.PutPairsLookup | unity/Assets/Plugins/Android/LibmuseUnityProjectAndroid.java:317-339 | putting pairs with distinct names keeps every pair: each name maps to its own type |
| PacketTypes.PutPairsInjective | unity/Assets/Plugins/Android/LibmuseUnityProjectAndroid.java:317-339 | pairs with distinct names and distinct types build an injective map |
| Packets.CreateDataArray | unity/Assets/Plugins/Android/LibmuseUnityProjectAndroid.java:347-384 | extraction succeeds exactly when valuesSize is at most the table length, and then yields valuesSize elements (none if negative), element i being channel i of the type's table, NaN -> 0 in the EEG family; otherwise it fails at the index equal to the table length |
| Packets.EegFamilyHasNoNaN | unity/Assets/Plugins/Android/LibmuseUnityProjectAndroid.java:372-377 | in the EEG family no extracted element is NaN: a NaN reading becomes 0 and any other reading passes unchanged |
| Packets.OtherFamiliesPassThrough | unity/Assets/Plugins/Android/LibmuseUnityProjectAndroid.java:351-370 | in the model, accelerometer, battery, DRL/REF and gyro values are the raw readings with no substitution; a NaN among them passes through in the model only (the program's JSON library would reject it, see Left out) |
| Packets.ExtractBounds | unity/Assets/Plugins/Android/LibmuseUnityProjectAndroid.java:105-112 | safe extraction needs valuesSize at most 3, 3, 3, 2 and 6 for accelerometer, gyro, battery, DRL/REF and the EEG family |
| Packets.AccelerometerOrder | unity/Assets/Plugins/Android/LibmuseUnityProjectAndroid.java:351-355 | a full accelerometer packet yields the forward-backward, up-down, then left-right readings |
| Packets.GyroOrder | unity/Assets/Plugins/Android/LibmuseUnityProjectAndroid.java:366-370 | a full gyro packet yields the forward-backward, up-down, then left-right readings |
| Packets.BatteryOrder | unity/Assets/Plugins/Android/LibmuseUnityProjectAndroid.java:356-360 | a full battery packet yields charge percentage, millivolts, then temperature |
| Packets.DrlRefOrder | unity/Assets/Plugins/Android/LibmuseUnityProjectAndroid.java:361-365 | a full DRL/REF packet yields DRL then REF |
| Packets.EegOrder | unity/Assets/Plugins/Android/LibmuseUnityProjectAndroid.java:372-378 | a full EEG-family packet yields EEG1-EEG4, AUX_LEFT, AUX_RIGHT, each with NaN replaced by 0 |
| Packets.EegNaNExample | unity/Assets/Plugins/Android/LibmuseUnityProjectAndroid.java:373-377 | EEG readings 1, NaN, 3, 4, 5, 6 are extracted as 1, 0, 3, 4, 5, 6 |
| Catalog.Names | unity/Assets/Plugins/Android/LibmuseUnityProjectAndroid.java:242-244 | the i-th name is the name of the i-th headband, in the manager's order |
| Catalog.JoinNamesShape | unity/Assets/Plugins/Android/LibmuseUnityProjectAndroid.java:241-245 | the headband payload is empty exactly when no headband is listed, and otherwise ends with a space |
| Catalog.SplitJoinNames | unity/Assets/SampleApp.cs:122 | splitting the joined names plus any suffix on ' ' gives the names, then the pieces of the suffix |
| Catalog.JoinNamesRoundTrip | unity/Assets/SampleApp.cs:122 | when no name holds a space, the Unity side's split of the payload gives the names in order plus one empty piece |
| Catalog.SplitAtSpace | unity/Assets/SampleApp.cs:122 | splitting around one space gives the pieces of each side, concatenated |
| Catalog.SplitWithoutSpace | unity/Assets/SampleApp.cs:122 | a string without a space splits into itself alone |
| Catalog.SingleHeadbandPayload | unity/Assets/Plugins/Android/LibmuseUnityProjectAndroid.java:244 | one headband named MuseHeadband-1234 is announced as "MuseHeadband-1234 " |
| Catalog.PutAllKeys | unity/Assets/Plugins/Android/LibmuseUnityProjectAndroid.java:242-243 | after a scan the keys are the earlier keys plus the listed names |
| Catalog.PutAllLastWins | unity/Assets/Plugins/Android/LibmuseUnityProjectAndroid.java:242-243 | each listed name maps to the last headband of the list with that name |
| Catalog.PutAllKeepsOthers | unity/Assets/Plugins/Android/LibmuseUnityProjectAndroid.java:237-245 | a name not in the new list keeps its earlier headband: the map is never cleared |
| Catalog.PutAllResolvesEachName | unity/Assets/Plugins/Android/LibmuseUnityProjectAndroid.java:239-243 | with unique names, every listed name resolves to its own headband |
| Catalog.EarlierScanStillResolves | unity/Assets/Plugins/Android/LibmuseUnityProjectAndroid.java:237-245 | after a scan listing A and B and a later one listing only C, all of A, B and C still resolve |
| Registry.DeliveriesAt | unity/Assets/Plugins/Android/LibmuseUnityProjectAndroid.java:248-250 | one fan-out sends exactly one message per registration; the i-th goes to the i-th pair's object and method with the payload unchanged |
| Registry.DuplicateRegistrationDeliversTwice | unity/Assets/Plugins/Android/LibmuseUnityProjectAndroid.java:218-223 | a pair registered twice receives each fan-out twice: there is no deduplication |
| Registry.DeliveriesAppend | unity/Assets/Plugins/Android/LibmuseUnityProjectAndroid.java:279-281 | the fan-out over earlier registrations then later ones is the earlier fan-out followed by the later one: delivery order is registration order |
| Bridge.ConnectRegistersEachType | unity/Assets/Plugins/Android/LibmuseUnityProjectAndroid.java:171-182 | connect registers the data listener once per requested type, in order and with duplicates, after the connection listener and before the run loop starts |
| Bridge.LibmuseUnityProjectAndroid.constructor | unity/Assets/Plugins/Android/LibmuseUnityProjectAndroid.java:304-314 | a new bridge has empty listener lists, an empty catalog, no requested type, no headband and a full codec |
| Bridge.LibmuseUnityProjectAndroid.InitMaps | unity/Assets/Plugins/Android/LibmuseUnityProjectAndroid.java:316-345 | afterwards the name map is the 23-entry table and the reverse map is its exact inverse, whatever order the names are visited in |
| Bridge.LibmuseUnityProjectAndroid.StartListening | unity/Assets/Plugins/Android/LibmuseUnityProjectAndroid.java:147-158 | a scan is restarted (stop, then start) only when a muse listener is registered; otherwise only an error is logged |
| Bridge.LibmuseUnityProjectAndroid.StopListening | unity/Assets/Plugins/Android/LibmuseUnityProjectAndroid.java:160-162 | asks the manager to stop scanning and changes nothing else |
| Bridge.LibmuseUnityProjectAndroid.Connect | unity/Assets/Plugins/Android/LibmuseUnityProjectAndroid.java:168-186 | a listed name becomes the current headband and triggers exactly the connect calls; an unlisted name changes no state and logs an error |
| Bridge.LibmuseUnityProjectAndroid.Disconnect | unity/Assets/Plugins/Android/LibmuseUnityProjectAndroid.java:188-190 | asks the current headband to disconnect |
| Bridge.LibmuseUnityProjectAndroid.ListenForDataPacket | unity/Assets/Plugins/Android/LibmuseUnityProjectAndroid.java:193-199 | a known name appends its type to the requested types, duplicates allowed, and the reverse map names it back; an unknown name leaves them unchanged and logs an error |
| Bridge.LibmuseUnityProjectAndroid.RegisterMuseListener | unity/Assets/Plugins/Android/LibmuseUnityProjectAndroid.java:204-209 | appends exactly the pair (obj, method) to the muse list; the frame leaves the other three lists untouched |
| Bridge.LibmuseUnityProjectAndroid.RegisterConnectionListener | unity/Assets/Plugins/Android/LibmuseUnityProjectAndroid.java:211-216 | appends exactly the pair (obj, method) to the connection list; the others are untouched |
| Bridge.LibmuseUnityProjectAndroid.RegisterDataListener | unity/Assets/Plugins/Android/LibmuseUnityProjectAndroid.java:218-223 | appends exactly the pair (obj, method) to the data list; the others are untouched |
| Bridge.LibmuseUnityProjectAndroid.RegisterArtifactListener | unity/Assets/Plugins/Android/LibmuseUnityProjectAndroid.java:225-230 | appends exactly the pair (obj, method) to the artifact list; the others are untouched |
| Bridge.LibmuseUnityProjectAndroid.Notify | unity/Assets/Plugins/Android/LibmuseUnityProjectAndroid.java:263-265 | the sink log grows by exactly the fan-out of the payload over the list, and nothing else is sent |
| Bridge.LibmuseUnityProjectAndroid.MuseListChanged | unity/Assets/Plugins/Android/LibmuseUnityProjectAndroid.java:237-251 | the catalog gains every listed headband under its name, without being cleared, and every muse listener receives the space-terminated names |
| Bridge.LibmuseUnityProjectAndroid.ReceiveMuseConnectionPacket | unity/Assets/Plugins/Android/LibmuseUnityProjectAndroid.java:253-266 | every connection listener receives the previous and current states, in registration order |
| Bridge.LibmuseUnityProjectAndroid.ReceiveMuseDataPacket | unity/Assets/Plugins/Android/LibmuseUnityProjectAndroid.java:268-282 | every data listener receives the type's name, the extracted values and the timestamp; when extraction overruns its table nothing is sent |
| Bridge.LibmuseUnityProjectAndroid.ReceiveMuseArtifactPacket | unity/Assets/Plugins/Android/LibmuseUnityProjectAndroid.java:284-298 | every artifact listener receives the three flags as "true"/"false" strings |

## Left out

- SDK plumbing is outside the model: the activity context, `MuseManagerAndroid.getInstance`/`setContext`/`setMuseListener` in the constructor, and `getLibmuseVersion` (lines 164-166). These are calls into the closed SDK. Only the SDK calls that the modelled operations make are recorded, in `SdkCalls`.
- The constructor's null-context branch (lines 122-123) is not modelled. It leaves the listener lists, the maps and `manager` null, so any later call that uses them throws; the final channel tables are still set by their initializers, and `getLibmuseVersion` uses no field.
- The listener inner classes (lines 392-419) only forward to the bridge. The model calls the bridge's callbacks directly and drops their unused `muse` argument.
- The list of headbands that `museListChanged` reads from the manager becomes a parameter.
- JSON serialisation is not modelled. Payloads are records of their fields; only the headband list is the exact string sent.
- `JSONException` paths are not modelled (lines 258-260, 274-276, 290-292, 380-382). org.json rejects non-finite numbers. So a NaN reading outside the EEG family, or an infinite reading anywhere, would end the array early at that element. `Packets.CreateDataArray` treats every put as successful.
- Readings are either NaN or a real number. IEEE arithmetic and infinities are not modelled.
- Bridge.LibmuseUnityProjectAndroid.Disconnect: requires a connected headband. Calling it earlier dereferences null in the Java method.
- `PacketTypes.PacketType` holds only the 23 named types of the SDK's packet-type enum, not its other members. The bridge only subscribes to types requested by name (lines 177-179), so a data packet of any other type never arrives; `PacketTypes.NameMapCoversTypes` (the reverse lookup at line 271 always finds a name) relies on this restriction.
- Connection states are kept as the SDK enum's ordinals. Their names are not part of this model.
- Concurrency is not modelled. SDK callbacks arrive on Bluetooth threads and the bridge does not synchronise.
- The C# wrappers and the Unity sample UI are not part of this model. The only exception is the ' ' split of the headband list (`unity/Assets/SampleApp.cs:122`), used as the reader of the payload. The iOS headers are declarations only.
