# OLA Java client: a verified model of its core

This project models the core of the Java client of the Open Lighting Architecture (OLA) daemon in Dafny:

- **RDM unique IDs** (`UID`). Section 5 of ANSI E1.20 defines these. The model covers:
  - bounds-checked construction;
  - the `%04X:%08X` text, which also drives `equals` and `hashCode`;
  - the order used by `compareTo`;
  - parsing from text, which returns a UID, returns null, or throws;
  - stepping to the next or previous UID across manufacturer boundaries.
- **The response-handling core of `OlaAsyncClient`**:
  - the registry of push callbacks for DMX updates (`registerUniverse`, `updateDmxData`);
  - the loops that convert DMX levels between `short[]` and bytes;
  - the `*Complete` handlers, each of which turns a finished RPC into exactly one invocation of the user's callback;
  - the reply-type guards in front of those handlers.
- **The value objects the client builds from replies**:
  - `RequestStatus`, with failure taking precedence over cancellation;
  - `Port`, ordered by id alone;
  - `Universe`, whose merge mode defaults to HTP and is never null;
  - `BasicDevice`, which keeps defensive, id-sorted copies of its port lists.

Modules, one file each:

| file | module | models |
|---|---|---|
| `outcomes.dfy` | `Outcomes` | Java `null` as `Option`; a Java call that returns or throws as `Outcome` |
| `java_lang.dfy` | `JavaLang` | these Java library functions: `Integer.compare`, `%0nX`, `parseInt`/`parseLong` in radix 16, `split(":")`, `String.hashCode` |
| `uid.dfy` | `UidAddressing` | `UID.java` |
| `request_status.dfy` | `Status` | `RequestStatus.java` |
| `port.dfy` | `Ports` | `Port.java` |
| `universe.dfy` | `Universes` | `Universe.java` |
| `basic_device.dfy` | `Devices` | `BasicDevice.java`: the constructor's copy and in-place stable sort, and the copying getters |
| `codec.dfy` | `Codec` | the functions that specify `convertToUnsigned`/`convertFromUnsigned` |
| `client.dfy` | `Client` | `OlaAsyncClient.java`: the class with its `universeCallbacks` map field, the codec loops, the handlers and the guards |

## How the model is organised

The objects with final fields become Dafny datatypes: `UID`, `Port`, `Universe` and `RequestStatus`. How each is built:
- `UID` and `Universe` have constructor functions that return an `Outcome` (`NewUid`, `NewUniverseWithMode`, `NewUniverse`), because `new UID` and the three-argument `new Universe` can throw; the two-argument one never does.
- `Port` is built by its datatype constructor, because `Port`'s Java constructor never throws.
- `RequestStatus` is built by `FromController`, which reads the controller's flags.

`UID` is a subset type, so a UID value always holds in-range ids.

`BasicDevice` is a class. Its constructor copies each port array and sorts the copy in place. The sort is an insertion sort, proved equal to `SortById`. `SortById` is a stable sort by id, which matches what `Collections.sort` does to ties.

`OlaAsyncClient` is a class whose `universeCallbacks` field is a `map` that `RegisterUniverse` reassigns.

The RPC channel is not modelled. A finished call becomes two inputs:
- the controller's flags (`Status.Controller`);
- the reply message (`Client.Message`), with `None` standing for null.

Each handler returns the single invocation of the user's callback that it performs (`Invocation`, `DmxInvocation`, `PushEffect`).

## Model

| member | source | states |
|---|---|---|
| JavaLang.Compare | java/src/main/java/ola/object/UID.java:125-128 | `Integer.compare`/`Long.compare`: -1, 0 or 1 exactly as x is below, equal to or above y |
| JavaLang.UpperHexDigit | java/src/main/java/ola/object/UID.java:69 | the digit `%X` prints for a value below 16 is upper-case and reads back as that value |
| JavaLang.FormatHex | java/src/main/java/ola/object/UID.java:69 | `%0nX` prints exactly n upper-case hex digits |
| JavaLang.FormatHexValue | java/src/main/java/ola/object/UID.java:69 | the digits `%0nX` prints denote the number printed |
| JavaLang.ParseHex | java/src/main/java/ola/object/UID.java:161-162 | radix-16 parse. Empty digits after the optional sign, or a character that is not a hex digit, throw `NumberFormatException`, as does a value outside the type's range. Otherwise the result is the digits' value, negated after a leading `-`, whenever that value is in range |
| JavaLang.ParseInt | java/src/main/java/ola/object/UID.java:161 | `Integer.parseInt(s, 16)`: an `int`, or `NumberFormatException` (the full outcome is `ParseHex` over the `int` range) |
| JavaLang.ParseLong | java/src/main/java/ola/object/UID.java:162 | `Long.parseLong(s, 16)`: a `long`, or `NumberFormatException` (the full outcome is `ParseHex` over the `long` range) |
| JavaLang.ParseFormatHex | java/src/main/java/ola/object/UID.java:161-162 | parsing what `%0nX` printed gives the number back whenever the range holds it |
| JavaLang.SplitOnColon | java/src/main/java/ola/object/UID.java:154 | `split(":")`: a string without `:` is its own single field; no field contains `:`; the last field is non-empty unless the string had no `:`. With a `:`, the fields are those between the colons with only trailing empty ones dropped |
| JavaLang.SplitAtColonsJoin | java/src/main/java/ola/object/UID.java:154 | the fields between the colons, joined back with `:`, give the text back |
| JavaLang.DropTrailingEmpty | java/src/main/java/ola/object/UID.java:154 | `split` keeps a prefix of the fields that ends in a non-empty field and drops only empty ones |
| JavaLang.SplitOnColonTwoFields | java/src/main/java/ola/object/UID.java:154 | `"a:b".split(":")` with colon-free a and b, b non-empty, is `[a, b]` |
| JavaLang.SplitOnColonTrailingColon | java/src/main/java/ola/object/UID.java:154 | a trailing colon is dropped together with the empty field it opens |
| JavaLang.StringHashCode | java/src/main/java/ola/object/UID.java:105 | `String.hashCode` of the text is a Java `int` |
| JavaLang.StringHashCodeValue | java/src/main/java/ola/object/UID.java:105 | the `int` hash agrees modulo 2^32 with the polynomial s[0]·31^(n-1) + … + s[n-1] that `String.hashCode` promises |
| JavaLang.Wrap32 | java/src/main/java/ola/object/UID.java:104-106 | the `int` arithmetic of `String.hashCode`: the result is in `int` range and congruent to the exact value modulo 2^32 |
| UidAddressing.CheckManufacturerBounds | java/src/main/java/ola/object/UID.java:183-186 | a manufacturer id is valid exactly when it fits the four hex digits of the text |
| UidAddressing.CheckDeviceBounds | java/src/main/java/ola/object/UID.java:194-197 | a device id is valid exactly when it fits the eight hex digits of the text |
| UidAddressing.NewUid | java/src/main/java/ola/object/UID.java:55-68 | construction succeeds iff 0 ≤ manufacturer ≤ 65535 and 0 ≤ device ≤ 4294967295, keeping both ids; otherwise `IllegalArgumentException` |
| UidAddressing.ToString | java/src/main/java/ola/object/UID.java:69-101 | the text is 13 characters: 4 upper-case hex digits denoting the manufacturer, `:`, then 8 denoting the device |
| UidAddressing.ToStringInjective | java/src/main/java/ola/object/UID.java:69 | different UIDs have different texts |
| UidAddressing.Equals | java/src/main/java/ola/object/UID.java:109-118 | false for null; otherwise true iff the other object's text equals this UID's text |
| UidAddressing.EqualsIsValueEquality | java/src/main/java/ola/object/UID.java:109-118 | against another UID, `equals` holds iff both ids agree |
| UidAddressing.EqualsAcceptsMatchingText | java/src/main/java/ola/object/UID.java:117 | an object of another class with the same text is also accepted |
| UidAddressing.HashCode | java/src/main/java/ola/object/UID.java:104-106 | the hash is a Java `int` |
| UidAddressing.EqualsAgreesWithHashCode | java/src/main/java/ola/object/UID.java:104-118 | the UID's hash is the `String` hash of any text `equals` accepts; equal UIDs have equal hashes |
| UidAddressing.CompareTo | java/src/main/java/ola/object/UID.java:120-129 | 1 against null; otherwise negative, zero or positive exactly as the UID precedes, equals or follows the other (manufacturer first, then device) |
| UidAddressing.CompareToIsTotalOrder | java/src/main/java/ola/object/UID.java:120-129 | `compareTo` is antisymmetric and transitive, and returns 0 exactly when `equals` holds |
| UidAddressing.IsBroadcast | java/src/main/java/ola/object/UID.java:94-96 | `isBroadcast()`: the device id is 0xFFFFFFFF (its partner lemma follows) |
| UidAddressing.BroadcastIffAllManufacturerDevices | java/src/main/java/ola/object/UID.java:94-140 | the broadcast UIDs are exactly those `allManufacturerDevices` returns for their manufacturer |
| UidAddressing.AllDevices | java/src/main/java/ola/object/UID.java:261-263 | the all-devices UID is broadcast, with manufacturer 65535 |
| UidAddressing.AllManufacturerDevices | java/src/main/java/ola/object/UID.java:137-140 | for an in-range manufacturer, its broadcast UID; otherwise `IllegalArgumentException` |
| UidAddressing.FromString | java/src/main/java/ola/object/UID.java:152-175 | null text throws `NullPointerException`; a field count other than 2 gives null; any other exception is a `NumberFormatException` |
| UidAddressing.FromFields | java/src/main/java/ola/object/UID.java:161-174 | throws iff parsing either field throws, and then `NumberFormatException`. Otherwise the UID of the two parsed ids when both are in range, and null when either is not |
| UidAddressing.FromStringTwoFields | java/src/main/java/ola/object/UID.java:152-174 | for any text that splits into two fields: `fromString` throws iff `parseInt` of the first or `parseLong` of the second throws; otherwise it gives the UID of the parsed ids when both are in range, and null when either is out of range |
| UidAddressing.FromStringToString | java/src/main/java/ola/object/UID.java:152-175 | parsing the text of any UID gives that UID back |
| UidAddressing.FromStringFields | java/src/main/java/ola/object/UID.java:161-174 | a UID that `fromString` returns has exactly the two parsed field values as ids |
| UidAddressing.NextUid | java/src/main/java/ola/object/UID.java:212-225 | `nextUID` as written: null throws `NullPointerException`; the shared all-devices instance throws `UIDOutOfRangeException`; any other UID steps to a strictly later UID |
| UidAddressing.NextUidSeparateAllDevices | java/src/main/java/ola/object/UID.java:214-220 | an all-devices UID that is not the shared instance throws `IllegalArgumentException` instead |
| UidAddressing.NextUidByValue | java/src/main/java/ola/object/UID.java:212-225 | the corrected `nextUID`: throws `UIDOutOfRangeException` exactly on the all-devices value; otherwise returns a UID that compares greater |
| UidAddressing.NextUidAgreesByValue | java/src/main/java/ola/object/UID.java:212-225 | the corrected and the as-written `nextUID` agree on every input except a separately built all-devices UID |
| UidAddressing.NextUidIsImmediateSuccessor | java/src/main/java/ola/object/UID.java:219-224 | no UID lies strictly between a UID and its successor |
| UidAddressing.PreviousUid | java/src/main/java/ola/object/UID.java:240-254 | null throws `NullPointerException`; (0,0) throws `UIDOutOfRangeException`; otherwise returns a UID that compares smaller |
| UidAddressing.NextPreviousInverse | java/src/main/java/ola/object/UID.java:212-254 | `previousUID(nextUID(u)) == u` and `nextUID(previousUID(u)) == u` wherever the inner call succeeds |
| UidAddressing.ToStringOfZero | java/src/test/java/ola/object/UIDTest.java:16-24 | `UID(0,0)` prints as `0000:00000000` |
| UidAddressing.FromStringAllOnes | java/src/test/java/ola/object/UIDTest.java:151-157 | `"ffff:ffffffff"` parses to the all-devices UID |
| UidAddressing.FromStringThreeFields | java/src/test/java/ola/object/UIDTest.java:163-166 | `"1:2:3"` gives null |
| UidAddressing.FromStringTrailingColon | java/src/main/java/ola/object/UID.java:154-159 | `"1:2:"` parses to (1, 2), because `split` drops the trailing empty field |
| UidAddressing.FromStringManufacturerOutOfRange | java/src/test/java/ola/object/UIDTest.java:172-175 | `"10000:0"` gives null |
| UidAddressing.FromStringDeviceOutOfRange | java/src/test/java/ola/object/UIDTest.java:199-202 | `"0:100000000"` gives null |
| UidAddressing.FromStringNotHex | java/src/test/java/ola/object/UIDTest.java:181-193 | `"text:0"` and `"0:text"` throw `NumberFormatException` |
| Status.FromController | java/src/main/java/ola/RequestStatus.java:29-41 | FAILED iff the controller failed; CANCELLED iff it did not fail but was canceled; SUCCESS iff neither. The message is null on success and the controller's error text otherwise |
| Status.Succeeded | java/src/main/java/ola/RequestStatus.java:48-50 | `succeeded()`: the state is SUCCESS (its partner lemma follows) |
| Status.SucceededIffClean | java/src/main/java/ola/RequestStatus.java:48-50 | `succeeded()` holds iff the controller neither failed nor was canceled |
| Status.FailureTakesPrecedence | java/src/main/java/ola/RequestStatus.java:30-35 | a failed controller gives FAILED with its error text, whatever its cancel flag |
| Ports.CompareTo | java/src/main/java/ola/object/Port.java:112-114 | the sign of `compareTo` is the order of the two ids; 0 iff the ids are equal, whatever the other fields |
| Ports.CompareToAntisymmetric | java/src/main/java/ola/object/Port.java:112-114 | swapping the ports negates the result |
| Ports.CompareToTransitive | java/src/main/java/ola/object/Port.java:112-114 | the comparisons chain, and ports that compare equal compare alike against every third port |
| Universes.NewUniverseWithMode | java/src/main/java/ola/object/Universe.java:52-60 | throws `IllegalArgumentException` iff the merge mode is null; otherwise keeps id, name (unchecked) and mode |
| Universes.NewUniverse | java/src/main/java/ola/object/Universe.java:40-42 | the two-argument constructor never throws and sets the merge mode to HTP |
| Devices.SortById | java/src/main/java/ola/object/BasicDevice.java:75-76 | the order `Collections.sort` leaves a port list in, of the same length; the lemmas below prove it sorted, a permutation, and stable |
| Devices.SortByIdStable | java/src/main/java/ola/object/BasicDevice.java:75-76 | stability: for every id, the ports with that id appear in the sorted list in their original order |
| Devices.InsertByIdWithId | java/src/main/java/ola/object/BasicDevice.java:75-76 | an insertion keeps the ports of each id in order and puts the new port after the ones with its id |
| Devices.InsertById | java/src/main/java/ola/object/BasicDevice.java:75-76 | inserting a port adds exactly one element |
| Devices.InsertByIdPermutes | java/src/main/java/ola/object/BasicDevice.java:75-76 | insertion keeps the ports and adds the new one (as multisets) |
| Devices.InsertByIdSorted | java/src/main/java/ola/object/BasicDevice.java:75-76 | insertion into an id-sorted list keeps it sorted |
| Devices.InsertByIdAt | java/src/main/java/ola/object/BasicDevice.java:75-76 | the new port lands right after the last port whose id is not larger |
| Devices.SortByIdSorted | java/src/main/java/ola/object/BasicDevice.java:74-76 | the sorted list is non-decreasing by id |
| Devices.SortByIdPermutes | java/src/main/java/ola/object/BasicDevice.java:71-76 | the sorted list is a permutation of the given list |
| Devices.SortByIdOfSorted | java/src/main/java/ola/object/BasicDevice.java:74-76 | a list already in id order is left as it is |
| Devices.InsertPortAt | java/src/main/java/ola/object/BasicDevice.java:75-76 | one pass of the in-place sort: the first i + 1 ports become the insertion of port i into the first i, and the rest is unchanged |
| Devices.SortPortsById | java/src/main/java/ola/object/BasicDevice.java:75-76 | the in-place sort leaves the array holding `SortById` of its old contents |
| Devices.CopyPorts | java/src/main/java/ola/object/BasicDevice.java:71-72 | `new ArrayList<>(list)`: a fresh array with the same ports in the same order |
| Devices.BasicDevice.constructor | java/src/main/java/ola/object/BasicDevice.java:58-77 | keeps id, alias, name and plugin id. Stores fresh, distinct copies that are sorted by id and are permutations of the given lists. Leaves the caller's lists unchanged, even when one list is passed twice |
| Devices.BasicDevice.GetInputPorts | java/src/main/java/ola/object/BasicDevice.java:121-125 | a fresh copy of the stored input ports |
| Devices.BasicDevice.GetOutputPorts | java/src/main/java/ola/object/BasicDevice.java:133-137 | a fresh copy of the stored output ports |
| Devices.NewBasicDevice | java/src/main/java/ola/object/BasicDevice.java:58-77 | throws `NullPointerException` iff the id or either port list is null; otherwise gives a device as the constructor does |
| Devices.ReadAfterOverwrite | java/src/main/java/ola/object/BasicDevice.java:121-125 | overwriting a list a getter returned does not change what the next call returns, which is still sorted |
| Codec.ByteCast | java/src/main/java/ola/OlaAsyncClient.java:1051 | `(byte) v` is the Java byte congruent to v modulo 256 |
| Codec.UnsignedValue | java/src/main/java/ola/OlaAsyncClient.java:1063 | `(short) (b & 0xFF)` is in [0, 255] and congruent to b modulo 256 |
| Codec.EncodeLevels | java/src/main/java/ola/OlaAsyncClient.java:1048-1054 | one byte per level |
| Codec.DecodeLevels | java/src/main/java/ola/OlaAsyncClient.java:1059-1066 | one level per byte |
| Codec.LowByteKept | java/src/main/java/ola/OlaAsyncClient.java:1048-1066 | encoding then decoding a level keeps exactly its low 8 bits |
| Codec.ByteRestored | java/src/main/java/ola/OlaAsyncClient.java:1048-1066 | decoding then encoding a byte gives the byte back |
| Codec.DecodeEncode | java/src/main/java/ola/OlaAsyncClient.java:1048-1066 | `convertFromUnsigned(convertToUnsigned(v)) == v` when every level is in [0, 255] |
| Codec.DecodeEncodeTruncates | java/src/main/java/ola/OlaAsyncClient.java:1048-1066 | for any levels, the round trip gives each level modulo 256 |
| Codec.EncodeDecode | java/src/main/java/ola/OlaAsyncClient.java:1048-1066 | bytes survive decoding and re-encoding unchanged |
| Client.PortOf | java/src/main/java/ola/OlaAsyncClient.java:402-404 | each `PortInfo` field is carried into the `Port` |
| Client.PortsOf | java/src/main/java/ola/OlaAsyncClient.java:399-414 | one port per record, in order |
| Client.UniverseOf | java/src/main/java/ola/OlaAsyncClient.java:480-481 | the `Universe` constructor succeeds on a protocol record, whose merge mode is never null |
| Client.InstanceOfFailure | java/src/main/java/ola/OlaAsyncClient.java:1038-1043 | always throws `IllegalArgumentException` |
| Client.OlaAsyncClient.constructor | java/src/main/java/ola/OlaAsyncClient.java:98-102 | a new client has no push callbacks |
| Client.OlaAsyncClient.RegisterUniverse | java/src/main/java/ola/OlaAsyncClient.java:654-677 | a null action throws `NullPointerException` from the request builder and leaves the registry unchanged. Otherwise it returns `true`: REGISTER maps the universe to the callback, replacing any earlier entry, and UNREGISTER removes the entry. All other entries are unchanged, and the update happens whatever the RPC's outcome |
| Client.OlaAsyncClient.UpdateDmxData | java/src/main/java/ola/OlaAsyncClient.java:798-805 | with no entry, nothing is invoked and no ack is sent. With an entry, the callback gets the decoded levels once (then the ack); a null entry throws `NullPointerException`. The registry is unchanged |
| Client.OlaAsyncClient.ConvertToUnsigned | java/src/main/java/ola/OlaAsyncClient.java:1048-1054 | the loop yields `EncodeLevels` of the array |
| Client.OlaAsyncClient.ConvertFromUnsigned | java/src/main/java/ola/OlaAsyncClient.java:1059-1066 | the loop fills a fresh array with `DecodeLevels` of the bytes |
| Client.OlaAsyncClient.PluginsComplete | java/src/main/java/ola/OlaAsyncClient.java:250-273 | status from the controller; null payload iff not SUCCESS; otherwise one plugin per record, in order, id and name carried over |
| Client.OlaAsyncClient.PluginDescriptionComplete | java/src/main/java/ola/OlaAsyncClient.java:323-338 | status from the controller; on success the description, otherwise null |
| Client.OlaAsyncClient.DecodePorts | java/src/main/java/ola/OlaAsyncClient.java:399-414 | the loop builds a fresh port list, one port per record, in order |
| Client.OlaAsyncClient.DecodeDevice | java/src/main/java/ola/OlaAsyncClient.java:397-418 | the device built from a record carries its fields, and its port lists are the records' ports sorted by id |
| Client.OlaAsyncClient.DeviceInfoComplete | java/src/main/java/ola/OlaAsyncClient.java:384-422 | status from the controller; null payload iff not SUCCESS; otherwise one device per record, in order, each decoded as above |
| Client.OlaAsyncClient.UniverseInfoComplete | java/src/main/java/ola/OlaAsyncClient.java:466-485 | status from the controller; null payload iff not SUCCESS; otherwise one universe per record, in order, with id, name and merge mode carried over |
| Client.OlaAsyncClient.DmxComplete | java/src/main/java/ola/OlaAsyncClient.java:529-542 | status from the controller. On failure: null levels and universe -1. Otherwise: the decoded levels and the reply's universe |
| Client.OlaAsyncClient.AckMessageComplete | java/src/main/java/ola/OlaAsyncClient.java:573-581 | status from the controller; `true` on success, null otherwise |
| Client.OlaAsyncClient.ConfigureDeviceComplete | java/src/main/java/ola/OlaAsyncClient.java:744-752 | not SUCCESS: a null payload. SUCCESS: the decoded reply data, and a null reply throws `NullPointerException` |
| Client.OlaAsyncClient.GetUidsComplete | java/src/main/java/ola/OlaAsyncClient.java:832-854 | status from the controller; on success always an empty list, since the reply is never decoded |
| Client.OlaAsyncClient.OnPluginsReply | java/src/main/java/ola/OlaAsyncClient.java:218-235 | throws `IllegalArgumentException`, with no invocation, iff the reply is null or not a `PluginListReply`. Otherwise: status from the controller, and on success one plugin per record, in order, with id and name carried over |
| Client.OlaAsyncClient.OnPluginDescriptionReply | java/src/main/java/ola/OlaAsyncClient.java:288-306 | the same guard for `PluginDescriptionReply` |
| Client.OlaAsyncClient.OnDevicesReply | java/src/main/java/ola/OlaAsyncClient.java:352-369 | the same guard for `DeviceInfoReply`. Otherwise: status from the controller, and on success one device per record, in order, each built from its record with id-sorted port lists |
| Client.OlaAsyncClient.OnUniversesReply | java/src/main/java/ola/OlaAsyncClient.java:435-452 | the same guard for `UniverseInfoReply`. Otherwise: status from the controller, and on success one universe per record, in order, with id, name and merge mode carried over |
| Client.OlaAsyncClient.OnDmxReply | java/src/main/java/ola/OlaAsyncClient.java:500-514 | the same guard for `DmxData`, throwing through `throwExceptionForInstanceOfFailure`. Otherwise: status from the controller. On failure: null levels and universe -1. On success: the decoded levels and the reply's universe |
| Client.OlaAsyncClient.OnDeviceConfigReply | java/src/main/java/ola/OlaAsyncClient.java:728-733 | unchecked cast: another reply type throws `ClassCastException`. A null reply reaches the handler, which throws `NullPointerException` on success and otherwise delivers null. A `DeviceConfigReply` gives the status from the controller, and on success its decoded data |
| Client.OlaAsyncClient.OnUidListReply | java/src/main/java/ola/OlaAsyncClient.java:819-824 | unchecked cast: throws `ClassCastException` iff the reply is a non-null message of another type; otherwise the handler's invocation |
| Client.PushLifecycle | java/src/main/java/ola/OlaAsyncClient.java:654-805 | data pushed for a registered universe reaches its callback. Data for an unregistered universe, or for the universe after unregistering, is dropped |

## Left out

- The RPC transport is not modelled: `callRpcMethod`, `StreamRpcChannel`, the service stub and the protocol-buffer builders of the requests (`OlaAsyncClient.java:98-208` and the request-building part of each public method). The channel's outcome is an input to each handler instead.
- Two request-building quirks are not modelled:
  - `patchPort` sets `isOutput` twice, the second time to `true`;
  - `sendDmx` builds a `DmxData` but sends a plain `UniverseRequest`.
- The RDM paths (`RDMMessage`, `sendRawRDMDiscovery`) are not modelled. They forward the raw reply with a null status.
- The `main` loop and all logging are not modelled.
- `universeCallbacks` is an unsynchronised `HashMap` used from the RPC thread. The registry is modelled sequentially.
- The callbacks are not called. Each handler returns the invocation it would make, and `updateDmxData`'s `done.run(Ack)` is folded into `Delivered`.
- Levels appear as the contents of the `short[]` handed to a callback, not as an array object the callback could keep.
- These null arguments are not modelled:
  - a null `values` array in `convertToUnsigned`;
  - a null `request` or `done` in `updateDmxData`;
  - null elements inside port lists;
  - a null `otherPort` in `Port.compareTo`.
  Each would throw `NullPointerException`.
- `new RequestStatus(null)` is not modelled: the controller is always present here, so the `NullPointerException` the Java constructor would throw on a null controller does not arise.
- `Port`, `Universe`, `BasicDevice` and `RequestStatus` getters are not separate members. The getters return the final fields, which are the datatype's or class's fields here.
- `Integer.parseInt`/`Long.parseLong` accept only ASCII digits in this model. Java also accepts other Unicode digits.
- `String.hashCode` is computed over the characters as given. The UID text is ASCII, so this matches Java's UTF-16 code units.
- JavaLang.SplitAtColons: only `:` as a literal separator is modelled, which is all `fromString` uses of `String.split`'s regular expression.

## Findings

| source | as written | input that shows it | evidently intended | confidence | as-written member | corrected member |
|---|---|---|---|---|---|---|
| java/src/main/java/ola/object/UID.java:214 | `nextUID` compares `uid == UID.allDevices()` by reference, so only the shared instance is refused | `UID.nextUID(new UID(0xFFFF, 0xFFFFFFFFL))` throws `IllegalArgumentException` from `new UID(65536, 0)` rather than `UIDOutOfRangeException` | refuse every UID equal to all-devices with `UIDOutOfRangeException` | not executed | UidAddressing.NextUid (shown by UidAddressing.NextUidSeparateAllDevices) | UidAddressing.NextUidByValue |
