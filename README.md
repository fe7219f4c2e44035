# device-sdk-go core, modelled in Dafny

This project models the core of the EdgeX device service SDK for Go
(`device-sdk-go`). The SDK runs a device service. It caches device
profiles and devices, takes a command request for a device, resolves the
command's resource operations into requests to a protocol driver, and
turns the values the driver returns into an event of readings.

The model has these layers:

- **Typed values** (`commandvalue.dfy`, `commandresult.dfy`, on top of
  `bigendian.dfy` and `text.dfy`).
  - A `CommandValue` carries a type tag and an origin timestamp.
  - A numeric or bool value is stored as its big-endian encoding; a string
    value is stored in its own field.
  - Each variant has a factory, a typed accessor, a decimal rendering, a
    labelled `String()` form and a `Reading`.
  - `CommandResult` is the older twin of `CommandValue`. It also records the
    resource operation and value descriptor it answers. It is its own
    module because the two Go files declare the same names.
  - Only the bool, string and 8/16/32/64-bit integer variants are modelled.
- **Metadata caches** (`profiles.dfy`, `devices.dfy`, with `indexing.dfy`).
  - The caches are classes whose map fields the methods update in place.
  - The profile cache keeps five maps in step: profiles, device objects,
    get operations, set operations and commands. Every method keeps the
    `Valid()` invariant: one key set for all five maps, and indexes that are
    exactly those the stored profile yields.
  - The device cache keeps one map of devices by name.
- **Command handling** (`command.dfy`).
  - The guard sequence of `CommandHandler`: service lock, device lookup by
    id, device admin lock, command existence.
  - `execGetCmd`:
    1. The operation list lookup.
    2. The `MaxCmdOps` bound.
    3. All-or-nothing resolution of each operation's device object.
    4. One driver call.
    5. One reading per driver result.
    6. The sticky `transformsOK` flag, which returns the event together
       with an error.
  - The driver, the transform, the `%v` formatting of a value and the clock
    are fields of a `Context` parameter.
- **Transforms and helpers** (`transformresult.dfy`, `utils.dfy`).
  - `MapCommandValue` is a table lookup that produces a string value.
  - `CheckAssertion` disables the device in place when the assertion fails.
  - `BuildAddr` and `CommandValueToReading` are the service helpers.

Every imperative Go loop is a Dafny method with a loop whose invariants tie
it to a specification function. Examples: the slice-to-map builders, the
cache constructors, `All`, and the two loops of `execGetCmd`. The lemmas
about those functions state what the source promises. Values are Dafny
datatypes, so no operation can change its input value in place.
`MapCommandValue`, for example, leaves its input as it was.

The transformer and the helpers call `ValueToString()` on a command value.
`model/commandvalue.go` defines only `toString()`, so both call sites are
read as calls to that rendering. Every caller in the model renders a value
with `ToString`, the rendering as written: `String()`, `Reading`, the
mapping, the assertion and `CommandValueToReading`. A payload shorter than
its type therefore renders as "false" or "0" everywhere (see "## Findings").

## Model

| member | source | states |
|---|---|---|
| BigEndian.DecodeEncode | model/commandvalue.go:167-183 | decoding the width-byte big-endian encoding of x gives x back |
| BigEndian.EncodeDecode | model/commandvalue.go:167-183 | encoding a decoded byte string at its own width gives the same bytes |
| BigEndian.FromToUnsigned | model/commandvalue.go:167-183 | two's-complement conversion to unsigned and back is the identity on the signed range |
| BigEndian.Read | model/commandvalue.go:177-183 | a big-endian read succeeds exactly when the buffer holds the value's width, yields a value of the requested type, and otherwise fails with "EOF" (empty) or "unexpected EOF" (short) |
| BigEndian.ReadWrite | model/commandvalue.go:167-183 | reading back what was written, into a value of the same type, yields the written value |
| BigEndian.ReadUnsignedShort | model/commandvalue.go:177-183 | a buffer shorter than the width fails with EOF or unexpected EOF |
| Text.IntToDecimalRoundTrip | model/commandvalue.go:202-285 | the decimal rendering of every integer parses back to that integer |
| Text.ParseDecimalRoundTrip | model/commandvalue.go:202-285 | a canonical decimal string is the rendering of the integer it parses to |
| Text.IntToDecimalInjective | model/commandvalue.go:202-285 | distinct integers render to distinct decimal strings |
| Text.FormatBool | model/commandvalue.go:211-217 | a bool renders as "true" exactly when it is true, else "false" |
| Text.ToLowerIsGet | internal/cache/profiles.go:149 | a method lowercases to "get" exactly when it is three letters g, e, t in any case |
| CommandValues.EncodeResult | model/commandvalue.go:167-175 | only the payload changes, its length is the value's width, and decoding it into the same type gives the value back |
| CommandValues.DecodeResult | model/commandvalue.go:177-183 | succeeds exactly when the payload holds a whole value, with a value of the requested type, else the read error |
| CommandValues.NewBoolValue | model/commandvalue.go:83-88 | keeps the origin, tags Bool, stores one byte, BoolValue returns (value, nil), renders "true"/"false" |
| CommandValues.NewStringValue | model/commandvalue.go:90-95 | keeps the origin, tags String, no numeric payload, StringValue returns (value, nil), renders the text verbatim |
| CommandValues.NewUint8Value | model/commandvalue.go:98-102 | keeps the origin, tags Uint8, stores 1 byte, Uint8Value returns (value, nil), renders the decimal |
| CommandValues.NewUint16Value | model/commandvalue.go:105-109 | keeps the origin, tags Uint16, stores 2 bytes, Uint16Value returns (value, nil), renders the decimal |
| CommandValues.NewUint32Value | model/commandvalue.go:112-116 | keeps the origin, tags Uint32, stores 4 bytes, Uint32Value returns (value, nil), renders the decimal |
| CommandValues.NewUint64Value | model/commandvalue.go:119-123 | keeps the origin, tags Uint64, stores 8 bytes, Uint64Value returns (value, nil), renders the decimal |
| CommandValues.NewInt8Value | model/commandvalue.go:126-130 | keeps the origin, tags Int8, stores 1 byte, Int8Value returns (value, nil), renders the signed decimal |
| CommandValues.NewInt16Value | model/commandvalue.go:133-137 | keeps the origin, tags Int16, stores 2 bytes, Int16Value returns (value, nil), renders the signed decimal |
| CommandValues.NewInt32Value | model/commandvalue.go:140-144 | keeps the origin, tags Int32, stores 4 bytes, Int32Value returns (value, nil), renders the signed decimal |
| CommandValues.NewInt64Value | model/commandvalue.go:147-151 | keeps the origin, tags Int64, stores 8 bytes, Int64Value returns (value, nil), renders the signed decimal |
| CommandValues.ToString | model/commandvalue.go:202-285 | as written: a string's text; a whole payload renders as its decoded value; a short payload renders as the zero value ("false" or "0") |
| CommandValues.CorrectedToString | model/commandvalue.go:202-285 | corrected rendering: a string's text; a short payload renders as the read error text |
| CommandValues.ToStringAgrees | model/commandvalue.go:202-285 | on a whole payload the rendering as written and the corrected one agree |
| CommandValues.ToStringHidesShortRead | model/commandvalue.go:202-285 | a one-byte Uint16 payload renders "0" as written but "unexpected EOF" when corrected |
| CommandValues.StringLayout | model/commandvalue.go:288-326 | String() reads back as the origin on the first line, then a label naming the value's own type, then the rendering as written (`ToString`) |
| CommandValues.Reading | model/commandvalue.go:186-199 | the reading carries the resource name, the device name and the rendering as written (`ToString`, so "0" or "false" for a short payload); its origin is the value's when positive, the clock otherwise |
| CommandValues.TransformResult | model/commandvalue.go:330-334 | the stub transform always reports success |
| CommandValues.BoolValue | model/commandvalue.go:336-343 | wrong tag gives (false, "the data type is not bool"); right tag succeeds exactly on a whole payload, else the read error; the result agrees with the rendering |
| CommandValues.StringValue | model/commandvalue.go:345-351 | always returns the stored text; error exactly when the tag is not String |
| CommandValues.Uint8Value | model/commandvalue.go:353-360 | wrong tag gives (0, "the data type is not uint8"); right tag succeeds exactly on a whole payload, else the read error; the decimal of the result is the rendering |
| CommandValues.Uint16Value | model/commandvalue.go:362-369 | as Uint8Value, for uint16 |
| CommandValues.Uint32Value | model/commandvalue.go:371-378 | as Uint8Value, for uint32 |
| CommandValues.Uint64Value | model/commandvalue.go:380-387 | as Uint8Value, for uint64 |
| CommandValues.Int8Value | model/commandvalue.go:389-396 | as Uint8Value, for int8 |
| CommandValues.Int16Value | model/commandvalue.go:398-405 | as Uint8Value, for int16 |
| CommandValues.Int32Value | model/commandvalue.go:407-414 | as Uint8Value, for int32 |
| CommandValues.Int64Value | model/commandvalue.go:416-423 | as Uint8Value, for int64 |
| CommandValues.BoolReadings | model/commandvalue_test.go:43-69 | readings of false and true values read "false" and "true" |
| CommandValues.StringReading | model/commandvalue_test.go:94-114 | a string value's reading is the string verbatim |
| CommandValues.UnsignedReadings | model/commandvalue_test.go:170-223 | 42 as uint8 reads "42", 65535 as uint16 reads "65535" |
| CommandValues.Uint32Reading | model/commandvalue_test.go:276 | 4294967295 as uint32 reads "4294967295" |
| CommandValues.Uint64MaxReading | model/commandvalue_test.go:335 | 18446744073709551615 as uint64 reads "18446744073709551615" |
| CommandValues.Int8Readings | model/commandvalue_test.go:368-396 | -128 and 127 as int8 read "-128" and "127" |
| CommandValues.Int16MinReading | model/commandvalue_test.go:427 | -32768 as int16 reads "-32768" |
| CommandValues.Int16MaxReading | model/commandvalue_test.go:455 | 32767 as int16 reads "32767" |
| CommandValues.Int32MinReading | model/commandvalue_test.go:486 | -2147483648 as int32 reads "-2147483648" |
| CommandValues.Int32MaxReading | model/commandvalue_test.go:514 | 2147483647 as int32 reads "2147483647" |
| CommandValues.Int64MinReading | model/commandvalue_test.go:550 | -9223372036854775808 as int64 reads "-9223372036854775808" |
| CommandValues.Uint64OriginReading | model/commandvalue_test.go:286-293 | a factory's positive origin of 42 becomes the reading's origin |
| CommandResults.EncodeResult | model/commandresult.go:175-183 | only the payload changes, its length is the value's width, and decoding it gives the value back |
| CommandResults.NewBoolResult | model/commandresult.go:91-96 | records RO, VDR, origin and the Bool tag, one byte, BoolValue returns (value, nil) |
| CommandResults.NewStringResult | model/commandresult.go:98-103 | records RO, VDR, origin and the String tag, no numeric payload, StringValue returns (value, nil) |
| CommandResults.NewUint8Result | model/commandresult.go:106-110 | records RO, VDR, origin and the tag, 1 byte, Uint8Value returns (value, nil) |
| CommandResults.NewUint16Result | model/commandresult.go:113-117 | records RO, VDR, origin and the tag, 2 bytes, Uint16Value returns (value, nil) |
| CommandResults.NewUint32Result | model/commandresult.go:120-124 | records RO, VDR, origin and the tag, 4 bytes, Uint32Value returns (value, nil) |
| CommandResults.NewUint64Result | model/commandresult.go:127-131 | records RO, VDR, origin and the tag, 8 bytes that decode back to the value (there is no Uint64 accessor) |
| CommandResults.NewInt8Result | model/commandresult.go:134-138 | records RO, VDR, origin and the tag, 1 byte, Int8Value returns (value, nil) |
| CommandResults.NewInt16Result | model/commandresult.go:141-145 | records RO, VDR, origin and the tag, 2 bytes, Int16Value returns (value, nil) |
| CommandResults.NewInt32Result | model/commandresult.go:148-152 | records RO, VDR, origin and the tag, 4 bytes, Int32Value returns (value, nil) |
| CommandResults.NewInt64Result | model/commandresult.go:155-159 | records RO, VDR, origin and the tag, 8 bytes, Int64Value returns (value, nil) |
| CommandResults.ToString | model/commandresult.go:218-315 | as written: a short payload renders as the zero value |
| CommandResults.CorrectedToString | model/commandresult.go:218-315 | corrected rendering: a short payload renders as the read error text |
| CommandResults.ToStringAgrees | model/commandresult.go:218-315 | on a whole payload the rendering as written and the corrected one agree |
| CommandResults.ToStringHidesShortRead | model/commandresult.go:218-315 | a two-byte Int32 payload renders "0" as written but "unexpected EOF" when corrected |
| CommandResults.DescribeLayout | model/commandresult.go:318-358 | String() is the RO text's line, the VDR text's line, then the payload's own String(), which ends in the rendering as written |
| CommandResults.Reading | model/commandresult.go:202-215 | name, device and the rendering as written (`ToString`); the origin is the result's when positive, the clock otherwise |
| CommandResults.Transform | model/commandresult.go:197-199 | the stub reports no error |
| CommandResults.TransformResult | model/commandresult.go:362-366 | the stub always reports success |
| CommandResults.BoolValue | model/commandresult.go:368-375 | wrong tag gives (false, "the data type is not bool"); right tag succeeds exactly on a whole payload, else the read error |
| CommandResults.StringValue | model/commandresult.go:377-383 | always returns the stored text; error exactly when the tag is not String |
| CommandResults.Uint8Value | model/commandresult.go:385-392 | wrong tag gives (0, "the data type is not uint8"); right tag succeeds exactly on a whole payload, else the read error |
| CommandResults.Uint16Value | model/commandresult.go:394-401 | as Uint8Value, for uint16 |
| CommandResults.Uint32Value | model/commandresult.go:403-410 | as Uint8Value, for uint32 |
| CommandResults.Int8Value | model/commandresult.go:412-419 | as Uint8Value, for int8 |
| CommandResults.Int16Value | model/commandresult.go:421-428 | as Uint8Value, for int16 |
| CommandResults.Int32Value | model/commandresult.go:430-437 | as Uint8Value, for int32 |
| CommandResults.Int64Value | model/commandresult.go:439-446 | as Uint8Value, for int64 |
| Indexing.IndexByKeys | internal/cache/profiles.go:69-75 | the map built from a slice has exactly the elements' keys |
| Indexing.IndexByOrigin | internal/cache/profiles.go:69-75 | each entry is the value of the last element with that key |
| Indexing.IndexByLast | internal/cache/profiles.go:69-75 | the last element with a key is what the map holds for that key |
| Indexing.IndexBySnoc | internal/cache/profiles.go:69-75 | inserting one more element updates the map at its key only |
| Indexing.Values | internal/cache/profiles.go:47-55 | ranging over a map yields each stored value exactly once, and nothing else |
| ProfileCaches.DeviceObjectSliceToMap | internal/cache/profiles.go:69-75 | the loop builds the map of device objects by name, last duplicate winning |
| ProfileCaches.ProfileResourceSliceToMaps | internal/cache/profiles.go:77-85 | the loop builds the get-list and set-list maps by resource name |
| ProfileCaches.CommandSliceToMap | internal/cache/profiles.go:87-93 | the loop builds the map of commands by name |
| ProfileCaches.StorePreservesCoherent | internal/cache/profiles.go:57-67 | writing a profile and its rebuilt indexes under its name keeps the five maps in step |
| ProfileCaches.RemovePreservesCoherent | internal/cache/profiles.go:107-118 | deleting a name from all five maps keeps them in step |
| ProfileCaches.OpsIndexed | internal/cache/profiles.go:77-85 | a command is in an operation map exactly when some resource has its name, with the last such resource's list |
| ProfileCaches.ProfileCache.constructor | internal/cache/profiles.go:174-191 | the profiles are keyed by name, later duplicates overwriting earlier ones, with all indexes in step |
| ProfileCaches.ProfileCache.ForName | internal/cache/profiles.go:42-45 | found exactly when the name is cached, and the profile carries that name |
| ProfileCaches.ProfileCache.All | internal/cache/profiles.go:47-55 | one entry per stored profile, each a stored profile, no name twice |
| ProfileCaches.ProfileCache.Add | internal/cache/profiles.go:57-67 | a cached name gives "device profile N has already existed in cache" and no change; otherwise all five maps gain the name |
| ProfileCaches.ProfileCache.Store | internal/cache/profiles.go:62-65 | all five maps are written at the profile's name, with indexes rebuilt from that profile alone |
| ProfileCaches.ProfileCache.Update | internal/cache/profiles.go:95-105 | an unknown name gives "device profile N does not exist in cache" and no change; otherwise that entry and its indexes are replaced |
| ProfileCaches.ProfileCache.RemoveByName | internal/cache/profiles.go:107-118 | an unknown name gives the error and no change; otherwise the name leaves all five maps and nothing else changes |
| ProfileCaches.ProfileCache.DeviceObject | internal/cache/profiles.go:120-128 | found exactly when the profile is cached and declares an object of that name; it is the last such declaration |
| ProfileCaches.ProfileCache.CommandExists | internal/cache/profiles.go:132-144 | an unknown profile gives its error; otherwise (true, nil) exactly when the profile declares the command |
| ProfileCaches.ProfileCache.ResourceOperations | internal/cache/profiles.go:147-172 | distinct errors for an unknown profile and an unknown command; otherwise the last matching resource's get list when the method lowercases to "get", else its set list |
| ProfileCaches.ProfileCacheOnce.NewProfileCache | internal/cache/profiles.go:174-191 | only the first call builds the cache; later calls return the same cache; the cache returned is always valid |
| DeviceCaches.DeviceCache.constructor | internal/cache/devices.go:75-86 | devices are keyed by name, later duplicates overwriting earlier ones |
| DeviceCaches.DeviceCache.ForName | internal/cache/devices.go:33-36 | found exactly when the name is cached, and the device carries that name |
| DeviceCaches.DeviceCache.ForId | internal/handler/command.go:37-43 | none exactly when no cached device has the id; otherwise a cached device with that id |
| DeviceCaches.DeviceCache.All | internal/cache/devices.go:38-46 | len(dMap) entries, each a stored device, no name twice, every stored device present |
| DeviceCaches.DeviceCache.Add | internal/cache/devices.go:48-55 | a cached name gives "device N has already existed in cache" and no change; otherwise the device is inserted and ForName then finds it |
| DeviceCaches.DeviceCache.Update | internal/cache/devices.go:57-64 | an unknown name gives "device N does not exist in cache" and no change; otherwise only that entry is replaced |
| DeviceCaches.DeviceCache.Remove | internal/cache/devices.go:66-73 | an unknown name gives the error and no change; otherwise only that entry is deleted |
| DeviceCaches.DeviceCacheOnce.NewDeviceCache | internal/cache/devices.go:75-86 | only the first call builds the cache; later calls return the same cache; the cache returned is always valid |
| Handler.RequestsSucceed | internal/handler/command.go:96-116 | requests are built exactly when every operation's object is declared; request i is operation i with its object |
| Handler.RequestsFailAtFirst | internal/handler/command.go:106-113 | a failure is the "no devobject" ServerError for the first operation whose object is missing |
| Handler.BuildRequests | internal/handler/command.go:96-116 | the first loop computes exactly those requests or that error |
| Handler.AssembleSucceeds | internal/handler/command.go:124-153 | assembly succeeds exactly when every result's object is declared; reading i is result i named after its object; the flag holds exactly when every transform held |
| Handler.AssembleFailsAtFirst | internal/handler/command.go:128-133 | a failure is the "no devobject … in Command Result" ServerError for the first result whose object is missing |
| Handler.AssembleReadings | internal/handler/command.go:124-153 | the second loop computes exactly those readings and that flag, or that error |
| Handler.ExecGet | internal/handler/command.go:79-174 | a failed operation lookup gives NotFoundError with the lookup's text; a driver failure after the guards gives the "HandleGetCommands error" ServerError with the driver's text; no event implies an error; an event is the device's, stamped by the clock; an event with an error means a transform failed |
| Handler.ExecGetCmd | internal/handler/command.go:79-174 | the method returns exactly the response ExecGet specifies |
| Handler.ExecPutCmd | internal/handler/command.go:176-178 | a set command reports no error |
| Handler.HandleDevice | internal/handler/command.go:45-76 | a locked device gives LockedError "N is locked; M"; a non-get method that succeeds returns no event |
| Handler.CommandHandler | internal/handler/command.go:26-77 | a locked service gives LockedError first; an unknown id gives NotFoundError "Device: I not found; M"; otherwise the outcome for a device with that id |
| Handler.LockedDeviceIgnoresProfiles | internal/handler/command.go:45-49 | a locked device is refused whatever the profile cache holds |
| Handler.HandleDeviceOutcomes | internal/handler/command.go:56-76 | a missing profile gives the internal ServerError; a missing command gives NotFoundError; otherwise get runs ExecGet and any other method returns (nil, nil) |
| Handler.TooManyOpsIgnoresDriver | internal/handler/command.go:89-94 | more operations than MaxCmdOps give the ServerError whatever the driver would do |
| Handler.MissingObjectIgnoresDriver | internal/handler/command.go:106-113 | an operation naming an undeclared object aborts with a ServerError and no event, whatever the driver would do |
| Handler.TransformFailureReported | internal/handler/command.go:124-167 | with all objects declared the event has one reading per driver result, and an error comes with it exactly when some transform failed |
| Handler.StubTransformNeverFails | internal/handler/command.go:135-138 | with the value's own stub transform an event never comes with an error |
| Transformer.MapCommandValue | internal/transformer/transformresult.go:44-51 | a hit exactly when the rendering as written (`ToString`) is a key; a hit is a new String value holding the mapped text with the input's origin |
| Transformer.MapThenRender | internal/transformer/transformresult.go:44-51 | a mapped value renders as the mapped text |
| Transformer.MapIdentity | internal/transformer/transformresult.go:44-51 | mapping a String value through a table sending each text to itself gives a String value with the same origin and text, and an empty numeric payload |
| Transformer.AssertionError | internal/transformer/transformresult.go:98-103 | an error exactly when the assertion is non-empty and differs from the rendering as written (`ToString`); when neither the assertion nor the rendering contains `%`, the message is the source's "assertion (A) failed with value: V" |
| Transformer.CheckAssertion | internal/transformer/transformresult.go:97-106 | returns AssertionError's result; on failure the device's operating state becomes DISABLED and nothing else changes; otherwise the device is unchanged |
| Transformer.AssertionHolds | internal/transformer/transformresult.go:98-105 | an empty assertion and an assertion equal to the rendering never fail |
| Transformer.ShortReadAsZero | internal/transformer/transformresult.go:98-103 | a short payload renders as its zero value, so it passes exactly the empty assertion and the one naming that value ("false" or "0") |
| Transformer.ShortReadExample | internal/transformer/transformresult.go:44-51 | a one-byte Uint16 payload passes the assertion "0" and maps through the key "0" |
| Common.BuildAddr | internal/common/utils.go:19-28 | the address is the scheme, then the host, then a colon, then the port |
| Common.BuildAddrSplit | internal/common/utils.go:19-28 | for a host without a colon, splitting the address gives the host and the port back |
| Common.BuildAddrInjective | internal/common/utils.go:19-28 | colon-free hosts and ports are determined by the address |
| Common.BuildAddrExample | common/utils_test.go:16-22 | BuildAddr("test.xyz", "8000") is "http://test.xyz:8000" |
| Common.CommandValueToReading | internal/common/utils.go:30-43 | name is the operation's parameter, device is devName, value is the rendering as written (`ToString`), origin is the value's when positive, the clock otherwise |
| Common.CommandValueToReadingIsReading | internal/common/utils.go:30-43 | it is the value's own Reading named after the operation's parameter |

## Left out

- Float32 and Float64 values: their factories, accessors and rendering are floating point, which the model does not cover.
- The float transforms (`TransformGetResult`, base, scale, offset, `replaceNumericValue`) and `internal/transformer/transformparam.go`: floating-point arithmetic.
- `async.go`: a goroutine consuming a channel. Concurrency is not modelled.
- HTTP routing, the command endpoints' response writing, self-registration, YAML provisioning and the metadata clients are not part of this model.
- Logging (`LogCli`) and every `fmt.Printf` call are dropped: the ones on codec errors and the `result: %v` print in the string and bool factories (`model/commandvalue.go:86`, `:93`; `model/commandresult.go:94`, `:101`). They have no effect on results.
- `SendEvent` and the `go sendEvent(event)` push in `execGetCmd` are network calls. The model returns the event and does not send it.
- Transformer.AssertionError, Transformer.CheckAssertion: the message is passed to `fmt.Errorf` as a format string (`internal/transformer/transformresult.go:101-103`), so a `%` in the assertion or in the rendered value is read as a verb ("50%" becomes "50%!)(MISSING)", "%%" becomes "%"). Go's format-verb handling is not modelled: the message is stated only for texts without `%`.
- `go common.DevCli.UpdateOpStateByName` in `CheckAssertion` is an asynchronous remote call. Only the local state change and the error are modelled.
- `sync.Once` is modelled as a class with a done flag (`ProfileCacheOnce`, `DeviceCacheOnce`). What happens when several threads call it at once is not modelled.
- The protocol driver's `HandleGetCommands`, the per-value transform and the `%v` formatting of a driver result are fields of `Handler.Context`. They are not defined here.
- The clock (`time.Now`) is a parameter `now`, in milliseconds.
- Handler.ExecGet: uses one clock reading for every reading and for the event origin. The source reads the clock separately each time.
- `encodeResult`'s `binary.Write` error path is left out. It cannot fail for the fixed-size values modelled.
- Go pointers to values become values. `encodeResult` becomes a functional update that returns the new value.
- `CommandResult` has no `decodeResult` of its own in the model. It uses `CommandValues.DecodeResult`, which does the same thing.
- Type tags outside the enumeration, which Go's integer `ValueType` would allow, cannot be expressed.
- Text.ToLower: lowercases ASCII letters only, where Go's `strings.ToLower` also folds other Unicode letters. The comparison with "get" turns out the same either way.
- DeviceCaches.DeviceCache.ForId: the source calls `cache.Devices().ForId`, which the `DeviceCache` interface does not declare. The model picks any cached device with the id; which one, when several share it, is left open.
- Handler.CommandHandler: because of that choice, the final outcome is stated for some device with the id rather than for a named one.
- CommandValueToReading's value has no RO field in `model/commandvalue.go`, so `Common.CommandValueToReading` takes the resource operation as an argument.
- `cr.RO.Object` in `execGetCmd` is not a field of `CommandValue`. Each driver result is modelled as an object name paired with a value (`Handler.DriverResult`).
- Handler.BuildRequests: the source fills a preallocated slice by index. The model appends to a sequence, with the same contents in the same order.
- Handler.Service: `maxCmdOps` is a `nat`. A negative `MaxCmdOps` setting makes `make([]models.Reading, 0, MaxCmdOps)` panic on entry to `execGetCmd` (`internal/handler/command.go:80`); that panic is not modelled. For a non-negative setting the capacity hint has no effect on contents.
- CommandResults.DescribeLayout and CommandResults.Describe: the `%v` formatting of the RO and VDR structs is not modelled. Their texts are the parameters `roText` and `vdrText`, and the layout is stated for texts without a line feed.
- ProfileCaches.ProfileCache.All and DeviceCaches.DeviceCache.All: the order depends on Go's map iteration and is left unspecified.
- Only the fields of the EdgeX metadata types that the service reads or writes are modelled (`models.dfy`).

## Findings

Both findings are the same dead store. In `toString`, the error text of a
failed `binary.Read` is assigned to `str` and then overwritten straight
away by the formatting of the zero value. So a payload shorter than its type
renders as "false" or "0" instead of the error. The model follows the code
as written: every caller uses `ToString`. The corrected rendering is
`CorrectedToString`, which keeps the error text, and `ToStringAgrees` proves
the two agree on every whole payload, so the correction changes only short
reads.

| source | as written | input that shows it | evidently intended | confidence | as-written member | corrected member |
|---|---|---|---|---|---|---|
| model/commandvalue.go:202-285 | the read error is assigned to `str`, then overwritten by formatting the zero value | `CommandValue` of type Uint16 with the one-byte payload [1]: renders "0" | a failed read renders as its error text, "unexpected EOF" | not executed | CommandValues.ToString | CommandValues.CorrectedToString |
| model/commandresult.go:218-315 | the same dead store in the result's `toString` | `CommandResult` of type Int32 with the two-byte payload [0, 0]: renders "0" | the error text, "unexpected EOF" | not executed | CommandResults.ToString | CommandResults.CorrectedToString |
