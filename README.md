# Water-dispenser telemetry hub: a Dafny model

This project models the device-state registry of the Water-Dispenser
telemetry servers and proves properties about it.

- **Real-time hub** (`server/index.js`). ESP32 scales connect on the
  `/device` channel. A connection starts anonymous. `register` binds it to a
  device id. `data` then replaces that device's record. Dashboards connect on
  the `/client` channel. On connecting they get the id list and every
  record. They send `command`s, which are relayed to the device channel.
  The map is saved to and loaded from a snapshot document.
- **HTTP variant** (`server/server-http.js`). The same kind of map, driven by
  request handlers: `/water-data` stores a reading, `/api/devices` and
  `/api/device-list` read the map, `/api/tare` zeroes a weight,
  `/api/set-target` recomputes the goal flag, and `/simulate-data` stores a
  simulated reading.
- **Dashboard monitor** (`src/components/WaterLevelMonitor.tsx`). The fill
  percentage shown for the selected device, and the first-device
  auto-selection when the device list loads.

Layout:

- `ordered_map.dfy`: `OrderedMaps.OMap`, an insertion-ordered string-keyed
  map. It is the JavaScript `Map`, and the plain object a snapshot is
  written as. `Valid()` says the key order lists every bound key exactly
  once.
- `hub.dfy`: module `Hub`. Each handler is a pure step function from the old
  map and the connection's owned id to the new ones and the emitted events.
  The classes `Hub` (the map) and `DeviceSocket` (one connection's
  `deviceId`) perform the same steps in place. `Register`, `Data` and
  `Disconnect` are each proved equal to their step function.
  `ObserverConnect` and `Save` are specified directly by the events or
  document they produce. `Load` is specified through `OMap.SetAll`, the
  in-order setting of a document's entries.
- `http_api.dfy`: module `HttpApi`. Pure handler functions, plus the class
  `HttpServer` whose methods update its map in place.
- `monitor.dfy`: module `Monitor`. The percentage over reals and the
  component state class `DeviceMonitor`.
- `wrappers.dfy`: `Option`.

Clocks, randomness and number parsing are parameters. `now` is the time
text a handler would take from `new Date()`. The random weight and distance
of `/simulate-data` are arguments. `parseFloat` is a function
`string -> Option<real>` in which `None` stands for NaN, and the dashboard
percentage is an `Option<real>` in the same sense. A `register` or
`data` payload is given as its fields after `JSON.parse`, or as `Malformed`
when parsing throws. A `command` payload is not parsed by its handler. It is
given as the raw value: an object's fields, or `NotObject` for anything
else, a JSON text included. Every emitted Socket.IO event is returned as a value that says who
receives it: all observers, the new observer only, or all devices.

The model follows the code as written, including where its comments suggest
otherwise. For example, server/index.js:128 says a command goes "al
dispositivo específico" (to the specific device):

- The code routes a command to no particular connection. It emits
  `command:<deviceId>` to every device connection, whether or not that id is
  registered, and reports no failure (server/index.js:126-132).
- The payload's own `timestamp` field overrides the hub's time, because the
  payload is spread after it (server/index.js:78-81).
- A `register` without a usable id and a `data` before `register` are
  dropped silently. Nothing is signalled.
- `/api/tare` on an unknown device still answers success.
- A command sent as JSON text is ignored, because the `command` handler never
  parses its payload and a string has no `deviceId` (server/index.js:126-127).
- A device registered as `"__proto__"` is kept in the map but lost from the
  saved snapshot and from the `/api/devices` reply. Both copy the map into a
  plain object with `obj[id] = record`, which for that key runs the prototype
  setter and creates no property (server/index.js:165-168,
  server/server-http.js:57-60). The reply's `count` still includes it.

## Model

| member | source | states |
|---|---|---|
| `OrderedMaps.Empty` | server/index.js:32 | a new `Map` is valid and has no entries and no keys |
| `OrderedMaps.OMap.Set` | server/index.js:32 | `Map.set` keeps the map valid and binds only the given key; a new key is appended to the key order, an existing key keeps its place, and the old order is always a prefix of the new one |
| `OrderedMaps.OMap.Size` | server/server-http.js:64 | `map.size`, the length of the key order, equals the number of bound keys |
| `OrderedMaps.OMap.Remove` | server/index.js:165-168 | the plain object filled by `obj[key] = value` for each entry is a valid ordered map holding every binding except the `"__proto__"` one, and it is the map itself when that key is absent |
| `OrderedMaps.OMap.SetAll` | server/index.js:150-152 | setting a list of entries in turn keeps the map valid |
| `OrderedMaps.SetAllVals` | server/index.js:150-152 | after setting a list of keys, each listed key holds its value from the source and every other key keeps its old value; no key is dropped |
| `OrderedMaps.SetAllKeepsOrder` | server/index.js:150-152 | setting a list of keys never drops or reorders the keys already present: the old order is a prefix of the new one |
| `Hub.DeviceIdOf` | server/index.js:46-48 | a payload names a device exactly when it parsed and its `deviceId` field is a non-empty string, and the id is that string |
| `Hub.Stamped` | server/index.js:78-81 | the stored record has every payload field, the payload's own `timestamp` included; the hub's time appears only when the payload has no `timestamp` |
| `Hub.OnRegister` | server/index.js:44-69 | without a usable id nothing changes and nothing is emitted; with one, the connection owns the id, an absent id gets the empty record appended at the end of the key order, existing records and the key order are otherwise untouched, and exactly one `device_list` with the keys in insertion order goes to all observers |
| `Hub.OnData` | server/index.js:72-92 | a malformed payload or an anonymous connection changes nothing and emits nothing; otherwise only the owned id's record changes, it is replaced wholesale by the stamped payload, the key order only grows, and one `device_data` carrying exactly that record goes to all observers |
| `Hub.OnDisconnect` | server/index.js:95-105 | one `device_status` `offline` event for the owned id exactly when the connection registered, none otherwise; the map is not an input |
| `Hub.OnCommand` | server/index.js:126-132 | an object payload naming a device is re-emitted unchanged to all device connections as `command:<deviceId>`; an object without a truthy id, and any non-object payload such as unparsed JSON text, emit nothing; the map is neither read nor written |
| `Hub.StepKeepsRecords` | server/index.js:44-105 | one `register`, `data` or disconnect removes no record, keeps the order of the known ids, and leaves an owned id with a record |
| `Hub.RunKeepsRecords` | server/index.js:39-106 | over any sequence of `register`/`data`/disconnect messages on a connection, no record is removed, the insertion order of known ids is a prefix of the final order, and an owned id always has a record |
| `Hub.RegisterIdempotent` | server/index.js:55-57 | registering twice with the same payload gives the same map, owner and events as registering once |
| `Hub.LastWriteWins` | server/index.js:78-81 | a second `data` from the same device leaves exactly the map that the second alone would leave; nothing of the first payload survives |
| `Hub.LoadOverrides` | server/index.js:144-160 | loading a document overrides the record of every saved id, keeps every other record, and keeps the known ids in their order |
| `Hub.SaveLoadRoundTrip` | server/index.js:144-175 | loading a document's own entries into an empty map reproduces the document: the same ids, records and order |
| `Hub.DeviceSocket.constructor` | server/index.js:41 | a new device connection owns no id |
| `Hub.Hub.constructor` | server/index.js:32 | the hub starts with an empty, valid map |
| `Hub.Hub.Register` | server/index.js:44-69 | updates the map and the connection's owned id, and emits, exactly as `OnRegister` specifies |
| `Hub.Hub.Data` | server/index.js:72-92 | updates the map and emits exactly as `OnData` specifies; the owned id is unchanged |
| `Hub.Hub.Disconnect` | server/index.js:95-105 | emits what `OnDisconnect` specifies and changes nothing |
| `Hub.Hub.ObserverConnect` | server/index.js:109-123 | the new observer receives one `device_list` with the keys in insertion order, then exactly one `device_data` per entry in that order, empty records included |
| `Hub.Hub.Save` | server/index.js:163-175 | the document built by the loop has exactly the map's id-to-record pairs in the map's order, except a `"__proto__"` device, which the prototype setter drops; without such a device it equals the map |
| `Hub.Hub.Load` | server/index.js:144-160 | a document's entries are set one by one in document order; a missing or unreadable file leaves the map unchanged |
| `Hub.SaveAndRestart` | server/index.js:144-175 | saving, starting a new hub and loading the document gives the same map less any `"__proto__"` device; without such a device, the same bindings in the same order, unless ids are integer-like (see "Left out") |
| `HttpApi.NumberOrZero` | server/server-http.js:39-40 | `parseFloat(x)`, falling back to 0, is the parsed number, or 0 when the parameter is absent or does not parse |
| `HttpApi.Ingested` | server/server-http.js:37-43 | the stored reading has the request time, the two parsed-or-zero numbers, and flags that are true exactly for the text `'true'` |
| `HttpApi.OnWaterData` | server/server-http.js:28-53 | without a `deviceId` the reply is 400 and the map is unchanged; otherwise only that id's reading is replaced by the ingested one, the key order only grows, and the reply is 200 |
| `HttpApi.OnTare` | server/server-http.js:78-115 | the key set and order never change; without a `deviceId` the reply is 400 and nothing changes; on a known device `peso` becomes 0, the other measurements are kept, and the time is refreshed; an unknown device is left alone and the reply is still success |
| `HttpApi.OnSetTarget` | server/server-http.js:118-173 | the key set and order never change; it checks the missing id, then the missing target, then a non-numeric target, each giving 400 with no change; on a known device the goal flag becomes `peso >= target` and the other measurements are kept; the target is echoed, not stored |
| `HttpApi.OnSimulate` | server/server-http.js:176-199 | the simulated id holds the given weight and distance, the goal flag is `peso >= 300`, the presence flag is `distancia < 5`, other readings are kept, and the reply carries the stored reading |
| `HttpApi.ServeKeepsKeys` | server/server-http.js:36-190 | one state-changing request (the `deviceData.set` calls at lines 37, 98, 153 and 185) removes no id, keeps the known order, and adds only the `/water-data` id or the simulated id |
| `HttpApi.KeysOnlyGrow` | server/server-http.js:36-190 | over any request sequence of the handlers that call `deviceData.set` (lines 37, 98, 153 and 185) no id is removed and the known order is a prefix of the final one; every id gained comes from a `/water-data` under that id or from `/simulate-data`, so tare and set-target never add one |
| `HttpApi.HttpServer.constructor` | server/server-http.js:25 | the server starts with an empty, valid map |
| `HttpApi.HttpServer.WaterData` | server/server-http.js:28-53 | updates the map and replies exactly as `OnWaterData` specifies |
| `HttpApi.HttpServer.ApiDevices` | server/server-http.js:56-67 | the reply holds every id-to-reading pair of the map except a `"__proto__"` device, which the prototype setter drops; `count` is the map size all the same, one more than the reply's entries exactly when such a device exists; and the request time |
| `HttpApi.HttpServer.ApiDeviceList` | server/server-http.js:70-75 | the reply lists the ids in first-insertion order, with `count` equal to the map size |
| `HttpApi.HttpServer.Tare` | server/server-http.js:78-115 | updates the map and replies exactly as `OnTare` specifies |
| `HttpApi.HttpServer.SetTarget` | server/server-http.js:118-173 | updates the map and replies exactly as `OnSetTarget` specifies |
| `HttpApi.HttpServer.SimulateData` | server/server-http.js:176-199 | updates the map and replies exactly as `OnSimulate` specifies |
| `Monitor.FillLevel` | src/components/WaterLevelMonitor.tsx:101-103 | the level lies in [0, 100]; it is 100 when the goal flag is set, whatever the weight; otherwise it is `peso/target*100` when that is already in [0, 100], else 0 below that range and 100 above it |
| `Monitor.WaterPercentage` | src/components/WaterLevelMonitor.tsx:98-104 | 0 with no selection; with a selected id and no own reading, NaN when the id names an inherited `Object.prototype` member (such as `"__proto__"` or `"constructor"`) and 0 otherwise; with a reading, its fill level, where a zero target gives 100 for a positive weight or a reached goal, 0 for a negative weight and NaN for a zero weight; every number is in [0, 100], and NaN arises in exactly those two cases |
| `Monitor.ProtoDeviceShowsNaN` | src/components/WaterLevelMonitor.tsx:50-104 | a `"__proto__"` device heading the device list, which never has a reading, is auto-selected and then shows NaN |
| `Monitor.FillLevelMonotone` | src/components/WaterLevelMonitor.tsx:102-103 | with a positive target and the same goal flag, a heavier reading never shows a lower level |
| `Monitor.FullAtTarget` | src/components/WaterLevelMonitor.tsx:102-103 | with a positive target, a weight at or above the target shows 100 even when the goal flag is not set |
| `Monitor.AutoSelect` | src/components/WaterLevelMonitor.tsx:51-53 | a non-empty list with nothing selected selects its first id; an existing selection is never replaced; an empty list changes nothing |
| `Monitor.DeviceMonitor.constructor` | src/components/WaterLevelMonitor.tsx:28-34 | no devices, no selection, no readings, loading, no error, target 300 |
| `Monitor.DeviceMonitor.LoadDevices` | src/components/WaterLevelMonitor.tsx:40-60 | on success the list is stored, the selection follows `AutoSelect` and the error is cleared; on failure only the error is set |
| `Monitor.DeviceMonitor.LoadDeviceData` | src/components/WaterLevelMonitor.tsx:63-81 | loading ends false; on success the readings and the update time are stored and the error is cleared; on failure only the error is set |

## Left out

- Transport wiring is not modelled: Express, Socket.IO, CORS, static and SPA serving, `/status` and `listen`. Handler outcomes are returned as values, and HTTP status codes appear only as numbers in the reply.
- Disk I/O and JSON text are not modelled. The snapshot file is `Missing`, `Unreadable` or a parsed `Document`. A failed write in `saveData` is only logged and changes no state, so it is not modelled.
- The 5-minute save timer and the SIGINT flush are not modelled, because they are timer and process plumbing. `Hub.SaveAndRestart` states what one save-then-reload achieves.
- The HTML page and its script inlined in server-http.js are not modelled, because they are user interface inside a string.
- `Math.random`, `new Date()` and `toLocaleTimeString` are not modelled; their results are parameters.
- The `catch` branches that answer 500 in server-http.js are not modelled. No step of the model can throw.
- Device ids are strings only. A truthy non-string `deviceId`, such as a number or `true`, would also become a `Map` key in JavaScript; the model treats it as absent.
- Measurement values are JSON scalars only. Nested objects and arrays inside a payload are not modelled.
- A payload that parses to a non-object is given as the fields it spreads, usually none. The model does not derive those fields itself.
- `Monitor.FillLevel`: requires a non-zero target, because JavaScript division by zero yields Infinity or NaN, which reals cannot represent. `Monitor.WaterPercentage` handles a zero target itself through `ZeroTargetLevel`, and returns None for NaN.
- `HttpApi.NumberOrZero`: `parseFloat` is an arbitrary parameter. Infinity and the sign of zero are not modelled.
- `Hub.OnCommand`: the payload is the raw value, never parsed. A JSON text, like any other non-object value, is `NotObject` and names no device; the model does not distinguish among non-object values.
- `Hub.Hub.Save` and `Hub.SaveAndRestart`: the document keeps map order. A JavaScript object lists integer-like keys such as `"7"` first, in ascending order. For such ids the reloaded order may therefore differ from the model's; the bindings do not.
- `HttpApi.HttpServer.ApiDevices`: the reply's `devices` object is a map, so its key order is not modelled.
- Concurrency between connections is not modelled. The Node event loop runs handlers one at a time, so each handler is one atomic method.
- The observer-side `disconnect` handler is not modelled, because it only logs.
- React state plumbing, `fetch`, `alert`, the rendering, and the `handleTare`/`handleSetTarget` request senders of WaterLevelMonitor.tsx are not modelled. Neither are Dashboard.tsx, WaterContainer.tsx (its clamp repeats the percentage clamp), Button.tsx and Card.tsx, because they are presentational.
