# Kiloview OSC bridge: a Dafny model of its switching core

The bridge receives OSC messages addressed `/kiloview/setInput/<n>` and switches
output 1 of a Kiloview video switcher to the n-th enabled source stream through
the switcher's HTTP API. This project models the deterministic core of
`backend/server.js`:

- the module-level state `accessToken`, `streamList` and `streamMap`, as fields of
  one class `Server.Bridge`, plus a `trace` field that records every request sent to
  the device, oldest first;
- `login`, which sends `app: 'test'` and stores the token the device grants;
- `getSources`, the nested loop that binds the enabled streams (`enable === 1`)
  to the indices 1, 2, 3, 4 in group-then-stream order and skips the rest;
- the two request shapes, `registerSourceForPreview` (preview/source/modify) and
  `setOutput` (output/source/set), each carrying the current token in `app`;
- `setOutputByNumber`, the two-phase switch: look the index up, then the preview
  call, then the output call, where the first failure ends the switch and is caught;
- the OSC handler, which acts only on an address matching `^/kiloview/setInput/(\d)$`;
- the startup sequence: login, list the sources, then a preview call for every
  stream of every group, where the first failure ends the sequence.

The device is not modelled. Each device answer is an argument of the method that
sends the request:

- a `LoginReply` (a token, or a rejection);
- a `ListReply` (the groups, or a rejection);
- a `bool` for each preview or output call;
- for startup, a function `nat -> bool` that answers the k-th preview call.

Modules:

- `Device` (`device.dfy`): stream, group, reply and request values, and the `Call` trace entries.
- `Osc` (`osc.dfy`): the address decoder and its inverse.
- `Registry` (`registry.dfy`): what a registry build computes (the enabled streams, capped at four and numbered from 1), with its lemmas.
- `Server` (`server.dfy`): the `Bridge` class, whose methods follow the JavaScript functions step by step.

Facts about the code that the model keeps as they are:

- Only `enable === 1` qualifies a stream; a JSON `true` or a string `"1"` does not (server.js:88). `Device.Json` keeps these values apart.
- Startup stages every stream of every group as preview, enabled or not and past the cap of four (server.js:46-50). One `try` wraps the whole sequence, so the first failure ends it (server.js:42-55).
- The decoder accepts any single digit 0..9 (server.js:27-31). Indices 0 and 5..9 find no binding and make no call (server.js:130-134).
- There is no per-index lock and no re-authentication after a failed call.
- Every `getSources` call appends to `streamList` and overwrites keys of `streamMap`; nothing resets them. `Bridge.GetSources` states this as `old(streamList) + Registered(gs)` and `old(streamMap) + Bindings(Registered(gs))`.

## Model

| member | source | states |
|---|---|---|
| Server.Bridge.constructor | backend/server.js:13-15 | the process starts with `accessToken == ""`, an empty list and map, and no device call |
| Server.Bridge.Login | backend/server.js:58-71 | appends exactly one login call with `app == "test"` and the configured credentials; a granted token replaces `accessToken`; a rejection leaves it unchanged and reports failure |
| Server.Bridge.GetSources | backend/server.js:73-97 | appends one list call carrying the current token; on success, `streamList` grows by the first min(#enabled, 4) enabled streams in walk order and `streamMap` gains indices 1..k bound to them; from empty state list and map agree (`streamMap[i] == streamList[i-1]`, keys exactly 1..k); on failure nothing but the trace changes; keeps "only 1..4 bound, only enabled streams" |
| Server.Bridge.RegisterSourceForPreview | backend/server.js:99-126 | appends exactly one preview-modify call for the stream, carrying the current token; reports the device's answer |
| Server.Bridge.SetOutput | backend/server.js:145-164 | appends exactly one output-set call for the stream, carrying the current token; reports the device's answer |
| Server.Bridge.SetOutputByNumber | backend/server.js:129-143 | in a valid state (which the constructor establishes and no method breaks), appends exactly `SwitchCalls` for the index and returns `SwitchResult`; every failure ends as an outcome, never an error; indices outside 1..4 make no call |
| Server.SwitchCalls | backend/server.js:130-138 | an unbound index makes no call, and on a registry binding only 1..4 neither does any index outside 1..4; a bound index makes the preview call and, only if it was accepted, the output call; both carry the token and name the bound stream's id |
| Server.SwitchResult | backend/server.js:131-142 | the outcome is UnknownIndex exactly when the index is unbound, PreviewFailed exactly when the preview call failed, OutputFailed exactly when only the output call failed, Switched exactly when both succeeded |
| Server.Bridge.HandleMessage | backend/server.js:23-33 | in a valid state, a non-matching address makes no call; a matching one acts exactly as the switch for its digit; a digit 0 or 5..9 makes no call |
| Server.Bridge.Startup | backend/server.js:39-56 | a failed login is followed by no other call and changes no state; a failed listing is followed by no preview call; otherwise the registry is built and the preview calls follow in flat order with the granted token, stopping right after the first rejected one |
| Server.Bridge.WarmUpPreviews | backend/server.js:46-50 | one preview call per stream of every group in order, whatever its enable flag; the trace stops right after the first rejected call, and that call's position is reported |
| Device.PreviewRequestShape | backend/server.js:100-123 | the preview request carries the token in `app`; both sides name the stream's id, name and url; it goes from type "source" (with pos_id "") to type "preview"; output_id "1" and layout_id "" on both sides |
| Device.OutputRequestShape | backend/server.js:146-160 | the output request carries the token; both sides use output_id "1" and pos_id 1; the target side carries the stream's id |
| Device.SwitchCallsAgree | backend/server.js:137-138 | the preview call and the output call of one switch designate the same stream id, and they are different calls |
| Device.Previews | backend/server.js:46-50 | the startup preview calls: one per stream, in order, each carrying the token and naming its stream |
| Osc.ParseSetInput | backend/server.js:27-29 | accepts an address exactly when it is the prefix plus one decimal digit; the index passed on is that digit's value (0..9); inverse of `SetInputAddress` |
| Osc.LongAddressIgnored | backend/server.js:27 | an address longer than the prefix plus one character is never acted on |
| Osc.MultiDigitIgnored | backend/server.js:27 | `/kiloview/setInput/10` is not acted on |
| Osc.DecodedIndexIsDigit | backend/server.js:27-29 | a decoded index is at most 9, and its digit is the address's last character |
| Registry.EnabledInMembers | backend/server.js:88 | a stream survives the filter exactly when it occurs and its `enable` is exactly 1 |
| Registry.EnabledIsFilteredFlatten | backend/server.js:86-94 | walking groups and then streams visits the enabled streams in the same order as filtering the flat stream list |
| Registry.EnabledMembers | backend/server.js:86-94 | a stream is among the walk's enabled streams exactly when it is enabled and occurs in some group |
| Registry.RegistryBindsFirstEnabled | backend/server.js:84-94 | a build binds exactly the indices 1..k, with k = min(#enabled, 4); index i holds the i-th enabled stream in walk order |
| Registry.RegistryBounded | backend/server.js:88-90 | a build binds at most four indices, all to enabled streams |
| Registry.BuildKeepsWellBound | backend/server.js:86-94 | a build on a registry with only indices 1..4 and only enabled streams keeps both properties, in the map and in the list |
| Registry.FreshBuildAgrees | backend/server.js:89-90 | from empty state, the list has length k, the map's keys are 1..k, and `streamMap[i] == streamList[i-1]` |
| Registry.OutOfRangeUnbound | backend/server.js:88 | no index below 1 or above 4 is ever bound |
| Registry.DisabledNeverBound | backend/server.js:88 | a stream whose `enable` is not exactly 1 is never bound |
| Registry.BindingsAgree | backend/server.js:89-90 | index i of the map built from a list holds the list's (i-1)-th element |
| Registry.AdmitNext | backend/server.js:88-91 | one enabled stream seen while fewer than four are bound is appended and bound to the next index; once four are bound it changes nothing |
| Registry.ExampleRegistry | backend/server.js:84-94 | streams s1 (enabled), s2 (disabled), s3 (enabled) in one group give exactly {1: s1, 2: s3} |

## Left out

- The Express app, CORS, JSON body parsing and the `/api/test` liveness route (server.js:1-8, 35-37): HTTP serving with no logic.
- The axios transport: URLs built from `config.ip`, the `Content-Type` header, status handling, and extraction of `res.data.data`. Each request is a `Call` value and each answer an argument. A login answer whose body has no `token` field would store `undefined`; the model treats a login answer as either a token or a failure.
- The node-osc UDP server (server.js:19-21) and the loading of `config.json`. The username and password are constructor arguments, and `config.ip` is not modelled.
- A listing whose group lacks `streams`, or holds `null` entries, makes the JavaScript throw part-way through the loop after some bindings were made. In the model every group has a list of streams.
- An OSC message whose first element is not a string makes `address.match` throw. The model's address is always a string.
- `enable` values are integers, booleans, strings or null; a non-integer number is not represented. Stream ids, names and urls are strings.
- Console logging, which has no effect beyond the trace.
- Asynchronous interleaving: the OSC handler does not await `setOutputByNumber`, and messages can arrive during startup. The model runs every operation to completion, one at a time. Races between two switches for the same index are therefore not represented.
- `currentStreamIndex` (server.js:17) is declared and never used.
