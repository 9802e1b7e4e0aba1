# Vehicle monitor firmware: `/data` snapshot and ThingSpeak publish, in Dafny

This project models the two routines of the ESP32 monitoring firmware (`Final_Code_With_Rtos`) that carry
sequential logic:

- **`handleData`** (the dashboard's `/data` endpoint). It reads `millis()` once and recomputes the three
  node-connectivity flags as `(now - lastNodeXMsgTime) < CAN_TIMEOUT` on 32-bit unsigned values, writing them
  back to the globals. It then answers `200 application/json` with a flat JSON object built by hand from the
  `web*` globals.
- **`updateThingSpeak`** (the cloud publish cycle). If WiFi is down, it calls `WiFi.begin` once and polls every
  500 ms until the link is up or 10 000 ms of unsigned `millis()` time have passed. If the link is still down, it
  abandons the cycle. Otherwise it sets channel fields 1..6, makes one `writeFields` and classifies the answer:
  200 is success, anything else is a logged failure.

Modules:

- `Clock`: `unsigned long` time, with `millis()` as true time mod 2^32 and unsigned subtraction as the forward
  distance on the 32-bit circle.
- `Staleness`: the connectivity predicate.
- `Values`: floats as opaque 32-bit patterns, and the `String(x, digits)` formatter as a parameter.
- `Json`: a generic flat-object renderer and its parser.
- `WebServer`: the globals `handleData` touches, the handler, and its wire contract.
- `ThingSpeak`: the publish cycle as an effect trace over an environment of WiFi status, delays and the
  server's answer.
- `Wrappers`: `Option`.

The partner of the hand-built JSON body is the generic renderer. `WebServer.DataBodyIsRendered` proves that the
two agree, and `Json.RenderParseRoundTrip` proves that a parser reads back exactly what the renderer wrote.
Together they give `WebServer.DataResponseDecodes`: what a client reads out of the body. The partner of the
reconnect loop is its loop condition. `ThingSpeak.Reconnect` proves that it stops at the first poll where the
condition fails and that this happens within 20 delays.

Facts about the code that shape the model:

- `handleData` reads and writes bare globals, with no lock and no accessor. The model takes those globals as an
  input record (`WebServer.Globals`) and returns the updated record with the response.
- The reconnect loop evaluates `WiFi.status()` in its condition up to 21 times: before each of at most 20 delays,
  and once more after the last one. `ThingSpeak.LinkCameUp` and `ThingSpeak.LinkStayedDown` quantify over those
  checks. The routine then reads the status once more after the loop.
- The JSON keys are written in one fixed order, and the model proves that order.

## Model

| member | source | states |
|---|---|---|
| Clock.Millis | Final_Code_With_Rtos/main/thingspeak.cpp:18 | `millis()` is true time reduced mod 2^32: the identity before the first rollover, and always congruent to true time |
| Clock.Advance | Final_Code_With_Rtos/main/globals.h:4-6 | moving an `unsigned long` time stamp forward wraps at 2^32: no change below the modulus, minus 2^32 above it |
| Clock.Elapsed | Final_Code_With_Rtos/main/webserver.cpp:330-332 | unsigned `now - since` is the forward distance: advancing `since` by it gives `now`; it is `now - since` without a wrap and `2^32 - since + now` across one |
| Clock.ElapsedAfterAdvance | Final_Code_With_Rtos/main/webserver.cpp:330-332 | subtracting a stamp from a later reading recovers any 32-bit delay exactly, wrap or not |
| Clock.MillisAdvances | Final_Code_With_Rtos/main/thingspeak.cpp:18-19 | sampling `millis()` `d` ms later moves the counter by exactly `d` mod 2^32 |
| Clock.ElapsedTracksTrueTime | Final_Code_With_Rtos/main/thingspeak.cpp:18-19 | for two samples less than 2^32 ms apart, `millis() - start` is the true elapsed time, even across a rollover |
| Staleness.IsConnected | Final_Code_With_Rtos/main/webserver.cpp:330-332 | the staleness test `(now - last) < CAN_TIMEOUT` on `unsigned long` operands; its meaning is stated by the lemmas below |
| Staleness.ConnectedIffHeardWithin | Final_Code_With_Rtos/main/webserver.cpp:330-332 | a node is connected iff `now` lies fewer than `CAN_TIMEOUT` ticks after its last message on the 32-bit circle (both directions) |
| Staleness.TimeoutBoundary | Final_Code_With_Rtos/main/webserver.cpp:330-332 | the test is strict: connected at elapsed `CAN_TIMEOUT - 1`, disconnected at elapsed `CAN_TIMEOUT` |
| Staleness.ConnectedAcrossRollover | Final_Code_With_Rtos/main/webserver.cpp:330-332 | with the unsigned time stamps, connectivity judged from two `millis()` samples equals "true elapsed < timeout" whenever they are under 2^32 ms apart, rollover or not |
| Staleness.SilenceAliasesAfterFullWrap | Final_Code_With_Rtos/main/webserver.cpp:330-332 | the limit of that guarantee: a node silent for exactly 2^32 ms is reported connected again |
| Json.ParseBool | Final_Code_With_Rtos/main/webserver.cpp:336-337 | only the bare tokens `true`/`false` read as booleans, and each reads back as the value it encodes |
| Json.BoolTokenRoundTrip | Final_Code_With_Rtos/main/webserver.cpp:336-337 | the tokens `true` and `false` read back as the booleans they spell |
| Json.LookupBool | Final_Code_With_Rtos/main/webserver.cpp:341-343 | a boolean read from a member means the member's value is exactly that bare token |
| Json.LookupDistinct | Final_Code_With_Rtos/main/webserver.cpp:334-344 | in an object with distinct keys, looking up a member's key finds that member's value |
| Json.LookupBoolDistinct | Final_Code_With_Rtos/main/webserver.cpp:336-337 | in an object with distinct keys, a member holding a boolean token reads back as that boolean |
| Json.MemberRoundTrip | Final_Code_With_Rtos/main/webserver.cpp:335 | a `"key":value` member with a plain key and a comma-free value contains no comma and parses back to itself |
| Json.NonEmptyMembersRoundTrip | Final_Code_With_Rtos/main/webserver.cpp:335-343 | a non-empty comma-joined member list (no trailing comma) parses back to the same members in order |
| Json.RenderParseRoundTrip | Final_Code_With_Rtos/main/webserver.cpp:334-344 | `{`, members joined by single commas, `}` parses back to exactly the members written, in order |
| WebServer.DataBody | Final_Code_With_Rtos/main/webserver.cpp:334-344 | the body exactly as the handler concatenates it; `WebServer.DataBodyIsRendered` relates it to the generic renderer |
| WebServer.DataMembers | Final_Code_With_Rtos/main/webserver.cpp:335-343 | the snapshot has exactly the nine keys temp, oilFull, doorOpen, lat, lon, load, node1..3Connected, in that order, all distinct |
| WebServer.DataBodyIsRendered | Final_Code_With_Rtos/main/webserver.cpp:334-344 | the hand-concatenated body equals the generic rendering of the nine-member snapshot |
| WebServer.RefreshFlags | Final_Code_With_Rtos/main/webserver.cpp:328-332 | each node flag is true iff its unsigned elapsed time is below the timeout, all from one `now`; nothing but the three flags changes |
| WebServer.HandleData | Final_Code_With_Rtos/main/webserver.cpp:327-346 | status 200 and `application/json`; the flags are overwritten with the staleness verdicts and nothing else changes; the body renders the snapshot of the updated globals |
| WebServer.DataResponseDecodes | Final_Code_With_Rtos/main/webserver.cpp:334-345 | the body parses with the nine keys in order. temp, lat, lon and load carry the formatter's output at precisions 1, 6, 6, 2. oilFull is the negation of the water-empty reading, doorOpen is the door reading, and each nodeNConnected is its staleness verdict, all as bare booleans |
| WebServer.MembersReadBack | Final_Code_With_Rtos/main/webserver.cpp:335-343 | each of the nine snapshot members is found again by its key with its value |
| WebServer.FlagsShareOneSample | Final_Code_With_Rtos/main/webserver.cpp:328-332 | flags are coherent within one request: a node heard from more recently than a connected node is connected too |
| WebServer.StaleReadingsStillServed | Final_Code_With_Rtos/main/webserver.cpp:330-340 | at the timeout only the node's flag flips; the six sensor members served are the same one tick before and at the timeout |
| WebServer.SensorMembersIgnoreFlags | Final_Code_With_Rtos/main/webserver.cpp:335-340 | the six sensor members depend on the readings only, never on the flags |
| ThingSpeak.PollTime | Final_Code_With_Rtos/main/thingspeak.cpp:19-20 | the k-th loop check comes no earlier than the start, and at least 500·k ms after it when every delay lasts its 500 ms |
| ThingSpeak.DelayTrace | Final_Code_With_Rtos/main/thingspeak.cpp:20-21 | n loop turns emit 2n effects and never set a field or write |
| ThingSpeak.DelayTraceShape | Final_Code_With_Rtos/main/thingspeak.cpp:20-21 | turn i emits `delay(500)` at position 2i and the progress dot right after it |
| ThingSpeak.DelayTraceCounts | Final_Code_With_Rtos/main/thingspeak.cpp:19-21 | n loop turns make exactly n `delay(500)` calls |
| ThingSpeak.StillWaiting | Final_Code_With_Rtos/main/thingspeak.cpp:19 | the loop condition: WiFi not connected and unsigned `millis() - start` below 10 000; `ThingSpeak.Reconnect` states the loop against it |
| ThingSpeak.Reconnect | Final_Code_With_Rtos/main/thingspeak.cpp:18-22 | the loop stops at the first check where WiFi is up or unsigned elapsed time reaches 10 000; it makes at most 20 delays; stopping with WiFi down means at least 10 s of true time passed |
| ThingSpeak.WaitStep | Final_Code_With_Rtos/main/thingspeak.cpp:19-20 | while the loop condition holds, fewer than 20 delays have been made, and the next check comes strictly later yet within one turn of the 32-bit counter (the loop's termination measure) |
| ThingSpeak.Classify | Final_Code_With_Rtos/main/thingspeak.cpp:39-44 | success exactly when the answer is 200; every other answer is a failure carrying its code |
| ThingSpeak.FieldEffects | Final_Code_With_Rtos/main/thingspeak.cpp:31-36 | exactly six field sets, in index order 1..6 |
| ThingSpeak.PublishTrace | Final_Code_With_Rtos/main/thingspeak.cpp:31-44 | the publish path: the six field sets, the one write and the result line; `ThingSpeak.PublishTraceCounts` and `ThingSpeak.FieldsRoundTrip` state what it means |
| ThingSpeak.PublishTraceCounts | Final_Code_With_Rtos/main/thingspeak.cpp:31-44 | the publish path is six field sets, one write and one result line: exactly one `writeFields`, no delay |
| ThingSpeak.PublishPathSkipsReconnect | Final_Code_With_Rtos/main/thingspeak.cpp:14-29 | connected on entry, no `WiFi.begin`, no wait and no reconnect message is issued |
| ThingSpeak.ReconnectTrace | Final_Code_With_Rtos/main/thingspeak.cpp:15-23 | the reconnect preamble starts with the message and `WiFi.begin(ssid, password)`, has one delay per loop turn, and sets or writes nothing |
| ThingSpeak.FieldsRoundTrip | Final_Code_With_Rtos/main/thingspeak.cpp:31-36 | fields 1..6 carry temp, `oilEmpty ? 0 : 1`, `doorOpen ? 1 : 0`, lat, lon, load, and reading them back recovers the reading exactly |
| ThingSpeak.GaveUp | Final_Code_With_Rtos/main/thingspeak.cpp:19-25 | a loop that waited at every earlier check and stopped with WiFi down after the ceiling saw WiFi down at every check |
| ThingSpeak.StopIsUnique | Final_Code_With_Rtos/main/thingspeak.cpp:19-22 | the loop stops at exactly one check, so the number of `delay(500)` calls it makes is determined by the environment |
| ThingSpeak.UpAtFirstCheck | Final_Code_With_Rtos/main/thingspeak.cpp:16-22 | a link that is up by the loop's first check counts as reconnected, and the first check is the only one where the loop can stop; with `ThingSpeak.UpdateThingSpeak`'s delay count this means no delay is made |
| ThingSpeak.ReconnectBlock | Final_Code_With_Rtos/main/thingspeak.cpp:14-29 | the down-on-entry block is the message, `WiFi.begin`, one delay and dot per check before the check where the loop stopped, the line end, and the failure line when it gives up; it never sets or writes, makes exactly as many delays as that check's index (at most 20), and continues exactly when WiFi was up at that check; otherwise WiFi stayed down past 10 s |
| ThingSpeak.AppendFailure | Final_Code_With_Rtos/main/thingspeak.cpp:25-27 | the failure line ends the trace without adding a delay, a field set or a write |
| ThingSpeak.UpdateThingSpeak | Final_Code_With_Rtos/main/thingspeak.cpp:12-45 | connected on entry, the trace is exactly the publish path. The cycle gives up exactly when WiFi was down on entry and not up at the loop check where waiting stopped. A cycle that gives up had WiFi down throughout and set and wrote nothing. A cycle that publishes ends with the six fields, its single write and the result line, with outcome success iff 200. The number of delays is zero when connected on entry, and otherwise the index of the check where the loop stopped, never more than 20 |
| ThingSpeak.AppendPublish | Final_Code_With_Rtos/main/thingspeak.cpp:29-45 | appending the publish path to an upload-free prefix gives exactly one write, after everything else |

## Left out

- `handleRoot` and its HTML/CSS/JS page, and `setupWebServer` route registration: static markup and framework
  plumbing with no logic to state.
- `display.cpp` / `display.h`: TFT drawing. The display's door label is inverted relative to the web and cloud
  mappings, and the model does not touch it.
- `String(x, digits)` float formatting: a caller-supplied `Formatter`, left uninterpreted. Floats are bit
  patterns and no floating-point arithmetic is modelled.
- The value of `CAN_TIMEOUT`: it is not defined in the files modelled, so it is a parameter `timeout`.
- `lastNode3MsgTime` and `node3Connected` are not declared in `globals.h` (whose node-2 declarations sit at lines 6
  and 24). The model treats them like their node-1 and node-2 counterparts.
- WiFi, HTTP and ThingSpeak library internals: WiFi status is an oracle of true time. `writeFields` returns an
  oracle response. `server.send` is the returned `Response`.
- `Serial` output: modelled as log events, not text.
- The api key and channel id: configuration constants that the effect trace does not carry.
- Concurrency between the RTOS tasks that write the `web*` globals and the node time stamps: the globals are an
  input record read atomically.
- ThingSpeak.ValidEnv: each `delay(500)` is assumed to last between 500 ms and 2^32 − 10 000 ms of true time.
  Without the lower bound the loop need not end. Without the upper bound a single delay could wrap the unsigned
  elapsed time back below 10 000.
- ThingSpeak.Reconnect: time spent inside `WiFi.status()` and `Serial.print` is folded into the following
  delay. The loop condition reads status and `millis()` at the same instant.
- ThingSpeak.Env: the time from the entry check to `start = millis()`, spent in the first `Serial.println` and
  `WiFi.begin`, is one oracle value `beginMs`; the first loop check is taken at `start`.
- ThingSpeak.ReconnectBlock: the status check after the loop is taken at the same instant as the last loop check.
- ThingSpeak.UpdateThingSpeak: the `Serial.println(response)` text is modelled as the `UpdateFailed(code)` line,
  not as its decimal rendering.
