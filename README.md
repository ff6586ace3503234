# Cozmo Scratch bridge — a Dafny model

This project models the Cozmo extension for Scratch. The extension is a
browser-side block library (`extension.js`) that drives a Cozmo robot
through a local Python peer (`server.py`) over one WebSocket. The model
covers the following.

- **Client session.** The `Cozmo` object's connection lifecycle covers
  connect, open, close and reconnect, with every socket kept by handle and
  every `setTimeout` callback held as an explicit pending timer. On top of
  it sit the send path with its single delayed retry, and call correlation
  through a random `__call_id` with a table of waiting resolvers and a
  deadline per call. The object also keeps a state cache with its queue of
  waiting readers and a default snapshot on timeout, and routes binary
  camera frames to the overlay.
- **Command encoding.** Numeric arguments are parsed and clamped, and
  colour names resolve through the preset tables. Lights are wrapped in
  `{__cozmo_type, value}` descriptors. The backpack keeps its five-slot
  memory and re-sends all five slots on every partial update. The model
  also covers cube corner arguments, the head-angle mapping onto
  [-25, 44.5] degrees and the lift height.
- **Peer pieces.** The model covers how `_handle_call` unpacks its
  arguments and extracts the call id, and how the `set_light_corners`
  branch merges new corner lights into the per-cube corner cache. It also
  models how a reply echoes the id, and how `_convert_typed_value` /
  `_coerce_call_args` turn tagged arguments into the values the SDK
  receives. It includes
  `battery_percent` and the frame `_send_binary_event` writes.
- **Protocol lemmas.** These connect both sides. The peer finds the id the
  client attached. A reply that echoes it resolves exactly that call, and
  an error reply resolves nothing. A camera frame reaches the overlay byte
  for byte. A named colour reaches the SDK as that colour. A single-corner
  update keeps the other corners the peer cached.

Files, one module each:

- `wrappers.dfy`: `Option`, `Result`.
- `json.dfy`: parsed JSON values, JavaScript and Python truthiness and `or`, `json.dumps`, `String()`.
- `framing.dfy`: UTF-8 and binary frames.
- `commands.dfy`: pure command encoding.
- `connection.dfy`: connection transitions and the single-socket invariant.
- `session.dfy`: the client class `Cozmo`.
- `typed.dfy`: typed-value conversion and the battery gauge.
- `peer.dfy`: `_handle_call` and the class `Peer` with the corner cache.
- `protocol.dfy`: lemmas across both sides.

Environment inputs are parameters. The random call id is an `id` argument
that must be fresh. `Date.now()` is a `now` argument. `JSON.parse` output
arrives already parsed, with `None` meaning it threw. The SDK is an oracle
function from method path, converted arguments and the await flag to a
result or an exception.
Socket events and timer expiries are method calls made by the environment
(`OnOpen`, `OnClose`, `FireCallExpiry`, ...). A promise is a record in
`calls` or `stateReads`, and `SettledStay` states that a settled record
never changes again.

Where the model departs from the code it is said below. `OnClose`
follows the corrected close handler (see Findings), and
`SetBackpackLightPattern` re-sends preset slots as their colours (see
Findings). The as-written versions of both are modelled beside them.

## Model

| member | source | states |
|---|---|---|
| JsonValues.JsOr | extension.js:285-286 | JavaScript short-circuit `or` on property reads: the result is truthy iff either operand is, and is `a` whenever `a` is truthy |
| JsonValues.PyOr | server.py:74-79 | Python `a or b`: truthy iff either operand is, and `a` whenever `a` is truthy |
| JsonValues.Without | server.py:303 | `dict.pop(key)` leaves exactly the members whose key differs, none of them bound to `key` |
| JsonValues.LookupWithout | server.py:303 | popping one key leaves every other key bound to the value it had |
| JsonValues.WithoutConcat | server.py:303 | removal works member by member: removing from a concatenation is the concatenation of the removals, so the order of what remains is kept |
| JsonValues.DumpsPrintable | server.py:157 | `json.dumps` with ASCII escaping emits a non-empty text of printable ASCII only, so no raw line feed |
| Framing.Utf8LineFeed | server.py:158 | the UTF-8 encoding contains a line-feed byte exactly when the text contains a line-feed character |
| Framing.HeaderHasNoLineFeed | server.py:157-158 | a binary frame's header bytes are non-empty and free of line feeds |
| Framing.BinaryEvent | server.py:155-167 | a binary message is produced exactly when binary data is given; otherwise a text event |
| Framing.IndexOf | extension.js:296 | `indexOf`: -1 iff the byte is absent, otherwise the first position holding it |
| Framing.Demux | extension.js:295-301 | the split exists iff a line feed occurs and is not the first byte; then message = header + LF + payload with a non-empty, LF-free header |
| Framing.DemuxJoin | extension.js:296-301 | splitting inverts framing for every non-empty LF-free header and any payload |
| Framing.CameraPayload | extension.js:294-311 | the overlay only ever receives the payload after the first line feed |
| Framing.FrameRoundTrip | server.py:155-162 | a frame the peer builds splits back into its header and payload, and reaches the overlay iff its event is `camera_frame` |
| Commands.ParseNumber | extension.js:403-406 | fallback for a non-finite number; otherwise within the bounds, equal to the input when inside them, equal to the violated bound otherwise |
| Commands.ParseBool | extension.js:399-401 | a string is true iff it reads "true" in any case; any other value by its truthiness |
| Commands.ParseBoolMenuValues | extension.js:393-401 | "True"/"true" parse true, "False"/"" false, and the default argument never changes the result |
| Commands.Trim | extension.js:494 | `trim`: the result is the input from its first non-white-space character on, with only white space cut after it; it has no white space at either end, is the input when it has none, and is empty when the input is all white space |
| Commands.PresetsAreColours | extension.js:496-499 | every preset in the colour table has channels in 0..255 |
| Commands.ConvertColorToLight | extension.js:408-423 | a known colour name gives a light of its table colour; an unknown name gives blue |
| Commands.Channel | extension.js:533-535 | a colour channel lies in 0..255, is the floor of an in-range input, 0 below, 255 above and 0 for a non-finite input |
| Commands.Period | extension.js:536-539 | a period is non-negative: the floor of a non-negative input, otherwise 0 |
| Commands.MakePattern | extension.js:532-541 | a built pattern has a valid colour and non-negative periods |
| Commands.SlotIndex | extension.js:507-509 | the LED index lies in 1..5: the floor when in range, 1 below or when non-finite, 5 above |
| Commands.SlotLight | extension.js:517-522 | a pattern slot is sent as itself, a triple as its colour, a preset name as its table colour with off as fallback |
| Commands.BackpackArgs | extension.js:523-525 | the five arguments are the lights of the five slots, in order |
| Commands.BackpackResendKeepsOthers | extension.js:506-526 | after updating one slot, the four other arguments equal those of the previous full send |
| Commands.BackpackArgsAsWritten | extension.js:543-548 | the five arguments as set_backpack_light_pattern builds them, slot by slot |
| Commands.PatternResendTurnsPresetOff | extension.js:543-548 | LED 1 set to "red", then a pattern on LED 2: the written encoder re-sends LED 1 as off, differing from the previous send |
| Commands.CornerIndex | extension.js:586 | a known corner name maps to an index below 4 |
| Commands.CornerArgs | extension.js:585-588 | four lights, the chosen corner carries the light and every other corner is off (all off for an unknown name) |
| Commands.CubeLightsCommand | extension.js:580-590 | "all" calls `set_lights` with one light; any other corner calls `set_light_corners` with the four corner lights; never awaited |
| Commands.Percent | extension.js:640-641 | a percentage lies in [0, 100]: the input inside the range, 0 below, 100 above, the default for a non-finite input |
| Commands.HeadAngle | extension.js:640-644 | the head angle always lies in [-25, 44.5] degrees |
| Commands.HeadAnglePoints | extension.js:642-644 | 0 % maps to -25, 50 % to 9.75, 100 % to 44.5, and a non-finite input to -25 |
| Commands.HeadAngleClampsAndIsMonotone | extension.js:640-644 | inputs at or below 0 give the minimum, at or above 100 the maximum, and the mapping is monotone |
| Commands.LiftHeight | extension.js:653-655 | the lift height is a fraction in [0, 1]: 0.2 for a non-finite input, percent/100 inside the range, 0 below and 1 above |
| Commands.HeadAngleCommand | extension.js:639-650 | calls `robot.set_head_angle` with the degrees-tagged angle, the duration (0 by default) and the IN_PARALLEL flag, awaited iff AWAIT parses true, 10 s deadline |
| Commands.LiftHeightCommand | extension.js:652-660 | calls `robot.set_lift_height` with the height in [0, 1], the duration (0 by default) and the IN_PARALLEL flag, awaited iff AWAIT parses true, 10 s deadline |
| Connection.ConnectGuard | extension.js:182-192 | connecting while a connect is in flight or the socket is open changes nothing; connect is idempotent and creates at most one socket |
| Connection.CloseNextCurrent | extension.js:318-323 | for the current socket the corrected close handler is the written one and clears the socket and the connecting flag |
| Connection.TransitionsWellFormed | extension.js:182-323 | connect, open, closing, both close handlers and firing a timer keep the connection fields well formed |
| Connection.ConnectKeepsSingleSocket | extension.js:183-186 | connect keeps at most one live socket, which is the current one |
| Connection.OpenKeepsSingleSocket | extension.js:194-196 | opening a connecting socket keeps the single-socket invariant |
| Connection.ClosingKeepsSingleSocket | extension.js:331 | an open socket entering its closing handshake keeps the single-socket invariant |
| Connection.CloseKeepsSingleSocket | extension.js:318-323 | the corrected close handler keeps the single-socket invariant for any socket's close |
| Connection.RemoveTimerKeepsSingleSocket | extension.js:322 | removing a fired timer keeps the single-socket invariant |
| Connection.RetryKeepsSingleSocket | extension.js:188-191 | the retry after a failed socket creation keeps the single-socket invariant |
| Connection.CloseRaceAsWritten | extension.js:318-323 | open, peer closing, send, then the old socket's close: the written handler leaves two connecting sockets |
| Connection.CloseRaceCorrected | extension.js:318-323 | the same events with the corrected handler leave exactly one live socket, the current one |
| Session.DefaultSnapshot | extension.js:380-387 | the timeout snapshot is a truthy object |
| Session.PushedState | extension.js:272 | a pushed snapshot is only taken when it is truthy |
| Session.CallResult | extension.js:283-290 | a `call_result` is only correlated when the message is no state push and the key is truthy; the resolved value is truthy |
| Session.ExpiryKeepsCallsOk | extension.js:354-362 | a call deadline names a recorded call, and dropping it while settling a waiting call (or leaving an answered one) keeps the call table consistent |
| Session.DropKeepsReadsOk | extension.js:364-391 | dropping any timer other than a state deadline keeps the read queue consistent |
| Session.Cozmo.constructor | extension.js:6-24 | the object starts with five "off" slots, no calls, reads or cache and has connected once; the invariant holds |
| Session.Cozmo.Connect | extension.js:182-192 | the connection fields follow the guarded connect transition; the invariant, including a single live socket, holds |
| Session.Cozmo.OnOpen | extension.js:194-196 | the socket becomes open, connecting clears and the overlay exists |
| Session.Cozmo.OnPeerClosing | extension.js:331 | an open socket starts closing and is no longer counted as open |
| Session.Cozmo.OnClose | extension.js:318-323 | the corrected close transition; the single live socket invariant holds |
| Session.Cozmo.Send | extension.js:329-338 | writes the payload iff the socket was open; otherwise writes nothing and connects |
| Session.Cozmo.SendWithRetry | extension.js:340-346 | one send now and, only when it failed, exactly one re-send scheduled after the delay |
| Session.Cozmo.FireRetryConnect | extension.js:190 | the retry clears connecting and connects again |
| Session.Cozmo.FireReconnect | extension.js:322 | the scheduled reconnect runs connect |
| Session.Cozmo.FireResend | extension.js:343 | the re-send is one plain send that schedules nothing further |
| Session.Cozmo.FireCallExpiry | extension.js:360 | a waiting call resolves to false and its resolver is removed; an answered call is untouched |
| Session.Cozmo.FireStateExpiry | extension.js:377-389 | a waiting read resolves to the default snapshot; a settled read is untouched |
| Session.Cozmo.AwaitCallResult | extension.js:354-362 | an empty id resolves false at once; otherwise a new waiting call, its resolver and its deadline |
| Session.Cozmo.Dispatch | extension.js:425-429 | the id is drawn and the `call` envelope with it under `__call_id` is dispatched: written now iff the socket was open, otherwise a connect attempt and one pending re-send; no call waits on the id yet |
| Session.Cozmo.SendCommand | extension.js:425-435 | the whole effect (`Commanded`): the id is drawn, the envelope is written now iff the socket was open and otherwise re-sent once later; an awaited call with a non-empty id gets a waiting record, its resolver and its deadline and replies with its handle; other calls reply true (false for an empty awaited id); nothing else changes |
| Session.Cozmo.RequestState | extension.js:364-391 | the cached snapshot with nothing sent or queued when there is one; otherwise `get_state` is written iff the socket was open (a connect attempt otherwise), one waiter is queued and one deadline is added |
| Session.Cozmo.QueueRead | extension.js:368-377 | a new waiting read, its waiter at the end of the queue and its deadline |
| Session.Cozmo.OnStatePush | extension.js:272-282 | caches the snapshot with its time, empties the queue and settles every waiting read with it, invoking the queued waiters in order |
| Session.Cozmo.OnTextMessage | extension.js:268-293 | a state push wins; otherwise a `call_result` with a registered key settles exactly that call and unregisters it; anything else changes nothing |
| Session.Cozmo.ResolveCall | extension.js:287-290 | unregisters the key and settles its call with the reply data |
| Session.Cozmo.OnBinaryMessage | extension.js:294-311 | a camera frame's payload is shown once the overlay exists; anything else leaves the overlay as it was |
| Session.Cozmo.SetBackpackPreset | extension.js:493-504 | a blank preset changes nothing at all; otherwise all five slots hold the preset colour (off when unknown) and the command effect (`Commanded`) is one unawaited set_all_backpack_lights call carrying that light |
| Session.Cozmo.SetBackpackLed | extension.js:506-526 | a blank preset changes nothing at all; otherwise only the chosen slot changes, to the preset name, and the command effect is one set_backpack_lights call with the lights of all five slots |
| Session.Cozmo.SetBackpackLightPattern | extension.js:528-550 | only the chosen slot changes, to the pattern, and the command effect is one set_backpack_lights call with all five slots as the lights they stand for |
| Session.Cozmo.SetBackpackPresetPattern | extension.js:552-566 | all five slots hold the pattern and the command effect is one set_backpack_lights call carrying it five times |
| Session.Cozmo.SetCubeLights | extension.js:573-591 | the command effect of the cube command for the named colour on the chosen corner or the whole cube, never awaited, so it replies true |
| Session.Cozmo.SetCubeLightsPreset | extension.js:593-599 | the command effect of `set_lights` with the named colour, which replies true |
| Session.Cozmo.SetCubeLightCornersPattern | extension.js:601-628 | the command effect of the cube command for the pattern light, which replies true |
| Session.Cozmo.SetHeadAngle | extension.js:639-650 | the command effect of the head-angle command: waits for the reply iff AWAIT parses true, and changes nothing outside the command fields |
| Session.Cozmo.SetLiftHeight | extension.js:652-660 | the command effect of the lift command: waits for the reply iff AWAIT parses true, and changes nothing outside the command fields |
| TypedValues.Trunc | server.py:76-79 | `int()` of a float truncates toward zero |
| TypedValues.Mask | server.py:83 | `& 0xFF` gives 0..255, congruent to the input modulo 256, and the input itself when already in range |
| TypedValues.TagOf | server.py:53-70 | a tag is recognised iff it is one of the eight known tag strings |
| TypedValues.ToRgb | server.py:81-84 | a list of at least three entries gives `int(x[k]) & 0xFF` of its first three, or an error when `int()` fails on one; anything else gives no colour; channels lie in 0..255 |
| TypedValues.CoerceCallArgs | server.py:129-133 | positional and keyword arguments are converted one by one, keeping order, length and keys; every colour in the result has channels in 0..255, and arguments that are neither lists nor objects pass through unchanged |
| TypedValues.ConvertObjectShape | server.py:36-126 | a tagged object becomes an SDK object over its converted arguments, a light, or itself |
| TypedValues.ConvertStructure | server.py:33-42 | lists convert element by element keeping length; non-objects, untagged objects and unknown tags pass through unchanged |
| TypedValues.ObjectLight | server.py:70-114 | a light converted from a dictionary has on and off colours with channels in 0..255 |
| TypedValues.ConvertLightInRange | server.py:70-122 | every colour of a converted light has channels in 0..255 |
| TypedValues.ConvertChannelsInRange | server.py:32-126 | every colour anywhere in a converted value has channels in 0..255 |
| TypedValues.ArgsChannelsInRange | server.py:45-49 | every converted constructor argument has colours in range |
| TypedValues.MaskWraps | server.py:83 | `& 0xFF` of a byte plus any multiple of 256 is that byte |
| TypedValues.ListLightConverts | server.py:116-124 | a light given as a list converts to the masked colour of its first three entries; a shorter list or a non-number entry returns the tagged input |
| TypedValues.WrappedLightConverts | server.py:116-122 | channels wrap modulo 256 rather than saturate: a light with channels `c + 256 k` reaches the SDK as `c` |
| TypedValues.RgbLightConverts | server.py:116-122 | a light wrapper of an in-range triple converts to a light of exactly that colour |
| TypedValues.BatteryPercent | server.py:199-207 | the gauge lies in [0, 100], is 100 at 4.2 V and above, 0 at 3.3 V and below |
| TypedValues.BatteryPercentMonotone | server.py:199-207 | a higher voltage never reads as a lower percentage |
| Peer.Unpack | server.py:297-303 | succeeds iff the keyword arguments are an object; path, call arguments and await flag are the given ones or their defaults; the id is `__call_id` when truthy, else `call_id`; the keyword arguments keep exactly the members not popped, with their values |
| Peer.UnpackDefaults | server.py:297-300 | missing arguments default to path '', no positional and no keyword arguments, no await, no id |
| Peer.UnpackFindsCallId | server.py:303 | an id under `__call_id`, or under `call_id` alone, is extracted and removed |
| Peer.TruthyCallIdKeepsOtherKey | server.py:303 | with a truthy `__call_id` a `call_id` key stays among the keyword arguments |
| Peer.SearchStart | server.py:326 | `re.search` matches at the leftmost position where the pattern matches, and nowhere before it |
| Peer.MatchNamesMethod | server.py:326 | a match of the corner-light pattern contains `set_light_corners` |
| Peer.MatchContainsName | server.py:325-327 | a regex match implies the `'set_light_corners' in path` test |
| Peer.MergeSlotProperties | server.py:332-340 | a missing argument keeps the cached corner, an explicit off keeps a cached light, anything else replaces it |
| Peer.MergeCorners | server.py:331-340 | the merge succeeds iff every present argument among the first four is an object or None, and then gives each corner's merged light |
| Peer.ReplyOf | server.py:366-375 | the reply is an object whose first key is `result` |
| Peer.PutLookup | server.py:368-374 | `out[key] = v` binds `key` to `v` when present and leaves every other key as it was |
| Peer.ReplyFields | server.py:366-375 | `result` holds the rendered result (`None` for none), `state`, `failure_reason` and `failure_code` what the result carries when present, and `call_id` the id exactly when it is truthy |
| Peer.CallReply | server.py:359-375 | an error iff the SDK raised (its message) or a `None` result was awaited; otherwise the reply's result, state and id are those of the SDK result and the request |
| Peer.Peer.constructor | server.py:30 | the corner cache starts empty |
| Peer.Peer.Cached | server.py:329 | a cube's cached corners, four empty corners when none are cached |
| Peer.PyList | server.py:130 | `list(args or [])`: fails iff the value is truthy and not a list, string or object; empty for a falsy value, the items of a list, the characters of a string, the keys of an object |
| Peer.FirstArg | server.py:307 | `call_args[0] if call_args else None`: `None` for falsy arguments, the first item or character otherwise, failing iff the value is truthy and neither a list nor a string |
| Peer.CoercedLights | server.py:353-358 | each merged corner is converted, an empty one as the off light; every colour sent has channels in 0..255 |
| Peer.Peer.HandleCall | server.py:296-408 | unpacking errors propagate; get_light_cube raises iff the call arguments are truthy but neither a list nor a string, and otherwise replies with the looked-up cube and no id; a corner-light path behaves as CornerCall; any other string path raises when its arguments are not iterable and is otherwise the reply to the SDK outcome for the coerced arguments and the await flag; only the corner branch touches the cache |
| Peer.Peer.CornerCall | server.py:325-375 | unusable call arguments raise and leave the cache; otherwise the SDK receives the converted merged corners with empty ones off, the keyword arguments as given and the await flag, the reply is that of its outcome, and the cube's entry becomes the merged corners exactly when the reply succeeded with a `None` result or a state other than `action_failed`; nothing else in the cache changes |
| Protocol.PeerSeesClientCallId | extension.js:425-429 | the peer unpacks the client's envelope into its path, arguments and await flag, finds the attached id and keeps no id key |
| Protocol.ReplyResolvesCall | server.py:422-438 | a reply echoing a non-empty id is correlated by the client to that id, carrying the reply |
| Protocol.EchoingReplyResolves | extension.js:283-290 | a `call_result` whose data binds `call_id` to a non-empty id is correlated to that id |
| Protocol.ErrorReplyResolvesNothing | server.py:423-438 | an error reply carries no id, so it resolves no call |
| Protocol.OffLightsAgree | server.py:358 | the peer's off fill-in is the client's off light |
| Protocol.CubePathParses | server.py:326-328 | the path the client builds for cube n is parsed back to n |
| Protocol.SingleCornerKeepsOthers | server.py:332-340 | a single-corner update sets that corner and every other corner keeps its cached light (off if none) |
| Protocol.NamedColourConverts | server.py:116-122 | a colour picked by name reaches the SDK as its table colour, blue if unknown |

## Left out

- The Scratch registration is not modelled: `getInfo`, menus and block metadata are declarations, not behaviour.
- The browser and DOM side is not modelled: overlay creation, dragging, `localStorage`, Blob URLs and console logging. The overlay is one flag and the shown frame a field.
- The blocks say_text, drive_*, turn_in_place, play_song, play_anim_trigger, set_head_light and set_verbose_logging are not modelled. They follow the same `_sendCommand` path as the modelled blocks.
- The sensor reporter blocks are not modelled. They read `_requestState`, which is modelled.
- `onerror` is not modelled: it only logs.
- `crypto.randomUUID` is not modelled. Ids are parameters, and their uniqueness is a precondition (`id !in issued`).
- `Date.now` is not modelled; it is a parameter.
- Session.Cozmo.constructor: `new WebSocket` is modelled as throwing always or never for the session (`createFails`), since the URL is a constant.
- The peer's asyncio and websocket plumbing is not modelled: `_broadcast`, `_safe_ws_send`, `_ws_handler`, the state and camera pushers, `_send_state` and the acknowledgements. The binary frame is modelled as the bytes `_send_binary_event` builds.
- The SDK is an oracle: the `getattr` path walk, the constructors and `wait_for_completed` are folded into it. It receives the await flag, so an awaited result whose `wait_for_completed` raises is one of its `Raised` outcomes.
- TypedValues.ConvertTypedValue records which constructor receives which converted arguments. It does not model a constructor raising, for example `float(args[0])` failing, which in the source returns the input.
- TypedValues.PyInt treats `int()` of a string as a failure, although Python parses numeric strings.
- Peer.Peer.HandleCall treats a non-string path as an error, as Python raises in every such case (at the `in` test, in `re.search` or in `split`); only the message differs.
- Peer.Peer.CornerCall raises exactly where `len()`, indexing or `.get` raises: on call arguments that are neither a list, an empty string nor an empty object, and when one of the first four arguments is neither `None` nor an object.
- Peer.PyList lists an object's keys in member order; a key bound twice in the parsed members appears twice, where a Python dict holds it once.
- Peer.Peer.HandleCall does not model the get_light_cube branch's lookup through `light_cubes` and `visible_objects`. The oracle gives the result, `None` when it raised.
- `JSON.stringify` is not modelled; messages are values. The peer's `json.dumps` is modelled for the frame header only.
- JsonValues.NumberText cuts fractions at 17 decimal digits. This approximates Python's float `repr` and JavaScript's number printing; floats are exact reals.
- Commands.Trim and Peer.DigitRun use an explicit white-space set and ASCII digits. Unicode `\d` and `toLowerCase` beyond ASCII are not modelled; for "true" the ASCII fold is exact.
- Preset lookups do not model names that are JavaScript prototype keys (such as `constructor`) reaching `colorMap[color]`.
- The image decoding and PIL annotation of camera frames are not modelled.
- Block arguments arrive as `JsNumber` values: `Number(arg)` in `_parseNumber` is taken as already evaluated, so string-to-number conversion is not modelled.
- Peer.Unpack states which keyword members remain and their values, not their order in its contract; JsonValues.WithoutConcat shows removal keeps it.
- Peer.Peer.HandleCall and Peer.Peer.CornerCall give generic messages for the exceptions Python raises on malformed arguments; the message text is not modelled.

## Findings

| source | as written | input that shows it | evidently intended | confidence | as-written member | corrected member |
|---|---|---|---|---|---|---|
| extension.js:543-548 | set_backpack_light_pattern's `makeWrapper` has no case for a slot that holds a preset name, so such a slot is re-sent as off | set_backpack_led(INDEX 1, PRESET "red") then set_backpack_light_pattern(INDEX 2, ...): LED 1 goes from red to off | every untouched slot is re-sent as the light it shows, as set_backpack_led's `makeWrapper` does | high (not executed) | Commands.PatternResendTurnsPresetOff | Session.Cozmo.SetBackpackLightPattern |
| extension.js:318-323 | `onclose` clears `ws` and `connecting` and schedules a reconnect whichever socket closed, even when `ws` already refers to a newer socket | connect, open, peer starts closing, a block sends (a second socket is created), the first socket's close arrives, then the reconnect fires: two sockets are connecting and `ws` names only the third | a close of a superseded socket leaves the current socket alone | medium (not executed) | Connection.CloseRaceAsWritten | Connection.CloseRaceCorrected |
