# ASTControl2 device control and guiding, modelled in Dafny

ASTControl2 operates a solar telescope remotely. This project models the
device-control and closed-loop guiding core of that system and proves
properties of the model. It covers six parts:

- **INDIGO JSON client** (`indigo_json_client.dfy`, module `IndigoClient`).
  It is a line-delimited JSON session with an INDIGO device server. The
  model covers the bounded connect loop, `send` with its quiet and failure
  paths, and the listener. The listener frames received data into lines,
  strips them, parses them and routes each message by its `action` (or, as a
  fallback, its `name`) to the callback registered with `on`. The JSON codec
  is a parameter: a pair of functions. The round-trip properties are
  required only of the messages they are about (`RoundTrips`: the decode of
  the encoding gives the message back, and the encoding holds no newline and
  no surrounding whitespace).
- **Mount controller** (`mount.dfy`, module `Mount`).
  - The cached mount state and the two event handlers, which fold
    `setNumberVector` and `setSwitchVector` messages into that state.
  - The IDLE/SLEWING/PARKED status and the sexagesimal RA/DEC formatting.
  - The UI-rate mapping and every command vector the controller sends.
  - The 1 Hz property poll.
  - Nudge pulses. A pulse is a step machine over an integer millisecond
    clock: `Nudge` starts it and `PulseTick` is one pass of its hold loop.
- **Auto-guider** (`guider.dfy`, module `Guider`).
  - The lock streak and lock flag.
  - The deadband.
  - Mapping the offset to a clamped pulse length.
  - Per-axis refractory intervals, with RA east/west and DEC south/north.
  - The status record pushed to the UI.
  - One pass of the frame loop, including the frames-per-second window.
  The guider drives the mount model itself: its `mount` field is a
  `Mount.MountControl`.
- **Actuator (Arduino) client** (`arduino.dfy`, module `Arduino`).
  - The TCP request/response client, with a failure counter capped at three,
    rate-limited failure logs, a one-time UI warning and an idle watcher.
  - `set_dome` and `set_etalon`.
  - The `status` poller, which parses `dome:`, `et1:` and `et2:` lines into
    the shared actuator state and classifies the dome angle.
- **nSTEP focuser** (`nstep.dfy`, module `NStep`): `move`, which sends a
  one-hot motion switch and then the clamped speed.
- **Log buffer** (`logger.dfy`, module `Logger`): the 300-entry ring of
  timestamped log lines.

`text.dfy` holds the shared Python string built-ins the core relies on:
`strip`, `lower`, `upper`, `split`, `int()`, `str()` and fixed-point
formatting. `protocol.dfy` holds the JSON value type, Python truthiness,
`dict.get` and the command messages.

**Model conventions**
- Sockets, threads and the UI are not modelled as such.
- Each network outcome is a parameter of the operation that meets it: the
  `connectOk`, `writeOk` and `accept` flags and the received chunks.
- Every message a component hands to a socket is appended to a sequence
  field (`wire`, `outbox` or `written`).
- Every push to the UI is appended to a sequence field guarded by a `ui`
  flag that says whether a UI is attached.
- Clocks are integer milliseconds passed in as `now`.
- An exception that escapes an operation is a `raised` result, or a `Fault`
  outcome.

**Behaviours of the code that the model keeps as written:**
- *Lock.* The guider's lock drops as soon as one frame falls outside the lock
  radius (`Guider.SingleMissUnlocks`). `_guide` compares the decremented
  streak with the hold count, so no hysteresis keeps the lock for one more
  frame.
- *Actuator reconnects.* After three consecutive failed connections the
  actuator client never opens a socket again (`Arduino.CapIsFinal`):
  - `_connect` returns at once at the cap;
  - only a success resets the counter;
  - the poller only sleeps at the cap.

  The client does not retry after a back-off. Its UI warning text
  (modules/arduino_module.py:60) says "after 5 retries" although the cap is
  three.
- *Dome label.* `set_dome("close")` stores the label `CLOSE`, whereas the
  poller's classification stores `CLOSED`.
- *Sending while disconnected.* Sending to INDIGO while disconnected never
  raises, even with `quiet=False`: it only logs. Only a failed write raises,
  and only when `quiet` is false.
- *Connect bound.* `connect(max_retries)` makes `max_retries - retry_count`
  attempts, not `max_retries`: the retry count is reset only by a success.
- *Guider pulses.* A guider frame that corrects both axes calls `nudge` twice
  in a row. The DEC nudge clears the RA pulse's active flag, so the RA pulse
  ends during the DEC nudge's grace period: the RA axis is switched off
  almost at once. `Guider.DecNudgeEndsRaPulse` states this for the commands
  sent, and `Guider.AutoGuider.Correct` sends exactly those commands.
- *Unparsable lines.* A line that is not valid JSON ends the listener instead
  of being logged and skipped: the class runs the code's handler, and
  `IndigoClient.ReceiveUnparsableLine` shows the listener ending with the
  client disconnected. See "Findings".

## Model

| member | source | states |
|---|---|---|
| Text.Strip | utilities/indigo_json_client.py:75 | `str.strip()`: the result has no whitespace at either end and is no longer than the input |
| Text.StripShape | utilities/indigo_json_client.py:75 | the stripped text is a slice of the input with only whitespace before and after it; with `Strip`'s trimmed ends this leaves exactly one possible result |
| Text.StripTrimmed | modules/arduino_module.py:86 | stripping a string with no surrounding whitespace leaves it unchanged |
| Text.StripIdempotent | modules/arduino_module.py:170 | stripping an already stripped reply again changes nothing |
| Text.Lower | modules/mount_module.py:246 | `lower()` maps every character through the ASCII lower-case map and keeps the length |
| Text.LowerIdempotent | modules/mount_module.py:220 | lower-casing twice is lower-casing once |
| Text.Upper | modules/arduino_module.py:116 | `upper()` maps every character through the ASCII upper-case map and keeps the length |
| Text.IndexOf | utilities/indigo_json_client.py:73 | `None` exactly when the character is absent; otherwise the position of its first occurrence |
| Text.Split | modules/arduino_module.py:171 | `split(sep)`: at least one part, no part contains the separator, and joining the parts with it gives the input back |
| Text.SplitJoin | modules/arduino_module.py:171 | splitting the join of separator-free parts gives those parts back |
| Text.Frames | utilities/indigo_json_client.py:72-75 | the listener's framing: neither the complete lines nor the remainder holds a newline |
| Text.FramesRebuild | utilities/indigo_json_client.py:72-75 | the complete lines, each followed by its newline, then the remainder, rebuild the framed buffer |
| Text.FramesOfTerminated | utilities/indigo_json_client.py:73-74 | framing newline-terminated lines followed by a newline-free rest gives exactly those lines and that rest |
| Text.NatToString | modules/arduino_module.py:180 | `str(n)` for a natural: decimal digits whose value is `n`, with no leading zero |
| Text.ParseNegative | modules/arduino_module.py:173 | `int()` of a minus sign followed by digits is minus their value |
| Text.ParseDigits | modules/arduino_module.py:173 | `int()` of a non-empty digit string is its value |
| Text.ParseIntToString | modules/arduino_module.py:173 | `int(str(n)) == n` for every integer |
| Text.Trunc | modules/mount_module.py:81 | `int(x)` truncates toward zero: the result is within one of `x` on the side of zero |
| Text.PadInt | modules/mount_module.py:85 | `{n:02}` is at least the requested width |
| Text.Fixed2 | modules/mount_module.py:85 | `{x:05.2f}` is at least the requested width and ends in a digit |
| Protocol.Get | modules/mount_module.py:140-141 | `dict.get`: an absent key gives `null`, a present key gives its value |
| IndigoClient.Route | utilities/indigo_json_client.py:94-98 | the callback registered for the message kind (`action`, else `name`) is invoked with the whole message exactly when the kind is a registered string; an unhashable kind raises; anything else is reported as unhandled |
| IndigoClient.Dispatch | utilities/indigo_json_client.py:90-100 | the evidently intended `_dispatch`: a line is a parse failure exactly when it does not decode; a decoded non-object raises; an object is routed |
| IndigoClient.DispatchAsWritten | utilities/indigo_json_client.py:90-100 | `_dispatch` as written: a line that does not decode raises from the two-argument log call; a line that decodes is handled as in `Dispatch` |
| IndigoClient.DispatchEach | utilities/indigo_json_client.py:73-75 | each framed line is stripped and dispatched, in order, under the chosen parse-failure handler |
| IndigoClient.DispatchEachAppend | utilities/indigo_json_client.py:73-75 | dispatching two runs of lines one after the other is dispatching their concatenation |
| IndigoClient.UpToFault | utilities/indigo_json_client.py:79-82 | an exception ends the listener: the outcomes kept are a prefix that stops at its first fault |
| IndigoClient.UpToFaultUnique | utilities/indigo_json_client.py:79-82 | any prefix that stops at its first fault, or runs to the end without one, is `UpToFault` |
| IndigoClient.UpToFaultClean | utilities/indigo_json_client.py:73-75 | without faults every line is dispatched |
| IndigoClient.UpToFaultStops | utilities/indigo_json_client.py:79-82 | nothing after a fault is dispatched |
| IndigoClient.DispatchLines | utilities/indigo_json_client.py:72-82 | under the chosen handler, the dispatched lines are a prefix of the framed lines, each dispatched in turn, ending at the first fault if there is one |
| IndigoClient.DispatchLinesUnique | utilities/indigo_json_client.py:72-82 | `DispatchLines` is the only sequence with those properties |
| IndigoClient.ParseFailureContained | utilities/indigo_json_client.py:99-100 | intended behaviour: an unparsable line is reported and the lines after it are still dispatched |
| IndigoClient.ParseFailureEndsListenerAsWritten | utilities/indigo_json_client.py:72-100 | as written: a line that does not parse faults with the log-call arity error, the loop stops there and none of the lines after it is dispatched |
| IndigoClient.UnparsableFirstLineFaults | utilities/indigo_json_client.py:72-100 | a buffer whose first line does not parse: framing cuts that line first, and the code's listener faults on it with nothing else dispatched |
| IndigoClient.FramesOf | utilities/indigo_json_client.py:49 | each message is sent as its encoding followed by one newline |
| IndigoClient.ConcatFrames | utilities/indigo_json_client.py:49-52 | the concatenated frames are the newline-terminated encodings |
| IndigoClient.WireRoundTrip | utilities/indigo_json_client.py:49-75 | for messages the codec round-trips (a line-safe encoding that decodes back), framing the bytes of a sequence of sends gives back each encoding with no remainder, and each stripped line decodes to the message sent |
| IndigoClient.SendThenDispatch | utilities/indigo_json_client.py:49-96 | a sent object that the codec round-trips and whose kind names a registered callback reaches that callback with the same fields, under either handler |
| IndigoClient.DispatchBuffer | utilities/indigo_json_client.py:73-75 | the inner loop over a buffer dispatches exactly `DispatchLines` of its framed lines under the given handler and, when nothing faults, leaves the framing remainder |
| IndigoClient.AllSettle | utilities/indigo_json_client.py:72-75 | when no dispatched line faults, the listener dispatches exactly the complete lines and keeps the rest buffered; under the code's handler an unparsable line faults, so this premise excludes it |
| IndigoClient.IndigoJsonClient.constructor | utilities/indigo_json_client.py:12-22 | port 7624, no socket, no callbacks, retry count zero, stop flag clear |
| IndigoClient.IndigoJsonClient.Connect | utilities/indigo_json_client.py:24-41 | at most `max_retries - retry_count` attempts (none once stopped); connected exactly when the last attempt was accepted, with every earlier one refused; on success the listener starts and the count resets, on failure the count grows by the attempts made |
| IndigoClient.IndigoJsonClient.IsConnected | utilities/indigo_json_client.py:106-108 | true exactly when the connected flag is set and a socket is held; `Connect`, `Send` and `Close` state how it changes |
| IndigoClient.IndigoJsonClient.Send | utilities/indigo_json_client.py:43-58 | disconnected: nothing written and nothing raised; connected: one newline-terminated encoding written; on a failed write the client goes disconnected and raises unless quiet; afterwards `is_connected()` holds exactly when it held before and the write succeeded |
| IndigoClient.IndigoJsonClient.Receive | utilities/indigo_json_client.py:60-88 | an empty read or a stop ends the listener and the connection; otherwise the complete lines are dispatched under the code's handler (`DispatchLines` with `AsWritten`), the rest stays buffered, and a fault (an unparsable line included) ends the listener and the connection |
| IndigoClient.IndigoJsonClient.Absorb | utilities/indigo_json_client.py:72-82 | a chunk received while listening: the buffer plus the chunk is framed and its lines dispatched under the code's handler; a fault ends the listener and the connection, otherwise the remainder stays buffered |
| IndigoClient.IndigoJsonClient.On | utilities/indigo_json_client.py:102-104 | registers the callback for the kind, replacing an earlier one; every other registration is unchanged |
| IndigoClient.IndigoJsonClient.Close | utilities/indigo_json_client.py:110-119 | sets the stop flag and leaves the client disconnected |
| IndigoClient.ReceiveUnparsableLine | utilities/indigo_json_client.py:60-100 | the code's listener given a chunk whose first line does not parse: only that line is dispatched, it faults, and the listener ends with the client disconnected |
| Mount.StatusOf | modules/mount_module.py:102-105 | PARKED exactly when parked; SLEWING exactly when not parked and an axis moves; IDLE otherwise |
| Mount.MountControl.GetStatus | modules/mount_module.py:447-452 | returns the label of `StatusOf`, which is "PARKED" exactly when the mount is parked |
| Mount.Sexagesimal | modules/mount_module.py:81-84 | hours (or degrees), minutes and seconds add back up to the value; for a non-negative value, minutes and seconds are below 60 |
| Mount.SexagesimalText | modules/mount_module.py:85 | the formatted text is non-empty and ends in a digit |
| Mount.FormatRa | modules/mount_module.py:77-85 | the placeholder exactly when RA is unknown |
| Mount.FormatDec | modules/mount_module.py:88-98 | the placeholder exactly when DEC is unknown; otherwise it starts with `-` for a negative value and `+` otherwise |
| Mount.FormatDecMirror | modules/mount_module.py:92-93 | a DEC and its negation format to the same digits with opposite signs |
| Mount.CoordinatesUseFormatters | modules/mount_module.py:462-469 | the coordinate record's strings are the formatted RA and DEC, and placeholders exactly for unknown values |
| Mount.MapUiRate | modules/mount_module.py:218-226 | "slow" (in any case) maps to CENTERING, "fast" to MAX, anything else (or nothing) to GUIDE; never FIND |
| Mount.MapUiRateCaseInsensitive | modules/mount_module.py:220 | UI rates that agree after lower-casing map to the same rate |
| Mount.RateSwitch | modules/mount_module.py:228-235 | lists GUIDE, CENTERING, FIND and MAX in order, each true exactly when it is the wanted rate |
| Mount.RateSwitchOneHot | modules/mount_module.py:229-235 | the mapped rate's member is true and no two members are true |
| Mount.AxisOf | modules/mount_module.py:251-263 | east/west select the RA axis and north/south the DEC axis; nothing else selects an axis |
| Mount.MotionCommand | modules/mount_module.py:251-275 | a command exists exactly for the four directions; it names the axis vector and its two members, and a member is on exactly when it names the direction |
| Mount.AxisOff | modules/mount_module.py:361-376 | an axis's stop vector names both of its members, both off |
| Mount.ParkCommand | modules/mount_module.py:421-445 | PARKED and UNPARKED are set to opposite values |
| Mount.PollCommands | modules/mount_module.py:482-501 | one `getProperties` request per polled property name, in order |
| Mount.ClampPulse | modules/mount_module.py:316 | the pulse length is within 20..5000 ms, unchanged inside that range, and the nearer bound outside it |
| Mount.ClampPulseIdempotent | modules/mount_module.py:316 | clamping twice is clamping once |
| Mount.ClampPulseMonotone | modules/mount_module.py:316 | clamping preserves order |
| Mount.ItemTableLastWins | modules/mount_module.py:134 | a member is in the items table exactly when some item names it, and it holds the value of the last such item |
| Mount.ToFloat | modules/mount_module.py:143-161 | `float()` of an item value: a JSON number is itself, a boolean 1.0 or 0.0, anything else raises (`None`); `NumberUpdateItems` states how the handler uses it |
| Mount.NumberUpdate | modules/mount_module.py:133-165 | the equatorial vectors touch only RA/DEC and the horizontal vector only ALT/AZ, and nothing else in the cache changes; `changed` holds exactly when the state changed |
| Mount.NumberUpdateItems | modules/mount_module.py:139-163 | an absent or null item keeps its field and a present one becomes `float()` of it; the update raises exactly when a present item of the vector's pair is not a number |
| Mount.FirstTrueRate | modules/mount_module.py:181-185 | the chosen rate is the first truthy member in scan order; no rate when none is truthy |
| Mount.SwitchUpdate | modules/mount_module.py:178-194 | the slew-rate, RA-motion, DEC-motion and park vectors each update only their own field, by truthiness; other vectors change nothing |
| Mount.MountControl.constructor | modules/mount_module.py:43-72 | writes the site coordinates, starts from the initial state with no pulse, and starts the monitor |
| Mount.MountControl.SetLocation | modules/mount_module.py:200-216 | sends the site as one `GEOGRAPHIC_COORDINATES` number vector |
| Mount.MountControl.GetCoordinates | modules/mount_module.py:456-472 | returns the formatted coordinates of the cached state; emits them only when asked |
| Mount.MountControl.HandleNumberVector | modules/mount_module.py:128-171 | another device's vector is ignored; a malformed items list raises before any change; otherwise the state becomes `NumberUpdate`'s, and coordinates are emitted exactly when something changed, followed by the status |
| Mount.MountControl.ApplyNumber | modules/mount_module.py:136-171 | once the items table is built, the state becomes `NumberUpdate`'s; a raise emits nothing; otherwise coordinates are emitted exactly when something changed, then the status |
| Mount.MountControl.SetPair | modules/mount_module.py:139-163 | the two items of a coordinate pair are applied in turn; the state and the raise are `PairUpdate`'s, and `changed` is its flag when nothing raised |
| Mount.MountControl.SetCoordinate | modules/mount_module.py:142-151 | one coordinate item: kept when null, replaced by its value when different, raising when it is not a number |
| Mount.MountControl.HandleSwitchVector | modules/mount_module.py:173-196 | another device's vector is ignored; a malformed items list raises; otherwise the state becomes `SwitchUpdate`'s and the status is emitted |
| Mount.MountControl.Slew | modules/mount_module.py:244-275 | sends the rate switch, then the motion vector for a valid direction only |
| Mount.MountControl.Stop | modules/mount_module.py:277-308 | clears the pulse flag, then sends DEC off, RA off and the abort |
| Mount.MountControl.Nudge | modules/mount_module.py:310-389 | a running pulse is ended by its axis-off vector; then the rate switch is sent; a valid direction sends its motion vector and starts an active pulse on its axis with the clamped length; an invalid one leaves no pulse and the flag cleared |
| Mount.MountControl.PulseTick | modules/mount_module.py:349-378 | a pulse whose flag is cleared or whose length has elapsed sends its axis-off vector, clears the flag and ends; otherwise nothing changes |
| Mount.MountControl.Park | modules/mount_module.py:421-432 | sends PARKED on, UNPARKED off |
| Mount.MountControl.Unpark | modules/mount_module.py:434-445 | sends PARKED off, UNPARKED on |
| Mount.MountControl.MonitorPoll | modules/mount_module.py:493-504 | while the monitor runs, one pass sends the poll requests |
| Mount.MountControl.Shutdown | modules/mount_module.py:510-520 | stops the monitor, performs `stop()` and closes the client |
| Guider.Odd | modules/guide_module.py:204-206 | the result is odd: an odd number is kept, an even one is raised by one |
| Guider.OddIdempotent | modules/guide_module.py:204-206 | making an odd number odd changes nothing |
| Guider.NextStreak | modules/guide_module.py:232-235 | inside the lock radius the streak rises by one, and stays at the hold count once there; outside it falls by one, and stays at zero once there |
| Guider.StreakStaysInRange | modules/guide_module.py:232-235 | the streak stays within zero and the hold count |
| Guider.StreakClimbs | modules/guide_module.py:232-235 | after k frames inside the radius, the streak is the smaller of start + k and the hold count |
| Guider.LockNeedsHoldFrames | modules/guide_module.py:236 | from zero, a run of frames inside the radius locks exactly when it is at least the hold count long |
| Guider.SingleMissUnlocks | modules/guide_module.py:235-236 | one frame outside the radius takes a full streak below the hold count, so the lock drops |
| Guider.PulseLength | modules/guide_module.py:243-244 | the truncated `kp * r` when it lies within the bounds, the minimum below them and the maximum above them; when the minimum exceeds the maximum, the minimum |
| Guider.DefaultPulseNotReclamped | modules/guide_module.py:244-253 | with the default configuration, the mount's own 20..5000 ms clamp leaves the guider's pulse unchanged |
| Guider.RaNudge | modules/guide_module.py:250-254 | an RA nudge is issued exactly outside the deadband on both `r` and `|dx|` once the RA refractory interval has passed; east for `dx > 0`, else west, with `PulseLength` |
| Guider.DecNudge | modules/guide_module.py:257-261 | likewise on `|dy|` for DEC; south for `dy > 0`, else north |
| Guider.GuideStep | modules/guide_module.py:230-261 | `_guide` on values: the next streak, lock exactly at the hold count, the RA then DEC nudges, and the pulse times of the axes that were nudged |
| Guider.DeadbandQuiet | modules/guide_module.py:239-240 | inside the deadband no nudge is issued and only the lock state changes |
| Guider.AtMostOneNudgePerAxis | modules/guide_module.py:250-261 | a frame issues at most one RA nudge, then at most one DEC nudge, each in a valid direction and within the pulse bounds |
| Guider.RaRefractory | modules/guide_module.py:251 | no second RA nudge within the refractory interval of one |
| Guider.DecRefractory | modules/guide_module.py:258 | no second DEC nudge within the refractory interval of one |
| Guider.NudgeSendsCons | modules/mount_module.py:310-389 | the commands a run of nudges sends are those of the first nudge, then those of the rest, started from the first nudge's pulse |
| Guider.NudgeSendsRequests | modules/guide_module.py:250-261 | a frame's sends are the RA nudge's, then the DEC nudge's, started from the pulse the RA nudge left |
| Guider.DecNudgeEndsRaPulse | modules/guide_module.py:250-261 | when a frame nudges RA and then DEC, the DEC nudge first switches the RA axis off, then sends the guide rate and the DEC motion, so the RA pulse ends at once |
| Guider.RoundedNumerator | modules/guide_module.py:273-277 | the integer nearest `x * scale`: within a half of it, and even on a tie (round half to even) |
| Guider.RoundTo | modules/guide_module.py:273-277 | `round(x, k)` with scale `10^k`: the result times the scale is the integer `RoundedNumerator` gives, so it is within half a unit of the last place of `x` |
| Guider.StatusRecord | modules/guide_module.py:265-279 | status IDLE when not running, else the given state; fps "--" exactly when it is zero, else `round(fps, 2)`; dx, dy and r are null together, exactly when there is no error tuple, and otherwise `round(…, 1)` of it |
| Guider.AutoGuider.constructor | modules/guide_module.py:54-78 | the default configuration when none is given, the preview URL filled in when unset, not running, unlocked, the initial status |
| Guider.AutoGuider.Start | modules/guide_module.py:82-89 | starts exactly when not already running, opening a new fps window |
| Guider.AutoGuider.Stop | modules/guide_module.py:91-93 | clears the running flag |
| Guider.AutoGuider.GetStatus | modules/guide_module.py:95-97 | returns the last status record |
| Guider.AutoGuider.UpdateStatus | modules/guide_module.py:265-282 | stores `StatusRecord` of the current running flag, fps and lock |
| Guider.AutoGuider.Guide | modules/guide_module.py:230-261 | the guider's state and issued nudges are `GuideStep`'s; the mount is sent exactly `NudgeSends` of the issued nudges; no nudge leaves the mount untouched; otherwise the mount runs the last nudge's pulse |
| Guider.AutoGuider.UpdateLock | modules/guide_module.py:232-236 | the streak becomes `NextStreak` and the lock is set exactly at the hold count |
| Guider.AutoGuider.Correct | modules/guide_module.py:239-261 | issues `RaNudge` then `DecNudge`, stamping each axis it nudges; the mount is sent exactly `NudgeSends` of them and runs the last one's pulse; with no nudge the mount is untouched |
| Guider.AutoGuider.NudgeMount | modules/guide_module.py:253 | the mount is sent the nudge's commands (`NudgeSends` of the one request) and runs an active pulse on the nudged axis with the clamped length |
| Guider.AutoGuider.Tick | modules/guide_module.py:106-130 | a found disk is guided on (`GuideStep`), other outcomes change no guide state; the mount is sent `NudgeSends` of the issued nudges; the status is `StatusRecord` of the outcome, carrying offsets only for a found disk; the frame counter advances as `CountFrame` states |
| Guider.AutoGuider.CountFrame | modules/guide_module.py:124-130 | the frame count grows by one; once a second has passed since the window opened it becomes the rate, the count restarts at zero and a new window opens |
| Guider.AutoGuider.Finish | modules/guide_module.py:136 | when the loop ends the status is `StatusRecord` of IDLE with no offsets |
| Arduino.GetEtalon | modules/arduino_module.py:137-138 | the position of etalon 1 or 2, and 90 for any other index |
| Arduino.GetDome | modules/arduino_module.py:134-135 | the stored dome label (the key is always present, so the "UNKNOWN" default never applies); `GetDomeAfterStatus` and `SetDome` state what it reports |
| Arduino.DomeLabel | modules/arduino_module.py:175-180 | OPEN exactly from 170°, CLOSED exactly up to 10°, otherwise `Moving (<angle>°)` |
| Arduino.ApplyLine | modules/arduino_module.py:172-184 | a line parses exactly when its tagged field, if any, is an integer to `int()`; a `dome:` line sets the raw angle to that integer and the label to its classification; `et1:` and `et2:` lines set only their etalon to it; other lines change nothing; the connection flag and timestamp are untouched |
| Arduino.TagsExclusive | modules/arduino_module.py:172-184 | a line carries at most one of the `dome:`, `et1:` and `et2:` tags |
| Arduino.ApplyLinesParses | modules/arduino_module.py:171-188 | the fold over the reply's lines succeeds exactly when every line parses |
| Arduino.ApplyLinesLastWins | modules/arduino_module.py:171-184 | after a reply whose lines all parse, each field holds the integer of the last line carrying its tag (the dome label its classification), or its old value when no line carries the tag |
| Arduino.GetDomeAfterStatus | modules/arduino_module.py:134-135 | after a status reply whose lines all parse, `get_dome()` reports the classification of the last dome angle reported, or the earlier label when no line reports the dome |
| Arduino.ApplyLines | modules/arduino_module.py:171-184 | folding the lines never touches the connection flag or the timestamp |
| Arduino.ApplyLinesTouchesTaggedFields | modules/arduino_module.py:171-184 | a field changes only if some line carries its tag |
| Arduino.DomeFromLastLine | modules/arduino_module.py:172-180 | when the last line is a `dome:` line, the dome label is the classification of the stored raw angle |
| Arduino.StopsAtFailure | modules/arduino_module.py:186-188 | a line that fails to parse ends the fold: the later lines change nothing |
| Arduino.AssembleFrom | modules/arduino_module.py:76-83 | an assembled reply holds a newline and begins with the buffer so far |
| Arduino.AssembleUpToNewline | modules/arduino_module.py:76-83 | the reply is the concatenation of the chunks up to and including the first one holding a newline |
| Arduino.AssembleNeedsNewline | modules/arduino_module.py:79-80 | without a newline the read fails |
| Arduino.SendReply | modules/arduino_module.py:67-92 | a non-empty reply needs an open or newly opened socket, a successful write and a newline-terminated read; when all three hold, the reply is the stripped assembled text |
| Arduino.SharedState.constructor | utilities/config.py:45-51 | dome UNKNOWN, both etalons at 90, never updated, disconnected |
| Arduino.ArduinoTcpClient.constructor | modules/arduino_module.py:22-35 | no socket, failure count zero, no warning sent |
| Arduino.ArduinoTcpClient.Connect | modules/arduino_module.py:37-65 | no attempt at the cap of three failures; a success opens the socket, marks the state connected and resets the count and warning; a failure marks it disconnected, counts, logs at most once per 15 s and warns the UI once at the cap (on the bookkeeping record: `ConnectLink`) |
| Arduino.ArduinoTcpClient.Send | modules/arduino_module.py:67-92 | the reply is `SendReply`; without a socket it first connects as `Connect` does (nothing at the cap; a success resets the count and warning; a failure counts, logs and warns as in `Connect` and returns "" with nothing written); the message is written once exactly when a socket is had and the write succeeds; a complete read keeps the socket and marks the state connected, a failed write or read drops both; no other shared field changes; the whole bookkeeping record becomes `SendLink` of the old one |
| Arduino.ArduinoTcpClient.Exchange | modules/arduino_module.py:74-92 | with a socket open: the message is written exactly when the write succeeds; a complete read keeps the socket, marks the state connected and stamps the use time; a failed write or read drops the socket and marks the state disconnected; the reply is `SendReply`'s (on the bookkeeping record: `ExchangeLink`) |
| Arduino.ArduinoTcpClient.ReadReply | modules/arduino_module.py:76-83 | the read loop returns `Assemble` of the received chunks |
| Arduino.ArduinoTcpClient.IdleTick | modules/arduino_module.py:94-104 | the socket stays open exactly when it was open and used within the idle timeout |
| Arduino.CapIsFinal | modules/arduino_module.py:38-39 | at the cap there is no socket and every later send returns "" |
| Arduino.FailedSendsCount | modules/arduino_module.py:37-65 | sends that find no socket and cannot connect each add one failure and leave no socket: from no failures, three of them bring the client to the cap |
| Arduino.CapHoldsForever | modules/arduino_module.py:38-39 | at the cap with no socket, no series of sends changes the connection bookkeeping |
| Arduino.Update | modules/arduino_module.py:194-200 | stamps the state and publishes it to an attached UI |
| Arduino.SetDome | modules/arduino_module.py:111-119 | a rejected command changes nothing; "open"/"close" are sent as `send` does, so the connection bookkeeping becomes `SendLink` of the old one and the command is written exactly when the socket is reachable and the write succeeds; success exactly when the reply starts with `dome:`, which leaves the client connected, stores the upper-cased command, stamps the state and publishes it to an attached UI; a failure publishes nothing; the etalons are untouched |
| Arduino.SetEtalon | modules/arduino_module.py:121-129 | a rejected request changes nothing; etalon 1 or 2 with an angle in 0..180 is sent as `send` does, so the connection bookkeeping becomes `SendLink` of the old one and the command is written exactly when the socket is reachable and the write succeeds; success exactly when the reply starts with `et<index>:`, which leaves the client connected, stores that etalon's angle alone, stamps the state and publishes it to an attached UI; a failure publishes nothing |
| Arduino.ApplyStatus | modules/arduino_module.py:170-188 | the stripped reply's lines are folded into the state; a parse failure marks it disconnected unstamped, otherwise it is stamped and published |
| Arduino.PollOnce | modules/arduino_module.py:158-189 | a pass is skipped exactly when disconnected at the cap; otherwise at most one `status` line is written |
| NStep.ClampSpeed | modules/nstep_module.py:24 | the speed is within 1..100, unchanged inside that range, and the nearer bound outside it |
| NStep.MotionElements | modules/nstep_module.py:25-41 | exactly the inward, outward and abort elements, each true exactly when it is the direction |
| NStep.MotionOneHot | modules/nstep_module.py:25-41 | for a valid direction exactly one element is true, the one it names |
| NStep.NStepFocuser.constructor | modules/nstep_module.py:14-18 | positions zero, nothing sent |
| NStep.NStepFocuser.Move | modules/nstep_module.py:20-55 | an unknown direction does nothing; otherwise records the clamped speed and hands the motion switch, then the speed, to the client; a failed write raises out of `move`, so nothing after it is sent and no feedback is pushed; when both writes succeed the feedback goes to an attached UI |
| Logger.LogEntry | utilities/logger.py:13-14 | the entry is the timestamp in brackets, a space and the message |
| Logger.LogEntryFields | utilities/logger.py:14 | timestamp and message can be read back from their positions in the entry |
| Logger.LastN | utilities/logger.py:15-17 | the last `n` entries: a suffix of length `min(n, length)` |
| Logger.LastNSnoc | utilities/logger.py:15-17 | appending, then dropping the oldest while over capacity, keeps the last `n` entries |
| Logger.LogBuffer.constructor | utilities/logger.py:5 | an empty buffer |
| Logger.LogBuffer.EmitLog | utilities/logger.py:12-24 | appends the formatted entry, dropping the oldest at capacity 300, so the buffer is always the last 300 entries ever logged; the entry is pushed to an attached UI |
| Logger.LogBuffer.GetLogHistory | utilities/logger.py:26-27 | returns the last 300 entries ever logged |

## Left out

- Threads, locks, sleeps, sockets and the SocketIO UI. Each thread's loop is
  modelled one pass at a time (`Receive`, `PulseTick`, `MonitorPoll`, `Tick`,
  `IdleTick`, `PollOnce`). Interleavings of passes on different threads are
  not modelled.
- Wall-clock time. It is an integer millisecond `now` parameter, and the
  wall-clock timestamps are string parameters.
- Frame fetching, image decoding, blurring, thresholding, contour search,
  overlays and JPEG encoding (`_fetch_frame`, `_process_frame`,
  `_push_overlay` in modules/guide_module.py). These are image processing in
  OpenCV. Their outcome is the `FrameResult` given to `Tick`.
- Pacing the guider loop to the target frame rate. It is only a sleep.
- The `emit_log` calls scattered through the core. They append to the log
  buffer, which is modelled on its own in `Logger`; the other modules do not
  thread a `LogBuffer` through.
- Messages printed to the console.
- Exceptions raised by UI emits.
- The INDIGO client's `connect` delay between attempts and its log lines.
  Within one call, an attempt that raises is modelled by the `accept`
  function.
- Callbacks that raise. `Route` invokes a callback and does not model what
  the callback itself does.
- `_slew_to_coords` and `track_sun` in modules/mount_module.py. Nothing in
  the core calls the first, and the second only logs.
- The mount constructor's two `client.on` registrations. `MountControl` is
  not wired to an `IndigoJsonClient`; its handlers take the message directly.
- `get_position` and `_poll_position` in modules/nstep_module.py. They call
  `get_property`, which the INDIGO client does not define.
- `start_monitor`, `stop_monitor` and `get_state` in
  modules/arduino_module.py. They start a thread, clear a flag and return the
  state; `PollOnce` models one pass of the poller.
- Text decoding of received bytes (UTF-8). Received data is a string already.
- Mount.MountControl.Nudge: the replaced pulse is taken to notice the
  cancellation within the 10 ms grace period. A pulse thread that is slow to
  notice it could clear the new pulse's flag; that race is not modelled.
- Mount.MountControl: UI emits are recorded in `events` whether or not a UI
  is attached.
- Mount.ToFloat: `float()` of a JSON string is modelled as raising. Python
  would parse a numeric string; the device server sends numbers.
- Text.Lower and Text.Upper: ASCII letters only. Python's Unicode case
  mapping is not modelled.
- NStep.NStepFocuser.Move: `speed` is an integer. `int(speed)` on a float or
  a numeric string is not modelled.
- Text.ParseInt: decimal digits with an optional sign and surrounding
  whitespace. Underscores and non-ASCII digits, which Python's `int()` also
  accepts, are not modelled.
- Text.PadInt: states only the minimum width, not the digits.
- Text.Fixed2: states only the width and the last digit, not the digit
  values. Rounding is exact rational rounding, not binary floating point.
- Guider.RoundTo: round half to even on the exact rational value. Python
  rounds the binary float, whose value can lie just off a tie; that is not
  modelled.
- Guider.AutoGuider.constructor: the configuration is a value, so the source's
  in-place write of the URL into a caller-supplied configuration object is
  not visible to the caller.
- Guider.AutoGuider.CountFrame: the loop reads the clock up to three times
  in the frame-rate window; the model reads it once, as `now`.
- Arduino.PollOnce: states when a pass is skipped and what it writes. What
  it does to the state is stated by `Send` and `ApplyStatus`, which it
  calls in turn.

## Findings

| source | as written | input that shows it | evidently intended | confidence | as-written member | corrected member |
|---|---|---|---|---|---|---|
| utilities/indigo_json_client.py:100 | the parse-failure handler calls `emit_log("[INDIGO] Failed to parse:", line)`, but `emit_log` (utilities/logger.py:12) takes one argument, so the handler raises `TypeError`; `_listen_loop` does not catch it, and the listener ends and the connection is dropped | any received line that is not JSON, for example `hello` followed by a newline | the line is logged and dropped, and the session continues with the next line | high; not executed | IndigoClient.ParseFailureEndsListenerAsWritten | IndigoClient.ParseFailureContained |
