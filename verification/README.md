# Motion chair command link and on-screen log, in Dafny

This project models the two stateful cores of a Unity application that
drives a six-degree-of-freedom motion chair over UDP:

- **The chair controller** (`Assets/Scripts/ChairController.cs`). It holds
  pitch, roll, yaw, sway, surge and heave, each clamped to ±15 by its
  setter. It builds one of two binary packets from them: the 32-byte
  EB 90 01 packet or the 123-byte EB 90 02 packet. It opens and closes a
  UDP session and sends one packet every send interval while connected. A
  send that throws forces a disconnect, which resets the pose and sends the
  neutral packet.
- **The log display** (`Assets/Scripts/LogDisplay.cs`). Every logged message
  is wrapped in a colour tag chosen by its log type and stamped. It is
  appended to a queue that keeps the most recent `maxLines` entries, and the
  queue is rendered as the display text, one line each.

Files:

- `motion.dfy` (module `Motion`): the pose, the clamp and the slider mapping.
- `packets.dfy` (module `Packets`): both wire layouts. Each is given as a
  sequence layout and as a byte-by-byte reference. The two in-place encoders
  on `array<byte>` are proved against them.
- `numbers.dfy` (module `Numbers`): `int.TryParse` and `int.ToString`, as the
  port field uses them.
- `chair.dfy` (module `ChairLink`): the controller class, the UDP client and
  the network it talks to, and a pure description of what each command
  and each disconnect does to the link.
- `logs.dfy` (module `Logs`): the log display class and the functions that
  specify it.
- `wrappers.dfy` (module `Wrappers`): `Option`.

Modelling choices:

- **Floats.** Axis values are reals, so float rounding and NaN are not
  modelled. `BitConverter.GetBytes(float)` is the parameter `floatBytes`, a
  function from reals to four bytes. The round-trip lemma takes any decoder
  that reads back the encodings of the pose's six values.
- **Network.** The UDP socket layer is a `Network` object:
  - `allocationFails` says whether `new UdpClient()` throws;
  - `outcomes` is a finite script of which sends throw (true means it
    throws), and every send beyond the script succeeds;
  - `sent` records every datagram that left.
- **Logger.** Everything the controller reports through `LogMessage`,
  `LogError` and `LogSentPacket` is an `Event` appended to the controller's
  `events`.
- **Re-entry.** A send that throws calls `ToggleConnection` while the session
  is still marked connected. That runs the disconnect branch, which resets
  the pose and sends again, and that send can throw in turn. This re-entry
  is modelled as written:
  - `SendChairCommand` and `ToggleConnection` are mutually recursive.
  - Recursion is bounded by the length of the send script.
  - Each outer disconnect level finds `udpClient` already null, because the
    innermost level closed it. Its `udpClient.Close()` throws a
    NullReferenceException, which the catch at line 177 only writes to the
    console. That level still marks the session disconnected and reports it.
  - `DisconnectEvents` and `AfterDisconnect` give the outcome in closed form.
- **Structure.** `ToggleConnection` is split into `Connect` and `Disconnect`,
  one method per branch. This keeps each proof small. `ToggleConnection`
  dispatches on `isConnected` exactly as the source does.
- **Failures during a disconnect.** A failure of the final neutral send is
  not swallowed: it re-enters the disconnect. A failed tick send is
  followed by the forced disconnect's reset and neutral packet
  (`ChairLink.SingleSendFailure`).

## Model

| member | source | states |
|---|---|---|
| Motion.Clamp | Assets/Scripts/ChairController.cs:344-349 | `Mathf.Clamp`: the result lies in [min, max], equals the value when it is already in range, is min below range and max above it (when min <= max), and is always one of value, min and max |
| Motion.SliderSymmetric | Assets/Scripts/ChairController.cs:352-357 | slider positions v and 1 - v command opposite axis values |
| Motion.SliderLandmarks | Assets/Scripts/ChairController.cs:352-357 | with limit 15, slider 0, 0.5 and 1 command -15, 0 and 15 after clamping |
| Motion.SliderClamp | Assets/Scripts/ChairController.cs:352-357 | the slider mapping is monotonic; for a slider in [0, 1] it stays within ±max and the clamp changes nothing; below 0 it saturates at -max and above 1 at +max |
| Packets.MarkerRule | Assets/Scripts/ChairController.cs:290-300 | the 12-byte marker run is 0x3F where the offset is 3 mod 4, 0x80 where it is 2 mod 4, and 0 elsewhere |
| Packets.StandardLayout | Assets/Scripts/ChairController.cs:238-263 | the EB 90 01 packet is 32 bytes: header EB 90 01 0A, the six axis encodings at 4..27 in wire order, and zeros at 28..31, byte by byte |
| Packets.AltLayout | Assets/Scripts/ChairController.cs:266-309 | the EB 90 02 packet is 123 bytes: header EB 90 02 7B, axes at 16..39, 0x80/0x3F markers in 40..51, trailer 0A 0A 0A FF at 119..122, and zero everywhere else, byte by byte |
| Packets.AxisBlockSlots | Assets/Scripts/ChairController.cs:249-254 | the axis block is 24 bytes, and slot k holds the encoding of axis k in the order pitch, roll, yaw, sway, surge, heave |
| Packets.PacketCarriesAxes | Assets/Scripts/ChairController.cs:207-216 | the protocol flag picks the packet: 123 bytes with header EB 90 02 exactly when the flag is set, otherwise 32 bytes with EB 90 01; the axis block sits at that format's offset |
| Packets.PacketRoundTrip | Assets/Scripts/ChairController.cs:281-287 | decoding the six floats at the axis offset gives back the pose the packet was built from, in either format, for any decoder that reads back the encodings of the pose's six values |
| Packets.NeutralPacket | Assets/Scripts/ChairController.cs:170-171 | when 0.0f encodes as four zero bytes, all 24 axis bytes of the packet sent after a reset are zero |
| Packets.MarkersWritten | Assets/Scripts/ChairController.cs:290-300 | after the marker loop, the buffer holding the header and axes carries the marker run at 40..51 and nothing else changed |
| Packets.BlockCopy | Assets/Scripts/ChairController.cs:249 | `Buffer.BlockCopy`: the source bytes land at the offset and every other byte of the destination is unchanged |
| Packets.WriteAxes | Assets/Scripts/ChairController.cs:281-287 | the six block copies put the axis block at the offset and leave the rest of the buffer as it was |
| Packets.WriteMarkers | Assets/Scripts/ChairController.cs:290-300 | the pass over all 123 bytes writes the 80 3F marker pairs into the three slots at 40..51 of a buffer holding the header and axes, and leaves every other byte unchanged |
| Packets.WriteTrailer | Assets/Scripts/ChairController.cs:303-306 | the last four bytes become 0A 0A 0A FF and the rest of the buffer is unchanged |
| Packets.CreateEB9001Packet | Assets/Scripts/ChairController.cs:238-263 | the freshly allocated buffer filled in place equals the EB 90 01 layout for the pose |
| Packets.CreateEB9002Packet | Assets/Scripts/ChairController.cs:266-309 | the freshly allocated buffer, filled in place by header writes, block copies, the marker loop and the trailer writes, equals the EB 90 02 layout |
| Numbers.TryParseInt | Assets/Scripts/ChairController.cs:123 | `int.TryParse`: a parsed port is always a 32-bit integer |
| Numbers.DecimalString | Assets/Scripts/ChairController.cs:69 | `ToString` of a natural number is a non-empty digit string without a leading zero |
| Numbers.DigitsRoundTrip | Assets/Scripts/ChairController.cs:69 | reading back the decimal digits of n gives n |
| Numbers.ParsePrintRoundTrip | Assets/Scripts/ChairController.cs:123 | the port text that `Start` writes with `ToString` parses back to the same port, for every 32-bit integer |
| Numbers.NotANumber | Assets/Scripts/ChairController.cs:123 | text without a digit, such as an empty port field, does not parse, so the port becomes 0 |
| ChairLink.DisconnectEventsLayout | Assets/Scripts/ChairController.cs:163-197 | the report of a disconnect after g failed sends, event by event: a reset and a send error per failed attempt, the reset and the neutral packet of the attempt that got through, then "disconnected" once per level |
| ChairLink.DisconnectDeliversOnce | Assets/Scripts/ChairController.cs:163-197 | whatever the number of failed attempts, a disconnect reports exactly one sent packet, the neutral one, and its report ends with "disconnected" |
| ChairLink.NestedDisconnect | Assets/Scripts/ChairController.cs:224-234 | a failed send inside a disconnect starts a nested disconnect that sees one failure fewer; the nested report wrapped in the outer level's events is the report of the whole disconnect |
| ChairLink.DisconnectSteps | Assets/Scripts/ChairController.cs:163-197 | the disconnect branch taken step by step (reset, one send, close, report) has exactly the closed-form outcome `AfterDisconnect` |
| ChairLink.CommandDeliversOnce | Assets/Scripts/ChairController.cs:201-235 | every command puts exactly one datagram on the wire: the commanded packet when the send succeeds, otherwise the neutral packet of the forced disconnect; it consumes the run of failures plus one send, the session stays open only if the first send succeeds, and the pose stays within limits |
| ChairLink.ReliableLink | Assets/Scripts/ChairController.cs:201-235 | on a network that never fails, a command sends its packet and keeps the session, and a disconnect sends one neutral packet and closes it |
| ChairLink.SingleSendFailure | Assets/Scripts/ChairController.cs:224-234 | one failing send is reported once, and the forced disconnect still resets the pose and sends the neutral packet before the session ends |
| ChairLink.Network.OpenClient | Assets/Scripts/ChairController.cs:128 | `new UdpClient()` gives a fresh open client on the network, or fails |
| ChairLink.UdpClient.Send | Assets/Scripts/ChairController.cs:219 | a send consumes one scripted outcome and records the datagram (payload, host, port) exactly when it does not throw |
| ChairLink.UdpClient.Close | Assets/Scripts/ChairController.cs:174 | the client ends closed |
| ChairLink.ChairController.constructor | Assets/Scripts/ChairController.cs:33-57 | initial state: disconnected, neutral pose, destination 192.168.0.15:20000, standard protocol, interval 0.05, timer 0 |
| ChairLink.ChairController.Report | Assets/Scripts/ChairController.cs:312-334 | each log helper appends one event to the logger and changes nothing else |
| ChairLink.ChairController.GetPitch | Assets/Scripts/ChairController.cs:337 | under the safety invariant the value read is within ±maxPitch |
| ChairLink.ChairController.GetRoll | Assets/Scripts/ChairController.cs:338 | under the safety invariant the value read is within ±maxRoll |
| ChairLink.ChairController.GetYaw | Assets/Scripts/ChairController.cs:339 | under the safety invariant the value read is within ±maxYaw |
| ChairLink.ChairController.GetSway | Assets/Scripts/ChairController.cs:340 | under the safety invariant the value read is within ±maxSway |
| ChairLink.ChairController.GetSurge | Assets/Scripts/ChairController.cs:341 | under the safety invariant the value read is within ±maxSurge |
| ChairLink.ChairController.GetHeave | Assets/Scripts/ChairController.cs:342 | under the safety invariant the value read is within ±maxHeave |
| ChairLink.ChairController.SetPitch | Assets/Scripts/ChairController.cs:344 | pitch becomes the clamped value, only pitch changes, and every axis stays within its limit |
| ChairLink.ChairController.SetRoll | Assets/Scripts/ChairController.cs:345 | roll becomes the clamped value, only roll changes, and every axis stays within its limit |
| ChairLink.ChairController.SetYaw | Assets/Scripts/ChairController.cs:346 | yaw becomes the clamped value, only yaw changes, and every axis stays within its limit |
| ChairLink.ChairController.SetSway | Assets/Scripts/ChairController.cs:347 | sway becomes the clamped value, only sway changes, and every axis stays within its limit |
| ChairLink.ChairController.SetSurge | Assets/Scripts/ChairController.cs:348 | surge becomes the clamped value, only surge changes, and every axis stays within its limit |
| ChairLink.ChairController.SetHeave | Assets/Scripts/ChairController.cs:349 | heave becomes the clamped value, only heave changes, and every axis stays within its limit |
| ChairLink.ChairController.SetPitchFromSlider | Assets/Scripts/ChairController.cs:352 | pitch becomes the clamped slider mapping and stays within its limit |
| ChairLink.ChairController.SetRollFromSlider | Assets/Scripts/ChairController.cs:353 | roll becomes the clamped slider mapping and stays within its limit |
| ChairLink.ChairController.SetYawFromSlider | Assets/Scripts/ChairController.cs:354 | yaw becomes the clamped slider mapping and stays within its limit |
| ChairLink.ChairController.SetSwayFromSlider | Assets/Scripts/ChairController.cs:355 | sway becomes the clamped slider mapping and stays within its limit |
| ChairLink.ChairController.SetSurgeFromSlider | Assets/Scripts/ChairController.cs:356 | surge becomes the clamped slider mapping and stays within its limit |
| ChairLink.ChairController.SetHeaveFromSlider | Assets/Scripts/ChairController.cs:357 | heave becomes the clamped slider mapping and stays within its limit |
| ChairLink.ChairController.PresetForward | Assets/Scripts/ChairController.cs:360-368 | pitch -5, roll 0, surge 10; yaw, sway and heave unchanged; the preset is reported |
| ChairLink.ChairController.PresetBackward | Assets/Scripts/ChairController.cs:370-378 | pitch 5, roll 0, surge -10; yaw, sway and heave unchanged; the preset is reported |
| ChairLink.ChairController.PresetLeftTurn | Assets/Scripts/ChairController.cs:380-387 | yaw 5 and roll 5, the other axes unchanged; the preset is reported |
| ChairLink.ChairController.PresetRightTurn | Assets/Scripts/ChairController.cs:389-396 | yaw -5 and roll -5, the other axes unchanged; the preset is reported |
| ChairLink.ChairController.ResetAllMotion | Assets/Scripts/ChairController.cs:398-409 | all six axes become 0 and the reset is reported |
| ChairLink.ChairController.ToggleProtocolType | Assets/Scripts/ChairController.cs:412-417 | the protocol flag is negated, so toggling twice restores it, and the new protocol is reported |
| ChairLink.ChairController.SendChairCommand | Assets/Scripts/ChairController.cs:201-235 | the link ends as `AfterCommand` says: the packet for the pose at the call goes out, or the failure is reported and the forced disconnect runs; the same client is kept while connected, and a client given up is closed |
| ChairLink.ChairController.ToggleConnection | Assets/Scripts/ChairController.cs:113-198 | from connected, the outcome of the disconnect; from disconnected, the destination taken from the fields and then either a reported connect failure with nothing else changed, or a connect followed by one command |
| ChairLink.ChairController.Connect | Assets/Scripts/ChairController.cs:115-162 | the destination comes from the input fields, and a port that does not parse becomes 0; on a failed client allocation only the failure is reported; otherwise the session opens, is reported, and sends the current pose at once |
| ChairLink.ChairController.Disconnect | Assets/Scripts/ChairController.cs:163-197 | the link ends as `AfterDisconnect` says: pose neutral, exactly one neutral packet delivered after any run of failures, client closed and released, session disconnected |
| ChairLink.ChairController.Update | Assets/Scripts/ChairController.cs:102-110 | disconnected: nothing changes; below the interval: the timer grows by the frame time and nothing is sent; at the interval: one command runs and the timer restarts at 0 |
| Logs.ColorName | Assets/Scripts/LogDisplay.cs:27-39 | red exactly for Error and Exception, yellow exactly for Warning, white exactly for the other types |
| Logs.EntryFields | Assets/Scripts/LogDisplay.cs:42-43 | an entry is "[" timestamp "] " and the opening colour tag, then the message verbatim, then the closing tag |
| Logs.RenderAppend | Assets/Scripts/LogDisplay.cs:63-70 | rendering two queues one after the other renders their concatenation |
| Logs.RenderInOrder | Assets/Scripts/LogDisplay.cs:63-70 | the text is the oldest line and a newline, followed by the rendering of the rest, in queue order |
| Logs.LastN | Assets/Scripts/LogDisplay.cs:49-52 | the trimmed queue is a suffix of the queue, of length min(length, n) |
| Logs.NewestLast | Assets/Scripts/LogDisplay.cs:46 | with room for at least one line, the entry just added is the last line of the queue |
| Logs.SuffixThenLast | Assets/Scripts/LogDisplay.cs:46-52 | trimming to the last n before appending more does not change the last n after |
| Logs.ReplayKeepsLast | Assets/Scripts/LogDisplay.cs:46-52 | after any run of appends, each followed by a trim, the queue holds exactly the last n of everything logged, in order |
| Logs.LogDisplay.constructor | Assets/Scripts/LogDisplay.cs:7-10 | maxLines starts at 20 with an empty queue |
| Logs.LogDisplay.UpdateLogText | Assets/Scripts/LogDisplay.cs:58-71 | with a text component, the text becomes every queued line followed by a newline, in queue order; without one, nothing changes |
| Logs.LogDisplay.HandleLog | Assets/Scripts/LogDisplay.cs:22-56 | for maxLines ≥ 0 the queue becomes the last maxLines of the old queue plus the new entry, and the text is redrawn; for negative maxLines the dequeue loop empties the queue and the dequeue from the empty queue throws, so the text is not redrawn |
| Logs.LogDisplay.ClearLogs | Assets/Scripts/LogDisplay.cs:74-78 | the queue ends empty and the text, when there is a component, ends empty |

## Left out

- The visual cube in `Update` (lines 85-99) is left out: it is float rendering with `Slerp` and `Lerp`.
- `Start` (59-80) is left out: it is UI set-up. Its writing of the port with `ToString` is covered by `Numbers.ParsePrintRoundTrip`.
- The input fields are left out as editable state. Their text at connect time is a constant of the controller.
- `OnDestroy` (433-439) is left out: it only closes the client on teardown.
- `SetLogger` (420-431) and the choice between the logger and the console in the log helpers are left out. Every report is an event in one sink.
- Messages written only with `Debug.Log` or `Debug.LogError` are left out. These include the message of the caught NullReferenceException in a nested disconnect.
- The status text, the button label and the indicator colour are left out, because they are UI only.
- `ChairLink.ChairController.SendChairCommand`: an unending run of failing sends is not modelled. In the source it recurses until the stack overflows. The model bounds the recursion by the finite send script.
- The exception text in error reports is left out.
- `Numbers.TryParseInt`: culture-specific digits and signs, thousands separators and embedded null characters are not modelled. Only ASCII digits, '+', '-' and surrounding white space are.
- The IEEE-754 bit layout and host byte order of `BitConverter.GetBytes` are left out. The encoding is a parameter.
- `Mathf.Clamp` on NaN and float rounding in the slider mapping are left out, because the axes are reals.
- `LogDisplay.OnEnable` and `OnDisable` (12-20) are left out: they subscribe `HandleLog` to Unity's log event. The stack trace argument is unused in the source.
- The clock reading `DateTime.Now.ToString("HH:mm:ss")` is a parameter.
- `Environment.NewLine` is the display's constant `newline`.
- What Unity does with the exception `HandleLog` throws when `maxLines` is negative is left out.
- The messages the controller sends to Unity's console are not fed into the log display model. The two classes are modelled separately.
