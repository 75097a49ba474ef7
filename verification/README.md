# micro:bit Web Bluetooth pages, modelled in Dafny

The repository holds five browser pages that talk to a BBC micro:bit over Web
Bluetooth. They are a magnetometer page, an accelerometer page, two LED pages
and a scan page. Beneath the Web Bluetooth promises and the DOM they share a
few small pieces of logic, and this project models and proves those:

- **The UUID registry.** A fixed table of the micro:bit's 12 services and 33
  characteristics, and `searchUuid`: an exact, case-sensitive search whose flag
  picks the "unknown service" or "unknown characteristic" answer
  (`uuid_registry.dfy`).
- **The payload codecs.** These follow the little-endian `DataView` getters and
  setters of ECMA-262, section 25.3:
  - the 16-bit period, delay and bearing values, and the three signed 16-bit
    axes (`dataview.dfy`, `sensors.dfy`);
  - the calibration byte and its `switch` (`sensors.dfy`);
  - the 5-byte LED bitmap with its reversed column order. The encoder fills an
    array in place in nested loops, and the decoder writes a 5×5 checkbox
    array (`led_matrix.dfy`).
- **The connection state of a page.** It is a class (`Gatt.Session`) holding:
  - the device;
  - its `gatt.connected` flag;
  - the stored characteristic handles and the handles with a change listener;
  - the page log;
  - the Web Bluetooth calls made, in order.

  Every read and write first runs the guard chain (device present, then
  connected, then handle stored). It reports the first failure and reaches the
  transport only when all pass (`gatt.dfy`, `operations.dfy`). The
  characteristic lookups of `connect` are a fold over their outcomes, in two
  shapes: nested, where a failure stops the later lookups, and independent,
  where each failure is isolated and every `getCharacteristic` is issued before
  any `startNotifications`. The two `disconnect` variants are state
  transitions on the same class.
- **The pages themselves.** Each page module fixes the settings of its page,
  runs its operations and its `connect` with them, and proves what its
  `connect` does (`magnetometer.dfy`, `leds.dfy`,
  `leds_standalone.dfy`, `accelerometer.dfy`). The settings are how a failed
  check is logged, when a read logs OK, which lookups it makes and in which
  shape.
- **The scan page.** `getSupportedProperties` is a loop proved against a
  filter-and-upper-case function. The `nSer`/`nChar`/`stringTable` bookkeeping
  is a class whose nested loops are proved against a fold over the services,
  with the services' characteristic lists arriving one after another
  (`scan.dfy`).

Every Web Bluetooth promise a script waits on is an input saying whether it
resolved, or what it delivered. The calls the scripts make are recorded in
`Session.calls`, and the log keeps only the outcome entries (OK, an error, or a
plain notice). All source paths below are relative to the repository root.

## Model

| member | source | states |
|---|---|---|
| MicrobitUuid.FirstMatch | microbit-web-bluetooth-magnetometer.js:78-89 | the lookup finds a name iff some entry has exactly that UUID, and then it is the name of the first such entry; with no match it is the unknown answer the flag selects |
| MicrobitUuid.LookupOwnEntry | microbit-web-bluetooth-magnetometer.js:79-83 | in a table without repeated UUIDs, each entry's own UUID yields its own name |
| MicrobitUuid.ServicesDistinct | microbit-web-bluetooth-magnetometer.js:21-32 | the service UUIDs are pairwise distinct |
| MicrobitUuid.CharacteristicsFirstHalfDistinct | microbit-web-bluetooth-magnetometer.js:36-51 | the first 16 characteristic UUIDs are pairwise distinct |
| MicrobitUuid.CharacteristicsSecondHalfDistinct | microbit-web-bluetooth-magnetometer.js:52-68 | the remaining characteristic UUIDs are pairwise distinct |
| MicrobitUuid.CharacteristicsHalvesDisjoint | microbit-web-bluetooth-magnetometer.js:36-68 | no UUID of the first 16 characteristics recurs among the rest |
| MicrobitUuid.SectionsDisjoint | microbit-web-bluetooth-magnetometer.js:21-68 | no service UUID is also a characteristic UUID |
| MicrobitUuid.TableDistinct | microbit-web-bluetooth-magnetometer.js:21-68 | the registry has 45 entries and no two share a UUID |
| MicrobitUuid.EveryEntryFound | microbit-web-bluetooth-magnetometer.js:21-83 | looking up any registry UUID yields that entry's display name, whatever the flag |
| MicrobitUuid.AccelerometerDataFound | microbit-web-bluetooth-magnetometer.js:45 | "e95dca4b-251d-470a-a062-fa1922dfa9a8" yields "Accelerometer Data" |
| MicrobitUuid.FlagIrrelevantWhenListed | microbit-web-bluetooth-magnetometer.js:79-88 | when the UUID is listed, both flag values give the same answer |
| MicrobitUuid.ServicesLowerTail | microbit-web-bluetooth-magnetometer.js:21-32 | every service UUID has a lower-case letter and no upper-case letter in its last two characters |
| MicrobitUuid.CharacteristicsLowerTail | microbit-web-bluetooth-magnetometer.js:36-68 | the same holds for every characteristic UUID |
| MicrobitUuid.TableLowerTail | microbit-web-bluetooth-magnetometer.js:21-68 | the same holds for every registry UUID |
| MicrobitUuid.UpperCaseTailUnknown | microbit-web-bluetooth-accelerometer.js:78-89 | a 36-character UUID with an upper-case letter in its last two characters is never found, because `===` does not fold case |
| MicrobitUuid.UpperCaseSpellingUnknown | microbit-web-bluetooth-accelerometer.js:78-89 | the upper-case spelling of any registry UUID falls through to the unknown answer |
| MicrobitUuid.UpperCaseExample | microbit-web-bluetooth-accelerometer.js:78-89 | the upper-case accelerometer data UUID is an unknown characteristic |
| Text.UpperChar | microbit-web-bluetooth-scan/microbit-web-bluetooth-scan.js:134 | a lower-case ASCII letter becomes its upper-case letter; every other character is kept |
| Text.ToUpper | microbit-web-bluetooth-scan/microbit-web-bluetooth-scan.js:134 | upper-casing keeps the length and maps every character through `UpperChar` |
| Text.JoinLength | microbit-web-bluetooth-scan/microbit-web-bluetooth-scan.js:137 | a join is as long as its parts plus one separator between each pair of neighbours |
| Text.JoinSmall | microbit-web-bluetooth-scan/microbit-web-bluetooth-scan.js:137 | joining nothing gives "" and joining one part gives that part |
| DataView.LittleEndian16 | microbit-web-bluetooth-magnetometer.js:220-222 | the 2-byte little-endian layout of a 16-bit value is [v mod 256, v div 256] |
| DataView.GetUint8 | microbit-web-bluetooth-leds.js:239 | a byte read succeeds iff the offset is inside the view, and returns that byte |
| DataView.GetUint16 | microbit-web-bluetooth-magnetometer.js:195 | a 16-bit read succeeds iff two bytes are there; their little-endian layout is the value read, which lies in 0..65535 |
| DataView.SignedFromUnsigned16 | microbit-web-bluetooth-magnetometer.js:143-145 | the two's-complement reading lies in -32768..32767, agrees with the raw value modulo 65536, and is negative iff the top bit is set |
| DataView.GetInt16 | microbit-web-bluetooth-magnetometer.js:143-145 | a signed read succeeds iff two bytes are there, and is the two's-complement reading of the unsigned one |
| DataView.SetUint8 | microbit-web-bluetooth-magnetometer.js:252 | `setUint8` replaces exactly the byte at the offset |
| DataView.SetUint16 | microbit-web-bluetooth-magnetometer.js:222 | `setUint16(offset, v, true)` replaces exactly the two bytes at the offset with v's little-endian layout |
| DataView.NewBuffer | microbit-web-bluetooth-magnetometer.js:220-221 | a new buffer of the given length is zero-filled |
| DataView.EncodeUint16 | microbit-web-bluetooth-magnetometer.js:220-222 | the period and delay writers build exactly v's 2-byte little-endian layout |
| DataView.EncodeUint8 | microbit-web-bluetooth-magnetometer.js:250-252 | the calibration writer builds exactly one byte, the selected value |
| DataView.Uint16RoundTrip | microbit-web-bluetooth-magnetometer.js:195 | reading back the 2-byte layout of v gives v; at microbit-web-bluetooth-accelerometer.js line 161, the period the accelerometer page writes (lines 185-187) is read back unchanged; at microbit-web-bluetooth-leds.js line 341, the scrolling delay the LED page writes (lines 367-369) is read back unchanged; at microbit-web-bluetooth-leds/microbit-web-bluetooth-leds.js line 325, the standalone page writes (lines 349-351) and reads the same delay field, so the value written is the value shown |
| DataView.Uint16At | microbit-web-bluetooth-magnetometer.js:143-145 | a 16-bit read anywhere in a buffer gives v when the two bytes there are v's layout |
| DataView.Uint16Inverse | microbit-web-bluetooth-magnetometer.js:195 | every 2-byte payload is the layout of the value read from it |
| DataView.ShortPayloadRangeError | microbit-web-bluetooth-magnetometer.js:195 | a 16-bit read of a payload shorter than two bytes fails rather than reading past it |
| Sensors.DecodeAxes | microbit-web-bluetooth-magnetometer.js:142-146 | a data notification decodes iff it has at least 6 bytes; x, y and z are bytes 0-1, 2-3 and 4-5 read as little-endian int16, each in -32768..32767; at microbit-web-bluetooth-accelerometer.js lines 140-144, the accelerometer data is decoded the same way: offsets 0, 2 and 4, at least 6 bytes |
| Sensors.AxesPayload | microbit-web-bluetooth-magnetometer.js:143-145 | the layout of a reading is 6 bytes |
| Sensors.AxesRoundTrip | microbit-web-bluetooth-magnetometer.js:143-145 | decoding the layout of three raw 16-bit components gives their two's-complement readings |
| Sensors.AxesPayloadComplete | microbit-web-bluetooth-accelerometer.js:141-143 | every 6-byte payload is the layout of the three components read from it, so decoding loses nothing |
| Sensors.DecodeBearing | microbit-web-bluetooth-magnetometer.js:152-154 | the bearing decodes iff there are at least 2 bytes, lies in 0..65535, and is bytes 0-1 read as unsigned little-endian |
| Sensors.CalibrationCases | microbit-web-bluetooth-magnetometer.js:160-177 | codes 0 to 3 are the four named states, every other code is the unrecognized state (never an error), and the state gives back its code |
| Sensors.CalibrationRoundTrip | microbit-web-bluetooth-magnetometer.js:161-176 | every state the switch can produce is decoded from its own code, so the four named states are distinct |
| Sensors.DecodeCalibration | microbit-web-bluetooth-magnetometer.js:160-177 | a calibration notification decodes iff it has a byte, and the state carries that byte's code |
| Sensors.CalibrationTextsDistinct | microbit-web-bluetooth-magnetometer.js:163-176 | two calibration states show the same text only when both are unrecognized codes or both are the same named state |
| LedMatrix.CheckboxId | microbit-web-bluetooth-leds.js:274 | the loops address checkbox id (rowIndex+1)(5-columnIndex), both digits in 1..5 |
| LedMatrix.EncodedCheckbox | microbit-web-bluetooth-leds.js:274 | bit c of the byte written for row r is set iff checkbox id (r+1)(5-c) is checked |
| LedMatrix.DecodedCheckbox | microbit-web-bluetooth-leds.js:238-242 | after a read, checkbox id (r+1)(5-c) is checked iff bit c of payload byte r is set |
| LedMatrix.RowOf | microbit-web-bluetooth-leds.js:238-242 | a byte shows five checkboxes: column j+1 is bit 4-j, and bits 5 to 7 are ignored |
| LedMatrix.EncodeMatrix | microbit-web-bluetooth-leds.js:269-276 | a grid is written as exactly 5 bytes |
| LedMatrix.DecodeMatrix | microbit-web-bluetooth-leds.js:238-243 | at least 5 bytes decode to a 5×5 grid |
| LedMatrix.RowByteBits | microbit-web-bluetooth-leds.js:273-275 | bit c of a row's byte is set iff checkbox column 5-c is checked; bits 5 to 7 are clear, so every byte is below 32 |
| LedMatrix.PartialRowByteComplete | microbit-web-bluetooth-leds.js:272-275 | after all five columns the inner loop has built the row's byte |
| LedMatrix.RowByteExamples | microbit-web-bluetooth-leds.js:273-275 | only column 5 checked gives 1, only column 1 checked gives 16 |
| LedMatrix.RowRoundTrip | microbit-web-bluetooth-leds.js:238-242 | a row survives encoding and decoding |
| LedMatrix.ByteRoundTrip | microbit-web-bluetooth-leds.js:238-242 | a byte survives decoding and encoding with bits 5 to 7 cleared |
| LedMatrix.MatrixRoundTrip | microbit-web-bluetooth-leds.js:238-242 | read(write(grid)) == grid |
| LedMatrix.PayloadRoundTrip | microbit-web-bluetooth-leds.js:271-276 | write(read(bytes)) == bytes with bits 5 to 7 of every byte cleared |
| LedMatrix.GridOf | microbit-web-bluetooth-leds.js:274 | the grid shown is the checkbox array, entry by entry |
| LedMatrix.WriteLedMatrix | microbit-web-bluetooth-leds.js:269-276 | the nested loops over a zeroed 5-byte buffer produce the encoding of the checkbox grid; at microbit-web-bluetooth-leds/microbit-web-bluetooth-leds.js lines 254-261, the standalone page builds the same 5 bytes |
| LedMatrix.WriteRow | microbit-web-bluetooth-leds.js:271-276 | one outer pass zeroes byte rowIndex, ORs the row's columns into it, and leaves the other bytes alone |
| LedMatrix.GridOfDecoded | microbit-web-bluetooth-leds.js:238-243 | checkboxes showing the rows of a payload show the grid it decodes to |
| LedMatrix.ReadLedMatrix | microbit-web-bluetooth-leds.js:238-243 | checkbox (r+1)(5-c) becomes bit c of byte r for every row the payload has; the rows after a missing byte keep their state; the read completes iff there are 5 bytes, and the checkboxes then show the decoded grid; at microbit-web-bluetooth-leds/microbit-web-bluetooth-leds.js lines 224-229, the standalone page reads the matrix the same way |
| Gatt.Complaint | microbit-web-bluetooth-magnetometer.js:186-187 | a failed check is logged as that failure, in plain text exactly when the page uses `addLog` |
| Gatt.FirstFailure | microbit-web-bluetooth-magnetometer.js:185-204 | a chain of checks passes iff every check holds; otherwise it reports a failing check all of whose predecessors hold |
| Gatt.GuardOrder | microbit-web-bluetooth-magnetometer.js:185-204 | the guard chain is the nested `if`s: device present beats connected, which beats handle stored, which beats any later check; at microbit-web-bluetooth-accelerometer.js lines 150-171, the period read and write use the same order of checks |
| Gatt.ResolveNested | microbit-web-bluetooth-magnetometer.js:294-358 | a nested chain stores a handle iff its lookup succeeded and every earlier step was complete (found, and notifying when asked); it registers a listener iff the step also started notifications; it stops at the first incomplete step and logs exactly one error |
| Gatt.NestedHalts | microbit-web-bluetooth-magnetometer.js:294-358 | a nested chain has stopped iff some step so far was incomplete, and then it has logged exactly one error |
| Gatt.LookupCalls | microbit-web-bluetooth-accelerometer.js:226-242 | the lookup calls of the first n steps are n `getCharacteristic` calls, one per step, in step order |
| Gatt.LookupPhase | microbit-web-bluetooth-accelerometer.js:224-248 | the independent lookups started from the service handler never stop and register no listener; they call `getCharacteristic` once per step in order, log the rejected ones in order, and store exactly the handles that were found |
| Gatt.NotifyPhase | microbit-web-bluetooth-accelerometer.js:227-236 | the `startNotifications` calls that follow the lookups leave the handles alone; they are one per found step that asks for it, in step order; their rejections are logged in that order; a listener is added exactly for the steps whose notifications started |
| Gatt.ErrorCount | microbit-web-bluetooth-accelerometer.js:234-248 | the lookup rejections and the notification rejections together number the incomplete steps |
| Gatt.NestedFootprint | microbit-web-bluetooth-magnetometer.js:296-358 | a nested chain stores only handles whose lookup succeeded, and a listener is only on a stored handle |
| Gatt.ResolveIndependent | microbit-web-bluetooth-accelerometer.js:226-248 | with independent lookups a handle is stored iff its own lookup succeeded, even when its notifications fail; a listener is registered iff notifications started; nothing stops; every `getCharacteristic` is called, in step order, before any `startNotifications`, which follow in step order; the log holds the lookup rejections and then the notification rejections, one error per incomplete step |
| Gatt.IndependentCounts | microbit-web-bluetooth-leds/microbit-web-bluetooth-leds.js:161-183 | independent lookups never stop, and every incomplete step logs exactly one error |
| Gatt.ResolveFootprint | microbit-web-bluetooth-magnetometer.js:300-305 | only characteristics whose lookup succeeded are stored, and a listener is only ever on a stored handle |
| Gatt.NestedCallOrder | microbit-web-bluetooth-magnetometer.js:294-358 | a nested chain only calls `getCharacteristic` and `startNotifications`; each `startNotifications` comes right after the lookup of the same characteristic, so its handle is already stored; everything logged is an error |
| Gatt.Session.constructor | microbit-web-bluetooth-magnetometer.js:9 | a fresh page has no device, no handles and an empty log |
| Gatt.Session.Guard | microbit-web-bluetooth-magnetometer.js:185-204 | the operation passes iff no check fails; on failure exactly the first failure is logged; nothing else changes |
| Gatt.Session.Send | microbit-web-bluetooth-magnetometer.js:223-229 | `writeValue` is called with the payload; OK is logged when it resolves, the error when it rejects |
| Gatt.Session.Fetch | microbit-web-bluetooth-magnetometer.js:192-199 | `readValue` is called; the error is logged when it rejects |
| Gatt.Session.Note | microbit-web-bluetooth-magnetometer.js:194 | logging a line appends exactly that entry and changes nothing else |
| Gatt.Session.Open | microbit-web-bluetooth-magnetometer.js:272-288 | the `navigator.bluetooth` check, the chooser and the GATT connection run in order; each failure is logged once and ends the attempt; a chosen device is kept even when its connection fails |
| Gatt.Session.Request | microbit-web-bluetooth-magnetometer.js:289-293 | a rejected `getPrimaryService` is logged once and ends the chain |
| Gatt.Session.Connect | microbit-web-bluetooth-magnetometer.js:271-364 | each early failure leaves the handles and listeners unchanged and logs one error; once the service is found, the handles, listeners, calls and log are those of the resolution fold; at microbit-web-bluetooth-leds.js lines 141-198, the LED page connects the same way with its three lookups |
| Gatt.Session.ResolveCharacteristics | microbit-web-bluetooth-magnetometer.js:296-358 | the lookup loop, followed for independent lookups by the notification loop, leaves exactly the state the resolution fold describes; at microbit-web-bluetooth-accelerometer.js lines 224-248, the independent lookups run this way |
| Gatt.Session.Lookup | microbit-web-bluetooth-magnetometer.js:298-310 | one lookup changes the handles, listeners, calls and log as one step of the fold does; in a nested chain it starts the step's notifications at once and stops the chain at an incomplete step |
| Gatt.Session.Notify | microbit-web-bluetooth-magnetometer.js:300-305 | `startNotifications` on a found handle whose step asks for it changes the listeners, calls and log as one notification step of the fold does, and leaves the device and link alone; at microbit-web-bluetooth-accelerometer.js lines 229-236, the accelerometer data notifications start the same way |
| Gatt.Session.DisconnectConfirmed | microbit-web-bluetooth-magnetometer.js:371-385 | with no device, or a device not connected, only the error is logged; otherwise `gatt.disconnect()` is called, and OK is logged iff the device then reports itself disconnected; at microbit-web-bluetooth-leds.js lines 205-219, the LED page disconnects the same way |
| Gatt.Session.DisconnectAnnounced | microbit-web-bluetooth-accelerometer.js:260-271 | with no device, or a device not connected, only the plain notice is logged; otherwise "Disconnecting..." is logged and the device is disconnected; at microbit-web-bluetooth-leds/microbit-web-bluetooth-leds.js lines 195-206, the standalone LED page disconnects the same way; at microbit-web-bluetooth-scan/microbit-web-bluetooth-scan.js lines 236-245, the scan page disconnects the same way |
| Gatt.Session.LinkLost | microbit-web-bluetooth-magnetometer.js:285 | a dropped link clears `connected` and keeps the device and the stored handles |
| Operations.Attempt | microbit-web-bluetooth-magnetometer.js:185-204 | no transport call is made iff a check failed |
| Operations.WriteReport | microbit-web-bluetooth-magnetometer.js:213-234 | a write logs its failed check, or OK exactly when `writeValue` resolved |
| Operations.ReadReports | microbit-web-bluetooth-magnetometer.js:192-199 | a read logs one or two entries; OK is logged iff the checks pass, the read resolves, and the payload has 2 bytes or OK precedes the decode; two entries (OK, then the RangeError) appear iff OK precedes the decode of a short payload |
| Operations.ReadUint16 | microbit-web-bluetooth-magnetometer.js:183-205 | a value is shown iff the checks pass, the read resolves and the payload has 2 bytes, and the value's layout is the payload's first two bytes; the calls and log are those of `Attempt` and `ReadReports`; the connection state is unchanged; at microbit-web-bluetooth-accelerometer.js lines 150-171, the accelerometer period is read the same way; at microbit-web-bluetooth-leds.js lines 330-352, the scrolling delay is read the same way, but decoded before OK is logged; at microbit-web-bluetooth-leds/microbit-web-bluetooth-leds.js lines 314-335, the standalone page reads the delay with OK logged first |
| Operations.WriteUint16 | microbit-web-bluetooth-magnetometer.js:211-235 | the period's 2-byte layout is sent iff the checks pass, and the log gets the failed check or the write's outcome; at microbit-web-bluetooth-accelerometer.js lines 177-200, the accelerometer period is written the same way; at microbit-web-bluetooth-leds.js lines 358-382, the scrolling delay is written the same way; at microbit-web-bluetooth-leds/microbit-web-bluetooth-leds.js lines 341-364, the standalone page writes the delay the same way |
| Operations.WriteUint8 | microbit-web-bluetooth-magnetometer.js:241-265 | the 1-byte calibration buffer is sent iff the checks pass |
| Operations.ReadLedMatrix | microbit-web-bluetooth-leds.js:227-254 | when the checks pass and the read resolves, the rows the payload holds are shown, then OK is logged (or the RangeError below 5 bytes); otherwise the checkboxes are untouched; at microbit-web-bluetooth-leds/microbit-web-bluetooth-leds.js lines 214-240, the standalone page reads the matrix the same way |
| Operations.WriteLedMatrix | microbit-web-bluetooth-leds.js:260-289 | the 5-byte encoding of the checkboxes is sent iff the checks pass; at microbit-web-bluetooth-leds/microbit-web-bluetooth-leds.js lines 246-274, the standalone page writes the matrix the same way |
| Operations.WriteLedText | microbit-web-bluetooth-leds.js:296-322 | the device, connection and handle checks come first, then the TextEncoder check, whose failure is always an error; the text is sent only when all pass; at microbit-web-bluetooth-leds/microbit-web-bluetooth-leds.js lines 281-306, on the standalone page the first three checks are plain notices and the TextEncoder check is still an error |
| Magnetometer.ChainStopsAtFirstFailure | microbit-web-bluetooth-magnetometer.js:294-358 | the data handle is stored whenever its lookup succeeds; the period only once data notifications started; the bearing only once the period was found; the calibration only once bearing notifications started; at most one error is logged |
| Magnetometer.ReadPeriod | microbit-web-bluetooth-magnetometer.js:183-205 | a failed check is logged in red and nothing is called; otherwise `readValue` is called and a rejection is logged as an error; a value is shown iff the payload has two bytes, being their little-endian reading; OK is logged first, so a short payload logs OK and then the RangeError |
| Magnetometer.WritePeriod | microbit-web-bluetooth-magnetometer.js:211-235 | a failed check is logged in red and nothing is sent; otherwise the period's 2 little-endian bytes are written, and OK or the rejection is logged |
| Magnetometer.WriteCalibration | microbit-web-bluetooth-magnetometer.js:241-265 | a failed check is logged in red and nothing is sent; otherwise the 1-byte request is written, and OK or the rejection is logged |
| Magnetometer.Connect | microbit-web-bluetooth-magnetometer.js:271-364 | without `navigator.bluetooth` only that error is logged and nothing is called; an unchosen device, a failed GATT connection and a rejected `getPrimaryService` each log only their own error, with the calls made so far and the handles and listeners unchanged; once the service is found, the handles, listeners, calls and log are those of the nested chain of four lookups |
| Leds.NestedLookups | microbit-web-bluetooth-leds.js:164-192 | the text handle is stored only once the matrix one is, the delay only once the text one is; no listener is registered; at most one error is logged |
| Leds.ReadMatrix | microbit-web-bluetooth-leds.js:227-254 | a failed check is logged in red, and a rejected read as an error; in both cases the checkboxes are untouched; otherwise each row the payload holds is shown, later rows keep their state, and OK is logged, or the RangeError below 5 bytes; a full payload shows exactly the grid it decodes to |
| Leds.WriteMatrix | microbit-web-bluetooth-leds.js:260-289 | a failed check is logged in red and nothing is sent; otherwise the five row bytes of the checkboxes are written, and OK or the rejection is logged |
| Leds.WriteText | microbit-web-bluetooth-leds.js:296-322 | a failed check is logged in red; then a missing TextEncoder is logged in red; the encoded text is written only when both pass, and OK or the rejection is logged |
| Leds.ReadDelay | microbit-web-bluetooth-leds.js:330-352 | a failed check is logged in red; otherwise `readValue` is called and a rejection is logged as an error; a value is shown iff the payload has two bytes; the value is decoded before OK is logged, so a short payload logs only the RangeError |
| Leds.WriteDelay | microbit-web-bluetooth-leds.js:358-382 | a failed check is logged in red and nothing is sent; otherwise the delay's 2 little-endian bytes are written, and OK or the rejection is logged |
| Leds.Connect | microbit-web-bluetooth-leds.js:141-198 | without `navigator.bluetooth` only that error is logged and nothing is called; an unchosen device, a failed GATT connection and a rejected `getPrimaryService` each log only their own error, with the calls made so far and the handles and listeners unchanged; once the service is found, the state is that of the nested chain matrix, text, delay |
| LedsStandalone.IndependentLookups | microbit-web-bluetooth-leds/microbit-web-bluetooth-leds.js:161-183 | each of the three handles is stored iff its own lookup succeeded; the three lookups are called in order (matrix, text, delay); the log holds one error per failed lookup, in that order |
| LedsStandalone.ReadMatrix | microbit-web-bluetooth-leds/microbit-web-bluetooth-leds.js:214-240 | a failed check is a plain notice, and a rejected read is an error; in both cases the checkboxes are untouched; otherwise each row the payload holds is shown, later rows keep their state, and the success line is logged, or the RangeError below 5 bytes |
| LedsStandalone.WriteMatrix | microbit-web-bluetooth-leds/microbit-web-bluetooth-leds.js:246-274 | a failed check is a plain notice and nothing is sent; otherwise the five row bytes are written, and the success line or the rejection is logged |
| LedsStandalone.WriteText | microbit-web-bluetooth-leds/microbit-web-bluetooth-leds.js:281-306 | a failed check is a plain notice, but a missing TextEncoder is an error; the encoded text is written only when both pass |
| LedsStandalone.ReadDelay | microbit-web-bluetooth-leds/microbit-web-bluetooth-leds.js:314-335 | a failed check is a plain notice; otherwise `readValue` is called and a rejection is logged as an error; a value is shown iff the payload has two bytes; the success line comes before the decode, so a short payload logs it and then the RangeError |
| LedsStandalone.WriteDelay | microbit-web-bluetooth-leds/microbit-web-bluetooth-leds.js:341-364 | a failed check is a plain notice and nothing is sent; otherwise the delay's 2 little-endian bytes are written |
| LedsStandalone.Connect | microbit-web-bluetooth-leds/microbit-web-bluetooth-leds.js:141-188 | `requestDevice` is called without a `navigator.bluetooth` check, so an unchosen device logs only its rejection; a failed GATT connection and a rejected `getPrimaryService` each log only their own error, with the calls made so far and the handles and listeners unchanged; once the service is found, the state is that of the three independent lookups |
| Accelerometer.PeriodIndependentOfData | microbit-web-bluetooth-accelerometer.js:226-248 | the period handle is stored iff its lookup succeeded, whatever happened to the data lookup or its notifications; the data handle is stored iff found; the data listener is registered iff notifications started; both lookups are called before the data notifications start; the log holds the data lookup's rejection, then the period lookup's, then the notifications' |
| Accelerometer.ReadPeriod | microbit-web-bluetooth-accelerometer.js:150-171 | a failed check is a plain notice and nothing is called; otherwise `readValue` is called and a rejection is logged as an error; a value is shown iff the payload has two bytes; the success line comes before the decode, so a short payload logs it and then the RangeError |
| Accelerometer.WritePeriod | microbit-web-bluetooth-accelerometer.js:177-200 | a failed check is a plain notice and nothing is sent; otherwise the period's 2 little-endian bytes are written, and the success line or the rejection is logged |
| Accelerometer.Connect | microbit-web-bluetooth-accelerometer.js:206-253 | `requestDevice` is called without a `navigator.bluetooth` check, so an unchosen device logs only its rejection; a failed GATT connection and a rejected `getPrimaryService` each log only their own error, with the calls made so far and the handles and listeners unchanged; once the service is found, both lookups are issued and then the data notifications start, as the independent resolution describes |
| Scan.Supported | microbit-web-bluetooth-scan/microbit-web-bluetooth-scan.js:130-138 | the supported names are at most as many as the properties |
| Scan.GetSupportedProperties | microbit-web-bluetooth-scan/microbit-web-bluetooth-scan.js:130-138 | the push loop gives "[" + the names of the `true` properties, upper-cased and joined by ", " + "]" |
| Scan.SupportedConcat | microbit-web-bluetooth-scan/microbit-web-bluetooth-scan.js:132-136 | the filter keeps iteration order |
| Scan.SupportedMembers | microbit-web-bluetooth-scan/microbit-web-bluetooth-scan.js:133-135 | a name is listed iff some property whose value is `true` upper-cases to it |
| Scan.NoneSupported | microbit-web-bluetooth-scan/microbit-web-bluetooth-scan.js:137 | with no property set to `true` the result is "[]" |
| Scan.UpperNames | microbit-web-bluetooth-scan/microbit-web-bluetooth-scan.js:134 | "read" and "notify" upper-case to "READ" and "NOTIFY" |
| Scan.OnePropertyExample | microbit-web-bluetooth-scan/microbit-web-bluetooth-scan.js:130-138 | read=true, write=false gives "[READ]" |
| Scan.TwoPropertiesExample | microbit-web-bluetooth-scan/microbit-web-bluetooth-scan.js:130-138 | read and notify give "[READ, NOTIFY]" |
| Scan.Decrement | microbit-web-bluetooth-scan/microbit-web-bluetooth-scan.js:177-178 | `Infinity--` stays `Infinity`; a finite counter goes down by one |
| Scan.Name | microbit-web-bluetooth-scan/microbit-web-bluetooth-scan.js:157 | a row shows a name iff its UUID is listed; otherwise a service row shows the unknown-service answer and a characteristic row (line 169) the unknown-characteristic one |
| Scan.PropertiesShown | microbit-web-bluetooth-scan/microbit-web-bluetooth-scan.js:169 | a characteristic row's properties column is bracketed |
| Scan.CharacteristicRows | microbit-web-bluetooth-scan/microbit-web-bluetooth-scan.js:212-213 | one row per characteristic, in order |
| Scan.Fetched | microbit-web-bluetooth-scan/microbit-web-bluetooth-scan.js:207 | at most n of the first n services have a fetched list |
| Scan.CharacteristicsTable | microbit-web-bluetooth-scan/microbit-web-bluetooth-scan.js:209-218 | within one service in table mode, `nChar` counts down from that service's count and `nSer` is untouched; rows pile up in `stringTable` until the last characteristic with `nSer` at 0, which emits the table with everything gathered and empties `stringTable` |
| Scan.ServiceTable | microbit-web-bluetooth-scan/microbit-web-bluetooth-scan.js:207-223 | while `nSer` is at least 1, a rejected fetch only logs its error; a fetched list decrements `nSer` once and adds the service row then its characteristic rows, emitting the table when `nSer` reaches 0 and the list is not empty |
| Scan.ServicesTable | microbit-web-bluetooth-scan/microbit-web-bluetooth-scan.js:205-218 | over the services in order, `nSer` is the count of lists not yet arrived; until the table is due, every row piles up and only rejected fetches are shown; once due, the table is emitted once with all rows in order and `stringTable` is empty |
| Scan.ServicesStep | microbit-web-bluetooth-scan/microbit-web-bluetooth-scan.js:207-223 | the step from n-1 to n services keeps the invariant of `ServicesTable` |
| Scan.EmittingStep | microbit-web-bluetooth-scan/microbit-web-bluetooth-scan.js:215 | the counters reach 0 together only at the last service, with every fetch successful and nothing failed before |
| Scan.AllFetchedNoFailures | microbit-web-bluetooth-scan/microbit-web-bluetooth-scan.js:221-223 | when every list arrived, no fetch error was logged |
| Scan.FailureBlocksTable | microbit-web-bluetooth-scan/microbit-web-bluetooth-scan.js:211 | a rejected fetch leaves fewer lists than services, so `nSer` never reaches 0 |
| Scan.TableEmittedOnce | microbit-web-bluetooth-scan/microbit-web-bluetooth-scan.js:215-218 | in table mode the table is emitted exactly when there are services, every fetch succeeded and the last service has a characteristic; it holds the pending rows then all rows in order and leaves `stringTable` empty; otherwise only fetch errors are shown; `nSer` reaches 0 iff every fetch succeeded; any rejected fetch means no table |
| Scan.LinesOnly | microbit-web-bluetooth-scan/microbit-web-bluetooth-scan.js:155-173 | without table mode nothing goes to `stringTable` and no table is ever emitted; output is only appended |
| Scan.LinesOnlyCharacteristics | microbit-web-bluetooth-scan/microbit-web-bluetooth-scan.js:167-173 | without table mode each characteristic is logged as one line, in order |
| Scan.Scanner.constructor | microbit-web-bluetooth-scan/microbit-web-bluetooth-scan.js:177-179 | a fresh page is in table mode with both counters `Infinity` and an empty table |
| Scan.Scanner.PrintService | microbit-web-bluetooth-scan/microbit-web-bluetooth-scan.js:155-161 | the service row goes to `stringTable` in table mode and to the log otherwise |
| Scan.Scanner.PrintCharacteristic | microbit-web-bluetooth-scan/microbit-web-bluetooth-scan.js:167-173 | the characteristic row goes to `stringTable` in table mode and to the log otherwise |
| Scan.Scanner.ListServices | microbit-web-bluetooth-scan/microbit-web-bluetooth-scan.js:205-224 | the nested `forEach` loops leave exactly the state the survey fold describes |
| Scan.Connect | microbit-web-bluetooth-scan/microbit-web-bluetooth-scan.js:185-229 | the chooser, the connection and `getPrimaryServices` come first, without a `navigator.bluetooth` check; the survey runs only when all three succeeded, and otherwise the scanner is unchanged; no handle or listener is touched; an unchosen device logs only the chooser's rejection and a failed connection only its own, and each ends the attempt |

## Left out

- Web Bluetooth (`requestDevice`, `gatt.connect`, `getPrimaryService(s)`, `getCharacteristic(s)`, `readValue`, `writeValue`, `startNotifications`, event listeners) is not modelled: each call's outcome, or the value it delivers, is an input. The calls are recorded in order, except the scan page's per-service fetches (next line).
- The scan page's per-service `service.getCharacteristics()` calls are not entries of `Session.calls`. Each one appears only through its outcome: the `ServiceInfo` of that service and what `Scanner.out` records for it.
- Promise interleaving is not modelled. The independent lookups, and the scan page's per-service `getCharacteristics` promises, are taken to complete one after another in the order issued. Nothing is claimed about other completion orders.
- The DOM is not modelled: element lookups, background colours, form inputs and the HTML of the log and table. The checkbox grid is a 5×5 array, and form values are integers already in range.
- The progress lines of the log ("Requesting…", "Connecting…", "Reading…") are not kept. Neither are the OK lines `connect` logs after each step that resolves: the model's log holds the failures of `connect`, and the outcome of each read, write and disconnect.
- The exact wording of each per-characteristic error is not modelled, including the "Magnetometer Period" text in the calibration guard and the typo in the delay guard. A missing handle is `NoHandle(c)`. The standalone LED page's own success texts ("LED text sent...", "Scrolling delay read...") and the accelerometer page's ("Accelerometer period read...", "Accelerometer period updated...") are `Success`.
- `TextEncoder` is a foreign library, so only its availability check is modelled; the encoded bytes are an input.
- `ToUint16`/`ToUint8` coercion of the form strings is not modelled; the codecs take integers in range.
- Text.ToUpper: only ASCII letters are upper-cased. JavaScript's `toUpperCase` also maps other letters, which property names do not contain.
- Scan.Supported: a property counts when its value is `true`. Values of other types, which `=== true` also rejects, are not modelled.
- `for (const key in microbitUuid)` also visits the `searchUuid` method. Its `[0]` is undefined and never equals a UUID string, so the table search leaves it out.
- Sensors.DecodeAxes: when a short payload makes a later `getInt16` throw, the page has already shown the earlier axes. The model returns the RangeError alone.
- Gatt.Session.Open: a second `connect` that picks a device replaces the previous one. The model keeps a single device flag, and its `connected` becomes that connection's outcome.
- The accelerometer, standalone LED and scan pages do not check `navigator.bluetooth`. Without it, the synchronous throw from `navigator.bluetooth.requestDevice` is not modelled.
- Scan.Connect: the scan page writes to one log. In the model the connection errors go to `Session.log`, and the rows, tables and fetch errors go to `Scanner.out`.
- Scan.Scanner.PrintCharacteristic: the row records the characteristic's UUID and properties. The name and properties text it shows are `Name` and `PropertiesShown` of the row, which `SearchUuid` and `GetSupportedProperties` compute, so the method does not repeat those calls.
