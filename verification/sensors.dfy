/**
 * Payloads the sensor characteristics notify: three-axis readings (accelerometer
 * and magnetometer data), the magnetometer bearing and its calibration state.
 */
module Sensors {
  import opened DataView

  /** One three-axis reading, each component a signed 16-bit value. */
  datatype Axes = Axes(x: int, y: int, z: int)

  predicate InInt16Range(a: Axes)
  {
    -32768 <= a.x <= 32767 && -32768 <= a.y <= 32767 && -32768 <= a.z <= 32767
  }

  /**
   * `getInt16(0, true)`, `getInt16(2, true)` and `getInt16(4, true)` of a data
   * notification. A payload shorter than 6 bytes makes one of them throw.
   */
  function DecodeAxes(value: seq<Byte>): (r: Result<Axes>)
    ensures r.Ok? <==> |value| >= 6
    ensures r.Ok? ==> InInt16Range(r.value)
    ensures r.Ok? ==>
      r.value.x % 0x1_0000 == GetUint16(value, 0).value as int &&
      r.value.y % 0x1_0000 == GetUint16(value, 2).value as int &&
      r.value.z % 0x1_0000 == GetUint16(value, 4).value as int
  {
    match (GetInt16(value, 0), GetInt16(value, 2), GetInt16(value, 4))
    case (Ok(x), Ok(y), Ok(z)) => Ok(Axes(x, y, z))
    case _ => RangeError
  }

  /** The 6-byte layout of a reading whose raw 16-bit components are `u`, `v`, `w`. */
  function AxesPayload(u: Uint16, v: Uint16, w: Uint16): (p: seq<Byte>)
    ensures |p| == 6
  {
    LittleEndian16(u) + LittleEndian16(v) + LittleEndian16(w)
  }

  /** Decoding the layout of three raw components gives their two's-complement readings. */
  lemma AxesRoundTrip(u: Uint16, v: Uint16, w: Uint16)
    ensures DecodeAxes(AxesPayload(u, v, w)) == Ok(Axes(ToInt16(u), ToInt16(v), ToInt16(w)))
  {
    var p := AxesPayload(u, v, w);
    var a, b, c := LittleEndian16(u), LittleEndian16(v), LittleEndian16(w);
    assert p[0] == a[0] && p[1] == a[1] && p[2] == b[0] && p[3] == b[1] && p[4] == c[0] && p[5] == c[1];
    Uint16At(p, 0, u);
    Uint16At(p, 2, v);
    Uint16At(p, 4, w);
  }

  /** Every 6-byte payload is such a layout, so decoding it loses nothing. */
  lemma AxesPayloadComplete(value: seq<Byte>)
    requires |value| == 6
    ensures value == AxesPayload(GetUint16(value, 0).value, GetUint16(value, 2).value, GetUint16(value, 4).value)
  {
    assert value == value[0..2] + value[2..4] + value[4..6];
  }

  /** `magnetometerBearingChanged`: `getUint16(0, true)`, a compass bearing in 0..65535. */
  function DecodeBearing(value: seq<Byte>): (r: Result<int>)
    ensures r.Ok? <==> |value| >= 2
    ensures r.Ok? ==> 0 <= r.value <= 65535 && LittleEndian16(r.value as Uint16) == value[..2]
  {
    match GetUint16(value, 0)
    case Ok(u) => Ok(u as int)
    case RangeError => RangeError
  }

  /** The states the calibration characteristic reports. */
  datatype Calibration =
    | StateUnknown
    | CalibrationRequested
    | CompletedOk
    | CompletedWithError
    | Unrecognized(code: Byte)

  /** The `switch` of `magnetometerCalibrationChanged`: codes 0 to 3, and a default for the rest. */
  function CalibrationOf(code: Byte): Calibration
  {
    if code == 0 then StateUnknown
    else if code == 1 then CalibrationRequested
    else if code == 2 then CompletedOk
    else if code == 3 then CompletedWithError
    else Unrecognized(code)
  }

  /** The code a state is sent as: the inverse of `CalibrationOf`. */
  function CalibrationCode(c: Calibration): Byte
  {
    match c
    case StateUnknown => 0
    case CalibrationRequested => 1
    case CompletedOk => 2
    case CompletedWithError => 3
    case Unrecognized(code) => code
  }

  /** A state `CalibrationOf` can produce: `Unrecognized` only ever carries a code above 3. */
  predicate WellFormed(c: Calibration)
  {
    c.Unrecognized? ==> c.code > 3
  }

  /** Codes 0 to 3 are the four named states; every other code is unrecognized, never an error. */
  lemma CalibrationCases(code: Byte)
    ensures WellFormed(CalibrationOf(code))
    ensures CalibrationOf(code).Unrecognized? <==> code > 3
    ensures CalibrationCode(CalibrationOf(code)) == code
  {
  }

  /** Every well-formed state is decoded from its own code, so the four named states are distinct. */
  lemma CalibrationRoundTrip(c: Calibration)
    requires WellFormed(c)
    ensures CalibrationOf(CalibrationCode(c)) == c
  {
  }

  /** The text the page shows for each state. */
  function CalibrationText(c: Calibration): string
  {
    match c
    case StateUnknown => "State unknown"
    case CalibrationRequested => "Calibration requested"
    case CompletedOk => "Calibration completed OK"
    case CompletedWithError => "Calibration completed with error"
    case Unrecognized(_) => "???: the received number is not 0, 1, 2 nor 3."
  }

  /** A calibration notification: the first byte through the switch; an empty payload throws. */
  function DecodeCalibration(value: seq<Byte>): (r: Result<Calibration>)
    ensures r.Ok? <==> |value| >= 1
    ensures r.Ok? ==> WellFormed(r.value) && CalibrationCode(r.value) == value[0]
  {
    match GetUint8(value, 0)
    case Ok(code) => CalibrationCases(code); Ok(CalibrationOf(code))
    case RangeError => RangeError
  }

  /** Equal texts come from two unrecognized codes or from the same named state. */
  lemma CalibrationTextsDistinct(c: Calibration, d: Calibration)
    requires CalibrationText(c) == CalibrationText(d)
    ensures c.Unrecognized? == d.Unrecognized?
    ensures !c.Unrecognized? ==> c == d
  {
  }
}
