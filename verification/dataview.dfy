/**
 * The slice of ECMAScript's DataView (ECMA-262, section 25.3, DataView Objects)
 * the scripts use: unsigned 8-bit access, and 16-bit access in little-endian
 * order (every 16-bit call passes `littleEndian = true`). A getter whose field
 * would run past the end of the view throws a RangeError, which is a result here.
 */
module DataView {

  type Byte = bv8

  type Uint16 = bv16

  datatype Result<T> = Ok(value: T) | RangeError

  /** The two bytes of `v`, low byte first: `[v mod 256, v div 256]`. */
  function LittleEndian16(v: Uint16): (b: seq<Byte>)
    ensures |b| == 2 && b[0] as Uint16 == v % 256 && b[1] as Uint16 == v / 256
  {
    [(v & 0xFF) as Byte, (v >> 8) as Byte]
  }

  /** `view.getUint8(offset)`. */
  function GetUint8(view: seq<Byte>, offset: nat): (r: Result<Byte>)
    ensures r.Ok? <==> offset < |view|
    ensures r.Ok? ==> r.value == view[offset]
  {
    if offset < |view| then Ok(view[offset]) else RangeError
  }

  /** `view.getUint16(offset, true)`: the value whose little-endian bytes sit at `offset`. */
  function GetUint16(view: seq<Byte>, offset: nat): (r: Result<Uint16>)
    ensures r.Ok? <==> offset + 2 <= |view|
    ensures r.Ok? ==> LittleEndian16(r.value) == view[offset..offset + 2]
    ensures r.Ok? ==> 0 <= r.value as int <= 65535
  {
    if offset + 2 <= |view| then Ok(((view[offset + 1] as Uint16) << 8) | (view[offset] as Uint16))
    else RangeError
  }

  /** The two's-complement reading of a 16-bit pattern whose unsigned value is `n`. */
  function SignedFromUnsigned16(n: int): (x: int)
    requires 0 <= n < 0x1_0000
    ensures -32768 <= x <= 32767
    ensures x % 0x1_0000 == n
    ensures x < 0 <==> n >= 0x8000
  {
    if n < 0x8000 then n else n - 0x1_0000
  }

  /** The two's-complement reading of a 16-bit pattern. */
  function ToInt16(u: Uint16): int
  {
    SignedFromUnsigned16(u as int)
  }

  /** `view.getInt16(offset, true)`. */
  function GetInt16(view: seq<Byte>, offset: nat): (r: Result<int>)
    ensures r.Ok? <==> offset + 2 <= |view|
    ensures r.Ok? ==> -32768 <= r.value <= 32767
    ensures r.Ok? ==> r.value == ToInt16(GetUint16(view, offset).value)
  {
    match GetUint16(view, offset)
    case Ok(u) => Ok(ToInt16(u))
    case RangeError => RangeError
  }

  /** `view.setUint8(offset, value)` on a buffer the source always allocates large enough. */
  method SetUint8(view: array<Byte>, offset: nat, value: Byte)
    requires offset < view.Length
    modifies view
    ensures view[..] == old(view[..])[offset := value]
  {
    view[offset] := value;
  }

  /** `view.setUint16(offset, value, true)`. */
  method SetUint16(view: array<Byte>, offset: nat, value: Uint16)
    requires offset + 2 <= view.Length
    modifies view
    ensures view[..] == old(view[..])[..offset] + LittleEndian16(value) + old(view[..])[offset + 2..]
  {
    view[offset] := (value & 0xFF) as Byte;
    view[offset + 1] := (value >> 8) as Byte;
  }

  /** `new ArrayBuffer(n)` seen through a DataView: `n` zero bytes. */
  method NewBuffer(n: nat) returns (view: array<Byte>)
    ensures fresh(view) && view.Length == n
    ensures forall k :: 0 <= k < n ==> view[k] == 0
  {
    view := new Byte[n](_ => 0);
  }

  /**
   * The period and delay writers: a fresh 2-byte buffer filled by `setUint16(0, v, true)`.
   * The payload is exactly the two little-endian bytes of `v`.
   */
  method EncodeUint16(v: Uint16) returns (payload: seq<Byte>)
    ensures payload == LittleEndian16(v)
  {
    var view := NewBuffer(2);
    SetUint16(view, 0, v);
    payload := view[..];
  }

  /** The calibration writer: a fresh 1-byte buffer filled by `setUint8(0, v)`. */
  method EncodeUint8(v: Byte) returns (payload: seq<Byte>)
    ensures payload == [v]
  {
    var view := NewBuffer(1);
    SetUint8(view, 0, v);
    payload := view[..];
  }

  /** Reading back what a 16-bit write produced gives the value written. */
  lemma Uint16RoundTrip(v: Uint16)
    ensures GetUint16(LittleEndian16(v), 0) == Ok(v)
  {
  }

  /** A 16-bit read anywhere in a buffer returns `v` when the two bytes there are `v`'s encoding. */
  lemma Uint16At(view: seq<Byte>, offset: nat, v: Uint16)
    requires offset + 2 <= |view|
    requires view[offset] == LittleEndian16(v)[0] && view[offset + 1] == LittleEndian16(v)[1]
    ensures GetUint16(view, offset) == Ok(v)
  {
    Uint16RoundTrip(v);
  }

  /** Every 2-byte payload is the encoding of the value read from it. */
  lemma Uint16Inverse(payload: seq<Byte>)
    requires |payload| == 2
    ensures GetUint16(payload, 0).Ok? && LittleEndian16(GetUint16(payload, 0).value) == payload
  {
  }

  /** Reading a 16-bit field from a payload shorter than two bytes fails instead of reading past it. */
  lemma ShortPayloadRangeError(payload: seq<Byte>)
    requires |payload| < 2
    ensures GetUint16(payload, 0) == RangeError && GetInt16(payload, 0) == RangeError
  {
  }
}
