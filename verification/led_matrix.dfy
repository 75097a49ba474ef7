/**
 * The LED matrix state characteristic: 5 bytes, one per row, where bit `c` of
 * byte `r` (c = 0..4) is the checkbox with id `(r+1)(5-c)`. Checkbox ids are
 * 1-based "row, column" pairs, so column 5 is bit 0 and column 1 is bit 4.
 */
module LedMatrix {
  import opened DataView

  /** `(b >>> c) % 2 === 1`. */
  function Bit(b: Byte, c: nat): bool
    requires c < 8
  {
    (b >> c) % 2 == 1
  }

  /** A boolean shifted into a byte, as in `checked << columnIndex`. */
  function Flag(checked: bool): Byte
  {
    if checked then 1 else 0
  }

  /** The checkbox id the loops address at row index `r` and column index `c`. */
  function CheckboxId(r: nat, c: nat): (id: (int, int))
    requires r < 5 && c < 5
    ensures 1 <= id.0 <= 5 && 1 <= id.1 <= 5
  {
    (r + 1, 5 - c)
  }

  /**
   * The checkbox grid as a value: `g[R-1][C-1]` is checkbox id `RC`.
   */
  predicate IsGrid(g: seq<seq<bool>>)
  {
    |g| == 5 && forall r :: 0 <= r < 5 ==> |g[r]| == 5
  }

  function Checked(g: seq<seq<bool>>, id: (int, int)): bool
    requires IsGrid(g) && 1 <= id.0 <= 5 && 1 <= id.1 <= 5
  {
    g[id.0 - 1][id.1 - 1]
  }

  /** The byte of one row: checkbox column `5-c` contributes bit `c`. */
  function RowByte(row: seq<bool>): Byte
    requires |row| == 5
  {
    Flag(row[4]) | (Flag(row[3]) << 1) | (Flag(row[2]) << 2) | (Flag(row[1]) << 3) | (Flag(row[0]) << 4)
  }

  /** The row of checkboxes a byte shows: column `j+1` is bit `4-j`, bits 5 to 7 are ignored. */
  function RowOf(b: Byte): (row: seq<bool>)
    ensures |row| == 5
  {
    [Bit(b, 4), Bit(b, 3), Bit(b, 2), Bit(b, 1), Bit(b, 0)]
  }

  /** The 5-byte payload for a grid. */
  function EncodeMatrix(g: seq<seq<bool>>): (payload: seq<Byte>)
    requires IsGrid(g)
    ensures |payload| == 5
  {
    [RowByte(g[0]), RowByte(g[1]), RowByte(g[2]), RowByte(g[3]), RowByte(g[4])]
  }

  /** The grid a payload of at least 5 bytes shows. */
  function DecodeMatrix(payload: seq<Byte>): (g: seq<seq<bool>>)
    requires |payload| >= 5
    ensures IsGrid(g)
  {
    [RowOf(payload[0]), RowOf(payload[1]), RowOf(payload[2]), RowOf(payload[3]), RowOf(payload[4])]
  }

  /** Bit `c` of a row byte is checkbox column `5-c`; bits 5 to 7 are clear, so the byte is below 32. */
  lemma RowByteBits(row: seq<bool>)
    requires |row| == 5
    ensures forall c :: 0 <= c < 8 ==> Bit(RowByte(row), c) == (c < 5 && row[4 - c])
    ensures RowByte(row) < 32
  {
  }

  /** Writing a grid sets bit `c` of byte `r` exactly when checkbox `(r+1)(5-c)` is checked. */
  lemma EncodedCheckbox(g: seq<seq<bool>>, r: nat, c: nat)
    requires IsGrid(g) && r < 5 && c < 5
    ensures Bit(EncodeMatrix(g)[r], c) <==> Checked(g, CheckboxId(r, c))
  {
    RowByteBits(g[r]);
  }

  /** Reading a payload checks checkbox `(r+1)(5-c)` exactly when bit `c` of byte `r` is set. */
  lemma DecodedCheckbox(payload: seq<Byte>, r: nat, c: nat)
    requires |payload| >= 5 && r < 5 && c < 5
    ensures Checked(DecodeMatrix(payload), CheckboxId(r, c)) <==> Bit(payload[r], c)
  {
    var row := RowOf(payload[r]);
    assert DecodeMatrix(payload)[r] == row;
    assert Checked(DecodeMatrix(payload), CheckboxId(r, c)) == row[4 - c];
    if c == 0 { assert row[4] == Bit(payload[r], 0); }
    else if c == 1 { assert row[3] == Bit(payload[r], 1); }
    else if c == 2 { assert row[2] == Bit(payload[r], 2); }
    else if c == 3 { assert row[1] == Bit(payload[r], 3); }
    else { assert row[0] == Bit(payload[r], 4); }
  }

  /** One step of `writeLedMatrix`'s inner loop: `view[r] | (checked << c)`. */
  function OrColumn(b: Byte, checked: bool, c: nat): Byte
    requires c < 8
  {
    b | (Flag(checked) << c)
  }

  /** The byte the inner loop of `writeLedMatrix` has built after its first `k` columns. */
  function PartialRowByte(row: seq<bool>, k: nat): Byte
    requires |row| == 5 && k <= 5
  {
    if k == 0 then 0 else OrColumn(PartialRowByte(row, k - 1), row[5 - k], k - 1)
  }

  /** After all five columns the inner loop has built the row byte. */
  lemma PartialRowByteComplete(row: seq<bool>)
    requires |row| == 5
    ensures PartialRowByte(row, 5) == RowByte(row)
  {
    assert PartialRowByte(row, 1) == Flag(row[4]);
    assert PartialRowByte(row, 2) == Flag(row[4]) | (Flag(row[3]) << 1);
    assert PartialRowByte(row, 3) == Flag(row[4]) | (Flag(row[3]) << 1) | (Flag(row[2]) << 2);
    assert PartialRowByte(row, 4) == Flag(row[4]) | (Flag(row[3]) << 1) | (Flag(row[2]) << 2) | (Flag(row[1]) << 3);
  }

  /** Two single-LED rows: only column 5 checked is `0b00000001`, only column 1 is `0b00010000`. */
  lemma RowByteExamples()
    ensures RowByte([false, false, false, false, true]) == 0x01
    ensures RowByte([true, false, false, false, false]) == 0x10
  {
  }

  /** A row survives encoding and decoding. */
  lemma RowRoundTrip(row: seq<bool>)
    requires |row| == 5
    ensures RowOf(RowByte(row)) == row
  {
    RowByteBits(row);
  }

  /** A byte survives decoding and encoding, except that bits 5 to 7 are cleared. */
  lemma ByteRoundTrip(b: Byte)
    ensures RowByte(RowOf(b)) == (b & 0x1F)
  {
  }

  /** read(write(grid)) == grid. */
  lemma MatrixRoundTrip(g: seq<seq<bool>>)
    requires IsGrid(g)
    ensures DecodeMatrix(EncodeMatrix(g)) == g
  {
    RowRoundTrip(g[0]);
    RowRoundTrip(g[1]);
    RowRoundTrip(g[2]);
    RowRoundTrip(g[3]);
    RowRoundTrip(g[4]);
  }

  /** write(read(payload)) == payload with bits 5 to 7 of every byte cleared. */
  lemma PayloadRoundTrip(payload: seq<Byte>)
    requires |payload| == 5
    ensures EncodeMatrix(DecodeMatrix(payload)) ==
      [(payload[0] & 0x1F), (payload[1] & 0x1F), (payload[2] & 0x1F), (payload[3] & 0x1F), (payload[4] & 0x1F)]
  {
    ByteRoundTrip(payload[0]);
    ByteRoundTrip(payload[1]);
    ByteRoundTrip(payload[2]);
    ByteRoundTrip(payload[3]);
    ByteRoundTrip(payload[4]);
  }

  /** The checkboxes of the page, `boxes[R-1, C-1]` being checkbox id `RC`. */
  predicate IsCheckboxes(boxes: array2<bool>)
  {
    boxes.Length0 == 5 && boxes.Length1 == 5
  }

  /** The grid the checkboxes currently show. */
  function GridOf(boxes: array2<bool>): (g: seq<seq<bool>>)
    requires IsCheckboxes(boxes)
    reads boxes
    ensures IsGrid(g)
    ensures forall r, j :: 0 <= r < 5 && 0 <= j < 5 ==> g[r][j] == boxes[r, j]
  {
    seq(5, r requires 0 <= r < 5 reads boxes => seq(5, j requires 0 <= j < 5 reads boxes => boxes[r, j]))
  }

  /**
   * `writeLedMatrix`'s buffer: each byte of a zeroed 5-byte buffer is zeroed again,
   * then checkbox `(r+1)(5-c)` is ORed in at bit `c`.
   */
  method WriteLedMatrix(boxes: array2<bool>) returns (payload: seq<Byte>)
    requires IsCheckboxes(boxes)
    ensures payload == EncodeMatrix(GridOf(boxes))
  {
    var view := NewBuffer(5);
    for rowIndex := 0 to 5
      invariant forall r :: 0 <= r < rowIndex ==> view[r] == RowByte(GridOf(boxes)[r])
    {
      WriteRow(view, boxes, rowIndex);
    }
    payload := view[..];
  }

  /** One pass of `writeLedMatrix`'s outer loop: byte `rowIndex` is zeroed, then the row's columns are ORed in. */
  method WriteRow(view: array<Byte>, boxes: array2<bool>, rowIndex: nat)
    requires IsCheckboxes(boxes) && view.Length == 5 && rowIndex < 5
    modifies view
    ensures view[..] == old(view[..])[rowIndex := RowByte(GridOf(boxes)[rowIndex])]
  {
    ghost var row := GridOf(boxes)[rowIndex];
    ghost var before := view[..];
    SetUint8(view, rowIndex, 0);
    for columnIndex := 0 to 5
      invariant view[rowIndex] == PartialRowByte(row, columnIndex)
      invariant forall r :: 0 <= r < 5 && r != rowIndex ==> view[r] == before[r]
    {
      assert boxes[rowIndex, 4 - columnIndex] == row[4 - columnIndex];
      SetUint8(view, rowIndex, OrColumn(view[rowIndex], boxes[rowIndex, 4 - columnIndex], columnIndex));
    }
    PartialRowByteComplete(row);
    assert view[..] == before[rowIndex := RowByte(row)];
  }

  /** Checkboxes showing the rows of a payload show the grid the payload decodes to. */
  lemma GridOfDecoded(boxes: array2<bool>, value: seq<Byte>)
    requires IsCheckboxes(boxes) && |value| >= 5
    requires forall r, j :: 0 <= r < 5 && 0 <= j < 5 ==> boxes[r, j] == RowOf(value[r])[j]
    ensures GridOf(boxes) == DecodeMatrix(value)
  {
    forall r | 0 <= r < 5
      ensures GridOf(boxes)[r] == DecodeMatrix(value)[r]
    {
      assert DecodeMatrix(value)[r] == RowOf(value[r]);
      forall j | 0 <= j < 5
        ensures GridOf(boxes)[r][j] == RowOf(value[r])[j]
      {
        assert GridOf(boxes)[r][j] == boxes[r, j];
      }
    }
  }

  /**
   * `readLedMatrix`'s loops: checkbox `(r+1)(5-c)` becomes bit `c` of byte `r`. A payload
   * shorter than 5 bytes makes `getUint8` throw at the first missing row, after the rows
   * before it were already shown; `complete` says whether every row was shown.
   */
  method ReadLedMatrix(value: seq<Byte>, boxes: array2<bool>) returns (complete: bool)
    requires IsCheckboxes(boxes)
    modifies boxes
    ensures complete <==> |value| >= 5
    ensures forall r, j :: 0 <= r < |value| && r < 5 && 0 <= j < 5 ==> boxes[r, j] == RowOf(value[r])[j]
    ensures forall r, j :: |value| <= r < 5 && 0 <= j < 5 ==> boxes[r, j] == old(boxes[r, j])
    ensures complete ==> GridOf(boxes) == DecodeMatrix(value)
  {
    for rowIndex := 0 to 5
      invariant rowIndex <= |value|
      invariant forall r, j :: 0 <= r < rowIndex && 0 <= j < 5 ==> boxes[r, j] == RowOf(value[r])[j]
      invariant forall r, j :: rowIndex <= r < 5 && 0 <= j < 5 ==> boxes[r, j] == old(boxes[r, j])
    {
      var row := GetUint8(value, rowIndex);
      if row.RangeError? {
        return false;
      }
      for columnIndex := 0 to 5
        invariant forall r, j :: 0 <= r < rowIndex && 0 <= j < 5 ==> boxes[r, j] == RowOf(value[r])[j]
        invariant forall j :: 4 - columnIndex < j < 5 ==> boxes[rowIndex, j] == RowOf(value[rowIndex])[j]
        invariant forall j :: 0 <= j <= 4 - columnIndex ==> boxes[rowIndex, j] == old(boxes[rowIndex, j])
        invariant forall r, j :: rowIndex < r < 5 && 0 <= j < 5 ==> boxes[r, j] == old(boxes[r, j])
      {
        boxes[rowIndex, 4 - columnIndex] := Bit(row.value, columnIndex);
      }
    }
    complete := true;
    GridOfDecoded(boxes, value);
  }
}
