/**
 * The read and write operations of the pages. Each one runs the guard chain,
 * and only when it passes builds its payload, calls the transport and logs the
 * outcome. The pages differ only in two respects, which are parameters here:
 * whether a failed check is logged through `addLog` (`plain`) or `addLogError`,
 * and, for reads, whether the success line is logged before the value is
 * decoded (`okFirst`) or after it.
 */
module Operations {
  import opened DataView
  import opened Gatt
  import opened LedMatrix

  /** The transport calls an operation makes: `call` when the guards pass, none otherwise. */
  function Attempt(blocker: Option<Failure>, call: Call): (calls: seq<Call>)
    ensures calls == [] <==> blocker.Some?
    ensures blocker.None? ==> calls == [call]
  {
    if blocker.None? then [call] else []
  }

  /** The log entry of a write: the failed check, or the outcome of `writeValue`. */
  function WriteReport(blocker: Option<Failure>, plain: bool, c: Characteristic, payload: seq<Byte>, accepted: bool): (r: Report)
    ensures blocker.Some? ==> r == Complaint(blocker.value, plain)
    ensures blocker.None? ==> (r.Success? <==> accepted)
  {
    if blocker.Some? then Complaint(blocker.value, plain)
    else if accepted then Success
    else Error(Rejected(WriteValue(c, payload)))
  }

  /**
   * The log entries of a 16-bit read: the failed check, the rejection of
   * `readValue`, or the success line, together with the RangeError of
   * `getUint16` on a payload shorter than two bytes. When the page logs OK before
   * decoding, a short payload logs both.
   */
  function ReadReports(blocker: Option<Failure>, plain: bool, okFirst: bool, c: Characteristic,
                       reply: Option<seq<Byte>>): (log: seq<Report>)
    ensures 1 <= |log| <= 2
    ensures |log| == 2 <==> blocker.None? && reply.Some? && |reply.value| < 2 && okFirst
    ensures Success in log <==> blocker.None? && reply.Some? && (|reply.value| >= 2 || okFirst)
  {
    if blocker.Some? then [Complaint(blocker.value, plain)]
    else if reply.None? then [Error(Rejected(ReadValue(c)))]
    else if |reply.value| >= 2 then [Success]
    else if okFirst then [Success, Error(OutOfRange)]
    else [Error(OutOfRange)]
  }

  /**
   * A period or scrolling-delay read: `readValue()` and `getUint16(0, true)`.
   * A value is shown iff the guards pass, the read resolves and the payload has
   * two bytes, and its little-endian bytes are the first two of the payload.
   */
  method ReadUint16(session: Session, c: Characteristic, plain: bool, okFirst: bool, reply: Option<seq<Byte>>)
    returns (shown: Option<Uint16>)
    modifies session
    ensures shown.Some? <==> old(session.Blocker(c)).None? && reply.Some? && |reply.value| >= 2
    ensures shown.Some? ==> LittleEndian16(shown.value) == reply.value[..2]
    ensures session.calls == old(session.calls) + Attempt(old(session.Blocker(c)), ReadValue(c))
    ensures session.log == old(session.log) + ReadReports(old(session.Blocker(c)), plain, okFirst, c, reply)
    ensures session.Link(old(session.hasDevice), old(session.connected), old(session.handles), old(session.listening))
  {
    var pass := session.Guard(c, plain);
    if !pass {
      return None;
    }
    var value := session.Fetch(c, reply);
    if value.None? {
      return None;
    }
    if okFirst {
      session.Note(Success);
    }
    var decoded := GetUint16(value.value, 0);
    if decoded.RangeError? {
      session.Note(Error(OutOfRange));
      return None;
    }
    if !okFirst {
      session.Note(Success);
    }
    shown := Some(decoded.value);
  }

  /** A period or scrolling-delay write: the 2-byte little-endian buffer of `v`, sent only when the guards pass. */
  method WriteUint16(session: Session, c: Characteristic, plain: bool, v: Uint16, accepted: bool)
    modifies session
    ensures session.calls == old(session.calls) + Attempt(old(session.Blocker(c)), WriteValue(c, LittleEndian16(v)))
    ensures session.log == old(session.log) + [WriteReport(old(session.Blocker(c)), plain, c, LittleEndian16(v), accepted)]
    ensures session.Link(old(session.hasDevice), old(session.connected), old(session.handles), old(session.listening))
  {
    var pass := session.Guard(c, plain);
    if pass {
      var payload := EncodeUint16(v);
      session.Send(c, payload, accepted);
    }
  }

  /** The calibration write: the 1-byte buffer holding `v`, sent only when the guards pass. */
  method WriteUint8(session: Session, c: Characteristic, plain: bool, v: Byte, accepted: bool)
    modifies session
    ensures session.calls == old(session.calls) + Attempt(old(session.Blocker(c)), WriteValue(c, [v]))
    ensures session.log == old(session.log) + [WriteReport(old(session.Blocker(c)), plain, c, [v], accepted)]
    ensures session.Link(old(session.hasDevice), old(session.connected), old(session.handles), old(session.listening))
  {
    var pass := session.Guard(c, plain);
    if pass {
      var payload := EncodeUint8(v);
      session.Send(c, payload, accepted);
    }
  }

  /**
   * `readLedMatrix`: when the guards pass and the read resolves, the rows the
   * payload holds are shown on the checkboxes (the rest keep their state), then
   * OK is logged, or the RangeError if the payload has fewer than 5 bytes.
   * Otherwise the checkboxes are untouched.
   */
  method ReadLedMatrix(session: Session, plain: bool, reply: Option<seq<Byte>>, boxes: array2<bool>)
    requires IsCheckboxes(boxes)
    modifies session, boxes
    ensures session.calls == old(session.calls) + Attempt(old(session.Blocker(LedMatrixState)), ReadValue(LedMatrixState))
    ensures old(session.Blocker(LedMatrixState)).Some? ==>
      session.log == old(session.log) + [Complaint(old(session.Blocker(LedMatrixState)).value, plain)]
    ensures old(session.Blocker(LedMatrixState)).None? && reply.None? ==>
      session.log == old(session.log) + [Error(Rejected(ReadValue(LedMatrixState)))]
    ensures old(session.Blocker(LedMatrixState)).None? && reply.Some? ==>
      session.log == old(session.log) + [if |reply.value| >= 5 then Success else Error(OutOfRange)]
    ensures old(session.Blocker(LedMatrixState)).None? && reply.Some? ==>
      forall r, j :: 0 <= r < 5 && 0 <= j < 5 ==>
        boxes[r, j] == if r < |reply.value| then RowOf(reply.value[r])[j] else old(boxes[r, j])
    ensures old(session.Blocker(LedMatrixState)).None? && reply.Some? && |reply.value| >= 5 ==>
      GridOf(boxes) == DecodeMatrix(reply.value)
    ensures old(session.Blocker(LedMatrixState)).Some? || reply.None? ==>
      forall r, j :: 0 <= r < 5 && 0 <= j < 5 ==> boxes[r, j] == old(boxes[r, j])
    ensures session.Link(old(session.hasDevice), old(session.connected), old(session.handles), old(session.listening))
  {
    var pass := session.Guard(LedMatrixState, plain);
    if !pass {
      return;
    }
    var value := session.Fetch(LedMatrixState, reply);
    if value.None? {
      return;
    }
    var complete := LedMatrix.ReadLedMatrix(value.value, boxes);
    session.Note(if complete then Success else Error(OutOfRange));
  }

  /** `writeLedMatrix`: the 5-byte encoding of the checkboxes, sent only when the guards pass. */
  method WriteLedMatrix(session: Session, plain: bool, boxes: array2<bool>, accepted: bool)
    requires IsCheckboxes(boxes)
    modifies session
    ensures session.calls == old(session.calls) +
      Attempt(old(session.Blocker(LedMatrixState)), WriteValue(LedMatrixState, EncodeMatrix(GridOf(boxes))))
    ensures session.log == old(session.log) +
      [WriteReport(old(session.Blocker(LedMatrixState)), plain, LedMatrixState, EncodeMatrix(GridOf(boxes)), accepted)]
    ensures session.Link(old(session.hasDevice), old(session.connected), old(session.handles), old(session.listening))
  {
    var pass := session.Guard(LedMatrixState, plain);
    if pass {
      var payload := LedMatrix.WriteLedMatrix(boxes);
      session.Send(LedMatrixState, payload, accepted);
    }
  }

  /**
   * `writeLedText`: the guard chain followed by the TextEncoder check, whose
   * failure both pages log through `addLogError`. `encoded` stands for the
   * TextEncoder output, which is only sent when every check passes.
   */
  method WriteLedText(session: Session, plain: bool, textEncoder: bool, encoded: seq<Byte>, accepted: bool)
    modifies session
    ensures var blocker := old(FirstFailure(session.Checks(LedText) + [(textEncoder, NoTextEncoder)]));
      session.calls == old(session.calls) + Attempt(blocker, WriteValue(LedText, encoded)) &&
      session.log == old(session.log) +
        [if blocker == Some(NoTextEncoder) then Error(NoTextEncoder)
         else WriteReport(blocker, plain, LedText, encoded, accepted)]
    ensures session.Link(old(session.hasDevice), old(session.connected), old(session.handles), old(session.listening))
  {
    GuardOrder(session.hasDevice, session.connected, LedText in session.handles, LedText, [(textEncoder, NoTextEncoder)]);
    var pass := session.Guard(LedText, plain);
    if !pass {
      return;
    }
    if !textEncoder {
      session.Note(Error(NoTextEncoder));
      return;
    }
    session.Send(LedText, encoded, accepted);
  }
}
