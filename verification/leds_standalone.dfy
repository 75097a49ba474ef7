/**
 * The standalone LED page. Its operations are those of `Operations` run with the
 * settings below; its `connect` is `Session.Connect` with `Plan`; its
 * `disconnect` is `Session.DisconnectAnnounced`. Reading and writing the
 * scrolling delay share one form field, so the value a read shows is the value
 * the next write sends.
 */
module LedsStandalone {
  import opened DataView
  import opened Gatt
  import opened LedMatrix
  import Operations

  /** Failed checks go through `addLog`. */
  const GuardsPlain := true

  /** `readScrollingDelay` logs its success line before it decodes the value. */
  const DelayOkFirst := true

  /** `connect` calls `navigator.bluetooth.requestDevice` without checking for it. */
  const ChecksBluetooth := false

  /** The lookups of `connect`, all started from the service handler. */
  const Plan: seq<Step> := [Step(LedMatrixState, false), Step(LedText, false), Step(ScrollingDelay, false)]

  /** The shape of `connect`'s lookups. */
  const PlanShape := Independent

  /**
   * Every handle whose lookup succeeded is stored, whichever others failed; the
   * three lookups are called in order and each failed one logs its own error.
   */
  lemma IndependentLookups(outcomes: seq<Outcome>)
    requires |outcomes| == |Plan|
    ensures var r := Resolve(PlanShape, Plan, outcomes, |Plan|);
      && (LedMatrixState in r.stored <==> outcomes[0].found)
      && (LedText in r.stored <==> outcomes[1].found)
      && (ScrollingDelay in r.stored <==> outcomes[2].found)
      && |r.reports| == (if outcomes[0].found then 0 else 1) + (if outcomes[1].found then 0 else 1) +
                        (if outcomes[2].found then 0 else 1)
      && r.calls == [GetCharacteristic(LedMatrixState), GetCharacteristic(LedText), GetCharacteristic(ScrollingDelay)]
      && r.reports == (if outcomes[0].found then [] else [Error(Rejected(GetCharacteristic(LedMatrixState)))]) +
                      (if outcomes[1].found then [] else [Error(Rejected(GetCharacteristic(LedText)))]) +
                      (if outcomes[2].found then [] else [Error(Rejected(GetCharacteristic(ScrollingDelay)))])
  {
    ResolveIndependent(Plan, outcomes, |Plan|);
    assert Failures(Plan, outcomes, 1) == if outcomes[0].found then 0 else 1;
    assert LookupCalls(Plan, 3) == [GetCharacteristic(LedMatrixState), GetCharacteristic(LedText), GetCharacteristic(ScrollingDelay)];
    assert NotifyCalls(Plan, outcomes, 1) == [] && NotifyCalls(Plan, outcomes, 2) == [];
    assert NotifyErrors(Plan, outcomes, 1) == [] && NotifyErrors(Plan, outcomes, 2) == [];
    assert LookupErrors(Plan, outcomes, 1) ==
      if outcomes[0].found then [] else [Error(Rejected(GetCharacteristic(LedMatrixState)))];
    assert LookupErrors(Plan, outcomes, 2) == LookupErrors(Plan, outcomes, 1) +
      if outcomes[1].found then [] else [Error(Rejected(GetCharacteristic(LedText)))];
  }

  /**
   * `readLedMatrix`: a failed check is logged through `addLog`; otherwise the
   * rows the payload holds are shown on the checkboxes, and the success line is
   * logged, or the RangeError when the payload has fewer than 5 bytes.
   */
  method ReadMatrix(session: Session, reply: Option<seq<Byte>>, boxes: array2<bool>)
    requires IsCheckboxes(boxes)
    modifies session, boxes
    ensures session.calls == old(session.calls) + Operations.Attempt(old(session.Blocker(LedMatrixState)), ReadValue(LedMatrixState))
    ensures old(session.Blocker(LedMatrixState)).Some? ==>
      session.log == old(session.log) + [Plain(old(session.Blocker(LedMatrixState)).value)]
    ensures old(session.Blocker(LedMatrixState)).None? && reply.Some? ==>
      session.log == old(session.log) + [if |reply.value| >= 5 then Success else Error(OutOfRange)]
    ensures old(session.Blocker(LedMatrixState)).None? && reply.Some? && |reply.value| >= 5 ==>
      GridOf(boxes) == DecodeMatrix(reply.value)
    ensures old(session.Blocker(LedMatrixState)).None? && reply.None? ==>
      session.log == old(session.log) + [Error(Rejected(ReadValue(LedMatrixState)))]
    ensures old(session.Blocker(LedMatrixState)).None? && reply.Some? ==>
      forall r, j :: 0 <= r < 5 && 0 <= j < 5 ==>
        boxes[r, j] == if r < |reply.value| then RowOf(reply.value[r])[j] else old(boxes[r, j])
    ensures old(session.Blocker(LedMatrixState)).Some? || reply.None? ==>
      forall r, j :: 0 <= r < 5 && 0 <= j < 5 ==> boxes[r, j] == old(boxes[r, j])
    ensures session.Link(old(session.hasDevice), old(session.connected), old(session.handles), old(session.listening))
  {
    Operations.ReadLedMatrix(session, GuardsPlain, reply, boxes);
  }

  /** `writeLedMatrix`: the five row bytes of the checkboxes, sent only when the checks pass. */
  method WriteMatrix(session: Session, boxes: array2<bool>, accepted: bool)
    requires IsCheckboxes(boxes)
    modifies session
    ensures session.calls == old(session.calls) +
      Operations.Attempt(old(session.Blocker(LedMatrixState)), WriteValue(LedMatrixState, EncodeMatrix(GridOf(boxes))))
    ensures old(session.Blocker(LedMatrixState)).Some? ==>
      session.log == old(session.log) + [Plain(old(session.Blocker(LedMatrixState)).value)]
    ensures old(session.Blocker(LedMatrixState)).None? ==>
      session.log == old(session.log) +
        [if accepted then Success else Error(Rejected(WriteValue(LedMatrixState, EncodeMatrix(GridOf(boxes)))))]
    ensures session.Link(old(session.hasDevice), old(session.connected), old(session.handles), old(session.listening))
  {
    Operations.WriteLedMatrix(session, GuardsPlain, boxes, accepted);
  }

  /**
   * `writeLedText`: after the checks, a missing TextEncoder is still logged in red;
   * the encoded text is sent only when everything passes.
   */
  method WriteText(session: Session, textEncoder: bool, encoded: seq<Byte>, accepted: bool)
    modifies session
    ensures session.calls == old(session.calls) +
      (if old(session.Blocker(LedText)).None? && textEncoder then [WriteValue(LedText, encoded)] else [])
    ensures old(session.Blocker(LedText)).Some? ==> session.log == old(session.log) + [Plain(old(session.Blocker(LedText)).value)]
    ensures old(session.Blocker(LedText)).None? && !textEncoder ==> session.log == old(session.log) + [Error(NoTextEncoder)]
    ensures old(session.Blocker(LedText)).None? && textEncoder ==>
      session.log == old(session.log) + [if accepted then Success else Error(Rejected(WriteValue(LedText, encoded)))]
    ensures session.Link(old(session.hasDevice), old(session.connected), old(session.handles), old(session.listening))
  {
    GuardOrder(session.hasDevice, session.connected, LedText in session.handles, LedText, [(textEncoder, NoTextEncoder)]);
    Operations.WriteLedText(session, GuardsPlain, textEncoder, encoded, accepted);
  }

  /**
   * `readScrollingDelay`: `getUint16(0, true)` of the reply; a payload shorter
   * than two bytes logs OK and then the RangeError.
   */
  method ReadDelay(session: Session, reply: Option<seq<Byte>>) returns (shown: Option<Uint16>)
    modifies session
    ensures shown.Some? <==> old(session.Blocker(ScrollingDelay)).None? && reply.Some? && |reply.value| >= 2
    ensures shown.Some? ==> LittleEndian16(shown.value) == reply.value[..2]
    ensures session.calls == old(session.calls) + Operations.Attempt(old(session.Blocker(ScrollingDelay)), ReadValue(ScrollingDelay))
    ensures old(session.Blocker(ScrollingDelay)).Some? ==> session.log == old(session.log) + [Plain(old(session.Blocker(ScrollingDelay)).value)]
    ensures old(session.Blocker(ScrollingDelay)).None? && reply.Some? ==>
      session.log == old(session.log) + if |reply.value| >= 2 then [Success] else [Success, Error(OutOfRange)]
    ensures old(session.Blocker(ScrollingDelay)).None? && reply.None? ==>
      session.log == old(session.log) + [Error(Rejected(ReadValue(ScrollingDelay)))]
    ensures session.Link(old(session.hasDevice), old(session.connected), old(session.handles), old(session.listening))
  {
    shown := Operations.ReadUint16(session, ScrollingDelay, GuardsPlain, DelayOkFirst, reply);
  }

  /** `writeScrollingDelay`: the 2-byte little-endian delay, sent only when the checks pass. */
  method WriteDelay(session: Session, delay: Uint16, accepted: bool)
    modifies session
    ensures session.calls == old(session.calls) +
      Operations.Attempt(old(session.Blocker(ScrollingDelay)), WriteValue(ScrollingDelay, LittleEndian16(delay)))
    ensures old(session.Blocker(ScrollingDelay)).Some? ==> session.log == old(session.log) + [Plain(old(session.Blocker(ScrollingDelay)).value)]
    ensures old(session.Blocker(ScrollingDelay)).None? ==>
      session.log == old(session.log) +
        [if accepted then Success else Error(Rejected(WriteValue(ScrollingDelay, LittleEndian16(delay))))]
    ensures session.Link(old(session.hasDevice), old(session.connected), old(session.handles), old(session.listening))
  {
    Operations.WriteUint16(session, ScrollingDelay, GuardsPlain, delay, accepted);
  }

  /**
   * `connect`: `requestDevice` is called without checking for
   * `navigator.bluetooth`; once the service is found, the lookups
   * run as the independent lookups of `Plan`.
   */
  method Connect(session: Session, chosen: bool, gattOk: bool, serviceOk: bool, outcomes: seq<Outcome>)
    requires |outcomes| == |Plan|
    modifies session
    ensures !chosen ==>
      session.Link(old(session.hasDevice), old(session.connected), old(session.handles), old(session.listening)) &&
      session.calls == old(session.calls) + [RequestDevice] && session.log == old(session.log) + [Error(Rejected(RequestDevice))]
    ensures chosen && !gattOk ==>
      session.Link(true, false, old(session.handles), old(session.listening)) &&
      session.calls == old(session.calls) + [RequestDevice, GattConnect] &&
      session.log == old(session.log) + [Error(Rejected(GattConnect))]
    ensures chosen && gattOk && !serviceOk ==>
      session.Link(true, true, old(session.handles), old(session.listening)) &&
      session.calls == old(session.calls) + [RequestDevice, GattConnect, GetPrimaryService] &&
      session.log == old(session.log) + [Error(Rejected(GetPrimaryService))]
    ensures chosen && gattOk && serviceOk ==>
      var r := Resolve(PlanShape, Plan, outcomes, |Plan|);
      session.Link(true, true, old(session.handles) + r.stored, (old(session.listening) - r.stored) + r.listening) &&
      session.calls == old(session.calls) + [RequestDevice, GattConnect, GetPrimaryService] + r.calls &&
      session.log == old(session.log) + r.reports
  {
    session.Connect(PlanShape, ChecksBluetooth, true, chosen, gattOk, serviceOk, Plan, outcomes);
  }
}
