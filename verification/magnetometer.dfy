/**
 * The magnetometer page. Its notification handlers are the decoders of module
 * `Sensors`; its period and calibration operations and its `connect` are those
 * of `Operations` and `Session` run with the settings below; its `disconnect`
 * is `Session.DisconnectConfirmed`.
 */
module Magnetometer {
  import opened DataView
  import opened Gatt
  import Operations

  /** Failed checks go through `addLogError`. */
  const GuardsPlain := false

  /** `readMagnetometerPeriod` logs OK before it decodes the value. */
  const PeriodOkFirst := true

  /** `connect` checks `navigator.bluetooth` first. */
  const ChecksBluetooth := true

  /** The lookups of `connect`, each started in the success handler of the one before. */
  const Plan: seq<Step> := [
    Step(MagnetometerData, true),
    Step(MagnetometerPeriod, false),
    Step(MagnetometerBearing, true),
    Step(MagnetometerCalibration, true)
  ]

  /** The shape of `connect`'s lookups. */
  const PlanShape := Nested

  /**
   * The chain of `connect`: the data handle is stored whenever its lookup
   * succeeds, even if its notifications then fail; the period only once data
   * notifications started; the bearing only once the period was found; the
   * calibration only once bearing notifications started. A listener is only
   * added once its notifications started, and at most one error is logged.
   */
  lemma ChainStopsAtFirstFailure(outcomes: seq<Outcome>)
    requires |outcomes| == |Plan|
    ensures var r := Resolve(PlanShape, Plan, outcomes, |Plan|);
      && (MagnetometerData in r.stored <==> outcomes[0].found)
      && (MagnetometerData in r.listening <==> outcomes[0].found && outcomes[0].notified)
      && (MagnetometerPeriod in r.stored <==> outcomes[0].found && outcomes[0].notified && outcomes[1].found)
      && (MagnetometerBearing in r.stored <==>
            outcomes[0].found && outcomes[0].notified && outcomes[1].found && outcomes[2].found)
      && (MagnetometerCalibration in r.stored <==>
            outcomes[0].found && outcomes[0].notified && outcomes[1].found &&
            outcomes[2].found && outcomes[2].notified && outcomes[3].found)
      && (MagnetometerCalibration in r.listening <==>
            outcomes[0].found && outcomes[0].notified && outcomes[1].found &&
            outcomes[2].found && outcomes[2].notified && outcomes[3].found && outcomes[3].notified)
      && |r.reports| <= 1
  {
    ResolveNested(Plan, outcomes, |Plan|);
    assert CompleteBefore(Plan, outcomes, 1) <==> Complete(Plan[0], outcomes[0]);
    assert CompleteBefore(Plan, outcomes, 2) <==>
      Complete(Plan[0], outcomes[0]) && Complete(Plan[1], outcomes[1]);
    assert CompleteBefore(Plan, outcomes, 3) <==>
      Complete(Plan[0], outcomes[0]) && Complete(Plan[1], outcomes[1]) && Complete(Plan[2], outcomes[2]);
  }

  /**
   * `readMagnetometerPeriod`: a failed check is logged in red, and OK is logged
   * before `getUint16`, so a payload shorter than two bytes logs OK and then the
   * RangeError.
   */
  method ReadPeriod(session: Session, reply: Option<seq<Byte>>) returns (shown: Option<Uint16>)
    modifies session
    ensures shown.Some? <==> old(session.Blocker(MagnetometerPeriod)).None? && reply.Some? && |reply.value| >= 2
    ensures shown.Some? ==> LittleEndian16(shown.value) == reply.value[..2]
    ensures session.calls == old(session.calls) +
      Operations.Attempt(old(session.Blocker(MagnetometerPeriod)), ReadValue(MagnetometerPeriod))
    ensures old(session.Blocker(MagnetometerPeriod)).Some? ==>
      session.log == old(session.log) + [Error(old(session.Blocker(MagnetometerPeriod)).value)]
    ensures old(session.Blocker(MagnetometerPeriod)).None? && reply.Some? ==>
      session.log == old(session.log) + if |reply.value| >= 2 then [Success] else [Success, Error(OutOfRange)]
    ensures old(session.Blocker(MagnetometerPeriod)).None? && reply.None? ==>
      session.log == old(session.log) + [Error(Rejected(ReadValue(MagnetometerPeriod)))]
    ensures session.Link(old(session.hasDevice), old(session.connected), old(session.handles), old(session.listening))
  {
    shown := Operations.ReadUint16(session, MagnetometerPeriod, GuardsPlain, PeriodOkFirst, reply);
  }

  /** `writeMagnetometerPeriod`: the 2-byte little-endian period, sent only when the checks pass. */
  method WritePeriod(session: Session, period: Uint16, accepted: bool)
    modifies session
    ensures session.calls == old(session.calls) +
      Operations.Attempt(old(session.Blocker(MagnetometerPeriod)), WriteValue(MagnetometerPeriod, LittleEndian16(period)))
    ensures old(session.Blocker(MagnetometerPeriod)).Some? ==>
      session.log == old(session.log) + [Error(old(session.Blocker(MagnetometerPeriod)).value)]
    ensures old(session.Blocker(MagnetometerPeriod)).None? ==>
      session.log == old(session.log) +
        [if accepted then Success else Error(Rejected(WriteValue(MagnetometerPeriod, LittleEndian16(period))))]
    ensures session.Link(old(session.hasDevice), old(session.connected), old(session.handles), old(session.listening))
  {
    Operations.WriteUint16(session, MagnetometerPeriod, GuardsPlain, period, accepted);
  }

  /** `writeMagnetometerCalibration`: the 1-byte calibration request, sent only when the checks pass. */
  method WriteCalibration(session: Session, request: Byte, accepted: bool)
    modifies session
    ensures session.calls == old(session.calls) +
      Operations.Attempt(old(session.Blocker(MagnetometerCalibration)), WriteValue(MagnetometerCalibration, [request]))
    ensures old(session.Blocker(MagnetometerCalibration)).Some? ==>
      session.log == old(session.log) + [Error(old(session.Blocker(MagnetometerCalibration)).value)]
    ensures old(session.Blocker(MagnetometerCalibration)).None? ==>
      session.log == old(session.log) +
        [if accepted then Success else Error(Rejected(WriteValue(MagnetometerCalibration, [request])))]
    ensures session.Link(old(session.hasDevice), old(session.connected), old(session.handles), old(session.listening))
  {
    Operations.WriteUint8(session, MagnetometerCalibration, GuardsPlain, request, accepted);
  }

  /**
   * `connect`: without `navigator.bluetooth` only that error is logged and
   * nothing is called; once the service is found, the four lookups run as the
   * nested chain `Plan`.
   */
  method Connect(session: Session, bluetoothAvailable: bool, chosen: bool, gattOk: bool, serviceOk: bool,
                 outcomes: seq<Outcome>)
    requires |outcomes| == |Plan|
    modifies session
    ensures !bluetoothAvailable ==>
      session.Link(old(session.hasDevice), old(session.connected), old(session.handles), old(session.listening)) &&
      session.calls == old(session.calls) && session.log == old(session.log) + [Error(BluetoothUnavailable)]
    ensures bluetoothAvailable && !chosen ==>
      session.Link(old(session.hasDevice), old(session.connected), old(session.handles), old(session.listening)) &&
      session.calls == old(session.calls) + [RequestDevice] && session.log == old(session.log) + [Error(Rejected(RequestDevice))]
    ensures bluetoothAvailable && chosen && !gattOk ==>
      session.Link(true, false, old(session.handles), old(session.listening)) &&
      session.calls == old(session.calls) + [RequestDevice, GattConnect] &&
      session.log == old(session.log) + [Error(Rejected(GattConnect))]
    ensures bluetoothAvailable && chosen && gattOk && !serviceOk ==>
      session.Link(true, true, old(session.handles), old(session.listening)) &&
      session.calls == old(session.calls) + [RequestDevice, GattConnect, GetPrimaryService] &&
      session.log == old(session.log) + [Error(Rejected(GetPrimaryService))]
    ensures bluetoothAvailable && chosen && gattOk && serviceOk ==>
      var r := Resolve(PlanShape, Plan, outcomes, |Plan|);
      session.Link(true, true, old(session.handles) + r.stored, (old(session.listening) - r.stored) + r.listening) &&
      session.calls == old(session.calls) + [RequestDevice, GattConnect, GetPrimaryService] + r.calls &&
      session.log == old(session.log) + r.reports
  {
    session.Connect(PlanShape, ChecksBluetooth, bluetoothAvailable, chosen, gattOk, serviceOk, Plan, outcomes);
  }
}
