/**
 * The accelerometer page. Its data handler is `Sensors.DecodeAxes`; its period
 * operations are those of `Operations` run with the settings below; its `connect`
 * is `Session.Connect` with `Plan`; its `disconnect` is
 * `Session.DisconnectAnnounced`.
 */
module Accelerometer {
  import opened DataView
  import opened Gatt
  import Operations

  /** Failed checks go through `addLog`. */
  const GuardsPlain := true

  /** `readAccelerometerPeriod` logs its success line before it decodes the value. */
  const PeriodOkFirst := true

  /** `connect` calls `navigator.bluetooth.requestDevice` without checking for it. */
  const ChecksBluetooth := false

  /** The lookups of `connect`, both started from the service handler. */
  const Plan: seq<Step> := [Step(AccelerometerData, true), Step(AccelerometerPeriod, false)]

  /** The shape of `connect`'s lookups. */
  const PlanShape := Independent

  /**
   * The period handle is stored iff its own lookup succeeds, whatever happened to
   * the data lookup or its notifications; the data handle is stored as soon as
   * its lookup succeeds, even when notifications then fail, and its listener is
   * added only once they started. Each failure logs its own error. Both lookups
   * are issued before the data notifications start, so their calls and their
   * errors come first.
   */
  lemma PeriodIndependentOfData(outcomes: seq<Outcome>)
    requires |outcomes| == |Plan|
    ensures var r := Resolve(PlanShape, Plan, outcomes, |Plan|);
      && (AccelerometerPeriod in r.stored <==> outcomes[1].found)
      && (AccelerometerData in r.stored <==> outcomes[0].found)
      && (AccelerometerData in r.listening <==> outcomes[0].found && outcomes[0].notified)
      && AccelerometerPeriod !in r.listening
      && |r.reports| == (if outcomes[0].found && outcomes[0].notified then 0 else 1) +
                        (if outcomes[1].found then 0 else 1)
      && r.calls == [GetCharacteristic(AccelerometerData), GetCharacteristic(AccelerometerPeriod)] +
                    (if outcomes[0].found then [StartNotifications(AccelerometerData)] else [])
      && r.reports == (if outcomes[0].found then [] else [Error(Rejected(GetCharacteristic(AccelerometerData)))]) +
                      (if outcomes[1].found then [] else [Error(Rejected(GetCharacteristic(AccelerometerPeriod)))]) +
                      (if outcomes[0].found && !outcomes[0].notified
                       then [Error(Rejected(StartNotifications(AccelerometerData)))] else [])
  {
    ResolveIndependent(Plan, outcomes, |Plan|);
    assert Failures(Plan, outcomes, 1) == if outcomes[0].found && outcomes[0].notified then 0 else 1;
    assert LookupCalls(Plan, 2) == [GetCharacteristic(AccelerometerData), GetCharacteristic(AccelerometerPeriod)];
    assert NotifyCalls(Plan, outcomes, 1) == if outcomes[0].found then [StartNotifications(AccelerometerData)] else [];
    assert NotifyErrors(Plan, outcomes, 1) ==
      if outcomes[0].found && !outcomes[0].notified then [Error(Rejected(StartNotifications(AccelerometerData)))] else [];
    assert LookupErrors(Plan, outcomes, 1) ==
      if outcomes[0].found then [] else [Error(Rejected(GetCharacteristic(AccelerometerData)))];
  }

  /**
   * `readAccelerometerPeriod`: a failed check is logged through `addLog`, and
   * the success line comes before `getUint16`, so a payload shorter than two
   * bytes logs it and then the RangeError.
   */
  method ReadPeriod(session: Session, reply: Option<seq<Byte>>) returns (shown: Option<Uint16>)
    modifies session
    ensures shown.Some? <==> old(session.Blocker(AccelerometerPeriod)).None? && reply.Some? && |reply.value| >= 2
    ensures shown.Some? ==> LittleEndian16(shown.value) == reply.value[..2]
    ensures session.calls == old(session.calls) +
      Operations.Attempt(old(session.Blocker(AccelerometerPeriod)), ReadValue(AccelerometerPeriod))
    ensures old(session.Blocker(AccelerometerPeriod)).Some? ==>
      session.log == old(session.log) + [Plain(old(session.Blocker(AccelerometerPeriod)).value)]
    ensures old(session.Blocker(AccelerometerPeriod)).None? && reply.Some? ==>
      session.log == old(session.log) + if |reply.value| >= 2 then [Success] else [Success, Error(OutOfRange)]
    ensures old(session.Blocker(AccelerometerPeriod)).None? && reply.None? ==>
      session.log == old(session.log) + [Error(Rejected(ReadValue(AccelerometerPeriod)))]
    ensures session.Link(old(session.hasDevice), old(session.connected), old(session.handles), old(session.listening))
  {
    shown := Operations.ReadUint16(session, AccelerometerPeriod, GuardsPlain, PeriodOkFirst, reply);
  }

  /** `writeAccelerometerPeriod`: the 2-byte little-endian period, sent only when the checks pass. */
  method WritePeriod(session: Session, period: Uint16, accepted: bool)
    modifies session
    ensures session.calls == old(session.calls) +
      Operations.Attempt(old(session.Blocker(AccelerometerPeriod)), WriteValue(AccelerometerPeriod, LittleEndian16(period)))
    ensures old(session.Blocker(AccelerometerPeriod)).Some? ==>
      session.log == old(session.log) + [Plain(old(session.Blocker(AccelerometerPeriod)).value)]
    ensures old(session.Blocker(AccelerometerPeriod)).None? ==>
      session.log == old(session.log) +
        [if accepted then Success else Error(Rejected(WriteValue(AccelerometerPeriod, LittleEndian16(period))))]
    ensures session.Link(old(session.hasDevice), old(session.connected), old(session.handles), old(session.listening))
  {
    Operations.WriteUint16(session, AccelerometerPeriod, GuardsPlain, period, accepted);
  }

  /**
   * `connect`: `requestDevice` is called without checking for
   * `navigator.bluetooth`; once the service is found, both lookups are issued
   * and then the data notifications start.
   */
  method Connect(session: Session, chosen: bool, gattOk: bool, serviceOk: bool, outcomes: seq<Outcome>)
    requires |outcomes| == |Plan|
    modifies session
    ensures !chosen ==>
      session.Link(old(session.hasDevice), old(session.connected), old(session.handles), old(session.listening)) &&
      session.calls == old(session.calls) + [RequestDevice] && session.log == old(session.log) + [Error(Rejected(RequestDevice))]
    ensures chosen && !gattOk ==>
      session.Link(true, false, old(session.handles), old(session.listening)) &&
      session.calls == old(session.calls) + [RequestDevice, GattConnect] &&
      session.log == old(session.log) + [Error(Rejected(GattConnect))]
    ensures chosen && gattOk && !serviceOk ==>
      session.Link(true, true, old(session.handles), old(session.listening)) &&
      session.calls == old(session.calls) + [RequestDevice, GattConnect, GetPrimaryService] &&
      session.log == old(session.log) + [Error(Rejected(GetPrimaryService))]
    ensures chosen && gattOk && serviceOk ==>
      var r := Resolve(PlanShape, Plan, outcomes, |Plan|);
      session.Link(true, true, old(session.handles) + r.stored, (old(session.listening) - r.stored) + r.listening) &&
      session.calls == old(session.calls) + [RequestDevice, GattConnect, GetPrimaryService] + r.calls &&
      session.log == old(session.log) + r.reports
  {
    session.Connect(PlanShape, ChecksBluetooth, true, chosen, gattOk, serviceOk, Plan, outcomes);
  }
}
