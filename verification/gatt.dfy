/**
 * The connection state every page keeps in globals (`bluetoothDevice`, whose
 * `gatt.connected` the guards consult, and one variable per characteristic
 * handle), the guard chain every read and write runs before touching the
 * transport, the characteristic-resolution step of `connect`, and `disconnect`.
 *
 * Web Bluetooth itself is not modelled: every promise the scripts wait on is an
 * input saying whether it resolved, and the calls made are recorded in order.
 */
module Gatt {
  import opened DataView

  datatype Option<T> = None | Some(value: T)

  /** The characteristics whose handles the pages store. */
  datatype Characteristic =
    | MagnetometerData
    | MagnetometerPeriod
    | MagnetometerBearing
    | MagnetometerCalibration
    | AccelerometerData
    | AccelerometerPeriod
    | LedMatrixState
    | LedText
    | ScrollingDelay

  /** The Web Bluetooth calls the pages make. */
  datatype Call =
    | RequestDevice
    | GattConnect
    | GetPrimaryService
    | GetPrimaryServices
    | GetCharacteristic(c: Characteristic)
    | StartNotifications(c: Characteristic)
    | ReadValue(c: Characteristic)
    | WriteValue(c: Characteristic, payload: seq<Byte>)
    | GattDisconnect

  /** Why an operation stopped. */
  datatype Failure =
    | NoDevice                  // `!bluetoothDevice`
    | NotConnected              // `!bluetoothDevice.gatt.connected`
    | NoHandle(c: Characteristic)  // the characteristic variable is still unset
    | NoTextEncoder             // `!("TextEncoder" in window)`
    | BluetoothUnavailable      // `!navigator.bluetooth`
    | Rejected(call: Call)      // the promise of that call rejected
    | OutOfRange                // a DataView getter threw a RangeError

  /**
   * One entry of the page log: the green OK, a failure in red (`addLogError`),
   * a failure in plain text (`addLog`), or the "Disconnecting..." notice.
   */
  datatype Report = Success | Error(failure: Failure) | Plain(failure: Failure) | Disconnecting

  /** How a failed check is logged: through `addLog` when `plain`, else through `addLogError`. */
  function Complaint(f: Failure, plain: bool): (r: Report)
    ensures r.Plain? || r.Error?
    ensures r.failure == f && (r.Plain? <==> plain)
  {
    if plain then Plain(f) else Error(f)
  }

  /**
   * A chain of checks run in order: the failure of the first one that does not
   * hold, or `None` when they all hold.
   */
  function FirstFailure(checks: seq<(bool, Failure)>): (r: Option<Failure>)
    ensures r.None? <==> forall i :: 0 <= i < |checks| ==> checks[i].0
    ensures r.Some? ==> exists i :: 0 <= i < |checks| && !checks[i].0 && checks[i].1 == r.value &&
                                    forall k :: 0 <= k < i ==> checks[k].0
  {
    if |checks| == 0 then None
    else if !checks[0].0 then Some(checks[0].1)
    else
      var r := FirstFailure(checks[1..]);
      assert forall i :: 1 <= i < |checks| ==> checks[i] == checks[1..][i - 1];
      if r.Some? then
        var j :| 0 <= j < |checks[1..]| && !checks[1..][j].0 && checks[1..][j].1 == r.value &&
          forall k :: 0 <= k < j ==> checks[1..][k].0;
        assert !checks[j + 1].0 && forall k :: 0 <= k < j + 1 ==> checks[k].0;
        r
      else r
  }

  /** The checks of every read and write: device present, then connected, then handle stored. */
  function GuardChecks(hasDevice: bool, connected: bool, resolved: bool, c: Characteristic): seq<(bool, Failure)>
  {
    [(hasDevice, NoDevice), (connected, NotConnected), (resolved, NoHandle(c))]
  }

  /**
   * The guard chain is the scripts' nested `if`s: the device check wins over the
   * connection check, which wins over the handle check, which wins over any
   * further check of the operation.
   */
  lemma GuardOrder(hasDevice: bool, connected: bool, resolved: bool, c: Characteristic, extra: seq<(bool, Failure)>)
    ensures FirstFailure(GuardChecks(hasDevice, connected, resolved, c) + extra) ==
      if !hasDevice then Some(NoDevice)
      else if !connected then Some(NotConnected)
      else if !resolved then Some(NoHandle(c))
      else FirstFailure(extra)
  {
    var checks := GuardChecks(hasDevice, connected, resolved, c) + extra;
    assert checks[0] == (hasDevice, NoDevice);
    assert checks[1..][0] == (connected, NotConnected);
    assert checks[1..][1..][0] == (resolved, NoHandle(c));
    assert checks[1..][1..][1..] == extra;
  }

  // ---------------------------------------------------------------- resolution

  /** How `connect` chains the characteristic lookups once the service is found. */
  datatype Shape =
    | Nested       // each lookup starts inside the success handler of the previous one
    | Independent  // every lookup starts straight from the service handler

  /** One characteristic lookup, and whether its notifications are then started. */
  datatype Step = Step(c: Characteristic, notify: bool)

  /** Whether `getCharacteristic` resolved, and whether `startNotifications` resolved. */
  datatype Outcome = Outcome(found: bool, notified: bool)

  /**
   * What the lookups have done: the handles stored, the handles whose change
   * listener is registered, the calls made, the errors logged, and whether a
   * nested chain has stopped.
   */
  datatype Resolution = Resolution(
    stored: set<Characteristic>,
    listening: set<Characteristic>,
    calls: seq<Call>,
    reports: seq<Report>,
    halted: bool)

  /** A step that leaves nothing to be resumed: the handle was found and, if asked, notifies. */
  predicate Complete(s: Step, o: Outcome)
  {
    o.found && (s.notify ==> o.notified)
  }

  /** A step whose change listener ends up registered. */
  predicate Notifies(s: Step, o: Outcome)
  {
    s.notify && o.found && o.notified
  }

  /** Every step before `i` was complete. */
  predicate CompleteBefore(steps: seq<Step>, outcomes: seq<Outcome>, i: nat)
    requires |outcomes| == |steps| && i <= |steps|
  {
    forall k :: 0 <= k < i ==> Complete(steps[k], outcomes[k])
  }

  /** No characteristic is looked up twice. */
  predicate DistinctSteps(steps: seq<Step>)
  {
    forall i, j :: 0 <= i < j < |steps| ==> steps[i].c != steps[j].c
  }

  /** The number of steps among the first `n` that are not complete. */
  function Failures(steps: seq<Step>, outcomes: seq<Outcome>, n: nat): nat
    requires |outcomes| == |steps| && n <= |steps|
  {
    if n == 0 then 0
    else Failures(steps, outcomes, n - 1) + if Complete(steps[n - 1], outcomes[n - 1]) then 0 else 1
  }

  /**
   * `getCharacteristic` and its handlers: on success the handle is stored
   * (replacing any earlier handle, whose listener does not carry over); a
   * rejection is logged once by its own `catch`.
   */
  function Found(r: Resolution, s: Step, o: Outcome): Resolution
  {
    var asked := r.calls + [GetCharacteristic(s.c)];
    if !o.found then r.(calls := asked, reports := r.reports + [Error(Rejected(GetCharacteristic(s.c)))])
    else r.(stored := r.stored + {s.c}, listening := r.listening - {s.c}, calls := asked)
  }

  /**
   * `startNotifications` on a found handle, when the step asks for it: the
   * listener is added once it resolves, and a rejection is logged once.
   */
  function Notified(r: Resolution, s: Step, o: Outcome): Resolution
  {
    if !(s.notify && o.found) then r
    else
      var asked := r.calls + [StartNotifications(s.c)];
      if o.notified then r.(listening := r.listening + {s.c}, calls := asked)
      else r.(calls := asked, reports := r.reports + [Error(Rejected(StartNotifications(s.c)))])
  }

  /**
   * One lookup as the service handler starts it. In a nested chain the
   * notifications follow in the lookup's own success handler, and an incomplete
   * step stops the lookups that would have started there; an independent lookup
   * only issues `getCharacteristic`, its notifications come later.
   */
  function Advance(shape: Shape, r: Resolution, s: Step, o: Outcome): Resolution
  {
    if r.halted then r
    else if shape == Independent then Found(r, s, o)
    else Notified(Found(r, s, o), s, o).(halted := !Complete(s, o))
  }

  /** The first `n` lookups, in the order they are started. */
  function Lookups(shape: Shape, steps: seq<Step>, outcomes: seq<Outcome>, n: nat): Resolution
    requires |outcomes| == |steps| && n <= |steps|
  {
    if n == 0 then Resolution({}, {}, [], [], false)
    else Advance(shape, Lookups(shape, steps, outcomes, n - 1), steps[n - 1], outcomes[n - 1])
  }

  /** The notifications of the first `k` steps, started after `r`, in the order of their lookups. */
  function Notifications(r: Resolution, steps: seq<Step>, outcomes: seq<Outcome>, k: nat): Resolution
    requires |outcomes| == |steps| && k <= |steps|
  {
    if k == 0 then r
    else Notified(Notifications(r, steps, outcomes, k - 1), steps[k - 1], outcomes[k - 1])
  }

  /**
   * The characteristic lookups of `connect` for the first `n` steps, with every
   * promise completing in the order it was issued. A nested chain runs its steps
   * one after another; independent lookups are all issued by the service
   * handler, so every `getCharacteristic` comes before any `startNotifications`.
   */
  function Resolve(shape: Shape, steps: seq<Step>, outcomes: seq<Outcome>, n: nat): Resolution
    requires |outcomes| == |steps| && n <= |steps|
  {
    if shape == Nested then Lookups(Nested, steps, outcomes, n)
    else Notifications(Lookups(Independent, steps, outcomes, n), steps, outcomes, n)
  }

  /** The `getCharacteristic` calls of the first `n` steps, in order. */
  function LookupCalls(steps: seq<Step>, n: nat): (calls: seq<Call>)
    requires n <= |steps|
    ensures |calls| == n && forall j :: 0 <= j < n ==> calls[j] == GetCharacteristic(steps[j].c)
  {
    if n == 0 then [] else LookupCalls(steps, n - 1) + [GetCharacteristic(steps[n - 1].c)]
  }

  /** The errors of the lookups among the first `n` steps that were rejected, in order. */
  function LookupErrors(steps: seq<Step>, outcomes: seq<Outcome>, n: nat): seq<Report>
    requires |outcomes| == |steps| && n <= |steps|
  {
    if n == 0 then []
    else
      var last := if outcomes[n - 1].found then [] else [Error(Rejected(GetCharacteristic(steps[n - 1].c)))];
      LookupErrors(steps, outcomes, n - 1) + last
  }

  /** The `startNotifications` calls of the first `k` steps: one per found step that asks for it. */
  function NotifyCalls(steps: seq<Step>, outcomes: seq<Outcome>, k: nat): seq<Call>
    requires |outcomes| == |steps| && k <= |steps|
  {
    if k == 0 then []
    else
      var last := if steps[k - 1].notify && outcomes[k - 1].found then [StartNotifications(steps[k - 1].c)] else [];
      NotifyCalls(steps, outcomes, k - 1) + last
  }

  /** The errors of the notifications among the first `k` steps that were rejected, in order. */
  function NotifyErrors(steps: seq<Step>, outcomes: seq<Outcome>, k: nat): seq<Report>
    requires |outcomes| == |steps| && k <= |steps|
  {
    if k == 0 then []
    else
      var last := if steps[k - 1].notify && outcomes[k - 1].found && !outcomes[k - 1].notified
        then [Error(Rejected(StartNotifications(steps[k - 1].c)))] else [];
      NotifyErrors(steps, outcomes, k - 1) + last
  }

  /**
   * A nested chain stores a handle iff its lookup succeeded and every earlier step
   * was complete (found, and notifying when asked); it registers a listener iff
   * the step itself was also complete with notifications; it stops at the first
   * incomplete step and logs exactly one error for it.
   */
  lemma {:induction false} ResolveNested(steps: seq<Step>, outcomes: seq<Outcome>, n: nat)
    requires |outcomes| == |steps| && n <= |steps| && DistinctSteps(steps)
    ensures forall i :: 0 <= i < n ==>
      (steps[i].c in Resolve(Nested, steps, outcomes, n).stored <==>
        outcomes[i].found && CompleteBefore(steps, outcomes, i))
    ensures forall i :: 0 <= i < n ==>
      (steps[i].c in Resolve(Nested, steps, outcomes, n).listening <==>
        steps[i].notify && Complete(steps[i], outcomes[i]) && CompleteBefore(steps, outcomes, i))
    ensures Resolve(Nested, steps, outcomes, n).halted <==> !CompleteBefore(steps, outcomes, n)
    ensures |Resolve(Nested, steps, outcomes, n).reports| == if CompleteBefore(steps, outcomes, n) then 0 else 1
  {
    if n > 0 {
      ResolveNested(steps, outcomes, n - 1);
      NestedFootprint(steps, outcomes, n - 1);
      var before, after := Resolve(Nested, steps, outcomes, n - 1), Resolve(Nested, steps, outcomes, n);
      var s, o := steps[n - 1], outcomes[n - 1];
      assert after == Advance(Nested, before, s, o);
      forall i | 0 <= i < n - 1
        ensures (steps[i].c in after.stored <==> steps[i].c in before.stored)
        ensures (steps[i].c in after.listening <==> steps[i].c in before.listening)
      {
        assert steps[i].c != s.c;
      }
      assert s.c !in before.stored;
      assert CompleteBefore(steps, outcomes, n - 1) <==> !before.halted;
    }
    NestedHalts(steps, outcomes, n);
  }

  /** A nested chain has stopped iff some step so far was incomplete, and then it logged exactly one error. */
  lemma {:induction false} NestedHalts(steps: seq<Step>, outcomes: seq<Outcome>, n: nat)
    requires |outcomes| == |steps| && n <= |steps|
    ensures Resolve(Nested, steps, outcomes, n).halted <==> !CompleteBefore(steps, outcomes, n)
    ensures |Resolve(Nested, steps, outcomes, n).reports| == if CompleteBefore(steps, outcomes, n) then 0 else 1
  {
    if n > 0 {
      NestedHalts(steps, outcomes, n - 1);
      var before := Resolve(Nested, steps, outcomes, n - 1);
      assert Resolve(Nested, steps, outcomes, n) == Advance(Nested, before, steps[n - 1], outcomes[n - 1]);
      assert CompleteBefore(steps, outcomes, n) <==>
        CompleteBefore(steps, outcomes, n - 1) && Complete(steps[n - 1], outcomes[n - 1]);
    }
  }

  /**
   * The lookup phase of independent lookups: every step issues its
   * `getCharacteristic`, in order, none stops the others, each found handle is
   * stored, each rejection is logged in order, and no listener is registered yet.
   */
  lemma {:induction false} LookupPhase(steps: seq<Step>, outcomes: seq<Outcome>, n: nat)
    requires |outcomes| == |steps| && n <= |steps|
    ensures var l := Lookups(Independent, steps, outcomes, n);
      && !l.halted && l.listening == {}
      && l.calls == LookupCalls(steps, n)
      && l.reports == LookupErrors(steps, outcomes, n)
      && (forall i :: 0 <= i < n && outcomes[i].found ==> steps[i].c in l.stored)
      && (forall c :: c in l.stored ==> exists i :: 0 <= i < n && steps[i].c == c && outcomes[i].found)
  {
    if n > 0 {
      LookupPhase(steps, outcomes, n - 1);
      var before := Lookups(Independent, steps, outcomes, n - 1);
      assert Lookups(Independent, steps, outcomes, n) == Found(before, steps[n - 1], outcomes[n - 1]);
    }
  }

  /**
   * The notification phase after any `r`: the handles and the halt flag are
   * untouched, the `startNotifications` calls and their rejections follow in
   * the order of the lookups, and a listener is added exactly for the steps
   * whose notifications started.
   */
  lemma {:induction false} NotifyPhase(r: Resolution, steps: seq<Step>, outcomes: seq<Outcome>, k: nat)
    requires |outcomes| == |steps| && k <= |steps|
    ensures var m := Notifications(r, steps, outcomes, k);
      && m.stored == r.stored && m.halted == r.halted
      && m.calls == r.calls + NotifyCalls(steps, outcomes, k)
      && m.reports == r.reports + NotifyErrors(steps, outcomes, k)
      && (forall i :: 0 <= i < k && Notifies(steps[i], outcomes[i]) ==> steps[i].c in m.listening)
      && (forall c :: c in m.listening ==>
            c in r.listening || exists i :: 0 <= i < k && steps[i].c == c && Notifies(steps[i], outcomes[i]))
  {
    if k > 0 {
      NotifyPhase(r, steps, outcomes, k - 1);
      var before := Notifications(r, steps, outcomes, k - 1);
      assert Notifications(r, steps, outcomes, k) == Notified(before, steps[k - 1], outcomes[k - 1]);
      Associative(r.calls, NotifyCalls(steps, outcomes, k - 1),
        if steps[k - 1].notify && outcomes[k - 1].found then [StartNotifications(steps[k - 1].c)] else []);
      Associative(r.reports, NotifyErrors(steps, outcomes, k - 1),
        if steps[k - 1].notify && outcomes[k - 1].found && !outcomes[k - 1].notified
        then [Error(Rejected(StartNotifications(steps[k - 1].c)))] else []);
    }
  }

  lemma Associative<T>(a: seq<T>, b: seq<T>, c: seq<T>)
    ensures a + b + c == a + (b + c)
  {
  }

  /** Every incomplete step is either a rejected lookup or a rejected notification, never both. */
  lemma {:induction false} ErrorCount(steps: seq<Step>, outcomes: seq<Outcome>, n: nat)
    requires |outcomes| == |steps| && n <= |steps|
    ensures |LookupErrors(steps, outcomes, n)| + |NotifyErrors(steps, outcomes, n)| == Failures(steps, outcomes, n)
  {
    if n > 0 {
      ErrorCount(steps, outcomes, n - 1);
    }
  }

  /**
   * Independent lookups: a handle is stored iff its own lookup succeeded, even
   * when its notifications then fail; a listener is registered iff notifications
   * started; nothing stops. Every `getCharacteristic` is called, in order, before
   * the `startNotifications` calls, and the rejected lookups are logged before the
   * rejected notifications, one error per incomplete step.
   */
  lemma ResolveIndependent(steps: seq<Step>, outcomes: seq<Outcome>, n: nat)
    requires |outcomes| == |steps| && n <= |steps| && DistinctSteps(steps)
    ensures forall i :: 0 <= i < n ==>
      (steps[i].c in Resolve(Independent, steps, outcomes, n).stored <==> outcomes[i].found)
    ensures forall i :: 0 <= i < n ==>
      (steps[i].c in Resolve(Independent, steps, outcomes, n).listening <==> Notifies(steps[i], outcomes[i]))
    ensures !Resolve(Independent, steps, outcomes, n).halted
    ensures Resolve(Independent, steps, outcomes, n).calls == LookupCalls(steps, n) + NotifyCalls(steps, outcomes, n)
    ensures Resolve(Independent, steps, outcomes, n).reports ==
      LookupErrors(steps, outcomes, n) + NotifyErrors(steps, outcomes, n)
    ensures |Resolve(Independent, steps, outcomes, n).reports| == Failures(steps, outcomes, n)
  {
    LookupPhase(steps, outcomes, n);
    NotifyPhase(Lookups(Independent, steps, outcomes, n), steps, outcomes, n);
    ErrorCount(steps, outcomes, n);
  }

  /** Independent lookups never stop, and each incomplete step logs one error. */
  lemma IndependentCounts(steps: seq<Step>, outcomes: seq<Outcome>, n: nat)
    requires |outcomes| == |steps| && n <= |steps|
    ensures !Resolve(Independent, steps, outcomes, n).halted
    ensures |Resolve(Independent, steps, outcomes, n).reports| == Failures(steps, outcomes, n)
  {
    LookupPhase(steps, outcomes, n);
    NotifyPhase(Lookups(Independent, steps, outcomes, n), steps, outcomes, n);
    ErrorCount(steps, outcomes, n);
  }

  /** In a nested chain only found handles are stored, and a listener only on a stored handle. */
  lemma {:induction false} NestedFootprint(steps: seq<Step>, outcomes: seq<Outcome>, n: nat)
    requires |outcomes| == |steps| && n <= |steps|
    ensures forall c :: c in Resolve(Nested, steps, outcomes, n).stored ==>
      exists i :: 0 <= i < n && steps[i].c == c && outcomes[i].found
    ensures Resolve(Nested, steps, outcomes, n).listening <= Resolve(Nested, steps, outcomes, n).stored
  {
    if n > 0 {
      NestedFootprint(steps, outcomes, n - 1);
      var before := Resolve(Nested, steps, outcomes, n - 1);
      assert Resolve(Nested, steps, outcomes, n) == Advance(Nested, before, steps[n - 1], outcomes[n - 1]);
    }
  }

  /**
   * In either shape only looked-up characteristics whose lookup succeeded are
   * stored, and a listener is only registered on a stored handle.
   */
  lemma ResolveFootprint(shape: Shape, steps: seq<Step>, outcomes: seq<Outcome>, n: nat)
    requires |outcomes| == |steps| && n <= |steps|
    ensures forall c :: c in Resolve(shape, steps, outcomes, n).stored ==>
      exists i :: 0 <= i < n && steps[i].c == c && outcomes[i].found
    ensures Resolve(shape, steps, outcomes, n).listening <= Resolve(shape, steps, outcomes, n).stored
  {
    if shape == Nested {
      NestedFootprint(steps, outcomes, n);
    } else {
      LookupPhase(steps, outcomes, n);
      NotifyPhase(Lookups(Independent, steps, outcomes, n), steps, outcomes, n);
    }
  }

  /**
   * A nested chain only calls `getCharacteristic` and `startNotifications`,
   * starts notifications right after the lookup of the same characteristic,
   * and logs only errors.
   */
  lemma {:induction false} NestedCallOrder(steps: seq<Step>, outcomes: seq<Outcome>, n: nat)
    requires |outcomes| == |steps| && n <= |steps|
    ensures forall j :: 0 <= j < |Resolve(Nested, steps, outcomes, n).calls| ==>
      Resolve(Nested, steps, outcomes, n).calls[j].GetCharacteristic? ||
      Resolve(Nested, steps, outcomes, n).calls[j].StartNotifications?
    ensures forall j :: (0 <= j < |Resolve(Nested, steps, outcomes, n).calls| &&
                         Resolve(Nested, steps, outcomes, n).calls[j].StartNotifications?) ==>
      0 < j && Resolve(Nested, steps, outcomes, n).calls[j - 1] ==
        GetCharacteristic(Resolve(Nested, steps, outcomes, n).calls[j].c)
    ensures forall k :: 0 <= k < |Resolve(Nested, steps, outcomes, n).reports| ==>
      Resolve(Nested, steps, outcomes, n).reports[k].Error?
  {
    if n > 0 {
      NestedCallOrder(steps, outcomes, n - 1);
      var before := Resolve(Nested, steps, outcomes, n - 1);
      assert Resolve(Nested, steps, outcomes, n) == Advance(Nested, before, steps[n - 1], outcomes[n - 1]);
    }
  }

  // ---------------------------------------------------------------- the session

  /** The globals of a page: the chosen device, its link, the stored handles, and the log. */
  class Session {
    var hasDevice: bool
    var connected: bool
    var handles: set<Characteristic>
    var listening: set<Characteristic>
    var log: seq<Report>
    var calls: seq<Call>

    /** A freshly loaded page: no device, no handles, empty log. */
    constructor ()
      ensures !hasDevice && !connected && handles == {} && listening == {}
      ensures log == [] && calls == []
    {
      hasDevice := false;
      connected := false;
      handles := {};
      listening := {};
      log := [];
      calls := [];
    }

    /** The link and handle state is as given. */
    predicate Link(h: bool, cn: bool, hs: set<Characteristic>, ls: set<Characteristic>)
      reads this
    {
      hasDevice == h && connected == cn && handles == hs && listening == ls
    }

    /** The guard chain of an operation on `c`, read off the current state. */
    function Checks(c: Characteristic): seq<(bool, Failure)>
      reads this
    {
      GuardChecks(hasDevice, connected, c in handles, c)
    }

    /** What stops an operation on `c`, if anything. */
    function Blocker(c: Characteristic): Option<Failure>
      reads this
    {
      FirstFailure(Checks(c))
    }

    /** Runs the guard chain; logs the first failure, and changes nothing else. */
    method Guard(c: Characteristic, plain: bool) returns (pass: bool)
      modifies this
      ensures pass <==> old(Blocker(c)).None?
      ensures log == if pass then old(log) else old(log) + [Complaint(old(Blocker(c)).value, plain)]
      ensures Link(old(hasDevice), old(connected), old(handles), old(listening)) && calls == old(calls)
    {
      var blocker := Blocker(c);
      if blocker.Some? {
        log := log + [Complaint(blocker.value, plain)];
        return false;
      }
      pass := true;
    }

    /** `characteristic.writeValue(payload)`: OK when it resolves, the error when it rejects. */
    method Send(c: Characteristic, payload: seq<Byte>, accepted: bool)
      modifies this
      ensures calls == old(calls) + [WriteValue(c, payload)]
      ensures log == old(log) + [if accepted then Success else Error(Rejected(WriteValue(c, payload)))]
      ensures Link(old(hasDevice), old(connected), old(handles), old(listening))
    {
      calls := calls + [WriteValue(c, payload)];
      log := log + [if accepted then Success else Error(Rejected(WriteValue(c, payload)))];
    }

    /** `characteristic.readValue()`: the value when it resolves; the error is logged when it rejects. */
    method Fetch(c: Characteristic, reply: Option<seq<Byte>>) returns (value: Option<seq<Byte>>)
      modifies this
      ensures value == reply
      ensures calls == old(calls) + [ReadValue(c)]
      ensures log == old(log) + if reply.None? then [Error(Rejected(ReadValue(c)))] else []
      ensures Link(old(hasDevice), old(connected), old(handles), old(listening))
    {
      calls := calls + [ReadValue(c)];
      if reply.None? {
        log := log + [Error(Rejected(ReadValue(c)))];
      }
      value := reply;
    }

    /** Appends one entry to the log. */
    method Note(r: Report)
      modifies this
      ensures log == old(log) + [r]
      ensures Link(old(hasDevice), old(connected), old(handles), old(listening)) && calls == old(calls)
    {
      log := log + [r];
    }

    /**
     * The start of every `connect`: the optional `navigator.bluetooth` check, the
     * device chooser and the GATT connection, each failure logged once and ending
     * the attempt. The chosen device is kept even when the connection fails.
     */
    method Open(checksBluetooth: bool, bluetoothAvailable: bool, chosen: bool, gattOk: bool) returns (open: bool)
      modifies this
      ensures open <==> !(checksBluetooth && !bluetoothAvailable) && chosen && gattOk
      ensures checksBluetooth && !bluetoothAvailable ==>
        Link(old(hasDevice), old(connected), old(handles), old(listening)) &&
        calls == old(calls) && log == old(log) + [Error(BluetoothUnavailable)]
      ensures !(checksBluetooth && !bluetoothAvailable) && !chosen ==>
        Link(old(hasDevice), old(connected), old(handles), old(listening)) &&
        calls == old(calls) + [RequestDevice] && log == old(log) + [Error(Rejected(RequestDevice))]
      ensures !(checksBluetooth && !bluetoothAvailable) && chosen ==>
        Link(true, gattOk, old(handles), old(listening)) && calls == old(calls) + [RequestDevice, GattConnect] &&
        log == old(log) + if gattOk then [] else [Error(Rejected(GattConnect))]
    {
      if checksBluetooth && !bluetoothAvailable {
        log := log + [Error(BluetoothUnavailable)];
        return false;
      }
      calls := calls + [RequestDevice];
      if !chosen {
        log := log + [Error(Rejected(RequestDevice))];
        return false;
      }
      hasDevice := true;
      calls := calls + [GattConnect];
      connected := gattOk;
      if !gattOk {
        log := log + [Error(Rejected(GattConnect))];
      }
      open := gattOk;
    }

    /** A transport call whose rejection is logged once and ends the chain it belongs to. */
    method Request(call: Call, resolved: bool) returns (ok: bool)
      modifies this
      ensures ok == resolved
      ensures calls == old(calls) + [call]
      ensures log == old(log) + if resolved then [] else [Error(Rejected(call))]
      ensures Link(old(hasDevice), old(connected), old(handles), old(listening))
    {
      calls := calls + [call];
      if !resolved {
        log := log + [Error(Rejected(call))];
      }
      ok := resolved;
    }

    /**
     * `connect` of the service pages: `Open`, then the primary service, then the
     * characteristic lookups in `steps`, in the given shape.
     */
    method Connect(shape: Shape, checksBluetooth: bool, bluetoothAvailable: bool, chosen: bool,
                   gattOk: bool, serviceOk: bool, steps: seq<Step>, outcomes: seq<Outcome>)
      requires |outcomes| == |steps|
      modifies this
      ensures checksBluetooth && !bluetoothAvailable ==>
        Link(old(hasDevice), old(connected), old(handles), old(listening)) &&
        calls == old(calls) && log == old(log) + [Error(BluetoothUnavailable)]
      ensures !(checksBluetooth && !bluetoothAvailable) && !chosen ==>
        Link(old(hasDevice), old(connected), old(handles), old(listening)) &&
        calls == old(calls) + [RequestDevice] && log == old(log) + [Error(Rejected(RequestDevice))]
      ensures !(checksBluetooth && !bluetoothAvailable) && chosen && !gattOk ==>
        Link(true, false, old(handles), old(listening)) &&
        calls == old(calls) + [RequestDevice, GattConnect] && log == old(log) + [Error(Rejected(GattConnect))]
      ensures !(checksBluetooth && !bluetoothAvailable) && chosen && gattOk && !serviceOk ==>
        Link(true, true, old(handles), old(listening)) &&
        calls == old(calls) + [RequestDevice, GattConnect, GetPrimaryService] &&
        log == old(log) + [Error(Rejected(GetPrimaryService))]
      ensures !(checksBluetooth && !bluetoothAvailable) && chosen && gattOk && serviceOk ==>
        var r := Resolve(shape, steps, outcomes, |steps|);
        Link(true, true, old(handles) + r.stored, (old(listening) - r.stored) + r.listening) &&
        calls == old(calls) + [RequestDevice, GattConnect, GetPrimaryService] + r.calls &&
        log == old(log) + r.reports
    {
      var open := Open(checksBluetooth, bluetoothAvailable, chosen, gattOk);
      if !open {
        return;
      }
      var found := Request(GetPrimaryService, serviceOk);
      if !found {
        return;
      }
      ResolveCharacteristics(shape, steps, outcomes);
    }

    /** The handles, listeners, calls and log are those before the lookups, updated by `r`. */
    ghost predicate Reflects(handles0: set<Characteristic>, listening0: set<Characteristic>,
                             calls0: seq<Call>, log0: seq<Report>, r: Resolution)
      reads this
    {
      handles == handles0 + r.stored && listening == (listening0 - r.stored) + r.listening &&
      calls == calls0 + r.calls && log == log0 + r.reports
    }

    /**
     * The characteristic lookups of `connect`, once the service is found: the
     * lookups in order and, for independent lookups, then the notifications.
     */
    method ResolveCharacteristics(shape: Shape, steps: seq<Step>, outcomes: seq<Outcome>)
      requires |outcomes| == |steps|
      modifies this
      ensures hasDevice == old(hasDevice) && connected == old(connected)
      ensures Reflects(old(handles), old(listening), old(calls), old(log), Resolve(shape, steps, outcomes, |steps|))
    {
      var halted := false;
      var i := 0;
      while i < |steps|
        invariant 0 <= i <= |steps|
        invariant halted == Lookups(shape, steps, outcomes, i).halted
        invariant hasDevice == old(hasDevice) && connected == old(connected)
        invariant Reflects(old(handles), old(listening), old(calls), old(log), Lookups(shape, steps, outcomes, i))
      {
        if !halted {
          halted := Lookup(shape, steps[i], outcomes[i], old(handles), old(listening), old(calls), old(log),
                           Lookups(shape, steps, outcomes, i));
        }
        i := i + 1;
      }
      if shape == Independent {
        ghost var looked := Lookups(Independent, steps, outcomes, |steps|);
        var k := 0;
        while k < |steps|
          invariant 0 <= k <= |steps|
          invariant hasDevice == old(hasDevice) && connected == old(connected)
          invariant Reflects(old(handles), old(listening), old(calls), old(log), Notifications(looked, steps, outcomes, k))
        {
          Notify(steps[k], outcomes[k], old(handles), old(listening), old(calls), old(log),
                 Notifications(looked, steps, outcomes, k));
          k := k + 1;
        }
      }
    }

    /** One lookup as the service handler starts it, as `Advance` describes it. */
    method Lookup(shape: Shape, step: Step, outcome: Outcome, ghost handles0: set<Characteristic>,
                  ghost listening0: set<Characteristic>, ghost calls0: seq<Call>, ghost log0: seq<Report>,
                  ghost r: Resolution) returns (halted: bool)
      requires !r.halted && Reflects(handles0, listening0, calls0, log0, r)
      modifies this
      ensures hasDevice == old(hasDevice) && connected == old(connected)
      ensures halted == Advance(shape, r, step, outcome).halted
      ensures Reflects(handles0, listening0, calls0, log0, Advance(shape, r, step, outcome))
    {
      calls := calls + [GetCharacteristic(step.c)];
      if !outcome.found {
        log := log + [Error(Rejected(GetCharacteristic(step.c)))];
      } else {
        handles := handles + {step.c};
        listening := listening - {step.c};
      }
      if shape == Nested {
        Notify(step, outcome, handles0, listening0, calls0, log0, Found(r, step, outcome));
        halted := !Complete(step, outcome);
      } else {
        halted := false;
      }
    }

    /** `startNotifications` on a found handle whose step asks for it, as `Notified` describes it. */
    method Notify(step: Step, outcome: Outcome, ghost handles0: set<Characteristic>,
                  ghost listening0: set<Characteristic>, ghost calls0: seq<Call>, ghost log0: seq<Report>,
                  ghost r: Resolution)
      requires Reflects(handles0, listening0, calls0, log0, r)
      modifies this
      ensures hasDevice == old(hasDevice) && connected == old(connected)
      ensures Reflects(handles0, listening0, calls0, log0, Notified(r, step, outcome))
    {
      if step.notify && outcome.found {
        calls := calls + [StartNotifications(step.c)];
        if outcome.notified {
          listening := listening + {step.c};
        } else {
          log := log + [Error(Rejected(StartNotifications(step.c)))];
        }
      }
    }

    /**
     * `disconnect` of the magnetometer page and of the LED page: with no device or
     * no link it logs "There is no device connected." and changes nothing;
     * otherwise it calls `gatt.disconnect()` and logs OK if the device then
     * reports itself disconnected (`disconnected`).
     */
    method DisconnectConfirmed(disconnected: bool)
      modifies this
      ensures !old(hasDevice) ==> (Link(old(hasDevice), old(connected), old(handles), old(listening)) &&
        calls == old(calls) && log == old(log) + [Error(NoDevice)])
      ensures old(hasDevice) && !old(connected) ==> (Link(old(hasDevice), old(connected), old(handles), old(listening)) &&
        calls == old(calls) && log == old(log) + [Error(NotConnected)])
      ensures old(hasDevice) && old(connected) ==> (Link(true, !disconnected, old(handles), old(listening)) &&
        calls == old(calls) + [GattDisconnect] && log == old(log) + if disconnected then [Success] else [])
    {
      if !hasDevice {
        log := log + [Error(NoDevice)];
      } else if connected {
        calls := calls + [GattDisconnect];
        connected := !disconnected;
        if !connected {
          log := log + [Success];
        }
      } else {
        log := log + [Error(NotConnected)];
      }
    }

    /**
     * `disconnect` of the accelerometer, scan and standalone LED pages: with no
     * device or no link it logs "There is no device connected." through `addLog`
     * and changes nothing; otherwise it logs "Disconnecting..." and disconnects.
     */
    method DisconnectAnnounced()
      modifies this
      ensures !old(hasDevice) ==> (Link(old(hasDevice), old(connected), old(handles), old(listening)) &&
        calls == old(calls) && log == old(log) + [Plain(NoDevice)])
      ensures old(hasDevice) && !old(connected) ==> (Link(old(hasDevice), old(connected), old(handles), old(listening)) &&
        calls == old(calls) && log == old(log) + [Plain(NotConnected)])
      ensures old(hasDevice) && old(connected) ==> (Link(true, false, old(handles), old(listening)) &&
        calls == old(calls) + [GattDisconnect] && log == old(log) + [Disconnecting])
    {
      if !hasDevice {
        log := log + [Plain(NoDevice)];
      } else if connected {
        log := log + [Disconnecting];
        calls := calls + [GattDisconnect];
        connected := false;
      } else {
        log := log + [Plain(NotConnected)];
      }
    }

    /** The browser drops the link (`gattserverdisconnected`); the stored handles stay. */
    method LinkLost()
      modifies this
      ensures Link(old(hasDevice), false, old(handles), old(listening))
      ensures log == old(log) && calls == old(calls)
    {
      connected := false;
    }
  }
}
