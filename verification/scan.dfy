/**
 * The scan page: it lists every primary service of the chosen device and every
 * characteristic of each, naming them from the UUID table, either line by line
 * or, with `tableFormat`, as one table emitted once the last characteristic of
 * the last service has been printed. The counters `nSer` and `nChar` decide
 * when that is; they are modelled with the services' characteristic lists
 * arriving one after another, in order.
 */
module Scan {
  import opened Text
  import opened MicrobitUuid
  import opened Gatt

  // ------------------------------------------------------------ properties

  /** A characteristic's `properties` object: each property name with its value, in enumeration order. */
  type Properties = seq<(string, bool)>

  /** The names of the properties whose value is `true`, upper-cased, in order. */
  function Supported(props: Properties): (names: seq<string>)
    ensures |names| <= |props|
  {
    if |props| == 0 then []
    else
      var last := props[|props| - 1];
      Supported(props[..|props| - 1]) + if last.1 then [ToUpper(last.0)] else []
  }

  /** `getSupportedProperties`'s result: the supported names joined by ", " inside brackets. */
  function PropertiesText(props: Properties): string
  {
    "[" + Join(Supported(props), ", ") + "]"
  }

  /** `getSupportedProperties`: collects the supported names in a loop, then joins them. */
  method GetSupportedProperties(props: Properties) returns (text: string)
    ensures text == PropertiesText(props)
  {
    var supported: seq<string> := [];
    for i := 0 to |props|
      invariant supported == Supported(props[..i])
    {
      assert props[..i + 1][..i] == props[..i];
      if props[i].1 {
        supported := supported + [ToUpper(props[i].0)];
      }
    }
    assert props[..|props|] == props;
    text := "[" + Join(supported, ", ") + "]";
  }

  /** The filter keeps the enumeration order: the properties of `a` come before those of `b`. */
  lemma {:induction false} SupportedConcat(a: Properties, b: Properties)
    ensures Supported(a + b) == Supported(a) + Supported(b)
  {
    if |b| > 0 {
      var b' := b[..|b| - 1];
      assert (a + b)[..|a + b| - 1] == a + b';
      SupportedConcat(a, b');
    } else {
      assert a + b == a;
    }
  }

  /** A name is listed iff some property with value `true` upper-cases to it. */
  lemma {:induction false} SupportedMembers(props: Properties, name: string)
    ensures name in Supported(props) <==>
      exists i :: 0 <= i < |props| && props[i].1 && ToUpper(props[i].0) == name
  {
    if |props| > 0 {
      var init := props[..|props| - 1];
      SupportedMembers(init, name);
      assert forall i :: 0 <= i < |init| ==> init[i] == props[i];
      if name in Supported(props) && name !in Supported(init) {
        assert props[|props| - 1].1 && ToUpper(props[|props| - 1].0) == name;
      }
    }
  }

  /** With no property set to `true`, the result is "[]". */
  lemma {:induction false} NoneSupported(props: Properties)
    requires forall i :: 0 <= i < |props| ==> !props[i].1
    ensures Supported(props) == []
    ensures PropertiesText(props) == "[]"
  {
    if |props| > 0 {
      NoneSupported(props[..|props| - 1]);
    }
  }

  /** The upper-cased names of the examples below. */
  lemma UpperNames()
    ensures ToUpper("read") == "READ" && ToUpper("notify") == "NOTIFY"
  {
    assert ToUpper("read") == "READ";
    assert ToUpper("notify") == "NOTIFY";
  }

  /** A property whose value is `false` is left out: `read` alone is listed as "[READ]". */
  lemma OnePropertyExample()
    ensures PropertiesText([("read", true), ("write", false)]) == "[READ]"
  {
    UpperNames();
    assert [("read", true), ("write", false)][..1] == [("read", true)];
  }

  /** Two supported properties are joined by ", " in enumeration order. */
  lemma TwoPropertiesExample()
    ensures PropertiesText([("read", true), ("notify", true)]) == "[READ, NOTIFY]"
  {
    UpperNames();
    var props := [("read", true), ("notify", true)];
    assert props[..1] == [("read", true)];
    assert Supported(props) == ["READ", "NOTIFY"];
  }

  // ------------------------------------------------------------ rows and counters

  /** `nSer` and `nChar`, which start as `Infinity`; `Infinity--` is still `Infinity`. */
  datatype Count = Infinite | Finite(n: int)

  function Decrement(c: Count): (d: Count)
    ensures d.Infinite? <==> c.Infinite?
    ensures c.Finite? ==> d.n == c.n - 1
  {
    match c
    case Infinite => Infinite
    case Finite(n) => Finite(n - 1)
  }

  /**
   * One table row or log line, without the HTML: what it is printed from. The
   * row shows `Name(row)` beside the UUID and, for a characteristic,
   * `PropertiesShown(row)`.
   */
  datatype Row =
    | ServiceRow(uuid: string)
    | CharacteristicRow(uuid: string, properties: Properties)

  /** The name a row shows: `searchUuid` with the service flag for a service row, without it otherwise. */
  function Name(row: Row): (name: Lookup)
    ensures name.Found? <==> Listed(MicrobitUuid.Table, row.uuid)
    ensures !name.Found? ==> (name == UnknownService <==> row.ServiceRow?)
  {
    SearchUuid(row.uuid, row.ServiceRow?)
  }

  /** The properties column of a characteristic row: `getSupportedProperties` of its properties. */
  function PropertiesShown(row: Row): (text: string)
    requires row.CharacteristicRow?
    ensures |text| >= 2 && text[0] == '[' && text[|text| - 1] == ']'
  {
    PropertiesText(row.properties)
  }

  /** What the page shows: a row as a log line, the whole table, or a rejected characteristic fetch. */
  datatype Output = Line(row: Row) | Table(rows: seq<Row>) | FetchFailed(uuid: string)

  /** A characteristic as `getCharacteristics` delivers it. */
  datatype CharacteristicInfo = CharacteristicInfo(uuid: string, properties: Properties)

  /** A primary service, with its characteristics or `None` when `getCharacteristics` rejected. */
  datatype ServiceInfo = ServiceInfo(uuid: string, characteristics: Option<seq<CharacteristicInfo>>)

  /** `printService`'s row. */
  function ServiceRowOf(s: ServiceInfo): Row
  {
    ServiceRow(s.uuid)
  }

  /** `printCharacteristic`'s row. */
  function CharacteristicRowOf(c: CharacteristicInfo): Row
  {
    CharacteristicRow(c.uuid, c.properties)
  }

  /** The counters, the pending table and what has been shown. */
  datatype Survey = Survey(nSer: Count, nChar: Count, table: seq<Row>, out: seq<Output>)

  /** Printing a row: appended to `stringTable` in table format, logged as a line otherwise. */
  function Print(tableFormat: bool, st: Survey, row: Row): Survey
  {
    if tableFormat then st.(table := st.table + [row]) else st.(out := st.out + [Line(row)])
  }

  /**
   * One characteristic of the `forEach`: print it, decrement `nChar`, and when
   * both counters are 0 in table format, emit the table and empty `stringTable`.
   */
  function AfterCharacteristic(tableFormat: bool, st: Survey, c: CharacteristicInfo): Survey
  {
    var printed := Print(tableFormat, st, CharacteristicRowOf(c)).(nChar := Decrement(st.nChar));
    if printed.nSer == Finite(0) && printed.nChar == Finite(0) && tableFormat then
      printed.(out := printed.out + [Table(printed.table)], table := [])
    else printed
  }

  /** The first `k` characteristics of one service. */
  function AfterCharacteristics(tableFormat: bool, st: Survey, chars: seq<CharacteristicInfo>, k: nat): Survey
    requires k <= |chars|
  {
    if k == 0 then st
    else AfterCharacteristic(tableFormat, AfterCharacteristics(tableFormat, st, chars, k - 1), chars[k - 1])
  }

  /**
   * One service's characteristic list arriving: `nChar` becomes its length, the
   * service is printed, `nSer` is decremented, then each characteristic follows.
   * A rejected fetch is logged and touches no counter.
   */
  function AfterService(tableFormat: bool, st: Survey, s: ServiceInfo): Survey
  {
    match s.characteristics
    case None => st.(out := st.out + [FetchFailed(s.uuid)])
    case Some(chars) =>
      var begun := Print(tableFormat, st.(nChar := Finite(|chars|)), ServiceRowOf(s)).(nSer := Decrement(st.nSer));
      AfterCharacteristics(tableFormat, begun, chars, |chars|)
  }

  /** The first `n` services, one after another. */
  function AfterServices(tableFormat: bool, st: Survey, services: seq<ServiceInfo>, n: nat): Survey
    requires n <= |services|
  {
    if n == 0 then st
    else AfterService(tableFormat, AfterServices(tableFormat, st, services, n - 1), services[n - 1])
  }

  // ------------------------------------------------------------ what the survey shows

  /** The rows of the first `k` characteristics. */
  function CharacteristicRows(chars: seq<CharacteristicInfo>, k: nat): (rows: seq<Row>)
    requires k <= |chars|
    ensures |rows| == k
    ensures forall j :: 0 <= j < k ==> rows[j] == CharacteristicRowOf(chars[j])
  {
    if k == 0 then [] else CharacteristicRows(chars, k - 1) + [CharacteristicRowOf(chars[k - 1])]
  }

  /** The rows one service contributes: its own row followed by its characteristics', or none when its fetch failed. */
  function ServiceRows(s: ServiceInfo): seq<Row>
  {
    match s.characteristics
    case None => []
    case Some(chars) => [ServiceRowOf(s)] + CharacteristicRows(chars, |chars|)
  }

  /** The rows of the first `n` services, in order. */
  function Rows(services: seq<ServiceInfo>, n: nat): seq<Row>
    requires n <= |services|
  {
    if n == 0 then [] else Rows(services, n - 1) + ServiceRows(services[n - 1])
  }

  /** The failure entries of the first `n` services. */
  function Failed(services: seq<ServiceInfo>, n: nat): seq<Output>
    requires n <= |services|
  {
    if n == 0 then []
    else Failed(services, n - 1) + if services[n - 1].characteristics.None? then [FetchFailed(services[n - 1].uuid)] else []
  }

  /** How many of the first `n` services had their characteristics fetched. */
  function Fetched(services: seq<ServiceInfo>, n: nat): (count: nat)
    requires n <= |services|
    ensures count <= n
  {
    if n == 0 then 0 else Fetched(services, n - 1) + if services[n - 1].characteristics.Some? then 1 else 0
  }

  /** The table is due: there are services, every fetch succeeded, and the last service has a characteristic. */
  predicate Emits(services: seq<ServiceInfo>)
  {
    |services| > 0 && Fetched(services, |services|) == |services| &&
    services[|services| - 1].characteristics.Some? && |services[|services| - 1].characteristics.value| > 0
  }

  /**
   * Within one service in table format: `nChar` counts down from the list's
   * length, `nSer` is untouched, and the rows pile up in the table, until the
   * last characteristic when `nSer` is already 0: then the table is emitted
   * with everything gathered and `stringTable` is emptied.
   */
  lemma {:induction false} CharacteristicsTable(st: Survey, chars: seq<CharacteristicInfo>, k: nat)
    requires k <= |chars| && st.nChar == Finite(|chars|) && st.nSer.Finite? && st.nSer.n >= 0
    ensures AfterCharacteristics(true, st, chars, k).nSer == st.nSer
    ensures AfterCharacteristics(true, st, chars, k).nChar == Finite(|chars| - k)
    ensures st.nSer.n == 0 && k == |chars| && k > 0 ==>
      AfterCharacteristics(true, st, chars, k).table == [] &&
      AfterCharacteristics(true, st, chars, k).out == st.out + [Table(st.table + CharacteristicRows(chars, k))]
    ensures !(st.nSer.n == 0 && k == |chars| && k > 0) ==>
      AfterCharacteristics(true, st, chars, k).table == st.table + CharacteristicRows(chars, k) &&
      AfterCharacteristics(true, st, chars, k).out == st.out
  {
    if k > 0 {
      CharacteristicsTable(st, chars, k - 1);
      var before := AfterCharacteristics(true, st, chars, k - 1);
      var printed := Print(true, before, CharacteristicRowOf(chars[k - 1])).(nChar := Decrement(before.nChar));
      assert AfterCharacteristics(true, st, chars, k) == AfterCharacteristic(true, before, chars[k - 1]);
      assert printed.table == st.table + CharacteristicRows(chars, k);
      assert printed.nChar == Finite(|chars| - k);
      assert printed.nSer == st.nSer && printed.out == st.out;
    }
  }

  /**
   * One service in table format while `nSer` is at least 1: a rejected fetch
   * only adds its failure entry; a fetched list decrements `nSer` and adds the
   * service's rows to the table, and emits the table when `nSer` reaches 0 and
   * the list is not empty.
   */
  lemma ServiceTable(st: Survey, s: ServiceInfo)
    requires st.nSer.Finite? && st.nSer.n >= 1
    ensures s.characteristics.None? ==> AfterService(true, st, s) == st.(out := st.out + [FetchFailed(s.uuid)])
    ensures s.characteristics.Some? ==> AfterService(true, st, s).nSer == Finite(st.nSer.n - 1)
    ensures s.characteristics.Some? && st.nSer.n == 1 && |s.characteristics.value| > 0 ==>
      AfterService(true, st, s).table == [] &&
      AfterService(true, st, s).out == st.out + [Table(st.table + ServiceRows(s))]
    ensures s.characteristics.Some? && !(st.nSer.n == 1 && |s.characteristics.value| > 0) ==>
      AfterService(true, st, s).table == st.table + ServiceRows(s) &&
      AfterService(true, st, s).out == st.out
  {
    if s.characteristics.Some? {
      var chars := s.characteristics.value;
      var begun := Print(true, st.(nChar := Finite(|chars|)), ServiceRowOf(s)).(nSer := Decrement(st.nSer));
      CharacteristicsTable(begun, chars, |chars|);
      assert begun.table + CharacteristicRows(chars, |chars|) == st.table + ServiceRows(s);
    }
  }

  /**
   * Services one after another in table format: `nSer` counts the fetched lists
   * down from the number of services; until the table is due every row piles up
   * in `stringTable` and only rejected fetches are shown; once it is due the
   * table is emitted exactly once, with the earlier pending rows followed by all
   * rows in order, and `stringTable` is empty.
   */
  lemma {:induction false} ServicesTable(start: Survey, services: seq<ServiceInfo>, n: nat)
    requires n <= |services| && start.nSer == Finite(|services|)
    ensures AfterServices(true, start, services, n).nSer == Finite(|services| - Fetched(services, n))
    ensures n == |services| && Emits(services) ==>
      AfterServices(true, start, services, n).table == [] &&
      AfterServices(true, start, services, n).out == start.out + [Table(start.table + Rows(services, n))]
    ensures !(n == |services| && Emits(services)) ==>
      AfterServices(true, start, services, n).table == start.table + Rows(services, n) &&
      AfterServices(true, start, services, n).out == start.out + Failed(services, n)
  {
    if n > 0 {
      ServicesTable(start, services, n - 1);
      var before := AfterServices(true, start, services, n - 1);
      assert AfterServices(true, start, services, n) == AfterService(true, before, services[n - 1]);
      ServicesStep(start, services, n, before);
    }
  }

  /** The step of `ServicesTable` from `n - 1` services, whose table is not yet due, to `n`. */
  lemma ServicesStep(start: Survey, services: seq<ServiceInfo>, n: nat, before: Survey)
    requires 0 < n <= |services| && start.nSer == Finite(|services|)
    requires before.nSer == Finite(|services| - Fetched(services, n - 1))
    requires before.table == start.table + Rows(services, n - 1)
    requires before.out == start.out + Failed(services, n - 1)
    ensures AfterService(true, before, services[n - 1]).nSer == Finite(|services| - Fetched(services, n))
    ensures n == |services| && Emits(services) ==>
      AfterService(true, before, services[n - 1]).table == [] &&
      AfterService(true, before, services[n - 1]).out == start.out + [Table(start.table + Rows(services, n))]
    ensures !(n == |services| && Emits(services)) ==>
      AfterService(true, before, services[n - 1]).table == start.table + Rows(services, n) &&
      AfterService(true, before, services[n - 1]).out == start.out + Failed(services, n)
  {
    var s := services[n - 1];
    assert Rows(services, n) == Rows(services, n - 1) + ServiceRows(s);
    ServiceTable(before, s);
    if s.characteristics.None? {
      assert Fetched(services, n) < |services|;
      assert Failed(services, n) == Failed(services, n - 1) + [FetchFailed(s.uuid)];
      Associative(start.out, Failed(services, n - 1), [FetchFailed(s.uuid)]);
    } else {
      Associative(start.table, Rows(services, n - 1), ServiceRows(s));
      assert Fetched(services, n) == Fetched(services, n - 1) + 1;
      if Fetched(services, n) == |services| && |s.characteristics.value| > 0 {
        EmittingStep(start, services, n, before);
      } else {
        assert !(n == |services| && Emits(services));
        assert Failed(services, n) == Failed(services, n - 1);
      }
    }
  }

  /** The step that emits the table: the last service, every fetch succeeded, and it has a characteristic. */
  lemma EmittingStep(start: Survey, services: seq<ServiceInfo>, n: nat, before: Survey)
    requires 0 < n <= |services| && services[n - 1].characteristics.Some?
    requires |services[n - 1].characteristics.value| > 0
    requires Fetched(services, n) == Fetched(services, n - 1) + 1 == |services|
    requires before.out == start.out + Failed(services, n - 1)
    ensures n == |services| && Emits(services)
    ensures before.out == start.out
  {
    AllFetchedNoFailures(services, n - 1);
  }

  /** When every one of the first `n` lists was fetched, none failed. */
  lemma {:induction false} AllFetchedNoFailures(services: seq<ServiceInfo>, n: nat)
    requires n <= |services| && Fetched(services, n) == n
    ensures Failed(services, n) == []
  {
    if n > 0 {
      AllFetchedNoFailures(services, n - 1);
    }
  }

  /** A rejected fetch keeps `nSer` above 0 for good, so the table is never emitted. */
  lemma {:induction false} FailureBlocksTable(services: seq<ServiceInfo>, i: nat, n: nat)
    requires i < n <= |services| && services[i].characteristics.None?
    ensures Fetched(services, n) < n
  {
    if n - 1 > i {
      FailureBlocksTable(services, i, n - 1);
    }
  }

  /**
   * The whole survey in table format: the table appears exactly when it is due,
   * holds the pending rows and then every row in order, and leaves `stringTable`
   * empty; a rejected fetch means it never appears.
   */
  lemma TableEmittedOnce(start: Survey, services: seq<ServiceInfo>)
    requires start.nSer == Finite(|services|)
    ensures var r := AfterServices(true, start, services, |services|);
      && (Emits(services) ==> r.out == start.out + [Table(start.table + Rows(services, |services|))] && r.table == [])
      && (!Emits(services) ==> r.out == start.out + Failed(services, |services|) &&
                                r.table == start.table + Rows(services, |services|))
      && (r.nSer == Finite(0) <==> Fetched(services, |services|) == |services|)
    ensures forall i :: 0 <= i < |services| && services[i].characteristics.None? ==> !Emits(services)
  {
    ServicesTable(start, services, |services|);
    forall i | 0 <= i < |services| && services[i].characteristics.None?
      ensures !Emits(services)
    {
      FailureBlocksTable(services, i, |services|);
    }
  }

  /** Without table format nothing goes to `stringTable` and no table is ever emitted. */
  lemma {:induction false} LinesOnly(start: Survey, services: seq<ServiceInfo>, n: nat)
    requires n <= |services|
    ensures AfterServices(false, start, services, n).table == start.table
    ensures |AfterServices(false, start, services, n).out| >= |start.out|
    ensures AfterServices(false, start, services, n).out[..|start.out|] == start.out
    ensures forall k :: |start.out| <= k < |AfterServices(false, start, services, n).out| ==>
      !AfterServices(false, start, services, n).out[k].Table?
  {
    if n > 0 {
      LinesOnly(start, services, n - 1);
      var s := services[n - 1];
      if s.characteristics.Some? {
        var chars := s.characteristics.value;
        var before := AfterServices(false, start, services, n - 1);
        var begun := Print(false, before.(nChar := Finite(|chars|)), ServiceRowOf(s)).(nSer := Decrement(before.nSer));
        LinesOnlyCharacteristics(begun, chars, |chars|);
      }
    }
  }

  /** Without table format the characteristics of one service are only logged as lines. */
  lemma {:induction false} LinesOnlyCharacteristics(st: Survey, chars: seq<CharacteristicInfo>, k: nat)
    requires k <= |chars|
    ensures AfterCharacteristics(false, st, chars, k).table == st.table
    ensures AfterCharacteristics(false, st, chars, k).out == st.out + seq(k, j requires 0 <= j < k => Line(CharacteristicRowOf(chars[j])))
  {
    if k > 0 {
      LinesOnlyCharacteristics(st, chars, k - 1);
    }
  }

  // ------------------------------------------------------------ the page

  /** The page's globals: the output mode, the counters, the pending table and what was shown. */
  class Scanner {
    var tableFormat: bool
    var nSer: Count
    var nChar: Count
    var stringTable: seq<Row>
    var out: seq<Output>

    /** A freshly loaded page: table format, both counters `Infinity`, empty table. */
    constructor ()
      ensures tableFormat && nSer == Infinite && nChar == Infinite && stringTable == [] && out == []
    {
      tableFormat := true;
      nSer := Infinite;
      nChar := Infinite;
      stringTable := [];
      out := [];
    }

    function State(): Survey
      reads this
    {
      Survey(nSer, nChar, stringTable, out)
    }

    /** `printService`. */
    method PrintService(s: ServiceInfo)
      modifies this
      ensures tableFormat == old(tableFormat)
      ensures State() == Print(tableFormat, old(State()), ServiceRowOf(s))
    {
      var row := ServiceRow(s.uuid);
      if tableFormat {
        stringTable := stringTable + [row];
      } else {
        out := out + [Line(row)];
      }
    }

    /**
     * `printCharacteristic`: the row keeps the UUID and the properties; the
     * properties column it shows is `PropertiesShown(row)`, which is what
     * `GetSupportedProperties` computes.
     */
    method PrintCharacteristic(c: CharacteristicInfo)
      modifies this
      ensures tableFormat == old(tableFormat)
      ensures State() == Print(tableFormat, old(State()), CharacteristicRowOf(c))
    {
      var row := CharacteristicRow(c.uuid, c.properties);
      if tableFormat {
        stringTable := stringTable + [row];
      } else {
        out := out + [Line(row)];
      }
    }

    /**
     * The `services.forEach` of `connect`: `nSer` is set to the number of
     * services, then each characteristic list is handled as it arrives.
     */
    method ListServices(services: seq<ServiceInfo>)
      modifies this
      ensures tableFormat == old(tableFormat)
      ensures State() == AfterServices(tableFormat, old(State()).(nSer := Finite(|services|)), services, |services|)
    {
      nSer := Finite(|services|);
      ghost var start := State();
      for i := 0 to |services|
        invariant tableFormat == old(tableFormat)
        invariant State() == AfterServices(tableFormat, start, services, i)
      {
        var s := services[i];
        if s.characteristics.None? {
          out := out + [FetchFailed(s.uuid)];
        } else {
          var chars := s.characteristics.value;
          nChar := Finite(|chars|);
          PrintService(s);
          nSer := Decrement(nSer);
          ghost var begun := State();
          for k := 0 to |chars|
            invariant tableFormat == old(tableFormat)
            invariant State() == AfterCharacteristics(tableFormat, begun, chars, k)
          {
            PrintCharacteristic(chars[k]);
            nChar := Decrement(nChar);
            if nSer == Finite(0) && nChar == Finite(0) && tableFormat {
              out := out + [Table(stringTable)];
              stringTable := [];
            }
          }
        }
      }
    }
  }

  /**
   * `connect`: the device chooser and the GATT connection, then
   * `getPrimaryServices`, then the survey of the services. `servicesOk` says
   * whether `getPrimaryServices` resolved. Each rejection is logged once by the
   * final `catch` and ends the attempt; no characteristic handle is stored.
   */
  method Connect(session: Session, scanner: Scanner, chosen: bool, gattOk: bool, servicesOk: bool,
                 services: seq<ServiceInfo>)
    modifies session, scanner
    ensures scanner.tableFormat == old(scanner.tableFormat)
    ensures chosen && gattOk && servicesOk ==>
      scanner.State() == AfterServices(scanner.tableFormat, old(scanner.State()).(nSer := Finite(|services|)),
                                       services, |services|)
    ensures !(chosen && gattOk && servicesOk) ==> scanner.State() == old(scanner.State())
    ensures session.hasDevice == (old(session.hasDevice) || chosen)
    ensures chosen ==> session.connected == gattOk
    ensures session.handles == old(session.handles) && session.listening == old(session.listening)
    ensures !chosen ==>
      session.connected == old(session.connected) &&
      session.calls == old(session.calls) + [RequestDevice] &&
      session.log == old(session.log) + [Error(Rejected(RequestDevice))]
    ensures chosen && !gattOk ==>
      session.calls == old(session.calls) + [RequestDevice, GattConnect] &&
      session.log == old(session.log) + [Error(Rejected(GattConnect))]
    ensures chosen && gattOk ==>
      session.calls == old(session.calls) + [RequestDevice, GattConnect, GetPrimaryServices] &&
      session.log == old(session.log) + if servicesOk then [] else [Error(Rejected(GetPrimaryServices))]
  {
    var open := session.Open(false, true, chosen, gattOk);
    if !open {
      return;
    }
    var listed := session.Request(GetPrimaryServices, servicesOk);
    if !listed {
      return;
    }
    scanner.ListServices(services);
  }
}
