/**
 * The registry of micro:bit GATT services and characteristics that every
 * script carries as `microbitUuid`, and its `searchUuid` lookup.
 */
module MicrobitUuid {
  import opened Text

  /** One registry entry: a 128-bit UUID in canonical lower-case form, and its display name. */
  type Entry = (string, string)

  /** The service entries, in the object's key order (the key is given in each comment). */
  const Services: seq<Entry> := [
    ("00001800-0000-1000-8000-00805f9b34fb", "Generic Access"),  // genericAccess
    ("00001801-0000-1000-8000-00805f9b34fb", "Generic Attribute"),  // genericAttribute
    ("0000180a-0000-1000-8000-00805f9b34fb", "Device Information"),  // deviceInformation
    ("e95d0753-251d-470a-a062-fa1922dfa9a8", "Accelerometer Service"),  // accelerometerService
    ("e95df2d8-251d-470a-a062-fa1922dfa9a8", "Magnetometer Service"),  // magnetometerService
    ("e95d9882-251d-470a-a062-fa1922dfa9a8", "Button Service"),  // buttonService
    ("e95d127b-251d-470a-a062-fa1922dfa9a8", "IO Pin Service"),  // ioPinService
    ("e95dd91d-251d-470a-a062-fa1922dfa9a8", "LED Service"),  // ledService
    ("e95d93af-251d-470a-a062-fa1922dfa9a8", "Event Service"),  // eventService
    ("e95d93b0-251d-470a-a062-fa1922dfa9a8", "DFU Control Service"),  // dfuControlService
    ("e95d6100-251d-470a-a062-fa1922dfa9a8", "Temperature Service"),  // temperatureService
    ("6e400001-b5a3-f393-e0a9-e50e24dcca9e", "UART Service")  // uartService
  ]

  /** The characteristic entries, in the object's key order. */
  const Characteristics: seq<Entry> := [
    ("00002a00-0000-1000-8000-00805f9b34fb", "Device Name"),  // deviceName
    ("00002a01-0000-1000-8000-00805f9b34fb", "Appearance"),  // appearance
    ("00002a04-0000-1000-8000-00805f9b34fb", "Peripheral Preferred Connection Parameters"),  // peripheralPreferredConnectionParameters
    ("00002a05-0000-1000-8000-00805f9b34fb", "Service Changed"),  // serviceChanged
    ("00002a24-0000-1000-8000-00805f9b34fb", "Model Number String"),  // modelNumberString
    ("00002a25-0000-1000-8000-00805f9b34fb", "Serial Number String"),  // serialNumberString
    ("00002a27-0000-1000-8000-00805f9b34fb", "Hardware Revision String"),  // hardwareRevisionString
    ("00002a26-0000-1000-8000-00805f9b34fb", "Firmware Revision String"),  // firmwareRevisionString
    ("00002a29-0000-1000-8000-00805f9b34fb", "Manufacturer Name String"),  // manufacturerNameString
    ("e95dca4b-251d-470a-a062-fa1922dfa9a8", "Accelerometer Data"),  // accelerometerData
    ("e95dfb24-251d-470a-a062-fa1922dfa9a8", "Accelerometer Period"),  // accelerometerPeriod
    ("e95dfb11-251d-470a-a062-fa1922dfa9a8", "Magnetometer Data"),  // magnetometerData
    ("e95d386c-251d-470a-a062-fa1922dfa9a8", "Magnetometer Period"),  // magnetometerPeriod
    ("e95d9715-251d-470a-a062-fa1922dfa9a8", "Magnetometer Bearing"),  // magnetometerBearing
    ("e95db358-251d-470a-a062-fa1922dfa9a8", "Magnetometer Calibration"),  // magnetometerCalibration
    ("e95dda90-251d-470a-a062-fa1922dfa9a8", "Button A State"),  // buttonAState
    ("e95dda91-251d-470a-a062-fa1922dfa9a8", "Button B State"),  // buttonBState
    ("e95d8d00-251d-470a-a062-fa1922dfa9a8", "Pin Data"),  // pinData
    ("e95d5899-251d-470a-a062-fa1922dfa9a8", "Pin AD Configuration"),  // pinADConfiguration
    ("e95db9fe-251d-470a-a062-fa1922dfa9a8", "Pin IO Configuration"),  // pinIOConfiguration
    ("e95dd822-251d-470a-a062-fa1922dfa9a8", "PWM Control"),  // pwmControl
    ("e95d7b77-251d-470a-a062-fa1922dfa9a8", "LED Matrix State"),  // ledMatrixState
    ("e95d93ee-251d-470a-a062-fa1922dfa9a8", "LED Text"),  // ledText
    ("e95d0d2d-251d-470a-a062-fa1922dfa9a8", "Scrolling Delay"),  // scrollingDelay
    ("e95db84c-251d-470a-a062-fa1922dfa9a8", "MicroBit Requirements"),  // microbitRequirements
    ("e95d9775-251d-470a-a062-fa1922dfa9a8", "MicroBit Event"),  // microbitEvent
    ("e95d23c4-251d-470a-a062-fa1922dfa9a8", "Client Requirements"),  // clientRequirements
    ("e95d5404-251d-470a-a062-fa1922dfa9a8", "Client Event"),  // clientEvent
    ("e95d93b1-251d-470a-a062-fa1922dfa9a8", "DFU Control"),  // dfuControl
    ("e95d9250-251d-470a-a062-fa1922dfa9a8", "Temperature"),  // temperature
    ("e95d1b25-251d-470a-a062-fa1922dfa9a8", "Temperature Period"),  // temperaturePeriod
    ("6e400002-b5a3-f393-e0a9-e50e24dcca9e", "Tx Characteristic"),  // txCharacteristic
    ("6e400003-b5a3-f393-e0a9-e50e24dcca9e", "Rx Characteristic")  // rxCharacteristic
  ]

  /** The whole registry in `for (const key in microbitUuid)` order. */
  const Table: seq<Entry> := Services + Characteristics

  /** What a lookup reports: the display name, or which namespace lacked the UUID. */
  datatype Lookup = Found(name: string) | UnknownService | UnknownCharacteristic

  /** The "not found" answer; `isService` is the caller's service/characteristic flag. */
  function Unknown(isService: bool): Lookup
  {
    if isService then UnknownService else UnknownCharacteristic
  }

  /** Some entry of `table` has exactly this UUID. */
  predicate Listed(table: seq<Entry>, uuid: string)
  {
    exists i :: 0 <= i < |table| && table[i].0 == uuid
  }

  predicate DistinctUuids(table: seq<Entry>)
  {
    forall i, j :: 0 <= i < j < |table| ==> table[i].0 != table[j].0
  }

  /**
   * The search loop of `searchUuid` over `table`: the name of the first entry whose
   * UUID is exactly (`===`, so case-sensitively) `uuid`, otherwise the answer the
   * flag selects.
   */
  function FirstMatch(table: seq<Entry>, uuid: string, isService: bool): (r: Lookup)
    ensures r.Found? <==> Listed(table, uuid)
    ensures r.Found? ==>
      exists i :: 0 <= i < |table| && table[i].0 == uuid && r.name == table[i].1 &&
        forall j :: 0 <= j < i ==> table[j].0 != uuid
    ensures !r.Found? ==> r == Unknown(isService)
  {
    if table == [] then Unknown(isService)
    else if table[0].0 == uuid then Found(table[0].1)
    else
      var r := FirstMatch(table[1..], uuid, isService);
      assert forall i :: 1 <= i < |table| ==> table[i] == table[1..][i - 1];
      r
  }

  /** `microbitUuid.searchUuid(uuid, serviceOrCharacteristic)`, without the HTML colouring. */
  function SearchUuid(uuid: string, isService: bool): Lookup
  {
    FirstMatch(Table, uuid, isService)
  }

  /** In a table without repeated UUIDs, looking up an entry's UUID yields that entry's name. */
  lemma LookupOwnEntry(table: seq<Entry>, i: nat, isService: bool)
    requires DistinctUuids(table) && i < |table|
    ensures FirstMatch(table, table[i].0, isService) == Found(table[i].1)
  {
    var r := FirstMatch(table, table[i].0, isService);
    var k :| 0 <= k < |table| && table[k].0 == table[i].0 && r.name == table[k].1;
    assert k == i;
  }

  // Pairwise distinctness of the 45 UUIDs, proved section by section.

  lemma ServicesDistinct()
    ensures DistinctUuids(Services)
  {
  }

  lemma CharacteristicsFirstHalfDistinct()
    ensures forall i, j :: 0 <= i < j < 16 ==> Characteristics[i].0 != Characteristics[j].0
  {
  }

  lemma CharacteristicsSecondHalfDistinct()
    ensures forall i, j :: 16 <= i < j < |Characteristics| ==> Characteristics[i].0 != Characteristics[j].0
  {
  }

  lemma CharacteristicsHalvesDisjoint()
    ensures forall i, j :: 0 <= i < 16 <= j < |Characteristics| ==> Characteristics[i].0 != Characteristics[j].0
  {
  }

  lemma SectionsDisjoint()
    ensures forall i, j :: 0 <= i < |Services| && 0 <= j < |Characteristics| ==> Services[i].0 != Characteristics[j].0
  {
  }

  /** No two registry entries share a UUID. */
  lemma TableDistinct()
    ensures |Table| == 45 && DistinctUuids(Table)
  {
    ServicesDistinct();
    CharacteristicsFirstHalfDistinct();
    CharacteristicsSecondHalfDistinct();
    CharacteristicsHalvesDisjoint();
    SectionsDisjoint();
    forall i, j | 0 <= i < j < |Table| ensures Table[i].0 != Table[j].0 {
      if j < |Services| {
      } else if i >= |Services| {
        assert Table[i] == Characteristics[i - |Services|] && Table[j] == Characteristics[j - |Services|];
      } else {
        assert Table[i] == Services[i] && Table[j] == Characteristics[j - |Services|];
      }
    }
  }

  /** Every entry's own UUID yields its own display name, whatever the flag. */
  lemma EveryEntryFound(i: nat, isService: bool)
    requires i < |Table|
    ensures SearchUuid(Table[i].0, isService) == Found(Table[i].1)
  {
    TableDistinct();
    LookupOwnEntry(Table, i, isService);
  }

  /** For instance, the accelerometer data characteristic is found under its name. */
  lemma AccelerometerDataFound(isService: bool)
    ensures SearchUuid("e95dca4b-251d-470a-a062-fa1922dfa9a8", isService) == Found("Accelerometer Data")
  {
    EveryEntryFound(21, isService);
  }

  /** When the UUID is listed, the service/characteristic flag does not change the answer. */
  lemma FlagIrrelevantWhenListed(uuid: string)
    requires Listed(Table, uuid)
    ensures SearchUuid(uuid, true) == SearchUuid(uuid, false)
  {
    var r, s := SearchUuid(uuid, true), SearchUuid(uuid, false);
    var i :| 0 <= i < |Table| && Table[i].0 == uuid && r.name == Table[i].1;
    var k :| 0 <= k < |Table| && Table[k].0 == uuid && s.name == Table[k].1;
    TableDistinct();
    assert i == k;
  }

  // Case sensitivity. Every registry UUID is 36 characters long and has no upper-case
  // letter at positions 34 and 35, but a lower-case letter at one of them.

  predicate LowerTail(u: string)
  {
    |u| == 36 && !IsUpper(u[34]) && !IsUpper(u[35]) && (IsLower(u[34]) || IsLower(u[35]))
  }

  lemma ServicesLowerTail()
    ensures forall i :: 0 <= i < |Services| ==> LowerTail(Services[i].0)
  {
  }

  lemma CharacteristicsLowerTail()
    ensures forall i :: 0 <= i < |Characteristics| ==> LowerTail(Characteristics[i].0)
  {
  }

  lemma TableLowerTail()
    ensures forall i :: 0 <= i < |Table| ==> LowerTail(Table[i].0)
  {
    ServicesLowerTail();
    CharacteristicsLowerTail();
    forall i | 0 <= i < |Table| ensures LowerTail(Table[i].0) {
      if i >= |Services| {
        assert Table[i] == Characteristics[i - |Services|];
      }
    }
  }

  /** A UUID with an upper-case letter near its end is never found: `===` does not fold case. */
  lemma UpperCaseTailUnknown(uuid: string, isService: bool)
    requires |uuid| == 36 && (IsUpper(uuid[34]) || IsUpper(uuid[35]))
    ensures SearchUuid(uuid, isService) == Unknown(isService)
  {
    TableLowerTail();
    forall i | 0 <= i < |Table| ensures Table[i].0 != uuid {
      assert LowerTail(Table[i].0);
    }
  }

  /** The upper-case spelling of any registry UUID falls through to the unknown answer. */
  lemma UpperCaseSpellingUnknown(i: nat, isService: bool)
    requires i < |Table|
    ensures SearchUuid(ToUpper(Table[i].0), isService) == Unknown(isService)
  {
    TableLowerTail();
    var u := Table[i].0;
    assert LowerTail(u);
    var v := ToUpper(u);
    assert IsUpper(v[34]) || IsUpper(v[35]);
    UpperCaseTailUnknown(v, isService);
  }

  /** For instance, the upper-case accelerometer data UUID is an unknown characteristic. */
  lemma UpperCaseExample()
    ensures SearchUuid("E95DCA4B-251D-470A-A062-FA1922DFA9A8", false) == UnknownCharacteristic
  {
    UpperCaseTailUnknown("E95DCA4B-251D-470A-A062-FA1922DFA9A8", false);
  }
}
