/** The sensor platform of the integration: the fetch rule the coordinator
    polls with, the shared coordinator snapshot, the sensors that read one
    dotted path out of it, and the list of sensors registered at setup. */
module Sensors {
  import opened Wrappers
  import opened JsonValue
  import PyText
  import opened PathLookup
  import opened Conversion

  // ---- fetching ----

  /** How one HTTP round trip ended: a response with its status and its body
      decoded as JSON (None when `response.json()` raised), or an exception
      raised by the client before any response. */
  datatype FetchOutcome =
    | Responded(status: int, body: Option<Json>)
    | ClientError

  /** `async_fetch_data`: the decoded payload on status 200, None otherwise,
      and None whenever anything raised. */
  function FetchResult(outcome: FetchOutcome): (snapshot: Option<Json>)
    ensures snapshot.Some? <==> outcome.Responded? && outcome.status == 200 && outcome.body.Some?
    ensures snapshot.Some? ==> snapshot == outcome.body
  {
    match outcome
    case Responded(status, body) => if status == 200 then body else None
    case ClientError => None
  }

  /** The coordinator's shared snapshot: replaced wholesale by every refresh,
      read by every sensor. */
  class Coordinator {
    var data: Option<Json>

    constructor ()
      ensures data == None
    {
      data := None;
    }

    /** One poll: whatever the fetch returns becomes the snapshot, so a failed
        fetch clears it rather than keeping the previous payload. */
    method Refresh(outcome: FetchOutcome)
      modifies this
      ensures data == FetchResult(outcome)
    {
      data := FetchResult(outcome);
    }
  }

  // ---- reading one sensor ----

  /** The leaf a sensor key designates in a snapshot: None when there is no
      snapshot, or when the walk along the `.`-separated segments fails. */
  function Resolve(data: Option<Json>, sensorType: string): Option<Json>
  {
    match data
    case None => None
    case Some(d) => Walk(d, PyText.Split(sensorType, '.'))
  }

  /** `native_value` of the sensor of the given kind and key. */
  function SensorValue(kind: SensorKind, data: Option<Json>, sensorType: string, rt: Runtime): Reading
  {
    match Resolve(data, sensorType)
    case None => NoValue
    case Some(leaf) => ConvertLeaf(kind, leaf, rt)
  }

  /** The sensor entity unique id: the integration domain, `_`, the key. */
  function UniqueId(domain: string, sensorType: string): string
  {
    domain + "_" + sensorType
  }

  /** Within one domain, the unique id determines the key. */
  lemma UniqueIdInjective(domain: string, a: string, b: string)
    ensures UniqueId(domain, a) == UniqueId(domain, b) <==> a == b
  {
    if UniqueId(domain, a) == UniqueId(domain, b) {
      assert UniqueId(domain, a)[|domain| + 1..] == a;
      assert UniqueId(domain, b)[|domain| + 1..] == b;
    }
  }

  /** One sensor entity. Its fields are set once, by the constructor; its state
      is recomputed from the coordinator's snapshot on every read. */
  class Sensor {
    const coordinator: Coordinator
    const kind: SensorKind
    const sensorType: string
    const uniqueId: string

    constructor (coordinator: Coordinator, kind: SensorKind, sensorType: string, domain: string)
      ensures this.coordinator == coordinator && this.kind == kind
      ensures this.sensorType == sensorType
      ensures uniqueId == UniqueId(domain, sensorType)
    {
      this.coordinator := coordinator;
      this.kind := kind;
      this.sensorType := sensorType;
      this.uniqueId := domain + "_" + sensorType;
    }

    /** The state the sensor reports for the current snapshot. */
    method NativeValue(rt: Runtime) returns (r: Reading)
      ensures r == SensorValue(kind, coordinator.data, sensorType, rt)
    {
      var data := coordinator.data;
      if data.None? {
        return NoValue;
      }
      var keys := PyText.Split(sensorType, '.');
      var leaf := WalkLoop(data.value, keys);
      if leaf.None? {
        return NoValue;
      }
      r := ConvertLeaf(kind, leaf.value, rt);
    }
  }

  // ---- what every sensor reports ----

  /** A sensor reports no value exactly when there is no snapshot, some segment
      of its key is missing or meets a non-dict, or the leaf is null; this holds
      alike for the three kinds. */
  lemma NoValueIff(kind: SensorKind, data: Option<Json>, sensorType: string, rt: Runtime)
    ensures SensorValue(kind, data, sensorType, rt) == NoValue <==>
      (data.None?
       || (exists i :: 0 <= i < |PyText.Split(sensorType, '.')|
                      && FailsAt(data.value, PyText.Split(sensorType, '.'), i))
       || Resolve(data, sensorType) == Some(JNull))
  {
    if data.Some? {
      var keys := PyText.Split(sensorType, '.');
      WalkNoneIff(data.value, keys);
      match Walk(data.value, keys)
      case None =>
        var w :| 0 <= w < |keys| && FailsAt(data.value, keys, w);
        assert SensorValue(kind, data, sensorType, rt) == NoValue;
        assert exists i :: 0 <= i < |PyText.Split(sensorType, '.')|
                      && FailsAt(data.value, PyText.Split(sensorType, '.'), i);
      case Some(leaf) =>
        assert SensorValue(kind, data, sensorType, rt) == ConvertLeaf(kind, leaf, rt);
    }
  }

  /** The three kinds walk the same path: whether a value is found does not
      depend on the kind, and the price and number sensors agree on the value. */
  lemma KindsAgree(k1: SensorKind, k2: SensorKind, data: Option<Json>, sensorType: string, rt: Runtime)
    ensures SensorValue(k1, data, sensorType, rt).NoValue? <==> SensorValue(k2, data, sensorType, rt).NoValue?
    ensures k1 != TextSensor && k2 != TextSensor ==>
      SensorValue(k1, data, sensorType, rt) == SensorValue(k2, data, sensorType, rt)
  {
  }

  /** A non-null leaf found at the key is reported as `float(leaf)` by the price
      and number sensors, and as `str(leaf)` by the text sensor. */
  lemma LeafReported(kind: SensorKind, data: Option<Json>, sensorType: string, rt: Runtime, leaf: Json)
    requires Resolve(data, sensorType) == Some(leaf) && !leaf.JNull?
    ensures kind == TextSensor ==> SensorValue(kind, data, sensorType, rt) == TextValue(ToStr(leaf, rt))
    ensures kind != TextSensor && ToFloat(leaf, rt).Ok? ==>
      SensorValue(kind, data, sensorType, rt) == NumberValue(ToFloat(leaf, rt).value)
    ensures kind != TextSensor && ToFloat(leaf, rt).Err? ==>
      SensorValue(kind, data, sensorType, rt) == ConversionFailed(ToFloat(leaf, rt).error)
  {
  }

  /** After a fetch that did not yield a payload, every sensor, whatever its
      kind and key, reports no value rather than a value from an older snapshot. */
  lemma FailedFetchSilencesSensors(outcome: FetchOutcome, kind: SensorKind, sensorType: string, rt: Runtime)
    requires !(outcome.Responded? && outcome.status == 200 && outcome.body.Some?)
    ensures SensorValue(kind, FetchResult(outcome), sensorType, rt) == NoValue
  {
  }

  /** A payload that is JSON `null` is not a dict, so every sensor reads no
      value from it, exactly as when there is no snapshot at all. */
  lemma NullPayloadReadsNothing(kind: SensorKind, sensorType: string, rt: Runtime)
    ensures SensorValue(kind, Some(JNull), sensorType, rt) == NoValue
  {
  }

  // ---- the sensors registered at setup ----

  datatype SensorSpec = SensorSpec(kind: SensorKind, key: string)

  /** A key one level down: the dict key, a dot, the key inside it. */
  function Nested(outer: string, inner: string): string
  {
    outer + "." + inner
  }

  /** The sensors `async_setup_entry` creates, in order. */
  function Registered(): seq<SensorSpec>
  {
    [ SensorSpec(PriceSensor, "current_price"),
      SensorSpec(PriceSensor, "max_price"),
      SensorSpec(PriceSensor, "min_price"),
      SensorSpec(PriceSensor, "average_price"),
      SensorSpec(PriceSensor, "next_hour_price"),
      SensorSpec(PriceSensor, "previous_hour_price"),
      SensorSpec(TextSensor, "price_trend"),
      SensorSpec(TextSensor, "tid"),
      SensorSpec(TextSensor, "lowest_price_hour"),
      SensorSpec(TextSensor, "highest_price_hour"),
      SensorSpec(TextSensor, Nested("best_charging_period", "start_time")),
      SensorSpec(NumberSensor, Nested("best_charging_period", "duration")),
      SensorSpec(PriceSensor, Nested("best_charging_period", "average_price")) ]
  }

  /** The thirteen registered keys are pairwise distinct, and so are their unique ids. */
  lemma RegisteredIdsDistinct(domain: string)
    ensures |Registered()| == 13
    ensures forall i, j :: 0 <= i < j < |Registered()| ==>
      Registered()[i].key != Registered()[j].key
      && UniqueId(domain, Registered()[i].key) != UniqueId(domain, Registered()[j].key)
  {
    var r := Registered();
    forall i, j | 0 <= i < j < |r|
      ensures r[i].key != r[j].key
      ensures UniqueId(domain, r[i].key) != UniqueId(domain, r[j].key)
    {
      UniqueIdInjective(domain, r[i].key, r[j].key);
    }
  }

  /** `sensor` was created for `spec`, on `coordinator`, in `domain`. */
  predicate BuiltFrom(sensor: Sensor, spec: SensorSpec, coordinator: Coordinator, domain: string)
  {
    && sensor.coordinator == coordinator
    && sensor.kind == spec.kind
    && sensor.sensorType == spec.key
    && sensor.uniqueId == UniqueId(domain, sensor.sensorType)
  }

  /** The list `async_setup_entry` writes out, sensor by sensor, is `Registered()`
      in order, and its unique ids are pairwise distinct. Stated over the
      sensors alone, apart from the heap states of setup. */
  lemma SetupListIsRegistered(
    s0: Sensor, s1: Sensor, s2: Sensor, s3: Sensor, s4: Sensor, s5: Sensor, s6: Sensor,
    s7: Sensor, s8: Sensor, s9: Sensor, s10: Sensor, s11: Sensor, s12: Sensor,
    coordinator: Coordinator, domain: string)
    requires BuiltFrom(s0, SensorSpec(PriceSensor, "current_price"), coordinator, domain)
    requires BuiltFrom(s1, SensorSpec(PriceSensor, "max_price"), coordinator, domain)
    requires BuiltFrom(s2, SensorSpec(PriceSensor, "min_price"), coordinator, domain)
    requires BuiltFrom(s3, SensorSpec(PriceSensor, "average_price"), coordinator, domain)
    requires BuiltFrom(s4, SensorSpec(PriceSensor, "next_hour_price"), coordinator, domain)
    requires BuiltFrom(s5, SensorSpec(PriceSensor, "previous_hour_price"), coordinator, domain)
    requires BuiltFrom(s6, SensorSpec(TextSensor, "price_trend"), coordinator, domain)
    requires BuiltFrom(s7, SensorSpec(TextSensor, "tid"), coordinator, domain)
    requires BuiltFrom(s8, SensorSpec(TextSensor, "lowest_price_hour"), coordinator, domain)
    requires BuiltFrom(s9, SensorSpec(TextSensor, "highest_price_hour"), coordinator, domain)
    requires BuiltFrom(s10, SensorSpec(TextSensor, Nested("best_charging_period", "start_time")), coordinator, domain)
    requires BuiltFrom(s11, SensorSpec(NumberSensor, Nested("best_charging_period", "duration")), coordinator, domain)
    requires BuiltFrom(s12, SensorSpec(PriceSensor, Nested("best_charging_period", "average_price")), coordinator, domain)
    ensures |Registered()| == 13
    ensures forall i :: 0 <= i < |Registered()| ==>
      BuiltFrom([s0, s1, s2, s3, s4, s5, s6, s7, s8, s9, s10, s11, s12][i], Registered()[i], coordinator, domain)
    ensures forall i, j :: 0 <= i < j < |Registered()| ==>
      [s0, s1, s2, s3, s4, s5, s6, s7, s8, s9, s10, s11, s12][i].uniqueId
      != [s0, s1, s2, s3, s4, s5, s6, s7, s8, s9, s10, s11, s12][j].uniqueId
  {
    RegisteredIdsDistinct(domain);
  }

  /** The sensor list `async_setup_entry` writes out: one sensor per
      registered entry, in order, all sharing `coordinator`. */
  method CreateSensors(coordinator: Coordinator, domain: string) returns (sensors: seq<Sensor>)
    ensures |sensors| == |Registered()|
    ensures forall s :: s in sensors ==> fresh(s)
    ensures forall i :: 0 <= i < |sensors| ==>
      BuiltFrom(sensors[i], Registered()[i], coordinator, domain)
    ensures forall i, j :: 0 <= i < j < |sensors| ==> sensors[i].uniqueId != sensors[j].uniqueId
  {
    var s0 := new Sensor(coordinator, PriceSensor, "current_price", domain);
    var s1 := new Sensor(coordinator, PriceSensor, "max_price", domain);
    var s2 := new Sensor(coordinator, PriceSensor, "min_price", domain);
    var s3 := new Sensor(coordinator, PriceSensor, "average_price", domain);
    var s4 := new Sensor(coordinator, PriceSensor, "next_hour_price", domain);
    var s5 := new Sensor(coordinator, PriceSensor, "previous_hour_price", domain);
    var s6 := new Sensor(coordinator, TextSensor, "price_trend", domain);
    var s7 := new Sensor(coordinator, TextSensor, "tid", domain);
    var s8 := new Sensor(coordinator, TextSensor, "lowest_price_hour", domain);
    var s9 := new Sensor(coordinator, TextSensor, "highest_price_hour", domain);
    var s10 := new Sensor(coordinator, TextSensor, Nested("best_charging_period", "start_time"), domain);
    var s11 := new Sensor(coordinator, NumberSensor, Nested("best_charging_period", "duration"), domain);
    var s12 := new Sensor(coordinator, PriceSensor, Nested("best_charging_period", "average_price"), domain);
    sensors := [s0, s1, s2, s3, s4, s5, s6, s7, s8, s9, s10, s11, s12];
    SetupListIsRegistered(s0, s1, s2, s3, s4, s5, s6, s7, s8, s9, s10, s11, s12, coordinator, domain);
  }

  /** `async_setup_entry`: build the coordinator, run its first refresh, and
      create one sensor per registered entry, all sharing that coordinator. */
  method SetupEntry(domain: string, firstFetch: FetchOutcome)
    returns (coordinator: Coordinator, sensors: seq<Sensor>)
    ensures fresh(coordinator) && coordinator.data == FetchResult(firstFetch)
    ensures |sensors| == |Registered()|
    ensures forall s :: s in sensors ==> fresh(s)
    ensures forall i :: 0 <= i < |sensors| ==>
      BuiltFrom(sensors[i], Registered()[i], coordinator, domain)
    ensures forall i, j :: 0 <= i < j < |sensors| ==> sensors[i].uniqueId != sensors[j].uniqueId
  {
    coordinator := new Coordinator();
    coordinator.Refresh(firstFetch);
    sensors := CreateSensors(coordinator, domain);
  }

  // ---- the payload the service documents ----

  /** A key without a dot reads the payload's top-level entry. */
  lemma TopLevelKeyRead(kind: SensorKind, fields: map<string, Json>, key: string, rt: Runtime)
    requires '.' !in key
    ensures SensorValue(kind, Some(JObject(fields)), key, rt) ==
      if key in fields then ConvertLeaf(kind, fields[key], rt) else NoValue
  {
    PyText.SplitOnce(key, "", '.');
    assert [key][1..] == [];
    if key in fields {
      assert Walk(fields[key], []) == Some(fields[key]);
    }
  }

  /** A key `outer.inner` reads the entry `inner` of the dict under `outer`,
      through two dict lookups. */
  lemma NestedKeyRead(kind: SensorKind, fields: map<string, Json>, outer: string, inner: string, rt: Runtime)
    requires '.' !in outer && '.' !in inner
    ensures SensorValue(kind, Some(JObject(fields)), Nested(outer, inner), rt) ==
      if outer in fields && fields[outer].JObject? && inner in fields[outer].fields
      then ConvertLeaf(kind, fields[outer].fields[inner], rt)
      else NoValue
  {
    PyText.SplitOnce(outer, inner, '.');
    assert Nested(outer, inner) == outer + ['.'] + inner;
    WalkTwoKeys(JObject(fields), outer, inner);
  }

  function SamplePayload(): Json
  {
    JObject(map[
      "current_price" := JFloat(0.5),
      "best_charging_period" := JObject(map[
        "start_time" := JString("02:00"),
        "duration" := JInt(3)])])
  }

  /** With the sample payload, the current price reads 0.5. */
  lemma SampleCurrentPrice(rt: Runtime)
    ensures SensorValue(PriceSensor, Some(SamplePayload()), "current_price", rt) == NumberValue(0.5)
  {
    TopLevelKeyRead(PriceSensor, SamplePayload().fields, "current_price", rt);
  }

  /** With the sample payload, the text sensor for the charging start reads "02:00". */
  lemma SampleChargingStart(rt: Runtime)
    ensures SensorValue(TextSensor, Some(SamplePayload()), Nested("best_charging_period", "start_time"), rt)
      == TextValue("02:00")
  {
    NestedKeyRead(TextSensor, SamplePayload().fields, "best_charging_period", "start_time", rt);
  }

  /** With the sample payload, the integer duration 3 is reported as the float 3.0. */
  lemma SampleChargingDuration(rt: Runtime)
    ensures SensorValue(NumberSensor, Some(SamplePayload()), Nested("best_charging_period", "duration"), rt)
      == NumberValue(3.0)
  {
    NestedKeyRead(NumberSensor, SamplePayload().fields, "best_charging_period", "duration", rt);
  }

  /** With the sample payload, the nested average price is absent and reads no value. */
  lemma SampleMissingAverage(rt: Runtime)
    ensures SensorValue(PriceSensor, Some(SamplePayload()), Nested("best_charging_period", "average_price"), rt)
      == NoValue
  {
    NestedKeyRead(PriceSensor, SamplePayload().fields, "best_charging_period", "average_price", rt);
  }
}
