/** The release coordinator (gti-control/app/coordinator.py): it announces every
    entity of a device, builds the device's state record, publishes it retained and
    caches it, and on a failure republishes the cached record marked offline.
    `fmt2`, the entity list and the metric formatting loop are shared with the debug
    coordinator, whose own behaviour is in module DebugCoordinator. */
module Coordinator {
  import opened Python
  import opened Text
  import opened Http
  import Mapping
  import Discovery
  import Api

  /** `round(float(x), 2)` for every `x` whose `float(x)` does not raise; the
      values outside its domain are those where it raises. Float parsing and
      rounding are not modelled: every property holds for every such table. */
  type Round2 = imap<Json, real>

  /** `fmt2(x)`: the rounded float, or 0.0 when the conversion raises. */
  function Fmt2(round2: Round2, x: Json): (v: Json)
    ensures v.JFloat?
    ensures x in round2 ==> v == JFloat(round2[x])
    ensures x !in round2 ==> v == JFloat(0.0)
  {
    if x in round2 then JFloat(round2[x]) else JFloat(0.0)
  }

  /** `{**GTI_SENSORS, **GRID_SENSORS, **TIEUTHU_SENSORS}` */
  function Sensors(): Table<Mapping.SensorMeta> {
    Merge(Merge(Merge([], Mapping.GtiSensors()), Mapping.GridSensors()), Mapping.TieuthuSensors())
  }

  /** The keys of `Sensors()`, in order (MetricKeysList): the 13 metric names
      `build_state` formats. */
  function MetricKeys(): seq<string> {
    ["power", "energy_total", "voltage_dc", "current", "mosfet_temp",
     "cutoff_voltage", "max_power_limit", "grid_voltage", "grid_frequency",
     "grid_power", "grid_energy_total", "tieuthu_power", "tieuthu_energy_total"]
  }

  /** The daily and monthly counter keys, daily first. */
  function CounterKeys(): seq<string> {
    Mapping.DailyKeys() + Mapping.MonthlyKeys()
  }

  lemma MetricKeysList()
    ensures MetricKeys() == KeysOf(Sensors())
  {
    Mapping.MergedSensorTables();
    Mapping.SensorKeyList();
  }

  lemma OnlineNotMetric()
    ensures "online" !in MetricKeys()
  {
  }

  lemma CounterKeysDistinct()
    ensures Distinct(Mapping.DailyKeys()) && Distinct(Mapping.MonthlyKeys())
    ensures "online" !in CounterKeys()
    ensures forall k :: k in Mapping.DailyKeys() ==> k !in Mapping.MonthlyKeys()
  {
    assert CounterKeys() == ["energy_daily", "grid_energy_daily", "tieuthu_energy_daily",
                             "energy_monthly", "grid_energy_monthly", "tieuthu_energy_monthly"];
  }

  lemma CounterKeysApart()
    ensures forall k :: k in CounterKeys() ==> k !in MetricKeys() && k != "online"
  {
    Mapping.MergedSensorTables();
    Mapping.CounterKeysSeparate();
    MetricKeysList();
    CounterKeysDistinct();
  }

  /** The merged table has the 13 metric names, all different; none of them is
      "online" or a counter key, and the counter keys are distinct. */
  lemma MetricKeysWellFormed()
    ensures |MetricKeys()| == 13 && |Sensors()| == 13
    ensures Distinct(MetricKeys())
    ensures "online" !in MetricKeys()
    ensures forall k :: k in CounterKeys() ==> k !in MetricKeys()
    ensures Distinct(Mapping.DailyKeys()) && Distinct(Mapping.MonthlyKeys())
    ensures "online" !in CounterKeys()
  {
    Mapping.MergedSensorTables();
    Mapping.SensorKeysDistinct();
    Mapping.CounterKeysSeparate();
    MetricKeysList();
    OnlineNotMetric();
    CounterKeysDistinct();
  }

  /** The loop `for k in keys: st[k] = fmt2(src.get(k, st.get(k, 0.0)))`, as the
      record it leaves (FormatFromShape says what it holds). */
  function FormatFrom(round2: Round2, keys: seq<string>, src: Dict, st: Dict): Dict
    decreases |keys|
  {
    if keys == [] then st
    else
      var prev := FormatFrom(round2, keys[..|keys| - 1], src, st);
      var k := keys[|keys| - 1];
      prev[k := Fmt2(round2, GetOr(src, k, GetOr(prev, k, JFloat(0.0))))]
  }

  /** After the loop every listed key is present and every other key keeps its
      value; when the keys are all different, each listed key holds the formatted
      value of `src`, or of the record itself when `src` lacks it, or 0.0. */
  lemma {:induction false} FormatFromShape(round2: Round2, keys: seq<string>, src: Dict, st: Dict)
    ensures FormatFrom(round2, keys, src, st).Keys == st.Keys + (set k | k in keys)
    ensures forall k :: k in st && k !in keys ==> FormatFrom(round2, keys, src, st)[k] == st[k]
    ensures Distinct(keys) ==> forall k :: k in keys ==>
      FormatFrom(round2, keys, src, st)[k] == Fmt2(round2, GetOr(src, k, GetOr(st, k, JFloat(0.0))))
    decreases |keys|
  {
    if keys != [] {
      var init := keys[..|keys| - 1];
      var k := keys[|keys| - 1];
      assert keys == init + [k];
      assert Distinct(keys) ==> Distinct(init) && k !in init;
      KeySetSnoc(init, k);
      FormatFromShape(round2, init, src, st);
    }
  }

  lemma KeySetSnoc(init: seq<string>, k: string)
    ensures (set x | x in init + [k]) == (set x | x in init) + {k}
  {
  }

  /** One `fmt2` loop over `keys`, reading `src` first and the record itself second. */
  method FormatKeys(round2: Round2, keys: seq<string>, src: Dict, st0: Dict) returns (st: Dict)
    ensures st == FormatFrom(round2, keys, src, st0)
  {
    st := st0;
    var i := 0;
    while i < |keys|
      invariant 0 <= i <= |keys|
      invariant st == FormatFrom(round2, keys[..i], src, st0)
    {
      assert keys[..i + 1][..i] == keys[..i];
      st := st[keys[i] := Fmt2(round2, GetOr(src, keys[i], GetOr(st, keys[i], JFloat(0.0))))];
      i := i + 1;
    }
    assert keys[..|keys|] == keys;
  }

  /** `st["online"] = bool(st.get("online", True))` */
  function SetOnline(st: Dict): (r: Dict)
    ensures r.Keys == st.Keys + {"online"}
    ensures r["online"] == JBool("online" !in st || Truthy(st["online"]))
    ensures forall k :: k in st && k != "online" ==> r[k] == st[k]
  {
    st["online" := JBool(Truthy(GetOr(st, "online", JBool(true))))]
  }

  /** The record `st0` with every key of `keys` set to the formatted value it had
      (0.0 when absent), stated key by key rather than as a loop. */
  function Formatted(round2: Round2, keys: seq<string>, st0: Dict): Dict {
    map k | k in st0.Keys + (set x | x in keys) ::
      if k in keys then Fmt2(round2, GetOr(st0, k, JFloat(0.0))) else st0[k]
  }

  /** A loop over distinct keys with nothing to read from leaves `Formatted`. */
  lemma FormatLoopFormatted(round2: Round2, keys: seq<string>, st0: Dict)
    requires Distinct(keys)
    ensures FormatFrom(round2, keys, map[], st0) == Formatted(round2, keys, st0)
  {
    FormatFromShape(round2, keys, map[], st0);
    var r := FormatFrom(round2, keys, map[], st0);
    forall k | k in r.Keys
      ensures r[k] == Formatted(round2, keys, st0)[k]
    {
      if k in keys {
        assert GetOr(map[], k, GetOr(st0, k, JFloat(0.0))) == GetOr(st0, k, JFloat(0.0));
      }
    }
  }

  /** The metric part of `build_state` applied to the record `st0` it starts from. */
  function Normalized(round2: Round2, st0: Dict): Dict {
    SetOnline(Formatted(round2, MetricKeys(), st0))
  }

  /** Every metric present and formatted, `online` set; shared by both builds. */
  method NormalizeMetrics(round2: Round2, st0: Dict) returns (st: Dict)
    ensures st == Normalized(round2, st0)
  {
    st := FormatKeys(round2, MetricKeys(), map[], st0);
    Mapping.MetricNamesDistinct(MetricKeys());
    FormatLoopFormatted(round2, MetricKeys(), st0);
    st := st["online" := JBool(Truthy(GetOr(st, "online", JBool(true))))];
  }

  /** After the metric part every metric name is present, each the formatted value
      the record had (0.0 when absent), `online` keeps the truthiness of a value
      already there and defaults to True, and every other key is left as it was. */
  lemma NormalizedShape(round2: Round2, st0: Dict)
    ensures Normalized(round2, st0).Keys == st0.Keys + (set k | k in MetricKeys()) + {"online"}
    ensures forall k :: k in MetricKeys() ==>
      Normalized(round2, st0)[k] == Fmt2(round2, GetOr(st0, k, JFloat(0.0)))
    ensures Normalized(round2, st0)["online"] == JBool("online" !in st0 || Truthy(st0["online"]))
    ensures forall k :: k in st0 && k !in MetricKeys() && k != "online" ==> Normalized(round2, st0)[k] == st0[k]
  {
    OnlineNotMetric();
  }

  /** The two counter loops of the release build. */
  function MergeCounters(round2: Round2, srv: Dict, st: Dict): Dict {
    FormatFrom(round2, Mapping.MonthlyKeys(), srv, FormatFrom(round2, Mapping.DailyKeys(), srv, st))
  }

  /** Two `fmt2` loops over disjoint key lists, on a record holding none of their
      keys: each key takes the value of `src`, 0.0 when absent. */
  lemma FormatTwice(round2: Round2, a: seq<string>, b: seq<string>, src: Dict, st: Dict)
    requires Distinct(a) && Distinct(b)
    requires forall k :: k in a ==> k !in b && k !in st
    requires forall k :: k in b ==> k !in st
    ensures var r := FormatFrom(round2, b, src, FormatFrom(round2, a, src, st));
      && r.Keys == st.Keys + (set k | k in a) + (set k | k in b)
      && (forall k :: k in a ==> r[k] == Fmt2(round2, GetOr(src, k, JFloat(0.0))))
      && (forall k :: k in b ==> r[k] == Fmt2(round2, GetOr(src, k, JFloat(0.0))))
      && (forall k :: k in st ==> r[k] == st[k])
  {
    var first := FormatFrom(round2, a, src, st);
    FormatFromShape(round2, a, src, st);
    FormatFromShape(round2, b, src, first);
    forall k | k in b
      ensures k !in first
    {
    }
  }

  /** FormatTwice, stated over the joined key list. */
  lemma FormatJoined(round2: Round2, a: seq<string>, b: seq<string>, src: Dict, st: Dict)
    requires Distinct(a) && Distinct(b)
    requires forall k :: k in a ==> k !in b
    requires forall k :: k in a + b ==> k !in st
    ensures var r := FormatFrom(round2, b, src, FormatFrom(round2, a, src, st));
      && r.Keys == st.Keys + (set k | k in a + b)
      && (forall k :: k in a + b ==> r[k] == Fmt2(round2, GetOr(src, k, JFloat(0.0))))
      && (forall k :: k in st ==> r[k] == st[k])
  {
    forall k | k in b
      ensures k !in st
    {
      assert k in a + b;
    }
    FormatTwice(round2, a, b, src, st);
    var r := FormatFrom(round2, b, src, FormatFrom(round2, a, src, st));
    forall k | k in a + b
      ensures r[k] == Fmt2(round2, GetOr(src, k, JFloat(0.0)))
    {
      assert k in a || k in b;
    }
    KeySetConcat(a, b);
  }

  lemma KeySetConcat(a: seq<string>, b: seq<string>)
    ensures (set k | k in a + b) == (set k | k in a) + (set k | k in b)
  {
  }

  /** On a record without counters, each counter becomes the server's value when
      it has one and 0.0 otherwise; every other key is left as it was. */
  lemma MergeCountersShape(round2: Round2, srv: Dict, st: Dict)
    requires forall k :: k in CounterKeys() ==> k !in st
    ensures MergeCounters(round2, srv, st).Keys == st.Keys + (set k | k in CounterKeys())
    ensures forall k :: k in CounterKeys() ==> MergeCounters(round2, srv, st)[k] == Fmt2(round2, GetOr(srv, k, JFloat(0.0)))
    ensures forall k :: k in st ==> MergeCounters(round2, srv, st)[k] == st[k]
  {
    CounterKeysDistinct();
    FormatJoined(round2, Mapping.DailyKeys(), Mapping.MonthlyKeys(), srv, st);
  }

  /** The record the metric part builds from nothing: every metric `fmt2(0.0)`,
      `online` True, no counter. */
  lemma FreshRecord(round2: Round2)
    ensures Normalized(round2, map[]).Keys == (set k | k in MetricKeys()) + {"online"}
    ensures forall k :: k in MetricKeys() ==> Normalized(round2, map[])[k] == Fmt2(round2, JFloat(0.0))
    ensures Normalized(round2, map[])["online"] == JBool(true)
    ensures forall k :: k in CounterKeys() ==> k !in Normalized(round2, map[])
  {
    var empty: Dict := map[];
    var st := Normalized(round2, empty);
    NormalizedShape(round2, empty);
    assert empty.Keys == {};
    forall k | k in MetricKeys() ensures st[k] == Fmt2(round2, JFloat(0.0)) {
      assert GetOr(empty, k, JFloat(0.0)) == JFloat(0.0);
    }
    CounterKeysApart();
  }

  /** The fresh record with the counters merged in from the server's record. */
  lemma MergedRecord(round2: Round2, srv: Dict)
    ensures var st := MergeCounters(round2, srv, Normalized(round2, map[]));
      && st.Keys == (set k | k in MetricKeys()) + {"online"} + (set k | k in CounterKeys())
      && (forall k :: k in MetricKeys() ==> st[k] == Fmt2(round2, JFloat(0.0)))
      && st["online"] == JBool(true)
      && (forall k :: k in CounterKeys() ==> st[k] == Fmt2(round2, GetOr(srv, k, JFloat(0.0))))
  {
    FreshRecord(round2);
    MergeCountersShape(round2, srv, Normalized(round2, map[]));
  }

  /** `_device_info(device_id)` */
  function DeviceInfo(deviceId: string): (info: Dict)
    ensures info.Keys == {"identifiers", "name", "manufacturer", "model"}
    ensures info["identifiers"] == JArr([JStr("gti:" + deviceId)]) && info["name"] == JStr(deviceId)
    ensures info["manufacturer"] == JStr("GTI") && info["model"] == JStr("GTI Control")
  {
    map["identifiers" := JArr([JStr("gti:" + deviceId)]), "name" := JStr(deviceId),
        "manufacturer" := JStr("GTI"), "model" := JStr("GTI Control")]
  }

  /** One entity `discover_entities` announces. */
  datatype Entity =
    | Sensor(key: string, meta: Mapping.SensorMeta)
    | Online
    | Number(key: string, name: string, unit: string, minv: Json, maxv: Json, step: Json)
    | Time(key: string, name: string)

  function Component(e: Entity): string {
    match e
    case Sensor(_, _) => "sensor"
    case Online => "binary_sensor"
    case Number(_, _, _, _, _, _) => "number"
    case Time(_, _) => "datetime"
  }

  function EntityKey(e: Entity): string {
    match e
    case Sensor(k, _) => k
    case Online => "online"
    case Number(k, _, _, _, _, _) => k
    case Time(k, _) => k
  }

  /** The discovery message of one entity. */
  function Announce(prefix: string, deviceId: string, info: Dict, e: Entity): (m: Discovery.Message)
    ensures Discovery.Announces(m, prefix, Component(e), deviceId, EntityKey(e), info)
  {
    match e
    case Sensor(k, meta) => Discovery.SensorMessage(prefix, deviceId, k, meta, info)
    case Online => Discovery.BinarySensorMessage(prefix, deviceId, info)
    case Number(k, name, unit, minv, maxv, step) => Discovery.NumberMessage(prefix, deviceId, k, name, unit, minv, maxv, step, info)
    case Time(k, name) => Discovery.DatetimeMessage(prefix, deviceId, k, name, info)
  }


  lemma AppendAssoc<T>(a: seq<T>, b: seq<T>, c: seq<T>)
    ensures a + b + c == a + (b + c)
  {
  }

  /** The discovery messages of `es`, in order. */
  function Announcements(prefix: string, deviceId: string, info: Dict, es: seq<Entity>): seq<Discovery.Message> {
    seq(|es|, i requires 0 <= i < |es| => Announce(prefix, deviceId, info, es[i]))
  }

  lemma AnnouncementsAppend(prefix: string, deviceId: string, info: Dict, a: seq<Entity>, b: seq<Entity>)
    ensures Announcements(prefix, deviceId, info, a + b)
         == Announcements(prefix, deviceId, info, a) + Announcements(prefix, deviceId, info, b)
  {
    var l, r := Announcements(prefix, deviceId, info, a + b), Announcements(prefix, deviceId, info, a) + Announcements(prefix, deviceId, info, b);
    forall i | 0 <= i < |l|
      ensures l[i] == r[i]
    {
      if i < |a| {
        assert (a + b)[i] == a[i];
      } else {
        assert (a + b)[i] == b[i - |a|];
      }
    }
  }

  /** Announcing one more entity appends its message. */
  lemma AnnouncementsSnoc(prefix: string, deviceId: string, info: Dict, a: seq<Entity>, e: Entity)
    ensures Announcements(prefix, deviceId, info, a + [e])
         == Announcements(prefix, deviceId, info, a) + [Announce(prefix, deviceId, info, e)]
  {
    AnnouncementsAppend(prefix, deviceId, info, a, [e]);
  }

  /** One step of a loop that publishes the messages of `es` after `log`. */
  lemma AnnounceStep(prefix: string, deviceId: string, info: Dict, log: seq<Discovery.Message>, es: seq<Entity>, i: nat)
    requires i < |es|
    ensures log + Announcements(prefix, deviceId, info, es[..i]) + [Announce(prefix, deviceId, info, es[i])]
         == log + Announcements(prefix, deviceId, info, es[..i + 1])
  {
    assert es[..i + 1] == es[..i] + [es[i]];
    AnnouncementsSnoc(prefix, deviceId, info, es[..i], es[i]);
    AppendAssoc(log, Announcements(prefix, deviceId, info, es[..i]), [Announce(prefix, deviceId, info, es[i])]);
  }

  /** Publishing the messages of `a` and then those of `b` after `log`. */
  lemma AnnounceMore(prefix: string, deviceId: string, info: Dict, log: seq<Discovery.Message>, a: seq<Entity>, b: seq<Entity>)
    ensures log + Announcements(prefix, deviceId, info, a) + Announcements(prefix, deviceId, info, b)
         == log + Announcements(prefix, deviceId, info, a + b)
  {
    AnnouncementsAppend(prefix, deviceId, info, a, b);
    AppendAssoc(log, Announcements(prefix, deviceId, info, a), Announcements(prefix, deviceId, info, b));
  }

  function SensorEntities(t: Table<Mapping.SensorMeta>): seq<Entity> {
    seq(|t|, i requires 0 <= i < |t| => Sensor(t[i].0, t[i].1))
  }

  /** The online flag and the two device-wide settings. */
  function ControlEntities(): seq<Entity> {
    [ Online,
      Number("cutoff_voltage", "Điện áp ngắt", "V", JInt(0), JInt(100), JFloat(0.1)),
      Number("max_power_limit", "Công suất giới hạn", "W", JInt(0), JInt(5000), JInt(10)) ]
  }

  /** The four entities of schedule slot `i`. */
  function ScheduleEntities(i: int): seq<Entity> {
    var n := Decimal(i);
    [ Time("schedule" + n + "_start", "Lịch " + n + " - Bắt đầu"),
      Time("schedule" + n + "_end", "Lịch " + n + " - Kết thúc"),
      Number("schedule" + n + "_cutoff_voltage", "Lịch " + n + " - Điện áp ngắt", "V", JInt(0), JInt(100), JFloat(0.1)),
      Number("schedule" + n + "_max_power", "Lịch " + n + " - Công suất", "W", JInt(0), JInt(5000), JInt(10)) ]
  }

  /** The schedule slots 1 .. `slot` - 1, in order. */
  function SlotsBefore(slot: int): seq<Entity>
    decreases slot
  {
    if slot <= 1 then [] else SlotsBefore(slot - 1) + ScheduleEntities(slot - 1)
  }

  lemma SlotsStep(head: seq<Entity>, slot: int)
    requires slot >= 1
    ensures head + SlotsBefore(slot) + ScheduleEntities(slot) == head + SlotsBefore(slot + 1)
  {
    AppendAssoc(head, SlotsBefore(slot), ScheduleEntities(slot));
  }

  function FixedEntities(): seq<Entity> {
    ControlEntities() + SlotsBefore(4)
  }

  /** Everything `discover_entities` announces, in order. */
  function Entities(sensors: Table<Mapping.SensorMeta>): seq<Entity> {
    SensorEntities(sensors) + FixedEntities()
  }

  function Components(es: seq<Entity>): seq<string> {
    seq(|es|, i requires 0 <= i < |es| => Component(es[i]))
  }

  /** How many of `es` are announced under `comp`. */
  function Count(es: seq<Entity>, comp: string): nat {
    multiset(Components(es))[comp]
  }

  lemma ComponentsAppend(a: seq<Entity>, b: seq<Entity>)
    ensures Components(a + b) == Components(a) + Components(b)
  {
    assert forall i :: 0 <= i < |a + b| ==> Components(a + b)[i] == (Components(a) + Components(b))[i];
  }

  lemma {:induction false} CountSensors(t: Table<Mapping.SensorMeta>, comp: string)
    ensures Count(SensorEntities(t), comp) == if comp == "sensor" then |t| else 0
    decreases |t|
  {
    if t != [] {
      var es := SensorEntities(t);
      assert es == [Sensor(t[0].0, t[0].1)] + SensorEntities(t[1..]);
      assert Components(es) == ["sensor"] + Components(SensorEntities(t[1..]));
      CountSensors(t[1..], comp);
    }
  }

  lemma ScheduleComponents(i: int)
    ensures Components(ScheduleEntities(i)) == ["datetime", "datetime", "number", "number"]
  {
  }

  lemma CountAppend(a: seq<Entity>, b: seq<Entity>, comp: string)
    ensures Count(a + b, comp) == Count(a, comp) + Count(b, comp)
  {
    ComponentsAppend(a, b);
  }

  lemma ControlCounts(comp: string)
    ensures Count(ControlEntities(), comp) ==
      if comp == "binary_sensor" then 1 else if comp == "number" then 2 else 0
  {
    assert Components(ControlEntities()) == ["binary_sensor", "number", "number"];
    assert multiset(["binary_sensor", "number", "number"]) == multiset{"binary_sensor"} + multiset{"number", "number"};
  }

  lemma ScheduleCounts(i: int, comp: string)
    ensures Count(ScheduleEntities(i), comp) == if comp == "datetime" || comp == "number" then 2 else 0
  {
    ScheduleComponents(i);
    var m := multiset(["datetime", "datetime", "number", "number"]);
    assert m == multiset{"datetime", "datetime"} + multiset{"number", "number"};
  }

  lemma FixedSplit(comp: string)
    ensures |FixedEntities()| == 15
    ensures Count(FixedEntities(), comp) == Count(ControlEntities(), comp)
      + Count(ScheduleEntities(1), comp) + Count(ScheduleEntities(2), comp) + Count(ScheduleEntities(3), comp)
  {
    var s1, s2, s3 := ScheduleEntities(1), ScheduleEntities(2), ScheduleEntities(3);
    assert SlotsBefore(4) == s1 + s2 + s3;
    CountAppend(s1, s2, comp);
    CountAppend(s1 + s2, s3, comp);
    CountAppend(ControlEntities(), s1 + s2 + s3, comp);
  }

  /** The fixed part: one binary sensor, 8 numbers, 6 datetimes and nothing else. */
  lemma FixedCounts(comp: string)
    ensures |FixedEntities()| == 15
    ensures Count(FixedEntities(), comp) ==
      if comp == "binary_sensor" then 1 else if comp == "number" then 8 else if comp == "datetime" then 6 else 0
  {
    ControlCounts(comp);
    ScheduleCounts(1, comp);
    ScheduleCounts(2, comp);
    ScheduleCounts(3, comp);
    FixedSplit(comp);
  }

  /** `discover_entities` announces 13 sensors, 1 binary sensor, 8 numbers and 6
      datetimes: 28 messages per device. */
  lemma DiscoveryCounts(comp: string)
    ensures |Entities(Sensors())| == 28
    ensures Count(Entities(Sensors()), comp) ==
      if comp == "sensor" then 13 else if comp == "binary_sensor" then 1
      else if comp == "number" then 8 else if comp == "datetime" then 6 else 0
  {
    Mapping.MergedSensorTables();
    Mapping.SensorKeysDistinct();
    assert |Sensors()| == 13;
    FixedCounts(comp);
    CountAppend(SensorEntities(Sensors()), FixedEntities(), comp);
    CountSensors(Sensors(), comp);
  }

  /** First letter of the component, key length, first key character and ninth key
      character: enough to tell the fixed entities apart. */
  function Signature(e: Entity): (char, int, char, char) {
    var c := Component(e);
    var k := EntityKey(e);
    (if |c| > 0 then c[0] else ' ', |k|, if |k| > 0 then k[0] else ' ', if |k| > 8 then k[8] else ' ')
  }

  function Signatures(es: seq<Entity>): seq<(char, int, char, char)> {
    seq(|es|, i requires 0 <= i < |es| => Signature(es[i]))
  }

  lemma SignaturesAppend(a: seq<Entity>, b: seq<Entity>)
    ensures Signatures(a + b) == Signatures(a) + Signatures(b)
  {
    assert forall i :: 0 <= i < |a + b| ==> Signatures(a + b)[i] == (Signatures(a) + Signatures(b))[i];
  }

  lemma ControlSignatures()
    ensures Signatures(ControlEntities()) == [('b', 6, 'o', ' '), ('n', 14, 'c', 'o'), ('n', 15, 'm', 'r')]
  {
  }

  lemma ScheduleSignatures(i: int)
    requires 1 <= i <= 9
    ensures var c := DigitChar(i);
      Signatures(ScheduleEntities(i)) == [('d', 15, 's', c), ('d', 13, 's', c), ('n', 24, 's', c), ('n', 19, 's', c)]
  {
    assert Decimal(i) == [DigitChar(i)];
  }

  lemma DistinctConcat<T>(a: seq<T>, b: seq<T>)
    requires Distinct(a) && Distinct(b)
    requires forall x :: x in a ==> x !in b
    ensures Distinct(a + b)
  {
    forall i, j | 0 <= i < j < |a + b| ensures (a + b)[i] != (a + b)[j] {
      if j >= |a| && i < |a| {
        assert (a + b)[i] in a && (a + b)[j] in b;
      }
    }
  }

  lemma SlotSignatureFacts(sigs: seq<(char, int, char, char)>, c: char)
    requires sigs == [('d', 15, 's', c), ('d', 13, 's', c), ('n', 24, 's', c), ('n', 19, 's', c)]
    ensures Distinct(sigs)
    ensures forall x :: x in sigs ==> x.0 != 's' && x.3 == c
  {
  }

  lemma SlotSignaturesDistinct(i: int)
    requires 1 <= i <= 9
    ensures Distinct(Signatures(ScheduleEntities(i)))
    ensures forall x :: x in Signatures(ScheduleEntities(i)) ==> x.0 != 's' && x.3 == DigitChar(i)
  {
    ScheduleSignatures(i);
    SlotSignatureFacts(Signatures(ScheduleEntities(i)), DigitChar(i));
  }

  lemma ControlSignatureFacts(sigs: seq<(char, int, char, char)>)
    requires sigs == [('b', 6, 'o', ' '), ('n', 14, 'c', 'o'), ('n', 15, 'm', 'r')]
    ensures Distinct(sigs)
    ensures forall x :: x in sigs ==> x.0 != 's' && !('1' <= x.3 <= '9')
  {
  }

  lemma ControlSignaturesDistinct()
    ensures Distinct(Signatures(ControlEntities()))
    ensures forall x :: x in Signatures(ControlEntities()) ==> x.0 != 's' && !('1' <= x.3 <= '9')
  {
    ControlSignatures();
    ControlSignatureFacts(Signatures(ControlEntities()));
  }

  /** Slots 1 .. n - 1 have pairwise different signatures, none a sensor's, each
      ending in its slot's digit. */
  lemma {:induction false} SlotsSignaturesDistinct(n: int)
    requires 1 <= n <= 10
    ensures Distinct(Signatures(SlotsBefore(n)))
    ensures forall x :: x in Signatures(SlotsBefore(n)) ==> x.0 != 's' && '1' <= x.3 && x.3 as int < '0' as int + n
    decreases n
  {
    if n > 1 {
      SlotsSignaturesDistinct(n - 1);
      SignaturesAppend(SlotsBefore(n - 1), ScheduleEntities(n - 1));
      SlotSignaturesDistinct(n - 1);
      DistinctConcat(Signatures(SlotsBefore(n - 1)), Signatures(ScheduleEntities(n - 1)));
    }
  }

  /** The fixed entities have pairwise different signatures, none of them a sensor's. */
  lemma FixedSignaturesDistinct()
    ensures Distinct(Signatures(FixedEntities()))
    ensures forall x :: x in Signatures(FixedEntities()) ==> x.0 != 's'
  {
    SignaturesAppend(ControlEntities(), SlotsBefore(4));
    ControlSignaturesDistinct();
    SlotsSignaturesDistinct(4);
    DistinctConcat(Signatures(ControlEntities()), Signatures(SlotsBefore(4)));
  }

  /** Entities with pairwise different signatures differ in component or key. */
  lemma DistinctBySignature(es: seq<Entity>)
    requires Distinct(Signatures(es))
    ensures forall i, j :: 0 <= i < j < |es| ==> (Component(es[i]), EntityKey(es[i])) != (Component(es[j]), EntityKey(es[j]))
  {
    forall i, j | 0 <= i < j < |es|
      ensures (Component(es[i]), EntityKey(es[i])) != (Component(es[j]), EntityKey(es[j]))
    {
      PairBySignature(es, i, j);
    }
  }

  lemma NoSensorBySignature(es: seq<Entity>)
    requires forall x :: x in Signatures(es) ==> x.0 != 's'
    ensures forall i :: 0 <= i < |es| ==> Component(es[i]) != "sensor"
  {
    var sigs := Signatures(es);
    forall i | 0 <= i < |es| ensures Component(es[i]) != "sensor" {
      assert sigs[i] in sigs && sigs[i] == Signature(es[i]);
    }
  }

  lemma PairBySignature(es: seq<Entity>, i: int, j: int)
    requires Distinct(Signatures(es)) && 0 <= i < j < |es|
    ensures (Component(es[i]), EntityKey(es[i])) != (Component(es[j]), EntityKey(es[j]))
  {
    var sigs := Signatures(es);
    assert sigs[i] != sigs[j];
    SignatureDiffers(es[i], es[j]);
  }

  lemma SignatureDiffers(e1: Entity, e2: Entity)
    requires Signature(e1) != Signature(e2)
    ensures (Component(e1), EntityKey(e1)) != (Component(e2), EntityKey(e2))
  {
  }

  lemma FixedEntitiesDistinct()
    ensures forall i, j :: 0 <= i < j < |FixedEntities()| ==>
      (Component(FixedEntities()[i]), EntityKey(FixedEntities()[i]))
        != (Component(FixedEntities()[j]), EntityKey(FixedEntities()[j]))
    ensures forall i :: 0 <= i < |FixedEntities()| ==> Component(FixedEntities()[i]) != "sensor"
  {
    FixedSignaturesDistinct();
    DistinctBySignature(FixedEntities());
    NoSensorBySignature(FixedEntities());
  }

  /** No two entities of a device share a component and a key when the sensor
      table's keys are distinct. */
  lemma EntitiesDistinct(sensors: Table<Mapping.SensorMeta>)
    requires Distinct(KeysOf(sensors))
    ensures forall i, j :: 0 <= i < j < |Entities(sensors)| ==>
      (Component(Entities(sensors)[i]), EntityKey(Entities(sensors)[i]))
        != (Component(Entities(sensors)[j]), EntityKey(Entities(sensors)[j]))
  {
    var es := Entities(sensors);
    forall i, j | 0 <= i < j < |es|
      ensures (Component(es[i]), EntityKey(es[i])) != (Component(es[j]), EntityKey(es[j]))
    {
      EntityPairDiffers(sensors, i, j);
    }
  }

  lemma EntityPairDiffers(sensors: Table<Mapping.SensorMeta>, i: int, j: int)
    requires Distinct(KeysOf(sensors))
    requires 0 <= i < j < |Entities(sensors)|
    ensures (Component(Entities(sensors)[i]), EntityKey(Entities(sensors)[i]))
         != (Component(Entities(sensors)[j]), EntityKey(Entities(sensors)[j]))
  {
    var es := Entities(sensors);
    var n := |sensors|;
    if j < n {
      assert es[i] == SensorEntities(sensors)[i] && es[j] == SensorEntities(sensors)[j];
      assert KeysOf(sensors)[i] != KeysOf(sensors)[j];
    } else if i < n {
      assert es[i] == SensorEntities(sensors)[i];
      FixedEntitiesDistinct();
      assert es[j] == FixedEntities()[j - n];
    } else {
      FixedEntitiesDistinct();
      assert es[i] == FixedEntities()[i - n] && es[j] == FixedEntities()[j - n];
    }
  }

  lemma TopicsDiffer(prefix: string, deviceId: string, e1: Entity, e2: Entity)
    requires (Component(e1), EntityKey(e1)) != (Component(e2), EntityKey(e2))
    ensures Discovery.DiscTopic(prefix, Component(e1), Discovery.ObjId(deviceId, EntityKey(e1)))
         != Discovery.DiscTopic(prefix, Component(e2), Discovery.ObjId(deviceId, EntityKey(e2)))
  {
    var c1, c2 := Component(e1), Component(e2);
    assert NoSep(c1, '/') && NoSep(c2, '/');
    var k1, k2 := EntityKey(e1), EntityKey(e2);
    if Discovery.DiscTopic(prefix, c1, Discovery.ObjId(deviceId, k1)) == Discovery.DiscTopic(prefix, c2, Discovery.ObjId(deviceId, k2)) {
      Discovery.DiscTopicInjective(prefix, c1, Discovery.ObjId(deviceId, k1), c2, Discovery.ObjId(deviceId, k2));
      Discovery.ObjIdInjective(deviceId, k1, k2);
    }
  }

  /** The discovery messages of the entities of a table with distinct keys go to
      pairwise different topics. */
  lemma TopicsDistinctFor(prefix: string, deviceId: string, info: Dict, sensors: Table<Mapping.SensorMeta>)
    requires Distinct(KeysOf(sensors))
    ensures forall i, j :: 0 <= i < j < |Entities(sensors)| ==>
      Announcements(prefix, deviceId, info, Entities(sensors))[i].topic
        != Announcements(prefix, deviceId, info, Entities(sensors))[j].topic
  {
    var es := Entities(sensors);
    var ms := Announcements(prefix, deviceId, info, es);
    EntitiesDistinct(sensors);
    forall i, j | 0 <= i < j < |es| ensures ms[i].topic != ms[j].topic {
      TopicsDiffer(prefix, deviceId, es[i], es[j]);
    }
  }

  /** The 28 discovery messages of a device go to 28 different retained topics, so
      none overwrites another at the broker. */
  lemma AnnouncementTopicsDistinct(prefix: string, deviceId: string)
    ensures forall i, j :: 0 <= i < j < |Entities(Sensors())| ==>
      Announcements(prefix, deviceId, DeviceInfo(deviceId), Entities(Sensors()))[i].topic
        != Announcements(prefix, deviceId, DeviceInfo(deviceId), Entities(Sensors()))[j].topic
  {
    MetricKeysWellFormed();
    MetricKeysList();
    TopicsDistinctFor(prefix, deviceId, DeviceInfo(deviceId), Sensors());
  }

  /** The retained state message of a device. */
  function StateMessage(deviceId: string, st: Dict): (m: Discovery.Message)
    ensures m.topic == Discovery.StateTopic(deviceId) && m.retain
  {
    Discovery.Message(Discovery.StateTopic(deviceId), JObj(st), true)
  }

  lemma StateTopicInjective(d1: string, d2: string)
    requires Discovery.StateTopic(d1) == Discovery.StateTopic(d2)
    ensures d1 == d2
  {
    var t1, t2 := Discovery.StateTopic(d1), Discovery.StateTopic(d2);
    assert d1 == t1[4..|t1| - 6];
    assert d2 == t2[4..|t2| - 6];
  }

  /** The broker's retained state topic of every cached device holds that device's
      cached record. */
  predicate Mirrors(cache: map<string, Dict>, store: map<string, Json>) {
    forall d :: d in cache ==> Discovery.StateTopic(d) in store && store[Discovery.StateTopic(d)] == JObj(cache[d])
  }

  /** Publishing a record and caching it keeps the cache and the broker in step. */
  lemma PublishMirrors(cache: map<string, Dict>, store: map<string, Json>, deviceId: string, st: Dict)
    requires Mirrors(cache, store)
    ensures Mirrors(cache[deviceId := st], Discovery.Retain(store, [StateMessage(deviceId, st)]))
  {
    var m := StateMessage(deviceId, st);
    var s' := Discovery.Retain(store, [m]);
    Discovery.RetainOne(store, m);
    forall d | d in cache[deviceId := st]
      ensures Discovery.StateTopic(d) in s' && s'[Discovery.StateTopic(d)] == JObj(cache[deviceId := st][d])
    {
      if d != deviceId && Discovery.StateTopic(d) == Discovery.StateTopic(deviceId) {
        StateTopicInjective(d, deviceId);
      }
    }
  }

  /** The record the release exception path publishes: the cached record (or an
      empty one) with `online` set to False and every other field unchanged. */
  function OfflineRecord(cache: map<string, Dict>, deviceId: string): (st: Dict)
    ensures "online" in st && st["online"] == JBool(false)
    ensures deviceId in cache ==> st.Keys == cache[deviceId].Keys + {"online"}
    ensures deviceId !in cache ==> st == map["online" := JBool(false)]
    ensures deviceId in cache ==> forall k :: k in cache[deviceId] && k != "online" ==> st[k] == cache[deviceId][k]
  {
    var cached := if deviceId in cache && cache[deviceId] != map[] then cache[deviceId] else map[];
    cached["online" := JBool(false)]
  }

  /** One device of a release poll cycle, given how building its state ended: the
      new cache and the messages published. */
  function Step(cache: map<string, Dict>, deviceId: string, built: Outcome<Dict>): (map<string, Dict>, seq<Discovery.Message>) {
    match built
    case Returned(st) => (cache[deviceId := st], [StateMessage(deviceId, st)])
    case Raised =>
      var st := OfflineRecord(cache, deviceId);
      (cache[deviceId := st], [StateMessage(deviceId, st)])
  }

  /** One release poll cycle over `devices`, in order. */
  function Cycle(cache: map<string, Dict>, devices: seq<string>, built: seq<Outcome<Dict>>): (map<string, Dict>, seq<Discovery.Message>)
    requires |built| == |devices|
    decreases |devices|
  {
    if devices == [] then (cache, [])
    else
      var n := |devices| - 1;
      var prev := Cycle(cache, devices[..n], built[..n]);
      var next := Step(prev.0, devices[n], built[n]);
      (next.0, prev.1 + next.1)
  }

  /** The cycle over one more device is the cycle so far followed by its step. */
  lemma CycleSnoc(cache: map<string, Dict>, devices: seq<string>, built: seq<Outcome<Dict>>, r: Outcome<Dict>)
    requires |built| < |devices|
    ensures var i := |built|;
      var prev := Cycle(cache, devices[..i], built);
      var next := Step(prev.0, devices[i], r);
      Cycle(cache, devices[..i + 1], built + [r]) == (next.0, prev.1 + next.1)
  {
    var i := |built|;
    assert devices[..i + 1][..i] == devices[..i] && devices[..i + 1][i] == devices[i];
    assert (built + [r])[..i] == built && (built + [r])[i] == r;
  }

  /** A release cycle publishes exactly one retained state message per device, in
      list order, and caches every device. */
  lemma {:induction false} CycleOrder(cache: map<string, Dict>, devices: seq<string>, built: seq<Outcome<Dict>>)
    requires |built| == |devices|
    ensures |Cycle(cache, devices, built).1| == |devices|
    ensures forall i :: 0 <= i < |devices| ==>
      Cycle(cache, devices, built).1[i].topic == Discovery.StateTopic(devices[i]) && Cycle(cache, devices, built).1[i].retain
    ensures forall d :: d in devices ==> d in Cycle(cache, devices, built).0
    decreases |devices|
  {
    if devices != [] {
      var n := |devices| - 1;
      CycleOrder(cache, devices[..n], built[..n]);
      forall d | d in devices ensures d in Cycle(cache, devices, built).0 {
        if d != devices[n] {
          var i :| 0 <= i < |devices| && devices[i] == d;
          assert devices[..n][i] == d;
        }
      }
    }
  }

  /** A release cycle keeps the broker's retained state topics equal to the cache. */
  lemma {:induction false} CycleMirrors(cache: map<string, Dict>, store: map<string, Json>, devices: seq<string>, built: seq<Outcome<Dict>>)
    requires |built| == |devices|
    requires Mirrors(cache, store)
    ensures Mirrors(Cycle(cache, devices, built).0, Discovery.Retain(store, Cycle(cache, devices, built).1))
    decreases |devices|
  {
    if devices != [] {
      var n := |devices| - 1;
      var prev := Cycle(cache, devices[..n], built[..n]);
      CycleMirrors(cache, store, devices[..n], built[..n]);
      var mid := Discovery.Retain(store, prev.1);
      var next := Step(prev.0, devices[n], built[n]);
      var st := if built[n].Returned? then built[n].value else OfflineRecord(prev.0, devices[n]);
      assert next == (prev.0[devices[n] := st], [StateMessage(devices[n], st)]);
      PublishMirrors(prev.0, mid, devices[n], st);
      Discovery.RetainAppend(store, prev.1, next.1);
    }
  }

  class Coordinator {
    const prefix: string
    const publishMqtt: bool
    const useServerDailyMonthly: bool
    const exposeTotalsOnly: bool
    const serverEnabled: bool
    const api: Api.ApiClient?
    const round2: Round2
    /** `state_cache` */
    var stateCache: map<string, Dict>
    /** What the MQTT client has been asked to publish, oldest first. */
    var published: seq<Discovery.Message>

    constructor (prefix: string, options: Dict, api: Api.ApiClient?, round2: Round2)
      ensures this.prefix == prefix && this.api == api && this.round2 == round2
      ensures publishMqtt == Truthy(GetOr(options, "publish_mqtt", JBool(true)))
      ensures useServerDailyMonthly == Truthy(GetOr(options, "use_server_daily_monthly", JBool(true)))
      ensures exposeTotalsOnly == Truthy(GetOr(options, "expose_totals_only", JBool(false)))
      ensures serverEnabled == Truthy(GetOr(options, "server_enabled", JBool(true)))
      ensures stateCache == map[] && published == []
    {
      this.prefix := prefix;
      this.api := api;
      this.round2 := round2;
      publishMqtt := Truthy(GetOr(options, "publish_mqtt", JBool(true)));
      useServerDailyMonthly := Truthy(GetOr(options, "use_server_daily_monthly", JBool(true)));
      exposeTotalsOnly := Truthy(GetOr(options, "expose_totals_only", JBool(false)));
      serverEnabled := Truthy(GetOr(options, "server_enabled", JBool(true)));
      stateCache := map[];
      published := [];
    }

    /** The four flags `__init__` reads from `options`. */
    predicate FlagsFrom(options: Dict) {
      && publishMqtt == Truthy(GetOr(options, "publish_mqtt", JBool(true)))
      && useServerDailyMonthly == Truthy(GetOr(options, "use_server_daily_monthly", JBool(true)))
      && exposeTotalsOnly == Truthy(GetOr(options, "expose_totals_only", JBool(false)))
      && serverEnabled == Truthy(GetOr(options, "server_enabled", JBool(true)))
    }

    /** The three-flag guard under which the daily/monthly counters are merged. */
    predicate MergesCounters() {
      serverEnabled && useServerDailyMonthly && !exposeTotalsOnly
    }

    /** `discover_entities`: nothing when `publish_mqtt` is off, otherwise the
        announcements of every sensor, of the online flag and the two settings,
        and of the four entities of each schedule slot 1 to 3, in that order. */
    method DiscoverEntities(deviceId: string)
      modifies this
      ensures stateCache == old(stateCache)
      ensures published == old(published)
        + (if publishMqtt then Announcements(prefix, deviceId, DeviceInfo(deviceId), Entities(Sensors())) else [])
    {
      if !publishMqtt {
        return;
      }
      AnnounceDevice(deviceId, DeviceInfo(deviceId), Sensors());
    }

    /** The body of `discover_entities` for a given sensor table. */
    method AnnounceDevice(deviceId: string, info: Dict, table: Table<Mapping.SensorMeta>)
      modifies this
      ensures stateCache == old(stateCache)
      ensures published == old(published) + Announcements(prefix, deviceId, info, Entities(table))
    {
      var sensors := SensorEntities(table);
      AnnounceEach(deviceId, info, sensors);
      AnnounceEach(deviceId, info, ControlEntities());
      AnnounceMore(prefix, deviceId, info, old(published), sensors, ControlEntities());
      ghost var head := sensors + ControlEntities();
      assert head + SlotsBefore(1) == head;
      var slot := 1;
      while slot <= 3
        invariant 1 <= slot <= 4
        invariant stateCache == old(stateCache)
        invariant published == old(published) + Announcements(prefix, deviceId, info, head + SlotsBefore(slot))
      {
        AnnounceMore(prefix, deviceId, info, old(published), head + SlotsBefore(slot), ScheduleEntities(slot));
        SlotsStep(head, slot);
        AnnounceEach(deviceId, info, ScheduleEntities(slot));
        slot := slot + 1;
      }
      AppendAssoc(sensors, ControlEntities(), SlotsBefore(4));
    }

    /** The `publish_*` calls for `es`, one after the other. */
    method AnnounceEach(deviceId: string, info: Dict, es: seq<Entity>)
      modifies this
      ensures stateCache == old(stateCache)
      ensures published == old(published) + Announcements(prefix, deviceId, info, es)
    {
      var i := 0;
      while i < |es|
        invariant 0 <= i <= |es|
        invariant stateCache == old(stateCache)
        invariant published == old(published) + Announcements(prefix, deviceId, info, es[..i])
      {
        AnnounceStep(prefix, deviceId, info, old(published), es, i);
        published := published + [Announce(prefix, deviceId, info, es[i])];
        i := i + 1;
      }
      assert es[..i] == es;
    }

    /** `read_device_state`: the release build reads nothing from the device. */
    function ReadDeviceState(deviceId: string): (st: Dict)
      ensures st == map[]
    {
      map[]
    }

    /** What `build_state` ends with: the state record, or Raised when the guard
        holds without an API client. */
    function Built(fetch: Request -> Response, deviceId: string): Outcome<Dict>
      reads if api != null then {api} else {}
    {
      var st := Normalized(round2, ReadDeviceState(deviceId));
      if !MergesCounters() then Returned(st)
      else if api == null then Raised
      else Returned(MergeCounters(round2, api.ReadStateServer(fetch, deviceId), st))
    }

    /** What `build_state` ends with for each of `devices`, in order. */
    function BuiltEach(fetch: Request -> Response, devices: seq<string>): (bs: seq<Outcome<Dict>>)
      reads if api != null then {api} else {}
      ensures |bs| == |devices|
    {
      if devices == [] then []
      else BuiltEach(fetch, devices[..|devices| - 1]) + [Built(fetch, devices[|devices| - 1])]
    }

    /** The `i`-th entry of `BuiltEach` is the build of the `i`-th device. */
    lemma {:induction false} BuiltEachAt(fetch: Request -> Response, devices: seq<string>, i: int)
      requires 0 <= i < |devices|
      ensures BuiltEach(fetch, devices)[i] == Built(fetch, devices[i])
      decreases |devices|
    {
      if i < |devices| - 1 {
        BuiltEachAt(fetch, devices[..|devices| - 1], i);
      }
    }

    /** `build_state` */
    method BuildState(fetch: Request -> Response, deviceId: string) returns (r: Outcome<Dict>)
      ensures r == Built(fetch, deviceId)
    {
      var st := ReadDeviceState(deviceId);
      st := NormalizeMetrics(round2, st);
      if serverEnabled && useServerDailyMonthly && !exposeTotalsOnly {
        if api == null {
          return Raised;
        }
        var srv := api.ReadStateServer(fetch, deviceId);
        st := FormatKeys(round2, Mapping.DailyKeys(), srv, st);
        st := FormatKeys(round2, Mapping.MonthlyKeys(), srv, st);
      }
      return Returned(st);
    }

    /** The release state record: every metric is `fmt2(0.0)`, `online` is True,
        and the daily/monthly keys are present exactly under the guard, each the
        server's value if it has one and 0.0 otherwise. Building raises only under
        the guard without an API client. */
    lemma BuiltShape(fetch: Request -> Response, deviceId: string)
      ensures Built(fetch, deviceId) == Raised <==> MergesCounters() && api == null
      ensures Built(fetch, deviceId).Returned? ==>
        var st := Built(fetch, deviceId).value;
        && st.Keys == (set k | k in MetricKeys()) + {"online"}
             + (if MergesCounters() then set k | k in CounterKeys() else {})
        && (forall k :: k in MetricKeys() ==> st[k] == Fmt2(round2, JFloat(0.0)))
        && st["online"] == JBool(true)
        && (MergesCounters() && api != null ==> forall k :: k in CounterKeys() ==>
              st[k] == Fmt2(round2, GetOr(api.ReadStateServer(fetch, deviceId), k, JFloat(0.0))))
    {
      FreshRecord(round2);
      if MergesCounters() && api != null {
        MergedRecord(round2, api.ReadStateServer(fetch, deviceId));
      }
    }

    /** `publish_state`: the retained state message, and the cache entry. */
    method PublishState(deviceId: string, st: Dict)
      modifies this
      ensures published == old(published) + [StateMessage(deviceId, st)]
      ensures stateCache == old(stateCache)[deviceId := st]
    {
      published := published + [StateMessage(deviceId, st)];
      stateCache := stateCache[deviceId := st];
    }

    /** One device of the polling loop: build its state and publish it, or
        republish its cached record offline when building raises. */
    method PollDevice(fetch: Request -> Response, deviceId: string) returns (ghost r: Outcome<Dict>)
      modifies this
      ensures r == Built(fetch, deviceId)
      ensures r == Raised <==> MergesCounters() && api == null
      ensures stateCache == Step(old(stateCache), deviceId, r).0
      ensures published == old(published) + Step(old(stateCache), deviceId, r).1
    {
      var b := BuildState(fetch, deviceId);
      BuiltShape(fetch, deviceId);
      r := b;
      if b.Returned? {
        PublishState(deviceId, b.value);
      } else {
        var st := if deviceId in stateCache && stateCache[deviceId] != map[] then stateCache[deviceId] else map[];
        st := st["online" := JBool(false)];
        PublishState(deviceId, st);
      }
    }

    /** One pass of the `while True` loop over `devices`, in order. */
    method PollCycle(fetch: Request -> Response, devices: seq<string>) returns (ghost built: seq<Outcome<Dict>>)
      modifies this
      ensures |built| == |devices|
      ensures built == BuiltEach(fetch, devices)
      ensures forall i :: 0 <= i < |devices| ==> built[i] == Built(fetch, devices[i])
      ensures forall i :: 0 <= i < |devices| ==> (built[i] == Raised <==> MergesCounters() && api == null)
      ensures stateCache == Cycle(old(stateCache), devices, built).0
      ensures published == old(published) + Cycle(old(stateCache), devices, built).1
    {
      ghost var builds := BuiltEach(fetch, devices);
      built := [];
      var i := 0;
      while i < |devices|
        invariant 0 <= i <= |devices|
        invariant |built| == i
        invariant built == builds[..i]
        invariant forall j :: 0 <= j < i ==> (built[j] == Raised <==> MergesCounters() && api == null)
        invariant stateCache == Cycle(old(stateCache), devices[..i], built).0
        invariant published == old(published) + Cycle(old(stateCache), devices[..i], built).1
      {
        ghost var prev := Cycle(old(stateCache), devices[..i], built);
        var r := PollDevice(fetch, devices[i]);
        ghost var next := Step(prev.0, devices[i], r);
        AppendAssoc(old(published), prev.1, next.1);
        CycleSnoc(old(stateCache), devices, built, r);
        BuiltEachAt(fetch, devices, i);
        built := built + [r];
        i := i + 1;
      }
      assert devices[..i] == devices;
      forall k | 0 <= k < |devices|
        ensures built[k] == Built(fetch, devices[k])
      {
        BuiltEachAt(fetch, devices, k);
      }
    }
  }
}
