/** The static entity tables of the add-on (gti-control/app/mapping.py): three
    sensor tables keyed by metric name, in insertion order, and the key lists of
    the daily and monthly energy counters. */
module Mapping {
  import opened Python

  /** One table entry, the Python 4-tuple (name, unit, device_class or None,
      state_class or None). */
  datatype SensorMeta = SensorMeta(name: string, unit: string, deviceClass: Option<string>, stateClass: Option<string>)

  function GtiSensors(): Table<SensorMeta> {
    [ ("power", SensorMeta("Công suất hoà lưới", "W", Some("power"), Some("measurement"))),
      ("energy_total", SensorMeta("Điện năng hoà lưới tổng", "kWh", Some("energy"), Some("total_increasing"))),
      ("voltage_dc", SensorMeta("Điện áp DC", "V", Some("voltage"), Some("measurement"))),
      ("current", SensorMeta("Dòng DC", "A", Some("current"), Some("measurement"))),
      ("mosfet_temp", SensorMeta("Nhiệt độ Mosfet", "°C", Some("temperature"), Some("measurement"))),
      ("cutoff_voltage", SensorMeta("Điện áp ngắt", "V", None, None)),
      ("max_power_limit", SensorMeta("Công suất giới hạn", "W", None, None)) ]
  }

  function GridSensors(): Table<SensorMeta> {
    [ ("grid_voltage", SensorMeta("Điện áp lưới", "V", Some("voltage"), Some("measurement"))),
      ("grid_frequency", SensorMeta("Tần số lưới", "Hz", None, Some("measurement"))),
      ("grid_power", SensorMeta("Công suất lấy lưới", "W", Some("power"), Some("measurement"))),
      ("grid_energy_total", SensorMeta("Điện năng lấy lưới tổng", "kWh", Some("energy"), Some("total_increasing"))) ]
  }

  function TieuthuSensors(): Table<SensorMeta> {
    [ ("tieuthu_power", SensorMeta("Công suất tiêu thụ", "W", Some("power"), Some("measurement"))),
      ("tieuthu_energy_total", SensorMeta("Điện năng tiêu thụ tổng", "kWh", Some("energy"), Some("total_increasing"))) ]
  }

  function DailyKeys(): seq<string> {
    ["energy_daily", "grid_energy_daily", "tieuthu_energy_daily"]
  }

  function MonthlyKeys(): seq<string> {
    ["energy_monthly", "grid_energy_monthly", "tieuthu_energy_monthly"]
  }

  /** The value stored under `k`, if any (the first entry with that key). */
  function Lookup(t: Table<SensorMeta>, k: string): Option<SensorMeta> {
    if t == [] then None else if t[0].0 == k then Some(t[0].1) else Lookup(t[1..], k)
  }

  /** The metric names of the three tables, in order. */
  lemma SensorKeyList()
    ensures KeysOf(GtiSensors() + GridSensors() + TieuthuSensors())
         == ["power", "energy_total", "voltage_dc", "current", "mosfet_temp",
             "cutoff_voltage", "max_power_limit", "grid_voltage", "grid_frequency",
             "grid_power", "grid_energy_total", "tieuthu_power", "tieuthu_energy_total"]
  {
  }

  /** Length and first character, enough to tell the metric names apart. */
  function Signature(s: string): (int, char) {
    if s == [] then (0, ' ') else (|s|, s[0])
  }

  function Signatures(ks: seq<string>): seq<(int, char)> {
    seq(|ks|, i requires 0 <= i < |ks| => Signature(ks[i]))
  }

  /** Names with pairwise different signatures are pairwise different. */
  lemma SignaturesSeparate(ks: seq<string>)
    requires Distinct(Signatures(ks))
    ensures Distinct(ks)
  {
    forall i, j | 0 <= i < j < |ks| ensures ks[i] != ks[j] {
      assert Signatures(ks)[i] != Signatures(ks)[j];
    }
  }

  /** The three sensor tables share no key: 7 + 4 + 2 = 13 distinct metric names. */
  lemma SensorKeysDistinct()
    ensures |GtiSensors()| == 7 && |GridSensors()| == 4 && |TieuthuSensors()| == 2
    ensures Distinct(KeysOf(GtiSensors() + GridSensors() + TieuthuSensors()))
  {
    SensorKeyList();
    MetricNamesDistinct(KeysOf(GtiSensors() + GridSensors() + TieuthuSensors()));
  }

  lemma MetricNamesDistinct(ks: seq<string>)
    requires ks == ["power", "energy_total", "voltage_dc", "current", "mosfet_temp",
                    "cutoff_voltage", "max_power_limit", "grid_voltage", "grid_frequency",
                    "grid_power", "grid_energy_total", "tieuthu_power", "tieuthu_energy_total"]
    ensures Distinct(ks)
  {
    assert Signatures(ks) == [(5, 'p'), (12, 'e'), (10, 'v'), (7, 'c'), (11, 'm'), (14, 'c'), (15, 'm'),
                              (12, 'g'), (14, 'g'), (10, 'g'), (17, 'g'), (13, 't'), (20, 't')];
    SignaturesSeparate(ks);
  }

  /** `{**GTI_SENSORS, **GRID_SENSORS, **TIEUTHU_SENSORS}` loses no entry: it is the
      three tables one after the other. */
  lemma {:induction false} MergedSensorTables()
    ensures Merge(Merge(Merge([], GtiSensors()), GridSensors()), TieuthuSensors())
         == GtiSensors() + GridSensors() + TieuthuSensors()
  {
    SensorKeysDistinct();
    MergeThreeDistinct(GtiSensors(), GridSensors(), TieuthuSensors());
  }

  /** The two control values have neither a device class nor a state class. */
  lemma ControlEntriesUnclassified()
    ensures Lookup(GtiSensors(), "cutoff_voltage") == Some(SensorMeta("Điện áp ngắt", "V", None, None))
    ensures Lookup(GtiSensors(), "max_power_limit") == Some(SensorMeta("Công suất giới hạn", "W", None, None))
  {
  }

  /** Every `*_energy_total` counter is an `energy` sensor in kWh and
      `total_increasing`. */
  lemma EnergyTotalsIncreasing()
    ensures var e := Lookup(GtiSensors(), "energy_total");
      e.Some? && e.value.unit == "kWh" && e.value.deviceClass == Some("energy")
      && e.value.stateClass == Some("total_increasing")
    ensures var e := Lookup(GridSensors(), "grid_energy_total");
      e.Some? && e.value.unit == "kWh" && e.value.deviceClass == Some("energy")
      && e.value.stateClass == Some("total_increasing")
    ensures var e := Lookup(TieuthuSensors(), "tieuthu_energy_total");
      e.Some? && e.value.unit == "kWh" && e.value.deviceClass == Some("energy")
      && e.value.stateClass == Some("total_increasing")
  {
  }

  /** Three daily and three monthly keys, all different from each other and from
      every sensor key. */
  lemma CounterKeysSeparate()
    ensures |DailyKeys()| == 3 && |MonthlyKeys()| == 3
    ensures Distinct(DailyKeys() + MonthlyKeys())
    ensures forall k :: k in DailyKeys() + MonthlyKeys() ==>
      k !in KeysOf(GtiSensors() + GridSensors() + TieuthuSensors())
  {
    SensorKeyList();
    CounterNamesSeparate(DailyKeys() + MonthlyKeys(), KeysOf(GtiSensors() + GridSensors() + TieuthuSensors()));
  }

  lemma CounterNamesSeparate(cs: seq<string>, ks: seq<string>)
    requires cs == ["energy_daily", "grid_energy_daily", "tieuthu_energy_daily",
                    "energy_monthly", "grid_energy_monthly", "tieuthu_energy_monthly"]
    requires ks == ["power", "energy_total", "voltage_dc", "current", "mosfet_temp",
                    "cutoff_voltage", "max_power_limit", "grid_voltage", "grid_frequency",
                    "grid_power", "grid_energy_total", "tieuthu_power", "tieuthu_energy_total"]
    ensures Distinct(cs)
    ensures forall k :: k in cs ==> k !in ks
  {
  }
}
