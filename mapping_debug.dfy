/** The entity tables of the debug build (gti-control-debug/app/mapping.py), which
    its coordinator imports. The file is a byte-for-byte copy of the release tables;
    the lemmas below establish that, and carry the release table properties over. */
module DebugMapping {
  import opened Python
  import Mapping

  function GtiSensors(): Table<Mapping.SensorMeta> {
    [ ("power", Mapping.SensorMeta("Công suất hoà lưới", "W", Some("power"), Some("measurement"))),
      ("energy_total", Mapping.SensorMeta("Điện năng hoà lưới tổng", "kWh", Some("energy"), Some("total_increasing"))),
      ("voltage_dc", Mapping.SensorMeta("Điện áp DC", "V", Some("voltage"), Some("measurement"))),
      ("current", Mapping.SensorMeta("Dòng DC", "A", Some("current"), Some("measurement"))),
      ("mosfet_temp", Mapping.SensorMeta("Nhiệt độ Mosfet", "°C", Some("temperature"), Some("measurement"))),
      ("cutoff_voltage", Mapping.SensorMeta("Điện áp ngắt", "V", None, None)),
      ("max_power_limit", Mapping.SensorMeta("Công suất giới hạn", "W", None, None)) ]
  }

  function GridSensors(): Table<Mapping.SensorMeta> {
    [ ("grid_voltage", Mapping.SensorMeta("Điện áp lưới", "V", Some("voltage"), Some("measurement"))),
      ("grid_frequency", Mapping.SensorMeta("Tần số lưới", "Hz", None, Some("measurement"))),
      ("grid_power", Mapping.SensorMeta("Công suất lấy lưới", "W", Some("power"), Some("measurement"))),
      ("grid_energy_total", Mapping.SensorMeta("Điện năng lấy lưới tổng", "kWh", Some("energy"), Some("total_increasing"))) ]
  }

  function TieuthuSensors(): Table<Mapping.SensorMeta> {
    [ ("tieuthu_power", Mapping.SensorMeta("Công suất tiêu thụ", "W", Some("power"), Some("measurement"))),
      ("tieuthu_energy_total", Mapping.SensorMeta("Điện năng tiêu thụ tổng", "kWh", Some("energy"), Some("total_increasing"))) ]
  }

  function DailyKeys(): seq<string> {
    ["energy_daily", "grid_energy_daily", "tieuthu_energy_daily"]
  }

  function MonthlyKeys(): seq<string> {
    ["energy_monthly", "grid_energy_monthly", "tieuthu_energy_monthly"]
  }

  /** The debug tables are the release tables. */
  lemma SameTablesAsRelease()
    ensures GtiSensors() == Mapping.GtiSensors()
    ensures GridSensors() == Mapping.GridSensors()
    ensures TieuthuSensors() == Mapping.TieuthuSensors()
    ensures DailyKeys() == Mapping.DailyKeys() && MonthlyKeys() == Mapping.MonthlyKeys()
  {
  }

  /** 13 distinct metric names that the merge keeps in order; control values
      unclassified; counter keys separate from each other and from the metric names. */
  lemma TablesWellFormed()
    ensures Distinct(KeysOf(GtiSensors() + GridSensors() + TieuthuSensors()))
    ensures |GtiSensors() + GridSensors() + TieuthuSensors()| == 13
    ensures Merge(Merge(Merge([], GtiSensors()), GridSensors()), TieuthuSensors())
         == GtiSensors() + GridSensors() + TieuthuSensors()
    ensures Mapping.Lookup(GtiSensors(), "cutoff_voltage").value.deviceClass == None
    ensures Mapping.Lookup(GtiSensors(), "cutoff_voltage").value.stateClass == None
    ensures Mapping.Lookup(GtiSensors(), "max_power_limit").value.deviceClass == None
    ensures Mapping.Lookup(GtiSensors(), "max_power_limit").value.stateClass == None
    ensures Distinct(DailyKeys() + MonthlyKeys())
    ensures forall k :: k in DailyKeys() + MonthlyKeys() ==>
      k !in KeysOf(GtiSensors() + GridSensors() + TieuthuSensors())
  {
    SameTablesAsRelease();
    Mapping.SensorKeysDistinct();
    Mapping.MergedSensorTables();
    Mapping.ControlEntriesUnclassified();
    Mapping.CounterKeysSeparate();
  }
}
