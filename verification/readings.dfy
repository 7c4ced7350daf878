/** The history data model of src/screens/HistoryScreen.js: readings, the
    fields a sensor card reads, the per-sensor configuration table and the
    four selectable time ranges. */
module Readings {
  import opened Values

  /** One sample from `/api/history`. The timestamp is the time value in
      milliseconds of `new Date(item.timestamp)`, or None when the text does
      not parse (JavaScript then holds an invalid date, NaN). */
  datatype Reading = Reading(
    timestamp: Option<int>,
    airTemperature: JsNumber,
    airHumidity: JsNumber,
    lightPercent: JsNumber,
    soilMoistureRaw: JsNumber,
    soilTemperature: JsNumber)

  /** The keys `config.field` can name. */
  datatype Field = AirTemperature | AirHumidity | LightPercent | SoilMoistureRaw | SoilTemperature

  /** The value a reading holds in the given field. */
  function FieldOf(r: Reading, f: Field): JsNumber {
    match f
    case AirTemperature => r.airTemperature
    case AirHumidity => r.airHumidity
    case LightPercent => r.lightPercent
    case SoilMoistureRaw => r.soilMoistureRaw
    case SoilTemperature => r.soilTemperature
  }

  datatype SensorConfig = SensorConfig(field: Field, unit: string, color: string, optimalRange: string)

  const TemperatureConfig := SensorConfig(AirTemperature, "°C", "#F5A623", "18–26°C")
  const HumidityConfig := SensorConfig(AirHumidity, "%", "#50E3C2", "40–60%")
  const LightConfig := SensorConfig(LightPercent, "%", "#FF6B6B", "30–80%")
  const MoistureConfig := SensorConfig(SoilMoistureRaw, "", "#4A90E2", "300–700")
  const SoilTempConfig := SensorConfig(SoilTemperature, "°C", "#8B4513", "15–25°C")

  /** The `sensorConfig` object literal, keyed by sensor name. */
  const SensorTable: map<string, SensorConfig> := map[
    "temperature" := TemperatureConfig,
    "humidity" := HumidityConfig,
    "light" := LightConfig,
    "moisture" := MoistureConfig,
    "soiltemp" := SoilTempConfig]

  /** `sensorConfig[sensor] || sensorConfig.temperature`: every table entry
      is a (truthy) object, so the fallback applies exactly to unknown keys. */
  function ConfigFor(sensor: string): (c: SensorConfig)
    ensures sensor == "temperature" ==> c.field == AirTemperature && c.unit == "°C"
    ensures sensor == "humidity" ==> c.field == AirHumidity && c.unit == "%"
    ensures sensor == "light" ==> c.field == LightPercent && c.unit == "%"
    ensures sensor == "moisture" ==> c.field == SoilMoistureRaw && c.unit == ""
    ensures sensor == "soiltemp" ==> c.field == SoilTemperature && c.unit == "°C"
    ensures sensor !in SensorTable ==> c == TemperatureConfig
    ensures c in SensorTable.Values
  {
    if sensor in SensorTable then SensorTable[sensor] else SensorTable["temperature"]
  }

  /** Distinct sensors of the table read distinct fields, so the lookup
      never maps two cards onto the same history column. */
  lemma ConfigFieldsDistinct(s: string, t: string)
    requires s in SensorTable && t in SensorTable && s != t
    ensures ConfigFor(s).field != ConfigFor(t).field
  {
  }

  datatype TimeRange = TimeRange(name: string, hours: int)

  /** `RANGES` */
  const Ranges: seq<TimeRange> := [
    TimeRange("1h", 1),
    TimeRange("24h", 24),
    TimeRange("Week", 168),
    TimeRange("Month", 720)]

  /** `RANGES[1]`, the range selected when the screen opens. */
  const DefaultRange: TimeRange := Ranges[1]

  /** The total preorder `data.sort` is asked to follow: `b` is not newer
      than `a`. An unparsable timestamp ranks below every parsable one. */
  predicate NewerOrSame(a: Option<int>, b: Option<int>) {
    b.None? || (a.Some? && a.value >= b.value)
  }

  /** Most recent first. */
  ghost predicate NewestFirst(s: seq<Reading>) {
    forall i, j :: 0 <= i < j < |s| ==> NewerOrSame(s[i].timestamp, s[j].timestamp)
  }
}
