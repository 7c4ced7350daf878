/** The per-card status words and value text of src/screens/HomeScreen.js.
    The ternaries test `!== null` only, so a field missing from the payload
    (undefined) fails every comparison and falls through to the last word. */
module Status {
  import opened Values

  const Placeholder: string := "--"

  /** `MOISTURE_THRESHOLD` */
  const MoistureThreshold: real := 500.0

  /** `getMoistureStatus(raw)` */
  function MoistureStatus(raw: JsNumber): (s: string)
    ensures s == Placeholder <==> raw.Null?
    ensures s == "Wet" <==> raw.Num? && raw.n > MoistureThreshold
    ensures s == "Dry" <==> raw.Undefined? || (raw.Num? && raw.n <= MoistureThreshold)
  {
    if raw.Null? then Placeholder
    else if raw.Num? && raw.n > MoistureThreshold then "Wet"
    else "Dry"
  }

  /** The status of the light card. */
  function LightStatus(v: JsNumber): (s: string)
    ensures s == Placeholder <==> v.Null?
    ensures s == "Great" <==> v.Num? && v.n > 70.0
    ensures s == "Good" <==> v.Num? && 30.0 < v.n <= 70.0
    ensures s == "Bad" <==> v.Undefined? || (v.Num? && v.n <= 30.0)
  {
    if v.Null? then Placeholder
    else if v.Num? && v.n > 70.0 then "Great"
    else if v.Num? && v.n > 30.0 then "Good"
    else "Bad"
  }

  /** The status of the temperature card. */
  function TemperatureStatus(v: JsNumber): (s: string)
    ensures s == Placeholder <==> v.Null?
    ensures s == "High" <==> v.Num? && v.n > 28.0
    ensures s == "Low" <==> v.Num? && v.n < 18.0
    ensures s == "Good" <==> v.Undefined? || (v.Num? && 18.0 <= v.n <= 28.0)
  {
    if v.Null? then Placeholder
    else if v.Num? && v.n > 28.0 then "High"
    else if v.Num? && v.n < 18.0 then "Low"
    else "Good"
  }

  /** The status of the humidity card. */
  function HumidityStatus(v: JsNumber): (s: string)
    ensures s == Placeholder <==> v.Null?
    ensures s == "High" <==> v.Num? && v.n > 70.0
    ensures s == "Low" <==> v.Num? && v.n < 30.0
    ensures s == "Good" <==> v.Undefined? || (v.Num? && 30.0 <= v.n <= 70.0)
  {
    if v.Null? then Placeholder
    else if v.Num? && v.n > 70.0 then "High"
    else if v.Num? && v.n < 30.0 then "Low"
    else "Good"
  }

  /** The text `formatValue` builds: '--', the number rendered with
      `toFixed(decimals)` followed by a unit, or `value.toString()`. */
  datatype ValueText = Dashes | Fixed(value: real, decimals: nat, suffix: string) | Plain(value: real)

  /** `formatValue(value, unit, decimals)` */
  function FormatValue(v: JsNumber, unit: string, decimals: nat): (t: ValueText)
    ensures t.Dashes? <==> !IsPresent(v)
    ensures t.Fixed? <==> IsPresent(v) && (unit == "°C" || unit == "%")
    ensures t.Fixed? ==> t.value == v.n && t.decimals == decimals && t.suffix == unit
    ensures t.Plain? ==> t.value == v.n && unit != "°C" && unit != "%"
  {
    match v
    case Num(x) =>
      if unit == "°C" then Fixed(x, decimals, "°C")
      else if unit == "%" then Fixed(x, decimals, "%")
      else Plain(x)
    case _ => Dashes
  }

  /** Greater light never gives a worse status. */
  lemma LightMonotone(x: real, y: real)
    requires x <= y
    ensures LightRank(LightStatus(Num(x))) <= LightRank(LightStatus(Num(y)))
  {
  }

  function LightRank(s: string): int {
    if s == "Great" then 2 else if s == "Good" then 1 else 0
  }
}
