/** `SensorOutputType` of HardwareAbstractions/SensorOutputType.swift: what a
    sensor measures and in which unit, and the text that names it. */
module SensorOutputType {
  import opened Wrappers

  datatype TemperatureUnit = Celsius
  datatype PressureUnit = HPa
  datatype HumidityUnit = Rhd

  datatype OutputType =
    | Temperature(temperatureUnit: TemperatureUnit)
    | BarometricPressure(pressureUnit: PressureUnit)
    | Humidity(humidityUnit: HumidityUnit)

  /** The `String` raw values, which Swift takes from the case names. */
  function TemperatureRawValue(u: TemperatureUnit): (s: string)
    ensures s == "celsius"
  {
    match u
    case Celsius => "celsius"
  }

  function PressureRawValue(u: PressureUnit): (s: string)
    ensures s == "hPa"
  {
    match u
    case HPa => "hPa"
  }

  function HumidityRawValue(u: HumidityUnit): (s: string)
    ensures s == "rhd"
  {
    match u
    case Rhd => "rhd"
  }

  /** Reads a raw value back; the partner of the three functions above. */
  function TemperatureUnitFromRawValue(s: string): (r: Option<TemperatureUnit>)
    ensures r.Some? <==> s == "celsius"
    ensures r.Some? ==> TemperatureRawValue(r.value) == s
  {
    if s == "celsius" then Some(Celsius) else None
  }

  function PressureUnitFromRawValue(s: string): (r: Option<PressureUnit>)
    ensures r.Some? <==> s == "hPa"
    ensures r.Some? ==> PressureRawValue(r.value) == s
  {
    if s == "hPa" then Some(HPa) else None
  }

  function HumidityUnitFromRawValue(s: string): (r: Option<HumidityUnit>)
    ensures r.Some? <==> s == "rhd"
    ensures r.Some? ==> HumidityRawValue(r.value) == s
  {
    if s == "rhd" then Some(Rhd) else None
  }

  /** `toString`: a kind prefix, a hyphen and the unit's raw value. */
  function ToString(t: OutputType): (s: string)
    ensures |s| > |KindPrefix(t)| + 1
    ensures s[..|KindPrefix(t)|] == KindPrefix(t) && s[|KindPrefix(t)|] == '-'
  {
    match t
    case Temperature(unit) => "temperature-" + TemperatureRawValue(unit)
    case BarometricPressure(unit) => "pressure-" + PressureRawValue(unit)
    case Humidity(unit) => "humidity-" + HumidityRawValue(unit)
  }

  /** The text each kind is named by: `barometricPressure` reads "pressure". */
  function KindPrefix(t: OutputType): (p: string)
    ensures '-' !in p
  {
    match t
    case Temperature(_) => "temperature"
    case BarometricPressure(_) => "pressure"
    case Humidity(_) => "humidity"
  }

  /** Splits `s` at its first hyphen. */
  function SplitAtHyphen(s: string): (r: Option<(string, string)>)
    ensures r.Some? ==> s == r.value.0 + "-" + r.value.1 && '-' !in r.value.0
    ensures r.None? <==> '-' !in s
  {
    if s == [] then None
    else if s[0] == '-' then Some(([], s[1..]))
    else
      match SplitAtHyphen(s[1..])
      case None => None
      case Some((head, tail)) => Some(([s[0]] + head, tail))
  }

  /** Parses the text `toString` produces. */
  function Parse(s: string): (r: Option<OutputType>)
  {
    match SplitAtHyphen(s)
    case None => None
    case Some((prefix, unit)) =>
      if prefix == "temperature" then
        match TemperatureUnitFromRawValue(unit)
        case Some(u) => Some(Temperature(u))
        case None => None
      else if prefix == "pressure" then
        match PressureUnitFromRawValue(unit)
        case Some(u) => Some(BarometricPressure(u))
        case None => None
      else if prefix == "humidity" then
        match HumidityUnitFromRawValue(unit)
        case Some(u) => Some(Humidity(u))
        case None => None
      else None
  }

  lemma {:induction false} SplitAtHyphenOfJoin(p: string, u: string)
    requires '-' !in p
    ensures SplitAtHyphen(p + "-" + u) == Some((p, u))
  {
    if p != [] {
      var s := p + "-" + u;
      assert s[0] == p[0] && s[1..] == p[1..] + "-" + u;
      SplitAtHyphenOfJoin(p[1..], u);
      assert [p[0]] + p[1..] == p;
    }
  }

  /** Every name has the form prefix + "-" + unit raw value. */
  lemma ToStringForm(t: OutputType)
    ensures ToString(t) == KindPrefix(t) + "-" + match t
      case Temperature(u) => TemperatureRawValue(u)
      case BarometricPressure(u) => PressureRawValue(u)
      case Humidity(u) => HumidityRawValue(u)
  {
  }

  /** The name determines the output type. */
  lemma ParseToString(t: OutputType)
    ensures Parse(ToString(t)) == Some(t)
  {
    ToStringForm(t);
    SplitAtHyphenOfJoin(KindPrefix(t), ToString(t)[|KindPrefix(t)| + 1..]);
    match t
    case Temperature(u) =>
      assert u == Celsius;
    case BarometricPressure(u) =>
      assert u == HPa && "pressure" != "temperature";
    case Humidity(u) =>
      assert u == Rhd && "humidity" != "temperature" && "humidity" != "pressure";
  }

  /** Whatever parses is exactly the name of what it parses to. */
  lemma ToStringParse(s: string)
    requires Parse(s).Some?
    ensures ToString(Parse(s).value) == s
  {
  }

  /** Distinct output types have distinct names. */
  lemma ToStringInjective(a: OutputType, b: OutputType)
    requires ToString(a) == ToString(b)
    ensures a == b
  {
    ParseToString(a);
    ParseToString(b);
  }

  lemma ToStringExamples()
    ensures ToString(Temperature(Celsius)) == "temperature-celsius"
    ensures ToString(BarometricPressure(HPa)) == "pressure-hPa"
    ensures ToString(Humidity(Rhd)) == "humidity-rhd"
  {
  }
}
