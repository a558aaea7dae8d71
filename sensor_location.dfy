/** `SensorLocation` of HardwareAbstractions/SensorLocation.swift: indoor or
    outdoor, optionally with coordinates, and the text that names it. How a
    `Double` is written out by string interpolation is a parameter. */
module SensorLocation {
  import opened Wrappers

  datatype Location = Location(latitude: real, longitude: real)

  datatype SensorLocation =
    | Indoor(location: Option<Location>)
    | Outdoor(location: Option<Location>)

  /** `Location.toString`: `"lat-<latitude>long-<longitude>"`. */
  function LocationToString(l: Location, format: real -> string): (s: string)
    ensures |s| == 9 + |format(l.latitude)| + |format(l.longitude)|
    ensures s[..4] == "lat-" && s[4..4 + |format(l.latitude)|] == format(l.latitude)
    ensures s[|s| - |format(l.longitude)|..] == format(l.longitude)
    ensures s[|s| - 5 - |format(l.longitude)|..|s| - |format(l.longitude)|] == "long-"
  {
    "lat-" + format(l.latitude) + "long-" + format(l.longitude)
  }

  /** `toString`: the kind, followed by the coordinates when there are any. */
  function ToString(sl: SensorLocation, format: real -> string): (s: string)
    ensures sl.location.None? ==> s == (if sl.Indoor? then "Indoor" else "Outdoor")
    ensures sl.location.Some? ==> |s| >= 15
  {
    var kind := if sl.Indoor? then "Indoor" else "Outdoor";
    kind + match sl.location
      case Some(l) => LocationToString(l, format)
      case None => ""
  }

  /** The kind of location a name was made from, read off its first letter. */
  function KindOf(s: string): (r: Option<bool>)
    ensures r == Some(true) ==> |s| >= 1 && s[0] == 'I'
    ensures r == Some(false) ==> |s| >= 1 && s[0] == 'O'
  {
    if |s| >= 1 && s[0] == 'I' then Some(true)
    else if |s| >= 1 && s[0] == 'O' then Some(false)
    else None
  }

  /** Whether a name carries coordinates: anything past the kind word. */
  function HasCoordinates(s: string): (r: bool)
  {
    s != "Indoor" && s != "Outdoor"
  }

  /** The name starts with the kind word; it is exactly that word when there
      are no coordinates, and the kind word followed by the coordinates'
      text otherwise. */
  lemma ToStringForm(sl: SensorLocation, format: real -> string)
    ensures sl.Indoor? ==> ToString(sl, format)[..6] == "Indoor"
    ensures sl.Outdoor? ==> ToString(sl, format)[..7] == "Outdoor"
    ensures sl == Indoor(None) ==> ToString(sl, format) == "Indoor"
    ensures sl == Outdoor(None) ==> ToString(sl, format) == "Outdoor"
    ensures sl.location.Some? ==>
              ToString(sl, format) == (if sl.Indoor? then "Indoor" else "Outdoor") + LocationToString(sl.location.value, format)
  {
  }

  /** Reading a name back recovers whether it is indoor or outdoor and
      whether it has coordinates. */
  lemma KindAndCoordinatesRecoverable(sl: SensorLocation, format: real -> string)
    ensures KindOf(ToString(sl, format)) == Some(sl.Indoor?)
    ensures HasCoordinates(ToString(sl, format)) <==> sl.location.Some?
  {
    var s := ToString(sl, format);
    if sl.location.Some? {
      var k := if sl.Indoor? then "Indoor" else "Outdoor";
      assert |s| >= |k| + 9;
    }
  }

  /** No indoor name equals an outdoor name. */
  lemma IndoorNeverOutdoor(a: Option<Location>, b: Option<Location>, format: real -> string)
    ensures ToString(Indoor(a), format) != ToString(Outdoor(b), format)
  {
    KindAndCoordinatesRecoverable(Indoor(a), format);
    KindAndCoordinatesRecoverable(Outdoor(b), format);
  }
}
