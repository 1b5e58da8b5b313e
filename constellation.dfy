/** The constellation names of data_types/gnss/Constellation.py. A `SatelliteSystem` is a string
    subclass; its value is one of three upper-case names, so the model is an enumeration with
    the name it stands for. */
module Constellations {
  import opened Errors
  import opened Text
  import opened ServiceTables

  datatype SatelliteSystem = GPS | GAL | UNKNOWN

  /** The string value of a `SatelliteSystem`. */
  function Name(s: SatelliteSystem): (r: string)
    ensures r in AVAILABLE_CONSTELLATIONS
  {
    match s
    case GPS => "GPS"
    case GAL => "GAL"
    case UNKNOWN => "UNKNOWN"
  }

  /** `SatelliteSystem(content)`: the upper-cased content when it names an available
      constellation, ValueError otherwise. */
  function NewSatelliteSystem(content: string): (r: Result<SatelliteSystem>)
    ensures r.Ok? <==> Upper(content) in AVAILABLE_CONSTELLATIONS
    ensures r.Ok? ==> Name(r.value) == Upper(content)
    ensures r.Err? ==> r.error == ValueError
  {
    var u := Upper(content);
    if u == "GPS" then Ok(GPS)
    else if u == "GAL" then Ok(GAL)
    else if u == "UNKNOWN" then Ok(UNKNOWN)
    else Err(ValueError)
  }

  /** Each system is rebuilt from its own name, and from the name in any letter case. */
  lemma NameRoundTrip(s: SatelliteSystem, content: string)
    requires Upper(content) == Name(s)
    ensures Upper(Name(s)) == Name(s)
    ensures NewSatelliteSystem(Name(s)) == Ok(s)
    ensures NewSatelliteSystem(content) == Ok(s)
  {
    UpperEach(Name(s), Name(s));
  }

  /** `is_GPS()`: equality of the string with "GPS". */
  function IsGPS(s: SatelliteSystem): (r: bool)
    ensures r <==> s == GPS
  {
    Name(s) == "GPS"
  }

  /** `is_GAL()`: equality of the string with "GAL". */
  function IsGAL(s: SatelliteSystem): (r: bool)
    ensures r <==> s == GAL
  {
    Name(s) == "GAL"
  }

  /** `get_system_short()`: the RINEX code of the constellation, "UNKNOWN" when the code table
      has no entry (which never happens, since the table covers all three names). */
  function GetSystemShort(s: SatelliteSystem): (r: string)
    ensures s == GPS <==> r == "G"
    ensures s == GAL <==> r == "E"
    ensures s == UNKNOWN <==> r == "U"
  {
    if Name(s) in CONSTELLATION_TO_CODE then CONSTELLATION_TO_CODE[Name(s)] else "UNKNOWN"
  }

  /** `SatelliteSystemFactory(system)`: the long or short name of GPS or Galileo in any letter
      case; anything else, UNKNOWN included, raises UnknownConstellation. */
  function SatelliteSystemFactory(system: string): (r: Result<SatelliteSystem>)
    ensures r.Ok? <==> Upper(system) in {"GPS", "G", "GAL", "E"}
    ensures r.Ok? ==> r.value != UNKNOWN
    ensures r == Ok(GPS) <==> Upper(system) == "GPS" || Upper(system) == "G"
    ensures r.Err? ==> r.error == UnknownConstellation
  {
    var u := Upper(system);
    if u == "GPS" || u == "G" then Ok(GPS)
    else if u == "GAL" || u == "E" then Ok(GAL)
    else Err(UnknownConstellation)
  }

  /** The factory inverts both the long names and the short codes of GPS and Galileo, and the
      code table maps each short code back to the long name. */
  lemma FactoryInvertsNames(s: SatelliteSystem)
    requires s != UNKNOWN
    ensures SatelliteSystemFactory(Name(s)) == Ok(s)
    ensures SatelliteSystemFactory(GetSystemShort(s)) == Ok(s)
    ensures GetSystemShort(s) in CODE_TO_CONSTELLATION && CODE_TO_CONSTELLATION[GetSystemShort(s)] == Name(s)
  {
    assert Upper("G") == "G" && Upper("E") == "E";
  }

  /** UNKNOWN is a valid system but the factory never answers it, not even for its own name. */
  lemma UnknownIsNotFactoryMade()
    ensures NewSatelliteSystem("UNKNOWN") == Ok(UNKNOWN)
    ensures SatelliteSystemFactory("UNKNOWN") == Err(UnknownConstellation)
  {
    assert Upper("UNKNOWN") == "UNKNOWN";
  }
}
