/** The constellation and service tables of gnss/data_types/ServicesUtils.py and the two loops
    that turn requested services into observable types. DataTypeFactory is not part of this
    model: the loops answer the type names they would hand to it ("C1", "L5", ...). */
module ServiceTables {
  import opened Errors

  const AVAILABLE_CONSTELLATIONS: set<string> := {"GPS", "GAL", "UNKNOWN"}

  /** RINEX frequency-band and tracking-mode pairs a GPS service may name. */
  const GPS_AVAILABLE_SERVICES: set<string> :=
    {"1C", "1S", "1L", "1X", "1P", "1W", "1Y", "1M",
     "2C", "2D", "2S", "2L", "2X", "2P", "2W", "2Y", "2M",
     "5I", "5Q", "5X"}

  /** RINEX frequency-band and tracking-mode pairs a Galileo service may name. */
  const GAL_AVAILABLE_SERVICES: set<string> :=
    {"1A", "1B", "1C", "1X", "1Z",
     "5I", "5Q", "5X",
     "7I", "7Q", "7X",
     "8I", "8Q", "8X",
     "6A", "6B", "6C", "6X", "6Z"}

  const CONSTELLATION_TO_CODE: map<string, string> := map["GPS" := "G", "GAL" := "E", "UNKNOWN" := "U"]

  const CODE_TO_CONSTELLATION: map<string, string> := map["G" := "GPS", "E" := "GAL"]

  /** Every service of both tables is two characters long. */
  lemma ServicesAreTwoCharacters()
    ensures forall s :: s in GPS_AVAILABLE_SERVICES ==> |s| == 2
    ensures forall s :: s in GAL_AVAILABLE_SERVICES ==> |s| == 2
  {}

  /** The code map is the inverse of the constellation map on GPS and Galileo; UNKNOWN's code
      has no way back. */
  lemma CodeMapsInvert()
    ensures forall n :: n in CONSTELLATION_TO_CODE && n != "UNKNOWN" ==>
              CONSTELLATION_TO_CODE[n] in CODE_TO_CONSTELLATION && CODE_TO_CONSTELLATION[CONSTELLATION_TO_CODE[n]] == n
    ensures forall c :: c in CODE_TO_CONSTELLATION ==>
              CODE_TO_CONSTELLATION[c] in CONSTELLATION_TO_CODE && CONSTELLATION_TO_CODE[CODE_TO_CONSTELLATION[c]] == c
    ensures CONSTELLATION_TO_CODE["UNKNOWN"] !in CODE_TO_CONSTELLATION
  {
    assert CONSTELLATION_TO_CODE.Keys == {"GPS", "GAL", "UNKNOWN"};
    assert CODE_TO_CONSTELLATION.Keys == {"G", "E"};
  }

  /** The service table a constellation name selects: only "GPS" and "GAL" have one. */
  function TableFor(constellation: string): (r: Option<set<string>>)
    ensures r.Some? <==> constellation == "GPS" || constellation == "GAL"
    ensures r.Some? ==> forall s :: s in r.value ==> |s| == 2
  {
    ServicesAreTwoCharacters();
    if constellation == "GPS" then Some(GPS_AVAILABLE_SERVICES)
    else if constellation == "GAL" then Some(GAL_AVAILABLE_SERVICES)
    else None
  }

  /** The type names the loops build: `letter` followed by the band digit, for the services of
      the constellation's table, in input order. */
  function TypesFor(services: seq<string>, constellation: string, letter: char): (r: seq<string>)
    ensures |r| <= |services|
    ensures TableFor(constellation).None? ==> r == []
    ensures forall k :: 0 <= k < |r| ==> |r[k]| == 2 && r[k][0] == letter
  {
    if services == [] then []
    else
      var last := services[|services| - 1];
      var table := TableFor(constellation);
      TypesFor(services[..|services| - 1], constellation, letter)
        + if table.Some? && last in table.value then [[letter, last[0]]] else []
  }

  /** A type name comes out exactly when some listed service of the table has its band digit. */
  lemma {:induction false} TypesForMembers(services: seq<string>, constellation: string, letter: char)
    requires TableFor(constellation).Some?
    ensures forall x :: x in TypesFor(services, constellation, letter) <==>
              exists k :: 0 <= k < |services| && services[k] in TableFor(constellation).value && x == [letter, services[k][0]]
  {
    if services != [] {
      var init := services[..|services| - 1];
      TypesForMembers(init, constellation, letter);
      forall x ensures x in TypesFor(services, constellation, letter) <==>
                       exists k :: 0 <= k < |services| && services[k] in TableFor(constellation).value && x == [letter, services[k][0]] {
        if x in TypesFor(init, constellation, letter) {
          var k :| 0 <= k < |init| && init[k] in TableFor(constellation).value && x == [letter, init[k][0]];
          assert services[k] == init[k];
        }
        if exists k :: 0 <= k < |services| && services[k] in TableFor(constellation).value && x == [letter, services[k][0]] {
          var k :| 0 <= k < |services| && services[k] in TableFor(constellation).value && x == [letter, services[k][0]];
          if k < |init| {
            assert init[k] == services[k];
          }
        }
      }
    }
  }

  /** When every listed service is in the table, each one yields a type, in order. */
  lemma {:induction false} TypesForAllKnown(services: seq<string>, constellation: string, letter: char)
    requires TableFor(constellation).Some?
    requires forall k :: 0 <= k < |services| ==> services[k] in TableFor(constellation).value
    ensures var r := TypesFor(services, constellation, letter);
            |r| == |services| && forall k :: 0 <= k < |r| ==> r[k] == [letter, services[k][0]]
  {
    if services != [] {
      var init := services[..|services| - 1];
      TypesForAllKnown(init, constellation, letter);
    }
  }

  /** The loop `get_code_type_from_service` and `get_carrier_type_from_service` share (ServicesUtils.py). */
  method TypesFromService(services: seq<string>, constellation: string, letter: char) returns (datatypes: seq<string>)
    ensures datatypes == TypesFor(services, constellation, letter)
  {
    datatypes := [];
    var table := TableFor(constellation);
    if table.None? {
      return;
    }
    var i := 0;
    while i < |services|
      invariant 0 <= i <= |services|
      invariant datatypes == TypesFor(services[..i], constellation, letter)
    {
      assert services[..i + 1][..i] == services[..i];
      var service := services[i];
      if service in table.value {
        datatypes := datatypes + [[letter, service[0]]];
      }
      i := i + 1;
    }
    assert services[..i] == services;
  }

  /** `get_code_type_from_service(services, constellation)`: the code types "C<band>". */
  method GetCodeTypeFromService(services: seq<string>, constellation: string) returns (datatypes: seq<string>)
    ensures datatypes == TypesFor(services, constellation, 'C')
  {
    datatypes := TypesFromService(services, constellation, 'C');
  }

  /** `get_carrier_type_from_service(services, constellation)`: the carrier types "L<band>". */
  method GetCarrierTypeFromService(services: seq<string>, constellation: string) returns (datatypes: seq<string>)
    ensures datatypes == TypesFor(services, constellation, 'L')
  {
    datatypes := TypesFromService(services, constellation, 'L');
  }
}
