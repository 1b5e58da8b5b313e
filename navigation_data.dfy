/** The navigation-message store (data_types/containers/NavigationData.py): per-satellite time
    series of broadcast messages and a time series of navigation headers keyed by first epoch. */
module Navigation {
  import opened Errors
  import opened PyTypes
  import opened Epochs
  import opened Series
  import Containers
  import Observations

  type Satellite = Observations.Satellite

  /** The values a navigation header or message slot holds. */
  datatype NavValue = NoneValue | Text(s: string) | Number(x: real) | Time(e: Epoch) | Corrections(c: map<string, seq<real>>)

  const NAV_HEADER_SLOTS: seq<string> := ["rinex_version", "satellite_system", "iono_corrections", "leap_seconds", "first_epoch"]

  const NAV_POINT_SLOTS: seq<string> :=
    ["satellite", "toc", "af0", "af1", "af2", "IODE", "crs", "deltaN", "M0", "cuc", "eccentricity", "cus", "sqrtA",
     "cic", "RAAN0", "cis", "i0", "crc", "omega", "RAANDot", "iDot", "codesL2", "toe", "flagL2",
     "SV_URA", "SV_health", "TGD", "IODC", "TransmissionTime"]

  /** Every slot of `c` that lies in `names` holds None. */
  ghost predicate AllNone(c: Containers.Container<NavValue>, names: seq<string>)
    reads c
  {
    forall n :: n in names ==> n in c.fields && c.fields[n] == NoneValue
  }

  /** The slot loop both constructors share: every slot set to None. */
  method NoneSlots(name: string, slots: seq<string>) returns (c: Containers.Container<NavValue>)
    ensures fresh(c) && c.Valid() && c.className == name && c.slots == slots && AllNone(c, slots)
  {
    c := new Containers.Container(name, slots);
    var i := 0;
    while i < |slots|
      invariant 0 <= i <= |slots| && c.Valid() && c.slots == slots && c.className == name
      invariant AllNone(c, slots[..i])
      modifies c
    {
      var _ := c.SetAttr(slots[i], NoneValue);
      assert slots[..i + 1] == slots[..i] + [slots[i]];
      i := i + 1;
    }
    assert slots[..i] == slots;
  }

  /** `NavigationHeader()`: every slot None except `iono_corrections`, an empty dict. */
  method NewNavigationHeader() returns (h: Containers.Container<NavValue>)
    ensures fresh(h) && h.Valid() && h.className == "NavigationHeader" && h.slots == NAV_HEADER_SLOTS
    ensures h.fields == map["rinex_version" := NoneValue, "satellite_system" := NoneValue,
                            "iono_corrections" := Corrections(map[]), "leap_seconds" := NoneValue,
                            "first_epoch" := NoneValue]
  {
    h := NoneSlots("NavigationHeader", NAV_HEADER_SLOTS);
    var _ := h.SetAttr("iono_corrections", Corrections(map[]));
  }

  /** `NavigationPointGPS()`: every slot None. */
  method NewNavigationPoint() returns (p: Containers.Container<NavValue>)
    ensures fresh(p) && p.Valid() && p.className == "NavigationPointGPS" && p.slots == NAV_POINT_SLOTS
    ensures AllNone(p, NAV_POINT_SLOTS)
  {
    p := NoneSlots("NavigationPointGPS", NAV_POINT_SLOTS);
  }

  /** A navigation message or header by its slot values. */
  type Record = map<string, NavValue>

  /** `get_closest_epoch` then `get_data_for_epoch` on a series: the sorted series, and the entry at
      the greatest stored epoch not after `e`; TimeSeriesError when every stored epoch is after it. */
  function FloorEntry<V>(s: SeriesValue<V>, e: Epoch): (r: (SeriesValue<V>, Result<(Epoch, V)>))
    requires Invariant(s)
    ensures r.0 == SortedSeries(s)
    ensures r.1.Err? <==> forall x :: x in s.data ==> Greater(x, e)
    ensures r.1.Err? ==> r.1.error == TimeSeriesError
    ensures r.1.Ok? ==> var k := r.1.value.0;
                        k in s.data && r.1.value.1 == s.data[k] && !Greater(k, e)
                        && forall x :: x in s.data && !Greater(x, e) ==> !Greater(x, k)
  {
    var t := SortedSeries(s);
    ClosestIsFloor(t.epochs, e);
    match ClosestIn(t.epochs, e)
      case Err(x) => (t, Err(x))
      case Ok(k) => (t, Ok((k, t.data[k])))
  }

  /** A `NavigationDataMap` object. */
  class NavigationDataMap {
    /** The satellites of the OrderedDict, in insertion order. */
    var sats: seq<Satellite>
    var data: map<Satellite, SeriesValue<Record>>
    var header: SeriesValue<Record>

    ghost predicate Valid() reads this {
      Distinct(sats) && (forall s :: s in data <==> s in sats)
      && (forall s :: s in data ==> Invariant(data[s])) && Invariant(header)
    }

    constructor ()
      ensures Valid() && sats == [] && data == map[] && header == Empty()
    {
      sats, data, header := [], map[], Empty();
    }

    /** `set_data(epoch, satellite, navMessage)`: AttributeError for an argument of the wrong
        type; a satellite's first message starts its series. */
    method SetData(e: Arg<Epoch>, sat: Arg<Satellite>, msg: Arg<Record>) returns (o: Outcome)
      requires Valid()
      modifies this
      ensures Valid() && header == old(header)
      ensures e.WrongType? || sat.WrongType? || msg.WrongType? ==>
                o == Fail(AttributeError) && sats == old(sats) && data == old(data)
      ensures e.Given? && sat.Given? && msg.Given? ==>
                o == Pass
                && data == old(data)[sat.v := WithData(if sat.v in old(data) then old(data)[sat.v] else Empty(), e.v, msg.v)]
                && sats == (if sat.v in old(data) then old(sats) else old(sats) + [sat.v])
    {
      if e.WrongType? || sat.WrongType? || msg.WrongType? {
        return Fail(AttributeError);
      }
      if sat.v in data {
        data := data[sat.v := WithData(data[sat.v], e.v, msg.v)];
      } else {
        var series := WithData(Empty(), e.v, msg.v);
        sats := sats + [sat.v];
        data := data[sat.v := series];
      }
      return Pass;
    }

    /** `set_header(navHeader)`: the header is stored under its first epoch. */
    method SetHeader(h: Arg<Record>) returns (o: Outcome)
      requires Valid()
      requires h.Given? ==> "first_epoch" in h.v && h.v["first_epoch"].Time?
      modifies this
      ensures Valid() && sats == old(sats) && data == old(data)
      ensures h.WrongType? ==> o == Fail(AttributeError) && header == old(header)
      ensures h.Given? ==> o == Pass && header == WithData(old(header), h.v["first_epoch"].e, h.v)
    {
      if h.WrongType? {
        return Fail(AttributeError);
      }
      header := WithData(header, h.v["first_epoch"].e, h.v);
      return Pass;
    }

    /** `get_sat_data(sat)`: KeyError for a satellite without messages. */
    function GetSatData(sat: Satellite): (r: Result<SeriesValue<Record>>)
      reads this
      ensures r.Ok? <==> sat in data
      ensures r.Err? ==> r.error == KeyError
      ensures r.Ok? ==> r.value == data[sat]
    {
      if sat in data then Ok(data[sat]) else Err(KeyError)
    }

    /** `get_sat_data_for_epoch(sat, epoch)`: the message at the greatest stored epoch not after
        the query. A missing satellite raises KeyError, which the handler for TimeSeriesError lets
        through; the satellite's series ends up sorted. */
    method GetSatDataForEpoch(sat: Satellite, e: Epoch) returns (r: Result<Record>)
      requires Valid()
      modifies this
      ensures Valid() && sats == old(sats) && header == old(header)
      ensures sat !in old(data) ==> r == Err(KeyError) && data == old(data)
      ensures sat in old(data) ==>
                var f := FloorEntry(old(data)[sat], e);
                data == old(data)[sat := f.0] && (if f.1.Ok? then r == Ok(f.1.value.1) else r == Err(TimeSeriesError))
    {
      if sat !in data {
        return Err(KeyError);
      }
      var series := SortedSeries(data[sat]);
      data := data[sat := series];
      var k := Closest(series.epochs, e);
      ClosestIsFloor(series.epochs, e);
      if k.Err? {
        return Err(TimeSeriesError);
      }
      return Ok(series.data[k.value]);
    }

    /** `get_header_data(epoch)`: the header whose first epoch is the greatest not after the query. */
    method GetHeaderData(e: Epoch) returns (r: Result<Record>)
      requires Valid()
      modifies this
      ensures Valid() && sats == old(sats) && data == old(data)
      ensures var f := FloorEntry(old(header), e);
              header == f.0 && (if f.1.Ok? then r == Ok(f.1.value.1) else r == Err(TimeSeriesError))
    {
      header := SortedSeries(header);
      var k := Closest(header.epochs, e);
      ClosestIsFloor(header.epochs, e);
      if k.Err? {
        return Err(TimeSeriesError);
      }
      return Ok(header.data[k.value]);
    }
  }

  /** A message set for an epoch is what a lookup at that very epoch answers. */
  lemma SetThenLookup(s: SeriesValue<Record>, e: Epoch, m: Record)
    requires Invariant(s)
    ensures var f := FloorEntry(WithData(s, e, m), e);
            f.1.Ok? && (f.1.value.0 == e || (!Greater(f.1.value.0, e) && !Greater(e, f.1.value.0)))
  {
    SetDataFacts(s, e, m);
    var t := WithData(s, e, m);
    OrderFacts(e, e, e);
    var f := FloorEntry(t, e);
    assert e in t.data && !Greater(e, e);
  }
}
