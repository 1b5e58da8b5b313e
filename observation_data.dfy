/** The GNSS observation store (gnss/data_types/ObservationData.py): per-epoch observations
    grouped by satellite (`EpochData`), and the time series of them (`ObservationData`). */
module Observations {
  import opened Errors
  import opened PyTypes
  import opened Epochs
  import opened Series
  import Containers

  /** A satellite, by its RINEX identifier such as "G01"; Satellite.py is not part of this model. */
  type Satellite = string

  /** An observation type: its RINEX code and the frequency band it belongs to. */
  datatype DataType = DataType(code: string, freq: string)

  /** One observed value and its type; two observations are equal when type and value are. */
  datatype Observation = Observation(kind: DataType, value: real)

  /** The values a `Header` slot holds. */
  datatype HeaderValue = NoneValue | Text(s: string) | Number(x: real) | Time(e: Epoch) | Coordinates(xyz: seq<real>)

  const HEADER_SLOTS: seq<string> :=
    ["rinex_version", "satellite_system", "time_system", "receiver_position", "leap_seconds", "first_epoch", "last_epoch"]

  /** `Header()`: a container of the seven header slots, each set to None. */
  method NewHeader() returns (h: Containers.Container<HeaderValue>)
    ensures fresh(h) && h.Valid() && h.className == "Header" && h.slots == HEADER_SLOTS
    ensures forall n :: n in HEADER_SLOTS ==> n in h.fields && h.fields[n] == NoneValue
  {
    h := new Containers.Container("Header", HEADER_SLOTS);
    var i := 0;
    while i < |HEADER_SLOTS|
      invariant 0 <= i <= |HEADER_SLOTS| && h.Valid() && h.slots == HEADER_SLOTS && h.className == "Header"
      invariant forall n :: n in HEADER_SLOTS[..i] ==> n in h.fields && h.fields[n] == NoneValue
      modifies h
    {
      var _ := h.SetAttr(HEADER_SLOTS[i], NoneValue);
      i := i + 1;
    }
    assert HEADER_SLOTS[..i] == HEADER_SLOTS;
  }

  // ---------------------------------------------------------------------------------------
  // EpochData

  /** The dictionary of an `EpochData`: satellites in insertion order and their observations. */
  datatype EpochDataValue = EpochDataValue(sats: seq<Satellite>, obs: map<Satellite, seq<Observation>>)

  /** Satellites are distinct and are exactly the keys; no satellite keeps an empty list. */
  ghost predicate EpochInvariant(d: EpochDataValue) {
    Distinct(d.sats) && (forall s :: s in d.obs <==> s in d.sats) && (forall s :: s in d.obs ==> d.obs[s] != [])
  }

  function NewEpochData(): (d: EpochDataValue)
    ensures EpochInvariant(d) && d.sats == []
  {
    EpochDataValue([], map[])
  }

  /** `set_observable(satellite, observation)`. */
  function WithObservable(d: EpochDataValue, sat: Satellite, o: Observation): (r: EpochDataValue)
    requires EpochInvariant(d)
    ensures EpochInvariant(r)
  {
    if sat in d.obs then
      if o in d.obs[sat] then d else EpochDataValue(d.sats, d.obs[sat := d.obs[sat] + [o]])
    else EpochDataValue(d.sats + [sat], d.obs[sat := [o]])
  }

  /** `set_observable` never overwrites: a satellite's list only grows, by the observation when
      it is new, and a new satellite starts with a one-element list; no other satellite changes. */
  lemma SetObservableKeeps(d: EpochDataValue, sat: Satellite, o: Observation)
    requires EpochInvariant(d)
    ensures var r := WithObservable(d, sat, o);
            sat in r.obs && o in r.obs[sat]
            && (sat in d.obs ==> r.sats == d.sats && r.obs[sat] == d.obs[sat] + (if o in d.obs[sat] then [] else [o]))
            && (sat !in d.obs ==> r.sats == d.sats + [sat] && r.obs[sat] == [o])
            && forall s :: s in d.obs && s != sat ==> s in r.obs && r.obs[s] == d.obs[s]
  {}

  /** The index of the first observation of type `dt`, if any. */
  function FirstOfType(list: seq<Observation>, dt: DataType): (r: Option<nat>)
    ensures r.None? <==> forall j :: 0 <= j < |list| ==> list[j].kind != dt
    ensures r.Some? ==> r.value < |list| && list[r.value].kind == dt
                        && forall j :: 0 <= j < r.value ==> list[j].kind != dt
  {
    if list == [] then None
    else if list[0].kind == dt then Some(0)
    else match FirstOfType(list[1..], dt)
      case None => None
      case Some(k) => Some(k + 1)
  }

  /** `get_observables(sat)`: KeyError for a satellite without observations. */
  function Observables(d: EpochDataValue, sat: Satellite): (r: Result<seq<Observation>>)
    ensures r.Ok? <==> sat in d.obs
    ensures r.Err? ==> r.error == KeyError
    ensures r.Ok? ==> r.value == d.obs[sat]
  {
    if sat in d.obs then Ok(d.obs[sat]) else Err(KeyError)
  }

  /** `get_observable(sat, datatype)`: the first observation of that type. */
  function ObservableOf(d: EpochDataValue, sat: Satellite, dt: DataType): (r: Result<Observation>)
    ensures sat !in d.obs ==> r == Err(KeyError)
    ensures sat in d.obs ==> (r.Ok? <==> exists o :: o in d.obs[sat] && o.kind == dt)
    ensures sat in d.obs && r.Err? ==> r.error == NonExistentObservable
    ensures r.Ok? ==> r.value in d.obs[sat] && r.value.kind == dt
  {
    if sat !in d.obs then Err(KeyError)
    else
      var k := FirstOfType(d.obs[sat], dt);
      if k.None? then Err(NonExistentObservable) else Ok(d.obs[sat][k.value])
  }

  /** `has_observable(sat, datatype)`. */
  function HasObservableOf(d: EpochDataValue, sat: Satellite, dt: DataType): (r: Result<bool>)
    ensures sat !in d.obs <==> r == Err(KeyError)
    ensures r.Ok? ==> (r.value <==> ObservableOf(d, sat, dt).Ok?)
  {
    if sat !in d.obs then Err(KeyError) else Ok(FirstOfType(d.obs[sat], dt).Some?)
  }

  /** The satellite has an observation of every listed type. */
  predicate HasAll(d: EpochDataValue, sat: Satellite, dts: seq<DataType>)
    requires sat in d.obs
  {
    forall t :: t in dts ==> FirstOfType(d.obs[sat], t).Some?
  }

  /** `get_satellites_for_datatypes(*datatypes)` over the satellites `sats`, in their order. */
  function SatellitesWithAll(d: EpochDataValue, sats: seq<Satellite>, dts: seq<DataType>): (r: seq<Satellite>)
    requires forall s :: s in sats ==> s in d.obs
    ensures forall s :: s in r <==> s in sats && HasAll(d, s, dts)
    ensures |r| <= |sats|
  {
    if sats == [] then []
    else
      var rest := SatellitesWithAll(d, sats[1..], dts);
      if HasAll(d, sats[0], dts) then [sats[0]] + rest else rest
  }

  /** The observations of `list` that `keep` accepts, in order. */
  function Kept(list: seq<Observation>, keep: Observation -> bool): (r: seq<Observation>)
    ensures forall o :: o in r <==> o in list && keep(o)
    ensures |r| <= |list|
  {
    if list == [] then []
    else (if keep(list[0]) then [list[0]] else []) + Kept(list[1..], keep)
  }

  /** The loop that rebuilds a satellite's list, keeping what `keep` accepts. */
  method KeptLoop(list: seq<Observation>, keep: Observation -> bool) returns (newList: seq<Observation>)
    ensures newList == Kept(list, keep)
  {
    newList := [];
    var i := 0;
    while i < |list|
      invariant 0 <= i <= |list|
      invariant newList + Kept(list[i..], keep) == Kept(list, keep)
    {
      assert list[i..][1..] == list[i + 1..];
      if keep(list[i]) {
        newList := newList + [list[i]];
      }
      i := i + 1;
    }
    assert list[i..] == [];
  }

  /** The common shape of `remove_observable` and `remove_for_frequency`: the satellite's list
      is filtered, and the satellite is popped when nothing is left. */
  function RemoveWhere(d: EpochDataValue, sat: Satellite, keep: Observation -> bool): (r: Result<EpochDataValue>)
    requires EpochInvariant(d)
    ensures sat !in d.obs <==> r == Err(KeyError)
    ensures r.Ok? ==> EpochInvariant(r.value)
    ensures r.Ok? ==> forall s :: s in d.obs && s != sat ==> s in r.value.obs && r.value.obs[s] == d.obs[s]
    ensures r.Ok? ==> (sat in r.value.obs <==> Kept(d.obs[sat], keep) != [])
    ensures r.Ok? && sat in r.value.obs ==> r.value.obs[sat] == Kept(d.obs[sat], keep) && r.value.sats == d.sats
    ensures r.Ok? ==> forall s :: s in r.value.sats <==> s in d.sats && (s != sat || Kept(d.obs[sat], keep) != [])
  {
    if sat !in d.obs then Err(KeyError)
    else
      var l := Kept(d.obs[sat], keep);
      if l != [] then Ok(EpochDataValue(d.sats, d.obs[sat := l]))
      else
        RemoveFirstDistinct(d.sats, sat);
        Ok(EpochDataValue(RemoveFirst(d.sats, sat), d.obs - {sat}))
  }

  /** `EpochData.remove_observable(sat, datatype)`: every observation of that type goes. */
  function RemoveObservableOf(d: EpochDataValue, sat: Satellite, dt: DataType): (r: Result<EpochDataValue>)
    requires EpochInvariant(d)
    ensures sat !in d.obs <==> r == Err(KeyError)
    ensures r.Ok? && sat in r.value.obs ==> forall o :: o in r.value.obs[sat] <==> o in d.obs[sat] && o.kind != dt
    ensures r.Ok? && sat !in r.value.obs ==> forall o :: o in d.obs[sat] ==> o.kind == dt
  {
    RemoveWhere(d, sat, (o: Observation) => o.kind != dt)
  }

  /** `EpochData.remove_for_frequency(sat, datatype)`: every observation on that frequency goes. */
  function RemoveFrequencyOf(d: EpochDataValue, sat: Satellite, dt: DataType): (r: Result<EpochDataValue>)
    requires EpochInvariant(d)
    ensures sat !in d.obs <==> r == Err(KeyError)
    ensures r.Ok? && sat in r.value.obs ==> forall o :: o in r.value.obs[sat] <==> o in d.obs[sat] && o.kind.freq != dt.freq
    ensures r.Ok? && sat !in r.value.obs ==> forall o :: o in d.obs[sat] ==> o.kind.freq == dt.freq
  {
    RemoveWhere(d, sat, (o: Observation) => o.kind.freq != dt.freq)
  }

  /** After `set_observable` the satellite has an observation of that type, so `has_observable`
      answers True and `get_observable` succeeds. */
  lemma SetThenHas(d: EpochDataValue, sat: Satellite, o: Observation)
    requires EpochInvariant(d)
    ensures HasObservableOf(WithObservable(d, sat, o), sat, o.kind) == Ok(true)
    ensures ObservableOf(WithObservable(d, sat, o), sat, o.kind).Ok?
  {
    SetObservableKeeps(d, sat, o);
    var r := WithObservable(d, sat, o);
    var i :| 0 <= i < |r.obs[sat]| && r.obs[sat][i] == o;
    assert FirstOfType(r.obs[sat], o.kind).Some?;
  }

  /** After `remove_observable` the satellite has no observation of that type left. */
  lemma RemoveThenAbsent(d: EpochDataValue, sat: Satellite, dt: DataType)
    requires EpochInvariant(d) && sat in d.obs
    ensures var r := RemoveObservableOf(d, sat, dt).value;
            sat !in r.obs || (ObservableOf(r, sat, dt) == Err(NonExistentObservable) && HasObservableOf(r, sat, dt) == Ok(false))
  {
  }

  /** `remove_satellite(sat)`: pops the satellite when present. */
  function WithoutSatellite(d: EpochDataValue, sat: Satellite): (r: EpochDataValue)
    requires EpochInvariant(d)
    ensures EpochInvariant(r) && sat !in r.obs
    ensures forall s :: s in d.obs && s != sat ==> s in r.obs && r.obs[s] == d.obs[s]
  {
    if sat !in d.obs then d
    else
      RemoveFirstDistinct(d.sats, sat);
      EpochDataValue(RemoveFirst(d.sats, sat), d.obs - {sat})
  }

  /** An `EpochData` object. */
  class EpochData {
    var sats: seq<Satellite>
    var obs: map<Satellite, seq<Observation>>

    function Value(): EpochDataValue reads this { EpochDataValue(sats, obs) }

    ghost predicate Valid() reads this { EpochInvariant(Value()) }

    constructor ()
      ensures Valid() && Value() == NewEpochData()
    {
      sats, obs := [], map[];
    }

    /** `set_observable(satellite, observation)`: always answers True. */
    method SetObservable(sat: Satellite, o: Observation) returns (b: bool)
      requires Valid()
      modifies this
      ensures Valid() && b && Value() == WithObservable(old(Value()), sat, o)
    {
      if sat in obs {
        if o !in obs[sat] {
          obs := obs[sat := obs[sat] + [o]];
        }
      } else {
        sats := sats + [sat];
        obs := obs[sat := [o]];
      }
      return true;
    }

    /** `get_observables(sat)`. */
    function GetObservables(sat: Satellite): (r: Result<seq<Observation>>)
      reads this
      ensures r.Ok? <==> sat in obs
      ensures r.Ok? ==> r.value == obs[sat]
    {
      Observables(Value(), sat)
    }

    /** `get_observable(sat, datatype)`: scans the satellite's list for the type. */
    method GetObservable(sat: Satellite, dt: DataType) returns (r: Result<Observation>)
      ensures r == ObservableOf(Value(), sat, dt)
    {
      if sat !in obs {
        return Err(KeyError);
      }
      var list := obs[sat];
      var i := 0;
      while i < |list|
        invariant 0 <= i <= |list|
        invariant forall j :: 0 <= j < i ==> list[j].kind != dt
      {
        if list[i].kind == dt {
          return Ok(list[i]);
        }
        i := i + 1;
      }
      return Err(NonExistentObservable);
    }

    /** `has_observable(sat, datatype)`. */
    method HasObservable(sat: Satellite, dt: DataType) returns (r: Result<bool>)
      ensures r == HasObservableOf(Value(), sat, dt)
    {
      if sat !in obs {
        return Err(KeyError);
      }
      var list := obs[sat];
      var i := 0;
      while i < |list|
        invariant 0 <= i <= |list|
        invariant forall j :: 0 <= j < i ==> list[j].kind != dt
      {
        if list[i].kind == dt {
          return Ok(true);
        }
        i := i + 1;
      }
      return Ok(false);
    }

    /** `get_satellites()`: the satellites in insertion order. */
    function GetSatellites(): (r: seq<Satellite>)
      reads this
      requires Valid()
      ensures forall s :: s in r <==> s in obs
    {
      sats
    }

    /** `get_satellites_for_datatypes(*datatypes)`. */
    method GetSatellitesForDatatypes(dts: seq<DataType>) returns (r: seq<Satellite>)
      requires Valid()
      ensures r == SatellitesWithAll(Value(), sats, dts)
    {
      r := [];
      var i := 0;
      while i < |sats|
        invariant 0 <= i <= |sats|
        invariant r + SatellitesWithAll(Value(), sats[i..], dts) == SatellitesWithAll(Value(), sats, dts)
      {
        var hasType := HasAllTypes(sats[i], dts);
        assert sats[i..][1..] == sats[i + 1..];
        if hasType {
          r := r + [sats[i]];
        }
        i := i + 1;
      }
    }

    /** The inner loop of `get_satellites_for_datatypes`: every type is looked up, none skipped. */
    method HasAllTypes(sat: Satellite, dts: seq<DataType>) returns (hasType: bool)
      requires sat in obs
      ensures hasType == HasAll(Value(), sat, dts)
    {
      hasType := true;
      var j := 0;
      while j < |dts|
        invariant 0 <= j <= |dts|
        invariant hasType <==> forall t :: t in dts[..j] ==> FirstOfType(obs[sat], t).Some?
      {
        var h := HasObservable(sat, dts[j]);
        assert h.value == FirstOfType(obs[sat], dts[j]).Some?;
        assert dts[..j + 1] == dts[..j] + [dts[j]];
        if !h.value {
          hasType := false;
        }
        j := j + 1;
      }
      assert dts[..j] == dts;
    }

    /** `remove_observable(sat, datatype)`: rebuilds the satellite's list without that type. */
    method RemoveObservable(sat: Satellite, dt: DataType) returns (o: Outcome)
      requires Valid()
      modifies this
      ensures Valid()
      ensures var r := RemoveObservableOf(old(Value()), sat, dt);
              if r.Err? then o == Fail(KeyError) && Value() == old(Value()) else o == Pass && Value() == r.value
    {
      o := RemoveKept(sat, (x: Observation) => x.kind != dt);
    }

    /** `remove_for_frequency(sat, datatype)`: rebuilds the satellite's list without that frequency. */
    method RemoveForFrequency(sat: Satellite, dt: DataType) returns (o: Outcome)
      requires Valid()
      modifies this
      ensures Valid()
      ensures var r := RemoveFrequencyOf(old(Value()), sat, dt);
              if r.Err? then o == Fail(KeyError) && Value() == old(Value()) else o == Pass && Value() == r.value
    {
      o := RemoveKept(sat, (x: Observation) => x.kind.freq != dt.freq);
    }

    /** The loop both removals share: keep what `keep` accepts, pop the satellite if nothing is left. */
    method RemoveKept(sat: Satellite, keep: Observation -> bool) returns (o: Outcome)
      requires Valid()
      modifies this
      ensures Valid()
      ensures var r := RemoveWhere(old(Value()), sat, keep);
              if r.Err? then o == Fail(KeyError) && Value() == old(Value()) else o == Pass && Value() == r.value
    {
      if sat !in obs {
        return Fail(KeyError);
      }
      var newList := KeptLoop(obs[sat], keep);
      if newList != [] {
        obs := obs[sat := newList];
      } else {
        RemoveFirstDistinct(sats, sat);
        sats := RemoveFirst(sats, sat);
        obs := obs - {sat};
      }
      return Pass;
    }

    /** `remove_satellite(sat)`. */
    method RemoveSatellite(sat: Satellite)
      requires Valid()
      modifies this
      ensures Valid() && Value() == WithoutSatellite(old(Value()), sat)
    {
      if sat in obs {
        RemoveFirstDistinct(sats, sat);
        sats := RemoveFirst(sats, sat);
        obs := obs - {sat};
      }
    }
  }

  // ---------------------------------------------------------------------------------------
  // ObservationData

  /** Every epoch's data keeps the `EpochData` invariant. */
  ghost predicate StoreInvariant(s: SeriesValue<EpochDataValue>) {
    Invariant(s) && forall e :: e in s.data ==> EpochInvariant(s.data[e])
  }

  /** `set_observation(epoch, satellite, obs)` on the series: the epoch's data is created on
      first use, then the observation is set in it. */
  function WithObservation(s: SeriesValue<EpochDataValue>, e: Epoch, sat: Satellite, o: Observation): (r: SeriesValue<EpochDataValue>)
    requires StoreInvariant(s)
    ensures StoreInvariant(r)
    ensures e in r.data && r.data[e] == WithObservable(if e in s.data then s.data[e] else NewEpochData(), sat, o)
    ensures forall d :: d in s.data && d != e ==> d in r.data && r.data[d] == s.data[d]
    ensures e in s.data ==> r.epochs == s.epochs && r.sorted == s.sorted
    ensures e !in s.data ==> r.epochs == s.epochs + [e] && !r.sorted
  {
    var s1 := if e in s.epochs then s else WithData(s, e, NewEpochData());
    WithData(s1, e, WithObservable(s1.data[e], sat, o))
  }

  /** `ObservationData.remove_observable(sat, epoch, datatype)` on the series: the epoch goes
      once its last satellite is gone. A missing epoch or satellite raises KeyError, which the
      handler for NonExistentObservable does not catch. */
  function SeriesWithoutObservable(s: SeriesValue<EpochDataValue>, sat: Satellite, e: Epoch, dt: DataType)
    : (r: Result<SeriesValue<EpochDataValue>>)
    requires StoreInvariant(s)
    ensures !HasObservationsAt(s, e, sat) <==> r == Err(KeyError)
    ensures r.Ok? ==> StoreInvariant(r.value) && r.value.data.Keys <= s.data.Keys
    ensures r.Ok? ==> forall d :: d in s.data && d != e ==> d in r.value.data && r.value.data[d] == s.data[d]
    ensures r.Ok? ==> var d := RemoveObservableOf(s.data[e], sat, dt).value;
                      (e in r.value.data <==> d.sats != []) && (e in r.value.data ==> r.value.data[e] == d)
  {
    if e !in s.data then Err(KeyError)
    else match RemoveObservableOf(s.data[e], sat, dt)
      case Err(_) => Err(KeyError)
      case Ok(d) =>
        var s1 := WithData(s, e, d);
        if d.sats == [] then Ok(WithoutEpoch(s1, e).value.0) else Ok(s1)
  }

  /** `set_observation` followed by `get_observable_at_epoch` of that type succeeds. */
  lemma SetObservationThenGet(s: SeriesValue<EpochDataValue>, e: Epoch, sat: Satellite, o: Observation)
    requires StoreInvariant(s)
    ensures var r := WithObservation(s, e, sat, o);
            HasObservationsAt(r, e, sat) && ObservableOf(r.data[e], sat, o.kind).Ok?
  {
    SetThenHas(if e in s.data then s.data[e] else NewEpochData(), sat, o);
  }

  /** `x` appended to a list unless already there. */
  function AddOnce<T(==,!new)>(xs: seq<T>, x: T): (r: seq<T>)
    ensures x in r && forall y :: y in r <==> y in xs || y == x
    ensures Distinct(xs) ==> Distinct(r)
  {
    if x in xs then xs else xs + [x]
  }

  /** A stored `EpochData` holds observations for the satellite. */
  predicate HasObservationsAt(s: SeriesValue<EpochDataValue>, e: Epoch, sat: Satellite) {
    e in s.data && sat in s.data[e].obs
  }

  /** The stored epochs at or beyond `t` in the direction `get_first_arc_epoch` walks. */
  ghost function Ahead(keys: set<Epoch>, t: real, rate: real): set<Epoch> {
    if rate > 0.0 then set k | k in keys && Total(k) <= t else set k | k in keys && Total(k) >= t
  }

  lemma {:induction false} ProperSubsetSmaller<T>(a: set<T>, b: set<T>)
    requires a < b
    ensures |a| < |b|
  {
    var x :| x in b && x !in a;
    var c := b - {x};
    assert a <= c;
    SubsetNoLarger(a, c);
  }

  lemma {:induction false} SubsetNoLarger<T>(a: set<T>, b: set<T>)
    requires a <= b
    ensures |a| <= |b|
    decreases |a|
  {
    if a != {} {
      var x :| x in a;
      SubsetNoLarger(a - {x}, b - {x});
    }
  }

  lemma StepLeavesFewerAhead(keys: set<Epoch>, e: Epoch, rate: real)
    requires rate != 0.0 && e in keys
    ensures |Ahead(keys, Total(e) - rate, rate)| < |Ahead(keys, Total(e), rate)|
  {
    var a, b := Ahead(keys, Total(e) - rate, rate), Ahead(keys, Total(e), rate);
    assert a <= b;
    assert e in b && e !in a;
    ProperSubsetSmaller(a, b);
  }

  /** One step of the walk, `epoch + (-rate)`: `rate` seconds earlier. */
  function StepBack(e: Epoch, rate: real): (r: Epoch)
    ensures Total(r) == Total(e) - rate
  {
    Plus(e, Float(-rate)).value
  }

  /** The epoch `k` steps of `rate` back from `e`. */
  function Back(e: Epoch, rate: real, k: nat): Epoch
    decreases k
  {
    if k == 0 then e else Back(StepBack(e, rate), rate, k - 1)
  }

  /** The walk of `get_first_arc_epoch`: steps `rate` back while the satellite has observations;
      answers the first epoch without them and the number of steps taken. A zero rate is only
      walked from an epoch without observations. */
  function FirstGap(s: SeriesValue<EpochDataValue>, sat: Satellite, e: Epoch, rate: real): (r: (Epoch, nat))
    requires rate != 0.0 || !HasObservationsAt(s, e, sat)
    ensures !HasObservationsAt(s, r.0, sat)
    ensures Total(r.0) == Total(e) - Steps(r.1, rate)
    ensures r.1 == 0 <==> !HasObservationsAt(s, e, sat)
    decreases |Ahead(s.data.Keys, Total(e), rate)|
  {
    if !HasObservationsAt(s, e, sat) then (e, 0)
    else
      var next := StepBack(e, rate);
      StepLeavesFewerAhead(s.data.Keys, e, rate);
      var g := FirstGap(s, sat, next, rate);
      (g.0, g.1 + 1)
  }

  /** The length of `n` steps of `rate`, added up one step at a time. */
  function Steps(n: nat, rate: real): real {
    if n == 0 then 0.0 else Steps(n - 1, rate) + rate
  }

  /** `n` steps of `rate` cover `n * rate` seconds. */
  lemma {:induction false} StepsIsProduct(n: nat, rate: real)
    ensures Steps(n, rate) == n as real * rate
  {
    if n > 0 {
      StepsIsProduct(n - 1, rate);
    }
  }

  /** The gap is the first one: it lies the counted number of steps back, and the satellite has
      observations at every epoch the walk passes before it. */
  lemma {:induction false} FirstGapIsFirst(s: SeriesValue<EpochDataValue>, sat: Satellite, e: Epoch, rate: real)
    requires rate != 0.0 || !HasObservationsAt(s, e, sat)
    ensures FirstGap(s, sat, e, rate).0 == Back(e, rate, FirstGap(s, sat, e, rate).1)
    ensures forall k :: 0 <= k < FirstGap(s, sat, e, rate).1 ==> HasObservationsAt(s, Back(e, rate, k), sat)
    decreases |Ahead(s.data.Keys, Total(e), rate)|
  {
    if HasObservationsAt(s, e, sat) {
      var next := StepBack(e, rate);
      StepLeavesFewerAhead(s.data.Keys, e, rate);
      FirstGapIsFirst(s, sat, next, rate);
      forall k | 1 <= k < FirstGap(s, sat, e, rate).1
        ensures HasObservationsAt(s, Back(e, rate, k), sat)
      {
        assert Back(e, rate, k) == Back(next, rate, k - 1);
      }
    }
  }

  /** At rate 0 the step from a normalised epoch with observations gives that same epoch back,
      so the walk would test it again forever. */
  lemma ZeroRateStays(s: SeriesValue<EpochDataValue>, sat: Satellite, e: Epoch)
    requires InWeek(e) && HasObservationsAt(s, e, sat)
    ensures StepBack(e, 0.0) == e && HasObservationsAt(s, StepBack(e, 0.0), sat)
  {
  }

  /** An `ObservationData` object. */
  class ObservationData {
    var series: SeriesValue<EpochDataValue>
    var types: seq<DataType>
    var satellites: seq<Satellite>

    ghost predicate Valid() reads this {
      StoreInvariant(series) && Distinct(types) && Distinct(satellites)
    }

    constructor ()
      ensures Valid() && series == Empty() && types == [] && satellites == []
    {
      series, types, satellites := Empty(), [], [];
    }

    /** `set_observation(epoch, satellite, obs)`; each type and satellite is listed once. */
    method SetObservation(e: Epoch, sat: Satellite, o: Observation)
      requires Valid()
      modifies this
      ensures Valid()
      ensures series == WithObservation(old(series), e, sat, o)
      ensures types == AddOnce(old(types), o.kind) && satellites == AddOnce(old(satellites), sat)
      ensures HasType(o.kind) && HasSatellite(sat)
    {
      if e !in series.epochs {
        series := WithData(series, e, NewEpochData());
      }
      series := WithData(series, e, WithObservable(series.data[e], sat, o));
      if o.kind !in types {
        types := types + [o.kind];
      }
      if sat !in satellites {
        satellites := satellites + [sat];
      }
    }

    /** `set_observable(epoch, satellite, obsType, value)`: TypeError for an argument of the
        wrong type; an int value is stored as a float. */
    method SetObservable(e: Arg<Epoch>, sat: Arg<Satellite>, dt: Arg<DataType>, value: Number) returns (o: Outcome)
      requires Valid()
      modifies this
      ensures Valid()
      ensures e.WrongType? || sat.WrongType? || dt.WrongType? || value.NotANumber? ==>
                o == Fail(TypeError) && series == old(series) && types == old(types) && satellites == old(satellites)
      ensures e.Given? && sat.Given? && dt.Given? && !value.NotANumber? ==>
                o == Pass
                && series == WithObservation(old(series), e.v, sat.v, Observation(dt.v, value.Real()))
                && types == AddOnce(old(types), dt.v) && satellites == AddOnce(old(satellites), sat.v)
    {
      if e.WrongType? || sat.WrongType? || dt.WrongType? || value.NotANumber? {
        return Fail(TypeError);
      }
      SetObservation(e.v, sat.v, Observation(dt.v, value.Real()));
      return Pass;
    }

    /** `has_type(datatype)`. */
    function HasType(dt: DataType): bool reads this { dt in types }

    /** `has_satellite(satellite)`. */
    function HasSatellite(sat: Satellite): bool reads this { sat in satellites }

    /** `remove_observable(sat, epoch, datatype)`. */
    method RemoveObservable(sat: Satellite, e: Epoch, dt: DataType) returns (o: Outcome)
      requires Valid()
      modifies this
      ensures Valid() && types == old(types) && satellites == old(satellites)
      ensures var r := SeriesWithoutObservable(old(series), sat, e, dt);
              if r.Err? then o == Fail(KeyError) && series == old(series) else o == Pass && series == r.value
    {
      if e !in series.data {
        return Fail(KeyError);
      }
      var r := RemoveObservableOf(series.data[e], sat, dt);
      if r.Err? {
        return Fail(KeyError);
      }
      series := WithData(series, e, r.value);
      if r.value.sats == [] {
        series := WithoutEpoch(series, e).value.0;
      }
      return Pass;
    }

    /** `remove_for_frequency(sat, epoch, datatype)`: never removes the epoch, even when empty. */
    method RemoveForFrequency(sat: Satellite, e: Epoch, dt: DataType) returns (o: Outcome)
      requires Valid()
      modifies this
      ensures Valid() && types == old(types) && satellites == old(satellites)
      ensures e !in old(series.data) || sat !in old(series.data)[e].obs ==> o == Fail(KeyError) && series == old(series)
      ensures e in old(series.data) && sat in old(series.data)[e].obs ==>
                o == Pass && series == WithData(old(series), e, RemoveFrequencyOf(old(series.data)[e], sat, dt).value)
    {
      if e !in series.data {
        return Fail(KeyError);
      }
      var r := RemoveFrequencyOf(series.data[e], sat, dt);
      if r.Err? {
        return Fail(KeyError);
      }
      series := WithData(series, e, r.value);
      return Pass;
    }

    /** `get_epoch_data(epoch)`: NonExistentObservable when the epoch is not stored. */
    function GetEpochData(e: Epoch): (r: Result<EpochDataValue>)
      reads this
      ensures r.Ok? <==> e in series.data
      ensures r.Err? ==> r.error == NonExistentObservable
      ensures r.Ok? ==> r.value == series.data[e]
    {
      if e in series.data then Ok(series.data[e]) else Err(NonExistentObservable)
    }

    /** `get_observables_at_epoch(epoch, sat)`: every failure becomes NonExistentObservable. */
    function GetObservablesAtEpoch(e: Epoch, sat: Satellite): (r: Result<seq<Observation>>)
      reads this
      ensures r.Ok? <==> HasObservationsAt(series, e, sat)
      ensures r.Err? ==> r.error == NonExistentObservable
      ensures r.Ok? ==> r.value == series.data[e].obs[sat]
    {
      if e in series.data && sat in series.data[e].obs then Ok(series.data[e].obs[sat])
      else Err(NonExistentObservable)
    }

    /** `get_observable_at_epoch(sat, epoch, datatype)`: every failure becomes NonExistentObservable. */
    function GetObservableAtEpoch(sat: Satellite, e: Epoch, dt: DataType): (r: Result<Observation>)
      reads this
      ensures r.Ok? <==> e in series.data && ObservableOf(series.data[e], sat, dt).Ok?
      ensures r.Err? ==> r.error == NonExistentObservable
      ensures r.Ok? ==> r.value in series.data[e].obs[sat] && r.value.kind == dt
    {
      if e !in series.data then Err(NonExistentObservable)
      else
        var x := ObservableOf(series.data[e], sat, dt);
        if x.Err? then Err(NonExistentObservable) else x
    }

    /** `get_epochs()`: sorts the series, then answers its epochs. */
    method GetEpochs() returns (es: seq<Epoch>)
      requires Valid()
      modifies this
      ensures Valid() && series == SortedSeries(old(series)) && types == old(types) && satellites == old(satellites)
      ensures es == series.epochs && Ascending(es)
    {
      series := SortedSeries(series);
      es := series.epochs;
    }

    /** `get_rate()`: the gap between the first two epochs, once there are more than two. */
    method GetRate() returns (r: Result<real>)
      requires Valid()
      modifies this
      ensures Valid() && series == SortedSeries(old(series)) && types == old(types) && satellites == old(satellites)
      ensures |series.epochs| > 2 ==> r == Ok(Total(series.epochs[1]) - Total(series.epochs[0]))
      ensures |series.epochs| <= 2 ==> r == Err(EmptyObservationData)
    {
      var es := GetEpochs();
      if |es| > 2 {
        return Minus(es[1], Given(es[0]));
      }
      return Err(EmptyObservationData);
    }

    /** `get_first_arc_epoch(sat, epoch, rate)`: walks back by `rate` while the satellite has
        observations and answers the epoch one `rate` after the first one without. */
    method GetFirstArcEpoch(sat: Satellite, e: Epoch, rate: real) returns (r: Epoch)
      requires rate != 0.0 || !HasObservationsAt(series, e, sat)
      ensures r == Plus(FirstGap(series, sat, e, rate).0, Float(rate)).value
    {
      var s := series;
      ghost var gap := FirstGap(s, sat, e, rate);
      var cur := e;
      while HasObservationsAt(s, cur, sat)
        invariant rate != 0.0 || !HasObservationsAt(s, cur, sat)
        invariant FirstGap(s, sat, cur, rate).0 == gap.0
        decreases |Ahead(s.data.Keys, Total(cur), rate)|
      {
        var next := StepBack(cur, rate);
        StepLeavesFewerAhead(s.data.Keys, cur, rate);
        cur := next;
      }
      assert cur == gap.0;
      r := Plus(cur, Float(rate)).value;
    }
  }
}
