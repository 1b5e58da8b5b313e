/** The user's service selection of data_types/gnss/ServiceManager.py: per constellation, the
    set of RINEX services to process. */
module Services {
  import opened Errors
  import opened Text
  import opened PyTypes
  import opened ServiceTables
  import opened Constellations

  /** The second argument of `add_service`: a comma-separated string, a list or tuple of
      strings, or something else. */
  datatype ServicesArg = Single(s: string) | Items(items: seq<string>) | OtherType

  /** The services an argument stands for: a string is split on commas. */
  function ItemsOf(a: ServicesArg): seq<string>
    requires !a.OtherType?
  {
    if a.Single? then Split(a.s, ',') else a.items
  }

  /** The table `add_service` selects: none for UNKNOWN. */
  function TableOf(s: SatelliteSystem): (r: Option<set<string>>)
    ensures r == TableFor(Constellations.Name(s))
  {
    match s
    case GPS => Some(GPS_AVAILABLE_SERVICES)
    case GAL => Some(GAL_AVAILABLE_SERVICES)
    case UNKNOWN => None
  }

  /** The loop of `add_service` on one constellation's set: spaces are dropped from each
      service; a service of the table is added, an unknown one stops the loop with
      UnknownService, keeping what was added before it. A constellation without a table
      (UNKNOWN) fails with TypeError on the first service, from the membership test on None. */
  function AddAll(current: set<string>, items: seq<string>, table: Option<set<string>>): (r: (set<string>, Outcome))
    ensures current <= r.0
    ensures table.None? ==> r.0 == current
    ensures r.1.Fail? ==> r.1.error == (if table.None? then TypeError else UnknownService)
    ensures r.1.Pass? <==> forall k :: 0 <= k < |items| ==> table.Some? && Remove(items[k], ' ') in table.value
    ensures table.Some? ==> r.0 - current <= table.value
  {
    AddFrom(current, items, 0, table)
  }

  /** The loop from service `i` on. */
  function AddFrom(current: set<string>, items: seq<string>, i: nat, table: Option<set<string>>): (r: (set<string>, Outcome))
    requires i <= |items|
    ensures current <= r.0
    ensures table.None? ==> r.0 == current
    ensures r.1.Fail? ==> r.1.error == (if table.None? then TypeError else UnknownService)
    ensures r.1.Pass? <==> forall k :: i <= k < |items| ==> table.Some? && Remove(items[k], ' ') in table.value
    ensures table.Some? ==> r.0 - current <= table.value
    decreases |items| - i
  {
    if i == |items| then (current, Pass)
    else
      var service := Remove(items[i], ' ');
      if table.None? then (current, Fail(TypeError))
      else if service in table.value then AddFrom(current + {service}, items, i + 1, table)
      else (current, Fail(UnknownService))
  }

  /** The services added are those listed before the first unknown one (all of them when every
      service is known), without their spaces. */
  lemma AddAllAdds(current: set<string>, items: seq<string>, table: set<string>, n: nat)
    requires n <= |items|
    requires forall k :: 0 <= k < n ==> Remove(items[k], ' ') in table
    requires n < |items| ==> Remove(items[n], ' ') !in table
    ensures forall x :: x in AddAll(current, items, Some(table)).0 <==>
              x in current || exists k :: 0 <= k < n && x == Remove(items[k], ' ')
  {
    AddFromAdds(current, items, 0, table, n);
  }

  lemma {:induction false} AddFromAdds(current: set<string>, items: seq<string>, i: nat, table: set<string>, n: nat)
    requires i <= n <= |items|
    requires forall k :: i <= k < n ==> Remove(items[k], ' ') in table
    requires n < |items| ==> Remove(items[n], ' ') !in table
    ensures forall x :: x in AddFrom(current, items, i, Some(table)).0 <==>
              x in current || exists k :: i <= k < n && x == Remove(items[k], ' ')
    decreases n - i
  {
    if i < n {
      var service := Remove(items[i], ' ');
      AddFromAdds(current + {service}, items, i + 1, table, n);
    }
  }

  /** Adding the same services again changes nothing: duplicates have no effect. */
  lemma AddAllTwice(current: set<string>, items: seq<string>, table: Option<set<string>>)
    ensures var r := AddAll(current, items, table);
            AddAll(r.0, items, table) == r
  {
    var r := AddAll(current, items, table);
    AddFromAgain(current, r.0, items, 0, table);
  }

  lemma {:induction false} AddFromAgain(current: set<string>, bigger: set<string>, items: seq<string>, i: nat, table: Option<set<string>>)
    requires i <= |items|
    requires current <= bigger && AddFrom(current, items, i, table).0 <= bigger
    ensures AddFrom(bigger, items, i, table) == (bigger, AddFrom(current, items, i, table).1)
    decreases |items| - i
  {
    if i < |items| && table.Some? {
      var service := Remove(items[i], ' ');
      if service in table.value {
        AddFromAgain(current + {service}, bigger, items, i + 1, table);
        assert bigger + {service} == bigger;
      }
    }
  }

  lemma OnlyTwoKeys(m: map<SatelliteSystem, set<string>>)
    requires UNKNOWN !in m
    ensures forall n :: n in m ==> n == GPS || n == GAL
  {
    forall n | n in m ensures n == GPS || n == GAL {
      match n
      case GPS =>
      case GAL =>
    }
  }

  /** A `ServiceManager` object. */
  class ServiceManager {
    /** Keyed by the constellation, a `SatelliteSystem` whose string is the Python key. */
    var services: map<SatelliteSystem, set<string>>

    /** The two constellations, and only they, are always there. */
    ghost predicate Valid() reads this {
      GPS in services && GAL in services && UNKNOWN !in services
    }

    constructor ()
      ensures Valid() && services == map[GPS := {}, GAL := {}]
    {
      services := map[GPS := {}, GAL := {}];
    }

    /** `add_service(constellation, services)`. */
    method AddService(constellation: Arg<SatelliteSystem>, arg: ServicesArg) returns (o: Outcome)
      requires Valid()
      modifies this
      ensures Valid()
      ensures constellation.WrongType? || arg.OtherType? ==> o == Fail(TypeError) && services == old(services)
      ensures constellation.Given? && !arg.OtherType? ==>
                var name := constellation.v;
                var r := AddAll(if name in old(services) then old(services)[name] else {}, ItemsOf(arg), TableOf(name));
                o == r.1 && services == if name in old(services) then old(services)[name := r.0] else old(services)
    {
      if constellation.WrongType? || arg.OtherType? {
        return Fail(TypeError);
      }
      o := AddEach(constellation.v, ItemsOf(arg), TableOf(constellation.v));
    }

    /** The loop of `add_service` over the services of one constellation. */
    method AddEach(name: SatelliteSystem, items: seq<string>, table: Option<set<string>>) returns (o: Outcome)
      requires Valid() && (table.Some? <==> name != UNKNOWN)
      modifies this
      ensures Valid()
      ensures var r := AddAll(if name in old(services) then old(services)[name] else {}, items, table);
              o == r.1 && services == if name in old(services) then old(services)[name := r.0] else old(services)
    {
      ghost var start := if name in services then services[name] else {};
      ghost var cur := start;
      var i := 0;
      while i < |items|
        invariant 0 <= i <= |items| && Valid()
        invariant cur == if name in services then services[name] else {}
        invariant services == if name in old(services) then old(services)[name := cur] else old(services)
        invariant AddAll(start, items, table) == AddFrom(cur, items, i, table)
      {
        var service := Remove(items[i], ' ');
        if table.None? {
          return Fail(TypeError);
        }
        if service in table.value {
          if service !in services[name] {
            services := services[name := services[name] + {service}];
          } else {
            assert cur + {service} == cur;
          }
          cur := cur + {service};
        } else {
          return Fail(UnknownService);
        }
        i := i + 1;
      }
      return Pass;
    }

    /** `items()`: both constellations with their services. */
    function Items(): (r: seq<(SatelliteSystem, set<string>)>)
      requires Valid()
      reads this
      ensures forall p :: p in r <==> p.0 in services && p.1 == services[p.0]
    {
      OnlyTwoKeys(services);
      [(GPS, services[GPS]), (GAL, services[GAL])]
    }

    /** `getServicesForGPS()`: the GPS entry of `items()`. */
    function GetServicesForGPS(): (r: set<string>)
      requires Valid()
      reads this
      ensures (GPS, r) in Items()
    {
      services[GPS]
    }

    /** `getServicesForGAL()`: the Galileo entry of `items()`. */
    function GetServicesForGAL(): (r: set<string>)
      requires Valid()
      reads this
      ensures (GAL, r) in Items()
    {
      services[GAL]
    }

    /** `has_service(constellation, service)`: KeyError for a constellation without a set. */
    function HasService(constellation: SatelliteSystem, service: string): (r: Result<bool>)
      requires Valid()
      reads this
      ensures r.Err? <==> constellation.UNKNOWN?
      ensures r.Err? ==> r.error == KeyError
      ensures r.Ok? ==> constellation in services && (r.value <==> service in services[constellation])
    {
      OnlyTwoKeys(services);
      if constellation in services then Ok(service in services[constellation]) else Err(KeyError)
    }
  }
}
