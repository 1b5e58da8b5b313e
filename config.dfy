/** The configuration store of config.py: a dictionary of JSON-like values, read through a
    path of keys with a fallback, and written through a path that creates missing levels. */
module Configuration {
  import opened Errors

  /** A value of the configuration: what `json.load` produces. */
  datatype Value =
    | NoneValue
    | Bool(b: bool)
    | Int(i: int)
    | Float(x: real)
    | Str(s: string)
    | List(items: seq<Value>)
    | Dict(entries: map<string, Value>)

  /** `out is fallback` for a value that was found in a dictionary: CPython shares None, the two
      booleans and the small integers -5..256 between equal values; every other value read from
      the configuration is a distinct object from the fallback. */
  predicate SameObject(found: Value, fallback: Value) {
    found == fallback && (found.NoneValue? || found.Bool? || (found.Int? && -5 <= found.i <= 256))
  }

  /** The `while isinstance(out, dict)` loop of `get` from `out` on, with the keys still to pop;
      `missed` says whether `out` is the fallback itself (the last lookup missed). Popping from
      an empty key list raises IndexError; stopping at a non-dict with keys left raises
      ConfigError unless the value is the fallback object. */
  function Walk(out: Value, keys: seq<string>, fallback: Value, missed: bool): (r: Result<Value>)
    ensures r.Ok? ==> !r.value.Dict?
    ensures r.Err? ==> r.error == IndexError || r.error == ConfigError
    decreases |keys|
  {
    if out.Dict? then
      if keys == [] then Err(IndexError)
      else
        var key := keys[0];
        Walk(if key in out.entries then out.entries[key] else fallback, keys[1..], fallback, key !in out.entries)
    else if keys != [] && !(missed || SameObject(out, fallback)) then Err(ConfigError)
    else Ok(out)
  }

  /** `get(*keys, fallback=fallback)` on the dictionary `data`; no key at all is the ValueError of
      the unpacking `section, *keys = keys`. */
  function GetIn(data: map<string, Value>, keys: seq<string>, fallback: Value): (r: Result<Value>)
    ensures keys == [] ==> r == Err(ValueError)
  {
    if keys == [] then Err(ValueError)
    else
      var section := keys[0];
      Walk(if section in data then data[section] else fallback, keys[1..], fallback, section !in data)
  }

  /** `set(*keys, value)` on the dictionary `data`: each key but the last selects, or creates
      with `setdefault`, a nested dictionary, and the last key receives the value. A non-dict
      met on the way raises AttributeError from the next `setdefault`, or TypeError from the
      final item assignment; since nothing is created before an existing level, a failing call
      leaves the data as it was. */
  function SetIn(data: map<string, Value>, keys: seq<string>, value: Value): (r: Result<map<string, Value>>)
    ensures keys == [] <==> r == Err(ValueError)
    ensures r.Err? ==> r.error in {ValueError, TypeError, AttributeError}
    ensures r.Ok? ==> r.value.Keys == data.Keys + {keys[0]}
    ensures r.Ok? ==> forall k :: k in data && k != keys[0] ==> r.value[k] == data[k]
    decreases |keys|
  {
    if keys == [] then Err(ValueError)
    else if |keys| == 1 then Ok(data[keys[0] := value])
    else
      var k := keys[0];
      var sub := if k in data then data[k] else Dict(map[]);
      if !sub.Dict? then Err(if |keys| == 2 then TypeError else AttributeError)
      else match SetIn(sub.entries, keys[1..], value)
        case Err(e) => Err(e)
        case Ok(m) => Ok(data[k := Dict(m)])
  }

  /** A value set through a path is what a read of that path answers, unless it is itself a
      dictionary, which the read would walk into. */
  lemma {:induction false} SetThenGet(data: map<string, Value>, keys: seq<string>, value: Value, fallback: Value)
    requires SetIn(data, keys, value).Ok? && !value.Dict?
    ensures GetIn(SetIn(data, keys, value).value, keys, fallback) == Ok(value)
  {
    SetThenWalk(data, keys, value, fallback);
  }

  lemma {:induction false} SetThenWalk(data: map<string, Value>, keys: seq<string>, value: Value, fallback: Value)
    requires SetIn(data, keys, value).Ok? && !value.Dict?
    ensures var m := SetIn(data, keys, value).value;
            keys[0] in m && Walk(m[keys[0]], keys[1..], fallback, false) == Ok(value)
    decreases |keys|
  {
    if |keys| > 1 {
      var k := keys[0];
      var sub := if k in data then data[k] else Dict(map[]);
      SetThenWalk(sub.entries, keys[1..], value, fallback);
      assert keys[1..][1..] == keys[2..];
    }
  }

  /** The dictionary reached after `j` keys, when the first `j` keys all lead to dictionaries. */
  function LevelAt(data: map<string, Value>, keys: seq<string>, j: nat): Option<map<string, Value>>
    requires j <= |keys|
    decreases j
  {
    if j == 0 then Some(data)
    else if keys[0] in data && data[keys[0]].Dict? then LevelAt(data[keys[0]].entries, keys[1..], j - 1)
    else None
  }

  /** A key missing at some level, behind dictionaries only, makes the read answer the
      fallback, provided the fallback is not a dictionary itself. */
  lemma {:induction false} MissingKeyGivesFallback(data: map<string, Value>, keys: seq<string>, j: nat, fallback: Value)
    requires j < |keys| && !fallback.Dict?
    requires LevelAt(data, keys, j).Some? && keys[j] !in LevelAt(data, keys, j).value
    ensures GetIn(data, keys, fallback) == Ok(fallback)
    decreases j
  {
    if j > 0 {
      var sub := data[keys[0]];
      MissingKeyGivesFallback(sub.entries, keys[1..], j - 1, fallback);
      WalkUnfold(sub.entries, keys[1..], fallback);
    }
  }

  /** Reading through a first-level dictionary is reading inside it. */
  lemma WalkUnfold(entries: map<string, Value>, keys: seq<string>, fallback: Value)
    requires keys != []
    ensures Walk(Dict(entries), keys, fallback, false) == GetIn(entries, keys, fallback)
  {}

  /** Setting a path changes no read of a path under another first key. */
  lemma SetKeepsOtherSections(data: map<string, Value>, keys: seq<string>, value: Value, other: seq<string>, fallback: Value)
    requires SetIn(data, keys, value).Ok? && other != [] && other[0] != keys[0]
    ensures GetIn(SetIn(data, keys, value).value, other, fallback) == GetIn(data, other, fallback)
  {}

  /** Setting a path changes no read of a path that leaves it at some level: one that shares
      its first `j` keys and then takes another key. The fallback must not be a dictionary, or a
      read through a level `set` creates would walk into the fallback where it used to stop. */
  lemma {:induction false} SetKeepsSiblings(data: map<string, Value>, keys: seq<string>, value: Value, other: seq<string>,
                                            fallback: Value, j: nat)
    requires SetIn(data, keys, value).Ok? && !fallback.Dict?
    requires j < |keys| && j < |other| && other[..j] == keys[..j] && other[j] != keys[j]
    ensures GetIn(SetIn(data, keys, value).value, other, fallback) == GetIn(data, other, fallback)
    decreases j
  {
    if j == 0 {
      SetKeepsOtherSections(data, keys, value, other, fallback);
    } else {
      var k := keys[0];
      assert other[0] == other[..j][0] == keys[..j][0] == k;
      var sub := if k in data then data[k] else Dict(map[]);
      var m := SetIn(sub.entries, keys[1..], value).value;
      assert other[1..][..j - 1] == other[..j][1..] && keys[1..][..j - 1] == keys[..j][1..];
      SetKeepsSiblings(sub.entries, keys[1..], value, other[1..], fallback, j - 1);
      WalkUnfold(m, other[1..], fallback);
      if k in data {
        WalkUnfold(sub.entries, other[1..], fallback);
      }
    }
  }

  /** With a dictionary as fallback a sibling read can change: `set("a", "x", 5)` on an empty
      configuration turns the read of ("a", "b") from the fallback's entry into IndexError. */
  lemma DictFallbackSeesNewLevel()
    ensures var fb := Dict(map["b" := Int(1)]);
            GetIn(map[], ["a", "b"], fb) == Ok(Int(1))
            && SetIn(map[], ["a", "x"], Int(5)) == Ok(map["a" := Dict(map["x" := Int(5)])])
            && GetIn(map["a" := Dict(map["x" := Int(5)])], ["a", "b"], fb) == Err(IndexError)
  {
    var fb := Dict(map["b" := Int(1)]);
    assert ["a", "b"][1..] == ["b"] && ["b"][1..] == [];
    assert ["a", "x"][1..] == ["x"];
  }

  /** A path that meets a value other than a dictionary with keys left fails with ConfigError,
      unless that value is the fallback object. */
  lemma {:induction false} MismatchFails(data: map<string, Value>, keys: seq<string>, j: nat, fallback: Value)
    requires j + 1 < |keys| && LevelAt(data, keys, j).Some?
    requires var level := LevelAt(data, keys, j).value;
             keys[j] in level && !level[keys[j]].Dict? && !SameObject(level[keys[j]], fallback)
    ensures GetIn(data, keys, fallback) == Err(ConfigError)
    decreases j
  {
    if j > 0 {
      var sub := data[keys[0]];
      MismatchFails(sub.entries, keys[1..], j - 1, fallback);
      WalkUnfold(sub.entries, keys[1..], fallback);
    }
  }

  /** A path that ends at a dictionary fails with IndexError: the loop pops from an empty list. */
  lemma {:induction false} PathToDictFails(data: map<string, Value>, keys: seq<string>, fallback: Value)
    requires keys != [] && LevelAt(data, keys, |keys| - 1).Some?
    requires var level := LevelAt(data, keys, |keys| - 1).value;
             keys[|keys| - 1] in level && level[keys[|keys| - 1]].Dict?
    ensures GetIn(data, keys, fallback) == Err(IndexError)
    decreases |keys|
  {
    if |keys| > 1 {
      var sub := data[keys[0]];
      PathToDictFails(sub.entries, keys[1..], fallback);
      WalkUnfold(sub.entries, keys[1..], fallback);
    }
  }

  /** The `Config` object: a dictionary subclass. */
  class Config {
    var data: map<string, Value>

    constructor ()
      ensures data == map[]
    {
      data := map[];
    }

    /** `get(*keys, fallback=fallback)`, the loop popping the remaining keys one by one. */
    method Get(keys: seq<string>, fallback: Value) returns (r: Result<Value>)
      ensures r == GetIn(data, keys, fallback)
    {
      if keys == [] {
        return Err(ValueError);
      }
      var section := keys[0];
      var rest := keys[1..];
      var out := if section in data then data[section] else fallback;
      var missed := section !in data;
      while out.Dict?
        invariant Walk(out, rest, fallback, missed) == GetIn(data, keys, fallback)
        decreases |rest|
      {
        if rest == [] {
          return Err(IndexError);
        }
        var key := rest[0];
        rest := rest[1..];
        missed := key !in out.entries;
        out := if key in out.entries then out.entries[key] else fallback;
      }
      if rest != [] && !(missed || SameObject(out, fallback)) {
        return Err(ConfigError);
      }
      return Ok(out);
    }

    /** `set(*keys, value)`. */
    method Set(keys: seq<string>, value: Value) returns (o: Outcome)
      modifies this
      ensures var r := SetIn(old(data), keys, value);
              if r.Ok? then o == Pass && data == r.value else o == Fail(r.error) && data == old(data)
    {
      var r := SetIn(data, keys, value);
      if r.Err? {
        return Fail(r.error);
      }
      data := r.value;
      return Pass;
    }
  }
}
