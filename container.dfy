/** Slot-restricted records (data_types/containers/Container.py): an instance accepts and
    answers only the attribute names its class lists in `__slots__`; values live in the
    instance dictionary. */
module Containers {
  import opened Errors
  import Text

  class Container<T> {
    /** `type(self).__name__`. */
    const className: string
    /** `__slots__`, in declaration order. */
    const slots: seq<string>
    /** The instance `__dict__`. */
    var fields: map<string, T>

    ghost predicate Valid() reads this {
      forall n :: n in fields ==> n in slots
    }

    constructor (name: string, slotNames: seq<string>)
      ensures Valid() && className == name && slots == slotNames && fields == map[]
    {
      className, slots, fields := name, slotNames, map[];
    }

    /** `setattr(self, name, val)`: stores a slot name, refuses any other name. */
    method SetAttr(name: string, val: T) returns (o: Outcome)
      requires Valid()
      modifies this
      ensures Valid()
      ensures name in slots ==> o == Pass && fields == old(fields)[name := val]
      ensures name !in slots ==> o == Fail(AttributeError) && fields == old(fields)
    {
      if name in slots {
        fields := fields[name := val];
        return Pass;
      }
      return Fail(AttributeError);
    }

    /** `getattr(self, name)`: AttributeError for a name outside the slots, KeyError for a slot
        never assigned. */
    function GetAttr(name: string): (r: Result<T>)
      reads this
      requires Valid()
      ensures r.Ok? <==> name in fields
      ensures r.Ok? ==> r.value == fields[name]
      ensures name !in slots ==> r == Err(AttributeError)
      ensures name in slots && name !in fields ==> r == Err(KeyError)
    {
      if name !in slots then Err(AttributeError)
      else if name !in fields then Err(KeyError)
      else Ok(fields[name])
    }

    /** `str(self)`: `ClassName(a=..., b=...)` over every slot in declaration order; `show`
        stands for `str()` of a value. */
    method Str(show: T -> string) returns (r: Result<string>)
      requires Valid()
      ensures r == StrOf(className, slots, fields, show)
    {
      var all := "";
      var i := 0;
      while i < |slots|
        invariant 0 <= i <= |slots|
        invariant forall j :: 0 <= j < i ==> slots[j] in fields
        invariant all == Text.Join(Pairs(slots[..i], fields, show), ", ") + (if i == 0 then "" else ", ")
      {
        if slots[i] !in fields {
          MissingSlotFails(slots, fields, show, i);
          return Err(KeyError);
        }
        PairsSnoc(slots[..i], slots[i], fields, show);
        assert slots[..i + 1] == slots[..i] + [slots[i]];
        all := all + slots[i] + "=" + show(fields[slots[i]]) + ", ";
        i := i + 1;
      }
      assert slots[..i] == slots;
      all := all[0..if |all| >= 2 then |all| - 2 else 0];
      return Ok(className + "(" + all + ")");
    }
  }

  /** `name=value` for every slot, in order. */
  function Pairs<T>(names: seq<string>, fields: map<string, T>, show: T -> string): (r: seq<string>)
    requires forall n :: n in names ==> n in fields
    ensures |r| == |names|
  {
    if names == [] then []
    else [names[0] + "=" + show(fields[names[0]])] + Pairs(names[1..], fields, show)
  }

  /** What `str()` of a container gives: KeyError when some slot was never assigned. */
  function StrOf<T>(className: string, slots: seq<string>, fields: map<string, T>, show: T -> string): Result<string> {
    if forall n :: n in slots ==> n in fields then
      Ok(className + "(" + Text.Join(Pairs(slots, fields, show), ", ") + ")")
    else Err(KeyError)
  }

  lemma MissingSlotFails<T>(slots: seq<string>, fields: map<string, T>, show: T -> string, i: nat)
    requires i < |slots| && slots[i] !in fields
    ensures StrOf("", slots, fields, show).Err? && forall c :: StrOf(c, slots, fields, show) == Err(KeyError)
  {}

  lemma {:induction false} PairsSnoc<T>(names: seq<string>, n: string, fields: map<string, T>, show: T -> string)
    requires forall m :: m in names ==> m in fields
    requires n in fields
    ensures Pairs(names + [n], fields, show) == Pairs(names, fields, show) + [n + "=" + show(fields[n])]
    ensures Text.Join(Pairs(names + [n], fields, show), ", ") + ", "
            == Text.Join(Pairs(names, fields, show), ", ") + (if names == [] then "" else ", ") + n + "=" + show(fields[n]) + ", "
  {
    if names != [] {
      assert (names + [n])[1..] == names[1..] + [n];
      PairsSnoc(names[1..], n, fields, show);
      JoinSnoc(Pairs(names, fields, show), n + "=" + show(fields[n]), ", ");
    }
  }

  lemma {:induction false} JoinSnoc(parts: seq<string>, x: string, sep: string)
    requires parts != []
    ensures Text.Join(parts + [x], sep) == Text.Join(parts, sep) + sep + x
  {
    assert (parts + [x])[0] == parts[0];
    if |parts| > 1 {
      assert (parts + [x])[1..] == parts[1..] + [x];
      JoinSnoc(parts[1..], x, sep);
    } else {
      assert (parts + [x])[1..] == [x];
    }
  }
}
