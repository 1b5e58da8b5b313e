/** The GNSS position state of data_types/state_space/gnss_state.py: three coordinates in a
    cartesian or geodetic form, expressed in the ECEF frame or in the ENU frame of an observer
    position, with property setters that convert between forms and frames. The geodetic and
    ENU conversions of data_types/state_space/utils.py are not part of this model: they are
    the function parameters of a `Geo` value. */
module GnssState {
  import opened Errors

  /** `validate_frame(frame)`. */
  function ValidateFrame(frame: string): (r: Outcome)
    ensures r.Pass? <==> frame == "ECEF" || frame == "ENU"
    ensures r.Fail? ==> r.error == FrameError
  {
    if !(frame == "ECEF" || frame == "ENU") then Fail(FrameError) else Pass
  }

  /** `validate_form(form)`. */
  function ValidateForm(form: string): (r: Outcome)
    ensures r.Pass? <==> form == "cartesian" || form == "geodetic"
    ensures r.Fail? ==> r.error == FormError
  {
    if !(form == "cartesian" || form == "geodetic") then Fail(FormError) else Pass
  }

  datatype Frame = ECEF | ENU
  datatype Form = Cartesian | Geodetic

  function FrameName(f: Frame): string {
    match f
    case ECEF => "ECEF"
    case ENU => "ENU"
  }

  function FormName(f: Form): string {
    match f
    case Cartesian => "cartesian"
    case Geodetic => "geodetic"
  }

  /** The frame a validated frame name stands for. */
  function FrameOf(name: string): (r: Frame)
    requires ValidateFrame(name).Pass?
    ensures FrameName(r) == name
  {
    if name == "ECEF" then ECEF else ENU
  }

  /** The form a validated form name stands for. */
  function FormOf(name: string): (r: Form)
    requires ValidateForm(name).Pass?
    ensures FormName(r) == name
  {
    if name == "cartesian" then Cartesian else Geodetic
  }

  datatype Coord = Coord(c0: real, c1: real, c2: real)

  /** The conversions of data_types/state_space/utils.py: geodetic to cartesian and back (both
      in ECEF), and ECEF to the ENU frame of an observer given in geodetic form, and back. */
  datatype Geo = Geo(
    geodeticToCartesian: Coord -> Coord,
    cartesianToGeodetic: Coord -> Coord,
    ecefToEnu: (Coord, Coord) -> Coord,
    enuToEcef: (Coord, Coord) -> Coord)

  /** A position as a value: the coordinate buffer, the metadata dictionary's frame, form and
      observer, and its other entries. */
  datatype PosValue = PosValue(coord: Coord, frame: Frame, form: Form, observer: Option<PosValue>, extra: map<string, string>)

  /** `self.form = new_form`: nothing for the current form; otherwise the frame is first forced
      to ECEF (`self.frame = "ECEF"`), then the coordinates are converted and the form
      recorded. A geodetic position in the ENU frame cannot change: each setter calls the
      other on an unchanged state until Python's recursion limit, before any change. */
  function SetFormV(s: PosValue, newForm: string, g: Geo): (r: (PosValue, Outcome))
    ensures r.1 == Fail(FormError) <==> ValidateForm(newForm).Fail?
    ensures ValidateForm(newForm).Fail? ==> r.0 == s
    ensures ValidateForm(newForm).Pass? && FormOf(newForm) == s.form ==> r == (s, Pass)
    ensures r.1.Pass? && FormOf(newForm) != s.form ==> r.0.form == FormOf(newForm) && r.0.frame == ECEF
    ensures r.1.Fail? ==> r.1.error in {FormError, TypeError, RecursionError}
    ensures r.0.extra == s.extra
    decreases s, 1
  {
    if ValidateForm(newForm).Fail? then (s, Fail(FormError))
    else
      var f := FormOf(newForm);
      if f == s.form then (s, Pass)
      else if s.form == Geodetic && s.frame == ENU then (s, Fail(RecursionError))
      else
        var (t, o) := ToEcefV(s, g);
        if o.Fail? then (t, o)
        else
          var c := if f == Cartesian then g.geodeticToCartesian(t.coord) else g.cartesianToGeodetic(t.coord);
          (t.(coord := c, form := f), Pass)
  }

  /** `self.frame = "ECEF"` from inside the form setter, where the position is not geodetic in
      ENU: from ENU (so in cartesian form) the observer must exist and is first turned
      geodetic (which changes the observer), then the coordinates are converted. */
  function ToEcefV(s: PosValue, g: Geo): (r: (PosValue, Outcome))
    requires !(s.form == Geodetic && s.frame == ENU)
    ensures s.frame == ECEF ==> r == (s, Pass)
    ensures s.frame == ENU && s.observer.None? ==> r == (s, Fail(TypeError))
    ensures r.1.Pass? ==> r.0.frame == ECEF && r.0.form == s.form
    ensures r.1.Fail? ==> r.1.error in {TypeError, RecursionError}
    ensures r.0.extra == s.extra && r.0.form == s.form
    decreases s, 0
  {
    if s.frame == ECEF then (s, Pass)
    else if s.observer.None? then (s, Fail(TypeError))
    else
      var (ob, o) := SetFormV(s.observer.value, "geodetic", g);
      if o.Fail? then (s.(observer := Some(ob)), o)
      else (s.(coord := g.enuToEcef(s.coord, ob.coord), frame := ECEF, observer := Some(ob)), Pass)
  }

  /** `self.form = "cartesian"` from inside the frame setter, where the position is not
      geodetic in ENU: a geodetic position (so in ECEF) is converted. */
  function ToCartesianV(s: PosValue, g: Geo): (r: PosValue)
    requires !(s.form == Geodetic && s.frame == ENU)
    ensures r.form == Cartesian && r.frame == s.frame && r.observer == s.observer && r.extra == s.extra
    ensures s.form == Cartesian ==> r == s
  {
    if s.form == Cartesian then s else s.(coord := g.geodeticToCartesian(s.coord), form := Cartesian)
  }

  /** `self.frame = new_frame`: nothing for the current frame; otherwise the form is first
      forced to cartesian, the observer must exist (TypeError, after that conversion, if
      not) and is turned geodetic, and the coordinates are converted between ECEF and the
      observer's ENU frame. */
  function SetFrameV(s: PosValue, newFrame: string, g: Geo): (r: (PosValue, Outcome))
    ensures r.1 == Fail(FrameError) <==> ValidateFrame(newFrame).Fail?
    ensures ValidateFrame(newFrame).Fail? ==> r.0 == s
    ensures ValidateFrame(newFrame).Pass? && FrameOf(newFrame) == s.frame ==> r == (s, Pass)
    ensures r.1.Pass? && FrameOf(newFrame) != s.frame ==> r.0.frame == FrameOf(newFrame) && r.0.form == Cartesian
    ensures ValidateFrame(newFrame).Pass? && FrameOf(newFrame) != s.frame && s.observer.None? && !(s.form == Geodetic && s.frame == ENU) ==>
              r == (ToCartesianV(s, g), Fail(TypeError))
    ensures r.1.Fail? ==> r.1.error in {FrameError, TypeError, RecursionError}
    ensures r.0.extra == s.extra
  {
    if ValidateFrame(newFrame).Fail? then (s, Fail(FrameError))
    else
      var f := FrameOf(newFrame);
      if f == s.frame then (s, Pass)
      else if s.form == Geodetic && s.frame == ENU then (s, Fail(RecursionError))
      else
        var t := ToCartesianV(s, g);
        if t.observer.None? then (t, Fail(TypeError))
        else
          var (ob, o) := SetFormV(t.observer.value, "geodetic", g);
          if o.Fail? then (t.(observer := Some(ob)), o)
          else
            var c := if s.frame == ECEF then g.ecefToEnu(t.coord, ob.coord) else g.enuToEcef(t.coord, ob.coord);
            (t.(coord := c, frame := f, observer := Some(ob)), Pass)
  }

  /** A geodetic position in the ENU frame fails on any change of form or frame, unchanged. */
  lemma GeodeticEnuIsStuck(s: PosValue, newForm: string, newFrame: string, g: Geo)
    requires s.form == Geodetic && s.frame == ENU
    requires newForm == "cartesian" && newFrame == "ECEF"
    ensures SetFormV(s, newForm, g) == (s, Fail(RecursionError))
    ensures SetFrameV(s, newFrame, g) == (s, Fail(RecursionError))
  {}

  /** Turning an ECEF cartesian position geodetic and back restores it, for conversions that
      invert each other at its coordinates. */
  lemma FormRoundTrip(s: PosValue, g: Geo)
    requires s.frame == ECEF && s.form == Cartesian
    requires g.geodeticToCartesian(g.cartesianToGeodetic(s.coord)) == s.coord
    ensures SetFormV(s, "geodetic", g).1 == Pass
    ensures SetFormV(SetFormV(s, "geodetic", g).0, "cartesian", g) == (s, Pass)
  {
    var t := SetFormV(s, "geodetic", g).0;
    assert t == s.(coord := g.cartesianToGeodetic(s.coord), form := Geodetic);
  }

  /** Moving an ECEF cartesian position to the ENU frame of a geodetic observer and back
      restores it, for conversions that invert each other there. */
  lemma FrameRoundTrip(s: PosValue, g: Geo)
    requires s.frame == ECEF && s.form == Cartesian && s.observer.Some? && s.observer.value.form == Geodetic
    requires g.enuToEcef(g.ecefToEnu(s.coord, s.observer.value.coord), s.observer.value.coord) == s.coord
    ensures SetFrameV(s, "ENU", g).1 == Pass
    ensures SetFrameV(SetFrameV(s, "ENU", g).0, "ECEF", g) == (s, Pass)
  {
    var ob := s.observer.value;
    assert SetFormV(ob, "geodetic", g) == (ob, Pass);
    var t := SetFrameV(s, "ENU", g).0;
    assert t == s.(coord := g.ecefToEnu(s.coord, ob.coord), frame := ENU);
  }

  /** `copy(form, frame)` as a value: a deep copy (the observer too), then the frame and then
      the form are set when given, non-empty and different from this position's own; an
      error of either setter propagates and no copy is answered. */
  function CopyV(s: PosValue, form: Option<string>, frame: Option<string>, g: Geo): (r: Result<PosValue>)
    ensures form.None? && frame.None? ==> r == Ok(s)
    ensures r.Ok? ==> r.value.extra == s.extra
    ensures frame.Some? && frame.value != "" && ValidateFrame(frame.value).Fail? ==> r == Err(FrameError)
    ensures r.Ok? && frame.Some? && frame.value != "" && form.None? ==> r.value.frame == FrameOf(frame.value)
  {
    var (t, o) := if frame.Some? && frame.value != "" && frame.value != FrameName(s.frame) then SetFrameV(s, frame.value, g) else (s, Pass);
    if o.Fail? then Err(o.error)
    else
      var (u, o2) := if form.Some? && form.value != "" && form.value != FormName(s.form) then SetFormV(t, form.value, g) else (t, Pass);
      if o2.Fail? then Err(o2.error) else Ok(u)
  }

  /** `PositionGNSS(coord, frame, form, ...)`: an unknown form fails at the lookup of its
      coordinate names (KeyError) before the length test (OrbitError) and the frame test;
      the form test cannot fail after the lookup. */
  function NewCheck(length: nat, frame: string, form: string): (r: Outcome)
    ensures r.Pass? <==> length == 3 && ValidateFrame(frame).Pass? && ValidateForm(form).Pass?
    ensures ValidateForm(form).Fail? ==> r == Fail(KeyError)
    ensures ValidateForm(form).Pass? && length != 3 ==> r == Fail(OrbitError)
    ensures ValidateForm(form).Pass? && length == 3 && ValidateFrame(frame).Fail? ==> r == Fail(FrameError)
  {
    if !(form == "cartesian" || form == "geodetic") then Fail(KeyError)
    else if length != 3 then Fail(OrbitError)
    else match ValidateFrame(frame)
      case Fail(e) => Fail(e)
      case Pass => ValidateForm(form)
  }

  /** The keys the metadata dictionary holds apart from other keyword arguments. */
  const RESERVED: set<string> := {"frame", "form", "state_str", "observer"}

  /** A key of `__getitem__`: an integer, a slice `start:stop`, or a metadata name. */
  datatype Key = IntKey(i: int) | SliceKey(start: Option<int>, stop: Option<int>) | NameKey(name: string)

  /** What `__getitem__` answers. */
  datatype Item = Number(x: real) | Numbers(xs: seq<real>) | Text(s: string) | Position(p: PosValue)

  /** A slice bound of Python on a sequence of length `n`: negative counts from the end,
      and the result is clamped into `0..n`. */
  function SliceBound(b: int, n: nat): (r: nat)
    ensures r <= n
    ensures 0 <= b <= n ==> r == b
  {
    if b < 0 then (if n + b < 0 then 0 else n + b) else if b > n then n else b
  }

  function Coords(c: Coord): (r: seq<real>)
    ensures |r| == 3
  {
    [c.c0, c.c1, c.c2]
  }

  class PositionGNSS {
    /** The ndarray buffer of the three coordinates. */
    const coord: array<real>
    var frame: Frame
    var form: Form
    var observer: Option<PosValue>
    var extra: map<string, string>

    ghost predicate Valid() reads this {
      coord.Length == 3 && RESERVED !! extra.Keys
    }

    function Current(): Coord
      requires Valid()
      reads this, coord
    {
      Coord(coord[0], coord[1], coord[2])
    }

    function StateOf(): PosValue
      requires Valid()
      reads this, coord
    {
      PosValue(Current(), frame, form, observer, extra)
    }

    constructor (c: Coord, frame: Frame, form: Form, observer: Option<PosValue>, extra: map<string, string>)
      ensures Valid() && fresh(coord)
      ensures StateOf() == PosValue(c, frame, form, observer, extra - RESERVED)
    {
      coord := new real[3] [c.c0, c.c1, c.c2];
      this.frame := frame;
      this.form := form;
      this.observer := observer;
      this.extra := extra - RESERVED;
    }

    /** `self.base.setfield(new_coord, dtype=float)`: the buffer is overwritten. */
    method SetField(c: Coord)
      requires Valid()
      modifies coord
      ensures Valid() && Current() == c
    {
      coord[0], coord[1], coord[2] := c.c0, c.c1, c.c2;
    }

    /** The `form` property setter. */
    method SetForm(newForm: string, g: Geo) returns (o: Outcome)
      requires Valid()
      modifies this, coord
      ensures Valid()
      ensures (StateOf(), o) == SetFormV(old(StateOf()), newForm, g)
    {
      o := ValidateForm(newForm);
      if o.Fail? {
        return;
      }
      var f := FormOf(newForm);
      if f == form {
        return Pass;
      }
      if form == Geodetic && frame == ENU {
        return Fail(RecursionError);
      }
      o := ToEcef(g);
      if o.Fail? {
        return;
      }
      var c := if f == Cartesian then g.geodeticToCartesian(Current()) else g.cartesianToGeodetic(Current());
      SetField(c);
      form := f;
      return Pass;
    }

    /** `self.frame = "ECEF"` inside the form setter. */
    method ToEcef(g: Geo) returns (o: Outcome)
      requires Valid() && !(form == Geodetic && frame == ENU)
      modifies this, coord
      ensures Valid()
      ensures (StateOf(), o) == ToEcefV(old(StateOf()), g)
    {
      if frame == ECEF {
        return Pass;
      }
      if observer.None? {
        return Fail(TypeError);
      }
      var (ob, oo) := SetFormV(observer.value, "geodetic", g);
      observer := Some(ob);
      if oo.Fail? {
        return oo;
      }
      SetField(g.enuToEcef(Current(), ob.coord));
      frame := ECEF;
      return Pass;
    }

    /** The `frame` property setter. */
    method SetFrame(newFrame: string, g: Geo) returns (o: Outcome)
      requires Valid()
      modifies this, coord
      ensures Valid()
      ensures (StateOf(), o) == SetFrameV(old(StateOf()), newFrame, g)
    {
      o := ValidateFrame(newFrame);
      if o.Fail? {
        return;
      }
      var f := FrameOf(newFrame);
      if f == frame {
        return Pass;
      }
      if form == Geodetic && frame == ENU {
        return Fail(RecursionError);
      }
      if form == Geodetic {
        SetField(g.geodeticToCartesian(Current()));
        form := Cartesian;
      }
      if observer.None? {
        return Fail(TypeError);
      }
      var (ob, oo) := SetFormV(observer.value, "geodetic", g);
      observer := Some(ob);
      if oo.Fail? {
        return oo;
      }
      var c := if frame == ECEF then g.ecefToEnu(Current(), ob.coord) else g.enuToEcef(Current(), ob.coord);
      SetField(c);
      frame := f;
      return Pass;
    }

    /** The `observer` property setter. */
    method SetObserver(ob: PosValue)
      requires Valid()
      modifies this
      ensures Valid() && StateOf() == old(StateOf()).(observer := Some(ob))
    {
      observer := Some(ob);
    }

    /** `copy(form, frame)`: a new, independent object; this one is left as it was. */
    method Copy(newForm: Option<string>, newFrame: Option<string>, g: Geo) returns (r: Result<PositionGNSS>)
      requires Valid()
      ensures StateOf() == old(StateOf())
      ensures match CopyV(StateOf(), newForm, newFrame, g)
              case Err(e) => r == Err(e)
              case Ok(v) => r.Ok? && fresh(r.value) && fresh(r.value.coord) && r.value.Valid() && r.value.StateOf() == v
    {
      var copied := new PositionGNSS(Current(), frame, form, observer, extra);
      assert extra - RESERVED == extra;
      if newFrame.Some? && newFrame.value != "" && newFrame.value != FrameName(frame) {
        var o := copied.SetFrame(newFrame.value, g);
        if o.Fail? {
          return Err(o.error);
        }
      }
      if newForm.Some? && newForm.value != "" && newForm.value != FormName(form) {
        var o := copied.SetForm(newForm.value, g);
        if o.Fail? {
          return Err(o.error);
        }
      }
      return Ok(copied);
    }

    /** `self[key]`: a coordinate by (possibly negative) index, a slice of the coordinates, or
        a metadata entry; an index out of range raises IndexError and a missing name KeyError. */
    function GetItem(key: Key): (r: Result<Item>)
      requires Valid()
      reads this, coord
      ensures key.IntKey? ==> (r.Ok? <==> -3 <= key.i < 3)
      ensures key.IntKey? && 0 <= key.i < 3 ==> r == Ok(Number(coord[key.i]))
      ensures key.IntKey? && -3 <= key.i < 0 ==> r == Ok(Number(coord[3 + key.i]))
      ensures key.SliceKey? ==>
                var lo := SliceBound(if key.start.Some? then key.start.value else 0, 3);
                var hi := SliceBound(if key.stop.Some? then key.stop.value else 3, 3);
                r.Ok? && r.value.Numbers? && |r.value.xs| == (if lo <= hi then hi - lo else 0)
                && forall j :: 0 <= j < |r.value.xs| ==> r.value.xs[j] == coord[lo + j]
      ensures r.Err? ==> r.error == (if key.IntKey? then IndexError else KeyError)
      ensures key.NameKey? && key.name in RESERVED && key.name != "observer" ==> r.Ok? && r.value.Text?
      ensures key == NameKey("frame") ==> r == Ok(Text(FrameName(frame)))
      ensures key == NameKey("form") ==> r == Ok(Text(FormName(form)))
      ensures key == NameKey("state_str") ==> r == Ok(Text("position"))
      ensures key == NameKey("observer") ==> (r.Ok? <==> observer.Some?)
      ensures key == NameKey("observer") && observer.Some? ==> r == Ok(Position(observer.value))
      ensures key.NameKey? && key.name !in RESERVED ==> (r.Ok? <==> key.name in extra)
      ensures key.NameKey? && key.name !in RESERVED && key.name in extra ==> r == Ok(Text(extra[key.name]))
    {
      match key
      case IntKey(i) =>
        if -3 <= i < 0 then Ok(Number(coord[3 + i]))
        else if 0 <= i < 3 then Ok(Number(coord[i]))
        else Err(IndexError)
      case SliceKey(start, stop) =>
        var lo := SliceBound(if start.Some? then start.value else 0, 3);
        var hi := SliceBound(if stop.Some? then stop.value else 3, 3);
        Ok(Numbers(if lo <= hi then Coords(Current())[lo..hi] else []))
      case NameKey(name) =>
        if name == "frame" then Ok(Text(FrameName(frame)))
        else if name == "form" then Ok(Text(FormName(form)))
        else if name == "state_str" then Ok(Text("position"))
        else if name == "observer" then (if observer.Some? then Ok(Position(observer.value)) else Err(KeyError))
        else if name in extra then Ok(Text(extra[name]))
        else Err(KeyError)
    }

    /** A slice holds what indexing gives at each of its positions, and `self[:]` is the three
        coordinates in order. */
    lemma SliceMatchesIndex(start: Option<int>, stop: Option<int>)
      requires Valid()
      ensures var xs := GetItem(SliceKey(start, stop)).value.xs;
              var lo := SliceBound(if start.Some? then start.value else 0, 3);
              forall j :: 0 <= j < |xs| ==> GetItem(IntKey(lo + j)) == Ok(Number(xs[j]))
      ensures GetItem(SliceKey(None, None)) == Ok(Numbers(Coords(Current())))
    {
      assert Coords(Current())[0..3] == Coords(Current());
    }
  }

  /** `PositionGNSS(coord, frame, form, observer=..., **kwargs)`. */
  method NewPositionGNSS(coord: seq<real>, frame: string, form: string, observer: Option<PosValue>, kwargs: map<string, string>)
    returns (r: Result<PositionGNSS>)
    ensures NewCheck(|coord|, frame, form).Fail? ==> r == Err(NewCheck(|coord|, frame, form).error)
    ensures NewCheck(|coord|, frame, form).Pass? ==>
              r.Ok? && fresh(r.value) && r.value.Valid() &&
              r.value.StateOf() == PosValue(Coord(coord[0], coord[1], coord[2]), FrameOf(frame), FormOf(form), observer, kwargs - RESERVED)
  {
    var check := NewCheck(|coord|, frame, form);
    if check.Fail? {
      return Err(check.error);
    }
    var p := new PositionGNSS(Coord(coord[0], coord[1], coord[2]), FrameOf(frame), FormOf(form), observer, kwargs);
    return Ok(p);
  }
}
