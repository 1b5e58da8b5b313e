/** GPS time tags (data_types/basics/Epoch.py): a GPS week number and the seconds into
    that week, their normalisation, arithmetic and ordering. */
module Epochs {
  import opened Errors
  import Text
  import opened PyTypes

  const SECONDS_IN_DAY: int := 86400
  const DAYS_PER_WEEK: int := 7
  const SECONDS_IN_GPS_WEEK: int := 604800

  /** The pair (week, seconds) an `Epoch` instance holds; values, hashes and dictionary keys
      are all this pair. */
  datatype Epoch = Epoch(week: int, seconds: real)

  /** Seconds elapsed since the start of GPS week 0. */
  function Total(e: Epoch): real {
    e.week as real * SECONDS_IN_GPS_WEEK as real + e.seconds
  }

  /** The interval `fix_week` brings the seconds into: [0, 604800], both ends included. */
  predicate InWeek(e: Epoch) {
    0.0 <= e.seconds <= SECONDS_IN_GPS_WEEK as real
  }

  function Ceil(x: real): int {
    -((-x).Floor)
  }

  /** The epoch `fix_week` leaves behind: whole weeks moved between the two fields until the
      seconds lie in [0, 604800]; seconds above the week are reduced to (0, 604800] and
      negative seconds raised to [0, 604800). */
  function Normalized(e: Epoch): (r: Epoch)
    ensures InWeek(r) && Total(r) == Total(e)
    ensures InWeek(e) ==> r == e
    ensures e.seconds > SECONDS_IN_GPS_WEEK as real ==> r.seconds > 0.0
    ensures e.seconds < 0.0 ==> r.seconds < SECONDS_IN_GPS_WEEK as real
  {
    var w := SECONDS_IN_GPS_WEEK as real;
    if e.seconds > w then
      var k := Ceil(e.seconds / w) - 1;
      Epoch(e.week + k, e.seconds - k as real * w)
    else if e.seconds < 0.0 then
      var k := Ceil(-e.seconds / w);
      Epoch(e.week - k, e.seconds + k as real * w)
    else e
  }

  /** Two epochs at the same instant whose seconds lie in the same half-open week are equal. */
  lemma SameInstantSameFields(a: Epoch, b: Epoch, upperOpen: bool)
    requires Total(a) == Total(b)
    requires upperOpen ==> 0.0 <= a.seconds < SECONDS_IN_GPS_WEEK as real && 0.0 <= b.seconds < SECONDS_IN_GPS_WEEK as real
    requires !upperOpen ==> 0.0 < a.seconds <= SECONDS_IN_GPS_WEEK as real && 0.0 < b.seconds <= SECONDS_IN_GPS_WEEK as real
    ensures a == b
  {
    var w := SECONDS_IN_GPS_WEEK as real;
    var d := a.week - b.week;
    assert d as real * w == b.seconds - a.seconds;
  }

  /** `epoch + time_diff` (an int or a float): a new epoch, normalised, `time_diff` seconds later. */
  function Plus(e: Epoch, d: Number): (r: Result<Epoch>)
    ensures d.NotANumber? <==> r == Err(TypeError)
    ensures r.Ok? ==> InWeek(r.value) && Total(r.value) == Total(e) + d.Real()
  {
    if d.NotANumber? then Err(TypeError)
    else Ok(Normalized(Epoch(e.week, e.seconds + d.Real())))
  }

  /** `self - other`: the seconds by which `self` is ahead of `other`; the other epoch's seconds
      are first carried into this epoch's week when the weeks differ. */
  function Minus(self: Epoch, other: Arg<Epoch>): (r: Result<real>)
    ensures other.WrongType? <==> r == Err(TypeError)
    ensures other.Given? ==> r == Ok(Total(self) - Total(other.v))
  {
    match other
    case WrongType => Err(TypeError)
    case Given(o) =>
      var diffWeeks := o.week - self.week;
      if diffWeeks == 0 then Ok(self.seconds - o.seconds)
      else Ok(self.seconds - (o.seconds + diffWeeks as real * SECONDS_IN_GPS_WEEK as real))
  }

  /** Adding a difference and subtracting the starting epoch gives the difference back. */
  lemma PlusThenMinus(e: Epoch, d: Number)
    requires !d.NotANumber?
    ensures Minus(Plus(e, d).value, Given(e)) == Ok(d.Real())
  {}

  /** `self == other`: field by field, without normalising. */
  function Equals(self: Epoch, other: Arg<Epoch>): (r: Result<bool>)
    ensures other.WrongType? <==> r == Err(TypeError)
    ensures other.Given? ==> r == Ok(self == other.v)
  {
    match other
    case WrongType => Err(TypeError)
    case Given(o) => Ok(self.week == o.week && self.seconds == o.seconds)
  }

  /** `self > other`: both sides normalised, then compared week first, seconds second. */
  predicate Greater(a: Epoch, b: Epoch) {
    var x, y := Normalized(a), Normalized(b);
    x.week > y.week || (x.week == y.week && x.seconds > y.seconds)
  }

  /** `self >= other`: `self > other or self == other`, the equality taken after normalisation. */
  predicate GreaterOrEqual(a: Epoch, b: Epoch) {
    Greater(a, b) || Normalized(a) == Normalized(b)
  }

  /** `self <= other`: `not self > other`. */
  predicate LessOrEqual(a: Epoch, b: Epoch) {
    !Greater(a, b)
  }

  /** `self < other`: `not self >= other`. */
  predicate Less(a: Epoch, b: Epoch) {
    !GreaterOrEqual(a, b)
  }

  /** `>` agrees with the instants: a later instant is greater, and a greater epoch is never
      earlier. */
  lemma GreaterFollowsTime(a: Epoch, b: Epoch)
    ensures Total(a) > Total(b) ==> Greater(a, b)
    ensures Greater(a, b) ==> Total(a) >= Total(b)
  {
    var x, y := Normalized(a), Normalized(b);
    var w := SECONDS_IN_GPS_WEEK as real;
    if x.week > y.week {
      assert x.week as real * w >= y.week as real * w + w;
    } else if x.week < y.week {
      assert y.week as real * w >= x.week as real * w + w;
    }
  }

  /** `<` is the converse of `>`; `>` is a strict order whose incomparable epochs are those with
      the same normal form; so exactly one of `<`, same normal form, `>` holds. */
  lemma OrderFacts(a: Epoch, b: Epoch, c: Epoch)
    ensures Less(a, b) <==> Greater(b, a)
    ensures LessOrEqual(a, b) <==> !Less(b, a)
    ensures !Greater(a, a)
    ensures Greater(a, b) ==> !Greater(b, a)
    ensures Greater(a, b) && Greater(b, c) ==> Greater(a, c)
    ensures !Greater(a, b) && Greater(a, c) ==> Greater(b, c)
    ensures !Greater(a, b) && !Greater(b, a) <==> Normalized(a) == Normalized(b)
    ensures (Less(a, b) && !Greater(a, b) && Normalized(a) != Normalized(b))
            || (!Less(a, b) && Greater(a, b) && Normalized(a) != Normalized(b))
            || (!Less(a, b) && !Greater(a, b) && Normalized(a) == Normalized(b))
  {}

  /** The week boundary is represented twice, as (w, 604800) and (w + 1, 0), and `fix_week`
      keeps both: the two name the same instant, yet they are not equal and the first is `<`
      the second. */
  lemma WeekBoundaryIsAmbiguous(w: int)
    ensures Total(Epoch(w, SECONDS_IN_GPS_WEEK as real)) == Total(Epoch(w + 1, 0.0))
    ensures Equals(Epoch(w, SECONDS_IN_GPS_WEEK as real), Given(Epoch(w + 1, 0.0))) == Ok(false)
    ensures Less(Epoch(w, SECONDS_IN_GPS_WEEK as real), Epoch(w + 1, 0.0))
  {}

  /** A `datetime.timedelta`: days, then seconds in [0, 86400), then microseconds. */
  datatype TimeDelta = TimeDelta(days: int, seconds: int, microseconds: int)

  predicate ValidDelta(t: TimeDelta) {
    0 <= t.seconds < SECONDS_IN_DAY && 0 <= t.microseconds < 1000000
  }

  /** `t + timedelta(seconds=leap)`, renormalised as `timedelta` does. */
  function AddSeconds(t: TimeDelta, leap: int): (r: TimeDelta)
    requires ValidDelta(t)
    ensures ValidDelta(r) && r.microseconds == t.microseconds
    ensures r.days * SECONDS_IN_DAY + r.seconds == t.days * SECONDS_IN_DAY + t.seconds + leap
  {
    var s := t.seconds + leap;
    TimeDelta(t.days + s / SECONDS_IN_DAY, s % SECONDS_IN_DAY, t.microseconds)
  }

  /** `_from_datetime`: the GPS week and whole seconds of the week of a date given by its offset
      from the GPS reference epoch 1980-01-06 00:00:00, shifted by `leap` seconds; microseconds
      are dropped. */
  function FromDateTime(sinceReference: TimeDelta, leap: int): (r: Epoch)
    requires ValidDelta(sinceReference)
    ensures 0.0 <= r.seconds < SECONDS_IN_GPS_WEEK as real && r.seconds == r.seconds.Floor as real
    ensures Total(r) == (sinceReference.days * SECONDS_IN_DAY + sinceReference.seconds + leap) as real
  {
    var t := AddSeconds(sinceReference, leap);
    var week := t.days / DAYS_PER_WEEK;
    var secs := t.seconds + SECONDS_IN_DAY * (t.days - DAYS_PER_WEEK * week);
    Epoch(week, secs as real)
  }

  /** The `date` argument of the constructor. */
  datatype DateArg =
    /** A `datetime`, given by its offset from the GPS reference epoch. */
    | DateTime(sinceReference: TimeDelta)
    /** A string or a dict, with the outcome of turning it into a `datetime` (a `ValueError`
        from `strptime`, a `KeyError` for a missing dict key). */
    | Parsed(offset: Result<TimeDelta>)
    /** A tuple or a list of `length` items; `week` and `seconds` are its first two. */
    | Items(isTuple: bool, length: nat, week: int, seconds: real)
    | OtherDate

  /** `Epoch(date, time_system, leap_seconds)`. A tuple of any length of at least two is taken
      verbatim, but a list only when it has exactly two items. */
  function Construct(date: DateArg, timeSystem: string, leap: int): (r: Result<Epoch>)
    requires date.DateTime? ==> ValidDelta(date.sinceReference)
    requires date.Parsed? && date.offset.Ok? ==> ValidDelta(date.offset.value)
    ensures Text.Upper(timeSystem) != "GPS" && Text.Upper(timeSystem) != "UTC" ==> r == Err(TypeError)
    ensures r.Ok? && date.Items? ==> r.value == Epoch(date.week, date.seconds) && date.length >= 2
    ensures r.Ok? && (date.DateTime? || (date.Parsed? && date.offset.Ok?)) ==> r.value == FromDateTime(OffsetOf(date), leap)
    ensures (Text.Upper(timeSystem) == "GPS" || Text.Upper(timeSystem) == "UTC") ==>
              (r.Err? <==> date.OtherDate? || (date.Parsed? && date.offset.Err?)
                           || (date.Items? && (if date.isTuple then date.length < 2 else date.length != 2)))
  {
    var ts := Text.Upper(timeSystem);
    if ts != "GPS" && ts != "UTC" then Err(TypeError)
    else match date
      case DateTime(t) => Ok(FromDateTime(t, leap))
      case Parsed(o) => if o.Err? then Err(o.error) else Ok(FromDateTime(o.value, leap))
      case Items(isTuple, n, w, s) =>
        if isTuple then (if n >= 2 then Ok(Epoch(w, s)) else Err(IndexError))
        else if n == 2 then Ok(Epoch(w, s))
        else Err(TypeError)
      case OtherDate => Err(TypeError)
  }

  function OffsetOf(date: DateArg): TimeDelta
    requires date.DateTime? || (date.Parsed? && date.offset.Ok?)
  {
    if date.DateTime? then date.sinceReference else date.offset.value
  }

  /** An `Epoch` instance: fields that `fix_week`, `+=` and the comparisons update in place. */
  class EpochObject {
    var week: int
    var seconds: real

    function Value(): Epoch reads this { Epoch(week, seconds) }

    constructor (w: int, s: real)
      ensures Value() == Epoch(w, s)
    {
      week, seconds := w, s;
    }

    /** `Epoch(date, time_system, leap_seconds)`, raising what the constructor raises. */
    static method New(date: DateArg, timeSystem: string, leap: int) returns (r: Result<EpochObject>)
      requires date.DateTime? ==> ValidDelta(date.sinceReference)
      requires date.Parsed? && date.offset.Ok? ==> ValidDelta(date.offset.value)
      ensures r.Ok? <==> Construct(date, timeSystem, leap).Ok?
      ensures r.Err? ==> r.error == Construct(date, timeSystem, leap).error
      ensures r.Ok? ==> fresh(r.value) && r.value.Value() == Construct(date, timeSystem, leap).value
    {
      var c := Construct(date, timeSystem, leap);
      if c.Err? {
        return Err(c.error);
      }
      var o := new EpochObject(c.value.week, c.value.seconds);
      return Ok(o);
    }

    /** `copy()`: a new instance with the same week and seconds. */
    method Copy() returns (c: EpochObject)
      ensures fresh(c) && c.Value() == Value()
    {
      c := new EpochObject(week, seconds);
    }

    /** `fix_week()`: moves whole weeks between the fields until the seconds lie in [0, 604800]. */
    method FixWeek()
      modifies this
      ensures Value() == Normalized(old(Value()))
    {
      var w := SECONDS_IN_GPS_WEEK as real;
      ghost var start := Value();
      if seconds > w {
        while seconds > w
          invariant seconds > 0.0 && Total(Value()) == Total(start)
          decreases (seconds - w).Floor
        {
          seconds := seconds - w;
          week := week + 1;
        }
        SameInstantSameFields(Value(), Normalized(start), false);
      } else if seconds < 0.0 {
        while seconds < 0.0
          invariant seconds < w && Total(Value()) == Total(start)
          decreases (-seconds).Floor
        {
          seconds := seconds + w;
          week := week - 1;
        }
        SameInstantSameFields(Value(), Normalized(start), true);
      }
    }

    /** `self + time_diff`: a normalised copy moved by `time_diff`; `self` is left alone. */
    method Add(d: Number) returns (r: Result<EpochObject>)
      ensures r.Ok? <==> Plus(Value(), d).Ok?
      ensures r.Err? ==> r.error == TypeError
      ensures r.Ok? ==> fresh(r.value) && r.value.Value() == Plus(Value(), d).value
    {
      var other := Copy();
      if d.NotANumber? {
        return Err(TypeError);
      }
      other.seconds := other.seconds + d.Real();
      other.FixWeek();
      return Ok(other);
    }

    /** `self += time_diff`: moves this epoch in place and normalises it. */
    method IAdd(d: Number) returns (o: Outcome)
      modifies this
      ensures d.NotANumber? ==> o == Fail(TypeError) && Value() == old(Value())
      ensures !d.NotANumber? ==> o == Pass && Value() == Plus(old(Value()), d).value
    {
      if d.NotANumber? {
        return Fail(TypeError);
      }
      seconds := seconds + d.Real();
      FixWeek();
      return Pass;
    }

    /** `self > other`: normalises both epochs in place, then compares them. */
    method Gt(other: EpochObject) returns (r: bool)
      modifies this, other
      ensures r == Greater(old(Value()), old(other.Value()))
      ensures Value() == Normalized(old(Value())) && other.Value() == Normalized(old(other.Value()))
    {
      FixWeek();
      other.FixWeek();
      r := week > other.week || (week == other.week && seconds > other.seconds);
    }

    /** `self >= other`. */
    method Ge(other: EpochObject) returns (r: bool)
      modifies this, other
      ensures r == GreaterOrEqual(old(Value()), old(other.Value()))
      ensures Value() == Normalized(old(Value())) && other.Value() == Normalized(old(other.Value()))
    {
      r := Gt(other);
      if !r {
        r := week == other.week && seconds == other.seconds;
      }
    }

    /** `self <= other`. */
    method Le(other: EpochObject) returns (r: bool)
      modifies this, other
      ensures r == LessOrEqual(old(Value()), old(other.Value()))
      ensures Value() == Normalized(old(Value())) && other.Value() == Normalized(old(other.Value()))
    {
      r := Gt(other);
      r := !r;
    }

    /** `self < other`. */
    method Lt(other: EpochObject) returns (r: bool)
      modifies this, other
      ensures r == Less(old(Value()), old(other.Value()))
      ensures Value() == Normalized(old(Value())) && other.Value() == Normalized(old(other.Value()))
    {
      r := Ge(other);
      r := !r;
    }
  }
}
