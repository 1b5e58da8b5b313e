/** Unit conversion of inertial data, ins/data_mng/unit_conversions.py: a factor per component
    between degrees and radians, per second and per hour, applied to a scalar, a vector or the
    columns of a matrix. Reals stand for the floating-point values. */
module UnitConversions {
  import opened Errors

  /** `Constant.DEG2RAD` of math_utils/Constants.py. */
  const DEG2RAD: real := 0.01745329251994

  /** A unit argument: a single unit name, or a list of them. */
  datatype Units = OneUnit(u: string) | UnitList(us: seq<string>)

  /** `convert_unit` wraps a single name in a list. */
  function UnitsOf(a: Units): (r: seq<string>)
    ensures a.OneUnit? ==> r == [a.u]
  {
    if a.OneUnit? then [a.u] else a.us
  }

  /** The data `convert_unit` accepts: a scalar (a Python int or float, or a NumPy float, which
      unlike the others has a `copy` method), a 1-D array, a 2-D array (rows are epochs,
      columns are components), or an array of another dimension. */
  datatype Data =
    | Scalar(value: real, numpy: bool)
    | Vector(v: seq<real>)
    | Matrix(m: array2<real>)
    | OtherArray(ndim: nat)

  /** The branch chain of `unit_conversion_scale` for one component. */
  function UnitFactor(src: string, out: string): (r: Result<real>)
    ensures src == out ==> r == Ok(1.0)
    ensures r.Err? ==> r.error == UnknownConversion
    ensures r.Ok? ==> r.value > 0.0
  {
    if src == "deg" && out == "rad" then Ok(DEG2RAD)
    else if src == "deg/s" && out == "rad/s" then Ok(DEG2RAD)
    else if src == "deg/hr" && out == "rad/s" then Ok(DEG2RAD / 3600.0)
    else if src == "rad" && out == "deg" then Ok(1.0 / DEG2RAD)
    else if src == "rad/s" && out == "deg/s" then Ok(1.0 / DEG2RAD)
    else if src == "rad/s" && out == "deg/hr" then Ok(3600.0 / DEG2RAD)
    else if src != out then Err(UnknownConversion)
    else Ok(1.0)
  }

  /** Every known conversion has its reverse, and the two factors multiply to one. */
  lemma FactorReciprocal(src: string, out: string)
    requires UnitFactor(src, out).Ok?
    ensures UnitFactor(out, src).Ok?
    ensures UnitFactor(src, out).value * UnitFactor(out, src).value == 1.0
  {}

  /** The scale vector `unit_conversion_scale(src_unit, out_unit)` answers: ValueError when
      the lists differ in length, UnknownConversion when some component has no factor. */
  function ScaleFor(src: seq<string>, out: seq<string>): (r: Result<seq<real>>)
    ensures r == Err(ValueError) <==> |src| != |out|
    ensures r == Err(UnknownConversion) <==>
              |src| == |out| && exists i :: 0 <= i < |src| && UnitFactor(src[i], out[i]).Err?
    ensures r.Ok? ==> |r.value| == |src|
    ensures r.Ok? ==> forall i :: 0 <= i < |src| ==> UnitFactor(src[i], out[i]) == Ok(r.value[i])
  {
    if |src| != |out| then Err(ValueError)
    else if exists i :: 0 <= i < |src| && UnitFactor(src[i], out[i]).Err? then Err(UnknownConversion)
    else Ok(seq(|src|, i requires 0 <= i < |src| => UnitFactor(src[i], out[i]).value))
  }

  /** Converting back is taking the reciprocal of each factor. */
  lemma ScaleReciprocal(src: seq<string>, out: seq<string>)
    requires ScaleFor(src, out).Ok?
    ensures ScaleFor(out, src).Ok?
    ensures forall i :: 0 <= i < |src| ==> ScaleFor(src, out).value[i] * ScaleFor(out, src).value[i] == 1.0
  {
    forall i | 0 <= i < |src| ensures UnitFactor(out[i], src[i]).Ok? {
      FactorReciprocal(src[i], out[i]);
    }
    forall i | 0 <= i < |src|
      ensures ScaleFor(src, out).value[i] * ScaleFor(out, src).value[i] == 1.0 {
      FactorReciprocal(src[i], out[i]);
    }
  }

  /** `unit_conversion_scale(src_unit, out_unit)`: a vector of ones, overwritten component by
      component. */
  method UnitConversionScale(src: seq<string>, out: seq<string>) returns (r: Result<seq<real>>)
    ensures r == ScaleFor(src, out)
  {
    if |out| != |src| {
      return Err(ValueError);
    }
    var scale := new real[|out|](_ => 1.0);
    var i := 0;
    while i < |out|
      invariant 0 <= i <= |out|
      invariant forall k :: 0 <= k < i ==> UnitFactor(src[k], out[k]) == Ok(scale[k])
    {
      if src[i] == "deg" && out[i] == "rad" {
        scale[i] := DEG2RAD;
      } else if src[i] == "deg/s" && out[i] == "rad/s" {
        scale[i] := DEG2RAD;
      } else if src[i] == "deg/hr" && out[i] == "rad/s" {
        scale[i] := DEG2RAD / 3600.0;
      } else if src[i] == "rad" && out[i] == "deg" {
        scale[i] := 1.0 / DEG2RAD;
      } else if src[i] == "rad/s" && out[i] == "deg/s" {
        scale[i] := 1.0 / DEG2RAD;
      } else if src[i] == "rad/s" && out[i] == "deg/hr" {
        scale[i] := 3600.0 / DEG2RAD;
      } else if src[i] != out[i] {
        return Err(UnknownConversion);
      } else {
        scale[i] := 1.0;
      }
      i := i + 1;
    }
    assert forall k :: 0 <= k < |src| ==> UnitFactor(src[k], out[k]).Ok?;
    assert scale[..] == ScaleFor(src, out).value;
    return Ok(scale[..]);
  }

  /** The factor of column `j` of a 2-D array: the only factor when there is one. */
  function ColumnFactor(scale: seq<real>, j: nat): real
    requires |scale| == 1 || j < |scale|
  {
    if |scale| == 1 then scale[0] else scale[j]
  }

  /** How many columns the 2-D loop scales before `scale[i]` runs out of range. */
  function ScaledColumns(columns: nat, scale: seq<real>): (r: nat)
    ensures r <= columns
    ensures r < columns <==> |scale| != 1 && columns > |scale|
    ensures r < columns ==> r == |scale|
  {
    if |scale| == 1 || columns <= |scale| then columns else |scale|
  }

  /** The 2-D branch of `convert_unit_ndarray_scalar`: each column is multiplied in place by its
      factor (columns whose factor is 1 are left alone). With several factors and more columns
      than factors, the column past the last factor raises IndexError, the columns before it
      already scaled. */
  method ScaleColumns(x: array2<real>, scale: seq<real>) returns (o: Outcome)
    modifies x
    ensures o.Fail? <==> |scale| != 1 && x.Length1 > |scale|
    ensures o.Fail? ==> o.error == IndexError
    ensures forall i, j :: 0 <= i < x.Length0 && 0 <= j < x.Length1 ==>
              x[i, j] == if j < ScaledColumns(x.Length1, scale) then old(x[i, j]) * ColumnFactor(scale, j) else old(x[i, j])
  {
    var c := 0;
    while c < x.Length1
      invariant 0 <= c <= x.Length1 && c <= ScaledColumns(x.Length1, scale)
      invariant forall i, j :: 0 <= i < x.Length0 && 0 <= j < x.Length1 ==>
                  x[i, j] == if j < c then old(x[i, j]) * ColumnFactor(scale, j) else old(x[i, j])
    {
      if |scale| != 1 && c >= |scale| {
        return Fail(IndexError);
      }
      var factor := ColumnFactor(scale, c);
      if factor != 1.0 {
        ScaleColumn(x, c, factor);
      }
      c := c + 1;
    }
    return Pass;
  }

  /** `x[:, c] = x[:, c] * factor`. */
  method ScaleColumn(x: array2<real>, c: nat, factor: real)
    requires c < x.Length1
    modifies x
    ensures forall i, j :: 0 <= i < x.Length0 && 0 <= j < x.Length1 ==>
              x[i, j] == if j == c then old(x[i, j]) * factor else old(x[i, j])
  {
    var r := 0;
    while r < x.Length0
      invariant 0 <= r <= x.Length0
      invariant forall i, j :: 0 <= i < x.Length0 && 0 <= j < x.Length1 ==>
                  x[i, j] == if j == c && i < r then old(x[i, j]) * factor else old(x[i, j])
    {
      x[r, c] := x[r, c] * factor;
      r := r + 1;
    }
  }

  /** The 1-D branch: element by element when the lengths agree, otherwise every element by
      the first factor (IndexError when there is none). */
  function ScaleVector(v: seq<real>, scale: seq<real>): (r: Result<seq<real>>)
    ensures r.Err? <==> |v| != |scale| && scale == []
    ensures r.Err? ==> r.error == IndexError
    ensures r.Ok? ==> |r.value| == |v|
    ensures r.Ok? && |v| == |scale| ==> forall k :: 0 <= k < |v| ==> r.value[k] == v[k] * scale[k]
    ensures r.Ok? && |v| != |scale| ==> forall k :: 0 <= k < |v| ==> r.value[k] == v[k] * scale[0]
  {
    if |v| == |scale| then Ok(seq(|v|, k requires 0 <= k < |v| => v[k] * scale[k]))
    else if scale == [] then Err(IndexError)
    else Ok(seq(|v|, k requires 0 <= k < |v| => v[k] * scale[0]))
  }

  /** `convert_unit_ndarray_scalar(x, scale)` for everything but a 2-D array: the 1-D branch,
      a scalar times the first factor, ValueError for any other dimension. */
  function ScaleValue(x: Data, scale: seq<real>): (r: Result<Data>)
    requires !x.Matrix?
    ensures x.OtherArray? ==> r == Err(ValueError)
    ensures x.Scalar? && scale == [] ==> r == Err(IndexError)
    ensures x.Scalar? && scale != [] ==> r == Ok(Scalar(x.value * scale[0], x.numpy))
    ensures x.Vector? ==> r == (match ScaleVector(x.v, scale) case Ok(w) => Ok(Vector(w)) case Err(e) => Err(e))
  {
    if x.Vector? then (match ScaleVector(x.v, scale) case Ok(w) => Ok(Vector(w)) case Err(e) => Err(e))
    else if x.OtherArray? then Err(ValueError)
    else if scale == [] then Err(IndexError)
    else Ok(Scalar(x.value * scale[0], x.numpy))
  }

  /** `convert_unit(data, src_unit, out_unit)` as written, for everything but a 2-D array: the
      scale first, then `data.copy()`, which a Python int or float does not have. */
  function ConvertValue(data: Data, src: Units, out: Units): (r: Result<Data>)
    requires !data.Matrix?
    ensures ScaleFor(UnitsOf(src), UnitsOf(out)).Err? ==> r == Err(ScaleFor(UnitsOf(src), UnitsOf(out)).error)
    ensures ScaleFor(UnitsOf(src), UnitsOf(out)).Ok? && data.Scalar? && !data.numpy ==> r == Err(AttributeError)
  {
    match ScaleFor(UnitsOf(src), UnitsOf(out))
    case Err(e) => Err(e)
    case Ok(scale) => if data.Scalar? && !data.numpy then Err(AttributeError) else ScaleValue(data, scale)
  }

  /** A plain float, the scalar the documentation promises to convert, always fails. */
  lemma PlainScalarFails()
    ensures ConvertValue(Scalar(1.0, false), OneUnit("deg"), OneUnit("rad")) == Err(AttributeError)
    ensures ScaleFor(["deg"], ["rad"]) == Ok([DEG2RAD])
  {
    assert UnitsOf(OneUnit("deg")) == ["deg"];
    assert UnitFactor("deg", "rad") == Ok(DEG2RAD);
    assert ScaleFor(["deg"], ["rad"]).value == [DEG2RAD];
  }

  /** `convert_unit` as evidently intended: a scalar is a value, so no copy is needed. */
  function ConvertValueFixed(data: Data, src: Units, out: Units): (r: Result<Data>)
    requires !data.Matrix?
    ensures ScaleFor(UnitsOf(src), UnitsOf(out)).Err? ==> r == Err(ScaleFor(UnitsOf(src), UnitsOf(out)).error)
    ensures ScaleFor(UnitsOf(src), UnitsOf(out)).Ok? ==> r == ScaleValue(data, ScaleFor(UnitsOf(src), UnitsOf(out)).value)
    ensures !(data.Scalar? && !data.numpy) ==> r == ConvertValue(data, src, out)
  {
    match ScaleFor(UnitsOf(src), UnitsOf(out))
    case Err(e) => Err(e)
    case Ok(scale) => ScaleValue(data, scale)
  }

  /** A scalar in one known unit converts to its value times that unit pair's factor. */
  lemma FixedScalarConverts(x: real, src: string, out: string)
    requires UnitFactor(src, out).Ok?
    ensures ConvertValueFixed(Scalar(x, false), OneUnit(src), OneUnit(out)) == Ok(Scalar(x * UnitFactor(src, out).value, false))
  {
    assert UnitsOf(OneUnit(src)) == [src] && UnitsOf(OneUnit(out)) == [out];
    var s := ScaleFor([src], [out]);
    assert s.Ok? && |s.value| == 1 && s.value[0] == UnitFactor(src, out).value;
    assert ScaleValue(Scalar(x, false), s.value) == Ok(Scalar(x * s.value[0], false));
  }

  /** Converting a value there and back gives it back. */
  lemma {:induction false} ConvertRoundTrip(data: Data, src: Units, out: Units)
    requires !data.Matrix? && ConvertValueFixed(data, src, out).Ok?
    ensures var back := ConvertValueFixed(data, src, out).value;
            !back.Matrix? && ConvertValueFixed(back, out, src) == Ok(data)
  {
    var s := ScaleFor(UnitsOf(src), UnitsOf(out)).value;
    ScaleReciprocal(UnitsOf(src), UnitsOf(out));
    var t := ScaleFor(UnitsOf(out), UnitsOf(src)).value;
    ScaleValueRoundTrip(data, s, t);
  }

  /** Scaling by factors and then by their reciprocals gives the value back. */
  lemma ScaleValueRoundTrip(data: Data, s: seq<real>, t: seq<real>)
    requires !data.Matrix? && ScaleValue(data, s).Ok?
    requires |s| == |t| && forall i :: 0 <= i < |s| ==> s[i] * t[i] == 1.0
    ensures !ScaleValue(data, s).value.Matrix? && ScaleValue(ScaleValue(data, s).value, t) == Ok(data)
  {
    match data
    case Vector(v) =>
      ScaleVectorRoundTrip(v, s, t);
    case Scalar(_, _) =>
      ScalarRoundTrip(data, s, t);
  }

  lemma ScalarRoundTrip(x: Data, s: seq<real>, t: seq<real>)
    requires x.Scalar? && s != [] && t != [] && s[0] * t[0] == 1.0
    ensures ScaleValue(x, s).Ok? && ScaleValue(ScaleValue(x, s).value, t) == Ok(x)
  {
    var y := ScaleValue(x, s).value;
    ScaleScalar(x, s);
    ScaleScalar(y, t);
    assert y == Scalar(x.value * s[0], x.numpy);
    assert ScaleValue(y, t) == Ok(Scalar(y.value * t[0], y.numpy));
    assert y.value * t[0] == x.value * (s[0] * t[0]);
    assert y.value * t[0] == x.value;
    assert Scalar(x.value, x.numpy) == x;
  }

  /** The scalar case of `ScaleValue`, as a step for proofs. */
  lemma ScaleScalar(x: Data, scale: seq<real>)
    requires x.Scalar? && scale != []
    ensures ScaleValue(x, scale) == Ok(Scalar(x.value * scale[0], x.numpy))
  {
  }

  lemma ScaleVectorRoundTrip(v: seq<real>, s: seq<real>, t: seq<real>)
    requires ScaleVector(v, s).Ok?
    requires |s| == |t| && forall i :: 0 <= i < |s| ==> s[i] * t[i] == 1.0
    ensures ScaleVector(ScaleVector(v, s).value, t) == Ok(v)
  {
    var w := ScaleVector(v, s).value;
    forall k | 0 <= k < |v| ensures ScaleVector(w, t).value[k] == v[k] {
      var a, b := if |v| == |s| then s[k] else s[0], if |v| == |s| then t[k] else t[0];
      assert a * b == 1.0;
      assert w[k] * b == v[k] * (a * b);
    }
    assert ScaleVector(w, t).value == v;
  }

  /** `convert_unit(data, src_unit, out_unit)`, with scalars handled as intended: a 2-D array is
      copied, and the copy's columns are scaled; the input is never changed. */
  method ConvertUnit(data: Data, src: Units, out: Units) returns (r: Result<Data>)
    ensures data.Matrix? ==>
              var scale := ScaleFor(UnitsOf(src), UnitsOf(out));
              if scale.Err? then r == Err(scale.error)
              else if |scale.value| != 1 && data.m.Length1 > |scale.value| then r == Err(IndexError)
              else r.Ok? && r.value.Matrix? && fresh(r.value.m) && ScaledCopy(data.m, r.value.m, scale.value)
    ensures !data.Matrix? ==> r == ConvertValueFixed(data, src, out)
  {
    var scale := UnitConversionScale(UnitsOf(src), UnitsOf(out));
    if scale.Err? {
      return Err(scale.error);
    }
    if !data.Matrix? {
      r := ConvertUnitNdarrayScalar(data, scale.value);
      return;
    }
    var x := new real[data.m.Length0, data.m.Length1]((i, j) requires 0 <= i < data.m.Length0 && 0 <= j < data.m.Length1 reads data.m => data.m[i, j]);
    r := ConvertUnitNdarrayScalar(Matrix(x), scale.value);
  }

  /** `convert_unit_ndarray_scalar(x, scale)`: a 2-D array is scaled in place and returned. */
  method ConvertUnitNdarrayScalar(x: Data, scale: seq<real>) returns (r: Result<Data>)
    modifies if x.Matrix? then {x.m} else {}
    ensures !x.Matrix? ==> r == ScaleValue(x, scale)
    ensures x.Matrix? ==> if |scale| != 1 && x.m.Length1 > |scale| then r == Err(IndexError) else r == Ok(x)
    ensures x.Matrix? ==> forall i, j :: 0 <= i < x.m.Length0 && 0 <= j < x.m.Length1 ==>
              x.m[i, j] == if j < ScaledColumns(x.m.Length1, scale) then old(x.m[i, j]) * ColumnFactor(scale, j) else old(x.m[i, j])
  {
    if !x.Matrix? {
      return ScaleValue(x, scale);
    }
    var o := ScaleColumns(x.m, scale);
    if o.Fail? {
      return Err(o.error);
    }
    return Ok(x);
  }

  /** `y` is `x` with every column multiplied by its factor. */
  ghost predicate ScaledCopy(x: array2<real>, y: array2<real>, scale: seq<real>)
    requires |scale| == 1 || x.Length1 <= |scale|
    reads x, y
  {
    y.Length0 == x.Length0 && y.Length1 == x.Length1 &&
    forall i, j :: 0 <= i < x.Length0 && 0 <= j < x.Length1 ==> y[i, j] == x[i, j] * ColumnFactor(scale, j)
  }
}
