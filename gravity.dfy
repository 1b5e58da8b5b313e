/** The shape checks and sign handling of ins/mechanization/gravity.py. Positions in "lld" form
    are latitude, longitude and a height positive downwards (the NED convention), so the
    third component is negated around the standard geodetic conversions, which are the
    function parameters of a `GnssState.Geo`. The gravity formulas are not modelled. */
module Gravity {
  import opened Errors
  import opened GnssState

  /** `Constant.EARTH_ROTATION`, rad/s. */
  const EARTH_ROTATION: real := 0.00007292115

  /** The check the three conversions share on `data.shape`, answering whether the data is a
      batch: a vector must have 3 entries, and any other array 3 columns; an array without
      dimensions has no `_shape[1]` (IndexError). */
  function CheckShape(shape: seq<nat>): (r: Result<bool>)
    ensures r == Ok(false) <==> shape == [3]
    ensures r == Ok(true) <==> |shape| >= 2 && shape[1] == 3
    ensures r.Err? ==> r.error == (if shape == [] then IndexError else ValueError)
  {
    if |shape| == 1 then (if shape[0] != 3 then Err(ValueError) else Ok(false))
    else if |shape| == 0 then Err(IndexError)
    else if shape[1] != 3 then Err(ValueError)
    else Ok(true)
  }

  /** A one-dimensional or two-dimensional array of positions. */
  datatype Grid = Vec(v: array<real>) | Mat(m: array2<real>)

  function ShapeOf(d: Grid): (r: seq<nat>)
    ensures |r| == if d.Vec? then 1 else 2
  {
    if d.Vec? then [d.v.Length] else [d.m.Length0, d.m.Length1]
  }

  /** The height sign flip between "lla" (height up) and "lld" (height down). */
  function Flip(c: Coord): (r: Coord)
    ensures r.c0 == c.c0 && r.c1 == c.c1 && r.c2 == -c.c2
  {
    Coord(c.c0, c.c1, -c.c2)
  }

  /** Flipping twice gives the position back. */
  lemma FlipTwice(c: Coord)
    ensures Flip(Flip(c)) == c
  {}

  /** One ECEF position to "lld": the geodetic conversion with its height negated. */
  function EcefToLld(g: Geo, c: Coord): Coord {
    Flip(g.cartesianToGeodetic(c))
  }

  /** One "lld" position to ECEF: the geodetic conversion of the position with height up. */
  function LldToEcef(g: Geo, c: Coord): Coord {
    g.geodeticToCartesian(Flip(c))
  }

  /** The sign handling cancels out: over conversions inverse at a position, "lld" and back to
      ECEF, or ECEF and back to "lld", gives the position back. */
  lemma LldRoundTrip(g: Geo, c: Coord)
    requires g.geodeticToCartesian(g.cartesianToGeodetic(c)) == c
    ensures LldToEcef(g, EcefToLld(g, c)) == c
  {
    FlipTwice(g.cartesianToGeodetic(c));
  }

  lemma EcefRoundTrip(g: Geo, c: Coord)
    requires g.cartesianToGeodetic(g.geodeticToCartesian(Flip(c))) == Flip(c)
    ensures EcefToLld(g, LldToEcef(g, c)) == c
  {
    FlipTwice(c);
  }

  function VecCoord(a: array<real>): Coord
    requires a.Length == 3
    reads a
  {
    Coord(a[0], a[1], a[2])
  }

  function RowCoord(m: array2<real>, t: nat): Coord
    requires m.Length1 == 3 && t < m.Length0
    reads m
  {
    Coord(m[t, 0], m[t, 1], m[t, 2])
  }

  /** `lla2lld(data)`: a copy whose third component, of the vector or of every row, is
      negated; the input is not changed. */
  method Lla2Lld(data: Grid) returns (r: Result<Grid>)
    ensures CheckShape(ShapeOf(data)).Err? ==> r == Err(CheckShape(ShapeOf(data)).error)
    ensures CheckShape(ShapeOf(data)).Ok? ==> r.Ok? && r.value.Vec? == data.Vec?
    ensures r.Ok? && data.Vec? ==> fresh(r.value.v) && r.value.v.Length == 3 && VecCoord(r.value.v) == Flip(VecCoord(data.v))
    ensures r.Ok? && data.Mat? ==> fresh(r.value.m) && ShapeOf(r.value) == ShapeOf(data)
    ensures r.Ok? && data.Mat? ==> forall t :: 0 <= t < data.m.Length0 ==> RowCoord(r.value.m, t) == Flip(RowCoord(data.m, t))
  {
    var shape := CheckShape(ShapeOf(data));
    if shape.Err? {
      return Err(shape.error);
    }
    match data
    case Vec(v) =>
      var lld := new real[3] [v[0], v[1], v[2]];
      lld[2] := -lld[2];
      return Ok(Vec(lld));
    case Mat(m) =>
      var lld := new real[m.Length0, m.Length1]((i, j) requires 0 <= i < m.Length0 && 0 <= j < m.Length1 reads m => m[i, j]);
      var t := 0;
      while t < m.Length0
        invariant 0 <= t <= m.Length0
        invariant forall i, j :: 0 <= i < m.Length0 && 0 <= j < 3 ==>
                    lld[i, j] == if j == 2 && i < t then -m[i, j] else m[i, j]
      {
        lld[t, 2] := -lld[t, 2];
        t := t + 1;
      }
      return Ok(Mat(lld));
  }

  /** `ecef2lld(data)`: a new array of the "lld" positions, row by row for a batch. */
  method Ecef2Lld(data: Grid, g: Geo) returns (r: Result<Grid>)
    ensures CheckShape(ShapeOf(data)).Err? ==> r == Err(CheckShape(ShapeOf(data)).error)
    ensures CheckShape(ShapeOf(data)).Ok? ==> r.Ok? && r.value.Vec? == data.Vec?
    ensures r.Ok? && data.Vec? ==> fresh(r.value.v) && r.value.v.Length == 3 && VecCoord(r.value.v) == EcefToLld(g, VecCoord(data.v))
    ensures r.Ok? && data.Mat? ==> fresh(r.value.m) && ShapeOf(r.value) == ShapeOf(data)
    ensures r.Ok? && data.Mat? ==> forall t :: 0 <= t < data.m.Length0 ==> RowCoord(r.value.m, t) == EcefToLld(g, RowCoord(data.m, t))
  {
    var shape := CheckShape(ShapeOf(data));
    if shape.Err? {
      return Err(shape.error);
    }
    match data
    case Vec(v) =>
      var p := g.cartesianToGeodetic(VecCoord(v));
      var tmp := new real[3] [p.c0, p.c1, p.c2];
      tmp[2] := -tmp[2];
      return Ok(Vec(tmp));
    case Mat(m) =>
      var lld := new real[m.Length0, 3];
      var t := 0;
      while t < m.Length0
        invariant 0 <= t <= m.Length0
        invariant forall i :: 0 <= i < t ==> RowCoord(lld, i) == EcefToLld(g, RowCoord(m, i))
      {
        var p := g.cartesianToGeodetic(RowCoord(m, t));
        lld[t, 0], lld[t, 1], lld[t, 2] := p.c0, p.c1, p.c2;
        lld[t, 2] := -lld[t, 2];
        t := t + 1;
      }
      return Ok(Mat(lld));
  }

  /** `lld2ecef(data)`: a new array of the ECEF positions, row by row for a batch. */
  method Lld2Ecef(data: Grid, g: Geo) returns (r: Result<Grid>)
    ensures CheckShape(ShapeOf(data)).Err? ==> r == Err(CheckShape(ShapeOf(data)).error)
    ensures CheckShape(ShapeOf(data)).Ok? ==> r.Ok? && r.value.Vec? == data.Vec?
    ensures r.Ok? && data.Vec? ==> fresh(r.value.v) && r.value.v.Length == 3 && VecCoord(r.value.v) == LldToEcef(g, VecCoord(data.v))
    ensures r.Ok? && data.Mat? ==> fresh(r.value.m) && ShapeOf(r.value) == ShapeOf(data)
    ensures r.Ok? && data.Mat? ==> forall t :: 0 <= t < data.m.Length0 ==> RowCoord(r.value.m, t) == LldToEcef(g, RowCoord(data.m, t))
  {
    var shape := CheckShape(ShapeOf(data));
    if shape.Err? {
      return Err(shape.error);
    }
    match data
    case Vec(v) =>
      var p := g.geodeticToCartesian(Coord(v[0], v[1], -v[2]));
      var ecef := new real[3] [p.c0, p.c1, p.c2];
      return Ok(Vec(ecef));
    case Mat(m) =>
      var ecef := new real[m.Length0, 3];
      var t := 0;
      while t < m.Length0
        invariant 0 <= t <= m.Length0
        invariant forall i :: 0 <= i < t ==> RowCoord(ecef, i) == LldToEcef(g, RowCoord(m, i))
      {
        var p := g.geodeticToCartesian(Coord(m[t, 0], m[t, 1], -m[t, 2]));
        ecef[t, 0], ecef[t, 1], ecef[t, 2] := p.c0, p.c1, p.c2;
        t := t + 1;
      }
      return Ok(Mat(ecef));
  }

  /** The mode check of `acceleration(r_eb_e, mode)`, answering the squared rotation rate the
      formula uses: the Earth's for gravity with respect to the Earth, none for inertial
      gravity, TypeError for any other mode. */
  function RotationSquared(mode: string): (r: Result<real>)
    ensures r.Ok? <==> mode == "earth" || mode == "inertial"
    ensures r.Err? ==> r.error == TypeError
    ensures r.Ok? ==> r.value >= 0.0
    ensures r.Ok? ==> (r.value == 0.0 <==> mode == "inertial")
  {
    if !(mode in ["earth", "inertial"]) then Err(TypeError)
    else if mode == "earth" then Ok(EARTH_ROTATION * EARTH_ROTATION)
    else Ok(0.0)
  }
}
