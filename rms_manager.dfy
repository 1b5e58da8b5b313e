/** The error and RMS computations of quality_check/rms_manager.py over time series. The square
    root (`np.sqrt`, inside `np.linalg.norm`) is a function parameter, and `IsSqrt` says when it
    is one. */
module RmsManager {
  import opened Errors
  import opened Epochs
  import opened Series
  import opened GnssState

  /** The parameter answers the non-negative square root of every non-negative number. */
  ghost predicate IsSqrt(sqrt: real -> real) {
    forall x :: x >= 0.0 ==> sqrt(x) >= 0.0 && sqrt(x) * sqrt(x) == x
  }

  /** `vector1 - vector2` on arrays of the same length. */
  function Diff(a: seq<real>, b: seq<real>): (r: seq<real>)
    requires |a| == |b|
    ensures |r| == |a|
    ensures forall i :: 0 <= i < |r| ==> r[i] == a[i] - b[i]
  {
    seq(|a|, i requires 0 <= i < |a| => a[i] - b[i])
  }

  function SumSquares(v: seq<real>): (r: real)
    ensures r >= 0.0
  {
    if v == [] then 0.0 else v[0] * v[0] + SumSquares(v[1..])
  }

  /** `np.linalg.norm(v)`. */
  function Norm(v: seq<real>, sqrt: real -> real): real {
    sqrt(SumSquares(v))
  }

  /** The body of the loop of `compute_RMS_dynamic` for one epoch: it must be in both series
      (KeyError) with vectors of equal length (TypeError), and gives the norm of their
      difference. */
  function RmsAt(e: Epoch, d1: map<Epoch, seq<real>>, d2: map<Epoch, seq<real>>, sqrt: real -> real): (r: Result<real>)
    ensures r.Ok? <==> e in d1 && e in d2 && |d1[e]| == |d2[e]|
    ensures r.Err? ==> r.error == (if e in d1 && e in d2 then TypeError else KeyError)
    ensures r.Ok? ==> r.value == Norm(Diff(d1[e], d2[e]), sqrt)
  {
    if e !in d1 || e !in d2 then Err(KeyError)
    else if |d1[e]| != |d2[e]| then Err(TypeError)
    else Ok(Norm(Diff(d1[e], d2[e]), sqrt))
  }

  /** The loop of `compute_RMS_dynamic` from the epochs `es` on, `acc` holding what is stored
      so far: the first failing epoch ends it with its exception, and every other epoch
      stores the norm of the difference of the two vectors. */
  function RmsFrom(es: seq<Epoch>, d1: map<Epoch, seq<real>>, d2: map<Epoch, seq<real>>, sqrt: real -> real,
                   acc: SeriesValue<real>): (r: Result<SeriesValue<real>>)
    requires Invariant(acc)
    ensures r.Ok? <==> forall e :: e in es ==> e in d1 && e in d2 && |d1[e]| == |d2[e]|
    ensures r.Err? ==> r.error == KeyError || r.error == TypeError
    ensures (forall e :: e in es ==> e in d1 && e in d2) && r.Err? ==> r.error == TypeError
    ensures r.Ok? ==> Invariant(r.value)
    ensures r.Ok? ==> forall e :: e in r.value.data <==> e in acc.data || e in es
    ensures r.Ok? ==> forall e :: e in es ==> r.value.data[e] == Norm(Diff(d1[e], d2[e]), sqrt)
    ensures r.Ok? ==> forall e :: e in acc.data && e !in es ==> r.value.data[e] == acc.data[e]
    ensures r.Ok? && Distinct(es) && (forall e :: e in es ==> e !in acc.data) ==> r.value.epochs == acc.epochs + es
    decreases |es|
  {
    if es == [] then Ok(acc)
    else
      var e := es[0];
      assert forall x :: x in es <==> x == e || x in es[1..];
      var v := RmsAt(e, d1, d2, sqrt);
      if v.Err? then Err(v.error)
      else
        assert acc.epochs + [e] + es[1..] == acc.epochs + es;
        RmsFrom(es[1..], d1, d2, sqrt, WithData(acc, e, v.value))
  }

  /** The two lookups and the check of one epoch of `compute_RMS_dynamic`. */
  method RmsStep(e: Epoch, series1: TimeSeries<seq<real>>, series2: TimeSeries<seq<real>>, sqrt: real -> real)
      returns (r: Result<real>)
    requires series1.Valid() && series2.Valid()
    modifies series1, series2
    ensures series1.Valid() && series2.Valid()
    ensures series1.data == old(series1.data) && series2.data == old(series2.data)
    ensures r == RmsAt(e, old(series1.data), old(series2.data), sqrt)
  {
    var vector1 := Lookup(series1, e);
    var vector2 := Lookup(series2, e);
    if vector1.Err? || vector2.Err? {
      return Err(KeyError);
    }
    if |vector1.value| != |vector2.value| {
      return Err(TypeError);
    }
    return Ok(Norm(Diff(vector1.value, vector2.value), sqrt));
  }

  /** `compute_RMS_dynamic(vEpochs, series1, series2)`; the two series are sorted by their
      lookups but keep their data. */
  method ComputeRmsDynamic(vEpochs: seq<Epoch>, series1: TimeSeries<seq<real>>, series2: TimeSeries<seq<real>>,
                           sqrt: real -> real) returns (r: Result<TimeSeries<real>>)
    requires series1.Valid() && series2.Valid()
    modifies series1, series2
    ensures series1.Valid() && series2.Valid()
    ensures series1.data == old(series1.data) && series2.data == old(series2.data)
    ensures var spec := RmsFrom(vEpochs, old(series1.data), old(series2.data), sqrt, Empty());
            (r.Ok? <==> spec.Ok?) && (r.Err? ==> r.error == spec.error) &&
            (r.Ok? ==> fresh(r.value) && r.value.Valid() && r.value.Value() == spec.value)
  {
    ghost var d1, d2 := series1.data, series2.data;
    var rms := new TimeSeries<real>();
    var i := 0;
    while i < |vEpochs|
      invariant 0 <= i <= |vEpochs|
      invariant series1.Valid() && series2.Valid() && series1.data == d1 && series2.data == d2
      invariant fresh(rms) && rms.Valid()
      invariant RmsFrom(vEpochs[i..], d1, d2, sqrt, rms.Value()) == RmsFrom(vEpochs, d1, d2, sqrt, Empty())
    {
      var e := vEpochs[i];
      assert vEpochs[i..][1..] == vEpochs[i + 1..];
      var v := RmsStep(e, series1, series2, sqrt);
      if v.Err? {
        return Err(v.error);
      }
      rms.SetData(e, v.value);
      i := i + 1;
    }
    return Ok(rms);
  }

  /** `series.get_data_for_epoch(epoch)` as the loops below use it: the series is sorted,
      which keeps its data, and the epoch is looked up. */
  method Lookup<V>(series: TimeSeries<V>, e: Epoch) returns (r: Result<V>)
    requires series.Valid()
    modifies series
    ensures series.Valid() && series.data == old(series.data)
    ensures old(series.isSorted) ==> series.Value() == old(series.Value())
    ensures r == if e in series.data then Ok(series.data[e]) else Err(KeyError)
  {
    r := series.GetDataForEpoch(e);
  }

  /** The body of the loop of `compute_error_dynamic` for one epoch: the checks of
      `compute_RMS_dynamic`, then the difference must have three components (IndexError). */
  function DiffAt(e: Epoch, d1: map<Epoch, seq<real>>, d2: map<Epoch, seq<real>>): (r: Result<seq<real>>)
    ensures r.Ok? <==> e in d1 && e in d2 && |d1[e]| == |d2[e]| >= 3
    ensures r.Err? ==> r.error == (if e !in d1 || e !in d2 then KeyError else if |d1[e]| != |d2[e]| then TypeError else IndexError)
    ensures r.Ok? ==> r.value == Diff(d1[e], d2[e])
  {
    if e !in d1 || e !in d2 then Err(KeyError)
    else if |d1[e]| != |d2[e]| then Err(TypeError)
    else if |d1[e]| < 3 then Err(IndexError)
    else Ok(Diff(d1[e], d2[e]))
  }

  /** The exception of the first failing epoch of `es`, if any. */
  function FirstError(es: seq<Epoch>, d1: map<Epoch, seq<real>>, d2: map<Epoch, seq<real>>): (r: Option<ErrorClass>)
    ensures r.None? <==> forall e :: e in es ==> e in d1 && e in d2 && |d1[e]| == |d2[e]| >= 3
    ensures r.Some? ==> r.value == KeyError || r.value == TypeError || r.value == IndexError
  {
    if es == [] then None
    else
      assert forall x :: x in es <==> x == es[0] || x in es[1..];
      var d := DiffAt(es[0], d1, d2);
      if d.Err? then Some(d.error) else FirstError(es[1..], d1, d2)
  }

  /** The lookups and checks of one epoch of `compute_error_dynamic`. */
  method DiffStep(e: Epoch, series1: TimeSeries<seq<real>>, series2: TimeSeries<seq<real>>) returns (r: Result<seq<real>>)
    requires series1.Valid() && series2.Valid()
    modifies series1, series2
    ensures series1.Valid() && series2.Valid()
    ensures series1.data == old(series1.data) && series2.data == old(series2.data)
    ensures r == DiffAt(e, old(series1.data), old(series2.data))
  {
    var vector1 := Lookup(series1, e);
    var vector2 := Lookup(series2, e);
    if vector1.Err? || vector2.Err? {
      return Err(KeyError);
    }
    if |vector1.value| != |vector2.value| {
      return Err(TypeError);
    }
    if |vector1.value| < 3 {
      return Err(IndexError);
    }
    return Ok(Diff(vector1.value, vector2.value));
  }

  /** The three `set_data` calls of one epoch of `compute_error_dynamic`. */
  method SetComponents(x: TimeSeries<real>, y: TimeSeries<real>, z: TimeSeries<real>, e: Epoch, diff: seq<real>)
    requires x.Valid() && y.Valid() && z.Valid() && x != y && y != z && x != z && |diff| >= 3
    modifies x, y, z
    ensures x.Valid() && y.Valid() && z.Valid()
    ensures x.Value() == WithData(old(x.Value()), e, diff[0])
    ensures y.Value() == WithData(old(y.Value()), e, diff[1])
    ensures z.Value() == WithData(old(z.Value()), e, diff[2])
  {
    x.SetData(e, diff[0]);
    y.SetData(e, diff[1]);
    z.SetData(e, diff[2]);
  }

  /** The series of component `k` of the differences, filled by `set_data` over the epochs
      `es` in order. */
  function ComponentSeries(es: seq<Epoch>, d1: map<Epoch, seq<real>>, d2: map<Epoch, seq<real>>, k: nat): (r: SeriesValue<real>)
    requires forall e :: e in es ==> e in d1 && e in d2 && |d1[e]| == |d2[e]| > k
    ensures Invariant(r)
  {
    if es == [] then Empty()
    else
      var e := es[|es| - 1];
      var rest := es[..|es| - 1];
      assert forall x :: x in rest ==> x in es;
      WithData(ComponentSeries(rest, d1, d2, k), e, d1[e][k] - d2[e][k])
  }

  /** A component series holds exactly the epochs of `es`, each with component `k` of its
      difference, and keeps the order of `es` when it has no repeats. */
  lemma {:induction false} ComponentSeriesFacts(es: seq<Epoch>, d1: map<Epoch, seq<real>>, d2: map<Epoch, seq<real>>, k: nat)
    requires forall e :: e in es ==> e in d1 && e in d2 && |d1[e]| == |d2[e]| > k
    ensures var r := ComponentSeries(es, d1, d2, k);
            (forall e :: e in r.data <==> e in es) &&
            (forall e :: e in es ==> r.data[e] == d1[e][k] - d2[e][k]) &&
            (Distinct(es) ==> r.epochs == es)
  {
    if es != [] {
      var e := es[|es| - 1];
      var rest := es[..|es| - 1];
      assert forall x :: x in es <==> x == e || x in rest;
      assert es == rest + [e];
      ComponentSeriesFacts(rest, d1, d2, k);
    }
  }

  /** One more epoch that passes the checks is one more `set_data` on a component series. */
  lemma ComponentStep(es: seq<Epoch>, i: nat, d1: map<Epoch, seq<real>>, d2: map<Epoch, seq<real>>, k: nat)
    requires i < |es| && forall e :: e in es[..i + 1] ==> e in d1 && e in d2 && |d1[e]| == |d2[e]| > k
    ensures forall e :: e in es[..i] ==> e in d1 && e in d2 && |d1[e]| == |d2[e]| > k
    ensures ComponentSeries(es[..i + 1], d1, d2, k) == WithData(ComponentSeries(es[..i], d1, d2, k), es[i], d1[es[i]][k] - d2[es[i]][k])
  {
    var s := es[..i + 1];
    assert s[..|s| - 1] == es[..i] && s[|s| - 1] == es[i];
  }

  lemma FirstErrorStep(es: seq<Epoch>, i: nat, d1: map<Epoch, seq<real>>, d2: map<Epoch, seq<real>>)
    requires i < |es| && FirstError(es[..i], d1, d2).None? && DiffAt(es[i], d1, d2).Ok?
    ensures FirstError(es[..i + 1], d1, d2).None?
  {
    assert forall e :: e in es[..i + 1] ==> e in es[..i] || e == es[i];
  }

  /** One more epoch that passes the checks, its difference being `v`, extends the three
      component series by one `set_data` each. */
  lemma ErrorStepFacts(es: seq<Epoch>, i: nat, d1: map<Epoch, seq<real>>, d2: map<Epoch, seq<real>>, v: seq<real>,
                       cx: SeriesValue<real>, cy: SeriesValue<real>, cz: SeriesValue<real>)
    requires i < |es| && FirstError(es[..i], d1, d2).None? && DiffAt(es[i], d1, d2) == Ok(v)
    requires cx == ComponentSeries(es[..i], d1, d2, 0)
    requires cy == ComponentSeries(es[..i], d1, d2, 1)
    requires cz == ComponentSeries(es[..i], d1, d2, 2)
    ensures |v| >= 3 && FirstError(es[..i + 1], d1, d2).None?
    ensures WithData(cx, es[i], v[0]) == ComponentSeries(es[..i + 1], d1, d2, 0)
    ensures WithData(cy, es[i], v[1]) == ComponentSeries(es[..i + 1], d1, d2, 1)
    ensures WithData(cz, es[i], v[2]) == ComponentSeries(es[..i + 1], d1, d2, 2)
  {
    FirstErrorStep(es, i, d1, d2);
    ComponentValueStep(es, i, d1, d2, v, 0, cx);
    ComponentValueStep(es, i, d1, d2, v, 1, cy);
    ComponentValueStep(es, i, d1, d2, v, 2, cz);
  }

  lemma ComponentValueStep(es: seq<Epoch>, i: nat, d1: map<Epoch, seq<real>>, d2: map<Epoch, seq<real>>, v: seq<real>,
                           k: nat, c: SeriesValue<real>)
    requires i < |es| && k < 3 && FirstError(es[..i + 1], d1, d2).None? && DiffAt(es[i], d1, d2) == Ok(v)
    requires forall e :: e in es[..i] ==> e in d1 && e in d2 && |d1[e]| == |d2[e]| > k
    requires c == ComponentSeries(es[..i], d1, d2, k)
    ensures |v| > k && WithData(c, es[i], v[k]) == ComponentSeries(es[..i + 1], d1, d2, k)
  {
    assert v[k] == d1[es[i]][k] - d2[es[i]][k];
    assert forall x :: x in es[..i + 1] ==> x in d1 && x in d2 && |d1[x]| == |d2[x]| > k;
    ComponentStep(es, i, d1, d2, k);
  }

  /** The three series `compute_error_dynamic` answers. */
  datatype Components = Components(x: SeriesValue<real>, y: SeriesValue<real>, z: SeriesValue<real>)

  /** `compute_error_dynamic(vEpochs, series1, series2)` on the data of the two series: the
      first exception, or the x, y and z series of the differences. */
  function ErrorDynamic(es: seq<Epoch>, d1: map<Epoch, seq<real>>, d2: map<Epoch, seq<real>>): (r: Result<Components>)
    ensures r.Ok? <==> FirstError(es, d1, d2).None?
    ensures r.Err? ==> r.error == FirstError(es, d1, d2).value
    ensures r.Ok? ==> Invariant(r.value.x) && Invariant(r.value.y) && Invariant(r.value.z)
    ensures r.Ok? ==> forall e :: e in r.value.x.data <==> e in es
    ensures r.Ok? ==> forall e :: e in es ==> e in r.value.y.data && e in r.value.z.data
    ensures r.Ok? ==> forall e :: e in es ==> r.value.x.data[e] == d1[e][0] - d2[e][0]
    ensures r.Ok? ==> forall e :: e in es ==> r.value.y.data[e] == d1[e][1] - d2[e][1]
    ensures r.Ok? ==> forall e :: e in es ==> r.value.z.data[e] == d1[e][2] - d2[e][2]
  {
    var first := FirstError(es, d1, d2);
    if first.Some? then Err(first.value)
    else
      ComponentSeriesFacts(es, d1, d2, 0);
      ComponentSeriesFacts(es, d1, d2, 1);
      ComponentSeriesFacts(es, d1, d2, 2);
      Ok(Components(ComponentSeries(es, d1, d2, 0), ComponentSeries(es, d1, d2, 1), ComponentSeries(es, d1, d2, 2)))
  }

  /** One epoch of `compute_error_dynamic`: its checks, then one more `set_data` on each of the
      three component series. */
  method ErrorStep(es: seq<Epoch>, i: nat, series1: TimeSeries<seq<real>>, series2: TimeSeries<seq<real>>,
                   x: TimeSeries<real>, y: TimeSeries<real>, z: TimeSeries<real>) returns (r: Result<()>)
    requires i < |es| && series1.Valid() && series2.Valid() && x.Valid() && y.Valid() && z.Valid()
    requires x != y && y != z && x != z
    requires FirstError(es[..i], series1.data, series2.data).None?
    requires x.Value() == ComponentSeries(es[..i], series1.data, series2.data, 0)
    requires y.Value() == ComponentSeries(es[..i], series1.data, series2.data, 1)
    requires z.Value() == ComponentSeries(es[..i], series1.data, series2.data, 2)
    modifies series1, series2, x, y, z
    ensures series1.Valid() && series2.Valid() && series1.data == old(series1.data) && series2.data == old(series2.data)
    ensures x.Valid() && y.Valid() && z.Valid()
    ensures r.Err? ==> DiffAt(es[i], series1.data, series2.data) == Err(r.error)
    ensures r.Ok? ==> FirstError(es[..i + 1], series1.data, series2.data).None?
    ensures r.Ok? ==> x.Value() == ComponentSeries(es[..i + 1], series1.data, series2.data, 0)
    ensures r.Ok? ==> y.Value() == ComponentSeries(es[..i + 1], series1.data, series2.data, 1)
    ensures r.Ok? ==> z.Value() == ComponentSeries(es[..i + 1], series1.data, series2.data, 2)
  {
    ghost var d1, d2 := series1.data, series2.data;
    var e := es[i];
    var diff := DiffStep(e, series1, series2);
    if diff.Err? {
      return Err(diff.error);
    }
    ErrorStepFacts(es, i, d1, d2, diff.value, x.Value(), y.Value(), z.Value());
    SetComponents(x, y, z, e, diff.value);
    return Ok(());
  }

  /** `compute_error_dynamic(vEpochs, series1, series2)`. */
  method ComputeErrorDynamic(vEpochs: seq<Epoch>, series1: TimeSeries<seq<real>>, series2: TimeSeries<seq<real>>)
      returns (r: Result<(TimeSeries<real>, TimeSeries<real>, TimeSeries<real>)>)
    requires series1.Valid() && series2.Valid()
    modifies series1, series2
    ensures series1.Valid() && series2.Valid()
    ensures series1.data == old(series1.data) && series2.data == old(series2.data)
    ensures var spec := ErrorDynamic(vEpochs, old(series1.data), old(series2.data));
            (r.Ok? <==> spec.Ok?) && (r.Err? ==> r.error == spec.error) &&
            (r.Ok? ==> fresh(r.value.0) && fresh(r.value.1) && fresh(r.value.2) &&
                       r.value.0.Valid() && r.value.1.Valid() && r.value.2.Valid() &&
                       Components(r.value.0.Value(), r.value.1.Value(), r.value.2.Value()) == spec.value)
  {
    ghost var d1, d2 := series1.data, series2.data;
    var x := new TimeSeries<real>();
    var y := new TimeSeries<real>();
    var z := new TimeSeries<real>();
    var i := 0;
    while i < |vEpochs|
      invariant 0 <= i <= |vEpochs|
      invariant series1.Valid() && series2.Valid() && series1.data == d1 && series2.data == d2
      invariant fresh(x) && fresh(y) && fresh(z) && x != y && y != z && x != z
      invariant x.Valid() && y.Valid() && z.Valid()
      invariant FirstError(vEpochs[i..], d1, d2) == FirstError(vEpochs, d1, d2)
      invariant FirstError(vEpochs[..i], d1, d2).None?
      invariant x.Value() == ComponentSeries(vEpochs[..i], d1, d2, 0)
      invariant y.Value() == ComponentSeries(vEpochs[..i], d1, d2, 1)
      invariant z.Value() == ComponentSeries(vEpochs[..i], d1, d2, 2)
    {
      assert vEpochs[i..][1..] == vEpochs[i + 1..];
      var ok := ErrorStep(vEpochs, i, series1, series2, x, y, z);
      if ok.Err? {
        return Err(ok.error);
      }
      i := i + 1;
    }
    assert vEpochs[..i] == vEpochs;
    return Ok((x, y, z));
  }

  /** An entry of an `RMS` series (`_RMS` in gnss/data_types/RMS.py). */
  datatype RmsEntry = RmsEntry(x: real, y: real, z: real, norm: real)

  /** `set_rms_data(epoch, error)`: the three components and their norm. */
  function EntryOf(c: Coord, sqrt: real -> real): (r: RmsEntry)
    ensures Coords(c) == [r.x, r.y, r.z]
    ensures r.norm == Norm([r.x, r.y, r.z], sqrt)
  {
    RmsEntry(c.c0, c.c1, c.c2, Norm(Coords(c), sqrt))
  }

  /** `true_pos - receiver` on the coordinate buffers. */
  function Sub(a: Coord, b: Coord): (r: Coord)
    ensures Coords(r) == Diff(Coords(a), Coords(b))
  {
    Coord(a.c0 - b.c0, a.c1 - b.c1, a.c2 - b.c2)
  }

  /** The body of the loop of `compute_error_static` for one receiver position: in the ECEF
      frame the error from the receiver to the true position, in the ENU frame the receiver
      expressed in the ENU frame of the true position, and nothing in any other frame. */
  function StaticEntry(receiver: PosValue, truePos: PosValue, frame: string, g: Geo, sqrt: real -> real): (r: Result<Option<RmsEntry>>)
    ensures frame == "ECEF" ==> r == Ok(Some(EntryOf(Sub(truePos.coord, receiver.coord), sqrt)))
    ensures frame != "ECEF" && frame != "ENU" ==> r == Ok(None)
    ensures r.Err? ==> frame == "ENU" && r.error in {FrameError, TypeError, RecursionError}
  {
    if frame == "ECEF" then Ok(Some(EntryOf(Sub(truePos.coord, receiver.coord), sqrt)))
    else if frame == "ENU" then
      var (p, o) := SetFrameV(receiver.(observer := Some(truePos)), "ENU", g);
      if o.Fail? then Err(o.error) else Ok(Some(EntryOf(p.coord, sqrt)))
    else Ok(None)
  }

  /** The loop of `compute_error_static` from the epochs `es` on, `acc` being the RMS series:
      what it holds afterwards, and whether the loop ended by an exception. */
  function StaticFrom(es: seq<Epoch>, d: map<Epoch, PosValue>, truePos: PosValue, frame: string, g: Geo,
                      sqrt: real -> real, acc: SeriesValue<RmsEntry>): (r: (SeriesValue<RmsEntry>, Outcome))
    requires Invariant(acc) && forall e :: e in es ==> e in d
    ensures Invariant(r.0)
    ensures frame != "ENU" ==> r.1 == Pass
    ensures frame != "ECEF" && frame != "ENU" ==> r.0 == acc
    ensures frame == "ECEF" ==> forall e :: e in r.0.data <==> e in acc.data || e in es
    ensures frame == "ECEF" ==> forall e :: e in es ==> r.0.data[e] == EntryOf(Sub(truePos.coord, d[e].coord), sqrt)
    ensures frame == "ECEF" ==> forall e :: e in acc.data && e !in es ==> r.0.data[e] == acc.data[e]
    decreases |es|
  {
    if es == [] then (acc, Pass)
    else
      var e := es[0];
      assert forall x :: x in es <==> x == e || x in es[1..];
      var entry := StaticEntry(d[e], truePos, frame, g, sqrt);
      if entry.Err? then (acc, Fail(entry.error))
      else if entry.value.None? then StaticFrom(es[1..], d, truePos, frame, g, sqrt, acc)
      else StaticFrom(es[1..], d, truePos, frame, g, sqrt, WithData(acc, e, entry.value.value))
  }

  /** The lookup in the sorted receiver series and the entry of one epoch of
      `compute_error_static`. */
  method StaticStep(e: Epoch, receiverPos: TimeSeries<PosValue>, truePos: PosValue, frame: string, g: Geo,
                    sqrt: real -> real) returns (r: Result<Option<RmsEntry>>)
    requires receiverPos.Valid() && receiverPos.isSorted && e in receiverPos.data
    modifies receiverPos
    ensures receiverPos.Value() == old(receiverPos.Value())
    ensures r == StaticEntry(receiverPos.data[e], truePos, frame, g, sqrt)
  {
    var receiver := Lookup(receiverPos, e);
    r := StaticEntry(receiver.value, truePos, frame, g, sqrt);
  }

  /** `compute_error_static(rms, receiver_pos, true_pos, frame)`: the receiver series is sorted,
      and each of its epochs is recorded into `rms`; an exception leaves the epochs before it
      recorded. */
  method ComputeErrorStatic(rms: TimeSeries<RmsEntry>, receiverPos: TimeSeries<PosValue>, truePos: PosValue,
                            frame: string, g: Geo, sqrt: real -> real) returns (o: Outcome)
    requires rms.Valid() && receiverPos.Valid()
    modifies rms, receiverPos
    ensures receiverPos.Valid() && receiverPos.Value() == SortedSeries(old(receiverPos.Value()))
    ensures rms.Valid()
    ensures (rms.Value(), o) == StaticFrom(receiverPos.epochs, receiverPos.data, truePos, frame, g, sqrt, old(rms.Value()))
  {
    var vEpochs := receiverPos.GetAllEpochs();
    ghost var recv := receiverPos.Value();
    ghost var start := rms.Value();
    var i := 0;
    while i < |vEpochs|
      invariant 0 <= i <= |vEpochs|
      invariant receiverPos.Valid() && receiverPos.Value() == recv && vEpochs == recv.epochs
      invariant rms.Valid()
      invariant StaticFrom(vEpochs[i..], recv.data, truePos, frame, g, sqrt, rms.Value()) ==
                StaticFrom(vEpochs, recv.data, truePos, frame, g, sqrt, start)
    {
      var e := vEpochs[i];
      assert vEpochs[i..][1..] == vEpochs[i + 1..];
      var entry := StaticStep(e, receiverPos, truePos, frame, g, sqrt);
      if entry.Err? {
        return Fail(entry.error);
      }
      if entry.value.Some? {
        rms.SetData(e, entry.value.value);
      }
      i := i + 1;
    }
    return Pass;
  }

  /** The five running sums of `compute_RMS_stats_static`: of the squared x, y and z errors,
      of the squared x and y errors together, and of all three. */
  datatype Accumulators = Accumulators(x: real, y: real, z: real, horizontal: real, spatial: real)

  /** One epoch's additions to the accumulators. */
  function Accumulate(acc: Accumulators, error: RmsEntry): (r: Accumulators)
    ensures r.horizontal - acc.horizontal == (r.x - acc.x) + (r.y - acc.y)
    ensures r.spatial - acc.spatial == (r.x - acc.x) + (r.y - acc.y) + (r.z - acc.z)
    ensures r.x >= acc.x && r.y >= acc.y && r.z >= acc.z
  {
    Accumulators(acc.x + error.x * error.x, acc.y + error.y * error.y, acc.z + error.z * error.z,
                 acc.horizontal + (error.x * error.x + error.y * error.y),
                 acc.spatial + (error.x * error.x + error.y * error.y + error.z * error.z))
  }

  /** The accumulators after the epochs `es`, in order. */
  function Sums(es: seq<Epoch>, d: map<Epoch, RmsEntry>): Accumulators
    requires forall e :: e in es ==> e in d
  {
    if es == [] then Accumulators(0.0, 0.0, 0.0, 0.0, 0.0)
    else Accumulate(Sums(es[..|es| - 1], d), d[es[|es| - 1]])
  }

  /** The 2D accumulator is the x and y accumulators together, the 3D one all three, and
      each is non-negative. */
  lemma {:induction false} AccumulatorsAdd(es: seq<Epoch>, d: map<Epoch, RmsEntry>)
    requires forall e :: e in es ==> e in d
    ensures var a := Sums(es, d);
            a.horizontal == a.x + a.y && a.spatial == a.x + a.y + a.z
    ensures var a := Sums(es, d);
            a.x >= 0.0 && a.y >= 0.0 && a.z >= 0.0
  {
    if es != [] {
      AccumulatorsAdd(es[..|es| - 1], d);
    }
  }

  /** The statistics under the keys "x", "y", "z", "2D" and "3D". */
  datatype RmsStats = RmsStats(x: real, y: real, z: real, horizontal: real, spatial: real)

  /** The five statistics from the epoch count and the accumulators: the square root of each
      accumulator divided by the count; no epochs divide by zero. */
  function Stats(count: nat, acc: Accumulators, sqrt: real -> real): (r: Result<RmsStats>)
    ensures r.Err? <==> count == 0
    ensures r.Err? ==> r.error == ZeroDivisionError
  {
    if count == 0 then Err(ZeroDivisionError)
    else
      var n := count as real;
      Ok(RmsStats(sqrt(1.0 / n * acc.x), sqrt(1.0 / n * acc.y), sqrt(1.0 / n * acc.z),
                  sqrt(1.0 / n * acc.horizontal), sqrt(1.0 / n * acc.spatial)))
  }

  /** `q * (a + b)` splits. */
  lemma Distribute(q: real, a: real, b: real)
    ensures q * (a + b) == q * a + q * b
  {}

  lemma ProductNonNegative(q: real, a: real)
    requires q >= 0.0 && a >= 0.0
    ensures q * a >= 0.0
  {}

  /** Over a true square root the squared 2D statistic is the squared x and y statistics
      together, the squared 3D statistic all three, and every statistic is non-negative. */
  lemma StatsCompose(count: nat, acc: Accumulators, sqrt: real -> real)
    requires IsSqrt(sqrt) && count > 0
    requires acc.x >= 0.0 && acc.y >= 0.0 && acc.z >= 0.0
    requires acc.horizontal == acc.x + acc.y && acc.spatial == acc.x + acc.y + acc.z
    ensures var s := Stats(count, acc, sqrt).value;
            s.horizontal * s.horizontal == s.x * s.x + s.y * s.y
    ensures var s := Stats(count, acc, sqrt).value;
            s.spatial * s.spatial == s.x * s.x + s.y * s.y + s.z * s.z
    ensures var s := Stats(count, acc, sqrt).value;
            s.x >= 0.0 && s.y >= 0.0 && s.z >= 0.0 && s.horizontal >= 0.0 && s.spatial >= 0.0
  {
    var q := 1.0 / (count as real);
    var mx, my, mz := q * acc.x, q * acc.y, q * acc.z;
    ProductNonNegative(q, acc.x);
    ProductNonNegative(q, acc.y);
    ProductNonNegative(q, acc.z);
    Distribute(q, acc.x, acc.y);
    Distribute(q, acc.x + acc.y, acc.z);
    assert q * acc.horizontal == mx + my;
    assert q * acc.spatial == mx + my + mz;
  }

  /** `compute_RMS_stats_static(error_series)` on the entries at the epochs `es`. */
  function StatsOf(es: seq<Epoch>, d: map<Epoch, RmsEntry>, sqrt: real -> real): (r: Result<RmsStats>)
    requires forall e :: e in es ==> e in d
    ensures r.Err? <==> es == []
  {
    Stats(|es|, Sums(es, d), sqrt)
  }

  /** The statistics of a non-empty series compose: the squared 2D statistic is the squared
      x and y statistics together, and the squared 3D statistic all three. */
  lemma StatsOfCompose(es: seq<Epoch>, d: map<Epoch, RmsEntry>, sqrt: real -> real)
    requires forall e :: e in es ==> e in d
    requires IsSqrt(sqrt) && es != []
    ensures var s := StatsOf(es, d, sqrt).value;
            s.horizontal * s.horizontal == s.x * s.x + s.y * s.y &&
            s.spatial * s.spatial == s.x * s.x + s.y * s.y + s.z * s.z
  {
    var a := Sums(es, d);
    AccumulatorsAdd(es, d);
    assert StatsOf(es, d, sqrt) == Stats(|es|, a, sqrt);
    StatsCompose(|es|, a, sqrt);
  }

  /** `compute_RMS_stats_static(error_series)`: the series is sorted, and its epochs are
      walked once with the five accumulators. */
  method ComputeRmsStatsStatic(errorSeries: TimeSeries<RmsEntry>, sqrt: real -> real) returns (r: Result<RmsStats>)
    requires errorSeries.Valid()
    modifies errorSeries
    ensures errorSeries.Valid() && errorSeries.Value() == SortedSeries(old(errorSeries.Value()))
    ensures r == StatsOf(errorSeries.epochs, errorSeries.data, sqrt)
  {
    var vEpochs := errorSeries.GetAllEpochs();
    ghost var s := errorSeries.Value();
    var acc := Accumulators(0.0, 0.0, 0.0, 0.0, 0.0);
    var i := 0;
    while i < |vEpochs|
      invariant 0 <= i <= |vEpochs|
      invariant errorSeries.Valid() && errorSeries.Value() == s && vEpochs == s.epochs
      invariant acc == Sums(vEpochs[..i], s.data)
    {
      assert vEpochs[..i + 1][..i] == vEpochs[..i];
      var got := Lookup(errorSeries, vEpochs[i]);
      acc := Accumulate(acc, got.value);
      i := i + 1;
    }
    assert vEpochs[..i] == vEpochs;
    return Stats(|vEpochs|, acc, sqrt);
  }
}
