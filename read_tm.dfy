/** The array steps of io_manager/import_timeseries/read_tm.py: the `factor` loop of `read_csv`
    and `downsample` by a whole rate. Both unpack the shape of a 2-D array first. */
module ReadTm {
  import opened Errors
  import opened Rows
  import UnitConversions

  /** The `factor` step of `read_csv`: `_time, _len = data.shape` refuses a 1-D array with
      ValueError; then every row is multiplied in place by the factor. */
  method ApplyFactor(data: Loaded, factor: Option<seq<real>>) returns (o: Outcome)
    modifies if data.Grid? then {data.m} else {}
    ensures o.Fail? <==> factor.Some? && (data.Flat? || (data.m.Length0 > 0 && !Broadcasts(factor.value, data.m.Length1)))
    ensures o.Fail? ==> o.error == ValueError
    ensures data.Grid? && (o.Fail? || factor.None?) ==> unchanged(data.m)
    ensures data.Grid? && factor.Some? && o.Pass? ==> forall t, j :: 0 <= t < data.m.Length0 && 0 <= j < data.m.Length1 ==>
              data.m[t, j] == old(data.m[t, j]) * UnitConversions.ColumnFactor(factor.value, j)
  {
    if factor.None? {
      return Pass;
    }
    if data.Flat? {
      return Fail(ValueError);
    }
    o := ScaleRows(data.m, factor.value);
  }

  /** Row `t` of a 2-D array, copied. */
  function Row(m: array2<real>, t: nat): (r: seq<real>)
    requires t < m.Length0
    reads m
    ensures |r| == m.Length1 && forall j :: 0 <= j < m.Length1 ==> r[j] == m[t, j]
  {
    seq(m.Length1, j requires 0 <= j < m.Length1 reads m => m[t, j])
  }

  /** The rows of a 2-D array, in order. */
  function RowsOf(m: array2<real>): (r: seq<seq<real>>)
    reads m
    ensures |r| == m.Length0 && forall t :: 0 <= t < m.Length0 ==> r[t] == Row(m, t)
  {
    seq(m.Length0, t requires 0 <= t < m.Length0 reads m => Row(m, t))
  }

  /** The test `downsample` applies to row `t`: `t % rate == 0`. */
  function Every(rate: int): nat -> bool {
    (t: nat) => rate != 0 && PyMod(t, rate) == 0
  }

  /** `downsample(data, rate)`: ValueError for a 1-D array; otherwise the rows whose index is a
      multiple of `rate`, in order; a zero rate divides by zero at the first row. */
  method Downsample(data: Loaded, rate: int) returns (r: Result<seq<seq<real>>>)
    ensures data.Flat? ==> r == Err(ValueError)
    ensures data.Grid? && rate == 0 && data.m.Length0 > 0 ==> r == Err(ZeroDivisionError)
    ensures data.Grid? && (rate != 0 || data.m.Length0 == 0) ==> r == Ok(Select(RowsOf(data.m), Every(rate)))
  {
    if data.Flat? {
      return Err(ValueError);
    }
    var m := data.m;
    ghost var rows := RowsOf(m);
    var kept := [];
    for t := 0 to m.Length0
      invariant kept == Select(rows[..t], Every(rate))
      invariant t > 0 ==> rate != 0
    {
      if rate == 0 {
        return Err(ZeroDivisionError);
      }
      assert rows[..t + 1][..t] == rows[..t];
      if PyMod(t, rate) == 0 {
        kept := kept + [Row(m, t)];
      }
    }
    assert rows[..m.Length0] == rows;
    return Ok(kept);
  }

  /** The first row is kept when there is one. */
  lemma FirstRowKept(rows: seq<seq<real>>, rate: int)
    requires rows != [] && rate != 0
    ensures Select(rows, Every(rate)) != [] && Select(rows, Every(rate))[0] == rows[0]
  {
    FirstKept(rows, Every(rate));
  }

  /** A rate `k >= 1` keeps rows 0, k, 2k, ...: ceil(n / k) of them, copied unchanged. */
  lemma EveryStride(rows: seq<seq<real>>, k: int)
    requires k >= 1
    ensures |Select(rows, Every(k))| == (|rows| + k - 1) / k
    ensures forall i :: 0 <= i < |Select(rows, Every(k))| ==> i * k < |rows| && Select(rows, Every(k))[i] == rows[i * k]
  {
    var keep := Every(k);
    forall t: nat ensures keep(t) <==> t % k == 0 {
      PyModZero(t, k);
    }
    KeptStride(|rows|, k, keep);
    SelectIsKept(rows, keep);
    var idx := Kept(|rows|, keep);
    forall i | 0 <= i < |Select(rows, keep)| ensures i * k < |rows| && Select(rows, keep)[i] == rows[i * k] {
      assert idx[i] == i * k && idx[i] < |rows|;
    }
  }

  /** A negative rate keeps the same rows as its opposite. */
  lemma {:induction false} NegativeRate(rows: seq<seq<real>>, rate: int)
    ensures Select(rows, Every(-rate)) == Select(rows, Every(rate))
  {
    if rows != [] {
      NegativeRate(rows[..|rows| - 1], rate);
      if rate != 0 {
        PyModZero(|rows| - 1, rate);
      }
    }
  }
}
