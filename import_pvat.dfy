/** The array utilities of io_manager/import_pvat.py: the steps `read_csv` applies to the loaded
    array, downsampling by the ratio of two rates, and swapping two columns in place. Reals stand
    for the floating-point values. */
module ImportPvat {
  import opened Errors
  import opened Rows
  import UnitConversions

  /** The `factor` step of `read_csv` on the array `np.genfromtxt` loaded: a 1-D array is
      multiplied as a whole, a 2-D one row by row; NumPy refuses a factor that does not broadcast
      with ValueError before anything changed. Without a factor nothing happens. */
  method ApplyFactor(data: Loaded, factor: Option<seq<real>>) returns (o: Outcome)
    modifies if data.Flat? then {data.v as object} else {data.m as object}
    ensures factor.None? ==> o.Pass? && (data.Flat? ==> unchanged(data.v)) && (data.Grid? ==> unchanged(data.m))
    ensures o.Fail? ==> o.error == ValueError
    ensures data.Flat? && factor.Some? ==> (o.Fail? <==> !Broadcasts(factor.value, data.v.Length))
    ensures data.Flat? && o.Fail? ==> unchanged(data.v)
    ensures data.Flat? && factor.Some? && o.Pass? ==> forall k :: 0 <= k < data.v.Length ==>
              data.v[k] == old(data.v[k]) * UnitConversions.ColumnFactor(factor.value, k)
    ensures data.Grid? && factor.Some? ==> (o.Fail? <==> data.m.Length0 > 0 && !Broadcasts(factor.value, data.m.Length1))
    ensures data.Grid? && o.Fail? ==> unchanged(data.m)
    ensures data.Grid? && factor.Some? && o.Pass? ==> forall t, j :: 0 <= t < data.m.Length0 && 0 <= j < data.m.Length1 ==>
              data.m[t, j] == old(data.m[t, j]) * UnitConversions.ColumnFactor(factor.value, j)
  {
    if factor.None? {
      return Pass;
    }
    match data
    case Flat(v) =>
      if !Broadcasts(factor.value, v.Length) {
        return Fail(ValueError);
      }
      forall k | 0 <= k < v.Length {
        v[k] := v[k] * UnitConversions.ColumnFactor(factor.value, k);
      }
      return Pass;
    case Grid(m) =>
      o := ScaleRows(m, factor.value);
  }

  /** The downsampling ratio `(1 / frequency) / data_rate_in`: how many input samples one output
      sample spans. Either division refuses a zero divisor with ZeroDivisionError. */
  function Ratio(dataRateIn: real, frequency: real): (r: Result<real>)
    ensures r.Err? <==> frequency == 0.0 || dataRateIn == 0.0
    ensures r.Err? ==> r.error == ZeroDivisionError
    ensures r.Ok? ==> r.value * dataRateIn * frequency == 1.0
  {
    if frequency == 0.0 then Err(ZeroDivisionError)
    else
      var rateOut := 1.0 / frequency;
      if dataRateIn == 0.0 then Err(ZeroDivisionError) else Ok(rateOut / dataRateIn)
  }

  /** Python's `x % y` on floats, rounding aside: the remainder has the sign of `y`. */
  function FloatMod(x: real, y: real): real
    requires y != 0.0
  {
    x - y * (x / y).Floor as real
  }

  /** Whether row `t` is kept: `t % step == 0`. */
  predicate KeepsRow(step: real, t: nat) {
    step != 0.0 && FloatMod(t as real, step) == 0.0
  }

  /** The test `downsample` applies to each row index. */
  function Keeper(step: real): nat -> bool {
    (t: nat) => KeepsRow(step, t)
  }

  /** `downsample(data, data_rate_in, frequency)` on the rows of `data` (the values of a 1-D
      array, the rows of a 2-D one): the rows whose index is a multiple of the ratio, in order. */
  method Downsample<T>(data: seq<T>, dataRateIn: real, frequency: real) returns (r: Result<seq<T>>)
    ensures r.Err? <==> Ratio(dataRateIn, frequency).Err?
    ensures r.Err? ==> r.error == ZeroDivisionError
    ensures r.Ok? ==> r.value == Select(data, Keeper(Ratio(dataRateIn, frequency).value))
  {
    if frequency == 0.0 {
      return Err(ZeroDivisionError);
    }
    var rateOut := 1.0 / frequency;
    if dataRateIn == 0.0 {
      return Err(ZeroDivisionError);
    }
    var step := rateOut / dataRateIn;
    ghost var keep := Keeper(step);
    var i := 0;
    var kept := [];
    for t := 0 to |data|
      invariant i == t
      invariant kept == Select(data[..t], keep)
    {
      assert data[..t + 1][..t] == data[..t];
      if FloatMod(i as real, step) == 0.0 {
        kept := kept + [data[t]];
      }
      i := i + 1;
    }
    assert data[..|data|] == data;
    return Ok(kept);
  }

  /** Row 0 is always kept, whatever the ratio. */
  lemma FirstRowKept<T>(data: seq<T>, step: real)
    requires step != 0.0 && data != []
    ensures Select(data, Keeper(step)) != []
    ensures Select(data, Keeper(step))[0] == data[0]
  {
    var keep := Keeper(step);
    assert FloatMod(0 as real, step) == 0.0;
    var idx := Kept(|data|, keep);
    assert 0 in idx;
    var i :| 0 <= i < |idx| && idx[i] == 0;
    assert idx[0] == 0;
    SelectIsKept(data, keep);
  }

  /** With a whole ratio `k`, `t % k == 0` on floats is divisibility on integers. */
  lemma WholeRatio(t: nat, k: nat)
    requires k >= 1
    ensures KeepsRow(k as real, t) <==> t % k == 0
  {
    var q, r := t / k, t % k;
    var d := t as real / k as real;
    assert t as real == q as real * k as real + r as real;
    assert d * k as real == t as real;
    assert (d - q as real) * k as real == r as real;
    BelowOne(d - q as real, k as real, r as real);
    assert d.Floor == q;
    assert FloatMod(t as real, k as real) == r as real;
  }

  /** A whole ratio `k` keeps exactly the multiples of `k`. */
  lemma WholeKeeper(k: nat)
    requires k >= 1
    ensures forall t: nat :: Keeper(k as real)(t) <==> t % k == 0
  {
    forall t: nat ensures Keeper(k as real)(t) <==> t % k == 0 {
      WholeRatio(t, k);
    }
  }

  /** `e * k == r` with `0 <= r < k` puts `e` in [0, 1). */
  lemma BelowOne(e: real, k: real, r: real)
    requires k > 0.0 && 0.0 <= r < k && e * k == r
    ensures 0.0 <= e < 1.0
  {
  }

  /** A whole ratio `k` keeps rows 0, k, 2k, ... of `n` rows: ceil(n / k) of them, unchanged. */
  lemma WholeRatioStride<T>(data: seq<T>, k: nat)
    requires k >= 1
    ensures |Select(data, Keeper(k as real))| == (|data| + k - 1) / k
    ensures forall i :: 0 <= i < |Select(data, Keeper(k as real))| ==>
              i * k < |data| && Select(data, Keeper(k as real))[i] == data[i * k]
  {
    var keep := Keeper(k as real);
    WholeKeeper(k);
    KeptStride(|data|, k, keep);
    SelectIsKept(data, keep);
    var idx := Kept(|data|, keep);
    forall i | 0 <= i < |Select(data, keep)| ensures i * k < |data| && Select(data, keep)[i] == data[i * k] {
      assert idx[i] == i * k && idx[i] < |data|;
    }
  }

  /** Python's index normalisation on an axis of length `n`: a negative index counts from the
      end; anything outside [-n, n) is out of bounds. */
  function Normalised(j: int, n: nat): (r: Option<nat>)
    ensures r.Some? <==> -(n as int) <= j < n
    ensures r.Some? ==> r.value < n && r.value as int == (if j < 0 then j + n else j)
  {
    if 0 <= j < n then Some(j) else if -(n as int) <= j < 0 then Some(j + n) else None
  }

  /** The column whose old values column `j` holds after columns `a` and `b` are exchanged. */
  function SwapIndex(j: nat, a: nat, b: nat): (r: nat)
    ensures j == a ==> r == b
    ensures j == b && j != a ==> r == a
    ensures j != a && j != b ==> r == j
  {
    if j == a then b else if j == b then a else j
  }

  /** A row after exchanging its values at `a` and `b`. */
  function SwapRow(row: seq<real>, a: nat, b: nat): (r: seq<real>)
    requires a < |row| && b < |row|
    ensures |r| == |row| && r[a] == row[b] && r[b] == row[a]
    ensures forall j :: 0 <= j < |row| && j != a && j != b ==> r[j] == row[j]
  {
    seq(|row|, j requires 0 <= j < |row| => row[SwapIndex(j, a, b)])
  }

  /** Exchanging the same two values twice restores the row. */
  lemma SwapTwice(row: seq<real>, a: nat, b: nat)
    requires a < |row| && b < |row|
    ensures SwapRow(SwapRow(row, a, b), a, b) == row
  {
    var twice := SwapRow(SwapRow(row, a, b), a, b);
    forall j | 0 <= j < |row| ensures twice[j] == row[j] {
      assert SwapIndex(SwapIndex(j, a, b), a, b) == j;
    }
  }

  /** Exchanging a value with itself changes nothing, and the order of the two columns does not
      matter. */
  lemma SwapSelf(row: seq<real>, a: nat, b: nat)
    requires a < |row| && b < |row|
    ensures SwapRow(row, a, a) == row
    ensures SwapRow(row, a, b) == SwapRow(row, b, a)
  {
    assert forall j :: 0 <= j < |row| ==> SwapRow(row, a, a)[j] == row[j];
    assert forall j :: 0 <= j < |row| ==> SwapRow(row, a, b)[j] == SwapRow(row, b, a)[j];
  }

  /** `swap_columns(arr, start_index, last_index)`: in every row, the two columns exchange their
      values and the other columns keep theirs. An index out of bounds is an IndexError raised
      before anything changed. */
  method SwapColumns(arr: array2<real>, startIndex: int, lastIndex: int) returns (o: Outcome)
    modifies arr
    ensures o.Fail? <==> Normalised(startIndex, arr.Length1).None? || Normalised(lastIndex, arr.Length1).None?
    ensures o.Fail? ==> o.error == IndexError && unchanged(arr)
    ensures o.Pass? ==> forall i, j :: 0 <= i < arr.Length0 && 0 <= j < arr.Length1 ==>
              arr[i, j] == old(arr[i, SwapIndex(j, Normalised(startIndex, arr.Length1).value, Normalised(lastIndex, arr.Length1).value)])
  {
    var a, b := Normalised(startIndex, arr.Length1), Normalised(lastIndex, arr.Length1);
    if a.None? || b.None? {
      return Fail(IndexError);
    }
    for i := 0 to arr.Length0
      invariant forall s, j :: 0 <= s < arr.Length0 && 0 <= j < arr.Length1 ==>
                  arr[s, j] == if s < i then old(arr[s, SwapIndex(j, a.value, b.value)]) else old(arr[s, j])
    {
      SwapInRow(arr, i, a.value, b.value);
    }
    return Pass;
  }

  /** `arr[i, [a, b]] = arr[i, [b, a]]` for one row: the right side is read before either
      column is written. */
  method SwapInRow(arr: array2<real>, i: nat, a: nat, b: nat)
    requires i < arr.Length0 && a < arr.Length1 && b < arr.Length1
    modifies arr
    ensures forall s, j :: 0 <= s < arr.Length0 && 0 <= j < arr.Length1 ==>
              arr[s, j] == if s == i then old(arr[s, SwapIndex(j, a, b)]) else old(arr[s, j])
  {
    var x, y := arr[i, a], arr[i, b];
    arr[i, a] := y;
    arr[i, b] := x;
  }
}
