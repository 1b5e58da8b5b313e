/** Row-wise helpers shared by the loaders of io_manager: the arrays `np.genfromtxt` returns,
    keeping the rows whose index passes a test, and scaling every row by a factor in place. */
module Rows {
  import opened Errors
  import UnitConversions

  /** An array loaded from a text file: 1-D when the file has one column, 2-D otherwise. */
  datatype Loaded = Flat(v: array<real>) | Grid(m: array2<real>)

  /** The rows of `data` whose index passes `keep`, in their original order. */
  function Select<T>(data: seq<T>, keep: nat -> bool): (r: seq<T>)
    ensures |r| <= |data|
  {
    if data == [] then []
    else Select(data[..|data| - 1], keep) + (if keep(|data| - 1) then [data[|data| - 1]] else [])
  }

  /** The indices below `n` that pass `keep`: increasing, and every passing index is there. */
  function Kept(n: nat, keep: nat -> bool): (r: seq<nat>)
    ensures forall i :: 0 <= i < |r| ==> r[i] < n && keep(r[i])
    ensures forall i, j :: 0 <= i < j < |r| ==> r[i] < r[j]
    ensures forall t :: 0 <= t < n && keep(t) ==> t in r
  {
    if n == 0 then [] else Kept(n - 1, keep) + (if keep(n - 1) then [n - 1] else [])
  }

  /** Row `i` of the selection is the row of `data` at the `i`-th passing index, unchanged. */
  lemma {:induction false} SelectIsKept<T>(data: seq<T>, keep: nat -> bool)
    ensures |Select(data, keep)| == |Kept(|data|, keep)|
    ensures forall i :: 0 <= i < |Select(data, keep)| ==> Select(data, keep)[i] == data[Kept(|data|, keep)[i]]
  {
    if data != [] {
      var front := data[..|data| - 1];
      SelectIsKept(front, keep);
      assert |front| == |data| - 1;
    }
  }

  /** When index 0 passes, the selection starts with the first row. */
  lemma FirstKept<T>(data: seq<T>, keep: nat -> bool)
    requires data != [] && keep(0)
    ensures Select(data, keep) != [] && Select(data, keep)[0] == data[0]
  {
    var idx := Kept(|data|, keep);
    assert 0 in idx;
    assert idx[0] == 0;
    SelectIsKept(data, keep);
  }

  /** Python's `a % b` on integers: the remainder takes the sign of the divisor. */
  function PyMod(a: int, b: int): (r: int)
    requires b != 0
    ensures b > 0 ==> 0 <= r < b
    ensures b < 0 ==> b < r <= 0
  {
    if b > 0 then a % b else -((-a) % (-b))
  }

  /** The remainder is zero exactly when `b` divides `a`, whatever the sign of `b`. */
  lemma PyModZero(a: int, b: int)
    requires b != 0
    ensures PyMod(a, b) == 0 <==> a % b == 0
    ensures PyMod(a, b) == 0 <==> PyMod(a, -b) == 0
  {
    if b < 0 {
      NegatedMod(a, -b);
    } else {
      NegatedMod(a, b);
    }
  }

  /** `-a` is a multiple of `k` exactly when `a` is. */
  lemma NegatedMod(a: int, k: int)
    requires k > 0
    ensures (-a) % k == 0 <==> a % k == 0
    ensures a % (-k) == a % k
  {
    if a % k == 0 {
      assert -a == (-(a / k)) * k;
      DivOf(-a, k, -(a / k), 0);
    }
    if (-a) % k == 0 {
      assert a == (-((-a) / k)) * k;
      DivOf(a, k, -((-a) / k), 0);
    }
  }

  /** Division is unique: the quotient and remainder of `a` by `k` are the only pair that fits. */
  lemma DivOf(a: int, k: int, q: int, r: int)
    requires k > 0 && 0 <= r < k && a == q * k + r
    ensures a / k == q && a % k == r
  {
    var q', r' := a / k, a % k;
    assert q' * k + r' == q * k + r;
    if q' < q {
      Distance(q, q', k);
    } else if q' > q {
      Distance(q', q, k);
    }
  }

  /** Two different multiples of `k` are at least `k` apart. */
  lemma Distance(q: int, q': int, k: int)
    requires q > q' && k > 0
    ensures q * k - q' * k >= k
  {
    var d := q - q';
    assert q * k - q' * k == d * k;
    AtLeastOnce(d, k);
  }

  /** A positive multiple of a positive `k` is at least `k`. */
  lemma AtLeastOnce(d: int, k: int)
    requires d >= 1 && k > 0
    ensures d * k >= k
  {
    assert d * k == (d - 1) * k + k;
  }

  /** Moving from `m` to `m + 1` rows adds one multiple of `k` exactly when `m` is one. */
  lemma StrideStep(m: nat, k: nat)
    requires k >= 1
    ensures m % k == 0 ==> (m + k - 1) / k == m / k && (m + k) / k == m / k + 1 && m == (m / k) * k
    ensures m % k != 0 ==> (m + k) / k == (m + k - 1) / k
  {
    var q, r := m / k, m % k;
    if r == 0 {
      DivOf(m + k - 1, k, q, k - 1);
      DivOf(m + k, k, q + 1, 0);
    } else {
      DivOf(m + k - 1, k, q + 1, r - 1);
      DivOf(m + k, k, q + 1, r);
    }
  }

  /** When `keep` accepts the multiples of `k`, the passing indices below `n` are
      0, k, 2k, ...: ceil(n / k) of them. */
  lemma {:induction false} KeptStride(n: nat, k: nat, keep: nat -> bool)
    requires k >= 1
    requires forall t: nat :: keep(t) <==> t % k == 0
    ensures |Kept(n, keep)| == (n + k - 1) / k
    ensures forall i :: 0 <= i < |Kept(n, keep)| ==> Kept(n, keep)[i] == i * k
  {
    if n == 0 {
      assert (k - 1) / k == 0 by { DivOf(k - 1, k, 0, k - 1); }
    } else {
      var m := n - 1;
      KeptStride(m, k, keep);
      StrideStep(m, k);
    }
  }

  /** Row `t` multiplied in place by `factor`, which `Broadcasts` to the row. */
  predicate Broadcasts(factor: seq<real>, n: nat) {
    |factor| == 1 || |factor| == n
  }

  /** `data[t, :] *= factor` for every row `t`: NumPy refuses a factor that does not broadcast
      to a row with ValueError, at the first row and so before anything changed. */
  method ScaleRows(data: array2<real>, factor: seq<real>) returns (o: Outcome)
    modifies data
    ensures o.Fail? <==> data.Length0 > 0 && !Broadcasts(factor, data.Length1)
    ensures o.Fail? ==> o.error == ValueError && unchanged(data)
    ensures o.Pass? ==> forall t, j :: 0 <= t < data.Length0 && 0 <= j < data.Length1 ==>
              data[t, j] == old(data[t, j]) * UnitConversions.ColumnFactor(factor, j)
  {
    if data.Length0 > 0 && !Broadcasts(factor, data.Length1) {
      return Fail(ValueError);
    }
    for t := 0 to data.Length0
      invariant forall s, j :: 0 <= s < data.Length0 && 0 <= j < data.Length1 ==>
                  data[s, j] == if s < t then old(data[s, j]) * UnitConversions.ColumnFactor(factor, j) else old(data[s, j])
    {
      forall j | 0 <= j < data.Length1 {
        data[t, j] := data[t, j] * UnitConversions.ColumnFactor(factor, j);
      }
    }
    return Pass;
  }
}
