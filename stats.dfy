/** The Allan variance of stochastic_process/stats/stats.py: the averaging times `tau` are
    1, 2, ..., 9, 10, 20, ..., 90, 100, ... samples, up to a ninth of the record, and the Allan
    variance at `m` samples per bin is half the mean squared difference of consecutive bin means. */
module AllanVariance {
  import opened Errors

  /** 10 to the power `p`. */
  function Pow10(p: nat): (r: nat)
    ensures r >= 1
  {
    if p == 0 then 1 else 10 * Pow10(p - 1)
  }

  /** The least `p` from `from` on with 10^p >= m. */
  function NextPow10From(m: nat, from: nat): (p: nat)
    decreases m - Pow10(from)
  {
    if Pow10(from) >= m then from else NextPow10From(m, from + 1)
  }

  /** `math.ceil(math.log10(m))` for m >= 1: the least `p` with 10^p >= m. */
  function NextPow10(m: nat): (p: nat)
    requires m >= 1
    ensures Pow10(p) >= m && (p == 0 || Pow10(p - 1) < m)
  {
    NextPow10Facts(m, 0);
    NextPow10From(m, 0)
  }

  lemma {:induction false} NextPow10Facts(m: nat, from: nat)
    requires from == 0 || Pow10(from - 1) < m
    ensures var p := NextPow10From(m, from); Pow10(p) >= m && (p == 0 || Pow10(p - 1) < m)
    decreases m - Pow10(from)
  {
    if Pow10(from) < m {
      NextPow10Facts(m, from + 1);
    }
  }

  /** A candidate multiplier, `j` times 10^i, written as a repeated sum. */
  function Step(j: nat, i: nat): nat {
    if j == 0 then 0 else Step(j - 1, i) + Pow10(i)
  }

  /** The multipliers `j * unit` of one decade, for `j` from `j0` to 9, as long as they stay within
      `maxPerBin`: the inner loop of `_get_taus` and its `break`. */
  function DecadeFrom(maxPerBin: nat, i: nat, j0: nat): seq<int>
    requires j0 >= 1
    decreases 10 - j0
  {
    if j0 >= 10 || Step(j0, i) > maxPerBin then [] else [Step(j0, i)] + DecadeFrom(maxPerBin, i, j0 + 1)
  }

  /** The multipliers of the first `count` decades. */
  function Decades(maxPerBin: nat, count: nat): seq<int> {
    if count == 0 then [] else Decades(maxPerBin, count - 1) + DecadeFrom(maxPerBin, count - 1, 1)
  }

  /** The multipliers `_get_taus` lists for at most `maxPerBin` samples per bin. */
  function Multipliers(maxPerBin: nat): seq<int>
    requires maxPerBin >= 1
  {
    Decades(maxPerBin, NextPow10(maxPerBin))
  }

  /** `s` is strictly increasing. */
  predicate Increasing(s: seq<int>) {
    forall a, b :: 0 <= a < b < |s| ==> s[a] < s[b]
  }

  /** Every element of `s` lies in [lo, hi). */
  predicate Within(s: seq<int>, lo: int, hi: int) {
    forall k :: 0 <= k < |s| ==> lo <= s[k] < hi
  }

  lemma WithinWeaken(s: seq<int>, lo: int, hi: int, lo': int, hi': int)
    requires Within(s, lo, hi) && lo' <= lo && hi <= hi'
    ensures Within(s, lo', hi')
  {
  }

  lemma WithinConcat(a: seq<int>, b: seq<int>, lo: int, hi: int)
    requires Within(a, lo, hi) && Within(b, lo, hi)
    ensures Within(a + b, lo, hi)
  {
    forall k | 0 <= k < |a + b| ensures lo <= (a + b)[k] < hi {
      if k >= |a| {
        assert (a + b)[k] == b[k - |a|];
      }
    }
  }

  /** Two increasing runs, the first wholly below the second, make an increasing run. */
  lemma IncreasingConcat(a: seq<int>, b: seq<int>, lo: int, mid: int, hi: int)
    requires lo <= mid <= hi
    requires Increasing(a) && Increasing(b) && Within(a, lo, mid) && Within(b, mid, hi)
    ensures Increasing(a + b) && Within(a + b, lo, hi)
  {
    WithinWeaken(a, lo, mid, lo, hi);
    WithinWeaken(b, mid, hi, lo, hi);
    WithinConcat(a, b, lo, hi);
    forall x, y | 0 <= x < y < |a + b| ensures (a + b)[x] < (a + b)[y] {
      if y >= |a| {
        assert (a + b)[y] == b[y - |a|];
        if x >= |a| {
          assert (a + b)[x] == b[x - |a|];
        }
      }
    }
  }

  /** Inside a decade the multipliers increase, lie between the first and `maxPerBin`, and stay
      below ten units. */
  lemma {:induction false} DecadeFromBounds(maxPerBin: nat, i: nat, j0: nat)
    requires 1 <= j0
    ensures Increasing(DecadeFrom(maxPerBin, i, j0))
    ensures Within(DecadeFrom(maxPerBin, i, j0), Step(j0, i), 10 * Pow10(i))
    ensures Within(DecadeFrom(maxPerBin, i, j0), Step(j0, i), maxPerBin + 1)
    decreases 10 - j0
  {
    if j0 < 10 && Step(j0, i) <= maxPerBin {
      DecadeFromBounds(maxPerBin, i, j0 + 1);
      StepGrows(j0, i);
      var rest := DecadeFrom(maxPerBin, i, j0 + 1);
      var lo, next := Step(j0, i), Step(j0 + 1, i);
      IncreasingConcat([lo], rest, lo, next, 10 * Pow10(i));
      WithinWeaken(rest, next, maxPerBin + 1, lo, maxPerBin + 1);
      WithinConcat([lo], rest, lo, maxPerBin + 1);
    }
  }

  /** `j * 10^i` grows with `j`, and stays within 10^(i+1) while j <= 9. */
  lemma StepGrows(j: nat, i: nat)
    ensures Step(j, i) < Step(j + 1, i)
    ensures j <= 9 ==> Step(j + 1, i) <= 10 * Pow10(i)
  {
    if j <= 9 {
      StepBelowTen(j + 1, i);
    }
  }

  lemma {:induction false} StepBelowTen(j: nat, i: nat)
    requires j <= 10
    ensures Step(j, i) + (10 - j) * Pow10(i) == 10 * Pow10(i)
  {
    if j > 0 {
      StepBelowTen(j - 1, i);
    }
  }

  /** The first `count` decades are strictly increasing, between 1 and `maxPerBin`, below 10^count. */
  lemma {:induction false} DecadesBounds(maxPerBin: nat, count: nat)
    ensures Increasing(Decades(maxPerBin, count))
    ensures Within(Decades(maxPerBin, count), 1, Pow10(count))
    ensures Within(Decades(maxPerBin, count), 1, maxPerBin + 1)
  {
    if count > 0 {
      var front := Decades(maxPerBin, count - 1);
      DecadesBounds(maxPerBin, count - 1);
      AppendDecade(maxPerBin, count - 1, front);
      assert Decades(maxPerBin, count) == front + DecadeFrom(maxPerBin, count - 1, 1);
      assert Pow10(count) == 10 * Pow10(count - 1);
    }
  }

  /** Appending decade `i` to increasing multipliers below 10^i keeps them increasing. */
  lemma AppendDecade(maxPerBin: nat, i: nat, front: seq<int>)
    requires Increasing(front) && Within(front, 1, Pow10(i)) && Within(front, 1, maxPerBin + 1)
    ensures var s := front + DecadeFrom(maxPerBin, i, 1);
      Increasing(s) && Within(s, 1, 10 * Pow10(i)) && Within(s, 1, maxPerBin + 1)
  {
    DecadeFromBounds(maxPerBin, i, 1);
    var d := DecadeFrom(maxPerBin, i, 1);
    var unit := Pow10(i);
    assert Step(1, i) == unit;
    WithinWeaken(d, unit, maxPerBin + 1, 1, maxPerBin + 1);
    IncreasingConcat(front, d, 1, unit, 10 * unit);
    WithinConcat(front, d, 1, maxPerBin + 1);
  }

  /** The multipliers are strictly increasing and lie between 1 and `maxPerBin`. */
  lemma MultipliersIncreasing(maxPerBin: nat)
    requires maxPerBin >= 1
    ensures Increasing(Multipliers(maxPerBin)) && Within(Multipliers(maxPerBin), 1, maxPerBin + 1)
  {
    DecadesBounds(maxPerBin, NextPow10(maxPerBin));
  }

  lemma {:induction false} StepMonotone(a: nat, b: nat, i: nat)
    requires a <= b
    ensures Step(a, i) <= Step(b, i)
    decreases b - a
  {
    if a < b {
      StepMonotone(a, b - 1, i);
    }
  }

  /** The `j * 10^i`, `j0 <= j <= 9`, that stay within `maxPerBin`. */
  predicate InDecade(maxPerBin: nat, i: nat, j0: nat, m: int) {
    exists j: nat :: j0 <= j <= 9 && m == Step(j, i) && Step(j, i) <= maxPerBin
  }

  /** A decade lists exactly the multiples `j * 10^i`, `j0 <= j <= 9`, that stay within `maxPerBin`. */
  lemma {:induction false} DecadeFromMembers(maxPerBin: nat, i: nat, j0: nat, m: int)
    requires 1 <= j0
    ensures m in DecadeFrom(maxPerBin, i, j0) <==> InDecade(maxPerBin, i, j0, m)
    decreases 10 - j0
  {
    if j0 < 10 && Step(j0, i) <= maxPerBin {
      DecadeFromMembers(maxPerBin, i, j0 + 1, m);
      var rest := DecadeFrom(maxPerBin, i, j0 + 1);
      assert DecadeFrom(maxPerBin, i, j0) == [Step(j0, i)] + rest;
      if m in DecadeFrom(maxPerBin, i, j0) {
        if m == Step(j0, i) {
          assert j0 <= j0 <= 9 && m == Step(j0, i) && Step(j0, i) <= maxPerBin;
        } else {
          assert m in rest;
        }
      }
      if InDecade(maxPerBin, i, j0, m) {
        var j: nat :| j0 <= j <= 9 && m == Step(j, i) && Step(j, i) <= maxPerBin;
        if j > j0 {
          assert InDecade(maxPerBin, i, j0 + 1, m);
        }
      }
    } else {
      if InDecade(maxPerBin, i, j0, m) {
        var j: nat :| j0 <= j <= 9 && m == Step(j, i) && Step(j, i) <= maxPerBin;
        StepMonotone(j0, j, i);
        assert false;
      }
    }
  }

  /** The `j * 10^i`, 1 <= j <= 9, i < count, that stay within `maxPerBin`. */
  predicate InDecades(maxPerBin: nat, count: nat, m: int) {
    exists i: nat :: i < count && InDecade(maxPerBin, i, 1, m)
  }

  /** The first `count` decades list exactly the `j * 10^i`, 1 <= j <= 9, i < count, within `maxPerBin`. */
  lemma {:induction false} DecadesMembers(maxPerBin: nat, count: nat, m: int)
    ensures m in Decades(maxPerBin, count) <==> InDecades(maxPerBin, count, m)
  {
    if count > 0 {
      var front, d := Decades(maxPerBin, count - 1), DecadeFrom(maxPerBin, count - 1, 1);
      assert (m in Decades(maxPerBin, count)) == (m in front || m in d) by {
        assert Decades(maxPerBin, count) == front + d;
      }
      assert (m in front) == InDecades(maxPerBin, count - 1, m) by {
        DecadesMembers(maxPerBin, count - 1, m);
      }
      assert (m in d) == InDecade(maxPerBin, count - 1, 1, m) by {
        DecadeFromMembers(maxPerBin, count - 1, 1, m);
      }
      InDecadesStep(maxPerBin, count, m);
    } else {
      assert !InDecades(maxPerBin, count, m);
    }
  }

  /** Decade `count - 1` is the one the first `count` decades add to the first `count - 1`. */
  lemma InDecadesStep(maxPerBin: nat, count: nat, m: int)
    requires count > 0
    ensures InDecades(maxPerBin, count, m) <==> InDecades(maxPerBin, count - 1, m) || InDecade(maxPerBin, count - 1, 1, m)
  {
    if InDecades(maxPerBin, count, m) {
      var i: nat :| i < count && InDecade(maxPerBin, i, 1, m);
      if i < count - 1 {
        assert InDecades(maxPerBin, count - 1, m);
      }
    }
    if InDecades(maxPerBin, count - 1, m) {
      var i: nat :| i < count - 1 && InDecade(maxPerBin, i, 1, m);
      assert i < count;
    }
  }

  /** The multipliers are the numbers j * 10^i with 1 <= j <= 9 and i < ceil(log10 maxPerBin)
      that do not exceed `maxPerBin`. */
  lemma MultipliersMembers(maxPerBin: nat, m: int)
    requires maxPerBin >= 1
    ensures m in Multipliers(maxPerBin) <==> InDecades(maxPerBin, NextPow10(maxPerBin), m)
  {
    DecadesMembers(maxPerBin, NextPow10(maxPerBin), m);
  }

  /** A ninth of the record, in samples, times the sampling period is below 1. */
  predicate NotEnoughData(n: nat, ts: real) {
    (n / 9) as real * ts < 1.0
  }

  /** The multipliers `_get_taus` returns for `n` samples taken every `ts`: none when a ninth of
      the record, in samples, times `ts` is below 1. Every one leaves at least 9 bins. */
  function TauMultipliers(n: nat, ts: real): (r: seq<int>)
    ensures NotEnoughData(n, ts) ==> r == []
    ensures !NotEnoughData(n, ts) ==> n / 9 >= 1 && r == Multipliers(n / 9)
    ensures forall k :: 0 <= k < |r| ==> 1 <= r[k] <= n / 9 && n / r[k] >= 9
  {
    if n / 9 == 0 || NotEnoughData(n, ts) then []
    else
      var r := Multipliers(n / 9);
      MultipliersIncreasing(n / 9);
      forall k | 0 <= k < |r| ensures n / r[k] >= 9 {
        NineBins(n, r[k]);
      }
      r
  }

  /** A bin of at most a ninth of the record leaves at least 9 bins. */
  lemma NineBins(n: nat, m: int)
    requires 1 <= m <= n / 9
    ensures n / m >= 9
  {
    var q := n / m;
    assert 9 * m <= n;
    assert n == q * m + n % m && n % m < m;
    assert q * m > 8 * m;
  }

  /** `j * scale` with `scale` the exact real 10^i truncates to the integer j * 10^i. */
  lemma StepAsReal(j: nat, i: nat, scale: real)
    requires scale == Pow10(i) as real
    ensures (j as real * scale).Floor == Step(j, i)
  {
    StepReal(j, i);
  }

  lemma {:induction false} StepReal(j: nat, i: nat)
    ensures Step(j, i) as real == j as real * Pow10(i) as real
  {
    if j > 0 {
      StepReal(j - 1, i);
    }
  }

  /** `_get_taus(n, ts)`: the multipliers, in samples per bin, and the averaging times
      `tau[i] = multiplier[i] * ts`. */
  method GetTaus(n: nat, ts: real) returns (multiplier: seq<int>, tau: seq<real>)
    ensures multiplier == TauMultipliers(n, ts)
    ensures |tau| == |multiplier| && forall i :: 0 <= i < |tau| ==> tau[i] == multiplier[i] as real * ts
  {
    ghost var expected := TauMultipliers(n, ts);
    if NotEnoughData(n, ts) {
      return [], [];
    }
    var maxPerBin := n / 9;
    multiplier := [];
    var nextpow10 := NextPow10(maxPerBin);
    var scale := 0.1;
    for i := 0 to nextpow10
      invariant multiplier == Decades(maxPerBin, i)
      invariant scale == Pow10(i) as real / 10.0
    {
      scale := scale * 10.0;
      multiplier := DecadeLoop(maxPerBin, i, scale, multiplier);
    }
    tau := Taus(multiplier, ts);
  }

  /** One pass of the outer loop of `_get_taus` with `scale` = 10^i: the multipliers j * scale,
      j = 1, ..., 9, appended until one exceeds `maxPerBin`. */
  method DecadeLoop(maxPerBin: nat, i: nat, scale: real, before: seq<int>) returns (multiplier: seq<int>)
    requires scale == Pow10(i) as real
    ensures multiplier == before + DecadeFrom(maxPerBin, i, 1)
  {
    multiplier := before;
    var j := 1;
    while j < 10
      invariant 1 <= j <= 10
      invariant multiplier + DecadeFrom(maxPerBin, i, j) == before + DecadeFrom(maxPerBin, i, 1)
    {
      var tmp := (j as real * scale).Floor;
      StepAsReal(j, i, scale);
      if tmp <= maxPerBin {
        assert DecadeFrom(maxPerBin, i, j) == [tmp] + DecadeFrom(maxPerBin, i, j + 1);
        multiplier := multiplier + [tmp];
      } else {
        break;
      }
      j := j + 1;
    }
  }

  /** The fill loop of `_get_taus`: `tau[i] = multiplier[i] * ts`. */
  method Taus(multiplier: seq<int>, ts: real) returns (tau: seq<real>)
    ensures |tau| == |multiplier| && forall i :: 0 <= i < |tau| ==> tau[i] == multiplier[i] as real * ts
  {
    var tauArray := new real[|multiplier|](_ => 0.0);
    for i := 0 to |multiplier|
      invariant forall k :: 0 <= k < i ==> tauArray[k] == multiplier[k] as real * ts
    {
      tauArray[i] := multiplier[i] as real * ts;
    }
    tau := tauArray[..];
  }

  /** `math.floor(n / m)` for integers, exactly: the number of bins of `m` samples. */
  function FloorDiv(n: nat, m: int): (r: int)
    requires m != 0
    ensures m > 0 ==> r == n / m
    ensures m < 0 ==> r <= 0
  {
    if m > 0 then n / m else -((n - m - 1) / (-m))
  }

  /** The sum of `s`, first to last. */
  function Sum(s: seq<real>): real {
    if s == [] then 0.0 else Sum(s[..|s| - 1]) + s[|s| - 1]
  }

  /** `np.mean` of a non-empty run. */
  function Mean(s: seq<real>): real
    requires |s| > 0
  {
    Sum(s) / |s| as real
  }

  /** The means of the `bins` consecutive bins of `m` samples at the head of `x`: `np.reshape` into
      (bins, m) followed by `np.mean` along axis 1. */
  function BinMeans(x: seq<real>, m: nat, bins: nat): (r: seq<real>)
    requires m > 0 && bins * m <= |x|
    ensures |r| == bins
  {
    if bins == 0 then [] else [Mean(x[..m])] + BinMeans(x[m..], m, bins - 1)
  }

  /** `tmp[1::] - tmp[0:-1]`: the differences of consecutive values. */
  function Diffs(s: seq<real>): (r: seq<real>)
    requires |s| >= 1
    ensures |r| == |s| - 1
  {
    seq(|s| - 1, k requires 0 <= k < |s| - 1 => s[k + 1] - s[k])
  }

  /** `d * d`, elementwise. */
  function Squares(d: seq<real>): (r: seq<real>)
    ensures |r| == |d|
  {
    seq(|d|, k requires 0 <= k < |d| => d[k] * d[k])
  }

  /** The Allan variance of `x` at `m` samples per bin, when there are at least 9 bins:
      0.5 / (bins - 1) times the sum of the squared differences of consecutive bin means. */
  function Entry(x: seq<real>, m: int): real
    requires m > 0 && |x| / m >= 9
  {
    var bins := |x| / m;
    0.5 / (bins - 1) as real * Sum(Squares(Diffs(BinMeans(x[..bins * m], m, bins))))
  }

  /** Whether the loop of `_allan_variance` ends at multiplier `i`: a zero multiplier divides by
      zero, and fewer than 9 bins break out of the loop. */
  predicate Halts(x: seq<real>, multiplier: seq<int>, i: nat)
    requires i < |multiplier|
  {
    multiplier[i] == 0 || FloorDiv(|x|, multiplier[i]) < 9
  }

  /** The index from `from` on at which the loop of `_allan_variance` ends. */
  function Stop(x: seq<real>, multiplier: seq<int>, from: nat): (r: nat)
    requires from <= |multiplier|
    ensures from <= r <= |multiplier|
    ensures forall i :: from <= i < r ==> !Halts(x, multiplier, i)
    ensures r < |multiplier| ==> Halts(x, multiplier, r)
    decreases |multiplier| - from
  {
    if from == |multiplier| || Halts(x, multiplier, from) then from else Stop(x, multiplier, from + 1)
  }

  /** What `_allan_variance(x, multiplier)` returns: the Allan variance at every multiplier
      before the loop ends and 0 after it, or ZeroDivisionError when it ends at a zero multiplier. */
  function AllanColumn(x: seq<real>, multiplier: seq<int>): (r: Result<seq<real>>)
    ensures r.Err? ==> r.error == ZeroDivisionError
    ensures r.Ok? ==> |r.value| == |multiplier|
  {
    var s := Stop(x, multiplier, 0);
    if s < |multiplier| && multiplier[s] == 0 then Err(ZeroDivisionError)
    else Ok(seq(|multiplier|, i requires 0 <= i < |multiplier| =>
                  if i < s then assert !Halts(x, multiplier, i); Entry(x, multiplier[i]) else 0.0))
  }

  /** `_allan_variance` fails exactly when the loop reaches a zero multiplier, and every entry
      from the multiplier at which the loop stops onwards stays 0. */
  lemma AllanColumnFacts(x: seq<real>, multiplier: seq<int>, i: nat)
    requires i < |multiplier|
    ensures AllanColumn(x, multiplier).Err? ==> exists j :: 0 <= j < |multiplier| && multiplier[j] == 0
    ensures multiplier[i] == 0 && (forall k :: 0 <= k < i ==> !Halts(x, multiplier, k)) ==> AllanColumn(x, multiplier).Err?
    ensures AllanColumn(x, multiplier).Ok? && Halts(x, multiplier, i) ==>
              forall k :: i <= k < |multiplier| ==> AllanColumn(x, multiplier).value[k] == 0.0
  {
    var s := Stop(x, multiplier, 0);
    if Halts(x, multiplier, i) {
      assert s <= i;
    }
    if multiplier[i] == 0 && (forall k :: 0 <= k < i ==> !Halts(x, multiplier, k)) {
      assert s == i;
    }
  }

  /** `_allan_variance(x, multiplier)`. */
  method AllanVarianceColumn(x: seq<real>, multiplier: seq<int>) returns (r: Result<seq<real>>)
    ensures r == AllanColumn(x, multiplier)
  {
    var n := |x|;
    var aVar := new real[|multiplier|](_ => 0.0);
    var i := 0;
    while i < |multiplier|
      invariant 0 <= i <= |multiplier|
      invariant Stop(x, multiplier, i) == Stop(x, multiplier, 0)
      invariant forall k :: 0 <= k < i ==> !Halts(x, multiplier, k) && aVar[k] == Entry(x, multiplier[k])
      invariant forall k :: i <= k < aVar.Length ==> aVar[k] == 0.0
    {
      var m := multiplier[i];
      if m == 0 {
        return Err(ZeroDivisionError);
      }
      var bins := FloorDiv(n, m);
      if bins < 9 {
        break;
      }
      aVar[i] := Entry(x, m);
      i := i + 1;
    }
    r := Ok(aVar[..]);
    assert r.value == AllanColumn(x, multiplier).value;
  }

  lemma {:induction false} SumNonNegative(s: seq<real>)
    requires forall k :: 0 <= k < |s| ==> s[k] >= 0.0
    ensures Sum(s) >= 0.0
  {
    if s != [] {
      SumNonNegative(s[..|s| - 1]);
    }
  }

  /** Every Allan variance entry is non-negative. */
  lemma EntryNonNegative(x: seq<real>, m: int)
    requires m > 0 && |x| / m >= 9
    ensures Entry(x, m) >= 0.0
  {
    var bins := |x| / m;
    var sq := Squares(Diffs(BinMeans(x[..bins * m], m, bins)));
    forall k | 0 <= k < |sq| ensures sq[k] >= 0.0 {
      var d := Diffs(BinMeans(x[..bins * m], m, bins))[k];
      assert sq[k] == d * d;
    }
    SumNonNegative(sq);
    var c := 0.5 / (bins - 1) as real;
    assert c > 0.0;
  }

  /** The sum of `len` copies of `c`. */
  lemma {:induction false} SumConstant(s: seq<real>, c: real)
    requires forall k :: 0 <= k < |s| ==> s[k] == c
    ensures Sum(s) == |s| as real * c
  {
    if s != [] {
      SumConstant(s[..|s| - 1], c);
    }
  }

  /** The bin means of a constant signal are that constant. */
  lemma {:induction false} BinMeansConstant(x: seq<real>, m: nat, bins: nat, c: real)
    requires m > 0 && bins * m <= |x|
    requires forall t :: 0 <= t < |x| ==> x[t] == c
    ensures forall b :: 0 <= b < bins ==> BinMeans(x, m, bins)[b] == c
  {
    if bins > 0 {
      SumConstant(x[..m], c);
      assert Mean(x[..m]) == c;
      BinMeansConstant(x[m..], m, bins - 1, c);
    }
  }

  /** A constant signal has Allan variance zero. */
  lemma ConstantSignalZero(x: seq<real>, m: int, c: real)
    requires m > 0 && |x| / m >= 9
    requires forall t :: 0 <= t < |x| ==> x[t] == c
    ensures Entry(x, m) == 0.0
  {
    var bins := |x| / m;
    var means := BinMeans(x[..bins * m], m, bins);
    BinMeansConstant(x[..bins * m], m, bins, c);
    var sq := Squares(Diffs(means));
    assert forall k :: 0 <= k < |sq| ==> sq[k] == 0.0;
    SumConstant(sq, 0.0);
  }

  /** The loop of `_allan_variance` runs to the end when no multiplier halts it. */
  lemma {:induction false} StopAtEnd(x: seq<real>, multiplier: seq<int>, from: nat)
    requires from <= |multiplier|
    requires forall i :: from <= i < |multiplier| ==> !Halts(x, multiplier, i)
    ensures Stop(x, multiplier, from) == |multiplier|
    decreases |multiplier| - from
  {
    if from < |multiplier| {
      StopAtEnd(x, multiplier, from + 1);
    }
  }

  /** For the multipliers of `_get_taus`, `_allan_variance` never breaks out early and never
      divides by zero: every entry is the Allan variance at its multiplier. */
  lemma TausNeverStop(x: seq<real>, ts: real)
    ensures var mult := TauMultipliers(|x|, ts);
      AllanColumn(x, mult).Ok? && |AllanColumn(x, mult).value| == |mult| &&
      forall i :: 0 <= i < |mult| ==> AllanColumn(x, mult).value[i] == Entry(x, mult[i])
  {
    var mult := TauMultipliers(|x|, ts);
    StopAtEnd(x, mult, 0);
  }

  /** Column `j` of `x`: `x[:, j].flatten()`. */
  function Column(x: array2<real>, j: nat): (c: seq<real>)
    requires j < x.Length1
    reads x
    ensures |c| == x.Length0 && forall t :: 0 <= t < x.Length0 ==> c[t] == x[t, j]
  {
    seq(x.Length0, t requires 0 <= t < x.Length0 reads x => x[t, j])
  }

  /** `allan_variance(x, fs)` for an (n x axes) signal sampled at `fs`: the Allan variance of every
      column at every averaging time of `_get_taus(n, 1 / fs)`, and those times. */
  method AllanVarianceOf(x: array2<real>, fs: real) returns (r: Result<array2<real>>, tau: seq<real>)
    ensures r.Err? <==> fs == 0.0
    ensures r.Err? ==> r.error == ZeroDivisionError && tau == []
    ensures r.Ok? ==> fresh(r.value)
    ensures r.Ok? ==> var mult := TauMultipliers(x.Length0, 1.0 / fs);
      r.value.Length0 == |mult| && r.value.Length1 == x.Length1 &&
      |tau| == |mult| && (forall i :: 0 <= i < |mult| ==> tau[i] == mult[i] as real * (1.0 / fs)) &&
      forall i, j :: 0 <= i < |mult| && 0 <= j < x.Length1 ==> r.value[i, j] == Entry(Column(x, j), mult[i])
  {
    if fs == 0.0 {
      return Err(ZeroDivisionError), [];
    }
    var ts := 1.0 / fs;
    var multiplier;
    multiplier, tau := GetTaus(x.Length0, ts);
    var aVar := new real[|multiplier|, x.Length1]((_, _) => 0.0);
    FillColumns(x, multiplier, ts, aVar);
    return Ok(aVar), tau;
  }

  /** The loop of `allan_variance` over the columns of `x`. */
  method FillColumns(x: array2<real>, multiplier: seq<int>, ghost ts: real, aVar: array2<real>)
    requires multiplier == TauMultipliers(x.Length0, ts)
    requires x.Length1 == aVar.Length1 && aVar.Length0 == |multiplier| && aVar != x
    modifies aVar
    ensures forall i, c :: 0 <= i < aVar.Length0 && 0 <= c < aVar.Length1 ==> aVar[i, c] == Entry(Column(x, c), multiplier[i])
  {
    for j := 0 to x.Length1
      invariant forall i, c :: 0 <= i < aVar.Length0 && 0 <= c < j ==> aVar[i, c] == Entry(Column(x, c), multiplier[i])
    {
      FillColumn(x, j, multiplier, ts, aVar);
    }
  }

  /** One pass of the loop of `allan_variance`: column `j` of `aVar` becomes the Allan variance
      of column `j` of `x`; no other column changes. */
  method FillColumn(x: array2<real>, j: nat, multiplier: seq<int>, ghost ts: real, aVar: array2<real>)
    requires multiplier == TauMultipliers(x.Length0, ts)
    requires j < x.Length1 == aVar.Length1 && aVar.Length0 == |multiplier| && aVar != x
    modifies aVar
    ensures forall i :: 0 <= i < aVar.Length0 ==> aVar[i, j] == Entry(Column(x, j), multiplier[i])
    ensures forall i, c :: 0 <= i < aVar.Length0 && 0 <= c < aVar.Length1 && c != j ==> aVar[i, c] == old(aVar[i, c])
  {
    var column := Column(x, j);
    var values := AllanVarianceColumn(column, multiplier);
    TausNeverStop(column, ts);
    forall i | 0 <= i < |multiplier| {
      aVar[i, j] := values.value[i];
    }
  }
}
