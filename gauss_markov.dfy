/** The first-order Gauss-Markov generator, stochastic_process/gauss_markov.py: row 0 is the
    initial value and every later row is the row before it, decayed by exp(-Ts/tau), plus one
    normal draw per axis scaled by std * sqrt(1 - exp(-2 Ts/tau)). `exp` and `sqrt` are
    parameters of the model. */
module GaussMarkovProcess {
  import opened Errors
  import opened Processes

  /** A `GaussMarkov` object: the base fields, the discrete-time standard deviation, the
      sampling time Ts, the correlation time tau and the initial value. */
  datatype GaussMarkov = GaussMarkov(base: Gen, std: seq<real>, samplingTime: real,
                                     correlationTime: real, initial: seq<real>)

  /** What the constructor establishes: one initial value per axis. */
  predicate Valid(p: GaussMarkov) {
    p.base.axis >= 0 && |p.initial| == p.base.axis
  }

  /** `GaussMarkov(dim=1, std=1, correlation_time=1, axis=1, initial=None, sampling_time=1)`:
      an initial value of another length than `axis` is a TypeError; without one the process
      starts at `np.zeros(axis)`, which refuses a negative `axis`. */
  function NewGaussMarkov(dim: int := 1, std: seq<real> := [1.0], correlationTime: real := 1.0, axis: int := 1,
                          initial: Option<seq<real>> := None, samplingTime: real := 1.0)
      : (r: Result<GaussMarkov>)
    ensures r.Ok? ==> Valid(r.value) && r.value.base == Gen(dim, axis, "GaussMarkov") && r.value.std == std
    ensures r.Ok? ==> r.value.samplingTime == samplingTime && r.value.correlationTime == correlationTime
    ensures initial.Some? ==> (r.Ok? <==> |initial.value| == axis)
    ensures initial.Some? && r.Ok? ==> r.value.initial == initial.value
    ensures initial.None? ==> (r.Ok? <==> axis >= 0)
    ensures initial.None? && r.Ok? ==> r.value.initial == ZeroVector(axis)
    ensures r.Err? ==> r.error == if initial.Some? then TypeError else ValueError
  {
    if initial.Some? then
      if |initial.value| != axis then Err(TypeError)
      else Ok(GaussMarkov(Gen(dim, axis, "GaussMarkov"), std, samplingTime, correlationTime, initial.value))
    else if axis < 0 then Err(ValueError)
    else Ok(GaussMarkov(Gen(dim, axis, "GaussMarkov"), std, samplingTime, correlationTime, ZeroVector(axis)))
  }

  /** A built GaussMarkov prints as "GaussMarkov" and has the axes it was built with. */
  lemma GaussMarkovNames(dim: int, std: seq<real>, axis: int, initial: Option<seq<real>>)
    requires NewGaussMarkov(dim := dim, std := std, axis := axis, initial := initial).Ok?
    ensures Str(NewGaussMarkov(dim := dim, std := std, axis := axis, initial := initial).value.base) == "GaussMarkov"
    ensures Axes(NewGaussMarkov(dim := dim, std := std, axis := axis, initial := initial).value.base) == axis
  {
  }

  /** The decay of one step, exp(-beta Ts) with beta = 1 / tau. */
  function Decay(p: GaussMarkov, exp: real -> real): real
    requires p.correlationTime != 0.0
  {
    exp(-(1.0 / p.correlationTime) * p.samplingTime)
  }

  /** The scale of every draw, std * sqrt(1 - exp(-2 beta Ts)): the same at every step. */
  function NoiseScale(p: GaussMarkov, exp: real -> real, sqrt: real -> real): (r: seq<real>)
    requires p.correlationTime != 0.0
    ensures |r| == |p.std|
  {
    Times(sqrt(1.0 - exp(-2.0 * (1.0 / p.correlationTime) * p.samplingTime)), p.std)
  }

  /** Whether the draws of `compute()` can be made at all. */
  predicate CanDraw(p: GaussMarkov, exp: real -> real, sqrt: real -> real)
    requires Valid(p)
  {
    p.correlationTime != 0.0 && !DrawFails(NoiseScale(p, exp, sqrt), p.base.axis)
  }

  /** The first-order recurrence from `initial` with the given decay and draw scale, the draws
      read from the stream `z` at position `at`: row `t` is `decay` times row `t - 1` plus the
      `t`-th draw of `|initial|` samples. */
  function Recurrence(initial: seq<real>, decay: real, scale: seq<real>, z: nat -> real, at: nat, t: nat): (r: seq<real>)
    requires t == 0 || !DrawFails(scale, |initial|)
    ensures |r| == |initial|
  {
    if t == 0 then initial
    else Plus(Times(decay, Recurrence(initial, decay, scale, z, at, t - 1)), Draw(scale, |initial|, z, at, t).value)
  }

  /** Draw number `s` (from 1) of `size` samples, made after the `s - 1` draws before it. */
  function Draw(scale: seq<real>, size: nat, z: nat -> real, at: nat, s: nat): Result<seq<real>>
    requires s >= 1
  {
    Normal(scale, size, z, at + (s - 1) * size)
  }

  /** `x` raised to the power `n`. */
  function Power(x: real, n: nat): real {
    if n == 0 then 1.0 else x * Power(x, n - 1)
  }

  /** Without noise the process decays geometrically: row `t` is decay^t times the initial value. */
  lemma ZeroNoiseDecays(initial: seq<real>, decay: real, scale: seq<real>, z: nat -> real, at: nat, t: nat)
    requires !DrawFails(scale, |initial|)
    requires forall i :: z(i) == 0.0
    ensures Recurrence(initial, decay, scale, z, at, t) == Times(Power(decay, t), initial)
  {
    ZeroStreamZeroNoise(|initial|, scale, z, at, t);
    ZeroNoiseScales(initial, decay, scale, z, at, t);
    ScaledIsPower(initial, decay, t);
  }

  /** A stream of zeros makes every draw zero. */
  lemma ZeroStreamZeroNoise(size: nat, scale: seq<real>, z: nat -> real, at: nat, t: nat)
    requires !DrawFails(scale, size)
    requires forall i :: z(i) == 0.0
    ensures forall s :: 1 <= s <= t ==> Draw(scale, size, z, at, s) == Ok(ZeroVector(size))
  {
    forall s | 1 <= s <= t
      ensures Draw(scale, size, z, at, s) == Ok(ZeroVector(size))
    {
      NormalOfZeros(scale, size, z, at + (s - 1) * size);
    }
  }

  /** `v` multiplied `t` times by `decay`. */
  function Scaled(v: seq<real>, decay: real, t: nat): (r: seq<real>)
    ensures |r| == |v|
  {
    if t == 0 then v else Times(decay, Scaled(v, decay, t - 1))
  }

  /** Without noise each step only multiplies by the decay. */
  lemma {:induction false} ZeroNoiseScales(initial: seq<real>, decay: real, scale: seq<real>, z: nat -> real, at: nat, t: nat)
    requires !DrawFails(scale, |initial|)
    requires forall s :: 1 <= s <= t ==> Draw(scale, |initial|, z, at, s) == Ok(ZeroVector(|initial|))
    ensures Recurrence(initial, decay, scale, z, at, t) == Scaled(initial, decay, t)
  {
    if t > 0 {
      ZeroNoiseScales(initial, decay, scale, z, at, t - 1);
      PlusZero(Times(decay, Scaled(initial, decay, t - 1)));
    }
  }

  lemma PlusZero(a: seq<real>)
    ensures Plus(a, ZeroVector(|a|)) == a
  {
    assert forall k :: 0 <= k < |a| ==> Plus(a, ZeroVector(|a|))[k] == a[k];
  }

  /** Scaling `t` times by `decay` is scaling once by decay^t. */
  lemma {:induction false} ScaledIsPower(v: seq<real>, decay: real, t: nat)
    ensures Scaled(v, decay, t) == Times(Power(decay, t), v)
  {
    if t > 0 {
      ScaledIsPower(v, decay, t - 1);
      var r, q := Scaled(v, decay, t), Power(decay, t - 1);
      forall k | 0 <= k < |v|
        ensures r[k] == Power(decay, t) * v[k]
      {
        assert r[k] == decay * (q * v[k]);
        MulAssoc(decay, q, v[k]);
      }
      assert |r| == |Times(Power(decay, t), v)|;
    } else {
      assert forall k :: 0 <= k < |v| ==> Times(1.0, v)[k] == v[k];
    }
  }

  lemma MulAssoc(a: real, b: real, c: real)
    ensures a * (b * c) == (a * b) * c
  {
  }

  /** The exception `compute()` raises, if any: `np.zeros` refuses a negative `dim`, there is no
      row 0 to set when `dim` is 0, beta = 1 / tau divides by zero, and the first draw refuses a
      bad scale when there is a step. */
  function ComputeError(p: GaussMarkov, exp: real -> real, sqrt: real -> real): (r: Option<ErrorClass>)
    requires Valid(p)
    ensures r.Some? ==> r.value == ValueError || r.value == IndexError || r.value == ZeroDivisionError
    ensures r.None? ==> p.base.dim >= 1 && p.correlationTime != 0.0
    ensures r == Some(ZeroDivisionError) <==> p.base.dim >= 1 && p.correlationTime == 0.0
  {
    if p.base.dim < 0 then Some(ValueError)
    else if p.base.dim == 0 then Some(IndexError)
    else if p.correlationTime == 0.0 then Some(ZeroDivisionError)
    else if p.base.dim >= 2 && !CanDraw(p, exp, sqrt) then Some(ValueError)
    else None
  }

  /** `compute()` with the generator at position `at` of the stream `z`: a (dim x axis) array
      filled row by row, and the position after the `dim - 1` draws of `axis` samples each. */
  method Compute(p: GaussMarkov, exp: real -> real, sqrt: real -> real, z: nat -> real, at: nat)
      returns (r: Result<array2<real>>, next: nat)
    requires Valid(p)
    ensures r.Err? <==> ComputeError(p, exp, sqrt).Some?
    ensures r.Err? ==> r.error == ComputeError(p, exp, sqrt).value && next == at
    ensures r.Ok? ==> fresh(r.value) && r.value.Length0 == p.base.dim && r.value.Length1 == p.base.axis
    ensures r.Ok? ==> next == at + (p.base.dim - 1) * p.base.axis
    ensures r.Ok? ==> forall t, k :: 0 <= t < p.base.dim && 0 <= k < p.base.axis ==>
                        r.value[t, k] == Recurrence(p.initial, Decay(p, exp), NoiseScale(p, exp, sqrt), z, at, t)[k]
  {
    var dim, axis := p.base.dim, p.base.axis;
    if dim < 0 {
      return Err(ValueError), at;
    }
    var process := new real[dim, axis];
    if dim == 0 {
      return Err(IndexError), at;
    }
    forall k | 0 <= k < axis {
      process[0, k] := p.initial[k];
    }
    if p.correlationTime == 0.0 {
      return Err(ZeroDivisionError), at;
    }
    var failed;
    failed, next := Steps(p.initial, Decay(p, exp), NoiseScale(p, exp, sqrt), z, at, process);
    if failed {
      return Err(ValueError), at;
    }
    return Ok(process), next;
  }

  /** The loop of `compute()`: rows 1 to `dim - 1` of `process`, whose row 0 is the initial
      value, each the row before it times `decay` plus a draw of scale `scale`; it stops at the
      first draw that fails. */
  method Steps(initial: seq<real>, decay: real, scale: seq<real>, z: nat -> real, at: nat, process: array2<real>)
      returns (failed: bool, next: nat)
    requires process.Length0 >= 1 && process.Length1 == |initial|
    requires forall k :: 0 <= k < |initial| ==> process[0, k] == initial[k]
    modifies process
    ensures failed <==> process.Length0 >= 2 && DrawFails(scale, |initial|)
    ensures !failed ==> next == at + (process.Length0 - 1) * |initial|
    ensures !failed ==> forall t, k :: 0 <= t < process.Length0 && 0 <= k < |initial| ==>
                          process[t, k] == Recurrence(initial, decay, scale, z, at, t)[k]
  {
    var dim, axis := process.Length0, |initial|;
    next := at;
    var t := 1;
    while t < dim
      invariant 1 <= t <= dim
      invariant t > 1 ==> !DrawFails(scale, axis)
      invariant next == at + (t - 1) * axis
      invariant forall s, k :: 0 <= s < t && 0 <= k < axis ==> process[s, k] == Recurrence(initial, decay, scale, z, at, s)[k]
    {
      var noise := Normal(scale, axis, z, next);
      if noise.Err? {
        return true, at;
      }
      ghost var prev := Recurrence(initial, decay, scale, z, at, t - 1);
      assert Draw(scale, axis, z, at, t) == noise;
      DecayRow(process, t, decay, prev, noise.value);
      assert Plus(Times(decay, prev), noise.value) == Recurrence(initial, decay, scale, z, at, t);
      assert (t - 1) * axis + axis == t * axis;
      next := next + axis;
      t := t + 1;
    }
    return false, next;
  }

  /** Row `t` of `process`, which is `prev` before the call, becomes `decay` times row `t - 1`
      plus `noise`; no other row changes. */
  method DecayRow(process: array2<real>, t: nat, decay: real, ghost prev: seq<real>, noise: seq<real>)
    requires 1 <= t < process.Length0 && |noise| == |prev| == process.Length1
    requires forall k :: 0 <= k < |prev| ==> process[t - 1, k] == prev[k]
    modifies process
    ensures forall k :: 0 <= k < process.Length1 ==> process[t, k] == Plus(Times(decay, prev), noise)[k]
    ensures forall s, k :: 0 <= s < process.Length0 && s != t && 0 <= k < process.Length1 ==>
                           process[s, k] == old(process[s, k])
  {
    forall k | 0 <= k < process.Length1 {
      process[t, k] := decay * process[t - 1, k] + noise[k];
    }
  }
}
