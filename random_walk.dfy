/** The random walk generator, stochastic_process/random_walk.py: row 0 of the walk is the initial
    value and every later row is the row before it plus one normal draw per axis. */
module RandomWalkProcess {
  import opened Errors
  import opened Processes

  /** A `RandomWalk` object: the base fields, the discrete-time standard deviation (one value
      for every axis, or one per axis) and the initial value. */
  datatype RandomWalk = RandomWalk(base: Gen, std: seq<real>, initial: seq<real>)

  /** What the constructor establishes: one initial value per axis. */
  predicate Valid(p: RandomWalk) {
    p.base.axis >= 0 && |p.initial| == p.base.axis
  }

  /** `RandomWalk(dim=1, std=1, axis=1, initial=None)`: an initial value of another length than
      `axis` is a TypeError; without one the walk starts at `np.zeros(axis)`, which refuses a
      negative `axis`. */
  function NewRandomWalk(dim: int := 1, std: seq<real> := [1.0], axis: int := 1, initial: Option<seq<real>> := None)
      : (r: Result<RandomWalk>)
    ensures r.Ok? ==> Valid(r.value) && r.value.base == Gen(dim, axis, "RandomWalk") && r.value.std == std
    ensures initial.Some? ==> (r.Ok? <==> |initial.value| == axis)
    ensures initial.Some? && r.Ok? ==> r.value.initial == initial.value
    ensures initial.None? ==> (r.Ok? <==> axis >= 0)
    ensures initial.None? && r.Ok? ==> r.value.initial == ZeroVector(axis)
    ensures r.Err? ==> r.error == if initial.Some? then TypeError else ValueError
  {
    if initial.Some? then
      if |initial.value| != axis then Err(TypeError)
      else Ok(RandomWalk(Gen(dim, axis, "RandomWalk"), std, initial.value))
    else if axis < 0 then Err(ValueError)
    else Ok(RandomWalk(Gen(dim, axis, "RandomWalk"), std, ZeroVector(axis)))
  }

  /** A built RandomWalk prints as "RandomWalk" and has the axes it was built with. */
  lemma RandomWalkNames(dim: int, std: seq<real>, axis: int, initial: Option<seq<real>>)
    requires NewRandomWalk(dim := dim, std := std, axis := axis, initial := initial).Ok?
    ensures Str(NewRandomWalk(dim := dim, std := std, axis := axis, initial := initial).value.base) == "RandomWalk"
    ensures Axes(NewRandomWalk(dim := dim, std := std, axis := axis, initial := initial).value.base) == axis
  {
  }

  /** The draw of step `t` (from 1): the `axis` samples after the `t - 1` draws before it. */
  function Noise(p: RandomWalk, z: nat -> real, at: nat, t: nat): (r: seq<real>)
    requires Valid(p) && t >= 1 && !DrawFails(p.std, p.base.axis)
    ensures |r| == p.base.axis
  {
    Normal(p.std, p.base.axis, z, at + (t - 1) * p.base.axis).value
  }

  /** Row `t` of the walk computed from the stream `z` read from position `at`: the initial value,
      then each row the one before it plus that step's draw. */
  function Row(p: RandomWalk, z: nat -> real, at: nat, t: nat): (r: seq<real>)
    requires Valid(p) && (t == 0 || !DrawFails(p.std, p.base.axis))
    ensures |r| == p.base.axis
  {
    if t == 0 then p.initial else Plus(Row(p, z, at, t - 1), Noise(p, z, at, t))
  }

  /** The draws of steps 1 to `t` on axis `k`, added up. */
  function NoiseSum(p: RandomWalk, z: nat -> real, at: nat, t: nat, k: nat): real
    requires Valid(p) && k < p.base.axis && (t == 0 || !DrawFails(p.std, p.base.axis))
  {
    if t == 0 then 0.0 else NoiseSum(p, z, at, t - 1, k) + Noise(p, z, at, t)[k]
  }

  /** Row `t` is the initial value plus every draw made up to step `t`. */
  lemma {:induction false} RowIsInitialPlusNoise(p: RandomWalk, z: nat -> real, at: nat, t: nat, k: nat)
    requires Valid(p) && k < p.base.axis && (t == 0 || !DrawFails(p.std, p.base.axis))
    ensures Row(p, z, at, t)[k] == p.initial[k] + NoiseSum(p, z, at, t, k)
  {
    if t > 0 {
      RowIsInitialPlusNoise(p, z, at, t - 1, k);
    }
  }

  /** Without noise the walk stays at its initial value. */
  lemma {:induction false} ZeroNoiseStays(p: RandomWalk, z: nat -> real, at: nat, t: nat)
    requires Valid(p) && (t == 0 || !DrawFails(p.std, p.base.axis))
    requires forall i :: z(i) == 0.0
    ensures Row(p, z, at, t) == p.initial
  {
    if t > 0 {
      ZeroNoiseStays(p, z, at, t - 1);
      NormalOfZeros(p.std, p.base.axis, z, at + (t - 1) * p.base.axis);
      assert Noise(p, z, at, t) == ZeroVector(p.base.axis);
      assert Row(p, z, at, t) == Plus(p.initial, ZeroVector(p.base.axis));
    }
  }

  /** The exception `compute()` raises, if any: `np.zeros` refuses a negative `dim`, there is no
      row 0 to set when `dim` is 0, and the first draw refuses a bad scale when there is a step. */
  function ComputeError(p: RandomWalk): (r: Option<ErrorClass>)
    requires Valid(p)
    ensures r.Some? ==> r.value == ValueError || r.value == IndexError
    ensures r.None? <==> p.base.dim == 1 || (p.base.dim >= 2 && !DrawFails(p.std, p.base.axis))
  {
    if p.base.dim < 0 then Some(ValueError)
    else if p.base.dim == 0 then Some(IndexError)
    else if p.base.dim >= 2 && DrawFails(p.std, p.base.axis) then Some(ValueError)
    else None
  }

  /** Row `t` of `walk` becomes row `t - 1` plus `noise`; no other row changes. */
  method AddRow(walk: array2<real>, t: nat, noise: seq<real>)
    requires 1 <= t < walk.Length0 && |noise| == walk.Length1
    modifies walk
    ensures forall k :: 0 <= k < walk.Length1 ==> walk[t, k] == old(walk[t - 1, k]) + noise[k]
    ensures forall s, k :: 0 <= s < walk.Length0 && s != t && 0 <= k < walk.Length1 ==> walk[s, k] == old(walk[s, k])
  {
    forall k | 0 <= k < walk.Length1 {
      walk[t, k] := walk[t - 1, k] + noise[k];
    }
  }

  /** `compute()` with the generator at position `at` of the stream `z`: a (dim x axis) array
      filled row by row, and the position after the `dim - 1` draws of `axis` samples each. */
  method Compute(p: RandomWalk, z: nat -> real, at: nat) returns (r: Result<array2<real>>, next: nat)
    requires Valid(p)
    ensures r.Err? <==> ComputeError(p).Some?
    ensures r.Err? ==> r.error == ComputeError(p).value && next == at
    ensures r.Ok? ==> fresh(r.value) && r.value.Length0 == p.base.dim && r.value.Length1 == p.base.axis
    ensures r.Ok? ==> next == at + (p.base.dim - 1) * p.base.axis
    ensures r.Ok? ==> forall t, k :: 0 <= t < p.base.dim && 0 <= k < p.base.axis ==> r.value[t, k] == Row(p, z, at, t)[k]
  {
    var dim, axis := p.base.dim, p.base.axis;
    if dim < 0 {
      return Err(ValueError), at;
    }
    var walk := new real[dim, axis];
    if dim == 0 {
      return Err(IndexError), at;
    }
    forall k | 0 <= k < axis {
      walk[0, k] := p.initial[k];
    }
    var failed;
    failed, next := Steps(p, z, at, walk);
    if failed {
      return Err(ValueError), at;
    }
    return Ok(walk), next;
  }

  /** The loop of `compute()`: rows 1 to `dim - 1` of `walk`, whose row 0 is the initial value;
      it stops at the first draw that fails. */
  method Steps(p: RandomWalk, z: nat -> real, at: nat, walk: array2<real>) returns (failed: bool, next: nat)
    requires Valid(p) && walk.Length0 == p.base.dim >= 1 && walk.Length1 == p.base.axis
    requires forall k :: 0 <= k < p.base.axis ==> walk[0, k] == p.initial[k]
    modifies walk
    ensures failed <==> p.base.dim >= 2 && DrawFails(p.std, p.base.axis)
    ensures !failed ==> next == at + (p.base.dim - 1) * p.base.axis
    ensures !failed ==> forall t, k :: 0 <= t < p.base.dim && 0 <= k < p.base.axis ==> walk[t, k] == Row(p, z, at, t)[k]
  {
    var dim, axis := p.base.dim, p.base.axis;
    next := at;
    var t := 1;
    while t < dim
      invariant 1 <= t <= dim
      invariant t > 1 ==> !DrawFails(p.std, axis)
      invariant next == at + (t - 1) * axis
      invariant forall s, k :: 0 <= s < t && 0 <= k < axis ==> walk[s, k] == Row(p, z, at, s)[k]
    {
      var n := Normal(p.std, axis, z, next);
      if n.Err? {
        return true, at;
      }
      assert n.value == Noise(p, z, at, t);
      AddRow(walk, t, n.value);
      forall k | 0 <= k < axis
        ensures walk[t, k] == Row(p, z, at, t)[k]
      {
        assert walk[t, k] == Row(p, z, at, t - 1)[k] + Noise(p, z, at, t)[k];
      }
      assert (t - 1) * axis + axis == t * axis;
      next := next + axis;
      t := t + 1;
    }
    return false, next;
  }
}
