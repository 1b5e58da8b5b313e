/** The common base of the stochastic process generators (stochastic_process/process.py) and the
    normal draws the generators make. NumPy's global generator is modelled as a stream `z` of
    standard normal samples and a position in it: `np.random.normal(scale=s, size=n)` reads the
    next `n` samples of the stream and multiplies each by its scale. */
module Processes {
  import opened Errors
  import Text
  import UnitConversions

  /** The fields `StochasticProcessGen.__init__` sets: the number of time samples, the number of
      axes and the name. */
  datatype Gen = Gen(dim: int, axis: int, name: string)

  /** `StochasticProcessGen(dim=1, axis=1)`. */
  function NewGen(dim: int := 1, axis: int := 1): (g: Gen)
    ensures g.dim == dim && g.axis == axis && g.name == "General Process"
  {
    Gen(dim, axis, "General Process")
  }

  /** `str(process)`: the name alone. */
  function Str(g: Gen): string {
    g.name
  }

  /** `repr(process)`. */
  function Repr(g: Gen): string {
    "StochasticProcess(" + g.name + ", dim = " + Text.IntToString(g.dim) + ", axis = " + Text.IntToString(g.axis) + ")"
  }

  /** The `axes` property. */
  function Axes(g: Gen): int {
    g.axis
  }

  /** A base process prints as "General Process" and has the axes it was built with. */
  lemma GeneralProcessNames(dim: int, axis: int)
    ensures Str(NewGen(dim, axis)) == "General Process"
    ensures Axes(NewGen(dim, axis)) == axis
  {
  }

  /** `repr(StochasticProcessGen(dim=2, axis=3))`. */
  lemma GeneralProcessRepr()
    ensures Repr(NewGen(2, 3)) == "StochasticProcess(" + "General Process" + ", dim = " + "2" + ", axis = " + "3" + ")"
  {
    Text.DigitString(2);
    Text.DigitString(3);
  }

  /** `compute(*args)` of the base class: a (dim x axis) array of zeros, whatever the arguments;
      `np.zeros` refuses a negative dimension with ValueError. */
  function Compute(g: Gen): (r: Result<seq<seq<real>>>)
    ensures r.Err? <==> g.dim < 0 || g.axis < 0
    ensures r.Err? ==> r.error == ValueError
    ensures r.Ok? ==> |r.value| == g.dim
    ensures r.Ok? ==> forall t :: 0 <= t < |r.value| ==> r.value[t] == ZeroVector(g.axis)
  {
    if g.dim < 0 || g.axis < 0 then Err(ValueError)
    else Ok(seq(g.dim, _ => ZeroVector(g.axis)))
  }

  /** `np.zeros(n)`. */
  function ZeroVector(n: nat): (r: seq<real>)
    ensures |r| == n && forall k :: 0 <= k < n ==> r[k] == 0.0
  {
    seq(n, _ => 0.0)
  }

  /** `a + b` on two arrays of the same length. */
  function Plus(a: seq<real>, b: seq<real>): (r: seq<real>)
    requires |a| == |b|
    ensures |r| == |a| && forall k :: 0 <= k < |a| ==> r[k] == a[k] + b[k]
  {
    seq(|a|, k requires 0 <= k < |a| => a[k] + b[k])
  }

  /** `c * a` for a scalar `c`. */
  function Times(c: real, a: seq<real>): (r: seq<real>)
    ensures |r| == |a| && forall k :: 0 <= k < |a| ==> r[k] == c * a[k]
  {
    seq(|a|, k requires 0 <= k < |a| => c * a[k])
  }

  /** `np.random.normal(scale=scale, size=size)` refuses a negative scale, and a scale array
      that does not broadcast to the size (one scale for all values, or one per value). */
  predicate DrawFails(scale: seq<real>, size: nat) {
    (exists k :: 0 <= k < |scale| && scale[k] < 0.0) || (|scale| != 1 && |scale| != size)
  }

  /** `np.random.normal(scale=scale, size=size)` with the generator at position `at` of the
      stream `z`: value `k` is its scale times sample `at + k`. */
  function Normal(scale: seq<real>, size: nat, z: nat -> real, at: nat): (r: Result<seq<real>>)
    ensures r.Err? <==> DrawFails(scale, size)
    ensures r.Err? ==> r.error == ValueError
    ensures r.Ok? ==> |r.value| == size
    ensures r.Ok? ==> forall k :: 0 <= k < size ==> r.value[k] == UnitConversions.ColumnFactor(scale, k) * z(at + k)
  {
    if DrawFails(scale, size) then Err(ValueError)
    else Ok(seq(size, k requires 0 <= k < size => UnitConversions.ColumnFactor(scale, k) * z(at + k)))
  }

  /** A stream of zeros draws zeros, whatever the scale. */
  lemma NormalOfZeros(scale: seq<real>, size: nat, z: nat -> real, at: nat)
    requires !DrawFails(scale, size)
    requires forall i :: at <= i < at + size ==> z(i) == 0.0
    ensures Normal(scale, size, z, at) == Ok(ZeroVector(size))
  {
    var r := Normal(scale, size, z, at).value;
    forall k | 0 <= k < size ensures r[k] == 0.0 {
      assert z(at + k) == 0.0;
      assert r[k] == UnitConversions.ColumnFactor(scale, k) * 0.0;
    }
    assert r == ZeroVector(size);
  }
}
