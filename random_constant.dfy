/** The random constant generator, stochastic_process/random_constant.py: one normal draw,
    repeated `dim` times. */
module RandomConstantProcess {
  import opened Errors
  import opened Processes
  import Text

  /** A `RandomConstant` object: the base fields and the discrete-time standard deviation. */
  datatype RandomConstant = RandomConstant(base: Gen, std: seq<real>)

  /** `RandomConstant(dim, std)`: only `dim` reaches the base class, so there is one axis. */
  function NewRandomConstant(dim: int, std: seq<real>): (p: RandomConstant)
    ensures p.base.dim == dim && p.base.axis == 1 && p.base.name == "RandomConstant" && p.std == std
  {
    RandomConstant(Gen(dim, 1, "RandomConstant"), std)
  }

  /** A random constant prints as "RandomConstant" and has one axis whatever `dim`. */
  lemma RandomConstantNames(dim: int, std: seq<real>)
    ensures Str(NewRandomConstant(dim, std).base) == "RandomConstant"
    ensures Axes(NewRandomConstant(dim, std).base) == 1
    ensures Repr(NewRandomConstant(4, std).base) == "StochasticProcess(" + "RandomConstant" + ", dim = " + "4" + ", axis = " + "1" + ")"
  {
    Text.DigitString(4);
    Text.DigitString(1);
  }

  /** `compute()` with the generator at position `at` of the stream `z`: the single draw
      `np.random.normal(scale=std, size=1)` comes first and refuses a bad scale, then
      `np.ones(dim)` refuses a negative `dim`; the result holds the draw `dim` times, and the
      generator moves on by one sample. */
  function Compute(p: RandomConstant, z: nat -> real, at: nat): (r: Result<(seq<real>, nat)>)
    ensures r.Err? <==> DrawFails(p.std, 1) || p.base.dim < 0
    ensures r.Err? ==> r.error == ValueError
    ensures r.Ok? ==> |r.value.0| == p.base.dim && r.value.1 == at + 1
    ensures r.Ok? ==> forall t :: 0 <= t < |r.value.0| ==> r.value.0[t] == p.std[0] * z(at)
  {
    var val := Normal(p.std, 1, z, at);
    if val.Err? then Err(val.error)
    else if p.base.dim < 0 then Err(ValueError)
    else Ok((seq(p.base.dim, _ => 1.0 * val.value[0]), at + 1))
  }
}
