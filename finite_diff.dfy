/** `finite_difference` of math_utils/finite_diff.py: the slope between two values a step
    apart. Reals stand for the floating-point values. */
module FiniteDiff {
  import opened Errors
  import opened PyTypes

  /** `finite_difference(x1, x2, step)`: a step that is neither an `int` nor a `float` is a
      TypeError, a zero step a ZeroDivisionError; otherwise `(x2 - x1) / step`, the value that
      carries `x1` to `x2` in one step. */
  function FiniteDifference(x1: real, x2: real, step: Number): (r: Result<real>)
    ensures step.NotANumber? ==> r == Err(TypeError)
    ensures !step.NotANumber? ==> (r.Err? <==> step.Real() == 0.0)
    ensures !step.NotANumber? && r.Err? ==> r.error == ZeroDivisionError
    ensures r.Ok? ==> x1 + step.Real() * r.value == x2
    ensures r.Ok? && x1 == x2 ==> r.value == 0.0
  {
    if step.NotANumber? then Err(TypeError)
    else if step.Real() == 0.0 then Err(ZeroDivisionError)
    else Ok((x2 - x1) / step.Real())
  }

  /** The difference of a value moved by `step` times `slope` is that slope. */
  lemma SlopeRecovered(x: real, slope: real, step: Number)
    requires !step.NotANumber? && step.Real() != 0.0
    ensures FiniteDifference(x, x + step.Real() * slope, step) == Ok(slope)
  {
    var r := FiniteDifference(x, x + step.Real() * slope, step).value;
    assert step.Real() * r == step.Real() * slope;
  }

  /** Exchanging the two values negates the difference. */
  lemma Antisymmetric(x1: real, x2: real, step: Number)
    requires FiniteDifference(x1, x2, step).Ok?
    ensures FiniteDifference(x2, x1, step) == Ok(-FiniteDifference(x1, x2, step).value)
  {
    var s := step.Real();
    var d := (x2 - x1) / s;
    assert d * s == x2 - x1;
    assert (-d) * s == x1 - x2;
    assert (x1 - x2) / s == -d;
  }
}
