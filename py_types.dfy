/** Python argument kinds that the core checks with `isinstance`. */
module PyTypes {

  /** A Python number: `int` or `float`; anything else is `NotANumber`. */
  datatype Number = Int(i: int) | Float(f: real) | NotANumber {
    /** The value, with an `int` widened to `float` as `float(value)` does. */
    function Real(): real
      requires !NotANumber?
    {
      if Int? then i as real else f
    }
  }

  /** An argument that must be an instance of one class: either it is, or it is of another type. */
  datatype Arg<T> = Given(v: T) | WrongType
}
