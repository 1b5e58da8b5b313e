/** The exception classes of utils/errors.py, the Python built-in exceptions the
    core raises, and the Result type every fallible operation of the model returns. */
module Errors {

  /** Every exception class that an operation of the model can raise. */
  datatype ErrorClass =
    // declared in utils/errors.py
    | PositioningSolverError | UnknownBase | DateError | UnknownWarning | ParseError
    | UnknownConstellation | UnknownService | UnknownFrequency | UnknownDatatype
    | NotImplementedError | FileError | TimeSystemWarning | UnknownConstellationCode
    | OrbitError | FrameError | FormError | ConfigError | UnimplementationError
    | TimeSeriesError | NonExistentObservable | PVTComputationFail | PreprocessorError
    | EmptyObservationData | UnknownConversion
    // Python built-ins
    | Exception | Warning | ValueError | TypeError | LookupError | KeyError | IndexError
    | AttributeError | ArithmeticError | ZeroDivisionError | RuntimeError | RecursionError

  /** The classes declared in utils/errors.py. */
  predicate DeclaredInErrorsModule(c: ErrorClass) {
    !c.Exception? && !c.Warning? && !c.ValueError? && !c.TypeError? && !c.LookupError?
    && !c.KeyError? && !c.IndexError? && !c.AttributeError? && !c.ArithmeticError?
    && !c.ZeroDivisionError? && !c.RuntimeError? && !c.RecursionError?
  }

  /** The Python class name (`__class__.__name__`). */
  function Name(c: ErrorClass): string {
    match c
    case PositioningSolverError => "PositioningSolver"
    case UnknownBase => "_Unknown"
    case DateError => "DateError"
    case UnknownWarning => "UnknownWarning"
    case ParseError => "ParseError"
    case UnknownConstellation => "UnknownConstellation"
    case UnknownService => "UnknownService"
    case UnknownFrequency => "UnknownFrequency"
    case UnknownDatatype => "UnknownDatatype"
    case NotImplementedError => "NotImplemented"
    case FileError => "FileError"
    case TimeSystemWarning => "TimeSystemWarning"
    case UnknownConstellationCode => "UnknownConstellationCode"
    case OrbitError => "OrbitError"
    case FrameError => "FrameError"
    case FormError => "FormError"
    case ConfigError => "ConfigError"
    case UnimplementationError => "UnimplementationError"
    case TimeSeriesError => "TimeSeriesError"
    case NonExistentObservable => "NonExistentObservable"
    case PVTComputationFail => "PVTComputationFail"
    case PreprocessorError => "PreprocessorError"
    case EmptyObservationData => "EmptyObservationData"
    case UnknownConversion => "UnknownConversion"
    case Exception => "Exception"
    case Warning => "Warning"
    case ValueError => "ValueError"
    case TypeError => "TypeError"
    case LookupError => "LookupError"
    case KeyError => "KeyError"
    case IndexError => "IndexError"
    case AttributeError => "AttributeError"
    case ArithmeticError => "ArithmeticError"
    case ZeroDivisionError => "ZeroDivisionError"
    case RuntimeError => "RuntimeError"
    case RecursionError => "RecursionError"
  }

  /** The direct base class; `Exception` is the root of this hierarchy. */
  function Base(c: ErrorClass): Option<ErrorClass> {
    match c
    case Exception => None
    case PositioningSolverError => Some(Exception)
    case UnknownBase => Some(PositioningSolverError)
    case UnknownConstellation => Some(UnknownBase)
    case UnknownService => Some(UnknownBase)
    case UnknownFrequency => Some(UnknownBase)
    case UnknownDatatype => Some(UnknownBase)
    case UnknownWarning => Some(Warning)
    case TimeSystemWarning => Some(Warning)
    case UnknownConstellationCode => Some(Warning)
    case ParseError => Some(ValueError)
    case Warning => Some(Exception)
    case ValueError => Some(Exception)
    case TypeError => Some(Exception)
    case AttributeError => Some(Exception)
    case LookupError => Some(Exception)
    case KeyError => Some(LookupError)
    case IndexError => Some(LookupError)
    case ArithmeticError => Some(Exception)
    case ZeroDivisionError => Some(ArithmeticError)
    case RuntimeError => Some(Exception)
    case RecursionError => Some(RuntimeError)
    case _ => Some(PositioningSolverError)
  }

  /** Distance to the root, used as the termination measure of `DerivesFrom`. */
  function Depth(c: ErrorClass): nat {
    match Base(c)
    case None => 0
    case Some(b) =>
      if b.Exception? then 1
      else if b.PositioningSolverError? || b.Warning? || b.ValueError? || b.LookupError?
              || b.ArithmeticError? || b.RuntimeError? then 2
      else 3
  }

  lemma BaseIsShallower(c: ErrorClass)
    requires Base(c).Some?
    ensures Depth(Base(c).value) < Depth(c)
  {}

  datatype Option<+T> = None | Some(value: T)

  /** `issubclass(c, d)`. */
  predicate DerivesFrom(c: ErrorClass, d: ErrorClass)
    decreases Depth(c)
  {
    c == d || (Base(c).Some? && (BaseIsShallower(c); DerivesFrom(Base(c).value, d)))
  }

  /** The warning classes and ParseError are the only classes of utils/errors.py that do not
      derive from PositioningSolver; ParseError is a ValueError and the three others are Warnings. */
  lemma {:induction false} ErrorsHierarchy(c: ErrorClass)
    requires DeclaredInErrorsModule(c)
    ensures DerivesFrom(c, PositioningSolverError)
            <==> !(c.ParseError? || c.UnknownWarning? || c.TimeSystemWarning? || c.UnknownConstellationCode?)
    ensures c.ParseError? ==> DerivesFrom(c, ValueError)
    ensures (c.UnknownWarning? || c.TimeSystemWarning? || c.UnknownConstellationCode?) ==> DerivesFrom(c, Warning)
  {
    if c.ParseError? || c.UnknownWarning? || c.TimeSystemWarning? || c.UnknownConstellationCode? {
      var b := Base(c).value;
      assert !DerivesFrom(Base(b).value, PositioningSolverError);
    }
  }

  /** `_Unknown.type`: the class name without its first seven characters, lower-cased. */
  function UnknownType(c: ErrorClass): string
    requires DerivesFrom(c, UnknownBase)
  {
    TypeOfName(Name(c))
  }

  /** `name[7:].lower()` for a class name made of ASCII letters. */
  function TypeOfName(n: string): string {
    AsciiLower(if |n| >= 7 then n[7..] else "")
  }

  /** The type is as long as the class name past its seventh character, and is that part
      letter by letter lower-cased. */
  lemma TypeOfNameLowered(n: string)
    ensures |TypeOfName(n)| == if |n| >= 7 then |n| - 7 else 0
    ensures forall i :: 0 <= i < |TypeOfName(n)| ==>
              TypeOfName(n)[i] == if 'A' <= n[i + 7] <= 'Z' then (n[i + 7] as int + 32) as char else n[i + 7]
  {
    var tail := if |n| >= 7 then n[7..] else "";
    assert forall i :: 0 <= i < |tail| ==> tail[i] == n[i + 7];
  }

  /** `str(e)` of an `_Unknown` error built with argument `name`. */
  function UnknownStr(c: ErrorClass, name: string): string
    requires DerivesFrom(c, UnknownBase)
  {
    "Unknown " + UnknownType(c) + " '" + name + "'"
  }

  /** The messages of the four `_Unknown` subclasses, one lemma each: `str(UnknownService("XX"))`
      is "Unknown service 'XX'", and so on; their `type` is the lower-cased word after "Unknown". */
  lemma ConstellationMessage(n: string)
    ensures UnknownStr(UnknownConstellation, n) == "Unknown " + "constellation" + " '" + n + "'"
  {
    ConstellationType();
    MessageOf(UnknownConstellation, "constellation", n);
  }

  lemma ConstellationType()
    ensures UnknownType(UnknownConstellation) == "constellation"
  {
    TypeOf(UnknownConstellation, "Constellation", "constellation");
  }

  lemma ServiceMessage(n: string)
    ensures UnknownStr(UnknownService, n) == "Unknown " + "service" + " '" + n + "'"
  {
    ServiceType();
    MessageOf(UnknownService, "service", n);
  }

  lemma ServiceType()
    ensures UnknownType(UnknownService) == "service"
  {
    TypeOf(UnknownService, "Service", "service");
  }

  lemma FrequencyMessage(n: string)
    ensures UnknownStr(UnknownFrequency, n) == "Unknown " + "frequency" + " '" + n + "'"
  {
    FrequencyType();
    MessageOf(UnknownFrequency, "frequency", n);
  }

  lemma FrequencyType()
    ensures UnknownType(UnknownFrequency) == "frequency"
  {
    TypeOf(UnknownFrequency, "Frequency", "frequency");
  }

  lemma DatatypeMessage(n: string)
    ensures UnknownStr(UnknownDatatype, n) == "Unknown " + "datatype" + " '" + n + "'"
  {
    DatatypeType();
    MessageOf(UnknownDatatype, "datatype", n);
  }

  lemma DatatypeType()
    ensures UnknownType(UnknownDatatype) == "datatype"
  {
    TypeOf(UnknownDatatype, "Datatype", "datatype");
  }

  /** The message of an `_Unknown` class whose type is `lower`. */
  lemma MessageOf(c: ErrorClass, lower: string, n: string)
    requires DerivesFrom(c, UnknownBase) && UnknownType(c) == lower
    ensures UnknownStr(c, n) == "Unknown " + lower + " '" + n + "'"
  {
  }

  /** The type of a class whose name continues with `word` after its first seven characters. */
  lemma TypeOf(c: ErrorClass, word: string, lower: string)
    requires DerivesFrom(c, UnknownBase) && |Name(c)| >= 7 && Name(c)[7..] == word
    requires |lower| == |word|
    requires forall i :: 0 <= i < |word| ==>
               lower[i] == if 'A' <= word[i] <= 'Z' then (word[i] as int + 32) as char else word[i]
    ensures UnknownType(c) == lower
  {
    assert AsciiLower(word) == lower;
  }

  /** Lower-casing of ASCII letters (the only letters in class names). */
  function AsciiLower(s: string): (r: string)
    ensures |r| == |s|
    ensures forall i :: 0 <= i < |s| ==> r[i] == if 'A' <= s[i] <= 'Z' then (s[i] as int + 32) as char else s[i]
  {
    if s == [] then [] else
      [if 'A' <= s[0] <= 'Z' then (s[0] as int + 32) as char else s[0]] + AsciiLower(s[1..])
  }

  /** The value of an operation, or the exception it raises. */
  datatype Result<+T> = Ok(value: T) | Err(error: ErrorClass) {
    predicate IsFailure() { Err? }
    function PropagateFailure<U>(): Result<U> requires Err? { Err(error) }
    function Extract(): T requires Ok? { value }
  }

  /** The outcome of an operation that returns nothing. */
  datatype Outcome = Pass | Fail(error: ErrorClass) {
    predicate IsFailure() { Fail? }
    function PropagateFailure(): Outcome requires Fail? { this }
  }
}
