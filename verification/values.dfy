/**
 * Runtime values, their display text and the Calculator, which type-checks
 * the operands of a binary operator by the operator and then computes.
 */
module Values {
  import opened Wrappers
  import opened Errors

  /**
   * The runtime values. `NoValue` is the null reference that `print` returns:
   * it can be stored and passed around, but asking it for its type or its text fails.
   */
  datatype Value =
    | Num(n: real)
    | Bool(b: bool)
    | Nil
    | PrintFn
    | NoValue

  /** The runtime class of a value (`GetType()`); the null reference has none. */
  datatype Class = NumberClass | BoolClass | NullClass | FunctionClass

  function ClassOf(v: Value): (r: Result<Class, Error>)
    ensures r.Err? <==> v.NoValue?
    ensures r.Err? ==> r.error == InternalError(NullReference)
    ensures r.Ok? ==> (r.value == NumberClass <==> v.Num?) && (r.value == BoolClass <==> v.Bool?)
  {
    match v
    case Num(_) => Ok(NumberClass)
    case Bool(_) => Ok(BoolClass)
    case Nil => Ok(NullClass)
    case PrintFn => Ok(FunctionClass)
    case NoValue => Err(InternalError(NullReference))
  }

  /**
   * `ToString()`: a number's text comes from the culture-dependent formatter `fmt`,
   * a Boolean reads `True` or `False`, `nil` and `print` name themselves.
   */
  function Display(v: Value, fmt: real -> string): (r: Result<string, Error>)
    ensures r.Err? <==> v.NoValue?
    ensures r.Err? ==> r.error == InternalError(NullReference)
    ensures v.Num? ==> r == Ok(fmt(v.n))
    ensures v.Bool? ==> r == Ok(if v.b then "True" else "False")
    ensures v.Nil? ==> r == Ok("nil")
    ensures v.PrintFn? ==> r == Ok("print")
  {
    match v
    case Num(x) => Ok(fmt(x))
    case Bool(b) => Ok(if b then "True" else "False")
    case Nil => Ok("nil")
    case PrintFn => Ok("print")
    case NoValue => Err(InternalError(NullReference))
  }

  /** Operators whose operands must both be numbers. */
  const NumberOps: set<string> := {"+", "-", "*", "/", "<", ">", "<=", ">="}

  /** Operators whose operands must be two numbers or two Booleans. */
  const EqualityOps: set<string> := {"==", "!="}

  /**
   * `assert_types(true, allowed...)`: both operands must have the same class,
   * and that class must be one of `allowed`. Asking the null reference for its
   * class fails first.
   */
  function CheckTypes(a: Value, b: Value, allowed: set<Class>): (r: Option<Error>)
    ensures r.None? <==>
      !a.NoValue? && !b.NoValue? && ClassOf(a) == ClassOf(b) && ClassOf(a).value in allowed
    ensures r.Some? && (a.NoValue? || b.NoValue?) ==> r.value == InternalError(NullReference)
    ensures r.Some? && !a.NoValue? && !b.NoValue? ==> r.value == TypeError(IncompatibleTypes)
  {
    if a.NoValue? || b.NoValue? then Some(InternalError(NullReference))
    else if ClassOf(a) != ClassOf(b) then Some(TypeError(IncompatibleTypes))
    else if ClassOf(a).value !in allowed then Some(TypeError(IncompatibleTypes))
    else None
  }

  /** Both operands are numbers, or both are Booleans. */
  predicate SameComparable(a: Value, b: Value)
  {
    (a.Num? && b.Num?) || (a.Bool? && b.Bool?)
  }

  /**
   * `exec_calculation`: the operator selects the type check and the computation.
   * `<=` and `>=` both compute `<`. A division by zero, whose IEEE result is not
   * modelled, is reported as a failure.
   */
  function Calculate(a: Value, b: Value, op: string): (r: Result<Value, Error>)
    ensures r.Ok? <==>
      (op in NumberOps && a.Num? && b.Num? && (op == "/" ==> b.n != 0.0)) ||
      (op in EqualityOps && SameComparable(a, b))
    ensures r.Ok? && op in {"+", "-", "*", "/"} ==> r.value.Num?
    ensures r.Ok? && op in {"<", ">", "<=", ">=", "==", "!="} ==> r.value.Bool?
    ensures op !in NumberOps && op !in EqualityOps ==> r == Err(InternalError(UnknownOperator(op)))
  {
    if op in NumberOps then
      if CheckTypes(a, b, {NumberClass}).Some? then Err(CheckTypes(a, b, {NumberClass}).value)
      else Arithmetic(a.n, b.n, op)
    else if op in EqualityOps then
      if CheckTypes(a, b, {NumberClass, BoolClass}).Some? then Err(CheckTypes(a, b, {NumberClass, BoolClass}).value)
      else
        var same := if a.Num? then a.n == b.n else a.b == b.b;
        Ok(Bool(if op == "==" then same else !same))
    else
      Err(InternalError(UnknownOperator(op)))
  }

  /** The number cases of `exec_calculation`, on two numbers. */
  function Arithmetic(x: real, y: real, op: string): (r: Result<Value, Error>)
    requires op in NumberOps
    ensures r.Err? <==> op == "/" && y == 0.0
    ensures r.Ok? && op in {"+", "-", "*", "/"} ==> r.value.Num?
    ensures r.Ok? && op in {"<", ">", "<=", ">="} ==> r.value.Bool?
  {
    match op
    case "+" => Ok(Num(x + y))
    case "-" => Ok(Num(x - y))
    case "*" => Ok(Num(x * y))
    case "/" => if y == 0.0 then Err(NonFiniteArithmetic) else Ok(Num(x / y))
    case "<" => Ok(Bool(x < y))
    case ">" => Ok(Bool(x > y))
    case "<=" => Ok(Bool(x < y))
    case _ => Ok(Bool(x < y))
  }

  // ---------------------------------------------------------------------------
  // Properties of the Calculator
  // ---------------------------------------------------------------------------

  /** The arithmetic operators compute the real-number operation. */
  lemma ArithmeticOnNumbers(x: real, y: real)
    ensures Calculate(Num(x), Num(y), "+") == Ok(Num(x + y))
    ensures Calculate(Num(x), Num(y), "-") == Ok(Num(x - y))
    ensures Calculate(Num(x), Num(y), "*") == Ok(Num(x * y))
    ensures y != 0.0 ==> Calculate(Num(x), Num(y), "/") == Ok(Num(x / y))
    ensures Calculate(Num(x), Num(y), "<") == Ok(Bool(x < y))
    ensures Calculate(Num(x), Num(y), ">") == Ok(Bool(x > y))
  {
  }

  /** `<=` and `>=` are both computed as `<`: `2 <= 2` is false and `3 >= 2` is false. */
  lemma LessOrEqualIsLess(a: Value, b: Value)
    ensures Calculate(a, b, "<=") == Calculate(a, b, "<")
    ensures Calculate(a, b, ">=") == Calculate(a, b, "<")
  {
  }

  lemma LessOrEqualQuirk()
    ensures Calculate(Num(2.0), Num(2.0), "<=") == Ok(Bool(false))
    ensures Calculate(Num(3.0), Num(2.0), ">=") == Ok(Bool(false))
  {
    LessOrEqualIsLess(Num(2.0), Num(2.0));
    LessOrEqualIsLess(Num(3.0), Num(2.0));
  }

  /**
   * `==` compares two numbers or two Booleans by payload, and `!=` always gives
   * the opposite answer, or the same failure.
   */
  lemma NotEqualNegatesEqual(a: Value, b: Value)
    ensures Calculate(a, b, "==").Ok? <==> Calculate(a, b, "!=").Ok?
    ensures Calculate(a, b, "==").Err? ==> Calculate(a, b, "==") == Calculate(a, b, "!=")
    ensures Calculate(a, b, "==").Ok? ==>
      Calculate(a, b, "==") == Ok(Bool(a == b)) && Calculate(a, b, "!=") == Ok(Bool(a != b))
  {
  }

  /** Equality on numbers and Booleans is reflexive; nothing else can be compared. */
  lemma EqualityReflexive(v: Value)
    ensures Calculate(v, v, "==") == (if v.Num? || v.Bool? then Ok(Bool(true)) else
      if v.NoValue? then Err(InternalError(NullReference)) else Err(TypeError(IncompatibleTypes)))
  {
  }

  /** Operands of different classes never pass a type check: a number is never equal to a Boolean. */
  lemma MixedOperandsIncompatible(x: real, b: bool, op: string)
    requires op in NumberOps || op in EqualityOps
    ensures Calculate(Num(x), Bool(b), op) == Err(TypeError(IncompatibleTypes))
    ensures Calculate(Bool(b), Num(x), op) == Err(TypeError(IncompatibleTypes))
  {
  }

  /** The operator is looked at before the operands: an unknown operator fails even on null operands. */
  lemma UnknownOperatorFirst(a: Value, b: Value, op: string)
    requires op !in NumberOps && op !in EqualityOps
    ensures Calculate(a, b, op) == Err(InternalError(UnknownOperator(op)))
  {
  }

  /** For a known operator, a null operand makes the type check itself fail. */
  lemma NullOperandFails(a: Value, b: Value, op: string)
    requires op in NumberOps || op in EqualityOps
    requires a.NoValue? || b.NoValue?
    ensures Calculate(a, b, op) == Err(InternalError(NullReference))
  {
  }
}
