/**
 * The helpers the interpreter uses for compound assignment and for the
 * subscript-write guard (Extensions/numeric.py, Extensions/string.py,
 * Extensions/custom_any.py).
 */
module Extensions {
  import opened Wrappers
  import opened Runtime

  /** The lambdas the interpreter hands to `perform_operation`. */
  datatype Operation = Add | Subtract | Multiply | Divide

  /** Python's `isinstance(v, int)`: bools are ints too. */
  predicate IsInt(v: Value)
  {
    v.VInt? || v.VBool?
  }

  function IntOf(v: Value): int
    requires IsInt(v)
  {
    if v.VBool? then (if v.b then 1 else 0) else v.i
  }

  /** The lambda applied to two ints; `/` is Python's true division. */
  function ApplyToInts(op: Operation, x: int, y: int): (r: Result<Value, PyError>)
    ensures r.Failure? <==> op == Divide && y == 0
    ensures r.Success? && op != Divide ==> r.value.VInt?
  {
    match op
    case Add => Success(VInt(x + y))
    case Subtract => Success(VInt(x - y))
    case Multiply => Success(VInt(x * y))
    case Divide => if y == 0 then Failure(ZeroDivisionError) else Success(VFloat(x as real / y as real))
  }

  function ApplyToFloats(op: Operation, x: real, y: real): (r: Result<Value, PyError>)
    ensures r.Failure? <==> op == Divide && y == 0.0
    ensures r.Success? ==> r.value.VFloat?
  {
    match op
    case Add => Success(VFloat(x + y))
    case Subtract => Success(VFloat(x - y))
    case Multiply => Success(VFloat(x * y))
    case Divide => if y == 0.0 then Failure(ZeroDivisionError) else Success(VFloat(x / y))
  }

  /**
   * `Numeric.perform_operation` (numeric.py:3-6), and `perform_comparison`,
   * which has the same body: the operation's outcome for two ints or two
   * floats, None for any other pair.
   */
  function NumericOperation(op: Operation, a: Value, b: Value): (r: Option<Result<Value, PyError>>)
    ensures r.Some? <==> (IsInt(a) && IsInt(b)) || (a.VFloat? && b.VFloat?)
  {
    if IsInt(a) && IsInt(b) then Some(ApplyToInts(op, IntOf(a), IntOf(b)))
    else if a.VFloat? && b.VFloat? then Some(ApplyToFloats(op, a.r, b.r))
    else None
  }

  /** An int never combines with a float, in either order. */
  lemma MixedKindsGiveNone(op: Operation, a: Value, b: Value)
    requires (IsInt(a) && b.VFloat?) || (a.VFloat? && IsInt(b))
    ensures NumericOperation(op, a, b).None?
  {
  }

  /**
   * Two ints, bools counting as 0 and 1, give the int sum, difference and
   * product; division gives their float quotient or raises on a zero
   * divisor.
   */
  lemma IntOperationKinds(op: Operation, a: Value, b: Value)
    requires IsInt(a) && IsInt(b)
    ensures var r := NumericOperation(op, a, b).value;
      && (op == Add ==> r == Success(VInt(IntOf(a) + IntOf(b))))
      && (op == Subtract ==> r == Success(VInt(IntOf(a) - IntOf(b))))
      && (op == Multiply ==> r == Success(VInt(IntOf(a) * IntOf(b))))
      && (op == Divide ==> (r.Failure? <==> IntOf(b) == 0))
      && (op == Divide && r.Success? ==> r.value.VFloat? && r.value.r * IntOf(b) as real == IntOf(a) as real)
    ensures a.VBool? ==> IntOf(a) == if a.b then 1 else 0
  {
  }

  /**
   * `String.perform_operation` (string.py:3-6): the operation applied to two
   * strings, None otherwise; of the four lambdas only `+` is defined on
   * Python strings, the others raise TypeError.
   */
  function StringOperation(op: Operation, a: Value, b: Value): (r: Option<Result<Value, PyError>>)
    ensures r.Some? <==> a.VStr? && b.VStr?
    ensures r.Some? ==> (r.value.Success? <==> op == Add)
    ensures r.Some? && op == Add ==> r.value.value == VStr(a.s + b.s)
  {
    if a.VStr? && b.VStr? then
      Some(if op == Add then Success(VStr(a.s + b.s)) else Failure(TypeError))
    else None
  }

  /** The type names `get_type` in custom_any.py gives the values the interpreter holds. */
  datatype Category = IntCategory | DoubleCategory | StringCategory

  /**
   * `get_type` (custom_any.py:9-19): "Int" for ints and bools, "Double" for
   * floats, "String" for strings, None for everything else. Run-time lists
   * are LanguageList objects, never Python lists, so they have no category.
   */
  function CategoryOf(v: Value): (r: Option<Category>)
    ensures r.None? <==> !(IsInt(v) || v.VFloat? || v.VStr?)
  {
    if IsInt(v) then Some(IntCategory)
    else if v.VFloat? then Some(DoubleCategory)
    else if v.VStr? then Some(StringCategory)
    else None
  }

  /** `can_be_casted_to_same_type`: the two categories are equal. */
  predicate SameCategory(a: Value, b: Value)
  {
    CategoryOf(a) == CategoryOf(b)
  }

  /** The guard is an equivalence on values. */
  lemma SameCategoryIsEquivalence(a: Value, b: Value, c: Value)
    ensures SameCategory(a, a)
    ensures SameCategory(a, b) ==> SameCategory(b, a)
    ensures SameCategory(a, b) && SameCategory(b, c) ==> SameCategory(a, c)
  {
  }

  /**
   * The guard passes exactly for two ints or bools, two floats, two
   * strings, or two values of no category at all (None, lists, objects):
   * an int never passes against a float.
   */
  lemma SameCategoryCases(a: Value, b: Value)
    ensures SameCategory(a, b) <==>
      || (IsInt(a) && IsInt(b))
      || (a.VFloat? && b.VFloat?)
      || (a.VStr? && b.VStr?)
      || (CategoryOf(a).None? && CategoryOf(b).None?)
  {
  }
}
