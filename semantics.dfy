/**
 * The pure helpers of the interpreter (Runtime/interpreter.py): the dynamic
 * type check, compound assignment, truthiness, equality, the operators and
 * the text `print` shows.
 */
module Semantics {
  import opened Wrappers
  import opened Tokens
  import opened CTypes
  import opened AssignTypes
  import opened Runtime
  import opened Extensions

  predicate IsIntegral(r: real)
  {
    r == r.Floor as real
  }

  /** `can_convert_to_int` (interpreter.py:22-27): ints, bools and integral floats. */
  predicate CanConvertToInt(v: Value)
  {
    IsInt(v) || (v.VFloat? && IsIntegral(v.r))
  }

  /** Python's `int(v)` on a value `can_convert_to_int` accepts. */
  function ToInt(v: Value): (r: int)
    requires CanConvertToInt(v)
    ensures v.VFloat? ==> r as real == v.r
  {
    if IsInt(v) then IntOf(v) else v.r.Floor
  }

  /** The error `throw_wrong_type` builds. */
  function WrongType(token: Token): Fault
  {
    RuntimeError(token, "Value does not match variable's type")
  }

  /** What an element of an array of declared type `c` must be (interpreter.py:132-146). */
  predicate ElementFits(c: CType, v: Value)
  {
    match c
    case IntArray => CanConvertToInt(v)
    case StringArray => v.VStr?
    case DoubleArray => v.VFloat?
    case FloatArray => v.VFloat?
    case CharArray => v.VStr? && |v.s| == 1
    case BoolArray => v.VBool?
    case _ => false
  }

  predicate IsArrayType(c: CType)
  {
    c in {IntArray, StringArray, DoubleArray, FloatArray, CharArray, BoolArray}
  }

  /**
   * `check_type` (interpreter.py:113-150): whether `value` may be stored
   * under `t`. A list is checked element by element, so the list object is
   * read.
   */
  predicate Fits(t: DeclType, v: Value)
    reads if v.VList? then {v.list} else {}
  {
    if v.VNone? then true
    else if !t.Declared? then false
    else match t.ctype
      case Int => CanConvertToInt(v)
      case Float => v.VFloat?
      case Double => v.VFloat?
      case String => v.VStr?
      case Char => v.VStr? && |v.s| == 1
      case Bool => v.VBool?
      case Void => true
      case NoneType => true
      case _ => v.VList? && forall i | 0 <= i < |v.list.values| :: ElementFits(t.ctype, v.list.values[i])
  }

  /** The type given to parameters and `this`, and the one given to class names, accept nothing but None. */
  lemma OnlyNoneFitsUndeclared(v: Value)
    ensures Fits(Untyped, v) <==> v.VNone?
    ensures Fits(TokenNone, v) <==> v.VNone?
  {
  }

  /** An array type accepts exactly the lists whose elements all satisfy the scalar rule and are not None. */
  lemma {:induction false} ArrayRuleIsScalarRule(c: CType, l: LanguageList)
    requires IsScalar(c)
    ensures Fits(Declared(ArrayOf(c)), VList(l)) <==>
      forall i | 0 <= i < |l.values| :: !l.values[i].VNone? && Fits(Declared(c), l.values[i])
  {
    if c.Int? {
      assert forall v: Value :: !v.VNone? && Fits(Declared(c), v) <==> ElementFits(IntArray, v);
    }
  }

  /**
   * The numeric declarations: INT accepts None and exactly the values that
   * convert to an int without loss (bools and integral floats included);
   * FLOAT and DOUBLE accept None and floats, never an int or a bool.
   */
  lemma NumericDeclarations(v: Value)
    ensures Fits(Declared(Int), v) <==> v.VNone? || (IsNumber(v) && NumberOf(v) == NumberOf(v).Floor as real)
    ensures Fits(Declared(Float), v) <==> v.VNone? || v.VFloat?
    ensures Fits(Declared(Double), v) <==> v.VNone? || v.VFloat?
  {
  }

  function Lift(r: Result<Value, PyError>): Result<Value, Fault>
  {
    match r
    case Success(v) => Success(v)
    case Failure(e) => Failure(PythonError(e))
  }

  /** A compound assignment's numeric outcome, or the type error. */
  function NumericOrWrongType(op: Operation, token: Token, previous: Value, newValue: Value): Result<Value, Fault>
  {
    match NumericOperation(op, previous, newValue)
    case Some(x) => Lift(x)
    case None => Failure(WrongType(token))
  }

  /**
   * `handle_assigning` (interpreter.py:80-111): the value an assignment
   * stores; None when either operand is None, and None for the assignment
   * type that names no operator.
   */
  function HandleAssigning(t: AssignType, token: Token, previous: Value, newValue: Value): (r: Result<Value, Fault>)
  {
    if newValue.VNone? || previous.VNone? then Success(VNone)
    else match t
      case PlainAssign => Success(newValue)
      case PlusAssign =>
        (match NumericOperation(Add, previous, newValue)
         case Some(x) => Lift(x)
         case None =>
           match StringOperation(Add, previous, newValue)
           case Some(x) => Lift(x)
           case None => Failure(WrongType(token)))
      case MinusAssign => NumericOrWrongType(Subtract, token, previous, newValue)
      case SlashAssign => NumericOrWrongType(Divide, token, previous, newValue)
      case StarAssign => NumericOrWrongType(Multiply, token, previous, newValue)
      case NoAssign => Success(VNone)
  }

  /** Two values of the same numeric kind: both ints (bools included) or both floats. */
  predicate SameKindNumbers(a: Value, b: Value)
  {
    (IsInt(a) && IsInt(b)) || (a.VFloat? && b.VFloat?)
  }

  /** A None operand makes any assignment store None. */
  lemma NoneOperandStoresNone(t: AssignType, token: Token, previous: Value, newValue: Value)
    requires previous.VNone? || newValue.VNone?
    ensures HandleAssigning(t, token, previous, newValue) == Success(VNone)
  {
  }

  /** `+=` succeeds exactly on two numbers of one kind or two strings, and then concatenates strings. */
  lemma PlusAssignAccepts(token: Token, previous: Value, newValue: Value)
    requires !previous.VNone? && !newValue.VNone?
    ensures HandleAssigning(PlusAssign, token, previous, newValue).Success? <==>
      SameKindNumbers(previous, newValue) || (previous.VStr? && newValue.VStr?)
    ensures previous.VStr? && newValue.VStr? ==>
      HandleAssigning(PlusAssign, token, previous, newValue) == Success(VStr(previous.s + newValue.s))
  {
  }

  /** `-=`, `*=` and `/=` need two numbers of one kind; otherwise they raise the type error. */
  lemma OtherCompoundAssignsNeedNumbers(t: AssignType, token: Token, previous: Value, newValue: Value)
    requires t in {MinusAssign, StarAssign, SlashAssign}
    requires !previous.VNone? && !newValue.VNone? && !SameKindNumbers(previous, newValue)
    ensures HandleAssigning(t, token, previous, newValue) == Failure(WrongType(token))
  {
  }

  /** `is_truthy` (interpreter.py:172-177): only None and False are falsy. */
  predicate IsTruthy(v: Value)
  {
    if v.VNone? then false
    else if v.VBool? then v.b
    else true
  }

  predicate IsNumber(v: Value)
  {
    IsInt(v) || v.VFloat?
  }

  function NumberOf(v: Value): real
    requires IsNumber(v)
  {
    if v.VFloat? then v.r else IntOf(v) as real
  }

  /**
   * `is_equal` (interpreter.py:179-184): None equals only None; otherwise
   * Python's `==`, which compares numbers by value across bool, int and
   * float, strings by content, and objects by identity.
   */
  predicate IsEqual(a: Value, b: Value)
  {
    if a.VNone? && b.VNone? then true
    else if a.VNone? then false
    else if IsNumber(a) && IsNumber(b) then NumberOf(a) == NumberOf(b)
    else if a.VStr? && b.VStr? then a.s == b.s
    else a == b
  }

  /** Equality is an equivalence, and None is equal to nothing but None, on either side. */
  lemma IsEqualIsEquivalence(a: Value, b: Value, c: Value)
    ensures IsEqual(a, a)
    ensures IsEqual(a, b) ==> IsEqual(b, a)
    ensures IsEqual(a, b) && IsEqual(b, c) ==> IsEqual(a, c)
    ensures IsEqual(VNone, b) <==> b.VNone?
    ensures IsEqual(a, VNone) <==> a.VNone?
  {
  }

  /**
   * Numbers compare by value across bool, int and float; strings by their
   * text; a number never equals a string.
   */
  lemma NumbersCompareByValue(a: Value, b: Value)
    ensures IsNumber(a) && IsNumber(b) ==> (IsEqual(a, b) <==> NumberOf(a) == NumberOf(b))
    ensures a.VStr? && b.VStr? ==> (IsEqual(a, b) <==> a.s == b.s)
    ensures IsNumber(a) && b.VStr? ==> !IsEqual(a, b) && !IsEqual(b, a)
  {
  }

  /** The arithmetic and ordering operators of a binary expression. */
  predicate IsArithmeticOrOrdering(k: TokenType)
  {
    k in {Greater, GreaterEqual, Less, LessEqual, Minus, Plus, Slash, Star}
  }

  function OperationOf(k: TokenType): Operation
    requires k in {Minus, Plus, Slash, Star}
  {
    match k
    case Minus => Subtract
    case Plus => Add
    case Slash => Divide
    case Star => Multiply
  }

  /**
   * The result of `visit_binary_expr` (interpreter.py:263-293) once both
   * operands are evaluated: `==` and `!=` use `is_equal`; every other
   * operator first requires two numbers of one kind.
   */
  function BinaryOperation(operator: Token, left: Value, right: Value): (r: Result<Value, Fault>)
  {
    var k := operator.kind;
    if k == BangEqual then Success(VBool(!IsEqual(left, right)))
    else if k == EqualEqual then Success(VBool(IsEqual(left, right)))
    else if !IsArithmeticOrOrdering(k) then Success(VNone)
    else if !SameKindNumbers(left, right) then Failure(RuntimeError(operator, "Operands must be numbers."))
    else if k == Greater then Success(VBool(NumberOf(left) > NumberOf(right)))
    else if k == GreaterEqual then Success(VBool(NumberOf(left) >= NumberOf(right)))
    else if k == Less then Success(VBool(NumberOf(left) < NumberOf(right)))
    else if k == LessEqual then Success(VBool(NumberOf(left) <= NumberOf(right)))
    else Lift(NumericOperation(OperationOf(k), left, right).value)
  }

  /** `==` and `!=` never raise and are each other's negation. */
  lemma EqualityNeverRaises(operator: Token, other: Token, left: Value, right: Value)
    requires operator.kind == EqualEqual && other.kind == BangEqual
    ensures BinaryOperation(operator, left, right).Success?
    ensures BinaryOperation(other, left, right).Success?
    ensures BinaryOperation(operator, left, right).value.b == !BinaryOperation(other, left, right).value.b
  {
  }

  /** An arithmetic or ordering operator raises "Operands must be numbers." exactly on operands of different kinds. */
  lemma OperatorsNeedSameKindNumbers(operator: Token, left: Value, right: Value)
    requires IsArithmeticOrOrdering(operator.kind)
    ensures BinaryOperation(operator, left, right) == Failure(RuntimeError(operator, "Operands must be numbers.")) <==>
      !SameKindNumbers(left, right)
  {
  }

  /** `+` on two strings fails the number check. */
  lemma StringPlusFails(operator: Token, a: string, b: string)
    requires operator.kind == Plus
    ensures BinaryOperation(operator, VStr(a), VStr(b)).Failure?
  {
  }

  /** `visit_unary_expr` (interpreter.py:348-356) once the operand is evaluated. */
  function UnaryOperation(operator: Token, right: Value): (r: Result<Value, Fault>)
    ensures operator.kind == Bang ==> r == Success(VBool(!IsTruthy(right)))
    ensures operator.kind == Minus ==> (r.Success? <==> IsNumber(right))
    ensures operator.kind == Minus && r.Success? ==> IsNumber(r.value) && NumberOf(r.value) == -NumberOf(right)
  {
    if operator.kind == Bang then Success(VBool(!IsTruthy(right)))
    else if operator.kind == Minus then
      if IsInt(right) then Success(VInt(-IntOf(right)))
      else if right.VFloat? then Success(VFloat(-right.r))
      else Failure(RuntimeError(operator, "Operand must be a number."))
    else Success(VNone)
  }

  function DigitChar(d: nat): char
    requires d < 10
  {
    "0123456789"[d]
  }

  /** Python's `str` of a natural number. */
  function NatText(n: nat): (s: string)
    ensures |s| > 0 && DigitsOnly(s)
    decreases n
  {
    if n < 10 then [DigitChar(n)] else NatText(n / 10) + [DigitChar(n % 10)]
  }

  predicate DigitsOnly(s: string)
  {
    forall i | 0 <= i < |s| :: '0' <= s[i] <= '9'
  }

  /** The value of a string of decimal digits. */
  function DigitsValue(s: string): nat
    requires DigitsOnly(s)
  {
    if s == [] then 0 else 10 * DigitsValue(s[..|s| - 1]) + (s[|s| - 1] - '0') as nat
  }

  /** Reading the digits back gives the number. */
  lemma {:induction false} NatTextRoundTrip(n: nat)
    ensures DigitsValue(NatText(n)) == n
    decreases n
  {
    if n >= 10 {
      NatTextRoundTrip(n / 10);
      var s := NatText(n);
      assert s[..|s| - 1] == NatText(n / 10);
    }
  }

  /** Python's `str` of an int. */
  function IntText(i: int): string
  {
    if i < 0 then "-" + NatText(-i) else NatText(i)
  }

  /** What `stringify` shows for the float branch: `str` of the float, without a trailing ".0". */
  function FloatText(text: string): (r: string)
    ensures |text| >= 2 && text[|text| - 2..] == ".0" ==> r + ".0" == text
    ensures r == text || r + ".0" == text
  {
    if |text| >= 2 && text[|text| - 2..] == ".0" then text[..|text| - 2] else text
  }

  /**
   * `stringify` (interpreter.py:186-212). `floatText` is Python's `str` on
   * floats. A list is shown as its elements joined by ", " inside brackets;
   * nesting deeper than `limit` lists raises RecursionError, as Python's
   * recursion limit does on a list that contains itself.
   */
  function Stringify(v: Value, limit: nat, floatText: real -> string): (r: Result<string, PyError>)
    reads *
    ensures !v.VList? ==> r.Success?
    ensures v.VList? && limit == 0 ==> r == Failure(RecursionError)
    ensures v.VList? && r.Success? ==> |r.value| >= 2 && r.value[0] == '[' && r.value[|r.value| - 1] == ']'
    ensures v.VList? && limit > 0 && (forall i | 0 <= i < |v.list.values| :: !v.list.values[i].VList?) ==> r.Success?
    decreases limit, 0
  {
    match v
    case VNone => Success("nil")
    case VFloat(x) => Success(FloatText(floatText(x)))
    case VInt(i) => Success(IntText(i))
    case VBool(b) => Success(if b then "True" else "False")
    case VStr(s) => Success(s)
    case VFunction(f) => Success("<fn " + f.declaration.name.lexeme + ">")
    case VClass(c) => Success("<class " + c.name + ">")
    case VList(l) =>
      if limit == 0 then Failure(RecursionError)
      else
        var items :- StringifyItems(l.values, limit - 1, floatText);
        Success("[" + items + "]")
    case _ => Success("stringify: cannot recognize type")
  }

  /** The elements' texts joined by ", ". */
  function StringifyItems(values: seq<Value>, limit: nat, floatText: real -> string): (r: Result<string, PyError>)
    reads *
    ensures (forall i | 0 <= i < |values| :: !values[i].VList?) ==> r.Success?
    decreases limit, 1 + |values|
  {
    if values == [] then Success("")
    else
      var init :- StringifyItems(values[..|values| - 1], limit, floatText);
      var last :- Stringify(values[|values| - 1], limit, floatText);
      Success(init + (if |values| > 1 then ", " else "") + last)
  }

  /** Texts joined with ", " between neighbours, the way `stringify` lays out a list's elements. */
  function JoinTexts(texts: seq<string>): string
  {
    if |texts| == 0 then "" else if |texts| == 1 then texts[0] else texts[0] + ", " + JoinTexts(texts[1..])
  }

  /** Joining one more text adds a separator and the text at the end. */
  lemma {:induction false} JoinTextsSnoc(texts: seq<string>, last: string)
    ensures JoinTexts(texts + [last]) == JoinTexts(texts) + (if |texts| > 0 then ", " else "") + last
    decreases |texts|
  {
    if |texts| > 1 {
      assert (texts + [last])[1..] == texts[1..] + [last];
      JoinTextsSnoc(texts[1..], last);
    } else if |texts| == 1 {
      assert (texts + [last])[1..] == [last];
    }
  }

  /** The elements' texts, when each of them has one, joined by ", ". */
  lemma {:induction false} StringifyItemsJoins(values: seq<Value>, limit: nat, floatText: real -> string, texts: seq<string>)
    requires |texts| == |values|
    requires forall i | 0 <= i < |values| :: Stringify(values[i], limit, floatText) == Success(texts[i])
    ensures StringifyItems(values, limit, floatText) == Success(JoinTexts(texts))
    decreases |values|
  {
    if values != [] {
      var n := |values| - 1;
      StringifyItemsJoins(values[..n], limit, floatText, texts[..n]);
      JoinTextsSnoc(texts[..n], texts[n]);
      assert texts[..n] + [texts[n]] == texts;
    }
  }

  /** One element without a text leaves the whole list without one. */
  lemma {:induction false} StringifyItemsFails(values: seq<Value>, limit: nat, floatText: real -> string, k: nat)
    requires k < |values| && Stringify(values[k], limit, floatText).Failure?
    ensures StringifyItems(values, limit, floatText).Failure?
    decreases |values|
  {
    if k < |values| - 1 {
      StringifyItemsFails(values[..|values| - 1], limit, floatText, k);
    }
  }

  /**
   * A list is shown as its elements' texts, each one level deeper, joined
   * by ", " between brackets; it has no text when one of its elements has
   * none.
   */
  lemma StringifyList(l: LanguageList, limit: nat, floatText: real -> string, texts: seq<string>)
    requires limit > 0 && |texts| == |l.values|
    requires forall i | 0 <= i < |l.values| :: Stringify(l.values[i], limit - 1, floatText) == Success(texts[i])
    ensures Stringify(VList(l), limit, floatText) == Success("[" + JoinTexts(texts) + "]")
  {
    StringifyItemsJoins(l.values, limit - 1, floatText, texts);
  }

  lemma StringifyListFails(l: LanguageList, limit: nat, floatText: real -> string, k: nat)
    requires limit > 0 && k < |l.values| && Stringify(l.values[k], limit - 1, floatText).Failure?
    ensures Stringify(VList(l), limit, floatText).Failure?
  {
    StringifyItemsFails(l.values, limit - 1, floatText, k);
  }

  /**
   * The text of every value that is not a list: "nil", Python's `str` of
   * a bool (the int branch comes first), the decimal digits of an int, the
   * float's text without a trailing ".0", the string itself, the
   * function's and the class's `__str__`, and the fallback message for
   * instances and anything else.
   */
  lemma StringifyScalars(v: Value, limit: nat, floatText: real -> string)
    requires !v.VList?
    ensures var r := Stringify(v, limit, floatText);
      && (v.VNone? ==> r == Success("nil"))
      && (v.VBool? ==> r == Success(if v.b then "True" else "False"))
      && (v.VInt? && v.i >= 0 ==> DigitsOnly(r.value) && DigitsValue(r.value) == v.i)
      && (v.VInt? && v.i < 0 ==> |r.value| > 1 && r.value[0] == '-' && DigitsOnly(r.value[1..]) && DigitsValue(r.value[1..]) == -v.i)
      && (v.VFloat? ==> r.value == floatText(v.r) || r.value + ".0" == floatText(v.r))
      && (v.VStr? ==> r == Success(v.s))
      && (v.VFunction? ==> r == Success("<fn " + v.fn.declaration.name.lexeme + ">"))
      && (v.VClass? ==> r == Success("<class " + v.cls.name + ">"))
      && (v.VInstance? || v.VRecord? || v.VClock? ==> r == Success("stringify: cannot recognize type"))
  {
    if v.VInt? {
      if v.i >= 0 {
        NatTextRoundTrip(v.i);
      } else {
        NatTextRoundTrip(-v.i);
        assert ("-" + NatText(-v.i))[1..] == NatText(-v.i);
      }
    }
  }
}
