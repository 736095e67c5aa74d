/** Declared types of variables and functions (Runtime/Language_/c_type.py). */
module CTypes {

  datatype CType =
    | Int | String | Float | Double | Char | Bool
    | IntArray | StringArray | DoubleArray | FloatArray | CharArray | BoolArray
    | Void | NoneType

  /** The six scalar type names a declaration can start with. */
  const BaseNames: seq<string> := ["int", "string", "float", "double", "char", "bool"]

  /** Every key of the lookup table. */
  const TypeNames: set<string> :=
    {"int", "string", "float", "double", "char", "bool",
     "int[]", "string[]", "float[]", "double[]", "char[]", "bool[]", "void"}

  predicate IsScalar(c: CType)
  {
    c in {Int, String, Float, Double, Char, Bool}
  }

  /** The array variant of a scalar type. */
  function ArrayOf(c: CType): (r: CType)
    requires IsScalar(c)
  {
    match c
    case Int => IntArray
    case String => StringArray
    case Float => FloatArray
    case Double => DoubleArray
    case Char => CharArray
    case Bool => BoolArray
  }

  /** `CType.get_type`: a table lookup that falls back to NONE. */
  function GetType(s: string, isFunction: bool): (r: CType)
    ensures r == Void ==> isFunction && s == "void"
  {
    if s == "int" then Int
    else if s == "string" then String
    else if s == "float" then Float
    else if s == "double" then Double
    else if s == "char" then Char
    else if s == "bool" then Bool
    else if s == "int[]" then IntArray
    else if s == "string[]" then StringArray
    else if s == "float[]" then FloatArray
    else if s == "double[]" then DoubleArray
    else if s == "char[]" then CharArray
    else if s == "bool[]" then BoolArray
    else if s == "void" then (if isFunction then Void else NoneType)
    else NoneType
  }

  /** The name a non-sentinel type is written with; the partner of GetType. */
  function Name(c: CType): (s: string)
    requires c != Void && c != NoneType
  {
    match c
    case Int => "int"
    case String => "string"
    case Float => "float"
    case Double => "double"
    case Char => "char"
    case Bool => "bool"
    case IntArray => "int[]"
    case StringArray => "string[]"
    case FloatArray => "float[]"
    case DoubleArray => "double[]"
    case CharArray => "char[]"
    case BoolArray => "bool[]"
  }

  /** Each of the twelve names maps back to its own type, whatever the function flag. */
  lemma GetTypeOfName(c: CType, isFunction: bool)
    requires c != Void && c != NoneType
    ensures GetType(Name(c), isFunction) == c
  {
  }

  /** Distinct types have distinct names, so the table has no two entries for one name. */
  lemma NameInjective(a: CType, b: CType)
    requires a != Void && a != NoneType && b != Void && b != NoneType
    requires Name(a) == Name(b)
    ensures a == b
  {
    GetTypeOfName(a, false);
    GetTypeOfName(b, false);
  }

  /** `void` is a type only for functions. */
  lemma VoidOnlyForFunctions(isFunction: bool)
    ensures GetType("void", isFunction) == (if isFunction then Void else NoneType)
  {
  }

  /** A string that names no type maps to NONE, never to a missing value. */
  lemma UnknownNameIsNone(s: string, isFunction: bool)
    requires s !in TypeNames
    ensures GetType(s, isFunction) == NoneType
  {
  }

  /** Appending `[]` to a base name yields the array variant of its type. */
  lemma ArrayNameIsArrayType(i: nat, isFunction: bool)
    requires i < |BaseNames|
    ensures IsScalar(GetType(BaseNames[i], isFunction))
    ensures GetType(BaseNames[i] + "[]", isFunction) == ArrayOf(GetType(BaseNames[i], isFunction))
  {
    var arrays := ["int[]", "string[]", "float[]", "double[]", "char[]", "bool[]"];
    assert BaseNames[i] + "[]" == arrays[i];
  }
}
