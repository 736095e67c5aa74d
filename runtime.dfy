/**
 * The run-time object model: values, environment frames
 * (Runtime/environment.py) and the language's lists, instances, functions
 * and classes (Runtime/Language_/language_*.py).
 *
 * Frames, lists and instances are updated in place, and closures share
 * frames, so they are objects. Every frame carries the name of the resolver
 * scope it stands for and the names of the whole chain it ends; these are
 * ghost and never influence a result.
 */
module Runtime {
  import opened Wrappers
  import opened Tokens
  import opened CTypes
  import opened Ast
  import opened Scopes

  /**
   * The type stored beside a value in a frame: a declared type, Python's
   * `None` (parameters and `this`), or `TokenType.NONE` (class names and
   * `super`).
   */
  datatype DeclType = Declared(ctype: CType) | Untyped | TokenNone

  /**
   * A Python value the interpreter manipulates. Python's bool is a subclass
   * of int; floats are kept as exact reals. `VRecord` is the
   * `environment.Variable` object an initializer returns; `VClock` is the
   * native `clock` object.
   */
  datatype Value =
    | VNone
    | VBool(b: bool)
    | VInt(i: int)
    | VFloat(r: real)
    | VStr(s: string)
    | VList(list: LanguageList)
    | VFunction(fn: LanguageFunction)
    | VClass(cls: LanguageClass)
    | VInstance(instance: LanguageInstance)
    | VRecord(rec: VariableRecord)
    | VClock

  /** The `(type_, value)` pair a frame stores for a name. */
  datatype Binding = Binding(declType: DeclType, item: Value)

  /**
   * A Python exception other than the language's RuntimeError.
   * `BuiltinRuntimeError` is Python's own RuntimeError: environment.py does
   * not import the language's class, so a lookup or assignment that misses
   * raises the builtin one, which `interpret` does not catch.
   */
  datatype PyError =
    | KeyError | AttributeError | ZeroDivisionError | TypeError | RecursionError
    | BuiltinRuntimeError(name: Token, message: string)

  /** What an operation raises: the language's RuntimeError (a token and a message) or a Python exception. */
  datatype Fault = RuntimeError(token: Token, message: string) | PythonError(kind: PyError)

  /** What `get` and `assign` raise for a name no frame of the chain holds (environment.py:19, :30). */
  function UndefinedVariable(name: Token): Fault
  {
    PythonError(BuiltinRuntimeError(name, "Undefined variable '" + name.lexeme + "'."))
  }

  /** The `environment.Variable` record: a snapshot of a binding. */
  class VariableRecord {
    const declType: DeclType
    const item: Value

    constructor (b: Binding)
      ensures declType == b.declType && item == b.item
    {
      declType := b.declType;
      item := b.item;
    }
  }

  /** A frame of the environment chain (environment.py:7-45). */
  class Environment {
    const enclosing: Environment?
    /** The resolver scope this frame stands for. */
    ghost const tag: Scope
    /** The scopes of the frames from the outermost one to this one. */
    ghost const chain: seq<Scope>
    /** The frames enclosing this one. */
    ghost const outer: set<Environment>
    var values: map<string, Binding>

    ghost predicate Linked()
      decreases |chain|
    {
      |chain| > 0 && chain[|chain| - 1] == tag &&
      if enclosing == null then |chain| == 1 && outer == {}
      else enclosing.chain == chain[..|chain| - 1] && outer == {enclosing} + enclosing.outer && enclosing.Linked()
    }

    constructor (enclosing: Environment?, ghost tag: Scope)
      requires enclosing != null ==> enclosing.Linked()
      ensures this.enclosing == enclosing && this.tag == tag && values == map[]
      ensures chain == (if enclosing == null then [] else enclosing.chain) + [tag]
      ensures Linked()
    {
      this.enclosing := enclosing;
      this.tag := tag;
      this.chain := (if enclosing == null then [] else enclosing.chain) + [tag];
      this.outer := if enclosing == null then {} else {enclosing} + enclosing.outer;
      values := map[];
    }

    /** The frames of the chain. */
    ghost function Footprint(): set<Environment>
    {
      {this} + outer
    }

    /**
     * The frame `distance` enclosing links out, or null when the chain is
     * too short; its chain is the matching prefix, so its tag is the scope
     * `distance` steps out from this frame's.
     */
    ghost function AncestorOf(distance: int): (r: Environment?)
      requires Linked()
      ensures r != null <==> distance < |chain|
      ensures r != null ==>
                r.Linked() && r in Footprint() && r.chain == chain[..|chain| - (if distance < 0 then 0 else distance)]
      decreases |chain|
    {
      if distance <= 0 then this
      else if enclosing == null then null
      else enclosing.AncestorOf(distance - 1)
    }

    /** One more step out is the enclosing frame of the previous one. */
    lemma {:induction false} AncestorStep(distance: nat)
      requires Linked() && AncestorOf(distance) != null
      ensures AncestorOf(distance + 1) == AncestorOf(distance).enclosing
      decreases |chain|
    {
      if distance > 0 {
        enclosing.AncestorStep(distance - 1);
      }
    }

    /** `ancestor`: follows exactly `distance` enclosing links; null stands for running off the chain. */
    method Ancestor(distance: int) returns (r: Environment?)
      requires Linked()
      ensures r == AncestorOf(distance)
    {
      r := this;
      if distance <= 0 {
        return;
      }
      var i := 0;
      while i < distance && r != null
        invariant 0 <= i <= distance
        invariant r == AncestorOf(i)
        invariant r == null ==> AncestorOf(distance) == null
      {
        AncestorStep(i);
        r := r.enclosing;
        i := i + 1;
      }
    }

    /**
     * How many frames out the nearest frame holding `name` is, if any: every
     * nearer frame lacks the name.
     */
    ghost function HolderDistance(name: string): (r: Option<nat>)
      requires Linked()
      reads Footprint()
      ensures r.Some? ==> r.value < |chain| && name in AncestorOf(r.value).values
      ensures r.Some? ==> forall k | 0 <= k < r.value :: name !in AncestorOf(k).values
      ensures r.None? ==> forall k | 0 <= k < |chain| :: name !in AncestorOf(k).values
      decreases |chain|
    {
      if name in values then Some(0)
      else if enclosing == null then None
      else
        var d := enclosing.HolderDistance(name);
        if d.Some? then Some(d.value + 1) else None
    }

    /** `get`: the entry of the nearest frame that has the name (environment.py:12-19). */
    method Get(name: Token) returns (r: Result<Binding, Fault>)
      requires Linked()
      ensures match HolderDistance(name.lexeme)
        case Some(d) => r == Success(AncestorOf(d).values[name.lexeme])
        case None => r == Failure(UndefinedVariable(name))
      decreases |chain|
    {
      if name.lexeme in values {
        return Success(values[name.lexeme]);
      }
      if enclosing != null {
        r := enclosing.Get(name);
        return;
      }
      return Failure(UndefinedVariable(name));
    }

    /**
     * `assign`: overwrites the entry of the nearest frame that has the name,
     * leaving every other frame as it was; no frame gains a name
     * (environment.py:21-30).
     */
    method Assign(name: Token, declType: DeclType, value: Value) returns (r: Outcome<Fault>)
      requires Linked()
      modifies Footprint()
      ensures match old(HolderDistance(name.lexeme))
        case Some(d) =>
          r == Pass &&
          AncestorOf(d).values == old(AncestorOf(d).values)[name.lexeme := Binding(declType, value)] &&
          forall e | e in Footprint() && e != AncestorOf(d) :: e.values == old(e.values)
        case None => r == Fail(UndefinedVariable(name)) && unchanged(Footprint())
      decreases |chain|
    {
      if name.lexeme in values {
        values := values[name.lexeme := Binding(declType, value)];
        return Pass;
      }
      if enclosing != null {
        r := enclosing.Assign(name, declType, value);
        return;
      }
      return Fail(UndefinedVariable(name));
    }

    /** `define`: writes this frame only, overwriting any entry (environment.py:32-33). */
    method Define(name: string, declType: DeclType, value: Value)
      modifies this
      ensures values == old(values)[name := Binding(declType, value)]
    {
      values := values[name := Binding(declType, value)];
    }

    /**
     * `get_at`: the entry in the ancestor's own map. Running off the chain
     * is Python's AttributeError; a missing name is a KeyError
     * (environment.py:41-42).
     */
    method GetAt(distance: int, name: string) returns (r: Result<Binding, Fault>)
      requires Linked()
      ensures var a := AncestorOf(distance);
        if a == null then r == Failure(PythonError(AttributeError))
        else if name !in a.values then r == Failure(PythonError(KeyError))
        else r == Success(a.values[name])
    {
      var a := Ancestor(distance);
      if a == null {
        return Failure(PythonError(AttributeError));
      }
      if name !in a.values {
        return Failure(PythonError(KeyError));
      }
      return Success(a.values[name]);
    }

    /** `assign_at`: writes the ancestor's own map and no other frame (environment.py:44-45). */
    method AssignAt(distance: int, name: Token, declType: DeclType, value: Value) returns (r: Outcome<Fault>)
      requires Linked()
      modifies Footprint()
      ensures var a := AncestorOf(distance);
        if a == null then r == Fail(PythonError(AttributeError)) && unchanged(Footprint())
        else (r == Pass && a.values == old(a.values)[name.lexeme := Binding(declType, value)] &&
              forall e | e in Footprint() && e != a :: e.values == old(e.values))
    {
      var a := Ancestor(distance);
      if a == null {
        return Fail(PythonError(AttributeError));
      }
      a.values := a.values[name.lexeme := Binding(declType, value)];
      return Pass;
    }
  }

  /** The language's array (language_list.py). */
  class LanguageList {
    var values: seq<Value>

    constructor ()
      ensures values == []
    {
      values := [];
    }

    method Append(value: Value)
      modifies this
      ensures values == old(values) + [value]
    {
      values := values + [value];
    }

    function Length(): nat
      reads this
    {
      |values|
    }

    /** The element at `index`, or None outside the list; never raises. */
    function GetEleAt(index: int): (r: Value)
      reads this
      ensures 0 <= index < |values| ==> r == values[index]
      ensures !(0 <= index < |values|) ==> r == VNone
    {
      if 0 <= index < |values| then values[index] else VNone
    }

    /**
     * `set_at_index`: at the length it appends, inside the list it replaces
     * one element, anywhere else it fails and changes nothing.
     */
    method SetAtIndex(index: int, value: Value) returns (ok: bool)
      modifies this
      ensures ok <==> 0 <= index <= old(|values|)
      ensures index == old(|values|) ==> values == old(values) + [value]
      ensures 0 <= index < old(|values|) ==> values == old(values)[index := value]
      ensures !ok ==> values == old(values)
    {
      if index == |values| {
        values := values[..index] + [value] + values[index..];
      } else if 0 <= index < |values| {
        values := values[index := value];
      } else {
        return false;
      }
      return true;
    }
  }

  /** An object of a user class (language_instance.py). */
  class LanguageInstance {
    const cls: LanguageClass
    var fields: map<string, Value>

    constructor (cls: LanguageClass)
      ensures this.cls == cls && fields == map[]
    {
      this.cls := cls;
      fields := map[];
    }

    /**
     * `get`: the instance's own field; otherwise the method found along the
     * class chain, bound to this instance; otherwise "Undefined property".
     */
    method Get(name: Token) returns (r: Result<Value, Fault>)
      requires cls.Linked() && cls.MethodsLinked()
      ensures name.lexeme in fields ==> r == Success(fields[name.lexeme])
      ensures name.lexeme !in fields && cls.FindMethod(name.lexeme).None? ==>
        r == Failure(RuntimeError(name, "Undefined property '" + name.lexeme + "'."))
      ensures name.lexeme !in fields && cls.FindMethod(name.lexeme).Some? ==>
        r.Success? && r.value.VFunction? && fresh(r.value.fn) && fresh(r.value.fn.closure) &&
        r.value.fn.IsBinding(cls.FindMethod(name.lexeme).value, VInstance(this))
    {
      if name.lexeme in fields {
        return Success(fields[name.lexeme]);
      }
      var found := cls.FindMethod(name.lexeme);
      if found.Some? {
        var bound := found.value.Bind(VInstance(this));
        return Success(VFunction(bound));
      }
      return Failure(RuntimeError(name, "Undefined property '" + name.lexeme + "'."));
    }

    /** `set`: overwrites just that field. */
    method Set(name: Token, value: Value)
      modifies this
      ensures fields == old(fields)[name.lexeme := value]
    {
      fields := fields[name.lexeme := value];
    }
  }

  /** A closure: a declaration and the frame it was created in (language_function.py). */
  class LanguageFunction {
    const declaration: FunctionDecl
    const closure: Environment
    const isInitializer: bool
    /** Where the declaration is in the program; the nodes of its body are keyed by positions below it. */
    const site: Path
    /** Whether this is a class's method that still needs `bind`, and the scope its `this` frame stands for. */
    ghost const unbound: bool
    ghost const bindScope: Scope

    constructor (declaration: FunctionDecl, closure: Environment, isInitializer: bool,
                 site: Path, ghost unbound: bool, ghost bindScope: Scope)
      ensures this.declaration == declaration && this.closure == closure && this.isInitializer == isInitializer
      ensures this.site == site && this.unbound == unbound && this.bindScope == bindScope
    {
      this.declaration := declaration;
      this.closure := closure;
      this.isInitializer := isInitializer;
      this.site := site;
      this.unbound := unbound;
      this.bindScope := bindScope;
    }

    function Arity(): nat
    {
      |declaration.params|
    }

    /**
     * This function is `unboundFn` bound to `instance`: same declaration,
     * initializer flag and site, and a closure that encloses the method's
     * closure, stands for its `this` scope and has exactly `this` defined.
     */
    ghost predicate IsBinding(unboundFn: LanguageFunction, instance: Value)
      reads closure
    {
      declaration == unboundFn.declaration && isInitializer == unboundFn.isInitializer &&
      site == unboundFn.site && !unbound &&
      closure.enclosing == unboundFn.closure && closure.tag == unboundFn.bindScope &&
      closure.Linked() && closure.chain == unboundFn.closure.chain + [unboundFn.bindScope] &&
      closure.values == map["this" := Binding(Untyped, instance)]
    }

    /** `bind` (language_function.py:13-16). */
    method Bind(instance: Value) returns (f: LanguageFunction)
      requires closure.Linked()
      ensures fresh(f) && fresh(f.closure) && f.IsBinding(this, instance)
    {
      var environment := new Environment(closure, bindScope);
      environment.Define("this", Untyped, instance);
      f := new LanguageFunction(declaration, environment, isInitializer, site, false, bindScope);
    }
  }

  /** A user class (language_class.py). */
  class LanguageClass {
    const name: string
    const superclass: LanguageClass?
    const methods: map<string, LanguageFunction>
    /** The length of the superclass chain above this class. */
    ghost const height: nat

    constructor (name: string, superclass: LanguageClass?, methods: map<string, LanguageFunction>)
      requires superclass != null ==> superclass.Linked()
      ensures this.name == name && this.superclass == superclass && this.methods == methods
      ensures Linked()
    {
      this.name := name;
      this.superclass := superclass;
      this.methods := methods;
      this.height := if superclass == null then 0 else superclass.height + 1;
    }

    ghost predicate Linked()
      decreases height
    {
      superclass != null ==> superclass.height < height && superclass.Linked()
    }

    /** This class and all its superclasses. */
    ghost function Lineage(): (r: set<LanguageClass>)
      requires Linked()
      ensures this in r && forall c | c in r :: c.Linked()
      decreases height
    {
      {this} + (if superclass == null then {} else superclass.Lineage())
    }

    /** Every method of the lineage has a closure frame in a well-formed chain. */
    ghost predicate MethodsLinked()
      requires Linked()
    {
      forall c, m | c in Lineage() && m in c.methods.Values :: m.closure.Linked()
    }

    /**
     * `find_method`: the class's own method shadows inherited ones; a method
     * is found exactly when some class of the lineage defines the name.
     */
    function FindMethod(name: string): (r: Option<LanguageFunction>)
      requires Linked()
      ensures name in methods ==> r == Some(methods[name])
      ensures r.Some? ==> exists c | c in Lineage() :: name in c.methods && c.methods[name] == r.value
      ensures r.None? <==> forall c | c in Lineage() :: name !in c.methods
      decreases height
    {
      if name in methods then Some(methods[name])
      else if superclass != null then superclass.FindMethod(name)
      else None
    }

    /** `arity`: the initializer's, or 0 without one. */
    function Arity(): nat
      requires Linked()
    {
      var initializer := FindMethod("init");
      if initializer.None? then 0 else initializer.value.Arity()
    }
  }
}
