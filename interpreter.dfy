/**
 * The tree-walking evaluator (Runtime/interpreter.py) with the calls of
 * functions and classes (Runtime/Language_/language_function.py and
 * language_class.py).
 *
 * The interpreter runs the node at position `p` only in a frame whose chain
 * of scope names is the one the resolver recorded for `p`. With the
 * resolver's depths this makes every resolved reference land, through
 * `ancestor`, in the frame of the scope the resolver bound it in.
 *
 * Python exceptions become `Flow` values: `Returning` is the
 * ReturnException, `Raised` any other exception. Calls and loop iterations
 * spend fuel; running out of it is an outcome of the model only.
 */
module Interpreting {
  import opened Wrappers
  import opened Tokens
  import opened CTypes
  import opened AssignTypes
  import opened Ast
  import opened Scopes
  import opened Runtime
  import opened Extensions
  import opened Semantics

  /** How running a node ends; `:-` passes on everything but `Normal`. */
  datatype Flow<+T> = Normal(value: T) | Returning(result: Value) | Raised(fault: Fault) | OutOfFuel
  {
    predicate IsFailure()
    {
      !Normal?
    }

    function PropagateFailure<U>(): Flow<U>
      requires !Normal?
    {
      if Returning? then Returning(result) else if Raised? then Raised(fault) else OutOfFuel
    }

    function Extract(): T
      requires Normal?
    {
      value
    }
  }

  function FromResult<T>(r: Result<T, Fault>): Flow<T>
  {
    match r
    case Success(v) => Normal(v)
    case Failure(f) => Raised(f)
  }

  /** How `interpret` ends: every statement ran, a RuntimeError was reported, or an exception escaped it. */
  datatype Run = Finished | Reported(token: Token, message: string) | Crashed(error: PyError) | StrayReturn | Exhausted

  const OnlyListsSubscripted := "Only lists can be subscripted."
  const IndexNotInt := "Index should be of type int."
  const UnexpectedValueType := "Unexpected assignment value type."
  const IndexOutOfRange := "Index out of range."
  const NotCallable := "Can only call functions and classes."
  const OnlyInstancesProperties := "Only instances have properties."
  const OnlyInstancesFields := "Only instances have fields."
  const NotInitialized := "Variable not initialized."
  const SuperclassNotClass := "Superclass must be a class."

  /** Python's default recursion limit, which bounds how deeply `stringify` descends into nested lists. */
  const RecursionLimit: nat := 1000

  function ArityMismatch(expected: nat, got: nat): string
  {
    "Expected " + NatText(expected) + " arguments but got " + NatText(got) + "."
  }

  function UndefinedProperty(name: Token): Fault
  {
    RuntimeError(name, "Undefined property '" + name.lexeme + "'.")
  }

  /** The value a literal node holds. */
  function ConstantValue(c: Constant): Value
  {
    match c
    case CNone => VNone
    case CBool(b) => VBool(b)
    case CInt(i) => VInt(i)
    case CFloat(r) => VFloat(r)
    case CStr(s) => VStr(s)
  }

  /** None, a boolean, a number or a string: a value that refers to no object. */
  predicate IsPlain(v: Value)
  {
    v.VNone? || v.VBool? || v.VInt? || v.VFloat? || v.VStr?
  }

  /** The operators only ever produce plain values. */
  lemma OperatorsGivePlainValues(operator: Token, left: Value, right: Value)
    ensures BinaryOperation(operator, left, right).Success? ==> IsPlain(BinaryOperation(operator, left, right).value)
    ensures UnaryOperation(operator, right).Success? ==> IsPlain(UnaryOperation(operator, right).value)
  {
  }

  /** A compound assignment stores either the assigned value itself or a plain value. */
  lemma AssignedValueKinds(t: AssignType, token: Token, previous: Value, newValue: Value)
    ensures var r := HandleAssigning(t, token, previous, newValue);
      r.Success? ==> r.value == newValue || IsPlain(r.value)
  {
  }

  /**
   * The value `visit_assign_expr` stores into a variable found with the
   * binding `b`: the compound assignment of the new value to the held one,
   * provided the declared type accepts the new value (the check is made on
   * the assigned value, not on the stored one).
   */
  function AssignmentResult(b: Binding, t: AssignType, name: Token, value: Value): (r: Result<Value, Fault>)
    reads if value.VList? then {value.list} else {}
    ensures r.Success? ==> Fits(b.declType, value) && HandleAssigning(t, name, b.item, value) == r
    ensures HandleAssigning(t, name, b.item, value).Failure? ==> r == HandleAssigning(t, name, b.item, value)
    ensures HandleAssigning(t, name, b.item, value).Success? && !Fits(b.declType, value) ==> r == Failure(WrongType(name))
  {
    match HandleAssigning(t, name, b.item, value)
    case Failure(f) => Failure(f)
    case Success(stored) => if Fits(b.declType, value) then Success(stored) else Failure(WrongType(name))
  }

  /**
   * A field write as `visit_set_expr` performs it: `previous` is what the
   * instance's `get` gives for the name (its field, else a bound method,
   * else nothing, which `get` reports as an undefined property), and the
   * stored value is the compound assignment of the new value to it.
   */
  function SetPropertyAsWritten(previous: Option<Value>, t: AssignType, name: Token, value: Value): (r: Result<Value, Fault>)
    ensures previous.None? ==> r == Failure(UndefinedProperty(name))
  {
    match previous
    case None => Failure(UndefinedProperty(name))
    case Some(v) => HandleAssigning(t, name, v, value)
  }

  /**
   * The field write the language's object model describes: a plain
   * assignment to a name the instance lacks creates the field with the
   * value; a compound assignment still needs a previous value.
   */
  function SetProperty(previous: Option<Value>, t: AssignType, name: Token, value: Value): (r: Result<Value, Fault>)
    ensures previous.Some? ==> r == SetPropertyAsWritten(previous, t, name, value)
    ensures previous.None? && t.PlainAssign? ==> r == Success(value)
    ensures previous.None? && !t.PlainAssign? ==> r == Failure(UndefinedProperty(name))
  {
    match previous
    case None => if t.PlainAssign? then Success(value) else Failure(UndefinedProperty(name))
    case Some(v) => HandleAssigning(t, name, v, value)
  }

  /**
   * As written, no assignment can give an instance a field it does not have
   * and its class does not name as a method, where the corrected write
   * creates it.
   */
  lemma NoFieldIsEverCreated(t: AssignType, name: Token, value: Value)
    ensures SetPropertyAsWritten(None, t, name, value) == Failure(UndefinedProperty(name))
    ensures SetProperty(None, PlainAssign, name, value) == Success(value)
  {
  }

  /** The corrected field write stores either the assigned value itself or a plain value. */
  lemma StoredPropertyKinds(previous: Option<Value>, t: AssignType, name: Token, value: Value)
    ensures var r := SetProperty(previous, t, name, value);
      r.Success? ==> r.value == value || IsPlain(r.value)
  {
    if previous.Some? {
      AssignedValueKinds(t, name, previous.value, value);
    }
  }

  /**
   * The subscript-write guard next to the slot at the list's length, which
   * `get_ele_at` reads as None: a None, int, float or string value is
   * refused, and any object passes but is stored as None.
   */
  lemma WriteNextToNone(t: AssignType, paren: Token, v: Value)
    ensures !SameCategory(v, VNone) || (v.VNone? && VNone.VNone?) <==> IsPlain(v)
    ensures !IsPlain(v) ==> HandleAssigning(t, paren, VNone, v) == Success(VNone)
  {
  }

  /** A subscript read: the element inside the list, "Index out of range." outside it. */
  function ElementAt(l: LanguageList, i: int, paren: Token): (r: Flow<Value>)
    reads l
    ensures r.Normal? <==> 0 <= i < |l.values|
    ensures r.Normal? ==> r.value == l.values[i]
    ensures !r.Normal? ==> r == Raised(RuntimeError(paren, IndexOutOfRange))
  {
    if i < 0 || i >= l.Length() then Raised(RuntimeError(paren, IndexOutOfRange)) else Normal(l.GetEleAt(i))
  }

  /**
   * A subscript write of `value` at `i` with assignment kind `t`, taking a
   * list holding `before` to one holding `after`: the value must have the
   * category of the element `get_ele_at` reads (None outside the list) and
   * not both be None; the compound assignment of the value to that element
   * is then stored by `set_at_index`, which appends at the length, replaces
   * inside, and fails anywhere else. Every failure leaves the list as it was.
   */
  predicate ElementStored(before: seq<Value>, i: int, value: Value, t: AssignType, paren: Token, r: Flow<Value>, after: seq<Value>)
  {
    var previous := if 0 <= i < |before| then before[i] else VNone;
    if !SameCategory(value, previous) || (value.VNone? && previous.VNone?) then
      r == Raised(RuntimeError(paren, UnexpectedValueType)) && after == before
    else match HandleAssigning(t, paren, previous, value)
      case Failure(f) => r == Raised(f) && after == before
      case Success(stored) =>
        if 0 <= i <= |before| then
          r == Normal(stored) && after == (if i == |before| then before + [stored] else before[i := stored])
        else r == Raised(RuntimeError(paren, IndexOutOfRange)) && after == before
  }

  /**
   * What a subscript write leaves behind: on success the stored value sits
   * at the index and every other element is kept; on failure the list is
   * unchanged.
   */
  lemma ElementStoredEffect(before: seq<Value>, i: int, value: Value, t: AssignType, paren: Token, r: Flow<Value>, after: seq<Value>)
    requires ElementStored(before, i, value, t, paren, r, after)
    ensures r.Normal? ==> 0 <= i < |after| && after[i] == r.value && |after| == if i == |before| then |before| + 1 else |before|
    ensures r.Normal? ==> forall j | 0 <= j < |before| && j != i :: after[j] == before[j]
    ensures !r.Normal? ==> r.Raised? && after == before
  {
  }

  /** A plain `=` of a value of the element's category, neither being None, replaces the element by the value itself. */
  lemma ElementStoredPlain(before: seq<Value>, i: int, value: Value, paren: Token, r: Flow<Value>, after: seq<Value>)
    requires ElementStored(before, i, value, PlainAssign, paren, r, after) && 0 <= i < |before| && SameCategory(value, before[i])
    requires !value.VNone? && !before[i].VNone?
    ensures r == Normal(value) && after == before[i := value]
  {
  }

  /** The call frame's entries after `define` of each parameter in turn, all typed None. */
  function ParameterBindings(params: seq<VarDecl>, args: seq<Value>): (m: map<string, Binding>)
    requires |params| == |args|
  {
    if params == [] then map[]
    else ParameterBindings(params[..|params| - 1], args[..|args| - 1])[params[|params| - 1].name.lexeme := Binding(Untyped, args[|args| - 1])]
  }

  predicate DistinctNames(params: seq<VarDecl>)
  {
    forall i, j | 0 <= i < j < |params| :: params[i].name.lexeme != params[j].name.lexeme
  }

  /** The frame holds exactly the parameter names. */
  lemma {:induction false} ParameterNames(params: seq<VarDecl>, args: seq<Value>)
    requires |params| == |args|
    ensures forall n :: n in ParameterBindings(params, args) <==> exists i | 0 <= i < |params| :: params[i].name.lexeme == n
  {
    if params != [] {
      var k := |params| - 1;
      var front, frontArgs := params[..k], args[..k];
      ParameterNames(front, frontArgs);
      forall n | n in ParameterBindings(params, args)
        ensures exists i | 0 <= i < |params| :: params[i].name.lexeme == n
      {
        if n != params[k].name.lexeme {
          assert n in ParameterBindings(front, frontArgs);
          var i :| 0 <= i < |front| && front[i].name.lexeme == n;
          assert params[i] == front[i];
        }
      }
      forall n | exists i | 0 <= i < |params| :: params[i].name.lexeme == n
        ensures n in ParameterBindings(params, args)
      {
        var i :| 0 <= i < |params| && params[i].name.lexeme == n;
        if i < k {
          assert front[i] == params[i];
          assert n in ParameterBindings(front, frontArgs);
        }
      }
    }
  }

  /** With distinct parameter names, each parameter is bound to its own argument. */
  lemma {:induction false} ParametersBindArguments(params: seq<VarDecl>, args: seq<Value>, i: nat)
    requires |params| == |args| && DistinctNames(params) && i < |params|
    ensures params[i].name.lexeme in ParameterBindings(params, args)
    ensures ParameterBindings(params, args)[params[i].name.lexeme] == Binding(Untyped, args[i])
  {
    var k := |params| - 1;
    if i < k {
      var front, frontArgs := params[..k], args[..k];
      assert front[i] == params[i] && frontArgs[i] == args[i];
      assert DistinctNames(front);
      ParametersBindArguments(front, frontArgs, i);
      assert params[i].name.lexeme != params[k].name.lexeme;
    }
  }

  /** Membership, as a predicate of its own: a quantifier guarded by it fires only where a proof names it. */
  ghost predicate Among<T>(x: T, S: set<T>)
  {
    x in S
  }

  /** A resolved reference's depth, counted from a frame with the recorded chain, reaches the frame of its binding scope. */
  lemma DepthReachesBindingFrame(env: Environment, sites: Sites, locals: map<Path, nat>, binding: map<Path, Scope>, p: Path)
    requires env.Linked() && DepthsReachBindings(sites, locals, binding)
    requires p in locals && p in sites && sites[p].chain == env.chain
    ensures env.AncestorOf(locals[p]) != null && env.AncestorOf(locals[p]).tag == binding[p]
    ensures env.AncestorOf(locals[p]).chain == env.chain[..|env.chain| - locals[p]]
  {
    var a := env.AncestorOf(locals[p]);
    assert a.chain[|a.chain| - 1] == a.tag;
  }

  class Interpreter {
    const globals: Environment
    var environment: Environment
    /** The resolver's depths, keyed by node position. */
    const locals: map<Path, nat>
    /** The resolver's table of visited nodes, and the scope each resolved reference was bound in. */
    ghost const sites: Sites
    ghost const binding: map<Path, Scope>
    var isPrintable: bool
    /** The lines `print` has written. */
    var output: seq<string>
    /** Python's `str` on floats. */
    const floatText: real -> string
    /** The frames, lists and instances the interpreter has created. */
    ghost var objects: set<object>

    /** The function's body was recorded with the scopes its call frame will have. */
    ghost predicate BodyRecorded(f: LanguageFunction)
    {
      f.closure.Linked() &&
      BodyAt(sites, f.declaration.body, f.site,
             f.closure.chain + (if f.unbound then [f.bindScope] else []) + [FunctionScope(f.site)])
    }

    ghost predicate FunctionIn(f: LanguageFunction, S: set<object>)
    {
      BodyRecorded(f) && f.closure.Footprint() <= S
    }

    /** Every method along the class chain is an unbound method whose frames are among `S`. */
    ghost predicate ClassIn(c: LanguageClass, S: set<object>)
    {
      c.Linked() &&
      forall k, m | k in c.Lineage() && m in k.methods.Values :: m.unbound && FunctionIn(m, S)
    }

    /** The objects a value refers to are among `S`. */
    ghost predicate SafeIn(v: Value, S: set<object>)
    {
      match v
      case VList(l) => l in S
      case VInstance(o) => o in S
      case VFunction(f) => !f.unbound && FunctionIn(f, S)
      case VClass(c) => ClassIn(c, S)
      case _ => true
    }

    /** A frame whose chain and entries refer only to objects of `S`. */
    ghost predicate FrameClosed(e: Environment, S: set<object>)
      reads e
    {
      e.Linked() && e.Footprint() <= S && forall n | n in e.values :: SafeIn(e.values[n].item, S)
    }

    ghost predicate ListClosed(l: LanguageList, S: set<object>)
      reads l
    {
      forall i | 0 <= i < |l.values| :: SafeIn(l.values[i], S)
    }

    ghost predicate InstanceClosed(o: LanguageInstance, S: set<object>)
      reads o
    {
      ClassIn(o.cls, S) && forall n | n in o.fields :: SafeIn(o.fields[n], S)
    }

    /** Whatever a frame, list or instance holds refers only to objects of `S`. */
    ghost predicate HoldsIn(x: object, S: set<object>)
      reads x
    {
      (x is Environment ==> FrameClosed(x as Environment, S)) &&
      (x is LanguageList ==> ListClosed(x as LanguageList, S)) &&
      (x is LanguageInstance ==> InstanceClosed(x as LanguageInstance, S))
    }

    /**
     * The objects of `S` refer only to each other. (The quantifier fires on
     * `Among` only, so that a proof unfolds it for the objects it names and
     * not for every membership it meets.)
     */
    ghost predicate Closed(S: set<object>)
      reads S
    {
      forall x {:trigger Among(x, S)} | x in S :: HoldsIn(x, S)
    }

    ghost predicate Safe(v: Value)
      reads this`objects
    {
      SafeIn(v, objects)
    }

    ghost predicate Valid()
      reads this`environment, this`objects, objects
    {
      this !in objects &&
      globals in objects && globals.chain == [GlobalScope] && globals.Linked() &&
      environment in objects && environment.Linked() &&
      Complete(sites) && DepthsReachBindings(sites, locals, binding) &&
      Closed(objects)
    }

    /** Only new objects join the set, output is only appended to, and the print switch stays. */
    twostate predicate Grown()
      reads this
    {
      old(objects) <= objects && fresh(objects - old(objects)) &&
      old(output) <= output && isPrintable == old(isPrintable)
    }

    lemma FrameIsClosed(e: Environment)
      requires Valid() && e in objects
      ensures e.Linked() && e.Footprint() <= objects && forall n | n in e.values :: Safe(e.values[n].item)
    {
      assert Among(e, objects) && HoldsIn(e, objects);
    }

    lemma ListIsClosed(l: LanguageList)
      requires Valid() && l in objects
      ensures forall i | 0 <= i < |l.values| :: Safe(l.values[i])
    {
      assert Among(l, objects) && HoldsIn(l, objects);
    }

    lemma InstanceIsClosed(o: LanguageInstance)
      requires Valid() && o in objects
      ensures ClassIn(o.cls, objects) && forall n | n in o.fields :: Safe(o.fields[n])
    {
      assert Among(o, objects) && HoldsIn(o, objects);
    }

    lemma ClassGrows(c: LanguageClass, S: set<object>, S2: set<object>)
      requires ClassIn(c, S) && S <= S2
      ensures ClassIn(c, S2)
    {
      forall k, m | k in c.Lineage() && m in k.methods.Values
        ensures m.unbound && FunctionIn(m, S2)
      {
        assert FunctionIn(m, S);
      }
    }

    lemma SafeGrows(v: Value, S: set<object>, S2: set<object>)
      requires SafeIn(v, S) && S <= S2
      ensures SafeIn(v, S2)
    {
      if v.VClass? {
        ClassGrows(v.cls, S, S2);
      }
    }

    lemma AllSafeGrow(vs: seq<Value>, S: set<object>, S2: set<object>)
      requires forall j | 0 <= j < |vs| :: SafeIn(vs[j], S)
      requires S <= S2
      ensures forall j | 0 <= j < |vs| :: SafeIn(vs[j], S2)
    {
      forall j | 0 <= j < |vs|
        ensures SafeIn(vs[j], S2)
      {
        SafeGrows(vs[j], S, S2);
      }
    }

    /** Whatever refers only to objects of `S` refers only to objects of a larger set. */
    lemma HoldsGrows(x: object, S: set<object>, S2: set<object>)
      requires HoldsIn(x, S) && S <= S2
      ensures HoldsIn(x, S2)
    {
      if x is Environment {
        var e := x as Environment;
        forall n | n in e.values
          ensures SafeIn(e.values[n].item, S2)
        {
          SafeGrows(e.values[n].item, S, S2);
        }
      }
      if x is LanguageList {
        AllSafeGrow((x as LanguageList).values, S, S2);
      }
      if x is LanguageInstance {
        var o := x as LanguageInstance;
        ClassGrows(o.cls, S, S2);
        forall n | n in o.fields
          ensures SafeIn(o.fields[n], S2)
        {
          SafeGrows(o.fields[n], S, S2);
        }
      }
    }

    /** Adding objects whose contents refer only to the enlarged set keeps it closed. */
    lemma {:induction false} ClosedGrows(S: set<object>, S2: set<object>)
      requires Closed(S) && S <= S2
      requires forall x | x in S2 - S :: HoldsIn(x, S2)
      ensures Closed(S2)
    {
      forall x | x in S2
        ensures HoldsIn(x, S2)
      {
        if x in S {
          assert Among(x, S) && HoldsIn(x, S);
          HoldsGrows(x, S, S2);
        }
      }
    }

    /** A class's methods have well-formed closures, and a method it finds is one of them. */
    lemma FoundMethod(c: LanguageClass, name: string, S: set<object>)
      requires ClassIn(c, S)
      ensures c.MethodsLinked()
      ensures c.FindMethod(name).Some? ==> c.FindMethod(name).value.unbound && FunctionIn(c.FindMethod(name).value, S)
    {
      forall k, m | k in c.Lineage() && m in k.methods.Values
        ensures m.closure.Linked()
      {
        assert FunctionIn(m, S);
      }
      if c.FindMethod(name).Some? {
        var m := c.FindMethod(name).value;
        var k :| k in c.Lineage() && name in k.methods && k.methods[name] == m;
        assert m in k.methods.Values;
        assert m.unbound && FunctionIn(m, S);
      }
    }

    /** A new class is safe when its superclass and its own methods are. */
    lemma {:induction false} NewClassIn(c: LanguageClass, S: set<object>)
      requires c.Linked() && (c.superclass != null ==> ClassIn(c.superclass, S))
      requires forall f | f in c.methods.Values :: f.unbound && FunctionIn(f, S)
      ensures ClassIn(c, S)
    {
      forall k, m | k in c.Lineage() && m in k.methods.Values
        ensures m.unbound && FunctionIn(m, S)
      {
        if k != c {
          assert k in c.superclass.Lineage();
        }
      }
    }

    /** `Interpreter.__init__`: a global frame holding only `clock`. */
    constructor (locals: map<Path, nat>, ghost sites: Sites, ghost binding: map<Path, Scope>, floatText: real -> string)
      requires Complete(sites) && DepthsReachBindings(sites, locals, binding)
      ensures Valid() && environment == globals && fresh(globals)
      ensures globals.values == map["clock" := Binding(Declared(NoneType), VClock)]
      ensures this.locals == locals && this.sites == sites && this.binding == binding && this.floatText == floatText
      ensures isPrintable && output == [] && objects == {globals}
    {
      var g := new Environment(null, GlobalScope);
      g.Define("clock", Declared(NoneType), VClock);
      globals := g;
      environment := g;
      this.locals := locals;
      this.sites := sites;
      this.binding := binding;
      this.floatText := floatText;
      isPrintable := true;
      output := [];
      objects := {g};
      new;
      assert HoldsIn(g, objects);
    }

    // ----- changes to frames, lists and instances -----

    /** `define` in a frame of the interpreter. */
    method DefineIn(frame: Environment, name: string, declType: DeclType, value: Value)
      requires Valid() && frame in objects && Safe(value)
      modifies frame
      ensures Valid()
      ensures frame.values == old(frame.values)[name := Binding(declType, value)]
    {
      frame.Define(name, declType, value);
      forall x | x in objects
        ensures HoldsIn(x, objects)
      {
        assert Among(x, objects) && old(HoldsIn(x, objects));
      }
    }

    /** A new, empty frame enclosing `enclosing`. */
    method PushFrame(enclosing: Environment, ghost tag: Scope) returns (frame: Environment)
      requires Valid() && enclosing in objects
      modifies this`objects
      ensures Valid() && Grown() && objects == old(objects) + {frame}
      ensures fresh(frame) && frame.enclosing == enclosing && frame.tag == tag && frame.values == map[]
      ensures frame.chain == enclosing.chain + [tag] && frame.Linked()
    {
      FrameIsClosed(enclosing);
      frame := new Environment(enclosing, tag);
      assert HoldsIn(frame, objects + {frame});
      ClosedGrows(objects, objects + {frame});
      objects := objects + {frame};
    }

    /** Takes in the closure frame `bind` created. */
    ghost method AdoptBinding(f: LanguageFunction, m: LanguageFunction, instance: Value)
      requires Valid() && m.unbound && FunctionIn(m, objects) && Safe(instance) && f.IsBinding(m, instance)
      requires f.closure !in objects
      modifies this`objects
      ensures Valid() && objects == old(objects) + {f.closure} && Safe(VFunction(f))
    {
      SafeGrows(instance, objects, objects + {f.closure});
      assert HoldsIn(f.closure, objects + {f.closure});
      ClosedGrows(objects, objects + {f.closure});
      objects := objects + {f.closure};
    }

    /** `bind` of a method found along a class chain. */
    method BindMethod(m: LanguageFunction, instance: Value) returns (f: LanguageFunction)
      requires Valid() && m.unbound && FunctionIn(m, objects) && Safe(instance)
      modifies this`objects
      ensures Valid() && Grown() && fresh(f) && f.IsBinding(m, instance) && Safe(VFunction(f))
    {
      f := m.Bind(instance);
      AdoptBinding(f, m, instance);
    }

    /** `LanguageInstance.get`: the field, else the method bound to the instance, else "Undefined property". */
    method GetProperty(o: LanguageInstance, name: Token) returns (r: Result<Value, Fault>)
      requires Valid() && o in objects
      modifies this`objects
      ensures Valid() && Grown() && o.cls.Linked()
      ensures r.Success? ==> Safe(r.value)
      ensures name.lexeme in o.fields ==> r == Success(o.fields[name.lexeme])
      ensures name.lexeme !in o.fields && o.cls.FindMethod(name.lexeme).None? ==> r == Failure(UndefinedProperty(name))
      ensures name.lexeme !in o.fields && o.cls.FindMethod(name.lexeme).Some? ==>
        r.Success? && r.value.VFunction? && r.value.fn.IsBinding(o.cls.FindMethod(name.lexeme).value, VInstance(o))
    {
      InstanceIsClosed(o);
      FoundMethod(o.cls, name.lexeme, objects);
      r := o.Get(name);
      if name.lexeme !in o.fields && r.Success? {
        AdoptBinding(r.value.fn, o.cls.FindMethod(name.lexeme).value, VInstance(o));
      }
    }

    /** `LanguageInstance.set`. */
    method SetField(o: LanguageInstance, name: Token, value: Value)
      requires Valid() && o in objects && Safe(value)
      modifies o
      ensures Valid() && o.fields == old(o.fields)[name.lexeme := value]
    {
      InstanceIsClosed(o);
      o.Set(name, value);
      forall x | x in objects
        ensures HoldsIn(x, objects)
      {
        assert Among(x, objects) && old(HoldsIn(x, objects));
      }
    }

    /**
     * The write half of `visit_set_expr`: the previous property read as
     * `get` reads it, then the corrected field write, stored by `set`.
     */
    method AssignField(o: LanguageInstance, name: Token, t: AssignType, value: Value) returns (r: Result<Value, Fault>, previous: Option<Value>)
      requires Valid() && o in objects && Safe(value)
      modifies this`objects, o
      ensures Valid() && Grown() && o.cls.Linked()
      ensures name.lexeme in old(o.fields) ==> previous == Some(old(o.fields)[name.lexeme])
      ensures name.lexeme !in old(o.fields) && o.cls.FindMethod(name.lexeme).None? ==> previous == None
      ensures name.lexeme !in old(o.fields) && o.cls.FindMethod(name.lexeme).Some? ==>
        previous.Some? && previous.value.VFunction? && previous.value.fn.IsBinding(o.cls.FindMethod(name.lexeme).value, VInstance(o))
      ensures r == SetProperty(previous, t, name, value)
      ensures previous.Some? ==> r == SetPropertyAsWritten(previous, t, name, value)
      ensures r.Success? ==> o.fields == old(o.fields)[name.lexeme := r.value]
      ensures r.Failure? ==> o.fields == old(o.fields)
    {
      var found := GetProperty(o, name);
      SafeGrows(value, old(objects), objects);
      previous := if found.Success? then Some(found.value) else None;
      r := WriteProperty(o, name, t, previous, value);
    }

    /** `set` of the value `SetProperty` makes of the previous property, if any. */
    method WriteProperty(o: LanguageInstance, name: Token, t: AssignType, previous: Option<Value>, value: Value) returns (r: Result<Value, Fault>)
      requires Valid() && o in objects && Safe(value) && (previous.Some? ==> Safe(previous.value))
      modifies this`objects, o
      ensures Valid() && Grown()
      ensures r == SetProperty(previous, t, name, value)
      ensures r.Success? ==> o.fields == old(o.fields)[name.lexeme := r.value]
      ensures r.Failure? ==> o.fields == old(o.fields)
    {
      StoredPropertyKinds(previous, t, name, value);
      r := SetProperty(previous, t, name, value);
      if r.Success? {
        SetField(o, name, r.value);
      }
    }

    /** A new instance of a class. */
    method NewInstance(c: LanguageClass) returns (o: LanguageInstance)
      requires Valid() && ClassIn(c, objects)
      modifies this`objects
      ensures Valid() && Grown() && fresh(o) && o.cls == c && o.fields == map[] && objects == old(objects) + {o}
    {
      o := new LanguageInstance(c);
      ClassGrows(c, objects, objects + {o});
      assert HoldsIn(o, objects + {o});
      ClosedGrows(objects, objects + {o});
      objects := objects + {o};
    }

    /** Takes in a list built from safe values. */
    ghost method AdoptList(l: LanguageList)
      requires Valid() && l !in objects && forall i | 0 <= i < |l.values| :: Safe(l.values[i])
      modifies this`objects
      ensures Valid() && objects == old(objects) + {l}
    {
      AllSafeGrow(l.values, objects, objects + {l});
      assert HoldsIn(l, objects + {l});
      ClosedGrows(objects, objects + {l});
      objects := objects + {l};
    }

    /** `LanguageClass(...)` from a safe superclass and safe methods. */
    method NewClass(name: string, superclass: LanguageClass?, methods: map<string, LanguageFunction>) returns (c: LanguageClass)
      requires superclass != null ==> ClassIn(superclass, objects)
      requires forall f | f in methods.Values :: f.unbound && FunctionIn(f, objects)
      ensures fresh(c) && c.name == name && c.superclass == superclass && c.methods == methods && ClassIn(c, objects)
    {
      c := new LanguageClass(name, superclass, methods);
      NewClassIn(c, objects);
    }

    // ----- variables -----

    /** What `look_up_variable` finds for the reference at `p`: through the recorded depth if resolved, in the globals otherwise. */
    ghost function Visible(name: Token, p: Path): Result<Binding, Fault>
      requires environment.Linked()
      reads this`environment, environment.Footprint(), globals
    {
      if p in locals then
        var a := environment.AncestorOf(locals[p]);
        if a == null then Failure(PythonError(AttributeError))
        else if name.lexeme in a.values then Success(a.values[name.lexeme])
        else Failure(PythonError(KeyError))
      else if name.lexeme in globals.values then Success(globals.values[name.lexeme])
      else Failure(UndefinedVariable(name))
    }

    /** The frame an assignment to the reference at `p` writes. */
    ghost function TargetFrame(p: Path): Environment?
      requires environment.Linked()
      reads this`environment
    {
      if p in locals then environment.AncestorOf(locals[p]) else globals
    }

    /**
     * `look_up_variable` (interpreter.py:156-160). A resolved reference
     * never runs off the chain: the frame it reads stands for the scope the
     * resolver bound the name in.
     */
    method LookUpVariable(name: Token, p: Path) returns (r: Result<Binding, Fault>)
      requires Valid() && p in sites && sites[p].chain == environment.chain
      ensures r == Visible(name, p)
      ensures p in locals ==> environment.AncestorOf(locals[p]) != null && environment.AncestorOf(locals[p]).tag == binding[p]
      ensures r.Success? ==> Safe(r.value.item)
    {
      if p in locals {
        DepthReachesBindingFrame(environment, sites, locals, binding, p);
        FrameIsClosed(environment);
        FrameIsClosed(environment.AncestorOf(locals[p]));
        r := environment.GetAt(locals[p], name.lexeme);
      } else {
        FrameIsClosed(globals);
        r := globals.Get(name);
      }
    }

    /**
     * The write of an assignment: `assign_at` through the recorded depth, or
     * `assign` in the globals. Afterwards the reference denotes the new
     * binding, and no other frame changed.
     */
    method StoreVariable(name: Token, p: Path, declType: DeclType, value: Value) returns (r: Outcome<Fault>)
      requires Valid() && Safe(value) && p in sites && sites[p].chain == environment.chain
      modifies environment.Footprint(), globals
      ensures Valid()
      ensures p in locals ==> r == Pass
      ensures p !in locals ==>
        (r == Pass <==> name.lexeme in old(globals.values)) && (r.Fail? ==> r.error == UndefinedVariable(name))
      ensures r == Pass ==> Visible(name, p) == Success(Binding(declType, value))
      ensures forall e | e in environment.Footprint() + {globals} && e != TargetFrame(p) :: e.values == old(e.values)
    {
      if p in locals {
        r := StoreLocal(name, p, declType, value);
      } else {
        r := StoreGlobal(name, declType, value);
      }
    }

    /** The write through the recorded depth of a resolved reference. */
    method StoreLocal(name: Token, p: Path, declType: DeclType, value: Value) returns (r: Outcome<Fault>)
      requires Valid() && Safe(value) && p in sites && sites[p].chain == environment.chain && p in locals
      modifies environment.Footprint()
      ensures Valid() && r == Pass
      ensures Visible(name, p) == Success(Binding(declType, value))
      ensures forall e | e in environment.Footprint() + {globals} && e != TargetFrame(p) :: e.values == old(e.values)
    {
      DepthReachesBindingFrame(environment, sites, locals, binding, p);
      FrameIsClosed(environment);
      r := environment.AssignAt(locals[p], name, declType, value);
      forall x | x in objects
        ensures HoldsIn(x, objects)
      {
        assert Among(x, objects) && old(HoldsIn(x, objects));
      }
    }

    /** The write of an unresolved reference, in the globals. */
    method StoreGlobal(name: Token, declType: DeclType, value: Value) returns (r: Outcome<Fault>)
      requires Valid() && Safe(value)
      modifies globals
      ensures Valid()
      ensures (r == Pass <==> name.lexeme in old(globals.values)) && (r.Fail? ==> r.error == UndefinedVariable(name))
      ensures r == Pass ==> name.lexeme in globals.values && globals.values[name.lexeme] == Binding(declType, value)
      ensures r.Fail? ==> globals.values == old(globals.values)
    {
      FrameIsClosed(globals);
      r := globals.Assign(name, declType, value);
      assert r == Pass ==> globals.AncestorOf(0) == globals;
      forall x | x in objects
        ensures HoldsIn(x, objects)
      {
        assert Among(x, objects) && old(HoldsIn(x, objects));
      }
    }

    /** `assign` through the chain of a frame of the interpreter. */
    method AssignIn(frame: Environment, name: Token, declType: DeclType, value: Value) returns (r: Outcome<Fault>)
      requires Valid() && frame in objects && frame.Linked() && Safe(value)
      modifies frame.Footprint()
      ensures Valid()
      ensures match old(frame.HolderDistance(name.lexeme))
        case Some(d) =>
          r == Pass &&
          frame.AncestorOf(d).values == old(frame.AncestorOf(d).values)[name.lexeme := Binding(declType, value)] &&
          forall e | e in frame.Footprint() && e != frame.AncestorOf(d) :: e.values == old(e.values)
        case None => r == Fail(UndefinedVariable(name)) && unchanged(frame.Footprint())
    {
      FrameIsClosed(frame);
      ghost var holder := frame.HolderDistance(name.lexeme);
      r := frame.Assign(name, declType, value);
      forall x | x in objects
        ensures HoldsIn(x, objects)
      {
        assert Among(x, objects) && old(HoldsIn(x, objects));
      }
    }

    // ----- expressions -----

    /** `evaluate`: dispatch on the kind of expression. */
    method Evaluate(e: Expr, p: Path, fuel: nat) returns (r: Flow<Value>)
      requires Valid() && At(sites, p, ExprNode(e), environment.chain)
      modifies this, objects
      ensures Valid() && Grown() && environment == old(environment)
      ensures r.Normal? ==> Safe(r.value)
      ensures !r.Returning?
      ensures e.Literal? ==> r == Normal(ConstantValue(e.constant))
      ensures e == BuiltinObject ==> r == Raised(PythonError(AttributeError))
      decreases fuel, e, 4
    {
      match e {
        case Literal(c) =>
          r := Normal(ConstantValue(c));
        case Grouping(_) =>
          RecordedChildren(sites, p);
          r := Evaluate(e.expression, p + [0], fuel);
        case Unary(_, _) =>
          ghost var operand;
          r, operand := VisitUnary(e, p, fuel);
        case Binary(_, _, _) =>
          ghost var left, right;
          r, left, right := VisitBinary(e, p, fuel);
        case Logical(_, _, _) =>
          ghost var left, right;
          r, left, right := VisitLogical(e, p, fuel);
        case Variable(_) =>
          r := VisitVariable(e, p);
        case Assign(_, _, _) =>
          ghost var value, variable;
          r, value, variable := VisitAssign(e, p, fuel);
        case BuiltinObject =>
          r := Raised(PythonError(AttributeError));
        case _ =>
          r := EvaluateObjectExpr(e, p, fuel);
      }
    }

    /** `evaluate` on the expressions about calls, objects and lists. */
    method EvaluateObjectExpr(e: Expr, p: Path, fuel: nat) returns (r: Flow<Value>)
      requires e.Call? || e.Get? || e.Set? || e.Super? || e.This? || e.ListExpr? || e.Subscript?
      requires Valid() && At(sites, p, ExprNode(e), environment.chain)
      modifies this, objects
      ensures Valid() && Grown() && environment == old(environment)
      ensures r.Normal? ==> Safe(r.value)
      ensures !r.Returning?
      decreases fuel, e, 3
    {
      match e {
        case Call(_, _, _) =>
          ghost var callee, arguments;
          r, callee, arguments := VisitCall(e, p, fuel);
        case Get(_, _) =>
          ghost var receiver;
          r, receiver := VisitGet(e, p, fuel);
        case Set(_, _, _, _) =>
          ghost var receiver, value, stored, previous, before;
          r, receiver, value, stored, previous, before := VisitSet(e, p, fuel);
        case Super(_, _) =>
          r := VisitSuper(e, p);
        case This(_) =>
          r := VisitThis(e, p);
        case ListExpr(_) =>
          r := VisitList(e, p, fuel);
        case Subscript(_, _, _, _, _) =>
          ghost var target, index, written, before;
          r, target, index, written, before := VisitSubscript(e, p, fuel);
      }
    }

    /** `visit_unary_expr` (interpreter.py:348-356): the operator applied to the evaluated operand. */
    method VisitUnary(e: Expr, p: Path, fuel: nat) returns (r: Flow<Value>, ghost operand: Flow<Value>)
      requires e.Unary? && Valid() && At(sites, p, ExprNode(e), environment.chain)
      modifies this, objects
      ensures Valid() && Grown() && environment == old(environment)
      ensures r.Normal? ==> Safe(r.value)
      ensures !r.Returning?
      ensures !operand.Normal? ==> r == operand
      ensures operand.Normal? ==> r == FromResult(UnaryOperation(e.operator, operand.value))
      decreases fuel, e, 0
    {
      RecordedChildren(sites, p);
      var right := Evaluate(e.right, p + [0], fuel);
      operand := right;
      if !right.Normal? {
        return right, operand;
      }
      OperatorsGivePlainValues(e.operator, right.value, right.value);
      r := FromResult(UnaryOperation(e.operator, right.value));
    }

    /**
     * `visit_binary_expr` (interpreter.py:263-293): the left operand, then
     * the right one, then the operator on both values.
     */
    method VisitBinary(e: Expr, p: Path, fuel: nat) returns (r: Flow<Value>, ghost left: Flow<Value>, ghost right: Flow<Value>)
      requires e.Binary? && Valid() && At(sites, p, ExprNode(e), environment.chain)
      modifies this, objects
      ensures Valid() && Grown() && environment == old(environment)
      ensures r.Normal? ==> Safe(r.value)
      ensures !r.Returning?
      ensures !left.Normal? ==> r == left
      ensures left.Normal? && !right.Normal? ==> r == right
      ensures left.Normal? && right.Normal? ==> r == FromResult(BinaryOperation(e.operator, left.value, right.value))
      decreases fuel, e, 0
    {
      RecordedChildren(sites, p);
      right := OutOfFuel;
      var l := Evaluate(e.left, p + [0], fuel);
      left := l;
      if !l.Normal? {
        return l, left, right;
      }
      var rv := Evaluate(e.right, p + [1], fuel);
      right := rv;
      if !rv.Normal? {
        return rv, left, right;
      }
      OperatorsGivePlainValues(e.operator, l.value, rv.value);
      r := FromResult(BinaryOperation(e.operator, l.value, rv.value));
    }

    /**
     * `visit_logical_expr` (interpreter.py:316-324): `||` gives a truthy left
     * operand and `&&` a falsy one without evaluating the right operand;
     * otherwise the right operand is the result.
     */
    method VisitLogical(e: Expr, p: Path, fuel: nat) returns (r: Flow<Value>, ghost left: Flow<Value>, ghost right: Flow<Value>)
      requires e.Logical? && Valid() && At(sites, p, ExprNode(e), environment.chain)
      modifies this, objects
      ensures Valid() && Grown() && environment == old(environment)
      ensures r.Normal? ==> Safe(r.value)
      ensures !r.Returning?
      ensures !left.Normal? ==> r == left
      ensures left.Normal? && IsTruthy(left.value) == (e.operator.kind == OrKw) ==> r == left
      ensures left.Normal? && IsTruthy(left.value) != (e.operator.kind == OrKw) ==> r == right
      decreases fuel, e, 0
    {
      RecordedChildren(sites, p);
      right := OutOfFuel;
      var l := Evaluate(e.left, p + [0], fuel);
      left := l;
      if !l.Normal? {
        return l, left, right;
      }
      if IsTruthy(l.value) == (e.operator.kind == OrKw) {
        return l, left, right;
      }
      r := Evaluate(e.right, p + [1], fuel);
      right := r;
    }

    /** `visit_variable_expr` (interpreter.py:358-362): a binding holding None is "Variable not initialized.". */
    method VisitVariable(e: Expr, p: Path) returns (r: Flow<Value>)
      requires e.Variable? && Valid() && At(sites, p, ExprNode(e), environment.chain)
      ensures r.Normal? ==> Safe(r.value)
      ensures match Visible(e.name, p)
        case Failure(f) => r == Raised(f)
        case Success(b) => r == if b.item.VNone? then Raised(RuntimeError(e.name, NotInitialized)) else Normal(b.item)
    {
      var found := LookUpVariable(e.name, p);
      if found.Failure? {
        return Raised(found.error);
      }
      if found.value.item.VNone? {
        return Raised(RuntimeError(e.name, NotInitialized));
      }
      r := Normal(found.value.item);
    }

    /** `visit_this_expr` (interpreter.py:345-346): the binding's value, None included. */
    method VisitThis(e: Expr, p: Path) returns (r: Flow<Value>)
      requires e.This? && Valid() && At(sites, p, ExprNode(e), environment.chain)
      ensures r.Normal? ==> Safe(r.value)
      ensures match Visible(e.keyword, p)
        case Failure(f) => r == Raised(f)
        case Success(b) => r == Normal(b.item)
    {
      var found := LookUpVariable(e.keyword, p);
      if found.Failure? {
        return Raised(found.error);
      }
      r := Normal(found.value.item);
    }

    /**
     * `visit_assign_expr` (interpreter.py:249-261): the stored value is the
     * compound assignment of the right-hand side to the previous value; the
     * right-hand side itself must fit the variable's declared type, which
     * the binding keeps.
     */
    method VisitAssign(e: Expr, p: Path, fuel: nat) returns (r: Flow<Value>, ghost value: Flow<Value>, ghost variable: Result<Binding, Fault>)
      requires e.Assign? && Valid() && At(sites, p, ExprNode(e), environment.chain)
      modifies this, objects
      ensures Valid() && Grown() && environment == old(environment)
      ensures r.Normal? ==> Safe(r.value)
      ensures !r.Returning?
      ensures !value.Normal? ==> r == value
      ensures value.Normal? && variable.Failure? ==> r == Raised(variable.error)
      ensures value.Normal? && variable.Success? ==> r == FromResult(AssignmentResult(variable.value, e.assignType, e.name, value.value))
      ensures r.Normal? ==> variable.Success? && Visible(e.name, p) == Success(Binding(variable.value.declType, r.value))
      decreases fuel, e, 0
    {
      RecordedChildren(sites, p);
      variable := Failure(UndefinedVariable(e.name));
      var v := Evaluate(e.value, p + [0], fuel);
      value := v;
      if !v.Normal? {
        return v, value, variable;
      }
      var stored, found := PrepareAssignment(e.name, p, e.assignType, v.value);
      variable := found;
      if stored.Failure? {
        return Raised(stored.error), value, variable;
      }
      FrameIsClosed(environment);
      var outcome := StoreVariable(e.name, p, found.value.declType, stored.value);
      assert outcome == Pass;
      r := Normal(stored.value);
    }

    /** The variable as the resolver placed it, and the value its assignment gives. */
    method PrepareAssignment(name: Token, p: Path, t: AssignType, value: Value) returns (r: Result<Value, Fault>, variable: Result<Binding, Fault>)
      requires Valid() && Safe(value) && p in sites && sites[p].chain == environment.chain
      ensures variable == Visible(name, p)
      ensures variable.Failure? ==> r == Failure(variable.error)
      ensures variable.Success? ==> r == AssignmentResult(variable.value, t, name, value)
      ensures r.Success? ==> Safe(r.value)
    {
      variable := LookUpVariable(name, p);
      if variable.Failure? {
        return Failure(variable.error), variable;
      }
      AssignedValueKinds(t, name, variable.value.item, value);
      r := AssignmentResult(variable.value, t, name, value);
    }

    /**
     * The arguments of a call, left to right: `outcomes` holds the
     * evaluation of each argument in turn, up to and including the first
     * that does not complete normally.
     */
    method EvaluateArguments(arguments: seq<Expr>, p: Path, fuel: nat) returns (r: Flow<seq<Value>>, ghost outcomes: seq<Flow<Value>>)
      requires Valid() && forall i | 0 <= i < |arguments| :: At(sites, p + [1 + i], ExprNode(arguments[i]), environment.chain)
      modifies this, objects
      ensures Valid() && Grown() && environment == old(environment)
      ensures r.Normal? ==> |r.value| == |arguments| && forall i | 0 <= i < |r.value| :: Safe(r.value[i])
      ensures !r.Returning?
      ensures |outcomes| <= |arguments| && forall i | 0 <= i < |outcomes| - 1 :: outcomes[i].Normal?
      ensures r.Normal? ==> |outcomes| == |arguments| && forall i | 0 <= i < |r.value| :: outcomes[i] == Normal(r.value[i])
      ensures !r.Normal? ==> 0 < |outcomes| && !outcomes[|outcomes| - 1].Normal? && r == outcomes[|outcomes| - 1].PropagateFailure()
      decreases fuel, arguments, 2
    {
      var values: seq<Value> := [];
      outcomes := [];
      var i := 0;
      while i < |arguments|
        invariant 0 <= i <= |arguments| && |values| == i && |outcomes| == i
        invariant Valid() && Grown() && environment == old(environment)
        invariant forall j | 0 <= j < i :: Safe(values[j]) && outcomes[j] == Normal(values[j])
      {
        ghost var S := objects;
        var v := Evaluate(arguments[i], p + [1 + i], fuel);
        outcomes := outcomes + [v];
        if !v.Normal? {
          return v.PropagateFailure(), outcomes;
        }
        AllSafeGrow(values, S, objects);
        values := values + [v.value];
        i := i + 1;
      }
      r := Normal(values);
    }

    /**
     * `visit_call_expr` (interpreter.py:295-302): the callee, then the
     * arguments; only functions and classes can be called, with exactly
     * their arity. A function's errors never escape the call; a class call
     * gives a new instance of the class.
     */
    method VisitCall(e: Expr, p: Path, fuel: nat) returns (r: Flow<Value>, ghost callee: Flow<Value>, ghost arguments: Flow<seq<Value>>)
      requires e.Call? && Valid() && At(sites, p, ExprNode(e), environment.chain)
      modifies this, objects
      ensures Valid() && Grown() && environment == old(environment)
      ensures r.Normal? ==> Safe(r.value)
      ensures !r.Returning?
      ensures !callee.Normal? ==> r == callee
      ensures callee.Normal? && !arguments.Normal? ==> r == arguments.PropagateFailure<Value>()
      ensures callee.Normal? && arguments.Normal? ==> CallOutcome(callee.value, |arguments.value|, e.paren, r)
      decreases fuel, e, 2
    {
      RecordedChildren(sites, p);
      arguments := OutOfFuel;
      var c := Evaluate(e.callee, p + [0], fuel);
      callee := c;
      if !c.Normal? {
        return c, callee, arguments;
      }
      ghost var S := objects;
      var args, _ := EvaluateArguments(e.arguments, p, fuel);
      arguments := args;
      if !args.Normal? {
        return args.PropagateFailure(), callee, arguments;
      }
      SafeGrows(c.value, S, objects);
      r := Invoke(e, c.value, args.value, fuel);
    }

    /**
     * What `visit_call_expr` promises once callee and arguments are known:
     * only functions and classes can be called, with exactly their arity; a
     * function other than an initializer gives a value whatever its body
     * raises, and a class gives a new instance of itself.
     */
    ghost predicate CallOutcome(callee: Value, count: nat, paren: Token, r: Flow<Value>)
    {
      match callee
      case VFunction(f) =>
        if count != f.Arity() then r == Raised(RuntimeError(paren, ArityMismatch(f.Arity(), count)))
        else !f.isInitializer ==> r.Normal? || r.OutOfFuel?
      case VClass(c) =>
        c.Linked() &&
        if count != c.Arity() then r == Raised(RuntimeError(paren, ArityMismatch(c.Arity(), count)))
        else r.Normal? ==> r.value.VInstance? && r.value.instance.cls == c
      case _ => r == Raised(RuntimeError(paren, NotCallable))
    }

    /** The call itself: the arity check, then the function's body or the class's construction, with one unit of fuel less. */
    method Invoke(e: Expr, callee: Value, args: seq<Value>, fuel: nat) returns (r: Flow<Value>)
      requires e.Call? && Valid() && Safe(callee) && forall i | 0 <= i < |args| :: Safe(args[i])
      modifies this, objects
      ensures Valid() && Grown() && environment == old(environment)
      ensures r.Normal? ==> Safe(r.value)
      ensures !r.Returning?
      ensures CallOutcome(callee, |args|, e.paren, r)
      ensures r.Normal? && callee.VClass? ==> r.value.VInstance? && fresh(r.value.instance)
      decreases fuel, e, 1
    {
      match callee {
        case VFunction(f) =>
          if |args| != f.Arity() {
            return Raised(RuntimeError(e.paren, ArityMismatch(f.Arity(), |args|)));
          }
          if fuel == 0 {
            return OutOfFuel;
          }
          ghost var completion;
          r, completion := CallFunction(f, args, fuel - 1);
        case VClass(k) =>
          if |args| != k.Arity() {
            return Raised(RuntimeError(e.paren, ArityMismatch(k.Arity(), |args|)));
          }
          if fuel == 0 {
            return OutOfFuel;
          }
          r := CallClass(k, args, fuel - 1);
        case _ =>
          r := Raised(RuntimeError(e.paren, NotCallable));
      }
    }

    /** The `Variable` record of `this` in a bound initializer's closure (language_function.py:33,39). */
    method ThisRecord(closure: Environment) returns (r: Flow<Value>)
      requires closure.Linked()
      ensures "this" in closure.values ==>
        r.Normal? && r.value.VRecord? && fresh(r.value.rec) &&
        r.value.rec.declType == closure.values["this"].declType && r.value.rec.item == closure.values["this"].item
      ensures "this" !in closure.values ==> r == Raised(PythonError(KeyError))
    {
      var found := closure.GetAt(0, "this");
      if found.Failure? {
        return Raised(found.error);
      }
      var record := new VariableRecord(found.value);
      r := Normal(VRecord(record));
    }

    /** Binds each parameter, typed None, to its argument in the call frame (language_function.py:26-27). */
    method DefineParameters(frame: Environment, params: seq<VarDecl>, args: seq<Value>)
      requires Valid() && frame in objects && frame.values == map[]
      requires |params| == |args| && forall i | 0 <= i < |args| :: Safe(args[i])
      modifies frame
      ensures Valid() && frame.values == ParameterBindings(params, args)
    {
      var i := 0;
      while i < |params|
        invariant 0 <= i <= |params|
        invariant Valid() && frame.values == ParameterBindings(params[..i], args[..i])
      {
        assert params[..i + 1][..i] == params[..i] && args[..i + 1][..i] == args[..i];
        DefineIn(frame, params[i].name.lexeme, Untyped, args[i]);
        i := i + 1;
      }
      assert params[..i] == params && args[..i] == args;
    }

    /** The body of the initializer a class chain has, or none: what a call of the class runs. */
    function InitializerBody(c: LanguageClass): seq<Stmt>
      requires c.Linked()
    {
      match c.FindMethod("init")
      case Some(m) => m.declaration.body
      case None => []
    }

    /**
     * `LanguageFunction.call` (language_function.py:24-40): a new frame
     * enclosing the closure, standing for the function's scope, binds the
     * parameters; a `return` gives its value, falling off the end gives
     * None, and any other exception is swallowed into None. An initializer
     * gives the `this` record of its closure instead.
     */
    method CallFunction(f: LanguageFunction, args: seq<Value>, fuel: nat) returns (r: Flow<Value>, ghost completion: Flow<()>)
      requires Valid() && Safe(VFunction(f)) && |args| == f.Arity() && forall i | 0 <= i < |args| :: Safe(args[i])
      modifies this, objects
      ensures Valid() && Grown() && environment == old(environment)
      ensures r.Normal? ==> Safe(r.value)
      ensures completion.OutOfFuel? <==> r.OutOfFuel?
      ensures completion.Raised? ==> r == Normal(VNone)
      ensures (completion.Normal? || completion.Returning?) && !f.isInitializer ==>
        r == Normal(if completion.Returning? then completion.result else VNone)
      ensures (completion.Normal? || completion.Returning?) && f.isInitializer ==>
        if "this" in f.closure.values then r.Normal? && r.value.VRecord? && r.value.rec.item == f.closure.values["this"].item
        else r == Raised(PythonError(KeyError))
      decreases fuel, f.declaration.body, 3
    {
      var frame := PushFrame(f.closure, FunctionScope(f.site));
      AllSafeGrow(args, old(objects), objects);
      DefineParameters(frame, f.declaration.params, args);
      var c := ExecuteBlock(f.declaration.body, f.site, frame, fuel);
      completion := c;
      if c.OutOfFuel? {
        r := OutOfFuel;
      } else if c.Raised? {
        r := Normal(VNone);
      } else if f.isInitializer {
        r := ThisRecord(f.closure);
      } else if c.Returning? {
        r := Normal(c.result);
      } else {
        r := Normal(VNone);
      }
    }

    /**
     * `LanguageClass.call` (language_class.py:22-27): a new instance; the
     * initializer, if the class chain has one, bound to it and called with
     * the arguments; its result is discarded.
     */
    method CallClass(c: LanguageClass, args: seq<Value>, fuel: nat) returns (r: Flow<Value>)
      requires Valid() && ClassIn(c, objects) && |args| == c.Arity() && forall i | 0 <= i < |args| :: Safe(args[i])
      modifies this, objects
      ensures Valid() && Grown() && environment == old(environment)
      ensures r.Normal? ==> Safe(r.value) && r.value.VInstance? && fresh(r.value.instance) && r.value.instance.cls == c
      ensures !r.Returning?
      ensures c.FindMethod("init").None? ==> r.Normal? && r.value.instance.fields == map[]
      decreases fuel, InitializerBody(c), 5
    {
      FoundMethod(c, "init", objects);
      var initializer := c.FindMethod("init");
      var instance := NewInstance(c);
      r := Normal(VInstance(instance));
      if initializer.Some? {
        ClassGrows(c, old(objects), objects);
        AllSafeGrow(args, old(objects), objects);
        var result := Initialize(c, initializer.value, instance, args, fuel);
        if !result.Normal? {
          r := result;
        }
      }
    }

    /** The initializer of a new instance, bound to it and called with the arguments. */
    method Initialize(c: LanguageClass, initializer: LanguageFunction, instance: LanguageInstance, args: seq<Value>, fuel: nat)
      returns (r: Flow<Value>)
      requires Valid() && ClassIn(c, objects) && c.FindMethod("init") == Some(initializer) && instance in objects
      requires |args| == c.Arity() && forall i | 0 <= i < |args| :: Safe(args[i])
      modifies this, objects
      ensures Valid() && Grown() && environment == old(environment)
      ensures !r.Returning?
      decreases fuel, InitializerBody(c), 4
    {
      FoundMethod(c, "init", objects);
      var bound := BindMethod(initializer, VInstance(instance));
      AllSafeGrow(args, old(objects), objects);
      ghost var completion;
      r, completion := CallFunction(bound, args, fuel);
    }

    /** `visit_get_expr` (interpreter.py:304-308): only instances have properties. */
    method VisitGet(e: Expr, p: Path, fuel: nat) returns (r: Flow<Value>, ghost receiver: Flow<Value>)
      requires e.Get? && Valid() && At(sites, p, ExprNode(e), environment.chain)
      modifies this, objects
      ensures Valid() && Grown() && environment == old(environment)
      ensures r.Normal? ==> Safe(r.value)
      ensures !r.Returning?
      ensures !receiver.Normal? ==> r == receiver
      ensures receiver.Normal? && !receiver.value.VInstance? ==> r == Raised(RuntimeError(e.name, OnlyInstancesProperties))
      ensures receiver.Normal? && receiver.value.VInstance? && e.name.lexeme in receiver.value.instance.fields ==>
        r == Normal(receiver.value.instance.fields[e.name.lexeme])
      decreases fuel, e, 0
    {
      RecordedChildren(sites, p);
      var o := Evaluate(e.obj, p + [0], fuel);
      receiver := o;
      if !o.Normal? {
        return o, receiver;
      }
      if !o.value.VInstance? {
        return Raised(RuntimeError(e.name, OnlyInstancesProperties)), receiver;
      }
      var found := GetProperty(o.value.instance, e.name);
      r := FromResult(found);
    }

    /**
     * The rest of `visit_set_expr` once the receiver is an instance: the
     * value, then the field write of `AssignField` with the node's
     * assignment kind; `before` is the instance's fields once the value is
     * known, and `previous` the property `get` reads there.
     */
    method SetOnInstance(e: Expr, p: Path, o: LanguageInstance, fuel: nat)
      returns (r: Flow<Value>, ghost value: Flow<Value>, ghost outcome: Result<Value, Fault>, ghost previous: Option<Value>, ghost before: map<string, Value>)
      requires e.Set? && Valid() && At(sites, p + [0], ExprNode(e.value), environment.chain) && o in objects
      modifies this, objects
      ensures Valid() && Grown() && environment == old(environment)
      ensures r.Normal? ==> Safe(r.value)
      ensures !r.Returning?
      ensures !value.Normal? ==> r == value
      ensures value.Normal? ==>
        if outcome.Failure? then r == Raised(outcome.error)
        else r == value && e.name.lexeme in o.fields && o.fields[e.name.lexeme] == outcome.value
      ensures value.Normal? ==> outcome == SetProperty(previous, e.assignType, e.name, value.value) && o.cls.Linked()
      ensures value.Normal? && e.name.lexeme in before ==> previous == Some(before[e.name.lexeme])
      ensures value.Normal? && e.name.lexeme !in before && o.cls.FindMethod(e.name.lexeme).None? ==> previous == None
      ensures value.Normal? && e.name.lexeme !in before && o.cls.FindMethod(e.name.lexeme).Some? ==>
        previous.Some? && previous.value.VFunction? && previous.value.fn.IsBinding(o.cls.FindMethod(e.name.lexeme).value, VInstance(o))
      ensures value.Normal? && outcome.Success? ==> o.fields == before[e.name.lexeme := outcome.value]
      ensures value.Normal? && outcome.Failure? ==> o.fields == before
      decreases fuel, e, 1
    {
      outcome, previous, before := Failure(PythonError(KeyError)), None, map[];
      var v := Evaluate(e.value, p + [0], fuel);
      value := v;
      if !v.Normal? {
        return v, value, outcome, previous, before;
      }
      ghost var S := objects;
      before := o.fields;
      var written, found := AssignField(o, e.name, e.assignType, v.value);
      SafeGrows(v.value, S, objects);
      outcome, previous := written, found;
      r := if written.Failure? then Raised(written.error) else v;
    }

    /**
     * `visit_set_expr` (interpreter.py:326-334): the receiver, then the
     * value; the field receives the compound assignment of the value to the
     * previous property, and the expression gives the value itself.
     */
    method VisitSet(e: Expr, p: Path, fuel: nat)
      returns (r: Flow<Value>, ghost receiver: Flow<Value>, ghost value: Flow<Value>, ghost outcome: Result<Value, Fault>,
               ghost previous: Option<Value>, ghost before: map<string, Value>)
      requires e.Set? && Valid() && At(sites, p, ExprNode(e), environment.chain)
      modifies this, objects
      ensures Valid() && Grown() && environment == old(environment)
      ensures r.Normal? ==> Safe(r.value)
      ensures !r.Returning?
      ensures e.obj == BuiltinObject ==> r == Raised(PythonError(AttributeError))
      ensures !receiver.Normal? ==> r == receiver
      ensures receiver.Normal? && !receiver.value.VInstance? ==> r == Raised(RuntimeError(e.name, OnlyInstancesFields))
      ensures receiver.Normal? && receiver.value.VInstance? && !value.Normal? ==> r == value
      ensures receiver.Normal? && receiver.value.VInstance? && value.Normal? ==>
        if outcome.Failure? then r == Raised(outcome.error)
        else
          r == value && e.name.lexeme in receiver.value.instance.fields &&
          receiver.value.instance.fields[e.name.lexeme] == outcome.value
      ensures receiver.Normal? && receiver.value.VInstance? && value.Normal? ==>
        outcome == SetProperty(previous, e.assignType, e.name, value.value) && receiver.value.instance.cls.Linked()
      ensures receiver.Normal? && receiver.value.VInstance? && value.Normal? ==>
        var o := receiver.value.instance;
        (e.name.lexeme in before ==> previous == Some(before[e.name.lexeme])) &&
        (e.name.lexeme !in before && o.cls.FindMethod(e.name.lexeme).None? ==> previous == None) &&
        (outcome.Success? ==> o.fields == before[e.name.lexeme := outcome.value]) &&
        (outcome.Failure? ==> o.fields == before)
      decreases fuel, e, 2
    {
      RecordedChildren(sites, p);
      value, outcome, previous, before := OutOfFuel, Failure(PythonError(KeyError)), None, map[];
      var o := Evaluate(e.obj, p + [1], fuel);
      receiver := o;
      if !o.Normal? {
        return o, receiver, value, outcome, previous, before;
      }
      if !o.value.VInstance? {
        return Raised(RuntimeError(e.name, OnlyInstancesFields)), receiver, value, outcome, previous, before;
      }
      r, value, outcome, previous, before := SetOnInstance(e, p, o.value.instance, fuel);
    }

    /** What `visit_super_expr` reads: `super` at the recorded depth and `this` one frame nearer. */
    ghost function SuperOperands(p: Path): Result<(Value, Value), Fault>
      requires environment.Linked()
      reads this`environment, environment.Footprint()
    {
      if p !in locals then Failure(PythonError(KeyError))
      else
        var distance: int := locals[p];
        var a := environment.AncestorOf(distance);
        var b := environment.AncestorOf(distance - 1);
        if a == null then Failure(PythonError(AttributeError))
        else if "super" !in a.values then Failure(PythonError(KeyError))
        else if b == null then Failure(PythonError(AttributeError))
        else if "this" !in b.values then Failure(PythonError(KeyError))
        else Success((a.values["super"].item, b.values["this"].item))
    }

    /** Reads the operands of a `super` expression as `visit_super_expr` does, in its order. */
    method LoadSuperOperands(p: Path) returns (r: Result<(Value, Value), Fault>)
      requires Valid()
      ensures r == SuperOperands(p)
      ensures r.Success? ==> Safe(r.value.0) && Safe(r.value.1)
    {
      if p !in locals {
        return Failure(PythonError(KeyError));
      }
      var distance: int := locals[p];
      FrameIsClosed(environment);
      var superclass := environment.GetAt(distance, "super");
      if superclass.Failure? {
        return Failure(superclass.error);
      }
      var instance := environment.GetAt(distance - 1, "this");
      if instance.Failure? {
        return Failure(instance.error);
      }
      FrameIsClosed(environment.AncestorOf(distance));
      FrameIsClosed(environment.AncestorOf(distance - 1));
      r := Success((superclass.value.item, instance.value.item));
    }

    /** The second half of `visit_super_expr`: `find_method` on the superclass, then `bind` to the instance. */
    method BindSuper(superclass: Value, instance: Value, name: Token) returns (r: Flow<Value>)
      requires Valid() && Safe(superclass) && Safe(instance)
      modifies this`objects
      ensures Valid() && Grown()
      ensures r.Normal? ==> Safe(r.value)
      ensures !superclass.VClass? ==> r == Raised(PythonError(AttributeError))
      ensures superclass.VClass? ==> superclass.cls.Linked()
      ensures superclass.VClass? && superclass.cls.FindMethod(name.lexeme).None? ==> r == Raised(UndefinedProperty(name))
      ensures superclass.VClass? && superclass.cls.FindMethod(name.lexeme).Some? ==>
        r.Normal? && r.value.VFunction? && fresh(r.value.fn) && r.value.fn.IsBinding(superclass.cls.FindMethod(name.lexeme).value, instance)
    {
      if !superclass.VClass? {
        return Raised(PythonError(AttributeError));
      }
      FoundMethod(superclass.cls, name.lexeme, objects);
      var candidate := superclass.cls.FindMethod(name.lexeme);
      if candidate.None? {
        return Raised(UndefinedProperty(name));
      }
      var bound := BindMethod(candidate.value, instance);
      r := Normal(VFunction(bound));
    }

    /**
     * `visit_super_expr` (interpreter.py:336-343): the method found from the
     * superclass held as `super` at the recorded depth, bound to the `this`
     * one frame nearer. The recorded depth reaches the frame of the scope
     * the resolver bound `super` in.
     */
    method VisitSuper(e: Expr, p: Path) returns (r: Flow<Value>)
      requires e.Super? && Valid() && At(sites, p, ExprNode(e), environment.chain)
      modifies this`objects
      ensures Valid() && Grown()
      ensures r.Normal? ==> Safe(r.value)
      ensures p in locals ==> environment.AncestorOf(locals[p]) != null && environment.AncestorOf(locals[p]).tag == binding[p]
      ensures SuperOperands(p).Failure? ==> r == Raised(SuperOperands(p).error)
      ensures SuperOperands(p).Success? ==>
        var (superclass, instance) := SuperOperands(p).value;
        if !superclass.VClass? then r == Raised(PythonError(AttributeError))
        else
          superclass.cls.Linked() &&
          match superclass.cls.FindMethod(e.methodName.lexeme)
          case None => r == Raised(UndefinedProperty(e.methodName))
          case Some(m) => r.Normal? && r.value.VFunction? && fresh(r.value.fn) && r.value.fn.IsBinding(m, instance)
    {
      if p in locals {
        DepthReachesBindingFrame(environment, sites, locals, binding, p);
      }
      var operands := LoadSuperOperands(p);
      if operands.Failure? {
        return Raised(operands.error);
      }
      r := BindSuper(operands.value.0, operands.value.1, e.methodName);
    }

    /** `visit_list_expr` (interpreter.py:218-222): a new list of the evaluated elements. */
    method VisitList(e: Expr, p: Path, fuel: nat) returns (r: Flow<Value>)
      requires e.ListExpr? && Valid() && At(sites, p, ExprNode(e), environment.chain)
      modifies this, objects
      ensures Valid() && Grown() && environment == old(environment)
      ensures r.Normal? ==> Safe(r.value)
      ensures !r.Returning?
      ensures r.Normal? ==> r.value.VList? && fresh(r.value.list) && |r.value.list.values| == |e.values|
      decreases fuel, e, 0
    {
      RecordedChildren(sites, p);
      var list := new LanguageList();
      var i := 0;
      while i < |e.values|
        invariant 0 <= i <= |e.values| && |list.values| == i
        invariant Valid() && Grown() && environment == old(environment)
        invariant fresh(list) && list !in objects
        invariant forall j | 0 <= j < i :: Safe(list.values[j])
      {
        ghost var S := objects;
        var v :- Evaluate(e.values[i], p + [i], fuel);
        AllSafeGrow(list.values, S, objects);
        list.Append(v);
        i := i + 1;
      }
      AdoptList(list);
      r := Normal(VList(list));
    }

    /**
     * The write half of `visit_subscript_expr` (interpreter.py:234-243): the
     * value must have the previous element's category and not both be None;
     * the compound assignment is then stored by `set_at_index`, which fails
     * outside the list and one past its end.
     */
    method StoreElement(l: LanguageList, i: int, value: Value, t: AssignType, paren: Token) returns (r: Flow<Value>)
      requires Valid() && l in objects && Safe(value)
      modifies l
      ensures Valid()
      ensures r.Normal? ==> Safe(r.value)
      ensures ElementStored(old(l.values), i, value, t, paren, r, l.values)
    {
      ListIsClosed(l);
      var previous := l.GetEleAt(i);
      if !SameCategory(value, previous) || (value.VNone? && previous.VNone?) {
        return Raised(RuntimeError(paren, UnexpectedValueType));
      }
      AssignedValueKinds(t, paren, previous, value);
      var stored := HandleAssigning(t, paren, previous, value);
      if stored.Failure? {
        return Raised(stored.error);
      }
      var ok := l.SetAtIndex(i, stored.value);
      forall j | 0 <= j < |l.values|
        ensures Safe(l.values[j])
      {
        if j != i {
          assert l.values[j] == old(l.values)[j];
        }
      }
      forall x | x in objects
        ensures HoldsIn(x, objects)
      {
        if x != l {
          assert Among(x, objects) && old(HoldsIn(x, objects));
        }
      }
      if !ok {
        return Raised(RuntimeError(paren, IndexOutOfRange));
      }
      r := Normal(stored.value);
    }

    /**
     * `visit_subscript_expr` (interpreter.py:224-247): the target must be a
     * list and the index convert to an int; a read then needs the index
     * inside the list, and a write evaluates its value and stores it as
     * `ElementStored` says, where `before` is the list once the value is
     * known.
     */
    method VisitSubscript(e: Expr, p: Path, fuel: nat)
      returns (r: Flow<Value>, ghost target: Flow<Value>, ghost index: Flow<Value>, ghost written: Flow<Value>, ghost before: seq<Value>)
      requires e.Subscript? && Valid() && At(sites, p, ExprNode(e), environment.chain)
      modifies this, objects
      ensures Valid() && Grown() && environment == old(environment)
      ensures r.Normal? ==> Safe(r.value)
      ensures !r.Returning?
      ensures !target.Normal? ==> r == target
      ensures target.Normal? && !index.Normal? ==> r == index
      ensures target.Normal? && index.Normal? && !target.value.VList? ==> r == Raised(RuntimeError(e.paren, OnlyListsSubscripted))
      ensures target.Normal? && index.Normal? && target.value.VList? && !CanConvertToInt(index.value) ==>
        r == Raised(RuntimeError(e.paren, IndexNotInt))
      ensures target.Normal? && index.Normal? && target.value.VList? && CanConvertToInt(index.value) && e.written.None? ==>
        r == ElementAt(target.value.list, ToInt(index.value), e.paren)
      ensures target.Normal? && index.Normal? && target.value.VList? && CanConvertToInt(index.value) && e.written.Some? && r.Normal? ==>
        0 <= ToInt(index.value) < |target.value.list.values| && target.value.list.values[ToInt(index.value)] == r.value
      ensures target.Normal? && index.Normal? && target.value.VList? && CanConvertToInt(index.value) && e.written.Some? ==>
        (!written.Normal? ==> r == written) &&
        (written.Normal? ==> ElementStored(before, ToInt(index.value), written.value, e.assignType, e.paren, r, target.value.list.values))
      decreases fuel, e, 2
    {
      RecordedChildren(sites, p);
      index, written, before := OutOfFuel, OutOfFuel, [];
      var t := Evaluate(e.target, p + [0], fuel);
      target := t;
      if !t.Normal? {
        return t, target, index, written, before;
      }
      r, index, written, before := SubscriptIndexed(e, p, t.value, fuel);
    }

    /** `visit_subscript_expr` once the target is known: the index, the checks, then the read or the write. */
    method SubscriptIndexed(e: Expr, p: Path, t: Value, fuel: nat)
      returns (r: Flow<Value>, ghost index: Flow<Value>, ghost written: Flow<Value>, ghost before: seq<Value>)
      requires e.Subscript? && Valid() && Safe(t) && At(sites, p, ExprNode(e), environment.chain) && ChildrenRecorded(sites, p)
      modifies this, objects
      ensures Valid() && Grown() && environment == old(environment)
      ensures r.Normal? ==> Safe(r.value)
      ensures !r.Returning?
      ensures !index.Normal? ==> r == index
      ensures index.Normal? && !t.VList? ==> r == Raised(RuntimeError(e.paren, OnlyListsSubscripted))
      ensures index.Normal? && t.VList? && !CanConvertToInt(index.value) ==> r == Raised(RuntimeError(e.paren, IndexNotInt))
      ensures index.Normal? && t.VList? && CanConvertToInt(index.value) && e.written.None? ==>
        r == ElementAt(t.list, ToInt(index.value), e.paren)
      ensures index.Normal? && t.VList? && CanConvertToInt(index.value) && e.written.Some? && r.Normal? ==>
        0 <= ToInt(index.value) < |t.list.values| && t.list.values[ToInt(index.value)] == r.value
      ensures index.Normal? && t.VList? && CanConvertToInt(index.value) && e.written.Some? ==>
        (!written.Normal? ==> r == written) &&
        (written.Normal? ==> ElementStored(before, ToInt(index.value), written.value, e.assignType, e.paren, r, t.list.values))
      decreases fuel, e, 1
    {
      ghost var S := objects;
      written, before := OutOfFuel, [];
      var n := Evaluate(e.index, p + [1], fuel);
      index := n;
      if !n.Normal? {
        return n, index, written, before;
      }
      if !t.VList? {
        return Raised(RuntimeError(e.paren, OnlyListsSubscripted)), index, written, before;
      }
      if !CanConvertToInt(n.value) {
        return Raised(RuntimeError(e.paren, IndexNotInt)), index, written, before;
      }
      SafeGrows(t, S, objects);
      if e.written.Some? {
        r, written, before := SubscriptWrite(e, p, t.list, ToInt(n.value), fuel);
      } else {
        r := ElementAt(t.list, ToInt(n.value), e.paren);
        ListIsClosed(t.list);
      }
    }

    /**
     * The write branch of `visit_subscript_expr`: the value, then
     * `StoreElement` at the index with the node's assignment kind; `before`
     * is the list once the value is known.
     */
    method SubscriptWrite(e: Expr, p: Path, l: LanguageList, i: int, fuel: nat)
      returns (r: Flow<Value>, ghost written: Flow<Value>, ghost before: seq<Value>)
      requires e.Subscript? && e.written.Some? && Valid() && l in objects && At(sites, p, ExprNode(e), environment.chain) && ChildrenRecorded(sites, p)
      modifies this, objects
      ensures Valid() && Grown() && environment == old(environment)
      ensures r.Normal? ==> Safe(r.value) && 0 <= i < |l.values| && l.values[i] == r.value
      ensures !r.Returning?
      ensures !written.Normal? ==> r == written
      ensures written.Normal? ==> ElementStored(before, i, written.value, e.assignType, e.paren, r, l.values)
      decreases fuel, e, 0
    {
      before := [];
      var v := Evaluate(e.written.value, p + [2], fuel);
      written := v;
      if !v.Normal? {
        return v, written, before;
      }
      before := l.values;
      r := StoreElement(l, i, v.value, e.assignType, e.paren);
      ElementStoredEffect(before, i, v.value, e.assignType, e.paren, r, l.values);
    }

    // ----- statements -----

    /** `execute`: dispatch on the kind of statement. */
    method Execute(s: Stmt, p: Path, fuel: nat) returns (r: Flow<()>)
      requires Valid() && At(sites, p, StmtNode(s), environment.chain)
      modifies this, objects
      ensures Valid() && Grown() && environment == old(environment)
      ensures r.Returning? ==> Safe(r.result)
      decreases fuel, s, 2
    {
      match s {
        case BlockStmt(_) =>
          r := VisitBlock(s, p, fuel);
        case ClassStmt(_, _, _) =>
          ghost var cls;
          r, cls := VisitClass(s, p);
        case ExpressionStmt(_) =>
          ghost var value;
          r, value := VisitExpressionStmt(s, p, fuel);
        case FunctionStmt(_) =>
          ghost var fn;
          r, fn := VisitFunction(s, p);
        case IfStmt(_, _, _) =>
          ghost var condition;
          r, condition := VisitIf(s, p, fuel);
        case PrintStmt(_) =>
          ghost var printed, before, text;
          r, printed, before, text := VisitPrint(s, p, fuel);
        case ReturnStmt(_, _) =>
          ghost var returned;
          r, returned := VisitReturn(s, p, fuel);
        case VarStmt(_) =>
          ghost var initial;
          r, initial := VisitVar(s, p, fuel);
        case WhileStmt(_, _) =>
          ghost var last;
          r, last := VisitWhile(s, p, fuel);
      }
    }

    /** Statements in order, stopping at the first that does not complete normally. */
    method ExecuteStatements(statements: seq<Stmt>, p: Path, fuel: nat) returns (r: Flow<()>)
      requires Valid() && BodyAt(sites, statements, p, environment.chain)
      modifies this, objects
      ensures Valid() && Grown() && environment == old(environment)
      ensures r.Returning? ==> Safe(r.result)
      decreases fuel, statements, 0
    {
      var j := 0;
      while j < |statements|
        invariant 0 <= j <= |statements|
        invariant Valid() && Grown() && environment == old(environment)
      {
        assert At(sites, p + [j], StmtNode(statements[j]), environment.chain);
        r := Execute(statements[j], p + [j], fuel);
        if !r.Normal? {
          return;
        }
        j := j + 1;
      }
      r := Normal(());
    }

    /**
     * `execute_block` (interpreter.py:69-78): the statements run in `frame`,
     * and the previous frame is current again however they end.
     */
    method ExecuteBlock(statements: seq<Stmt>, p: Path, frame: Environment, fuel: nat) returns (r: Flow<()>)
      requires Valid() && frame in objects && BodyAt(sites, statements, p, frame.chain)
      modifies this, objects
      ensures Valid() && Grown() && environment == old(environment)
      ensures r.Returning? ==> Safe(r.result)
      decreases fuel, statements, 1
    {
      FrameIsClosed(frame);
      var previous := environment;
      environment := frame;
      r := ExecuteStatements(statements, p, fuel);
      environment := previous;
    }

    /** `visit_block_stmt` (interpreter.py:378-379): a new frame, standing for the block's scope. */
    method VisitBlock(s: Stmt, p: Path, fuel: nat) returns (r: Flow<()>)
      requires s.BlockStmt? && Valid() && At(sites, p, StmtNode(s), environment.chain)
      modifies this, objects
      ensures Valid() && Grown() && environment == old(environment)
      ensures r.Returning? ==> Safe(r.result)
      decreases fuel, s, 1
    {
      RecordedChildren(sites, p);
      var frame := PushFrame(environment, BlockScope(p));
      r := ExecuteBlock(s.statements, p, frame, fuel);
    }

    /** `visit_expression_stmt` (interpreter.py:401-402): the expression's value is discarded and its fault passed on. */
    method VisitExpressionStmt(s: Stmt, p: Path, fuel: nat) returns (r: Flow<()>, ghost value: Flow<Value>)
      requires s.ExpressionStmt? && Valid() && At(sites, p, StmtNode(s), environment.chain)
      modifies this, objects
      ensures Valid() && Grown() && environment == old(environment)
      ensures !r.Returning?
      ensures value.Normal? ==> r == Normal(())
      ensures !value.Normal? ==> r == value.PropagateFailure<()>()
      decreases fuel, s, 1
    {
      RecordedChildren(sites, p);
      var v := Evaluate(s.expression, p + [0], fuel);
      value := v;
      if !v.Normal? {
        return v.PropagateFailure(), value;
      }
      r := Normal(());
    }

    /**
     * `visit_function_stmt` (interpreter.py:404-406): a closure over the
     * current frame, defined there under the function's name and declared
     * type.
     */
    method VisitFunction(s: Stmt, p: Path) returns (r: Flow<()>, ghost fn: LanguageFunction)
      requires s.FunctionStmt? && Valid() && At(sites, p, StmtNode(s), environment.chain)
      modifies environment
      ensures Valid() && r == Normal(())
      ensures fresh(fn) && fn.declaration == s.fn && fn.closure == environment && !fn.isInitializer
      ensures environment.values == old(environment.values)[s.fn.name.lexeme := Binding(Declared(s.fn.ctype), VFunction(fn))]
    {
      RecordedChildren(sites, p);
      FrameIsClosed(environment);
      var f := new LanguageFunction(s.fn, environment, false, p, false, GlobalScope);
      fn := f;
      DefineIn(environment, s.fn.name.lexeme, Declared(s.fn.ctype), VFunction(f));
      r := Normal(());
    }

    /**
     * The methods of a class body as unbound closures over `closure`; a
     * method is an initializer exactly when it is named `init`
     * (interpreter.py:392-395).
     */
    method BuildMethods(methods: seq<FunctionDecl>, p: Path, closure: Environment) returns (m: map<string, LanguageFunction>)
      requires Valid() && closure in objects
      requires forall i | 0 <= i < |methods| :: At(sites, MethodPath(p, i), MethodNode(methods[i]), closure.chain + [MethodScope(p)])
      ensures forall f | f in m.Values :: f.unbound && FunctionIn(f, objects)
      ensures forall i | 0 <= i < |methods| :: methods[i].name.lexeme in m
      ensures forall n | n in m ::
        m[n].isInitializer == (n == "init") && m[n].closure == closure &&
        exists i | 0 <= i < |methods| :: methods[i].name.lexeme == n && m[n].declaration == methods[i]
    {
      FrameIsClosed(closure);
      m := map[];
      var i := 0;
      while i < |methods|
        invariant 0 <= i <= |methods|
        invariant forall f | f in m.Values :: f.unbound && FunctionIn(f, objects)
        invariant forall j | 0 <= j < i :: methods[j].name.lexeme in m
        invariant forall n | n in m ::
          m[n].isInitializer == (n == "init") && m[n].closure == closure &&
          exists j | 0 <= j < i :: methods[j].name.lexeme == n && m[n].declaration == methods[j]
      {
        var site := MethodPath(p, i);
        RecordedChildren(sites, site);
        var f := new LanguageFunction(methods[i], closure, methods[i].name.lexeme == "init", site, true, MethodScope(p));
        m := m[methods[i].name.lexeme := f];
        i := i + 1;
      }
    }

    /**
     * `visit_class_stmt` (interpreter.py:381-399): the name is defined as
     * None first; a superclass must be a class. A class that fails there
     * leaves its name defined as None.
     */
    method VisitClass(s: Stmt, p: Path) returns (r: Flow<()>, ghost cls: LanguageClass?)
      requires s.ClassStmt? && Valid() && At(sites, p, StmtNode(s), environment.chain)
      modifies this, objects
      ensures Valid() && Grown() && environment == old(environment)
      ensures !r.Returning? && !r.OutOfFuel?
      ensures s.superclass.None? ==> r.Normal?
      ensures !r.Normal? ==> environment.values == old(environment.values)[s.name.lexeme := Binding(TokenNone, VNone)]
      ensures r.Normal? ==>
        cls != null && fresh(cls) && cls.name == s.name.lexeme && (cls.superclass != null <==> s.superclass.Some?) &&
        (forall i | 0 <= i < |s.methods| :: s.methods[i].name.lexeme in cls.methods) &&
        (forall n | n in cls.methods :: cls.methods[n].isInitializer == (n == "init"))
      ensures r.Normal? && (s.superclass.None? || s.name.lexeme != "super") ==>
        environment.values == old(environment.values)[s.name.lexeme := Binding(TokenNone, VClass(cls))]
      ensures r.Normal? && s.superclass.Some? && s.name.lexeme == "super" ==>
        environment.values == old(environment.values)[s.name.lexeme := Binding(TokenNone, VNone)]
    {
      RecordedChildren(sites, p);
      cls := null;
      FrameIsClosed(environment);
      DefineIn(environment, s.name.lexeme, TokenNone, VNone);
      var superclass: LanguageClass? := null;
      if s.superclass.Some? {
        var found := VisitVariable(Variable(s.superclass.value), SuperclassPath(p));
        if !found.Normal? {
          return found.PropagateFailure(), cls;
        }
        if !found.value.VClass? {
          return Raised(RuntimeError(s.superclass.value, SuperclassNotClass)), cls;
        }
        superclass := found.value.cls;
      }
      var klass := DeclareClass(s, p, superclass);
      cls := klass;
      r := Normal(());
    }

    /**
     * The rest of `visit_class_stmt` once the superclass is known: a frame
     * holding `super` when there is one, the methods closed over that frame,
     * and the class assigned to its name through that frame, which then
     * reaches the class's own frame unless the class is itself named `super`.
     */
    method DeclareClass(s: Stmt, p: Path, superclass: LanguageClass?) returns (cls: LanguageClass)
      requires s.ClassStmt? && Valid() && At(sites, p, StmtNode(s), environment.chain) && ChildrenRecorded(sites, p)
      requires (superclass != null <==> s.superclass.Some?) && (superclass != null ==> Safe(VClass(superclass)))
      requires s.name.lexeme in environment.values
      modifies this`objects, objects
      ensures Valid() && Grown()
      ensures fresh(cls) && cls.name == s.name.lexeme && cls.superclass == superclass
      ensures forall i | 0 <= i < |s.methods| :: s.methods[i].name.lexeme in cls.methods
      ensures forall n | n in cls.methods :: cls.methods[n].isInitializer == (n == "init")
      ensures superclass == null || s.name.lexeme != "super" ==>
        environment.values == old(environment.values)[s.name.lexeme := Binding(TokenNone, VClass(cls))]
      ensures superclass != null && s.name.lexeme == "super" ==> environment.values == old(environment.values)
    {
      var inner := ClassFrame(s, p, superclass);
      if superclass != null {
        SafeGrows(VClass(superclass), old(objects), objects);
      }
      var methods := BuildMethods(s.methods, p, inner);
      cls := NewClass(s.name.lexeme, superclass, methods);
      FrameIsClosed(inner);
      ghost var holder := if superclass != null && s.name.lexeme != "super" then 1 else 0;
      assert inner.HolderDistance(s.name.lexeme) == Some(holder) && inner.AncestorOf(holder) == (if holder == 1 then environment else inner);
      var outcome := AssignIn(inner, s.name, TokenNone, VClass(cls));
    }

    /** The frame the methods of a class close over: a new one holding `super` when there is a superclass. */
    method ClassFrame(s: Stmt, p: Path, superclass: LanguageClass?) returns (inner: Environment)
      requires s.ClassStmt? && Valid() && At(sites, p, StmtNode(s), environment.chain) && ChildrenRecorded(sites, p)
      requires (superclass != null <==> s.superclass.Some?) && (superclass != null ==> Safe(VClass(superclass)))
      modifies this`objects
      ensures Valid() && Grown() && inner in objects && inner.Linked()
      ensures superclass == null ==> inner == environment
      ensures superclass != null ==>
        fresh(inner) && inner.enclosing == environment && inner.values == map["super" := Binding(TokenNone, VClass(superclass))]
      ensures forall i | 0 <= i < |s.methods| :: At(sites, MethodPath(p, i), MethodNode(s.methods[i]), inner.chain + [MethodScope(p)])
    {
      inner := environment;
      if superclass != null {
        inner := PushFrame(environment, BaseScope(p));
        SafeGrows(VClass(superclass), old(objects), objects);
        DefineIn(inner, "super", TokenNone, VClass(superclass));
      }
      assert MethodChain(environment.chain, s.superclass.Some?, p) == inner.chain + [MethodScope(p)];
    }

    /** `visit_if_stmt` (interpreter.py:408-412). */
    method VisitIf(s: Stmt, p: Path, fuel: nat) returns (r: Flow<()>, ghost condition: Flow<Value>)
      requires s.IfStmt? && Valid() && At(sites, p, StmtNode(s), environment.chain)
      modifies this, objects
      ensures Valid() && Grown() && environment == old(environment)
      ensures r.Returning? ==> Safe(r.result)
      ensures !condition.Normal? ==> r == condition.PropagateFailure<()>()
      ensures condition.Normal? && !IsTruthy(condition.value) && s.elseBranch.None? ==> r == Normal(())
      decreases fuel, s, 1
    {
      RecordedChildren(sites, p);
      var c := Evaluate(s.condition, p + [0], fuel);
      condition := c;
      if !c.Normal? {
        return c.PropagateFailure(), condition;
      }
      if IsTruthy(c.value) {
        r := Execute(s.thenBranch, p + [1], fuel);
      } else if s.elseBranch.Some? {
        r := Execute(s.elseBranch.value, p + [2], fuel);
      } else {
        r := Normal(());
      }
    }

    /**
     * `visit_print_stmt` (interpreter.py:414-417): when printing is on, one
     * line with the value's text, as `PrintValue` gives it.
     */
    method VisitPrint(s: Stmt, p: Path, fuel: nat) returns (r: Flow<()>, ghost printed: Flow<Value>, ghost before: seq<string>, ghost text: Result<string, PyError>)
      requires s.PrintStmt? && Valid() && At(sites, p, StmtNode(s), environment.chain)
      modifies this, objects
      ensures Valid() && Grown() && environment == old(environment)
      ensures !r.Returning?
      ensures !printed.Normal? ==> r == printed.PropagateFailure<()>()
      ensures printed.Normal? && !isPrintable ==> r == Normal(()) && output == before
      ensures printed.Normal? && isPrintable && text.Success? ==> r == Normal(()) && output == before + [text.value]
      ensures printed.Normal? && isPrintable && text.Failure? ==> r == Raised(PythonError(text.error)) && output == before
      decreases fuel, s, 1
    {
      RecordedChildren(sites, p);
      text := Failure(RecursionError);
      var v := Evaluate(s.expression, p + [0], fuel);
      printed := v;
      before := output;
      if !v.Normal? {
        return v.PropagateFailure(), printed, before, text;
      }
      if !isPrintable {
        return Normal(()), printed, before, text;
      }
      r, text := PrintValue(v.value);
    }

    /**
     * The printing half of `visit_print_stmt`: the line `stringify` gives
     * for the value (interpreter.py:186-212), taken before it is appended;
     * `stringify` failing on too deep a nesting raises RecursionError.
     */
    method PrintValue(v: Value) returns (r: Flow<()>, text: Result<string, PyError>)
      modifies this`output
      ensures text == old(Stringify(v, RecursionLimit, floatText))
      ensures text.Success? ==> r == Normal(()) && output == old(output) + [text.value]
      ensures text.Failure? ==> r == Raised(PythonError(text.error)) && output == old(output)
    {
      text := Stringify(v, RecursionLimit, floatText);
      if text.Failure? {
        return Raised(PythonError(text.error)), text;
      }
      output := output + [text.value];
      r := Normal(());
    }

    /** `visit_return_stmt` (interpreter.py:419-423): the value, None without one, travels to the call. */
    method VisitReturn(s: Stmt, p: Path, fuel: nat) returns (r: Flow<()>, ghost returned: Flow<Value>)
      requires s.ReturnStmt? && Valid() && At(sites, p, StmtNode(s), environment.chain)
      modifies this, objects
      ensures Valid() && Grown() && environment == old(environment)
      ensures r.Returning? ==> Safe(r.result)
      ensures s.value.None? ==> r == Returning(VNone)
      ensures s.value.Some? && returned.Normal? ==> r == Returning(returned.value)
      ensures s.value.Some? && !returned.Normal? ==> r == returned.PropagateFailure<()>()
      decreases fuel, s, 1
    {
      returned := OutOfFuel;
      if s.value.None? {
        return Returning(VNone), returned;
      }
      RecordedChildren(sites, p);
      var v := Evaluate(s.value.value, p + [0], fuel);
      returned := v;
      if !v.Normal? {
        return v.PropagateFailure(), returned;
      }
      r := Returning(v.value);
    }

    /**
     * `visit_var_stmt` (interpreter.py:367-372): the initializer, if any,
     * must fit the declared type; the name is then defined in the current
     * frame, None without an initializer.
     */
    method VisitVar(s: Stmt, p: Path, fuel: nat) returns (r: Flow<()>, ghost initial: Flow<Value>)
      requires s.VarStmt? && Valid() && At(sites, p, StmtNode(s), environment.chain)
      modifies this, objects
      ensures Valid() && Grown() && environment == old(environment)
      ensures !r.Returning?
      ensures s.variable.initializer.None? ==>
        r == Normal(()) && environment.values == old(environment.values)[s.variable.name.lexeme := Binding(Declared(s.variable.ctype), VNone)]
      ensures s.variable.initializer.Some? && !initial.Normal? ==> r == initial.PropagateFailure<()>()
      ensures s.variable.initializer.Some? && initial.Normal? ==>
        if Fits(Declared(s.variable.ctype), initial.value) then
          r == Normal(()) && s.variable.name.lexeme in environment.values &&
          environment.values[s.variable.name.lexeme] == Binding(Declared(s.variable.ctype), initial.value)
        else r == Raised(WrongType(s.variable.name))
      decreases fuel, s, 1
    {
      var value := VNone;
      initial := OutOfFuel;
      if s.variable.initializer.Some? {
        RecordedChildren(sites, p);
        var v := Evaluate(s.variable.initializer.value, p + [0], fuel);
        initial := v;
        if !v.Normal? {
          return v.PropagateFailure(), initial;
        }
        if !Fits(Declared(s.variable.ctype), v.value) {
          return Raised(WrongType(s.variable.name)), initial;
        }
        value := v.value;
      }
      DefineIn(environment, s.variable.name.lexeme, Declared(s.variable.ctype), value);
      r := Normal(());
    }

    /**
     * `visit_while_stmt` (interpreter.py:374-376): the body runs while the
     * condition is truthy; a normal end means the last condition was falsy.
     * Each run of the loop may iterate at most `fuel` times.
     */
    method VisitWhile(s: Stmt, p: Path, fuel: nat) returns (r: Flow<()>, ghost last: Value)
      requires s.WhileStmt? && Valid() && At(sites, p, StmtNode(s), environment.chain)
      modifies this, objects
      ensures Valid() && Grown() && environment == old(environment)
      ensures r.Returning? ==> Safe(r.result)
      ensures r.Normal? ==> !IsTruthy(last)
      decreases fuel, s, 1
    {
      RecordedChildren(sites, p);
      last := VNone;
      var budget := fuel;
      while true
        invariant Valid() && Grown() && environment == old(environment)
        decreases budget
      {
        var c := Evaluate(s.condition, p + [0], fuel);
        if !c.Normal? {
          return c.PropagateFailure(), last;
        }
        if !IsTruthy(c.value) {
          return Normal(()), c.value;
        }
        if budget == 0 {
          return OutOfFuel, last;
        }
        var b := Execute(s.body, p + [1], fuel);
        if !b.Normal? {
          return b, last;
        }
        budget := budget - 1;
      }
    }

    /**
     * `interpret` (interpreter.py:52-58): the statements in order; a
     * RuntimeError is reported and ends the run, any other exception escapes.
     */
    method Interpret(statements: seq<Stmt>, printable: bool, fuel: nat) returns (outcome: Run)
      requires Valid() && environment == globals && BodyAt(sites, statements, [], globals.chain)
      modifies this, objects
      ensures Valid() && environment == globals && isPrintable == printable && old(output) <= output
    {
      isPrintable := printable;
      var j := 0;
      while j < |statements|
        invariant 0 <= j <= |statements|
        invariant Valid() && environment == globals && isPrintable == printable && old(output) <= output
        invariant old(objects) <= objects && fresh(objects - old(objects))
      {
        assert At(sites, [] + [j], StmtNode(statements[j]), environment.chain);
        var r := Execute(statements[j], [] + [j], fuel);
        match r {
          case Normal(_) =>
          case Raised(RuntimeError(token, message)) =>
            return Reported(token, message);
          case Raised(PythonError(kind)) =>
            return Crashed(kind);
          case Returning(_) =>
            return StrayReturn;
          case OutOfFuel =>
            return Exhausted;
        }
        j := j + 1;
      }
      outcome := Finished;
    }
  }
}
