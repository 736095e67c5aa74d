/**
 * The resolver (Runtime/resolver.py): a pass over the syntax tree that
 * works out, for every reference to a name, how many scopes out from the
 * innermost one the name is declared, and reports misplaced `return`,
 * `this` and `base`.
 *
 * Besides the resolver's own state the model keeps, as ghost state, the
 * names of the open scopes and the table of visited nodes (module Scopes),
 * so that the distances it records can be related to the frames the
 * interpreter builds.
 */
module Resolution {
  import opened Wrappers
  import opened Tokens
  import opened Ast
  import opened Scopes

  /** `Resolver.FunctionType`: the kind of body being resolved. */
  datatype FunctionType = NoFunction | PlainFunction | Initializer | Method

  /** `Resolver.ClassType`: the kind of class body being resolved. */
  datatype ClassType = NoClass | PlainClass | Subclass

  /**
   * How a resolution ends. The resolver reports a diagnostic by calling
   * `ErrorHandler.error_token` with itself as receiver; it has no `report`
   * method, so the first diagnostic raises and ends the resolution.
   * `Crashed` is the resolution of Python's builtin `object`, which the
   * parser stores as the receiver of every property assignment and which has
   * no `accept` method.
   */
  datatype Resolution = Resolved | Aborted(token: Token, message: string) | Crashed {

    predicate IsFailure() {
      !Resolved?
    }

    function PropagateFailure(): Resolution
      requires !Resolved?
    {
      this
    }
  }

  /** The resolver's diagnostics. */
  const AlreadyDeclared := "Already a variable with this name in this scope."
  const InheritsItself := "A class can't inherit from itself."
  const TopLevelReturn := "Can't return from top-level code."
  const InitializerReturn := "Can't return a value from an initializer."
  const OwnInitializer := "Can't read local variable in its own initializer."
  const SuperOutsideClass := "Can't use 'super' outside of a class."
  const SuperWithoutSuperclass := "Can't use 'super' in a class with no superclass."
  const ThisOutsideClass := "Can't use 'this' outside of a class."

  /** The index of the innermost scope that declares `name`, if any. */
  function Innermost(scopes: seq<map<string, bool>>, name: string): (r: Option<nat>)
    ensures r.Some? ==>
      r.value < |scopes| && name in scopes[r.value] &&
      forall k | r.value < k < |scopes| :: name !in scopes[k]
    ensures r.None? ==> forall k | 0 <= k < |scopes| :: name !in scopes[k]
  {
    if scopes == [] then None
    else if name in scopes[|scopes| - 1] then Some(|scopes| - 1)
    else Innermost(scopes[..|scopes| - 1], name)
  }

  /** Declaring a name in the innermost scope and then defining it leaves it defined there. */
  lemma DeclaredThenDefined(scopes: seq<map<string, bool>>, name: string)
    requires 0 < |scopes|
    ensures var last := |scopes| - 1;
      var declared := scopes[last := scopes[last][name := false]];
      declared[last := declared[last][name := true]] == scopes[last := scopes[last][name := true]]
  {
    var last := |scopes| - 1;
    assert scopes[last][name := false][name := true] == scopes[last][name := true];
  }

  class Resolver {
    /** One map per open scope, outermost first: declared names, and whether each declaration is complete. */
    var scopes: seq<map<string, bool>>
    /** One set per open scope: the declared names not referred to yet. */
    var identifiers: seq<set<Token>>
    var currentFunction: FunctionType
    var currentClass: ClassType
    /** What `Interpreter.resolve` receives: the scope distance of each resolved reference. */
    var locals: map<Path, nat>
    /** The names of the open scopes, outermost first. */
    ghost var scopeIds: seq<Scope>
    /** Every visited node, with the scopes open there. */
    ghost var sites: Sites
    /** For each resolved reference, the scope that declares it. */
    ghost var binding: map<Path, Scope>

    ghost predicate Valid()
      reads this
    {
      |identifiers| == |scopes| == |scopeIds| && 0 < |scopes| && scopeIds[0] == GlobalScope &&
      DepthsReachBindings(sites, locals, binding)
    }

    /** The scopes, the function kind and the class kind are as they were when a visit began. */
    ghost predicate Kept(chain: seq<Scope>, depth: nat, fn: FunctionType, cls: ClassType)
      reads this
    {
      scopeIds == chain && |scopes| == depth && currentFunction == fn && currentClass == cls
    }

    /** The visit of `node` at `p`, begun with `before` recorded and `chain` open, ended normally. */
    ghost predicate Visited(before: Sites, p: Path, node: Node, chain: seq<Scope>, depth: nat, fn: FunctionType, cls: ClassType)
      reads this
    {
      GrownAt(before, sites, p) && At(sites, p, node, chain) && Kept(chain, depth, fn, cls)
    }

    /** Every scope but the innermost holds what it held in `before`, and no scope was opened or closed. */
    ghost predicate OuterScopesKept(before: seq<map<string, bool>>)
      reads this
    {
      0 < |before| == |scopes| && scopes[..|scopes| - 1] == before[..|before| - 1]
    }

    /** `Resolver.__init__`: the global scope alone is open. */
    constructor()
      ensures Valid() && scopes == [map[]] && identifiers == [{}] && scopeIds == [GlobalScope]
      ensures currentFunction == NoFunction && currentClass == NoClass
      ensures locals == map[] && sites == map[] && binding == map[]
    {
      scopes := [map[]];
      identifiers := [{}];
      currentFunction := NoFunction;
      currentClass := NoClass;
      locals := map[];
      scopeIds := [GlobalScope];
      sites := map[];
      binding := map[];
    }

    /** `begin_scope`: opens the scope named `id`. */
    method BeginScope(ghost id: Scope)
      requires Valid()
      modifies this`scopes, this`identifiers, this`scopeIds
      ensures Valid()
      ensures scopes == old(scopes) + [map[]] && identifiers == old(identifiers) + [{}]
      ensures scopeIds == old(scopeIds) + [id]
    {
      identifiers := identifiers + [{}];
      scopes := scopes + [map[]];
      scopeIds := scopeIds + [id];
    }

    /** `end_scope`: closes the innermost scope. */
    method EndScope()
      requires Valid() && 1 < |scopes|
      modifies this`scopes, this`identifiers, this`scopeIds
      ensures Valid()
      ensures scopes == old(scopes[..|scopes| - 1]) && identifiers == old(identifiers[..|identifiers| - 1])
      ensures scopeIds == old(scopeIds[..|scopeIds| - 1])
    {
      identifiers := identifiers[..|identifiers| - 1];
      scopes := scopes[..|scopes| - 1];
      scopeIds := scopeIds[..|scopeIds| - 1];
    }

    /**
     * `declare`: a name already declared in the innermost scope is an error;
     * otherwise it is declared there as not yet complete.
     */
    method Declare(name: Token) returns (r: Resolution)
      requires Valid()
      modifies this`scopes, this`identifiers
      ensures Valid() && |scopes| == old(|scopes|)
      ensures r.Resolved? <==> name.lexeme !in old(scopes[|scopes| - 1])
      ensures r.Resolved? ==>
        scopes == old(scopes[|scopes| - 1 := scopes[|scopes| - 1][name.lexeme := false]]) &&
        identifiers == old(identifiers[|identifiers| - 1 := identifiers[|identifiers| - 1] + {name}])
      ensures !r.Resolved? ==>
        r == Aborted(name, AlreadyDeclared) &&
        scopes == old(scopes) && identifiers == old(identifiers)
    {
      var last := |scopes| - 1;
      if name.lexeme in scopes[last] {
        return Aborted(name, AlreadyDeclared);
      }
      identifiers := identifiers[last := identifiers[last] + {name}];
      scopes := scopes[last := scopes[last][name.lexeme := false]];
      r := Resolved;
    }

    /** `define`: the name's declaration in the innermost scope is complete. */
    method Define(name: string)
      requires Valid()
      modifies this`scopes
      ensures Valid()
      ensures scopes == old(scopes[|scopes| - 1 := scopes[|scopes| - 1][name := true]])
    {
      scopes := scopes[|scopes| - 1 := scopes[|scopes| - 1][name := true]];
    }

    /**
     * `resolve_local`: searches the scopes from the innermost out; in the
     * first that declares the name, it marks the name as used and records the
     * reference's distance. A name no scope declares is left to the globals.
     */
    method ResolveLocal(p: Path, name: Token) returns (ghost found: Option<nat>)
      requires Valid() && p in sites && sites[p].chain == scopeIds
      modifies this`identifiers, this`locals, this`binding
      ensures Valid() && found == Innermost(scopes, name.lexeme)
      ensures found.Some? ==>
        locals == old(locals)[p := |scopes| - 1 - found.value] && binding == old(binding)[p := scopeIds[found.value]] &&
        identifiers == old(identifiers)[found.value := old(identifiers)[found.value] - {name}]
      ensures found.None? ==> locals == old(locals) && binding == old(binding) && identifiers == old(identifiers)
    {
      var scope := FindScope(name.lexeme);
      found := scope;
      if scope.Some? {
        var i := scope.value;
        DepthRecorded(sites, locals, binding, p, |scopes| - 1 - i, scopeIds[i]);
        identifiers := identifiers[i := identifiers[i] - {name}];
        locals := locals[p := |scopes| - 1 - i];
        binding := binding[p := scopeIds[i]];
      }
    }

    /** The loop of `resolve_local`: the innermost open scope that declares `name`. */
    method FindScope(name: string) returns (found: Option<nat>)
      ensures found == Innermost(scopes, name)
    {
      var i := |scopes|;
      while i > 0
        invariant 0 <= i <= |scopes|
        invariant forall k | i <= k < |scopes| :: name !in scopes[k]
      {
        i := i - 1;
        if name in scopes[i] {
          return Some(i);
        }
      }
      return None;
    }

    /** Records that `node` is visited at the unvisited position `p` with the current scopes open. */
    ghost method Record(p: Path, node: Node)
      requires Valid() && Unvisited(sites, p)
      modifies this`sites
      ensures Valid() && p !in old(sites) && sites == old(sites)[p := Site(node, scopeIds)]
      ensures NothingBelow(sites, p) && GrownBelow(sites, sites, p, 0)
    {
      StartVisit(sites, p, Site(node, scopeIds));
      sites := sites[p := Site(node, scopeIds)];
    }

    /** `resolve`: the statements of a body, in order, at positions `p + [j]`. */
    method ResolveStatements(statements: seq<Stmt>, p: Path) returns (r: Resolution)
      requires Valid() && NothingBelow(sites, p)
      modifies this
      ensures Valid()
      ensures r.Resolved? ==>
        GrownBelow(old(sites), sites, p, |statements|) && BodyAt(sites, statements, p, old(scopeIds)) &&
        Kept(old(scopeIds), old(|scopes|), old(currentFunction), old(currentClass))
      ensures r.Resolved? ==> OuterScopesKept(old(scopes))
      decreases statements, 0
    {
      ghost var before := sites;
      var j := 0;
      while j < |statements|
        invariant 0 <= j <= |statements|
        invariant Valid() && Kept(old(scopeIds), old(|scopes|), old(currentFunction), old(currentClass))
        invariant OuterScopesKept(old(scopes))
        invariant GrownBelow(before, sites, p, j)
        invariant forall k | 0 <= k < j :: At(sites, p + [k], StmtNode(statements[k]), scopeIds)
      {
        NextChildUnvisited(before, sites, p, j);
        ghost var mid := sites;
        r := ResolveStmt(statements[j], p + [j]);
        if r.IsFailure() {
          return;
        }
        ChildVisited(before, mid, sites, p, j);
        j := j + 1;
      }
      r := Resolved;
    }

    /** The program: `resolve` on its statements with a fresh resolver. */
    method ResolveProgram(statements: seq<Stmt>) returns (r: Resolution)
      requires Valid() && sites == map[] && scopeIds == [GlobalScope]
      modifies this
      ensures Valid()
      ensures r.Resolved? ==>
        Complete(sites) && BodyAt(sites, statements, [], [GlobalScope]) && scopeIds == [GlobalScope]
    {
      r := ResolveStatements(statements, []);
      if r.Resolved? {
        ProgramComplete(sites, |statements|);
      }
    }

    /** Child `k` of the node at `p`, an expression. */
    method ResolveChild(e: Expr, p: Path, k: nat, ghost own: Sites) returns (r: Resolution)
      requires Valid() && NothingBelow(own, p) && GrownBelow(own, sites, p, k)
      modifies this`identifiers, this`locals, this`binding, this`sites
      ensures Valid()
      ensures e == BuiltinObject ==> r == Crashed
      ensures r.Resolved? ==>
        GrownBelow(own, sites, p, k + 1) && Extends(sites, old(sites)) &&
        At(sites, p + [k], ExprNode(e), old(scopeIds)) &&
        Kept(old(scopeIds), old(|scopes|), old(currentFunction), old(currentClass))
      ensures scopes == old(scopes)
      decreases e, 2
    {
      NextChildUnvisited(own, sites, p, k);
      ghost var mid := sites;
      r := ResolveExpr(e, p + [k]);
      if r.Resolved? {
        ChildVisited(own, mid, sites, p, k);
      }
    }

    /** Child `k` of the node at `p`, a statement. */
    method ResolveChildStmt(s: Stmt, p: Path, k: nat, ghost own: Sites) returns (r: Resolution)
      requires Valid() && NothingBelow(own, p) && GrownBelow(own, sites, p, k)
      modifies this
      ensures Valid()
      ensures r.Resolved? ==>
        GrownBelow(own, sites, p, k + 1) && Extends(sites, old(sites)) &&
        At(sites, p + [k], StmtNode(s), old(scopeIds)) &&
        Kept(old(scopeIds), old(|scopes|), old(currentFunction), old(currentClass))
      ensures r.Resolved? ==> OuterScopesKept(old(scopes))
      decreases s, 4
    {
      NextChildUnvisited(own, sites, p, k);
      ghost var mid := sites;
      r := ResolveStmt(s, p + [k]);
      if r.Resolved? {
        ChildVisited(own, mid, sites, p, k);
      }
    }

    /** `resolve_stmt`: dispatches on the kind of statement. */
    method ResolveStmt(s: Stmt, p: Path) returns (r: Resolution)
      requires Valid() && Unvisited(sites, p)
      modifies this
      ensures Valid()
      ensures r.Resolved? ==>
        Visited(old(sites), p, StmtNode(s), old(scopeIds), old(|scopes|), old(currentFunction), old(currentClass))
      ensures r.Resolved? ==> OuterScopesKept(old(scopes))
      decreases s, 3
    {
      match s
      case BlockStmt(_) => r := VisitBlock(s, p);
      case ClassStmt(_, _, _) => r := VisitClass(s, p);
      case ExpressionStmt(_) => r := VisitExpressionStmt(s, p);
      case FunctionStmt(_) => r := VisitFunction(s, p);
      case IfStmt(_, _, _) => r := VisitIf(s, p);
      case PrintStmt(_) => r := VisitExpressionStmt(s, p);
      case ReturnStmt(_, _) => r := VisitReturn(s, p);
      case VarStmt(_) => r := VisitVar(s, p);
      case WhileStmt(_, _) => r := VisitWhile(s, p);
    }

    /** `visit_block_stmt`: the statements in a new scope. */
    method VisitBlock(s: Stmt, p: Path) returns (r: Resolution)
      requires s.BlockStmt? && Valid() && Unvisited(sites, p)
      modifies this
      ensures Valid()
      ensures r.Resolved? ==>
        Visited(old(sites), p, StmtNode(s), old(scopeIds), old(|scopes|), old(currentFunction), old(currentClass))
      ensures r.Resolved? ==> scopes == old(scopes)
      decreases s, 2
    {
      ghost var before := sites;
      ghost var chain := scopeIds;
      Record(p, StmtNode(s));
      BeginScope(BlockScope(p));
      r := ResolveStatements(s.statements, p);
      if r.IsFailure() {
        return;
      }
      EndScope();
      FinishStmtVisit(before, sites, p, s, chain, |s.statements|);
    }

    /** `visit_expression_stmt` and `visit_print_stmt`: the expression. */
    method VisitExpressionStmt(s: Stmt, p: Path) returns (r: Resolution)
      requires (s.ExpressionStmt? || s.PrintStmt?) && Valid() && Unvisited(sites, p)
      modifies this
      ensures Valid()
      ensures r.Resolved? ==>
        Visited(old(sites), p, StmtNode(s), old(scopeIds), old(|scopes|), old(currentFunction), old(currentClass))
      ensures r.Resolved? ==> scopes == old(scopes)
      decreases s, 2
    {
      ghost var before := sites;
      ghost var chain := scopeIds;
      Record(p, StmtNode(s));
      r := ResolveChild(s.expression, p, 0, sites);
      if r.IsFailure() {
        return;
      }
      FinishStmtVisit(before, sites, p, s, chain, 1);
    }

    /** `visit_function_stmt`: the name is declared and defined, then the function is resolved. */
    method VisitFunction(s: Stmt, p: Path) returns (r: Resolution)
      requires s.FunctionStmt? && Valid() && Unvisited(sites, p)
      modifies this
      ensures Valid()
      ensures r.Resolved? ==>
        Visited(old(sites), p, StmtNode(s), old(scopeIds), old(|scopes|), old(currentFunction), old(currentClass))
      ensures s.fn.name.lexeme in old(scopes[|scopes| - 1]) ==> r == Aborted(s.fn.name, AlreadyDeclared)
      ensures r.Resolved? ==> scopes == old(scopes[|scopes| - 1 := scopes[|scopes| - 1][s.fn.name.lexeme := true]])
      decreases s, 2
    {
      ghost var before := sites;
      ghost var chain := scopeIds;
      Record(p, StmtNode(s));
      ghost var outer := scopes;
      :- Declare(s.fn.name);
      Define(s.fn.name.lexeme);
      DeclaredThenDefined(outer, s.fn.name.lexeme);
      r := ResolveFunction(s.fn, p, PlainFunction);
      if r.IsFailure() {
        return;
      }
      FinishStmtVisit(before, sites, p, s, chain, |s.fn.body|);
      r := Resolved;
    }

    /**
     * `resolve_function`: the parameters are declared in a new scope, named
     * after the declaration's position `q`, and the body is resolved in it
     * with the given function kind.
     */
    method ResolveFunction(f: FunctionDecl, q: Path, kind: FunctionType) returns (r: Resolution)
      requires Valid() && NothingBelow(sites, q)
      modifies this
      ensures Valid()
      ensures r.Resolved? ==>
        GrownBelow(old(sites), sites, q, |f.body|) &&
        BodyAt(sites, f.body, q, old(scopeIds) + [FunctionScope(q)]) &&
        Kept(old(scopeIds), old(|scopes|), old(currentFunction), old(currentClass))
      ensures r.Resolved? ==> scopes == old(scopes)
      decreases f, 1
    {
      var enclosingFunction := currentFunction;
      currentFunction := kind;
      BeginScope(FunctionScope(q));
      :- DeclareParameters(f.params);
      :- ResolveStatements(f.body, q);
      EndScope();
      currentFunction := enclosingFunction;
      r := Resolved;
    }

    /** The loop of `resolve_function` over the parameters: each is declared, then defined. */
    method DeclareParameters(params: seq<VarDecl>) returns (r: Resolution)
      requires Valid()
      modifies this`scopes, this`identifiers
      ensures Valid() && |scopes| == old(|scopes|)
      ensures r.Resolved? ==>
        scopes[..|scopes| - 1] == old(scopes[..|scopes| - 1]) &&
        forall i | 0 <= i < |params| ::
          params[i].name.lexeme in scopes[|scopes| - 1] && scopes[|scopes| - 1][params[i].name.lexeme]
    {
      var i := 0;
      while i < |params|
        invariant 0 <= i <= |params|
        invariant Valid() && |scopes| == old(|scopes|)
        invariant scopes[..|scopes| - 1] == old(scopes[..|scopes| - 1])
        invariant forall k | 0 <= k < i ::
          params[k].name.lexeme in scopes[|scopes| - 1] && scopes[|scopes| - 1][params[k].name.lexeme]
      {
        :- Declare(params[i].name);
        Define(params[i].name.lexeme);
        i := i + 1;
      }
      r := Resolved;
    }

    /**
     * `visit_class_stmt`: the name is declared and defined; a superclass is
     * resolved and given a scope holding `base`; the methods are resolved in
     * one more scope, `init` as an initializer.
     */
    method VisitClass(s: Stmt, p: Path) returns (r: Resolution)
      requires s.ClassStmt? && Valid() && Unvisited(sites, p)
      modifies this
      ensures Valid()
      ensures r.Resolved? ==>
        Visited(old(sites), p, StmtNode(s), old(scopeIds), old(|scopes|), old(currentFunction), old(currentClass))
      ensures s.name.lexeme in old(scopes[|scopes| - 1]) ==> r == Aborted(s.name, AlreadyDeclared)
      ensures r.Resolved? ==> scopes == old(scopes[|scopes| - 1 := scopes[|scopes| - 1][s.name.lexeme := true]])
      decreases s, 2
    {
      ghost var before := sites;
      ghost var chain := scopeIds;
      Record(p, StmtNode(s));
      ghost var own := sites;
      ghost var outer := scopes;
      :- Declare(s.name);
      Define(s.name.lexeme);
      DeclaredThenDefined(outer, s.name.lexeme);
      var enclosingClass := currentClass;
      currentClass := PlainClass;
      :- ResolveClassBody(s, p, own);
      currentClass := enclosingClass;
      FinishStmtVisit(before, sites, p, s, chain, 1 + |s.methods|);
      r := Resolved;
    }

    /**
     * The rest of `visit_class_stmt`, once the class is named: the
     * superclass, then the methods in the scope that will hold `this`.
     */
    method ResolveClassBody(s: Stmt, p: Path, ghost own: Sites) returns (r: Resolution)
      requires s.ClassStmt? && Valid() && NothingBelow(own, p) && GrownBelow(own, sites, p, 0)
      modifies this
      ensures Valid()
      ensures s.superclass.Some? && s.name.lexeme == s.superclass.value.lexeme ==> r == Aborted(s.superclass.value, InheritsItself)
      ensures r.Resolved? ==>
        GrownBelow(own, sites, p, 1 + |s.methods|) && StmtChildren(sites, s, p, old(scopeIds)) &&
        scopeIds == old(scopeIds) && |scopes| == old(|scopes|) && currentFunction == old(currentFunction)
      ensures r.Resolved? ==> scopes == old(scopes)
      decreases s, 1
    {
      ghost var chain := scopeIds;
      :- ResolveSuperclass(s, p, own);
      BeginScope(MethodScope(p));
      assert scopeIds == MethodChain(chain, s.superclass.Some?, p);
      :- ResolveMethods(s, p, own);
      EndScope();
      if s.superclass.Some? {
        EndScope();
      }
      r := Resolved;
    }

    /**
     * The superclass part of `visit_class_stmt`: a class naming itself as
     * superclass is an error; otherwise the superclass reference is resolved
     * and a scope holding `base` is opened.
     */
    method ResolveSuperclass(s: Stmt, p: Path, ghost own: Sites) returns (r: Resolution)
      requires s.ClassStmt? && Valid() && NothingBelow(own, p) && GrownBelow(own, sites, p, 0)
      modifies this
      ensures Valid()
      ensures s.superclass.Some? && s.name.lexeme == s.superclass.value.lexeme ==>
        r == Aborted(s.superclass.value, InheritsItself)
      ensures r.Resolved? ==>
        GrownBelow(own, sites, p, 1) && Extends(sites, old(sites)) && currentFunction == old(currentFunction)
      ensures r.Resolved? && s.superclass.None? ==> Kept(old(scopeIds), old(|scopes|), old(currentFunction), old(currentClass))
      ensures r.Resolved? && s.superclass.Some? ==>
        At(sites, SuperclassPath(p), ExprNode(Variable(s.superclass.value)), old(scopeIds)) &&
        scopeIds == old(scopeIds) + [BaseScope(p)] && |scopes| == old(|scopes|) + 1 && currentClass == Subclass &&
        "base" in scopes[|scopes| - 1] && scopes[|scopes| - 1]["base"]
      ensures r.Resolved? && s.superclass.None? ==> scopes == old(scopes)
      ensures r.Resolved? && s.superclass.Some? ==> scopes == old(scopes) + [map["base" := true]]
    {
      if s.superclass.None? {
        return Resolved;
      }
      if s.name.lexeme == s.superclass.value.lexeme {
        return Aborted(s.superclass.value, InheritsItself);
      }
      currentClass := Subclass;
      :- ResolveSuperclassName(s.superclass.value, p, own);
      BeginScope(BaseScope(p));
      Define("base");
      r := Resolved;
    }

    /** The superclass reference of the class at `p`, a variable at `SuperclassPath(p)`. */
    method ResolveSuperclassName(name: Token, p: Path, ghost own: Sites) returns (r: Resolution)
      requires Valid() && NothingBelow(own, p) && GrownBelow(own, sites, p, 0)
      modifies this`identifiers, this`locals, this`binding, this`sites
      ensures Valid()
      ensures r.Resolved? ==>
        GrownBelow(own, sites, p, 1) && Extends(sites, old(sites)) &&
        At(sites, SuperclassPath(p), ExprNode(Variable(name)), old(scopeIds)) &&
        Kept(old(scopeIds), old(|scopes|), old(currentFunction), old(currentClass))
    {
      NextChildUnvisited(own, sites, p, 0);
      ghost var mid := sites;
      r := VisitVariable(Variable(name), SuperclassPath(p));
      if r.Resolved? {
        ChildVisited(own, mid, sites, p, 0);
      }
    }

    /** The loop of `visit_class_stmt` over the methods, each declared at `MethodPath(p, i)`. */
    method ResolveMethods(s: Stmt, p: Path, ghost own: Sites) returns (r: Resolution)
      requires s.ClassStmt? && Valid() && NothingBelow(own, p) && GrownBelow(own, sites, p, 1)
      modifies this
      ensures Valid()
      ensures r.Resolved? ==>
        GrownBelow(own, sites, p, 1 + |s.methods|) && Extends(sites, old(sites)) &&
        Kept(old(scopeIds), old(|scopes|), old(currentFunction), old(currentClass)) &&
        forall i | 0 <= i < |s.methods| :: At(sites, MethodPath(p, i), MethodNode(s.methods[i]), scopeIds)
      ensures r.Resolved? ==> scopes == old(scopes)
      decreases s, 0
    {
      var i := 0;
      while i < |s.methods|
        invariant 0 <= i <= |s.methods|
        invariant Valid() && Kept(old(scopeIds), old(|scopes|), old(currentFunction), old(currentClass))
        invariant scopes == old(scopes)
        invariant GrownBelow(own, sites, p, 1 + i) && Extends(sites, old(sites))
        invariant forall k | 0 <= k < i :: At(sites, MethodPath(p, k), MethodNode(s.methods[k]), scopeIds)
      {
        :- ResolveMethod(s.methods[i], p, i, own);
        i := i + 1;
      }
      r := Resolved;
    }

    /** One method of the class at `p`: the body of method `i` is resolved at `MethodPath(p, i)`. */
    method ResolveMethod(m: FunctionDecl, p: Path, i: nat, ghost own: Sites) returns (r: Resolution)
      requires Valid() && NothingBelow(own, p) && GrownBelow(own, sites, p, 1 + i)
      modifies this
      ensures Valid()
      ensures r.Resolved? ==>
        GrownBelow(own, sites, p, 2 + i) && Extends(sites, old(sites)) &&
        At(sites, MethodPath(p, i), MethodNode(m), old(scopeIds)) &&
        Kept(old(scopeIds), old(|scopes|), old(currentFunction), old(currentClass))
      ensures r.Resolved? ==> scopes == old(scopes)
      decreases m, 2
    {
      var mp := MethodPath(p, i);
      NextChildUnvisited(own, sites, p, 1 + i);
      ghost var mid := sites;
      ghost var chain := scopeIds;
      Record(mp, MethodNode(m));
      var kind := if m.name.lexeme == "init" then Initializer else Method;
      :- ResolveFunction(m, mp, kind);
      FinishMethodVisit(mid, sites, mp, m, chain);
      ChildVisited(own, mid, sites, p, 1 + i);
      r := Resolved;
    }

    /** `visit_if_stmt`: the condition, the then branch, and the else branch if there is one. */
    method VisitIf(s: Stmt, p: Path) returns (r: Resolution)
      requires s.IfStmt? && Valid() && Unvisited(sites, p)
      modifies this
      ensures Valid()
      ensures r.Resolved? ==>
        Visited(old(sites), p, StmtNode(s), old(scopeIds), old(|scopes|), old(currentFunction), old(currentClass))
      ensures r.Resolved? ==> OuterScopesKept(old(scopes))
      decreases s, 2
    {
      ghost var before := sites;
      ghost var chain := scopeIds;
      Record(p, StmtNode(s));
      ghost var own := sites;
      :- ResolveChild(s.condition, p, 0, own);
      :- ResolveChildStmt(s.thenBranch, p, 1, own);
      if s.elseBranch.Some? {
        :- ResolveChildStmt(s.elseBranch.value, p, 2, own);
      }
      FinishStmtVisit(before, sites, p, s, chain, 3);
      r := Resolved;
    }

    /** `visit_while_stmt`: the condition, then the body. */
    method VisitWhile(s: Stmt, p: Path) returns (r: Resolution)
      requires s.WhileStmt? && Valid() && Unvisited(sites, p)
      modifies this
      ensures Valid()
      ensures r.Resolved? ==>
        Visited(old(sites), p, StmtNode(s), old(scopeIds), old(|scopes|), old(currentFunction), old(currentClass))
      ensures r.Resolved? ==> OuterScopesKept(old(scopes))
      decreases s, 2
    {
      ghost var before := sites;
      ghost var chain := scopeIds;
      Record(p, StmtNode(s));
      ghost var own := sites;
      :- ResolveChild(s.condition, p, 0, own);
      :- ResolveChildStmt(s.body, p, 1, own);
      FinishStmtVisit(before, sites, p, s, chain, 2);
      r := Resolved;
    }

    /**
     * `visit_return_stmt`: a return outside any function is an error, and
     * so is a returned value inside an initializer.
     */
    method VisitReturn(s: Stmt, p: Path) returns (r: Resolution)
      requires s.ReturnStmt? && Valid() && Unvisited(sites, p)
      modifies this
      ensures Valid()
      ensures old(currentFunction) == NoFunction ==> r == Aborted(s.keyword, TopLevelReturn)
      ensures old(currentFunction) == Initializer && s.value.Some? ==>
        r == Aborted(s.keyword, InitializerReturn)
      ensures r.Resolved? ==>
        Visited(old(sites), p, StmtNode(s), old(scopeIds), old(|scopes|), old(currentFunction), old(currentClass))
      ensures r.Resolved? ==> scopes == old(scopes)
      decreases s, 2
    {
      ghost var before := sites;
      ghost var chain := scopeIds;
      Record(p, StmtNode(s));
      if currentFunction == NoFunction {
        return Aborted(s.keyword, TopLevelReturn);
      }
      if s.value.Some? {
        if currentFunction == Initializer {
          return Aborted(s.keyword, InitializerReturn);
        }
        :- ResolveChild(s.value.value, p, 0, sites);
      }
      FinishStmtVisit(before, sites, p, s, chain, 1);
      r := Resolved;
    }

    /** `visit_var_stmt`: the name is declared, the initializer resolved, then the name defined. */
    method VisitVar(s: Stmt, p: Path) returns (r: Resolution)
      requires s.VarStmt? && Valid() && Unvisited(sites, p)
      modifies this
      ensures Valid()
      ensures r.Resolved? ==>
        Visited(old(sites), p, StmtNode(s), old(scopeIds), old(|scopes|), old(currentFunction), old(currentClass))
      ensures s.variable.name.lexeme in old(scopes[|scopes| - 1]) ==> r == Aborted(s.variable.name, AlreadyDeclared)
      ensures r.Resolved? ==> scopes == old(scopes[|scopes| - 1 := scopes[|scopes| - 1][s.variable.name.lexeme := true]])
      decreases s, 2
    {
      ghost var before := sites;
      ghost var chain := scopeIds;
      Record(p, StmtNode(s));
      ghost var outer := scopes;
      :- Declare(s.variable.name);
      if s.variable.initializer.Some? {
        :- ResolveChild(s.variable.initializer.value, p, 0, sites);
      }
      Define(s.variable.name.lexeme);
      DeclaredThenDefined(outer, s.variable.name.lexeme);
      FinishStmtVisit(before, sites, p, s, chain, 1);
      r := Resolved;
    }

    /** `resolve_expr`: dispatches on the kind of expression. */
    method ResolveExpr(e: Expr, p: Path) returns (r: Resolution)
      requires Valid() && Unvisited(sites, p)
      modifies this`identifiers, this`locals, this`binding, this`sites
      ensures Valid()
      ensures e == BuiltinObject ==> r == Crashed
      ensures r.Resolved? ==>
        Visited(old(sites), p, ExprNode(e), old(scopeIds), old(|scopes|), old(currentFunction), old(currentClass))
      ensures scopes == old(scopes)
      decreases e, 1
    {
      match e
      case Literal(_) => r := VisitLeaf(e, p);
      case BuiltinObject => r := Crashed;
      case Grouping(_) => r := VisitOperand(e, p);
      case Unary(_, _) => r := VisitOperand(e, p);
      case Get(_, _) => r := VisitOperand(e, p);
      case Binary(_, _, _) => r := VisitOperands(e, p);
      case Logical(_, _, _) => r := VisitOperands(e, p);
      case Set(_, _, _, _) => r := VisitOperands(e, p);
      case Variable(_) => r := VisitVariable(e, p);
      case Assign(_, _, _) => r := VisitAssign(e, p);
      case Call(_, _, _) => r := VisitCall(e, p);
      case Super(_, _) => r := VisitSuper(e, p);
      case This(_) => r := VisitThis(e, p);
      case ListExpr(_) => r := VisitList(e, p);
      case Subscript(_, _, _, _, _) => r := VisitSubscript(e, p);
    }

    /** `visit_literal_expr`: nothing to resolve. */
    method VisitLeaf(e: Expr, p: Path) returns (r: Resolution)
      requires e.Literal? && Valid() && Unvisited(sites, p)
      modifies this`identifiers, this`locals, this`binding, this`sites
      ensures Valid() && r == Resolved
      ensures Visited(old(sites), p, ExprNode(e), old(scopeIds), old(|scopes|), old(currentFunction), old(currentClass))
      decreases e, 0
    {
      ghost var before := sites;
      ghost var chain := scopeIds;
      Record(p, ExprNode(e));
      FinishExprVisit(before, sites, p, e, chain, 0);
      r := Resolved;
    }

    /** `visit_grouping_expr`, `visit_unary_expr` and `visit_get_expr`: the one operand. */
    method VisitOperand(e: Expr, p: Path) returns (r: Resolution)
      requires (e.Grouping? || e.Unary? || e.Get?) && Valid() && Unvisited(sites, p)
      modifies this`identifiers, this`locals, this`binding, this`sites
      ensures Valid()
      ensures r.Resolved? ==>
        Visited(old(sites), p, ExprNode(e), old(scopeIds), old(|scopes|), old(currentFunction), old(currentClass))
      decreases e, 0
    {
      ghost var before := sites;
      ghost var chain := scopeIds;
      Record(p, ExprNode(e));
      var operand := match e
        case Grouping(x) => x
        case Unary(_, x) => x
        case Get(x, _) => x;
      :- ResolveChild(operand, p, 0, sites);
      FinishExprVisit(before, sites, p, e, chain, 1);
      r := Resolved;
    }

    /**
     * `visit_binary_expr` and `visit_logical_expr`: left, then right;
     * `visit_set_expr`: the value, then the receiver.
     */
    method VisitOperands(e: Expr, p: Path) returns (r: Resolution)
      requires (e.Binary? || e.Logical? || e.Set?) && Valid() && Unvisited(sites, p)
      modifies this`identifiers, this`locals, this`binding, this`sites
      ensures Valid()
      ensures e.Set? && e.obj == BuiltinObject ==> !r.Resolved?
      ensures r.Resolved? ==>
        Visited(old(sites), p, ExprNode(e), old(scopeIds), old(|scopes|), old(currentFunction), old(currentClass))
      decreases e, 0
    {
      ghost var before := sites;
      ghost var chain := scopeIds;
      Record(p, ExprNode(e));
      ghost var own := sites;
      var first, second := if e.Set? then e.value else e.left, if e.Set? then e.obj else e.right;
      :- ResolveChild(first, p, 0, own);
      r := ResolveChild(second, p, 1, own);
      if r.IsFailure() {
        return;
      }
      FinishExprVisit(before, sites, p, e, chain, 2);
    }

    /** `visit_variable_expr`: reading a name in its own initializer is an error. */
    method VisitVariable(e: Expr, p: Path) returns (r: Resolution)
      requires e.Variable? && Valid() && Unvisited(sites, p)
      modifies this`identifiers, this`locals, this`binding, this`sites
      ensures Valid()
      ensures var innermost := old(scopes[|scopes| - 1]);
        !r.Resolved? <==> e.name.lexeme in innermost && !innermost[e.name.lexeme]
      ensures !r.Resolved? ==> r == Aborted(e.name, OwnInitializer)
      ensures r.Resolved? ==>
        Visited(old(sites), p, ExprNode(e), old(scopeIds), old(|scopes|), old(currentFunction), old(currentClass)) &&
        ResolvedAs(p, e.name, old(scopes))
      decreases e, 0
    {
      ghost var before := sites;
      ghost var chain := scopeIds;
      Record(p, ExprNode(e));
      var innermost := scopes[|scopes| - 1];
      if e.name.lexeme in innermost && !innermost[e.name.lexeme] {
        return Aborted(e.name, OwnInitializer);
      }
      ghost var found: Option<nat>;
      found := ResolveLocal(p, e.name);
      FinishExprVisit(before, sites, p, e, chain, 0);
      r := Resolved;
    }

    /** The reference at `p` to `name` was resolved against `scopes`: to its innermost declaration, or to the globals. */
    ghost predicate ResolvedAs(p: Path, name: Token, scopes: seq<map<string, bool>>)
      reads this
    {
      match Innermost(scopes, name.lexeme)
      case Some(i) => p in locals && locals[p] == |scopes| - 1 - i
      case None => p !in locals
    }

    /** `visit_assign_expr`: the value, then the assigned name. */
    method VisitAssign(e: Expr, p: Path) returns (r: Resolution)
      requires e.Assign? && Valid() && Unvisited(sites, p)
      modifies this`identifiers, this`locals, this`binding, this`sites
      ensures Valid()
      ensures r.Resolved? ==>
        Visited(old(sites), p, ExprNode(e), old(scopeIds), old(|scopes|), old(currentFunction), old(currentClass))
      decreases e, 0
    {
      ghost var before := sites;
      ghost var chain := scopeIds;
      Record(p, ExprNode(e));
      :- ResolveChild(e.value, p, 0, sites);
      FinishExprVisit(before, sites, p, e, chain, 1);
      ghost var found: Option<nat>;
      found := ResolveLocal(p, e.name);
      r := Resolved;
    }

    /** `visit_call_expr`: the callee, then each argument. */
    method VisitCall(e: Expr, p: Path) returns (r: Resolution)
      requires e.Call? && Valid() && Unvisited(sites, p)
      modifies this`identifiers, this`locals, this`binding, this`sites
      ensures Valid()
      ensures r.Resolved? ==>
        Visited(old(sites), p, ExprNode(e), old(scopeIds), old(|scopes|), old(currentFunction), old(currentClass))
      decreases e, 0
    {
      ghost var before := sites;
      ghost var chain := scopeIds;
      Record(p, ExprNode(e));
      ghost var own := sites;
      :- ResolveChild(e.callee, p, 0, own);
      :- ResolveChildren(e.arguments, p, 1, own);
      FinishExprVisit(before, sites, p, e, chain, 1 + |e.arguments|);
      r := Resolved;
    }

    /** `visit_list_expr`: each element. */
    method VisitList(e: Expr, p: Path) returns (r: Resolution)
      requires e.ListExpr? && Valid() && Unvisited(sites, p)
      modifies this`identifiers, this`locals, this`binding, this`sites
      ensures Valid()
      ensures r.Resolved? ==>
        Visited(old(sites), p, ExprNode(e), old(scopeIds), old(|scopes|), old(currentFunction), old(currentClass))
      decreases e, 0
    {
      ghost var before := sites;
      ghost var chain := scopeIds;
      Record(p, ExprNode(e));
      :- ResolveChildren(e.values, p, 0, sites);
      forall i | 0 <= i < |e.values|
        ensures At(sites, p + [i], ExprNode(e.values[i]), chain)
      {
        assert At(sites, p + [0 + i], ExprNode(e.values[i]), chain);
      }
      FinishExprVisit(before, sites, p, e, chain, |e.values|);
      r := Resolved;
    }

    /** The loops of `visit_call_expr` and `visit_list_expr`: each expression, in order, at `p + [offset + i]`. */
    method ResolveChildren(es: seq<Expr>, p: Path, offset: nat, ghost own: Sites) returns (r: Resolution)
      requires Valid() && NothingBelow(own, p) && GrownBelow(own, sites, p, offset)
      modifies this`identifiers, this`locals, this`binding, this`sites
      ensures Valid()
      ensures r.Resolved? ==>
        GrownBelow(own, sites, p, offset + |es|) && Extends(sites, old(sites)) &&
        Kept(old(scopeIds), old(|scopes|), old(currentFunction), old(currentClass)) &&
        forall i | 0 <= i < |es| :: At(sites, p + [offset + i], ExprNode(es[i]), scopeIds)
      decreases es, 3
    {
      var i := 0;
      while i < |es|
        invariant 0 <= i <= |es|
        invariant Valid() && Kept(old(scopeIds), old(|scopes|), old(currentFunction), old(currentClass))
        invariant GrownBelow(own, sites, p, offset + i) && Extends(sites, old(sites))
        invariant forall k | 0 <= k < i :: At(sites, p + [offset + k], ExprNode(es[k]), scopeIds)
      {
        :- ResolveChild(es[i], p, offset + i, own);
        i := i + 1;
      }
      r := Resolved;
    }

    /** `visit_subscript_expr`: the list, the index, and the assigned value if there is one. */
    method VisitSubscript(e: Expr, p: Path) returns (r: Resolution)
      requires e.Subscript? && Valid() && Unvisited(sites, p)
      modifies this`identifiers, this`locals, this`binding, this`sites
      ensures Valid()
      ensures r.Resolved? ==>
        Visited(old(sites), p, ExprNode(e), old(scopeIds), old(|scopes|), old(currentFunction), old(currentClass))
      decreases e, 0
    {
      ghost var before := sites;
      ghost var chain := scopeIds;
      Record(p, ExprNode(e));
      ghost var own := sites;
      :- ResolveChild(e.target, p, 0, own);
      :- ResolveChild(e.index, p, 1, own);
      if e.written.Some? {
        :- ResolveChild(e.written.value, p, 2, own);
      }
      FinishExprVisit(before, sites, p, e, chain, 3);
      r := Resolved;
    }

    /**
     * `visit_super_expr`: `base` outside a class, or in a class without a
     * superclass, is an error; otherwise the keyword is resolved.
     */
    method VisitSuper(e: Expr, p: Path) returns (r: Resolution)
      requires e.Super? && Valid() && Unvisited(sites, p)
      modifies this`identifiers, this`locals, this`binding, this`sites
      ensures Valid()
      ensures old(currentClass) == NoClass ==> r == Aborted(e.keyword, SuperOutsideClass)
      ensures old(currentClass) == PlainClass ==> r == Aborted(e.keyword, SuperWithoutSuperclass)
      ensures old(currentClass) == Subclass ==> r == Resolved && ResolvedAs(p, e.keyword, scopes)
      ensures r.Resolved? ==>
        Visited(old(sites), p, ExprNode(e), old(scopeIds), old(|scopes|), old(currentFunction), old(currentClass))
      decreases e, 0
    {
      ghost var before := sites;
      ghost var chain := scopeIds;
      Record(p, ExprNode(e));
      if currentClass == NoClass {
        return Aborted(e.keyword, SuperOutsideClass);
      } else if currentClass != Subclass {
        return Aborted(e.keyword, SuperWithoutSuperclass);
      }
      ghost var found: Option<nat>;
      found := ResolveLocal(p, e.keyword);
      FinishExprVisit(before, sites, p, e, chain, 0);
      r := Resolved;
    }

    /** `visit_this_expr`: `this` outside a class is an error; otherwise the keyword is resolved. */
    method VisitThis(e: Expr, p: Path) returns (r: Resolution)
      requires e.This? && Valid() && Unvisited(sites, p)
      modifies this`identifiers, this`locals, this`binding, this`sites
      ensures Valid()
      ensures r.Resolved? <==> old(currentClass) != NoClass
      ensures !r.Resolved? ==> r == Aborted(e.keyword, ThisOutsideClass)
      ensures r.Resolved? ==>
        Visited(old(sites), p, ExprNode(e), old(scopeIds), old(|scopes|), old(currentFunction), old(currentClass)) &&
        ResolvedAs(p, e.keyword, scopes)
      decreases e, 0
    {
      ghost var before := sites;
      ghost var chain := scopeIds;
      Record(p, ExprNode(e));
      if currentClass == NoClass {
        return Aborted(e.keyword, ThisOutsideClass);
      }
      ghost var found: Option<nat>;
      found := ResolveLocal(p, e.keyword);
      FinishExprVisit(before, sites, p, e, chain, 0);
      r := Resolved;
    }
  }
}
