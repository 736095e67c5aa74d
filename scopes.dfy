/**
 * Static scopes. The resolver opens a scope for a block, for a function's
 * parameters and body, for the `base` name of a subclass and for the methods
 * of a class; the interpreter opens one frame for each of them. A scope is
 * named by the kind of node that opens it and that node's position.
 *
 * While resolving, the resolver records a `Site` for every node it visits:
 * the node and the scopes open there, outermost first. The interpreter runs a
 * node only in a frame whose chain of scope names is the recorded one.
 */
module Scopes {
  import opened Wrappers
  import opened Tokens
  import opened Ast

  datatype Scope =
    | GlobalScope
      /** A block statement (resolver.py visit_block_stmt). */
    | BlockScope(at: Path)
      /** Parameters and body of the function or method declared at `at`. */
    | FunctionScope(at: Path)
      /** The scope holding `base` for the subclass declared at `at`. */
    | BaseScope(at: Path)
      /** The scope around the methods of the class declared at `at`; at run time `bind` fills it with `this`. */
    | MethodScope(at: Path)

  /** A statement, an expression, or a method declaration of a class. */
  datatype Node = StmtNode(s: Stmt) | ExprNode(e: Expr) | MethodNode(f: FunctionDecl)

  datatype Site = Site(node: Node, chain: seq<Scope>)

  type Sites = map<Path, Site>

  /** `node` was visited at `q` with `chain` open. */
  ghost predicate At(sites: Sites, q: Path, node: Node, chain: seq<Scope>)
  {
    q in sites && sites[q] == Site(node, chain)
  }

  /** The statements of a body were visited, in their positions under `q`, with `chain` open. */
  ghost predicate BodyAt(sites: Sites, body: seq<Stmt>, q: Path, chain: seq<Scope>)
  {
    forall j | 0 <= j < |body| :: At(sites, q + [j], StmtNode(body[j]), chain)
  }

  /** The scopes a class's methods see: the class's own chain, `base` if it has a superclass, and the method scope. */
  function MethodChain(chain: seq<Scope>, hasSuperclass: bool, q: Path): seq<Scope>
  {
    chain + (if hasSuperclass then [BaseScope(q)] else []) + [MethodScope(q)]
  }

  ghost predicate StmtChildren(sites: Sites, s: Stmt, q: Path, chain: seq<Scope>)
  {
    match s
    case BlockStmt(statements) => BodyAt(sites, statements, q, chain + [BlockScope(q)])
    case ClassStmt(_, superclass, methods) =>
      (superclass.Some? ==> At(sites, SuperclassPath(q), ExprNode(Variable(superclass.value)), chain)) &&
      forall i | 0 <= i < |methods| ::
        At(sites, MethodPath(q, i), MethodNode(methods[i]), MethodChain(chain, superclass.Some?, q))
    case ExpressionStmt(e) => At(sites, q + [0], ExprNode(e), chain)
    case FunctionStmt(f) => BodyAt(sites, f.body, q, chain + [FunctionScope(q)])
    case IfStmt(condition, thenBranch, elseBranch) =>
      At(sites, q + [0], ExprNode(condition), chain) && At(sites, q + [1], StmtNode(thenBranch), chain) &&
      (elseBranch.Some? ==> At(sites, q + [2], StmtNode(elseBranch.value), chain))
    case PrintStmt(e) => At(sites, q + [0], ExprNode(e), chain)
    case ReturnStmt(_, value) => value.Some? ==> At(sites, q + [0], ExprNode(value.value), chain)
    case VarStmt(v) => v.initializer.Some? ==> At(sites, q + [0], ExprNode(v.initializer.value), chain)
    case WhileStmt(condition, body) =>
      At(sites, q + [0], ExprNode(condition), chain) && At(sites, q + [1], StmtNode(body), chain)
  }

  ghost predicate ExprChildren(sites: Sites, e: Expr, q: Path, chain: seq<Scope>)
  {
    match e
    case Grouping(x) => At(sites, q + [0], ExprNode(x), chain)
    case Unary(_, x) => At(sites, q + [0], ExprNode(x), chain)
    case Binary(l, _, r) => At(sites, q + [0], ExprNode(l), chain) && At(sites, q + [1], ExprNode(r), chain)
    case Logical(l, _, r) => At(sites, q + [0], ExprNode(l), chain) && At(sites, q + [1], ExprNode(r), chain)
    case Assign(_, value, _) => At(sites, q + [0], ExprNode(value), chain)
    case Call(callee, _, arguments) =>
      At(sites, q + [0], ExprNode(callee), chain) &&
      forall i | 0 <= i < |arguments| :: At(sites, q + [1 + i], ExprNode(arguments[i]), chain)
    case Get(obj, _) => At(sites, q + [0], ExprNode(obj), chain)
    case Set(obj, _, value, _) => At(sites, q + [0], ExprNode(value), chain) && At(sites, q + [1], ExprNode(obj), chain)
    case ListExpr(values) => forall i | 0 <= i < |values| :: At(sites, q + [i], ExprNode(values[i]), chain)
    case Subscript(target, index, written, _, _) =>
      At(sites, q + [0], ExprNode(target), chain) && At(sites, q + [1], ExprNode(index), chain) &&
      (written.Some? ==> At(sites, q + [2], ExprNode(written.value), chain))
    case _ => true
  }

  /** The children of the node recorded at `q` were recorded where, and with the scopes, the resolver visits them. */
  ghost predicate ChildrenRecorded(sites: Sites, q: Path)
    requires q in sites
  {
    match sites[q].node
    case StmtNode(s) => StmtChildren(sites, s, q, sites[q].chain)
    case ExprNode(e) => ExprChildren(sites, e, q, sites[q].chain)
    case MethodNode(f) => BodyAt(sites, f.body, q, sites[q].chain + [FunctionScope(q)])
  }

  /** `q` is recorded in `sites` and was not in `before`. */
  ghost predicate Added(before: Sites, sites: Sites, q: Path)
  {
    q in sites && q !in before
  }

  /**
   * Every recorded node has its children recorded. (The quantifiers over
   * recorded positions fire on `Added` only: a trigger on `q in sites` would
   * fire again on each child position that `ChildrenRecorded` mentions.)
   */
  ghost predicate Complete(sites: Sites)
  {
    forall q {:trigger Added(map[], sites, q)} | Added(map[], sites, q) :: ChildrenRecorded(sites, q)
  }

  /** `big` keeps every entry of `small`. */
  ghost predicate Extends(big: Sites, small: Sites)
  {
    forall q | q in small :: q in big && big[q] == small[q]
  }

  /**
   * A recorded depth reaches the binding scope: for every resolved
   * reference, the scope `depth` steps out from the innermost one in the
   * recorded chain is the scope where the name was found.
   */
  ghost predicate DepthsReachBindings(sites: Sites, locals: map<Path, nat>, binding: map<Path, Scope>)
  {
    forall q | q in locals ::
      q in sites && q in binding && locals[q] < |sites[q].chain| &&
      sites[q].chain[|sites[q].chain| - 1 - locals[q]] == binding[q]
  }

  /** In a complete table, the node recorded at `q` has its children recorded. */
  lemma RecordedChildren(sites: Sites, q: Path)
    requires Complete(sites) && q in sites
    ensures ChildrenRecorded(sites, q)
  {
    assert Added(map[], sites, q);
  }

  /** Recording more sites never undoes a node's children being recorded. */
  lemma ChildrenStayRecorded(small: Sites, big: Sites, q: Path)
    requires q in small && ChildrenRecorded(small, q) && Extends(big, small)
    ensures q in big && ChildrenRecorded(big, q)
  {
    assert big[q] == small[q];
    match small[q].node
    case StmtNode(s) =>
      match s {
      case ClassStmt(_, superclass, methods) =>
        var inner := MethodChain(small[q].chain, superclass.Some?, q);
        forall i | 0 <= i < |methods|
          ensures At(big, MethodPath(q, i), MethodNode(methods[i]), inner)
        {
          assert At(small, MethodPath(q, i), MethodNode(methods[i]), inner);
        }
      case BlockStmt(statements) => BodyStays(small, big, statements, q, small[q].chain + [BlockScope(q)]);
      case FunctionStmt(f) => BodyStays(small, big, f.body, q, small[q].chain + [FunctionScope(q)]);
      case _ =>
      }
    case ExprNode(e) =>
      match e {
      case Call(callee, _, arguments) =>
        forall i | 0 <= i < |arguments|
          ensures At(big, q + [1 + i], ExprNode(arguments[i]), small[q].chain)
        {
          assert At(small, q + [1 + i], ExprNode(arguments[i]), small[q].chain);
        }
      case ListExpr(values) =>
        forall i | 0 <= i < |values|
          ensures At(big, q + [i], ExprNode(values[i]), small[q].chain)
        {
          assert At(small, q + [i], ExprNode(values[i]), small[q].chain);
        }
      case _ =>
      }
    case MethodNode(f) => BodyStays(small, big, f.body, q, small[q].chain + [FunctionScope(q)]);
  }

  lemma BodyStays(small: Sites, big: Sites, body: seq<Stmt>, q: Path, chain: seq<Scope>)
    requires BodyAt(small, body, q, chain) && Extends(big, small)
    ensures BodyAt(big, body, q, chain)
  {
    forall j | 0 <= j < |body|
      ensures At(big, q + [j], StmtNode(body[j]), chain)
    {
      assert At(small, q + [j], StmtNode(body[j]), chain);
    }
  }

  /** Nothing is recorded at `p` or under it. */
  ghost predicate Unvisited(sites: Sites, p: Path)
  {
    forall q | q in sites :: !(p <= q)
  }

  /** Nothing is recorded strictly under `p`. */
  ghost predicate NothingBelow(sites: Sites, p: Path)
  {
    forall q | q in sites :: !(p < q)
  }

  /**
   * Since `before`, entries were only added under the first `k` child
   * positions of `p`, and each added entry has its children recorded.
   */
  ghost predicate GrownBelow(before: Sites, sites: Sites, p: Path, k: nat)
  {
    Extends(sites, before) &&
    forall q {:trigger Added(before, sites, q)} | Added(before, sites, q) ::
      p < q && q[|p|] < k && ChildrenRecorded(sites, q)
  }

  /** Since `before`, entries were only added at `p` or under it, and each has its children recorded. */
  ghost predicate GrownAt(before: Sites, sites: Sites, p: Path)
  {
    Extends(sites, before) &&
    forall q {:trigger Added(before, sites, q)} | Added(before, sites, q) :: p <= q && ChildrenRecorded(sites, q)
  }

  /** Recording the node at an unvisited position starts the visit of its children. */
  lemma StartVisit(before: Sites, p: Path, site: Site)
    requires Unvisited(before, p)
    ensures p !in before
    ensures NothingBelow(before[p := site], p) && GrownBelow(before[p := site], before[p := site], p, 0)
  {
    assert p <= p;
  }

  /** A position lies under child `k` of `p` exactly when it lies strictly under `p` with `k` as its next index. */
  lemma UnderChild(p: Path, k: nat, q: Path)
    ensures p + [k] <= q <==> p < q && q[|p|] == k
  {
    if p < q && q[|p|] == k {
      assert q[..|p| + 1] == q[..|p|] + [q[|p|]];
    }
  }

  /** Before child `k` of `p` is visited, nothing is recorded at its position. */
  lemma {:induction false} NextChildUnvisited(before: Sites, sites: Sites, p: Path, k: nat)
    requires NothingBelow(before, p) && GrownBelow(before, sites, p, k)
    ensures Unvisited(sites, p + [k])
  {
    forall q | q in sites
      ensures !(p + [k] <= q)
    {
      UnderChild(p, k, q);
      if q !in before {
        assert Added(before, sites, q);
      }
    }
  }

  /** Child `k` of `p` has been visited: its entries join those of the earlier children. */
  lemma {:induction false} ChildVisited(before: Sites, mid: Sites, sites: Sites, p: Path, k: nat)
    requires GrownBelow(before, mid, p, k) && GrownAt(mid, sites, p + [k])
    ensures GrownBelow(before, sites, p, k + 1)
  {
    forall q | Added(before, sites, q)
      ensures p < q && q[|p|] < k + 1 && ChildrenRecorded(sites, q)
    {
      if q in mid {
        assert Added(before, mid, q);
        ChildrenStayRecorded(mid, sites, q);
      } else {
        assert Added(mid, sites, q);
        UnderChild(p, k, q);
      }
    }
  }

  /** The visit of the node recorded at `p` is over once its children are recorded. */
  lemma {:induction false} FinishVisit(before: Sites, sites: Sites, p: Path, site: Site, k: nat)
    requires p !in before && GrownBelow(before[p := site], sites, p, k)
    requires p in sites && ChildrenRecorded(sites, p)
    ensures GrownAt(before, sites, p)
  {
    forall q | q in before
      ensures q in sites && sites[q] == before[q]
    {
      assert q in before[p := site];
    }
    forall q | Added(before, sites, q) && q != p
      ensures p <= q && ChildrenRecorded(sites, q)
    {
      assert Added(before[p := site], sites, q);
    }
  }

  /** A whole program visited from an empty table leaves a complete table. */
  lemma ProgramComplete(sites: Sites, k: nat)
    requires GrownBelow(map[], sites, [], k)
    ensures Complete(sites)
  {
    forall q | Added(map[], sites, q)
      ensures ChildrenRecorded(sites, q)
    {
      assert Added(map[], sites, q);
    }
  }

  /** Recording a reference whose depth reaches its binding scope keeps every depth reaching its binding. */
  lemma DepthRecorded(sites: Sites, locals: map<Path, nat>, binding: map<Path, Scope>, p: Path, depth: nat, scope: Scope)
    requires DepthsReachBindings(sites, locals, binding)
    requires p in sites && depth < |sites[p].chain| && sites[p].chain[|sites[p].chain| - 1 - depth] == scope
    ensures DepthsReachBindings(sites, locals[p := depth], binding[p := scope])
  {
  }

  /** The visit of the expression recorded at `p` is over once its children are recorded. */
  lemma FinishExprVisit(before: Sites, sites: Sites, p: Path, e: Expr, chain: seq<Scope>, k: nat)
    requires p !in before && GrownBelow(before[p := Site(ExprNode(e), chain)], sites, p, k)
    requires ExprChildren(sites, e, p, chain)
    ensures GrownAt(before, sites, p) && At(sites, p, ExprNode(e), chain)
  {
    assert sites[p] == Site(ExprNode(e), chain);
    FinishVisit(before, sites, p, Site(ExprNode(e), chain), k);
  }

  /** The visit of the statement recorded at `p` is over once its children are recorded. */
  lemma FinishStmtVisit(before: Sites, sites: Sites, p: Path, s: Stmt, chain: seq<Scope>, k: nat)
    requires p !in before && GrownBelow(before[p := Site(StmtNode(s), chain)], sites, p, k)
    requires StmtChildren(sites, s, p, chain)
    ensures GrownAt(before, sites, p) && At(sites, p, StmtNode(s), chain)
  {
    assert sites[p] == Site(StmtNode(s), chain);
    FinishVisit(before, sites, p, Site(StmtNode(s), chain), k);
  }

  /** The visit of the method declaration recorded at `p` is over once its body is recorded. */
  lemma FinishMethodVisit(before: Sites, sites: Sites, p: Path, f: FunctionDecl, chain: seq<Scope>)
    requires p !in before && GrownBelow(before[p := Site(MethodNode(f), chain)], sites, p, |f.body|)
    requires BodyAt(sites, f.body, p, chain + [FunctionScope(p)])
    ensures GrownAt(before, sites, p) && At(sites, p, MethodNode(f), chain)
  {
    assert sites[p] == Site(MethodNode(f), chain);
    FinishVisit(before, sites, p, Site(MethodNode(f), chain), |f.body|);
  }
}
