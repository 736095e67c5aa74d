/**
 * The shapes of syntax tree the recursive-descent parser builds
 * (SyntaxAnalizer/parser.py): one grammar level per parsing function,
 * from `assignment` (loosest) down to `primary` (tightest), and the
 * node rewrites the parser performs (for-loop desugaring, assignment
 * targets, integral list elements).
 */
module Grammar {
  import opened Wrappers
  import opened Tokens
  import opened AssignTypes
  import opened Ast

  /** One level per expression-parsing function. */
  datatype Level =
    | AssignLevel | OrLevel | AndLevel | EqualityLevel | ComparisonLevel
    | TermLevel | FactorLevel | UnaryLevel | CallLevel | SubscriptLevel | PrimaryLevel

  /** Looser levels rank higher. */
  function Rank(l: Level): nat
  {
    match l
    case AssignLevel => 10
    case OrLevel => 9
    case AndLevel => 8
    case EqualityLevel => 7
    case ComparisonLevel => 6
    case TermLevel => 5
    case FactorLevel => 4
    case UnaryLevel => 3
    case CallLevel => 2
    case SubscriptLevel => 1
    case PrimaryLevel => 0
  }

  /** Binding strength of the binary operators; 0 for every other kind. */
  function Precedence(k: TokenType): nat
  {
    if k == BangEqual || k == EqualEqual then 1
    else if k == Greater || k == GreaterEqual || k == Less || k == LessEqual then 2
    else if k == Minus || k == Plus then 3
    else if k == Slash || k == Star then 4
    else 0
  }

  /** The binary operators of binding strength `n`, as the parser matches them. */
  function Operators(n: nat): set<TokenType>
  {
    if n == 1 then {BangEqual, EqualEqual}
    else if n == 2 then {Greater, GreaterEqual, Less, LessEqual}
    else if n == 3 then {Minus, Plus}
    else if n == 4 then {Slash, Star}
    else {}
  }

  lemma OperatorStrength(k: TokenType, n: nat)
    requires k in Operators(n)
    ensures Precedence(k) == n
  {
  }

  /** The weakest binary operator a node at level `l` can have at its root. */
  function MinPrecedence(l: Level): nat
  {
    match l
    case AssignLevel => 1
    case OrLevel => 1
    case AndLevel => 1
    case EqualityLevel => 1
    case ComparisonLevel => 2
    case TermLevel => 3
    case FactorLevel => 4
    case _ => 5
  }

  /** The node kinds only `assignment` builds. */
  predicate IsAssignment(e: Expr)
  {
    e.Assign? || e.Set? || (e.Subscript? && e.written.Some?)
  }

  /**
   * `AtLevel(e, l)`: `e` is a tree the parsing function of level `l`
   * can return. A binary or logical level folds its operators to the left:
   * the left operand is at the same level, the right one at the next
   * tighter level; every level also returns what the next tighter one does.
   */
  predicate AtLevel(e: Expr, l: Level)
    decreases e, Rank(l)
  {
    match l
    case AssignLevel =>
      || (e.Assign? && AtLevel(e.value, AssignLevel))
      || (e.Set? && e.obj == BuiltinObject && AtLevel(e.value, AssignLevel))
      || (e.Subscript? && e.written.Some? && AtLevel(e.target, SubscriptLevel)
          && AtLevel(e.index, OrLevel) && AtLevel(e.written.value, AssignLevel))
      || AtLevel(e, OrLevel)
    case OrLevel =>
      || (e.Logical? && e.operator.kind == OrKw && AtLevel(e.left, OrLevel) && AtLevel(e.right, AndLevel))
      || AtLevel(e, AndLevel)
    case AndLevel =>
      || (e.Logical? && e.operator.kind == AndKw && AtLevel(e.left, AndLevel) && AtLevel(e.right, EqualityLevel))
      || AtLevel(e, EqualityLevel)
    case EqualityLevel =>
      || (e.Binary? && Precedence(e.operator.kind) == 1 && AtLevel(e.left, EqualityLevel)
          && AtLevel(e.right, ComparisonLevel))
      || AtLevel(e, ComparisonLevel)
    case ComparisonLevel =>
      || (e.Binary? && Precedence(e.operator.kind) == 2 && AtLevel(e.left, ComparisonLevel)
          && AtLevel(e.right, TermLevel))
      || AtLevel(e, TermLevel)
    case TermLevel =>
      || (e.Binary? && Precedence(e.operator.kind) == 3 && AtLevel(e.left, TermLevel)
          && AtLevel(e.right, FactorLevel))
      || AtLevel(e, FactorLevel)
    case FactorLevel =>
      || (e.Binary? && Precedence(e.operator.kind) == 4 && AtLevel(e.left, FactorLevel)
          && AtLevel(e.right, UnaryLevel))
      || AtLevel(e, UnaryLevel)
    case UnaryLevel =>
      || (e.Unary? && (e.operator.kind == Bang || e.operator.kind == Minus) && AtLevel(e.right, UnaryLevel))
      || AtLevel(e, CallLevel)
    case CallLevel =>
      || (e.Call? && AtLevel(e.callee, CallLevel) && AllAtLevel(e.arguments, AssignLevel))
      || (e.Get? && AtLevel(e.obj, CallLevel))
      || AtLevel(e, SubscriptLevel)
    case SubscriptLevel =>
      || (e.Subscript? && e.written.None? && e.assignType == NoAssign
          && AtLevel(e.target, SubscriptLevel) && AtLevel(e.index, OrLevel))
      || AtLevel(e, PrimaryLevel)
    case PrimaryLevel =>
      || e.Literal? || e.Variable? || e.Super?
      || (e.Grouping? && AtLevel(e.expression, AssignLevel))
      || (e.ListExpr? && AllAtLevel(e.values, OrLevel))
  }

  /** Every expression of `s` is at level `l`. */
  predicate AllAtLevel(s: seq<Expr>, l: Level)
    decreases s, Rank(l)
  {
    forall e | e in s :: AtLevel(e, l)
  }

  /** The next tighter level; `primary` is the tightest. */
  function Tighter(l: Level): (t: Level)
    ensures l != PrimaryLevel ==> Rank(t) + 1 == Rank(l)
  {
    match l
    case AssignLevel => OrLevel
    case OrLevel => AndLevel
    case AndLevel => EqualityLevel
    case EqualityLevel => ComparisonLevel
    case ComparisonLevel => TermLevel
    case TermLevel => FactorLevel
    case FactorLevel => UnaryLevel
    case UnaryLevel => CallLevel
    case CallLevel => SubscriptLevel
    case SubscriptLevel => PrimaryLevel
    case PrimaryLevel => PrimaryLevel
  }

  /** A tree of a tighter level is also one of every looser level. */
  lemma {:induction false} Widen(e: Expr, from: Level, to: Level)
    requires AtLevel(e, from) && Rank(from) <= Rank(to)
    ensures AtLevel(e, to)
    decreases Rank(to)
  {
    if Rank(from) < Rank(to) {
      Widen(e, from, Tighter(to));
    }
  }

  /**
   * What the root of a tree at level `l` can be: a binary operator no
   * weaker than the level allows, `||` only at the `or` level or looser,
   * `&&` only at the `and` level or looser, a prefix operator only at the
   * unary level or looser, an assignment only at the top.
   */
  lemma {:induction false} RootShape(e: Expr, l: Level)
    ensures AtLevel(e, l) && e.Binary? ==> 1 <= Precedence(e.operator.kind) && MinPrecedence(l) <= Precedence(e.operator.kind)
    ensures AtLevel(e, l) && e.Logical? ==>
      || (e.operator.kind == AndKw && Rank(l) >= Rank(AndLevel))
      || (e.operator.kind == OrKw && Rank(l) >= Rank(OrLevel))
    ensures AtLevel(e, l) && e.Unary? ==> Rank(l) >= Rank(UnaryLevel)
    ensures AtLevel(e, l) && IsAssignment(e) ==> l == AssignLevel
    decreases Rank(l)
  {
    if l != PrimaryLevel {
      RootShape(e, Tighter(l));
    }
  }

  /** One step of a binary level's loop: the folded node stays at that level. */
  lemma FoldBinary(left: Expr, operator: Token, right: Expr, p: nat)
    requires 1 <= p <= 4 && Precedence(operator.kind) == p
    requires AtLevel(left, BinaryLevel(p)) && AtLevel(right, OperandLevel(p))
    ensures AtLevel(Binary(left, operator, right), BinaryLevel(p))
  {
  }

  /** The level whose loop folds a binary operator of precedence `p`, and the next tighter one. */
  function BinaryLevel(p: nat): Level
  {
    if p == 1 then EqualityLevel else if p == 2 then ComparisonLevel else if p == 3 then TermLevel else FactorLevel
  }

  function OperandLevel(p: nat): Level
  {
    if p == 1 then ComparisonLevel else if p == 2 then TermLevel else if p == 3 then FactorLevel else UnaryLevel
  }

  /** The operands of a binary node sit at the levels its operator's loop parses them at. */
  lemma {:induction false} BinaryOperands(e: Expr, l: Level)
    requires AtLevel(e, l) && e.Binary?
    ensures AtLevel(e.left, BinaryLevel(Precedence(e.operator.kind)))
    ensures AtLevel(e.right, OperandLevel(Precedence(e.operator.kind)))
    decreases Rank(l)
  {
    RootShape(e, l);
    RootShape(e, Tighter(l));
    if l != BinaryLevel(Precedence(e.operator.kind)) {
      BinaryOperands(e, Tighter(l));
    }
  }

  /**
   * Precedence and left associativity of the binary operators: the right
   * operand of a binary node never has a root operator as weak as its own
   * (so `a - b - c` is `(a - b) - c` and `a + b * c` is `a + (b * c)`),
   * the left one never a weaker one, and neither is a bare logical
   * operator or an assignment.
   */
  lemma OperatorPrecedence(e: Expr, l: Level)
    requires AtLevel(e, l) && e.Binary?
    ensures e.right.Binary? ==> Precedence(e.right.operator.kind) > Precedence(e.operator.kind)
    ensures e.left.Binary? ==> Precedence(e.left.operator.kind) >= Precedence(e.operator.kind)
    ensures !e.left.Logical? && !e.right.Logical?
    ensures !IsAssignment(e.left) && !IsAssignment(e.right)
  {
    BinaryOperands(e, l);
    RootShape(e, l);
    RootShape(e.left, BinaryLevel(Precedence(e.operator.kind)));
    RootShape(e.right, OperandLevel(Precedence(e.operator.kind)));
  }

  /** The logical operators fold to the left and `&&` binds tighter than `||`. */
  lemma {:induction false} LogicalPrecedence(e: Expr, l: Level)
    requires AtLevel(e, l) && e.Logical?
    ensures e.operator.kind == OrKw || e.operator.kind == AndKw
    ensures e.right.Logical? ==> e.operator.kind == OrKw && e.right.operator.kind == AndKw
    ensures e.left.Logical? && e.operator.kind == AndKw ==> e.left.operator.kind == AndKw
    ensures !IsAssignment(e.left) && !IsAssignment(e.right)
    decreases Rank(l)
  {
    RootShape(e, l);
    RootShape(e, Tighter(l));
    if l == AssignLevel {
      LogicalPrecedence(e, OrLevel);
    } else if l == OrLevel && e.operator.kind == AndKw {
      LogicalPrecedence(e, AndLevel);
    } else {
      RootShape(e.left, l);
      RootShape(e.right, Tighter(l));
    }
  }

  /** A prefix operator applies to a unary-level operand: `-a * b` is `(-a) * b`. */
  lemma {:induction false} UnaryOperand(e: Expr, l: Level)
    requires AtLevel(e, l) && e.Unary?
    ensures e.operator.kind == Bang || e.operator.kind == Minus
    ensures AtLevel(e.right, UnaryLevel)
    ensures !e.right.Binary? && !e.right.Logical? && !IsAssignment(e.right)
    decreases Rank(l)
  {
    RootShape(e, l);
    if l == UnaryLevel {
      RootShape(e, CallLevel);
      RootShape(e.right, UnaryLevel);
    } else {
      UnaryOperand(e, Tighter(l));
    }
  }

  /** The value an assignment node stores. */
  function AssignedValue(e: Expr): Expr
    requires IsAssignment(e)
  {
    match e
    case Assign(_, value, _) => value
    case Set(_, _, value, _) => value
    case Subscript(_, _, written, _, _) => written.value
  }

  /**
   * The node `assignment` builds from the parsed target once it has seen
   * an assignment operator: a variable becomes `Assign`, a property read
   * becomes `Set` on Python's builtin `object` (the receiver is dropped),
   * a subscript read becomes a subscript write; anything else is an
   * invalid target.
   */
  function AssignTarget(target: Expr, value: Expr, t: AssignType): (r: Option<Expr>)
    ensures r.Some? <==> target.Variable? || target.Get? || target.Subscript?
    ensures r.Some? ==> IsAssignment(r.value) && AssignedValue(r.value) == value
    ensures r.Some? && target.Variable? ==> r.value.Assign? && r.value.name == target.name
    ensures r.Some? && target.Get? ==> r.value.Set? && r.value.obj == BuiltinObject && r.value.name == target.name
    ensures r.Some? && target.Subscript? ==>
      r.value.Subscript? && r.value.target == target.target && r.value.index == target.index
  {
    match target
    case Variable(name) => Some(Assign(name, value, t))
    case Get(_, name) => Some(Set(BuiltinObject, name, value, t))
    case Subscript(arr, index, _, paren, _) => Some(Subscript(arr, index, Some(value), paren, t))
    case _ => None
  }

  /**
   * Assignment is right-associative: a target parsed at the `or` level
   * and a value parsed by `assignment` give an assignment-level tree
   * whose target part is never itself an assignment.
   */
  lemma AssignTargetAtLevel(target: Expr, value: Expr, t: AssignType)
    requires AtLevel(target, OrLevel) && AtLevel(value, AssignLevel)
    requires AssignTarget(target, value, t).Some?
    ensures AtLevel(AssignTarget(target, value, t).value, AssignLevel)
    ensures target.Subscript? ==> !IsAssignment(target.target) && !IsAssignment(target.index)
  {
    RootShape(target, OrLevel);
    if target.Subscript? {
      SubscriptParts(target, OrLevel);
      RootShape(target.target, SubscriptLevel);
      RootShape(target.index, OrLevel);
    } else if target.Get? {
      assert AtLevel(target, OrLevel);
    }
  }

  /** The parts of a subscript read. */
  lemma {:induction false} SubscriptParts(e: Expr, l: Level)
    requires AtLevel(e, l) && e.Subscript? && e.written.None?
    ensures AtLevel(e.target, SubscriptLevel) && AtLevel(e.index, OrLevel)
    decreases Rank(l)
  {
    RootShape(e, l);
    if l != SubscriptLevel {
      SubscriptParts(e, Tighter(l));
    }
  }

  /**
   * A list element: a float literal with an integral value is rewritten to
   * the int of the same value.
   */
  function ListElement(e: Expr): (r: Expr)
  {
    if e.Literal? && e.constant.CFloat? && e.constant.r.Floor as real == e.constant.r
    then Literal(CInt(e.constant.r.Floor))
    else e
  }

  /**
   * The rewrite keeps the element's numeric value and level, leaves every
   * other element alone, and applying it twice changes nothing more.
   */
  lemma ListElementMeaning(e: Expr, l: Level)
    requires AtLevel(e, l)
    ensures AtLevel(ListElement(e), l)
    ensures ListElement(e) != e ==>
      && e.Literal? && e.constant.CFloat? && ListElement(e).Literal?
      && ListElement(e).constant.CInt? && ListElement(e).constant.i as real == e.constant.r
    ensures ListElement(ListElement(e)) == ListElement(e)
    ensures ListElement(e).Literal? && ListElement(e).constant.CFloat? ==> ListElement(e).constant.r.Floor as real != ListElement(e).constant.r
  {
    if ListElement(e) != e {
      Widen(ListElement(e), PrimaryLevel, l);
    }
  }

  /**
   * `for_statement`'s rewrite into a `while` loop: the increment runs after
   * the body, a missing condition is `true`, and the initializer runs once
   * in a block around the loop.
   */
  function DesugarFor(init: Option<Stmt>, cond: Option<Expr>, inc: Option<Expr>, body: Stmt): Stmt
  {
    var loopBody := if inc.Some? then BlockStmt([body, ExpressionStmt(inc.value)]) else body;
    var condition := if cond.Some? then cond.value else Literal(CBool(true));
    var loop := WhileStmt(condition, loopBody);
    if init.Some? then BlockStmt([init.value, loop]) else loop
  }

  /** The `while` loop inside a desugared `for` statement. */
  function ForLoop(s: Stmt): Stmt
  {
    if s.BlockStmt? && |s.statements| == 2 then s.statements[1] else s
  }

  /**
   * The parts of a `for` statement can be read back from its rewrite: the
   * initializer, the condition (when one was written, or `true`), the body
   * and the increment.
   */
  lemma DesugarForParts(init: Option<Stmt>, cond: Option<Expr>, inc: Option<Expr>, body: Stmt)
    ensures var s := DesugarFor(init, cond, inc, body);
      && ForLoop(s).WhileStmt?
      && (init.Some? <==> s.BlockStmt?)
      && (init.Some? ==> s.statements[0] == init.value)
      && ForLoop(s).condition == (if cond.Some? then cond.value else Literal(CBool(true)))
      && (inc.None? ==> ForLoop(s).body == body)
      && (inc.Some? ==> ForLoop(s).body.BlockStmt? && ForLoop(s).body.statements == [body, ExpressionStmt(inc.value)])
  {
  }

  /** Every expression in a statement tree is a tree `expression` returns; declared variables have a real type. */
  predicate WellFormedStmt(s: Stmt)
    decreases s
  {
    match s
    case BlockStmt(ss) => forall x | x in ss :: WellFormedStmt(x)
    case ClassStmt(_, _, ms) => forall f | f in ms :: WellFormedFunction(f)
    case ExpressionStmt(e) => AtLevel(e, AssignLevel)
    case FunctionStmt(f) => WellFormedFunction(f)
    case IfStmt(c, t, e) => AtLevel(c, AssignLevel) && WellFormedStmt(t) && (e.Some? ==> WellFormedStmt(e.value))
    case PrintStmt(e) => AtLevel(e, AssignLevel)
    case ReturnStmt(_, v) => v.Some? ==> AtLevel(v.value, AssignLevel)
    case VarStmt(v) => v.ctype != CTypes.Void && v.ctype != CTypes.NoneType
                       && (v.initializer.Some? ==> AtLevel(v.initializer.value, AssignLevel))
    case WhileStmt(c, b) => AtLevel(c, AssignLevel) && WellFormedStmt(b)
  }

  /** A declared function: parameters without initializers, a real return type, a well-formed body. */
  predicate WellFormedFunction(f: FunctionDecl)
    decreases f
  {
    && ParamsWellFormed(f)
    && f.ctype != CTypes.NoneType
    && forall x | x in f.body :: WellFormedStmt(x)
  }

  /** Desugaring a well-formed `for` statement gives a well-formed statement. */
  lemma DesugarForWellFormed(init: Option<Stmt>, cond: Option<Expr>, inc: Option<Expr>, body: Stmt)
    requires init.Some? ==> WellFormedStmt(init.value)
    requires cond.Some? ==> AtLevel(cond.value, AssignLevel)
    requires inc.Some? ==> AtLevel(inc.value, AssignLevel)
    requires WellFormedStmt(body)
    ensures WellFormedStmt(DesugarFor(init, cond, inc, body))
  {
    Widen(Literal(CBool(true)), PrimaryLevel, AssignLevel);
    var loopBody := if inc.Some? then BlockStmt([body, ExpressionStmt(inc.value)]) else body;
    assert WellFormedStmt(loopBody);
    var condition := if cond.Some? then cond.value else Literal(CBool(true));
    assert WellFormedStmt(WhileStmt(condition, loopBody));
  }
}
