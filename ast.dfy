/**
 * Syntax tree nodes (Ast/Nodes/statement.py and the expression nodes the
 * parser builds). A node's identity is its position in the program tree:
 * a path of child indices from the list of top-level statements.
 */
module Ast {
  import opened Wrappers
  import opened Tokens
  import opened CTypes
  import opened AssignTypes

  /** Position of a node: the child indices from the program root. */
  type Path = seq<nat>

  /** The Python value a `Literal` node holds. */
  datatype Constant = CNone | CBool(b: bool) | CInt(i: int) | CFloat(r: real) | CStr(s: string)

  datatype Expr =
    | Literal(constant: Constant)
    | Grouping(expression: Expr)
    | Unary(operator: Token, right: Expr)
    | Binary(left: Expr, operator: Token, right: Expr)
    | Logical(left: Expr, operator: Token, right: Expr)
    | Variable(name: Token)
    | Assign(name: Token, value: Expr, assignType: AssignType)
    | Call(callee: Expr, paren: Token, arguments: seq<Expr>)
    | Get(obj: Expr, name: Token)
    | Set(obj: Expr, name: Token, value: Expr, assignType: AssignType)
    | Super(keyword: Token, methodName: Token)
    | This(keyword: Token)
    | ListExpr(values: seq<Expr>)
    | Subscript(target: Expr, index: Expr, written: Option<Expr>, paren: Token, assignType: AssignType)
      /** Python's builtin `object`, which the parser stores as the receiver of every `Set`. */
    | BuiltinObject

  /** A `Var` record: a declaration statement, and also a function parameter. */
  datatype VarDecl = VarDecl(name: Token, ctype: CType, initializer: Option<Expr>)

  /** A `Function` record: a free function or a method. */
  datatype FunctionDecl = FunctionDecl(name: Token, params: seq<VarDecl>, body: seq<Stmt>, ctype: CType)

  datatype Stmt =
    | BlockStmt(statements: seq<Stmt>)
      /** `superclass` is the name of the superclass `Variable` node, if any. */
    | ClassStmt(name: Token, superclass: Option<Token>, methods: seq<FunctionDecl>)
    | ExpressionStmt(expression: Expr)
    | FunctionStmt(fn: FunctionDecl)
    | IfStmt(condition: Expr, thenBranch: Stmt, elseBranch: Option<Stmt>)
    | PrintStmt(expression: Expr)
    | ReturnStmt(keyword: Token, value: Option<Expr>)
    | VarStmt(variable: VarDecl)
    | WhileStmt(condition: Expr, body: Stmt)

  /** Parameters are `Var` records without an initializer. */
  predicate ParamsWellFormed(f: FunctionDecl)
  {
    forall i :: 0 <= i < |f.params| ==> f.params[i].initializer.None?
  }

  /** The positions of a class's superclass reference and of its methods. */
  function SuperclassPath(p: Path): Path { p + [0] }
  function MethodPath(p: Path, i: nat): Path { p + [1 + i] }
}
