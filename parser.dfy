/**
 * The recursive-descent parser (SyntaxAnalizer/parser.py): a cursor over
 * the token list, one method per grammar rule, `ParseError` as a failure
 * value that unwinds to the enclosing declaration, and a log of the
 * diagnostics the error handler receives.
 */
module Parsing {
  import opened Wrappers
  import opened Tokens
  import CTypes
  import AssignTypes
  import opened Ast
  import opened Grammar

  /** A rule's outcome: its node, or the `ParseError` it raised. */
  /** The tokens `assignment` accepts after its target. */
  const AssignmentOperators: set<TokenType> := {Equal, PlusEqual, MinusEqual, SlashEqual, StarEqual}

  datatype ParseResult<+T> = Parsed(value: T) | ParseError
  {
    predicate IsFailure() { ParseError? }

    function PropagateFailure<U>(): ParseResult<U>
      requires IsFailure()
    {
      ParseError
    }

    function Extract(): T
      requires !IsFailure()
    {
      value
    }
  }

  /** One call of the error handler's `error_token`. */
  datatype Diagnostic = Diagnostic(token: Token, message: string)

  /** The kinds `synchronize` stops in front of. */
  const DeclarationStarts: set<TokenType> := {ClassKw, FunKw, VarKw, ForKw, IfKw, WhileKw, PrintKw, ReturnKw}

  /** The kinds `primary` accepts as the first token of an operand. */
  const PrimaryStarts: set<TokenType> :=
    {FalseKw, TrueKw, NilKw, NumberLit, StringLit, SuperKw, Identifier, LeftParen, LeftBrace}

  /** The node constant for a number or string token's literal. */
  function LiteralConstant(lit: LiteralValue): Constant
  {
    match lit
    case NoLiteral => CNone
    case IntLiteral(i) => CInt(i)
    case FloatLiteral(r) => CFloat(r)
    case StrLiteral(s) => CStr(s)
  }

  class Parser {
    const tokens: seq<Token>
    var current: nat
    var errors: seq<Diagnostic>

    /** The token list ends with EOF and the cursor is inside it. */
    ghost predicate Valid()
      reads this
    {
      |tokens| > 0 && tokens[|tokens| - 1].kind == Eof && current < |tokens|
    }

    constructor (tokens: seq<Token>)
      requires |tokens| > 0 && tokens[|tokens| - 1].kind == Eof
      ensures Valid() && this.tokens == tokens && current == 0 && errors == []
    {
      this.tokens := tokens;
      current := 0;
      errors := [];
    }

    function Peek(): Token
      reads this
      requires Valid()
    {
      tokens[current]
    }

    predicate IsAtEnd()
      reads this
      requires Valid()
    {
      Peek().kind == Eof
    }

    /** `tokens[current - 1]`; at position 0 Python's index -1 is the last token. */
    function Previous(): Token
      reads this
      requires Valid()
    {
      if current == 0 then tokens[|tokens| - 1] else tokens[current - 1]
    }

    predicate Check(kind: TokenType)
      reads this
      requires Valid()
    {
      !IsAtEnd() && Peek().kind == kind
    }

    /** Moves past the current token unless it is EOF, and returns the token before the cursor. */
    method Advance() returns (t: Token)
      requires Valid()
      modifies this`current
      ensures Valid()
      ensures old(IsAtEnd()) ==> current == old(current)
      ensures !old(IsAtEnd()) ==> current == old(current) + 1 && t == old(Peek())
      ensures t == Previous()
    {
      if !IsAtEnd() {
        current := current + 1;
      }
      t := Previous();
    }

    /** Consumes the current token exactly when it is not EOF and has one of the kinds. */
    method Match(kinds: set<TokenType>) returns (matched: bool)
      requires Valid()
      modifies this`current
      ensures Valid()
      ensures matched <==> !old(IsAtEnd()) && old(Peek()).kind in kinds
      ensures current == if matched then old(current) + 1 else old(current)
      ensures matched ==> Previous() == old(Peek())
    {
      if !IsAtEnd() && Peek().kind in kinds {
        var _ := Advance();
        matched := true;
      } else {
        matched := false;
      }
    }

    method Error(token: Token, message: string)
      modifies this`errors
      ensures errors == old(errors) + [Diagnostic(token, message)]
    {
      errors := errors + [Diagnostic(token, message)];
    }

    /** Reports `message` at the current token when `count` items have already been read, 255 or more. */
    method ReportLimit(count: nat, message: string)
      requires Valid()
      modifies this`errors
      ensures errors == old(errors) + if count >= 255 then [Diagnostic(Peek(), message)] else []
    {
      if count >= 255 {
        Error(Peek(), message);
      }
    }

    /** Returns the expected token and moves past it, or reports `message` at the current token and fails. */
    method Consume(kind: TokenType, message: string) returns (r: ParseResult<Token>)
      requires Valid()
      modifies this`current, this`errors
      ensures Valid()
      ensures old(Check(kind)) ==> r == Parsed(old(Peek())) && current == old(current) + 1 && errors == old(errors)
      ensures !old(Check(kind)) ==>
        r == ParseError && current == old(current) && errors == old(errors) + [Diagnostic(old(Peek()), message)]
    {
      if Check(kind) {
        var t := Advance();
        return Parsed(t);
      }
      Error(Peek(), message);
      r := ParseError;
    }

    /** Where Advance leaves a cursor at `i`: one token further, except at EOF. */
    function AdvancedFrom(i: nat): nat
      requires i < |tokens|
    {
      if tokens[i].kind == Eof then i else i + 1
    }

    /** Recovery may resume at `k`: EOF, just after a `;`, or in front of a token that starts a declaration. */
    predicate CanResume(k: nat)
      requires k < |tokens|
    {
      tokens[k].kind == Eof || (k > 0 && tokens[k - 1].kind == Semicolon) || tokens[k].kind in DeclarationStarts
    }

    /** The first position from `i` on where recovery may resume. */
    function ResumePoint(i: nat): (k: nat)
      requires i < |tokens| && tokens[|tokens| - 1].kind == Eof
      ensures i <= k < |tokens| && CanResume(k)
      ensures forall j | i <= j < k :: !CanResume(j)
      decreases |tokens| - i
    {
      if CanResume(i) then i else ResumePoint(i + 1)
    }

    /**
     * Error recovery: skips at least one token, then stops after a `;` or
     * in front of a token that starts a declaration, or at EOF.
     */
    method Synchronize()
      requires Valid()
      modifies this`current
      ensures Valid() && current == ResumePoint(AdvancedFrom(old(current)))
    {
      var _ := Advance();
      while !IsAtEnd()
        invariant Valid() && ResumePoint(current) == ResumePoint(AdvancedFrom(old(current)))
        invariant current > 0 || IsAtEnd()
        decreases |tokens| - current
      {
        if Previous().kind == Semicolon {
          assert ResumePoint(current) == current;
          return;
        }
        if Peek().kind in DeclarationStarts {
          assert ResumePoint(current) == current;
          return;
        }
        assert ResumePoint(current) == ResumePoint(current + 1);
        var _ := Advance();
      }
    }

    /**
     * `check_type`: a `[` `]` pair after a type keyword turns `int` into
     * `int[]`; any other token is left unread.
     */
    method CheckType(lexeme: string) returns (r: ParseResult<string>)
      requires Valid()
      modifies this`current, this`errors
      ensures Valid() && old(current) <= current && |old(errors)| <= |errors|
      ensures r.ParseError? ==> |old(errors)| < |errors|
      ensures !old(Check(LeftBracket)) ==> r == Parsed(lexeme) && current == old(current) && errors == old(errors)
      ensures old(Check(LeftBracket)) && tokens[old(current) + 1].kind == RightBracket ==>
        r == Parsed(lexeme + "[]") && current == old(current) + 2
      ensures old(Check(LeftBracket)) && tokens[old(current) + 1].kind != RightBracket ==> r == ParseError
    {
      var saved := current;
      if IsAtEnd() {
        return Parsed(lexeme);
      }
      var t := Advance();
      if t.kind != LeftBracket {
        current := saved;
        return Parsed(lexeme);
      }
      var close :- Consume(RightBracket, "Expect ']' in array type declaration.");
      r := Parsed(lexeme + "[]");
    }

    /**
     * `parse`: declarations until EOF, at most 100 attempts; failed
     * declarations leave no statement behind.
     */
    method Parse() returns (statements: seq<Stmt>, ghost attempts: nat)
      requires Valid()
      modifies this`current, this`errors
      ensures Valid() && |old(errors)| <= |errors|
      ensures |statements| <= attempts <= 100
      ensures IsAtEnd() || attempts == 100
      ensures |errors| == |old(errors)| ==> |statements| == attempts
      ensures forall s | s in statements :: WellFormedStmt(s)
    {
      statements := [];
      var iterationCount := 0;
      while !IsAtEnd()
        invariant Valid() && |old(errors)| <= |errors|
        invariant |statements| <= iterationCount <= 100
        invariant |errors| == |old(errors)| ==> |statements| == iterationCount
        invariant forall s | s in statements :: WellFormedStmt(s)
        decreases |tokens| - current
      {
        if iterationCount >= 100 {
          break;
        }
        var declaration, _ := Declaration();
        iterationCount := iterationCount + 1;
        if declaration.Some? {
          statements := statements + [declaration.value];
        }
      }
      attempts := iterationCount;
    }

    /**
     * `declaration`: a class, function, variable declaration or statement;
     * on `ParseError` it synchronizes, skips one more token and yields
     * nothing.
     */
    method Declaration() returns (r: Option<Stmt>, ghost failedAt: nat)
      requires Valid()
      modifies this`current, this`errors
      ensures Valid() && old(current) <= current && |old(errors)| <= |errors|
      ensures !old(IsAtEnd()) ==> old(current) < current
      ensures r.None? ==> |old(errors)| < |errors|
      ensures r.None? ==> old(current) <= failedAt < |tokens| && current == AdvancedFrom(ResumePoint(AdvancedFrom(failedAt)))
      ensures r.Some? ==> WellFormedStmt(r.value)
      decreases |tokens| - current, 16
    {
      var result := DeclarationKind();
      failedAt := current;
      if result.ParseError? {
        Synchronize();
        var _ := Advance();
        r := None;
      } else {
        r := Some(result.value);
      }
    }

    /** The choice `declaration` makes on its first token. */
    method DeclarationKind() returns (r: ParseResult<Stmt>)
      requires Valid()
      modifies this`current, this`errors
      ensures Valid() && old(current) <= current && |old(errors)| <= |errors|
      ensures r.ParseError? ==> |old(errors)| < |errors|
      ensures r.Parsed? ==> old(current) < current && WellFormedStmt(r.value)
      decreases |tokens| - current, 15
    {
      var isClass := Match({ClassKw});
      if isClass {
        r := ClassDeclaration();
      } else if Check(FunKw) {
        var f := Function("function");
        r := if f.Parsed? then Parsed(FunctionStmt(f.value)) else ParseError;
      } else if Check(VarKw) {
        r := VarDeclaration();
      } else {
        r := Statement();
      }
    }

    method ClassDeclaration() returns (r: ParseResult<Stmt>)
      requires Valid()
      modifies this`current, this`errors
      ensures Valid() && old(current) <= current && |old(errors)| <= |errors|
      ensures r.ParseError? ==> |old(errors)| < |errors|
      ensures r.Parsed? ==> old(current) < current && r.value.ClassStmt? && WellFormedStmt(r.value)
      ensures r.Parsed? ==> r.value.name.kind == Identifier
                            && (r.value.superclass.Some? ==> r.value.superclass.value.kind == Identifier)
      decreases |tokens| - current, 16
    {
      var name :- Consume(Identifier, "Expect class name.");
      var superclass :- Superclass();
      var open :- Consume(LeftBrace, "Expect '{' before class body.");
      var methods: seq<FunctionDecl> := [];
      while !Check(RightBrace) && !IsAtEnd()
        invariant Valid() && old(current) < current && |old(errors)| <= |errors|
        invariant forall f | f in methods :: WellFormedFunction(f)
        decreases |tokens| - current
      {
        var m :- Function("method");
        methods := methods + [m];
      }
      var close :- Consume(RightBrace, "Expect '}' after class body.");
      r := Parsed(ClassStmt(name, superclass, methods));
    }

    /** The optional `: Name` of a class declaration; the name is the token just consumed. */
    method Superclass() returns (r: ParseResult<Option<Token>>)
      requires Valid()
      modifies this`current, this`errors
      ensures Valid() && old(current) <= current && |old(errors)| <= |errors|
      ensures r.ParseError? ==> |old(errors)| < |errors|
      ensures r.Parsed? ==> (r.value.None? <==> !old(Check(Colon)))
      ensures r.Parsed? && r.value.None? ==> current == old(current)
      ensures r.Parsed? && r.value.Some? ==> r.value.value.kind == Identifier
    {
      var colon := Match({Colon});
      if !colon {
        return Parsed(None);
      }
      var superName :- Consume(Identifier, "Expect superclass name.");
      r := Parsed(Some(Previous()));
    }

    method Statement() returns (r: ParseResult<Stmt>)
      requires Valid()
      modifies this`current, this`errors
      ensures Valid() && old(current) <= current && |old(errors)| <= |errors|
      ensures r.ParseError? ==> |old(errors)| < |errors|
      ensures r.Parsed? ==> old(current) < current && WellFormedStmt(r.value)
      decreases |tokens| - current, 14
    {
      var m := Match({ForKw});
      if m {
        var loop, _, _, _, _, _, _ := ForStatement();
        r := loop;
        return;
      }
      m := Match({IfKw});
      if m {
        r := IfStatement();
        return;
      }
      m := Match({PrintKw});
      if m {
        r := PrintStatement();
        return;
      }
      m := Match({ReturnKw});
      if m {
        r := ReturnStatement();
        return;
      }
      m := Match({WhileKw});
      if m {
        r := WhileStatement();
        return;
      }
      m := Match({LeftBrace});
      if m {
        var statements :- Block();
        return Parsed(BlockStmt(statements));
      }
      r := ExpressionStatement();
    }

    /**
     * `for (init; cond; inc) body`, rewritten into a `while` loop around
     * the clauses `ForHeader` parsed and the body statement after them.
     */
    method ForStatement() returns (r: ParseResult<Stmt>, ghost init: Option<Stmt>, ghost cond: Option<Expr>,
                                   ghost inc: Option<Expr>, ghost body: Stmt, ghost condAt: nat, ghost incAt: nat)
      requires Valid()
      modifies this`current, this`errors
      ensures Valid() && old(current) <= current && |old(errors)| <= |errors|
      ensures r.ParseError? ==> |old(errors)| < |errors|
      ensures r.Parsed? ==> old(current) < current && WellFormedStmt(r.value)
      ensures r.Parsed? ==> r.value == DesugarFor(init, cond, inc, body) && WellFormedStmt(body)
      ensures r.Parsed? ==> ForClausesAt(old(current), condAt, incAt, init, cond, inc) && incAt < current
      decreases |tokens| - current, 14
    {
      init, cond, inc, body := None, None, None, ExpressionStmt(Literal(CNone));
      var header;
      header, condAt, incAt := ForHeader();
      if header.ParseError? {
        return ParseError, init, cond, inc, body, condAt, incAt;
      }
      var loopBody := Statement();
      if loopBody.ParseError? {
        return ParseError, init, cond, inc, body, condAt, incAt;
      }
      var (initializer, condition, increment) := header.value;
      DesugarForWellFormed(initializer, condition, increment, loopBody.value);
      init, cond, inc, body := initializer, condition, increment, loopBody.value;
      r := Parsed(DesugarFor(initializer, condition, increment, loopBody.value));
    }

    /**
     * The clauses of a `for` as parsed from `start`, the position of its
     * `(`: the initializer is absent exactly at `;` and is a declaration
     * after `var`; the condition clause begins at `condAt` and is absent
     * exactly at its `;`; the increment clause begins at `incAt`, after
     * that `;`, and is absent exactly at `)`.
     */
    ghost predicate ForClausesAt(start: nat, condAt: nat, incAt: nat, init: Option<Stmt>, cond: Option<Expr>, inc: Option<Expr>)
    {
      start + 1 < condAt && LoopClausesAt(condAt, incAt, cond, inc) &&
      tokens[start].kind == LeftParen && InitializerAt(start + 1, init)
    }

    /** The initializer clause at `at` is absent exactly at `;` and is a declaration after `var`. */
    ghost predicate InitializerAt(at: nat, init: Option<Stmt>)
    {
      at < |tokens| &&
      (init.None? <==> tokens[at].kind == Semicolon) &&
      (tokens[at].kind == VarKw ==> init.Some? && init.value.VarStmt?) &&
      (init.Some? ==> WellFormedStmt(init.value))
    }

    /**
     * The condition clause begins at `condAt` and is absent exactly at its
     * `;`; the increment clause begins at `incAt`, after that `;`, and is
     * absent exactly at `)`.
     */
    ghost predicate LoopClausesAt(condAt: nat, incAt: nat, cond: Option<Expr>, inc: Option<Expr>)
    {
      condAt < incAt < |tokens| &&
      (cond.None? <==> tokens[condAt].kind == Semicolon) && tokens[incAt - 1].kind == Semicolon &&
      (inc.None? <==> tokens[incAt].kind == RightParen) &&
      (cond.Some? ==> AtLevel(cond.value, AssignLevel)) && (inc.Some? ==> AtLevel(inc.value, AssignLevel))
    }

    /** `(`, the initializer, the condition clause and the increment clause of a `for`. */
    method ForHeader() returns (r: ParseResult<(Option<Stmt>, Option<Expr>, Option<Expr>)>, ghost condAt: nat, ghost incAt: nat)
      requires Valid()
      modifies this`current, this`errors
      ensures Valid() && old(current) <= current && |old(errors)| <= |errors|
      ensures r.ParseError? ==> |old(errors)| < |errors|
      ensures r.Parsed? ==> ForClausesAt(old(current), condAt, incAt, r.value.0, r.value.1, r.value.2) && incAt < current
      decreases |tokens| - current, 14
    {
      condAt, incAt := 0, 0;
      var open := Consume(LeftParen, "Expect '(' after 'for'.");
      if open.ParseError? {
        return ParseError, condAt, incAt;
      }
      var initializer := ForInitializer();
      if initializer.ParseError? {
        return ParseError, condAt, incAt;
      }
      condAt := current;
      var clauses;
      clauses, incAt := ForConditionAndIncrement();
      if clauses.ParseError? {
        return ParseError, condAt, incAt;
      }
      r := Parsed((initializer.value, clauses.value.0, clauses.value.1));
    }

    /** The condition clause up to its `;` and the increment clause up to its `)`; the latter begins at `incAt`. */
    method ForConditionAndIncrement() returns (r: ParseResult<(Option<Expr>, Option<Expr>)>, ghost incAt: nat)
      requires Valid()
      modifies this`current, this`errors
      ensures Valid() && old(current) <= current && |old(errors)| <= |errors|
      ensures r.ParseError? ==> |old(errors)| < |errors|
      ensures r.Parsed? ==> LoopClausesAt(old(current), incAt, r.value.0, r.value.1) && incAt < current
      decreases |tokens| - current, 14
    {
      incAt := 0;
      var condition := ForClause(Semicolon, "Expect ';' after loop condition.");
      if condition.ParseError? {
        return ParseError, incAt;
      }
      var cond := condition.value;
      incAt := current;
      var increment := ForClause(RightParen, "Expect ')' after for clauses.");
      if increment.ParseError? {
        return ParseError, incAt;
      }
      var inc := increment.value;
      r := Parsed((cond, inc));
    }

    /** The first clause of a `for`: empty (`;`), a variable declaration, or an expression statement. */
    method ForInitializer() returns (r: ParseResult<Option<Stmt>>)
      requires Valid()
      modifies this`current, this`errors
      ensures Valid() && old(current) <= current && |old(errors)| <= |errors|
      ensures r.ParseError? ==> |old(errors)| < |errors|
      ensures r.Parsed? ==> old(current) < current && InitializerAt(old(current), r.value)
      decreases |tokens| - current, 14
    {
      var semicolon := Match({Semicolon});
      if semicolon {
        return Parsed(None);
      }
      if Check(VarKw) {
        var declaration :- VarDeclaration();
        return Parsed(Some(declaration));
      }
      var statement :- ExpressionStatement();
      r := Parsed(Some(statement));
    }

    /** The condition or increment clause of a `for`: an optional expression, then its terminator. */
    method ForClause(terminator: TokenType, message: string) returns (r: ParseResult<Option<Expr>>)
      requires Valid() && terminator != Eof
      modifies this`current, this`errors
      ensures Valid() && old(current) <= current && |old(errors)| <= |errors|
      ensures r.ParseError? ==> |old(errors)| < |errors|
      ensures r.Parsed? ==> old(current) < current && (r.value.Some? ==> AtLevel(r.value.value, AssignLevel))
      ensures r.Parsed? ==> (r.value.None? <==> tokens[old(current)].kind == terminator) && tokens[current - 1].kind == terminator
      decreases |tokens| - current, 13
    {
      var clause: Option<Expr> := None;
      if !Check(terminator) {
        var e :- Expression();
        clause := Some(e);
      }
      var end :- Consume(terminator, message);
      r := Parsed(clause);
    }

    method IfStatement() returns (r: ParseResult<Stmt>)
      requires Valid()
      modifies this`current, this`errors
      ensures Valid() && old(current) <= current && |old(errors)| <= |errors|
      ensures r.ParseError? ==> |old(errors)| < |errors|
      ensures r.Parsed? ==> old(current) < current && r.value.IfStmt? && WellFormedStmt(r.value)
      decreases |tokens| - current, 14
    {
      var open :- Consume(LeftParen, "Expect '(' after 'if'.");
      var condition :- Expression();
      var close :- Consume(RightParen, "Expect ')' after if condition.");
      var thenBranch :- Statement();
      var elseBranch :- ElseBranch();
      r := Parsed(IfStmt(condition, thenBranch, elseBranch));
    }

    /** The optional `else statement` of an `if`. */
    method ElseBranch() returns (r: ParseResult<Option<Stmt>>)
      requires Valid()
      modifies this`current, this`errors
      ensures Valid() && old(current) <= current && |old(errors)| <= |errors|
      ensures r.ParseError? ==> |old(errors)| < |errors|
      ensures r.Parsed? ==> (r.value.None? <==> !old(Check(ElseKw)))
      ensures r.Parsed? && r.value.None? ==> current == old(current)
      ensures r.Parsed? && r.value.Some? ==> WellFormedStmt(r.value.value)
      decreases |tokens| - current, 14
    {
      var hasElse := Match({ElseKw});
      if !hasElse {
        return Parsed(None);
      }
      var e :- Statement();
      r := Parsed(Some(e));
    }

    method PrintStatement() returns (r: ParseResult<Stmt>)
      requires Valid()
      modifies this`current, this`errors
      ensures Valid() && old(current) <= current && |old(errors)| <= |errors|
      ensures r.ParseError? ==> |old(errors)| < |errors|
      ensures r.Parsed? ==> old(current) < current && r.value.PrintStmt? && WellFormedStmt(r.value)
      decreases |tokens| - current, 14
    {
      var open :- Consume(LeftParen, "Expect '(' after WriteLine.");
      var value :- Expression();
      var close :- Consume(RightParen, "Expect ')' after WriteLine.");
      var semicolon :- Consume(Semicolon, "Expect ';' at the end of WriteLine.");
      r := Parsed(PrintStmt(value));
    }

    /** Entered just after the `return` keyword, which becomes the node's keyword. */
    method ReturnStatement() returns (r: ParseResult<Stmt>)
      requires Valid()
      modifies this`current, this`errors
      ensures Valid() && old(current) <= current && |old(errors)| <= |errors|
      ensures r.ParseError? ==> |old(errors)| < |errors|
      ensures r.Parsed? ==> old(current) < current && WellFormedStmt(r.value)
      ensures r.Parsed? ==> r.value.ReturnStmt? && r.value.keyword == old(Previous())
      ensures r.Parsed? ==> (r.value.value.None? <==> old(Check(Semicolon)))
      decreases |tokens| - current, 14
    {
      var keyword := Previous();
      var value: Option<Expr> := None;
      if !Check(Semicolon) {
        var v :- Expression();
        value := Some(v);
      }
      var semicolon :- Consume(Semicolon, "Expect ';' after return value.");
      r := Parsed(ReturnStmt(keyword, value));
    }

    /**
     * The type that starts a declaration: a `kind` token, an optional
     * `[]`, looked up as a variable type or a function return type; a
     * name that is no type is reported at the type token.
     */
    method TypeModifier(kind: TokenType, isFunction: bool, expected: string, unexpected: string) returns (r: ParseResult<CTypes.CType>)
      requires Valid()
      modifies this`current, this`errors
      ensures Valid() && old(current) <= current && |old(errors)| <= |errors|
      ensures r.ParseError? ==> |old(errors)| < |errors|
      ensures r.Parsed? ==> old(current) < current && r.value != CTypes.NoneType && (!isFunction ==> r.value != CTypes.Void)
      ensures !old(Check(kind)) ==> r == ParseError && errors == old(errors) + [Diagnostic(old(Peek()), expected)]
    {
      var typeToken :- Consume(kind, expected);
      var typeLexeme :- CheckType(typeToken.lexeme);
      var ctype := CTypes.GetType(typeLexeme, isFunction);
      if ctype == CTypes.NoneType {
        Error(typeToken, unexpected);
        return ParseError;
      }
      r := Parsed(ctype);
    }

    /** `int x = e;`, `int[] a;`: a type keyword, an optional `[]`, a name, an optional initializer. */
    method VarDeclaration() returns (r: ParseResult<Stmt>)
      requires Valid()
      modifies this`current, this`errors
      ensures Valid() && old(current) <= current && |old(errors)| <= |errors|
      ensures r.ParseError? ==> |old(errors)| < |errors|
      ensures r.Parsed? ==> old(current) < current && r.value.VarStmt? && WellFormedStmt(r.value)
      ensures r.Parsed? ==> r.value.variable.name.kind == Identifier
      decreases |tokens| - current, 13
    {
      var ctype :- TypeModifier(VarKw, false, "Expect variable type modifier.", "Unexpected variable type modifier.");
      var name :- Consume(Identifier, "Expect variable name.");
      var initializer :- Initializer();
      var semicolon :- Consume(Semicolon, "Expect ';' after variable declaration.");
      r := Parsed(VarStmt(VarDecl(name, ctype, initializer)));
    }

    /** The optional `= expression` of a variable declaration. */
    method Initializer() returns (r: ParseResult<Option<Expr>>)
      requires Valid()
      modifies this`current, this`errors
      ensures Valid() && old(current) <= current && |old(errors)| <= |errors|
      ensures r.ParseError? ==> |old(errors)| < |errors|
      ensures r.Parsed? ==> (r.value.Some? ==> AtLevel(r.value.value, AssignLevel))
      ensures r.Parsed? ==> (r.value.None? <==> !old(Check(Equal)))
      ensures r.Parsed? && r.value.None? ==> current == old(current)
      decreases |tokens| - current, 13
    {
      var hasInitializer := Match({Equal});
      if !hasInitializer {
        return Parsed(None);
      }
      var e :- Expression();
      r := Parsed(Some(e));
    }

    method WhileStatement() returns (r: ParseResult<Stmt>)
      requires Valid()
      modifies this`current, this`errors
      ensures Valid() && old(current) <= current && |old(errors)| <= |errors|
      ensures r.ParseError? ==> |old(errors)| < |errors|
      ensures r.Parsed? ==> old(current) < current && r.value.WhileStmt? && WellFormedStmt(r.value)
      decreases |tokens| - current, 14
    {
      var open :- Consume(LeftParen, "Expect '(' after 'while'.");
      var condition :- Expression();
      var close :- Consume(RightParen, "Expect ')' after condition.");
      var body :- Statement();
      r := Parsed(WhileStmt(condition, body));
    }

    method ExpressionStatement() returns (r: ParseResult<Stmt>)
      requires Valid()
      modifies this`current, this`errors
      ensures Valid() && old(current) <= current && |old(errors)| <= |errors|
      ensures r.ParseError? ==> |old(errors)| < |errors|
      ensures r.Parsed? ==> old(current) < current && r.value.ExpressionStmt? && WellFormedStmt(r.value)
      decreases |tokens| - current, 13
    {
      var expr :- Expression();
      var semicolon :- Consume(Semicolon, "Expect ';' after expression.");
      r := Parsed(ExpressionStmt(expr));
    }

    /**
     * A function or method (`kind` names which in the messages): a return
     * type, a name, typed parameters and a block.
     */
    method Function(kind: string) returns (r: ParseResult<FunctionDecl>)
      requires Valid()
      modifies this`current, this`errors
      ensures Valid() && old(current) <= current && |old(errors)| <= |errors|
      ensures r.ParseError? ==> |old(errors)| < |errors|
      ensures r.Parsed? ==> old(current) < current && WellFormedFunction(r.value) && r.value.name.kind == Identifier
      ensures r.Parsed? ==> |errors| - |old(errors)| >= |r.value.params| - 255
      decreases |tokens| - current, 14
    {
      var ctype :- TypeModifier(FunKw, true, "Expect " + kind + " modifier.", "Unexpected " + kind + " modifier.");
      var name :- Consume(Identifier, "Expect " + kind + " name.");
      var open :- Consume(LeftParen, "Expect '(' after " + kind + " name.");
      var parameters :- Parameters();
      var close :- Consume(RightParen, "Expect ')' after parameters.");
      var brace :- Consume(LeftBrace, "Expect 'brace' before " + kind + " body.");
      var body :- Block();
      r := Parsed(FunctionDecl(name, parameters, body, ctype));
    }

    /** One `type name` parameter: no initializer, its type read as a variable's. */
    method Parameter() returns (r: ParseResult<VarDecl>)
      requires Valid()
      modifies this`current, this`errors
      ensures Valid() && old(current) <= current && |old(errors)| <= |errors|
      ensures r.ParseError? ==> |old(errors)| < |errors|
      ensures r.Parsed? ==> old(current) < current && r.value.initializer.None? && r.value.name.kind == Identifier
    {
      var paramType :- Consume(VarKw, "Expect parameter type.");
      var identifier :- Consume(Identifier, "Expect parameter name.");
      r := Parsed(VarDecl(identifier, CTypes.GetType(paramType.lexeme, false), None));
    }

    /**
     * The parameter list of `function`, up to (not including) the `)`:
     * `type name` pairs separated by commas, without initializers. Each
     * parameter after the 255th is reported but still parsed.
     */
    method Parameters() returns (r: ParseResult<seq<VarDecl>>)
      requires Valid()
      modifies this`current, this`errors
      ensures Valid() && old(current) <= current && |old(errors)| <= |errors|
      ensures r.ParseError? ==> |old(errors)| < |errors|
      ensures r.Parsed? ==> forall i :: 0 <= i < |r.value| ==> r.value[i].initializer.None?
      ensures r.Parsed? ==> |errors| - |old(errors)| >= |r.value| - 255
      ensures r.Parsed? && old(Check(RightParen)) ==> r.value == [] && current == old(current)
    {
      if Check(RightParen) {
        return Parsed([]);
      }
      var parameters: seq<VarDecl> := [];
      while true
        invariant Valid() && old(current) <= current && |old(errors)| <= |errors|
        invariant forall i :: 0 <= i < |parameters| ==> parameters[i].initializer.None?
        invariant |errors| - |old(errors)| >= |parameters| - 255
        decreases |tokens| - current
      {
        ReportLimit(|parameters|, "Can't have more than 255 parameters.");
        var parameter :- Parameter();
        parameters := parameters + [parameter];
        var comma := Match({Comma});
        if !comma {
          break;
        }
      }
      r := Parsed(parameters);
    }

    /** The statements up to the closing `}` (the opening one is already consumed). */
    method Block() returns (r: ParseResult<seq<Stmt>>)
      requires Valid()
      modifies this`current, this`errors
      ensures Valid() && old(current) <= current && |old(errors)| <= |errors|
      ensures r.ParseError? ==> |old(errors)| < |errors|
      ensures r.Parsed? ==> old(current) < current && forall s | s in r.value :: WellFormedStmt(s)
      decreases |tokens| - current, 17
    {
      var statements: seq<Stmt> := [];
      while !Check(RightBrace) && !IsAtEnd()
        invariant Valid() && old(current) <= current && |old(errors)| <= |errors|
        invariant forall s | s in statements :: WellFormedStmt(s)
        decreases |tokens| - current
      {
        var declaration, _ := Declaration();
        if declaration.Some? {
          statements := statements + [declaration.value];
        }
      }
      var close :- Consume(RightBrace, "Expect '}' after block.");
      r := Parsed(statements);
    }

    method Expression() returns (r: ParseResult<Expr>)
      requires Valid()
      modifies this`current, this`errors
      ensures Valid() && old(current) <= current && |old(errors)| <= |errors|
      ensures r.ParseError? ==> |old(errors)| < |errors|
      ensures r.Parsed? ==> old(current) < current && AtLevel(r.value, AssignLevel)
      decreases |tokens| - current, 12
    {
      var assignment, _, _, _ := Assignment();
      r := assignment;
    }

    /**
     * `assignment`: an `or` expression, or a target followed by `=`, `+=`,
     * `-=`, `/=` or `*=` and (right-associatively) another assignment. The
     * ghost outputs are the `or`-level tree, the assignment operator read
     * after it, and the value parsed after the operator: a valid target
     * gives the `AssignTarget` node, and any other target is reported at the
     * operator.
     */
    method Assignment() returns (r: ParseResult<Expr>, ghost target: Expr, ghost operator: Option<Token>, ghost value: Option<Expr>)
      requires Valid()
      modifies this`current, this`errors
      ensures Valid() && old(current) <= current && |old(errors)| <= |errors|
      ensures r.ParseError? ==> |old(errors)| < |errors|
      ensures r.Parsed? ==> old(current) < current && AtLevel(r.value, AssignLevel) && AtLevel(target, OrLevel)
      ensures r.Parsed? && operator.None? ==> r.value == target
      ensures operator.Some? ==> operator.value.kind in AssignmentOperators
      ensures r.Parsed? && operator.Some? ==>
        value.Some? && AssignTypes.GetType(operator.value.lexeme).Some? &&
        AssignTarget(target, value.value, AssignTypes.GetType(operator.value.lexeme).value) == Some(r.value)
      ensures operator.Some? && value.Some? && AssignTypes.GetType(operator.value.lexeme).None? ==>
        r.ParseError? && errors[|errors| - 1] == Diagnostic(operator.value, "Invalid assignment.")
      ensures operator.Some? && value.Some? && AssignTypes.GetType(operator.value.lexeme).Some? ==>
        var node := AssignTarget(target, value.value, AssignTypes.GetType(operator.value.lexeme).value);
        node.None? ==> r.ParseError? && errors[|errors| - 1] == Diagnostic(operator.value, "Invalid assignment target.")
      decreases |tokens| - current, 11
    {
      operator, value := None, None;
      var left := Or();
      if left.ParseError? {
        return ParseError, BuiltinObject, None, None;
      }
      var expr := left.value;
      target := expr;
      var isAssignment := Match(AssignmentOperators);
      if !isAssignment {
        return Parsed(expr), target, None, None;
      }
      var equals := Previous();
      operator := Some(equals);
      var right, _, _, _ := Assignment();
      if right.ParseError? {
        return ParseError, target, operator, None;
      }
      value := Some(right.value);
      var assignType := AssignTypes.GetType(equals.lexeme);
      if assignType.None? {
        Error(equals, "Invalid assignment.");
        return ParseError, target, operator, value;
      }
      var node := AssignTarget(expr, right.value, assignType.value);
      if node.None? {
        Error(equals, "Invalid assignment target.");
        return ParseError, target, operator, value;
      }
      AssignTargetAtLevel(expr, right.value, assignType.value);
      r := Parsed(node.value);
    }

    method Or() returns (r: ParseResult<Expr>)
      requires Valid()
      modifies this`current, this`errors
      ensures Valid() && old(current) <= current && |old(errors)| <= |errors|
      ensures r.ParseError? ==> |old(errors)| < |errors|
      ensures r.Parsed? ==> old(current) < current && AtLevel(r.value, OrLevel)
      decreases |tokens| - current, 10
    {
      var expr :- And();
      while true
        invariant Valid() && old(current) < current && |old(errors)| <= |errors|
        invariant AtLevel(expr, OrLevel)
        decreases |tokens| - current
      {
        var more := Match({OrKw});
        if !more {
          break;
        }
        var operator := Previous();
        var right :- And();
        expr := Logical(expr, operator, right);
      }
      r := Parsed(expr);
    }

    method And() returns (r: ParseResult<Expr>)
      requires Valid()
      modifies this`current, this`errors
      ensures Valid() && old(current) <= current && |old(errors)| <= |errors|
      ensures r.ParseError? ==> |old(errors)| < |errors|
      ensures r.Parsed? ==> old(current) < current && AtLevel(r.value, AndLevel)
      decreases |tokens| - current, 9
    {
      var expr :- Equality();
      while true
        invariant Valid() && old(current) < current && |old(errors)| <= |errors|
        invariant AtLevel(expr, AndLevel)
        decreases |tokens| - current
      {
        var more := Match({AndKw});
        if !more {
          break;
        }
        var operator := Previous();
        var right :- Equality();
        expr := Logical(expr, operator, right);
      }
      r := Parsed(expr);
    }

    method Equality() returns (r: ParseResult<Expr>)
      requires Valid()
      modifies this`current, this`errors
      ensures Valid() && old(current) <= current && |old(errors)| <= |errors|
      ensures r.ParseError? ==> |old(errors)| < |errors|
      ensures r.Parsed? ==> old(current) < current && AtLevel(r.value, EqualityLevel)
      decreases |tokens| - current, 8
    {
      var expr :- Comparison();
      while true
        invariant Valid() && old(current) < current && |old(errors)| <= |errors|
        invariant AtLevel(expr, EqualityLevel)
        decreases |tokens| - current
      {
        var more := Match(Operators(1));
        if !more {
          break;
        }
        expr :- FoldOperand(expr, Previous(), 1);
      }
      r := Parsed(expr);
    }

    method Comparison() returns (r: ParseResult<Expr>)
      requires Valid()
      modifies this`current, this`errors
      ensures Valid() && old(current) <= current && |old(errors)| <= |errors|
      ensures r.ParseError? ==> |old(errors)| < |errors|
      ensures r.Parsed? ==> old(current) < current && AtLevel(r.value, ComparisonLevel)
      decreases |tokens| - current, 7
    {
      var expr :- Term();
      while true
        invariant Valid() && old(current) < current && |old(errors)| <= |errors|
        invariant AtLevel(expr, ComparisonLevel)
        decreases |tokens| - current
      {
        var more := Match(Operators(2));
        if !more {
          break;
        }
        expr :- FoldOperand(expr, Previous(), 2);
      }
      r := Parsed(expr);
    }

    method Term() returns (r: ParseResult<Expr>)
      requires Valid()
      modifies this`current, this`errors
      ensures Valid() && old(current) <= current && |old(errors)| <= |errors|
      ensures r.ParseError? ==> |old(errors)| < |errors|
      ensures r.Parsed? ==> old(current) < current && AtLevel(r.value, TermLevel)
      decreases |tokens| - current, 6
    {
      var expr :- Factor();
      while true
        invariant Valid() && old(current) < current && |old(errors)| <= |errors|
        invariant AtLevel(expr, TermLevel)
        decreases |tokens| - current
      {
        var more := Match(Operators(3));
        if !more {
          break;
        }
        expr :- FoldOperand(expr, Previous(), 3);
      }
      r := Parsed(expr);
    }

    method Factor() returns (r: ParseResult<Expr>)
      requires Valid()
      modifies this`current, this`errors
      ensures Valid() && old(current) <= current && |old(errors)| <= |errors|
      ensures r.ParseError? ==> |old(errors)| < |errors|
      ensures r.Parsed? ==> old(current) < current && AtLevel(r.value, FactorLevel)
      decreases |tokens| - current, 5
    {
      var expr :- Unary();
      while true
        invariant Valid() && old(current) < current && |old(errors)| <= |errors|
        invariant AtLevel(expr, FactorLevel)
        decreases |tokens| - current
      {
        var more := Match(Operators(4));
        if !more {
          break;
        }
        expr :- FoldOperand(expr, Previous(), 4);
      }
      r := Parsed(expr);
    }

    /**
     * The rest of one round of a binary level's loop: the operand at the
     * next tighter level, folded onto `left` under the operator just matched.
     */
    method FoldOperand(left: Expr, operator: Token, p: nat) returns (r: ParseResult<Expr>)
      requires Valid() && 1 <= p <= 4 && operator.kind in Operators(p) && AtLevel(left, BinaryLevel(p))
      modifies this`current, this`errors
      ensures Valid() && old(current) <= current && |old(errors)| <= |errors|
      ensures r.ParseError? ==> |old(errors)| < |errors|
      ensures r.Parsed? ==> old(current) < current && AtLevel(r.value, BinaryLevel(p))
      ensures r.Parsed? ==> r.value.Binary? && r.value.left == left && r.value.operator == operator
      decreases |tokens| - current, 9
    {
      OperatorStrength(operator.kind, p);
      var right;
      if p == 1 {
        right :- Comparison();
      } else if p == 2 {
        right :- Term();
      } else if p == 3 {
        right :- Factor();
      } else {
        right :- Unary();
      }
      FoldBinary(left, operator, right, p);
      r := Parsed(Binary(left, operator, right));
    }

    method Unary() returns (r: ParseResult<Expr>)
      requires Valid()
      modifies this`current, this`errors
      ensures Valid() && old(current) <= current && |old(errors)| <= |errors|
      ensures r.ParseError? ==> |old(errors)| < |errors|
      ensures r.Parsed? ==> old(current) < current && AtLevel(r.value, UnaryLevel)
      decreases |tokens| - current, 4
    {
      var prefix := Match({Bang, Minus});
      if prefix {
        var operator := Previous();
        var right :- Unary();
        return Parsed(Expr.Unary(operator, right));
      }
      r := Call();
    }

    /** The comma-separated arguments of a call, up to (not including) the closing `)`. */
    method Arguments() returns (r: ParseResult<seq<Expr>>)
      requires Valid()
      modifies this`current, this`errors
      ensures Valid() && old(current) <= current && |old(errors)| <= |errors|
      ensures r.ParseError? ==> |old(errors)| < |errors|
      ensures r.Parsed? ==> forall a | a in r.value :: AtLevel(a, AssignLevel)
      ensures r.Parsed? ==> |errors| - |old(errors)| >= |r.value| - 255
      ensures r.Parsed? && old(Check(RightParen)) ==> r.value == [] && current == old(current)
      decreases |tokens| - current, 13
    {
      if Check(RightParen) {
        return Parsed([]);
      }
      var arguments: seq<Expr> := [];
      while true
        invariant Valid() && old(current) <= current && |old(errors)| <= |errors|
        invariant forall a | a in arguments :: AtLevel(a, AssignLevel)
        invariant |errors| - |old(errors)| >= |arguments| - 255
        decreases |tokens| - current
      {
        ReportLimit(|arguments|, "Can't have more than 255 arguments.");
        var argument :- Expression();
        arguments := arguments + [argument];
        var comma := Match({Comma});
        if !comma {
          break;
        }
      }
      r := Parsed(arguments);
    }

    /** The arguments up to `)` (the `(` is already consumed); more than 255 are reported but kept. */
    method FinishCall(callee: Expr) returns (r: ParseResult<Expr>)
      requires Valid()
      modifies this`current, this`errors
      ensures Valid() && old(current) <= current && |old(errors)| <= |errors|
      ensures r.ParseError? ==> |old(errors)| < |errors|
      ensures r.Parsed? ==> old(current) < current && r.value.Call? && r.value.callee == callee
      ensures r.Parsed? ==> forall a | a in r.value.arguments :: AtLevel(a, AssignLevel)
      ensures r.Parsed? ==> |errors| - |old(errors)| >= |r.value.arguments| - 255
      decreases |tokens| - current, 14
    {
      var arguments :- Arguments();
      var paren :- Consume(RightParen, "Expect ')' after arguments.");
      r := Parsed(Expr.Call(callee, paren, arguments));
    }

    /** Calls and property reads, folded to the left: `a.b(c).d`. */
    method Call() returns (r: ParseResult<Expr>)
      requires Valid()
      modifies this`current, this`errors
      ensures Valid() && old(current) <= current && |old(errors)| <= |errors|
      ensures r.ParseError? ==> |old(errors)| < |errors|
      ensures r.Parsed? ==> old(current) < current && AtLevel(r.value, CallLevel)
      decreases |tokens| - current, 3
    {
      var expr :- Subscript();
      while true
        invariant Valid() && old(current) < current && |old(errors)| <= |errors|
        invariant AtLevel(expr, CallLevel)
        decreases |tokens| - current
      {
        var next :- CallSuffix(expr);
        if next.None? {
          break;
        }
        expr := next.value;
      }
      r := Parsed(expr);
    }

    /** One step of `call`'s loop: `(arguments)` or `.name` applied to `expr`, or nothing. */
    method CallSuffix(expr: Expr) returns (r: ParseResult<Option<Expr>>)
      requires Valid()
      modifies this`current, this`errors
      ensures Valid() && old(current) <= current && |old(errors)| <= |errors|
      ensures r.ParseError? ==> |old(errors)| < |errors|
      ensures r.Parsed? ==> (r.value.None? <==> !old(Check(LeftParen)) && !old(Check(Dot)))
      ensures r.Parsed? && r.value.None? ==> current == old(current)
      ensures r.Parsed? && r.value.Some? ==> old(current) < current
      ensures r.Parsed? && r.value.Some? && AtLevel(expr, CallLevel) ==> AtLevel(r.value.value, CallLevel)
      decreases |tokens| - current, 14
    {
      var open := Match({LeftParen});
      if open {
        var call :- FinishCall(expr);
        return Parsed(Some(call));
      }
      var dot := Match({Dot});
      if !dot {
        return Parsed(None);
      }
      var name :- Consume(Identifier, "Expect property name after '.'.");
      r := Parsed(Some(Get(expr, name)));
    }

    method Subscript() returns (r: ParseResult<Expr>)
      requires Valid()
      modifies this`current, this`errors
      ensures Valid() && old(current) <= current && |old(errors)| <= |errors|
      ensures r.ParseError? ==> |old(errors)| < |errors|
      ensures r.Parsed? ==> old(current) < current && AtLevel(r.value, SubscriptLevel)
      decreases |tokens| - current, 2
    {
      var expr :- Primary();
      while true
        invariant Valid() && old(current) < current && |old(errors)| <= |errors|
        invariant AtLevel(expr, SubscriptLevel)
        decreases |tokens| - current
      {
        var open := Match({LeftBracket});
        if !open {
          break;
        }
        expr :- FinishSubscript(expr);
      }
      r := Parsed(expr);
    }

    /** The index up to `]` (the `[` is already consumed); a read, with no assignment operator. */
    method FinishSubscript(target: Expr) returns (r: ParseResult<Expr>)
      requires Valid()
      modifies this`current, this`errors
      ensures Valid() && old(current) <= current && |old(errors)| <= |errors|
      ensures r.ParseError? ==> |old(errors)| < |errors|
      ensures r.Parsed? ==> old(current) < current && r.value.Subscript? && r.value.target == target
      ensures r.Parsed? ==> r.value.written.None? && r.value.assignType == AssignTypes.NoAssign
                            && AtLevel(r.value.index, OrLevel)
      decreases |tokens| - current, 11
    {
      var index :- Or();
      var paren :- Consume(RightBracket, "Expect ']' after arguments.");
      r := Parsed(Expr.Subscript(target, index, None, paren, AssignTypes.NoAssign));
    }

    /** `.name` after `super` (the keyword is the token just consumed). */
    method SuperAccess() returns (r: ParseResult<Expr>)
      requires Valid()
      modifies this`current, this`errors
      ensures Valid() && old(current) <= current && |old(errors)| <= |errors|
      ensures r.ParseError? ==> |old(errors)| < |errors|
      ensures r.Parsed? ==> old(current) < current && r.value.Super? && r.value.keyword == old(Previous())
    {
      var keyword := Previous();
      var dot :- Consume(Dot, "Expect '.' after 'super'.");
      var methodName :- Consume(Identifier, "Expect superclass method name.");
      r := Parsed(Super(keyword, methodName));
    }

    /** A parenthesised expression up to its `)` (the `(` is already consumed). */
    method Group() returns (r: ParseResult<Expr>)
      requires Valid()
      modifies this`current, this`errors
      ensures Valid() && old(current) <= current && |old(errors)| <= |errors|
      ensures r.ParseError? ==> |old(errors)| < |errors|
      ensures r.Parsed? ==> old(current) < current && r.value.Grouping? && AtLevel(r.value.expression, AssignLevel)
      decreases |tokens| - current, 13
    {
      var expr :- Expression();
      var close :- Consume(RightParen, "Expect ')' after expression.");
      r := Parsed(Grouping(expr));
    }

    /**
     * An operand: a literal, `base.name`, a variable, a parenthesized
     * expression or a list; any other token is reported as "Expect expression.".
     */
    method Primary() returns (r: ParseResult<Expr>)
      requires Valid()
      modifies this`current, this`errors
      ensures Valid() && old(current) <= current && |old(errors)| <= |errors|
      ensures r.ParseError? ==> |old(errors)| < |errors|
      ensures r.Parsed? ==> old(current) < current && AtLevel(r.value, PrimaryLevel)
      ensures old(Peek()).kind !in PrimaryStarts ==>
        r == ParseError && current == old(current) && errors == old(errors) + [Diagnostic(old(Peek()), "Expect expression.")]
      ensures old(Peek()).kind in {NumberLit, StringLit} ==> r == Parsed(Literal(LiteralConstant(old(Peek()).literal)))
      ensures old(Peek()).kind == Identifier ==> r == Parsed(Variable(old(Peek())))
      decreases |tokens| - current, 1
    {
      var m := Match({FalseKw});
      if m {
        return Parsed(Literal(CBool(false)));
      }
      m := Match({TrueKw});
      if m {
        return Parsed(Literal(CBool(true)));
      }
      m := Match({NilKw});
      if m {
        return Parsed(Literal(CNone));
      }
      m := Match({NumberLit, StringLit});
      if m {
        return Parsed(Literal(LiteralConstant(Previous().literal)));
      }
      m := Match({SuperKw});
      if m {
        r := SuperAccess();
        return;
      }
      m := Match({Identifier});
      if m {
        return Parsed(Variable(Previous()));
      }
      m := Match({LeftParen});
      if m {
        r := Group();
        return;
      }
      m := Match({LeftBrace});
      if m {
        r := List();
        return;
      }
      Error(Peek(), "Expect expression.");
      r := ParseError;
    }

    /** The comma-separated elements of a non-empty list literal, each rewritten by `ListElement`. */
    method ListValues() returns (r: ParseResult<seq<Expr>>)
      requires Valid()
      modifies this`current, this`errors
      ensures Valid() && old(current) <= current && |old(errors)| <= |errors|
      ensures r.ParseError? ==> |old(errors)| < |errors|
      ensures r.Parsed? ==> old(current) < current && 0 < |r.value| <= 255
      ensures r.Parsed? ==> forall v | v in r.value :: AtLevel(v, OrLevel) && v == ListElement(v)
      decreases |tokens| - current, 11
    {
      var values: seq<Expr> := [];
      while true
        invariant Valid() && old(current) <= current && |old(errors)| <= |errors|
        invariant |values| <= 255 && (values != [] ==> old(current) < current)
        invariant forall v | v in values :: AtLevel(v, OrLevel) && v == ListElement(v)
        decreases |tokens| - current
      {
        if |values| >= 255 {
          Error(Peek(), "Expect expression.");
          return ParseError;
        }
        var expr :- Or();
        ListElementMeaning(expr, OrLevel);
        values := values + [ListElement(expr)];
        var comma := Match({Comma});
        if !comma {
          break;
        }
      }
      r := Parsed(values);
    }

    /**
     * A list literal up to `}` (the `{` is already consumed). Elements are
     * `or` expressions; a 256th element is a parse error.
     */
    method List() returns (r: ParseResult<Expr>)
      requires Valid()
      modifies this`current, this`errors
      ensures Valid() && old(current) <= current && |old(errors)| <= |errors|
      ensures r.ParseError? ==> |old(errors)| < |errors|
      ensures r.Parsed? ==> old(current) < current && r.value.ListExpr? && |r.value.values| <= 255
      ensures r.Parsed? ==> AtLevel(r.value, PrimaryLevel)
      ensures r.Parsed? ==> forall v | v in r.value.values :: v == ListElement(v)
      decreases |tokens| - current, 12
    {
      var empty := Match({RightBrace});
      if empty {
        return Parsed(ListExpr([]));
      }
      var values :- ListValues();
      var close :- Consume(RightBrace, "Expect ']' at end of list.");
      r := Parsed(ListExpr(values));
    }
  }
}
