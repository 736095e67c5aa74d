/**
 * The lexer (SyntaxAnalizer/scanner.py). `Scanner` keeps the cursor fields
 * of the source and is proved against `Step`, a pure description of one
 * call of `scan_token`, and `ScanFrom`, the whole token stream from a
 * position. Character classes are ASCII.
 */
module Scanning {
  import opened Wrappers
  import opened Tokens

  /** A scanner diagnostic: the line and the message. */
  datatype ScanError = ScanError(line: int, message: string)

  predicate IsDigit(c: char) { '0' <= c <= '9' }
  predicate IsAlpha(c: char) { 'a' <= c <= 'z' || 'A' <= c <= 'Z' }
  /** A character that may start an identifier. */
  predicate IsIdentStart(c: char) { IsAlpha(c) || c == '_' || c == '&' || c == '|' }
  /** A character that may continue an identifier. */
  predicate IsIdentPart(c: char) { IsAlpha(c) || IsDigit(c) || c == '_' || c == '&' || c == '|' }

  /** The type names the `KEYWORDS` table maps to VAR. */
  const TypeKeywords: set<string> := {"int", "string", "char", "float", "bool"}

  /** The `KEYWORDS` table. */
  const Keywords: map<string, TokenType> := map[
    "&&" := AndKw, "class" := ClassKw, "else" := ElseKw, "false" := FalseKw, "for" := ForKw,
    "if" := IfKw, "null" := NilKw, "||" := OrKw, "WriteLine" := PrintKw, "return" := ReturnKw,
    "base" := SuperKw, "true" := TrueKw, "while" := WhileKw,
    "int" := VarKw, "string" := VarKw, "char" := VarKw, "float" := VarKw, "bool" := VarKw,
    "void" := FunKw]

  /** `KEYWORDS.get(text, IDENTIFIER)`. */
  function Keyword(text: string): (k: TokenType)
    ensures k != Eof
  {
    if text in Keywords then Keywords[text] else Identifier
  }

  /** The single-character tokens. */
  function SingleKind(c: char): (k: Option<TokenType>)
    ensures k.Some? ==> k.value != Eof && c != '\n'
  {
    if c == '(' then Some(LeftParen)
    else if c == ')' then Some(RightParen)
    else if c == '{' then Some(LeftBrace)
    else if c == '}' then Some(RightBrace)
    else if c == '[' then Some(LeftBracket)
    else if c == ']' then Some(RightBracket)
    else if c == ':' then Some(Colon)
    else if c == ',' then Some(Comma)
    else if c == '.' then Some(Dot)
    else if c == ';' then Some(Semicolon)
    else None
  }

  /** The operators that combine with a following `=`: (alone, with `=`). */
  function OperatorKinds(c: char): (k: Option<(TokenType, TokenType)>)
    ensures k.Some? ==> k.value.0 != Eof && k.value.1 != Eof && c != '\n'
  {
    if c == '-' then Some((Minus, MinusEqual))
    else if c == '+' then Some((Plus, PlusEqual))
    else if c == '*' then Some((Star, StarEqual))
    else if c == '!' then Some((Bang, BangEqual))
    else if c == '=' then Some((Equal, EqualEqual))
    else if c == '<' then Some((Less, LessEqual))
    else if c == '>' then Some((Greater, GreaterEqual))
    else None
  }

  /** Number of newline characters in `s`. */
  function Newlines(s: string): nat
  {
    if s == [] then 0 else Newlines(s[..|s| - 1]) + (if s[|s| - 1] == '\n' then 1 else 0)
  }

  /** First position at or after `i` holding `stop`, or the end. */
  function Until(src: string, i: nat, stop: char): (j: nat)
    requires i <= |src|
    ensures i <= j <= |src| && (j < |src| ==> src[j] == stop)
    decreases |src| - i
  {
    if i < |src| && src[i] != stop then Until(src, i + 1, stop) else i
  }

  /** First position at or after `i` whose character is not in `cs`. */
  function SkipIn(src: string, i: nat, cs: set<char>): (j: nat)
    requires i <= |src|
    ensures i <= j <= |src| && (j < |src| ==> src[j] !in cs)
    decreases |src| - i
  {
    if i < |src| && src[i] in cs then SkipIn(src, i + 1, cs) else i
  }

  /** End of the identifier characters starting at `i`. */
  function IdentEnd(src: string, i: nat): (j: nat)
    requires i <= |src|
    ensures i <= j <= |src| && (j < |src| ==> !IsIdentPart(src[j]))
    decreases |src| - i
  {
    if i < |src| && IsIdentPart(src[i]) then IdentEnd(src, i + 1) else i
  }

  /** End of the digits starting at `i`. */
  function DigitsEnd(src: string, i: nat): (j: nat)
    requires i <= |src|
    ensures i <= j <= |src| && (j < |src| ==> !IsDigit(src[j]))
    decreases |src| - i
  {
    if i < |src| && IsDigit(src[i]) then DigitsEnd(src, i + 1) else i
  }

  /** End of the number whose first digit is at `pos`: digits, then `.digits` if a digit follows the dot. */
  function NumberEnd(src: string, pos: nat): (j: nat)
    requires pos < |src|
    ensures pos < j <= |src|
  {
    var a := DigitsEnd(src, pos + 1);
    if a + 1 < |src| && src[a] == '.' && IsDigit(src[a + 1]) then DigitsEnd(src, a + 1) else a
  }

  /** The lookahead after a type keyword ending at `j`: spaces and brackets, an identifier, spaces, `(`. */
  predicate LooksLikeFunction(src: string, j: nat)
    requires j <= |src|
  {
    var a := SkipIn(src, j, {' ', '[', ']'});
    a < |src| && IsIdentStart(src[a]) &&
    var b := IdentEnd(src, a + 1);
    var c := SkipIn(src, b, {' '});
    c < |src| && src[c] == '('
  }

  /** Kind of the word `src[pos..j]`: its keyword, with VAR re-labelled FUN by the lookahead. */
  function WordKind(src: string, pos: nat, j: nat): TokenType
    requires pos <= j <= |src|
  {
    var k := Keyword(src[pos..j]);
    if k == VarKw && LooksLikeFunction(src, j) then FunKw else k
  }

  /** Value of a string of decimal digits. */
  function DigitsValue(s: string): int
  {
    if s == [] then 0 else DigitsValue(s[..|s| - 1]) * 10 + (s[|s| - 1] as int - '0' as int)
  }

  function Pow10(n: nat): (r: nat)
    ensures r >= 1
  {
    if n == 0 then 1 else 10 * Pow10(n - 1)
  }

  /** Position of the first dot of a number lexeme, or its length. */
  function DotIndex(text: string): nat
  {
    Until(text, 0, '.')
  }

  /** Shape of a number lexeme: digits, optionally followed by a dot and at least one digit. */
  predicate NumberShape(text: string)
  {
    var dot := DotIndex(text);
    && dot >= 1
    && (forall k :: 0 <= k < dot ==> IsDigit(text[k]))
    && (dot < |text| ==> dot + 1 < |text| && forall k :: dot < k < |text| ==> IsDigit(text[k]))
  }

  /** Exact value of a number lexeme, read as a decimal fraction. */
  function DecimalValue(text: string): real
  {
    var dot := DotIndex(text);
    var whole := DigitsValue(text[..dot]);
    if dot == |text| then whole as real
    else whole as real + DigitsValue(text[dot + 1..]) as real / Pow10(|text| - dot - 1) as real
  }

  predicate IsIntegral(r: real) { r == r.Floor as real }

  /** The literal of a number lexeme: an int when the fraction is zero, a float otherwise. */
  function NumberLiteral(text: string): LiteralValue
  {
    var dot := DotIndex(text);
    var whole := DigitsValue(text[..dot]);
    if dot == |text| || DigitsValue(text[dot + 1..]) == 0 then IntLiteral(whole)
    else FloatLiteral(DecimalValue(text))
  }

  /** What one call of `scan_token` adds and where it leaves the cursor and the line counter. */
  datatype StepResult = StepResult(tokens: seq<Token>, errors: seq<ScanError>, next: nat, line: int)

  function Emit(src: string, pos: nat, next: nat, kind: TokenType, lit: LiteralValue, line: int): StepResult
    requires pos <= next <= |src|
  {
    StepResult([Token(kind, src[pos..next], lit, line)], [], next, line)
  }

  /** No newline among `src[i..j]`. */
  predicate NoNewlineIn(src: string, i: nat, j: nat)
    requires i <= j <= |src|
  {
    forall k :: i <= k < j ==> src[k] != '\n'
  }

  /**
   * At most one token, never EOF, spelling exactly the characters the step
   * consumed, on a line between the step's first and last.
   */
  predicate TokensFit(src: string, pos: nat, line: int, r: StepResult)
    requires pos <= r.next <= |src|
  {
    && |r.tokens| <= 1
    && forall t :: t in r.tokens ==> t.kind != Eof && t.lexeme == src[pos..r.next] && line <= t.line <= r.line
  }

  /** The characters `scan_token` handles as punctuation, operators or comments. */
  predicate IsOperatorChar(c: char)
  {
    SingleKind(c).Some? || OperatorKinds(c).Some? || c == '/'
  }

  /** Punctuation, an operator with or without a following `=`, or a `//` comment. */
  function OperatorStep(src: string, pos: nat, line: int): (r: StepResult)
    requires pos < |src| && IsOperatorChar(src[pos])
    ensures pos < r.next <= |src|
  {
    var c := src[pos];
    var p1 := pos + 1;
    if SingleKind(c).Some? then Emit(src, pos, p1, SingleKind(c).value, NoLiteral, line)
    else if OperatorKinds(c).Some? then
      if p1 < |src| && src[p1] == '=' then Emit(src, pos, p1 + 1, OperatorKinds(c).value.1, NoLiteral, line)
      else Emit(src, pos, p1, OperatorKinds(c).value.0, NoLiteral, line)
    else if p1 < |src| && src[p1] == '/' then
      StepResult([], [], Until(src, p1 + 1, '\n'), line)
    else if p1 < |src| && src[p1] == '=' then Emit(src, pos, p1 + 1, SlashEqual, NoLiteral, line)
    else Emit(src, pos, p1, Slash, NoLiteral, line)
  }

  /**
   * A string literal opened at `pos`: up to the closing quote, counting the
   * newlines inside; without a closing quote, a diagnostic and no token.
   */
  function StringStep(src: string, pos: nat, line: int): (r: StepResult)
    requires pos < |src|
    ensures pos < r.next <= |src|
  {
    var j := Until(src, pos + 1, '"');
    var l := line + Newlines(src[pos + 1..j]);
    if j == |src| then StepResult([], [ScanError(l, "Unterminated string.")], j, l)
    else StepResult([Token(StringLit, src[pos..j + 1], StrLiteral(src[pos + 1..j]), l)], [], j + 1, l)
  }

  /** A number: its digits, an optional fraction, and its value. */
  function NumberStep(src: string, pos: nat, line: int): (r: StepResult)
    requires pos < |src| && IsDigit(src[pos])
    ensures pos < r.next <= |src|
  {
    var j := NumberEnd(src, pos);
    Emit(src, pos, j, NumberLit, NumberLiteral(src[pos..j]), line)
  }

  /** An identifier or keyword, with the VAR-to-FUN lookahead. */
  function WordStep(src: string, pos: nat, line: int): (r: StepResult)
    requires pos < |src| && IsIdentStart(src[pos])
    ensures pos < r.next <= |src|
  {
    var j := IdentEnd(src, pos + 1);
    Emit(src, pos, j, WordKind(src, pos, j), NoLiteral, line)
  }

  /** One call of `scan_token` with `start == current == pos`. */
  function Step(src: string, pos: nat, line: int): (r: StepResult)
    requires pos < |src|
    ensures pos < r.next <= |src|
  {
    var c := src[pos];
    if IsOperatorChar(c) then OperatorStep(src, pos, line)
    else if c in {' ', '\r', '\t'} then StepResult([], [], pos + 1, line)
    else if c == '\n' then StepResult([], [], pos + 1, line + 1)
    else if c == '"' then StringStep(src, pos, line)
    else if IsDigit(c) then NumberStep(src, pos, line)
    else if IsIdentStart(c) then WordStep(src, pos, line)
    else StepResult([], [ScanError(line, "Unexpected character.")], pos + 1, line)
  }

  /** Tokens and diagnostics of a scan. */
  datatype ScanOutput = ScanOutput(tokens: seq<Token>, errors: seq<ScanError>)

  /** `scan_tokens` from cursor `pos` with line counter `line`. */
  function ScanFrom(src: string, pos: nat, line: int): ScanOutput
    requires pos <= |src|
    decreases |src| - pos
  {
    if pos == |src| then ScanOutput([Token(Eof, "", NoLiteral, line)], [])
    else
      var s := Step(src, pos, line);
      var rest := ScanFrom(src, s.next, s.line);
      ScanOutput(s.tokens + rest.tokens, s.errors + rest.errors)
  }

  /** The token list of a whole source text. */
  function Scan(src: string): ScanOutput
  {
    ScanFrom(src, 0, 1)
  }

  class Scanner {
    const source: string
    var tokens: seq<Token>
    var start: nat
    var current: nat
    var line: int
    /** Diagnostics passed to the scanner error callback. */
    var errors: seq<ScanError>

    ghost predicate Valid()
      reads this
    {
      start <= current <= |source|
    }

    constructor (source: string)
      ensures Valid()
      ensures this.source == source && tokens == [] && errors == []
      ensures start == 0 && current == 0 && line == 1
    {
      this.source := source;
      tokens := [];
      errors := [];
      start := 0;
      current := 0;
      line := 1;
    }

    predicate IsAtEnd()
      reads this
    {
      current >= |source|
    }

    function Peek(): (c: char)
      reads this
      ensures c == (if current < |source| then source[current] else '\0')
    {
      if IsAtEnd() then '\0' else source[current]
    }

    function PeekNext(): (c: char)
      reads this
      ensures c == (if current + 1 < |source| then source[current + 1] else '\0')
    {
      if current + 1 >= |source| then '\0' else source[current + 1]
    }

    method Advance() returns (c: char)
      requires Valid() && current < |source|
      modifies this`current
      ensures Valid() && current == old(current) + 1 && c == source[old(current)]
    {
      current := current + 1;
      c := source[current - 1];
    }

    /** Consumes the next character exactly when it is `expected`. */
    method Match(expected: char) returns (matched: bool)
      requires Valid()
      modifies this`current
      ensures Valid()
      ensures matched <==> old(current) < |source| && source[old(current)] == expected
      ensures current == if matched then old(current) + 1 else old(current)
    {
      if IsAtEnd() {
        return false;
      }
      if source[current] != expected {
        return false;
      }
      current := current + 1;
      return true;
    }

    method AddToken(kind: TokenType, literal: LiteralValue)
      requires Valid()
      modifies this`tokens
      ensures tokens == old(tokens) + [Token(kind, source[start..current], literal, line)]
    {
      var text := source[start..current];
      tokens := tokens + [Token(kind, text, literal, line)];
    }

    method Error(line: int, message: string)
      modifies this`errors
      ensures errors == old(errors) + [ScanError(line, message)]
    {
      errors := errors + [ScanError(line, message)];
    }

    /** The identifier loop shared by the word and the lookahead. */
    method SkipIdentifierChars()
      requires Valid()
      modifies this`current
      ensures Valid() && current == IdentEnd(source, old(current))
    {
      while IsIdentPart(Peek())
        invariant Valid() && old(current) <= current
        invariant IdentEnd(source, current) == IdentEnd(source, old(current))
        decreases |source| - current
      {
        current := current + 1;
      }
    }

    /**
     * The lookahead of `identifier` after a type keyword: spaces and brackets,
     * then an identifier, then spaces, then `(`. Moves the cursor; the caller
     * restores it.
     */
    method LooksLikeFunctionAhead() returns (b: bool)
      requires Valid()
      modifies this`current
      ensures Valid() && b == LooksLikeFunction(source, old(current))
    {
      ghost var j := current;
      while Peek() in {' ', '[', ']'}
        invariant Valid() && j <= current
        invariant SkipIn(source, current, {' ', '[', ']'}) == SkipIn(source, j, {' ', '[', ']'})
        decreases |source| - current
      {
        current := current + 1;
      }
      if !IsIdentStart(Peek()) {
        return false;
      }
      current := current + 1;
      SkipIdentifierChars();
      ghost var b0 := current;
      while Peek() == ' '
        invariant Valid() && b0 <= current
        invariant SkipIn(source, current, {' '}) == SkipIn(source, b0, {' '})
        decreases |source| - current
      {
        current := current + 1;
      }
      b := Peek() == '(';
    }

    method Identifier()
      requires Valid() && start < current && current == start + 1
      modifies this`current, this`tokens
      ensures Valid() && current == IdentEnd(source, old(current))
      ensures tokens == old(tokens) + [Token(WordKind(source, start, current), source[start..current], NoLiteral, line)]
    {
      SkipIdentifierChars();
      var text := source[start..current];
      var kind := Keyword(text);
      var savedPosition := current;
      if kind == VarKw {
        var isFunction := LooksLikeFunctionAhead();
        if isFunction {
          kind := FunKw;
        }
      }
      current := savedPosition;
      AddToken(kind, NoLiteral);
    }

    /** The digit loop of `number`. */
    method SkipDigits()
      requires Valid()
      modifies this`current
      ensures Valid() && current == DigitsEnd(source, old(current))
    {
      while IsDigit(Peek())
        invariant Valid() && old(current) <= current
        invariant DigitsEnd(source, current) == DigitsEnd(source, old(current))
        decreases |source| - current
      {
        current := current + 1;
      }
    }

    method Number()
      requires Valid() && current == start + 1 && current <= |source| && IsDigit(source[start])
      modifies this`current, this`tokens
      ensures Valid() && current == NumberEnd(source, start)
      ensures tokens == old(tokens) +
        [Token(NumberLit, source[start..current], NumberLiteral(source[start..current]), line)]
    {
      SkipDigits();
      if Peek() == '.' && IsDigit(PeekNext()) {
        current := current + 1;
        SkipDigits();
      }
      AddToken(NumberLit, NumberLiteral(source[start..current]));
    }

    /** The loop of `string`: up to the closing quote or the end, counting newlines. */
    method StringBody()
      requires Valid()
      modifies this`current, this`line
      ensures Valid() && current == Until(source, old(current), '"')
      ensures line == old(line) + Newlines(source[old(current)..current])
    {
      ghost var j := Until(source, current, '"');
      while Peek() != '"' && !IsAtEnd()
        invariant Valid() && old(current) <= current <= j
        invariant Until(source, current, '"') == j
        invariant line == old(line) + Newlines(source[old(current)..current])
        decreases |source| - current
      {
        NewlinesSnoc(source, old(current), current);
        if Peek() == '\n' {
          line := line + 1;
        }
        current := current + 1;
      }
    }

    method StringLiteral()
      requires Valid() && current == start + 1 && current <= |source|
      modifies this`current, this`tokens, this`line, this`errors
      ensures Valid()
      ensures var s := StringStep(source, start, old(line));
        && tokens == old(tokens) + s.tokens && errors == old(errors) + s.errors
        && current == s.next && line == s.line
    {
      StringBody();
      if IsAtEnd() {
        Error(line, "Unterminated string.");
        return;
      }
      current := current + 1;
      var value := source[start + 1..current - 1];
      AddToken(StringLit, StrLiteral(value));
    }

    /** The comment loop of `scan_token`: up to the next newline, which stays unread. */
    method SkipComment()
      requires Valid()
      modifies this`current
      ensures Valid() && current == Until(source, old(current), '\n')
    {
      while Peek() != '\n' && !IsAtEnd()
        invariant Valid() && old(current) <= current
        invariant Until(source, current, '\n') == Until(source, old(current), '\n')
        decreases |source| - current
      {
        current := current + 1;
      }
    }

    /** The punctuation and operator cases of `scan_token`, after `c` has been consumed. */
    method OperatorToken(c: char)
      requires Valid() && start + 1 == current && source[start] == c && IsOperatorChar(c)
      modifies this`current, this`tokens
      ensures Valid()
      ensures var s := OperatorStep(source, start, line);
        && tokens == old(tokens) + s.tokens && s.errors == [] && current == s.next && line == s.line
    {
      var m: bool;
      if SingleKind(c).Some? {
        AddToken(SingleKind(c).value, NoLiteral);
      } else if OperatorKinds(c).Some? {
        m := Match('=');
        AddToken(if m then OperatorKinds(c).value.1 else OperatorKinds(c).value.0, NoLiteral);
      } else {
        m := Match('/');
        if m {
          SkipComment();
        } else {
          m := Match('=');
          AddToken(if m then SlashEqual else Slash, NoLiteral);
        }
      }
    }

    /** `scan_token`: one token, diagnostic, or skipped character. */
    method ScanToken()
      requires Valid() && start == current && current < |source|
      modifies this`current, this`tokens, this`line, this`errors
      ensures Valid()
      ensures var s := Step(source, old(current), old(line));
        && tokens == old(tokens) + s.tokens && errors == old(errors) + s.errors
        && current == s.next && line == s.line
    {
      var c := Advance();
      if IsOperatorChar(c) {
        OperatorToken(c);
      } else if c in {' ', '\r', '\t'} {
      } else if c == '\n' {
        line := line + 1;
      } else if c == '"' {
        StringLiteral();
      } else {
        if IsDigit(c) {
          Number();
        } else if IsAlpha(c) || c == '_' || c == '&' || c == '|' {
          Identifier();
        } else {
          Error(line, "Unexpected character.");
        }
      }
    }

    /** `scan_tokens`: scan to the end, then append the EOF token. */
    method ScanTokens() returns (r: seq<Token>)
      requires Valid()
      modifies this`start, this`current, this`tokens, this`line, this`errors
      ensures Valid()
      ensures var out := ScanFrom(source, old(current), old(line));
        r == tokens == old(tokens) + out.tokens && errors == old(errors) + out.errors
    {
      ghost var goal := ScanFrom(source, current, line);
      ghost var tokens0, errors0 := tokens, errors;
      while !IsAtEnd()
        invariant Valid()
        invariant var rest := ScanFrom(source, current, line);
          tokens + rest.tokens == tokens0 + goal.tokens && errors + rest.errors == errors0 + goal.errors
        decreases |source| - current
      {
        start := current;
        ghost var t, e, c, l := tokens, errors, current, line;
        ScanToken();
        ScanFromStep(source, c, l, t, e, tokens, errors);
      }
      tokens := tokens + [Token(Eof, "", NoLiteral, line)];
      r := tokens;
    }
  }

  /** Appending one step's output keeps the concatenation with the rest of the scan unchanged. */
  lemma ScanFromStep(src: string, pos: nat, line: int, t: seq<Token>, e: seq<ScanError>, t': seq<Token>, e': seq<ScanError>)
    requires pos < |src|
    requires t' == t + Step(src, pos, line).tokens && e' == e + Step(src, pos, line).errors
    ensures var s := Step(src, pos, line);
      && t' + ScanFrom(src, s.next, s.line).tokens == t + ScanFrom(src, pos, line).tokens
      && e' + ScanFrom(src, s.next, s.line).errors == e + ScanFrom(src, pos, line).errors
  {
    var s := Step(src, pos, line);
    var rest := ScanFrom(src, s.next, s.line);
    assert ScanFrom(src, pos, line) == ScanOutput(s.tokens + rest.tokens, s.errors + rest.errors);
    AppendAssociates(t, s.tokens, rest.tokens);
    AppendAssociates(e, s.errors, rest.errors);
  }

  lemma AppendAssociates<T>(a: seq<T>, b: seq<T>, c: seq<T>)
    ensures (a + b) + c == a + (b + c)
  {
  }

  /** Extending a slice by one character adds that character's newline count. */
  lemma NewlinesSnoc(src: string, i: nat, j: nat)
    requires i <= j < |src|
    ensures Newlines(src[i..j + 1]) == Newlines(src[i..j]) + (if src[j] == '\n' then 1 else 0)
  {
    assert src[i..j + 1][..j - i] == src[i..j];
  }

  // ----- Newline counting -----

  lemma {:induction false} NewlinesAppend(a: string, b: string)
    ensures Newlines(a + b) == Newlines(a) + Newlines(b)
    decreases |b|
  {
    if b == [] {
      assert a + b == a;
    } else {
      var ab := a + b;
      var last := if b[|b| - 1] == '\n' then 1 else 0;
      assert ab[..|ab| - 1] == a + b[..|b| - 1];
      assert ab[|ab| - 1] == b[|b| - 1];
      assert Newlines(ab) == Newlines(ab[..|ab| - 1]) + last;
      NewlinesAppend(a, b[..|b| - 1]);
    }
  }

  lemma NewlinesSplit(src: string, i: nat, m: nat, j: nat)
    requires i <= m <= j <= |src|
    ensures Newlines(src[i..j]) == Newlines(src[i..m]) + Newlines(src[m..j])
  {
    assert src[i..j] == src[i..m] + src[m..j];
    NewlinesAppend(src[i..m], src[m..j]);
  }

  lemma {:induction false} NoNewlines(s: string)
    requires forall k :: 0 <= k < |s| ==> s[k] != '\n'
    ensures Newlines(s) == 0
  {
    if s != [] {
      NoNewlines(s[..|s| - 1]);
    }
  }

  // ----- What the scanning helpers pass over -----

  lemma {:induction false} UntilAvoids(src: string, i: nat, stop: char)
    requires i <= |src|
    ensures forall k :: i <= k < Until(src, i, stop) ==> src[k] != stop
    decreases |src| - i
  {
    if i < |src| && src[i] != stop {
      UntilAvoids(src, i + 1, stop);
    }
  }

  /** `Until` stops exactly at the first `stop`. */
  lemma {:induction false} UntilAt(src: string, i: nat, m: nat, stop: char)
    requires i <= m <= |src|
    requires forall k :: i <= k < m ==> src[k] != stop
    requires m == |src| || src[m] == stop
    ensures Until(src, i, stop) == m
    decreases m - i
  {
    if i < m {
      UntilAt(src, i + 1, m, stop);
    }
  }

  lemma {:induction false} IdentEndAll(src: string, i: nat)
    requires i <= |src|
    ensures forall k :: i <= k < IdentEnd(src, i) ==> IsIdentPart(src[k])
    decreases |src| - i
  {
    if i < |src| && IsIdentPart(src[i]) {
      IdentEndAll(src, i + 1);
    }
  }

  lemma {:induction false} DigitsEndAll(src: string, i: nat)
    requires i <= |src|
    ensures forall k :: i <= k < DigitsEnd(src, i) ==> IsDigit(src[k])
    decreases |src| - i
  {
    if i < |src| && IsDigit(src[i]) {
      DigitsEndAll(src, i + 1);
    }
  }

  /** A number lexeme is digits, then optionally a dot and digits. */
  lemma NumberEndAll(src: string, pos: nat)
    requires pos < |src| && IsDigit(src[pos])
    ensures var a := DigitsEnd(src, pos + 1);
      && (forall k :: pos <= k < a ==> IsDigit(src[k]))
      && (NumberEnd(src, pos) > a ==>
            src[a] == '.' && a + 1 < NumberEnd(src, pos) && (forall k :: a < k < NumberEnd(src, pos) ==> IsDigit(src[k])))
  {
    var a := DigitsEnd(src, pos + 1);
    DigitsEndAll(src, pos + 1);
    if a + 1 < |src| && src[a] == '.' && IsDigit(src[a + 1]) {
      DigitsEndAll(src, a + 1);
    }
  }

  // ----- Properties of one step -----

  lemma OperatorStepFacts(src: string, pos: nat, line: int)
    requires pos < |src| && IsOperatorChar(src[pos])
    ensures var r := OperatorStep(src, pos, line);
      r.errors == [] && r.line == line && NoNewlineIn(src, pos, r.next) && TokensFit(src, pos, line, r)
  {
    var c := src[pos];
    if SingleKind(c).Some? {
    } else if OperatorKinds(c).Some? {
    } else if pos + 1 < |src| && src[pos + 1] == '/' {
      UntilAvoids(src, pos + 2, '\n');
    }
  }

  lemma NumberStepFacts(src: string, pos: nat, line: int)
    requires pos < |src| && IsDigit(src[pos])
    ensures var r := NumberStep(src, pos, line);
      r.errors == [] && r.line == line && NoNewlineIn(src, pos, r.next) && TokensFit(src, pos, line, r)
  {
    NumberEndAll(src, pos);
  }

  lemma WordStepFacts(src: string, pos: nat, line: int)
    requires pos < |src| && IsIdentStart(src[pos])
    ensures var r := WordStep(src, pos, line);
      r.errors == [] && r.line == line && NoNewlineIn(src, pos, r.next) && TokensFit(src, pos, line, r)
  {
    IdentEndAll(src, pos + 1);
  }

  lemma StringStepFacts(src: string, pos: nat, line: int)
    requires pos < |src|
    ensures TokensFit(src, pos, line, StringStep(src, pos, line))
  {
    var j := Until(src, pos + 1, '"');
    assert 0 <= Newlines(src[pos + 1..j]);
  }

  /**
   * A step yields at most one token, never EOF, spelling what it consumed;
   * apart from strings and newlines it passes over no newline and keeps the line.
   */
  lemma StepFacts(src: string, pos: nat, line: int)
    requires pos < |src|
    ensures var r := Step(src, pos, line);
      && TokensFit(src, pos, line, r)
      && (src[pos] != '"' && src[pos] != '\n' ==> r.line == line && NoNewlineIn(src, pos, r.next))
  {
    var c := src[pos];
    if IsOperatorChar(c) {
      OperatorStepFacts(src, pos, line);
    } else if c == '"' {
      StringStepFacts(src, pos, line);
    } else if IsDigit(c) {
      NumberStepFacts(src, pos, line);
    } else if IsIdentStart(c) {
      WordStepFacts(src, pos, line);
    }
  }

  lemma NoNewlineInCount(src: string, i: nat, j: nat)
    requires i <= j <= |src| && NoNewlineIn(src, i, j)
    ensures Newlines(src[i..j]) == 0
  {
    var mid := src[i..j];
    forall k | 0 <= k < |mid|
      ensures mid[k] != '\n'
    {
      assert mid[k] == src[i + k];
    }
    NoNewlines(mid);
  }

  /** A one-character string is one newline or none. */
  lemma NewlinesOne(src: string, i: nat)
    requires i < |src|
    ensures Newlines(src[i..i + 1]) == if src[i] == '\n' then 1 else 0
  {
    assert src[i..i + 1][..0] == [];
  }

  /** A string literal advances the line counter by the newlines between its quotes. */
  lemma StringStepLine(src: string, pos: nat, line: int)
    requires pos < |src| && src[pos] == '"'
    ensures StringStep(src, pos, line).line == line + Newlines(src[pos..StringStep(src, pos, line).next])
  {
    var r := StringStep(src, pos, line);
    var j := Until(src, pos + 1, '"');
    NewlinesSplit(src, pos, pos + 1, r.next);
    NewlinesOne(src, pos);
    if j < |src| {
      NewlinesSplit(src, pos + 1, j, j + 1);
      NewlinesOne(src, j);
    }
  }

  /** A step advances the line counter by the newlines it passes over. */
  lemma StepLine(src: string, pos: nat, line: int)
    requires pos < |src|
    ensures Step(src, pos, line).line == line + Newlines(src[pos..Step(src, pos, line).next])
  {
    var c := src[pos];
    if c == '"' {
      StringStepLine(src, pos, line);
    } else if c == '\n' {
      NewlinesOne(src, pos);
    } else {
      StepFacts(src, pos, line);
      NoNewlineInCount(src, pos, Step(src, pos, line).next);
    }
  }

  /** A `//` comment runs to the end of the line and produces nothing. */
  lemma CommentSkipped(src: string, pos: nat, line: int)
    requires pos + 1 < |src| && src[pos] == '/' && src[pos + 1] == '/'
    ensures var s := Step(src, pos, line);
      && s.tokens == [] && s.errors == [] && s.line == line
      && (s.next == |src| || src[s.next] == '\n')
      && forall k :: pos + 2 <= k < s.next ==> src[k] != '\n'
  {
    UntilAvoids(src, pos + 2, '\n');
  }

  /**
   * Each of `- + * ! = < > /` followed by `=` is its compound operator over
   * both characters; otherwise it is the one-character operator.
   */
  lemma CompoundOperator(src: string, pos: nat, line: int)
    requires pos < |src| && (OperatorKinds(src[pos]).Some? || src[pos] == '/')
    requires !(src[pos] == '/' && pos + 1 < |src| && src[pos + 1] == '/')
    ensures var s := Step(src, pos, line);
      var withEqual := pos + 1 < |src| && src[pos + 1] == '=';
      var kinds := if src[pos] == '/' then (Slash, SlashEqual) else OperatorKinds(src[pos]).value;
      && s.errors == [] && s.line == line
      && s.next == (if withEqual then pos + 2 else pos + 1)
      && s.tokens == [Token(if withEqual then kinds.1 else kinds.0, src[pos..s.next], NoLiteral, line)]
  {
  }

  /** A quoted string becomes one STRING token whose literal is the lexeme without its quotes. */
  lemma StringToken(src: string, pos: nat, line: int)
    requires pos < |src| && src[pos] == '"'
    ensures var s := Step(src, pos, line);
      if Until(src, pos + 1, '"') < |src| then
        && s.errors == [] && |s.tokens| == 1
        && s.tokens[0].kind == StringLit && s.tokens[0].literal.StrLiteral?
        && s.tokens[0].lexeme == ['"'] + s.tokens[0].literal.s + ['"']
        && '"' !in s.tokens[0].literal.s
      else
        s.tokens == [] && s.next == |src| && s.errors == [ScanError(s.line, "Unterminated string.")]
  {
    var j := Until(src, pos + 1, '"');
    UntilAvoids(src, pos + 1, '"');
    if j < |src| {
      assert src[pos..j + 1] == ['"'] + src[pos + 1..j] + ['"'];
    }
  }

  /** Value of an all-digit string lies below the matching power of ten. */
  lemma {:induction false} DigitsValueBounds(s: string)
    requires forall k :: 0 <= k < |s| ==> IsDigit(s[k])
    ensures 0 <= DigitsValue(s) < Pow10(|s|)
  {
    if s != [] {
      DigitsValueBounds(s[..|s| - 1]);
    }
  }

  /** A whole part plus a proper, non-zero fraction is not integral and floors to the whole part. */
  lemma FractionFloor(whole: int, f: int, p: int)
    requires 0 < f < p
    ensures var v := whole as real + f as real / p as real;
      v.Floor == whole && !IsIntegral(v)
  {
    var v := whole as real + f as real / p as real;
    assert 0.0 < f as real / p as real < 1.0;
    assert whole as real < v < whole as real + 1.0;
  }

  /** The number literal is the lexeme's decimal value: an int exactly when that value is integral. */
  lemma NumberLiteralValue(text: string)
    requires NumberShape(text)
    ensures NumberLiteral(text) ==
      if IsIntegral(DecimalValue(text)) then IntLiteral(DecimalValue(text).Floor)
      else FloatLiteral(DecimalValue(text))
  {
    var dot := DotIndex(text);
    if dot < |text| {
      var frac := text[dot + 1..];
      DigitsValueBounds(frac);
      if DigitsValue(frac) != 0 {
        FractionFloor(DigitsValue(text[..dot]), DigitsValue(frac), Pow10(|text| - dot - 1));
      }
    }
  }

  /** Every number lexeme the scanner cuts has the shape of a decimal number. */
  lemma NumberLexemeShape(src: string, pos: nat)
    requires pos < |src| && IsDigit(src[pos])
    ensures NumberShape(src[pos..NumberEnd(src, pos)])
    ensures DotIndex(src[pos..NumberEnd(src, pos)]) == DigitsEnd(src, pos + 1) - pos
  {
    var j := NumberEnd(src, pos);
    var text := src[pos..j];
    var a := DigitsEnd(src, pos + 1);
    NumberEndAll(src, pos);
    forall k | 0 <= k < a - pos
      ensures IsDigit(text[k]) && text[k] != '.'
    {
      assert text[k] == src[pos + k];
    }
    if j > a {
      assert text[a - pos] == src[a];
      forall k | a - pos < k < |text|
        ensures IsDigit(text[k])
      {
        assert text[k] == src[pos + k];
      }
    }
    UntilAt(text, 0, a - pos, '.');
  }

  /** The number token: maximal digits with an optional fraction, and its value. */
  lemma NumberToken(src: string, pos: nat, line: int)
    requires pos < |src| && IsDigit(src[pos])
    ensures var s := Step(src, pos, line);
      && s.errors == [] && |s.tokens| == 1 && s.tokens[0].kind == NumberLit
      && NumberShape(s.tokens[0].lexeme)
      && (s.next == |src| || !IsDigit(src[s.next]))
      && s.tokens[0].literal ==
        if IsIntegral(DecimalValue(s.tokens[0].lexeme)) then IntLiteral(DecimalValue(s.tokens[0].lexeme).Floor)
        else FloatLiteral(DecimalValue(s.tokens[0].lexeme))
  {
    var j := NumberEnd(src, pos);
    NumberLexemeShape(src, pos);
    NumberLiteralValue(src[pos..j]);
    assert !IsOperatorChar(src[pos]) && src[pos] !in {' ', '\r', '\t', '\n', '"'};
    assert Step(src, pos, line) == Emit(src, pos, j, NumberLit, NumberLiteral(src[pos..j]), line);
  }

  /**
   * A type keyword is re-labelled FUN exactly when an identifier and `(`
   * follow it; only the keyword itself is consumed.
   */
  lemma WordKindLookahead(src: string, pos: nat, j: nat)
    requires pos <= j <= |src|
    ensures WordKind(src, pos, j) == FunKw <==>
      Keyword(src[pos..j]) == FunKw || (Keyword(src[pos..j]) == VarKw && LooksLikeFunction(src, j))
    ensures WordKind(src, pos, j) == VarKw <==> Keyword(src[pos..j]) == VarKw && !LooksLikeFunction(src, j)
    ensures WordKind(src, pos, j) !in {VarKw, FunKw} ==> WordKind(src, pos, j) == Keyword(src[pos..j])
  {
  }

  /** `&&` and `||` are words of the language, not operators: AND and OR come only from them. */
  lemma LogicalKeywords(text: string)
    ensures Keyword(text) == AndKw <==> text == "&&"
    ensures Keyword(text) == OrKw <==> text == "||"
    ensures Keyword(text) == FunKw <==> text == "void"
    ensures Keyword(text) == VarKw <==> text in TypeKeywords
  {
  }

  // ----- Properties of the whole scan -----

  /** The scan from `pos` ends with exactly one EOF token, on the line after the remaining newlines. */
  lemma {:induction false} ScanFromEof(src: string, pos: nat, line: int)
    requires pos <= |src|
    ensures var t := ScanFrom(src, pos, line).tokens;
      && |t| >= 1
      && t[|t| - 1] == Token(Eof, "", NoLiteral, line + Newlines(src[pos..]))
      && (forall i :: 0 <= i < |t| - 1 ==> t[i].kind != Eof)
    decreases |src| - pos
  {
    if pos < |src| {
      var s := Step(src, pos, line);
      var rest := ScanFrom(src, s.next, s.line).tokens;
      ScanFromEof(src, s.next, s.line);
      StepLine(src, pos, line);
      StepFacts(src, pos, line);
      NewlinesSplit(src, pos, s.next, |src|);
      assert src[pos..] == src[pos..|src|];
      assert src[s.next..] == src[s.next..|src|];
      var t := s.tokens + rest;
      assert t[|t| - 1] == rest[|rest| - 1];
      NoEofBeforeLast(s.tokens, rest);
    }
  }

  /** Prepending tokens that are not EOF keeps EOF out of every position but the last. */
  lemma NoEofBeforeLast(first: seq<Token>, rest: seq<Token>)
    requires forall x | x in first :: x.kind != Eof
    requires |rest| >= 1 && forall i :: 0 <= i < |rest| - 1 ==> rest[i].kind != Eof
    ensures var t := first + rest; forall i :: 0 <= i < |t| - 1 ==> t[i].kind != Eof
  {
    var t := first + rest;
    forall i | 0 <= i < |t| - 1
      ensures t[i].kind != Eof
    {
      if i < |first| {
        assert t[i] in first;
      } else {
        assert t[i] == rest[i - |first|];
      }
    }
  }

  /** Lines of `t` are at least `line` and never decrease. */
  predicate LinesFrom(t: seq<Token>, line: int)
  {
    && (forall i :: 0 <= i < |t| ==> line <= t[i].line)
    && (forall i, k :: 0 <= i <= k < |t| ==> t[i].line <= t[k].line)
  }

  lemma {:induction false} ScanFromLines(src: string, pos: nat, line: int)
    requires pos <= |src|
    ensures LinesFrom(ScanFrom(src, pos, line).tokens, line)
    decreases |src| - pos
  {
    if pos < |src| {
      var s := Step(src, pos, line);
      ScanFromLines(src, s.next, s.line);
      StepFacts(src, pos, line);
      PrependLines(s.tokens, ScanFrom(src, s.next, s.line).tokens, line, s.line);
    }
  }

  /** At most one token on a line in `line..mid`, followed by tokens from `mid` on in line order. */
  lemma PrependLines(first: seq<Token>, rest: seq<Token>, line: int, mid: int)
    requires |first| <= 1 && (forall x :: x in first ==> line <= x.line <= mid)
    requires line <= mid && LinesFrom(rest, mid)
    ensures LinesFrom(first + rest, line)
  {
    if first == [] {
      assert first + rest == rest;
    } else {
      assert first[0] in first;
      assert first == [first[0]];
      PrependOne(first[0], rest, line, mid);
    }
  }

  lemma PrependOne(x: Token, rest: seq<Token>, line: int, mid: int)
    requires line <= x.line <= mid && LinesFrom(rest, mid)
    ensures LinesFrom([x] + rest, line)
  {
    var t := [x] + rest;
    forall i, k | 0 <= i <= k < |t|
      ensures t[i].line <= t[k].line
    {
      if 0 < i {
        assert t[i] == rest[i - 1] && t[k] == rest[k - 1];
      } else if 0 < k {
        assert t[k] == rest[k - 1];
      }
    }
    forall i | 0 <= i < |t|
      ensures line <= t[i].line
    {
      if 0 < i {
        assert t[i] == rest[i - 1];
      }
    }
  }

  /** The token list of a source ends with one EOF token whose line is one more than the number of newlines. */
  lemma ScanEndsWithEof(src: string)
    ensures var t := Scan(src).tokens;
      && |t| >= 1 && t[|t| - 1] == Token(Eof, "", NoLiteral, 1 + Newlines(src))
      && (forall i :: 0 <= i < |t| - 1 ==> t[i].kind != Eof)
  {
    ScanFromEof(src, 0, 1);
    assert src[0..] == src;
  }

  /** Tokens come out in line order. */
  lemma ScanLinesOrdered(src: string)
    ensures var t := Scan(src).tokens;
      forall i, k :: 0 <= i <= k < |t| ==> 1 <= t[i].line <= t[k].line
  {
    ScanFromLines(src, 0, 1);
  }

  // ----- The scanner's error call as written -----

  /**
   * The scan as the source runs it: `Scanner.error` is called on the class
   * with two arguments for three parameters, so the first diagnostic raises
   * a TypeError that ends the whole run. `None` stands for that exception.
   */
  function ScanAsWritten(src: string): (r: Option<seq<Token>>)
    ensures r.Some? <==> Scan(src).errors == []
    ensures r.Some? ==> r.value == Scan(src).tokens
  {
    var out := Scan(src);
    if out.errors == [] then Some(out.tokens) else None
  }

  /** One stray character: the scanner as written aborts; reporting and continuing gives just EOF. */
  lemma StrayCharacterAborts()
    ensures ScanAsWritten("@") == None
    ensures Scan("@") == ScanOutput([Token(Eof, "", NoLiteral, 1)], [ScanError(1, "Unexpected character.")])
  {
    assert Step("@", 0, 1) == StepResult([], [ScanError(1, "Unexpected character.")], 1, 1);
  }
}
