# A verified model of a C#-flavoured tree-walking interpreter

This project is a Dafny model of the core of a small interpreter written in
Python for a C#-like language: `int x = 1;`, `void f(int a) { ... }`,
`class B : A { ... }`, `base.m()`, `&&`/`||` as words, lists `{1, 2}` with
subscripts, compound assignments `+= -= *= /=`. The pipeline runs from
source text to execution, and every stage is modelled in the form the
program gives it:

- **Scanner** (`scanner.dfy`, module `Scanning`). A class `Scanner` with
  the cursor fields `start`/`current`/`line` and a growing token list,
  next to a pure step function `Step`/`ScanFrom`/`Scan` that specifies
  it. The scanner's methods are proved against that function. The
  properties of tokens are lemmas about it: EOF comes last, lexemes are
  source slices, two-character operators, comments, numbers, strings, the
  keyword table and the type-keyword lookahead.
- **Parser** (`parser.dfy`, `grammar.dfy`, modules `Parsing`, `Grammar`).
  A class `Parser` over a token sequence with a mutable cursor, one method
  per grammar rule, and recovery by synchronisation. The predicate
  `AtLevel` says which trees each level of the precedence chain can
  return. Lemmas about it prove precedence and associativity, the
  assignment-target rules, the `for` rewrite and the list-element
  rewrite.
- **Statement and expression nodes** (`ast.dfy`, module `Ast`). These are
  datatypes. A visitor's `accept` is a `match` on the node kind in the
  resolver and in the interpreter.
- **Resolver** (`resolver.dfy`, `scopes.dfy`, modules `Resolution`,
  `Scopes`). A class `Resolver` with the scope stacks, the current
  function and class kinds, and the `locals` table of depths. Nodes are
  identified by their path in the tree. A ghost table records the chain of
  scopes open at every visited node, and for each resolved reference the
  scope that binds it.
- **Evaluator** (`interpreter.dfy`, `runtime.dfy`, `semantics.dfy`,
  `extensions.dfy`, modules `Interpreting`, `Runtime`, `Semantics`,
  `Extensions`).
  - Frames, lists, instances, functions and classes are Dafny objects, as
    in the program. A frame's `values` map is updated in place, and
    closures share frames.
  - The class `Interpreter` executes statements and evaluates expressions
    on that heap.
  - The dynamic typing rules (`check_type`, `handle_assigning`, operators,
    truthiness, equality, `stringify`) are pure functions in `Semantics`.
- **Small tables** (`tokens.dfy`, `ctype.dfy`, `assign_type.dfy`). These
  cover token equality, `CType.get_type` and `AssignType.get_type`.

The central invariant ties the resolver to the evaluator. Every runtime
frame carries, as ghost data, the scope it stands for:

| Resolver scope | Runtime frame |
|---|---|
| block | block frame |
| function parameters and body | call frame |
| `base` scope of a subclass | frame holding `super` |
| method scope | the frame `bind` creates for `this` |
| global scope | global frame |

The interpreter runs the node at path `p` only in a frame whose chain of
scopes is the one the resolver had open at `p`. From this it follows that
a recorded depth `d` reaches, via `ancestor(d)`, exactly the frame of the
scope that binds the name (`LookUpVariable`, `StoreVariable`,
`VisitSuper`).

Representation choices:

- Python values become the datatype `Runtime.Value`: None, bool, int,
  float, string, list, function, class, instance, the `clock` native, and
  the `Variable` record that a directly called `init` returns.
- Floats are exact reals.
- Python's `bool` counts as an int wherever the source asks
  `isinstance(v, int)`.
- Exceptions become result values:
  - a `RuntimeError` of the language is `Fault.RuntimeError(token, message)`;
  - a Python exception the program does not catch (AttributeError,
    KeyError, TypeError, ZeroDivisionError, RecursionError) is
    `Fault.PythonError`;
  - "Undefined variable" is Python's own RuntimeError
    (`Fault.PythonError(BuiltinRuntimeError(token, message))`), because
    `Runtime/environment.py` raises it without importing the language's
    class; `interpret` does not catch it, so it ends a run as `Crashed`;
  - `return` is `Flow.Returning`.

## Model

| member | source | states |
|---|---|---|
| Tokens.Eq | Token/token.py:12-16 | `__eq__`: kind, lexeme, literal (by Python `==`) and line all agree; its properties are the lemmas below |
| Tokens.HashKey | Token/token.py:18-19 | the tuple `__hash__` hashes; equal tokens with identical literals share it (`EqualTokensHashAlike`) |
| Tokens.EqReflexive | Token/token.py:12-16 | every token equals itself |
| Tokens.EqSymmetric | Token/token.py:12-16 | token equality is symmetric |
| Tokens.LineIsPartOfIdentity | Token/token.py:16 | tokens that differ only in their line are unequal |
| Tokens.EqualTokensHashAlike | Token/token.py:18-19 | equal tokens with identical literals have the same hash key |
| CTypes.GetType | Runtime/Language_/c_type.py:24-40 | the lookup gives VOID only for the name `void` with the function flag set |
| CTypes.GetTypeOfName | Runtime/Language_/c_type.py:25-37 | each of the twelve names maps to its own type, whatever the function flag |
| CTypes.NameInjective | Runtime/Language_/c_type.py:25-37 | distinct types have distinct names |
| CTypes.VoidOnlyForFunctions | Runtime/Language_/c_type.py:38 | `void` is VOID for a function and NONE otherwise |
| CTypes.UnknownNameIsNone | Runtime/Language_/c_type.py:40 | any other string maps to NONE |
| CTypes.ArrayNameIsArrayType | Runtime/Language_/c_type.py:26-36 | `b + "[]"` maps to the array variant of the scalar type of `b` |
| AssignTypes.Search | Runtime/Language_/assign_type.py:13-17 | a found member is in the list and has the value; when none is found, no member of the list has it |
| AssignTypes.GetTypeRoundTrip | Runtime/Language_/assign_type.py:13-17 | looking up a member's value gives the member back |
| AssignTypes.ValuesDistinct | Runtime/Language_/assign_type.py:4-10 | member values are pairwise distinct |
| AssignTypes.NonMemberIsNone | Runtime/Language_/assign_type.py:17 | a string that is no member's value maps to None |
| AssignTypes.OperatorLexemes | Runtime/Language_/assign_type.py:5-9 | `= += -= *= /=` map to their assignment kinds |
| Extensions.ApplyToInts | Extensions/numeric.py:4-5 | on two ints, only division by zero fails, and every operation except division gives an int |
| Extensions.ApplyToFloats | Extensions/numeric.py:4-5 | on two floats, only division by zero fails, and the result is a float |
| Extensions.NumericOperation | Extensions/numeric.py:3-12 | there is a result exactly for two ints (bools included) or two floats |
| Extensions.MixedKindsGiveNone | Extensions/numeric.py:6 | an int with a float, in either order, gives None |
| Extensions.IntOperationKinds | Extensions/numeric.py:4-5 | on two ints (a bool counting as 0 or 1), `+ - *` give the int sum, difference and product; `/` fails exactly on a zero divisor and otherwise gives the float quotient |
| Extensions.StringOperation | Extensions/string.py:3-6 | there is a result exactly for two strings; only `+` succeeds on them, and it concatenates |
| Extensions.CategoryOf | Extensions/custom_any.py:9-19 | the category is missing exactly for values that are not ints, bools, floats or strings |
| Extensions.SameCategoryIsEquivalence | Extensions/custom_any.py:21-24 | the category guard is reflexive, symmetric and transitive |
| Extensions.SameCategory | Extensions/custom_any.py:21-24 | `can_be_casted_to_same_type`: the two categories are equal; characterised by `SameCategoryCases` |
| Extensions.SameCategoryCases | Extensions/custom_any.py:9-24 | the guard holds exactly for two ints or bools, two floats, two strings, or two values of no category; an int or bool never passes against a float |
| Semantics.ToInt | Runtime/interpreter.py:22-27 | converting an integral float keeps its value |
| Semantics.CanConvertToInt | Runtime/interpreter.py:22-27 | ints, bools and integral floats; `ToInt` keeps the value of such a float |
| Semantics.Fits | Runtime/interpreter.py:113-150 | `check_type`: None fits every type; the other rules are stated by the three lemmas below |
| Semantics.OnlyNoneFitsUndeclared | Runtime/interpreter.py:113-150 | the None type of parameters and the type of class names accept only None |
| Semantics.ArrayRuleIsScalarRule | Runtime/interpreter.py:132-146 | an array type accepts exactly the lists whose elements are all non-None and satisfy the scalar rule |
| Semantics.NumericDeclarations | Runtime/interpreter.py:117-122 | INT accepts None and exactly the numbers (bools included) whose value is integral; FLOAT and DOUBLE accept exactly None and floats |
| Semantics.HandleAssigning | Runtime/interpreter.py:80-111 | `handle_assigning`: the stored value of each assignment kind; its cases are the three lemmas below and `AssignedValueKinds` |
| Semantics.NoneOperandStoresNone | Runtime/interpreter.py:81-82 | a None operand makes every assignment store None |
| Semantics.PlusAssignAccepts | Runtime/interpreter.py:87-93 | `+=` succeeds exactly on two numbers of one kind or two strings, and concatenates strings |
| Semantics.OtherCompoundAssignsNeedNumbers | Runtime/interpreter.py:95-111 | `-=`, `*=` and `/=` on anything but two numbers of one kind raise the wrong-type error |
| Semantics.IsTruthy | Runtime/interpreter.py:172-177 | only None and `false` are falsy; used by `UnaryOperation` and `VisitLogical` |
| Semantics.IsEqual | Runtime/interpreter.py:179-184 | None equals only None, otherwise Python `==`; stated by the two lemmas below |
| Semantics.IsEqualIsEquivalence | Runtime/interpreter.py:179-184 | `is_equal` is an equivalence, and None equals only None on either side |
| Semantics.NumbersCompareByValue | Runtime/interpreter.py:179-184 | two numbers (bools included) are equal exactly when their values are, two strings exactly when their texts are, and a number never equals a string |
| Semantics.EqualityNeverRaises | Runtime/interpreter.py:277-280 | `==` and `!=` always succeed and are each other's negation |
| Semantics.BinaryOperation | Runtime/interpreter.py:263-293 | `visit_binary_expr` on evaluated operands; its guarantees are `OperatorsNeedSameKindNumbers`, `EqualityNeverRaises`, `StringPlusFails` and `OperatorsGivePlainValues` |
| Semantics.OperatorsNeedSameKindNumbers | Runtime/interpreter.py:167-170 | an arithmetic or ordering operator raises "Operands must be numbers." exactly when the operands are not numbers of one kind |
| Semantics.StringPlusFails | Runtime/interpreter.py:272-274 | `+` on two strings fails |
| Semantics.UnaryOperation | Runtime/interpreter.py:348-356 | `!` negates truthiness; `-` succeeds exactly on a number and negates its value |
| Semantics.NatTextRoundTrip | Runtime/interpreter.py:194-195 | the digits `str` gives for a natural number read back to that number |
| Semantics.NatText | Runtime/interpreter.py:194-195 | `str` of a natural number is a non-empty string of decimal digits |
| Semantics.FloatText | Runtime/interpreter.py:189-193 | the text is unchanged or loses exactly its trailing ".0", and it loses it whenever it ends in ".0" |
| Semantics.Stringify | Runtime/interpreter.py:186-212 | every value but a list has a text; a list at the recursion limit raises RecursionError; a list of non-lists has a text when one level is left; a list's text is bracketed (texts per kind: `StringifyScalars`, `StringifyList`) |
| Semantics.StringifyScalars | Runtime/interpreter.py:186-212 | None is "nil", bools "True"/"False", an int its decimal digits (with `-` when negative), a float its text less a trailing ".0", a string itself, `<fn name>`, `<class name>`, and anything else "stringify: cannot recognize type" |
| Semantics.StringifyItems | Runtime/interpreter.py:205-209 | the loop over the elements: a list of non-lists always has a text (joined by `StringifyItemsJoins`) |
| Semantics.JoinTextsSnoc | Runtime/interpreter.py:206-209 | one more element adds ", " and its text at the end, with no separator before the first |
| Semantics.StringifyItemsJoins | Runtime/interpreter.py:205-209 | when every element has a text, the loop gives those texts joined by ", " |
| Semantics.StringifyItemsFails | Runtime/interpreter.py:207 | one element without a text leaves the loop without one |
| Semantics.StringifyList | Runtime/interpreter.py:204-211 | below the limit, a list is `[`, its elements' texts one level deeper joined by ", ", then `]` |
| Semantics.StringifyListFails | Runtime/interpreter.py:204-211 | a list with an element that has no text one level deeper has no text |
| Scanning.ScanEndsWithEof | SyntaxAnalizer/scanner.py:14-19 | the token list ends with exactly one EOF token, whose line is 1 plus the number of newlines in the source |
| Scanning.ScanFromEof | SyntaxAnalizer/scanner.py:14-19 | a scan from any position ends with one EOF token, on the line after the remaining newlines |
| Scanning.ScanLinesOrdered | SyntaxAnalizer/scanner.py:14-19 | token lines are at least 1 and never decrease |
| Scanning.StepFacts | SyntaxAnalizer/scanner.py:154-157 | one step adds at most one token, never EOF, spelling exactly the consumed slice; except for strings and newlines it passes no newline and keeps the line |
| Scanning.StepLine | SyntaxAnalizer/scanner.py:63-66 | one step advances the line counter by the newlines it consumes |
| Scanning.CompoundOperator | SyntaxAnalizer/scanner.py:41-62 | each of `- + * ! = < > /` followed by `=` becomes the compound token over both characters; otherwise it is the single-character token |
| Scanning.CommentSkipped | SyntaxAnalizer/scanner.py:57-60 | `//` produces nothing and stops at the next newline, which it does not consume |
| Scanning.StringToken | SyntaxAnalizer/scanner.py:114-126 | a closed string gives one STRING token whose literal is the text between the quotes; an unclosed one gives "Unterminated string." and no token |
| Scanning.NumberLiteralValue | SyntaxAnalizer/scanner.py:109-112 | a number literal is an int exactly when its decimal value is integral, and it holds that value |
| Scanning.NumberLexemeShape | SyntaxAnalizer/scanner.py:100-107 | a number lexeme is digits, optionally followed by a dot and at least one digit |
| Scanning.NumberToken | SyntaxAnalizer/scanner.py:100-112 | a number is maximal digits with an optional fraction, and its literal is its value |
| Scanning.WordKindLookahead | SyntaxAnalizer/scanner.py:84-98 | a type keyword becomes FUN exactly when an identifier and `(` follow it, and otherwise stays VAR; other words keep their table kind |
| Scanning.LogicalKeywords | SyntaxAnalizer/scanner.py:163-183 | AND and OR come only from `&&` and `\|\|`; FUN only from `void`; VAR only from the type keywords |
| Scanning.Keyword | SyntaxAnalizer/scanner.py:82 | `KEYWORDS.get(text, IDENTIFIER)`: never EOF; its table is characterised by `LogicalKeywords` |
| Scanning.WordKind | SyntaxAnalizer/scanner.py:81-95 | the keyword, re-labelled FUN by the lookahead; stated by `WordKindLookahead` |
| Scanning.Step | SyntaxAnalizer/scanner.py:21-75 | `scan_token` on values: consumes at least one character and stays inside the source; `StepFacts` and `StepLine` state the rest |
| Scanning.ScanFrom | SyntaxAnalizer/scanner.py:14-19 | the loop of `scan_tokens` on values; stated by `ScanFromEof`, `ScanEndsWithEof` and `ScanLinesOrdered` |
| Scanning.Scanner.constructor | SyntaxAnalizer/scanner.py:7-12 | the cursor is at 0, the line is 1, and there are no tokens |
| Scanning.Scanner.Peek | SyntaxAnalizer/scanner.py:137-140 | gives the current character, or `\0` at the end |
| Scanning.Scanner.PeekNext | SyntaxAnalizer/scanner.py:142-145 | gives the character after it, or `\0` |
| Scanning.Scanner.Advance | SyntaxAnalizer/scanner.py:150-152 | returns the current character and moves past it |
| Scanning.Scanner.Match | SyntaxAnalizer/scanner.py:128-135 | consumes the next character exactly when it is the expected one |
| Scanning.Scanner.AddToken | SyntaxAnalizer/scanner.py:154-157 | appends a token whose lexeme is `source[start..current]` |
| Scanning.Scanner.Error | SyntaxAnalizer/scanner.py:159-160 | appends one diagnostic |
| Scanning.Scanner.SkipIdentifierChars | SyntaxAnalizer/scanner.py:78-79 | the loop stops at the first character that cannot continue an identifier |
| Scanning.Scanner.LooksLikeFunctionAhead | SyntaxAnalizer/scanner.py:86-95 | the loops of the lookahead decide `LooksLikeFunction` |
| Scanning.Scanner.Identifier | SyntaxAnalizer/scanner.py:77-98 | consumes the identifier characters and appends one token of the word's kind; the lookahead leaves the cursor where it was |
| Scanning.Scanner.SkipDigits | SyntaxAnalizer/scanner.py:101-102 | the loop stops at the first non-digit |
| Scanning.Scanner.Number | SyntaxAnalizer/scanner.py:100-112 | consumes up to `NumberEnd` and appends the number token with its literal |
| Scanning.Scanner.StringBody | SyntaxAnalizer/scanner.py:115-118 | stops at the closing quote or the end, counting the newlines it passes |
| Scanning.Scanner.StringLiteral | SyntaxAnalizer/scanner.py:114-126 | has the effect of `StringStep` on tokens, diagnostics, cursor and line |
| Scanning.Scanner.SkipComment | SyntaxAnalizer/scanner.py:59-60 | stops at the next newline or the end |
| Scanning.Scanner.OperatorToken | SyntaxAnalizer/scanner.py:23-62 | has the effect of `OperatorStep` |
| Scanning.Scanner.ScanToken | SyntaxAnalizer/scanner.py:21-75 | has the effect of `Step` on tokens, diagnostics, cursor and line |
| Scanning.Scanner.ScanTokens | SyntaxAnalizer/scanner.py:14-19 | returns the tokens `ScanFrom` gives, and records its diagnostics |
| Scanning.ScanAsWritten | SyntaxAnalizer/scanner.py:75 | the scan as written succeeds exactly when the corrected scan reports nothing, and then gives the same tokens |
| Scanning.StrayCharacterAborts | SyntaxAnalizer/scanner.py:75 | on `@` the scan as written aborts, while the corrected scan reports the character and gives just EOF |
| Grammar.Tighter | SyntaxAnalizer/parser.py:274-420 | each level but `primary` has a next tighter level, ranked exactly one below it |
| Grammar.Widen | SyntaxAnalizer/parser.py:274-420 | a tree a tighter level returns is also one every looser level can return |
| Grammar.RootShape | SyntaxAnalizer/parser.py:298-355 | the root of a tree at a level is an operator no weaker than that level, a logical or prefix operator only at its own level or looser, and an assignment only at the top |
| Grammar.FoldBinary | SyntaxAnalizer/parser.py:318-348 | one round of a binary level's loop keeps the folded tree at that level |
| Grammar.BinaryOperands | SyntaxAnalizer/parser.py:318-348 | a binary node's left operand is at its operator's level and its right operand at the next tighter one |
| Grammar.OperatorPrecedence | SyntaxAnalizer/parser.py:318-348 | binary operators are left-associative, and the right operand never has a root operator as weak as the node's own |
| Grammar.LogicalPrecedence | SyntaxAnalizer/parser.py:298-316 | `\|\|` and `&&` fold to the left and `&&` binds tighter |
| Grammar.UnaryOperand | SyntaxAnalizer/parser.py:350-355 | a prefix operator applies to a unary-level operand, never to a binary, logical or assignment node |
| Grammar.OperatorStrength | SyntaxAnalizer/parser.py:318-348 | the operators each binary level matches have that level's precedence |
| Grammar.AssignTarget | SyntaxAnalizer/parser.py:282-296 | a target is valid exactly when it is a variable, a property read or a subscript; it becomes `Assign`, `Set` on the builtin `object`, or a subscript write carrying the value |
| Grammar.AssignTargetAtLevel | SyntaxAnalizer/parser.py:274-296 | assignment is right-associative, and the target part is never itself an assignment |
| Grammar.SubscriptParts | SyntaxAnalizer/parser.py:382-394 | a subscript read's target is at the subscript level and its index at the `or` level |
| Grammar.ListElementMeaning | SyntaxAnalizer/parser.py:432-433 | the rewrite turns only integral float literals into ints of the same value, keeps the level, and is idempotent |
| Grammar.DesugarForParts | SyntaxAnalizer/parser.py:162-175 | the rewrite of `for` keeps the initializer in front, the condition (or `true`), and the increment after the body; each wrapper is present exactly when its part is |
| Grammar.DesugarForWellFormed | SyntaxAnalizer/parser.py:142-175 | rewriting well-formed parts gives a well-formed statement |
| Parsing.Parser.constructor | SyntaxAnalizer/parser.py:14-17 | the cursor is at 0 and there are no errors |
| Parsing.Parser.Advance | SyntaxAnalizer/parser.py:61-64 | moves one token forward unless at EOF, and returns the previous token |
| Parsing.Parser.Check | SyntaxAnalizer/parser.py:56-59 | false at EOF, otherwise whether the current token has the kind; `Match` is stated in its terms |
| Parsing.Parser.IsAtEnd | SyntaxAnalizer/parser.py:66-67 | the current token is EOF; `Advance` does not move there |
| Parsing.Parser.Previous | SyntaxAnalizer/parser.py:72-73 | the token before the cursor; `Advance` returns it |
| Parsing.Parser.Match | SyntaxAnalizer/parser.py:44-49 | consumes exactly one token exactly when the current one is not EOF and has one of the kinds |
| Parsing.Parser.Consume | SyntaxAnalizer/parser.py:51-54 | returns and passes the expected token, or reports the message at the current token and fails without moving |
| Parsing.Parser.Error | SyntaxAnalizer/parser.py:75-77 | appends one diagnostic |
| Parsing.Parser.ReportLimit | SyntaxAnalizer/parser.py:249-250 | reports once 255 items are already read, and reports nothing otherwise |
| Parsing.Parser.ResumePoint | SyntaxAnalizer/parser.py:79-89 | the first position from `i` on that is EOF, follows a `;`, or starts a declaration; no earlier position from `i` on is one |
| Parsing.Parser.Synchronize | SyntaxAnalizer/parser.py:79-89 | the cursor ends at `ResumePoint` of the position one token on: the first token from there that is EOF, follows a `;`, or starts a declaration |
| Parsing.Parser.CheckType | SyntaxAnalizer/parser.py:34-42 | `[` `]` appends `[]` to the type name, no `[` leaves the cursor unmoved, and a `[` without `]` is an error |
| Parsing.Parser.Parse | SyntaxAnalizer/parser.py:19-32 | stops at EOF or after 100 attempts, drops failed declarations, and keeps one statement per attempt when nothing was reported |
| Parsing.Parser.Declaration | SyntaxAnalizer/parser.py:95-107 | always moves forward when not at EOF; a failure reports an error, yields nothing, and leaves the cursor one token past where `synchronize` stops after the failing token |
| Parsing.Parser.DeclarationKind | SyntaxAnalizer/parser.py:97-103 | a parsed declaration consumed tokens and is well formed; a failure reports an error |
| Parsing.Parser.ClassDeclaration | SyntaxAnalizer/parser.py:109-123 | a class with an identifier name and an optional identifier superclass |
| Parsing.Parser.Superclass | SyntaxAnalizer/parser.py:113-115 | a superclass is present exactly when `:` follows |
| Parsing.Parser.Statement | SyntaxAnalizer/parser.py:125-140 | a parsed statement consumed tokens and is well formed |
| Parsing.Parser.ForStatement | SyntaxAnalizer/parser.py:142-175 | the result is `DesugarFor` of the initializer, condition and increment parsed between `(` and `)` (each absent exactly where its terminator comes first) and of the body |
| Parsing.Parser.ForHeader | SyntaxAnalizer/parser.py:143-160 | after `(`, the initializer, the condition ending at `;` and the increment ending at `)`, each absent exactly where its terminator comes first |
| Parsing.Parser.ForConditionAndIncrement | SyntaxAnalizer/parser.py:152-160 | the condition ending at `;` and the increment ending at `)`, each absent exactly where its terminator comes first |
| Parsing.Parser.ForInitializer | SyntaxAnalizer/parser.py:145-150 | the initializer is absent exactly at `;`, is a variable declaration after a type keyword, and is well formed |
| Parsing.Parser.ForClause | SyntaxAnalizer/parser.py:152-160 | a clause is absent exactly when its terminator comes first, is at the assignment level otherwise, and the terminator is the last token consumed |
| Parsing.Parser.IfStatement | SyntaxAnalizer/parser.py:177-188 | gives a well-formed `If` node |
| Parsing.Parser.ElseBranch | SyntaxAnalizer/parser.py:185-186 | an else branch is present exactly when `else` follows |
| Parsing.Parser.PrintStatement | SyntaxAnalizer/parser.py:190-195 | gives a well-formed `Print` node |
| Parsing.Parser.ReturnStatement | SyntaxAnalizer/parser.py:197-205 | the keyword is the node's token, and the value is absent exactly when `;` follows |
| Parsing.Parser.TypeModifier | SyntaxAnalizer/parser.py:207-216 | the type is never NONE, and never VOID for a variable; a missing type keyword is reported |
| Parsing.Parser.VarDeclaration | SyntaxAnalizer/parser.py:207-222 | gives a well-formed `Var` node with an identifier name |
| Parsing.Parser.Initializer | SyntaxAnalizer/parser.py:218-219 | an initializer is present exactly when `=` follows |
| Parsing.Parser.WhileStatement | SyntaxAnalizer/parser.py:224-230 | gives a well-formed `While` node |
| Parsing.Parser.ExpressionStatement | SyntaxAnalizer/parser.py:232-235 | gives a well-formed `Expression` node |
| Parsing.Parser.Function | SyntaxAnalizer/parser.py:237-261 | parameters have no initializers, and every parameter beyond 255 is reported |
| Parsing.Parser.Parameter | SyntaxAnalizer/parser.py:251-253 | one parameter with an identifier name and no initializer |
| Parsing.Parser.Parameters | SyntaxAnalizer/parser.py:246-255 | there are no parameters exactly at `)`; none has an initializer; every one beyond 255 is reported |
| Parsing.Parser.Block | SyntaxAnalizer/parser.py:263-272 | every statement of the block is well formed |
| Parsing.Parser.Expression | SyntaxAnalizer/parser.py:92-93 | the tree is at the assignment level |
| Parsing.Parser.Assignment | SyntaxAnalizer/parser.py:274-296 | without an assignment operator, the `or`-level tree itself; after `= += -= *= /=` and a parsed value, the `AssignTarget` node for a variable, property or subscript target; otherwise "Invalid assignment target." (or "Invalid assignment." for an unknown operator) is the last diagnostic and the parse fails |
| Parsing.Parser.Or | SyntaxAnalizer/parser.py:298-306 | the tree is at the `or` level |
| Parsing.Parser.And | SyntaxAnalizer/parser.py:308-316 | the tree is at the `and` level |
| Parsing.Parser.Equality | SyntaxAnalizer/parser.py:318-324 | the tree is at the equality level |
| Parsing.Parser.Comparison | SyntaxAnalizer/parser.py:326-332 | the tree is at the comparison level |
| Parsing.Parser.Term | SyntaxAnalizer/parser.py:334-340 | the tree is at the term level |
| Parsing.Parser.Factor | SyntaxAnalizer/parser.py:342-348 | the tree is at the factor level |
| Parsing.Parser.FoldOperand | SyntaxAnalizer/parser.py:318-348 | one round of a binary loop folds onto the left operand under the matched operator |
| Parsing.Parser.Unary | SyntaxAnalizer/parser.py:350-355 | the tree is at the unary level |
| Parsing.Parser.Arguments | SyntaxAnalizer/parser.py:358-365 | there are no arguments exactly at `)`; every one beyond 255 is reported |
| Parsing.Parser.FinishCall | SyntaxAnalizer/parser.py:357-368 | a `Call` on the callee, with every argument beyond 255 reported |
| Parsing.Parser.Call | SyntaxAnalizer/parser.py:370-380 | the tree is at the call level |
| Parsing.Parser.CallSuffix | SyntaxAnalizer/parser.py:373-379 | a suffix is taken exactly at `(` or `.`, and otherwise the cursor is unmoved |
| Parsing.Parser.Subscript | SyntaxAnalizer/parser.py:382-389 | the tree is at the subscript level |
| Parsing.Parser.FinishSubscript | SyntaxAnalizer/parser.py:391-394 | a subscript read with its index at the `or` level |
| Parsing.Parser.SuperAccess | SyntaxAnalizer/parser.py:405-409 | a `Super` node on the keyword just read |
| Parsing.Parser.Group | SyntaxAnalizer/parser.py:412-415 | a `Grouping` node around an assignment-level tree |
| Parsing.Parser.Primary | SyntaxAnalizer/parser.py:396-420 | literals and variables come from the current token, and any other token is "Expect expression." without moving |
| Parsing.Parser.ListValues | SyntaxAnalizer/parser.py:427-436 | between 1 and 255 elements, each rewritten |
| Parsing.Parser.List | SyntaxAnalizer/parser.py:422-440 | a list of at most 255 rewritten elements |
| Scopes.ProgramComplete | Runtime/resolver.py:52-54 | resolving a whole program records the children of every node |
| Scopes.DepthRecorded | Runtime/resolver.py:56-61 | recording a depth that reaches its binding scope keeps every depth reaching its binding |
| Resolution.Innermost | Runtime/resolver.py:57-58 | the found scope declares the name and no inner scope does; no scope declares it when none is found |
| Resolution.Resolver.constructor | Runtime/resolver.py:16-21 | only the global scope is open, and the function and class kinds are NONE |
| Resolution.Resolver.BeginScope | Runtime/resolver.py:23-25 | both stacks grow by one empty scope |
| Resolution.Resolver.EndScope | Runtime/resolver.py:27-29 | both stacks shrink by one |
| Resolution.Resolver.Declare | Runtime/resolver.py:31-45 | fails exactly when the innermost scope already has the name; otherwise marks it declared but not defined |
| Resolution.Resolver.Define | Runtime/resolver.py:47-50 | marks the name defined in the innermost scope |
| Resolution.Resolver.ResolveLocal | Runtime/resolver.py:56-61 | records depth = scopes − 1 − index of the innermost declaring scope, with its binding scope; records nothing when no scope declares the name |
| Resolution.Resolver.FindScope | Runtime/resolver.py:57-58 | finds the innermost declaring scope |
| Resolution.Resolver.ResolveStatements | Runtime/resolver.py:52-54 | resolves the statements in order; the scope stack keeps its names, depth and kinds, and only the innermost scope's map can change |
| Resolution.Resolver.ResolveProgram | Runtime/resolver.py:52-54 | a resolved program leaves a complete table of visited nodes |
| Resolution.Resolver.ResolveStmt | Runtime/resolver.py:63-64 | the node and each child are recorded with the scopes open where the resolver visits them; the stack shape and kinds are restored, and only the innermost scope's map can change |
| Resolution.Resolver.VisitBlock | Runtime/resolver.py:83-86 | the block's statements are recorded under one new block scope; afterwards every scope map, the stack and the kinds are as before |
| Resolution.Resolver.VisitExpressionStmt | Runtime/resolver.py:117-118 | the node and each child are recorded with the scopes open where the resolver visits them; every scope map, the stack and the kinds are as before |
| Resolution.Resolver.VisitFunction | Runtime/resolver.py:120-123 | a name already in the innermost scope is "Already a variable with this name in this scope."; otherwise the name is declared and defined there (no other scope changes), and the body is recorded under a new scope named after the declaration |
| Resolution.Resolver.ResolveFunction | Runtime/resolver.py:69-80 | parameters and body share one new scope named after the declaration; afterwards every scope map and the function kind are as before |
| Resolution.Resolver.DeclareParameters | Runtime/resolver.py:74-76 | every parameter is declared and defined in the innermost scope, and outer scopes are untouched |
| Resolution.Resolver.VisitClass | Runtime/resolver.py:88-115 | a name already in the innermost scope is "Already a variable with this name in this scope."; otherwise the class name is declared and defined there (no other scope changes), the superclass reference is recorded in the class's scopes, and each method under `base` (for a subclass) and a method scope |
| Resolution.Resolver.ResolveClassBody | Runtime/resolver.py:95-113 | self-inheritance is an error; the methods are resolved, and afterwards every scope map is as before |
| Resolution.Resolver.ResolveSuperclass | Runtime/resolver.py:95-102 | self-inheritance is an error; a superclass is resolved and opens one new scope holding exactly `base` (defined), with the class kind SUBCLASS; without a superclass the scopes are as before |
| Resolution.Resolver.ResolveSuperclassName | Runtime/resolver.py:99 | the superclass reference is resolved as a variable |
| Resolution.Resolver.ResolveMethods | Runtime/resolver.py:106-108 | every method is resolved in the scopes the class opened |
| Resolution.Resolver.ResolveMethod | Runtime/resolver.py:107-108 | the method and its body are recorded under a scope of its own; afterwards every scope map and the kinds are as before |
| Resolution.Resolver.VisitIf | Runtime/resolver.py:125-129 | condition, then branch and any else branch are recorded in the same scopes; only the innermost scope's map can change (a branch may declare a name there) |
| Resolution.Resolver.VisitWhile | Runtime/resolver.py:149-151 | condition and body are recorded in the same scopes; only the innermost scope's map can change (the body may declare a name there) |
| Resolution.Resolver.VisitReturn | Runtime/resolver.py:134-141 | `return` at top level, and a value returned from `init`, are errors |
| Resolution.Resolver.VisitVar | Runtime/resolver.py:143-147 | a name already in the innermost scope is "Already a variable with this name in this scope."; otherwise the name ends defined in the innermost scope and no other scope changes. The initializer is resolved between `Declare` and `Define`, and `ResolveExpr` changes no scope map, so the initializer sees the name declared but not defined |
| Resolution.Resolver.ResolveExpr | Runtime/resolver.py:66-67 | the builtin `object` crashes; otherwise the node and each child are recorded with the scopes open where the resolver visits them; no scope map changes |
| Resolution.Resolver.VisitLeaf | Runtime/resolver.py:184-185 | a literal always resolves and is recorded |
| Resolution.Resolver.VisitOperand | Runtime/resolver.py:178-182 | the one operand is recorded in the same scopes |
| Resolution.Resolver.VisitOperands | Runtime/resolver.py:168-193 | both operands are recorded in the same scopes; `Set` on the builtin `object` does not resolve |
| Resolution.Resolver.VisitVariable | Runtime/resolver.py:212-216 | fails exactly when the innermost scope holds the name as declared but not defined; otherwise the reference resolves to its innermost declaration |
| Resolution.Resolver.VisitAssign | Runtime/resolver.py:164-166 | the value is recorded in the same scopes, and no scope map changes |
| Resolution.Resolver.VisitCall | Runtime/resolver.py:172-176 | callee and each argument are recorded in the same scopes |
| Resolution.Resolver.VisitList | Runtime/resolver.py:154-156 | each element is recorded in the same scopes |
| Resolution.Resolver.ResolveChildren | Runtime/resolver.py:154-176 | each expression in order, at consecutive positions |
| Resolution.Resolver.VisitSubscript | Runtime/resolver.py:158-162 | list, index and any written value are recorded in the same scopes |
| Resolution.Resolver.VisitSuper | Runtime/resolver.py:195-201 | `base` outside a class, and in a class without a superclass, are errors; in a subclass it resolves |
| Resolution.Resolver.VisitThis | Runtime/resolver.py:203-207 | resolves exactly inside a class |
| Runtime.VariableRecord.constructor | Runtime/environment.py:1-4 | the record holds the type and the item |
| Runtime.Environment.constructor | Runtime/environment.py:8-10 | an empty frame enclosing the given one |
| Runtime.Environment.AncestorOf | Runtime/environment.py:35-39 | the frame `d` links out exists exactly when `d` is less than the chain length, and stands for the scope `d` steps out |
| Runtime.Environment.AncestorStep | Runtime/environment.py:37-38 | one more step out is the enclosing frame of the previous ancestor |
| Runtime.Environment.Ancestor | Runtime/environment.py:35-39 | the loop follows exactly `d` enclosing links |
| Runtime.Environment.HolderDistance | Runtime/environment.py:12-17 | the nearest frame holding the name, with no nearer frame holding it |
| Runtime.Environment.Get | Runtime/environment.py:12-19 | the entry of the nearest frame holding the name, or Python's builtin RuntimeError for an undefined variable |
| Runtime.Environment.Assign | Runtime/environment.py:21-30 | overwrites only the nearest frame holding the name, or raises Python's builtin RuntimeError and changes nothing |
| Runtime.Environment.Define | Runtime/environment.py:32-33 | writes this frame only, overwriting |
| Runtime.Environment.GetAt | Runtime/environment.py:41-42 | the ancestor's own entry; running off the chain or a missing name is a Python error |
| Runtime.Environment.AssignAt | Runtime/environment.py:44-45 | writes the ancestor's own map and no other frame |
| Runtime.LanguageList.constructor | Runtime/Language_/language_list.py:5-6 | an empty list |
| Runtime.LanguageList.Append | Runtime/Language_/language_list.py:8-9 | the value is added at the end |
| Runtime.LanguageList.GetEleAt | Runtime/Language_/language_list.py:11-12 | the element inside the list, None outside it |
| Runtime.LanguageList.SetAtIndex | Runtime/Language_/language_list.py:17-24 | appends at the length, replaces one element inside, and otherwise fails with the list unchanged |
| Runtime.LanguageList.Length | Runtime/Language_/language_list.py:14-15 | the number of elements; `SetAtIndex` is stated against it |
| Runtime.LanguageInstance.constructor | Runtime/Language_/language_instance.py:6-8 | no fields |
| Runtime.LanguageInstance.Get | Runtime/Language_/language_instance.py:10-18 | the field, else the class-chain method bound to the instance, else "Undefined property" |
| Runtime.LanguageInstance.Set | Runtime/Language_/language_instance.py:20-21 | overwrites just that field |
| Runtime.LanguageFunction.constructor | Runtime/Language_/language_function.py:8-11 | holds the declaration, closure and initializer flag |
| Runtime.LanguageFunction.Bind | Runtime/Language_/language_function.py:13-16 | the same declaration and flag, over a fresh frame enclosing the closure with exactly `this` defined |
| Runtime.LanguageFunction.Arity | Runtime/Language_/language_function.py:21-22 | the number of declared parameters; checked by `VisitCall` |
| Runtime.LanguageClass.constructor | Runtime/Language_/language_class.py:4-7 | holds the name, superclass and methods |
| Runtime.LanguageClass.Lineage | Runtime/Language_/language_class.py:14-15 | holds the class itself, and every class in it is well linked |
| Runtime.LanguageClass.FindMethod | Runtime/Language_/language_class.py:9-17 | an own method shadows inherited ones, and a method is found exactly when some class of the lineage defines it |
| Runtime.LanguageClass.Arity | Runtime/Language_/language_class.py:29-33 | the arity of `init` found along the lineage, or 0 without one; checked by `VisitCall` |
| Interpreting.ArityMismatch | Runtime/interpreter.py:301 | the arity message; raised by `VisitCall` when the counts differ |
| Interpreting.UndefinedProperty | Runtime/Language_/language_instance.py:18 | the error `get` raises for a name with no field and no method |
| Interpreting.ConstantValue | Runtime/interpreter.py:313-314 | the value a literal node holds; `Evaluate` gives it for a literal |
| Interpreting.OperatorsGivePlainValues | Runtime/interpreter.py:263-293 | operators give only None, booleans, numbers or strings |
| Interpreting.AssignedValueKinds | Runtime/interpreter.py:80-111 | an assignment stores the assigned value itself or a plain value |
| Interpreting.AssignmentResult | Runtime/interpreter.py:252-255 | the assignment's value is checked against the declared type after `handle_assigning` |
| Interpreting.SetPropertyAsWritten | Runtime/interpreter.py:331-333 | a property the instance does not have fails as undefined |
| Interpreting.NoFieldIsEverCreated | Runtime/Language_/language_instance.py:10-18 | as written, writing a name the instance lacks fails as an undefined property whatever the assignment kind, while the corrected write stores the value of a plain assignment |
| Interpreting.SetProperty | Runtime/interpreter.py:331-333 | as written for an existing property; a plain assignment creates a missing field |
| Interpreting.StoredPropertyKinds | Runtime/interpreter.py:331-333 | a field receives the assigned value itself or a plain value |
| Interpreting.WriteNextToNone | Runtime/interpreter.py:236-240 | next to a None slot, a plain value is refused, and an object passes but is stored as None |
| Interpreting.ElementAt | Runtime/interpreter.py:245-247 | the element inside the list; "Index out of range." outside it |
| Interpreting.ParameterNames | Runtime/Language_/language_function.py:26-27 | the call frame holds exactly the parameter names |
| Interpreting.ParametersBindArguments | Runtime/Language_/language_function.py:26-27 | with distinct names, each parameter is bound to its argument with type None |
| Interpreting.DepthReachesBindingFrame | Runtime/environment.py:41-45 | a recorded depth, counted from a frame with the recorded scopes, reaches the frame of the binding scope |
| Interpreting.Interpreter.constructor | Runtime/interpreter.py:44-50 | the global frame holds only `clock`, and it is the current frame |
| Interpreting.Interpreter.PushFrame | Runtime/interpreter.py:379 | a new empty frame enclosing the given one, standing for the given scope |
| Interpreting.Interpreter.NewClassIn | Runtime/interpreter.py:392-396 | a class built from unbound methods over live frames, with a live superclass, keeps the heap invariant |
| Interpreting.Interpreter.AdoptBinding | Runtime/Language_/language_function.py:13-16 | the bound method's new frame joins the live objects and the heap invariant holds |
| Interpreting.Interpreter.AdoptList | Runtime/interpreter.py:218-222 | a fresh list of live values joins the live objects and the heap invariant holds |
| Interpreting.Interpreter.DefineIn | Runtime/environment.py:32-33 | `define` in a live frame keeps the heap invariant and writes that entry only |
| Interpreting.Interpreter.BindMethod | Runtime/Language_/language_function.py:13-16 | `bind` of a method found on a class |
| Interpreting.Interpreter.GetProperty | Runtime/Language_/language_instance.py:10-18 | the field, else the bound method, else "Undefined property" |
| Interpreting.Interpreter.SetField | Runtime/Language_/language_instance.py:20-21 | overwrites just that field |
| Interpreting.Interpreter.AssignField | Runtime/interpreter.py:331-333 | reads the previous property as `get` does; when there is one, the stored value is exactly the as-written write's; the field changes only on success |
| Interpreting.Interpreter.WriteProperty | Runtime/interpreter.py:332-333 | stores `SetProperty`'s value, or changes nothing on failure |
| Interpreting.Interpreter.NewInstance | Runtime/Language_/language_class.py:23 | a fresh instance of the class with no fields |
| Interpreting.Interpreter.NewClass | Runtime/interpreter.py:396 | a fresh class with the given name, superclass and methods |
| Interpreting.Interpreter.LookUpVariable | Runtime/interpreter.py:156-160 | the binding visible at the reference, read through the recorded depth from the frame of the binding scope, or from the globals |
| Interpreting.Visible | Runtime/interpreter.py:156-160 | what `look_up_variable` finds: through the recorded depth, or in the globals, where a miss is the builtin RuntimeError |
| Interpreting.Interpreter.StoreVariable | Runtime/interpreter.py:256-260 | a resolved write always succeeds and a global one fails exactly on an undefined name; afterwards the reference sees the new binding and no other frame changed |
| Interpreting.Interpreter.StoreLocal | Runtime/interpreter.py:256-258 | `assign_at` through the recorded depth writes the binding's frame only |
| Interpreting.Interpreter.StoreGlobal | Runtime/interpreter.py:259-260 | `assign` in the globals fails exactly on an undefined name, and then changes nothing |
| Interpreting.Interpreter.AssignIn | Runtime/environment.py:21-30 | `assign` through the chain of a frame |
| Interpreting.Interpreter.Evaluate | Runtime/interpreter.py:60-61 | dispatches on the kind of expression; a literal gives its value, and the builtin `object` raises AttributeError |
| Interpreting.Interpreter.EvaluateObjectExpr | Runtime/interpreter.py:60-61 | calls, property reads and writes, `base`, `this`, lists and subscripts give live values and never a stray `return` |
| Interpreting.Interpreter.VisitUnary | Runtime/interpreter.py:348-356 | the operator applied to the evaluated operand |
| Interpreting.Interpreter.VisitBinary | Runtime/interpreter.py:263-293 | left, then right, then the operator on both values |
| Interpreting.Interpreter.VisitLogical | Runtime/interpreter.py:316-324 | `\|\|` gives a truthy left operand and `&&` a falsy one without evaluating the right; otherwise the right operand |
| Interpreting.Interpreter.VisitVariable | Runtime/interpreter.py:358-362 | the visible value, with None raising "Variable not initialized." |
| Interpreting.Interpreter.VisitThis | Runtime/interpreter.py:345-346 | the visible value, None included |
| Interpreting.Interpreter.VisitAssign | Runtime/interpreter.py:249-261 | the value, then the lookup, then `AssignmentResult`; on success the variable keeps its declared type and holds the result |
| Interpreting.Interpreter.PrepareAssignment | Runtime/interpreter.py:251-255 | the visible binding and the value its assignment gives |
| Interpreting.Interpreter.EvaluateArguments | Runtime/interpreter.py:297 | the arguments are evaluated in order, stopping at the first that faults; on success the values are those evaluations, one per argument, and otherwise the call gets that fault |
| Interpreting.Interpreter.VisitCall | Runtime/interpreter.py:295-302 | only functions and classes can be called, with exactly their arity; a function gives a value whatever its body raises; a class gives a new instance |
| Interpreting.Interpreter.Invoke | Runtime/interpreter.py:298-302 | the arity check, then the call |
| Interpreting.CallOutcome | Runtime/interpreter.py:295-302 | only functions and classes are callable, with exactly their arity; a function that is not an initializer gives a value, a class a new instance of itself |
| Interpreting.Interpreter.ThisRecord | Runtime/Language_/language_function.py:33 | the `Variable` record of `this` in the closure, or KeyError |
| Interpreting.Interpreter.DefineParameters | Runtime/Language_/language_function.py:26-27 | the call frame holds exactly the parameter bindings |
| Interpreting.Interpreter.CallFunction | Runtime/Language_/language_function.py:24-40 | a `return` gives its value, falling off gives None, any other exception gives None, and an initializer gives its `this` record |
| Interpreting.Interpreter.CallClass | Runtime/Language_/language_class.py:22-27 | a fresh instance of the class, with no fields when there is no initializer |
| Interpreting.Interpreter.Initialize | Runtime/Language_/language_class.py:24-26 | keeps the heap invariant, and no `return` escapes the initializer |
| Interpreting.Interpreter.VisitGet | Runtime/interpreter.py:304-308 | only instances have properties; an own field is returned as is |
| Interpreting.Interpreter.SetOnInstance | Runtime/interpreter.py:330-334 | the value, then the previous property as `get` reads it (field, else bound method, else none); the field receives `SetProperty` of it with the node's assignment kind, other fields are kept, and the expression gives the value |
| Interpreting.Interpreter.VisitSet | Runtime/interpreter.py:326-334 | the builtin `object` receiver raises AttributeError; only instances have fields; the field receives `SetProperty` of the previous property with the node's assignment kind, other fields are kept, and the expression gives the assigned value |
| Interpreting.Interpreter.LoadSuperOperands | Runtime/interpreter.py:337-339 | `super` at the recorded depth and `this` one frame nearer |
| Interpreting.Interpreter.BindSuper | Runtime/interpreter.py:340-343 | the superclass's method bound to the instance, or "Undefined property" |
| Interpreting.Interpreter.VisitSuper | Runtime/interpreter.py:336-343 | the depth reaches the frame of the scope binding `super`; the method found from the superclass is bound to `this` |
| Interpreting.Interpreter.VisitList | Runtime/interpreter.py:218-222 | a fresh list with one element per element expression |
| Interpreting.Interpreter.StoreElement | Runtime/interpreter.py:236-243 | the category guard, then `handle_assigning`, then `set_at_index`, with each failure leaving the list unchanged (`ElementStored`) |
| Interpreting.ElementStoredEffect | Runtime/interpreter.py:236-243 | a successful write leaves the stored value at the index and every other element as it was; a failed one raises and leaves the list unchanged |
| Interpreting.ElementStoredPlain | Runtime/interpreter.py:236-243 | a plain `=` inside the list, of a value of the element's category with neither None, replaces the element by the value |
| Interpreting.Interpreter.VisitSubscript | Runtime/interpreter.py:224-247 | non-lists, non-integral indices and reads outside the list raise; a read gives the element; a write passes on its value's fault, or else has the effect `ElementStored` describes with the node's assignment kind |
| Interpreting.Interpreter.SubscriptIndexed | Runtime/interpreter.py:226-247 | the index, the checks, then the read or the write, the write with the effect `ElementStored` describes |
| Interpreting.Interpreter.SubscriptWrite | Runtime/interpreter.py:234-243 | the value's fault is passed on; otherwise the category guard, `handle_assigning` with the node's assignment kind and `set_at_index` on the list as it stands once the value is known, as `ElementStored` describes |
| Interpreting.Interpreter.Execute | Runtime/interpreter.py:63-64 | keeps the heap invariant and the current frame; a returned value refers only to live objects |
| Interpreting.Interpreter.ExecuteStatements | Runtime/interpreter.py:73-74 | keeps the heap invariant and the current frame; a returned value refers only to live objects |
| Interpreting.Interpreter.ExecuteBlock | Runtime/interpreter.py:69-78 | the previous frame is current again however the block ends |
| Interpreting.Interpreter.VisitBlock | Runtime/interpreter.py:378-379 | keeps the heap invariant and the current frame |
| Interpreting.Interpreter.VisitExpressionStmt | Runtime/interpreter.py:401-402 | the expression is evaluated and its value discarded; its fault, if any, is passed on |
| Interpreting.Interpreter.VisitFunction | Runtime/interpreter.py:404-406 | a closure over the current frame, defined there under its name and declared type |
| Interpreting.Interpreter.BuildMethods | Runtime/interpreter.py:392-395 | every method closes over the class frame, and is an initializer exactly when named `init` |
| Interpreting.Interpreter.VisitClass | Runtime/interpreter.py:381-399 | the name is first defined as None; a class is built from its methods; a superclass that is not a class leaves the name None |
| Interpreting.Interpreter.DeclareClass | Runtime/interpreter.py:389-399 | the class is assigned to its name through the class frame |
| Interpreting.Interpreter.ClassFrame | Runtime/interpreter.py:389-390 | a superclass gets a new frame holding exactly `super`; otherwise the current frame |
| Interpreting.Interpreter.VisitIf | Runtime/interpreter.py:408-412 | a falsy condition without an else branch does nothing |
| Interpreting.Interpreter.VisitPrint | Runtime/interpreter.py:414-417 | when printing is on, appends the value's text as one output line |
| Interpreting.Interpreter.PrintValue | Runtime/interpreter.py:417 | appends `stringify`'s text, or raises its RecursionError |
| Interpreting.Interpreter.VisitReturn | Runtime/interpreter.py:419-423 | the value, or None without one, travels to the call |
| Interpreting.Interpreter.VisitVar | Runtime/interpreter.py:367-372 | without an initializer the name is defined as None; otherwise a fitting value is defined and a value that does not fit raises |
| Interpreting.Interpreter.VisitWhile | Runtime/interpreter.py:374-376 | a normal end means the last condition was falsy |
| Interpreting.Interpreter.Interpret | Runtime/interpreter.py:52-58 | the printing flag is set, the global frame stays current, and output only grows |

## Left out

- The driver (`main.py`, `Runtime/Language_/language.py`) is not part of
  this model: file reading, the prompt loop, exit codes and the global
  error flags.
- The printers (`Ast/ast_printer.py`, `Ast/rpn_printer.py`,
  `Ast/python_printer.py`) are not part of this model.
- `Runtime/Language_/error_handler.py` prints diagnostics and is not part
  of this model. Diagnostics are values here (`errors` lists, `Resolution`
  and `Run` outcomes).
- `Runtime/Language_/callbacks.py` prints nothing: it only declares
  `scanner_error` as None (line 5). The scanner imports that None by value
  (`SyntaxAnalizer/scanner.py:3`) and calls it (line 160), and
  `Runtime/Language_/language.py:20-22` rebinds only its own global. The
  scanner's diagnostics are therefore values here as well
  (`Scanner.errors`); see the scanner row of "Findings".
- `Ast/Nodes/expression.py`, `Runtime/runtime_error.py` and
  `Runtime/return_.py` are not part of this model. Expression nodes are
  rebuilt from the parser's constructor calls, a runtime error is a
  `Fault`, and `return` is `Flow.Returning`.
- `Extensions/optional.py` is not part of this model: nothing imports it.
- `Runtime/Language_/language_callable.py` is an interface only. It is
  folded into the `Value` variants that can be called.
- `Clock.call` reads the wall clock and is not modelled. The `clock`
  global exists, and calling it raises "Can only call functions and
  classes.", because `Clock` is not a `LanguageCallable`.
- Python's `float()` parsing and `str()` of floats are not modelled.
  Number literals are exact decimal values. The float branch of
  `stringify` takes `str` as a parameter (`floatText`).
- The debug `print` in `Extensions/custom_any.py` is not modelled.
  Standard output of `print` statements is the `output` sequence.
- Python lists never reach the category guard at run time. A
  `LanguageList` has category None, so the list categories of
  `custom_any.get_type` are not modelled.
- Fuel bounds loops and calls, and `OutOfFuel` is an outcome of the model
  only. A `while` loop that never ends and Python's recursion limit on
  deep calls are therefore not modelled. The recursion limit of
  `stringify` on a list nested in itself is modelled with a bound of 1000.
- The resolver keys `locals` by node identity. The model keys it by the
  node's path in the tree, so two equal nodes at different places stay
  distinct, as distinct objects do.
- Resolver diagnostics are not printed. The resolver calls
  `ErrorHandler.error_token(self, ...)` with itself as `self`, and that
  calls `self.report`, which the resolver does not have. The first
  diagnostic therefore raises AttributeError before anything is printed.
  The model ends resolution there with `Resolution.Aborted`, which carries
  the token and the message that would have been reported.
- Interpreting.Interpreter.Execute: states only that the frame and the
  object invariant are kept; what each statement does is stated by the
  visit method it dispatches to.
- Interpreting.Interpreter.ExecuteStatements: does not state that it stops
  at the first statement that does not complete normally.
- Interpreting.Interpreter.VisitBlock: does not state which frame the block
  runs in; the resolver side records that scope, and `ExecuteBlock`
  restores the frame.
- Interpreting.Interpreter.VisitList: states the length of the new list,
  not its elements.
- Interpreting.Interpreter.EvaluateArguments: states the order of the
  evaluations, where they stop, and that the values are their results.
  Evaluation is a method, so there is no function that would tie each
  outcome to its argument expression.
- Resolution.Resolver.ResolveMethod: does not state that `init` is
  resolved as an initializer.
- Interpreting.Interpreter.Interpret: states only that the printing flag
  is set, the current frame is the global one and output only grows. How
  the run ends is the `Run` outcome of the first statement that does not
  complete.
- Interpreting.Interpreter.Initialize: states only that the heap invariant
  is kept and no `return` escapes. The initializer's result is discarded
  by `LanguageClass.call`.
- Interpreting.Interpreter.VisitCall: does not state the value of a
  successful call beyond `CallOutcome`. The value is stated by
  `CallFunction` and `CallClass`.
- Interpreting.Interpreter.VisitGet: does not state which bound method is
  returned for a name without a field. That is stated by `GetProperty`.
- Interpreting.Interpreter.VisitIf: does not state which branch runs when
  the condition is truthy, or when there is an else branch.
- Interpreting.Interpreter.VisitWhile: states the falsy last condition,
  but not the number of iterations.
- Interpreting.Interpreter.VisitSuper: when `super` or `this` is missing
  from its frame, the contract gives the Python error that `get_at`
  raises. It does not prove that this cannot happen after resolution.
- Resolution.Resolver.VisitAssign: does not state which scope the assigned
  name resolves to. `ResolveLocal` states it.
- Resolution.Resolver.VisitClass: does not restate the errors that
  `ResolveSuperclass` states.
- Scanning.Step: the character classes are ASCII (`IsDigit`, `IsAlpha`,
  `IsIdentStart`, `IsIdentPart`), whereas Python's `isdigit`, `isalpha`
  and `isalnum` also accept other Unicode digits and letters. A source
  with such characters scans differently.
- Scanning.Scanner.ScanToken: the same ASCII character classes as
  `Scanning.Step`.
- Scanning.Scanner.SkipIdentifierChars: the same ASCII character classes
  as `Scanning.Step`.
- Scanning.Scanner.Identifier: the same ASCII character classes as
  `Scanning.Step`, in the word and in the lookahead.
- Scanning.Scanner.Number: the same ASCII digit class as `Scanning.Step`.
- Tokens.HashKey: the key holds the literal itself where `__hash__`
  hashes `str(literal)`, so it is finer: the int 1 and the string "1"
  have the same `str` text but different keys here.
- Interpreting.Interpreter.AssignField: stores the corrected
  `SetProperty`. When the instance has no property of that name, the code
  as written (`Runtime/interpreter.py:331`) raises "Undefined property"
  (`SetPropertyAsWritten`); the model creates the field for a plain
  assignment. When a previous property exists, both agree. No parsed
  program reaches this write (see "Findings").
- Interpreting.Interpreter.WriteProperty: the corrected `SetProperty`, as
  for `AssignField`.
- Interpreting.Interpreter.SetOnInstance: the corrected `SetProperty`, as
  for `AssignField`.
- Interpreting.Interpreter.VisitSet: the corrected `SetProperty`, as for
  `AssignField`.
- The scope stacks are modelled as a sequence of maps for `scopes` and a
  sequence of sets for `identifiers`. The `identifiers` entries are
  bookkeeping that nothing reads.

## Findings

| source | as written | input that shows it | evidently intended | confidence | as-written member | corrected member |
|---|---|---|---|---|---|---|
| SyntaxAnalizer/scanner.py:75 | `Scanner.error(self.line, "Unexpected character.")` calls the method on the class with two arguments for its three parameters. The first scan diagnostic therefore raises TypeError and ends the run. The same happens for "Unterminated string." at line 121. Calling `self.error` instead would not help: it calls `scanner_error`, which is None (Runtime/Language_/callbacks.py:5, imported by value at scanner.py:3), and raises TypeError as well. | the source text `@` | report the diagnostic and go on scanning, giving just the EOF token | not executed | Scanning.ScanAsWritten, Scanning.StrayCharacterAborts | Scanning.Scan |
| Runtime/interpreter.py:331 | `visit_set_expr` reads `obj.get(expr.name)` before writing. `get` raises "Undefined property" for a name that is neither a field nor a method (Runtime/Language_/language_instance.py:18), so no assignment can ever create a field. The path is unreachable from parsed programs: SyntaxAnalizer/parser.py:290 makes every `Set` receiver Python's builtin `object`, whose evaluation at interpreter.py:327 raises AttributeError first. | a `Set` node whose receiver evaluates to an instance, writing a name that is neither a field nor a method of its class (such as `Set(this, x, 1, =)` in `init` of a class with no method `x`) | a plain assignment creates the field, and a compound one needs a previous value | not executed | Interpreting.SetPropertyAsWritten, Interpreting.NoFieldIsEverCreated | Interpreting.SetProperty |
