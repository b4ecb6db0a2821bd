# A verified model of the CI-Jlox tree-walking Lox interpreter

This project models the C# Lox interpreter "CI-Jlox" in Dafny: the scanner, the recursive-descent parser, the expression and statement trees, the chained environments, the tree-walking interpreter, the `Lox` driver with its error flags, and the debug `AstPrinter`. Each part keeps the form of its source.

- **Scanner, Parser, Environment, Interpreter and Lox** are classes whose methods update their fields in place. Each method is proved against a pure specification function of the old state.
- **`Expr`, `Stmt`, `Token` and the exceptions** are datatypes.
- **`AstPrinter`** is a reference function `Show` plus methods (`Print` and the builder loop of `parenthesize`) proved equal to it.

| file | module | models |
|---|---|---|
| `util.dfy` | `Util` | `Option` (a C# `null`), digit strings, the decimal rendering of line numbers |
| `tokens.dfy` | `Tokens` | `TokenType`, runtime values (`nil`, booleans, numbers, strings), `Token` |
| `errors.dfy` | `Errors` | `RuntimeException`; a `Lox.error` call recorded as a `Diagnostic` |
| `terminal.dfy` | `Terminal` | standard output as the text written so far (`Console.Write`/`WriteLine`) |
| `lexemes.dfy` | `Lexemes` | what a token may look like (`Lexed`), the keyword table, the scanner's invariant |
| `scan_rules.dfy` | `ScanRules` | one call of `scanToken` as a pure step on the source, and the loop of `scanTokens` as a function over it |
| `scanner.dfy` | `Scanning` | `Scanner` and its methods, each proved equal to its rule |
| `ast.dfy` | `Ast` | `Expr`, `Stmt`, `Accept` dispatch, the `IVisitor` interfaces |
| `parse_rules.dfy` | `ParseRules` | the grammar as pure rules over `(position, diagnostics)` |
| `parser.dfy` | `Parsing` | `Parser` and its methods, each proved equal to its rule |
| `parse_laws.dfy` | `ParseLaws` | precedence, associativity, error recovery, dangling `else` |
| `environment.dfy` | `Environments` | `Environment` and the scope chain as a list of maps |
| `interpreter.dfy` | `Interpreting` | evaluation and execution as functions, and the `Interpreter` class |
| `ast_printer.dfy` | `AstPrinting` | `AstPrinter` |
| `lox.dfy` | `LoxMain` | `Lox`: `run`, `runFile`, `runPrompt`, `error`, `report`, `runtimeError` |

**Exceptions.**
- A `ParseException` is the `Unwind` result of a rule, caught by `declaration`, which synchronizes and leaves a `null` (`None`) entry.
- A `RuntimeException` is the signal `Throw`, caught by `interpret`.
- A `NotImplementedException` from a visitor's default body is the signal `NotImplemented(method)`.
- The `dereference of null` that a `null` statement causes is `NullStatement`.
- The scanner reading past the end of the source is the `ScanCrash` result.

The last three are caught by no one, and `run` reports them as `Crashed`.

**Diagnostics.** The scanner and the parser record each `Lox.error` call as a `Diagnostic`. `Lox.Run` then makes the same calls, in the same order, once each stage has finished. Nothing else writes between them, so the console text and `hadError` are those of the interleaved original.

**Quirks of the code.** Where the code departs from the Lox language as it is usually defined, the model follows the code:
- **String truthiness.** In Lox every string is truthy; here a string is truthy only when it is empty (`Interpreter/Interpreter.cs:143`), and `!`, `if` and `while` all use that rule.
- **`and`/`or`.** In Lox these short-circuit. The interpreter's method is spelled `VisitlogicalExpr`, so `Logical.Accept` reaches the interface's throwing default. `and`/`or` always crash. The short-circuit code is modelled on its own, as `EvalLogical`.
- **`==`.** In Lox `==` compares its operands. `VisitBinaryExpr` has no `==` case, so `==` gives `nil`. The `!` case in that switch gives `isEqual`.
- **Block comments.** Lox's reference scanner has no block comments. Here a block comment stops at any `/`, then always skips two characters, so `/*/` followed by a line break is a whole comment and the line break is not counted. At the end of the input this reads past the source (`ScanCrash`); it is not tolerated silently.
- **Unterminated strings.** As in Lox's reference scanner, they are reported on the line reached at the end of the input, not on the opening line.
- **Printing booleans.** Lox prints `true` and `false`; `stringify` and the debug printer use .NET's `True` and `False`.
- **Runtime error messages.** They are spelled as in the code ("Operant must be numbers.", "Operants must be two number or two strings."), and `primary` reports "Expected expression".

## Model

| member | source | states |
|---|---|---|
| Util.NatToString | Interpreter/Lox.cs:60 | the line number in a report is a non-empty run of decimal digits with no leading zero |
| Util.NatToStringRoundTrip | Interpreter/Lox.cs:60 | reading those digits back gives the line number again |
| Terminal.Console.WriteLine | Interpreter/Lox.cs:60 | `WriteLine` appends the text and a newline to the output |
| Terminal.Console.Write | Interpreter/Lox.cs:31 | `Write` appends exactly the text |
| Lexemes.WordKindIsWordy | Interpreter/Scanner.cs:123-131 | the kind `identifier` gives a word (keyword or `IDENTIFIER`) is never a string, number, EOF or operator kind |
| Lexemes.CharClasses | Interpreter/Scanner.cs:189-204 | `isDigit` holds for the ten digits only; no letter or `_` is a digit; `isAlphaNumeric` is a letter, `_` or one of those digits; the `'\0'` of `peek` past the end is neither |
| Lexemes.KeywordTable | Interpreter/Scanner.cs:18-36 | each reserved word maps to a kind of its own, spelled as that word, and never to `IDENTIFIER`; no two words share a kind |
| Lexemes.KeywordsAreWords | Interpreter/Scanner.cs:18-36 | every reserved word is shaped like an identifier, so `identifier` can produce each keyword |
| Lexemes.WordKindExact | Interpreter/Scanner.cs:127-129 | `identifier` gives a word its keyword kind exactly when it is a reserved word, and `IDENTIFIER` otherwise |
| Lexemes.NewlinesInCounts | Interpreter/Scanner.cs:151-153 | the newline count the string loop adds to `line` is the number of `'\n'` in the string's text |
| Lexemes.NumberScanned | Interpreter/Scanner.cs:133-147 | digits, then `.` and digits only when a digit follows the point, form a number lexeme that no digit or `.digit` continues |
| Lexemes.OperatorTokenLexed | Interpreter/Scanner.cs:62-75 | a punctuation or operator lexeme is a well-formed token of its kind; a one-character `!`, `=`, `<`, `>` is never followed by `=`, and a `/` is never followed by `/` or `*` |
| Lexemes.WordTokenLexed | Interpreter/Scanner.cs:123-131 | a maximal run of letters, digits and `_` starting with a letter or `_` is a well-formed word token of its keyword kind |
| Lexemes.NumberTokenLexed | Interpreter/Scanner.cs:146 | a maximal number lexeme with its decimal value as literal is a well-formed NUMBER token |
| Lexemes.StringTokenLexed | Interpreter/Scanner.cs:161-165 | a quoted lexeme whose literal is the text strictly between the quotes is a well-formed STRING token |
| Lexemes.DecimalValueOfNat | Interpreter/Scanner.cs:146 | an integer written in decimal scans as a number lexeme with exactly that value |
| Lexemes.NoLexedEof | Interpreter/Scanner.cs:52 | no token scanned from a lexeme is an EOF token |
| Lexemes.StepKeepsState | Interpreter/Scanner.cs:46-50 | one step of `scanToken` from `start == current` keeps the scanner's invariant: tokens lexed from their own spans, spans and lines forward, errors in line order |
| ScanRules.WordEnd | Interpreter/Scanner.cs:125 | the identifier loop stops at the first character that is no letter, digit or `_`, and all before it are |
| ScanRules.DigitsEnd | Interpreter/Scanner.cs:135 | a digit loop stops at the first non-digit, and all before it are digits |
| ScanRules.NumberEnd | Interpreter/Scanner.cs:133-147 | `number` ends after a maximal number lexeme, digits and at most one `.` among them |
| ScanRules.QuoteIndex | Interpreter/Scanner.cs:151-154 | the string loop stops at the first `"` or at the end |
| ScanRules.LineEnd | Interpreter/Scanner.cs:77-80 | a line comment runs up to the first line break or the end, which it does not consume |
| ScanRules.CommentStop | Interpreter/Scanner.cs:83-90 | the block comment loop stops at the first `/`, `*/` or the end, and at no earlier position |
| ScanRules.SingleKind | Interpreter/Scanner.cs:62-71 | the ten one-character cases give the punctuation kind spelled by the character |
| ScanRules.PairKind | Interpreter/Scanner.cs:72-75 | `!`, `=`, `<`, `>` give their two-character kind when `=` follows and their one-character kind otherwise |
| ScanRules.Step | Interpreter/Scanner.cs:57-121 | one `scanToken` from a position: it consumes at least one character, never decreases the line, crashes only at `/*`, and reports only on the line reached |
| ScanRules.ScanAll | Interpreter/Scanner.cs:44-55 | the loop of `scanTokens` keeps the tokens and reports gathered so far, and when it finishes its last token is EOF |
| ScanRules.StepSound | Interpreter/Scanner.cs:57-121 | every step that does not crash adds nothing, one token lexed from exactly the slice it consumed on the line reached, or one report on that line |
| ScanRules.TokenLexed | Interpreter/Scanner.cs:57-121 | a token a step emits is lexed from the slice it consumed, on the line reached |
| ScanRules.PairLexed | Interpreter/Scanner.cs:72-75 | `!`, `=`, `<`, `>` followed by `=` give the two-character token, and otherwise the one-character token, which `=` does not follow |
| ScanRules.StringLexed | Interpreter/Scanner.cs:149-166 | a closed string is one STRING token from the opening to the closing quote, whose literal is the text between them |
| ScanRules.WordLexed | Interpreter/Scanner.cs:123-131 | a word is one token for the maximal run of letters, digits and `_`, of its keyword kind or IDENTIFIER |
| ScanRules.CommentStopNoSlash | Interpreter/Scanner.cs:83-90 | with no `/` left, the block comment loop runs to the end of the source |
| ScanRules.UnterminatedCommentCrashes | Interpreter/Scanner.cs:81-95 | a `/*` with no `/` after it makes `scanTokens` read past the end, whatever was scanned before |
| ScanRules.SlashEndsComment | Interpreter/Scanner.cs:81-95 | "/*/" and a line break is one whole comment: the `/` ends it, the two skips take the `/` and the line break, and the EOF token is on line 1 |
| ScanRules.ScanOperators | Interpreter/Scanner.cs:72-75 | "<=!" scans as `<=`, `!`, EOF, with no report |
| ScanRules.ReportsContinue | Interpreter/Scanner.cs:116-118 | after a report the loop goes on from the next position with the report added and no token |
| ScanRules.UnclosedStringReported | Interpreter/Scanner.cs:149-160 | a string with no closing quote is reported as "Unterminated string." on the line reached at the end of the input, and the EOF token follows on that line |
| ScanRules.QuietSteps | Interpreter/Scanner.cs:76-107 | a step emits nothing exactly for a blank, a line break, a line comment, or a block comment that ends within the source |
| ScanRules.ReportingSteps | Interpreter/Scanner.cs:108-118 | a step reports exactly for a character no case handles or an unclosed string; an unexpected character is reported on the current line and scanning goes on at the next character |
| ScanRules.NumberBeforeDot | Interpreter/Scanner.cs:133-147 | digits followed by a `.` and no digit scan as a NUMBER of the digits' value, then a DOT token |
| ScanRules.StepCountsLines | Interpreter/Scanner.cs:81-107 | a step adds one to `line` for each line break it consumes, except a line break right after the `/` that ends a block comment |
| ScanRules.EofLine | Interpreter/Scanner.cs:44-55 | the EOF token is on a line between the starting one and that plus the line breaks left, and exactly on the latter when no `/` stands right before a line break |
| Scanning.Scanner.constructor | Interpreter/Scanner.cs:12-42 | a new scanner holds the source, no tokens or errors, `start = current = 0`, `line = 1` |
| Scanning.Scanner.IsAtEnd | Interpreter/Scanner.cs:223-226 | `isAtEnd` holds exactly when the cursor has reached the length of the source |
| Scanning.Scanner.Peek | Interpreter/Scanner.cs:177-181 | `peek` gives the character at the cursor, or `'\0'` at the end |
| Scanning.Scanner.PeekNext | Interpreter/Scanner.cs:183-187 | `peekNext` gives the character after the cursor, or `'\0'` when there is none |
| Scanning.Scanner.Advance | Interpreter/Scanner.cs:207-210 | `advance` returns the character at `current` and moves past it |
| Scanning.Scanner.Match | Interpreter/Scanner.cs:168-175 | `match` consumes the next character exactly when there is one and it is the expected one |
| Scanning.Scanner.AddToken | Interpreter/Scanner.cs:212-221 | `addToken` appends a token whose lexeme is `Source[start..current]`, on the current line |
| Scanning.Scanner.ScanIdentifier | Interpreter/Scanner.cs:123-131 | `identifier` appends one token for the maximal word, of its keyword kind or `IDENTIFIER` |
| Scanning.Scanner.SkipDigits | Interpreter/Scanner.cs:135 | the digit loop leaves the cursor at `DigitsEnd` |
| Scanning.Scanner.ScanNumber | Interpreter/Scanner.cs:133-147 | `number` appends one NUMBER token for the maximal number lexeme, with a fraction only when a digit follows the `.` |
| Scanning.Scanner.GetString | Interpreter/Scanner.cs:149-166 | `getString` either reaches the end and reports "Unterminated string." on the line reached, with no token, or appends a STRING token whose literal is the text between the quotes; `line` grows by the newlines inside |
| Scanning.Scanner.SkipString | Interpreter/Scanner.cs:151-154 | the string loop leaves the cursor at `QuoteIndex` and adds the line breaks it passed to `line` |
| Scanning.Scanner.BlockComment | Interpreter/Scanner.cs:81-95 | with `J` the first position from the cursor holding `/`, `*/` or the end: the loop adds one to `line` for each line break before `J`; the two skips succeed exactly when `J + 2` is within the source, leaving the cursor at `J + 2`, and otherwise read past the end |
| Scanning.Scanner.ScanOperator | Interpreter/Scanner.cs:62-75 | the punctuation and operator cases do exactly what `Step` says: one token of the one-character kind, or of the two-character kind exactly when `=` follows `!`, `=`, `<` or `>`; no report |
| Scanning.Scanner.ScanSlash | Interpreter/Scanner.cs:76-99 | `/` does exactly what `Step` says (a line comment to the line break, a block comment, or a SLASH token), and it fails exactly when `Step` says the block comment reads past the end |
| Scanning.Scanner.SkipLine | Interpreter/Scanner.cs:79 | the line comment loop leaves the cursor at `LineEnd` |
| Scanning.Scanner.ScanToken | Interpreter/Scanner.cs:57-121 | one call of `scanToken` moves the cursor, the line, the tokens and the reports exactly as `Step` says, and fails exactly when `Step` crashes |
| Scanning.Scanner.ScanDefault | Interpreter/Scanner.cs:109-118 | the `default` case scans a number, a word, or reports "Unexpected character.", exactly as `Step` says |
| Scanning.Scanner.ScanTokens | Interpreter/Scanner.cs:44-55 | the loop of `scanTokens` ends with the tokens and reports `ScanAll` gives from the starting state, or fails exactly when `ScanAll` crashes; its tokens are lexed from forward, non-overlapping spans, then one EOF token |
| Scanning.Scan | Interpreter/Scanner.cs:39-55 | `new Scanner(source).scanTokens()` gives exactly `ScanSource(source)`; a finished scan has one EOF token, at the end, every other token lexed from its own span in order with lines never decreasing, and only the two scanner messages as reports; a crash needs a `/*` in the source |
| Ast.ExprAccept | Interpreter/Grammar/Expr.cs:9-17 | each expression's `Accept` calls a method of `Expr.IVisitor` |
| Ast.ExprAcceptDistinguishesVariants | Interpreter/Grammar/Expr.cs:18-124 | two expressions reach the same visitor method exactly when they are the same one of the seven variants (`Binary` and `Logical` included) |
| Ast.StmtAccept | Interpreter/Grammar/Stmt.cs:9-16 | each statement's `Accept` calls a method of `Stmt.IVisitor` |
| Ast.StmtAcceptDistinguishesVariants | Interpreter/Grammar/Stmt.cs:17-105 | two statements reach the same visitor method exactly when they are the same one of the six variants |
| Environments.DefineIn | Interpreter/Environment.cs:26-29 | `define` creates or overwrites the binding in the innermost scope only; afterwards the name reads as the value, every other name as before |
| Environments.AssignIn | Interpreter/Environment.cs:43-58 | `assign` succeeds exactly when some scope binds the name; it keeps every scope's names, after it the name reads as the value and every other name as before |
| Environments.LookupFindsInnermost | Interpreter/Environment.cs:31-38 | `get` returns the value of the innermost scope binding the name |
| Environments.LookupMissing | Interpreter/Environment.cs:31-41 | `get` fails exactly when no scope of the chain binds the name |
| Errors.UndefinedVariable | Interpreter/Environment.cs:40 | the exception of `get` and `assign` carries the name's token, and its message quotes the name's lexeme after "Undefined variable '" |
| Environments.AssignUpdatesInnermost | Interpreter/Environment.cs:43-55 | `assign` rewrites exactly the innermost binding of the name |
| Environments.Environment.Global | Interpreter/Environment.cs:14-18 | `new Environment()` is one empty scope with no enclosing one |
| Environments.Environment.Nested | Interpreter/Environment.cs:20-23 | `new Environment(enclosing)` is an empty scope in front of the enclosing chain |
| Environments.Environment.Define | Interpreter/Environment.cs:26-29 | `define` changes the chain as `DefineIn` does |
| Environments.Environment.Get | Interpreter/Environment.cs:31-41 | `get` finds the innermost binding, or throws "Undefined variable '<name>'." with the name token |
| Environments.Environment.Assign | Interpreter/Environment.cs:43-58 | `assign` changes the chain as `AssignIn` does; when no scope binds the name it throws the undefined-variable exception and changes nothing |
| Interpreting.IsEqual | Interpreter/Interpreter.cs:177-183 | `isEqual` holds exactly for equal values: `nil` equals only `nil`, other values compare by type and content |
| Interpreting.Truthiness | Interpreter/Interpreter.cs:139-145 | `isTruthy` accepts exactly `true`, every number and the empty string: `nil`, `false` and every non-empty string are falsey |
| Interpreting.Eval | Interpreter/Interpreter.cs:32-121 | `evaluate` never changes the depth of the scope chain |
| Interpreting.Exec | Interpreter/Interpreter.cs:151-236 | `execute` never changes the depth of the scope chain, blocks included |
| Interpreting.ExecWhile | Interpreter/Interpreter.cs:238-245 | the `while` loop never changes the depth of the scope chain |
| Interpreting.ExecList | Interpreter/Interpreter.cs:160-176 | a statement list never changes the depth of the scope chain |
| Interpreting.Stringify | Interpreter/Interpreter.cs:184-198 | `stringify` gives "nil" for nil, "True"/"False" for booleans, and the string itself; a number gives its text, or that text without a trailing ".0" |
| Interpreting.BinaryOp | Interpreter/Interpreter.cs:37-77 | the comparison and arithmetic operators throw "Operant must be numbers." exactly when an operand is not a number; `-`, `*` and `/` give the difference, product and quotient of the operands; `+` adds two numbers, concatenates two strings and otherwise throws "Operants must be two number or two strings."; `>`, `>=`, `<` and `<=` compare the two numbers; `==` gives nil, `!=` gives `!isEqual`, and a `!` operator token gives `isEqual` |
| Interpreting.UnaryOp | Interpreter/Interpreter.cs:106-121 | `!` negates truthiness; `-` negates a number and throws "Operand must be a number." on anything else |
| Interpreting.EvalLogical | Interpreter/Interpreter.cs:90-104 | `VisitlogicalExpr` returns the left value without evaluating the right for truthy `or` and for falsy `and`, and otherwise evaluates the right |
| Interpreting.InterpreterMissesOnlyLogical | Interpreter/Interpreter.cs:90 | the interpreter overrides every expression visitor except `VisitLogicalExpr`, whose default throws without evaluating anything |
| Interpreting.InterpreterHandlesEveryStmt | Interpreter/Interpreter.cs:155-245 | every statement reaches a method the interpreter declares |
| Interpreting.LogicalAlwaysCrashes | Interpreter/Grammar/Expr.cs:89-92 | evaluating `and`/`or` always ends in the `NotImplementedException` of the default body |
| Interpreting.LeftOperandFirst | Interpreter/Interpreter.cs:34-35 | the left operand is evaluated first; its error pre-empts the right operand, and the right operand's error pre-empts the operator |
| Interpreting.EqualEqualIsNil | Interpreter/Interpreter.cs:37-77 | `a == b` with both operands evaluated gives nil |
| Interpreting.AssignYieldsValue | Interpreter/Interpreter.cs:247-252 | an assignment to a bound name returns the stored value, and the name then reads as it |
| Interpreting.VarWithoutInitializer | Interpreter/Interpreter.cs:226-236 | `var x;` binds nil in the innermost scope and leaves the enclosing scopes and the output alone |
| Interpreting.EvalWithoutAssignLeavesScopes | Interpreter/Interpreter.cs:247-252 | only assignment changes bindings: an expression without one leaves the chain unchanged |
| Interpreting.EvalKeepsShape | Interpreter/Environment.cs:43-58 | evaluation keeps the chain's depth and the names of every scope: `assign` never creates a binding |
| Interpreting.ExecListAppend | Interpreter/Interpreter.cs:18-31 | running `a + b` is running `a`, then `b` only if `a` completed: the first runtime error skips the rest |
| Interpreting.ExecExtends | Interpreter/Interpreter.cs:151-245 | a statement keeps the chain's depth and the outer scopes' names; it may add names only to the innermost scope and only appends output |
| Interpreting.ExecListExtends | Interpreter/Interpreter.cs:160-176 | a statement list does the same |
| Interpreting.BlockKeepsShape | Interpreter/Interpreter.cs:155-176 | after a block, normal or abrupt, the chain has exactly the names it had before |
| Interpreting.BlockDefinitionsInvisible | Interpreter/Interpreter.cs:155-176 | a name undefined before a block is still undefined after it |
| Interpreting.ShadowingExample | Interpreter/Interpreter.cs:155-176 | `var a = "outer"; { var a = "inner"; print a; } print a;` prints inner, then outer, and leaves `a` as "outer" |
| Interpreting.WhileTrueNeverCompletes | Interpreter/Interpreter.cs:238-245 | `while (true)` never completes normally |
| Interpreting.ExecMoreFuel | Interpreter/Interpreter.cs:238-245 | a run that does not run out of fuel gives the same result with any larger fuel: the bound only truncates |
| Interpreting.Interpreter.constructor | Interpreter/Interpreter.cs:16 | a new interpreter has one empty global environment |
| Interpreting.Interpreter.Evaluate | Interpreter/Interpreter.cs:147-150 | `evaluate` returns the value and leaves the chain as `Eval` says |
| Interpreting.Interpreter.EvaluateLogical | Interpreter/Interpreter.cs:90-104 | `VisitlogicalExpr` computes `EvalLogical` |
| Interpreting.Interpreter.Execute | Interpreter/Interpreter.cs:151-154 | `execute` changes the chain and the output as `Exec` says, and leaves `env` as it found it |
| Interpreting.Interpreter.ExecuteBlockStmt | Interpreter/Interpreter.cs:155-159 | `VisitBlockStmt` runs the block in a fresh child environment, as `Exec` says for a block |
| Interpreting.Interpreter.ExecuteWhile | Interpreter/Interpreter.cs:238-245 | the loop of `VisitWhileStmt` computes `ExecWhile` |
| Interpreting.Interpreter.ExecuteBlock | Interpreter/Interpreter.cs:160-176 | `executeBlock` runs the list in the given environment and restores the previous `env` on every exit |
| Interpreting.Interpreter.Interpret | Interpreter/Interpreter.cs:18-31 | `interpret` runs the statements in order, as `ExecList` says, stopping at the first that does not complete |
| ParseRules.Advanced | Interpreter/Parser.cs:398-407 | `advance` moves one token forward except at EOF, and never past the EOF token |
| ParseRules.CheckNeverEof | Interpreter/Parser.cs:392-396 | `check(EOF)` is always false, and `check` of the current kind holds exactly when not at the end |
| ParseRules.MatchIsSomeCheck | Interpreter/Parser.cs:341-353 | `match` holds exactly when `check` holds for one of its kinds; at the last token it never matches |
| ParseRules.Consume | Interpreter/Parser.cs:355-359 | `consume` takes the token exactly when it has the expected kind; otherwise it reports the message at the token found and throws without consuming |
| ParseRules.ExprAt | Interpreter/Parser.cs:45-48 | each precedence level moves only forward and only adds diagnostics, reports before it throws, and consumes a token when it builds a node |
| ParseRules.AssignmentAt | Interpreter/Parser.cs:50-69 | `assignment` does the same |
| ParseRules.UnaryAt | Interpreter/Parser.cs:327-337 | `unary` does the same |
| ParseRules.PrimaryAt | Interpreter/Parser.cs:301-325 | `primary` does the same |
| ParseRules.BinaryAt | Interpreter/Parser.cs:71-97 | each binary level does the same |
| ParseRules.Fold | Interpreter/Parser.cs:75-80 | the operator loop of a binary level moves only forward and only adds diagnostics |
| ParseRules.ExpressionStatement | Interpreter/Parser.cs:239-244 | `expressionStatement` consumes tokens and builds an expression statement, or throws after a report |
| ParseRules.PrintStatement | Interpreter/Parser.cs:208-213 | `printStatement` consumes tokens and builds a print statement, or throws after a report |
| ParseRules.VarDeclaration | Interpreter/Parser.cs:215-227 | `varDeclaration` consumes tokens and builds a var statement, or throws after a report |
| ParseRules.OptionalExpr | Interpreter/Parser.cs:142-154 | an absent `for` clause consumes nothing and reports nothing |
| ParseRules.ForInitializer | Interpreter/Parser.cs:128-140 | the initializer clause of `for` consumes at least one token when it succeeds, and throws only after a report |
| ParseRules.DesugarFor | Interpreter/Parser.cs:157-175 | `for` becomes a `while` whose condition is the given one or `true`, with the body followed by the increment when there is one, wrapped in a block with the initializer when there is one |
| ParseRules.ForClauses | Interpreter/Parser.cs:125-155 | the `for` header consumes tokens or throws after a report |
| ParseRules.LoopClauses | Interpreter/Parser.cs:142-155 | the condition and increment clauses keep the initializer already parsed |
| ParseRules.ForStatement | Interpreter/Parser.cs:125-176 | `forStatement` builds a `while`, or a block around one |
| ParseRules.IfStatement | Interpreter/Parser.cs:178-192 | `ifStatement` builds an `if`; when it has no `else`, no `else` token follows it |
| ParseRules.IfBranches | Interpreter/Parser.cs:183-191 | the branches keep the condition, and an `if` without `else` is not followed by `else` |
| ParseRules.ElseClause | Interpreter/Parser.cs:184-189 | `else` is taken whenever it follows the then-branch |
| ParseRules.WhileStatement | Interpreter/Parser.cs:229-237 | `whileStatement` builds a `while` statement or throws after a report |
| ParseRules.Statement | Interpreter/Parser.cs:114-123 | `statement` consumes a token when it builds a statement; a finished `if` with no `else` is never followed by `else` |
| ParseRules.Synchronize | Interpreter/Parser.cs:367-390 | `synchronize` stays within the list and skips at least one token unless at EOF |
| ParseRules.SyncLoop | Interpreter/Parser.cs:371-389 | the loop of `synchronize` stays within the list and moves only forward |
| ParseRules.Declaration | Interpreter/Parser.cs:99-112 | `declaration` always returns, consuming at least one token before EOF; a `null` result comes with a new report |
| ParseRules.BlockItems | Interpreter/Parser.cs:246-253 | the loop of `block` stops at `}` or EOF and keeps the declarations gathered |
| ParseRules.Block | Interpreter/Parser.cs:246-257 | `block` moves forward when it returns its list, and throws only after a report |
| ParseRules.Program | Interpreter/Parser.cs:34-43 | `parse` ends at EOF and always returns a list, with at most one entry per token consumed |
| Parsing.Parser.constructor | Interpreter/Parser.cs:17-20 | a new parser holds the token list with `current = 0` |
| Parsing.Parser.IsAtEnd | Interpreter/Parser.cs:404-407 | `isAtEnd` holds at the last token, and when it does not hold there is a token after the current one |
| Parsing.Parser.Peek | Interpreter/Parser.cs:409-412 | `peek` is the token at the cursor, EOF at the last position |
| Parsing.Parser.Previous | Interpreter/Parser.cs:414-417 | `previous` is the token before the cursor, which must have moved |
| Parsing.Parser.Check | Interpreter/Parser.cs:392-396 | `check` holds only for the current token's kind and never at EOF, so `check(EOF)` is always false |
| Parsing.Parser.Advance | Interpreter/Parser.cs:398-402 | `advance` moves as `Advanced` says and returns the previous token |
| Parsing.Parser.Match | Interpreter/Parser.cs:341-353 | `match` consumes exactly when the current token has one of the kinds and is not EOF |
| Parsing.Parser.Error | Interpreter/Parser.cs:361-365 | `error` records one report at the token |
| Parsing.Parser.Consume | Interpreter/Parser.cs:355-359 | `consume` computes `ParseRules.Consume` |
| Parsing.Parser.Synchronize | Interpreter/Parser.cs:367-390 | `synchronize` moves `current` as `ParseRules.Synchronize` says |
| Parsing.Parser.ParseExpression | Interpreter/Parser.cs:22-32 | `Parse()` returns the expression `ExprAt` builds, or `null` when it throws |
| Parsing.Parser.Expression | Interpreter/Parser.cs:45-48 | `expression` computes the assignment level of `ExprAt` |
| Parsing.Parser.Assignment | Interpreter/Parser.cs:50-69 | `assignment` computes the assignment level of `ExprAt` |
| Parsing.Parser.Or | Interpreter/Parser.cs:71-83 | `or` computes the `or` level of `ExprAt` |
| Parsing.Parser.And | Interpreter/Parser.cs:85-97 | `and` computes the `and` level of `ExprAt` |
| Parsing.Parser.Equality | Interpreter/Parser.cs:194-206 | `equality` computes the equality level of `ExprAt` |
| Parsing.Parser.Comparison | Interpreter/Parser.cs:259-271 | `comparison` computes the comparison level of `ExprAt` |
| Parsing.Parser.Term | Interpreter/Parser.cs:273-285 | `term` computes the term level of `ExprAt` |
| Parsing.Parser.Factor | Interpreter/Parser.cs:287-299 | `factor` computes the factor level of `ExprAt` |
| Parsing.Parser.Unary | Interpreter/Parser.cs:327-337 | `unary` computes the unary level of `ExprAt` |
| Parsing.Parser.Primary | Interpreter/Parser.cs:301-325 | `primary` computes the primary level of `ExprAt` |
| Parsing.Parser.ParseProgram | Interpreter/Parser.cs:34-43 | `parse` computes `Program` |
| Parsing.Parser.Declaration | Interpreter/Parser.cs:99-112 | `declaration` computes `ParseRules.Declaration`, catching the exception with `synchronize` |
| Parsing.Parser.Statement | Interpreter/Parser.cs:114-123 | `statement` computes `ParseRules.Statement` |
| Parsing.Parser.ForStatement | Interpreter/Parser.cs:125-176 | `forStatement` computes `ParseRules.ForStatement` |
| Parsing.Parser.ForClauses | Interpreter/Parser.cs:127-155 | the header part of `forStatement` computes `ParseRules.ForClauses` |
| Parsing.Parser.ForInitializer | Interpreter/Parser.cs:128-140 | the initializer part of `forStatement` computes `ParseRules.ForInitializer` |
| Parsing.Parser.IfStatement | Interpreter/Parser.cs:178-192 | `ifStatement` computes `ParseRules.IfStatement` |
| Parsing.Parser.ElseClause | Interpreter/Parser.cs:184-189 | the `else` part of `ifStatement` computes `ParseRules.ElseClause` |
| Parsing.Parser.PrintStatement | Interpreter/Parser.cs:208-213 | `printStatement` computes `ParseRules.PrintStatement` |
| Parsing.Parser.VarDeclaration | Interpreter/Parser.cs:215-227 | `varDeclaration` computes `ParseRules.VarDeclaration` |
| Parsing.Parser.WhileStatement | Interpreter/Parser.cs:229-237 | `whileStatement` computes `ParseRules.WhileStatement` |
| Parsing.Parser.ExpressionStatement | Interpreter/Parser.cs:239-244 | `expressionStatement` computes `ParseRules.ExpressionStatement` |
| Parsing.Parser.Block | Interpreter/Parser.cs:246-257 | `block` computes `ParseRules.Block` |
| ParseLaws.OperatorsByHeight | Interpreter/Parser.cs:71-97 | each operator a level matches belongs to that level's rung of the ladder or < and < equality < comparison < term < factor |
| ParseLaws.AtomParses | Interpreter/Parser.cs:301-316 | an atom followed by no operator of any level from the given one down parses there as the atom alone, consuming one token |
| ParseLaws.PrimaryAtAtom | Interpreter/Parser.cs:303-316 | `primary` turns `false`/`true`/`nil`/number/string into a `Literal` and an identifier into a `Variable` |
| ParseLaws.LeftAssociative | Interpreter/Parser.cs:71-97 | a binary level over `x op y op z ...`, each operand whatever the level below parses, builds the left-nested tree `((x op y) op z) ...`, and stops where the chain of operators stops |
| ParseLaws.FoldOperands | Interpreter/Parser.cs:75-80 | the operator loop over a chain of operators and operands folds it to the left, ending where the chain ends with the diagnostics its operands left |
| ParseLaws.SubtractionGroupsLeft | Interpreter/Parser.cs:273-285 | `a - b - c` parses as `Binary(Binary(a, -, b), -, c)` and consumes the five tokens |
| ParseLaws.ProductOfAtoms | Interpreter/Parser.cs:287-299 | `b * c` parses at `factor` as `Binary(b, *, c)` |
| ParseLaws.ProductBindsTighter | Interpreter/Parser.cs:273-299 | `a - b * c` parses as `Binary(a, -, Binary(b, *, c))`: `factor` binds tighter than `term` |
| ParseLaws.NegationBindsTighter | Interpreter/Parser.cs:287-337 | `-a * b` parses as `Binary(Unary(-, a), *, b)`: a prefix operator binds tighter than `factor` |
| ParseLaws.UnaryRightAssociative | Interpreter/Parser.cs:327-337 | `k` prefix operators before an atom nest to the right, the first outermost |
| ParseLaws.AssignmentRightAssociative | Interpreter/Parser.cs:50-69 | `a = b = ... = atom` parses as `a = (b = (... atom))` |
| ParseLaws.InvalidTargetReported | Interpreter/Parser.cs:58-66 | a non-variable target before `=` reports "Invalid assignment target." at the `=` after the right-hand side, does not throw, and returns the left-hand expression |
| ParseLaws.PrimaryFailsExactly | Interpreter/Parser.cs:301-325 | `primary` throws without consuming exactly when the token starts no primary, and then reports "Expected expression" at it |
| ParseLaws.NoExpressionStart | Interpreter/Parser.cs:301-337 | where no expression can start, every level reports "Expected expression" once at that token and throws without consuming |
| ParseLaws.ElseBindsToNearestIf | Interpreter/Parser.cs:178-192 | in `if (a) if (b) s1 else s2` the `else` belongs to the inner `if`: an outer `if` whose then-branch is an `if` without `else` has no `else` |
| ParseLaws.SyncLoopStops | Interpreter/Parser.cs:371-389 | the loop of `synchronize` stops at the first token that is EOF, follows a `;`, or starts a statement keyword |
| ParseLaws.SynchronizeStops | Interpreter/Parser.cs:367-390 | `synchronize` skips one token unless at EOF, then stops at the first point just after `;`, before `class`/`fun`/`var`/`for`/`if`/`while`/`print`/`return`, or at EOF |
| ParseLaws.ProgramNullsReported | Interpreter/Parser.cs:34-43 | every `null` entry `parse` returns comes with at least one `Lox.error` report |
| ParseLaws.BlockNullsReported | Interpreter/Parser.cs:246-253 | every `null` entry of a block comes with at least one report |
| AstPrinting.Print | Interpreter/AstPrinter.cs:11-14 | `Print` returns the reference rendering `Show`, or the default body that throws |
| AstPrinting.Parenthesize | Interpreter/AstPrinter.cs:37-50 | the builder loop of `parenthesize` gives "(" + name, then " " and each operand, then ")" |
| AstPrinting.ParenthesizedOne | Interpreter/AstPrinter.cs:37-50 | with one operand `parenthesize` gives `(name x)` |
| AstPrinting.ParenthesizedTwo | Interpreter/AstPrinter.cs:37-50 | with two operands it gives `(name l r)`, the left one rendered, and able to throw, first |
| AstPrinting.ShowBinary | Interpreter/AstPrinter.cs:16-19 | `Binary` prints as `(op left right)` |
| AstPrinting.ShowGrouping | Interpreter/AstPrinter.cs:21-24 | `Grouping` prints as `(group inner)` |
| AstPrinting.ShowUnary | Interpreter/AstPrinter.cs:32-35 | `Unary` prints as `(op operand)` |
| AstPrinting.ShowLiteral | Interpreter/AstPrinter.cs:26-30 | a nil literal prints as "nil", a string as itself, a number as its text |
| AstPrinting.LiteralTextsCollide | Interpreter/AstPrinter.cs:26-30 | a string literal prints as the string itself, so "nil", "True" and "False" print like `nil`, `true` and `false` |
| AstPrinting.ParenthesizedShape | Interpreter/AstPrinter.cs:37-50 | `parenthesize` output starts with "(" and the name and ends with ")", and it throws exactly when an operand does |
| AstPrinting.PrintsExactlyPrintable | Interpreter/AstPrinter.cs:9 | printing succeeds exactly on trees of `Binary`, `Grouping`, `Literal` and `Unary`; otherwise it is the throwing default of `VisitAssignExpr`, `VisitLogicalExpr` or `VisitVariableExpr` |
| AstPrinting.PrintBalanced | Interpreter/AstPrinter.cs:37-50 | when no lexeme or literal text holds a parenthesis, the output's parentheses are balanced, with one `(` per `Binary`, `Grouping` and `Unary` node |
| AstPrinting.LowBoundsPrefixes | Interpreter/AstPrinter.cs:37-50 | the lowest depth of a text bounds the depth of each of its prefixes |
| AstPrinting.BalancedPrefixes | Interpreter/AstPrinter.cs:37-50 | in balanced output no prefix closes more parentheses than it opens |
| AstPrinting.Concat | Interpreter/AstPrinter.cs:37-50 | parenthesis counts and depths add up over concatenation, as the builder appends |
| LoxMain.Where | Interpreter/Lox.cs:64-74 | `error(Token)` reports " at end" for EOF, otherwise " at '<lexeme>'" |
| LoxMain.ReportNamesLine | Interpreter/Lox.cs:58-62 | the `ReportText` line reads `[line N] Error <where>: <message>`, and N reads back as the line |
| LoxMain.RuntimeErrorNamesLine | Interpreter/Lox.cs:76-80 | `runtimeError` writes the message, a line break and `[line N]`, and N reads back as the token's line |
| LoxMain.DiagnosticsTextAppend | Interpreter/Lox.cs:53-74 | making two runs of `error` calls one after the other writes both texts in order |
| LoxMain.Finish | Interpreter/Lox.cs:49 | `interpret` completes, fails with a reported runtime error, or crashes, and the outcome says which |
| LoxMain.RunScanned | Interpreter/Lox.cs:44-50 | after scanning: the scanner's and then the parser's reports are written first; any report, or `hadError` already set, skips the program, and a skipped run writes nothing more and leaves the bindings; the run is skipped exactly when `hadError` ends set; the chain keeps its depth and `hadRuntimeError` is set exactly by a reported runtime error |
| LoxMain.RunSource | Interpreter/Lox.cs:40-51 | `run`: a scan that reads past the end writes the scanner's reports and ends in `Crashed` without touching the bindings; `hadError` afterwards means the run was skipped or crashed, as does `hadError` before; the output only grows, the chain keeps its depth, and `hadRuntimeError` is set exactly by a reported runtime error |
| LoxMain.PromptFrom | Interpreter/Lox.cs:24-38 | the prompt loop from line `i`: every line it ran was non-empty; it stops without halting only at an empty line or the end of input, with `hadError` clear if it ran any line; `hadRuntimeError` is never cleared |
| LoxMain.HaltingLineEndsPrompt | Interpreter/Lox.cs:29-37 | a line whose run crashes or never returns is the last one the prompt runs |
| LoxMain.ErrorsDoNotCarryOver | Interpreter/Lox.cs:35-36 | after a line that returns, the prompt goes on with `hadError` cleared, so a report on one line does not stop the next |
| LoxMain.Lox.constructor | Interpreter/Lox.cs:12-14 | one interpreter with an empty global environment; both flags clear |
| LoxMain.Lox.Report | Interpreter/Lox.cs:58-62 | `report` writes `[line N] Error <where>: <message>` and a newline, and sets `hadError` |
| LoxMain.Lox.ErrorAtLine | Interpreter/Lox.cs:53-56 | `error(int, ..)` reports with an empty location |
| LoxMain.Lox.ErrorAt | Interpreter/Lox.cs:64-74 | `error(Token, ..)` reports at the token's line with its location |
| LoxMain.Lox.ReportRuntimeError | Interpreter/Lox.cs:76-80 | `runtimeError` writes the message, a newline, `[line N]` with the token's line, and sets `hadRuntimeError` |
| LoxMain.Lox.ReportOne | Interpreter/Lox.cs:53-74 | one recorded `error` call writes its text and sets `hadError` |
| LoxMain.Lox.ReportAll | Interpreter/Lox.cs:53-74 | the recorded `error` calls, made in order, write their texts in order and set `hadError` exactly when there is one |
| LoxMain.Lox.Run | Interpreter/Lox.cs:40-51 | `run` changes the bindings, the output and both flags exactly as `RunSource` says, where `ScanSource(source)` is the scanner's result and the statements are those `Program` parses from its tokens |
| LoxMain.Lox.RunTokens | Interpreter/Lox.cs:44-50 | the part of `run` after scanning changes the state exactly as `RunScanned` says, on the statements `Program` parses |
| LoxMain.Lox.ReportBoth | Interpreter/Lox.cs:41-45 | the scanner's reports come before the parser's |
| LoxMain.Lox.Interpret | Interpreter/Lox.cs:49 | `interpreter.interpret` with its `catch`: the output is the program's output, then the runtime error report if one stopped it |
| LoxMain.Lox.RunFile | Interpreter/Lox.cs:16-22 | `runFile` does nothing, writes nothing and changes no binding once either flag is set; otherwise it is `run` on the contents, exactly as `RunSource` says |
| LoxMain.Lox.PromptLine | Interpreter/Lox.cs:35-36 | one prompt line is `run` as `RunSource` says, then `hadError` is cleared unless the run ended in an uncaught exception or ran out of fuel |
| LoxMain.Lox.RunPrompt | Interpreter/Lox.cs:24-38 | `runPrompt` writes "> " before each line and runs the lines in order, up to the first empty line or the end of input or the first run that does not return; the lines run and the final state are exactly `PromptFrom` from the first line |

## Left out

- Reading the script file (`File.ReadAllBytes`, UTF-8 decoding) and standard input (`Console.ReadLine`, ASCII decoding): `RunFile` takes the file's text and `RunPrompt` the lines read, the end of input being the end of that list.
- `Program.cs` (argument dispatch) is not part of this model, and neither is `Tool/GenerateAst.cs` (a build-time code generator).
- `Console.WriteLine` ends a line with `"\n"`; the platform's line terminator is not modelled.
- Floating point: numbers are `real`. `Double.Parse` is replaced by the exact decimal value of the literal. IEEE `+ - * /` and `double.ToString` are the uninterpreted functions of `NumOps`; comparisons and negation are exact.
- Interpreting.Stringify: for numbers it states only that the text is `toText(n)` with a trailing ".0" dropped, since `double.ToString` is not modelled.
- .NET `Equals` details beyond "same type and same value" (NaN) are not modelled.
- `Token.ToString` (cosmetic), the token kinds no grammar rule uses, and the `ParseException` class (only its control flow is modelled) are not modelled.
- `while` loops run on fuel: each iteration uses one unit, and running out is the outcome `RanOutOfFuel`, which the source does not have. `ExecMoreFuel` shows that the bound only truncates a run. A run that runs out of fuel stands for one that never returns, so the prompt stops after it (`Halts`), as it does after an uncaught exception.
- Characters: C# `char` is a UTF-16 code unit, while a Dafny `char` is a Unicode scalar value. A character outside the Basic Multilingual Plane, outside a string or comment, gives two "Unexpected character." reports in C# (one per surrogate) but one in the model. Lexemes are sequences of the model's characters.
- Parsing.Parser.Advance: requires a token to have been consumed or the cursor not to be at EOF, because `previous()` would index before the list; no caller can reach that case.
- Parsing.Parser.Synchronize: has the same requires as `Advance`, because it begins with `advance()`; `declaration` calls it only after a failed rule.
- Parsing.Parser.Declaration: requires the cursor not to be at EOF, as both callers (`parse` and `block`) check first.
- Scanning.Scanner.ScanToken and its sub-methods: require the cursor positions their single call site in `scanTokens` provides.
- `forStatement` and `ifStatement` are split into helper rules and methods (`ForClauses`, `ForInitializer`, `LoopClauses`, `IfBranches`, `ElseClause`). The tokens consumed and the nodes built are the same.
- Parser `match` tries its kinds in an arbitrary order, since the result does not depend on the order of a C# `params` array.
- Interpreting.Interpreter.Interpret: a `null` statement ends the run with `NullStatement` (the uncaught null dereference). `ProgramNullsReported` shows that one comes only with a report, so `run` never interprets it; `Lox.Run` does not restate that.
- `int` line numbers are unbounded `nat`s; a 32-bit overflow after 2^31 lines is not modelled.
