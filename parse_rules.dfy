/**
 * The grammar that the recursive-descent parser (Interpreter/Parser.cs)
 * implements, as pure functions over the token list and a position.
 *
 * Every rule takes the position of the next unread token and the
 * diagnostics reported so far, and gives back what the C# method returns
 * (or `Unwind` when it throws `ParseException`), the position it leaves
 * `current` at, and the diagnostics after it. The `Parser` class runs the
 * same rules over its `current` field and is proved to agree with them.
 *
 * Termination is by (tokens left, rank): a rule either consumes a token
 * before it calls another, or calls one of lower rank.
 */
module ParseRules {
  import opened Util
  import opened Tokens
  import opened Errors
  import opened Ast

  /** What a parsing method returns, or `Unwind` when it throws `ParseException`. */
  datatype Parsed<T> = Built(value: T) | Unwind

  /** The result of a rule, where it left `current`, and the diagnostics so far. */
  datatype ParseOut<T> = ParseOut(result: Parsed<T>, pos: nat, errors: seq<Diagnostic>)

  // ------------------------------------------------------------ messages

  const ExpectedExpression := "Expected expression"
  const InvalidAssignmentTarget := "Invalid assignment target."
  const ExpectParenAfterFor := "Expect '(' after 'for'."
  const ExpectSemicolonAfterCondition := "Expect ';' after loop condition."
  const ExpectParenAfterClauses := "Expect ')' after for clauses."
  const ExpectParenAfterIf := "Expect '(' after 'if'."
  const ExpectParenAfterIfCondition := "Expect ')' after if condition."
  const ExpectSemicolonAfterValue := "Expect ';' after value."
  const ExpectVariableName := "Expect variable name."
  /** Spelled as in the source. */
  const ExpectSemicolonAfterVar := "Expect ';' after varialble declaration"
  const ExpectParenAfterWhile := "Expect '(' after 'while'."
  const ExpectParenAfterCondition := "Expect ')' after condition."
  const ExpectSemicolonAfterExpression := "Expect ';' after expression."
  const ExpectBraceAfterBlock := "Expect '}' after block."
  const ExpectParenAfterExpression := "Expect ')' after expression."

  // ------------------------------------------------------------ the cursor

  /** The token list the parser is given: it ends with the EOF token. */
  predicate EndsWithEof(tokens: seq<Token>) {
    |tokens| > 0 && tokens[|tokens| - 1].kind == EOF
  }

  /** `current` may point at any token of such a list. */
  predicate Wf(tokens: seq<Token>, pos: nat) {
    EndsWithEof(tokens) && pos < |tokens|
  }

  /** `isAtEnd`. */
  predicate AtEnd(tokens: seq<Token>, pos: nat)
    requires pos < |tokens|
  {
    tokens[pos].kind == EOF
  }

  /** `check`. */
  predicate CheckAt(tokens: seq<Token>, pos: nat, kind: TokenType)
    requires pos < |tokens|
  {
    !AtEnd(tokens, pos) && tokens[pos].kind == kind
  }

  /** Whether `match` with these kinds consumes the token at `pos`. */
  predicate MatchAt(tokens: seq<Token>, pos: nat, kinds: set<TokenType>)
    requires pos < |tokens|
  {
    !AtEnd(tokens, pos) && tokens[pos].kind in kinds
  }

  /** `check(EOF)` is always false: `isAtEnd` is tested first. */
  lemma CheckNeverEof(tokens: seq<Token>, pos: nat)
    requires pos < |tokens|
    ensures !CheckAt(tokens, pos, EOF)
    ensures CheckAt(tokens, pos, tokens[pos].kind) <==> !AtEnd(tokens, pos)
  {
  }

  /** `match` is `check` for some kind in its list; the cursor at the last token is at the end. */
  lemma MatchIsSomeCheck(tokens: seq<Token>, pos: nat, kinds: set<TokenType>)
    requires Wf(tokens, pos)
    ensures MatchAt(tokens, pos, kinds) <==> exists k :: k in kinds && CheckAt(tokens, pos, k)
    ensures pos == |tokens| - 1 ==> AtEnd(tokens, pos) && !MatchAt(tokens, pos, kinds)
  {
    if MatchAt(tokens, pos, kinds) {
      assert tokens[pos].kind in kinds && CheckAt(tokens, pos, tokens[pos].kind);
    }
  }

  /** Where `advance` leaves the cursor: it never moves past the EOF token. */
  function Advanced(tokens: seq<Token>, pos: nat): (p: nat)
    requires Wf(tokens, pos)
    ensures Wf(tokens, p)
    ensures p == pos <==> AtEnd(tokens, pos)
    ensures p != pos ==> p == pos + 1
  {
    if AtEnd(tokens, pos) then pos else pos + 1
  }

  /** Not at the EOF token, there is a token after the current one. */
  lemma NotAtEndHasNext(tokens: seq<Token>, pos: nat)
    requires Wf(tokens, pos) && !AtEnd(tokens, pos)
    ensures pos + 1 < |tokens|
  {
  }

  /** `error(peek(), message)` followed by the `throw`. */
  function Fail<T>(tokens: seq<Token>, pos: nat, errors: seq<Diagnostic>, message: string): ParseOut<T>
    requires pos < |tokens|
  {
    ParseOut(Unwind, pos, errors + [TokenError(tokens[pos], message)])
  }

  /** The same exception, passed on by a rule of another result type. */
  function Rethrow<T, U>(r: ParseOut<T>): ParseOut<U> {
    ParseOut(Unwind, r.pos, r.errors)
  }

  /**
   * What every rule promises about its outcome: the cursor moved forward (or
   * stayed) within the list, diagnostics were only added, and a throw was
   * always preceded by a report.
   */
  ghost predicate Moved<T>(tokens: seq<Token>, pos: nat, errors: seq<Diagnostic>, r: ParseOut<T>) {
    && pos <= r.pos < |tokens| && errors <= r.errors
    && (r.result.Unwind? ==> |r.errors| > |errors|)
  }

  /** `consume`: the expected token, or the report at the token found instead. */
  function Consume(tokens: seq<Token>, pos: nat, errors: seq<Diagnostic>, kind: TokenType, message: string): (r: ParseOut<Token>)
    requires Wf(tokens, pos)
    ensures Moved(tokens, pos, errors, r)
    ensures r.result.Built? <==> CheckAt(tokens, pos, kind)
    ensures r.result.Built? ==> r.result.value == tokens[pos] && r.pos == pos + 1 && r.errors == errors
    ensures r.result.Unwind? ==> r.pos == pos && r.errors == errors + [TokenError(tokens[pos], message)]
  {
    if CheckAt(tokens, pos, kind) then ParseOut(Built(tokens[pos]), pos + 1, errors)
    else Fail(tokens, pos, errors, message)
  }

  // ------------------------------------------------------------ expressions

  /** The precedence ladder, loosest first. */
  datatype Level = AssignmentLevel | OrLevel | AndLevel | EqualityLevel | ComparisonLevel | TermLevel | FactorLevel | UnaryLevel | PrimaryLevel

  /** Height on the ladder; a rule only calls a rule lower down without consuming. */
  function Height(level: Level): nat {
    match level
    case AssignmentLevel => 8
    case OrLevel => 7
    case AndLevel => 6
    case EqualityLevel => 5
    case ComparisonLevel => 4
    case TermLevel => 3
    case FactorLevel => 2
    case UnaryLevel => 1
    case PrimaryLevel => 0
  }

  /** The six levels that are a left-associative loop over operators. */
  predicate IsBinaryLevel(level: Level) {
    level != AssignmentLevel && level != UnaryLevel && level != PrimaryLevel
  }

  /** The level each operand of a binary level is parsed at. */
  function Next(level: Level): (n: Level)
    requires IsBinaryLevel(level)
    ensures Height(n) + 1 == Height(level)
  {
    match level
    case OrLevel => AndLevel
    case AndLevel => EqualityLevel
    case EqualityLevel => ComparisonLevel
    case ComparisonLevel => TermLevel
    case TermLevel => FactorLevel
    case FactorLevel => UnaryLevel
  }

  /** The operators a binary level matches. */
  function Operators(level: Level): set<TokenType>
    requires IsBinaryLevel(level)
  {
    match level
    case OrLevel => {Or}
    case AndLevel => {And}
    case EqualityLevel => {BangEqual, EqualEqual}
    case ComparisonLevel => {Greater, GreaterEqual, Less, LessEqual}
    case TermLevel => {Minus, Plus}
    case FactorLevel => {Slash, Star}
  }

  /** `or` and `and` build `Logical` nodes, the other levels `Binary` ones. */
  function Combine(level: Level, left: Expr, op: Token, right: Expr): Expr
    requires IsBinaryLevel(level)
  {
    if level == OrLevel || level == AndLevel then Logical(left, op, right) else Binary(left, op, right)
  }

  /**
   * The rule for `level` from `pos`: `assignment`, `or`, `and`, `equality`,
   * `comparison`, `term`, `factor`, `unary` or `primary`. An expression that
   * is built has consumed at least one token.
   */
  function ExprAt(tokens: seq<Token>, level: Level, pos: nat, errors: seq<Diagnostic>): (r: ParseOut<Expr>)
    requires Wf(tokens, pos)
    ensures Moved(tokens, pos, errors, r)
    ensures r.result.Built? ==> r.pos > pos
    decreases |tokens| - pos, 3 * Height(level) + 2
  {
    match level
    case AssignmentLevel => AssignmentAt(tokens, pos, errors)
    case UnaryLevel => UnaryAt(tokens, pos, errors)
    case PrimaryLevel => PrimaryAt(tokens, pos, errors)
    case _ => BinaryAt(tokens, level, pos, errors)
  }

  /**
   * `assignment`: right-associative. A target that is not a variable is
   * reported, not thrown, and the target is returned as it is.
   */
  function AssignmentAt(tokens: seq<Token>, pos: nat, errors: seq<Diagnostic>): (r: ParseOut<Expr>)
    requires Wf(tokens, pos)
    ensures Moved(tokens, pos, errors, r)
    ensures r.result.Built? ==> r.pos > pos
    decreases |tokens| - pos, 3 * Height(AssignmentLevel) + 1
  {
    var lhs := ExprAt(tokens, OrLevel, pos, errors);
    if lhs.result.Unwind? then lhs
    else if MatchAt(tokens, lhs.pos, {Equal}) then
      var equals := tokens[lhs.pos];
      var rhs := ExprAt(tokens, AssignmentLevel, lhs.pos + 1, lhs.errors);
      if rhs.result.Unwind? then rhs
      else if lhs.result.value.Variable? then
        ParseOut(Built(Assign(lhs.result.value.name, rhs.result.value)), rhs.pos, rhs.errors)
      else
        ParseOut(Built(lhs.result.value), rhs.pos, rhs.errors + [TokenError(equals, InvalidAssignmentTarget)])
    else lhs
  }

  /** `unary`: right-associative prefix `!` and `-`. */
  function UnaryAt(tokens: seq<Token>, pos: nat, errors: seq<Diagnostic>): (r: ParseOut<Expr>)
    requires Wf(tokens, pos)
    ensures Moved(tokens, pos, errors, r)
    ensures r.result.Built? ==> r.pos > pos
    decreases |tokens| - pos, 3 * Height(UnaryLevel) + 1
  {
    if MatchAt(tokens, pos, {Bang, Minus}) then
      var right := ExprAt(tokens, UnaryLevel, pos + 1, errors);
      if right.result.Unwind? then right
      else ParseOut(Built(Unary(tokens[pos], right.result.value)), right.pos, right.errors)
    else ExprAt(tokens, PrimaryLevel, pos, errors)
  }

  /** The token kinds an expression can start with at the `primary` level. */
  const PrimaryStarts: set<TokenType> := {False, True, Nil, Number, String, Identifier, LeftParen}

  /** `primary`: literals, variables and parenthesised expressions. */
  function PrimaryAt(tokens: seq<Token>, pos: nat, errors: seq<Diagnostic>): (r: ParseOut<Expr>)
    requires Wf(tokens, pos)
    ensures Moved(tokens, pos, errors, r)
    ensures r.result.Built? ==> r.pos > pos
    decreases |tokens| - pos, 1
  {
    if MatchAt(tokens, pos, {False}) then ParseOut(Built(Literal(BoolVal(false))), pos + 1, errors)
    else if MatchAt(tokens, pos, {True}) then ParseOut(Built(Literal(BoolVal(true))), pos + 1, errors)
    else if MatchAt(tokens, pos, {Nil}) then ParseOut(Built(Literal(NilVal)), pos + 1, errors)
    else if MatchAt(tokens, pos, {Number, String}) then ParseOut(Built(Literal(tokens[pos].literal)), pos + 1, errors)
    else if MatchAt(tokens, pos, {Identifier}) then ParseOut(Built(Variable(tokens[pos])), pos + 1, errors)
    else if MatchAt(tokens, pos, {LeftParen}) then
      var inner := ExprAt(tokens, AssignmentLevel, pos + 1, errors);
      if inner.result.Unwind? then inner
      else
        var close := Consume(tokens, inner.pos, inner.errors, RightParen, ExpectParenAfterExpression);
        if close.result.Unwind? then Rethrow(close)
        else ParseOut(Built(Grouping(inner.result.value)), close.pos, close.errors)
    else Fail(tokens, pos, errors, ExpectedExpression)
  }

  /** A binary level: one operand, then the loop. */
  function BinaryAt(tokens: seq<Token>, level: Level, pos: nat, errors: seq<Diagnostic>): (r: ParseOut<Expr>)
    requires Wf(tokens, pos) && IsBinaryLevel(level)
    ensures Moved(tokens, pos, errors, r)
    ensures r.result.Built? ==> r.pos > pos
    decreases |tokens| - pos, 3 * Height(level) + 1
  {
    var first := ExprAt(tokens, Next(level), pos, errors);
    if first.result.Unwind? then first
    else Fold(tokens, level, first.result.value, first.pos, first.errors)
  }

  /** The `while (match(...))` loop of a binary level, with `left` built so far. */
  function Fold(tokens: seq<Token>, level: Level, left: Expr, pos: nat, errors: seq<Diagnostic>): (r: ParseOut<Expr>)
    requires Wf(tokens, pos) && IsBinaryLevel(level)
    ensures Moved(tokens, pos, errors, r)
    decreases |tokens| - pos, 3 * Height(level)
  {
    if MatchAt(tokens, pos, Operators(level)) then
      var right := ExprAt(tokens, Next(level), pos + 1, errors);
      if right.result.Unwind? then right
      else Fold(tokens, level, Combine(level, left, tokens[pos], right.result.value), right.pos, right.errors)
    else ParseOut(Built(left), pos, errors)
  }

  // ------------------------------------------------------------ statements

  /** `expressionStatement`. */
  function ExpressionStatement(tokens: seq<Token>, pos: nat, errors: seq<Diagnostic>): (r: ParseOut<Stmt>)
    requires Wf(tokens, pos)
    ensures Moved(tokens, pos, errors, r)
    ensures r.result.Built? ==> r.pos > pos && r.result.value.ExpressionStmt?
    decreases |tokens| - pos, 30
  {
    var e := ExprAt(tokens, AssignmentLevel, pos, errors);
    if e.result.Unwind? then Rethrow(e)
    else
      var semi := Consume(tokens, e.pos, e.errors, Semicolon, ExpectSemicolonAfterExpression);
      if semi.result.Unwind? then Rethrow(semi)
      else ParseOut(Built(ExpressionStmt(e.result.value)), semi.pos, semi.errors)
  }

  /** `printStatement`, from the token after `print`. */
  function PrintStatement(tokens: seq<Token>, pos: nat, errors: seq<Diagnostic>): (r: ParseOut<Stmt>)
    requires Wf(tokens, pos)
    ensures Moved(tokens, pos, errors, r)
    ensures r.result.Built? ==> r.pos > pos && r.result.value.PrintStmt?
    decreases |tokens| - pos, 30
  {
    var e := ExprAt(tokens, AssignmentLevel, pos, errors);
    if e.result.Unwind? then Rethrow(e)
    else
      var semi := Consume(tokens, e.pos, e.errors, Semicolon, ExpectSemicolonAfterValue);
      if semi.result.Unwind? then Rethrow(semi)
      else ParseOut(Built(PrintStmt(e.result.value)), semi.pos, semi.errors)
  }

  /** `varDeclaration`, from the token after `var`. */
  function VarDeclaration(tokens: seq<Token>, pos: nat, errors: seq<Diagnostic>): (r: ParseOut<Stmt>)
    requires Wf(tokens, pos)
    ensures Moved(tokens, pos, errors, r)
    ensures r.result.Built? ==> r.pos > pos && r.result.value.VarStmt?
    decreases |tokens| - pos, 30
  {
    var name := Consume(tokens, pos, errors, Identifier, ExpectVariableName);
    if name.result.Unwind? then Rethrow(name)
    else
      var init :=
        if MatchAt(tokens, name.pos, {Equal}) then
          var e := ExprAt(tokens, AssignmentLevel, name.pos + 1, name.errors);
          if e.result.Unwind? then Rethrow(e) else ParseOut(Built(Some(e.result.value)), e.pos, e.errors)
        else ParseOut(Built(None), name.pos, name.errors);
      if init.result.Unwind? then Rethrow(init)
      else
        var semi := Consume(tokens, init.pos, init.errors, Semicolon, ExpectSemicolonAfterVar);
        if semi.result.Unwind? then Rethrow(semi)
        else ParseOut(Built(VarStmt(name.result.value, init.result.value)), semi.pos, semi.errors)
  }

  /** An optional expression, absent when the `terminator` comes next (the `for` clauses). */
  function OptionalExpr(tokens: seq<Token>, pos: nat, errors: seq<Diagnostic>, terminator: TokenType): (r: ParseOut<Option<Expr>>)
    requires Wf(tokens, pos)
    ensures Moved(tokens, pos, errors, r)
    ensures r.result.Built? && r.result.value.None? ==> r.pos == pos && r.errors == errors
    decreases |tokens| - pos, 27
  {
    if CheckAt(tokens, pos, terminator) then ParseOut(Built(None), pos, errors)
    else
      var e := ExprAt(tokens, AssignmentLevel, pos, errors);
      if e.result.Unwind? then Rethrow(e) else ParseOut(Built(Some(e.result.value)), e.pos, e.errors)
  }

  /** The initializer clause of `for`: `;`, a `var` declaration, or an expression statement. */
  function ForInitializer(tokens: seq<Token>, pos: nat, errors: seq<Diagnostic>): (r: ParseOut<Option<Stmt>>)
    requires Wf(tokens, pos)
    ensures Moved(tokens, pos, errors, r)
    ensures r.result.Built? ==> r.pos > pos
    decreases |tokens| - pos, 31
  {
    if MatchAt(tokens, pos, {Semicolon}) then ParseOut(Built(None), pos + 1, errors)
    else
      var s :=
        if MatchAt(tokens, pos, {Var}) then VarDeclaration(tokens, pos + 1, errors)
        else ExpressionStatement(tokens, pos, errors);
      if s.result.Unwind? then Rethrow(s) else ParseOut(Built(Some(s.result.value)), s.pos, s.errors)
  }

  /**
   * The loop a `for` statement stands for: the body followed by the
   * increment, repeated while the condition (`true` when absent) holds, after
   * the initializer. Each wrapper block is there only when its clause is.
   */
  function DesugarFor(init: Option<Stmt>, cond: Option<Expr>, incr: Option<Expr>, body: Stmt): (s: Stmt)
    ensures s.BlockStmt? <==> init.Some?
    ensures init.Some? ==> |s.statements| == 2 && s.statements[0] == init && s.statements[1].Some?
    ensures var loop := if init.Some? then s.statements[1].value else s;
      && loop.WhileStmt?
      && loop.condition == (if cond.Some? then cond.value else Literal(BoolVal(true)))
      && loop.body == (if incr.Some? then BlockStmt([Some(body), Some(ExpressionStmt(incr.value))]) else body)
  {
    var inner := if incr.Some? then BlockStmt([Some(body), Some(ExpressionStmt(incr.value))]) else body;
    var loop := WhileStmt(if cond.Some? then cond.value else Literal(BoolVal(true)), inner);
    if init.Some? then BlockStmt([init, Some(loop)]) else loop
  }

  /** The three clauses of a `for` header. */
  datatype ForHeader = ForHeader(initializer: Option<Stmt>, condition: Option<Expr>, increment: Option<Expr>)

  /** The header of `forStatement`, from the token after `for` through the `)`. */
  function ForClauses(tokens: seq<Token>, pos: nat, errors: seq<Diagnostic>): (r: ParseOut<ForHeader>)
    requires Wf(tokens, pos)
    ensures Moved(tokens, pos, errors, r)
    ensures r.result.Built? ==> r.pos > pos
    decreases |tokens| - pos, 28
  {
    var open := Consume(tokens, pos, errors, LeftParen, ExpectParenAfterFor);
    if open.result.Unwind? then Rethrow(open)
    else
      var init := ForInitializer(tokens, open.pos, open.errors);
      if init.result.Unwind? then Rethrow(init)
      else LoopClauses(tokens, init.result.value, init.pos, init.errors)
  }

  /** The condition and increment clauses of a `for` header, through the `)`. */
  function LoopClauses(tokens: seq<Token>, init: Option<Stmt>, pos: nat, errors: seq<Diagnostic>): (r: ParseOut<ForHeader>)
    requires Wf(tokens, pos)
    ensures Moved(tokens, pos, errors, r)
    ensures r.result.Built? ==> r.pos > pos && r.result.value.initializer == init
    decreases |tokens| - pos, 28
  {
    var cond := OptionalExpr(tokens, pos, errors, Semicolon);
    if cond.result.Unwind? then Rethrow(cond)
    else
      var semi := Consume(tokens, cond.pos, cond.errors, Semicolon, ExpectSemicolonAfterCondition);
      if semi.result.Unwind? then Rethrow(semi)
      else
        var incr := OptionalExpr(tokens, semi.pos, semi.errors, RightParen);
        if incr.result.Unwind? then Rethrow(incr)
        else
          var close := Consume(tokens, incr.pos, incr.errors, RightParen, ExpectParenAfterClauses);
          if close.result.Unwind? then Rethrow(close)
          else ParseOut(Built(ForHeader(init, cond.result.value, incr.result.value)), close.pos, close.errors)
  }

  /** `forStatement`, from the token after `for`: the header, the body, then the desugaring. */
  function ForStatement(tokens: seq<Token>, pos: nat, errors: seq<Diagnostic>): (r: ParseOut<Stmt>)
    requires Wf(tokens, pos)
    ensures Moved(tokens, pos, errors, r)
    ensures r.result.Built? ==> r.pos > pos && (r.result.value.WhileStmt? || r.result.value.BlockStmt?)
    decreases |tokens| - pos, 31
  {
    var header := ForClauses(tokens, pos, errors);
    if header.result.Unwind? then Rethrow(header)
    else
      var h := header.result.value;
      var body := Statement(tokens, header.pos, header.errors);
      if body.result.Unwind? then body
      else ParseOut(Built(DesugarFor(h.initializer, h.condition, h.increment, body.result.value)), body.pos, body.errors)
  }

  /** `ifStatement`, from the token after `if`: the parenthesised condition, then the branches. */
  function IfStatement(tokens: seq<Token>, pos: nat, errors: seq<Diagnostic>): (r: ParseOut<Stmt>)
    requires Wf(tokens, pos)
    ensures Moved(tokens, pos, errors, r)
    ensures r.result.Built? ==> r.pos > pos && r.result.value.IfStmt?
    ensures r.result.Built? && r.result.value.elseBranch.None? ==> !CheckAt(tokens, r.pos, Else)
    decreases |tokens| - pos, 31
  {
    var open := Consume(tokens, pos, errors, LeftParen, ExpectParenAfterIf);
    if open.result.Unwind? then Rethrow(open)
    else
      var cond := ExprAt(tokens, AssignmentLevel, open.pos, open.errors);
      if cond.result.Unwind? then Rethrow(cond)
      else
        var close := Consume(tokens, cond.pos, cond.errors, RightParen, ExpectParenAfterIfCondition);
        if close.result.Unwind? then Rethrow(close)
        else IfBranches(tokens, cond.result.value, close.pos, close.errors)
  }

  /** The then-branch of `ifStatement`, then its optional `else`. */
  function IfBranches(tokens: seq<Token>, condition: Expr, pos: nat, errors: seq<Diagnostic>): (r: ParseOut<Stmt>)
    requires Wf(tokens, pos)
    ensures Moved(tokens, pos, errors, r)
    ensures r.result.Built? ==> r.pos > pos && r.result.value.IfStmt? && r.result.value.condition == condition
    ensures r.result.Built? && r.result.value.elseBranch.None? ==> !CheckAt(tokens, r.pos, Else)
    decreases |tokens| - pos, 33
  {
    var then_ := Statement(tokens, pos, errors);
    if then_.result.Unwind? then then_
    else ElseClause(tokens, condition, then_.result.value, then_.pos, then_.errors)
  }

  /**
   * The optional `else` of `ifStatement`, after the then-branch: an `else`
   * right there belongs to this `if`, so it goes to the nearest one.
   */
  function ElseClause(tokens: seq<Token>, condition: Expr, thenBranch: Stmt, pos: nat, errors: seq<Diagnostic>): (r: ParseOut<Stmt>)
    requires Wf(tokens, pos)
    ensures Moved(tokens, pos, errors, r)
    ensures r.result.Built? ==> r.result.value.IfStmt? && r.result.value.condition == condition && r.result.value.thenBranch == thenBranch
    ensures r.result.Built? && r.result.value.elseBranch.None? ==> !CheckAt(tokens, r.pos, Else)
    decreases |tokens| - pos, 31
  {
    if MatchAt(tokens, pos, {Else}) then
      var else_ := Statement(tokens, pos + 1, errors);
      if else_.result.Unwind? then else_
      else ParseOut(Built(IfStmt(condition, thenBranch, Some(else_.result.value))), else_.pos, else_.errors)
    else ParseOut(Built(IfStmt(condition, thenBranch, None)), pos, errors)
  }

  /** `whileStatement`, from the token after `while`. */
  function WhileStatement(tokens: seq<Token>, pos: nat, errors: seq<Diagnostic>): (r: ParseOut<Stmt>)
    requires Wf(tokens, pos)
    ensures Moved(tokens, pos, errors, r)
    ensures r.result.Built? ==> r.pos > pos && r.result.value.WhileStmt?
    decreases |tokens| - pos, 31
  {
    var open := Consume(tokens, pos, errors, LeftParen, ExpectParenAfterWhile);
    if open.result.Unwind? then Rethrow(open)
    else
      var cond := ExprAt(tokens, AssignmentLevel, open.pos, open.errors);
      if cond.result.Unwind? then Rethrow(cond)
      else
        var close := Consume(tokens, cond.pos, cond.errors, RightParen, ExpectParenAfterCondition);
        if close.result.Unwind? then Rethrow(close)
        else
          var body := Statement(tokens, close.pos, close.errors);
          if body.result.Unwind? then body
          else ParseOut(Built(WhileStmt(cond.result.value, body.result.value)), body.pos, body.errors)
  }

  /**
   * `statement`. Only `ifStatement` builds an `If`, so an `If` without an
   * `else` is never followed by `else`.
   */
  function Statement(tokens: seq<Token>, pos: nat, errors: seq<Diagnostic>): (r: ParseOut<Stmt>)
    requires Wf(tokens, pos)
    ensures Moved(tokens, pos, errors, r)
    ensures r.result.Built? ==> r.pos > pos
    ensures r.result.Built? && r.result.value.IfStmt? && r.result.value.elseBranch.None? ==> !CheckAt(tokens, r.pos, Else)
    decreases |tokens| - pos, 32
  {
    if MatchAt(tokens, pos, {For}) then ForStatement(tokens, pos + 1, errors)
    else if MatchAt(tokens, pos, {If}) then IfStatement(tokens, pos + 1, errors)
    else if MatchAt(tokens, pos, {Print}) then PrintStatement(tokens, pos + 1, errors)
    else if MatchAt(tokens, pos, {While}) then WhileStatement(tokens, pos + 1, errors)
    else if MatchAt(tokens, pos, {LeftBrace}) then
      var b := Block(tokens, pos + 1, errors);
      if b.result.Unwind? then Rethrow(b) else ParseOut(Built(BlockStmt(b.result.value)), b.pos, b.errors)
    else ExpressionStatement(tokens, pos, errors)
  }

  /** The kinds `synchronize` stops in front of: the start of a declaration or statement. */
  const StatementStarts: set<TokenType> := {Class, Fun, Var, For, If, While, Print, Return}

  /** `synchronize`: skip one token, then up to just after `;`, just before a statement keyword, or EOF. */
  function Synchronize(tokens: seq<Token>, pos: nat): (q: nat)
    requires Wf(tokens, pos)
    ensures Wf(tokens, q) && pos <= q
    ensures !AtEnd(tokens, pos) ==> pos < q
  {
    SyncLoop(tokens, Advanced(tokens, pos))
  }

  /** The `while` loop of `synchronize`. */
  function SyncLoop(tokens: seq<Token>, p: nat): (q: nat)
    requires Wf(tokens, p) && (p >= 1 || AtEnd(tokens, p))
    ensures Wf(tokens, q) && p <= q
    decreases |tokens| - p
  {
    if AtEnd(tokens, p) then p
    else if tokens[p - 1].kind == Semicolon then p
    else if tokens[p].kind in StatementStarts then p
    else SyncLoop(tokens, p + 1)
  }

  /**
   * `declaration`: a `var` declaration or a statement; when either throws,
   * the exception is caught, the parser synchronises and the entry is
   * `null`. It never throws, and it consumes a token unless at EOF.
   */
  function Declaration(tokens: seq<Token>, pos: nat, errors: seq<Diagnostic>): (r: ParseOut<Option<Stmt>>)
    requires Wf(tokens, pos)
    ensures Moved(tokens, pos, errors, r) && r.result.Built?
    ensures !AtEnd(tokens, pos) ==> r.pos > pos
    ensures r.result.value.None? ==> |r.errors| > |errors|
    decreases |tokens| - pos, 33
  {
    var s := if MatchAt(tokens, pos, {Var}) then VarDeclaration(tokens, pos + 1, errors) else Statement(tokens, pos, errors);
    if s.result.Built? then ParseOut(Built(Some(s.result.value)), s.pos, s.errors)
    else ParseOut(Built(None), Synchronize(tokens, s.pos), s.errors)
  }

  /**
   * The `while` loop of `block`: declarations up to `}` or EOF, each added
   * after the `done` ones.
   */
  function BlockItems(tokens: seq<Token>, pos: nat, errors: seq<Diagnostic>, done: seq<Option<Stmt>>): (r: ParseOut<seq<Option<Stmt>>>)
    requires Wf(tokens, pos)
    ensures Moved(tokens, pos, errors, r) && r.result.Built?
    ensures CheckAt(tokens, r.pos, RightBrace) || AtEnd(tokens, r.pos)
    ensures done <= r.result.value
    decreases |tokens| - pos, 34
  {
    if CheckAt(tokens, pos, RightBrace) || AtEnd(tokens, pos) then ParseOut(Built(done), pos, errors)
    else
      var d := Declaration(tokens, pos, errors);
      BlockItems(tokens, d.pos, d.errors, done + [d.result.value])
  }

  /** `block`, from the token after `{`. */
  function Block(tokens: seq<Token>, pos: nat, errors: seq<Diagnostic>): (r: ParseOut<seq<Option<Stmt>>>)
    requires Wf(tokens, pos)
    ensures Moved(tokens, pos, errors, r)
    ensures r.result.Built? ==> r.pos > pos
    decreases |tokens| - pos, 35
  {
    var items := BlockItems(tokens, pos, errors, []);
    var close := Consume(tokens, items.pos, items.errors, RightBrace, ExpectBraceAfterBlock);
    if close.result.Unwind? then Rethrow(close) else ParseOut(Built(items.result.value), close.pos, close.errors)
  }

  /**
   * The `while` loop of `parse()`: declarations until EOF, each added after
   * the `done` ones. It never throws, always reaches the EOF token, and adds
   * at most one statement per token.
   */
  function Program(tokens: seq<Token>, pos: nat, errors: seq<Diagnostic>, done: seq<Option<Stmt>>): (r: ParseOut<seq<Option<Stmt>>>)
    requires Wf(tokens, pos)
    ensures Moved(tokens, pos, errors, r) && r.result.Built?
    ensures AtEnd(tokens, r.pos)
    ensures done <= r.result.value && |r.result.value| <= |done| + r.pos - pos
    decreases |tokens| - pos
  {
    if AtEnd(tokens, pos) then ParseOut(Built(done), pos, errors)
    else
      var d := Declaration(tokens, pos, errors);
      Program(tokens, d.pos, d.errors, done + [d.result.value])
  }
}
