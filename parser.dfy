/**
 * The recursive-descent parser (Interpreter/Parser.cs) as a class over the
 * token list with a mutable `current` index. `ParseException` becomes the
 * `Unwind` result, passed up by every method until `declaration` catches it;
 * `Lox.error` calls are appended to `errors`.
 *
 * Every method is proved to leave `current` and `errors`, and to return,
 * exactly what the rule of the same name in `ParseRules` gives from the
 * state it started in.
 */
module Parsing {
  import opened Util
  import opened Tokens
  import opened Errors
  import opened Ast
  import opened ParseRules

  class Parser {
    const tokens: seq<Token>
    var current: nat
    /** The `Lox.error` calls made so far, in order. */
    var errors: seq<Diagnostic>

    constructor(tokens: seq<Token>)
      requires EndsWithEof(tokens)
      ensures Wf(tokens, current) && this.tokens == tokens && current == 0 && errors == []
    {
      this.tokens := tokens;
      current := 0;
      errors := [];
    }

    /** `isAtEnd`: the cursor is at an EOF token, as it is at the last one. */
    predicate IsAtEnd()
      requires Wf(tokens, current)
      reads this
      ensures current == |tokens| - 1 ==> IsAtEnd()
      ensures !IsAtEnd() ==> current + 1 < |tokens|
    {
      AtEnd(tokens, current)
    }

    /** `peek`: the token at the cursor, EOF at the last position. */
    function Peek(): (t: Token)
      requires Wf(tokens, current)
      reads this
      ensures t == tokens[current]
      ensures current == |tokens| - 1 ==> t.kind == EOF
    {
      tokens[current]
    }

    /** `previous`: `ElementAt(current - 1)` throws at the first token, so callers have consumed one. */
    function Previous(): (t: Token)
      requires 0 < current <= |tokens|
      reads this
      ensures t == tokens[current - 1]
    {
      tokens[current - 1]
    }

    /** `check`: never true at EOF, so `check(EOF)` is always false. */
    predicate Check(kind: TokenType)
      requires Wf(tokens, current)
      reads this
      ensures Check(kind) ==> tokens[current].kind == kind && current + 1 < |tokens|
      ensures kind == EOF ==> !Check(kind)
    {
      CheckAt(tokens, current, kind)
    }

    /**
     * `advance`: steps over one token unless at EOF, and returns the token
     * before the cursor (so at the very first token it must step).
     */
    method Advance() returns (t: Token)
      requires Wf(tokens, current) && (current > 0 || !IsAtEnd())
      modifies this`current
      ensures Wf(tokens, current) && current == Advanced(tokens, old(current)) && current > 0
      ensures t == tokens[current - 1]
    {
      if !IsAtEnd() { current := current + 1; }
      return Previous();
    }

    /**
     * `match`: tries the kinds one by one and consumes the token on the
     * first that `check` accepts; on failure nothing is consumed. At most
     * one kind can be the current token's, so the order of the tries does
     * not change the outcome.
     */
    method Match(kinds: set<TokenType>) returns (m: bool)
      requires Wf(tokens, current)
      modifies this`current
      ensures Wf(tokens, current)
      ensures m == MatchAt(tokens, old(current), kinds)
      ensures current == if m then old(current) + 1 else old(current)
    {
      var untried := kinds;
      while untried != {}
        invariant untried <= kinds && current == old(current)
        invariant forall k :: k in kinds && k !in untried ==> !Check(k)
        decreases |untried|
      {
        var k :| k in untried;
        if Check(k) {
          var _ := Advance();
          return true;
        }
        untried := untried - {k};
      }
      return false;
    }

    /** `error`: the report; the caller throws the exception it returns. */
    method Error(token: Token, message: string)
      modifies this`errors
      ensures errors == old(errors) + [TokenError(token, message)]
    {
      errors := errors + [TokenError(token, message)];
    }

    method Consume(kind: TokenType, message: string) returns (r: Parsed<Token>)
      requires Wf(tokens, current)
      modifies this
      ensures Wf(tokens, current)
      ensures var o := ParseRules.Consume(tokens, old(current), old(errors), kind, message); r == o.result && current == o.pos && errors == o.errors
    {
      if Check(kind) {
        var t := Advance();
        return Built(t);
      }
      Error(Peek(), message);
      return Unwind;
    }

    method Synchronize()
      requires Wf(tokens, current) && (current > 0 || !IsAtEnd())
      modifies this`current
      ensures Wf(tokens, current) && current == ParseRules.Synchronize(tokens, old(current))
    {
      var _ := Advance();
      while !IsAtEnd()
        invariant Wf(tokens, current) && current > 0
        invariant SyncLoop(tokens, current) == ParseRules.Synchronize(tokens, old(current))
        decreases |tokens| - current
      {
        if Previous().kind == Semicolon { return; }
        if Peek().kind in StatementStarts { return; }
        var _ := Advance();
      }
    }

    // ---------------------------------------------------------- expressions

    /** `Parse()`: one expression, or `null` when it throws. */
    method ParseExpression() returns (e: Option<Expr>)
      requires Wf(tokens, current)
      modifies this
      ensures Wf(tokens, current)
      ensures var spec := ExprAt(tokens, AssignmentLevel, old(current), old(errors));
        && (e.Some? <==> spec.result.Built?) && (e.Some? ==> e.value == spec.result.value)
        && current == spec.pos && errors == spec.errors
    {
      var r := Expression();
      if r.Unwind? { return None; }
      return Some(r.value);
    }

    method Expression() returns (r: Parsed<Expr>)
      requires Wf(tokens, current)
      modifies this
      ensures Wf(tokens, current)
      ensures var o := ExprAt(tokens, AssignmentLevel, old(current), old(errors)); r == o.result && current == o.pos && errors == o.errors
      decreases |tokens| - current, 3 * Height(AssignmentLevel) + 3
    {
      r := Assignment();
    }

    method Assignment() returns (r: Parsed<Expr>)
      requires Wf(tokens, current)
      modifies this
      ensures Wf(tokens, current)
      ensures var o := ExprAt(tokens, AssignmentLevel, old(current), old(errors)); r == o.result && current == o.pos && errors == o.errors
      decreases |tokens| - current, 3 * Height(AssignmentLevel) + 2
    {
      var expr := Or();
      if expr.Unwind? { return Unwind; }
      var m := Match({Equal});
      if m {
        var equals := Previous();
        var value := Assignment();
        if value.Unwind? { return Unwind; }
        if expr.value.Variable? {
          return Built(Assign(expr.value.name, value.value));
        }
        Error(equals, InvalidAssignmentTarget);
      }
      return expr;
    }

    method Or() returns (r: Parsed<Expr>)
      requires Wf(tokens, current)
      modifies this
      ensures Wf(tokens, current)
      ensures var o := ExprAt(tokens, OrLevel, old(current), old(errors)); r == o.result && current == o.pos && errors == o.errors
      decreases |tokens| - current, 3 * Height(OrLevel) + 2
    {
      var first := And();
      if first.Unwind? { return Unwind; }
      var expr := first.value;
      while true
        invariant Wf(tokens, current)
        invariant var f, o := Fold(tokens, OrLevel, expr, current, errors), ExprAt(tokens, OrLevel, old(current), old(errors));
          f.result == o.result && f.pos == o.pos && f.errors == o.errors
        decreases |tokens| - current
      {
        var m := Match({TokenType.Or});
        if !m { return Built(expr); }
        var op := Previous();
        var right := And();
        if right.Unwind? { return Unwind; }
        expr := Logical(expr, op, right.value);
      }
    }

    method And() returns (r: Parsed<Expr>)
      requires Wf(tokens, current)
      modifies this
      ensures Wf(tokens, current)
      ensures var o := ExprAt(tokens, AndLevel, old(current), old(errors)); r == o.result && current == o.pos && errors == o.errors
      decreases |tokens| - current, 3 * Height(AndLevel) + 2
    {
      var first := Equality();
      if first.Unwind? { return Unwind; }
      var expr := first.value;
      while true
        invariant Wf(tokens, current)
        invariant var f, o := Fold(tokens, AndLevel, expr, current, errors), ExprAt(tokens, AndLevel, old(current), old(errors));
          f.result == o.result && f.pos == o.pos && f.errors == o.errors
        decreases |tokens| - current
      {
        var m := Match({TokenType.And});
        if !m { return Built(expr); }
        var op := Previous();
        var right := Equality();
        if right.Unwind? { return Unwind; }
        expr := Logical(expr, op, right.value);
      }
    }

    method Equality() returns (r: Parsed<Expr>)
      requires Wf(tokens, current)
      modifies this
      ensures Wf(tokens, current)
      ensures var o := ExprAt(tokens, EqualityLevel, old(current), old(errors)); r == o.result && current == o.pos && errors == o.errors
      decreases |tokens| - current, 3 * Height(EqualityLevel) + 2
    {
      var first := Comparison();
      if first.Unwind? { return Unwind; }
      var expr := first.value;
      while true
        invariant Wf(tokens, current)
        invariant var f, o := Fold(tokens, EqualityLevel, expr, current, errors), ExprAt(tokens, EqualityLevel, old(current), old(errors));
          f.result == o.result && f.pos == o.pos && f.errors == o.errors
        decreases |tokens| - current
      {
        var m := Match({BangEqual, EqualEqual});
        if !m { return Built(expr); }
        var op := Previous();
        var right := Comparison();
        if right.Unwind? { return Unwind; }
        expr := Binary(expr, op, right.value);
      }
    }

    method Comparison() returns (r: Parsed<Expr>)
      requires Wf(tokens, current)
      modifies this
      ensures Wf(tokens, current)
      ensures var o := ExprAt(tokens, ComparisonLevel, old(current), old(errors)); r == o.result && current == o.pos && errors == o.errors
      decreases |tokens| - current, 3 * Height(ComparisonLevel) + 2
    {
      var first := Term();
      if first.Unwind? { return Unwind; }
      var expr := first.value;
      while true
        invariant Wf(tokens, current)
        invariant var f, o := Fold(tokens, ComparisonLevel, expr, current, errors), ExprAt(tokens, ComparisonLevel, old(current), old(errors));
          f.result == o.result && f.pos == o.pos && f.errors == o.errors
        decreases |tokens| - current
      {
        var m := Match({Greater, GreaterEqual, Less, LessEqual});
        if !m { return Built(expr); }
        var op := Previous();
        var right := Term();
        if right.Unwind? { return Unwind; }
        expr := Binary(expr, op, right.value);
      }
    }

    method Term() returns (r: Parsed<Expr>)
      requires Wf(tokens, current)
      modifies this
      ensures Wf(tokens, current)
      ensures var o := ExprAt(tokens, TermLevel, old(current), old(errors)); r == o.result && current == o.pos && errors == o.errors
      decreases |tokens| - current, 3 * Height(TermLevel) + 2
    {
      var first := Factor();
      if first.Unwind? { return Unwind; }
      var expr := first.value;
      while true
        invariant Wf(tokens, current)
        invariant var f, o := Fold(tokens, TermLevel, expr, current, errors), ExprAt(tokens, TermLevel, old(current), old(errors));
          f.result == o.result && f.pos == o.pos && f.errors == o.errors
        decreases |tokens| - current
      {
        var m := Match({Minus, Plus});
        if !m { return Built(expr); }
        var op := Previous();
        var right := Factor();
        if right.Unwind? { return Unwind; }
        expr := Binary(expr, op, right.value);
      }
    }

    method Factor() returns (r: Parsed<Expr>)
      requires Wf(tokens, current)
      modifies this
      ensures Wf(tokens, current)
      ensures var o := ExprAt(tokens, FactorLevel, old(current), old(errors)); r == o.result && current == o.pos && errors == o.errors
      decreases |tokens| - current, 3 * Height(FactorLevel) + 2
    {
      var first := Unary();
      if first.Unwind? { return Unwind; }
      var expr := first.value;
      while true
        invariant Wf(tokens, current)
        invariant var f, o := Fold(tokens, FactorLevel, expr, current, errors), ExprAt(tokens, FactorLevel, old(current), old(errors));
          f.result == o.result && f.pos == o.pos && f.errors == o.errors
        decreases |tokens| - current
      {
        var m := Match({Slash, Star});
        if !m { return Built(expr); }
        var op := Previous();
        var right := Unary();
        if right.Unwind? { return Unwind; }
        expr := Binary(expr, op, right.value);
      }
    }

    method Unary() returns (r: Parsed<Expr>)
      requires Wf(tokens, current)
      modifies this
      ensures Wf(tokens, current)
      ensures var o := ExprAt(tokens, UnaryLevel, old(current), old(errors)); r == o.result && current == o.pos && errors == o.errors
      decreases |tokens| - current, 3 * Height(UnaryLevel) + 2
    {
      var m := Match({Bang, Minus});
      if m {
        var op := Previous();
        var right := Unary();
        if right.Unwind? { return Unwind; }
        return Built(Ast.Unary(op, right.value));
      }
      r := Primary();
    }

    method Primary() returns (r: Parsed<Expr>)
      requires Wf(tokens, current)
      modifies this
      ensures Wf(tokens, current)
      ensures var o := ExprAt(tokens, PrimaryLevel, old(current), old(errors)); r == o.result && current == o.pos && errors == o.errors
      decreases |tokens| - current, 3 * Height(PrimaryLevel) + 2
    {
      var m := Match({False});
      if m { return Built(Literal(BoolVal(false))); }
      m := Match({True});
      if m { return Built(Literal(BoolVal(true))); }
      m := Match({Nil});
      if m { return Built(Literal(NilVal)); }
      m := Match({Number, String});
      if m { return Built(Literal(Previous().literal)); }
      m := Match({Identifier});
      if m { return Built(Variable(Previous())); }
      m := Match({LeftParen});
      if m {
        var expr := Expression();
        if expr.Unwind? { return Unwind; }
        var close := Consume(RightParen, ExpectParenAfterExpression);
        if close.Unwind? { return Unwind; }
        return Built(Grouping(expr.value));
      }
      Error(Peek(), ExpectedExpression);
      return Unwind;
    }

    // ---------------------------------------------------------- statements

    /** `parse()`: the program's declarations, a `null` entry for each one that threw. */
    method ParseProgram() returns (statements: seq<Option<Stmt>>)
      requires Wf(tokens, current)
      modifies this
      ensures Wf(tokens, current)
      ensures var o := Program(tokens, old(current), old(errors), []); Built(statements) == o.result && current == o.pos && errors == o.errors
    {
      statements := [];
      while !IsAtEnd()
        invariant Wf(tokens, current)
        invariant var o, rest := Program(tokens, old(current), old(errors), []), Program(tokens, current, errors, statements);
          o.result == rest.result && o.pos == rest.pos && o.errors == rest.errors
        decreases |tokens| - current
      {
        var d := Declaration();
        statements := statements + [d];
      }
    }

    method Declaration() returns (r: Option<Stmt>)
      requires Wf(tokens, current) && !IsAtEnd()
      modifies this
      ensures Wf(tokens, current)
      ensures var o := ParseRules.Declaration(tokens, old(current), old(errors)); Built(r) == o.result && current == o.pos && errors == o.errors
      decreases |tokens| - current, 33
    {
      var m := Match({Var});
      var s;
      if m {
        s := VarDeclaration();
      } else {
        s := Statement();
      }
      if s.Built? { return Some(s.value); }
      // the `catch`: skip to a statement boundary, leave a `null` entry
      Synchronize();
      return None;
    }

    method Statement() returns (r: Parsed<Stmt>)
      requires Wf(tokens, current)
      modifies this
      ensures Wf(tokens, current)
      ensures var o := ParseRules.Statement(tokens, old(current), old(errors)); r == o.result && current == o.pos && errors == o.errors
      decreases |tokens| - current, 32
    {
      var m := Match({For});
      if m { r := ForStatement(); return; }
      m := Match({If});
      if m { r := IfStatement(); return; }
      m := Match({Print});
      if m { r := PrintStatement(); return; }
      m := Match({While});
      if m { r := WhileStatement(); return; }
      m := Match({LeftBrace});
      if m {
        var b := Block();
        if b.Unwind? { return Unwind; }
        return Built(BlockStmt(b.value));
      }
      r := ExpressionStatement();
    }

    /** `forStatement`, from the token after `for`: the header, the body, then the desugaring. */
    method ForStatement() returns (r: Parsed<Stmt>)
      requires Wf(tokens, current)
      modifies this
      ensures Wf(tokens, current)
      ensures var o := ParseRules.ForStatement(tokens, old(current), old(errors)); r == o.result && current == o.pos && errors == o.errors
      decreases |tokens| - current, 31
    {
      var header := ForClauses();
      if header.Unwind? { return Unwind; }
      var body := Statement();
      if body.Unwind? { return Unwind; }
      var h := header.value;
      return Built(DesugarFor(h.initializer, h.condition, h.increment, body.value));
    }

    /** The header part of `forStatement`, through the `)`. */
    method ForClauses() returns (r: Parsed<ForHeader>)
      requires Wf(tokens, current)
      modifies this
      ensures Wf(tokens, current)
      ensures var o := ParseRules.ForClauses(tokens, old(current), old(errors)); r == o.result && current == o.pos && errors == o.errors
      decreases |tokens| - current, 28
    {
      var open := Consume(LeftParen, ExpectParenAfterFor);
      if open.Unwind? { return Unwind; }
      var initializer := ForInitializer();
      if initializer.Unwind? { return Unwind; }
      ghost var afterInit, errorsAfterInit := current, errors;

      var condition: Option<Expr> := None;
      if !Check(Semicolon) {
        var c := Expression();
        if c.Unwind? { return Unwind; }
        condition := Some(c.value);
      }
      assert var o := OptionalExpr(tokens, afterInit, errorsAfterInit, Semicolon); Built(condition) == o.result && current == o.pos && errors == o.errors;
      var semi := Consume(Semicolon, ExpectSemicolonAfterCondition);
      if semi.Unwind? { return Unwind; }
      ghost var afterSemi, errorsAfterSemi := current, errors;

      var increment: Option<Expr> := None;
      if !Check(RightParen) {
        var i := Expression();
        if i.Unwind? { return Unwind; }
        increment := Some(i.value);
      }
      assert var o := OptionalExpr(tokens, afterSemi, errorsAfterSemi, RightParen); Built(increment) == o.result && current == o.pos && errors == o.errors;
      var close := Consume(RightParen, ExpectParenAfterClauses);
      if close.Unwind? { return Unwind; }
      return Built(ForHeader(initializer.value, condition, increment));
    }

    /** The initializer clause of `forStatement`: `;`, a `var` declaration or an expression statement. */
    method ForInitializer() returns (r: Parsed<Option<Stmt>>)
      requires Wf(tokens, current)
      modifies this
      ensures Wf(tokens, current)
      ensures var o := ParseRules.ForInitializer(tokens, old(current), old(errors)); r == o.result && current == o.pos && errors == o.errors
      decreases |tokens| - current, 31
    {
      var m := Match({Semicolon});
      if m { return Built(None); }
      m := Match({Var});
      var s;
      if m {
        s := VarDeclaration();
      } else {
        s := ExpressionStatement();
      }
      if s.Unwind? { return Unwind; }
      return Built(Some(s.value));
    }

    /** `ifStatement`, from the token after `if`. */
    method IfStatement() returns (r: Parsed<Stmt>)
      requires Wf(tokens, current)
      modifies this
      ensures Wf(tokens, current)
      ensures var o := ParseRules.IfStatement(tokens, old(current), old(errors)); r == o.result && current == o.pos && errors == o.errors
      decreases |tokens| - current, 31
    {
      var open := Consume(LeftParen, ExpectParenAfterIf);
      if open.Unwind? { return Unwind; }
      var condition := Expression();
      if condition.Unwind? { return Unwind; }
      var close := Consume(RightParen, ExpectParenAfterIfCondition);
      if close.Unwind? { return Unwind; }
      var thenBranch := Statement();
      if thenBranch.Unwind? { return Unwind; }
      r := ElseClause(condition.value, thenBranch.value);
    }

    /** The optional `else` part of `ifStatement`, after the then-branch. */
    method ElseClause(condition: Expr, thenBranch: Stmt) returns (r: Parsed<Stmt>)
      requires Wf(tokens, current)
      modifies this
      ensures Wf(tokens, current)
      ensures var o := ParseRules.ElseClause(tokens, condition, thenBranch, old(current), old(errors)); r == o.result && current == o.pos && errors == o.errors
      decreases |tokens| - current, 31
    {
      var m := Match({Else});
      if !m { return Built(IfStmt(condition, thenBranch, None)); }
      var elseBranch := Statement();
      if elseBranch.Unwind? { return Unwind; }
      return Built(IfStmt(condition, thenBranch, Some(elseBranch.value)));
    }

    method PrintStatement() returns (r: Parsed<Stmt>)
      requires Wf(tokens, current)
      modifies this
      ensures Wf(tokens, current)
      ensures var o := ParseRules.PrintStatement(tokens, old(current), old(errors)); r == o.result && current == o.pos && errors == o.errors
      decreases |tokens| - current, 30
    {
      var value := Expression();
      if value.Unwind? { return Unwind; }
      var semi := Consume(Semicolon, ExpectSemicolonAfterValue);
      if semi.Unwind? { return Unwind; }
      return Built(PrintStmt(value.value));
    }

    method VarDeclaration() returns (r: Parsed<Stmt>)
      requires Wf(tokens, current)
      modifies this
      ensures Wf(tokens, current)
      ensures var o := ParseRules.VarDeclaration(tokens, old(current), old(errors)); r == o.result && current == o.pos && errors == o.errors
      decreases |tokens| - current, 30
    {
      var name := Consume(Identifier, ExpectVariableName);
      if name.Unwind? { return Unwind; }
      var initializer: Option<Expr> := None;
      var m := Match({Equal});
      if m {
        var e := Expression();
        if e.Unwind? { return Unwind; }
        initializer := Some(e.value);
      }
      var semi := Consume(Semicolon, ExpectSemicolonAfterVar);
      if semi.Unwind? { return Unwind; }
      return Built(VarStmt(name.value, initializer));
    }

    method WhileStatement() returns (r: Parsed<Stmt>)
      requires Wf(tokens, current)
      modifies this
      ensures Wf(tokens, current)
      ensures var o := ParseRules.WhileStatement(tokens, old(current), old(errors)); r == o.result && current == o.pos && errors == o.errors
      decreases |tokens| - current, 31
    {
      var open := Consume(LeftParen, ExpectParenAfterWhile);
      if open.Unwind? { return Unwind; }
      var condition := Expression();
      if condition.Unwind? { return Unwind; }
      var close := Consume(RightParen, ExpectParenAfterCondition);
      if close.Unwind? { return Unwind; }
      var body := Statement();
      if body.Unwind? { return Unwind; }
      return Built(WhileStmt(condition.value, body.value));
    }

    method ExpressionStatement() returns (r: Parsed<Stmt>)
      requires Wf(tokens, current)
      modifies this
      ensures Wf(tokens, current)
      ensures var o := ParseRules.ExpressionStatement(tokens, old(current), old(errors)); r == o.result && current == o.pos && errors == o.errors
      decreases |tokens| - current, 30
    {
      var expr := Expression();
      if expr.Unwind? { return Unwind; }
      var semi := Consume(Semicolon, ExpectSemicolonAfterExpression);
      if semi.Unwind? { return Unwind; }
      return Built(ExpressionStmt(expr.value));
    }

    /** `block`, after the `{`: declarations up to `}` or EOF, then the `}`. */
    method Block() returns (r: Parsed<seq<Option<Stmt>>>)
      requires Wf(tokens, current)
      modifies this
      ensures Wf(tokens, current)
      ensures var o := ParseRules.Block(tokens, old(current), old(errors)); r == o.result && current == o.pos && errors == o.errors
      decreases |tokens| - current, 35
    {
      var statements: seq<Option<Stmt>> := [];
      while !Check(RightBrace) && !IsAtEnd()
        invariant Wf(tokens, current)
        invariant var o, rest := BlockItems(tokens, old(current), old(errors), []), BlockItems(tokens, current, errors, statements);
          o.result == rest.result && o.pos == rest.pos && o.errors == rest.errors
        decreases |tokens| - current
      {
        var d := Declaration();
        statements := statements + [d];
      }
      var close := Consume(RightBrace, ExpectBraceAfterBlock);
      if close.Unwind? { return Unwind; }
      return Built(statements);
    }
  }
}
