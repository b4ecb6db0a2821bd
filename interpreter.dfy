/**
 * The tree-walking evaluator (Interpreter/Interpreter.cs).
 *
 * `Eval`, `Exec` and `ExecList` are the reference semantics: they take an
 * environment chain as `Scopes` and the text written so far to standard
 * output, and return the outcome together with the new chain and the new
 * output. The `Interpreter` class keeps the source's structure (a current
 * `Environment` that a block swaps out and restores) and each of its methods
 * is proved to compute exactly what the reference semantics says.
 *
 * Exceptions become results. `Throw` is the `RuntimeException` that
 * `interpret` catches; `NotImplemented` and `NullStatement` are the .NET
 * exceptions nobody catches. A `while` loop can run forever, so the reference
 * semantics takes a fuel bound on the number of loop iterations and stops
 * with `OutOfFuel` when it is used up.
 */
module Interpreting {
  import opened Util
  import opened Tokens
  import opened Errors
  import opened Ast
  import opened Environments
  import opened Terminal

  /**
   * IEEE double addition, subtraction, multiplication and division (with
   * their rounding) and `double.ToString`, which the model does not fix.
   * Comparisons and negation are exact on doubles and use the reals directly.
   */
  datatype NumOps = NumOps(
    add: (real, real) -> real,
    subtract: (real, real) -> real,
    multiply: (real, real) -> real,
    divide: (real, real) -> real,
    toText: real -> string)

  /** Why execution stopped early. */
  datatype Signal =
    | Throw(error: RuntimeError)
    | NotImplemented(visitorMethod: string)
    | NullStatement
    | OutOfFuel

  datatype Res<T> = Ok(value: T) | Err(signal: Signal)

  datatype EvalOut = EvalOut(result: Res<Value>, scopes: Scopes)
  datatype State = State(scopes: Scopes, out: string)
  /** How a statement ends: normally, or abruptly with the signal that stops the rest. */
  datatype Outcome = Normal | Abrupt(signal: Signal)

  datatype ExecOut = ExecOut(result: Outcome, state: State)

  /**
   * The visitor methods the `Interpreter` class declares. The logical
   * operator's method is spelt `VisitlogicalExpr`, which does not match the
   * interface's `VisitLogicalExpr`, so `and`/`or` reach the throwing default.
   */
  const InterpreterExprMethods: set<string> :=
    {"VisitBinaryExpr", "VisitGroupingExpr", "VisitLiteralExpr", "VisitlogicalExpr",
     "VisitUnaryExpr", "VisitVariableExpr", "VisitAssignExpr"}

  const InterpreterStmtMethods: set<string> :=
    {"VisitBlockStmt", "VisitExpressionStmt", "VisitIfStmt", "VisitPrintStmt",
     "VisitVarStmt", "VisitWhileStmt"}


  // ------------------------------------------------------------ values

  /** `isTruthy`: `nil` and `false` are falsey, a string is truthy only when it is empty. */
  predicate IsTruthy(v: Value) {
    match v
    case NilVal => false
    case BoolVal(b) => b
    case StrVal(s) => s == ""
    case NumVal(_) => true
  }

  /**
   * The values `isTruthy` accepts: `true`, every number, and the empty string;
   * so `nil`, `false` and every non-empty string are falsey.
   */
  lemma Truthiness(v: Value)
    ensures IsTruthy(v) <==> v == BoolVal(true) || v.NumVal? || v == StrVal("")
    ensures !IsTruthy(NilVal) && !IsTruthy(BoolVal(false)) && !IsTruthy(StrVal("lox")) && IsTruthy(NumVal(0.0))
  {
  }

  /** `isEqual`: `nil` equals only `nil`; otherwise `a.Equals(b)`. */
  predicate IsEqual(a: Value, b: Value)
    ensures IsEqual(a, b) <==> a == b
  {
    if a.NilVal? && b.NilVal? then true
    else if a.NilVal? then false
    else ObjectEquals(a, b)
  }

  /** `object.Equals` on a non-null boxed value: same type and same content. */
  predicate ObjectEquals(a: Value, b: Value)
    requires !a.NilVal?
  {
    match a
    case BoolVal(x) => b.BoolVal? && b.b == x
    case NumVal(x) => b.NumVal? && b.n == x
    case StrVal(x) => b.StrVal? && b.s == x
  }

  predicate EndsWith(s: string, suffix: string) {
    |suffix| <= |s| && s[|s| - |suffix|..] == suffix
  }

  /** `stringify`: how `print` shows a value. */
  function Stringify(ops: NumOps, v: Value): (s: string)
    ensures v.NilVal? ==> s == "nil"
    ensures v.BoolVal? ==> s == (if v.b then "True" else "False")
    ensures v.StrVal? ==> s == v.s
    ensures v.NumVal? ==> s == ops.toText(v.n) || ops.toText(v.n) == s + ".0"
  {
    match v
    case NilVal => "nil"
    case NumVal(n) =>
      var text := ops.toText(n);
      if EndsWith(text, ".0") then text[..|text| - 2] else text
    case BoolVal(b) => if b then "True" else "False"
    case StrVal(s) => s
  }

  // ------------------------------------------------------------ operators

  /** The operators that go through `checkNumberOperands`. */
  const NumericOperators: set<TokenType> :=
    {Greater, GreaterEqual, Less, LessEqual, Minus, Slash, Star}

  function NumbersError(op: Token): Signal {
    Throw(RuntimeError(op, "Operant must be numbers."))
  }

  /** The `switch` of `VisitBinaryExpr`, applied to the two evaluated operands. */
  function BinaryOp(ops: NumOps, op: Token, left: Value, right: Value): (r: Res<Value>)
    ensures op.kind in NumericOperators ==>
      (r.Err? <==> !(left.NumVal? && right.NumVal?)) && (r.Err? ==> r.signal == NumbersError(op))
    ensures op.kind == Greater && r.Ok? ==> r.value == BoolVal(left.n > right.n)
    ensures op.kind == GreaterEqual && r.Ok? ==> r.value == BoolVal(left.n >= right.n)
    ensures op.kind == Less && r.Ok? ==> r.value == BoolVal(left.n < right.n)
    ensures op.kind == LessEqual && r.Ok? ==> r.value == BoolVal(left.n <= right.n)
    ensures op.kind == Minus && r.Ok? ==> r.value == NumVal(ops.subtract(left.n, right.n))
    ensures op.kind == Star && r.Ok? ==> r.value == NumVal(ops.multiply(left.n, right.n))
    ensures op.kind == Slash && r.Ok? ==> r.value == NumVal(ops.divide(left.n, right.n))
    ensures op.kind == Plus ==>
      && (r.Ok? <==> (left.NumVal? && right.NumVal?) || (left.StrVal? && right.StrVal?))
      && (left.NumVal? && right.NumVal? ==> r == Ok(NumVal(ops.add(left.n, right.n))))
      && (left.StrVal? && right.StrVal? ==> r == Ok(StrVal(left.s + right.s)))
      && (r.Err? ==> r.signal == Throw(RuntimeError(op, "Operants must be two number or two strings.")))
    ensures op.kind == BangEqual ==> r == Ok(BoolVal(left != right))
    ensures op.kind == Bang ==> r == Ok(BoolVal(left == right))
    ensures op.kind !in NumericOperators + {Plus, BangEqual, Bang} ==> r == Ok(NilVal)
  {
    var numbers := left.NumVal? && right.NumVal?;
    match op.kind
    case Greater => if numbers then Ok(BoolVal(left.n > right.n)) else Err(NumbersError(op))
    case GreaterEqual => if numbers then Ok(BoolVal(left.n >= right.n)) else Err(NumbersError(op))
    case Less => if numbers then Ok(BoolVal(left.n < right.n)) else Err(NumbersError(op))
    case LessEqual => if numbers then Ok(BoolVal(left.n <= right.n)) else Err(NumbersError(op))
    case Minus => if numbers then Ok(NumVal(ops.subtract(left.n, right.n))) else Err(NumbersError(op))
    case Plus =>
      if numbers then Ok(NumVal(ops.add(left.n, right.n)))
      else if left.StrVal? && right.StrVal? then Ok(StrVal(left.s + right.s))
      else Err(Throw(RuntimeError(op, "Operants must be two number or two strings.")))
    case Slash => if numbers then Ok(NumVal(ops.divide(left.n, right.n))) else Err(NumbersError(op))
    case Star => if numbers then Ok(NumVal(ops.multiply(left.n, right.n))) else Err(NumbersError(op))
    case BangEqual => Ok(BoolVal(!IsEqual(left, right)))
    case Bang => Ok(BoolVal(IsEqual(left, right)))
    case _ => Ok(NilVal)
  }

  /** The `switch` of `VisitUnaryExpr`, applied to the evaluated operand. */
  function UnaryOp(op: Token, right: Value): (r: Res<Value>)
    ensures op.kind == Bang ==> r == Ok(BoolVal(!IsTruthy(right)))
    ensures op.kind == Minus ==>
      (r.Ok? <==> right.NumVal?) &&
      (r.Ok? ==> r.value == NumVal(-right.n)) &&
      (r.Err? ==> r.signal == Throw(RuntimeError(op, "Operand must be a number.")))
    ensures op.kind != Bang && op.kind != Minus ==> r == Ok(NilVal)
  {
    match op.kind
    case Bang => Ok(BoolVal(!IsTruthy(right)))
    case Minus =>
      if right.NumVal? then Ok(NumVal(-right.n))
      else Err(Throw(RuntimeError(op, "Operand must be a number.")))
    case _ => Ok(NilVal)
  }

  // ------------------------------------------------------------ expressions

  /** The chain keeps its depth and every scope keeps its names. */
  ghost predicate SameShape(before: Scopes, after: Scopes) {
    |after| == |before| && forall j :: 0 <= j < |before| ==> after[j].Keys == before[j].Keys
  }

  /**
   * `evaluate`: dispatch on the node through `Accept`, operands left to
   * right. Only assignment changes the chain, and only the values it holds
   * (`EvalKeepsShape`).
   */
  function Eval(ops: NumOps, e: Expr, scopes: Scopes): (r: EvalOut)
    ensures |r.scopes| == |scopes|
  {
    match e
      case Literal(v) => EvalOut(Ok(v), scopes)
      case Grouping(x) => Eval(ops, x, scopes)
      case Unary(op, x) =>
        var o := Eval(ops, x, scopes);
        if o.result.Err? then o else EvalOut(UnaryOp(op, o.result.value), o.scopes)
      case Binary(l, op, x) =>
        var lo := Eval(ops, l, scopes);
        if lo.result.Err? then lo
        else
          var ro := Eval(ops, x, lo.scopes);
          if ro.result.Err? then ro
          else EvalOut(BinaryOp(ops, op, lo.result.value, ro.result.value), ro.scopes)
      case Variable(name) =>
        (match Lookup(scopes, name.lexeme)
         case Some(v) => EvalOut(Ok(v), scopes)
         case None => EvalOut(Err(Throw(UndefinedVariable(name))), scopes))
      case Assign(name, x) =>
        var o := Eval(ops, x, scopes);
        if o.result.Err? then o
        else
          (match AssignIn(o.scopes, name.lexeme, o.result.value)
           case Some(after) => EvalOut(o.result, after)
           case None => EvalOut(Err(Throw(UndefinedVariable(name))), o.scopes))
      // the interface's default body (see InterpreterMissesOnlyLogical)
      case Logical(_, _, _) => EvalOut(Err(NotImplemented(ExprAccept(e))), scopes)
  }

  /**
   * `VisitlogicalExpr`, the short-circuiting code the interpreter has for
   * `and`/`or` but never reaches (see `InterpreterExprMethods`).
   */
  function EvalLogical(ops: NumOps, left: Expr, op: Token, right: Expr, scopes: Scopes): (r: EvalOut)
    ensures |r.scopes| == |scopes|
    ensures var lo := Eval(ops, left, scopes);
      lo.result.Ok? && ((op.kind == Or) == IsTruthy(lo.result.value)) ==> r == lo
    ensures var lo := Eval(ops, left, scopes);
      lo.result.Ok? && ((op.kind == Or) != IsTruthy(lo.result.value)) ==> r == Eval(ops, right, lo.scopes)
  {
    var lo := Eval(ops, left, scopes);
    if lo.result.Err? then lo
    else if op.kind == Or then
      (if IsTruthy(lo.result.value) then lo else Eval(ops, right, lo.scopes))
    else
      (if !IsTruthy(lo.result.value) then lo else Eval(ops, right, lo.scopes))
  }

  // ------------------------------------------------------------ statements

  /** The chain keeps its depth, the outer scopes keep their names, the innermost may gain some. */
  ghost predicate Extends(before: State, after: State) {
    && |after.scopes| == |before.scopes|
    && (|before.scopes| > 0 ==> before.scopes[0].Keys <= after.scopes[0].Keys)
    && (forall j :: 1 <= j < |before.scopes| ==> after.scopes[j].Keys == before.scopes[j].Keys)
    && before.out <= after.out
  }

  function Discard(r: Res<Value>): Outcome {
    if r.Err? then Abrupt(r.signal) else Normal
  }

  /**
   * `execute`: what running one statement does to the chain and to the
   * output. `fuel` bounds the number of `while` iterations.
   */
  function Exec(ops: NumOps, s: Stmt, st: State, fuel: nat): (r: ExecOut)
    requires |st.scopes| > 0
    ensures |r.state.scopes| == |st.scopes|
    decreases fuel, StmtSize(s), 1
  {
    match s
      case ExpressionStmt(e) =>
        var o := Eval(ops, e, st.scopes);
        ExecOut(Discard(o.result), State(o.scopes, st.out))
      case PrintStmt(e) =>
        var o := Eval(ops, e, st.scopes);
        if o.result.Err? then ExecOut(Abrupt(o.result.signal), State(o.scopes, st.out))
        else ExecOut(Normal, State(o.scopes, st.out + Stringify(ops, o.result.value) + "\n"))
      case VarStmt(name, init) =>
        if init.None? then ExecOut(Normal, State(DefineIn(st.scopes, name.lexeme, NilVal), st.out))
        else
          var o := Eval(ops, init.value, st.scopes);
          if o.result.Err? then ExecOut(Abrupt(o.result.signal), State(o.scopes, st.out))
          else ExecOut(Normal, State(DefineIn(o.scopes, name.lexeme, o.result.value), st.out))
      case BlockStmt(ss) =>
        var o := ExecList(ops, ss, State([map[]] + st.scopes, st.out), fuel);
        ExecOut(o.result, State(o.state.scopes[1..], o.state.out))
      case IfStmt(c, t, e) =>
        var o := Eval(ops, c, st.scopes);
        var st1 := State(o.scopes, st.out);
        if o.result.Err? then ExecOut(Abrupt(o.result.signal), st1)
        else if IsTruthy(o.result.value) then Exec(ops, t, st1, fuel)
        else if e.Some? then
          assert OptSize(e) == 1 + StmtSize(e.value);
          Exec(ops, e.value, st1, fuel)
        else ExecOut(Normal, st1)
      case WhileStmt(c, body) => ExecWhile(ops, c, body, st, fuel)
  }

  /** `VisitWhileStmt`: each iteration tests the condition and runs the body, using one unit of fuel. */
  function ExecWhile(ops: NumOps, c: Expr, body: Stmt, st: State, fuel: nat): (r: ExecOut)
    requires |st.scopes| > 0
    ensures |r.state.scopes| == |st.scopes|
    decreases fuel, StmtSize(WhileStmt(c, body)), 0
  {
    if fuel == 0 then ExecOut(Abrupt(OutOfFuel), st)
    else
      var o := Eval(ops, c, st.scopes);
      var st1 := State(o.scopes, st.out);
      if o.result.Err? then ExecOut(Abrupt(o.result.signal), st1)
      else if !IsTruthy(o.result.value) then ExecOut(Normal, st1)
      else AfterBody(ops, c, body, Exec(ops, body, st1, fuel - 1), fuel - 1)
  }

  /** What follows a run `b` of the body: stop if it was abrupt, otherwise test the condition again. */
  function AfterBody(ops: NumOps, c: Expr, body: Stmt, b: ExecOut, fuel: nat): (r: ExecOut)
    requires |b.state.scopes| > 0
    ensures |r.state.scopes| == |b.state.scopes|
    decreases fuel, StmtSize(WhileStmt(c, body)), 1
  {
    if b.result.Abrupt? then b else ExecWhile(ops, c, body, b.state, fuel)
  }

  /** The statements in order, stopping at the first one that does not complete. */
  function ExecList(ops: NumOps, ss: seq<Option<Stmt>>, st: State, fuel: nat): (r: ExecOut)
    requires |st.scopes| > 0
    ensures |r.state.scopes| == |st.scopes|
    decreases fuel, ListSize(ss), 2
  {
    if |ss| == 0 then ExecOut(Normal, st)
    else
      match ss[0]
      case None => ExecOut(Abrupt(NullStatement), st)
      case Some(s) =>
        assert ListSize(ss) == 1 + StmtSize(s) + ListSize(ss[1..]);
        var o := Exec(ops, s, st, fuel);
        if o.result.Abrupt? then o else ExecList(ops, ss[1..], o.state, fuel)
  }

  // ------------------------------------------------------------ properties

  /**
   * `Eval` and `Exec` dispatch on the node directly. This is what `Accept`
   * does given the methods the class declares: every expression but
   * `and`/`or` reaches the interpreter's own code, and those reach the
   * default body, whose exception names the interface method.
   */
  lemma InterpreterMissesOnlyLogical(ops: NumOps, e: Expr, scopes: Scopes)
    ensures OverridesExpr(InterpreterExprMethods, e) <==> !e.Logical?
    ensures !OverridesExpr(InterpreterExprMethods, e) ==>
      Eval(ops, e, scopes) == EvalOut(Err(NotImplemented(ExprAccept(e))), scopes)
  {
  }

  /** Every statement reaches the interpreter's own code. */
  lemma InterpreterHandlesEveryStmt(s: Stmt)
    ensures OverridesStmt(InterpreterStmtMethods, s)
  {
  }

  /** `and`/`or` never evaluate anything: they always end in the default method's exception. */
  lemma LogicalAlwaysCrashes(ops: NumOps, l: Expr, op: Token, r: Expr, scopes: Scopes)
    ensures Eval(ops, Logical(l, op, r), scopes) == EvalOut(Err(NotImplemented("VisitLogicalExpr")), scopes)
  {
  }

  /** The left operand is evaluated first: its error pre-empts the right operand and the operator. */
  lemma LeftOperandFirst(ops: NumOps, l: Expr, op: Token, r: Expr, scopes: Scopes)
    ensures Eval(ops, l, scopes).result.Err? ==> Eval(ops, Binary(l, op, r), scopes) == Eval(ops, l, scopes)
    ensures Eval(ops, l, scopes).result.Ok? && Eval(ops, r, Eval(ops, l, scopes).scopes).result.Err? ==>
      Eval(ops, Binary(l, op, r), scopes) == Eval(ops, r, Eval(ops, l, scopes).scopes)
  {
  }

  /** `==` has no case in `VisitBinaryExpr`: two operands that evaluate give `nil`. */
  lemma EqualEqualIsNil(ops: NumOps, l: Expr, op: Token, r: Expr, scopes: Scopes)
    requires op.kind == EqualEqual
    requires Eval(ops, l, scopes).result.Ok? && Eval(ops, r, Eval(ops, l, scopes).scopes).result.Ok?
    ensures Eval(ops, Binary(l, op, r), scopes).result == Ok(NilVal)
  {
  }

  /** An assignment yields the value it stores, and a later read of the name finds it. */
  lemma AssignYieldsValue(ops: NumOps, name: Token, x: Expr, scopes: Scopes)
    requires Eval(ops, x, scopes).result.Ok? && Lookup(Eval(ops, x, scopes).scopes, name.lexeme).Some?
    ensures var v := Eval(ops, x, scopes).result.value;
      var o := Eval(ops, Assign(name, x), scopes);
      o.result == Ok(v) && Lookup(o.scopes, name.lexeme) == Some(v)
  {
  }

  /** `var x;` without an initializer binds `nil` in the innermost scope, leaving the outer ones alone. */
  lemma VarWithoutInitializer(ops: NumOps, name: Token, st: State, fuel: nat)
    requires |st.scopes| > 0
    ensures var o := Exec(ops, VarStmt(name, None), st, fuel);
      && o.result == Normal && o.state.out == st.out
      && o.state.scopes[0] == st.scopes[0][name.lexeme := NilVal] && o.state.scopes[1..] == st.scopes[1..]
      && Lookup(o.state.scopes, name.lexeme) == Some(NilVal)
  {
  }

  /** An expression holds an assignment somewhere. */
  predicate HasAssign(e: Expr) {
    match e
    case Assign(_, _) => true
    case Binary(l, _, r) => HasAssign(l) || HasAssign(r)
    case Grouping(x) => HasAssign(x)
    case Literal(_) => false
    case Logical(l, _, r) => HasAssign(l) || HasAssign(r)
    case Unary(_, x) => HasAssign(x)
    case Variable(_) => false
  }

  /** Evaluation without an assignment reads the chain and changes nothing. */
  lemma {:induction false} EvalWithoutAssignLeavesScopes(ops: NumOps, e: Expr, scopes: Scopes)
    requires !HasAssign(e)
    ensures Eval(ops, e, scopes).scopes == scopes
  {
    match e
    case Grouping(x) => EvalWithoutAssignLeavesScopes(ops, x, scopes);
    case Unary(_, x) => EvalWithoutAssignLeavesScopes(ops, x, scopes);
    case Binary(l, _, r) =>
      EvalWithoutAssignLeavesScopes(ops, l, scopes);
      EvalWithoutAssignLeavesScopes(ops, r, scopes);
    case _ =>
  }

  /** Running `a + b` is running `a`, then `b` if `a` completed. */
  lemma {:induction false} ExecListAppend(ops: NumOps, a: seq<Option<Stmt>>, b: seq<Option<Stmt>>, st: State, fuel: nat)
    requires |st.scopes| > 0
    ensures var ra := ExecList(ops, a, st, fuel);
      ExecList(ops, a + b, st, fuel) == if ra.result.Abrupt? then ra else ExecList(ops, b, ra.state, fuel)
  {
    if |a| == 0 {
      assert a + b == b;
    } else {
      assert (a + b)[0] == a[0];
      assert (a + b)[1..] == a[1..] + b;
      match a[0]
      case None =>
      case Some(s) =>
        var o := Exec(ops, s, st, fuel);
        if o.result.Normal? {
          ExecListAppend(ops, a[1..], b, o.state, fuel);
        }
    }
  }

  /** Evaluation keeps the chain's depth and the names of every scope. */
  lemma {:induction false} EvalKeepsShape(ops: NumOps, e: Expr, scopes: Scopes)
    ensures SameShape(scopes, Eval(ops, e, scopes).scopes)
  {
    match e
    case Grouping(x) => EvalKeepsShape(ops, x, scopes);
    case Unary(_, x) => EvalKeepsShape(ops, x, scopes);
    case Binary(l, _, x) =>
      EvalKeepsShape(ops, l, scopes);
      EvalKeepsShape(ops, x, Eval(ops, l, scopes).scopes);
    case Assign(_, x) => EvalKeepsShape(ops, x, scopes);
    case _ =>
  }

  lemma ExtendsTransitive(a: State, b: State, c: State)
    requires Extends(a, b) && Extends(b, c)
    ensures Extends(a, c)
  {
  }

  /**
   * A statement keeps the depth of the chain and the names of its outer
   * scopes, may add names to the innermost scope, and only appends output.
   */
  lemma {:induction false} ExecExtends(ops: NumOps, s: Stmt, st: State, fuel: nat)
    requires |st.scopes| > 0
    ensures Extends(st, Exec(ops, s, st, fuel).state)
    decreases fuel, StmtSize(s), 1
  {
    match s
    case ExpressionStmt(e) => EvalKeepsShape(ops, e, st.scopes);
    case PrintStmt(e) => EvalKeepsShape(ops, e, st.scopes);
    case VarStmt(_, init) =>
      if init.Some? { EvalKeepsShape(ops, init.value, st.scopes); }
    case BlockStmt(ss) =>
      var inner := State([map[]] + st.scopes, st.out);
      ExecListExtends(ops, ss, inner, fuel);
      var o := ExecList(ops, ss, inner, fuel);
      forall j | 0 <= j < |st.scopes|
        ensures o.state.scopes[1..][j].Keys == st.scopes[j].Keys
      {
        assert inner.scopes[j + 1] == st.scopes[j];
      }
    case IfStmt(c, t, e) =>
      EvalKeepsShape(ops, c, st.scopes);
      var o := Eval(ops, c, st.scopes);
      var st1 := State(o.scopes, st.out);
      if o.result.Ok? {
        if IsTruthy(o.result.value) {
          ExecExtends(ops, t, st1, fuel);
          ExtendsTransitive(st, st1, Exec(ops, t, st1, fuel).state);
        } else if e.Some? {
          assert OptSize(e) == 1 + StmtSize(e.value);
          ExecExtends(ops, e.value, st1, fuel);
          ExtendsTransitive(st, st1, Exec(ops, e.value, st1, fuel).state);
        }
      }
    case WhileStmt(c, body) => ExecWhileExtends(ops, c, body, st, fuel);
  }

  lemma {:induction false} ExecWhileExtends(ops: NumOps, c: Expr, body: Stmt, st: State, fuel: nat)
    requires |st.scopes| > 0
    ensures Extends(st, ExecWhile(ops, c, body, st, fuel).state)
    decreases fuel, StmtSize(WhileStmt(c, body)), 0
  {
    if fuel > 0 {
      EvalKeepsShape(ops, c, st.scopes);
      var o := Eval(ops, c, st.scopes);
      var st1 := State(o.scopes, st.out);
      if o.result.Ok? && IsTruthy(o.result.value) {
        ExecExtends(ops, body, st1, fuel - 1);
        var b := Exec(ops, body, st1, fuel - 1);
        ExtendsTransitive(st, st1, b.state);
        AfterBodyExtends(ops, c, body, b, fuel - 1);
        ExtendsTransitive(st, b.state, AfterBody(ops, c, body, b, fuel - 1).state);
      }
    }
  }

  lemma {:induction false} AfterBodyExtends(ops: NumOps, c: Expr, body: Stmt, b: ExecOut, fuel: nat)
    requires |b.state.scopes| > 0
    ensures Extends(b.state, AfterBody(ops, c, body, b, fuel).state)
    decreases fuel, StmtSize(WhileStmt(c, body)), 1
  {
    if b.result.Normal? {
      ExecWhileExtends(ops, c, body, b.state, fuel);
    }
  }

  lemma {:induction false} ExecListExtends(ops: NumOps, ss: seq<Option<Stmt>>, st: State, fuel: nat)
    requires |st.scopes| > 0
    ensures Extends(st, ExecList(ops, ss, st, fuel).state)
    decreases fuel, ListSize(ss), 2
  {
    if |ss| > 0 && ss[0].Some? {
      var s := ss[0].value;
      assert ListSize(ss) == 1 + StmtSize(s) + ListSize(ss[1..]);
      ExecExtends(ops, s, st, fuel);
      var o := Exec(ops, s, st, fuel);
      if o.result.Normal? {
        ExecListExtends(ops, ss[1..], o.state, fuel);
        ExtendsTransitive(st, o.state, ExecList(ops, ss[1..], o.state, fuel).state);
      }
    }
  }

  /** A block's definitions are gone once it ends: the chain has the same names as before. */
  lemma BlockKeepsShape(ops: NumOps, ss: seq<Option<Stmt>>, st: State, fuel: nat)
    requires |st.scopes| > 0
    ensures SameShape(st.scopes, Exec(ops, BlockStmt(ss), st, fuel).state.scopes)
  {
    var inner := State([map[]] + st.scopes, st.out);
    ExecListExtends(ops, ss, inner, fuel);
    var o := ExecList(ops, ss, inner, fuel);
    forall j | 0 <= j < |st.scopes|
      ensures o.state.scopes[1..][j].Keys == st.scopes[j].Keys
    {
      assert inner.scopes[j + 1] == st.scopes[j];
    }
  }

  /** A name undefined before a block is still undefined after it. */
  lemma BlockDefinitionsInvisible(ops: NumOps, ss: seq<Option<Stmt>>, st: State, fuel: nat, name: string)
    requires |st.scopes| > 0
    requires Lookup(st.scopes, name).None?
    ensures Lookup(Exec(ops, BlockStmt(ss), st, fuel).state.scopes, name).None?
  {
    var after := Exec(ops, BlockStmt(ss), st, fuel).state.scopes;
    BlockKeepsShape(ops, ss, st, fuel);
    LookupMissing(st.scopes, name);
    LookupMissing(after, name);
  }

  /** `while (true)` never completes normally. */
  lemma {:induction false} WhileTrueNeverCompletes(ops: NumOps, body: Stmt, st: State, fuel: nat)
    requires |st.scopes| > 0
    ensures Exec(ops, WhileStmt(Literal(BoolVal(true)), body), st, fuel).result.Abrupt?
    ensures ExecWhile(ops, Literal(BoolVal(true)), body, st, fuel).result.Abrupt?
    decreases fuel
  {
    var yes := Literal(BoolVal(true));
    if fuel > 0 {
      var b := Exec(ops, body, st, fuel - 1);
      if b.result.Normal? {
        WhileTrueNeverCompletes(ops, body, b.state, fuel - 1);
      }
      assert AfterBody(ops, yes, body, b, fuel - 1).result.Abrupt?;
      assert ExecWhile(ops, yes, body, st, fuel) == AfterBody(ops, yes, body, b, fuel - 1);
    }
    assert Exec(ops, WhileStmt(yes, body), st, fuel) == ExecWhile(ops, yes, body, st, fuel);
  }

  /**
   * Fuel only bounds the run: a statement that finishes without running out
   * of fuel gives the same outcome with any larger bound.
   */
  lemma {:induction false} ExecMoreFuel(ops: NumOps, s: Stmt, st: State, fuel: nat, more: nat)
    requires |st.scopes| > 0 && fuel <= more
    requires Exec(ops, s, st, fuel).result != Abrupt(OutOfFuel)
    ensures Exec(ops, s, st, more) == Exec(ops, s, st, fuel)
    decreases fuel, StmtSize(s), 3
  {
    match s
    case BlockStmt(ss) =>
      ExecListMoreFuel(ops, ss, State([map[]] + st.scopes, st.out), fuel, more);
    case IfStmt(c, t, e) =>
      IfMoreFuel(ops, c, t, e, st, fuel, more);
    case WhileStmt(c, body) =>
      WhileMoreFuel(ops, c, body, st, fuel, more);
    case ExpressionStmt(_) =>
    case PrintStmt(_) =>
    case VarStmt(_, _) =>
  }

  lemma {:induction false} IfMoreFuel(ops: NumOps, c: Expr, t: Stmt, e: Option<Stmt>, st: State, fuel: nat, more: nat)
    requires |st.scopes| > 0 && fuel <= more
    requires Exec(ops, IfStmt(c, t, e), st, fuel).result != Abrupt(OutOfFuel)
    ensures Exec(ops, IfStmt(c, t, e), st, more) == Exec(ops, IfStmt(c, t, e), st, fuel)
    decreases fuel, StmtSize(IfStmt(c, t, e)), 0
  {
    var o := Eval(ops, c, st.scopes);
    var st1 := State(o.scopes, st.out);
    if o.result.Ok? {
      if IsTruthy(o.result.value) {
        ExecMoreFuel(ops, t, st1, fuel, more);
      } else if e.Some? {
        assert OptSize(e) == 1 + StmtSize(e.value);
        ExecMoreFuel(ops, e.value, st1, fuel, more);
      }
    }
  }

  lemma {:induction false} WhileMoreFuel(ops: NumOps, c: Expr, body: Stmt, st: State, fuel: nat, more: nat)
    requires |st.scopes| > 0 && fuel <= more
    requires ExecWhile(ops, c, body, st, fuel).result != Abrupt(OutOfFuel)
    ensures ExecWhile(ops, c, body, st, more) == ExecWhile(ops, c, body, st, fuel)
    decreases fuel, StmtSize(WhileStmt(c, body)), 1
  {
    var o := Eval(ops, c, st.scopes);
    if o.result.Ok? && IsTruthy(o.result.value) {
      IterationMoreFuel(ops, c, body, st, fuel, more);
    }
  }

  /** One iteration whose condition held: the body and the rest of the loop take more fuel alike. */
  lemma {:induction false} IterationMoreFuel(ops: NumOps, c: Expr, body: Stmt, st: State, fuel: nat, more: nat)
    requires |st.scopes| > 0 && fuel <= more
    requires ExecWhile(ops, c, body, st, fuel).result != Abrupt(OutOfFuel)
    requires Eval(ops, c, st.scopes).result.Ok? && IsTruthy(Eval(ops, c, st.scopes).result.value)
    ensures ExecWhile(ops, c, body, st, more) == ExecWhile(ops, c, body, st, fuel)
    decreases fuel, StmtSize(WhileStmt(c, body)), 0
  {
    var st1 := State(Eval(ops, c, st.scopes).scopes, st.out);
    var b := Exec(ops, body, st1, fuel - 1);
    Iteration(ops, c, body, st, fuel);
    Iteration(ops, c, body, st, more);
    ExecMoreFuel(ops, body, st1, fuel - 1, more - 1);
    AfterBodyMoreFuel(ops, c, body, b, fuel - 1, more - 1);
  }

  /** With fuel left and the condition true, the loop runs the body and then continues. */
  lemma Iteration(ops: NumOps, c: Expr, body: Stmt, st: State, fuel: nat)
    requires |st.scopes| > 0 && fuel > 0
    requires Eval(ops, c, st.scopes).result.Ok? && IsTruthy(Eval(ops, c, st.scopes).result.value)
    ensures var st1 := State(Eval(ops, c, st.scopes).scopes, st.out);
      ExecWhile(ops, c, body, st, fuel) == AfterBody(ops, c, body, Exec(ops, body, st1, fuel - 1), fuel - 1)
  {
  }

  lemma {:induction false} AfterBodyMoreFuel(ops: NumOps, c: Expr, body: Stmt, b: ExecOut, fuel: nat, more: nat)
    requires |b.state.scopes| > 0 && fuel <= more
    requires AfterBody(ops, c, body, b, fuel).result != Abrupt(OutOfFuel)
    ensures AfterBody(ops, c, body, b, more) == AfterBody(ops, c, body, b, fuel)
    decreases fuel, StmtSize(WhileStmt(c, body)), 2
  {
    if b.result.Normal? {
      WhileMoreFuel(ops, c, body, b.state, fuel, more);
    }
  }

  lemma {:induction false} ExecListMoreFuel(ops: NumOps, ss: seq<Option<Stmt>>, st: State, fuel: nat, more: nat)
    requires |st.scopes| > 0 && fuel <= more
    requires ExecList(ops, ss, st, fuel).result != Abrupt(OutOfFuel)
    ensures ExecList(ops, ss, st, more) == ExecList(ops, ss, st, fuel)
    decreases fuel, ListSize(ss), 2
  {
    if |ss| > 0 && ss[0].Some? {
      var s := ss[0].value;
      assert ListSize(ss) == 1 + StmtSize(s) + ListSize(ss[1..]);
      var o := Exec(ops, s, st, fuel);
      ExecMoreFuel(ops, s, st, fuel, more);
      if o.result.Normal? {
        ExecListMoreFuel(ops, ss[1..], o.state, fuel, more);
      }
    }
  }

  /** A variable declared in a block shadows the outer one only inside the block. */
  lemma ShadowingExample(ops: NumOps)
    ensures var a := Token(Identifier, "a", NilVal, 1);
      var program := [
        Some(VarStmt(a, Some(Literal(StrVal("outer"))))),
        Some(BlockStmt([Some(VarStmt(a, Some(Literal(StrVal("inner"))))), Some(PrintStmt(Variable(a)))])),
        Some(PrintStmt(Variable(a)))];
      ExecList(ops, program, State([map[]], ""), 0)
        == ExecOut(Normal, State([map["a" := StrVal("outer")]], "inner\nouter\n"))
  {
    var a := Token(Identifier, "a", NilVal, 1);
    var declareOuter := Some(VarStmt(a, Some(Literal(StrVal("outer")))));
    var printA := Some(PrintStmt(Variable(a)));
    var block := Some(BlockStmt([Some(VarStmt(a, Some(Literal(StrVal("inner"))))), printA]));
    var outer := map["a" := StrVal("outer")];
    var done := ExecOut(Normal, State([outer], "inner\nouter\n"));
    var s0 := State([outer], "");
    assert Exec(ops, declareOuter.value, State([map[]], ""), 0) == ExecOut(Normal, s0);
    var s3 := State([outer], "inner\n");
    ShadowingBlock(ops);
    assert Exec(ops, printA.value, s3, 0) == done;
    assert ExecList(ops, [printA], s3, 0) == done;
    assert ExecList(ops, [block, printA], s0, 0) == done;
    assert [declareOuter, block, printA][1..] == [block, printA];
  }

  /** The block of `ShadowingExample`: it prints the inner value and drops its scope. */
  lemma ShadowingBlock(ops: NumOps)
    ensures var a := Token(Identifier, "a", NilVal, 1);
      var block := BlockStmt([Some(VarStmt(a, Some(Literal(StrVal("inner"))))), Some(PrintStmt(Variable(a)))]);
      var outer := map["a" := StrVal("outer")];
      Exec(ops, block, State([outer], ""), 0) == ExecOut(Normal, State([outer], "inner\n"))
  {
    var a := Token(Identifier, "a", NilVal, 1);
    var declareInner := Some(VarStmt(a, Some(Literal(StrVal("inner")))));
    var printA := Some(PrintStmt(Variable(a)));
    var outer := map["a" := StrVal("outer")];
    var inner := map["a" := StrVal("inner")];
    var s1 := State([inner, outer], "");
    assert [map[]] + [outer] == [map[], outer];
    assert Exec(ops, declareInner.value, State([map[], outer], ""), 0) == ExecOut(Normal, s1);
    var s2 := State([inner, outer], "inner\n");
    assert Exec(ops, printA.value, s1, 0) == ExecOut(Normal, s2);
    assert ExecList(ops, [printA], s1, 0) == ExecOut(Normal, s2);
    assert [declareInner, printA][1..] == [printA];
    assert ExecList(ops, [declareInner, printA], State([map[], outer], ""), 0) == ExecOut(Normal, s2);
    assert [inner, outer][1..] == [outer];
  }

  // ------------------------------------------------------------ the class

  class Interpreter {
    /** The current environment; a block swaps it out and restores it. */
    var env: Environment
    const console: Console
    const ops: NumOps

    ghost predicate Valid()
      reads this, env, env.Repr
    {
      env.Valid() && console !in env.Repr && this !in env.Repr
    }

    /** A fresh interpreter starts with one empty global environment. */
    constructor(console: Console, ops: NumOps)
      ensures Valid() && fresh(env.Repr)
      ensures env.Scopes == [map[]]
      ensures this.console == console && this.ops == ops
    {
      env := new Environment.Global();
      this.console := console;
      this.ops := ops;
    }

    /** `evaluate`. */
    method Evaluate(e: Expr) returns (r: Res<Value>)
      requires Valid()
      modifies env.Repr
      ensures Valid()
      ensures EvalOut(r, env.Scopes) == Eval(ops, e, old(env.Scopes))
    {
      match e
      case Literal(v) =>
        r := Ok(v);
      case Grouping(x) =>
        r := Evaluate(x);
      case Unary(op, x) =>
        var right := Evaluate(x);
        if right.Err? { return right; }
        r := UnaryOp(op, right.value);
      case Binary(l, op, x) =>
        var left := Evaluate(l);
        if left.Err? { return left; }
        var right := Evaluate(x);
        if right.Err? { return right; }
        r := BinaryOp(ops, op, left.value, right.value);
      case Variable(name) =>
        var fetched := env.Get(name);
        r := if fetched.Found? then Ok(fetched.value) else Err(Throw(fetched.error));
      case Assign(name, x) =>
        r := Evaluate(x);
        if r.Err? { return; }
        var failure := env.Assign(name, r.value);
        if failure.Some? { return Err(Throw(failure.value)); }
      case Logical(_, _, _) =>
        r := Err(NotImplemented(ExprAccept(e)));
    }

    /** `VisitlogicalExpr`: present in the class, unreachable through `Accept`. */
    method EvaluateLogical(left: Expr, op: Token, right: Expr) returns (r: Res<Value>)
      requires Valid()
      modifies env.Repr
      ensures Valid()
      ensures EvalOut(r, env.Scopes) == EvalLogical(ops, left, op, right, old(env.Scopes))
    {
      r := Evaluate(left);
      if r.Err? { return; }
      if op.kind == Or {
        if IsTruthy(r.value) { return; }
      } else {
        if !IsTruthy(r.value) { return; }
      }
      r := Evaluate(right);
    }

    /** `execute`. */
    method Execute(s: Stmt, fuel: nat) returns (r: Outcome)
      requires Valid()
      modifies this, env.Repr, console
      ensures Valid() && env == old(env)
      ensures ExecOut(r, State(env.Scopes, console.text))
        == Exec(ops, s, State(old(env.Scopes), old(console.text)), fuel)
      decreases fuel, StmtSize(s), 1
    {
      match s
      case ExpressionStmt(e) =>
        var v := Evaluate(e);
        r := Discard(v);
      case PrintStmt(e) =>
        var v := Evaluate(e);
        if v.Err? { return Abrupt(v.signal); }
        console.WriteLine(Stringify(ops, v.value));
        r := Normal;
      case VarStmt(name, init) =>
        var value := NilVal;
        if init.Some? {
          var v := Evaluate(init.value);
          if v.Err? { return Abrupt(v.signal); }
          value := v.value;
        }
        env.Define(name.lexeme, value);
        r := Normal;
      case BlockStmt(ss) =>
        r := ExecuteBlockStmt(ss, fuel);
      case IfStmt(c, t, e) =>
        var v := Evaluate(c);
        if v.Err? { return Abrupt(v.signal); }
        if IsTruthy(v.value) {
          r := Execute(t, fuel);
        } else if e.Some? {
          assert OptSize(e) == 1 + StmtSize(e.value);
          r := Execute(e.value, fuel);
        } else {
          r := Normal;
        }
      case WhileStmt(c, body) =>
        r := ExecuteWhile(c, body, fuel);
    }

    /** `VisitBlockStmt`: run the statements in a new environment inside the current one. */
    method ExecuteBlockStmt(statements: seq<Option<Stmt>>, fuel: nat) returns (r: Outcome)
      requires Valid()
      modifies this, env.Repr, console
      ensures Valid() && env == old(env)
      ensures ExecOut(r, State(env.Scopes, console.text))
        == Exec(ops, BlockStmt(statements), State(old(env.Scopes), old(console.text)), fuel)
      decreases fuel, StmtSize(BlockStmt(statements)), 0
    {
      var inner := new Environment.Nested(env);
      r := ExecuteBlock(statements, inner, fuel);
    }

    /** `VisitWhileStmt`: test the condition, run the body, repeat. */
    method ExecuteWhile(condition: Expr, body: Stmt, fuel: nat) returns (r: Outcome)
      requires Valid()
      modifies this, env.Repr, console
      ensures Valid() && env == old(env)
      ensures ExecOut(r, State(env.Scopes, console.text))
        == ExecWhile(ops, condition, body, State(old(env.Scopes), old(console.text)), fuel)
      decreases fuel, StmtSize(WhileStmt(condition, body)), 0
    {
      var f: nat := fuel;
      while true
        invariant f <= fuel && Valid() && env == old(env)
        invariant ExecWhile(ops, condition, body, State(old(env.Scopes), old(console.text)), fuel)
          == ExecWhile(ops, condition, body, State(env.Scopes, console.text), f)
        decreases f
      {
        if f == 0 { return Abrupt(OutOfFuel); }
        var cond := Evaluate(condition);
        if cond.Err? { return Abrupt(cond.signal); }
        if !IsTruthy(cond.value) { return Normal; }
        r := Execute(body, f - 1);
        if r.Abrupt? { return; }
        f := f - 1;
      }
    }

    /** `executeBlock`: run the statements in `environment`, then restore the previous one. */
    method ExecuteBlock(statements: seq<Option<Stmt>>, environment: Environment, fuel: nat) returns (r: Outcome)
      requires Valid()
      requires environment.Valid() && environment.enclosing == env
      requires console !in environment.Repr && this !in environment.Repr
      modifies this, environment.Repr, console
      ensures Valid() && env == old(env)
      ensures var o := ExecList(ops, statements, State(old(environment.Scopes), old(console.text)), fuel);
        r == o.result && env.Scopes == o.state.scopes[1..] && console.text == o.state.out
      decreases fuel, ListSize(statements), 2
    {
      var previous := env;
      env := environment;
      ghost var start := State(environment.Scopes, console.text);
      r := Normal;
      var i := 0;
      while i < |statements| && r.Normal?
        invariant 0 <= i <= |statements|
        invariant env == environment && Valid()
        invariant r.Normal? ==>
          ExecList(ops, statements, start, fuel) == ExecList(ops, statements[i..], State(env.Scopes, console.text), fuel)
        invariant r.Abrupt? ==>
          ExecList(ops, statements, start, fuel) == ExecOut(r, State(env.Scopes, console.text))
      {
        assert statements[i..][0] == statements[i] && statements[i..][1..] == statements[i + 1..];
        if statements[i].None? {
          r := Abrupt(NullStatement);
        } else {
          ElementSmaller(statements, i);
          r := Execute(statements[i].value, fuel);
        }
        i := i + 1;
      }
      if r.Normal? { assert statements[i..] == []; }
      env := previous;
    }

    /**
     * `interpret`: run the program's statements in the current environment.
     * A `Throw` result is the exception that `interpret` hands to
     * `Lox.runtimeError`; the caller does that.
     */
    method Interpret(statements: seq<Option<Stmt>>, fuel: nat) returns (r: Outcome)
      requires Valid()
      modifies this, env.Repr, console
      ensures Valid() && env == old(env)
      ensures ExecOut(r, State(env.Scopes, console.text))
        == ExecList(ops, statements, State(old(env.Scopes), old(console.text)), fuel)
    {
      ghost var start := State(env.Scopes, console.text);
      r := Normal;
      var i := 0;
      while i < |statements| && r.Normal?
        invariant 0 <= i <= |statements|
        invariant Valid() && env == old(env)
        invariant r.Normal? ==>
          ExecList(ops, statements, start, fuel) == ExecList(ops, statements[i..], State(env.Scopes, console.text), fuel)
        invariant r.Abrupt? ==>
          ExecList(ops, statements, start, fuel) == ExecOut(r, State(env.Scopes, console.text))
      {
        assert statements[i..][0] == statements[i] && statements[i..][1..] == statements[i + 1..];
        if statements[i].None? {
          r := Abrupt(NullStatement);
        } else {
          r := Execute(statements[i].value, fuel);
        }
        i := i + 1;
      }
      if r.Normal? { assert statements[i..] == []; }
    }
  }
}
