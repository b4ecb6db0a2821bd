/**
 * The two closed node families (Interpreter/Grammar/Expr.cs and
 * Interpreter/Grammar/Stmt.cs). A C# `null` child becomes `None`.
 *
 * The C# classes dispatch through visitor interfaces whose methods all have
 * a default body that throws `NotImplementedException`. A visitor overrides a
 * default only by declaring a method of exactly the same name. The model
 * keeps this: `ExprAccept`/`StmtAccept` give the name of the interface method
 * that `Accept` calls, and `Overrides` says whether a visitor's declared
 * method names contain it.
 */
module Ast {
  import opened Util
  import opened Tokens

  datatype Expr =
    | Assign(name: Token, value: Expr)
    | Binary(left: Expr, op: Token, right: Expr)
    | Grouping(expression: Expr)
    | Literal(literal: Value)
    | Logical(left: Expr, op: Token, right: Expr)
    | Unary(op: Token, right: Expr)
    | Variable(name: Token)

  datatype Stmt =
    | BlockStmt(statements: seq<Option<Stmt>>)
    | ExpressionStmt(expression: Expr)
    | IfStmt(condition: Expr, thenBranch: Stmt, elseBranch: Option<Stmt>)
    | PrintStmt(expression: Expr)
    | VarStmt(name: Token, initializer: Option<Expr>)
    | WhileStmt(condition: Expr, body: Stmt)

  // ---------------------------------------------------------------- visitors

  /** The methods of `Expr.IVisitor`, each with a throwing default body. */
  const ExprVisitorInterface: set<string> :=
    {"VisitAssignExpr", "VisitBinaryExpr", "VisitGroupingExpr", "VisitLiteralExpr",
     "VisitLogicalExpr", "VisitUnaryExpr", "VisitVariableExpr"}

  /** The methods of `Stmt.IVisitor`, each with a throwing default body. */
  const StmtVisitorInterface: set<string> :=
    {"VisitBlockStmt", "VisitExpressionStmt", "VisitIfStmt", "VisitPrintStmt",
     "VisitVarStmt", "VisitWhileStmt"}

  /** The name of the node's class. */
  function ExprKind(e: Expr): string {
    match e
    case Assign(_, _) => "Assign"
    case Binary(_, _, _) => "Binary"
    case Grouping(_) => "Grouping"
    case Literal(_) => "Literal"
    case Logical(_, _, _) => "Logical"
    case Unary(_, _) => "Unary"
    case Variable(_) => "Variable"
  }

  function StmtKind(s: Stmt): string {
    match s
    case BlockStmt(_) => "Block"
    case ExpressionStmt(_) => "Expression"
    case IfStmt(_, _, _) => "If"
    case PrintStmt(_) => "Print"
    case VarStmt(_, _) => "Var"
    case WhileStmt(_, _) => "While"
  }

  /** The interface method that the node's `Accept` calls. */
  function ExprAccept(e: Expr): (m: string)
    ensures m in ExprVisitorInterface
  {
    match e
    case Assign(_, _) => "VisitAssignExpr"
    case Binary(_, _, _) => "VisitBinaryExpr"
    case Grouping(_) => "VisitGroupingExpr"
    case Literal(_) => "VisitLiteralExpr"
    case Logical(_, _, _) => "VisitLogicalExpr"
    case Unary(_, _) => "VisitUnaryExpr"
    case Variable(_) => "VisitVariableExpr"
  }

  function StmtAccept(s: Stmt): (m: string)
    ensures m in StmtVisitorInterface
  {
    match s
    case BlockStmt(_) => "VisitBlockStmt"
    case ExpressionStmt(_) => "VisitExpressionStmt"
    case IfStmt(_, _, _) => "VisitIfStmt"
    case PrintStmt(_) => "VisitPrintStmt"
    case VarStmt(_, _) => "VisitVarStmt"
    case WhileStmt(_, _) => "VisitWhileStmt"
  }

  /** Two nodes reach the same visitor method exactly when they are the same variant. */
  lemma ExprAcceptDistinguishesVariants(a: Expr, b: Expr)
    ensures ExprAccept(a) == ExprAccept(b) <==> ExprKind(a) == ExprKind(b)
    ensures ExprKind(a) == ExprKind(b) <==>
      (a.Assign? && b.Assign?) || (a.Binary? && b.Binary?) || (a.Grouping? && b.Grouping?) ||
      (a.Literal? && b.Literal?) || (a.Logical? && b.Logical?) || (a.Unary? && b.Unary?) ||
      (a.Variable? && b.Variable?)
  {
  }

  lemma StmtAcceptDistinguishesVariants(a: Stmt, b: Stmt)
    ensures StmtAccept(a) == StmtAccept(b) <==> StmtKind(a) == StmtKind(b)
    ensures StmtKind(a) == StmtKind(b) <==>
      (a.BlockStmt? && b.BlockStmt?) || (a.ExpressionStmt? && b.ExpressionStmt?) ||
      (a.IfStmt? && b.IfStmt?) || (a.PrintStmt? && b.PrintStmt?) ||
      (a.VarStmt? && b.VarStmt?) || (a.WhileStmt? && b.WhileStmt?)
  {
  }

  /**
   * A visitor that declares the methods named in `declared` handles `e` with
   * its own code; otherwise `Accept` runs the interface's default body,
   * which throws `NotImplementedException`.
   */
  predicate OverridesExpr(declared: set<string>, e: Expr) {
    ExprAccept(e) in declared
  }

  predicate OverridesStmt(declared: set<string>, s: Stmt) {
    StmtAccept(s) in declared
  }

  // ------------------------------------------------------------------ sizes

  /** Node counts, used as termination measures. */
  function ExprSize(e: Expr): nat {
    match e
    case Assign(_, v) => 1 + ExprSize(v)
    case Binary(l, _, r) => 1 + ExprSize(l) + ExprSize(r)
    case Grouping(x) => 1 + ExprSize(x)
    case Literal(_) => 1
    case Logical(l, _, r) => 1 + ExprSize(l) + ExprSize(r)
    case Unary(_, r) => 1 + ExprSize(r)
    case Variable(_) => 1
  }

  function ExprListSize(es: seq<Expr>): nat {
    if |es| == 0 then 0 else ExprSize(es[0]) + ExprListSize(es[1..])
  }

  function StmtSize(s: Stmt): nat {
    match s
    case BlockStmt(ss) => 1 + ListSize(ss)
    case IfStmt(_, t, e) => 1 + StmtSize(t) + OptSize(e)
    case WhileStmt(_, b) => 1 + StmtSize(b)
    case _ => 1
  }

  function ListSize(ss: seq<Option<Stmt>>): nat {
    if |ss| == 0 then 0 else OptSize(ss[0]) + ListSize(ss[1..])
  }

  function OptSize(o: Option<Stmt>): nat {
    match o
    case None => 1
    case Some(s) => 1 + StmtSize(s)
  }

  lemma {:induction false} ElementSmaller(ss: seq<Option<Stmt>>, i: nat)
    requires i < |ss|
    ensures OptSize(ss[i]) <= ListSize(ss)
    ensures ss[i].Some? ==> StmtSize(ss[i].value) < ListSize(ss)
  {
    if i > 0 { ElementSmaller(ss[1..], i - 1); }
  }

  lemma {:induction false} ExprElementSmaller(es: seq<Expr>, i: nat)
    requires i < |es|
    ensures ExprSize(es[i]) <= ExprListSize(es)
  {
    if i > 0 { ExprElementSmaller(es[1..], i - 1); }
  }
}
