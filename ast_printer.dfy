/**
 * The debugging printer of Interpreter/AstPrinter.cs: an expression visitor
 * that renders a tree in prefix form with parentheses.
 *
 * It overrides only the Binary, Grouping, Literal and Unary visitor methods;
 * an Assign, Logical or Variable node anywhere in the tree reaches the
 * interface's default body, which throws `NotImplementedException`. That
 * outcome is the `NotImplemented` result here.
 *
 * `Show` is the reference rendering; `Print` and `Parenthesize` are the C#
 * methods, the latter with its `StringBuilder` loop, proved to agree with it.
 * A number literal is rendered by the .NET `ToString` of a `double`, given
 * here as the parameter `toText`.
 */
module AstPrinting {
  import opened Util
  import opened Tokens
  import opened Ast

  /** What `Print` returns, or the visitor method whose default body threw. */
  datatype Printed = Text(s: string) | NotImplemented(visitorMethod: string)

  /** The visitor methods `AstPrinter` declares. */
  const PrinterMethods: set<string> := {"VisitBinaryExpr", "VisitGroupingExpr", "VisitLiteralExpr", "VisitUnaryExpr"}

  /** `VisitLiteralExpr`: `null` is "nil", anything else its `ToString()`. */
  function LiteralText(toText: real -> string, v: Value): string {
    match v
    case NilVal => "nil"
    case BoolVal(b) => if b then "True" else "False"
    case NumVal(n) => toText(n)
    case StrVal(s) => s
  }

  // ------------------------------------------------------------ reference rendering

  /** The text `Print` gives for `e`. */
  function Show(toText: real -> string, e: Expr): Printed
    decreases ExprSize(e), 1
  {
    if !OverridesExpr(PrinterMethods, e) then NotImplemented(ExprAccept(e))
    else
      match e
      case Binary(l, op, r) => PairSize(l, r); Parenthesized(toText, op.lexeme, [l, r])
      case Grouping(x) => SingleSize(x); Parenthesized(toText, "group", [x])
      case Unary(op, r) => SingleSize(r); Parenthesized(toText, op.lexeme, [r])
      case Literal(v) => Text(LiteralText(toText, v))
  }

  /** Each operand preceded by a space, in order; the first operand that throws ends it. */
  function Arguments(toText: real -> string, exprs: seq<Expr>): Printed
    decreases ExprListSize(exprs), 2
  {
    if |exprs| == 0 then Text("")
    else
      var first := Show(toText, exprs[0]);
      if first.NotImplemented? then first
      else
        var rest := Arguments(toText, exprs[1..]);
        if rest.NotImplemented? then rest else Text(" " + first.s + rest.s)
  }

  /** What the builder of `parenthesize` holds: `prefix`, the operands, then `)`. */
  function Closed(prefix: string, args: Printed): Printed {
    if args.NotImplemented? then args else Text(prefix + args.s + ")")
  }

  /** `parenthesize(name, exprs)`. */
  function Parenthesized(toText: real -> string, name: string, exprs: seq<Expr>): Printed
    decreases ExprListSize(exprs), 3
  {
    Closed("(" + name, Arguments(toText, exprs))
  }

  /**
   * `ToString` of a string is the string itself, so the printer cannot tell
   * a string literal from `nil`, `true` or `false` spelled the same way.
   */
  lemma LiteralTextsCollide(toText: real -> string)
    ensures LiteralText(toText, StrVal("nil")) == LiteralText(toText, NilVal)
    ensures LiteralText(toText, StrVal("True")) == LiteralText(toText, BoolVal(true))
    ensures LiteralText(toText, StrVal("False")) == LiteralText(toText, BoolVal(false))
    ensures forall s :: LiteralText(toText, StrVal(s)) == s
  {
  }

  /** What `parenthesize` gives when no operand throws: "(" and the name first, ")" last. */
  lemma ParenthesizedShape(toText: real -> string, name: string, exprs: seq<Expr>)
    ensures var r := Parenthesized(toText, name, exprs);
      r.Text? ==> |r.s| >= |name| + 2 && r.s[..|name| + 1] == "(" + name && r.s[|r.s| - 1] == ')'
    ensures Parenthesized(toText, name, exprs).NotImplemented? <==> Arguments(toText, exprs).NotImplemented?
  {
    var args := Arguments(toText, exprs);
    if args.Text? {
      assert ("(" + name + args.s + ")")[..|name| + 1] == "(" + name;
    }
  }

  // ------------------------------------------------------------ the C# methods

  lemma PairSize(l: Expr, r: Expr)
    ensures ExprListSize([l, r]) == ExprSize(l) + ExprSize(r)
  {
    assert [l, r][1..] == [r];
    SingleSize(r);
  }

  lemma SingleSize(x: Expr)
    ensures ExprListSize([x]) == ExprSize(x)
  {
    assert [x][1..] == [];
  }

  /** `Print`: `expr.Accept(this)`. */
  method Print(toText: real -> string, e: Expr) returns (r: Printed)
    ensures r == Show(toText, e)
    decreases ExprSize(e), 1
  {
    if !OverridesExpr(PrinterMethods, e) {
      return NotImplemented(ExprAccept(e));
    }
    match e
    case Binary(left, op, right) =>
      PairSize(left, right);
      r := Parenthesize(toText, op.lexeme, [left, right]);
    case Grouping(x) =>
      SingleSize(x);
      r := Parenthesize(toText, "group", [x]);
    case Unary(op, right) =>
      SingleSize(right);
      r := Parenthesize(toText, op.lexeme, [right]);
    case Literal(v) =>
      r := Text(LiteralText(toText, v));
  }

  /** One operand more moves from the rest of the list into the builder. */
  lemma ArgumentsStep(toText: real -> string, builder: string, exprs: seq<Expr>, i: nat)
    requires i < |exprs| && Show(toText, exprs[i]).Text?
    ensures Closed(builder, Arguments(toText, exprs[i..]))
      == Closed(builder + " " + Show(toText, exprs[i]).s, Arguments(toText, exprs[i + 1..]))
  {
    assert exprs[i..][1..] == exprs[i + 1..];
  }

  /** `parenthesize`: "(" and the name, then a space and each operand, then ")". */
  method Parenthesize(toText: real -> string, name: string, exprs: seq<Expr>) returns (r: Printed)
    ensures r == Parenthesized(toText, name, exprs)
    decreases ExprListSize(exprs), 3
  {
    var builder := "(" + name;
    var i := 0;
    while i < |exprs|
      invariant 0 <= i <= |exprs|
      invariant Closed(builder, Arguments(toText, exprs[i..])) == Parenthesized(toText, name, exprs)
      decreases |exprs| - i
    {
      ExprElementSmaller(exprs, i);
      var part := Print(toText, exprs[i]);
      if part.NotImplemented? {
        assert Arguments(toText, exprs[i..]) == part;
        return part;
      }
      ArgumentsStep(toText, builder, exprs, i);
      builder := builder + " " + part.s;
      i := i + 1;
    }
    assert Arguments(toText, exprs[i..]) == Text("");
    r := Text(builder + ")");
  }

  // ------------------------------------------------------------ formats

  /** A one-operand `parenthesize`. */
  lemma ParenthesizedOne(toText: real -> string, name: string, x: Expr)
    ensures var px := Show(toText, x);
      Parenthesized(toText, name, [x]) == if px.NotImplemented? then px else Text("(" + name + " " + px.s + ")")
  {
    assert [x][1..] == [];
    var px := Show(toText, x);
    if px.Text? {
      assert Arguments(toText, [x]) == Text(" " + px.s + "");
      assert "(" + name + (" " + px.s + "") + ")" == "(" + name + " " + px.s + ")";
    }
  }

  /** A two-operand `parenthesize`; the left operand is rendered (and can throw) first. */
  lemma ParenthesizedTwo(toText: real -> string, name: string, l: Expr, r: Expr)
    ensures var pl := Show(toText, l);
      var pr := Show(toText, r);
      Parenthesized(toText, name, [l, r]) ==
        if pl.NotImplemented? then pl
        else if pr.NotImplemented? then pr
        else Text("(" + name + " " + pl.s + " " + pr.s + ")")
  {
    assert [l, r][1..] == [r];
    assert [r][1..] == [];
    var pl := Show(toText, l);
    var pr := Show(toText, r);
    assert Arguments(toText, [r]) == if pr.NotImplemented? then pr else Text(" " + pr.s + "");
    if pl.Text? && pr.Text? {
      assert Arguments(toText, [l, r]) == Text(" " + pl.s + (" " + pr.s + ""));
      assert "(" + name + (" " + pl.s + (" " + pr.s + "")) + ")" == "(" + name + " " + pl.s + " " + pr.s + ")";
    }
  }

  /** `Binary` prints as `(op left right)`. */
  lemma ShowBinary(toText: real -> string, l: Expr, op: Token, r: Expr)
    ensures var pl := Show(toText, l);
      var pr := Show(toText, r);
      Show(toText, Binary(l, op, r)) ==
        if pl.NotImplemented? then pl
        else if pr.NotImplemented? then pr
        else Text("(" + op.lexeme + " " + pl.s + " " + pr.s + ")")
  {
    ParenthesizedTwo(toText, op.lexeme, l, r);
  }

  /** `Grouping` prints as `(group inner)`. */
  lemma ShowGrouping(toText: real -> string, x: Expr)
    ensures var px := Show(toText, x);
      Show(toText, Grouping(x)) == if px.NotImplemented? then px else Text("(group " + px.s + ")")
  {
    ParenthesizedOne(toText, "group", x);
  }

  /** `Unary` prints as `(op operand)`. */
  lemma ShowUnary(toText: real -> string, op: Token, x: Expr)
    ensures var px := Show(toText, x);
      Show(toText, Unary(op, x)) == if px.NotImplemented? then px else Text("(" + op.lexeme + " " + px.s + ")")
  {
    ParenthesizedOne(toText, op.lexeme, x);
  }

  /** A nil literal prints as "nil"; other literals as their value's text. */
  lemma ShowLiteral(toText: real -> string, v: Value)
    ensures Show(toText, Literal(v)).Text?
    ensures v.NilVal? ==> Show(toText, Literal(v)).s == "nil"
    ensures v.StrVal? ==> Show(toText, Literal(v)).s == v.s
    ensures v.NumVal? ==> Show(toText, Literal(v)).s == toText(v.n)
  {
  }

  // ------------------------------------------------------------ what throws

  /** Trees made only of the four node kinds the printer declares. */
  predicate Printable(e: Expr) {
    match e
    case Binary(l, _, r) => Printable(l) && Printable(r)
    case Grouping(x) => Printable(x)
    case Unary(_, r) => Printable(r)
    case Literal(_) => true
    case _ => false
  }

  /**
   * Printing succeeds exactly on such trees; otherwise it is the default
   * body of `VisitAssignExpr`, `VisitLogicalExpr` or `VisitVariableExpr` that throws.
   */
  lemma {:induction false} PrintsExactlyPrintable(toText: real -> string, e: Expr)
    ensures Show(toText, e).Text? <==> Printable(e)
    ensures Show(toText, e).NotImplemented? ==>
      Show(toText, e).visitorMethod in {"VisitAssignExpr", "VisitLogicalExpr", "VisitVariableExpr"}
    decreases e
  {
    match e
    case Binary(l, op, r) =>
      PrintsExactlyPrintable(toText, l);
      PrintsExactlyPrintable(toText, r);
      ShowBinary(toText, l, op, r);
    case Grouping(x) =>
      PrintsExactlyPrintable(toText, x);
      ShowGrouping(toText, x);
    case Unary(op, x) =>
      PrintsExactlyPrintable(toText, x);
      ShowUnary(toText, op, x);
    case _ =>
  }

  // ------------------------------------------------------------ parentheses

  /** How a character changes the nesting depth. */
  function Depth(c: char): int {
    if c == '(' then 1 else if c == ')' then -1 else 0
  }

  /** Opening minus closing parentheses. */
  function Excess(s: string): int {
    if |s| == 0 then 0 else Depth(s[0]) + Excess(s[1..])
  }

  /** The lowest depth any prefix of `s` reaches (the empty prefix reaches 0). */
  function Low(s: string): int {
    if |s| == 0 then 0 else Min(0, Depth(s[0]) + Low(s[1..]))
  }

  function Min(a: int, b: int): int {
    if a <= b then a else b
  }

  /** The number of `(` in `s`. */
  function Opens(s: string): nat {
    if |s| == 0 then 0 else (if s[0] == '(' then 1 else 0) + Opens(s[1..])
  }

  /** Every `)` closes an earlier `(`, and every `(` is closed. */
  predicate Balanced(s: string) {
    Excess(s) == 0 && Low(s) == 0
  }

  predicate NoParens(s: string) {
    forall k :: 0 <= k < |s| ==> s[k] != '(' && s[k] != ')'
  }

  /** `Low` bounds the depth of every prefix. */
  lemma {:induction false} LowBoundsPrefixes(s: string, k: nat)
    requires k <= |s|
    ensures Low(s) <= Excess(s[..k])
    decreases k
  {
    if k > 0 {
      assert s[..k][1..] == s[1..][..k - 1];
      LowBoundsPrefixes(s[1..], k - 1);
    }
  }

  /** In a balanced text no prefix closes more parentheses than it opens. */
  lemma BalancedPrefixes(s: string, k: nat)
    requires Balanced(s) && k <= |s|
    ensures Excess(s[..k]) >= 0
  {
    LowBoundsPrefixes(s, k);
  }

  lemma {:induction false} Concat(a: string, b: string)
    ensures Excess(a + b) == Excess(a) + Excess(b)
    ensures Low(a + b) == Min(Low(a), Excess(a) + Low(b))
    ensures Opens(a + b) == Opens(a) + Opens(b)
    decreases |a|
  {
    if |a| == 0 {
      assert a + b == b;
    } else {
      assert (a + b)[1..] == a[1..] + b;
      Concat(a[1..], b);
    }
  }

  lemma {:induction false} Flat(s: string)
    requires NoParens(s)
    ensures Excess(s) == 0 && Low(s) == 0 && Opens(s) == 0
    decreases |s|
  {
    if |s| > 0 {
      Flat(s[1..]);
    }
  }

  /** `(name args)` is balanced when `args` is, with one `(` more. */
  lemma Wrap(name: string, args: string)
    requires NoParens(name) && Balanced(args)
    ensures Balanced("(" + name + args + ")") && Opens("(" + name + args + ")") == 1 + Opens(args)
  {
    Flat(name);
    Flat(" ");
    Concat("(", name);
    Concat("(" + name, args);
    Concat("(" + name + args, ")");
  }

  /** Trees whose operator lexemes and literal texts have no parentheses. */
  predicate ParenFree(toText: real -> string, e: Expr) {
    match e
    case Binary(l, op, r) => NoParens(op.lexeme) && ParenFree(toText, l) && ParenFree(toText, r)
    case Grouping(x) => ParenFree(toText, x)
    case Unary(op, r) => NoParens(op.lexeme) && ParenFree(toText, r)
    case Literal(v) => NoParens(LiteralText(toText, v))
    case _ => true
  }

  /** The number of nodes that `parenthesize` renders. */
  function ParenNodes(e: Expr): nat {
    match e
    case Binary(l, _, r) => 1 + ParenNodes(l) + ParenNodes(r)
    case Grouping(x) => 1 + ParenNodes(x)
    case Unary(_, r) => 1 + ParenNodes(r)
    case _ => 0
  }

  /**
   * When no lexeme or literal text holds a parenthesis, the output of a
   * printable tree is balanced, with one `(` per Binary, Grouping or Unary node.
   */
  lemma {:induction false} PrintBalanced(toText: real -> string, e: Expr)
    requires Printable(e) && ParenFree(toText, e)
    ensures Show(toText, e).Text?
    ensures Balanced(Show(toText, e).s) && Opens(Show(toText, e).s) == ParenNodes(e)
    decreases e
  {
    match e
    case Binary(l, op, r) =>
      PrintBalanced(toText, l);
      PrintBalanced(toText, r);
      BinaryBalanced(toText, l, op, r);
    case Grouping(x) =>
      PrintBalanced(toText, x);
      ShowGrouping(toText, x);
      WrapOne("group", Show(toText, x).s);
      assert "(" + "group" + " " + Show(toText, x).s + ")" == "(group " + Show(toText, x).s + ")";
    case Unary(op, x) =>
      PrintBalanced(toText, x);
      ShowUnary(toText, op, x);
      WrapOne(op.lexeme, Show(toText, x).s);
    case Literal(v) =>
      Flat(LiteralText(toText, v));
  }

  /** The Binary case of `PrintBalanced`. */
  lemma BinaryBalanced(toText: real -> string, l: Expr, op: Token, r: Expr)
    requires NoParens(op.lexeme)
    requires Show(toText, l).Text? && Balanced(Show(toText, l).s) && Opens(Show(toText, l).s) == ParenNodes(l)
    requires Show(toText, r).Text? && Balanced(Show(toText, r).s) && Opens(Show(toText, r).s) == ParenNodes(r)
    ensures var p := Show(toText, Binary(l, op, r));
      p.Text? && Balanced(p.s) && Opens(p.s) == ParenNodes(Binary(l, op, r))
  {
    ShowBinary(toText, l, op, r);
    WrapTwo(op.lexeme, Show(toText, l).s, Show(toText, r).s);
  }

  /** `(name a)` is balanced when `a` is, with one `(` more. */
  lemma WrapOne(name: string, a: string)
    requires NoParens(name) && Balanced(a)
    ensures Balanced("(" + name + " " + a + ")") && Opens("(" + name + " " + a + ")") == 1 + Opens(a)
  {
    Spaced(a);
    Wrap(name, " " + a);
    assert "(" + name + (" " + a) + ")" == "(" + name + " " + a + ")";
  }

  /** `(name a b)` is balanced when `a` and `b` are, with one `(` more. */
  lemma WrapTwo(name: string, a: string, b: string)
    requires NoParens(name) && Balanced(a) && Balanced(b)
    ensures Balanced("(" + name + " " + a + " " + b + ")") && Opens("(" + name + " " + a + " " + b + ")") == 1 + Opens(a) + Opens(b)
  {
    Spaced(a);
    Spaced(b);
    Joined(" " + a, " " + b);
    Wrap(name, " " + a + (" " + b));
    assert "(" + name + (" " + a + (" " + b)) + ")" == "(" + name + " " + a + " " + b + ")";
  }

  lemma Spaced(a: string)
    requires Balanced(a)
    ensures Balanced(" " + a) && Opens(" " + a) == Opens(a)
  {
    Flat(" ");
    Concat(" ", a);
  }

  lemma Joined(a: string, b: string)
    requires Balanced(a) && Balanced(b)
    ensures Balanced(a + b) && Opens(a + b) == Opens(a) + Opens(b)
  {
    Concat(a, b);
  }
}
