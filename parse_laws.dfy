/**
 * What the grammar of Interpreter/Parser.cs promises, stated over the rules
 * of `ParseRules`: the shapes of the trees the precedence ladder builds,
 * `synchronize`'s stopping points, where `else` attaches, and how failed
 * declarations are accounted for.
 */
module ParseLaws {
  import opened Util
  import opened Tokens
  import opened Errors
  import opened Ast
  import opened ParseRules

  // ------------------------------------------------------------ atoms

  /** The tokens that `primary` turns into a node on their own. */
  predicate IsAtom(t: Token) {
    t.kind == False || t.kind == True || t.kind == Nil || t.kind == Number || t.kind == String || t.kind == Identifier
  }

  /** The node `primary` builds for an atom. */
  function AtomExpr(t: Token): Expr
    requires IsAtom(t)
  {
    if t.kind == False then Literal(BoolVal(false))
    else if t.kind == True then Literal(BoolVal(true))
    else if t.kind == Nil then Literal(NilVal)
    else if t.kind == Identifier then Variable(t)
    else Literal(t.literal)
  }

  /** The height of the binary level whose loop matches `kind`, or 0 for a kind no loop matches. */
  function OperatorHeight(kind: TokenType): nat {
    if kind == Or then 7
    else if kind == And then 6
    else if kind == BangEqual || kind == EqualEqual then 5
    else if kind == Greater || kind == GreaterEqual || kind == Less || kind == LessEqual then 4
    else if kind == Minus || kind == Plus then 3
    else if kind == Slash || kind == Star then 2
    else 0
  }

  /** Each operator a binary level matches has that level's height. */
  lemma OperatorsByHeight(level: Level, kind: TokenType)
    requires IsBinaryLevel(level) && kind in Operators(level)
    ensures OperatorHeight(kind) == Height(level)
  {
    match level
    case OrLevel => assert kind == Or;
    case AndLevel => assert kind == And;
    case EqualityLevel => assert kind == BangEqual || kind == EqualEqual;
    case ComparisonLevel => assert kind == Greater || kind == GreaterEqual || kind == Less || kind == LessEqual;
    case TermLevel => assert kind == Minus || kind == Plus;
    case FactorLevel => assert kind == Slash || kind == Star;
  }

  /** Whether one of the binary levels from `level` down to `factor` loops over `kind`. */
  predicate LoopsOver(level: Level, kind: TokenType) {
    2 <= OperatorHeight(kind) <= Height(level)
  }

  /**
   * An atom followed by no operator of the levels from `level` down is parsed
   * at `level` as the atom alone, consuming just that token.
   */
  lemma {:induction false} AtomParses(tokens: seq<Token>, level: Level, pos: nat, errors: seq<Diagnostic>)
    requires Wf(tokens, pos) && level != AssignmentLevel && IsAtom(tokens[pos])
    requires pos + 1 < |tokens| && !LoopsOver(level, tokens[pos + 1].kind)
    ensures var r := ExprAt(tokens, level, pos, errors);
      r.result == Built(AtomExpr(tokens[pos])) && r.pos == pos + 1 && r.errors == errors
    decreases Height(level)
  {
    if level == PrimaryLevel {
      PrimaryAtom(tokens, pos, errors);
    } else if level == UnaryLevel {
      UnaryAtom(tokens, pos, errors);
    } else {
      AtomParses(tokens, Next(level), pos, errors);
      BinaryAtom(tokens, level, pos, errors);
    }
  }

  /** The `primary` case of `AtomParses`. */
  lemma PrimaryAtom(tokens: seq<Token>, pos: nat, errors: seq<Diagnostic>)
    requires Wf(tokens, pos) && IsAtom(tokens[pos])
    ensures var r := ExprAt(tokens, PrimaryLevel, pos, errors);
      r.result == Built(AtomExpr(tokens[pos])) && r.pos == pos + 1 && r.errors == errors
  {
    PrimaryAtAtom(tokens, pos, errors);
  }

  /** The `unary` case of `AtomParses`: an atom is no prefix operator. */
  lemma UnaryAtom(tokens: seq<Token>, pos: nat, errors: seq<Diagnostic>)
    requires Wf(tokens, pos) && IsAtom(tokens[pos])
    ensures var r := ExprAt(tokens, UnaryLevel, pos, errors);
      r.result == Built(AtomExpr(tokens[pos])) && r.pos == pos + 1 && r.errors == errors
  {
    PrimaryAtom(tokens, pos, errors);
    assert !MatchAt(tokens, pos, {Bang, Minus});
    assert UnaryAt(tokens, pos, errors) == ExprAt(tokens, PrimaryLevel, pos, errors);
  }

  /** The binary case of `AtomParses`: the operand is the atom, and the loop does not start. */
  lemma BinaryAtom(tokens: seq<Token>, level: Level, pos: nat, errors: seq<Diagnostic>)
    requires Wf(tokens, pos) && IsBinaryLevel(level) && IsAtom(tokens[pos])
    requires pos + 1 < |tokens| && !LoopsOver(level, tokens[pos + 1].kind)
    requires var first := ExprAt(tokens, Next(level), pos, errors);
      first.result == Built(AtomExpr(tokens[pos])) && first.pos == pos + 1 && first.errors == errors
    ensures var r := ExprAt(tokens, level, pos, errors);
      r.result == Built(AtomExpr(tokens[pos])) && r.pos == pos + 1 && r.errors == errors
  {
    if tokens[pos + 1].kind in Operators(level) {
      OperatorsByHeight(level, tokens[pos + 1].kind);
    }
    assert !MatchAt(tokens, pos + 1, Operators(level));
    var first := ExprAt(tokens, Next(level), pos, errors);
    assert Fold(tokens, level, first.result.value, first.pos, first.errors) == ParseOut(first.result, first.pos, first.errors);
    assert ExprAt(tokens, level, pos, errors) == BinaryAt(tokens, level, pos, errors);
  }

  /** `primary` turns an atom into its node. */
  lemma PrimaryAtAtom(tokens: seq<Token>, pos: nat, errors: seq<Diagnostic>)
    requires Wf(tokens, pos) && IsAtom(tokens[pos])
    ensures var r := PrimaryAt(tokens, pos, errors);
      r.result == Built(AtomExpr(tokens[pos])) && r.pos == pos + 1 && r.errors == errors
  {
  }

  // ------------------------------------------------------------ left associativity

  /** `first` combined with each (operator, operand) pair in turn, the earlier ones nested deeper. */
  function LeftNest(level: Level, first: Expr, rest: seq<(Token, Expr)>): Expr
    requires IsBinaryLevel(level)
  {
    if |rest| == 0 then first
    else
      var last := rest[|rest| - 1];
      Combine(level, LeftNest(level, first, rest[..|rest| - 1]), last.0, last.1)
  }

  /** Combining the first pair off the front is the same left nesting. */
  lemma {:induction false} LeftNestFront(level: Level, first: Expr, p: (Token, Expr), rest: seq<(Token, Expr)>)
    requires IsBinaryLevel(level)
    ensures LeftNest(level, first, [p] + rest) == LeftNest(level, Combine(level, first, p.0, p.1), rest)
    decreases |rest|
  {
    if |rest| > 0 {
      assert ([p] + rest)[..|rest|] == [p] + rest[..|rest| - 1];
      LeftNestFront(level, first, p, rest[..|rest| - 1]);
    }
  }

  /**
   * From `pos`, `n` turns of the loop of `level` succeed: each matches an
   * operator of `level` and then parses its operand one level down, from the
   * diagnostics the turn before left; after them no operator of `level` follows.
   */
  predicate OperandChain(tokens: seq<Token>, level: Level, pos: nat, errors: seq<Diagnostic>, n: nat)
    requires Wf(tokens, pos) && IsBinaryLevel(level)
    decreases n
  {
    if n == 0 then !MatchAt(tokens, pos, Operators(level))
    else
      && MatchAt(tokens, pos, Operators(level)) && pos + 1 < |tokens|
      && var right := ExprAt(tokens, Next(level), pos + 1, errors);
         right.result.Built? && OperandChain(tokens, level, right.pos, right.errors, n - 1)
  }

  /** The (operator, operand) pairs of such a chain, in order. */
  function OperandPairs(tokens: seq<Token>, level: Level, pos: nat, errors: seq<Diagnostic>, n: nat): (ps: seq<(Token, Expr)>)
    requires Wf(tokens, pos) && IsBinaryLevel(level) && OperandChain(tokens, level, pos, errors, n)
    ensures |ps| == n
    decreases n
  {
    if n == 0 then []
    else
      var right := ExprAt(tokens, Next(level), pos + 1, errors);
      [(tokens[pos], right.result.value)] + OperandPairs(tokens, level, right.pos, right.errors, n - 1)
  }

  /** Where such a chain ends, and the diagnostics its operands left. */
  function ChainStop(tokens: seq<Token>, level: Level, pos: nat, errors: seq<Diagnostic>, n: nat): (stop: (nat, seq<Diagnostic>))
    requires Wf(tokens, pos) && IsBinaryLevel(level) && OperandChain(tokens, level, pos, errors, n)
    ensures pos + 2 * n <= stop.0 < |tokens| && errors <= stop.1
    decreases n
  {
    if n == 0 then (pos, errors)
    else
      var right := ExprAt(tokens, Next(level), pos + 1, errors);
      ChainStop(tokens, level, right.pos, right.errors, n - 1)
  }

  /** The loop of a binary level over such a chain folds it to the left. */
  lemma {:induction false} FoldOperands(tokens: seq<Token>, level: Level, left: Expr, pos: nat, errors: seq<Diagnostic>, n: nat)
    requires Wf(tokens, pos) && IsBinaryLevel(level) && OperandChain(tokens, level, pos, errors, n)
    ensures var stop := ChainStop(tokens, level, pos, errors, n);
      Fold(tokens, level, left, pos, errors) == ParseOut(Built(LeftNest(level, left, OperandPairs(tokens, level, pos, errors, n))), stop.0, stop.1)
    decreases n
  {
    if n > 0 {
      var right := ExprAt(tokens, Next(level), pos + 1, errors);
      var rest := OperandPairs(tokens, level, right.pos, right.errors, n - 1);
      FoldOperands(tokens, level, Combine(level, left, tokens[pos], right.result.value), right.pos, right.errors, n - 1);
      LeftNestFront(level, left, (tokens[pos], right.result.value), rest);
      FoldTurn(tokens, level, left, pos, errors, n);
    }
  }

  /** One turn of the loop over a chain: the tree so far becomes the left operand of the first pair. */
  lemma FoldTurn(tokens: seq<Token>, level: Level, left: Expr, pos: nat, errors: seq<Diagnostic>, n: nat)
    requires Wf(tokens, pos) && IsBinaryLevel(level) && n > 0 && OperandChain(tokens, level, pos, errors, n)
    ensures var right := ExprAt(tokens, Next(level), pos + 1, errors);
      && Fold(tokens, level, left, pos, errors) == Fold(tokens, level, Combine(level, left, tokens[pos], right.result.value), right.pos, right.errors)
      && OperandPairs(tokens, level, pos, errors, n) == [(tokens[pos], right.result.value)] + OperandPairs(tokens, level, right.pos, right.errors, n - 1)
      && ChainStop(tokens, level, pos, errors, n) == ChainStop(tokens, level, right.pos, right.errors, n - 1)
  {
  }

  /**
   * `x op y op z ...` at a binary level, whose operands are whatever the
   * level below parses, is `((x op y) op z) ...`: every binary level is
   * left-associative, and it stops where the chain stops.
   */
  lemma LeftAssociative(tokens: seq<Token>, level: Level, pos: nat, errors: seq<Diagnostic>, n: nat)
    requires Wf(tokens, pos) && IsBinaryLevel(level)
    requires var first := ExprAt(tokens, Next(level), pos, errors);
      first.result.Built? && OperandChain(tokens, level, first.pos, first.errors, n)
    ensures var first := ExprAt(tokens, Next(level), pos, errors);
      var stop := ChainStop(tokens, level, first.pos, first.errors, n);
      ExprAt(tokens, level, pos, errors)
        == ParseOut(Built(LeftNest(level, first.result.value, OperandPairs(tokens, level, first.pos, first.errors, n))), stop.0, stop.1)
  {
    var first := ExprAt(tokens, Next(level), pos, errors);
    FoldOperands(tokens, level, first.result.value, first.pos, first.errors, n);
    assert ExprAt(tokens, level, pos, errors) == BinaryAt(tokens, level, pos, errors);
  }

  /** A single turn of the loop: an operator and an operand, then no operator of `level`. */
  lemma OneOperand(tokens: seq<Token>, level: Level, pos: nat, errors: seq<Diagnostic>)
    requires Wf(tokens, pos) && IsBinaryLevel(level) && MatchAt(tokens, pos, Operators(level)) && pos + 1 < |tokens|
    requires var right := ExprAt(tokens, Next(level), pos + 1, errors);
      right.result.Built? && !MatchAt(tokens, right.pos, Operators(level))
    ensures OperandChain(tokens, level, pos, errors, 1)
    ensures var right := ExprAt(tokens, Next(level), pos + 1, errors);
      && OperandPairs(tokens, level, pos, errors, 1) == [(tokens[pos], right.result.value)]
      && ChainStop(tokens, level, pos, errors, 1) == (right.pos, right.errors)
  {
    var right := ExprAt(tokens, Next(level), pos + 1, errors);
    assert OperandChain(tokens, level, right.pos, right.errors, 0);
    assert OperandPairs(tokens, level, right.pos, right.errors, 0) == [];
  }

  /** Two turns of the loop, each with an atom as its operand. */
  lemma TwoAtomOperands(tokens: seq<Token>, level: Level, pos: nat, errors: seq<Diagnostic>)
    requires Wf(tokens, pos) && IsBinaryLevel(level) && pos + 4 < |tokens|
    requires MatchAt(tokens, pos, Operators(level)) && IsAtom(tokens[pos + 1])
    requires MatchAt(tokens, pos + 2, Operators(level)) && IsAtom(tokens[pos + 3])
    requires !LoopsOver(level, tokens[pos + 4].kind)
    ensures OperandChain(tokens, level, pos, errors, 2)
    ensures OperandPairs(tokens, level, pos, errors, 2) == [(tokens[pos], AtomExpr(tokens[pos + 1])), (tokens[pos + 2], AtomExpr(tokens[pos + 3]))]
    ensures ChainStop(tokens, level, pos, errors, 2) == (pos + 4, errors)
  {
    OperatorsByHeight(level, tokens[pos + 2].kind);
    AtomParses(tokens, Next(level), pos + 1, errors);
    AtomParses(tokens, Next(level), pos + 3, errors);
    if tokens[pos + 4].kind in Operators(level) {
      OperatorsByHeight(level, tokens[pos + 4].kind);
    }
    OneOperand(tokens, level, pos + 2, errors);
  }

  /** Two pairs nest as two steps. */
  lemma LeftNestTwo(level: Level, first: Expr, p: (Token, Expr), q: (Token, Expr))
    requires IsBinaryLevel(level)
    ensures LeftNest(level, first, [p, q]) == Combine(level, Combine(level, first, p.0, p.1), q.0, q.1)
  {
    assert [p, q][..1] == [p];
    assert [p][..0] == [];
    assert LeftNest(level, first, [p]) == Combine(level, first, p.0, p.1);
  }

  /** One pair nests as one step. */
  lemma LeftNestOne(level: Level, first: Expr, p: (Token, Expr))
    requires IsBinaryLevel(level)
    ensures LeftNest(level, first, [p]) == Combine(level, first, p.0, p.1)
  {
    assert [p][..0] == [];
  }

  /** `a - b - c` is `(a - b) - c`. */
  lemma SubtractionGroupsLeft(tokens: seq<Token>, pos: nat, errors: seq<Diagnostic>)
    requires Wf(tokens, pos) && pos + 5 < |tokens|
    requires IsAtom(tokens[pos]) && tokens[pos + 1].kind == Minus && IsAtom(tokens[pos + 2])
    requires tokens[pos + 3].kind == Minus && IsAtom(tokens[pos + 4])
    requires !LoopsOver(TermLevel, tokens[pos + 5].kind)
    ensures ExprAt(tokens, TermLevel, pos, errors)
      == ParseOut(Built(Binary(Binary(AtomExpr(tokens[pos]), tokens[pos + 1], AtomExpr(tokens[pos + 2])), tokens[pos + 3], AtomExpr(tokens[pos + 4]))), pos + 5, errors)
  {
    AtomParses(tokens, FactorLevel, pos, errors);
    TwoAtomOperands(tokens, TermLevel, pos + 1, errors);
    LeftAssociative(tokens, TermLevel, pos, errors, 2);
    LeftNestTwo(TermLevel, AtomExpr(tokens[pos]), (tokens[pos + 1], AtomExpr(tokens[pos + 2])), (tokens[pos + 3], AtomExpr(tokens[pos + 4])));
  }

  // ------------------------------------------------------------ precedence

  /** `b * c` at `factor`: one product of two atoms. */
  lemma ProductOfAtoms(tokens: seq<Token>, pos: nat, errors: seq<Diagnostic>)
    requires Wf(tokens, pos) && pos + 3 < |tokens|
    requires IsAtom(tokens[pos]) && tokens[pos + 1].kind == Star && IsAtom(tokens[pos + 2])
    requires !LoopsOver(FactorLevel, tokens[pos + 3].kind)
    ensures ExprAt(tokens, FactorLevel, pos, errors)
      == ParseOut(Built(Binary(AtomExpr(tokens[pos]), tokens[pos + 1], AtomExpr(tokens[pos + 2]))), pos + 3, errors)
  {
    AtomParses(tokens, UnaryLevel, pos, errors);
    AtomParses(tokens, UnaryLevel, pos + 2, errors);
    OneOperand(tokens, FactorLevel, pos + 1, errors);
    LeftAssociative(tokens, FactorLevel, pos, errors, 1);
    LeftNestOne(FactorLevel, AtomExpr(tokens[pos]), (tokens[pos + 1], AtomExpr(tokens[pos + 2])));
  }

  /** `a - b * c` is `a - (b * c)`: `factor` binds tighter than `term`. */
  lemma ProductBindsTighter(tokens: seq<Token>, pos: nat, errors: seq<Diagnostic>)
    requires Wf(tokens, pos) && pos + 5 < |tokens|
    requires IsAtom(tokens[pos]) && tokens[pos + 1].kind == Minus && IsAtom(tokens[pos + 2])
    requires tokens[pos + 3].kind == Star && IsAtom(tokens[pos + 4])
    requires !LoopsOver(TermLevel, tokens[pos + 5].kind)
    ensures ExprAt(tokens, TermLevel, pos, errors)
      == ParseOut(Built(Binary(AtomExpr(tokens[pos]), tokens[pos + 1], Binary(AtomExpr(tokens[pos + 2]), tokens[pos + 3], AtomExpr(tokens[pos + 4])))), pos + 5, errors)
  {
    AtomParses(tokens, FactorLevel, pos, errors);
    ProductOfAtoms(tokens, pos + 2, errors);
    OneOperand(tokens, TermLevel, pos + 1, errors);
    LeftAssociative(tokens, TermLevel, pos, errors, 1);
    LeftNestOne(TermLevel, AtomExpr(tokens[pos]), (tokens[pos + 1], Binary(AtomExpr(tokens[pos + 2]), tokens[pos + 3], AtomExpr(tokens[pos + 4]))));
  }

  /** `-a` at `unary`: the operator applied to the atom. */
  lemma NegatedAtom(tokens: seq<Token>, pos: nat, errors: seq<Diagnostic>)
    requires Wf(tokens, pos) && pos + 1 < |tokens| && tokens[pos].kind == Minus && IsAtom(tokens[pos + 1])
    ensures ExprAt(tokens, UnaryLevel, pos, errors) == ParseOut(Built(Unary(tokens[pos], AtomExpr(tokens[pos + 1]))), pos + 2, errors)
  {
    UnaryAtom(tokens, pos + 1, errors);
    UnaryStep(tokens, pos, errors);
  }

  /** `-a * b` is `(-a) * b`: a prefix operator binds tighter than `factor`. */
  lemma NegationBindsTighter(tokens: seq<Token>, pos: nat, errors: seq<Diagnostic>)
    requires Wf(tokens, pos) && pos + 4 < |tokens|
    requires tokens[pos].kind == Minus && IsAtom(tokens[pos + 1]) && tokens[pos + 2].kind == Star && IsAtom(tokens[pos + 3])
    requires !LoopsOver(FactorLevel, tokens[pos + 4].kind)
    ensures ExprAt(tokens, FactorLevel, pos, errors)
      == ParseOut(Built(Binary(Unary(tokens[pos], AtomExpr(tokens[pos + 1])), tokens[pos + 2], AtomExpr(tokens[pos + 3]))), pos + 4, errors)
  {
    NegatedAtom(tokens, pos, errors);
    AtomParses(tokens, UnaryLevel, pos + 3, errors);
    OneOperand(tokens, FactorLevel, pos + 2, errors);
    LeftAssociative(tokens, FactorLevel, pos, errors, 1);
    LeftNestOne(FactorLevel, Unary(tokens[pos], AtomExpr(tokens[pos + 1])), (tokens[pos + 2], AtomExpr(tokens[pos + 3])));
  }

  // ------------------------------------------------------------ unary

  /** From `pos`, `k` prefix operators and then an atom. */
  predicate PrefixChain(tokens: seq<Token>, pos: nat, k: nat)
    decreases k
  {
    if k == 0 then pos < |tokens| && IsAtom(tokens[pos])
    else pos + 1 < |tokens| && MatchAt(tokens, pos, {Bang, Minus}) && PrefixChain(tokens, pos + 1, k - 1)
  }

  /** The operators of such a chain applied to its atom, the first one outermost. */
  function Prefixed(tokens: seq<Token>, pos: nat, k: nat): Expr
    requires PrefixChain(tokens, pos, k)
    decreases k
  {
    if k == 0 then AtomExpr(tokens[pos]) else Unary(tokens[pos], Prefixed(tokens, pos + 1, k - 1))
  }

  /** A prefix operator applies to the whole `unary` after it. */
  lemma UnaryStep(tokens: seq<Token>, pos: nat, errors: seq<Diagnostic>)
    requires Wf(tokens, pos) && MatchAt(tokens, pos, {Bang, Minus})
    requires pos + 1 < |tokens| && ExprAt(tokens, UnaryLevel, pos + 1, errors).result.Built?
    ensures var right := ExprAt(tokens, UnaryLevel, pos + 1, errors);
      var r := ExprAt(tokens, UnaryLevel, pos, errors);
      r.result == Built(Unary(tokens[pos], right.result.value)) && r.pos == right.pos && r.errors == right.errors
  {
    assert ExprAt(tokens, UnaryLevel, pos, errors) == UnaryAt(tokens, pos, errors);
  }

  /** `!`/`-` nest to the right: `- ! x` is `-(!x)`. */
  lemma {:induction false} UnaryRightAssociative(tokens: seq<Token>, pos: nat, errors: seq<Diagnostic>, k: nat)
    requires Wf(tokens, pos) && PrefixChain(tokens, pos, k)
    ensures var r := ExprAt(tokens, UnaryLevel, pos, errors);
      r.result == Built(Prefixed(tokens, pos, k)) && r.pos == pos + k + 1 && r.errors == errors
    decreases k
  {
    if k == 0 {
      UnaryAtom(tokens, pos, errors);
    } else {
      UnaryRightAssociative(tokens, pos + 1, errors, k - 1);
      UnaryStep(tokens, pos, errors);
    }
  }

  // ------------------------------------------------------------ assignment

  /** A token after which `assignment` has nothing more to take. */
  predicate EndsAssignment(kind: TokenType) {
    !LoopsOver(OrLevel, kind) && kind != Equal
  }

  /** From `pos`, `k` pairs of a name and `=`, then an atom, then a token that ends the expression. */
  predicate AssignChain(tokens: seq<Token>, pos: nat, k: nat)
    decreases k
  {
    if k == 0 then pos + 1 < |tokens| && IsAtom(tokens[pos]) && EndsAssignment(tokens[pos + 1].kind)
    else pos + 2 < |tokens| && tokens[pos].kind == Identifier && tokens[pos + 1].kind == Equal && AssignChain(tokens, pos + 2, k - 1)
  }

  /** The assignments of such a chain, the first one outermost. */
  function Assigned(tokens: seq<Token>, pos: nat, k: nat): Expr
    requires AssignChain(tokens, pos, k)
    decreases k
  {
    if k == 0 then AtomExpr(tokens[pos]) else Assign(tokens[pos], Assigned(tokens, pos + 2, k - 1))
  }

  /** An atom followed by a token that ends the expression is the whole `assignment`. */
  lemma AssignStop(tokens: seq<Token>, pos: nat, errors: seq<Diagnostic>)
    requires Wf(tokens, pos) && IsAtom(tokens[pos]) && pos + 1 < |tokens| && EndsAssignment(tokens[pos + 1].kind)
    ensures var r := ExprAt(tokens, AssignmentLevel, pos, errors);
      r.result == Built(AtomExpr(tokens[pos])) && r.pos == pos + 1 && r.errors == errors
  {
    AtomParses(tokens, OrLevel, pos, errors);
    assert ExprAt(tokens, AssignmentLevel, pos, errors) == AssignmentAt(tokens, pos, errors);
  }

  /** `name = ...` assigns the whole `assignment` after the `=` to the name. */
  lemma AssignStep(tokens: seq<Token>, pos: nat, errors: seq<Diagnostic>)
    requires Wf(tokens, pos) && pos + 2 < |tokens| && tokens[pos].kind == Identifier && tokens[pos + 1].kind == Equal
    requires ExprAt(tokens, AssignmentLevel, pos + 2, errors).result.Built?
    ensures var rhs := ExprAt(tokens, AssignmentLevel, pos + 2, errors);
      var r := ExprAt(tokens, AssignmentLevel, pos, errors);
      r.result == Built(Assign(tokens[pos], rhs.result.value)) && r.pos == rhs.pos && r.errors == rhs.errors
  {
    AtomParses(tokens, OrLevel, pos, errors);
    assert ExprAt(tokens, AssignmentLevel, pos, errors) == AssignmentAt(tokens, pos, errors);
  }

  /** `a = b = c` is `a = (b = c)`: assignment is right-associative. */
  lemma {:induction false} AssignmentRightAssociative(tokens: seq<Token>, pos: nat, errors: seq<Diagnostic>, k: nat)
    requires Wf(tokens, pos) && AssignChain(tokens, pos, k)
    ensures var r := ExprAt(tokens, AssignmentLevel, pos, errors);
      r.result == Built(Assigned(tokens, pos, k)) && r.pos == pos + 2 * k + 1 && r.errors == errors
    decreases k
  {
    if k == 0 {
      AssignStop(tokens, pos, errors);
    } else {
      AssignmentRightAssociative(tokens, pos + 2, errors, k - 1);
      AssignChainStep(tokens, pos, errors, k);
    }
  }

  /** The inductive step of `AssignmentRightAssociative`. */
  lemma AssignChainStep(tokens: seq<Token>, pos: nat, errors: seq<Diagnostic>, k: nat)
    requires Wf(tokens, pos) && k > 0 && AssignChain(tokens, pos, k)
    requires var rhs := ExprAt(tokens, AssignmentLevel, pos + 2, errors);
      rhs.result == Built(Assigned(tokens, pos + 2, k - 1)) && rhs.pos == pos + 2 + 2 * (k - 1) + 1 && rhs.errors == errors
    ensures var r := ExprAt(tokens, AssignmentLevel, pos, errors);
      r.result == Built(Assigned(tokens, pos, k)) && r.pos == pos + 2 * k + 1 && r.errors == errors
  {
    AssignStep(tokens, pos, errors);
  }

  /**
   * `1 = ...`: a target that is not a variable is reported at the `=`, the
   * parse goes on, and the target itself is the result.
   */
  lemma InvalidTargetReported(tokens: seq<Token>, pos: nat, errors: seq<Diagnostic>)
    requires Wf(tokens, pos) && pos + 2 < |tokens| && IsAtom(tokens[pos]) && tokens[pos].kind != Identifier
    requires tokens[pos + 1].kind == Equal && ExprAt(tokens, AssignmentLevel, pos + 2, errors).result.Built?
    ensures var rhs := ExprAt(tokens, AssignmentLevel, pos + 2, errors);
      var r := ExprAt(tokens, AssignmentLevel, pos, errors);
      && r.result == Built(AtomExpr(tokens[pos])) && r.pos == rhs.pos
      && r.errors == rhs.errors + [TokenError(tokens[pos + 1], InvalidAssignmentTarget)]
  {
    AtomParses(tokens, OrLevel, pos, errors);
    assert ExprAt(tokens, AssignmentLevel, pos, errors) == AssignmentAt(tokens, pos, errors);
  }

  // ------------------------------------------------------------ expected expression

  /**
   * `primary` throws without consuming exactly when the token cannot start
   * it, and then it reports `Expected expression` at that token.
   */
  lemma PrimaryFailsExactly(tokens: seq<Token>, pos: nat, errors: seq<Diagnostic>)
    requires Wf(tokens, pos)
    ensures var r := PrimaryAt(tokens, pos, errors);
      !MatchAt(tokens, pos, PrimaryStarts) <==> r.result.Unwind? && r.pos == pos
    ensures !MatchAt(tokens, pos, PrimaryStarts) ==>
      PrimaryAt(tokens, pos, errors).errors == errors + [TokenError(tokens[pos], ExpectedExpression)]
  {
  }

  /** A rule that reports `Expected expression` at `pos` and unwinds without consuming. */
  predicate FailsAt(tokens: seq<Token>, pos: nat, errors: seq<Diagnostic>, r: ParseOut<Expr>)
    requires pos < |tokens|
  {
    r.result.Unwind? && r.pos == pos && r.errors == errors + [TokenError(tokens[pos], ExpectedExpression)]
  }

  /** `unary` without a prefix operator fails exactly as `primary` does. */
  lemma UnaryFails(tokens: seq<Token>, pos: nat, errors: seq<Diagnostic>)
    requires Wf(tokens, pos) && !MatchAt(tokens, pos, PrimaryStarts) && !MatchAt(tokens, pos, {Bang, Minus})
    ensures FailsAt(tokens, pos, errors, UnaryAt(tokens, pos, errors))
  {
    PrimaryFailsExactly(tokens, pos, errors);
    assert UnaryAt(tokens, pos, errors) == PrimaryAt(tokens, pos, errors);
  }

  /** A binary level whose first operand fails passes that failure on. */
  lemma BinaryFails(tokens: seq<Token>, level: Level, pos: nat, errors: seq<Diagnostic>)
    requires Wf(tokens, pos) && IsBinaryLevel(level)
    requires FailsAt(tokens, pos, errors, ExprAt(tokens, Next(level), pos, errors))
    ensures FailsAt(tokens, pos, errors, BinaryAt(tokens, level, pos, errors))
  {
  }

  /**
   * Where no expression can start, every level of the ladder reports
   * `Expected expression` at that token, once, and consumes nothing.
   */
  lemma {:induction false} NoExpressionStart(tokens: seq<Token>, level: Level, pos: nat, errors: seq<Diagnostic>)
    requires Wf(tokens, pos) && !MatchAt(tokens, pos, PrimaryStarts) && !MatchAt(tokens, pos, {Bang, Minus})
    ensures var r := ExprAt(tokens, level, pos, errors);
      r.result.Unwind? && r.pos == pos && r.errors == errors + [TokenError(tokens[pos], ExpectedExpression)]
    decreases Height(level)
  {
    match level
    case PrimaryLevel =>
      PrimaryFailsExactly(tokens, pos, errors);
    case UnaryLevel =>
      UnaryFails(tokens, pos, errors);
    case AssignmentLevel =>
      NoExpressionStart(tokens, OrLevel, pos, errors);
      assert ExprAt(tokens, OrLevel, pos, errors) == AssignmentAt(tokens, pos, errors);
    case _ =>
      NoExpressionStart(tokens, Next(level), pos, errors);
      BinaryFails(tokens, level, pos, errors);
  }

  // ------------------------------------------------------------ dangling else

  /**
   * In `if (a) if (b) s1 else s2` the `else` goes to the inner `if`: an
   * outer `if` whose then-branch is an `if` without `else` has no `else`.
   */
  lemma ElseBindsToNearestIf(tokens: seq<Token>, condition: Expr, pos: nat, errors: seq<Diagnostic>)
    requires Wf(tokens, pos)
    ensures var r := IfBranches(tokens, condition, pos, errors);
      r.result.Built? && r.result.value.thenBranch.IfStmt? && r.result.value.thenBranch.elseBranch.None? ==>
        r.result.value.elseBranch.None?
  {
    var then_ := Statement(tokens, pos, errors);
    if then_.result.Built? {
      assert MatchAt(tokens, then_.pos, {Else}) ==> CheckAt(tokens, then_.pos, Else);
    }
  }

  // ------------------------------------------------------------ synchronize

  /** Why the loop of `synchronize` stops at `q`: EOF, just after `;`, or just before a statement keyword. */
  predicate SyncPoint(tokens: seq<Token>, q: nat)
    requires q < |tokens|
  {
    AtEnd(tokens, q) || (q > 0 && tokens[q - 1].kind == Semicolon) || tokens[q].kind in StatementStarts
  }

  /** The loop of `synchronize` stops at the first such point from `p`. */
  lemma {:induction false} SyncLoopStops(tokens: seq<Token>, p: nat)
    requires Wf(tokens, p) && (p >= 1 || AtEnd(tokens, p))
    ensures SyncPoint(tokens, SyncLoop(tokens, p))
    ensures forall j | p <= j < SyncLoop(tokens, p) :: j < |tokens| && !SyncPoint(tokens, j)
    decreases |tokens| - p
  {
    if !SyncPoint(tokens, p) {
      SyncLoopStops(tokens, p + 1);
    }
  }

  /**
   * `synchronize` skips the token it starts at (unless it is EOF), then stops
   * at the first point after it where a statement may begin.
   */
  lemma SynchronizeStops(tokens: seq<Token>, pos: nat)
    requires Wf(tokens, pos)
    ensures var q := Synchronize(tokens, pos);
      && SyncPoint(tokens, q)
      && (AtEnd(tokens, pos) ==> q == pos)
      && (!AtEnd(tokens, pos) ==> pos < q && forall j | pos < j < q :: !SyncPoint(tokens, j))
  {
    SyncLoopStops(tokens, Advanced(tokens, pos));
  }

  // ------------------------------------------------------------ null entries

  /** How many entries of a statement list are `null`. */
  function CountNone(items: seq<Option<Stmt>>): nat {
    if |items| == 0 then 0
    else CountNone(items[..|items| - 1]) + (if items[|items| - 1].None? then 1 else 0)
  }

  lemma CountNoneSnoc(items: seq<Option<Stmt>>, x: Option<Stmt>)
    ensures CountNone(items + [x]) == CountNone(items) + (if x.None? then 1 else 0)
  {
    assert (items + [x])[..|items|] == items;
  }

  /** Every `null` entry `parse` adds comes with at least one diagnostic. */
  lemma {:induction false} ProgramNullsReported(tokens: seq<Token>, pos: nat, errors: seq<Diagnostic>, done: seq<Option<Stmt>>)
    requires Wf(tokens, pos)
    ensures var r := Program(tokens, pos, errors, done);
      CountNone(r.result.value) + |errors| <= CountNone(done) + |r.errors|
    decreases |tokens| - pos
  {
    if !AtEnd(tokens, pos) {
      var d := Declaration(tokens, pos, errors);
      CountNoneSnoc(done, d.result.value);
      ProgramNullsReported(tokens, d.pos, d.errors, done + [d.result.value]);
    }
  }

  /** Every `null` entry of a block comes with at least one diagnostic. */
  lemma {:induction false} BlockNullsReported(tokens: seq<Token>, pos: nat, errors: seq<Diagnostic>, done: seq<Option<Stmt>>)
    requires Wf(tokens, pos)
    ensures var r := BlockItems(tokens, pos, errors, done);
      CountNone(r.result.value) + |errors| <= CountNone(done) + |r.errors|
    decreases |tokens| - pos
  {
    if !(CheckAt(tokens, pos, RightBrace) || AtEnd(tokens, pos)) {
      var d := Declaration(tokens, pos, errors);
      CountNoneSnoc(done, d.result.value);
      BlockNullsReported(tokens, d.pos, d.errors, done + [d.result.value]);
    }
  }
}
