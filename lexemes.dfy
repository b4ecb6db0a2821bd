/**
 * What the lexer produces, stated without the lexer (Interpreter/Scanner.cs):
 * `Lexed` says when a token is the right reading of a slice of the source,
 * and `ScanErrors` what the lexer may report.
 */
module Lexemes {
  import opened Util
  import opened Tokens
  import opened Errors

  /** Where a token's lexeme sits in the source: `source[lo..hi]`. */
  datatype Span = Span(lo: nat, hi: nat)

  // ------------------------------------------------------------ characters

  /** `peek`/`peekNext`: the character at `i`, or `'\0'` past the end. */
  function CharAt(source: string, i: nat): char {
    if i < |source| then source[i] else '\0'
  }

  /** `isAlpha`: an ASCII letter or `_`. */
  predicate IsAlpha(c: char) {
    ('a' <= c <= 'z') || ('A' <= c <= 'Z') || c == '_'
  }

  /** `isAlphaNumeric`. */
  predicate IsAlphaNumeric(c: char) {
    IsAlpha(c) || IsDigit(c)
  }

  /**
   * The character classes of the lexer: the digits are the ten listed, no
   * letter is a digit (so the digit test before the letter test in
   * `scanToken` hides nothing), a word continues with a letter or one of
   * those digits, and the `'\0'` that `peek` gives past the end continues
   * neither a word nor a number.
   */
  lemma CharClasses(c: char)
    ensures IsDigit(c) <==> c in "0123456789"
    ensures IsAlpha(c) ==> !IsDigit(c)
    ensures IsAlphaNumeric(c) <==> IsAlpha(c) || c in "0123456789"
    ensures c == '\0' ==> !IsAlphaNumeric(c) && !IsDigit(c)
  {
  }

  /** The reserved-word table. */
  const Keywords: map<string, TokenType> := map[
    "and" := And, "class" := Class, "else" := Else, "false" := False,
    "for" := For, "fun" := Fun, "if" := If, "nil" := Nil,
    "or" := Or, "print" := Print, "return" := Return, "super" := Super,
    "this" := This, "true" := True, "var" := Var, "while" := While]

  /** The kind `identifier` gives a word: its keyword, or `Identifier`. */
  function WordKind(text: string): TokenType {
    if text in Keywords then Keywords[text] else Identifier
  }

  /** The reserved word a keyword kind is spelled as, or "" for any other kind. */
  function KeywordSpelling(kind: TokenType): string {
    match kind
    case And => "and" case Class => "class" case Else => "else" case False => "false"
    case For => "for" case Fun => "fun" case If => "if" case Nil => "nil"
    case Or => "or" case Print => "print" case Return => "return" case Super => "super"
    case This => "this" case True => "true" case Var => "var" case While => "while"
    case _ => ""
  }

  /**
   * The reserved-word table maps each word to a kind of its own, spelled as
   * that word, and never to `Identifier`: no two reserved words share a kind.
   */
  lemma KeywordTable()
    ensures forall w | w in Keywords :: Keywords[w] != Identifier && KeywordSpelling(Keywords[w]) == w
    ensures forall a, b | a in Keywords && b in Keywords && Keywords[a] == Keywords[b] :: a == b
  {
    assert forall w | w in Keywords :: KeywordSpelling(Keywords[w]) == w;
  }

  /** Every reserved word is shaped like an identifier, so `identifier` can reach each one. */
  lemma KeywordsAreWords()
    ensures forall w | w in Keywords :: IsWord(w)
  {
  }

  /** `identifier` gives a reserved word its own kind and every other word `Identifier`. */
  lemma WordKindExact(text: string)
    ensures WordKind(text) != Identifier <==> text in Keywords
    ensures text in Keywords ==> KeywordSpelling(WordKind(text)) == text
  {
    KeywordTable();
  }

  /** A word is never a string, number, EOF or operator token. */
  lemma WordKindIsWordy(text: string)
    ensures var k := WordKind(text); k != String && k != Number && k != EOF && !IsOperatorKind(k)
  {
  }

  /** An identifier-shaped lexeme: a letter or `_`, then letters, digits and `_`. */
  predicate IsWord(s: string) {
    |s| > 0 && IsAlpha(s[0]) && forall k :: 0 < k < |s| ==> IsAlphaNumeric(s[k])
  }

  /** The position of the first `.`, or the length when there is none. */
  function DotIndex(s: string): (p: nat)
    ensures p <= |s|
    ensures p < |s| ==> s[p] == '.'
    ensures forall k :: 0 <= k < p ==> s[k] != '.'
  {
    if |s| == 0 then 0 else if s[0] == '.' then 0 else 1 + DotIndex(s[1..])
  }

  /** Digits, optionally followed by `.` and at least one more digit. */
  predicate IsNumberLexeme(s: string) {
    var p := DotIndex(s);
    p > 0 && AllDigits(s[..p]) && (p == |s| || (p < |s| - 1 && AllDigits(s[p + 1..])))
  }

  /** The value of the digits after the point: `0.d1d2...` */
  function FractionValue(f: string): real
    requires AllDigits(f)
  {
    if |f| == 0 then 0.0 else ((f[0] as int - '0' as int) as real + FractionValue(f[1..])) / 10.0
  }

  /** The exact value of a number lexeme (`Double.Parse` would round it to a double). */
  function DecimalValue(s: string): real
    requires IsNumberLexeme(s)
  {
    var p := DotIndex(s);
    if p == |s| then DigitsValue(s) as real
    else DigitsValue(s[..p]) as real + FractionValue(s[p + 1..])
  }

  /** `"`, anything but `"`, `"`. */
  predicate IsStringLexeme(s: string) {
    |s| >= 2 && s[0] == '"' && s[|s| - 1] == '"' && forall k :: 0 < k < |s| - 1 ==> s[k] != '"'
  }

  /** How many line breaks `source[lo..hi]` holds, counted from the right. */
  function NewlinesIn(source: string, lo: nat, hi: nat): nat
    requires lo <= hi <= |source|
    decreases hi
  {
    if lo == hi then 0 else NewlinesIn(source, lo, hi - 1) + (if source[hi - 1] == '\n' then 1 else 0)
  }

  /** `NewlinesIn` is the number of `'\n'` in the slice. */
  lemma {:induction false} NewlinesInCounts(source: string, lo: nat, hi: nat)
    requires lo <= hi <= |source|
    ensures NewlinesIn(source, lo, hi) == multiset(source[lo..hi])['\n']
    decreases hi
  {
    if lo < hi {
      NewlinesInCounts(source, lo, hi - 1);
      assert source[lo..hi] == source[lo..hi - 1] + [source[hi - 1]];
    }
  }

  // ------------------------------------------------------------ what a token is

  /**
   * The lexeme of a punctuation or operator token, given the character after
   * it: a one-character operator that has a two-character form is never
   * followed by `=`, and `/` is never followed by `/` or `*`.
   */
  predicate OperatorLexed(kind: TokenType, lexeme: string, next: char) {
    match kind
    case LeftParen => lexeme == "("
    case RightParen => lexeme == ")"
    case LeftBrace => lexeme == "{"
    case RightBrace => lexeme == "}"
    case Comma => lexeme == ","
    case Dot => lexeme == "."
    case Minus => lexeme == "-"
    case Plus => lexeme == "+"
    case Semicolon => lexeme == ";"
    case Star => lexeme == "*"
    case Slash => lexeme == "/" && next != '/' && next != '*'
    case Bang => lexeme == "!" && next != '='
    case BangEqual => lexeme == "!="
    case Equal => lexeme == "=" && next != '='
    case EqualEqual => lexeme == "=="
    case Less => lexeme == "<" && next != '='
    case LessEqual => lexeme == "<="
    case Greater => lexeme == ">" && next != '='
    case GreaterEqual => lexeme == ">="
    case _ => false
  }

  predicate IsOperatorKind(kind: TokenType) {
    kind in {LeftParen, RightParen, LeftBrace, RightBrace, Comma, Dot, Minus, Plus,
             Semicolon, Star, Slash, Bang, BangEqual, Equal, EqualEqual,
             Less, LessEqual, Greater, GreaterEqual}
  }

  /** A number lexeme is maximal: no digit follows, and no `.digit` when it has no fraction. */
  predicate NumberEnds(source: string, hi: nat, lexeme: string)
    requires IsNumberLexeme(lexeme)
  {
    !IsDigit(CharAt(source, hi)) &&
    (DotIndex(lexeme) == |lexeme| ==> !(CharAt(source, hi) == '.' && IsDigit(CharAt(source, hi + 1))))
  }

  /** Token `t` was scanned from `source[sp.lo..sp.hi]`. */
  ghost predicate Lexed(source: string, t: Token, sp: Span) {
    && sp.lo < sp.hi <= |source|
    && t.lexeme == source[sp.lo..sp.hi]
    && Shaped(t.kind, t.lexeme, t.literal, source, sp.hi)
  }

  /**
   * Kind, lexeme and literal agree, given what follows the lexeme at `hi`.
   * No lexeme is ever an EOF token.
   */
  ghost predicate Shaped(kind: TokenType, lexeme: string, literal: Value, source: string, hi: nat) {
    if kind == String then
      IsStringLexeme(lexeme) && literal == StrVal(lexeme[1..|lexeme| - 1])
    else if kind == Number then
      IsNumberLexeme(lexeme) && NumberEnds(source, hi, lexeme) && literal == NumVal(DecimalValue(lexeme))
    else if kind == EOF then false
    else
      literal == NilVal &&
      if IsOperatorKind(kind) then OperatorLexed(kind, lexeme, CharAt(source, hi))
      else IsWord(lexeme) && !IsAlphaNumeric(CharAt(source, hi)) && WordKind(lexeme) == kind
  }

  /** Token `i` was lexed from span `i`. */
  ghost predicate LexedAt(source: string, tokens: seq<Token>, spans: seq<Span>, i: nat) {
    i < |tokens| && i < |spans| && Lexed(source, tokens[i], spans[i])
  }

  /** Every token was lexed from the span beside it. */
  ghost predicate AllLexed(source: string, tokens: seq<Token>, spans: seq<Span>) {
    |tokens| == |spans| && forall i :: 0 <= i < |tokens| ==> LexedAt(source, tokens, spans, i)
  }



  /** Each span ends before the next one starts. */
  ghost predicate SpansForward(spans: seq<Span>) {
    forall i, j :: 0 <= i < j < |spans| ==> spans[i].hi <= spans[j].lo
  }

  predicate LinesForward(tokens: seq<Token>) {
    forall i, j :: 0 <= i < j < |tokens| ==> tokens[i].line <= tokens[j].line
  }

  const UnexpectedCharacter := "Unexpected character."
  const UnterminatedString := "Unterminated string."

  /** The scanner reports by line, only these two messages, in line order. */
  predicate ScanErrors(errors: seq<Diagnostic>) {
    && (forall i :: 0 <= i < |errors| ==>
          errors[i].LineError? && errors[i].line >= 1
          && (errors[i].message == UnexpectedCharacter || errors[i].message == UnterminatedString))
    && (forall i, j :: 0 <= i < j < |errors| ==> errors[i].line <= errors[j].line)
  }

  // ------------------------------------------------------------ the scanner's state

  /**
   * The scanner's invariant, on the values of its fields: every token so far
   * was lexed from a span that ends by `current`, spans and lines run forward,
   * and the reports are well formed and none is past `line`. An unterminated
   * string is reported only last, once the end of the input is reached.
   */
  ghost predicate ScanState(source: string, tokens: seq<Token>, spans: seq<Span>, errors: seq<Diagnostic>,
                            start: nat, current: nat, line: nat)
  {
    && start <= current <= |source| && line >= 1
    && AllLexed(source, tokens, spans) && SpansForward(spans)
    && (forall i :: 0 <= i < |spans| ==> spans[i].hi <= current)
    && LinesForward(tokens) && (forall i :: 0 <= i < |tokens| ==> tokens[i].line <= line)
    && ScanErrors(errors) && (forall i :: 0 <= i < |errors| ==> errors[i].line <= line)
    && (forall i :: 0 <= i < |errors| && errors[i].message == UnterminatedString ==>
          i == |errors| - 1 && current == |source| && errors[i].line == line)
  }

  /** Every span so far ends by `start`: the next token cannot overlap them. */
  ghost predicate Behind(spans: seq<Span>, start: nat) {
    forall i :: 0 <= i < |spans| ==> spans[i].hi <= start
  }

  /** No unterminated string has been reported. */
  predicate NoUnterminated(errors: seq<Diagnostic>) {
    forall i :: 0 <= i < |errors| ==> errors[i].message != UnterminatedString
  }

  /*
   * The three ways the scanner's state changes. Each is stated as an
   * implication between states, so that a caller that knows the state
   * before gets the state after.
   */

  /** Moving the cursors forward, and the line with them, keeps the state. */
  lemma MoveCursor(source: string, tokens: seq<Token>, spans: seq<Span>, errors: seq<Diagnostic>,
                   start: nat, current: nat, line: nat, start': nat, current': nat, line': nat)
    requires start' <= current' <= |source| && current <= current' && line <= line'
    ensures ScanState(source, tokens, spans, errors, start, current, line) && NoUnterminated(errors) ==>
              ScanState(source, tokens, spans, errors, start', current', line')
  {
  }

  /** Appending a token lexed from `source[start..current]` on the current line keeps the state. */
  lemma AppendToken(source: string, tokens: seq<Token>, spans: seq<Span>, errors: seq<Diagnostic>,
                    start: nat, current: nat, line: nat, t: Token)
    requires t.line == line
    ensures ScanState(source, tokens, spans, errors, start, current, line) && Behind(spans, start)
            && Lexed(source, t, Span(start, current)) ==>
              ScanState(source, tokens + [t], spans + [Span(start, current)], errors, start, current, line)
  {
    if ScanState(source, tokens, spans, errors, start, current, line) && Behind(spans, start)
       && Lexed(source, t, Span(start, current))
    {
      AllLexedAppend(source, tokens, spans, t, Span(start, current));
      SpansForwardAppend(spans, Span(start, current));
      LinesForwardAppend(tokens, t);
    }
  }

  /**
   * Reporting on the current line keeps the state: an unexpected character
   * anywhere, an unterminated string once the input is used up.
   */
  lemma AppendError(source: string, tokens: seq<Token>, spans: seq<Span>, errors: seq<Diagnostic>,
                    start: nat, current: nat, line: nat, e: Diagnostic)
    requires e == LineError(line, UnexpectedCharacter) || (e == LineError(line, UnterminatedString) && current == |source|)
    ensures ScanState(source, tokens, spans, errors, start, current, line) && NoUnterminated(errors) ==>
              ScanState(source, tokens, spans, errors + [e], start, current, line)
  {
  }

  /**
   * What one call of `scanToken` may do to the outputs, having consumed
   * `source[start..current']` and reached line `line'`: nothing (blanks,
   * newlines, comments), one token lexed from exactly that slice on the
   * line reached, or one report on that line; an unterminated string is
   * reported only at the end of the input.
   */
  ghost predicate Stepped(source: string, tokens: seq<Token>, spans: seq<Span>, errors: seq<Diagnostic>,
                          tokens': seq<Token>, spans': seq<Span>, errors': seq<Diagnostic>,
                          start: nat, current': nat, line': nat)
  {
    || (tokens' == tokens && spans' == spans && errors' == errors)
    || (&& errors' == errors && spans' == spans + [Span(start, current')]
        && |tokens'| == |tokens| + 1 && tokens' == tokens + [tokens'[|tokens|]]
        && tokens'[|tokens|].line == line' && Lexed(source, tokens'[|tokens|], Span(start, current')))
    || (&& tokens' == tokens && spans' == spans
        && (|| errors' == errors + [LineError(line', UnexpectedCharacter)]
            || (errors' == errors + [LineError(line', UnterminatedString)] && current' == |source|)))
  }

  /** Appending one token lexed from `source[start..current]` on the line reached is a step. */
  lemma TokenStepped(source: string, tokens: seq<Token>, spans: seq<Span>, errors: seq<Diagnostic>,
                     t: Token, start: nat, current: nat, line: nat)
    ensures t.line == line && Lexed(source, t, Span(start, current)) ==>
              Stepped(source, tokens, spans, errors, tokens + [t], spans + [Span(start, current)], errors, start, current, line)
  {
    assert (tokens + [t])[|tokens|] == t;
  }

  /** Every step `scanToken` may take from `start == current` keeps the state. */
  lemma StepKeepsState(source: string, tokens: seq<Token>, spans: seq<Span>, errors: seq<Diagnostic>,
                       tokens': seq<Token>, spans': seq<Span>, errors': seq<Diagnostic>,
                       start: nat, line: nat, current': nat, line': nat)
    requires start <= current' <= |source| && line <= line'
    ensures ScanState(source, tokens, spans, errors, start, start, line) && NoUnterminated(errors)
            && Stepped(source, tokens, spans, errors, tokens', spans', errors', start, current', line') ==>
              ScanState(source, tokens', spans', errors', start, current', line')
  {
    if ScanState(source, tokens, spans, errors, start, start, line) && NoUnterminated(errors)
       && Stepped(source, tokens, spans, errors, tokens', spans', errors', start, current', line')
    {
      MoveCursor(source, tokens, spans, errors, start, start, line, start, current', line');
      if |tokens'| == |tokens| + 1 && spans' == spans + [Span(start, current')] {
        AppendToken(source, tokens, spans, errors, start, current', line', tokens'[|tokens|]);
      } else if errors' != errors {
        AppendError(source, tokens, spans, errors, start, current', line', errors'[|errors|]);
      }
    }
  }

  /** A number lexeme as `number` consumes it: the digits up to `point`, then a fraction or none. */
  lemma NumberScanned(source: string, lo: nat, point: nat, hi: nat)
    requires lo < point <= hi <= |source| && AllDigits(source[lo..point])
    requires point == hi ==> !IsDigit(CharAt(source, hi)) && !(CharAt(source, hi) == '.' && IsDigit(CharAt(source, hi + 1)))
    requires point < hi ==>
      source[point] == '.' && point + 1 < hi && AllDigits(source[point + 1..hi]) && !IsDigit(CharAt(source, hi))
    ensures IsNumberLexeme(source[lo..hi]) && NumberEnds(source, hi, source[lo..hi])
    ensures DotIndex(source[lo..hi]) == point - lo
  {
    var s := source[lo..hi];
    if point < hi {
      assert s[..point - lo] == source[lo..point];
      DotIndexAt(s, point - lo);
      assert s[point - lo + 1..] == source[point + 1..hi];
    } else {
      DotIndexOfDigits(s);
      assert s[..hi - lo] == s;
    }
  }

  // ------------------------------------------------------------ building tokens

  lemma OperatorTokenLexed(source: string, sp: Span, kind: TokenType, line: nat)
    requires sp.lo < sp.hi <= |source| && IsOperatorKind(kind)
    requires OperatorLexed(kind, source[sp.lo..sp.hi], CharAt(source, sp.hi))
    ensures Lexed(source, Token(kind, source[sp.lo..sp.hi], NilVal, line), sp)
  {
  }

  lemma WordTokenLexed(source: string, sp: Span, line: nat)
    requires sp.lo < sp.hi <= |source|
    requires IsWord(source[sp.lo..sp.hi]) && !IsAlphaNumeric(CharAt(source, sp.hi))
    ensures Lexed(source, Token(WordKind(source[sp.lo..sp.hi]), source[sp.lo..sp.hi], NilVal, line), sp)
  {
    WordKindIsWordy(source[sp.lo..sp.hi]);
  }

  lemma NumberTokenLexed(source: string, sp: Span, line: nat)
    requires sp.lo < sp.hi <= |source|
    requires IsNumberLexeme(source[sp.lo..sp.hi]) && NumberEnds(source, sp.hi, source[sp.lo..sp.hi])
    ensures Lexed(source, Token(Number, source[sp.lo..sp.hi], NumVal(DecimalValue(source[sp.lo..sp.hi])), line), sp)
  {
  }

  lemma StringTokenLexed(source: string, sp: Span, line: nat)
    requires sp.lo < sp.hi <= |source| && IsStringLexeme(source[sp.lo..sp.hi])
    ensures Lexed(source, Token(String, source[sp.lo..sp.hi], StrVal(source[sp.lo + 1..sp.hi - 1]), line), sp)
  {
    var s := source[sp.lo..sp.hi];
    var inner, target := s[1..|s| - 1], source[sp.lo + 1..sp.hi - 1];
    assert inner == target by {
      forall k | 0 <= k < |inner| ensures inner[k] == target[k] {
        assert inner[k] == s[k + 1];
      }
    }
  }

  // ------------------------------------------------------------ properties

  lemma {:induction false} DotIndexOfDigits(s: string)
    requires AllDigits(s)
    ensures DotIndex(s) == |s|
  {
    if |s| > 0 {
      assert AllDigits(s[1..]) by {
        forall k | 0 <= k < |s| - 1 ensures IsDigit(s[1..][k]) { assert s[1..][k] == s[k + 1]; }
      }
      DotIndexOfDigits(s[1..]);
    }
  }

  lemma {:induction false} DotIndexAt(s: string, p: nat)
    requires p < |s| && s[p] == '.' && AllDigits(s[..p])
    ensures DotIndex(s) == p
  {
    if p > 0 {
      assert IsDigit(s[..p][0]);
      assert s[1..][..p - 1] == s[1..p];
      assert AllDigits(s[1..][..p - 1]) by {
        forall k | 0 <= k < p - 1 ensures IsDigit(s[1..p][k]) { assert s[1..p][k] == s[..p][k + 1]; }
      }
      DotIndexAt(s[1..], p - 1);
    }
  }

  /** An integer literal is read back as exactly the number it spells. */
  lemma DecimalValueOfNat(n: nat)
    ensures IsNumberLexeme(NatToString(n))
    ensures DecimalValue(NatToString(n)) == n as real
  {
    var s := NatToString(n);
    DotIndexOfDigits(s);
    assert s[..|s|] == s;
    NatToStringRoundTrip(n);
  }


  lemma AllLexedAppend(source: string, tokens: seq<Token>, spans: seq<Span>, t: Token, sp: Span)
    requires AllLexed(source, tokens, spans) && Lexed(source, t, sp)
    ensures AllLexed(source, tokens + [t], spans + [sp])
  {
    forall i | 0 <= i < |tokens| + 1
      ensures LexedAt(source, tokens + [t], spans + [sp], i)
    {
      if i < |tokens| {
        assert LexedAt(source, tokens, spans, i);
        assert (tokens + [t])[i] == tokens[i] && (spans + [sp])[i] == spans[i];
      }
    }
  }

  /** Lexed tokens never include the end marker. */
  lemma NoLexedEof(source: string, tokens: seq<Token>, spans: seq<Span>)
    requires AllLexed(source, tokens, spans)
    ensures forall i :: 0 <= i < |tokens| ==> tokens[i].kind != EOF
  {
    forall i | 0 <= i < |tokens| ensures tokens[i].kind != EOF {
      assert LexedAt(source, tokens, spans, i);
    }
  }



  lemma SpansForwardAppend(spans: seq<Span>, sp: Span)
    requires SpansForward(spans) && forall i :: 0 <= i < |spans| ==> spans[i].hi <= sp.lo
    ensures SpansForward(spans + [sp])
  {
  }

  lemma LinesForwardAppend(tokens: seq<Token>, t: Token)
    requires LinesForward(tokens) && forall i :: 0 <= i < |tokens| ==> tokens[i].line <= t.line
    ensures LinesForward(tokens + [t])
  {
  }
}
