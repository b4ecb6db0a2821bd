/**
 * The lexer as pure rules (Interpreter/Scanner.cs). `Step` is one call of
 * `scanToken` from a position and a line: where it leaves `current` and
 * `line`, and what it emits. `ScanAll` is the loop of `scanTokens`, with the
 * tokens and reports gathered so far passed along. The `Scanner` class is
 * proved to compute exactly these, and `StepSound` shows that every token
 * they emit is `Lexed` from its own slice of the source.
 */
module ScanRules {
  import opened Util
  import opened Tokens
  import opened Errors
  import opened Lexemes

  // ------------------------------------------------------------ where a lexeme ends

  /** The first position from `i` whose character is not a letter, digit or `_`. */
  function WordEnd(source: string, i: nat): (j: nat)
    requires i <= |source|
    ensures i <= j <= |source| && !IsAlphaNumeric(CharAt(source, j))
    ensures forall k :: i <= k < j ==> IsAlphaNumeric(source[k])
    decreases |source| - i
  {
    if i < |source| && IsAlphaNumeric(source[i]) then WordEnd(source, i + 1) else i
  }

  /** The first position from `i` whose character is not a digit. */
  function DigitsEnd(source: string, i: nat): (j: nat)
    requires i <= |source|
    ensures i <= j <= |source| && !IsDigit(CharAt(source, j))
    ensures forall k :: i <= k < j ==> IsDigit(source[k])
    decreases |source| - i
  {
    if i < |source| && IsDigit(source[i]) then DigitsEnd(source, i + 1) else i
  }

  /** Where `number` stops from the digit at `lo`: the digits, then `.` and digits only when a digit follows the point. */
  function NumberEnd(source: string, lo: nat): (hi: nat)
    requires lo < |source| && IsDigit(source[lo])
    ensures lo < hi <= |source| && IsNumberLexeme(source[lo..hi]) && NumberEnds(source, hi, source[lo..hi])
    ensures forall k :: lo <= k < hi ==> IsDigit(source[k]) || source[k] == '.'
  {
    var point := DigitsEnd(source, lo + 1);
    assert AllDigits(source[lo..point]);
    if CharAt(source, point) == '.' && IsDigit(CharAt(source, point + 1)) then
      var hi := DigitsEnd(source, point + 1);
      assert AllDigits(source[point + 1..hi]);
      NumberScanned(source, lo, point, hi);
      hi
    else
      NumberScanned(source, lo, point, point);
      point
  }

  /** The first `"` from `i`, or the end of the source. */
  function QuoteIndex(source: string, i: nat): (j: nat)
    requires i <= |source|
    ensures i <= j <= |source| && (j < |source| ==> source[j] == '"')
    ensures forall k :: i <= k < j ==> source[k] != '"'
    decreases |source| - i
  {
    if i < |source| && source[i] != '"' then QuoteIndex(source, i + 1) else i
  }

  /** The first line break from `i`, or the end of the source: where a `//` comment stops. */
  function LineEnd(source: string, i: nat): (j: nat)
    requires i <= |source|
    ensures i <= j <= |source| && (j < |source| ==> source[j] == '\n')
    ensures forall k :: i <= k < j ==> source[k] != '\n'
    decreases |source| - i
  {
    if i < |source| && source[i] != '\n' then LineEnd(source, i + 1) else i
  }

  /** Where the block comment loop stops from `i`: the end, any `/`, or a `*` followed by `/`. */
  predicate CommentStops(source: string, j: nat) {
    j >= |source| || source[j] == '/' || (source[j] == '*' && CharAt(source, j + 1) == '/')
  }

  function CommentStop(source: string, i: nat): (j: nat)
    requires i <= |source|
    ensures i <= j <= |source| && CommentStops(source, j)
    ensures forall k :: i <= k < j ==> !CommentStops(source, k)
    decreases |source| - i
  {
    if CommentStops(source, i) then i else CommentStop(source, i + 1)
  }

  // ------------------------------------------------------------ operator kinds

  /** The characters that are a token on their own. */
  predicate IsSingle(c: char) {
    c in {'(', ')', '{', '}', ',', '.', '-', '+', ';', '*'}
  }

  function SingleKind(c: char): (k: TokenType)
    requires IsSingle(c)
    ensures OperatorLexed(k, [c], '\0') && IsOperatorKind(k)
  {
    if c == '(' then LeftParen else if c == ')' then RightParen
    else if c == '{' then LeftBrace else if c == '}' then RightBrace
    else if c == ',' then Comma else if c == '.' then Dot
    else if c == '-' then Minus else if c == '+' then Plus
    else if c == ';' then Semicolon else Star
  }

  /** The characters that start a one- or two-character operator. */
  predicate IsPairStart(c: char) {
    c in {'!', '=', '<', '>'}
  }

  /** The kind of `c`, or of `c=` when `two` holds. */
  function PairKind(c: char, two: bool): (k: TokenType)
    requires IsPairStart(c)
    ensures IsOperatorKind(k)
    ensures two ==> OperatorLexed(k, [c, '='], '\0')
    ensures !two ==> forall next :: next != '=' ==> OperatorLexed(k, [c], next)
  {
    if c == '!' then (if two then BangEqual else Bang)
    else if c == '=' then (if two then EqualEqual else Equal)
    else if c == '<' then (if two then LessEqual else Less)
    else (if two then GreaterEqual else Greater)
  }

  // ------------------------------------------------------------ one step

  /** What one call of `scanToken` adds: nothing, a token, a report, or the exception of `advance`. */
  datatype Emit = Quiet | Emits(token: Token) | Reports(diagnostic: Diagnostic) | Crashes

  /** Where `scanToken` leaves `current` and `line`, and what it emits. */
  datatype StepOut = StepOut(next: nat, line: nat, emit: Emit)

  function Emitted(e: Emit): seq<Token> {
    if e.Emits? then [e.token] else []
  }

  function Reported(e: Emit): seq<Diagnostic> {
    if e.Reports? then [e.diagnostic] else []
  }

  /**
   * `scanToken` from `pos`: the `switch` on the first character. Blanks,
   * newlines and comments emit nothing; a block comment that leaves fewer
   * than two characters to skip is the exception.
   */
  function Step(source: string, pos: nat, line: nat): (r: StepOut)
    requires pos < |source|
    ensures pos < r.next <= |source| && line <= r.line
    ensures r.emit.Crashes? ==> pos + 1 < |source| && source[pos] == '/' && source[pos + 1] == '*'
    ensures r.emit.Reports? ==> r.emit.diagnostic.LineError? && r.emit.diagnostic.line == r.line
  {
    var c := source[pos];
    if IsSingle(c) then
      StepOut(pos + 1, line, Emits(Token(SingleKind(c), source[pos..pos + 1], NilVal, line)))
    else if IsPairStart(c) then
      var two := CharAt(source, pos + 1) == '=';
      var hi := if two then pos + 2 else pos + 1;
      StepOut(hi, line, Emits(Token(PairKind(c, two), source[pos..hi], NilVal, line)))
    else if c == '/' then
      if CharAt(source, pos + 1) == '/' then
        StepOut(LineEnd(source, pos + 2), line, Quiet)
      else if CharAt(source, pos + 1) == '*' then
        var stop := CommentStop(source, pos + 2);
        var line' := line + NewlinesIn(source, pos + 2, stop);
        if stop + 2 <= |source| then StepOut(stop + 2, line', Quiet) else StepOut(|source|, line', Crashes)
      else
        StepOut(pos + 1, line, Emits(Token(Slash, source[pos..pos + 1], NilVal, line)))
    else if c == ' ' || c == '\r' || c == '\t' then
      StepOut(pos + 1, line, Quiet)
    else if c == '\n' then
      StepOut(pos + 1, line + 1, Quiet)
    else if c == '"' then
      var close := QuoteIndex(source, pos + 1);
      var line' := line + NewlinesIn(source, pos + 1, close);
      if close == |source| then StepOut(close, line', Reports(LineError(line', UnterminatedString)))
      else StepOut(close + 1, line', Emits(Token(String, source[pos..close + 1], StrVal(source[pos + 1..close]), line')))
    else if IsDigit(c) then
      var hi := NumberEnd(source, pos);
      StepOut(hi, line, Emits(Token(Number, source[pos..hi], NumVal(DecimalValue(source[pos..hi])), line)))
    else if IsAlpha(c) then
      var hi := WordEnd(source, pos + 1);
      StepOut(hi, line, Emits(Token(WordKind(source[pos..hi]), source[pos..hi], NilVal, line)))
    else
      StepOut(pos + 1, line, Reports(LineError(line, UnexpectedCharacter)))
  }

  // ------------------------------------------------------------ the whole scan

  /** The outcome of `scanTokens`, or the exception a block comment throws at the end. */
  datatype ScanResult =
    | Scanned(tokens: seq<Token>, errors: seq<Diagnostic>)
    | ScanCrash(errors: seq<Diagnostic>)

  /**
   * The loop of `scanTokens` from `pos`, with `tokens` and `errors` gathered
   * so far: it runs `scanToken` until the end, then adds the EOF token on the
   * line reached.
   */
  function ScanAll(source: string, pos: nat, line: nat, tokens: seq<Token>, errors: seq<Diagnostic>): (r: ScanResult)
    requires pos <= |source|
    ensures errors <= r.errors
    ensures r.Scanned? ==> |r.tokens| > |tokens| && tokens <= r.tokens && r.tokens[|r.tokens| - 1].kind == EOF
    decreases |source| - pos
  {
    if pos == |source| then Scanned(tokens + [Token(EOF, "", NilVal, line)], errors)
    else
      var s := Step(source, pos, line);
      if s.emit.Crashes? then ScanCrash(errors)
      else ScanAll(source, s.next, s.line, tokens + Emitted(s.emit), errors + Reported(s.emit))
  }

  /** `new Scanner(source).scanTokens()`. */
  function ScanSource(source: string): ScanResult {
    ScanAll(source, 0, 1, [], [])
  }

  // ------------------------------------------------------------ soundness

  /**
   * Every step emits what `Stepped` allows: a token lexed from exactly the
   * slice it consumed, on the line reached, or one report on that line.
   */
  lemma StepSound(source: string, pos: nat, line: nat, tokens: seq<Token>, spans: seq<Span>, errors: seq<Diagnostic>)
    requires pos < |source|
    ensures var s := Step(source, pos, line);
      !s.emit.Crashes? ==>
        Stepped(source, tokens, spans, errors, tokens + Emitted(s.emit),
                spans + (if s.emit.Emits? then [Span(pos, s.next)] else []), errors + Reported(s.emit),
                pos, s.next, s.line)
  {
    var s := Step(source, pos, line);
    var c := source[pos];
    if s.emit.Emits? {
      TokenLexed(source, pos, line);
      TokenStepped(source, tokens, spans, errors, s.emit.token, pos, s.next, s.line);
    }
  }

  /** The token a step emits is lexed from the slice it consumed. */
  lemma TokenLexed(source: string, pos: nat, line: nat)
    requires pos < |source| && Step(source, pos, line).emit.Emits?
    ensures var s := Step(source, pos, line);
      s.emit.token.line == s.line && Lexed(source, s.emit.token, Span(pos, s.next))
  {
    var s := Step(source, pos, line);
    var c := source[pos];
    if IsSingle(c) {
      assert source[pos..pos + 1] == [c];
      OperatorTokenLexed(source, Span(pos, pos + 1), SingleKind(c), line);
    } else if IsPairStart(c) {
      PairLexed(source, pos, line);
    } else if c == '/' {
      assert source[pos..pos + 1] == "/";
      OperatorTokenLexed(source, Span(pos, pos + 1), Slash, line);
    } else if c == '"' {
      StringLexed(source, pos, QuoteIndex(source, pos + 1), s.line);
    } else if IsDigit(c) {
      NumberTokenLexed(source, Span(pos, s.next), line);
    } else {
      WordLexed(source, pos, s.next, line);
    }
  }

  lemma PairLexed(source: string, pos: nat, line: nat)
    requires pos < |source| && IsPairStart(source[pos])
    ensures var two := CharAt(source, pos + 1) == '=';
      var hi := if two then pos + 2 else pos + 1;
      Lexed(source, Token(PairKind(source[pos], two), source[pos..hi], NilVal, line), Span(pos, hi))
  {
    var c := source[pos];
    var two := CharAt(source, pos + 1) == '=';
    var hi := if two then pos + 2 else pos + 1;
    assert source[pos..hi] == if two then [c, '='] else [c];
    OperatorTokenLexed(source, Span(pos, hi), PairKind(c, two), line);
  }

  lemma StringLexed(source: string, pos: nat, close: nat, line: nat)
    requires pos < close < |source| && source[pos] == '"' && close == QuoteIndex(source, pos + 1)
    ensures Lexed(source, Token(String, source[pos..close + 1], StrVal(source[pos + 1..close]), line), Span(pos, close + 1))
  {
    var s := source[pos..close + 1];
    assert IsStringLexeme(s) by {
      forall k | 0 < k < |s| - 1 ensures s[k] != '"' {
        assert s[k] == source[pos + k];
      }
    }
    StringTokenLexed(source, Span(pos, close + 1), line);
  }

  lemma WordLexed(source: string, pos: nat, hi: nat, line: nat)
    requires pos < |source| && IsAlpha(source[pos]) && hi == WordEnd(source, pos + 1)
    ensures Lexed(source, Token(WordKind(source[pos..hi]), source[pos..hi], NilVal, line), Span(pos, hi))
  {
    var w := source[pos..hi];
    assert IsWord(w) by {
      forall k | 0 < k < |w| ensures IsAlphaNumeric(w[k]) {
        assert w[k] == source[pos + k];
      }
    }
    WordTokenLexed(source, Span(pos, hi), line);
  }

  // ------------------------------------------------------------ block comments

  /** With no `/` after `i`, the block comment loop runs to the end. */
  lemma {:induction false} CommentStopNoSlash(source: string, i: nat)
    requires i <= |source| && forall k :: i <= k < |source| ==> source[k] != '/'
    ensures CommentStop(source, i) == |source|
    decreases |source| - i
  {
    if i < |source| {
      assert !CommentStops(source, i);
      CommentStopNoSlash(source, i + 1);
    }
  }

  /**
   * A block comment opener with no `/` anywhere after it (so no closer) makes `advance` read
   * past the end: the scan ends in the exception, with only the reports
   * made before it.
   */
  lemma UnterminatedCommentCrashes(source: string, pos: nat, line: nat, tokens: seq<Token>, errors: seq<Diagnostic>)
    requires pos + 2 <= |source| && source[pos] == '/' && source[pos + 1] == '*'
    requires forall k :: pos + 2 <= k < |source| ==> source[k] != '/'
    ensures ScanAll(source, pos, line, tokens, errors) == ScanCrash(errors)
  {
    CommentStopNoSlash(source, pos + 2);
  }

  /**
   * The block comment stops at any `/`, and then skips it and one more
   * character: in opener, `/`, newline, the line break is skipped without
   * being counted, so EOF is still on line 1.
   */
  lemma SlashEndsComment()
    ensures ScanSource("/*/\n") == Scanned([Token(EOF, "", NilVal, 1)], [])
  {
    assert CommentStop("/*/\n", 2) == 2;
    assert Step("/*/\n", 0, 1) == StepOut(4, 1, Quiet);
  }

  // ------------------------------------------------------------ examples

  /** `<=` reads as one operator; a `!` at the end is BANG. */
  lemma ScanOperators()
    ensures ScanSource("<=!") == Scanned([Token(LessEqual, "<=", NilVal, 1), Token(Bang, "!", NilVal, 1), Token(EOF, "", NilVal, 1)], [])
  {
    var src := "<=!";
    assert Step(src, 0, 1) == StepOut(2, 1, Emits(Token(LessEqual, "<=", NilVal, 1)));
    assert Step(src, 2, 1) == StepOut(3, 1, Emits(Token(Bang, "!", NilVal, 1)));
  }

  /** A report does not stop the scan: it goes on from where the step left off. */
  lemma ReportsContinue(source: string, pos: nat, line: nat, tokens: seq<Token>, errors: seq<Diagnostic>)
    requires pos < |source| && Step(source, pos, line).emit.Reports?
    ensures var s := Step(source, pos, line);
      ScanAll(source, pos, line, tokens, errors) == ScanAll(source, s.next, s.line, tokens, errors + [s.emit.diagnostic])
  {
    var s := Step(source, pos, line);
    assert tokens + Emitted(s.emit) == tokens;
  }

  /** With no `"` after `i`, the search for the closing quote runs to the end. */
  lemma {:induction false} QuoteIndexNone(source: string, i: nat)
    requires i <= |source| && forall k :: i <= k < |source| ==> source[k] != '"'
    ensures QuoteIndex(source, i) == |source|
    decreases |source| - i
  {
    if i < |source| {
      QuoteIndexNone(source, i + 1);
    }
  }

  /**
   * A string still open at the end is reported once, on the last line, and
   * the scan still ends with EOF on that line.
   */
  lemma UnclosedStringReported(source: string, pos: nat, line: nat, tokens: seq<Token>, errors: seq<Diagnostic>)
    requires pos < |source| && source[pos] == '"' && forall k :: pos < k < |source| ==> source[k] != '"'
    ensures var last := line + NewlinesIn(source, pos + 1, |source|);
      ScanAll(source, pos, line, tokens, errors) ==
        Scanned(tokens + [Token(EOF, "", NilVal, last)], errors + [LineError(last, UnterminatedString)])
  {
    QuoteIndexNone(source, pos + 1);
  }

  // ------------------------------------------------------------ what a step emits

  /** The characters `scanToken` has a case for; any other is unexpected. */
  predicate IsLexemeStart(c: char) {
    IsSingle(c) || IsPairStart(c) || c == '/' || c == ' ' || c == '\r' || c == '\t' || c == '\n'
    || c == '"' || IsDigit(c) || IsAlpha(c)
  }

  /** Blanks, line breaks and comments, and only they, emit nothing. */
  lemma QuietSteps(source: string, pos: nat, line: nat)
    requires pos < |source|
    ensures var c := source[pos];
      Step(source, pos, line).emit.Quiet? <==>
        || c == ' ' || c == '\r' || c == '\t' || c == '\n'
        || (c == '/' && CharAt(source, pos + 1) == '/')
        || (c == '/' && CharAt(source, pos + 1) == '*' && CommentStop(source, pos + 2) + 2 <= |source|)
  {
  }

  /** A step reports exactly an unexpected character or a string that reaches the end. */
  lemma ReportingSteps(source: string, pos: nat, line: nat)
    requires pos < |source|
    ensures var s := Step(source, pos, line); var c := source[pos];
      && (s.emit.Reports? <==> !IsLexemeStart(c) || (c == '"' && QuoteIndex(source, pos + 1) == |source|))
      && (s.emit.Reports? && !IsLexemeStart(c) ==> s == StepOut(pos + 1, line, Reports(LineError(line, UnexpectedCharacter))))
  {
  }

  /** The digits from `i` run exactly to `j`. */
  lemma {:induction false} DigitsEndAt(source: string, i: nat, j: nat)
    requires i <= j <= |source| && (forall k :: i <= k < j ==> IsDigit(source[k])) && !IsDigit(CharAt(source, j))
    ensures DigitsEnd(source, i) == j
    decreases j - i
  {
    if i < j {
      DigitsEndAt(source, i + 1, j);
    }
  }

  /**
   * A number is never read with a trailing point: digits then `.` then no
   * digit give a NUMBER token of the digits alone, and the `.` is a DOT.
   */
  lemma NumberBeforeDot(source: string, lo: nat, p: nat, line: nat)
    requires lo < p < |source| && (forall k :: lo <= k < p ==> IsDigit(source[k]))
    requires source[p] == '.' && !IsDigit(CharAt(source, p + 1))
    ensures Step(source, lo, line) == StepOut(p, line, Emits(Token(Number, source[lo..p], NumVal(DigitsValue(source[lo..p]) as real), line)))
    ensures Step(source, p, line) == StepOut(p + 1, line, Emits(Token(Dot, ".", NilVal, line)))
  {
    DigitsEndAt(source, lo + 1, p);
    var d := source[lo..p];
    assert AllDigits(d) by {
      forall k | 0 <= k < |d| ensures IsDigit(d[k]) { assert d[k] == source[lo + k]; }
    }
    DotIndexOfDigits(d);
    assert d[..|d|] == d;
    assert source[p..p + 1] == ".";
  }

  // ------------------------------------------------------------ line counting

  lemma {:induction false} NewlinesInSplit(source: string, lo: nat, mid: nat, hi: nat)
    requires lo <= mid <= hi <= |source|
    ensures NewlinesIn(source, lo, hi) == NewlinesIn(source, lo, mid) + NewlinesIn(source, mid, hi)
    decreases hi
  {
    if mid < hi {
      NewlinesInSplit(source, lo, mid, hi - 1);
    }
  }

  lemma {:induction false} NoNewlines(source: string, lo: nat, hi: nat)
    requires lo <= hi <= |source| && forall k :: lo <= k < hi ==> source[k] != '\n'
    ensures NewlinesIn(source, lo, hi) == 0
    decreases hi
  {
    if lo < hi {
      NoNewlines(source, lo, hi - 1);
    }
  }

  /** The block comment loop skips a `/` and the line break right after it. */
  predicate SkipsNewline(source: string, pos: nat)
    requires pos < |source|
  {
    source[pos] == '/' && CharAt(source, pos + 1) == '*' &&
    var stop := CommentStop(source, pos + 2);
    stop + 1 < |source| && source[stop] == '/' && source[stop + 1] == '\n'
  }

  /** Every line break a step consumes is counted, except one skipped right after a `/` that ends a block comment. */
  lemma StepCountsLines(source: string, pos: nat, line: nat)
    requires pos < |source|
    ensures var s := Step(source, pos, line);
      s.line + (if SkipsNewline(source, pos) then 1 else 0) == line + NewlinesIn(source, pos, s.next)
  {
    var s := Step(source, pos, line);
    var c := source[pos];
    if c == '/' && CharAt(source, pos + 1) == '/' {
      NoNewlines(source, pos, pos + 2);
      NewlinesInSplit(source, pos, pos + 2, s.next);
      NoNewlines(source, pos + 2, s.next);
    } else if c == '/' && CharAt(source, pos + 1) == '*' {
      CommentCountsLines(source, pos);
    } else if c == '"' {
      StringCountsLines(source, pos);
    } else if IsDigit(c) || IsAlpha(c) {
      NoNewlines(source, pos, s.next);
    } else if s.next == pos + 2 {
      NoNewlines(source, pos, pos + 2);
    }
  }

  lemma CommentCountsLines(source: string, pos: nat)
    requires pos + 1 < |source| && source[pos] == '/' && source[pos + 1] == '*'
    ensures var stop := CommentStop(source, pos + 2);
      var next := if stop + 2 <= |source| then stop + 2 else |source|;
      NewlinesIn(source, pos, next) == NewlinesIn(source, pos + 2, stop) + (if SkipsNewline(source, pos) then 1 else 0)
  {
    var stop := CommentStop(source, pos + 2);
    var next := if stop + 2 <= |source| then stop + 2 else |source|;
    NoNewlines(source, pos, pos + 2);
    NewlinesInSplit(source, pos, pos + 2, next);
    NewlinesInSplit(source, pos + 2, stop, next);
    if stop + 1 < |source| && source[stop] == '*' {
      NoNewlines(source, stop, next);
    }
  }

  lemma StringCountsLines(source: string, pos: nat)
    requires pos < |source| && source[pos] == '"'
    ensures var close := QuoteIndex(source, pos + 1);
      var next := if close == |source| then close else close + 1;
      NewlinesIn(source, pos, next) == NewlinesIn(source, pos + 1, close)
  {
    var close := QuoteIndex(source, pos + 1);
    NewlinesInSplit(source, pos, pos + 1, close);
    if close < |source| {
      NewlinesInSplit(source, pos, close, close + 1);
    }
  }

  /** No `/` directly before a line break, so no comment can swallow one. */
  predicate NoSlashNewline(source: string) {
    forall k :: 0 <= k < |source| - 1 ==> !(source[k] == '/' && source[k + 1] == '\n')
  }

  /**
   * The EOF token sits on the line reached: never past one more than the
   * line breaks in the rest of the input, and exactly there when no `/`
   * stands before a line break.
   */
  lemma {:induction false} EofLine(source: string, pos: nat, line: nat, tokens: seq<Token>, errors: seq<Diagnostic>)
    requires pos <= |source|
    ensures var r := ScanAll(source, pos, line, tokens, errors);
      r.Scanned? ==>
        var eof := r.tokens[|r.tokens| - 1].line;
        line <= eof <= line + NewlinesIn(source, pos, |source|)
        && (NoSlashNewline(source) ==> eof == line + NewlinesIn(source, pos, |source|))
    decreases |source| - pos
  {
    if pos < |source| {
      var s := Step(source, pos, line);
      if !s.emit.Crashes? {
        StepCountsLines(source, pos, line);
        NewlinesInSplit(source, pos, s.next, |source|);
        EofLine(source, s.next, s.line, tokens + Emitted(s.emit), errors + Reported(s.emit));
      }
    }
  }
}
