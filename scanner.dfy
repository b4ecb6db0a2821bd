/**
 * The lexer (Interpreter/Scanner.cs): one forward pass over the source with
 * `start`/`current`/`line` cursors, appending to the token list in place.
 *
 * Each method is proved to do what the pure rules of `ScanRules` say:
 * `ScanToken` takes exactly the `Step` from `start`, and `ScanTokens`
 * computes `ScanAll`. The class also keeps `Valid`, which says that every
 * token so far is `Lexed` from the slice its span covers and that spans and
 * lines run forward; the ghost field `spans` records where each token came
 * from. `Lox.error` calls become `Diagnostic` values in `errors`.
 */
module Scanning {
  import opened Util
  import opened Tokens
  import opened Errors
  import opened Lexemes
  import opened ScanRules

  class Scanner {
    const source: string
    var tokens: seq<Token>
    var errors: seq<Diagnostic>
    var start: nat
    var current: nat
    var line: nat
    /** Where each token of `tokens` came from. */
    ghost var spans: seq<Span>

    ghost predicate Valid()
      reads this
    {
      ScanState(source, tokens, spans, errors, start, current, line)
    }

    /**
     * The fields are where step `s` from `start` leaves them, given the
     * outputs before it: the cursor and line it reached, and the token or
     * report it emitted appended.
     */
    ghost predicate Took(s: StepOut, tokens0: seq<Token>, spans0: seq<Span>, errors0: seq<Diagnostic>)
      reads this
    {
      && current == s.next && line == s.line
      && tokens == tokens0 + Emitted(s.emit) && errors == errors0 + Reported(s.emit)
      && spans == spans0 + (if s.emit.Emits? then [Span(start, s.next)] else [])
    }

    constructor(source: string)
      ensures Valid() && this.source == source
      ensures tokens == [] && errors == [] && start == 0 && current == 0 && line == 1 && spans == []
    {
      this.source := source;
      tokens := [];
      errors := [];
      start := 0;
      current := 0;
      line := 1;
      spans := [];
    }

    predicate IsAtEnd()
      reads this
      ensures IsAtEnd() <==> current >= |source|
    {
      current >= |source|
    }

    /** `peek`: the character under the cursor, or NUL past the end. */
    function Peek(): (c: char)
      reads this
      ensures current < |source| ==> c == source[current]
      ensures current >= |source| ==> c == '\0'
    {
      CharAt(source, current)
    }

    /** `peekNext`: the character after the cursor, or NUL past the end. */
    function PeekNext(): (c: char)
      reads this
      ensures current + 1 < |source| ==> c == source[current + 1]
      ensures current + 1 >= |source| ==> c == '\0'
    {
      CharAt(source, current + 1)
    }

    /** `advance`: `ElementAt` throws past the end, so callers check first. */
    method Advance() returns (c: char)
      requires current < |source|
      modifies this`current
      ensures current == old(current) + 1 && c == source[old(current)]
    {
      c := source[current];
      current := current + 1;
    }

    /** `match`: consume the next character only when it is `expected`. */
    method Match(expected: char) returns (m: bool)
      modifies this`current
      ensures m <==> old(current) < |source| && source[old(current)] == expected
      ensures current == if m then old(current) + 1 else old(current)
    {
      if IsAtEnd() { return false; }
      if source[current] != expected { return false; }
      current := current + 1;
      return true;
    }

    /** `addToken`: the lexeme is `source[start..current]`, the line the current one. */
    method AddToken(kind: TokenType, literal: Value)
      requires start <= current <= |source|
      modifies this`tokens, this`spans
      ensures tokens == old(tokens) + [Token(kind, source[start..current], literal, line)]
      ensures spans == old(spans) + [Span(start, current)]
      ensures tokens[|tokens| - 1] == Token(kind, source[start..current], literal, line)
    {
      tokens := tokens + [Token(kind, source[start..current], literal, line)];
      spans := spans + [Span(start, current)];
    }

    /** `identifier`: the maximal word, then its keyword kind or `Identifier`. */
    method ScanIdentifier()
      requires start < current == start + 1 <= |source| && IsAlpha(source[start])
      modifies this`current, this`tokens, this`spans
      ensures current == WordEnd(source, start + 1)
      ensures tokens == old(tokens) + [Token(WordKind(source[start..current]), source[start..current], NilVal, line)]
      ensures spans == old(spans) + [Span(start, current)]
    {
      while IsAlphaNumeric(Peek())
        invariant start < current <= |source|
        invariant WordEnd(source, current) == WordEnd(source, start + 1)
        invariant tokens == old(tokens) && spans == old(spans)
        decreases |source| - current
      {
        var _ := Advance();
      }
      AddToken(WordKind(source[start..current]), NilVal);
    }

    /** The `while (isDigit(peek())) advance();` loop of `number`. */
    method SkipDigits()
      requires current <= |source|
      modifies this`current
      ensures current == DigitsEnd(source, old(current))
    {
      while IsDigit(Peek())
        invariant old(current) <= current <= |source|
        invariant DigitsEnd(source, current) == DigitsEnd(source, old(current))
        decreases |source| - current
      {
        var _ := Advance();
      }
    }

    /** `number`: digits, and a fraction only when a digit follows the `.`. */
    method ScanNumber()
      requires start < current == start + 1 <= |source| && IsDigit(source[start])
      modifies this`current, this`tokens, this`spans
      ensures current == NumberEnd(source, start)
      ensures tokens == old(tokens) + [Token(Number, source[start..current], NumVal(DecimalValue(source[start..current])), line)]
      ensures spans == old(spans) + [Span(start, current)]
    {
      SkipDigits();
      if Peek() == '.' && IsDigit(PeekNext()) {
        var _ := Advance();
        SkipDigits();
      }
      assert current == NumberEnd(source, start);
      AddToken(Number, NumVal(DecimalValue(source[start..current])));
    }

    /** The loop of `getString`: up to the closing quote or the end, counting line breaks. */
    method SkipString()
      requires current <= |source|
      modifies this`current, this`line
      ensures current == QuoteIndex(source, old(current))
      ensures line == old(line) + NewlinesIn(source, old(current), current)
    {
      while Peek() != '"' && !IsAtEnd()
        invariant old(current) <= current <= |source|
        invariant QuoteIndex(source, current) == QuoteIndex(source, old(current))
        invariant line == old(line) + NewlinesIn(source, old(current), current)
        decreases |source| - current
      {
        if Peek() == '\n' { line := line + 1; }
        var _ := Advance();
      }
    }

    /**
     * `getString`: up to the closing quote, counting newlines on the way. An
     * unterminated string is reported with the line reached at the end of
     * the input.
     */
    method GetString()
      requires start < current == start + 1 <= |source| && source[start] == '"'
      modifies this`current, this`line, this`tokens, this`spans, this`errors
      ensures var close := QuoteIndex(source, start + 1);
        && line == old(line) + NewlinesIn(source, start + 1, close)
        && (close == |source| ==>
              && current == |source| && tokens == old(tokens) && spans == old(spans)
              && errors == old(errors) + [LineError(line, UnterminatedString)])
        && (close < |source| ==>
              && current == close + 1 && errors == old(errors) && spans == old(spans) + [Span(start, current)]
              && tokens == old(tokens) + [Token(String, source[start..current], StrVal(source[start + 1..close]), line)])
      ensures Took(Step(source, start, old(line)), old(tokens), old(spans), old(errors))
    {
      SkipString();
      if IsAtEnd() {
        errors := errors + [LineError(line, UnterminatedString)];
        return;
      }
      var _ := Advance();
      AddToken(String, StrVal(source[start + 1..current - 1]));
    }

    /**
     * The block comment after the opener: the loop stops at the first `/`,
     * at a `*` followed by `/`, or at the end, counting line breaks on the
     * way; then two characters are skipped. Skipping past the end is the
     * exception `ElementAt` throws; `ok` is false then.
     */
    method BlockComment() returns (ok: bool)
      requires current <= |source|
      modifies this`current, this`line
      ensures var j := CommentStop(source, old(current));
        && line == old(line) + NewlinesIn(source, old(current), j)
        && (ok <==> j + 2 <= |source|)
        && current == if ok then j + 2 else |source|
    {
      while Peek() != '/' && !IsAtEnd()
        invariant old(current) <= current <= |source|
        invariant CommentStop(source, current) == CommentStop(source, old(current))
        invariant line == old(line) + NewlinesIn(source, old(current), current)
        decreases |source| - current
      {
        if Peek() == '\n' { line := line + 1; }
        if Peek() == '*' && PeekNext() == '/' { break; }
        var _ := Advance();
      }
      assert CommentStops(source, current);
      ok := true;
      if IsAtEnd() {
        ok := false;
      } else {
        var _ := Advance();
        if IsAtEnd() {
          ok := false;
        } else {
          var _ := Advance();
        }
      }
    }

    /** The punctuation and operator cases of `scanToken`: `c` is already consumed, and a `=` may follow. */
    method ScanOperator(c: char)
      requires start + 1 == current <= |source| && source[start] == c && (IsSingle(c) || IsPairStart(c))
      modifies this`current, this`tokens, this`spans
      ensures Took(Step(source, start, line), old(tokens), old(spans), errors) && Step(source, start, line).emit.Emits?
    {
      var kind;
      if IsPairStart(c) {
        var m := Match('=');
        kind := PairKind(c, m);
      } else {
        kind := SingleKind(c);
      }
      AddToken(kind, NilVal);
    }

    /** The loop of a line comment: up to the line break, which is scanned next. */
    method SkipLine()
      requires current <= |source|
      modifies this`current
      ensures current == LineEnd(source, old(current))
    {
      while Peek() != '\n' && !IsAtEnd()
        invariant old(current) <= current <= |source|
        invariant LineEnd(source, current) == LineEnd(source, old(current))
        decreases |source| - current
      {
        var _ := Advance();
      }
    }

    /**
     * The `/` case of `scanToken`: a line comment up to the newline, a block
     * comment, or the `Slash` token; `ok` is false when the block comment
     * runs off the end.
     */
    method ScanSlash() returns (ok: bool)
      requires start + 1 == current <= |source| && source[start] == '/'
      modifies this`current, this`line, this`tokens, this`spans
      ensures var s := Step(source, start, old(line));
        Took(s, old(tokens), old(spans), old(errors)) && (ok <==> !s.emit.Crashes?)
    {
      ok := true;
      var comment := Match('/');
      if comment {
        SkipLine();
        assert Step(source, start, line) == StepOut(current, line, Quiet);
      } else {
        var block := Match('*');
        if block {
          ghost var line0 := line;
          ok := BlockComment();
          assert Step(source, start, line0) == StepOut(current, line, if ok then Quiet else Crashes);
        } else {
          AddToken(Slash, NilVal);
          assert Step(source, start, line) == StepOut(current, line, Emits(Token(Slash, source[start..current], NilVal, line)));
        }
      }
    }

    /**
     * `scanToken`: exactly the `Step` from `start == current`: the cursor
     * and line it reaches, and the token or report it adds; `ok` is false
     * when a block comment runs off the end.
     */
    method ScanToken() returns (ok: bool)
      requires start == current < |source|
      modifies this`current, this`line, this`tokens, this`spans, this`errors
      ensures start == old(start)
      ensures var s := Step(source, start, old(line));
        Took(s, old(tokens), old(spans), old(errors)) && (ok <==> !s.emit.Crashes?)
    {
      ghost var s := Step(source, start, line);
      var c := Advance();
      ok := true;
      if IsSingle(c) || IsPairStart(c) {
        ScanOperator(c);
      } else if c == '/' {
        ok := ScanSlash();
      } else if c == ' ' || c == '\r' || c == '\t' {
      } else if c == '\n' {
        line := line + 1;
      } else if c == '"' {
        GetString();
      } else {
        ScanDefault(c);
      }
    }

    /** The `default` case of `scanToken`: a number, a word, or an unexpected character. */
    method ScanDefault(c: char)
      requires start + 1 == current <= |source| && source[start] == c
      requires !IsSingle(c) && !IsPairStart(c) && c != '/' && c != ' ' && c != '\r' && c != '\t' && c != '\n' && c != '"'
      modifies this`current, this`tokens, this`spans, this`errors
      ensures Took(Step(source, start, line), old(tokens), old(spans), old(errors))
    {
      if IsDigit(c) {
        ScanNumber();
      } else if IsAlpha(c) {
        ScanIdentifier();
      } else {
        errors := errors + [LineError(line, UnexpectedCharacter)];
      }
    }

    /**
     * `scanTokens`: `scanToken` until the end, then the EOF token; `ok` is
     * false when `scanToken` threw. The outcome is `ScanAll` from the state
     * it starts in, and every token but the last is `Lexed`.
     */
    method ScanTokens() returns (ok: bool)
      requires Valid() && start == current
      modifies this`start, this`current, this`line, this`tokens, this`spans, this`errors
      ensures ok ==> ScanAll(source, old(current), old(line), old(tokens), old(errors)) == Scanned(tokens, errors)
      ensures !ok ==> ScanAll(source, old(current), old(line), old(tokens), old(errors)) == ScanCrash(errors)
      ensures ok ==> ScanSound(source, tokens, spans, errors)
      ensures !ok ==> exists i :: 0 <= i < |source| - 1 && source[i] == '/' && source[i + 1] == '*'
      ensures !ok ==> ScanErrors(errors)
    {
      while !IsAtEnd()
        invariant Valid()
        invariant ScanAll(source, current, line, tokens, errors) == ScanAll(source, old(current), old(line), old(tokens), old(errors))
        decreases |source| - current
      {
        MoveCursor(source, tokens, spans, errors, start, current, line, current, current, line);
        start := current;
        ghost var tokens0, spans0, errors0, line0 := tokens, spans, errors, line;
        var step := ScanToken();
        ghost var s := Step(source, start, line0);
        assert current == s.next && line == s.line && tokens == tokens0 + Emitted(s.emit)
               && errors == errors0 + Reported(s.emit) && spans == spans0 + (if s.emit.Emits? then [Span(start, s.next)] else []);
        if !step {
          assert source[start] == '/' && source[start + 1] == '*';
          return false;
        }
        StepSound(source, start, line0, tokens0, spans0, errors0);
        StepKeepsState(source, tokens0, spans0, errors0, tokens, spans, errors, start, line0, current, line);
      }
      ghost var before := tokens;
      tokens := tokens + [Token(EOF, "", NilVal, line)];
      assert tokens[..|spans|] == before;
      LinesForwardAppend(before, Token(EOF, "", NilVal, line));
      NoLexedEof(source, before, spans);
      return true;
    }
  }

  /** `new Scanner(source).scanTokens()`: exactly `ScanSource`, whose tokens are all lexed from the source. */
  method Scan(source: string) returns (r: ScanResult, ghost spans: seq<Span>)
    ensures r == ScanSource(source)
    ensures r.Scanned? ==> ScanSound(source, r.tokens, spans, r.errors)
    ensures r.ScanCrash? ==> ScanErrors(r.errors)
    ensures r.ScanCrash? ==> exists i :: 0 <= i < |source| - 1 && source[i] == '/' && source[i + 1] == '*'
  {
    var scanner := new Scanner(source);
    var ok := scanner.ScanTokens();
    var tokens, errors := scanner.tokens, scanner.errors;
    spans := scanner.spans;
    assert ScanSource(source) == ScanAll(source, 0, 1, [], []);
    if ok {
      r := Scanned(tokens, errors);
    } else {
      r := ScanCrash(errors);
    }
  }

  /**
   * What `scanTokens` returns, stated without the lexer: one token per span,
   * each lexed from its slice, then an EOF token with an empty lexeme and no
   * literal, on the last line; lines run forward, and every report but an
   * unterminated string at the very end is an unexpected character.
   */
  ghost predicate ScanSound(source: string, tokens: seq<Token>, spans: seq<Span>, errors: seq<Diagnostic>) {
    && |tokens| == |spans| + 1
    && AllLexed(source, tokens[..|spans|], spans) && SpansForward(spans)
    && tokens[|spans|].kind == EOF && tokens[|spans|].lexeme == "" && tokens[|spans|].literal == NilVal
    && (forall i :: 0 <= i < |spans| ==> tokens[i].kind != EOF)
    && LinesForward(tokens) && ScanErrors(errors)
    && (forall i :: 0 <= i < |errors| - 1 ==> errors[i].message == UnexpectedCharacter)
    && (|errors| > 0 && errors[|errors| - 1].message == UnterminatedString ==>
          errors[|errors| - 1].line == tokens[|spans|].line)
  }
}
