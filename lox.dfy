/**
 * The driver and error reporter of Interpreter/Lox.cs: `run` scans, parses
 * and, unless an error was reported, interprets; `error`/`report` and
 * `runtimeError` write the diagnostics and set the two flags.
 *
 * The scanner and the parser record their `Lox.error` calls as `Diagnostic`
 * values; `Run` reports them in the order they were made. Nothing else is
 * written to the console while scanning and parsing, so the text written is
 * the same as when each call reports at once.
 */
module LoxMain {
  import opened Util
  import opened Tokens
  import opened Errors
  import opened Ast
  import opened Terminal
  import opened Environments
  import opened ScanRules
  import opened Scanning
  import opened ParseRules
  import opened Parsing
  import opened Interpreting

  // ------------------------------------------------------------ message texts

  /** The location `error(Token, ..)` hands to `report`. */
  function Where(token: Token): (w: string)
    ensures token.kind == EOF ==> w == " at end"
    ensures token.kind != EOF ==> w == " at '" + token.lexeme + "'"
  {
    if token.kind == EOF then " at end" else " at '" + token.lexeme + "'"
  }

  /** The line `report` writes. */
  function ReportText(line: nat, where: string, message: string): string {
    "[line " + NatToString(line) + "] Error " + where + ": " + message
  }

  /** The line number of a report can be read back from it. */
  lemma ReportNamesLine(line: nat, where: string, message: string)
    ensures var digits := NatToString(line);
      && ReportText(line, where, message) == "[line " + digits + "] Error " + where + ": " + message
      && AllDigits(digits) && DigitsValue(digits) == line
  {
    NatToStringRoundTrip(line);
  }

  /** What one recorded `error` call writes: `error(int, ..)` has no location. */
  function DiagnosticText(d: Diagnostic): string {
    match d
    case LineError(line, message) => ReportText(line, "", message) + "\n"
    case TokenError(token, message) => ReportText(token.line, Where(token), message) + "\n"
  }

  /** What the recorded calls write, in order. */
  function DiagnosticsText(ds: seq<Diagnostic>): string {
    if |ds| == 0 then "" else DiagnosticsText(ds[..|ds| - 1]) + DiagnosticText(ds[|ds| - 1])
  }

  /** Reporting two runs of calls one after the other writes both texts. */
  lemma {:induction false} DiagnosticsTextAppend(a: seq<Diagnostic>, b: seq<Diagnostic>)
    ensures DiagnosticsText(a + b) == DiagnosticsText(a) + DiagnosticsText(b)
    decreases |b|
  {
    if |b| == 0 {
      assert a + b == a;
    } else {
      var front, last := b[..|b| - 1], b[|b| - 1];
      assert (a + b)[..|a + b| - 1] == a + front;
      assert (a + b)[|a + b| - 1] == last;
      DiagnosticsTextAppend(a, front);
      Associative(DiagnosticsText(a), DiagnosticsText(front), DiagnosticText(last));
    }
  }

  /** Replaying one more recorded call adds that call's text. */
  lemma DiagnosticsTextStep(ds: seq<Diagnostic>, i: nat)
    requires i < |ds|
    ensures DiagnosticsText(ds[..i + 1]) == DiagnosticsText(ds[..i]) + DiagnosticText(ds[i])
  {
    assert ds[..i + 1][..i] == ds[..i];
  }

  lemma Associative(x: string, y: string, z: string)
    ensures x + y + z == x + (y + z)
  {
  }

  /** The line of a runtime error can be read back from what `runtimeError` writes. */
  lemma RuntimeErrorNamesLine(e: RuntimeError)
    ensures var digits := NatToString(e.token.line);
      && RuntimeErrorText(e) == e.message + "\n[line " + digits + "]"
      && AllDigits(digits) && DigitsValue(digits) == e.token.line
  {
    NatToStringRoundTrip(e.token.line);
  }

  /** What `runtimeError` writes: the message, then the line of the token on a line of its own. */
  function RuntimeErrorText(e: RuntimeError): string {
    e.message + "\n[line " + NatToString(e.token.line) + "]"
  }

  // ------------------------------------------------------------ outcomes

  /** How a call of `run` ends. */
  datatype RunOutcome =
    | Skipped        // an error was reported: the program is not interpreted
    | Completed      // every statement ran
    | RuntimeFailed  // a `RuntimeException` stopped it and was reported
    | Crashed        // an exception nobody catches: the scanner read past the source, a visitor default, a `null` statement
    | RanOutOfFuel   // a `while` loop ran longer than the fuel bound

  /** What `run` does with the outcome of `interpret`. */
  function Finish(r: Outcome): (o: RunOutcome)
    ensures o == Completed <==> r.Normal?
    ensures o == RuntimeFailed <==> r.Abrupt? && r.signal.Throw?
    ensures o == RanOutOfFuel <==> r.Abrupt? && r.signal.OutOfFuel?
    ensures o != Skipped
  {
    match r
    case Normal => Completed
    case Abrupt(Throw(_)) => RuntimeFailed
    case Abrupt(OutOfFuel) => RanOutOfFuel
    case Abrupt(_) => Crashed
  }

  /** The text `interpret` adds through `Lox.runtimeError` for an outcome. */
  function FailureText(r: Outcome): string {
    if r.Abrupt? && r.signal.Throw? then RuntimeErrorText(r.signal.error) + "\n" else ""
  }

  // ------------------------------------------------------------ what a run does

  /** What a run can change: the global scopes, the console, and the two flags. */
  datatype Session = Session(scopes: Scopes, out: string, hadError: bool, hadRuntimeError: bool)

  datatype Ran = Ran(outcome: RunOutcome, session: Session)

  /**
   * `run` once the scanner has returned `tokens`: parse, report the
   * scanner's and the parser's errors, and interpret unless `hadError` is
   * set, now or from before.
   */
  function RunScanned(ops: NumOps, tokens: seq<Token>, scanErrors: seq<Diagnostic>, s: Session, fuel: nat): (r: Ran)
    requires EndsWithEof(tokens) && |s.scopes| > 0
    ensures |r.session.scopes| == |s.scopes| && s.out <= r.session.out
    ensures r.session.hadRuntimeError == (s.hadRuntimeError || r.outcome == RuntimeFailed)
    ensures r.outcome == Skipped <==> r.session.hadError
    ensures r.outcome == Skipped ==> r.session.scopes == s.scopes
    ensures s.hadError ==> r.outcome == Skipped
    ensures var reported := scanErrors + Program(tokens, 0, [], []).errors;
      && s.out + DiagnosticsText(reported) <= r.session.out
      && (|reported| > 0 ==> r.outcome == Skipped)
      && (r.outcome == Skipped ==> r.session.out == s.out + DiagnosticsText(reported))
  {
    var parsed := Program(tokens, 0, [], []);
    var reported := scanErrors + parsed.errors;
    var out := s.out + DiagnosticsText(reported);
    if s.hadError || |reported| > 0 then Ran(Skipped, s.(out := out, hadError := true))
    else
      var st := State(s.scopes, out);
      var o := ExecList(ops, parsed.result.value, st, fuel);
      ExecListExtends(ops, parsed.result.value, st, fuel);
      var outcome := Finish(o.result);
      Ran(outcome, Session(o.state.scopes, o.state.out + FailureText(o.result), false, s.hadRuntimeError || outcome == RuntimeFailed))
  }

  /**
   * `run(source)`: scan; a block comment that runs off the end throws out
   * of `run` after reporting what the scanner found so far; otherwise as
   * `RunScanned`.
   */
  function RunSource(ops: NumOps, source: string, s: Session, fuel: nat): (r: Ran)
    requires |s.scopes| > 0
    ensures |r.session.scopes| == |s.scopes| && s.out <= r.session.out
    ensures r.session.hadRuntimeError == (s.hadRuntimeError || r.outcome == RuntimeFailed)
    ensures ScanSource(source).ScanCrash? ==> r.outcome == Crashed && r.session.scopes == s.scopes
    ensures r.outcome == Skipped ==> r.session.scopes == s.scopes
    ensures r.session.hadError ==> r.outcome == Skipped || r.outcome == Crashed
    ensures s.hadError ==> r.outcome == Skipped || r.outcome == Crashed
    ensures ScanSource(source).ScanCrash? ==> r.session.out == s.out + DiagnosticsText(ScanSource(source).errors)
  {
    match ScanSource(source)
    case ScanCrash(errors) => Ran(Crashed, s.(out := s.out + DiagnosticsText(errors), hadError := s.hadError || |errors| > 0))
    case Scanned(tokens, errors) => RunScanned(ops, tokens, errors, s, fuel)
  }

  /** The outcomes that end the process: an exception nobody catches, or the fuel bound reached. */
  predicate Halts(o: RunOutcome) {
    o == Crashed || o == RanOutOfFuel
  }

  /** How `runPrompt` ends: the lines run, the session left, and whether the last one halted. */
  datatype Turns = Turns(ran: nat, session: Session, halted: bool)

  /**
   * `runPrompt` from line `i`: write `> `, read the line (the end of input
   * reads as empty), stop at an empty one, otherwise `run` it and clear
   * `hadError`. A run that halts ends the loop there, before `hadError`
   * is cleared.
   */
  function PromptFrom(ops: NumOps, lines: seq<string>, i: nat, s: Session, fuel: nat): (r: Turns)
    requires i <= |lines| && |s.scopes| > 0
    ensures i <= r.ran <= |lines| && |r.session.scopes| == |s.scopes| && s.out <= r.session.out
    ensures forall k :: i <= k < r.ran ==> |lines[k]| > 0
    ensures r.halted ==> r.ran > i
    ensures !r.halted ==> r.ran == |lines| || |lines[r.ran]| == 0
    ensures !r.halted && r.ran > i ==> !r.session.hadError
    ensures r.ran == i ==> r.session == s.(out := s.out + "> ") && !r.halted
    ensures s.hadRuntimeError ==> r.session.hadRuntimeError
    decreases |lines| - i
  {
    var prompted := s.(out := s.out + "> ");
    if i == |lines| || |lines[i]| == 0 then Turns(i, prompted, false)
    else
      var r := RunSource(ops, lines[i], prompted, fuel);
      if Halts(r.outcome) then Turns(i + 1, r.session, true)
      else PromptFrom(ops, lines, i + 1, r.session.(hadError := false), fuel)
  }

  /** A line that halts is the last one run: the lines after it are never read. */
  lemma HaltingLineEndsPrompt(ops: NumOps, lines: seq<string>, i: nat, s: Session, fuel: nat)
    requires i < |lines| && |lines[i]| > 0 && |s.scopes| > 0
    requires Halts(RunSource(ops, lines[i], s.(out := s.out + "> "), fuel).outcome)
    ensures PromptFrom(ops, lines, i, s, fuel) == Turns(i + 1, RunSource(ops, lines[i], s.(out := s.out + "> "), fuel).session, true)
  {
  }

  /** An error on one line does not stop the next: `hadError` is clear when it runs. */
  lemma ErrorsDoNotCarryOver(ops: NumOps, lines: seq<string>, i: nat, s: Session, fuel: nat)
    requires i < |lines| && |lines[i]| > 0 && |s.scopes| > 0
    requires !Halts(RunSource(ops, lines[i], s.(out := s.out + "> "), fuel).outcome)
    ensures var r := RunSource(ops, lines[i], s.(out := s.out + "> "), fuel);
      PromptFrom(ops, lines, i, s, fuel) == PromptFrom(ops, lines, i + 1, r.session.(hadError := false), fuel)
  {
  }

  // ------------------------------------------------------------ the class

  /** The static class `Lox`: its flags, the one interpreter, and the console it writes to. */
  class Lox {
    var hadError: bool
    var hadRuntimeError: bool
    const interpreter: Interpreter
    const console: Console

    ghost predicate Valid()
      reads this, interpreter, interpreter.env, interpreter.env.Repr
    {
      interpreter.Valid() && interpreter.console == console && this !in interpreter.env.Repr
    }

    constructor(console: Console, ops: NumOps)
      ensures Valid() && fresh(interpreter) && fresh(interpreter.env.Repr)
      ensures this.console == console && interpreter.ops == ops && interpreter.env.Scopes == [map[]]
      ensures !hadError && !hadRuntimeError
    {
      interpreter := new Interpreter(console, ops);
      this.console := console;
      hadError := false;
      hadRuntimeError := false;
    }

    /** `report`: write the line and set `hadError`. */
    method Report(line: nat, where: string, message: string)
      modifies this, console
      ensures console.text == old(console.text) + ReportText(line, where, message) + "\n"
      ensures hadError && hadRuntimeError == old(hadRuntimeError)
    {
      console.WriteLine(ReportText(line, where, message));
      hadError := true;
    }

    /** `error(int line, ..)`. */
    method ErrorAtLine(line: nat, message: string)
      modifies this, console
      ensures console.text == old(console.text) + DiagnosticText(LineError(line, message))
      ensures hadError && hadRuntimeError == old(hadRuntimeError)
    {
      Report(line, "", message);
    }

    /** `error(Token token, ..)`. */
    method ErrorAt(token: Token, message: string)
      modifies this, console
      ensures console.text == old(console.text) + DiagnosticText(TokenError(token, message))
      ensures hadError && hadRuntimeError == old(hadRuntimeError)
    {
      if token.kind == EOF {
        Report(token.line, " at end", message);
      } else {
        Report(token.line, " at '" + token.lexeme + "'", message);
      }
    }

    /** `runtimeError`: write the message and the line, and set `hadRuntimeError`. */
    method ReportRuntimeError(e: RuntimeError)
      modifies this, console
      ensures console.text == old(console.text) + RuntimeErrorText(e) + "\n"
      ensures hadRuntimeError && hadError == old(hadError)
    {
      console.WriteLine(e.message + "\n[line " + NatToString(e.token.line) + "]");
      hadRuntimeError := true;
    }

    /** One recorded call of `error`, replayed. */
    method ReportOne(d: Diagnostic)
      modifies this, console
      ensures console.text == old(console.text) + DiagnosticText(d)
      ensures hadError && hadRuntimeError == old(hadRuntimeError)
    {
      match d {
        case LineError(line, message) => ErrorAtLine(line, message);
        case TokenError(token, message) => ErrorAt(token, message);
      }
    }

    /** The recorded `error` calls, made in order. */
    method ReportAll(ds: seq<Diagnostic>)
      modifies this, console
      ensures console.text == old(console.text) + DiagnosticsText(ds)
      ensures hadError == (old(hadError) || |ds| > 0) && hadRuntimeError == old(hadRuntimeError)
    {
      var i := 0;
      while i < |ds|
        invariant 0 <= i <= |ds|
        invariant console.text == old(console.text) + DiagnosticsText(ds[..i])
        invariant hadError == (old(hadError) || i > 0) && hadRuntimeError == old(hadRuntimeError)
      {
        ReportOne(ds[i]);
        DiagnosticsTextStep(ds, i);
        Associative(old(console.text), DiagnosticsText(ds[..i]), DiagnosticText(ds[i]));
        i := i + 1;
      }
      assert ds[..i] == ds;
    }

    /** The part of the state a run can change. */
    ghost function SessionOf(): Session
      reads this, console, interpreter, interpreter.env
    {
      Session(interpreter.env.Scopes, console.text, hadError, hadRuntimeError)
    }

    /**
     * `run`: scan, parse, and interpret unless `hadError` is set; exactly
     * `RunSource`. `scanned` and `statements` are the scanner's result and
     * the parsed program.
     */
    method Run(source: string, fuel: nat) returns (outcome: RunOutcome, ghost scanned: ScanResult, ghost statements: seq<Option<Stmt>>)
      requires Valid()
      modifies this, console, interpreter, interpreter.env.Repr
      ensures Valid() && interpreter.env == old(interpreter.env)
      ensures scanned == ScanSource(source)
      ensures Ran(outcome, SessionOf()) == RunSource(interpreter.ops, source, old(SessionOf()), fuel)
      ensures scanned.Scanned? ==> Built(statements) == Program(scanned.tokens, 0, [], []).result
    {
      ghost var s0 := SessionOf();
      var r;
      ghost var spans;
      r, spans := Scan(source);
      scanned := r;
      if r.ScanCrash? {
        ReportAll(r.errors);
        statements := [];
        assert SessionOf() == s0.(out := s0.out + DiagnosticsText(r.errors), hadError := s0.hadError || |r.errors| > 0);
        return Crashed, scanned, statements;
      }
      assert RunSource(interpreter.ops, source, s0, fuel) == RunScanned(interpreter.ops, r.tokens, r.errors, s0, fuel);
      outcome, statements := RunTokens(r.tokens, r.errors, fuel);
    }

    /** The rest of `run` once the scanner has finished: exactly `RunScanned`. */
    method RunTokens(tokens: seq<Token>, scanErrors: seq<Diagnostic>, fuel: nat) returns (outcome: RunOutcome, ghost statements: seq<Option<Stmt>>)
      requires Valid() && EndsWithEof(tokens)
      modifies this, console, interpreter, interpreter.env.Repr
      ensures Valid() && interpreter.env == old(interpreter.env)
      ensures Built(statements) == Program(tokens, 0, [], []).result
      ensures Ran(outcome, SessionOf()) == RunScanned(interpreter.ops, tokens, scanErrors, old(SessionOf()), fuel)
    {
      var parser := new Parser(tokens);
      var parsed := parser.ParseProgram();
      statements := parsed;
      ReportBoth(scanErrors, parser.errors);
      if hadError {
        return Skipped, statements;
      }
      outcome := Interpret(parsed, fuel);
    }

    /** The scanner's calls of `error`, then the parser's. */
    method ReportBoth(scanErrors: seq<Diagnostic>, parseErrors: seq<Diagnostic>)
      modifies this, console
      ensures console.text == old(console.text) + DiagnosticsText(scanErrors + parseErrors)
      ensures hadError == (old(hadError) || |scanErrors + parseErrors| > 0) && hadRuntimeError == old(hadRuntimeError)
    {
      ReportAll(scanErrors);
      ReportAll(parseErrors);
      DiagnosticsTextAppend(scanErrors, parseErrors);
      Associative(old(console.text), DiagnosticsText(scanErrors), DiagnosticsText(parseErrors));
    }

    /** `interpreter.interpret(statements)`, whose `catch` hands a `RuntimeException` to `runtimeError`. */
    method Interpret(statements: seq<Option<Stmt>>, fuel: nat) returns (outcome: RunOutcome)
      requires Valid()
      modifies this, console, interpreter, interpreter.env.Repr
      ensures Valid() && interpreter.env == old(interpreter.env)
      ensures var o := ExecList(interpreter.ops, statements, State(old(interpreter.env.Scopes), old(console.text)), fuel);
        && outcome == Finish(o.result) && interpreter.env.Scopes == o.state.scopes
        && console.text == o.state.out + FailureText(o.result)
      ensures hadError == old(hadError) && hadRuntimeError == (old(hadRuntimeError) || outcome == RuntimeFailed)
    {
      var result := interpreter.Interpret(statements, fuel);
      if result.Abrupt? && result.signal.Throw? {
        ghost var out := console.text;
        ReportRuntimeError(result.signal.error);
        Associative(out, RuntimeErrorText(result.signal.error), "\n");
      } else {
        assert console.text == console.text + FailureText(result);
      }
      outcome := Finish(result);
    }

    /**
     * `runFile`, given the file's contents: nothing runs once either flag
     * is set, and otherwise it is one `run`.
     */
    method RunFile(contents: string, fuel: nat) returns (outcome: RunOutcome, ghost scanned: ScanResult)
      requires Valid()
      modifies this, console, interpreter, interpreter.env.Repr
      ensures Valid() && interpreter.env == old(interpreter.env)
      ensures old(hadError) || old(hadRuntimeError) ==> outcome == Skipped && SessionOf() == old(SessionOf())
      ensures !old(hadError) && !old(hadRuntimeError) ==>
        scanned == ScanSource(contents) && Ran(outcome, SessionOf()) == RunSource(interpreter.ops, contents, old(SessionOf()), fuel)
    {
      scanned := ScanSource(contents);
      if hadError { return Skipped, scanned; }
      if hadRuntimeError { return Skipped, scanned; }
      ghost var statements;
      outcome, scanned, statements := Run(contents, fuel);
    }

    /**
     * One turn of `runPrompt`'s loop once a line is read: `run` it, then
     * clear `hadError`, unless the run threw out of the loop.
     */
    method PromptLine(line: string, fuel: nat) returns (outcome: RunOutcome)
      requires Valid()
      modifies this, console, interpreter, interpreter.env.Repr
      ensures Valid() && interpreter.env == old(interpreter.env)
      ensures var r := RunSource(interpreter.ops, line, old(SessionOf()), fuel);
        outcome == r.outcome && SessionOf() == if Halts(outcome) then r.session else r.session.(hadError := false)
    {
      ghost var scanned, statements;
      outcome, scanned, statements := Run(line, fuel);
      if !Halts(outcome) {
        hadError := false;
      }
    }

    /**
     * `runPrompt`, given the lines typed: exactly `PromptFrom` from the
     * first line. The one interpreter keeps its global scope from line to
     * line.
     */
    method RunPrompt(lines: seq<string>, fuel: nat) returns (count: nat, halted: bool)
      requires Valid()
      modifies this, console, interpreter, interpreter.env.Repr
      ensures Valid() && interpreter.env == old(interpreter.env)
      ensures Turns(count, SessionOf(), halted) == PromptFrom(interpreter.ops, lines, 0, old(SessionOf()), fuel)
    {
      count := 0;
      while true
        invariant Valid() && interpreter.env == old(interpreter.env)
        invariant count <= |lines|
        invariant PromptFrom(interpreter.ops, lines, count, SessionOf(), fuel) == PromptFrom(interpreter.ops, lines, 0, old(SessionOf()), fuel)
        decreases |lines| - count
      {
        console.Write("> ");
        if count == |lines| || |lines[count]| == 0 {
          return count, false;
        }
        var outcome := PromptLine(lines[count], fuel);
        count := count + 1;
        if Halts(outcome) {
          return count, true;
        }
      }
    }
  }
}
