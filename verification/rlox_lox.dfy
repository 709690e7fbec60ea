/** `Lox.run` of ch13/lox.rb and `Interpreter#interpret` of
    ch12/interpreter.rb: scan, parse, stop on a reported static error,
    resolve, stop again, then execute the statements in order, catching a
    runtime error at the top. Printed lines are collected instead of being
    written to standard output. */
module RloxLox {
  import opened Util
  import opened RloxToken
  import opened RloxAst
  import opened RloxScanner
  import opened RloxParser
  import RloxResolver
  import opened RloxValue
  import opened RloxRuntime
  import opened RloxInterpreter

  datatype RunResult =
    | ScanCrash
    | StaticErrors(errors: seq<StaticError>)
    | Completed(out: seq<string>)
    | Failed(out: seq<string>, error: RuntimeError)
    | Crashed(out: seq<string>)
    | NonFiniteNumber(out: seq<string>)
    | Exhausted

  /** The output a run produced before it ended, when it got as far as
      executing statements. */
  function Output(r: RunResult): Option<seq<string>> {
    if r.Completed? || r.Failed? || r.Crashed? || r.NonFiniteNumber? then Some(r.out) else None
  }

  /** `interpret`: the statements in order from a fresh interpreter; a
      runtime error stops the run and keeps what was printed before it. A
      Return signal at top level, which the resolver rules out, would
      escape as a host exception; a host exception also keeps the lines
      already printed. */
  function Interpret(ctx: Ctx, program: seq<Stmt>, fuel: nat): (r: RunResult)
    ensures var e := ExecSeq(ctx, program, Initial, fuel);
            (r.Completed? <==> e.Done? && e.value.Normal?) &&
            (r.Failed? <==> e.Raised?) &&
            (r.Crashed? <==> e.HostCrash? || (e.Done? && e.value.Returning?)) &&
            (r.NonFiniteNumber? <==> e.NonFinite?) &&
            (r.Exhausted? <==> e.OutOfFuel?) &&
            ((e.Done? || e.Raised?) ==> Output(r) == Some(e.st.out)) &&
            ((e.HostCrash? || e.NonFinite?) ==> Output(r) == Some(e.printed))
    ensures r.Failed? ==> r.error == ExecSeq(ctx, program, Initial, fuel).error
    ensures program == [] ==> r == Completed([])
  {
    InitialValid();
    var e := ExecSeq(ctx, program, Initial, fuel);
    match e
    case Done(flow, st) => if flow.Normal? then Completed(st.out) else Crashed(st.out)
    case Raised(err, st) => Failed(st.out, err)
    case HostCrash(printed) => Crashed(printed)
    case NonFinite(printed) => NonFiniteNumber(printed)
    case OutOfFuel => Exhausted
  }

  /** What is printed is never taken back: when a program completes, the
      program extended by more statements prints the same lines first,
      whether it then completes, fails or crashes. */
  lemma OutputExtends(ctx: Ctx, p: seq<Stmt>, q: seq<Stmt>, fuel: nat)
    requires Interpret(ctx, p, fuel).Completed?
    ensures var r := Interpret(ctx, p + q, fuel);
            Output(r).Some? ==> Interpret(ctx, p, fuel).out <= Output(r).value
  {
    InitialValid();
    ExecSeqAppend(ctx, p, q, Initial, fuel);
  }

  /** A run that does not complete ends the same way however the program
      continues: a runtime error, a host exception or running out of fuel
      ends the run whatever follows. */
  lemma FailureIgnoresRest(ctx: Ctx, p: seq<Stmt>, q: seq<Stmt>, fuel: nat)
    requires !Interpret(ctx, p, fuel).Completed?
    ensures Interpret(ctx, p + q, fuel) == Interpret(ctx, p, fuel)
  {
    InitialValid();
    ExecSeqAppend(ctx, p, q, Initial, fuel);
  }

  /** The statements of a parse without errors. */
  function Statements(parsed: seq<Option<Stmt>>): (p: seq<Stmt>)
    requires forall i :: 0 <= i < |parsed| ==> parsed[i].Some?
    ensures |p| == |parsed| && forall i :: 0 <= i < |p| ==> parsed[i] == Some(p[i])
  {
    seq(|parsed|, i requires 0 <= i < |parsed| => parsed[i].value)
  }

  /** `Lox.run` after scanning: parse, resolve and interpret, stopping at
      the first phase that reported an error. */
  function RunTokens(numText: Render<real>, toks: seq<Token>, fuel: nat): (r: RunResult)
    requires ValidTokens(toks)
    ensures |Parse(toks).errors| > 0 ==> r == StaticErrors(Parse(toks).errors)
    ensures r.StaticErrors? ==> |r.errors| > 0
    ensures !r.ScanCrash?
    ensures Output(r).Some? ==> |Parse(toks).errors| == 0
  {
    var parsed := Parse(toks);
    if |parsed.errors| > 0 then StaticErrors(parsed.errors)
    else
      var program := Statements(parsed.statements);
      var resolved := RloxResolver.Resolve(program);
      if |resolved.errors| > 0 then StaticErrors(resolved.errors)
      else Interpret(Ctx(resolved.locals, numText), program, fuel)
  }

  /** `Lox.run` on one source text. A scan error is reported through
      `Lox.error` with a line number where a token is expected, which
      raises a host exception; a parse or resolve error is reported and
      stops the run before anything executes. */
  function Run(numText: Render<real>, src: string, fuel: nat): (r: RunResult)
    ensures |ScanTokens(src).errors| > 0 <==> r.ScanCrash?
    ensures |ScanTokens(src).errors| == 0 ==> r == RunTokens(numText, ScanTokens(src).tokens, fuel)
  {
    var scan := ScanTokens(src);
    if |scan.errors| > 0 then ScanCrash
    else RunTokens(numText, scan.tokens, fuel)
  }
}
