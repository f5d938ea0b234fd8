/** `onecmd` and `_onecmd_single` run step by step against the dispatcher
    they sit on (`cmd.Cmd.onecmd`). The dispatcher is an object that
    records every line it is handed; `quits` says which lines ask the
    shell to exit. Each method hands the dispatcher exactly the lines the
    matching function of `Router` lists, in order, and answers whether the
    last of them asked to exit. */
module Console {
  import opened Text
  import opened Registry
  import opened Router
  import opened RouterProps

  /** `cmd.Cmd.onecmd`, the dispatcher behind the shell. */
  class Dispatcher {
    const quits: string -> bool
    var trace: seq<string>

    constructor (quits: string -> bool)
      ensures this.quits == quits && trace == []
    {
      this.quits := quits;
      trace := [];
    }

    method Onecmd(line: string) returns (exit: bool)
      modifies this
      ensures exit == quits(line) && trace == old(trace) + [line]
    {
      trace := trace + [line];
      exit := quits(line);
    }
  }

  /** `for _ in range(count): if super().onecmd(line): return True`. */
  method DispatchRepeated(console: Dispatcher, line: string, count: int) returns (exit: bool)
    modifies console
    ensures var r := Repeated(Dispatch(console.quits, line), count);
            exit == r.exit && console.trace == old(console.trace) + r.trace
  {
    RepeatedClosed(Dispatch(console.quits, line), count);
    var k := 0;
    while k < count
      invariant 0 <= k <= (if count > 0 then count else 0)
      invariant console.quits(line) ==> k == 0
      invariant console.trace == old(console.trace) + Copies([line], k)
    {
      exit := console.Onecmd(line);
      if exit {
        return;
      }
      CopiesSnoc([line], k);
      k := k + 1;
    }
    exit := false;
  }

  /** The fanned-out lines to the dispatcher in turn until one asks to
      exit. */
  method DispatchEachLine(console: Dispatcher, lines: seq<string>) returns (exit: bool)
    modifies console
    ensures var r := DispatchEach(console.quits, lines);
            exit == r.exit && console.trace == old(console.trace) + r.trace
  {
    var i := 0;
    while i < |lines|
      invariant 0 <= i <= |lines|
      invariant console.trace == old(console.trace) + lines[..i]
      invariant forall j :: 0 <= j < i ==> !console.quits(lines[j])
    {
      exit := console.Onecmd(lines[i]);
      assert lines[..i + 1] == lines[..i] + [lines[i]];
      if exit {
        DispatchEachStops(console.quits, lines, i);
        return;
      }
      i := i + 1;
    }
    assert lines[..i] == lines;
    DispatchEachThrough(console.quits, lines);
    exit := false;
  }

  /** `_onecmd_single` once its decision is taken: `cmd` `count` times, each
      channel's line in turn, or the line as it is. */
  method RunSingleForm(console: Dispatcher, form: Single) returns (exit: bool)
    modifies console
    ensures var r := RunSingle(console.quits, form);
            exit == r.exit && console.trace == old(console.trace) + r.trace
  {
    match form {
      case RepeatPrefix(count, cmdLine) =>
        exit := DispatchRepeated(console, cmdLine, count);
      case Fanned(lines) =>
        exit := DispatchEachLine(console, lines);
      case Plain(line) =>
        exit := console.Onecmd(line);
    }
  }

  /** `_onecmd_single(line)`. */
  method RunSingleLine(d: Dialect, reg: Registry, ov: Option<string>, console: Dispatcher, line: string) returns (exit: bool)
    modifies console
    ensures var r := OnecmdSingle(d, reg, ov, console.quits, line);
            exit == r.exit && console.trace == old(console.trace) + r.trace
  {
    exit := RunSingleForm(console, SingleForm(d, reg, ov, line));
  }

  /** The loop over the `;` chunks, the blank ones already dropped: each
      through `_onecmd_single` until one asks to exit. */
  method RunChunks(console: Dispatcher, forms: seq<Single>) returns (exit: bool)
    modifies console
    ensures var r := RunEach(console.quits, forms);
            exit == r.exit && console.trace == old(console.trace) + r.trace
  {
    var i := 0;
    while i < |forms|
      invariant 0 <= i <= |forms|
      invariant console.trace == old(console.trace) + Traces(console.quits, forms[..i])
      invariant forall j :: 0 <= j < i ==> !RunSingle(console.quits, forms[j]).exit
    {
      exit := RunSingleForm(console, forms[i]);
      if exit {
        RunEachStops(console.quits, forms, i);
        return;
      }
      TracesSnoc(console.quits, forms, i);
      i := i + 1;
    }
    assert forms[..i] == forms;
    RunEachThrough(console.quits, forms);
    exit := false;
  }

  /** The loop of a repeat form: `count` rounds of `onecmd` on the same
      line, stopping at an exit. */
  method RunRepeated(console: Dispatcher, p: Prog, count: int) returns (exit: bool)
    modifies console
    ensures var r := Repeated(Exec(console.quits, p), count);
            exit == r.exit && console.trace == old(console.trace) + r.trace
    decreases p, 1
  {
    ghost var one := Exec(console.quits, p);
    RepeatedClosed(one, count);
    var k := 0;
    while k < count
      invariant 0 <= k <= (if count > 0 then count else 0)
      invariant one.exit ==> k == 0
      invariant console.trace == old(console.trace) + Copies(one.trace, k)
    {
      exit := RunProg(console, p);
      if exit {
        return;
      }
      CopiesSnoc(one.trace, k);
      k := k + 1;
    }
    exit := false;
  }

  /** `onecmd` on a parsed line. */
  method RunProg(console: Dispatcher, p: Prog) returns (exit: bool)
    modifies console
    ensures var r := Exec(console.quits, p);
            exit == r.exit && console.trace == old(console.trace) + r.trace
    decreases p, 0
  {
    match p {
      case Loop(count, body, after) =>
        exit := RunRepeated(console, body, count);
        if !exit {
          exit := RunProg(console, after);
        }
      case RepeatCmd(count, cmd) =>
        exit := RunRepeated(console, cmd, count);
      case RepeatLine(count, cmdLine) =>
        exit := DispatchRepeated(console, cmdLine, count);
      case Verbatim(l) =>
        exit := console.Onecmd(l);
      case Chain(forms) =>
        exit := RunChunks(console, forms);
      case SingleLine(form) =>
        exit := RunSingleForm(console, form);
      case NoOp =>
        exit := false;
    }
  }

  /** `onecmd(line)`: the line parsed, then run. */
  method Onecmd(d: Dialect, reg: Registry, ov: Option<string>, console: Dispatcher, line: string) returns (exit: bool)
    modifies console
    ensures var r := Router.Onecmd(d, reg, ov, console.quits, line);
            exit == r.exit && console.trace == old(console.trace) + r.trace
  {
    exit := RunProg(console, Program(d, reg, ov, line, Router.Scan(line)));
  }

  /** One line of `_run_script_lines`: stripped, and through `onecmd`
      unless it is blank or a comment. */
  method RunScriptLine(d: Dialect, reg: Registry, ov: Option<string>, console: Dispatcher, line: string)
    returns (exit: bool)
    modifies console
    ensures var r := ScriptLine(OnecmdFor(d, reg, ov, console.quits), line);
            exit == r.exit && console.trace == old(console.trace) + r.trace
  {
    var l := Strip(line);
    if IsScriptCommand(l) {
      exit := Onecmd(d, reg, ov, console, l);
    } else {
      exit := false;
    }
  }

  /** `_run_script_lines` after expansion: the lines in turn until one
      asks to exit. */
  method RunScriptLines(d: Dialect, reg: Registry, ov: Option<string>, console: Dispatcher, lines: seq<string>)
    returns (exit: bool)
    modifies console
    ensures var r := ScriptRun(OnecmdFor(d, reg, ov, console.quits), lines);
            exit == r.exit && console.trace == old(console.trace) + r.trace
  {
    ghost var run := OnecmdFor(d, reg, ov, console.quits);
    ghost var whole := ScriptRun(run, lines);
    ghost var done: seq<string> := [];
    var i := 0;
    while i < |lines|
      invariant 0 <= i <= |lines|
      invariant console.trace == old(console.trace) + done
      invariant whole == Then(Run(done, false), ScriptRun(run, lines[i..]))
    {
      ghost var r := ScriptLine(run, lines[i]);
      ghost var before := console.trace;
      ScriptRunStep(run, lines, i);
      ThenDone(done, r, ScriptRun(run, lines[i + 1..]));
      exit := RunScriptLine(d, reg, ov, console, lines[i]);
      AppendAssoc(old(console.trace), done, r.trace);
      done := done + r.trace;
      if exit {
        return;
      }
      i := i + 1;
    }
    assert lines[i..] == [];
    exit := false;
  }
}
