/** Command routing in the current shell: `onecmd` (the one-line
    `repeat N ... end` and `repeatall` forms, `;` chaining) and
    `_onecmd_single` (the `repeat N cmd` prefix and the `all` channel
    fan-out). Below these sits the dispatcher inherited from `cmd.Cmd`,
    which runs one command line; here it records the line in a trace and
    answers whether the line asks the shell to exit, through `quits`. The
    dispatcher leaves the registry and the override as they are. */
module Router {
  import opened Text
  import opened Registry

  // ---------------------------------------------------------------------
  // Tokens with `;` standing on its own, as `line.replace(";", " ; ")`
  // followed by the whitespace split gives them.

  predicate Sep(c: char) { IsSpace(c) || c == ';' }

  /** A token of `Scan`: a lone `;`, or a run of characters that are
      neither whitespace nor `;`. */
  predicate ScanToken(w: string) {
    w == ";" || (|w| > 0 && forall i :: 0 <= i < |w| ==> !Sep(w[i]))
  }

  function TokLen(s: string): (n: nat)
    ensures n <= |s|
    ensures forall i :: 0 <= i < n ==> !Sep(s[i])
    ensures n == |s| || Sep(s[n])
  {
    if s == [] || Sep(s[0]) then 0 else 1 + TokLen(s[1..])
  }

  function Scan(s: string): (r: seq<string>)
    ensures forall i :: 0 <= i < |r| ==> ScanToken(r[i])
    decreases |s|
  {
    if s == [] then []
    else if IsSpace(s[0]) then Scan(s[1..])
    else if s[0] == ';' then [";"] + Scan(s[1..])
    else
      var n := TokLen(s);
      assert ScanToken(s[..n]) by {
        forall i | 0 <= i < n ensures !Sep(s[..n][i]) { assert s[..n][i] == s[i]; }
      }
      [s[..n]] + Scan(s[n..])
  }

  lemma {:induction false} TokLenToken(w: string, t: string)
    requires |w| > 0 && forall i :: 0 <= i < |w| ==> !Sep(w[i])
    requires t == [] || Sep(t[0])
    ensures TokLen(w + t) == |w|
    decreases |w|
  {
    assert (w + t)[0] == w[0];
    if |w| > 1 {
      assert (w + t)[1..] == w[1..] + t;
      TokLenToken(w[1..], t);
    } else {
      assert (w + t)[1..] == t;
    }
  }

  lemma ScanCons(w: string, t: string)
    requires ScanToken(w)
    requires t == [] || IsSpace(t[0])
    ensures Scan(w + t) == [w] + Scan(t)
  {
    if w == ";" {
      assert (w + t)[1..] == t;
    } else {
      TokLenToken(w, t);
      assert (w + t)[..|w|] == w;
      assert (w + t)[|w|..] == t;
    }
  }

  /** Joining scan tokens with blanks and scanning again gives the tokens
      back: the lines `onecmd` builds from tokens re-scan to exactly those
      tokens. */
  lemma {:induction false} ScanJoin(ws: seq<string>)
    requires forall i :: 0 <= i < |ws| ==> ScanToken(ws[i])
    ensures Scan(Unwords(ws)) == ws
  {
    if |ws| == 1 {
      ScanCons(ws[0], []);
      assert ws[0] + [] == ws[0];
    } else if |ws| > 1 {
      var j := Unwords(ws[1..]);
      assert Unwords(ws) == ws[0] + (" " + j);
      ScanCons(ws[0], " " + j);
      assert (" " + j)[1..] == j;
      ScanJoin(ws[1..]);
    }
  }

  lemma {:induction false} UnwordsEnds(ws: seq<string>)
    requires ws != [] && forall i :: 0 <= i < |ws| ==> ScanToken(ws[i])
    ensures var j := Unwords(ws);
            ScanToken(ws[0]) && ScanToken(ws[|ws| - 1]) &&
            j != [] && j[0] == ws[0][0] && j[|j| - 1] == ws[|ws| - 1][|ws[|ws| - 1]| - 1]
  {
    if |ws| > 1 {
      UnwordsEnds(ws[1..]);
      var j := Unwords(ws[1..]);
      assert Unwords(ws) == ws[0] + " " + j;
    }
  }

  /** A line joined from scan tokens has no blanks around it, so `.strip()`
      leaves it as it is. */
  lemma UnwordsStripped(ws: seq<string>)
    requires forall i :: 0 <= i < |ws| ==> ScanToken(ws[i])
    ensures Strip(Unwords(ws)) == Unwords(ws)
  {
    if ws != [] {
      UnwordsEnds(ws);
      var j := Unwords(ws);
      assert !IsSpace(ws[0][0]);
      assert TrimLeft(j) == j;
    }
  }

  // ---------------------------------------------------------------------
  // Runs of the dispatcher.

  /** The lines handed to the dispatcher, in order, and whether the last of
      them asked to exit. */
  datatype Run = Run(trace: seq<string>, exit: bool)

  const Idle := Run([], false)

  function Dispatch(quits: string -> bool, line: string): (r: Run)
    ensures r.trace == [line] && r.exit == quits(line)
  {
    Run([line], quits(line))
  }

  /** `a` and then, unless `a` asked to exit, `b`. */
  function Then(a: Run, b: Run): (r: Run)
    ensures a.exit ==> r == a
    ensures !a.exit ==> r.trace == a.trace + b.trace && r.exit == b.exit
  {
    if a.exit then a else Run(a.trace + b.trace, b.exit)
  }

  lemma ThenAssoc(a: Run, b: Run, c: Run)
    ensures Then(Then(a, b), c) == Then(a, Then(b, c))
  {
  }

  /** `for _ in range(n): if run(): return True`. */
  function Repeated(r: Run, n: int): Run
    decreases if n <= 0 then 0 else n
  {
    if n <= 0 then Idle else Then(r, Repeated(r, n - 1))
  }

  /** Repeating a run that never exits concatenates `n` copies of its
      trace; one that exits stops after its first round. */
  lemma {:induction false} RepeatedClosed(r: Run, n: int)
    ensures n <= 0 ==> Repeated(r, n) == Idle
    ensures n > 0 && r.exit ==> Repeated(r, n) == r
    ensures n > 0 && !r.exit ==> Repeated(r, n) == Run(Copies(r.trace, n), false)
    decreases if n <= 0 then 0 else n
  {
    if n > 1 {
      RepeatedClosed(r, n - 1);
    }
  }

  /** Each line dispatched in turn until one asks to exit. */
  function DispatchEach(quits: string -> bool, lines: seq<string>): Run {
    if lines == [] then Idle else Then(Dispatch(quits, lines[0]), DispatchEach(quits, lines[1..]))
  }

  // ---------------------------------------------------------------------
  // `_onecmd_single`.

  function IndexWhereAll(toks: seq<string>): (r: Option<nat>)
    ensures r.Some? ==> r.value < |toks| && Lower(toks[r.value]) == "all"
    ensures r.Some? ==> forall j :: 0 <= j < r.value ==> Lower(toks[j]) != "all"
    ensures r.None? ==> forall j :: 0 <= j < |toks| ==> Lower(toks[j]) != "all"
  {
    if toks == [] then None
    else if Lower(toks[0]) == "all" then Some(0)
    else match IndexWhereAll(toks[1..])
      case None => None
      case Some(k) => Some(k + 1)
  }

  /** The lines an `all` command fans out into, one per channel, with the
      first `all` replaced by the channel; nothing when the command word is
      no awg, scope, psu or dds, no device is found, or it has no channels. */
  function FanOut(reg: Registry, override: Option<string>, toks: seq<string>): (r: Option<seq<string>>)
    ensures r.Some? ==> IndexWhereAll(toks).Some? && r.value != []
  {
    match IndexWhereAll(toks)
    case None => None
    case Some(i) =>
      var cmdToken := Lower(toks[0]);
      var base := StripDigits(cmdToken);
      if base !in {"awg", "scope", "psu", "dds"} then None
      else match FanOutDevice(reg, override, cmdToken, base)
        case None => None
        case Some(dev) =>
          match ChannelsForDevice(dev, base)
          case None => None
          case Some(chans) => if chans == [] then None else Some(Substitute(toks, i, chans))
  }

  /** `toks` with position `i` set to each channel in turn, joined. */
  function Substitute(toks: seq<string>, i: nat, chans: seq<string>): (r: seq<string>)
    requires i < |toks|
    ensures |r| == |chans|
    ensures forall k :: 0 <= k < |chans| ==> r[k] == Unwords(toks[i := chans[k]])
  {
    if chans == [] then [] else [Unwords(toks[i := chans[0]])] + Substitute(toks, i, chans[1..])
  }

  /** Which shell routes the line: the older one has no `all` fan-out. */
  datatype Dialect = Current | Legacy

  /** What `_onecmd_single` makes of a line. */
  datatype Single =
    | RepeatPrefix(count: int, cmdLine: string)  // `repeat N cmd`: `cmd` N times
    | Fanned(lines: seq<string>)                 // `all`, one line per channel
    | Plain(line: string)                        // the line as it is

  /** The decision of `_onecmd_single`: the `repeat N cmd` prefix, else
      (in the current shell) the `all` fan-out, else the line as it is. */
  function SingleForm(d: Dialect, reg: Registry, override: Option<string>, line: string): Single {
    var toks := Words(line);
    if |toks| >= 3 && Lower(toks[0]) == "repeat" then
      match ParseInt(toks[1])
      case None => Plain(line)
      case Some(count) => RepeatPrefix(count, Unwords(toks[2..]))
    else if d == Legacy then Plain(line)
    else
      match FanOut(reg, override, toks)
      case Some(lines) => Fanned(lines)
      case None => Plain(line)
  }

  /** What the dispatcher is handed for a decision of `_onecmd_single`. */
  function RunSingle(quits: string -> bool, s: Single): Run {
    match s
    case RepeatPrefix(count, cmdLine) => Repeated(Dispatch(quits, cmdLine), count)
    case Fanned(lines) => DispatchEach(quits, lines)
    case Plain(line) => Dispatch(quits, line)
  }

  /** `_onecmd_single`. */
  function OnecmdSingle(d: Dialect, reg: Registry, override: Option<string>, quits: string -> bool, line: string): Run {
    RunSingle(quits, SingleForm(d, reg, override, line))
  }

  // ---------------------------------------------------------------------
  // `onecmd`.

  function IndexOf(toks: seq<string>, w: string, from: nat): (r: Option<nat>)
    ensures r.Some? ==> from <= r.value < |toks| && toks[r.value] == w
    ensures r.Some? ==> forall j :: from <= j < r.value ==> toks[j] != w
    ensures r.None? ==> forall j :: from <= j < |toks| ==> toks[j] != w
    decreases |toks| - from
  {
    if from >= |toks| then None
    else if toks[from] == w then Some(from)
    else IndexOf(toks, w, from + 1)
  }

  /** The tokens with any leading `;` removed. */
  function DropSemis(toks: seq<string>): (r: seq<string>)
    ensures |r| <= |toks|
    ensures r == [] || r[0] != ";"
  {
    if toks != [] && toks[0] == ";" then DropSemis(toks[1..]) else toks
  }

  /** What `DropSemis` keeps is a suffix of its input. */
  lemma DropSemisSuffix(toks: seq<string>)
    ensures DropSemis(toks) == toks[|toks| - |DropSemis(toks)|..]
  {
    if toks != [] && toks[0] == ";" {
      DropSemisSuffix(toks[1..]);
      assert toks[1..][|toks[1..]| - |DropSemis(toks[1..])|..] == toks[|toks| - |DropSemis(toks)|..];
    }
  }

  /** The in-line repeat forms `onecmd` recognises, by token positions:
      `repeat|repeatall N body end rest` and `repeatall N cmd`. */
  datatype Form = Block(count: int, idx: nat, endIdx: nat) | All(count: int, idx: nat)

  /** The form the `try` block of `onecmd` takes, or nothing when it falls
      through: no such keyword, no `end` after the count for `repeat`, or a
      count that is missing or no integer. */
  function RepeatForm(toks: seq<string>): (r: Option<Form>)
    ensures r.Some? && r.value.Block? ==> r.value.idx + 2 <= r.value.endIdx < |toks|
    ensures r.Some? && r.value.All? ==> r.value.idx + 2 <= |toks|
  {
    match Keyword(toks)
    case None => None
    case Some((idx, all)) => FormAt(toks, idx, all)
  }

  /** The form whose keyword stands at `idx`. */
  function FormAt(toks: seq<string>, idx: nat, all: bool): (r: Option<Form>)
    ensures r.Some? && r.value.Block? ==> r.value.idx == idx && idx + 2 <= r.value.endIdx < |toks|
    ensures r.Some? && r.value.All? ==> r.value.idx == idx && idx + 2 <= |toks|
  {
    if idx + 1 >= |toks| then None
    else match ParseInt(toks[idx + 1])
      case None => None
      case Some(count) =>
        match IndexOf(toks, "end", idx + 2)
        case Some(e) => Some(Block(count, idx, e))
        case None => if all then Some(All(count, idx)) else None
  }

  /** The first `repeatall` if there is one, else the first `repeat`, and
      which of the two it is. */
  function Keyword(toks: seq<string>): (r: Option<(nat, bool)>)
    ensures r.Some? ==> r.value.0 < |toks|
  {
    match IndexOf(toks, "repeatall", 0)
    case Some(i) => Some((i, true))
    case None =>
      match IndexOf(toks, "repeat", 0)
      case Some(i) => Some((i, false))
      case None => None
  }

  predicate ScanTokens(toks: seq<string>) {
    forall i :: 0 <= i < |toks| ==> ScanToken(toks[i])
  }

  /** What `onecmd` makes of a line and its tokens before it runs anything.
      The loops hold the tokens of the lines `onecmd` hands to itself. */
  datatype Cmd =
    | Looped(count: int, body: seq<string>, after: seq<string>)  // `repeat N body end ; after`
    | RepeatAll(count: int, cmd: seq<string>)                    // `repeatall N cmd`, no `end`
    | LeadingAll(count: int, cmdLine: string)                    // `repeatall N cmd` at the start, fall-through
    | Raw(line: string)                                          // sent to the dispatcher as it is
    | Chained(chunks: seq<string>)                               // split at `;`
    | Single(line: string)                                       // `_onecmd_single`

  /** The token positions of a form lie inside the tokens. */
  predicate Fits(f: Option<Form>, toks: seq<string>) {
    match f
    case None => true
    case Some(Block(_, idx, e)) => idx + 2 <= e < |toks|
    case Some(All(_, idx)) => idx + 2 <= |toks|
  }

  /** The parse of `onecmd`, given the repeat form the tokens hold (if
      any): the loop, else the fall-through. The token lists a loop keeps
      are shorter than the line's. */
  function Parse(line: string, toks: seq<string>, f: Option<Form>): (r: Cmd)
    requires Fits(f, toks)
    ensures r.Looped? ==> |r.body| < |toks| && |r.after| < |toks| && (r.after == [] || r.after[0] != ";")
    ensures r.RepeatAll? ==> |r.cmd| < |toks|
  {
    match f
    case None => ParseFallThrough(line, toks)
    case Some(Block(count, idx, e)) => Looped(count, toks[idx + 2..e], DropSemis(toks[e + 1..]))
    case Some(All(count, idx)) => RepeatAll(count, toks[idx + 2..])
  }

  /** When no repeat form applies: `repeatall N cmd` at the start (any
      case), `;` chaining, or `_onecmd_single`. */
  function ParseFallThrough(line: string, toks: seq<string>): Cmd {
    if |toks| >= 3 && Lower(toks[0]) == "repeatall" then
      match ParseInt(toks[1])
      case None => Raw(line)
      case Some(count) => LeadingAll(count, Unwords(toks[2..]))
    else if ';' in line then Chained(SplitOn(line, ';'))
    else Single(line)
  }

  /** All that `onecmd` makes of a line: its parse, with the lines of the
      loops parsed in turn and the decisions of `_onecmd_single` taken. */
  datatype Prog =
    | Loop(count: int, body: Prog, after: Prog)   // body `count` times, then what follows `end`
    | RepeatCmd(count: int, cmd: Prog)            // `repeatall N cmd` with no `end`
    | RepeatLine(count: int, cmdLine: string)     // a leading `repeatall N cmd`
    | Verbatim(line: string)                      // to the dispatcher as it is
    | Chain(forms: seq<Single>)                   // the non-blank `;` chunks
    | SingleLine(form: Single)                    // `_onecmd_single`
    | NoOp                                        // nothing after `end`

  /** The parse of `onecmd(line)` for a line whose scan is `toks`. A loop
      body is run as `onecmd(" ".join(body).strip())` and the remainder as
      `onecmd(" ".join(rest))`; those lines scan back to the same tokens
      (`Rescan`), so the inner parses go on from the tokens directly. */
  function Program(d: Dialect, reg: Registry, override: Option<string>, line: string, toks: seq<string>): Prog
    decreases |toks|
  {
    match Parse(line, toks, RepeatForm(toks))
    case Looped(count, body, after) =>
      Loop(count, Program(d, reg, override, Strip(Unwords(body)), body),
           if after == [] then NoOp else Program(d, reg, override, Unwords(after), after))
    case RepeatAll(count, cmd) => RepeatCmd(count, Program(d, reg, override, Unwords(cmd), cmd))
    case LeadingAll(count, cmdLine) => RepeatLine(count, cmdLine)
    case Raw(l) => Verbatim(l)
    case Chained(chunks) => Chain(ChunkForms(d, reg, override, chunks))
    case Single(l) => SingleLine(SingleForm(d, reg, override, l))
  }

  /** What running a parsed line hands to the dispatcher. */
  function Exec(quits: string -> bool, p: Prog): Run {
    match p
    case Loop(count, body, after) => Then(Repeated(Exec(quits, body), count), Exec(quits, after))
    case RepeatCmd(count, cmd) => Repeated(Exec(quits, cmd), count)
    case RepeatLine(count, cmdLine) => Repeated(Dispatch(quits, cmdLine), count)
    case Verbatim(l) => Dispatch(quits, l)
    case Chain(forms) => RunEach(quits, forms)
    case SingleLine(form) => RunSingle(quits, form)
    case NoOp => Idle
  }

  /** `onecmd(line)` for a line whose scan is `toks`. */
  function OnecmdToks(d: Dialect, reg: Registry, override: Option<string>, quits: string -> bool,
                      line: string, toks: seq<string>): Run
  {
    Exec(quits, Program(d, reg, override, line, toks))
  }

  /** `onecmd`. */
  function Onecmd(d: Dialect, reg: Registry, override: Option<string>, quits: string -> bool, line: string): Run {
    OnecmdToks(d, reg, override, quits, line, Scan(line))
  }

  // ---------------------------------------------------------------------
  // Scripts: `_run_script_lines` over the lines expansion produced.

  /** A stripped script line that is run: not blank and not a `#` comment. */
  predicate IsScriptCommand(l: string) { l != [] && l[0] != '#' }

  /** `onecmd` as a function of the line, the registry and override fixed. */
  function OnecmdFor(d: Dialect, reg: Registry, override: Option<string>, quits: string -> bool): string -> Run {
    l => Onecmd(d, reg, override, quits, l)
  }

  /** One script line: stripped, and handed to `run` (`onecmd`) unless it
      is blank or a comment. */
  function ScriptLine(run: string -> Run, line: string): Run {
    var l := Strip(line);
    if IsScriptCommand(l) then run(l) else Idle
  }

  /** The script lines in turn until one asks to exit. */
  function ScriptRun(run: string -> Run, lines: seq<string>): Run {
    if lines == [] then Idle else Then(ScriptLine(run, lines[0]), ScriptRun(run, lines[1..]))
  }

  /** The commands of a script: its stripped lines that are run, in order. */
  function ScriptCommands(lines: seq<string>): (r: seq<string>)
    ensures |r| <= |lines|
    ensures forall i :: 0 <= i < |r| ==> IsScriptCommand(r[i])
  {
    if lines == [] then []
    else
      var l := Strip(lines[0]);
      (if IsScriptCommand(l) then [l] else []) + ScriptCommands(lines[1..])
  }

  /** Commands through `onecmd` in turn until one asks to exit. */
  function OnecmdEach(d: Dialect, reg: Registry, override: Option<string>, quits: string -> bool, cmds: seq<string>): Run {
    if cmds == [] then Idle else Then(Onecmd(d, reg, override, quits, cmds[0]), OnecmdEach(d, reg, override, quits, cmds[1..]))
  }

  /** What each command, run through `onecmd` on its own, would do. */
  function CommandOutcomes(d: Dialect, reg: Registry, override: Option<string>, quits: string -> bool, cmds: seq<string>): (r: seq<Run>)
    ensures |r| == |cmds| && forall j :: 0 <= j < |cmds| ==> r[j] == Onecmd(d, reg, override, quits, cmds[j])
  {
    if cmds == [] then [] else [Onecmd(d, reg, override, quits, cmds[0])] + CommandOutcomes(d, reg, override, quits, cmds[1..])
  }

  /** The lines `onecmd` builds from scan tokens scan back to those tokens,
      so running them is running the tokens. */
  lemma Rescan(d: Dialect, reg: Registry, override: Option<string>, quits: string -> bool, ws: seq<string>)
    requires ScanTokens(ws)
    ensures Onecmd(d, reg, override, quits, Unwords(ws)) == OnecmdToks(d, reg, override, quits, Unwords(ws), ws)
    ensures Onecmd(d, reg, override, quits, Strip(Unwords(ws))) == OnecmdToks(d, reg, override, quits, Strip(Unwords(ws)), ws)
  {
    ScanJoin(ws);
    UnwordsStripped(ws);
  }

  /** The `;`-separated chunks, stripped, blank ones skipped, run left to
      right until one asks to exit. */
  function Chunks(d: Dialect, reg: Registry, override: Option<string>, quits: string -> bool, chunks: seq<string>): Run {
    if chunks == [] then Idle
    else
      var c := Strip(chunks[0]);
      var rest := Chunks(d, reg, override, quits, chunks[1..]);
      if c == [] then rest else Then(OnecmdSingle(d, reg, override, quits, c), rest)
  }

  /** The decisions of `_onecmd_single` for the non-blank chunks, in order. */
  function ChunkForms(d: Dialect, reg: Registry, override: Option<string>, chunks: seq<string>): (r: seq<Single>)
    ensures |r| <= |chunks|
  {
    if chunks == [] then []
    else
      var c := Strip(chunks[0]);
      var rest := ChunkForms(d, reg, override, chunks[1..]);
      if c == [] then rest else [SingleForm(d, reg, override, c)] + rest
  }

  /** Each decision run in turn until one asks to exit. */
  function RunEach(quits: string -> bool, forms: seq<Single>): Run {
    if forms == [] then Idle else Then(RunSingle(quits, forms[0]), RunEach(quits, forms[1..]))
  }

  /** The lines all the decisions would hand over, were none to exit. */
  function Traces(quits: string -> bool, forms: seq<Single>): seq<string> {
    if forms == [] then [] else Traces(quits, forms[..|forms| - 1]) + RunSingle(quits, forms[|forms| - 1]).trace
  }

  lemma TracesSnoc(quits: string -> bool, forms: seq<Single>, i: nat)
    requires i < |forms|
    ensures Traces(quits, forms[..i + 1]) == Traces(quits, forms[..i]) + RunSingle(quits, forms[i]).trace
  {
    assert forms[..i + 1][..i] == forms[..i];
  }

  lemma {:induction false} TracesCons(quits: string -> bool, forms: seq<Single>)
    requires forms != []
    ensures Traces(quits, forms) == RunSingle(quits, forms[0]).trace + Traces(quits, forms[1..])
    decreases |forms|
  {
    if |forms| > 1 {
      var n := |forms| - 1;
      TracesCons(quits, forms[..n]);
      assert forms[..n][1..] == forms[1..][..n - 1];
      assert forms[1..][n - 1] == forms[n];
    } else {
      assert forms[..0] == [] && forms[1..] == [];
    }
  }

  /** When no decision asks to exit, all of them run. */
  lemma RunEachThrough(quits: string -> bool, forms: seq<Single>)
    requires forall j :: 0 <= j < |forms| ==> !RunSingle(quits, forms[j]).exit
    ensures RunEach(quits, forms) == Run(Traces(quits, forms), false)
  {
    RunEachOutcomes(quits, forms);
    TracesOutcomes(quits, forms);
    SequencedThrough(Outcomes(quits, forms));
  }

  /** The decisions run up to and including the first that asks to exit. */
  lemma RunEachStops(quits: string -> bool, forms: seq<Single>, i: nat)
    requires i < |forms| && RunSingle(quits, forms[i]).exit
    requires forall j :: 0 <= j < i ==> !RunSingle(quits, forms[j]).exit
    ensures RunEach(quits, forms) == Run(Traces(quits, forms[..i]) + RunSingle(quits, forms[i]).trace, true)
  {
    RunEachOutcomes(quits, forms);
    SequencedStops(Outcomes(quits, forms), i);
    TracesOutcomes(quits, forms[..i]);
    OutcomesPrefix(quits, forms, i);
  }

  /** What each decision, run on its own, would do. */
  function Outcomes(quits: string -> bool, forms: seq<Single>): (r: seq<Run>)
    ensures |r| == |forms| && forall j :: 0 <= j < |forms| ==> r[j] == RunSingle(quits, forms[j])
  {
    if forms == [] then [] else [RunSingle(quits, forms[0])] + Outcomes(quits, forms[1..])
  }

  /** Runs one after the other, stopping after the first that asks to exit. */
  function Sequenced(runs: seq<Run>): Run {
    if runs == [] then Idle else Then(runs[0], Sequenced(runs[1..]))
  }

  /** All the lines of `runs`, in order. */
  function TraceOf(runs: seq<Run>): seq<string> {
    if runs == [] then [] else runs[0].trace + TraceOf(runs[1..])
  }

  lemma {:induction false} RunEachOutcomes(quits: string -> bool, forms: seq<Single>)
    ensures RunEach(quits, forms) == Sequenced(Outcomes(quits, forms))
  {
    if forms != [] {
      RunEachOutcomes(quits, forms[1..]);
    }
  }

  lemma {:induction false} TracesOutcomes(quits: string -> bool, forms: seq<Single>)
    ensures Traces(quits, forms) == TraceOf(Outcomes(quits, forms))
  {
    if forms != [] {
      TracesCons(quits, forms);
      TracesOutcomes(quits, forms[1..]);
    }
  }

  lemma OutcomesPrefix(quits: string -> bool, forms: seq<Single>, i: nat)
    requires i <= |forms|
    ensures Outcomes(quits, forms[..i]) == Outcomes(quits, forms)[..i]
  {
  }

  lemma {:induction false} SequencedThrough(runs: seq<Run>)
    requires forall j :: 0 <= j < |runs| ==> !runs[j].exit
    ensures Sequenced(runs) == Run(TraceOf(runs), false)
  {
    if runs != [] {
      SequencedThrough(runs[1..]);
    }
  }

  lemma {:induction false} SequencedStops(runs: seq<Run>, i: nat)
    requires i < |runs| && runs[i].exit
    requires forall j :: 0 <= j < i ==> !runs[j].exit
    ensures Sequenced(runs) == Run(TraceOf(runs[..i]) + runs[i].trace, true)
  {
    if i > 0 {
      SequencedStops(runs[1..], i - 1);
      assert runs[..i][1..] == runs[1..][..i - 1];
    }
  }

  /** Taking the decisions first and running them afterwards hands the
      dispatcher the same lines as running the chunks one by one. */
  lemma {:induction false} ChunksForms(d: Dialect, reg: Registry, override: Option<string>, quits: string -> bool, chunks: seq<string>)
    ensures Chunks(d, reg, override, quits, chunks) == RunEach(quits, ChunkForms(d, reg, override, chunks))
  {
    if chunks != [] {
      ChunksForms(d, reg, override, quits, chunks[1..]);
      var c := Strip(chunks[0]);
      if c != [] {
        var fs := ChunkForms(d, reg, override, chunks[1..]);
        assert ([SingleForm(d, reg, override, c)] + fs)[1..] == fs;
      }
    }
  }
}
