/** Properties of command routing in the current shell. */
module RouterProps {
  import opened Text
  import opened Registry
  import opened Router
  import Sorting

  // ---------------------------------------------------------------------
  // Lines dispatched in turn.

  /** Dispatching lines in turn stops right after the first line that asks
      to exit. */
  lemma {:induction false} DispatchEachStops(quits: string -> bool, lines: seq<string>, i: nat)
    requires i < |lines| && quits(lines[i])
    requires forall j :: 0 <= j < i ==> !quits(lines[j])
    ensures DispatchEach(quits, lines) == Run(lines[..i + 1], true)
  {
    if i > 0 {
      DispatchEachStops(quits, lines[1..], i - 1);
      assert [lines[0]] + lines[1..][..i] == lines[..i + 1];
    }
  }

  /** The lines dispatched are the lines given, up to and including the
      first that asks to exit, and all of them when none does. */
  lemma {:induction false} DispatchEachShape(quits: string -> bool, lines: seq<string>)
    ensures var r := DispatchEach(quits, lines);
            && r.trace <= lines
            && (forall i :: 0 <= i < |r.trace| - 1 ==> !quits(r.trace[i]))
            && (r.exit ==> r.trace != [] && quits(r.trace[|r.trace| - 1]))
            && (!r.exit ==> r.trace == lines && forall i :: 0 <= i < |lines| ==> !quits(lines[i]))
  {
    if lines != [] {
      DispatchEachShape(quits, lines[1..]);
      assert lines == [lines[0]] + lines[1..];
    }
  }

  /** When no line asks to exit, all of them are dispatched. */
  lemma {:induction false} DispatchEachThrough(quits: string -> bool, lines: seq<string>)
    requires forall j :: 0 <= j < |lines| ==> !quits(lines[j])
    ensures DispatchEach(quits, lines) == Run(lines, false)
  {
    if lines != [] {
      DispatchEachThrough(quits, lines[1..]);
      assert [lines[0]] + lines[1..] == lines;
    }
  }

  // ---------------------------------------------------------------------
  // Scripts.

  /** Running a script is running its commands alone: blank lines and
      comments contribute nothing, wherever they stand. */
  lemma {:induction false} ScriptRunCommands(d: Dialect, reg: Registry, ov: Option<string>, quits: string -> bool, lines: seq<string>)
    ensures ScriptRun(OnecmdFor(d, reg, ov, quits), lines) == OnecmdEach(d, reg, ov, quits, ScriptCommands(lines))
  {
    if lines != [] {
      ScriptRunCommands(d, reg, ov, quits, lines[1..]);
      var l := Strip(lines[0]);
      var rest := ScriptCommands(lines[1..]);
      if IsScriptCommand(l) {
        assert ScriptCommands(lines) == [l] + rest;
        assert ([l] + rest)[1..] == rest;
      } else {
        assert ScriptCommands(lines) == rest;
      }
    }
  }

  /** `ScriptRun` on the lines from `i`, one line unfolded. */
  lemma ScriptRunStep(run: string -> Run, lines: seq<string>, i: nat)
    requires i < |lines|
    ensures ScriptRun(run, lines[i..]) == Then(ScriptLine(run, lines[i]), ScriptRun(run, lines[i + 1..]))
  {
    assert lines[i..][0] == lines[i] && lines[i..][1..] == lines[i + 1..];
  }

  /** Lines already run followed by `r` and then `rest`. */
  lemma ThenDone(done: seq<string>, r: Run, rest: Run)
    ensures Then(Run(done, false), Then(r, rest))
         == if r.exit then Run(done + r.trace, true) else Then(Run(done + r.trace, false), rest)
  {
  }

  /** The commands of a script run one after the other, each exactly as
      `onecmd` would run it alone, until one asks to exit. */
  lemma {:induction false} OnecmdEachOutcomes(d: Dialect, reg: Registry, ov: Option<string>, quits: string -> bool, cmds: seq<string>)
    ensures OnecmdEach(d, reg, ov, quits, cmds) == Sequenced(CommandOutcomes(d, reg, ov, quits, cmds))
  {
    if cmds != [] {
      OnecmdEachOutcomes(d, reg, ov, quits, cmds[1..]);
      var r := CommandOutcomes(d, reg, ov, quits, cmds);
      assert r[1..] == CommandOutcomes(d, reg, ov, quits, cmds[1..]);
    }
  }

  // ---------------------------------------------------------------------
  // `;` chaining.

  /** Running two lists of chunks one after the other is running their
      concatenation. */
  lemma {:induction false} ChunksAppend(d: Dialect, reg: Registry, ov: Option<string>, quits: string -> bool, a: seq<string>, b: seq<string>)
    ensures Chunks(d, reg, ov, quits, a + b) == Then(Chunks(d, reg, ov, quits, a), Chunks(d, reg, ov, quits, b))
  {
    if a == [] {
      assert a + b == b;
    } else {
      assert (a + b)[0] == a[0];
      assert (a + b)[1..] == a[1..] + b;
      ChunksAppend(d, reg, ov, quits, a[1..], b);
      var c := Strip(a[0]);
      if c != [] {
        ThenAssoc(OnecmdSingle(d, reg, ov, quits, c), Chunks(d, reg, ov, quits, a[1..]), Chunks(d, reg, ov, quits, b));
      }
    }
  }

  /** A chain asks to exit exactly when one of its non-blank chunks does. */
  lemma {:induction false} ChunksExit(d: Dialect, reg: Registry, ov: Option<string>, quits: string -> bool, cs: seq<string>)
    ensures Chunks(d, reg, ov, quits, cs).exit
        <==> exists i :: 0 <= i < |cs| && Strip(cs[i]) != [] && OnecmdSingle(d, reg, ov, quits, Strip(cs[i])).exit
  {
    if cs != [] {
      ChunksExit(d, reg, ov, quits, cs[1..]);
      if exists i :: 1 <= i < |cs| && Strip(cs[i]) != [] && OnecmdSingle(d, reg, ov, quits, Strip(cs[i])).exit {
        var i :| 1 <= i < |cs| && Strip(cs[i]) != [] && OnecmdSingle(d, reg, ov, quits, Strip(cs[i])).exit;
        assert cs[1..][i - 1] == cs[i];
      }
      if exists i :: 0 <= i < |cs| - 1 && Strip(cs[1..][i]) != [] && OnecmdSingle(d, reg, ov, quits, Strip(cs[1..][i])).exit {
        var i :| 0 <= i < |cs| - 1 && Strip(cs[1..][i]) != [] && OnecmdSingle(d, reg, ov, quits, Strip(cs[1..][i])).exit;
        assert cs[1..][i] == cs[i + 1];
      }
    }
  }

  /** A line with `;` and no repeat keyword is split at every `;` and its
      chunks are run in order. */
  lemma ChainedLine(d: Dialect, reg: Registry, ov: Option<string>, quits: string -> bool, line: string)
    requires "repeat" !in Scan(line) && "repeatall" !in Scan(line)
    requires |Scan(line)| < 3 || Lower(Scan(line)[0]) != "repeatall"
    requires ';' in line
    ensures Onecmd(d, reg, ov, quits, line) == Chunks(d, reg, ov, quits, SplitOn(line, ';'))
  {
    assert RepeatForm(Scan(line)).None?;
    assert Parse(line, Scan(line), RepeatForm(Scan(line))) == Chained(SplitOn(line, ';'));
    ChainedRun(d, reg, ov, quits, line, Scan(line), SplitOn(line, ';'));
  }

  lemma ChainedRun(d: Dialect, reg: Registry, ov: Option<string>, quits: string -> bool, line: string, toks: seq<string>,
                   chunks: seq<string>)
    requires Parse(line, toks, RepeatForm(toks)) == Chained(chunks)
    ensures OnecmdToks(d, reg, ov, quits, line, toks) == Chunks(d, reg, ov, quits, chunks)
  {
    assert Program(d, reg, ov, line, toks) == Chain(ChunkForms(d, reg, ov, chunks));
    ChunksForms(d, reg, ov, quits, chunks);
  }

  // ---------------------------------------------------------------------
  // The one-line `repeat` forms.

  lemma ScanTokensSlice(toks: seq<string>, i: nat, j: nat)
    requires i <= j <= |toks|
    requires ScanTokens(toks)
    ensures ScanTokens(toks[i..j])
  {
    forall k | 0 <= k < j - i ensures ScanToken(toks[i..j][k]) {
      assert toks[i..j][k] == toks[i + k];
    }
  }

  lemma DropSemisTokens(toks: seq<string>)
    requires ScanTokens(toks)
    ensures ScanTokens(DropSemis(toks))
  {
    var rest := DropSemis(toks);
    DropSemisSuffix(toks);
    forall i | 0 <= i < |rest| ensures ScanToken(rest[i]) {
      assert rest[i] == toks[|toks| - |rest| + i];
    }
  }

  lemma ParseLooped(line: string, toks: seq<string>, count: int, idx: nat, e: nat)
    requires RepeatForm(toks) == Some(Block(count, idx, e))
    ensures Parse(line, toks, RepeatForm(toks)) == Looped(count, toks[idx + 2..e], DropSemis(toks[e + 1..]))
  {
    var p := Parse(line, toks, RepeatForm(toks));
    assert p.Looped?;
    assert p.count == count;
    assert p.body == toks[idx + 2..e];
    assert p.after == DropSemis(toks[e + 1..]);
  }

  lemma ParseRepeatAll(line: string, toks: seq<string>, count: int, idx: nat)
    requires RepeatForm(toks) == Some(All(count, idx))
    ensures Parse(line, toks, RepeatForm(toks)) == RepeatAll(count, toks[idx + 2..])
  {
    var p := Parse(line, toks, RepeatForm(toks));
    assert p.RepeatAll?;
    assert p.count == count;
    assert p.cmd == toks[idx + 2..];
  }

  /** The run of a parsed loop, from the tokens. */
  lemma LoopedRun(d: Dialect, reg: Registry, ov: Option<string>, quits: string -> bool, line: string, toks: seq<string>,
                  count: int, body: seq<string>, rest: seq<string>)
    requires Parse(line, toks, RepeatForm(toks)) == Looped(count, body, rest)
    ensures OnecmdToks(d, reg, ov, quits, line, toks)
         == Then(Repeated(OnecmdToks(d, reg, ov, quits, Strip(Unwords(body)), body), count),
                 if rest == [] then Idle else OnecmdToks(d, reg, ov, quits, Unwords(rest), rest))
  {
    var after := if rest == [] then NoOp else Program(d, reg, ov, Unwords(rest), rest);
    assert Program(d, reg, ov, line, toks) == Loop(count, Program(d, reg, ov, Strip(Unwords(body)), body), after);
    assert Exec(quits, after) == if rest == [] then Idle else OnecmdToks(d, reg, ov, quits, Unwords(rest), rest);
  }

  lemma RepeatAllRunToks(d: Dialect, reg: Registry, ov: Option<string>, quits: string -> bool, line: string, toks: seq<string>,
                         count: int, cmd: seq<string>)
    requires Parse(line, toks, RepeatForm(toks)) == RepeatAll(count, cmd)
    ensures OnecmdToks(d, reg, ov, quits, line, toks)
         == Repeated(OnecmdToks(d, reg, ov, quits, Unwords(cmd), cmd), count)
  {
  }

  /** `repeat N body end rest` runs `onecmd` on the body `N` times and then
      on the rest without its leading `;` tokens, stopping as soon as
      anything asks to exit. */
  lemma RepeatBlockRun(d: Dialect, reg: Registry, ov: Option<string>, quits: string -> bool, line: string, count: int, idx: nat, e: nat)
    requires RepeatForm(Scan(line)) == Some(Block(count, idx, e))
    requires count > 0
    ensures var toks := Scan(line);
            var body := Onecmd(d, reg, ov, quits, Unwords(toks[idx + 2..e]));
            var rest := DropSemis(toks[e + 1..]);
            var after := if rest == [] then Idle else Onecmd(d, reg, ov, quits, Unwords(rest));
            Onecmd(d, reg, ov, quits, line)
            == if body.exit then body
               else Run(Copies(body.trace, count) + after.trace, after.exit)
  {
    var toks := Scan(line);
    var body := toks[idx + 2..e];
    var rest := DropSemis(toks[e + 1..]);
    ParseLooped(line, toks, count, idx, e);
    LoopedRun(d, reg, ov, quits, line, toks, count, body, rest);
    ScanTokensSlice(toks, idx + 2, e);
    Rescan(d, reg, ov, quits, body);
    UnwordsStripped(body);
    ScanTokensSlice(toks, e + 1, |toks|);
    DropSemisTokens(toks[e + 1..]);
    Rescan(d, reg, ov, quits, rest);
    RepeatedClosed(Onecmd(d, reg, ov, quits, Unwords(body)), count);
  }

  /** `repeatall N cmd` with no `end` runs `onecmd` on `cmd` `N` times, or
      once if it asks to exit. */
  lemma RepeatAllRun(d: Dialect, reg: Registry, ov: Option<string>, quits: string -> bool, line: string, count: int, idx: nat)
    requires RepeatForm(Scan(line)) == Some(All(count, idx))
    requires count > 0
    ensures var cmd := Onecmd(d, reg, ov, quits, Unwords(Scan(line)[idx + 2..]));
            Onecmd(d, reg, ov, quits, line) == if cmd.exit then cmd else Run(Copies(cmd.trace, count), false)
  {
    var toks := Scan(line);
    var cmd := toks[idx + 2..];
    ParseRepeatAll(line, toks, count, idx);
    RepeatAllRunToks(d, reg, ov, quits, line, toks, count, cmd);
    ScanTokensSlice(toks, idx + 2, |toks|);
    Rescan(d, reg, ov, quits, cmd);
    RepeatedClosed(Onecmd(d, reg, ov, quits, Unwords(cmd)), count);
  }

  /** A count of zero or less runs nothing of the loop: only what follows
      `end`. */
  lemma RepeatBlockZero(d: Dialect, reg: Registry, ov: Option<string>, quits: string -> bool, line: string, count: int, idx: nat, e: nat)
    requires RepeatForm(Scan(line)) == Some(Block(count, idx, e))
    requires count <= 0
    ensures var rest := DropSemis(Scan(line)[e + 1..]);
            Onecmd(d, reg, ov, quits, line) == if rest == [] then Idle else Onecmd(d, reg, ov, quits, Unwords(rest))
  {
    var toks := Scan(line);
    LoopedZero(d, reg, ov, quits, line, toks, count, idx, e);
    AfterRescan(d, reg, ov, quits, toks, e);
  }

  lemma LoopedZero(d: Dialect, reg: Registry, ov: Option<string>, quits: string -> bool, line: string, toks: seq<string>,
                   count: int, idx: nat, e: nat)
    requires RepeatForm(toks) == Some(Block(count, idx, e))
    requires count <= 0
    ensures var rest := DropSemis(toks[e + 1..]);
            OnecmdToks(d, reg, ov, quits, line, toks) == if rest == [] then Idle else OnecmdToks(d, reg, ov, quits, Unwords(rest), rest)
  {
    ParseLooped(line, toks, count, idx, e);
    LoopedRun(d, reg, ov, quits, line, toks, count, toks[idx + 2..e], DropSemis(toks[e + 1..]));
  }

  /** What follows `end` scans back to its tokens. */
  lemma AfterRescan(d: Dialect, reg: Registry, ov: Option<string>, quits: string -> bool, toks: seq<string>, e: nat)
    requires ScanTokens(toks) && e < |toks|
    ensures var rest := DropSemis(toks[e + 1..]);
            Onecmd(d, reg, ov, quits, Unwords(rest)) == OnecmdToks(d, reg, ov, quits, Unwords(rest), rest)
  {
    ScanTokensSlice(toks, e + 1, |toks|);
    DropSemisTokens(toks[e + 1..]);
    Rescan(d, reg, ov, quits, DropSemis(toks[e + 1..]));
  }

  lemma {:induction false} IndexOfSkip(t: seq<string>, w: string, from: nat, mid: nat)
    requires from <= mid <= |t|
    requires forall j :: from <= j < mid ==> t[j] != w
    ensures IndexOf(t, w, from) == IndexOf(t, w, mid)
    decreases mid - from
  {
    if from < mid {
      IndexOfSkip(t, w, from + 1, mid);
    }
  }

  function Shifted(r: Option<nat>, k: nat): Option<nat> {
    if r.None? then None else Some(r.value + k)
  }

  lemma {:induction false} IndexOfShift(p: seq<string>, s: seq<string>, w: string, from: nat)
    ensures IndexOf(p + s, w, |p| + from) == Shifted(IndexOf(s, w, from), |p|)
    decreases |s| - from
  {
    if from < |s| {
      assert (p + s)[|p| + from] == s[from];
      IndexOfShift(p, s, w, from + 1);
    }
  }

  lemma IndexOfPast(p: seq<string>, s: seq<string>, w: string)
    requires w !in p
    ensures IndexOf(p + s, w, 0) == Shifted(IndexOf(s, w, 0), |p|)
  {
    forall j | 0 <= j < |p| ensures (p + s)[j] != w {
      assert (p + s)[j] == p[j];
    }
    IndexOfSkip(p + s, w, 0, |p|);
    IndexOfShift(p, s, w, 0);
  }

  /** A form found `k` tokens further on. */
  function ShiftForm(f: Form, k: nat): Form {
    match f
    case Block(c, i, e) => Block(c, k + i, k + e)
    case All(c, i) => All(c, k + i)
  }

  /** Tokens without a repeat keyword in front of a repeat form leave the
      form as it is, only further on. */
  lemma RepeatFormShift(p: seq<string>, s: seq<string>)
    requires "repeat" !in p && "repeatall" !in p
    requires RepeatForm(s).Some?
    ensures RepeatForm(p + s) == Some(ShiftForm(RepeatForm(s).value, |p|))
  {
    KeywordShift(p, s);
    var (idx, all) := Keyword(s).value;
    FormAtShift(p, s, idx, all);
  }

  lemma FormAtShift(p: seq<string>, s: seq<string>, idx: nat, all: bool)
    requires FormAt(s, idx, all).Some?
    ensures FormAt(p + s, |p| + idx, all) == Some(ShiftForm(FormAt(s, idx, all).value, |p|))
  {
    IndexOfShift(p, s, "end", idx + 2);
    assert (p + s)[|p| + idx + 1] == s[idx + 1];
  }

  lemma KeywordShift(p: seq<string>, s: seq<string>)
    requires "repeat" !in p && "repeatall" !in p
    ensures Keyword(p + s) == if Keyword(s).None? then None
                              else Some((|p| + Keyword(s).value.0, Keyword(s).value.1))
  {
    IndexOfPast(p, s, "repeatall");
    IndexOfPast(p, s, "repeat");
  }

  lemma ScanTokensSuffix(p: seq<string>, s: seq<string>)
    requires ScanTokens(p + s)
    ensures ScanTokens(s)
  {
    forall i | 0 <= i < |s| ensures ScanToken(s[i]) {
      assert s[i] == (p + s)[|p| + i];
    }
  }

  /** Tokens before the first repeat keyword are dropped when a repeat
      form follows: `a ; repeat 2 b end` runs `b` twice and never runs `a`,
      exactly as if the line had started at `repeat`. */
  lemma RepeatDropsPrefix(d: Dialect, reg: Registry, ov: Option<string>, quits: string -> bool, line: string, p: seq<string>, s: seq<string>)
    requires Scan(line) == p + s
    requires "repeat" !in p && "repeatall" !in p
    requires RepeatForm(s).Some?
    ensures Onecmd(d, reg, ov, quits, line) == Onecmd(d, reg, ov, quits, Unwords(s))
  {
    ScanTokensSuffix(p, s);
    ScanJoin(s);
    match RepeatForm(s).value
    case Block(count, i, e) => PrefixDroppedBlock(d, reg, ov, quits, line, p, s, count, i, e);
    case All(count, i) => PrefixDroppedAll(d, reg, ov, quits, line, p, s, count, i);
  }

  lemma PrefixDroppedBlock(d: Dialect, reg: Registry, ov: Option<string>, quits: string -> bool, l1: string,
                           p: seq<string>, s: seq<string>, count: int, i: nat, e: nat)
    requires "repeat" !in p && "repeatall" !in p
    requires RepeatForm(s) == Some(Block(count, i, e))
    ensures OnecmdToks(d, reg, ov, quits, l1, p + s) == OnecmdToks(d, reg, ov, quits, Unwords(s), s)
  {
    var body := s[i + 2..e];
    var rest := DropSemis(s[e + 1..]);
    RepeatFormShift(p, s);
    assert RepeatForm(p + s) == Some(Block(count, |p| + i, |p| + e));
    ShiftedBlockParse(l1, p, s, count, i, e);
    ParseLooped(Unwords(s), s, count, i, e);
    LoopedRun(d, reg, ov, quits, l1, p + s, count, body, rest);
    LoopedRun(d, reg, ov, quits, Unwords(s), s, count, body, rest);
  }

  lemma SliceShift(p: seq<string>, s: seq<string>, a: nat, b: nat)
    requires a <= b <= |s|
    ensures (p + s)[|p| + a..|p| + b] == s[a..b]
    ensures (p + s)[|p| + a..] == s[a..]
  {
  }

  /** A block form found further on parses the same tokens. */
  lemma ShiftedBlockParse(l1: string, p: seq<string>, s: seq<string>, count: int, i: nat, e: nat)
    requires i + 2 <= e < |s|
    ensures Parse(l1, p + s, Some(Block(count, |p| + i, |p| + e))) == Looped(count, s[i + 2..e], DropSemis(s[e + 1..]))
  {
    SliceShift(p, s, i + 2, e);
    SliceShift(p, s, e + 1, |s|);
  }

  lemma PrefixDroppedAll(d: Dialect, reg: Registry, ov: Option<string>, quits: string -> bool, l1: string,
                         p: seq<string>, s: seq<string>, count: int, i: nat)
    requires "repeat" !in p && "repeatall" !in p
    requires RepeatForm(s) == Some(All(count, i))
    ensures OnecmdToks(d, reg, ov, quits, l1, p + s) == OnecmdToks(d, reg, ov, quits, Unwords(s), s)
  {
    var toks := p + s;
    RepeatFormShift(p, s);
    assert RepeatForm(toks) == Some(All(count, |p| + i));
    assert toks[|p| + i + 2..] == s[i + 2..];
    ParseRepeatAll(l1, toks, count, |p| + i);
    ParseRepeatAll(Unwords(s), s, count, i);
    RepeatAllRunToks(d, reg, ov, quits, l1, toks, count, s[i + 2..]);
    RepeatAllRunToks(d, reg, ov, quits, Unwords(s), s, count, s[i + 2..]);
  }

  // ---------------------------------------------------------------------
  // `_onecmd_single`.

  /** `repeat N cmd` runs `cmd` `N` times through the dispatcher, or once if
      it asks to exit; a count that is no integer sends the line as it is. */
  lemma SingleRepeat(d: Dialect, reg: Registry, ov: Option<string>, quits: string -> bool, line: string)
    requires |Words(line)| >= 3 && Lower(Words(line)[0]) == "repeat"
    ensures var toks := Words(line);
            var cmd := Unwords(toks[2..]);
            OnecmdSingle(d, reg, ov, quits, line)
            == match ParseInt(toks[1])
               case None => Run([line], quits(line))
               case Some(n) =>
                 if n <= 0 then Idle
                 else if quits(cmd) then Run([cmd], true)
                 else Run(Copies([cmd], n), false)
  {
    var toks := Words(line);
    if ParseInt(toks[1]).Some? {
      RepeatedClosed(Dispatch(quits, Unwords(toks[2..])), ParseInt(toks[1]).value);
    }
  }

  /** An `all` command that finds a device with channels sends one line per
      channel, in channel order, up to and including the first that asks to
      exit; otherwise the line goes to the dispatcher unchanged. */
  lemma SingleFanOut(reg: Registry, ov: Option<string>, quits: string -> bool, line: string)
    requires |Words(line)| < 3 || Lower(Words(line)[0]) != "repeat"
    ensures var r := OnecmdSingle(Current, reg, ov, quits, line);
            match FanOut(reg, ov, Words(line))
            case None => r == Run([line], quits(line))
            case Some(lines) =>
              r.trace <= lines && r.trace != []
              && (forall i :: 0 <= i < |r.trace| - 1 ==> !quits(r.trace[i]))
              && (r.exit <==> quits(r.trace[|r.trace| - 1]))
              && (!r.exit ==> r.trace == lines)
  {
    match FanOut(reg, ov, Words(line)) {
      case None =>
        assert SingleForm(Current, reg, ov, line) == Plain(line);
      case Some(lines) =>
        assert SingleForm(Current, reg, ov, line) == Fanned(lines);
        DispatchEachShape(quits, lines);
    }
  }

  /** The older shell never fans out: `all` reaches the dispatcher as it is. */
  lemma LegacyNoFanOut(reg: Registry, ov: Option<string>, quits: string -> bool, line: string)
    requires |Words(line)| < 3 || Lower(Words(line)[0]) != "repeat"
    ensures OnecmdSingle(Legacy, reg, ov, quits, line) == Run([line], quits(line))
  {
  }
}
