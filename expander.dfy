/** The script expander of the current shell (`_expand_script_lines` in
    lab_instruments/repl.py): a macro pass that turns the lines of a stored
    script into the flat list of command lines the shell then runs.

    `Expand`/`ExpandFrom` are the specification, written as recursion over
    the line index; `ExpandScriptLines` is the loop the shell runs, proved
    equal to it. The directives are `set`, `call`, `repeat N ... end`,
    `for v a b ... end`, `for a,b x,y ... end` and a stray `end`; blank lines
    and `#` comments are dropped; every other line is emitted with `${name}`
    placeholders substituted. */
module Expander {
  import opened Text
  import opened Env
  import SafeEval

  /** What the expander takes from Python's runtime: `ast.parse` (None for a
      `SyntaxError`), `float(text)` (None for a `ValueError`) and `str(value)`. */
  datatype Host = Host(
    parse: string -> Option<SafeEval.Expr>,
    toFloat: string -> Option<real>,
    show: SafeEval.Value -> string)

  /** Stored scripts by name (the shell's `scripts` dictionary). */
  type Scripts = map<string, seq<string>>

  const MaxDepth := 10

  /** What is left of the call-depth allowance; every `call` uses one unit. */
  function Budget(depth: nat): nat {
    if depth <= MaxDepth then MaxDepth + 1 - depth else 0
  }

  /** A stripped line the expander ignores: blank, or a `#` comment. */
  predicate Skipped(line: string) {
    line == [] || line[0] == '#'
  }

  /** The lower-cased first token of a line, if it has one. */
  function Head(toks: seq<string>): string {
    if toks == [] then "" else Lower(toks[0])
  }

  /** The table `set` evaluates in: every variable whose text `float()`
      accepts, as a float. */
  function NumericVars(h: Host, env: Env): (r: map<string, SafeEval.Value>)
    ensures SafeEval.NumericTable(r)
    ensures forall k :: k in r ==> k in Keys(env)
    decreases |env|
  {
    if env == [] then map[]
    else
      var (k, v) := env[|env| - 1];
      var m := NumericVars(h, env[..|env| - 1]);
      assert Keys(env[..|env| - 1]) <= Keys(env) by {
        forall i | 0 <= i < |env| - 1 ensures Keys(env[..|env| - 1])[i] == Keys(env)[i] {}
      }
      match h.toFloat(v)
      case Some(x) => m[k := SafeEval.Num(SafeEval.FloatK, x)]
      case None => m
  }

  /** The value `set` binds: `str(_safe_eval(text))`, or the text itself
      when parsing or evaluation raises. */
  function SetValue(h: Host, text: string, env: Env): string {
    match h.parse(text)
    case None => text
    case Some(e) =>
      match SafeEval.Eval(e, NumericVars(h, env))
      case Ok(v) => h.show(v)
      case Err(_) => text
  }

  /** `call` parameters: each `k=v` token binds `k` to the raw `v` (split at
      the first `=`, no substitution), left to right; other tokens are ignored. */
  function Overlay(env: Env, toks: seq<string>): Env
    decreases |toks|
  {
    if toks == [] then env
    else if '=' in toks[0] then
      var (k, v) := SplitOnce(toks[0], '=');
      Overlay(Put(env, k, v), toks[1..])
    else Overlay(env, toks[1..])
  }

  /** The non-empty names of a comma-separated variable list. */
  function NonEmpty(names: seq<string>): (r: seq<string>)
    ensures forall i :: 0 <= i < |r| ==> r[i] != []
  {
    if names == [] then []
    else if names[0] == [] then NonEmpty(names[1..])
    else [names[0]] + NonEmpty(names[1..])
  }

  /** The body of a `repeat`/`for` that starts at line `j` with `open`
      blocks still open: the stripped, non-skipped lines up to the `end`
      that closes the outermost block, and the index after that `end` (or
      the end of the script). Nested `repeat`/`for`/`end` lines are kept. */
  function CollectBlock(lines: seq<string>, j: nat, open: int): (r: (seq<string>, nat))
    requires j <= |lines|
    ensures j <= r.1 <= |lines| && |r.0| <= r.1 - j
    decreases |lines| - j
  {
    if j == |lines| then ([], j)
    else
      var line := Strip(lines[j]);
      if Skipped(line) || Words(line) == [] then CollectBlock(lines, j + 1, open)
      else
        var head := Head(Words(line));
        var open' := if head == "repeat" || head == "for" then open + 1
                     else if head == "end" then open - 1
                     else open;
        if head == "end" && open' == 0 then ([], j + 1)
        else
          var (block, next) := CollectBlock(lines, j + 1, open');
          ([line] + block, next)
  }

  /** Expansion of a whole script at call depth `depth`; past the maximum
      depth nothing is produced. */
  function Expand(h: Host, scripts: Scripts, lines: seq<string>, env: Env, depth: nat): seq<string>
    decreases Budget(depth), |lines|, 2, 0
  {
    if depth > MaxDepth then [] else ExpandFrom(h, scripts, lines, 0, env, depth)
  }

  /** Expansion of `lines[i..]` with the variables `env` as they stand at line `i`. */
  function ExpandFrom(h: Host, scripts: Scripts, lines: seq<string>, i: nat, env: Env, depth: nat): seq<string>
    requires i <= |lines| && depth <= MaxDepth
    decreases Budget(depth), |lines|, 1, |lines| - i
  {
    if i == |lines| then []
    else
      var st := Step(h, scripts, lines, i, env, depth);
      st.out + ExpandFrom(h, scripts, lines, st.next, st.env, depth)
  }

  /** What one directive at line `i` contributes: its output, the index of
      the first line after it, and the variables afterwards. */
  datatype Outcome = Outcome(out: seq<string>, next: nat, env: Env)

  /** One pass of the expander's loop body, starting at line `i`. */
  function Step(h: Host, scripts: Scripts, lines: seq<string>, i: nat, env: Env, depth: nat): (r: Outcome)
    requires i < |lines| && depth <= MaxDepth
    ensures i < r.next <= |lines|
    decreases Budget(depth), |lines|, 0, 0
  {
    var raw := Strip(lines[i]);
    var toks := Words(raw);
    if Skipped(raw) || toks == [] then Outcome([], i + 1, env)
    else
      var head := Head(toks);
      if head == "set" && |toks| >= 3 then
        var text := Subst(Unwords(toks[2..]), env);
        Outcome([], i + 1, Put(env, toks[1], SetValue(h, text, env)))
      else if head == "call" && |toks| >= 2 then
        if toks[1] !in scripts then Outcome([], i + 1, env)
        else Outcome(Expand(h, scripts, scripts[toks[1]], Overlay(env, toks[2..]), depth + 1), i + 1, env)
      else if head == "repeat" && |toks| >= 2 then
        match ParseInt(toks[1])
        case None => Outcome([], i + 1, env)
        case Some(count) =>
          var (block, next) := CollectBlock(lines, i + 1, 1);
          Outcome(Copies(Expand(h, scripts, block, env, depth), count), next, env)
      else if head == "for" && |toks| >= 3 then
        var (block, next) := CollectBlock(lines, i + 1, 1);
        var key := toks[1];
        if ',' in key then Outcome(ForMulti(h, scripts, block, NonEmpty(SplitOn(key, ',')), toks[2..], env, depth), next, env)
        else Outcome(ForSingle(h, scripts, block, key, toks[2..], env, depth), next, env)
      else if head == "end" then Outcome([], i + 1, env)
      else Outcome([Subst(raw, env)], i + 1, env)
  }

  /** `for key v1 v2 ...`: the block once per value, in order, each time in a
      copy of `env` with `key` bound to the value substituted in `env`. */
  function ForSingle(h: Host, scripts: Scripts, block: seq<string>, key: string, values: seq<string>, env: Env, depth: nat): seq<string>
    decreases Budget(depth), |block|, 3, |values|
  {
    if values == [] then []
    else
      Expand(h, scripts, block, Put(env, key, Subst(values[0], env)), depth)
        + ForSingle(h, scripts, block, key, values[1..], env, depth)
  }

  /** `for a,b x1,y1 x2,y2 ...`: as `ForSingle`, binding each name to its
      part of the comma-split value; the first value whose part count
      differs from the name count ends the loop. */
  function ForMulti(h: Host, scripts: Scripts, block: seq<string>, keys: seq<string>, values: seq<string>, env: Env, depth: nat): seq<string>
    decreases Budget(depth), |block|, 3, |values|
  {
    if values == [] then []
    else
      var parts := SplitOn(values[0], ',');
      if |parts| != |keys| then []
      else
        Expand(h, scripts, block, PutAll(env, keys, SubstAll(parts, env)), depth)
          + ForMulti(h, scripts, block, keys, values[1..], env, depth)
  }

  function SubstAll(parts: seq<string>, env: Env): (r: seq<string>)
    ensures |r| == |parts|
  {
    if parts == [] then [] else [Subst(parts[0], env)] + SubstAll(parts[1..], env)
  }

  // ---------------------------------------------------------------------
  // The loops the shell runs.

  /** The inner block-collection loop of `repeat` and `for`. */
  method CollectBlockLoop(lines: seq<string>, start: nat) returns (block: seq<string>, idx: nat)
    requires start <= |lines|
    ensures block == CollectBlock(lines, start, 1).0
    ensures idx == CollectBlock(lines, start, 1).1
  {
    block, idx := [], start;
    var open := 1;
    while idx < |lines|
      invariant start <= idx <= |lines|
      invariant open >= 1
      invariant block + CollectBlock(lines, idx, open).0 == CollectBlock(lines, start, 1).0
      invariant CollectBlock(lines, idx, open).1 == CollectBlock(lines, start, 1).1
      decreases |lines| - idx
    {
      var closed;
      closed, block, open := CollectLine(lines, idx, open, block);
      idx := idx + 1;
      if closed {
        return;
      }
    }
  }

  /** The body of the block-collection loop for the line at `idx`: whether
      it is the closing `end`, and otherwise the block and nesting depth after it. */
  method CollectLine(lines: seq<string>, idx: nat, open: int, block: seq<string>)
    returns (closed: bool, block': seq<string>, open': int)
    requires idx < |lines| && open >= 1
    ensures closed ==> block' == block && CollectBlock(lines, idx, open) == ([], idx + 1)
    ensures !closed ==> open' >= 1
    ensures !closed ==> block + CollectBlock(lines, idx, open).0 == block' + CollectBlock(lines, idx + 1, open').0
    ensures !closed ==> CollectBlock(lines, idx, open).1 == CollectBlock(lines, idx + 1, open').1
  {
    var line := Strip(lines[idx]);
    var toks := Words(line);
    if Skipped(line) || toks == [] {
      CollectBlockSkip(lines, idx, open);
      return false, block, open;
    }
    var head := Head(toks);
    open' := if head == "repeat" || head == "for" then open + 1
             else if head == "end" then open - 1
             else open;
    CollectBlockKeep(lines, idx, open, block);
    if head == "end" && open' == 0 {
      return true, block, open';
    }
    block' := block + [line];
    closed := false;
  }

  /** `_expand_script_lines(lines, variables, depth)`. */
  method ExpandScriptLines(h: Host, scripts: Scripts, lines: seq<string>, variables: Env, depth: nat)
    returns (expanded: seq<string>)
    ensures expanded == Expand(h, scripts, lines, variables, depth)
    decreases Budget(depth), |lines|, 2, 0
  {
    if depth > MaxDepth {
      return [];
    }
    expanded := [];
    var vars := variables;
    var idx := 0;
    while idx < |lines|
      invariant idx <= |lines|
      invariant expanded + ExpandFrom(h, scripts, lines, idx, vars, depth)
             == Expand(h, scripts, lines, variables, depth)
      decreases |lines| - idx
    {
      var out, next, vars' := ExpandLine(h, scripts, lines, idx, vars, depth);
      ExpandFromStep(h, scripts, lines, idx, vars, depth, expanded);
      expanded, idx, vars := expanded + out, next, vars';
    }
  }

  /** The body of the expander's loop for the line at `idx`: the lines it
      emits, where scanning resumes, and the variables afterwards. */
  method ExpandLine(h: Host, scripts: Scripts, lines: seq<string>, idx: nat, vars: Env, depth: nat)
    returns (out: seq<string>, next: nat, vars': Env)
    requires idx < |lines| && depth <= MaxDepth
    ensures Outcome(out, next, vars') == Step(h, scripts, lines, idx, vars, depth)
    decreases Budget(depth), |lines|, 1, 0
  {
    out, next, vars' := [], idx + 1, vars;
    var rawLine := Strip(lines[idx]);
    var tokens := Words(rawLine);
    if Skipped(rawLine) || tokens == [] {
      return;
    }
    var head := Head(tokens);
    if head == "set" && |tokens| >= 3 {
      var text := Subst(Unwords(tokens[2..]), vars);
      vars' := Put(vars, tokens[1], SetValue(h, text, vars));
    } else if head == "call" && |tokens| >= 2 {
      var name := tokens[1];
      if name in scripts {
        out := ExpandScriptLines(h, scripts, scripts[name], Overlay(vars, tokens[2..]), depth + 1);
      }
    } else if head == "repeat" && |tokens| >= 2 {
      var count := ParseInt(tokens[1]);
      if count.Some? {
        var block;
        block, next := CollectBlockLoop(lines, idx + 1);
        out := RepeatLoop(h, scripts, block, vars, depth, count.value);
      }
    } else if head == "for" && |tokens| >= 3 {
      var key := tokens[1];
      var block;
      block, next := CollectBlockLoop(lines, idx + 1);
      if ',' in key {
        out := ForMultiLoop(h, scripts, block, NonEmpty(SplitOn(key, ',')), tokens[2..], vars, depth);
      } else {
        out := ForSingleLoop(h, scripts, block, key, tokens[2..], vars, depth);
      }
    } else if head != "end" {
      out := [Subst(rawLine, vars)];
    }
  }

  /** `for _ in range(count)`: the block expanded `count` times, each time in
      a fresh copy of the variables. */
  method RepeatLoop(h: Host, scripts: Scripts, block: seq<string>, vars: Env, depth: nat, count: int)
    returns (out: seq<string>)
    ensures out == Copies(Expand(h, scripts, block, vars, depth), count)
    decreases Budget(depth), |block|, 3, 0
  {
    out := [];
    ghost var once := Expand(h, scripts, block, vars, depth);
    var k := 0;
    while k < count
      invariant k <= count || k == 0
      invariant out + Copies(once, count - k) == Copies(once, count)
      decreases count - k
    {
      var inner := ExpandScriptLines(h, scripts, block, vars, depth);
      out := out + inner;
      k := k + 1;
    }
  }

  /** `for value in values` of the single-variable form. */
  method ForSingleLoop(h: Host, scripts: Scripts, block: seq<string>, key: string, values: seq<string>, vars: Env, depth: nat)
    returns (out: seq<string>)
    ensures out == ForSingle(h, scripts, block, key, values, vars, depth)
    decreases Budget(depth), |block|, 3, 0
  {
    out := [];
    var j := 0;
    while j < |values|
      invariant j <= |values|
      invariant out + ForSingle(h, scripts, block, key, values[j..], vars, depth)
             == ForSingle(h, scripts, block, key, values, vars, depth)
      decreases |values| - j
    {
      var inner := ExpandScriptLines(h, scripts, block, Put(vars, key, Subst(values[j], vars)), depth);
      ForSingleStep(h, scripts, block, key, values, j, vars, depth, out);
      out := out + inner;
      j := j + 1;
    }
  }

  /** `for value in values` of the multi-variable form, with its `break`. */
  method ForMultiLoop(h: Host, scripts: Scripts, block: seq<string>, keys: seq<string>, values: seq<string>, vars: Env, depth: nat)
    returns (out: seq<string>)
    ensures out == ForMulti(h, scripts, block, keys, values, vars, depth)
    decreases Budget(depth), |block|, 3, 0
  {
    out := [];
    var j := 0;
    while j < |values|
      invariant j <= |values|
      invariant out + ForMulti(h, scripts, block, keys, values[j..], vars, depth)
             == ForMulti(h, scripts, block, keys, values, vars, depth)
      decreases |values| - j
    {
      var parts := SplitOn(values[j], ',');
      ForMultiStep(h, scripts, block, keys, values, j, vars, depth, out);
      if |parts| != |keys| {
        break;
      }
      var inner := ExpandScriptLines(h, scripts, block, PutAll(vars, keys, SubstAll(parts, vars)), depth);
      out := out + inner;
      j := j + 1;
    }
  }

  /** One iteration of `ExpandScriptLines`: the directive at `idx` is expanded next. */
  lemma ExpandFromStep(h: Host, scripts: Scripts, lines: seq<string>, idx: nat, vars: Env, depth: nat,
                       expanded: seq<string>)
    requires idx < |lines| && depth <= MaxDepth
    ensures var st := Step(h, scripts, lines, idx, vars, depth);
            expanded + ExpandFrom(h, scripts, lines, idx, vars, depth)
            == (expanded + st.out) + ExpandFrom(h, scripts, lines, st.next, st.env, depth)
  {
  }

  /** One iteration of `ForSingleLoop`: the value at `j` expands next. */
  lemma ForSingleStep(h: Host, scripts: Scripts, block: seq<string>, key: string, values: seq<string>, j: nat,
                      vars: Env, depth: nat, out: seq<string>)
    requires j < |values|
    ensures out + ForSingle(h, scripts, block, key, values[j..], vars, depth)
         == (out + Expand(h, scripts, block, Put(vars, key, Subst(values[j], vars)), depth))
            + ForSingle(h, scripts, block, key, values[j + 1..], vars, depth)
  {
    assert values[j..] == [values[j]] + values[j + 1..];
    ForSingleCons(h, scripts, block, key, values[j..], values[j], values[j + 1..], vars, depth);
  }

  /** `ForSingle` on a list that starts with `v`, one level unfolded. */
  lemma ForSingleCons(h: Host, scripts: Scripts, block: seq<string>, key: string, values: seq<string>,
                      v: string, rest: seq<string>, vars: Env, depth: nat)
    requires values == [v] + rest
    ensures ForSingle(h, scripts, block, key, values, vars, depth)
         == Expand(h, scripts, block, Put(vars, key, Subst(v, vars)), depth)
            + ForSingle(h, scripts, block, key, rest, vars, depth)
  {
    assert values[0] == v && values[1..] == rest;
  }

  /** One iteration of `ForMultiLoop`: the value at `j` is split, then stops the loop or expands next. */
  lemma ForMultiStep(h: Host, scripts: Scripts, block: seq<string>, keys: seq<string>, values: seq<string>, j: nat,
                     vars: Env, depth: nat, out: seq<string>)
    requires j < |values|
    ensures var parts := SplitOn(values[j], ',');
            out + ForMulti(h, scripts, block, keys, values[j..], vars, depth)
            == if |parts| != |keys| then out
               else (out + Expand(h, scripts, block, PutAll(vars, keys, SubstAll(parts, vars)), depth))
                    + ForMulti(h, scripts, block, keys, values[j + 1..], vars, depth)
  {
    assert values[j..] == [values[j]] + values[j + 1..];
    ForMultiCons(h, scripts, block, keys, values[j..], values[j], values[j + 1..], vars, depth);
  }

  /** `ForMulti` on a list that starts with `v`, one level unfolded. */
  lemma ForMultiCons(h: Host, scripts: Scripts, block: seq<string>, keys: seq<string>, values: seq<string>,
                     v: string, rest: seq<string>, vars: Env, depth: nat)
    requires values == [v] + rest
    ensures var parts := SplitOn(v, ',');
            ForMulti(h, scripts, block, keys, values, vars, depth)
            == if |parts| != |keys| then []
               else Expand(h, scripts, block, PutAll(vars, keys, SubstAll(parts, vars)), depth)
                    + ForMulti(h, scripts, block, keys, rest, vars, depth)
  {
    assert values[0] == v && values[1..] == rest;
  }

  /** A skipped or blank line at `idx` is left out of the block. */
  lemma CollectBlockSkip(lines: seq<string>, idx: nat, open: int)
    requires idx < |lines| && (Skipped(Strip(lines[idx])) || Words(Strip(lines[idx])) == [])
    ensures CollectBlock(lines, idx, open) == CollectBlock(lines, idx + 1, open)
  {
  }

  /** A directive line at `idx`: it closes the block, or joins it and moves the nesting depth. */
  lemma CollectBlockKeep(lines: seq<string>, idx: nat, open: int, block: seq<string>)
    requires idx < |lines| && !Skipped(Strip(lines[idx])) && Words(Strip(lines[idx])) != []
    ensures var line := Strip(lines[idx]);
            var head := Head(Words(line));
            var open' := if head == "repeat" || head == "for" then open + 1
                         else if head == "end" then open - 1
                         else open;
            var here := CollectBlock(lines, idx, open);
            var rest := CollectBlock(lines, idx + 1, open');
            if head == "end" && open' == 0 then here == ([], idx + 1)
            else block + here.0 == (block + [line]) + rest.0 && here.1 == rest.1
  {
  }
}
