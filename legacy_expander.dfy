/** The script expander of the older shell (`_expand_script_lines` in the
    top-level repl.py). It shares the block collection and substitution of
    the current one but differs in three ways: `set` binds the substituted
    text without evaluating it, there is no `call` directive and so no depth
    limit, and a bad `repeat` count or a multi-variable `for` value with the
    wrong number of parts raises `ValueError`, which aborts the whole
    expansion (`Raised`). */
module LegacyExpander {
  import opened Text
  import opened Env
  import Expander

  datatype Expansion = Expanded(lines: seq<string>) | Raised

  datatype Outcome = Outcome(out: seq<string>, next: nat, env: Env)

  datatype Stepped = Continue(o: Outcome) | StepRaised

  /** Output `a` followed by output `b`, or the first error. */
  function Then(a: Expansion, b: Expansion): (r: Expansion)
    ensures r.Expanded? <==> a.Expanded? && b.Expanded?
  {
    if a.Raised? || b.Raised? then Raised else Expanded(a.lines + b.lines)
  }

  function Expand(lines: seq<string>, env: Env): Expansion
    decreases |lines|, 2, 0
  {
    ExpandFrom(lines, 0, env)
  }

  function ExpandFrom(lines: seq<string>, i: nat, env: Env): Expansion
    requires i <= |lines|
    decreases |lines|, 1, |lines| - i
  {
    if i == |lines| then Expanded([])
    else
      match Step(lines, i, env)
      case StepRaised => Raised
      case Continue(st) => Then(Expanded(st.out), ExpandFrom(lines, st.next, st.env))
  }

  /** One pass of the loop body at line `i`. */
  function Step(lines: seq<string>, i: nat, env: Env): (r: Stepped)
    requires i < |lines|
    ensures r.Continue? ==> i < r.o.next <= |lines|
    decreases |lines|, 0, 0
  {
    var raw := Strip(lines[i]);
    var toks := Words(raw);
    if Expander.Skipped(raw) || toks == [] then Continue(Outcome([], i + 1, env))
    else
      var head := Expander.Head(toks);
      if head == "set" && |toks| >= 3 then
        Continue(Outcome([], i + 1, Put(env, toks[1], Subst(Unwords(toks[2..]), env))))
      else if head == "repeat" && |toks| >= 2 then
        match ParseInt(toks[1])
        case None => StepRaised
        case Some(count) =>
          var (block, next) := Expander.CollectBlock(lines, i + 1, 1);
          match Repeated(Expand(block, env), count)
          case Raised => StepRaised
          case Expanded(out) => Continue(Outcome(out, next, env))
      else if head == "for" && |toks| >= 3 then
        var (block, next) := Expander.CollectBlock(lines, i + 1, 1);
        var key := toks[1];
        var body :=
          if ',' in key then ForMulti(block, Expander.NonEmpty(SplitOn(key, ',')), toks[2..], env)
          else ForSingle(block, key, toks[2..], env);
        match body
        case Raised => StepRaised
        case Expanded(out) => Continue(Outcome(out, next, env))
      else if head == "end" then Continue(Outcome([], i + 1, env))
      else Continue(Outcome([Subst(raw, env)], i + 1, env))
  }

  /** `count` copies of one expansion of the block; the block is not
      expanded at all when `count` is not positive. */
  function Repeated(once: Expansion, count: int): (r: Expansion)
    ensures count <= 0 ==> r == Expanded([])
    ensures count > 0 ==> (r.Raised? <==> once.Raised?)
    ensures r.Expanded? ==> |r.lines| == (if count <= 0 then 0 else count * |once.lines|)
  {
    if count <= 0 then Expanded([])
    else match once
      case Raised => Raised
      case Expanded(x) => Expanded(Copies(x, count))
  }

  function ForSingle(block: seq<string>, key: string, values: seq<string>, env: Env): Expansion
    decreases |block|, 3, |values|
  {
    if values == [] then Expanded([])
    else Then(Expand(block, Put(env, key, Subst(values[0], env))), ForSingle(block, key, values[1..], env))
  }

  /** The multi-variable `for`: a value with the wrong number of parts raises. */
  function ForMulti(block: seq<string>, keys: seq<string>, values: seq<string>, env: Env): Expansion
    decreases |block|, 3, |values|
  {
    if values == [] then Expanded([])
    else
      var parts := SplitOn(values[0], ',');
      if |parts| != |keys| then Raised
      else Then(Expand(block, PutAll(env, keys, Expander.SubstAll(parts, env))), ForMulti(block, keys, values[1..], env))
  }

  // ---------------------------------------------------------------------
  // The loops the older shell runs.

  method ExpandScriptLines(lines: seq<string>, variables: Env) returns (r: Expansion)
    ensures r == Expand(lines, variables)
    decreases |lines|, 2, 0
  {
    var expanded := [];
    var vars := variables;
    var idx := 0;
    while idx < |lines|
      invariant idx <= |lines|
      invariant Then(Expanded(expanded), ExpandFrom(lines, idx, vars)) == Expand(lines, variables)
      decreases |lines| - idx
    {
      var st := ExpandLine(lines, idx, vars);
      ExpandFromStep(lines, idx, vars, expanded);
      if st.StepRaised? {
        return Raised;
      }
      expanded, idx, vars := expanded + st.o.out, st.o.next, st.o.env;
    }
    return Expanded(expanded);
  }

  method ExpandLine(lines: seq<string>, idx: nat, vars: Env) returns (r: Stepped)
    requires idx < |lines|
    ensures r == Step(lines, idx, vars)
    decreases |lines|, 1, 0
  {
    r := Continue(Outcome([], idx + 1, vars));
    var rawLine := Strip(lines[idx]);
    var tokens := Words(rawLine);
    if Expander.Skipped(rawLine) || tokens == [] {
      return;
    }
    var head := Expander.Head(tokens);
    if head == "set" && |tokens| >= 3 {
      r := Continue(Outcome([], idx + 1, Put(vars, tokens[1], Subst(Unwords(tokens[2..]), vars))));
    } else if head == "repeat" && |tokens| >= 2 {
      var count := ParseInt(tokens[1]);
      if count.None? {
        return StepRaised;
      }
      var block, next := Expander.CollectBlockLoop(lines, idx + 1);
      var out := RepeatLoop(block, vars, count.value);
      r := if out.Raised? then StepRaised else Continue(Outcome(out.lines, next, vars));
    } else if head == "for" && |tokens| >= 3 {
      var key := tokens[1];
      var block, next := Expander.CollectBlockLoop(lines, idx + 1);
      var out;
      if ',' in key {
        out := ForMultiLoop(block, Expander.NonEmpty(SplitOn(key, ',')), tokens[2..], vars);
      } else {
        out := ForSingleLoop(block, key, tokens[2..], vars);
      }
      r := if out.Raised? then StepRaised else Continue(Outcome(out.lines, next, vars));
    } else if head != "end" {
      r := Continue(Outcome([Subst(rawLine, vars)], idx + 1, vars));
    }
  }

  method RepeatLoop(block: seq<string>, vars: Env, count: int) returns (r: Expansion)
    ensures r == Repeated(Expand(block, vars), count)
    decreases |block|, 3, 0
  {
    var out := [];
    var k := 0;
    while k < count
      invariant k <= count || k == 0
      invariant k == 0 ==> out == []
      invariant k > 0 ==> Expand(block, vars).Expanded? && out == Copies(Expand(block, vars).lines, k)
      decreases count - k
    {
      var inner := ExpandScriptLines(block, vars);
      if inner.Raised? {
        return Raised;
      }
      CopiesSnoc(inner.lines, k);
      out := out + inner.lines;
      k := k + 1;
    }
    return Expanded(out);
  }

  method ForSingleLoop(block: seq<string>, key: string, values: seq<string>, vars: Env) returns (r: Expansion)
    ensures r == ForSingle(block, key, values, vars)
    decreases |block|, 3, 0
  {
    var out := [];
    var j := 0;
    while j < |values|
      invariant j <= |values|
      invariant Then(Expanded(out), ForSingle(block, key, values[j..], vars)) == ForSingle(block, key, values, vars)
      decreases |values| - j
    {
      var inner := ExpandScriptLines(block, Put(vars, key, Subst(values[j], vars)));
      ForSingleStep(block, key, values, j, vars, out);
      if inner.Raised? {
        return Raised;
      }
      out := out + inner.lines;
      j := j + 1;
    }
    return Expanded(out);
  }

  method ForMultiLoop(block: seq<string>, keys: seq<string>, values: seq<string>, vars: Env) returns (r: Expansion)
    ensures r == ForMulti(block, keys, values, vars)
    decreases |block|, 3, 0
  {
    var out := [];
    var j := 0;
    while j < |values|
      invariant j <= |values|
      invariant Then(Expanded(out), ForMulti(block, keys, values[j..], vars)) == ForMulti(block, keys, values, vars)
      decreases |values| - j
    {
      var parts := SplitOn(values[j], ',');
      ForMultiStep(block, keys, values, j, vars, out);
      if |parts| != |keys| {
        return Raised;
      }
      var inner := ExpandScriptLines(block, PutAll(vars, keys, Expander.SubstAll(parts, vars)));
      if inner.Raised? {
        return Raised;
      }
      out := out + inner.lines;
      j := j + 1;
    }
    return Expanded(out);
  }

  /** One iteration of `ForSingleLoop`: the value at `j` expands next. */
  lemma ForSingleStep(block: seq<string>, key: string, values: seq<string>, j: nat, vars: Env, out: seq<string>)
    requires j < |values|
    ensures var inner := Expand(block, Put(vars, key, Subst(values[j], vars)));
            Then(Expanded(out), ForSingle(block, key, values[j..], vars))
            == if inner.Raised? then Raised
               else Then(Expanded(out + inner.lines), ForSingle(block, key, values[j + 1..], vars))
  {
    assert values[j..][0] == values[j];
    assert values[j..][1..] == values[j + 1..];
  }

  /** One iteration of `ForMultiLoop`: the value at `j` is split and expands next. */
  lemma ForMultiStep(block: seq<string>, keys: seq<string>, values: seq<string>, j: nat, vars: Env, out: seq<string>)
    requires j < |values|
    ensures var parts := SplitOn(values[j], ',');
            Then(Expanded(out), ForMulti(block, keys, values[j..], vars))
            == if |parts| != |keys| then Raised
               else
                 var inner := Expand(block, PutAll(vars, keys, Expander.SubstAll(parts, vars)));
                 if inner.Raised? then Raised
                 else Then(Expanded(out + inner.lines), ForMulti(block, keys, values[j + 1..], vars))
  {
    assert values[j..][0] == values[j];
    assert values[j..][1..] == values[j + 1..];
  }

  /** One iteration of `ExpandScriptLines`: the directive at `idx` raises or is expanded next. */
  lemma ExpandFromStep(lines: seq<string>, idx: nat, vars: Env, expanded: seq<string>)
    requires idx < |lines|
    ensures Then(Expanded(expanded), ExpandFrom(lines, idx, vars))
            == match Step(lines, idx, vars)
               case StepRaised => Raised
               case Continue(st) => Then(Expanded(expanded + st.out), ExpandFrom(lines, st.next, st.env))
  {
  }
}
