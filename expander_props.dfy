/** Properties of the current shell's script expander. */
module ExpanderProps {
  import opened Text
  import opened Env
  import opened Expander
  import SafeEval

  predicate IsDirective(head: string) {
    head == "set" || head == "call" || head == "repeat" || head == "for" || head == "end"
  }

  /** A line the expander passes through untouched: blank or a comment, or a
      line whose first word is no directive and which holds no `${`. */
  predicate PlainLine(line: string) {
    var raw := Strip(line);
    Skipped(raw) || (NoPlaceholder(raw) && !IsDirective(Head(Words(raw))))
  }

  /** The stripped lines of `lines` that are neither blank nor comments, in order. */
  function Emitted(lines: seq<string>): (r: seq<string>)
    ensures |r| <= |lines|
  {
    if lines == [] then []
    else (if Skipped(Strip(lines[0])) then [] else [Strip(lines[0])]) + Emitted(lines[1..])
  }

  /** `Emitted` of a suffix, one line unfolded. */
  lemma EmittedFrom(lines: seq<string>, i: nat)
    requires i < |lines|
    ensures Emitted(lines[i..])
         == (if Skipped(Strip(lines[i])) then [] else [Strip(lines[i])]) + Emitted(lines[i + 1..])
  {
    assert lines[i..][0] == lines[i] && lines[i..][1..] == lines[i + 1..];
  }

  lemma {:induction false} PlainScriptFrom(h: Host, scripts: Scripts, lines: seq<string>, i: nat, env: Env, depth: nat)
    requires i <= |lines| && depth <= MaxDepth
    requires forall j :: i <= j < |lines| ==> PlainLine(lines[j])
    ensures ExpandFrom(h, scripts, lines, i, env, depth) == Emitted(lines[i..])
    decreases |lines| - i
  {
    if i < |lines| {
      var raw := Strip(lines[i]);
      assert lines[i..][1..] == lines[i + 1..];
      if !Skipped(raw) {
        SubstNoPlaceholder(raw, env);
      }
      PlainScriptFrom(h, scripts, lines, i + 1, env, depth);
    }
  }

  /** A script with no directives and no placeholders expands to its
      non-blank, non-comment lines, each stripped, in order, whatever the
      variables are; past the depth limit it expands to nothing. */
  lemma PlainScript(h: Host, scripts: Scripts, lines: seq<string>, env: Env, depth: nat)
    requires forall j :: 0 <= j < |lines| ==> PlainLine(lines[j])
    ensures Expand(h, scripts, lines, env, depth) == if depth <= MaxDepth then Emitted(lines) else []
  {
    if depth <= MaxDepth {
      PlainScriptFrom(h, scripts, lines, 0, env, depth);
      assert lines[0..] == lines;
    }
  }

  lemma StripStripped(s: string)
    ensures Strip(Strip(s)) == Strip(s)
  {
  }

  /** The emitted lines are plain again, and emitting them once more changes nothing. */
  lemma {:induction false} EmittedPlain(lines: seq<string>)
    requires forall j :: 0 <= j < |lines| ==> PlainLine(lines[j])
    ensures forall j :: 0 <= j < |Emitted(lines)| ==> PlainLine(Emitted(lines)[j])
    ensures Emitted(Emitted(lines)) == Emitted(lines)
  {
    if lines != [] {
      EmittedPlain(lines[1..]);
      var raw := Strip(lines[0]);
      StripStripped(lines[0]);
      var rest := Emitted(lines[1..]);
      if !Skipped(raw) {
        var r := [raw] + rest;
        assert Emitted(lines) == r;
        assert r[0] == raw && r[1..] == rest;
        assert PlainLine(raw);
        assert Emitted(r) == [raw] + Emitted(rest);
        forall j | 0 <= j < |r| ensures PlainLine(r[j]) {
          if j > 0 { assert r[j] == rest[j - 1]; }
        }
        assert Emitted(r) == r;
      } else {
        assert Emitted(lines) == rest;
      }
    }
  }

  /** A block of plain lines closed by `end` is collected as its emitted
      lines, and scanning resumes after the `end`. */
  lemma {:induction false} CollectPlainBlock(lines: seq<string>, j: nat, k: nat)
    requires j <= k < |lines|
    requires forall m :: j <= m < k ==> PlainLine(lines[m])
    requires !Skipped(Strip(lines[k])) && Head(Words(Strip(lines[k]))) == "end"
    ensures CollectBlock(lines, j, 1) == (Emitted(lines[j..k]), k + 1)
    decreases k - j
  {
    if j < k {
      assert lines[j..k][0] == lines[j];
      assert lines[j..k][1..] == lines[j + 1..k];
      CollectPlainBlock(lines, j + 1, k);
      var line := Strip(lines[j]);
      var rest := CollectBlock(lines, j + 1, 1);
      if !Skipped(line) {
        assert Words(line) != [];
        assert !IsDirective(Head(Words(line)));
        assert CollectBlock(lines, j, 1) == ([line] + rest.0, rest.1);
        assert Emitted(lines[j..k]) == [line] + Emitted(lines[j + 1..k]);
      } else {
        assert CollectBlock(lines, j, 1) == rest;
        assert Emitted(lines[j..k]) == Emitted(lines[j + 1..k]);
      }
    } else {
      assert Words(Strip(lines[k])) != [];
    }
  }

  /** `repeat n` over a plain block closed by `end` yields exactly `n`
      copies of the block's lines, resumes after the `end`, and leaves the
      variables as they were. */
  lemma RepeatPlainBlock(h: Host, scripts: Scripts, lines: seq<string>, i: nat, k: nat, env: Env, depth: nat, n: int)
    requires i < k < |lines| && depth <= MaxDepth
    requires Words(Strip(lines[i])) == ["repeat", IntToString(n)]
    requires forall m :: i < m < k ==> PlainLine(lines[m])
    requires !Skipped(Strip(lines[k])) && Head(Words(Strip(lines[k]))) == "end"
    ensures Step(h, scripts, lines, i, env, depth) == Outcome(Copies(Emitted(lines[i + 1..k]), n), k + 1, env)
  {
    var raw := Strip(lines[i]);
    assert raw != [];
    assert raw[0] != '#' by {
      assert Words(raw)[0] == "repeat";
    }
    LowerNoUpper("repeat");
    IntToStringParses(n);
    StepRepeat(h, scripts, lines, i, env, depth, n);
    CollectPlainBlock(lines, i + 1, k);
    var block := Emitted(lines[i + 1..k]);
    EmittedPlain(lines[i + 1..k]);
    PlainScript(h, scripts, block, env, depth);
  }

  /** A `repeat` line with a count: the collected block, copied `count` times. */
  lemma StepRepeat(h: Host, scripts: Scripts, lines: seq<string>, i: nat, env: Env, depth: nat, count: int)
    requires i < |lines| && depth <= MaxDepth
    requires !Skipped(Strip(lines[i])) && |Words(Strip(lines[i]))| >= 2
    requires Head(Words(Strip(lines[i]))) == "repeat"
    requires ParseInt(Words(Strip(lines[i]))[1]) == Some(count)
    ensures var (block, next) := CollectBlock(lines, i + 1, 1);
            Step(h, scripts, lines, i, env, depth) == Outcome(Copies(Expand(h, scripts, block, env, depth), count), next, env)
  {
  }

  /** A `repeat` whose count is no integer is skipped: nothing is emitted,
      the variables are unchanged and expansion goes on at the next line,
      so the block's lines are then expanded as ordinary lines. */
  lemma StepRepeatSkips(h: Host, scripts: Scripts, lines: seq<string>, i: nat, env: Env, depth: nat)
    requires i < |lines| && depth <= MaxDepth
    requires !Skipped(Strip(lines[i])) && |Words(Strip(lines[i]))| >= 2
    requires Head(Words(Strip(lines[i]))) == "repeat"
    requires ParseInt(Words(Strip(lines[i]))[1]).None?
    ensures Step(h, scripts, lines, i, env, depth) == Outcome([], i + 1, env)
  {
  }

  /** `set name expr...`: nothing is emitted and only `name` changes. It is
      bound to `str()` of the value when the substituted text parses and
      evaluates over the numeric variables, and to the substituted text
      itself otherwise. */
  lemma StepSet(h: Host, scripts: Scripts, lines: seq<string>, i: nat, env: Env, depth: nat)
    requires i < |lines| && depth <= MaxDepth
    requires !Skipped(Strip(lines[i])) && |Words(Strip(lines[i]))| >= 3
    requires Head(Words(Strip(lines[i]))) == "set"
    ensures var toks := Words(Strip(lines[i]));
            var text := Subst(Unwords(toks[2..]), env);
            var r := Step(h, scripts, lines, i, env, depth);
            && r.out == [] && r.next == i + 1
            && (forall k :: k != toks[1] ==> Get(r.env, k) == Get(env, k))
            && (h.parse(text).Some? && SafeEval.Eval(h.parse(text).value, NumericVars(h, env)).Ok?
                ==> Get(r.env, toks[1]) == Some(h.show(SafeEval.Eval(h.parse(text).value, NumericVars(h, env)).value)))
            && (h.parse(text).None? || SafeEval.Eval(h.parse(text).value, NumericVars(h, env)).Err?
                ==> Get(r.env, toks[1]) == Some(text))
  {
  }

  /** `call` of a name that is no stored script emits nothing and leaves the
      variables as they were. */
  lemma StepCallUnknown(h: Host, scripts: Scripts, lines: seq<string>, i: nat, env: Env, depth: nat)
    requires i < |lines| && depth <= MaxDepth
    requires !Skipped(Strip(lines[i])) && |Words(Strip(lines[i]))| >= 2
    requires Head(Words(Strip(lines[i]))) == "call"
    requires Words(Strip(lines[i]))[1] !in scripts
    ensures Step(h, scripts, lines, i, env, depth) == Outcome([], i + 1, env)
  {
  }

  /** `call name k=v...` of a stored script: its expansion one level deeper,
      in the variables overlaid with the `k=v` parameters; the caller's own
      variables are unchanged afterwards. */
  lemma StepCall(h: Host, scripts: Scripts, lines: seq<string>, i: nat, env: Env, depth: nat)
    requires i < |lines| && depth <= MaxDepth
    requires !Skipped(Strip(lines[i])) && |Words(Strip(lines[i]))| >= 2
    requires Head(Words(Strip(lines[i]))) == "call"
    requires Words(Strip(lines[i]))[1] in scripts
    ensures var toks := Words(Strip(lines[i]));
            Step(h, scripts, lines, i, env, depth)
              == Outcome(Expand(h, scripts, scripts[toks[1]], Overlay(env, toks[2..]), depth + 1), i + 1, env)
  {
  }

  /** `int(str(n)) == n`. */
  lemma IntToStringParses(n: int)
    ensures ParseInt(IntToString(n)) == Some(n)
  {
    if n < 0 {
      NatToStringDigits(-n);
      var s := IntToString(n);
      assert s[1..] == NatToString(-n);
      assert !AllDigits(s) by { assert s[0] == '-'; }
    } else {
      NatToStringDigits(n);
    }
  }

  /** The single-variable `for` runs the block for the values strictly in
      order: the values split anywhere give the two halves' outputs one after
      the other. */
  lemma {:induction false} ForSingleAppend(h: Host, scripts: Scripts, block: seq<string>, key: string,
                                           vs1: seq<string>, vs2: seq<string>, env: Env, depth: nat)
    ensures ForSingle(h, scripts, block, key, vs1 + vs2, env, depth)
         == ForSingle(h, scripts, block, key, vs1, env, depth) + ForSingle(h, scripts, block, key, vs2, env, depth)
    decreases |vs1|
  {
    if vs1 != [] {
      ForSingleAppend(h, scripts, block, key, vs1[1..], vs2, env, depth);
      ForSingleHead(h, scripts, block, key, vs1, vs2, env, depth);
    } else {
      assert vs1 + vs2 == vs2;
    }
  }

  /** One step of `ForSingleAppend`: the first value of `vs1` comes first. */
  lemma ForSingleHead(h: Host, scripts: Scripts, block: seq<string>, key: string,
                      vs1: seq<string>, vs2: seq<string>, env: Env, depth: nat)
    requires vs1 != []
    ensures var first := Expand(h, scripts, block, Put(env, key, Subst(vs1[0], env)), depth);
            && ForSingle(h, scripts, block, key, vs1 + vs2, env, depth)
               == first + ForSingle(h, scripts, block, key, vs1[1..] + vs2, env, depth)
            && ForSingle(h, scripts, block, key, vs1, env, depth)
               == first + ForSingle(h, scripts, block, key, vs1[1..], env, depth)
  {
    assert vs1 + vs2 == [vs1[0]] + (vs1[1..] + vs2);
    ForSingleCons(h, scripts, block, key, vs1 + vs2, vs1[0], vs1[1..] + vs2, env, depth);
    assert vs1 == [vs1[0]] + vs1[1..];
    ForSingleCons(h, scripts, block, key, vs1, vs1[0], vs1[1..], env, depth);
  }

  /** In the single-variable `for`, the output for one value is the block
      expanded with the loop variable bound to that value, substituted in the
      variables outside the loop. */
  lemma ForSingleOne(h: Host, scripts: Scripts, block: seq<string>, key: string, v: string, env: Env, depth: nat)
    ensures ForSingle(h, scripts, block, key, [v], env, depth)
         == Expand(h, scripts, block, Put(env, key, Subst(v, env)), depth)
  {
    assert ForSingle(h, scripts, block, key, [v][1..], env, depth) == [];
  }

  /** Every value whose part count matches the names. */
  predicate Matching(keys: seq<string>, values: seq<string>) {
    forall i :: 0 <= i < |values| ==> |SplitOn(values[i], ',')| == |keys|
  }

  /** A multi-variable `for` stops at the first value whose part count does
      not match: the values before it are expanded, that value and all later
      ones produce nothing. */
  lemma {:induction false} ForMultiStops(h: Host, scripts: Scripts, block: seq<string>, keys: seq<string>,
                                         good: seq<string>, bad: string, rest: seq<string>, env: Env, depth: nat)
    requires Matching(keys, good)
    requires |SplitOn(bad, ',')| != |keys|
    ensures ForMulti(h, scripts, block, keys, good + [bad] + rest, env, depth)
         == ForMulti(h, scripts, block, keys, good, env, depth)
    decreases |good|
  {
    if good == [] {
      assert ([] + [bad] + rest)[0] == bad;
    } else {
      assert (good + [bad] + rest)[0] == good[0];
      assert (good + [bad] + rest)[1..] == good[1..] + [bad] + rest;
      ForMultiStops(h, scripts, block, keys, good[1..], bad, rest, env, depth);
    }
  }

  /** One pass of a multi-variable `for` over `value`: the block with each
      name bound to its part of the comma-split value, substituted in `env`
      (nothing when the part count differs). */
  function MultiPass(h: Host, scripts: Scripts, block: seq<string>, keys: seq<string>, value: string, env: Env, depth: nat): seq<string> {
    var parts := SplitOn(value, ',');
    if |parts| != |keys| then [] else Expand(h, scripts, block, PutAll(env, keys, SubstAll(parts, env)), depth)
  }

  /** With every value matching, the multi-variable `for` yields exactly the
      per-value passes, concatenated in the order of the values. */
  lemma {:induction false} ForMultiAllMatch(h: Host, scripts: Scripts, block: seq<string>, keys: seq<string>,
                                            values: seq<string>, env: Env, depth: nat)
    requires Matching(keys, values)
    ensures ForMulti(h, scripts, block, keys, values, env, depth)
         == Concat(seq(|values|, j requires 0 <= j < |values| => MultiPass(h, scripts, block, keys, values[j], env, depth)))
    decreases |values|
  {
    var passes := seq(|values|, j requires 0 <= j < |values| => MultiPass(h, scripts, block, keys, values[j], env, depth));
    if values != [] {
      var rest := values[1..];
      ForMultiAllMatch(h, scripts, block, keys, rest, env, depth);
      assert passes[1..] == seq(|rest|, j requires 0 <= j < |rest| => MultiPass(h, scripts, block, keys, rest[j], env, depth));
    }
  }

  /** A script whose first line calls the script itself and whose second
      line is plain: the depth limit cuts the recursion, so at depth `d` the
      plain line comes out `11 - d` times. */
  lemma {:induction false} SelfCallBounded(h: Host, scripts: Scripts, name: string, env: Env, depth: nat)
    requires name in scripts && |scripts[name]| == 2
    requires Words(Strip(scripts[name][0])) == ["call", name]
    requires PlainLine(scripts[name][1]) && !Skipped(Strip(scripts[name][1]))
    requires depth <= MaxDepth + 1
    ensures Expand(h, scripts, scripts[name], env, depth) == Copies([Strip(scripts[name][1])], MaxDepth + 1 - depth)
    decreases MaxDepth + 1 - depth
  {
    var lines := scripts[name];
    var out := Strip(lines[1]);
    if depth <= MaxDepth {
      var raw := Strip(lines[0]);
      assert raw != [];
      assert raw[0] != '#' by {
        assert Words(raw)[0] == "call";
      }
      LowerNoUpper("call");
      SelfCallBounded(h, scripts, name, env, depth + 1);
      var inner := Copies([out], MaxDepth - depth);
      assert Step(h, scripts, lines, 0, env, depth) == Outcome(inner, 1, env);
      PlainScriptFrom(h, scripts, lines, 1, env, depth);
      assert lines[1..] == [lines[1]];
      assert ExpandFrom(h, scripts, lines, 1, env, depth) == [out];
      CopiesSnoc([out], MaxDepth - depth);
    }
  }
}
