/** Properties of the older shell's script expander, and where it parts
    ways with the current one. */
module LegacyProps {
  import opened Text
  import opened Env
  import opened LegacyExpander
  import Expander
  import ExpanderProps

  /** A line the older expander passes through: blank or a comment, or a
      line with no `${` whose first word is none of its four directives. */
  predicate LegacyPlain(line: string) {
    var raw := Strip(line);
    Expander.Skipped(raw)
    || (NoPlaceholder(raw) && Expander.Head(Words(raw)) !in {"set", "repeat", "for", "end"})
  }

  lemma {:induction false} PlainFrom(lines: seq<string>, i: nat, env: Env)
    requires i <= |lines|
    requires forall j :: i <= j < |lines| ==> LegacyPlain(lines[j])
    ensures ExpandFrom(lines, i, env) == Expanded(ExpanderProps.Emitted(lines[i..]))
    decreases |lines| - i
  {
    if i < |lines| {
      PlainStep(lines, i, env);
      PlainFrom(lines, i + 1, env);
      ExpanderProps.EmittedFrom(lines, i);
    }
  }

  /** A plain line emits itself, stripped, unless it is blank or a comment. */
  lemma PlainStep(lines: seq<string>, i: nat, env: Env)
    requires i < |lines| && LegacyPlain(lines[i])
    ensures var raw := Strip(lines[i]);
            Step(lines, i, env) == Continue(Outcome(if Expander.Skipped(raw) then [] else [raw], i + 1, env))
  {
    var raw := Strip(lines[i]);
    if !Expander.Skipped(raw) {
      SubstNoPlaceholder(raw, env);
    }
  }

  /** A script of plain lines expands, without error, to its non-blank,
      non-comment lines, stripped, in order. */
  lemma PlainScript(lines: seq<string>, env: Env)
    requires forall j :: 0 <= j < |lines| ==> LegacyPlain(lines[j])
    ensures Expand(lines, env) == Expanded(ExpanderProps.Emitted(lines))
  {
    PlainFrom(lines, 0, env);
    assert lines[0..] == lines;
  }

  /** `set k text...` binds `k` to the substituted text itself, with no
      evaluation, and emits nothing. */
  lemma SetBindsText(lines: seq<string>, i: nat, env: Env, k: string, rest: seq<string>)
    requires i < |lines|
    requires Words(Strip(lines[i])) == ["set", k] + rest && rest != []
    ensures Step(lines, i, env) == Continue(Outcome([], i + 1, Put(env, k, Subst(Unwords(rest), env))))
  {
    var raw := Strip(lines[i]);
    var toks := Words(raw);
    assert raw != [];
    assert raw[0] != '#' by {
      assert toks[0] == "set";
    }
    LowerNoUpper("set");
    assert toks[2..] == rest;
  }

  /** `call` is no directive here: a `call` line without placeholders is
      emitted as a command line of its own. */
  lemma CallIsCommand(lines: seq<string>, i: nat, env: Env, name: string)
    requires i < |lines|
    requires Words(Strip(lines[i])) == ["call", name]
    requires NoPlaceholder(Strip(lines[i]))
    ensures Step(lines, i, env) == Continue(Outcome([Strip(lines[i])], i + 1, env))
  {
    var raw := Strip(lines[i]);
    assert raw != [];
    assert raw[0] != '#' by {
      assert Words(raw)[0] == "call";
    }
    LowerNoUpper("call");
    SubstNoPlaceholder(raw, env);
  }

  /** A `repeat` whose count is not an integer raises. */
  lemma RepeatBadCountRaises(lines: seq<string>, i: nat, env: Env, count: string, rest: seq<string>)
    requires i < |lines|
    requires Words(Strip(lines[i])) == ["repeat", count] + rest
    requires ParseInt(count).None?
    ensures Step(lines, i, env) == StepRaised
  {
    var raw := Strip(lines[i]);
    var toks := Words(raw);
    assert raw != [];
    assert raw[0] != '#' by {
      assert toks[0] == "repeat";
    }
    LowerNoUpper("repeat");
    assert toks[1] == count;
  }

  /** A line that raises aborts the whole script, whatever plain lines come
      before it: no partial output survives. */
  lemma {:induction false} RaiseAborts(lines: seq<string>, j: nat, i: nat, env: Env)
    requires j <= i < |lines|
    requires forall m :: j <= m < i ==> LegacyPlain(lines[m])
    requires Step(lines, i, env) == StepRaised
    ensures ExpandFrom(lines, j, env) == Raised
    decreases i - j
  {
    if j < i {
      var raw := Strip(lines[j]);
      if !Expander.Skipped(raw) {
        SubstNoPlaceholder(raw, env);
      }
      RaiseAborts(lines, j + 1, i, env);
    }
  }

  /** A multi-variable `for` with one value of the wrong part count raises,
      wherever that value stands and whatever the values before it produce;
      the current shell instead keeps the output of the values before it. */
  lemma {:induction false} ForMultiMismatchRaises(block: seq<string>, keys: seq<string>, values: seq<string>, m: nat, env: Env)
    requires m < |values|
    requires |SplitOn(values[m], ',')| != |keys|
    ensures ForMulti(block, keys, values, env) == Raised
    decreases m
  {
    if m > 0 {
      assert values[1..][m - 1] == values[m];
      ForMultiMismatchRaises(block, keys, values[1..], m - 1, env);
    }
  }

  /** Repeating a plain block `n` times, for a positive `n`, is `n` copies
      of its emitted lines. */
  lemma RepeatPlain(block: seq<string>, env: Env, n: int)
    requires forall j :: 0 <= j < |block| ==> LegacyPlain(block[j])
    requires n > 0
    ensures Repeated(Expand(block, env), n) == Expanded(Copies(ExpanderProps.Emitted(block), n))
  {
    PlainScript(block, env);
  }
}
