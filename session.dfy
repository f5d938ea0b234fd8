/** The pure parts of the shell's own bookkeeping: the measurement log and
    `calc`, the scrolling frames of the DMM text loop, and the older
    shell's resolution of a generic device type through a fixed type map,
    remembered preferences and an interactive choice. */
module Session {
  import opened Text
  import opened Registry
  import opened Router
  import SafeEval

  // ---------------------------------------------------------------------
  // Measurement log.

  /** One entry of `measurements`. */
  datatype Measurement = Measurement(name: string, value: SafeEval.Value, unit: string, source: string)

  /** The labels (`name`) in the log, as a set. */
  function Labels(ms: seq<Measurement>): (r: set<string>)
    ensures forall i :: 0 <= i < |ms| ==> ms[i].name in r
    ensures forall l :: l in r ==> exists i :: 0 <= i < |ms| && ms[i].name == l
  {
    if ms == [] then {}
    else
      var init := ms[..|ms| - 1];
      assert forall i :: 0 <= i < |init| ==> init[i] == ms[i];
      Labels(init) + {ms[|ms| - 1].name}
  }

  /** `{entry["label"]: entry["value"] for entry in measurements}`: later
      entries overwrite earlier ones with the same label. */
  function Table(ms: seq<Measurement>): (r: map<string, SafeEval.Value>)
    ensures r.Keys == Labels(ms)
  {
    if ms == [] then map[]
    else Table(ms[..|ms| - 1])[ms[|ms| - 1].name := ms[|ms| - 1].value]
  }

  /** The table holds, for each label, the value of its latest entry. */
  lemma {:induction false} TableLatest(ms: seq<Measurement>, i: nat)
    requires i < |ms|
    requires forall j :: i < j < |ms| ==> ms[j].name != ms[i].name
    ensures ms[i].name in Table(ms) && Table(ms)[ms[i].name] == ms[i].value
  {
    if i < |ms| - 1 {
      var init := ms[..|ms| - 1];
      assert forall j :: i < j < |init| ==> init[j] == ms[j];
      TableLatest(init, i);
    }
  }

  // ---------------------------------------------------------------------
  // `calc <label> <expr> [unit=]`.

  /** `_is_help`: the last argument asks for help. */
  predicate IsHelp(args: seq<string>) {
    args != [] && Lower(args[|args| - 1]) in {"help", "-h", "--help"}
  }

  /** `_strip_help`: the arguments without a trailing help word, and
      whether there was one. */
  function StripHelp(args: seq<string>): (r: (seq<string>, bool))
    ensures r.1 <==> IsHelp(args)
    ensures r.1 ==> r.0 + [args[|args| - 1]] == args
    ensures !r.1 ==> r.0 == args
  {
    if IsHelp(args) then (args[..|args| - 1], true) else (args, false)
  }

  /** A token whose lower-case form starts with `unit=`. */
  predicate IsUnitToken(t: string) {
    StartsWith(Lower(t), "unit=")
  }

  lemma LowerLength(s: string)
    ensures |Lower(s)| == |s|
    ensures forall i :: 0 <= i < |s| ==> Lower(s)[i] == LowerChar(s[i])
  {
    if s != [] {
      LowerLength(s[1..]);
    }
  }

  /** `token.split("=", 1)[1]` for a unit token: the first four characters
      lower-case to `unit`, so the first `=` is the fifth character. */
  function UnitValue(t: string): (r: string)
    requires IsUnitToken(t)
    ensures |r| == |t| - 5 && r == t[5..]
  {
    LowerLength(t);
    t[5..]
  }

  /** The unit the tokens after the label set: the last `unit=` wins, and
      there is none (empty) without one. */
  function UnitOf(toks: seq<string>): string {
    if toks == [] then ""
    else if IsUnitToken(toks[|toks| - 1]) then UnitValue(toks[|toks| - 1])
    else UnitOf(toks[..|toks| - 1])
  }

  /** The tokens after the label that are not unit tokens, in order. */
  function ExprWords(toks: seq<string>): (r: seq<string>)
    ensures |r| <= |toks|
    ensures forall w :: w in r ==> w in toks && !IsUnitToken(w)
    ensures forall w :: w in toks && !IsUnitToken(w) ==> w in r
  {
    if toks == [] then []
    else
      var init := toks[..|toks| - 1];
      var last := toks[|toks| - 1];
      assert toks == init + [last];
      ExprWords(init) + (if IsUnitToken(last) then [] else [last])
  }

  /** Dropping unit tokens distributes over concatenation, so the expression
      keeps the order of the tokens it came from. */
  lemma {:induction false} ExprWordsAppend(a: seq<string>, b: seq<string>)
    ensures ExprWords(a + b) == ExprWords(a) + ExprWords(b)
    decreases |b|
  {
    if b == [] {
      assert a + b == a;
    } else {
      var init := b[..|b| - 1];
      var last := b[|b| - 1];
      var ab := a + b;
      var tail := if IsUnitToken(last) then [] else [last];
      assert ab[..|ab| - 1] == a + init;
      assert ab[|ab| - 1] == last;
      assert ExprWords(ab) == ExprWords(a + init) + tail;
      assert ExprWords(b) == ExprWords(init) + tail;
      ExprWordsAppend(a, init);
      AppendAssoc(ExprWords(a), ExprWords(init), tail);
    }
  }

  /** Tokens without a `unit=` token form the expression unchanged. */
  lemma {:induction false} ExprWordsNoUnit(toks: seq<string>)
    requires forall i :: 0 <= i < |toks| ==> !IsUnitToken(toks[i])
    ensures ExprWords(toks) == toks
  {
    if toks != [] {
      ExprWordsNoUnit(toks[..|toks| - 1]);
    }
  }

  /** A `unit=` token contributes nothing; any other token is kept as it is. */
  lemma ExprWordsOne(t: string)
    ensures ExprWords([t]) == if IsUnitToken(t) then [] else [t]
  {
    assert [t][..0] == [];
  }

  /** The names `calc` evaluates with: `m`, the table, and `last`, the
      latest value (`None` on an empty log, reachable only in the older
      shell). */
  function CalcNames(ms: seq<Measurement>): (r: map<string, SafeEval.Value>)
    ensures r.Keys == {"m", "last"}
    ensures r["m"] == SafeEval.Dict(Table(ms))
  {
    map["m" := SafeEval.Dict(Table(ms)), "last" := if ms == [] then SafeEval.NoneV else ms[|ms| - 1].value]
  }

  /** How `calc` ends. */
  datatype CalcOutcome =
    | CalcUsage                         // help asked, or fewer than two arguments
    | CalcNoExpr                        // only unit tokens after the label
    | CalcNoLog                         // the current shell refuses an empty log
    | CalcFailed                        // the expression did not parse or evaluate
    | CalcDone(name: string, value: SafeEval.Value, unit: string)

  /** `do_calc(arg)` given the log: the outcome, and whether a record is
      appended is decided by it alone (see `CalcRecord`). */
  function Calc(d: Dialect, parse: string -> Option<SafeEval.Expr>, arg: string, ms: seq<Measurement>): (r: CalcOutcome)
  {
    var (args, help) := StripHelp(Words(arg));
    if help || |args| < 2 then CalcUsage
    else
      var expr := Unwords(ExprWords(args[1..]));
      if expr == [] then CalcNoExpr
      else if d == Current && ms == [] then CalcNoLog
      else
        match parse(expr)
        case None => CalcFailed
        case Some(e) =>
          match SafeEval.Eval(e, CalcNames(ms))
          case Err(_) => CalcFailed
          case Ok(v) => CalcDone(args[0], v, UnitOf(args[1..]))
  }

  /** The records a `calc` outcome appends to the log. */
  function CalcRecord(o: CalcOutcome): (r: seq<Measurement>)
    ensures |r| <= 1
    ensures o.CalcDone? <==> |r| == 1
  {
    if o.CalcDone? then [Measurement(o.name, o.value, o.unit, "calc")] else []
  }

  /** The last `unit=` token gives the unit; with none the unit is empty. */
  lemma {:induction false} UnitOfLatest(toks: seq<string>, i: nat)
    requires i < |toks| && IsUnitToken(toks[i])
    requires forall j :: i < j < |toks| ==> !IsUnitToken(toks[j])
    ensures UnitOf(toks) == UnitValue(toks[i]) && |UnitOf(toks)| == |toks[i]| - 5
  {
    if i < |toks| - 1 {
      var init := toks[..|toks| - 1];
      assert forall j :: i < j < |init| ==> init[j] == toks[j];
      UnitOfLatest(init, i);
    }
  }

  lemma {:induction false} UnitOfNone(toks: seq<string>)
    requires forall j :: 0 <= j < |toks| ==> !IsUnitToken(toks[j])
    ensures UnitOf(toks) == ""
  {
    if toks != [] {
      var init := toks[..|toks| - 1];
      assert forall j :: 0 <= j < |init| ==> init[j] == toks[j];
      UnitOfNone(init);
    }
  }

  /** In `calc`, `last` is the latest logged value, and `m["label"]` the
      latest value logged under that label. */
  lemma CalcSees(ms: seq<Measurement>, i: nat)
    requires i < |ms|
    requires forall j :: i < j < |ms| ==> ms[j].name != ms[i].name
    ensures SafeEval.Eval(SafeEval.Name("last"), CalcNames(ms)) == SafeEval.Ok(ms[|ms| - 1].value)
    ensures SafeEval.Eval(SafeEval.Subscript(SafeEval.Name("m"), SafeEval.Constant(SafeEval.StrC(ms[i].name))), CalcNames(ms))
         == SafeEval.Ok(ms[i].value)
  {
    TableLatest(ms, i);
  }

  /** The current shell never evaluates over an empty log; the older one
      does, with `last` bound to `None`. */
  lemma CalcEmptyLog(parse: string -> Option<SafeEval.Expr>, arg: string)
    ensures !Calc(Current, parse, arg, []).CalcDone?
    ensures SafeEval.Eval(SafeEval.Name("last"), CalcNames([])) == SafeEval.Ok(SafeEval.NoneV)
  {
  }

  /** A successful `calc` is named by its first argument and carries the
      value of the expression over the log; it needs a label and some
      expression word. */
  lemma CalcDoneMeans(d: Dialect, parse: string -> Option<SafeEval.Expr>, arg: string, ms: seq<Measurement>)
    requires Calc(d, parse, arg, ms).CalcDone?
    ensures var args := StripHelp(Words(arg)).0;
            var o := Calc(d, parse, arg, ms);
            && !IsHelp(Words(arg)) && |args| >= 2 && o.name == args[0]
            && ExprWords(args[1..]) != []
            && parse(Unwords(ExprWords(args[1..]))).Some?
            && SafeEval.Eval(parse(Unwords(ExprWords(args[1..]))).value, CalcNames(ms)) == SafeEval.Ok(o.value)
            && (d == Current ==> ms != [])
  {
  }

  // ---------------------------------------------------------------------
  // Scrolling text on the DMM display.

  /** `max(1, int(x))`. */
  function AtLeastOne(x: int): (r: int)
    ensures r >= 1 && (x >= 1 ==> r == x)
  {
    if x < 1 then 1 else x
  }

  /** The text followed by `pad` spaces: one period of the scroll. */
  function Window(text: string, pad: int): (r: string)
    ensures |r| == |text| + AtLeastOne(pad) && |r| >= 1
  {
    text + Repeat(' ', AtLeastOne(pad))
  }

  /** `cycle_text[start : start + width]` with `cycle_text` two periods. */
  function Frame(text: string, width: int, pad: int, start: nat): (r: string)
    requires start < |Window(text, pad)|
  {
    var window := Window(text, pad);
    var cycle := window + window;
    var stop := if start + AtLeastOne(width) < |cycle| then start + AtLeastOne(width) else |cycle|;
    cycle[start..stop]
  }

  /** The frames `_start_dmm_text_loop` builds: one per start position of
      the window. */
  function Frames(text: string, width: int, pad: int): (r: seq<string>)
    ensures |r| == |Window(text, pad)| && r != []
  {
    seq(|Window(text, pad)|, start requires 0 <= start < |Window(text, pad)| => Frame(text, width, pad, start))
  }

  /** Frame `k` shows the window rotated left by `k`, clipped to the width;
      when the width is at most one period, every frame is exactly that
      wide. */
  lemma FrameRotates(text: string, width: int, pad: int, k: nat)
    requires k < |Window(text, pad)|
    ensures var f := Frame(text, width, pad, k);
            var w := Window(text, pad);
            && |f| <= AtLeastOne(width)
            && (AtLeastOne(width) <= |w| ==> |f| == AtLeastOne(width))
            && forall j :: 0 <= j < |f| ==> f[j] == w[(k + j) % |w|]
  {
    var w := Window(text, pad);
    var stop := if k + AtLeastOne(width) < |w + w| then k + AtLeastOne(width) else |w + w|;
    Rotation(w, k, stop);
  }

  /** A slice of two periods read as a rotation of one. */
  lemma Rotation(w: string, k: nat, stop: nat)
    requires k < |w| && k <= stop <= 2 * |w|
    ensures forall j :: 0 <= j < stop - k ==> (w + w)[k..stop][j] == w[(k + j) % |w|]
  {
    forall j | 0 <= j < stop - k ensures (w + w)[k..stop][j] == w[(k + j) % |w|] {
      assert (w + w)[k..stop][j] == (w + w)[k + j];
      ModTwoPeriods(k + j, |w|);
    }
  }

  lemma ModTwoPeriods(m: nat, n: nat)
    requires 0 < n && m < 2 * n
    ensures m % n == if m < n then m else m - n
  {
    if m >= n {
      assert m == n + (m - n);
    }
  }

  // ---------------------------------------------------------------------
  // The older shell's `_resolve_device_type`.

  /** The fixed map from a generic type to the names that may stand for
      it, in order of preference. */
  function TypeMap(t: string): Option<seq<string>> {
    if t == "psu" then Some(["psu", "psu_matrix"])
    else if t == "dmm" then Some(["dmm", "dmm_owon"])
    else if t == "scope" then Some(["scope"])
    else if t == "awg" then Some(["awg", "dds"])
    else if t == "dds" then Some(["dds", "awg"])
    else None
  }

  /** The names of the type map that are registered, in type-map order. */
  function Present(names: seq<string>, reg: Registry): (r: seq<string>)
    ensures forall n :: n in r <==> n in names && n in Names(reg)
    ensures |r| <= |names|
  {
    if names == [] then []
    else (if names[0] in Names(reg) then [names[0]] else []) + Present(names[1..], reg)
  }

  /** The answer to the prompt: a 1-based number or one of the names;
      anything else is refused and asked again. */
  function Choice(cands: seq<string>, answer: string): (r: Option<string>)
    ensures r.Some? ==> r.value in cands
  {
    var choice := Strip(answer);
    match ParseInt(choice)
    case Some(n) =>
      if 1 <= n <= |cands| then Some(cands[n - 1])
      else if choice in cands then Some(choice) else None
    case None => if choice in cands then Some(choice) else None
  }

  /** The first accepted answer of those typed. */
  function FirstChoice(cands: seq<string>, answers: seq<string>): (r: Option<string>)
    ensures r.Some? ==> r.value in cands
  {
    if answers == [] then None
    else match Choice(cands, answers[0])
      case Some(n) => Some(n)
      case None => FirstChoice(cands, answers[1..])
  }

  /** The older shell's resolution and the preferences after it: a type
      outside the map is returned as it is; none or one registered name
      decides without asking; with several, a remembered preference among
      them wins; otherwise the first accepted answer is taken and
      remembered (no accepted answer among those typed gives nothing). */
  function ResolveLegacy(reg: Registry, prefs: map<string, string>, t: string, answers: seq<string>): (r: (Option<string>, map<string, string>))
  {
    match TypeMap(t)
    case None => (Some(t), prefs)
    case Some(names) =>
      var cands := Present(names, reg);
      if cands == [] then (None, prefs)
      else if |cands| == 1 then (Some(cands[0]), prefs)
      else if t in prefs && prefs[t] in cands then (Some(prefs[t]), prefs)
      else match FirstChoice(cands, answers)
        case None => (None, prefs)
        case Some(n) => (Some(n), prefs[t := n])
  }

  /** A generic type resolves only to a registered name of its type map,
      and the preferences change only by recording that name. */
  lemma ResolveLegacyRegistered(reg: Registry, prefs: map<string, string>, t: string, answers: seq<string>)
    requires TypeMap(t).Some?
    ensures var (r, prefs') := ResolveLegacy(reg, prefs, t, answers);
            && (r.Some? ==> r.value in TypeMap(t).value && r.value in Names(reg))
            && (prefs' == prefs || (r.Some? && prefs' == prefs[t := r.value]))
  {
  }

  /** A choice once made is remembered: resolving the same type again over
      the same devices gives the same name without asking. */
  lemma ChoiceRemembered(reg: Registry, prefs: map<string, string>, t: string, answers: seq<string>)
    requires TypeMap(t).Some?
    requires ResolveLegacy(reg, prefs, t, answers).0.Some?
    ensures var (r, prefs') := ResolveLegacy(reg, prefs, t, answers);
            ResolveLegacy(reg, prefs', t, []) == (r, prefs')
  {
  }

  /** Exactly one registered name of the type resolves to it, whatever the
      preferences and answers. */
  lemma ResolveLegacySingle(reg: Registry, prefs: map<string, string>, t: string, answers: seq<string>, n: string)
    requires TypeMap(t).Some? && n in TypeMap(t).value && n in Names(reg)
    requires forall m :: m in TypeMap(t).value && m in Names(reg) ==> m == n
    ensures ResolveLegacy(reg, prefs, t, answers) == (Some(n), prefs)
  {
    var cands := Present(TypeMap(t).value, reg);
    assert n in cands;
    forall i | 0 <= i < |cands| ensures cands[i] == n {
      assert cands[i] in cands;
    }
    PresentUnique(TypeMap(t).value, reg);
    FirstTwoDistinct(cands);
  }

  lemma {:induction false} PresentUnique(names: seq<string>, reg: Registry)
    requires forall i, j :: 0 <= i < j < |names| ==> names[i] != names[j]
    ensures forall i, j :: 0 <= i < j < |Present(names, reg)| ==> Present(names, reg)[i] != Present(names, reg)[j]
  {
    if names != [] {
      PresentUnique(names[1..], reg);
      assert names[0] !in names[1..];
    }
  }
}
