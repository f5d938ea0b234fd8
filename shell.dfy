/** The interactive shell object (`InstrumentRepl` in both the current
    package and the older top-level script): its registry and selection,
    the one-shot exit cleanup, the state sweeps, the measurement log and
    `calc`, numbered-device routing through `default`, the DMM text loop,
    and `onecmd` run step by step against the dispatcher.

    The dispatcher (`cmd.Cmd.onecmd`) is abstract: each line handed to it
    is appended to `trace`, and `quits` says which lines ask to exit. Driver
    calls of the sweeps are appended to `calls` and the per-device outcome
    lines to `reports`. */
module Shell {
  import opened Text
  import opened Registry
  import opened Controller
  import opened Router
  import opened RouterProps
  import opened Session
  import SafeEval
  import opened Console
  import Discovery

  /** The `do_<name>` handlers the shell has, which `default` can route a
      numbered device name to once its digits are stripped. */
  const Handlers: set<string> := {
    "scan", "reload", "list", "use", "idn", "raw", "state", "close", "status", "sleep", "wait",
    "script", "all", "exit", "quit", "EOF", "help", "psu", "awg", "dmm", "scope", "log", "calc", "python"}

  /** The `safe` sweep of each shell. */
  function SafeSweepOf(d: Dialect): Sweep {
    if d == Current then SafeSweep else LegacySafeSweep
  }

  /** The sweep `all <state>` asks for, if the state word is known. */
  function SweepNamed(d: Dialect, state: string): Option<Sweep> {
    var s := Lower(state);
    if s == "on" then Some(if d == Current then OnSweep else LegacyOnSweep)
    else if s == "off" then Some(if d == Current then OffSweep else LegacyOffSweep)
    else if s == "safe" then Some(SafeSweepOf(d))
    else if s == "reset" then Some(ResetSweep)
    else None
  }

  /** The characters up to the first whitespace. */
  function DropWord(s: string): (r: string)
    ensures |r| <= |s|
  {
    if s != [] && !IsSpace(s[0]) then DropWord(s[1..]) else s
  }

  /** `line.split(None, 1)[1]` (empty when there is no second part): the
      text after the first word, without the whitespace before it. */
  function AfterFirstWord(line: string): string {
    TrimLeft(DropWord(TrimLeft(line)))
  }

  /** How `default` treats a line whose command word has no handler. */
  datatype DefaultOutcome =
    | Routed(handler: string, rest: string, device: Option<string>)
    | UnknownSyntax

  /** The loop of `do_calc` over the tokens after the label: `unit=`
      tokens set the unit (the last one wins), the others make up the
      expression. */
  method CalcTokens(toks: seq<string>) returns (unit: string, parts: seq<string>)
    ensures unit == UnitOf(toks) && parts == ExprWords(toks)
  {
    unit, parts := "", [];
    var i := 0;
    while i < |toks|
      invariant 0 <= i <= |toks|
      invariant unit == UnitOf(toks[..i]) && parts == ExprWords(toks[..i])
    {
      var t := toks[i];
      assert toks[..i + 1][..i] == toks[..i];
      if IsUnitToken(t) {
        unit := UnitValue(t);
      } else {
        parts := parts + [t];
      }
      i := i + 1;
    }
    assert toks[..i] == toks;
  }

  /** Every mutable field of the shell, for stating what a method leaves
      alone. */
  datatype Snapshot = Snapshot(
    devices: Registry, selected: Option<string>, override: Option<string>, prefs: map<string, string>,
    cleanupDone: bool, calls: seq<(string, Call)>, reports: seq<Report>,
    measurements: seq<Measurement>,
    textActive: bool, frames: seq<string>, frameIndex: nat, shown: seq<string>)

  lemma SweepStep(sweep: Sweep, reg: Registry, i: nat)
    requires i < |reg|
    ensures SweepCalls(sweep, reg[..i + 1])
         == SweepCalls(sweep, reg[..i]) + Tag(reg[i].0, Visit(sweep, reg[i].0, reg[i].1).calls)
    ensures SweepReports(sweep, reg[..i + 1])
         == SweepReports(sweep, reg[..i]) + [Report(reg[i].0, Visit(sweep, reg[i].0, reg[i].1).ok)]
  {
    assert reg[..i + 1] == reg[..i] + [reg[i]];
    SweepCallsAppend(sweep, reg[..i], [reg[i]]);
    assert [reg[i]][1..] == [];
  }

  /** `_safe_all`, `_off_all`, `_on_all`, `_reset_all` and the loop of
      `close`: each device's turn in registry order, its calls tagged with
      its name and one report line per device. */
  method RunSweep(sweep: Sweep, reg: Registry) returns (cs: seq<(string, Call)>, rs: seq<Report>)
    ensures cs == SweepCalls(sweep, reg) && rs == SweepReports(sweep, reg)
  {
    cs, rs := [], [];
    var i := 0;
    while i < |reg|
      invariant 0 <= i <= |reg|
      invariant cs == SweepCalls(sweep, reg[..i]) && rs == SweepReports(sweep, reg[..i])
    {
      var (name, dev) := reg[i];
      var turn := Visit(sweep, name, dev);
      cs := cs + Tag(name, turn.calls);
      rs := rs + [Report(name, turn.ok)];
      SweepStep(sweep, reg, i);
      i := i + 1;
    }
    assert reg[..i] == reg;
  }

  class InstrumentShell {
    const dialect: Dialect
    /** The command dispatcher of `cmd.Cmd`. */
    const console: Dispatcher
    /** `ast.parse(expr, mode="eval")`. */
    const parse: string -> Option<SafeEval.Expr>
    /** The scanner `scan` asks for the instruments. */
    const discovery: Discovery.InstrumentDiscovery

    var devices: Registry
    var selected: Option<string>
    /** `_device_override`: the numbered device `default` routes to. */
    var override: Option<string>
    /** `_device_type_prefs` of the older shell. */
    var prefs: map<string, string>
    var cleanupDone: bool
    var calls: seq<(string, Call)>
    var reports: seq<Report>
    var measurements: seq<Measurement>
    var textActive: bool
    var frames: seq<string>
    var frameIndex: nat
    /** The frames handed to the DMM's `display_text`. */
    var shown: seq<string>

    function State(): Snapshot
      reads this
    {
      Snapshot(devices, selected, override, prefs, cleanupDone, calls, reports,
               measurements, textActive, frames, frameIndex, shown)
    }

    /** Device names are unique, a non-empty registry always has its
        selection among its names, and the text loop's index points into
        its frames. */
    predicate Valid()
      reads this
    {
      && UniqueNames(devices)
      && (devices != [] ==> selected.Some? && selected.value in Names(devices))
      && (frames != [] ==> frameIndex < |frames|)
      && (textActive ==> frames != [])
    }

    /** Start-up: scan, and when something was found, put every instrument
        in its safe state. */
    constructor (dialect: Dialect, quits: string -> bool, parse: string -> Option<SafeEval.Expr>,
                 drivers: string -> Device, listing: Option<seq<Discovery.Resource>>)
      ensures Valid()
      ensures this.dialect == dialect && fresh(console) && console.quits == quits && console.trace == []
      ensures this.parse == parse && fresh(discovery) && discovery.drivers == drivers
      ensures var found := Discovery.ScanResult(listing, drivers);
              && devices == found && selected == (if found == [] then None else Some(found[0].0))
              && calls == SweepCalls(SafeSweepOf(dialect), found)
              && reports == SweepReports(SafeSweepOf(dialect), found)
      ensures override == None && prefs == map[] && !cleanupDone && measurements == []
      ensures !textActive && frames == [] && frameIndex == 0 && shown == []
    {
      this.dialect := dialect;
      console := new Dispatcher(quits);
      this.parse := parse;
      discovery := new Discovery.InstrumentDiscovery(drivers);
      devices := [];
      selected := None;
      override := None;
      prefs := map[];
      cleanupDone := false;
      calls := [];
      reports := [];
      measurements := [];
      textActive := false;
      frames := [];
      frameIndex := 0;
      shown := [];
      new;
      Scan(listing);
      if devices != [] {
        SweepAll(SafeSweepOf(dialect));
      }
    }

    // -------------------------------------------------------------------
    // Registry and selection.

    /** `scan`: the registry becomes what discovery finds; a selection
        that is not among the new names moves to the first one, unless
        nothing was found. */
    method Scan(listing: Option<seq<Discovery.Resource>>)
      requires Valid()
      modifies this, discovery
      ensures Valid()
      ensures var found := Discovery.ScanResult(listing, discovery.drivers);
              && State() == old(State()).(devices := found, selected := selected)
              && selected == if found != [] && (old(selected).None? || old(selected).value !in Names(found))
                             then Some(found[0].0) else old(selected)
    {
      var found := discovery.Scan(listing);
      devices := found;
      if found != [] && (selected.None? || selected.value !in Names(found)) {
        selected := Some(found[0].0);
      }
    }

    /** `_get_device(name)`: nothing on an empty registry; the selected
        device when no name is given; the named device if it exists. */
    function GetDevice(name: Option<string>): (r: Option<Device>)
      reads this
      ensures r.Some? <==> devices != [] && match name
                                             case None => selected.Some? && selected.value in Names(devices)
                                             case Some(n) => n in Names(devices)
    {
      if devices == [] then None
      else match name
        case None => if selected.None? then None else Lookup(devices, selected.value)
        case Some(n) => Lookup(devices, n)
    }

    /** `use <name>`: select a registered device; help, a missing name or
        an unknown one change nothing. */
    method Use(arg: string)
      requires Valid()
      modifies this
      ensures Valid()
      ensures var args := Words(arg);
              State() == old(State()).(selected :=
                if !IsHelp(args) && args != [] && args[0] in Names(devices) then Some(args[0]) else old(selected))
    {
      var args := Words(arg);
      if IsHelp(args) || args == [] {
        return;
      }
      if args[0] !in Names(devices) {
        return;
      }
      selected := Some(args[0]);
    }

    /** `close`: disconnect every device in order (failures reported and
        skipped), then forget them all and the selection. */
    method Close(arg: string)
      requires Valid()
      modifies this
      ensures Valid()
      ensures IsHelp(Words(arg)) ==> State() == old(State())
      ensures !IsHelp(Words(arg)) ==>
                State() == old(State()).(devices := [], selected := None,
                  calls := old(calls) + SweepCalls(DisconnectSweep, old(devices)),
                  reports := old(reports) + SweepReports(DisconnectSweep, old(devices)))
    {
      if IsHelp(Words(arg)) {
        return;
      }
      SweepAll(DisconnectSweep);
      devices := [];
      selected := None;
    }

    // -------------------------------------------------------------------
    // Sweeps and cleanup.

    /** One sweep over the registry, device by device. */
    method SweepAll(sweep: Sweep)
      modifies this
      ensures State() == old(State()).(calls := old(calls) + SweepCalls(sweep, devices),
                                       reports := old(reports) + SweepReports(sweep, devices))
    {
      var cs, rs := RunSweep(sweep, devices);
      calls := calls + cs;
      reports := reports + rs;
    }

    /** `all <on|off|safe|reset>`. */
    method All(arg: string)
      modifies this
      ensures var (args, help) := StripHelp(Words(arg));
              if args == [] || help || SweepNamed(dialect, args[0]).None? then State() == old(State())
              else var sweep := SweepNamed(dialect, args[0]).value;
                   State() == old(State()).(calls := old(calls) + SweepCalls(sweep, devices),
                                            reports := old(reports) + SweepReports(sweep, devices))
    {
      var (args, help) := StripHelp(Words(arg));
      if args == [] || help {
        return;
      }
      match SweepNamed(dialect, args[0])
      case None =>
      case Some(sweep) => SweepAll(sweep);
    }

    /** `_cleanup_on_exit`: the safe sweep, once, and only when devices
        are registered; any later call does nothing. */
    method CleanupOnExit()
      modifies this
      ensures old(!cleanupDone && devices != []) ==>
                State() == old(State()).(cleanupDone := true,
                  calls := old(calls) + SweepCalls(SafeSweepOf(dialect), devices),
                  reports := old(reports) + SweepReports(SafeSweepOf(dialect), devices))
      ensures !old(!cleanupDone && devices != []) ==> State() == old(State())
      ensures devices != [] ==> cleanupDone
    {
      if !cleanupDone && devices != [] {
        cleanupDone := true;
        SweepAll(SafeSweepOf(dialect));
      }
    }

    // -------------------------------------------------------------------
    // Measurement log and `calc`.

    /** `_record_measurement`. */
    method RecordMeasurement(name: string, value: SafeEval.Value, unit: string, source: string)
      modifies this
      ensures State() == old(State()).(measurements := old(measurements) + [Measurement(name, value, unit, source)])
    {
      measurements := measurements + [Measurement(name, value, unit, source)];
    }

    /** `log clear` empties the log; `log print` and `log save` only read
        it, and help or an empty argument list only print usage. */
    method Log(arg: string)
      modifies this
      ensures var (args, help) := StripHelp(Words(arg));
              State() == old(State()).(measurements :=
                if !help && args != [] && Lower(args[0]) == "clear" then [] else old(measurements))
    {
      var (args, help) := StripHelp(Words(arg));
      if help || args == [] {
        return;
      }
      if Lower(args[0]) == "clear" {
        measurements := [];
      }
    }

    /** `calc <label> <expr> [unit=]`: the outcome is `Session.Calc` over
        the log, and exactly a successful one appends its record. */
    method Calc(arg: string) returns (o: CalcOutcome)
      modifies this
      ensures o == Session.Calc(dialect, parse, arg, old(measurements))
      ensures State() == old(State()).(measurements := old(measurements) + CalcRecord(o))
    {
      var (args, help) := StripHelp(Words(arg));
      if help || |args| < 2 {
        return CalcUsage;
      }
      var unit, parts := CalcTokens(args[1..]);
      var expr := Unwords(parts);
      if expr == [] {
        return CalcNoExpr;
      }
      if dialect == Current && measurements == [] {
        return CalcNoLog;
      }
      match parse(expr)
      case None =>
        o := CalcFailed;
      case Some(e) =>
        match SafeEval.Eval(e, CalcNames(measurements))
        case Err(_) =>
          o := CalcFailed;
        case Ok(v) =>
          RecordMeasurement(args[0], v, unit, "calc");
          o := CalcDone(args[0], v, unit);
    }

    // -------------------------------------------------------------------
    // Routing numbered device names.

    /** `default(line)` for a command word without a handler (the
        dispatcher never passes a blank line): a registered device name
        whose digit-less form has a handler runs that handler on the rest
        of the line with `_device_override` set to the name, and the
        override is cleared afterwards; the handler's
        `_resolve_device_type` then picks exactly that device. Anything
        else is unknown syntax. The older shell has no `default` of its
        own. */
    method Default(line: string) returns (o: DefaultOutcome)
      requires Words(line) != []
      modifies this
      ensures var w := Words(line)[0];
              var base := StripDigits(w);
              o == if dialect == Current && w in Names(devices) && base in Handlers
                   then Routed(base, AfterFirstWord(line), ResolveDeviceType(devices, Some(w), base))
                   else UnknownSyntax
      ensures o.Routed? ==> o.device == Some(Words(line)[0]) && State() == old(State()).(override := None)
      ensures o.UnknownSyntax? ==> State() == old(State())
    {
      var w := Words(line)[0];
      var base := StripDigits(w);
      if dialect == Current && w in Names(devices) && base in Handlers {
        override := Some(w);
        var device := ResolveDeviceType(devices, override, base);
        override := None;
        o := Routed(base, AfterFirstWord(line), device);
      } else {
        o := UnknownSyntax;
      }
    }

    // -------------------------------------------------------------------
    // The DMM text loop.

    /** `_start_dmm_text_loop`: build the frames, one per start position,
        and start at the first. */
    method StartTextLoop(message: string, width: int, pad: int)
      requires Valid()
      modifies this
      ensures Valid()
      ensures State() == old(State()).(textActive := true, frames := Frames(message, width, pad), frameIndex := 0)
    {
      var w := AtLeastOne(width);
      var window := Window(message, pad);
      var cycle := window + window;
      var fs: seq<string> := [];
      var start := 0;
      while start < |window|
        invariant 0 <= start <= |window|
        invariant |fs| == start && forall k :: 0 <= k < start ==> fs[k] == Frame(message, width, pad, k)
      {
        var stop := if start + w < |cycle| then start + w else |cycle|;
        fs := fs + [cycle[start..stop]];
        start := start + 1;
      }
      assert fs == Frames(message, width, pad);
      frames := fs;
      frameIndex := 0;
      textActive := true;
    }

    /** `_stop_dmm_text_loop`. */
    method StopTextLoop()
      requires Valid()
      modifies this
      ensures Valid()
      ensures State() == old(State()).(textActive := false, frames := [], frameIndex := 0)
    {
      textActive := false;
      frames := [];
      frameIndex := 0;
    }

    /** `_tick_dmm_text_loop`: when the loop runs, the delay has passed
        (`due`, or forced) and a device named `dmm` is registered, show the
        current frame and advance cyclically; a failing display stops the
        loop. */
    method Tick(due: bool, fails: bool)
      requires Valid()
      modifies this
      ensures Valid()
      ensures var fire := old(textActive && frames != [] && due && GetDevice(Some("dmm")).Some?);
              && (!fire ==> State() == old(State()))
              && (fire && !fails ==>
                    State() == old(State()).(frameIndex := (old(frameIndex) + 1) % |old(frames)|,
                                             shown := old(shown) + [old(frames)[old(frameIndex)]]))
              && (fire && fails ==>
                    State() == old(State()).(textActive := false, frames := [], frameIndex := 0,
                                             shown := old(shown) + [old(frames)[old(frameIndex)]]))
    {
      if !textActive || frames == [] || !due {
        return;
      }
      if GetDevice(Some("dmm")).None? {
        return;
      }
      var frame := frames[frameIndex];
      frameIndex := (frameIndex + 1) % |frames|;
      shown := shown + [frame];
      if fails {
        StopTextLoop();
      }
    }

    // -------------------------------------------------------------------
    // The older shell's `_resolve_device_type`.

    /** Resolve a generic type through the type map, the remembered
        preference, or the first accepted answer to the prompt, which is
        then remembered. */
    method ResolveLegacy(t: string, answers: seq<string>) returns (r: Option<string>)
      modifies this
      ensures (r, prefs) == Session.ResolveLegacy(old(devices), old(prefs), t, answers)
      ensures State() == old(State()).(prefs := prefs)
    {
      if TypeMap(t).None? {
        return Some(t);
      }
      var cands := Present(TypeMap(t).value, devices);
      if cands == [] {
        return None;
      }
      if |cands| == 1 {
        return Some(cands[0]);
      }
      if t in prefs && prefs[t] in cands {
        return Some(prefs[t]);
      }
      var i := 0;
      while i < |answers|
        invariant 0 <= i <= |answers|
        invariant FirstChoice(cands, answers) == FirstChoice(cands, answers[i..])
      {
        assert answers[i..][1..] == answers[i + 1..];
        match Choice(cands, answers[i])
        case Some(n) =>
          prefs := prefs[t := n];
          return Some(n);
        case None =>
        i := i + 1;
      }
      return None;
    }

    /** `onecmd(line)`, against the shell's dispatcher, with the registry
        and the override as they stand. */
    method Onecmd(line: string) returns (exit: bool)
      modifies console
      ensures var r := Router.Onecmd(dialect, devices, override, console.quits, line);
              exit == r.exit && console.trace == old(console.trace) + r.trace
    {
      exit := Console.Onecmd(dialect, devices, override, console, line);
    }
  }
}
