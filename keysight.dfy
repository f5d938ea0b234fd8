/** The Keysight EDU33212A two-channel waveform generator driver: channel
    settings go to `SOURce1`/`SOURce2`, output switching to `OUTPut1`/`OUTPut2`,
    one command per setting. */
module Keysight {
  import opened Text
  import opened Scpi

  /** `_validate_channel`: only the keys of `CHANNEL_MAP`, 1 and 2. */
  predicate ValidChannel(channel: int) {
    channel == 1 || channel == 2
  }

  /** `_src`: the channel's `SOURce` prefix. */
  function Source(channel: int): (r: string)
    requires ValidChannel(channel)
    ensures r == if channel == 1 then "SOURce1" else "SOURce2"
  {
    if channel == 1 then "SOURce1" else "SOURce2"
  }

  /** `OUTPut<channel>`. */
  function Output(channel: int): (r: string)
    requires ValidChannel(channel)
    ensures r == if channel == 1 then "OUTPut1" else "OUTPut2"
  {
    if channel == 1 then "OUTPut1" else "OUTPut2"
  }

  const Waveforms: set<string> := {"SIN", "SQU", "RAMP", "PULS", "NOIS", "PRBS", "DC", "ARB"}

  /** The types for which `set_waveform` sends no frequency and no amplitude. */
  const Unshaped: set<string> := {"NOIS", "DC"}

  /** The optional parameters of `set_waveform`, as the text `str()` gives
      them, `None` where the caller left one out. */
  datatype WaveParams = WaveParams(frequency: Option<string>, amplitude: Option<string>, offset: Option<string>,
                                   duty: Option<string>, symmetry: Option<string>)

  /** The `load` of `set_output_load`: a number, or text such as `"INF"`. */
  datatype Load = Ohms(number: string) | Named(name: string)

  // ---------------------------------------------------------------------
  // What each call writes.

  /** A one-command setter that validates the channel, then writes
      `SOURce<n><suffix> <value>`: `set_frequency` is `":FREQuency"`,
      `set_amplitude` `":VOLTage"`, `set_offset` `":VOLTage:OFFSet"`,
      `set_square_duty` `":FUNCtion:SQUare:DCYCle"`, `set_pulse_duty`
      `":FUNCtion:PULSe:DCYCle"`, `set_ramp_symmetry` `":FUNCtion:RAMP:SYMMetry"`. */
  function SettingPlan(channel: int, suffix: string, value: string): Plan {
    if !ValidChannel(channel) then Rejected
    else Emits([Command(Source(channel) + suffix, value)])
  }

  function EnableOutputPlan(channel: int, enabled: bool): Plan {
    if !ValidChannel(channel) then Rejected
    else Emits([Command(Output(channel), OnOff(enabled))])
  }

  /** `set_function`: the upper-cased function, if it is a known one. */
  function FunctionPlan(channel: int, func: string): Plan {
    if !ValidChannel(channel) || Upper(func) !in Waveforms then Rejected
    else Emits([Command(Source(channel) + ":FUNCtion", Upper(func))])
  }

  /** `[c]` when `cond` holds. */
  function When(cond: bool, c: Command): (r: seq<Command>)
    ensures c in r <==> cond
    ensures |r| <= 1
  {
    if cond then [c] else []
  }

  /** One `if <param> is not None and <type test>` step of `set_waveform`. */
  function WhenGiven(cond: bool, header: string, value: Option<string>): (r: seq<Command>)
    ensures |r| <= 1
    ensures forall c :: c in r <==> cond && value.Some? && c == Command(header, value.value)
  {
    if cond && value.Some? then [Command(header, value.value)] else []
  }

  /** What `set_waveform` writes for a valid channel and a valid type `w`:
      the function, then each parameter the type uses, in a fixed order. */
  function WaveformCommands(channel: int, w: string, p: WaveParams): seq<Command>
    requires ValidChannel(channel)
  {
    var src := Source(channel);
    [Command(src + ":FUNCtion", w)]
    + WhenGiven(w !in Unshaped, src + ":FREQuency", p.frequency)
    + WhenGiven(w !in Unshaped, src + ":VOLTage", p.amplitude)
    + WhenGiven(true, src + ":VOLTage:OFFSet", p.offset)
    + WhenGiven(w == "SQU", src + ":FUNCtion:SQUare:DCYCle", p.duty)
    + WhenGiven(w == "PULS", src + ":FUNCtion:PULSe:DCYCle", p.duty)
    + WhenGiven(w == "RAMP", src + ":FUNCtion:RAMP:SYMMetry", p.symmetry)
  }

  /** `set_waveform`: the channel, then the upper-cased type, are checked
      before anything is written. */
  function WaveformPlan(channel: int, waveType: string, p: WaveParams): Plan {
    if !ValidChannel(channel) || Upper(waveType) !in Waveforms then Rejected
    else Emits(WaveformCommands(channel, Upper(waveType), p))
  }

  /** `set_dc_output`: `set_function(ch, "DC")`, then `set_offset(ch, v)`. */
  function DcOutputPlan(channel: int, voltage: string): Plan {
    if !ValidChannel(channel) then Rejected
    else Emits([Command(Source(channel) + ":FUNCtion", "DC"), Command(Source(channel) + ":VOLTage:OFFSet", voltage)])
  }

  /** The load text: `INFinity` for the names of an open circuit, the value
      as given otherwise. */
  function LoadText(load: Load): string {
    match load
    case Named(name) =>
      var u := Upper(name);
      if u == "INF" || u == "INFINITY" || u == "INFinity" then "INFinity" else name
    case Ohms(number) => number
  }

  function OutputLoadPlan(channel: int, load: Load): Plan {
    if !ValidChannel(channel) then Rejected
    else Emits([Command(Output(channel) + ":LOAD", LoadText(load))])
  }

  /** `set_fsk`: the state; when switching on, the hop frequency and the
      source, and the rate only for the internal source. */
  function FskPlan(channel: int, state: bool, hopFreq: string, rate: string, source: string): Plan {
    if !ValidChannel(channel) then Rejected
    else
      var src := Source(channel);
      Emits([Command(src + ":FSKey:STATe", OnOff(state))]
            + if !state then []
              else [Command(src + ":FSKey:FREQuency", hopFreq), Command(src + ":FSKey:SOURce", source)]
                   + When(Upper(source) == "INTERNAL", Command(src + ":FSKey:INTernal:RATE", rate)))
  }

  /** `save_state` (`*SAV`) and `recall_state` (`*RCL`): locations 0 to 4. */
  function StatePlan(header: string, location: int): Plan {
    if !(0 <= location < 5) then Rejected
    else Emits([Command(header, NatToString(location))])
  }

  /** `disable_all_channels`: `enable_output(ch, False)` for each channel of
      `CHANNEL_MAP`, in order. */
  const DisableAllCommands: seq<Command> := [Command("OUTPut1", "OFF"), Command("OUTPut2", "OFF")]

  // ---------------------------------------------------------------------
  // Properties.

  /** `set_waveform` writes nothing unless the channel is 1 or 2 and the
      upper-cased type is a known one; it then starts with the function. */
  lemma WaveformValidates(channel: int, waveType: string, p: WaveParams)
    ensures WaveformPlan(channel, waveType, p).Rejected?
        <==> !ValidChannel(channel) || Upper(waveType) !in Waveforms
    ensures WaveformPlan(channel, waveType, p).Emits? ==>
              WaveformPlan(channel, waveType, p).commands[0] == Command(Source(channel) + ":FUNCtion", Upper(waveType))
  {
  }

  /** Different suffixes make different headers. */
  lemma PrefixCancel(src: string, a: string, b: string)
    ensures src + a == src + b ==> a == b
  {
    assert (src + a)[|src|..] == a && (src + b)[|src|..] == b;
  }

  /** No frequency and no amplitude for `NOIS` and `DC`. */
  lemma WaveformUnshaped(channel: int, w: string, p: WaveParams)
    requires ValidChannel(channel) && w in Unshaped
    ensures var src := Source(channel);
            forall c :: c in WaveformCommands(channel, w, p) ==> c.header != src + ":FREQuency" && c.header != src + ":VOLTage"
  {
    var src := Source(channel);
    var cs := WaveformCommands(channel, w, p);
    assert cs == [Command(src + ":FUNCtion", w)] + WhenGiven(true, src + ":VOLTage:OFFSet", p.offset);
    PrefixCancel(src, ":FUNCtion", ":FREQuency");
    PrefixCancel(src, ":FUNCtion", ":VOLTage");
    PrefixCancel(src, ":VOLTage:OFFSet", ":FREQuency");
    PrefixCancel(src, ":VOLTage:OFFSet", ":VOLTage");
  }

  /** Every parameter the type uses is written: the frequency and the
      amplitude unless the type is `NOIS` or `DC`, the offset always, the
      duty cycle for `SQU` and `PULS`, the symmetry for `RAMP`. */
  lemma WaveformGiven(channel: int, w: string, p: WaveParams)
    requires ValidChannel(channel)
    ensures var cs := WaveformCommands(channel, w, p);
            var src := Source(channel);
            && (p.frequency.Some? && w !in Unshaped ==> Command(src + ":FREQuency", p.frequency.value) in cs)
            && (p.amplitude.Some? && w !in Unshaped ==> Command(src + ":VOLTage", p.amplitude.value) in cs)
            && (p.offset.Some? ==> Command(src + ":VOLTage:OFFSet", p.offset.value) in cs)
            && (p.duty.Some? && w == "SQU" ==> Command(src + ":FUNCtion:SQUare:DCYCle", p.duty.value) in cs)
            && (p.duty.Some? && w == "PULS" ==> Command(src + ":FUNCtion:PULSe:DCYCle", p.duty.value) in cs)
            && (p.symmetry.Some? && w == "RAMP" ==> Command(src + ":FUNCtion:RAMP:SYMMetry", p.symmetry.value) in cs)
  {
  }

  /** The duty cycle goes to the square setting only for `SQU`, to the pulse
      setting only for `PULS`, and the symmetry is written only for `RAMP`:
      each of those headers carries the caller's value and appears for its
      own type only. */
  lemma WaveformRouting(channel: int, w: string, p: WaveParams)
    requires ValidChannel(channel)
    ensures var cs := WaveformCommands(channel, w, p);
            var src := Source(channel);
            && (forall c :: c in cs && c.header == src + ":FUNCtion:SQUare:DCYCle" ==> w == "SQU" && p.duty == Some(c.args))
            && (forall c :: c in cs && c.header == src + ":FUNCtion:PULSe:DCYCle" ==> w == "PULS" && p.duty == Some(c.args))
            && (forall c :: c in cs && c.header == src + ":FUNCtion:RAMP:SYMMetry" ==> w == "RAMP" && p.symmetry == Some(c.args))
  {
    var src := Source(channel);
    PrefixCancel(src, ":FUNCtion", ":FUNCtion:SQUare:DCYCle");
    PrefixCancel(src, ":FREQuency", ":FUNCtion:SQUare:DCYCle");
    PrefixCancel(src, ":VOLTage", ":FUNCtion:SQUare:DCYCle");
    PrefixCancel(src, ":VOLTage:OFFSet", ":FUNCtion:SQUare:DCYCle");
    PrefixCancel(src, ":FUNCtion", ":FUNCtion:PULSe:DCYCle");
    PrefixCancel(src, ":FREQuency", ":FUNCtion:PULSe:DCYCle");
    PrefixCancel(src, ":VOLTage", ":FUNCtion:PULSe:DCYCle");
    PrefixCancel(src, ":VOLTage:OFFSet", ":FUNCtion:PULSe:DCYCle");
    PrefixCancel(src, ":FUNCtion:SQUare:DCYCle", ":FUNCtion:PULSe:DCYCle");
    PrefixCancel(src, ":FUNCtion", ":FUNCtion:RAMP:SYMMetry");
    PrefixCancel(src, ":FREQuency", ":FUNCtion:RAMP:SYMMetry");
    PrefixCancel(src, ":VOLTage", ":FUNCtion:RAMP:SYMMetry");
    PrefixCancel(src, ":VOLTage:OFFSet", ":FUNCtion:RAMP:SYMMetry");
    PrefixCancel(src, ":FUNCtion:SQUare:DCYCle", ":FUNCtion:RAMP:SYMMetry");
    PrefixCancel(src, ":FUNCtion:PULSe:DCYCle", ":FUNCtion:RAMP:SYMMetry");
  }

  /** `set_dc_output(ch, v)` writes what `set_waveform(ch, "DC", offset=v)` writes. */
  lemma DcOutputIsWaveform(channel: int, voltage: string)
    ensures DcOutputPlan(channel, voltage) == WaveformPlan(channel, "DC", WaveParams(None, None, Some(voltage), None, None))
  {
    assert Upper("DC") == "DC";
  }

  /** Only the text names of an open circuit become `INFinity`: the third
      name in the list, being mixed-case, never equals an upper-cased text,
      so the test accepts exactly the texts that upper-case to `INF` or
      `INFINITY`. */
  lemma LoadInfinity(name: string)
    ensures LoadText(Named(name)) == "INFinity" <==> Upper(name) == "INF" || Upper(name) == "INFINITY"
  {
    UpperNotMixed(name);
    UpperInfinity();
  }

  lemma UpperNotMixed(s: string)
    ensures Upper(s) != "INFinity"
  {
    if |s| == 8 {
      assert Upper(s)[4] == UpperChar(s[4]);
    }
  }

  lemma UpperInfinity()
    ensures Upper("INFinity") == "INFINITY"
  {
    var u := Upper("INFinity");
    assert forall i | 0 <= i < 8 :: u[i] == "INFINITY"[i];
  }

  /** With the state off `set_fsk` writes only the state command; switching
      on writes the state, the hop frequency and the source, in that order,
      and the rate command is written exactly when switching on with a
      source that upper-cases to `INTERNAL`. */
  lemma FskRate(channel: int, state: bool, hopFreq: string, rate: string, source: string)
    requires ValidChannel(channel)
    ensures var p := FskPlan(channel, state, hopFreq, rate, source);
            && p.Emits?
            && (!state ==> p.commands == [Command(Source(channel) + ":FSKey:STATe", "OFF")])
            && (state ==> |p.commands| >= 3
                          && p.commands[0] == Command(Source(channel) + ":FSKey:STATe", "ON")
                          && p.commands[1] == Command(Source(channel) + ":FSKey:FREQuency", hopFreq)
                          && p.commands[2] == Command(Source(channel) + ":FSKey:SOURce", source))
            && (Command(Source(channel) + ":FSKey:INTernal:RATE", rate) in p.commands
                <==> state && Upper(source) == "INTERNAL")
  {
    var src := Source(channel);
    assert src + ":FSKey:INTernal:RATE" != src + ":FSKey:STATe" by {
      assert (src + ":FSKey:INTernal:RATE")[|src| + 7] != (src + ":FSKey:STATe")[|src| + 7];
    }
  }

  /** The state commands accept 0 to 4 and nothing else. */
  lemma StateLocations(header: string, location: int)
    ensures StatePlan(header, location).Emits? <==> 0 <= location <= 4
  {
  }

  // ---------------------------------------------------------------------
  // The driver.

  class EDU33212A {
    const link: Link

    /** A driver starts with no instrument open. */
    constructor ()
      ensures fresh(link) && !link.connected && link.sent == []
    {
      link := new Link();
    }

    method EnableOutput(channel: int, enabled: bool) returns (st: Status)
      modifies link
      ensures Performed(link, EnableOutputPlan(channel, enabled), st)
    {
      st := link.Perform(EnableOutputPlan(channel, enabled));
    }

    /** `enable_output(ch, False)` for channel 1, then channel 2. */
    method DisableAllChannels() returns (st: Status)
      modifies link
      ensures Performed(link, Emits(DisableAllCommands), st)
    {
      st := Done;
      var channel := 1;
      while channel <= 2
        invariant 1 <= channel <= 3 && st == Done
        invariant link.connected == old(link.connected) && (channel > 1 ==> link.connected)
        invariant link.sent == old(link.sent) + Written(Emits(DisableAllCommands[..channel - 1]), link.connected)
      {
        RenderAllAppend(DisableAllCommands[..channel - 1], [DisableAllCommands[channel - 1]]);
        assert DisableAllCommands[..channel] == DisableAllCommands[..channel - 1] + [DisableAllCommands[channel - 1]];
        st := EnableOutput(channel, false);
        if st != Done {
          return;
        }
        channel := channel + 1;
      }
      assert DisableAllCommands[..2] == DisableAllCommands;
    }

    method SetOutputLoad(channel: int, load: Load) returns (st: Status)
      modifies link
      ensures Performed(link, OutputLoadPlan(channel, load), st)
    {
      st := link.Perform(OutputLoadPlan(channel, load));
    }

    method SetFunction(channel: int, func: string) returns (st: Status)
      modifies link
      ensures Performed(link, FunctionPlan(channel, func), st)
    {
      st := link.Perform(FunctionPlan(channel, func));
    }

    /** One of the one-command setters `SettingPlan` lists. */
    method SetSetting(channel: int, suffix: string, value: string) returns (st: Status)
      modifies link
      ensures Performed(link, SettingPlan(channel, suffix, value), st)
    {
      st := link.Perform(SettingPlan(channel, suffix, value));
    }

    /** `set_waveform`: validate, `set_function`, then one setter call per
      parameter the type uses. Once the function has been written the
      instrument is open, so every later write succeeds. */
    method SetWaveform(channel: int, waveType: string, p: WaveParams) returns (st: Status)
      modifies link
      ensures Performed(link, WaveformPlan(channel, waveType, p), st)
    {
      if !ValidChannel(channel) {
        return InvalidArgument;
      }
      var w := Upper(waveType);
      if w !in Waveforms {
        return InvalidArgument;
      }
      UpperIdempotent(waveType);
      st := SetFunction(channel, w);
      if st != Done {
        return;
      }
      ghost var sent := [Command(Source(channel) + ":FUNCtion", w)];
      assert link.sent == old(link.sent) + RenderAll(sent);
      var step;
      step, sent := SetWhen(w !in Unshaped, channel, ":FREQuency", p.frequency, old(link.sent), sent);
      step, sent := SetWhen(w !in Unshaped, channel, ":VOLTage", p.amplitude, old(link.sent), sent);
      step, sent := SetWhen(true, channel, ":VOLTage:OFFSet", p.offset, old(link.sent), sent);
      step, sent := SetWhen(w == "SQU", channel, ":FUNCtion:SQUare:DCYCle", p.duty, old(link.sent), sent);
      step, sent := SetWhen(w == "PULS", channel, ":FUNCtion:PULSe:DCYCle", p.duty, old(link.sent), sent);
      step, sent := SetWhen(w == "RAMP", channel, ":FUNCtion:RAMP:SYMMetry", p.symmetry, old(link.sent), sent);
      assert sent == WaveformCommands(channel, w, p);
    }

    /** One `if <param> is not None and <type test>: set_...(ch, param)` step
      of `set_waveform`, on an open instrument. */
    method SetWhen(cond: bool, channel: int, suffix: string, value: Option<string>,
                   ghost base: seq<string>, ghost before: seq<Command>)
      returns (st: Status, ghost after: seq<Command>)
      requires ValidChannel(channel) && link.connected
      requires link.sent == base + RenderAll(before)
      modifies link
      ensures st == Done && link.connected
      ensures after == before + WhenGiven(cond, Source(channel) + suffix, value)
      ensures link.sent == base + RenderAll(after)
    {
      st := Done;
      ghost var more := WhenGiven(cond, Source(channel) + suffix, value);
      after := before + more;
      RenderAllAppend(before, more);
      if cond && value.Some? {
        ghost var c := Command(Source(channel) + suffix, value.value);
        assert more == [c];
        st := SetSetting(channel, suffix, value.value);
        assert link.sent == (base + RenderAll(before)) + [Render(c)];
        assert RenderAll(more) == [Render(c)];
      } else {
        assert RenderAll(more) == [];
      }
      assert base + RenderAll(after) == (base + RenderAll(before)) + RenderAll(more);
    }

    /** `set_function(ch, "DC")`, then `set_offset(ch, v)`. */
    method SetDcOutput(channel: int, voltage: string) returns (st: Status)
      modifies link
      ensures Performed(link, DcOutputPlan(channel, voltage), st)
    {
      assert Upper("DC") == "DC";
      st := SetFunction(channel, "DC");
      if st != Done {
        return;
      }
      st := SetSetting(channel, ":VOLTage:OFFSet", voltage);
    }

    method SetFsk(channel: int, state: bool, hopFreq: string, rate: string, source: string) returns (st: Status)
      modifies link
      ensures Performed(link, FskPlan(channel, state, hopFreq, rate, source), st)
    {
      st := link.Perform(FskPlan(channel, state, hopFreq, rate, source));
    }

    method SaveState(location: int) returns (st: Status)
      modifies link
      ensures Performed(link, StatePlan("*SAV", location), st)
    {
      st := link.Perform(StatePlan("*SAV", location));
    }

    method RecallState(location: int) returns (st: Status)
      modifies link
      ensures Performed(link, StatePlan("*RCL", location), st)
    {
      st := link.Perform(StatePlan("*RCL", location));
    }
  }
}
