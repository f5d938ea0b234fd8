/** The B&K Precision 4063 two-channel waveform generator driver: each call
    validates its channel and writes one or two commands built from parts
    joined by commas. */
module Bk4063 {
  import opened Text
  import opened Scpi

  /** `CHANNEL_MAP` holds channels 1 and 2. */
  predicate ValidChannel(channel: int) {
    channel == 1 || channel == 2
  }

  /** The command prefix of a channel. */
  function ChannelName(channel: int): (r: string)
    requires ValidChannel(channel)
    ensures |r| == 2 && r[0] == 'C' && ',' !in r
  {
    if channel == 1 then "C1" else "C2"
  }

  const Waveforms: set<string> := {"SINE", "SQUARE", "RAMP", "PULSE", "NOISE", "DC", "ARB"}

  /** The optional parameters of `set_waveform`, each as the text `str()`
      gives it, `None` where the caller left it out. */
  datatype WaveParams = WaveParams(frequency: Option<string>, amplitude: Option<string>, offset: Option<string>,
                                   phase: Option<string>, duty: Option<string>, symmetry: Option<string>)

  /** The keywords of those parameters, in the order the command lists them. */
  const ParamKeys: seq<string> := ["FRQ", "AMP", "OFST", "PHSE", "DUTY", "SYM"]

  function Values(p: WaveParams): (r: seq<Option<string>>)
    ensures |r| == |ParamKeys|
  {
    [p.frequency, p.amplitude, p.offset, p.phase, p.duty, p.symmetry]
  }

  /** Keyword and value of every parameter present, in keyword order: the
      `KEY,value` parts the command appends. */
  function Fields(keys: seq<string>, vals: seq<Option<string>>): (r: seq<string>)
    requires |keys| == |vals|
  {
    if keys == [] then []
    else (if vals[0].Some? then [keys[0], vals[0].value] else []) + Fields(keys[1..], vals[1..])
  }

  /** The one command `set_waveform` writes: `C<n>:BSWV WVTP,<TYPE>` and the
      present parameters, comma-joined. */
  function Bswv(channel: int, wave: string, p: WaveParams): Command
    requires ValidChannel(channel)
  {
    Command(ChannelName(channel) + ":BSWV", Join(["WVTP", wave] + Fields(ParamKeys, Values(p)), ","))
  }

  /** `KEY,value` for each keyword argument, keys upper-cased, in the order given. */
  function KeywordFields(kwargs: seq<(string, string)>): (r: seq<string>)
    ensures |r| == 2 * |kwargs|
    ensures forall i :: 0 <= i < |kwargs| ==> r[2 * i] == Upper(kwargs[i].0) && r[2 * i + 1] == kwargs[i].1
  {
    if kwargs == [] then [] else [Upper(kwargs[0].0), kwargs[0].1] + KeywordFields(kwargs[1..])
  }

  // ---------------------------------------------------------------------
  // What each call writes.

  function EnableOutputPlan(channel: int, enabled: bool): Plan {
    if !ValidChannel(channel) then Rejected
    else Emits([Command(ChannelName(channel) + ":OUTPut", OnOff(enabled))])
  }

  /** `set_output_impedance`: `LOAD,<ohms>` or `LOAD,HZ` on the channel's output. */
  function OutputImpedancePlan(channel: int, load: string): Plan {
    if !ValidChannel(channel) then Rejected
    else Emits([Command(ChannelName(channel) + ":OUTPut", "LOAD," + load)])
  }

  function SyncOutputPlan(channel: int, enabled: bool): Plan {
    if !ValidChannel(channel) then Rejected
    else Emits([Command(ChannelName(channel) + ":SYNC", OnOff(enabled))])
  }

  /** `set_waveform`: the channel, then the upper-cased type, are checked
      before anything is built. */
  function WaveformPlan(channel: int, waveType: string, p: WaveParams): Plan {
    if !ValidChannel(channel) then Rejected
    else
      var w := Upper(waveType);
      if w !in Waveforms then Rejected else Emits([Bswv(channel, w, p)])
  }

  /** The parameters `set_dc_output` passes on: an offset only. */
  function DcParams(voltage: string): WaveParams {
    WaveParams(None, None, Some(voltage), None, None, None)
  }

  /** `set_modulation`: the state command, then, when switching on, the type,
      the source and the keyword arguments in one command. */
  function ModulationPlan(channel: int, state: bool, modType: string, source: string, kwargs: seq<(string, string)>): Plan {
    if !ValidChannel(channel) then Rejected
    else
      var head := ChannelName(channel) + ":MDWV";
      Emits([Command(head, "STATE," + OnOff(state))]
            + if state then [Command(head, Join([Upper(modType), "SRC", Upper(source)] + KeywordFields(kwargs), ","))]
              else [])
  }

  /** `set_sweep` (`SWWV`) and `set_burst` (`BTWV`) as written: the parameter
      command joins the header itself to its parameters with a comma, so it
      has no blank after the header. */
  function SwitchedPlanAsWritten(channel: int, keyword: string, state: bool, kwargs: seq<(string, string)>): Plan {
    if !ValidChannel(channel) then Rejected
    else
      var head := ChannelName(channel) + ":" + keyword;
      Emits([Command(head, "STATE," + OnOff(state))]
            + if state && kwargs != [] then [Command(Join([head] + KeywordFields(kwargs), ","), "")] else [])
  }

  /** `set_sweep` and `set_burst` with the parameter command written like
      every other command of the driver: header, blank, parameters. */
  function SwitchedPlan(channel: int, keyword: string, state: bool, kwargs: seq<(string, string)>): Plan {
    if !ValidChannel(channel) then Rejected
    else
      var head := ChannelName(channel) + ":" + keyword;
      Emits([Command(head, "STATE," + OnOff(state))]
            + if state && kwargs != [] then [Command(head, Join(KeywordFields(kwargs), ","))] else [])
  }

  /** What `disable_all_channels` writes. */
  const DisableAllCommands: seq<Command> := [Command("C1:OUTPut", "OFF"), Command("C2:OUTPut", "OFF")]

  function CopyChannelPlan(dest: int, src: int): Plan {
    if !ValidChannel(dest) || !ValidChannel(src) then Rejected
    else Emits([Command("PACP", ChannelName(dest) + "," + ChannelName(src))])
  }

  // ---------------------------------------------------------------------
  // Reading a `BSWV` command back.

  /** The parameter values a field list holds for `keys`, in order; `None`
      when the list is not one `Fields` can produce. */
  function DecodeFields(keys: seq<string>, fields: seq<string>): (r: Option<seq<Option<string>>>)
    ensures r.Some? ==> |r.value| == |keys|
    decreases |keys|
  {
    if keys == [] then (if fields == [] then Some([]) else None)
    else if |fields| >= 2 && fields[0] == keys[0] then
      match DecodeFields(keys[1..], fields[2..])
      case None => None
      case Some(vs) => Some([Some(fields[1])] + vs)
    else
      match DecodeFields(keys[1..], fields)
      case None => None
      case Some(vs) => Some([None] + vs)
  }

  /** The waveform type and parameters of a `BSWV` parameter list. */
  function ParseBswv(args: string): Option<(string, WaveParams)> {
    var f := SplitOn(args, ',');
    if |f| < 2 || f[0] != "WVTP" then None
    else
      match DecodeFields(ParamKeys, f[2..])
      case None => None
      case Some(vs) => Some((f[1], WaveParams(vs[0], vs[1], vs[2], vs[3], vs[4], vs[5])))
  }

  predicate Distinct(keys: seq<string>) {
    forall i, j :: 0 <= i < j < |keys| ==> keys[i] != keys[j]
  }

  /** A field list starts with one of its keywords. */
  lemma {:induction false} FieldsHead(keys: seq<string>, vals: seq<Option<string>>)
    requires |keys| == |vals|
    ensures Fields(keys, vals) == [] || Fields(keys, vals)[0] in keys
    decreases |keys|
  {
    if keys != [] && vals[0].None? {
      FieldsHead(keys[1..], vals[1..]);
    }
  }

  lemma {:induction false} DecodeFieldsRoundTrip(keys: seq<string>, vals: seq<Option<string>>)
    requires |keys| == |vals| && Distinct(keys)
    ensures DecodeFields(keys, Fields(keys, vals)) == Some(vals)
    decreases |keys|
  {
    if keys != [] {
      assert Distinct(keys[1..]);
      DecodeFieldsRoundTrip(keys[1..], vals[1..]);
      var rest := Fields(keys[1..], vals[1..]);
      var fields := Fields(keys, vals);
      if vals[0].Some? {
        assert fields == [keys[0], vals[0].value] + rest;
        assert fields[2..] == rest;
      } else {
        assert fields == rest;
        FieldsHead(keys[1..], vals[1..]);
        assert keys[0] !in keys[1..] by {
          forall j | 0 <= j < |keys[1..]| ensures keys[1..][j] != keys[0] {
            assert keys[1..][j] == keys[j + 1];
          }
        }
      }
      assert vals == [vals[0]] + vals[1..];
    }
  }

  /** No part holds a comma. */
  predicate CommaFree(parts: seq<string>) {
    forall p :: p in parts ==> ',' !in p
  }

  lemma {:induction false} FieldsCommaFree(keys: seq<string>, vals: seq<Option<string>>)
    requires |keys| == |vals| && CommaFree(keys)
    requires forall v :: v in vals && v.Some? ==> ',' !in v.value
    ensures CommaFree(Fields(keys, vals))
    decreases |keys|
  {
    if keys != [] {
      assert keys[0] in keys && vals[0] in vals;
      FieldsCommaFree(keys[1..], vals[1..]);
    }
  }

  lemma {:induction false} KeywordFieldsCommaFree(kwargs: seq<(string, string)>)
    requires forall kv :: kv in kwargs ==> ',' !in kv.0 && ',' !in kv.1
    ensures CommaFree(KeywordFields(kwargs))
    decreases |kwargs|
  {
    if kwargs != [] {
      assert kwargs[0] in kwargs;
      UpperKeepsComma(kwargs[0].0);
      KeywordFieldsCommaFree(kwargs[1..]);
    }
  }

  /** Reading the `BSWV` command back gives the type and exactly the
      parameters given, when no value holds a comma: absent parameters are
      left out, present ones appear under their own keyword. */
  lemma BswvRoundTrip(channel: int, wave: string, p: WaveParams)
    requires ValidChannel(channel) && ',' !in wave
    requires forall v :: v in Values(p) && v.Some? ==> ',' !in v.value
    ensures ParseBswv(Bswv(channel, wave, p).args) == Some((wave, p))
  {
    var vals := Values(p);
    var fields := Fields(ParamKeys, vals);
    FieldsCommaFree(ParamKeys, vals);
    var parts := ["WVTP", wave] + fields;
    assert CommaFree(parts);
    SplitJoin(parts, ',');
    assert parts[2..] == fields;
    DecodeFieldsRoundTrip(ParamKeys, vals);
  }

  // ---------------------------------------------------------------------
  // Properties.

  /** `set_dc_output(ch, v)` writes `C<n>:BSWV WVTP,DC,OFST,<v>`. */
  lemma DcOutputCommand(channel: int, voltage: string)
    requires ValidChannel(channel)
    ensures WaveformPlan(channel, "DC", DcParams(voltage))
         == Emits([Command(ChannelName(channel) + ":BSWV", "WVTP,DC,OFST," + voltage)])
  {
    assert Upper("DC") == "DC";
    DcFields(voltage);
    JoinFour("WVTP", "DC", "OFST", voltage);
    assert ["WVTP", "DC"] + ["OFST", voltage] == ["WVTP", "DC", "OFST", voltage];
    assert "WVTP" + "," + "DC" + "," + "OFST" + "," + voltage == "WVTP,DC,OFST," + voltage;
  }

  /** An offset alone gives the one field pair `OFST,<v>`. */
  lemma DcFields(voltage: string)
    ensures Fields(ParamKeys, Values(DcParams(voltage))) == ["OFST", voltage]
  {
    var ks, vs := ParamKeys, Values(DcParams(voltage));
    FieldsNone(ks[3..], vs[3..]);
    assert ks[2..][1..] == ks[3..] && vs[2..][1..] == vs[3..];
    assert Fields(ks[2..], vs[2..]) == ["OFST", voltage];
    assert ks[1..][1..] == ks[2..] && vs[1..][1..] == vs[2..];
  }

  lemma JoinFour(a: string, b: string, c: string, d: string)
    ensures Join([a, b, c, d], ",") == a + "," + b + "," + c + "," + d
  {
    JoinThree(b, c, d);
    assert [a, b, c, d][1..] == [b, c, d];
    assert Join([a, b, c, d], ",") == a + "," + Join([b, c, d], ",");
    assert a + "," + (b + "," + c + "," + d) == a + "," + b + "," + c + "," + d;
  }

  lemma JoinThree(a: string, b: string, c: string)
    ensures Join([a, b, c], ",") == a + "," + b + "," + c
  {
    assert [a, b, c][1..] == [b, c] && [b, c][1..] == [c];
    assert Join([b, c], ",") == b + "," + c;
    assert Join([a, b, c], ",") == a + "," + (b + "," + c);
  }

  /** Absent parameters add nothing. */
  lemma {:induction false} FieldsNone(keys: seq<string>, vals: seq<Option<string>>)
    requires |keys| == |vals| && forall v :: v in vals ==> v.None?
    ensures Fields(keys, vals) == []
    decreases |keys|
  {
    if keys != [] {
      assert vals[0] in vals;
      FieldsNone(keys[1..], vals[1..]);
    }
  }

  /** Switching modulation off writes only the state command; switching it on
      adds one command whose comma-separated parts are the type, `SRC`, the
      source and the keyword arguments in the order given. */
  lemma ModulationCommands(channel: int, state: bool, modType: string, source: string, kwargs: seq<(string, string)>)
    requires ValidChannel(channel)
    requires ',' !in modType && ',' !in source
    requires forall kv :: kv in kwargs ==> ',' !in kv.0 && ',' !in kv.1
    ensures var p := ModulationPlan(channel, state, modType, source, kwargs);
            && p.Emits? && |p.commands| == (if state then 2 else 1)
            && p.commands[0] == Command(ChannelName(channel) + ":MDWV", "STATE," + OnOff(state))
            && (state ==> SplitOn(p.commands[1].args, ',')
                          == [Upper(modType), "SRC", Upper(source)] + KeywordFields(kwargs))
  {
    if state {
      var parts := [Upper(modType), "SRC", Upper(source)] + KeywordFields(kwargs);
      UpperKeepsComma(modType);
      UpperKeepsComma(source);
      KeywordFieldsCommaFree(kwargs);
      assert CommaFree(parts);
      SplitJoin(parts, ',');
    }
  }

  /** Upper-casing neither adds nor removes commas. */
  lemma UpperKeepsComma(s: string)
    ensures ',' in Upper(s) <==> ',' in s
  {
    assert forall i :: 0 <= i < |s| ==> (Upper(s)[i] == ',' <==> s[i] == ',');
  }

  /** As written, `set_sweep(1, True, TIME=1)` writes `C1:SWWV,TIME,1`,
      which does not have the `C1:SWWV ` header-and-blank form of its own
      state command `C1:SWWV STATE,ON`. */
  lemma SweepAsWrittenMissesBlank()
    ensures var p := SwitchedPlanAsWritten(1, "SWWV", true, [("TIME", "1")]);
            && p.Emits? && |p.commands| == 2
            && Render(p.commands[0]) == "C1:SWWV STATE,ON"
            && Render(p.commands[1]) == "C1:SWWV,TIME,1"
            && !StartsWith(Render(p.commands[1]), "C1:SWWV ")
  {
    var head := ChannelName(1) + ":" + "SWWV";
    assert head == "C1:SWWV";
    TimeField();
    JoinThree(head, "TIME", "1");
    assert [head] + ["TIME", "1"] == [head, "TIME", "1"];
    assert ("C1:SWWV,TIME,1")[7] == ',';
  }

  /** The one keyword argument `TIME=1`. */
  lemma TimeField()
    ensures KeywordFields([("TIME", "1")]) == ["TIME", "1"]
  {
    assert Upper("TIME") == "TIME";
  }

  /** Corrected, the same call writes `C1:SWWV TIME,1`. */
  lemma SweepWithBlank()
    ensures var p := SwitchedPlan(1, "SWWV", true, [("TIME", "1")]);
            && p.Emits? && |p.commands| == 2
            && Render(p.commands[1]) == "C1:SWWV TIME,1"
  {
    var head := ChannelName(1) + ":" + "SWWV";
    assert head == "C1:SWWV";
    TimeField();
    assert Join(["TIME", "1"], ",") == "TIME,1";
  }

  /** Every command `set_sweep`/`set_burst` writes is the channel's header,
      a blank and comma-separated parameters; the parameter command lists
      the keyword arguments, upper-cased keys first, in the order given. */
  lemma SwitchedCommands(channel: int, keyword: string, state: bool, kwargs: seq<(string, string)>)
    requires ValidChannel(channel)
    requires forall kv :: kv in kwargs ==> ',' !in kv.0 && ',' !in kv.1
    ensures var p := SwitchedPlan(channel, keyword, state, kwargs);
            && p.Emits? && |p.commands| == (if state && kwargs != [] then 2 else 1)
            && (forall i :: 0 <= i < |p.commands| ==>
                  p.commands[i].header == ChannelName(channel) + ":" + keyword && p.commands[i].args != [])
            && p.commands[0].args == "STATE," + OnOff(state)
            && (state && kwargs != [] ==> SplitOn(p.commands[1].args, ',') == KeywordFields(kwargs))
  {
    if state && kwargs != [] {
      var parts := KeywordFields(kwargs);
      KeywordFieldsCommaFree(kwargs);
      SplitJoin(parts, ',');
      assert Join(parts, ",") != [];
    }
  }

  /** As written and corrected, `set_sweep`/`set_burst` write the same
      commands except for the character after the header of the parameter
      command: a comma as written, a blank corrected. */
  lemma SwitchedAsWrittenDiffers(channel: int, keyword: string, state: bool, kwargs: seq<(string, string)>)
    requires ValidChannel(channel) && state && kwargs != []
    ensures var written := SwitchedPlanAsWritten(channel, keyword, state, kwargs);
            var fixed := SwitchedPlan(channel, keyword, state, kwargs);
            var head := ChannelName(channel) + ":" + keyword;
            var params := Join(KeywordFields(kwargs), ",");
            && written.Emits? && fixed.Emits? && |written.commands| == |fixed.commands| == 2
            && written.commands[0] == fixed.commands[0]
            && Render(written.commands[1]) == head + "," + params
            && Render(fixed.commands[1]) == head + " " + params
  {
    var parts := KeywordFields(kwargs);
    var head := ChannelName(channel) + ":" + keyword;
    assert ([head] + parts)[1..] == parts;
    assert Join(parts, ",") != [];
  }

  /** `copy_channel` writes `PACP <dest>,<src>` when both channels are valid, and nothing otherwise. */
  lemma CopyChannelCommand(dest: int, src: int)
    ensures CopyChannelPlan(dest, src).Emits? <==> ValidChannel(dest) && ValidChannel(src)
    ensures CopyChannelPlan(dest, src).Emits? ==>
              Render(CopyChannelPlan(dest, src).commands[0]) == "PACP " + ChannelName(dest) + "," + ChannelName(src)
  {
  }

  // ---------------------------------------------------------------------
  // The driver.

  class BK4063 {
    const link: Link

    /** A driver starts with no instrument open. */
    constructor ()
      ensures fresh(link) && !link.connected && link.sent == []
    {
      link := new Link();
    }

    method EnableOutput(channel: int, enabled: bool) returns (st: Status)
      modifies link
      ensures Performed(link, EnableOutputPlan(channel, enabled), st)
    {
      st := link.Perform(EnableOutputPlan(channel, enabled));
    }

    /** `disable_all_channels`: `enable_output(ch, False)` for each channel of
        `CHANNEL_MAP`, in order. */
    method DisableAllChannels() returns (st: Status)
      modifies link
      ensures Performed(link, Emits(DisableAllCommands), st)
    {
      st := Done;
      var channel := 1;
      while channel <= 2
        invariant 1 <= channel <= 3 && st == Done
        invariant link.connected == old(link.connected) && (channel > 1 ==> link.connected)
        invariant link.sent == old(link.sent) + Written(Emits(DisableAllCommands[..channel - 1]), link.connected)
      {
        RenderAllAppend(DisableAllCommands[..channel - 1], [DisableAllCommands[channel - 1]]);
        assert DisableAllCommands[..channel] == DisableAllCommands[..channel - 1] + [DisableAllCommands[channel - 1]];
        assert ChannelName(channel) + ":OUTPut" == DisableAllCommands[channel - 1].header;
        st := EnableOutput(channel, false);
        if st != Done {
          return;
        }
        channel := channel + 1;
      }
      assert DisableAllCommands[..2] == DisableAllCommands;
    }

    method SetOutputImpedance(channel: int, load: string) returns (st: Status)
      modifies link
      ensures Performed(link, OutputImpedancePlan(channel, load), st)
    {
      st := link.Perform(OutputImpedancePlan(channel, load));
    }

    method SetSyncOutput(channel: int, enabled: bool) returns (st: Status)
      modifies link
      ensures Performed(link, SyncOutputPlan(channel, enabled), st)
    {
      st := link.Perform(SyncOutputPlan(channel, enabled));
    }

    method SetWaveform(channel: int, waveType: string, p: WaveParams) returns (st: Status)
      modifies link
      ensures Performed(link, WaveformPlan(channel, waveType, p), st)
    {
      st := link.Perform(WaveformPlan(channel, waveType, p));
    }

    /** `set_dc_output(ch, v)` is `set_waveform(ch, "DC", offset=v)`. */
    method SetDcOutput(channel: int, voltage: string) returns (st: Status)
      modifies link
      ensures Performed(link, WaveformPlan(channel, "DC", DcParams(voltage)), st)
    {
      st := SetWaveform(channel, "DC", DcParams(voltage));
    }

    method SetModulation(channel: int, state: bool, modType: string, source: string, kwargs: seq<(string, string)>)
      returns (st: Status)
      modifies link
      ensures Performed(link, ModulationPlan(channel, state, modType, source, kwargs), st)
    {
      st := link.Perform(ModulationPlan(channel, state, modType, source, kwargs));
    }

    method SetSweep(channel: int, state: bool, kwargs: seq<(string, string)>) returns (st: Status)
      modifies link
      ensures Performed(link, SwitchedPlanAsWritten(channel, "SWWV", state, kwargs), st)
    {
      st := link.Perform(SwitchedPlanAsWritten(channel, "SWWV", state, kwargs));
    }

    method SetBurst(channel: int, state: bool, kwargs: seq<(string, string)>) returns (st: Status)
      modifies link
      ensures Performed(link, SwitchedPlanAsWritten(channel, "BTWV", state, kwargs), st)
    {
      st := link.Perform(SwitchedPlanAsWritten(channel, "BTWV", state, kwargs));
    }

    method CopyChannel(dest: int, src: int) returns (st: Status)
      modifies link
      ensures Performed(link, CopyChannelPlan(dest, src), st)
    {
      st := link.Perform(CopyChannelPlan(dest, src));
    }
  }
}
