/** The HP E3631A triple power supply driver: its three outputs are named by
    string keys, and the driver's safe-off sequence, channel validation,
    default current limits and measurements are modelled here. */
module Hpe3631a {
  import opened Text
  import opened Scpi

  /** The channel keys, in the order of the driver's channel table. */
  const ChannelKeys: seq<string> :=
    ["positive_6_volts_channel", "positive_25_volts_channel", "negative_25_volts_channel"]

  /** Channel key to the output's SCPI name. */
  const ChannelMap: map<string, string> :=
    map["positive_6_volts_channel" := "P6V",
        "positive_25_volts_channel" := "P25V",
        "negative_25_volts_channel" := "N25V"]

  /** Channel key to the current limit used when none is given, as the
      driver formats it: 1 A for the +6 V output, 0.5 A for the others. */
  const DefaultCurrentLimit: map<string, string> :=
    map["positive_6_volts_channel" := "1",
        "positive_25_volts_channel" := "0.5",
        "negative_25_volts_channel" := "0.5"]

  /** `OUTPUT:STATE ON|OFF`. */
  function EnableOutputPlan(enabled: bool): Plan {
    Emits([Command("OUTPUT:STATE", OnOff(enabled))])
  }

  /** `APPLY <name>, 0.0, 0.1`: zero volts with a 0.1 A limit. */
  function SafeApply(name: string): Command {
    Command("APPLY", name + ", 0.0, 0.1")
  }

  /** `disable_all_channels`: output off first, then every output to the safe
      setting, in table order. */
  const DisableAllCommands: seq<Command> :=
    [Command("OUTPUT:STATE", "OFF")]
    + seq(|ChannelKeys|, i requires 0 <= i < |ChannelKeys| => SafeApply(ChannelMap[ChannelKeys[i]]))

  /** `INSTRUMENT:SELECT <name>`. */
  function SelectCommand(channel: string): Command
    requires channel in ChannelMap
  {
    Command("INSTRUMENT:SELECT", ChannelMap[channel])
  }

  /** `select_channel`: an unknown key raises before anything is written. */
  function SelectPlan(channel: string): Plan {
    if channel !in ChannelMap then Rejected else Emits([SelectCommand(channel)])
  }

  /** `set_output_channel`: an unknown key raises; a missing current limit
      is the channel's default. */
  function OutputChannelPlan(channel: string, voltage: string, currentLimit: Option<string>): Plan {
    if channel !in ChannelMap then Rejected
    else
      var limit := if currentLimit.Some? then currentLimit.value else DefaultCurrentLimit[channel];
      Emits([Command("APPLY", ChannelMap[channel] + ", " + voltage + ", " + limit)])
  }

  /** `set_voltage` and `set_current_limit`: `select_channel`, then
      `<header> <value>`. */
  function ChannelSettingPlan(channel: string, header: string, value: string): Plan {
    if channel !in ChannelMap then Rejected
    else Emits([SelectCommand(channel), Command(header, value)])
  }

  /** `measure_voltage` and `measure_current` (`quantity` is `VOLTAGE` or
      `CURRENT`): validate, select the output, then the measurement query. */
  function MeasurePlan(channel: string, quantity: string): Plan {
    if channel !in ChannelMap then Rejected
    else Emits([SelectCommand(channel), Command("MEASURE:" + quantity + "?", "")])
  }

  /** The number in a reply: its first whitespace-separated word converted
      by `toFloat`; `None` when the reply is blank or the word is not a
      number (`IndexError` and `ValueError`). */
  function Reading(response: string, toFloat: string -> Option<real>): Option<real> {
    var words := Words(Strip(response));
    if words == [] then None else toFloat(words[0])
  }

  /** `save_state` (`*SAV`) and `recall_state` (`*RCL`): locations 1 to 3. */
  function StatePlan(header: string, location: int): Plan {
    if location !in [1, 2, 3] then Rejected
    else Emits([Command(header, NatToString(location))])
  }

  // ---------------------------------------------------------------------
  // Properties.

  /** The table's keys are exactly the channel keys, and each has a default
      current limit. */
  lemma ChannelTables()
    ensures forall k :: k in ChannelMap <==> k in ChannelKeys
    ensures DefaultCurrentLimit.Keys == ChannelMap.Keys
  {
  }

  /** The safe-off sequence disables the output before it touches any
      setting, then sets every output, and only those, to 0 V and 0.1 A. */
  lemma DisableAllSafe()
    ensures |DisableAllCommands| == 4
    ensures DisableAllCommands[0] == Command("OUTPUT:STATE", "OFF")
    ensures DisableAllCommands[1..] == [SafeApply("P6V"), SafeApply("P25V"), SafeApply("N25V")]
    ensures forall k :: k in ChannelMap ==> SafeApply(ChannelMap[k]) in DisableAllCommands[1..]
  {
    var rest := DisableAllCommands[1..];
    assert rest[0] == SafeApply("P6V") && rest[1] == SafeApply("P25V") && rest[2] == SafeApply("N25V");
  }

  /** An unknown channel is refused before anything is written; a known one
      writes one `APPLY` with the given limit, or the default when none is
      given: 1 for the +6 V output and 0.5 for both 25 V outputs. */
  lemma OutputChannelDefaults(channel: string, voltage: string, currentLimit: Option<string>)
    ensures OutputChannelPlan(channel, voltage, currentLimit).Rejected? <==> channel !in ChannelMap
    ensures channel in ChannelMap ==>
              OutputChannelPlan(channel, voltage, currentLimit)
              == Emits([Command("APPLY", ChannelMap[channel] + ", " + voltage + ", "
                                + (if currentLimit.Some? then currentLimit.value else DefaultCurrentLimit[channel]))])
    ensures currentLimit.None? && channel == "positive_6_volts_channel" ==>
              OutputChannelPlan(channel, voltage, currentLimit) == Emits([Command("APPLY", "P6V, " + voltage + ", 1")])
    ensures currentLimit.None? && channel in ChannelMap && channel != "positive_6_volts_channel" ==>
              OutputChannelPlan(channel, voltage, currentLimit).commands[0].args[|ChannelMap[channel]| + 2 + |voltage|..] == ", 0.5"
  {
    if currentLimit.None? && channel in ChannelMap {
      var name := ChannelMap[channel];
      var args := name + ", " + voltage + ", " + DefaultCurrentLimit[channel];
      assert args == (name + ", " + voltage) + (", " + DefaultCurrentLimit[channel]);
      assert args[|name + ", " + voltage|..] == ", " + DefaultCurrentLimit[channel];
      if channel == "positive_6_volts_channel" {
        assert name == "P6V" && DefaultCurrentLimit[channel] == "1";
        assert OutputChannelPlan(channel, voltage, currentLimit) == Emits([Command("APPLY", args)]);
        assert args == "P6V" + ", " + voltage + ", " + "1";
        assert "P6V" + ", " == "P6V, " && ", " + "1" == ", 1";
        assert args == "P6V, " + voltage + ", 1";
      }
    }
  }

  /** A measurement validates the channel, then selects the output before it
      queries. */
  lemma MeasureSelectsFirst(channel: string, quantity: string)
    ensures MeasurePlan(channel, quantity).Rejected? <==> channel !in ChannelMap
    ensures channel in ChannelMap ==>
              && |MeasurePlan(channel, quantity).commands| == 2
              && MeasurePlan(channel, quantity).commands[0] == Command("INSTRUMENT:SELECT", ChannelMap[channel])
              && Render(MeasurePlan(channel, quantity).commands[1]) == "MEASURE:" + quantity + "?"
  {
  }

  /** A blank reply has no number to read. */
  lemma BlankReading(response: string, toFloat: string -> Option<real>)
    requires forall i :: 0 <= i < |response| ==> IsSpace(response[i])
    ensures Reading(response, toFloat) == None
  {
    StripBlank(response);
  }

  /** Stripping text made only of whitespace leaves nothing. */
  lemma StripBlank(s: string)
    requires forall i :: 0 <= i < |s| ==> IsSpace(s[i])
    ensures Strip(s) == []
  {
    TrimLeftBlank(s);
  }

  lemma {:induction false} TrimLeftBlank(s: string)
    requires forall i :: 0 <= i < |s| ==> IsSpace(s[i])
    ensures TrimLeft(s) == []
    decreases |s|
  {
    if s != [] {
      TrimLeftBlank(s[1..]);
    }
  }

  /** Only locations 1, 2 and 3 are accepted. */
  lemma StateLocations(header: string, location: int)
    ensures StatePlan(header, location).Emits? <==> 1 <= location <= 3
  {
  }

  // ---------------------------------------------------------------------
  // The driver.

  class HPE3631A {
    const link: Link

    /** A driver starts with no instrument open. */
    constructor ()
      ensures fresh(link) && !link.connected && link.sent == []
    {
      link := new Link();
    }

    /** `connect`: open, clear the status, then the safe-off sequence. */
    method Connect() returns (st: Status)
      modifies link
      ensures link.connected && st == Done
      ensures link.sent == old(link.sent) + ["*CLS"] + RenderAll(DisableAllCommands)
    {
      link.Open();
      st := link.Send("*CLS");
      ghost var cleared := link.sent;
      st := DisableAllChannels();
      assert link.sent == cleared + RenderAll(DisableAllCommands);
    }

    method EnableOutput(enabled: bool) returns (st: Status)
      modifies link
      ensures Performed(link, EnableOutputPlan(enabled), st)
    {
      st := link.Perform(EnableOutputPlan(enabled));
    }

    /** `disable_all_channels`: `enable_output(False)`, then one `APPLY` per
      entry of the channel table. */
    method DisableAllChannels() returns (st: Status)
      modifies link
      ensures Performed(link, Emits(DisableAllCommands), st)
    {
      st := EnableOutput(false);
      if st != Done {
        return;
      }
      assert DisableAllCommands[..1] == [Command("OUTPUT:STATE", OnOff(false))];
      var i := 0;
      while i < |ChannelKeys|
        invariant 0 <= i <= |ChannelKeys| && st == Done && link.connected == old(link.connected) && link.connected
        invariant link.sent == old(link.sent) + RenderAll(DisableAllCommands[..i + 1])
      {
        var c := SafeApply(ChannelMap[ChannelKeys[i]]);
        assert DisableAllCommands[..i + 2] == DisableAllCommands[..i + 1] + [c];
        RenderAllAppend(DisableAllCommands[..i + 1], [c]);
        st := link.Send(Render(c));
        i := i + 1;
      }
      assert DisableAllCommands[..i + 1] == DisableAllCommands;
    }

    method SelectChannel(channel: string) returns (st: Status)
      modifies link
      ensures Performed(link, SelectPlan(channel), st)
    {
      st := link.Perform(SelectPlan(channel));
    }

    method SetOutputChannel(channel: string, voltage: string, currentLimit: Option<string>) returns (st: Status)
      modifies link
      ensures Performed(link, OutputChannelPlan(channel, voltage, currentLimit), st)
    {
      st := link.Perform(OutputChannelPlan(channel, voltage, currentLimit));
    }

    /** `set_voltage` (`VOLTAGE`) and `set_current_limit` (`CURRENT`). */
    method SetChannelSetting(channel: string, header: string, value: string) returns (st: Status)
      modifies link
      ensures Performed(link, ChannelSettingPlan(channel, header, value), st)
    {
      st := SelectChannel(channel);
      if st != Done {
        return;
      }
      st := link.Perform(Emits([Command(header, value)]));
      RenderAllAppend([SelectCommand(channel)], [Command(header, value)]);
    }

    /** `measure_voltage` and `measure_current`: the plan's commands, then
      the reply read as a number; the instrument's reply and Python's
      `float` are parameters. */
    method Measure(channel: string, quantity: string, response: string, toFloat: string -> Option<real>)
      returns (st: Status, value: real)
      modifies link
      ensures link.connected == old(link.connected)
      ensures link.sent == old(link.sent) + Written(MeasurePlan(channel, quantity), link.connected)
      ensures var before := StatusOf(MeasurePlan(channel, quantity), link.connected);
              st == (if before != Done then before
                     else if Reading(response, toFloat).None? then BadReply
                     else Done)
      ensures st == Done ==> Reading(response, toFloat) == Some(value)
    {
      value := 0.0;
      if channel !in ChannelMap {
        return InvalidArgument, value;
      }
      st := SelectChannel(channel);
      if st != Done {
        return;
      }
      var reply;
      st, reply := link.Query("MEASURE:" + quantity + "?", response);
      RenderAllAppend([SelectCommand(channel)], [Command("MEASURE:" + quantity + "?", "")]);
      var words := Words(reply);
      if words == [] {
        return BadReply, value;
      }
      var number := toFloat(words[0]);
      if number.None? {
        return BadReply, value;
      }
      value := number.value;
    }

    method SaveState(location: int) returns (st: Status)
      modifies link
      ensures Performed(link, StatePlan("*SAV", location), st)
    {
      st := link.Perform(StatePlan("*SAV", location));
    }

    method RecallState(location: int) returns (st: Status)
      modifies link
      ensures Performed(link, StatePlan("*RCL", location), st)
    {
      st := link.Perform(StatePlan("*RCL", location));
    }
  }
}
