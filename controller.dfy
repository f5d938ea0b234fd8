/** The state controller: the `all safe|off|on|reset` sweeps and the
    disconnect sweep of `close`. Each sweep visits the registered devices in
    order, picks the calls for a device from its name prefix and the methods
    it has, and isolates failures: an exception ends that device's turn and
    is reported against its name, and the sweep goes on with the next one. */
module Controller {
  import opened Text
  import opened Registry

  /** The sweeps; the `Legacy` ones are the older shell's `safe`, `off` and
      `on`, which know only the exact names `awg`, `dds` and `scope`. */
  datatype Sweep =
    | SafeSweep | LegacySafeSweep | OffSweep | LegacyOffSweep | OnSweep | LegacyOnSweep
    | ResetSweep | DisconnectSweep

  /** How a call on a driver ends. */
  datatype Outcome = Returned | TypeErr | Raised

  /** The method a call needs; `disconnect` every driver has. */
  function Needs(c: Call): Option<Capability> {
    match c
    case CallDisableAll => Some(DisableAllChannels)
    case CallEnableOutput(_) => Some(EnableOutput)
    case CallEnableBoth(_) => Some(EnableOutput)
    case CallEnableChannel(_, _) => Some(EnableOutput)
    case CallStop => Some(Stop)
    case CallDisableChannel(_) => Some(DisableChannel)
    case CallEnableAllChannels => Some(EnableAllChannels)
    case CallReset => Some(Reset)
    case CallDisconnect => None
  }

  /** A missing method raises `AttributeError`, keyword arguments the
      driver does not take raise `TypeError`, and a call the instrument
      fails raises. */
  function Invoke(dev: Device, c: Call): Outcome {
    if Needs(c).Some? && Needs(c).value !in dev.caps then Raised
    else if c.CallEnableBoth? && !dev.keywordEnable then TypeErr
    else if c in dev.failing then Raised
    else Returned
  }

  /** The calls made on one device, in order, and whether its turn ended
      without an exception. */
  datatype DeviceRun = DeviceRun(calls: seq<Call>, ok: bool)

  function Single(dev: Device, c: Call): (r: DeviceRun)
    ensures r.calls == [c]
  {
    DeviceRun([c], Invoke(dev, c) == Returned)
  }

  /** `a` then `b`, unless `a` raised. */
  function Chain(a: DeviceRun, b: DeviceRun): (r: DeviceRun)
    ensures r.ok <==> a.ok && b.ok
    ensures a.ok ==> r.calls == a.calls + b.calls
    ensures !a.ok ==> r == a
  {
    if a.ok then DeviceRun(a.calls + b.calls, b.ok) else a
  }

  const Nothing := DeviceRun([], true)

  /** `disable_channel(ch)` for each channel, each failure swallowed. */
  function DisableEach(channels: seq<int>): (r: DeviceRun)
    ensures r.ok && |r.calls| == |channels|
    ensures forall i :: 0 <= i < |channels| ==> r.calls[i] == CallDisableChannel(channels[i])
  {
    if channels == [] then Nothing
    else DeviceRun([CallDisableChannel(channels[0])] + DisableEach(channels[1..]).calls, true)
  }

  predicate IsAwgName(name: string) { StartsWith(name, "awg") || name == "dds" }

  /** The scope branch shared by `safe` and `off`: stop acquisition if it
      can, then disable all channels, or each of channels 1-4. */
  function ScopeQuiet(dev: Device): DeviceRun {
    var stop := if Stop in dev.caps then Single(dev, CallStop) else Nothing;
    var disable :=
      if DisableAllChannels in dev.caps then Single(dev, CallDisableAll)
      else if DisableChannel in dev.caps then DisableEach(Range(1, 5))
      else Nothing;
    Chain(stop, disable)
  }

  /** `disable_channel(ch)` for each channel with no guard of its own: the
      first failure ends the device's turn. */
  function DisableInTurn(dev: Device, channels: seq<int>): (r: DeviceRun)
    ensures |r.calls| <= |channels|
    ensures forall i :: 0 <= i < |r.calls| ==> r.calls[i] == CallDisableChannel(channels[i])
  {
    if channels == [] then Nothing
    else Chain(Single(dev, CallDisableChannel(channels[0])), DisableInTurn(dev, channels[1..]))
  }

  /** The older shell's scope branch of `off`: stop acquisition if it can,
      then disable all channels, or channels 1-4 one after the other. */
  function LegacyScopeOff(dev: Device): DeviceRun {
    var stop := if Stop in dev.caps then Single(dev, CallStop) else Nothing;
    var disable :=
      if DisableAllChannels in dev.caps then Single(dev, CallDisableAll)
      else if DisableChannel in dev.caps then DisableInTurn(dev, Range(1, 5))
      else Nothing;
    Chain(stop, disable)
  }

  /** The awg branch shared by `safe` and `off`. */
  function AwgQuiet(dev: Device): DeviceRun {
    if DisableAllChannels in dev.caps then Single(dev, CallDisableAll)
    else if EnableOutput in dev.caps then Single(dev, CallEnableBoth(false))
    else Nothing
  }

  /** The psu branch of `safe`. */
  function PsuSafe(dev: Device): DeviceRun {
    if DisableAllChannels in dev.caps then Single(dev, CallDisableAll)
    else if EnableOutput in dev.caps then Single(dev, CallEnableOutput(false))
    else Nothing
  }

  /** The older shell's awg branch of `off`: both outputs off by keyword
      first, `disable_all_channels` only without `enable_output`. */
  function LegacyAwgOff(dev: Device): DeviceRun {
    if EnableOutput in dev.caps then Single(dev, CallEnableBoth(false))
    else if DisableAllChannels in dev.caps then Single(dev, CallDisableAll)
    else Nothing
  }

  /** The psu branch of `off` and `on`. */
  function PsuOutput(dev: Device, on: bool): DeviceRun {
    if EnableOutput in dev.caps then Single(dev, CallEnableOutput(on)) else Nothing
  }

  /** The awg branch of `on`: both outputs by keyword, or, when the driver
      does not take the keywords, channel 1 and then channel 2. */
  function AwgOn(dev: Device): DeviceRun {
    if EnableOutput !in dev.caps then Nothing
    else
      var both := Single(dev, CallEnableBoth(true));
      if Invoke(dev, CallEnableBoth(true)) == TypeErr then
        Chain(DeviceRun(both.calls, true),
              Chain(Single(dev, CallEnableChannel(1, true)), Single(dev, CallEnableChannel(2, true))))
      else both
  }

  /** The scope branch of `on`. */
  function ScopeOn(dev: Device): DeviceRun {
    if EnableAllChannels in dev.caps then Single(dev, CallEnableAllChannels) else Nothing
  }

  function DmmReset(dev: Device): DeviceRun {
    if Reset in dev.caps then Single(dev, CallReset) else Nothing
  }

  /** One device's turn in a sweep. */
  function Visit(sweep: Sweep, name: string, dev: Device): (r: DeviceRun)
    ensures |r.calls| <= 5
  {
    match sweep
    case SafeSweep =>
      if StartsWith(name, "psu") then PsuSafe(dev)
      else if IsAwgName(name) then AwgQuiet(dev)
      else if StartsWith(name, "scope") then ScopeQuiet(dev)
      else if StartsWith(name, "dmm") then DmmReset(dev)
      else Nothing
    case LegacySafeSweep =>
      if StartsWith(name, "psu") then PsuSafe(dev)
      else if name == "awg" || name == "dds" then AwgQuiet(dev)
      else if name == "scope" then ScopeQuiet(dev)
      else if StartsWith(name, "dmm") then DmmReset(dev)
      else Nothing
    case OffSweep =>
      if StartsWith(name, "psu") then PsuOutput(dev, false)
      else if IsAwgName(name) then AwgQuiet(dev)
      else if StartsWith(name, "scope") then ScopeQuiet(dev)
      else if StartsWith(name, "dmm") then DmmReset(dev)
      else Nothing
    case LegacyOffSweep =>
      if StartsWith(name, "psu") then PsuOutput(dev, false)
      else if name == "awg" || name == "dds" then LegacyAwgOff(dev)
      else if name == "scope" then LegacyScopeOff(dev)
      else if StartsWith(name, "dmm") then DmmReset(dev)
      else Nothing
    case OnSweep =>
      if StartsWith(name, "psu") then PsuOutput(dev, true)
      else if IsAwgName(name) then AwgOn(dev)
      else if StartsWith(name, "scope") then ScopeOn(dev)
      else Nothing
    case LegacyOnSweep =>
      if StartsWith(name, "psu") then PsuOutput(dev, true)
      else if name == "awg" || name == "dds" then AwgOn(dev)
      else if name == "scope" then ScopeOn(dev)
      else Nothing
    case ResetSweep => Single(dev, CallReset)
    case DisconnectSweep => Single(dev, CallDisconnect)
  }

  /** What the shell reports for one device. */
  datatype Report = Report(name: string, ok: bool)

  /** The calls of a whole sweep, each tagged with its device. */
  function SweepCalls(sweep: Sweep, reg: Registry): seq<(string, Call)>
  {
    if reg == [] then []
    else Tag(reg[0].0, Visit(sweep, reg[0].0, reg[0].1).calls) + SweepCalls(sweep, reg[1..])
  }

  function Tag(name: string, calls: seq<Call>): (r: seq<(string, Call)>)
    ensures |r| == |calls| && forall i :: 0 <= i < |calls| ==> r[i] == (name, calls[i])
  {
    if calls == [] then [] else [(name, calls[0])] + Tag(name, calls[1..])
  }

  /** One report per registered device, in registry order; whether a device
      failed depends on that device alone. */
  function SweepReports(sweep: Sweep, reg: Registry): (r: seq<Report>)
    ensures |r| == |reg|
    ensures forall i :: 0 <= i < |reg| ==> r[i] == Report(reg[i].0, Visit(sweep, reg[i].0, reg[i].1).ok)
  {
    if reg == [] then [] else [Report(reg[0].0, Visit(sweep, reg[0].0, reg[0].1).ok)] + SweepReports(sweep, reg[1..])
  }

  // ---------------------------------------------------------------------
  // Properties.

  /** Sweeping two registries one after the other is sweeping their union:
      no device's failure reaches the devices after it. */
  lemma {:induction false} SweepCallsAppend(sweep: Sweep, r1: Registry, r2: Registry)
    ensures SweepCalls(sweep, r1 + r2) == SweepCalls(sweep, r1) + SweepCalls(sweep, r2)
  {
    if r1 != [] {
      assert r1 + r2 == [r1[0]] + (r1[1..] + r2);
      SweepCallsCons(sweep, r1 + r2, r1[0], r1[1..] + r2);
      assert r1 == [r1[0]] + r1[1..];
      SweepCallsCons(sweep, r1, r1[0], r1[1..]);
      SweepCallsAppend(sweep, r1[1..], r2);
    } else {
      assert r1 + r2 == r2;
    }
  }

  /** `SweepCalls` on a registry whose first entry is `d`, one level unfolded. */
  lemma SweepCallsCons(sweep: Sweep, reg: Registry, d: (string, Device), rest: Registry)
    requires reg == [d] + rest
    ensures SweepCalls(sweep, reg) == Tag(d.0, Visit(sweep, d.0, d.1).calls) + SweepCalls(sweep, rest)
  {
    assert reg[0] == d && reg[1..] == rest;
  }

  /** A call that can switch an output on. */
  predicate TurnsOn(c: Call) {
    match c
    case CallEnableOutput(on) => on
    case CallEnableBoth(on) => on
    case CallEnableChannel(_, on) => on
    case CallEnableAllChannels => true
    case _ => false
  }

  /** A turn that switches nothing on. */
  predicate Quiet(r: DeviceRun) {
    forall c :: c in r.calls ==> !TurnsOn(c)
  }

  /** The per-channel disables switch nothing on. */
  lemma QuietDisables(dev: Device)
    ensures Quiet(DisableEach(Range(1, 5))) && Quiet(DisableInTurn(dev, Range(1, 5)))
  {
    assert forall c :: c in DisableEach(Range(1, 5)).calls ==> c.CallDisableChannel?;
    assert forall c :: c in DisableInTurn(dev, Range(1, 5)).calls ==> c.CallDisableChannel?;
  }

  lemma QuietBranches(dev: Device)
    ensures Quiet(PsuSafe(dev)) && Quiet(AwgQuiet(dev)) && Quiet(ScopeQuiet(dev)) && Quiet(DmmReset(dev))
    ensures Quiet(LegacyAwgOff(dev)) && Quiet(LegacyScopeOff(dev))
    ensures Quiet(Nothing) && Quiet(PsuOutput(dev, false))
  {
    QuietDisables(dev);
  }

  /** One device's turn in `safe` or `off` switches nothing on. */
  lemma VisitQuiet(sweep: Sweep, name: string, dev: Device)
    requires sweep in {SafeSweep, LegacySafeSweep, OffSweep, LegacyOffSweep}
    ensures Quiet(Visit(sweep, name, dev))
  {
    QuietBranches(dev);
    if sweep == SafeSweep || sweep == LegacySafeSweep {
      SafeVisitQuiet(sweep, name, dev);
    } else {
      OffVisitQuiet(sweep, name, dev);
    }
  }

  lemma SafeVisitQuiet(sweep: Sweep, name: string, dev: Device)
    requires sweep == SafeSweep || sweep == LegacySafeSweep
    requires Quiet(PsuSafe(dev)) && Quiet(AwgQuiet(dev)) && Quiet(ScopeQuiet(dev)) && Quiet(DmmReset(dev)) && Quiet(Nothing)
    ensures Quiet(Visit(sweep, name, dev))
  {
  }

  lemma OffVisitQuiet(sweep: Sweep, name: string, dev: Device)
    requires sweep == OffSweep || sweep == LegacyOffSweep
    requires Quiet(PsuOutput(dev, false)) && Quiet(AwgQuiet(dev)) && Quiet(ScopeQuiet(dev)) && Quiet(DmmReset(dev))
    requires Quiet(LegacyAwgOff(dev)) && Quiet(LegacyScopeOff(dev)) && Quiet(Nothing)
    ensures Quiet(Visit(sweep, name, dev))
  {
  }

  /** Neither `safe` nor `off`, in either shell, ever switches anything on. */
  lemma {:induction false} QuietSweepsNeverEnable(sweep: Sweep, reg: Registry)
    requires sweep in {SafeSweep, LegacySafeSweep, OffSweep, LegacyOffSweep}
    ensures forall i :: 0 <= i < |SweepCalls(sweep, reg)| ==> !TurnsOn(SweepCalls(sweep, reg)[i].1)
  {
    if reg != [] {
      QuietSweepsNeverEnable(sweep, reg[1..]);
      VisitQuiet(sweep, reg[0].0, reg[0].1);
      QuietTagged(reg[0].0, Visit(sweep, reg[0].0, reg[0].1).calls, SweepCalls(sweep, reg[1..]));
    }
  }

  /** A quiet device's tagged calls ahead of quiet calls are quiet. */
  lemma QuietTagged(name: string, calls: seq<Call>, rest: seq<(string, Call)>)
    requires forall c :: c in calls ==> !TurnsOn(c)
    requires forall i :: 0 <= i < |rest| ==> !TurnsOn(rest[i].1)
    ensures forall i :: 0 <= i < |Tag(name, calls) + rest| ==> !TurnsOn((Tag(name, calls) + rest)[i].1)
  {
    var t := Tag(name, calls);
    forall i | 0 <= i < |t + rest| ensures !TurnsOn((t + rest)[i].1) {
      if i < |t| {
        assert (t + rest)[i] == t[i];
        assert calls[i] in calls;
      } else {
        assert (t + rest)[i] == rest[i - |t|];
      }
    }
  }

  /** `on`, in either shell, never disables, stops or resets anything. */
  lemma OnSweepOnlyEnables(sweep: Sweep, name: string, dev: Device)
    requires sweep == OnSweep || sweep == LegacyOnSweep
    ensures forall c :: c in Visit(sweep, name, dev).calls ==> TurnsOn(c)
  {
  }

  /** A scope with only `disable_channel` ends its turn successfully even
      when every one of those calls fails, after trying channels 1 to 4. */
  lemma ScopeDisableFailuresSwallowed(sweep: Sweep, name: string, dev: Device)
    requires sweep == SafeSweep || sweep == OffSweep
    requires StartsWith(name, "scope") && !StartsWith(name, "psu") && !IsAwgName(name)
    requires Stop !in dev.caps && DisableAllChannels !in dev.caps && DisableChannel in dev.caps
    ensures Visit(sweep, name, dev)
         == DeviceRun([CallDisableChannel(1), CallDisableChannel(2), CallDisableChannel(3), CallDisableChannel(4)], true)
  {
    var r := DisableEach(Range(1, 5));
    assert r.calls == [CallDisableChannel(1), CallDisableChannel(2), CallDisableChannel(3), CallDisableChannel(4)];
  }

  /** `DisableInTurn` succeeds exactly when every channel's disable does,
      tries them all then, and otherwise stops at the one that failed. */
  lemma {:induction false} DisableInTurnOutcome(dev: Device, channels: seq<int>)
    ensures DisableInTurn(dev, channels).ok
        <==> forall i :: 0 <= i < |channels| ==> Invoke(dev, CallDisableChannel(channels[i])) == Returned
    ensures DisableInTurn(dev, channels).ok ==> |DisableInTurn(dev, channels).calls| == |channels|
    ensures !DisableInTurn(dev, channels).ok ==>
              var calls := DisableInTurn(dev, channels).calls;
              calls != [] && Invoke(dev, calls[|calls| - 1]) != Returned
  {
    if channels != [] {
      DisableInTurnOutcome(dev, channels[1..]);
      assert forall i :: 1 <= i < |channels| ==> channels[1..][i - 1] == channels[i];
    }
  }

  /** In the older shell's `off` the same scope fails as soon as one channel
      does: the channels after it are left as they were, and the scope is
      reported failed; the current shell's `off` reports it done. */
  lemma LegacyScopeDisableStops(dev: Device)
    requires Stop !in dev.caps && DisableAllChannels !in dev.caps && DisableChannel in dev.caps
    ensures Visit(LegacyOffSweep, "scope", dev).ok
        <==> forall ch :: 1 <= ch <= 4 ==> CallDisableChannel(ch) !in dev.failing
    ensures CallDisableChannel(1) in dev.failing ==> Visit(LegacyOffSweep, "scope", dev) == DeviceRun([CallDisableChannel(1)], false)
    ensures Visit(OffSweep, "scope", dev).ok
  {
    LegacyScopeOffIsDisableInTurn(dev);
    DisableInTurnFour(dev);
    ScopeDisableFailuresSwallowed(OffSweep, "scope", dev);
  }

  /** `DisableInTurn` over channels 1-4 on a device that has `disable_channel`. */
  lemma DisableInTurnFour(dev: Device)
    requires DisableChannel in dev.caps
    ensures DisableInTurn(dev, Range(1, 5)).ok
        <==> forall ch :: 1 <= ch <= 4 ==> CallDisableChannel(ch) !in dev.failing
    ensures CallDisableChannel(1) in dev.failing ==> DisableInTurn(dev, Range(1, 5)) == DeviceRun([CallDisableChannel(1)], false)
  {
    var chans := Range(1, 5);
    var r := DisableInTurn(dev, chans);
    DisableInTurnOutcome(dev, chans);
    assert chans[0] == 1 && chans[1] == 2 && chans[2] == 3 && chans[3] == 4;
    assert r.ok <==> (CallDisableChannel(1) !in dev.failing && CallDisableChannel(2) !in dev.failing
                      && CallDisableChannel(3) !in dev.failing && CallDisableChannel(4) !in dev.failing);
    if CallDisableChannel(1) in dev.failing {
      assert r == Chain(Single(dev, CallDisableChannel(1)), DisableInTurn(dev, chans[1..]));
    }
  }

  /** The older shell's `off` on a scope with only `disable_channel`. */
  lemma LegacyScopeOffIsDisableInTurn(dev: Device)
    requires Stop !in dev.caps && DisableAllChannels !in dev.caps && DisableChannel in dev.caps
    ensures Visit(LegacyOffSweep, "scope", dev) == DisableInTurn(dev, Range(1, 5))
  {
    assert "scope"[0] == 's' && "psu"[0] == 'p' && "dmm"[0] == 'd';
    assert [] + DisableInTurn(dev, Range(1, 5)).calls == DisableInTurn(dev, Range(1, 5)).calls;
  }

  /** A scope whose `stop` fails is left without its channels disabled, and
      that is reported as its failure, in both shells. */
  lemma ScopeStopFailureStopsTurn(sweep: Sweep, name: string, dev: Device)
    requires ((sweep == SafeSweep || sweep == OffSweep) && StartsWith(name, "scope"))
          || ((sweep == LegacySafeSweep || sweep == LegacyOffSweep) && name == "scope")
    requires !StartsWith(name, "psu") && !IsAwgName(name)
    requires Stop in dev.caps && CallStop in dev.failing
    ensures Visit(sweep, name, dev) == DeviceRun([CallStop], false)
  {
  }

  /** The older shell's `off` turns an awg's outputs off by keyword even when
      it has `disable_all_channels`, which the current shell prefers; a
      driver without the keywords then fails its turn. */
  lemma LegacyAwgOffOrder(name: string, dev: Device)
    requires name == "awg" || name == "dds"
    requires EnableOutput in dev.caps && DisableAllChannels in dev.caps
    ensures Visit(LegacyOffSweep, name, dev).calls == [CallEnableBoth(false)]
    ensures Visit(OffSweep, name, dev).calls == [CallDisableAll]
    ensures Visit(LegacyOffSweep, name, dev).ok <==> dev.keywordEnable && CallEnableBoth(false) !in dev.failing
  {
    assert "psu"[0] == 'p' && "awg"[0] == 'a' && "dds"[0] == 'd' && "awg"[..3] == "awg";
  }

  /** An awg whose `enable_output` takes no `ch1`/`ch2` keywords is switched
      on channel by channel instead, in both shells. */
  lemma AwgOnFallback(sweep: Sweep, name: string, dev: Device)
    requires (sweep == OnSweep && IsAwgName(name)) || (sweep == LegacyOnSweep && (name == "awg" || name == "dds"))
    requires !StartsWith(name, "psu")
    requires EnableOutput in dev.caps && !dev.keywordEnable
    ensures Visit(sweep, name, dev).calls
         == [CallEnableBoth(true), CallEnableChannel(1, true), CallEnableChannel(2, true)]
            || Visit(sweep, name, dev).calls == [CallEnableBoth(true), CallEnableChannel(1, true)]
    ensures Visit(sweep, name, dev).ok
        <==> CallEnableChannel(1, true) !in dev.failing && CallEnableChannel(2, true) !in dev.failing
  {
  }

  /** `reset` succeeds on a device exactly when it has a working `reset`. */
  lemma ResetOutcome(name: string, dev: Device)
    ensures Visit(ResetSweep, name, dev).ok <==> Reset in dev.caps && CallReset !in dev.failing
  {
  }

  /** The older shell's `safe`, `off` and `on` leave numbered awgs and
      scopes alone; the current ones handle them. */
  lemma LegacySweepsSkipNumbered(dev: Device)
    requires DisableAllChannels in dev.caps && EnableAllChannels in dev.caps
    ensures Visit(LegacySafeSweep, "awg1", dev).calls == []
    ensures Visit(SafeSweep, "awg1", dev).calls == [CallDisableAll]
    ensures Visit(LegacyOffSweep, "awg1", dev).calls == []
    ensures Visit(OffSweep, "awg1", dev).calls == [CallDisableAll]
    ensures Visit(LegacySafeSweep, "scope2", dev).calls == []
    ensures Visit(SafeSweep, "scope2", dev).calls != []
    ensures Visit(LegacyOnSweep, "scope2", dev).calls == []
    ensures Visit(OnSweep, "scope2", dev).calls == [CallEnableAllChannels]
  {
    assert StartsWith("awg1", "awg") && !StartsWith("awg1", "psu");
    assert StartsWith("scope2", "scope") && !StartsWith("scope2", "psu") && !StartsWith("scope2", "awg");
    assert !StartsWith("awg1", "dmm") && !StartsWith("scope2", "dmm");
    assert "awg1" != "awg" && "awg1" != "dds" && |"scope2"| != |"scope"|;
  }
}
