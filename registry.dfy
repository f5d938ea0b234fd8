/** The shell's device registry: an insertion-ordered dictionary from
    device name to driver object, the resolution of a generic device type
    (`awg`, `scope`, `psu`, `dmm`) to one registered name, and the channel
    list used when a command says `all`. */
module Registry {
  import opened Text
  import Sorting

  /** The keys of a driver's `CHANNEL_MAP`; every driver keys its map either
      by channel number or by name. */
  datatype ChannelKeys = IntKeys(ints: seq<int>) | StrKeys(strs: seq<string>)

  /** The methods a driver object may or may not have; the state sweeps ask
      `hasattr` before calling. */
  datatype Capability = DisableAllChannels | EnableOutput | Stop | DisableChannel | EnableAllChannels | Reset

  /** One call the shell makes on a driver. */
  datatype Call =
    | CallDisableAll
    | CallEnableOutput(on: bool)             // enable_output(on)
    | CallEnableBoth(on: bool)               // enable_output(ch1=on, ch2=on)
    | CallEnableChannel(ch: int, on: bool)   // enable_output(ch, on)
    | CallStop
    | CallDisableChannel(ch: int)
    | CallEnableAllChannels
    | CallReset
    | CallDisconnect

  /** What the shell can observe of a driver object: its class name, the
      methods it has, its `CHANNEL_MAP` keys and `num_channels` if it has
      them, whether its `enable_output` takes `ch1`/`ch2` keywords, and the
      calls that raise on this instrument. */
  datatype Device = Device(
    className: string,
    caps: set<Capability>,
    channelMap: Option<ChannelKeys>,
    numChannels: Option<int>,
    keywordEnable: bool,
    failing: set<Call>)

  type Registry = seq<(string, Device)>

  function Names(reg: Registry): (r: seq<string>)
    ensures |r| == |reg| && forall i :: 0 <= i < |reg| ==> r[i] == reg[i].0
  {
    if reg == [] then [] else [reg[0].0] + Names(reg[1..])
  }

  /** A dictionary holds each key once. */
  predicate UniqueNames(reg: Registry) {
    forall i, j :: 0 <= i < j < |reg| ==> reg[i].0 != reg[j].0
  }

  /** `devices.get(name)`. */
  function Lookup(reg: Registry, name: string): (r: Option<Device>)
    ensures r.None? <==> name !in Names(reg)
    ensures r.Some? ==> (name, r.value) in reg
  {
    if reg == [] then None
    else if reg[0].0 == name then Some(reg[0].1)
    else Lookup(reg[1..], name)
  }

  // ---------------------------------------------------------------------
  // Device types.

  predicate AllAsciiDigits(s: string) {
    forall i :: 0 <= i < |s| ==> IsDigit(s[i])
  }

  /** `re.match(rf'^{type}\d*$', name)`: the type followed by digits only. */
  predicate MatchesType(name: string, t: string) {
    |t| <= |name| && name[..|t|] == t && AllAsciiDigits(name[|t|..])
  }

  /** `re.sub(r'\d+$', '', s)`: the text without its trailing digits. */
  function StripDigits(s: string): (r: string)
    ensures |r| <= |s| && r == s[..|r|]
    ensures AllAsciiDigits(s[|r|..])
    ensures r == [] || !IsDigit(r[|r| - 1])
  {
    if s == [] || !IsDigit(s[|s| - 1]) then s
    else
      var r := StripDigits(s[..|s| - 1]);
      assert s[..|s| - 1][..|r|] == s[..|r|];
      assert forall i :: |r| <= i < |s| - 1 ==> s[..|s| - 1][i] == s[i];
      r
  }

  /** A name always matches the type it gives once its digits are stripped. */
  lemma MatchesOwnBase(name: string)
    ensures MatchesType(name, StripDigits(name))
  {
  }

  /** The registered names that may stand for `t`, in registry order: those
      matching `t` followed by digits, and for `awg` also the older `dds`. */
  function Candidates(reg: Registry, t: string): (r: seq<string>)
    ensures forall n :: n in r <==> n in Names(reg) && (MatchesType(n, t) || (t == "awg" && n == "dds"))
  {
    var matching := Matching(Names(reg), t);
    if t == "awg" && "dds" in Names(reg) && "dds" !in matching then matching + ["dds"] else matching
  }

  function Matching(names: seq<string>, t: string): (r: seq<string>)
    ensures forall n :: n in r <==> n in names && MatchesType(n, t)
    ensures forall i :: 0 <= i < |r| ==> MatchesType(r[i], t)
  {
    if names == [] then []
    else (if MatchesType(names[0], t) then [names[0]] else []) + Matching(names[1..], t)
  }

  /** The override is in effect when it names a registered device. */
  predicate OverrideActive(reg: Registry, override: Option<string>) {
    override.Some? && override.value != [] && override.value in Names(reg)
  }

  /** `_resolve_device_type`: the override if it is registered, else the
      single candidate for the type, else nothing (none, or ambiguous). */
  function ResolveDeviceType(reg: Registry, override: Option<string>, t: string): (r: Option<string>)
    ensures r.Some? ==> r.value in Names(reg)
    ensures OverrideActive(reg, override) ==> r == override
    ensures !OverrideActive(reg, override) ==> (r.Some? <==> |Candidates(reg, t)| == 1)
  {
    if OverrideActive(reg, override) then override
    else
      var c := Candidates(reg, t);
      if |c| == 1 then Some(c[0]) else None
  }

  /** With no override, a type resolves to a name exactly when that name is
      the only registered device of the type. */
  lemma ResolveUnique(reg: Registry, t: string, n: string)
    requires UniqueNames(reg)
    requires n in Names(reg) && (MatchesType(n, t) || (t == "awg" && n == "dds"))
    ensures ResolveDeviceType(reg, None, t) == Some(n)
        <==> forall m :: m in Names(reg) && (MatchesType(m, t) || (t == "awg" && m == "dds")) ==> m == n
  {
    var c := Candidates(reg, t);
    CandidatesUnique(reg, t);
    assert n in c;
    if forall m :: m in Names(reg) && (MatchesType(m, t) || (t == "awg" && m == "dds")) ==> m == n {
      assert forall m :: m in c ==> m == n;
      assert forall i :: 0 <= i < |c| ==> c[i] == n;
      FirstTwoDistinct(c);
    }
  }

  lemma FirstTwoDistinct(c: seq<string>)
    requires forall i, j :: 0 <= i < j < |c| ==> c[i] != c[j]
    ensures |c| > 1 ==> c[0] != c[1]
  {
  }

  /** The candidate list repeats no name. */
  lemma CandidatesUnique(reg: Registry, t: string)
    requires UniqueNames(reg)
    ensures forall i, j :: 0 <= i < j < |Candidates(reg, t)| ==> Candidates(reg, t)[i] != Candidates(reg, t)[j]
  {
    NamesUnique(reg);
    MatchingUnique(Names(reg), t);
  }

  lemma NamesUnique(reg: Registry)
    requires UniqueNames(reg)
    ensures forall i, j :: 0 <= i < j < |Names(reg)| ==> Names(reg)[i] != Names(reg)[j]
  {
  }

  lemma {:induction false} MatchingUnique(names: seq<string>, t: string)
    requires forall i, j :: 0 <= i < j < |names| ==> names[i] != names[j]
    ensures forall i, j :: 0 <= i < j < |Matching(names, t)| ==> Matching(names, t)[i] != Matching(names, t)[j]
  {
    if names != [] {
      MatchingUnique(names[1..], t);
      assert names[0] !in names[1..];
    }
  }

  // ---------------------------------------------------------------------
  // Channels for `all`.

  /** The channel list `all` stands for, as the words that replace it. */
  function ChannelsForDevice(dev: Device, baseType: string): (r: Option<seq<string>>)
  {
    match dev.channelMap
    case Some(IntKeys(keys)) =>
      Sorting.IntLeqTotal();
      Some(IntWords(Sorting.Sort(keys, Sorting.IntLeq)))
    case Some(StrKeys(keys)) =>
      Sorting.StrLeqTotal();
      Some(Sorting.Sort(keys, Sorting.StrLeq))
    case None =>
      if baseType == "scope" then
        var n := if dev.numChannels.Some? then dev.numChannels.value else 4;
        Some(IntWords(Range(1, n + 1)))
      else if baseType == "psu" then
        Some(if Contains(dev.className, "E3631A") then ["1", "2", "3"] else ["1"])
      else if Contains(dev.className, "JDS6600") then Some(["1", "2"])
      else None
  }

  /** `range(lo, hi)`. */
  function Range(lo: int, hi: int): (r: seq<int>)
    ensures |r| == if hi <= lo then 0 else hi - lo
    ensures forall i :: 0 <= i < |r| ==> r[i] == lo + i
    decreases hi - lo
  {
    if hi <= lo then [] else [lo] + Range(lo + 1, hi)
  }

  function IntWords(xs: seq<int>): (r: seq<string>)
    ensures |r| == |xs| && forall i :: 0 <= i < |xs| ==> r[i] == IntToString(xs[i])
  {
    if xs == [] then [] else [IntToString(xs[0])] + IntWords(xs[1..])
  }

  /** A driver with a channel map fans out over its keys, each once, in
      ascending order. */
  lemma ChannelMapSorted(dev: Device, baseType: string)
    requires dev.channelMap.Some? && dev.channelMap.value.StrKeys?
    ensures ChannelsForDevice(dev, baseType).Some?
    ensures Sorting.Sorted(ChannelsForDevice(dev, baseType).value, Sorting.StrLeq)
    ensures multiset(ChannelsForDevice(dev, baseType).value) == multiset(dev.channelMap.value.strs)
  {
  }

  /** A driver whose channel map has integer keys fans out over those keys,
      each once, in ascending numeric order, written as decimal words. */
  lemma IntChannelMapSorted(dev: Device, baseType: string)
    requires dev.channelMap.Some? && dev.channelMap.value.IntKeys?
    ensures exists s :: ChannelsForDevice(dev, baseType) == Some(IntWords(s))
                        && Sorting.Sorted(s, Sorting.IntLeq) && multiset(s) == multiset(dev.channelMap.value.ints)
  {
    Sorting.IntLeqTotal();
    var s := Sorting.Sort(dev.channelMap.value.ints, Sorting.IntLeq);
    assert ChannelsForDevice(dev, baseType) == Some(IntWords(s));
  }

  /** A scope without a channel map fans out over 1..`num_channels`, and
      over nothing when that is below 1. */
  lemma ScopeChannels(dev: Device)
    requires dev.channelMap.None?
    ensures var n := if dev.numChannels.Some? then dev.numChannels.value else 4;
            ChannelsForDevice(dev, "scope") == Some(IntWords(Range(1, n + 1)))
            && |ChannelsForDevice(dev, "scope").value| == (if n < 1 then 0 else n)
  {
  }

  /** The device an `all` command addresses: the override, else the device
      named by the command word, else the first registered device of the
      base type, else (for `awg`) the `dds` device. */
  function FanOutDevice(reg: Registry, override: Option<string>, cmdToken: string, baseType: string): (r: Option<Device>)
    ensures r.Some? ==> exists n :: (n, r.value) in reg
  {
    if OverrideActive(reg, override) then Lookup(reg, override.value)
    else if cmdToken in Names(reg) then Lookup(reg, cmdToken)
    else
      match FirstMatching(reg, baseType)
      case Some(d) => Some(d)
      case None => if baseType == "awg" && "dds" in Names(reg) then Lookup(reg, "dds") else None
  }

  function FirstMatching(reg: Registry, t: string): (r: Option<Device>)
    ensures r.Some? <==> Matching(Names(reg), t) != []
    ensures r.Some? ==> Lookup(reg, Matching(Names(reg), t)[0]) == r
  {
    if reg == [] then None
    else if MatchesType(reg[0].0, t) then Some(reg[0].1)
    else FirstMatching(reg[1..], t)
  }
}
