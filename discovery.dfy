/** Instrument discovery: every VISA resource is probed in turn, its
    identification string is matched against the known models, and each
    driver that connects is registered under a friendly name.

    The transport is abstract: for each resource the model is given the
    identification reply it produced (none when opening, querying or the
    serial fallbacks failed) and whether constructing and connecting its
    driver succeeds. What a driver class looks like to the shell is the
    parameter `drivers`, keyed by model. */
module Discovery {
  import opened Text
  import opened Registry

  /** The model substrings, in the declaration order of the model table. */
  const ModelKeys: seq<string> :=
    ["4063", "MSO2024", "DHO804", "E3631A", "34401A", "MPS-6010H-1C", "XDM1041", "JDS6600"]

  /** The generic name of each model. */
  const NameMap: map<string, string> :=
    map["4063" := "awg", "MSO2024" := "scope", "DHO804" := "scope", "E3631A" := "psu",
        "34401A" := "dmm", "MPS-6010H-1C" := "psu", "XDM1041" := "dmm", "JDS6600" := "awg"]

  /** The name used when the generic one is already taken. */
  const FallbackNames: map<string, string> :=
    map["4063" := "awg_bk", "MSO2024" := "scope_tek", "DHO804" := "scope_rigol", "E3631A" := "psu_hp",
        "34401A" := "dmm_hp", "MPS-6010H-1C" := "psu_matrix", "XDM1041" := "dmm_owon", "JDS6600" := "awg_jds"]

  /** One VISA resource as discovery meets it: its address, the reply to
      `*IDN?` if one came back, and whether its driver connects. */
  datatype Resource = Resource(address: string, reply: Option<string>, connects: bool)

  /** Bluetooth and other virtual serial ports are never opened. */
  predicate Skipped(address: string) {
    Contains(address, "Bluetooth") || Contains(address, "BTHENUM") || Contains(address, "BT")
  }

  /** The index of the first key of `keys` that occurs in `idn`. */
  function FirstContained(keys: seq<string>, idn: string): (r: Option<nat>)
    ensures r.Some? ==> r.value < |keys| && Contains(idn, keys[r.value])
                        && forall l :: 0 <= l < r.value ==> !Contains(idn, keys[l])
    ensures r.None? ==> forall j :: 0 <= j < |keys| ==> !Contains(idn, keys[j])
  {
    if keys == [] then None
    else if Contains(idn, keys[0]) then Some(0)
    else match FirstContained(keys[1..], idn)
      case None => None
      case Some(j) => Some(j + 1)
  }

  /** The model of an identification string: the first model key, in
      declaration order, that is a substring of it. */
  function MatchModel(idn: string): (r: Option<string>)
    ensures r.Some? ==> r.value in NameMap && r.value in FallbackNames
  {
    match FirstContained(ModelKeys, idn)
    case None => None
    case Some(j) => Some(ModelKeys[j])
  }

  /** The model a resource is identified as: none when it is skipped, gave
      no reply or a blank one, or matches no model. */
  function Identified(r: Resource): Option<string> {
    if Skipped(r.address) || r.reply.None? then None
    else
      var idn := Strip(r.reply.value);
      if idn == [] then None else MatchModel(idn)
  }

  /** `FALLBACK_NAMES.get(key, f"{name}_2")`. */
  function FallbackName(key: string): string
    requires key in NameMap
  {
    if key in FallbackNames then FallbackNames[key] else NameMap[key] + "_2"
  }

  /** The generic name, or the fallback name when the generic one is taken. */
  function NameFor(found: Registry, key: string): string
    requires key in NameMap
  {
    if NameMap[key] in Names(found) then FallbackName(key) else NameMap[key]
  }

  /** `found[name] = driver` on an insertion-ordered dictionary: a new key
      goes last, an existing key keeps its place and takes the new value. */
  function Put(reg: Registry, name: string, d: Device): (r: Registry)
    ensures Names(r) == if name in Names(reg) then Names(reg) else Names(reg) + [name]
  {
    if reg == [] then [(name, d)]
    else if reg[0].0 == name then [(name, d)] + reg[1..]
    else [reg[0]] + Put(reg[1..], name, d)
  }

  /** After `found[name] = d`, `name` looks up `d` and every other name what
      it looked up before. */
  lemma {:induction false} PutLookup(reg: Registry, name: string, d: Device, m: string)
    ensures Lookup(Put(reg, name, d), m) == if m == name then Some(d) else Lookup(reg, m)
  {
    if reg != [] && reg[0].0 != name {
      PutLookup(reg[1..], name, d, m);
    }
  }

  /** One pass of the resource loop. */
  function Step(found: Registry, r: Resource, drivers: string -> Device): Registry {
    match Identified(r)
    case None => found
    case Some(key) => if r.connects then Put(found, NameFor(found, key), drivers(key)) else found
  }

  /** The registry after the loop has seen `rs`. */
  function Scanned(rs: seq<Resource>, drivers: string -> Device): Registry {
    if rs == [] then [] else Step(Scanned(rs[..|rs| - 1], drivers), rs[|rs| - 1], drivers)
  }

  /** `scan`: nothing when the resources cannot be listed (`listing` is
      `None`), otherwise what the loop registers. */
  function ScanResult(listing: Option<seq<Resource>>, drivers: string -> Device): Registry {
    if listing.None? then [] else Scanned(listing.value, drivers)
  }

  /** The names `get` accepts: the generic names. */
  const GenericNames: set<string> := {"awg", "scope", "psu", "dmm"}

  /** The generic names are the values of the name table. */
  lemma GenericNamesValues()
    ensures GenericNames == NameMap.Values
  {
    assert NameMap["4063"] == "awg" && NameMap["MSO2024"] == "scope";
    assert NameMap["E3631A"] == "psu" && NameMap["34401A"] == "dmm";
    forall n | n in NameMap.Values ensures n in GenericNames {
      var k :| k in NameMap && NameMap[k] == n;
      assert k in NameMap.Keys;
    }
  }

  /** What `get` does: raise for a name that is not a generic one, else the
      registered driver if there is one. */
  datatype GetResult = InvalidName | Got(device: Option<Device>)

  // ---------------------------------------------------------------------
  // Properties.

  /** The first key in declaration order wins: an identification string
      holding both `E3631A` and `4063` is the BK generator's. */
  lemma MatchModelFirst(idn: string, j: nat)
    requires j < |ModelKeys| && Contains(idn, ModelKeys[j])
    ensures MatchModel(idn).Some?
    ensures forall l :: 0 <= l < |ModelKeys| && ModelKeys[l] == MatchModel(idn).value ==> l <= j
  {
    var k := FirstContained(ModelKeys, idn).value;
    assert k <= j;
    forall l | 0 <= l < |ModelKeys| && ModelKeys[l] == MatchModel(idn).value
      ensures l <= j
    {
      ModelKeysDistinct(l, k);
    }
  }

  lemma ModelKeysDistinct(l: int, k: int)
    requires 0 <= l < |ModelKeys| && 0 <= k < |ModelKeys| && ModelKeys[l] == ModelKeys[k]
    ensures l == k
  {
  }

  /** A skipped resource is never identified, whatever it would reply. */
  lemma SkippedNotProbed(r: Resource)
    requires Skipped(r.address)
    ensures Identified(r).None?
    ensures forall found, drivers :: Step(found, r, drivers) == found
  {
  }

  /** Resources that are skipped, silent, unmatched or whose driver fails to
      connect leave no trace: removing one from the list changes nothing. */
  lemma {:induction false} IgnoredResource(a: seq<Resource>, r: Resource, b: seq<Resource>, drivers: string -> Device)
    requires Identified(r).None? || !r.connects
    ensures Scanned(a + [r] + b, drivers) == Scanned(a + b, drivers)
    decreases |b|
  {
    if b == [] {
      assert (a + [r])[..|a|] == a;
      assert a + [r] + [] == a + [r] && a + [] == a;
    } else {
      var b' := b[..|b| - 1];
      var last := b[|b| - 1];
      assert (a + [r] + b)[..|a + [r] + b| - 1] == a + [r] + b';
      assert (a + b)[..|a + b| - 1] == a + b';
      IgnoredResource(a, r, b', drivers);
    }
  }

  /** A dictionary's keys are unique. */
  lemma {:induction false} ScannedUnique(rs: seq<Resource>, drivers: string -> Device)
    ensures UniqueNames(Scanned(rs, drivers))
  {
    if rs != [] {
      ScannedUnique(rs[..|rs| - 1], drivers);
      var found := Scanned(rs[..|rs| - 1], drivers);
      var r := rs[|rs| - 1];
      if Identified(r).Some? && r.connects {
        PutUnique(found, NameFor(found, Identified(r).value), drivers(Identified(r).value));
      }
    }
  }

  lemma PutUnique(reg: Registry, name: string, d: Device)
    requires UniqueNames(reg)
    ensures UniqueNames(Put(reg, name, d))
  {
    NamesUnique(reg);
    var ns := Names(Put(reg, name, d));
    assert forall i, j :: 0 <= i < j < |ns| ==> ns[i] != ns[j];
  }

  /** Every registered driver comes from a listed resource that was not
      skipped, replied, matched a model and connected; it is that model's
      driver, under the model's generic or fallback name. */
  lemma {:induction false} ScannedProvenance(rs: seq<Resource>, drivers: string -> Device)
    ensures forall e :: e in Scanned(rs, drivers) ==>
              exists r :: r in rs && Identified(r).Some? && r.connects
                          && !Skipped(r.address)
                          && e.1 == drivers(Identified(r).value)
                          && (e.0 == NameMap[Identified(r).value] || e.0 == FallbackName(Identified(r).value))
  {
    if rs != [] {
      var init := rs[..|rs| - 1];
      var last := rs[|rs| - 1];
      ScannedProvenance(init, drivers);
      var found := Scanned(init, drivers);
      forall e | e in Scanned(rs, drivers)
        ensures exists r :: r in rs && Identified(r).Some? && r.connects
                            && !Skipped(r.address)
                            && e.1 == drivers(Identified(r).value)
                            && (e.0 == NameMap[Identified(r).value] || e.0 == FallbackName(Identified(r).value))
      {
        if Identified(last).Some? && last.connects {
          var key := Identified(last).value;
          var name := NameFor(found, key);
          PutMembers(found, name, drivers(key), e);
          if e == (name, drivers(key)) {
            assert last in rs;
          } else {
            var r :| r in init && Identified(r).Some? && r.connects && !Skipped(r.address)
                     && e.1 == drivers(Identified(r).value)
                     && (e.0 == NameMap[Identified(r).value] || e.0 == FallbackName(Identified(r).value));
            assert r in rs;
          }
        } else {
          var r :| r in init && Identified(r).Some? && r.connects && !Skipped(r.address)
                   && e.1 == drivers(Identified(r).value)
                   && (e.0 == NameMap[Identified(r).value] || e.0 == FallbackName(Identified(r).value));
          assert r in rs;
        }
      }
    }
  }

  /** An entry of `Put(reg, name, d)` is the new one or an old one under
      another name. */
  lemma {:induction false} PutMembers(reg: Registry, name: string, d: Device, e: (string, Device))
    requires e in Put(reg, name, d)
    ensures e == (name, d) || e in reg
  {
    if reg != [] && reg[0].0 != name && e != reg[0] {
      assert e in Put(reg[1..], name, d);
      PutMembers(reg[1..], name, d, e);
    }
  }

  /** When the generic name is already taken, the device goes under its
      model's fallback name and the first device keeps the generic one. */
  lemma NameConflict(found: Registry, r: Resource, drivers: string -> Device)
    requires Identified(r).Some? && r.connects
    requires NameMap[Identified(r).value] in Names(found)
    ensures var key := Identified(r).value;
            && Lookup(Step(found, r, drivers), FallbackNames[key]) == Some(drivers(key))
            && Lookup(Step(found, r, drivers), NameMap[key]) == Lookup(found, NameMap[key])
  {
    var key := Identified(r).value;
    assert FallbackNames[key] != NameMap[key];
    PutLookup(found, FallbackName(key), drivers(key), FallbackNames[key]);
    PutLookup(found, FallbackName(key), drivers(key), NameMap[key]);
  }

  /** Once a generic name is registered, no later resource replaces its
      driver: later devices of that kind take fallback names. */
  lemma {:induction false} GenericNameKept(rs: seq<Resource>, i: nat, name: string, drivers: string -> Device)
    requires i <= |rs| && name in GenericNames && name in Names(Scanned(rs[..i], drivers))
    ensures Lookup(Scanned(rs, drivers), name) == Lookup(Scanned(rs[..i], drivers), name)
    decreases |rs| - i
  {
    if i < |rs| {
      var found := Scanned(rs[..i], drivers);
      var r := rs[i];
      assert rs[..i + 1][..i] == rs[..i];
      assert Scanned(rs[..i + 1], drivers) == Step(found, r, drivers);
      StepKeepsGeneric(found, r, name, drivers);
      GenericNameKept(rs, i + 1, name, drivers);
    } else {
      assert rs[..i] == rs;
    }
  }

  lemma StepKeepsGeneric(found: Registry, r: Resource, name: string, drivers: string -> Device)
    requires name in GenericNames && name in Names(found)
    ensures name in Names(Step(found, r, drivers))
    ensures Lookup(Step(found, r, drivers), name) == Lookup(found, name)
  {
    if Identified(r).Some? && r.connects {
      var key := Identified(r).value;
      FallbackNotGeneric(key);
      assert NameFor(found, key) != name;
      PutLookup(found, NameFor(found, key), drivers(key), name);
    }
  }

  /** No fallback name is a generic name. */
  lemma FallbackNotGeneric(key: string)
    requires key in NameMap
    ensures FallbackName(key) !in GenericNames
  {
    assert key in NameMap.Keys;
  }

  /** A third device of one model replaces the second: with the generic
      and the fallback name both taken, the new driver overwrites the
      fallback entry and the registry keeps its names. */
  lemma FallbackOverwritten(found: Registry, r: Resource, drivers: string -> Device)
    requires Identified(r).Some? && r.connects
    requires NameMap[Identified(r).value] in Names(found) && FallbackNames[Identified(r).value] in Names(found)
    ensures var key := Identified(r).value;
            && Names(Step(found, r, drivers)) == Names(found)
            && Lookup(Step(found, r, drivers), FallbackNames[key]) == Some(drivers(key))
  {
    var key := Identified(r).value;
    PutLookup(found, FallbackName(key), drivers(key), FallbackNames[key]);
  }

  /** A key that occurs, after none that do, is the first one. */
  lemma FirstContainedAt(keys: seq<string>, idn: string, j: nat)
    requires j < |keys| && Contains(idn, keys[j]) && forall l :: 0 <= l < j ==> !Contains(idn, keys[l])
    ensures FirstContained(keys, idn) == Some(j)
  {
  }

  // ---------------------------------------------------------------------
  // The scanner.

  class InstrumentDiscovery {
    /** The driver class each model key names, as the shell sees it. */
    const drivers: string -> Device
    var foundDevices: Registry

    constructor (drivers: string -> Device)
      ensures this.drivers == drivers && foundDevices == []
    {
      this.drivers := drivers;
      foundDevices := [];
    }

    /** `scan`: the resource loop; the registry is stored only when the
        resources could be listed. */
    method Scan(listing: Option<seq<Resource>>) returns (found: Registry)
      modifies this
      ensures found == ScanResult(listing, drivers) && UniqueNames(found)
      ensures foundDevices == if listing.None? then old(foundDevices) else found
    {
      if listing.None? {
        return [];
      }
      var rs := listing.value;
      found := [];
      var i := 0;
      while i < |rs|
        invariant 0 <= i <= |rs| && found == Scanned(rs[..i], drivers)
      {
        var r := rs[i];
        assert rs[..i + 1][..i] == rs[..i];
        if !Skipped(r.address) && r.reply.Some? {
          var idn := Strip(r.reply.value);
          if idn != [] {
            var key := MatchKey(idn);
            if key.Some? && r.connects {
              var name := NameMap[key.value];
              if name in Names(found) {
                name := FallbackName(key.value);
              }
              found := Put(found, name, drivers(key.value));
            }
          }
        }
        i := i + 1;
      }
      assert rs[..i] == rs;
      ScannedUnique(rs, drivers);
      foundDevices := found;
    }

    /** The inner loop over the model table, stopping at the first key
        found in the identification string. */
    static method MatchKey(idn: string) returns (key: Option<string>)
      ensures key == MatchModel(idn)
    {
      var j := 0;
      while j < |ModelKeys|
        invariant 0 <= j <= |ModelKeys|
        invariant forall l :: 0 <= l < j ==> !Contains(idn, ModelKeys[l])
      {
        if Contains(idn, ModelKeys[j]) {
          FirstContainedAt(ModelKeys, idn, j);
          return Some(ModelKeys[j]);
        }
        j := j + 1;
      }
      return None;
    }

    /** `get`: a name that is not a generic one raises; otherwise the
        registered driver, if any. A device registered under a fallback
        name cannot be fetched this way. */
    function Get(name: string): (r: GetResult)
      reads this
      ensures r.InvalidName? <==> name !in GenericNames
      ensures r.Got? ==> (r.device.Some? <==> name in Names(foundDevices))
      ensures r.Got? && r.device.Some? ==> (name, r.device.value) in foundDevices
    {
      if name !in GenericNames then InvalidName else Got(Lookup(foundDevices, name))
    }
  }
}
