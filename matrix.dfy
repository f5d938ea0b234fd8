/** The MATRIX MPS-6010H single-channel power supply driver. The supply
    cannot be asked for its settings, so the driver keeps the last voltage,
    current limit and output state it wrote and reports those. Setpoints are
    `real`s: the exact value of the caller's floating-point number. */
module Matrix {
  import opened Text
  import opened Scpi

  const MaxVoltage: real := 60.0
  const MaxCurrent: real := 10.0

  // ---------------------------------------------------------------------
  // Formatting with `:.3f`.

  /** The integer nearest `x`, ties to the even one, as Python's formatting
      rounds a value exactly halfway between two outputs. */
  function RoundHalfEven(x: real): (n: int)
    ensures x - 0.5 <= n as real <= x + 0.5
    ensures n as real - x == 0.5 || x - n as real == 0.5 ==> n % 2 == 0
  {
    var f := x.Floor;
    var d := x - f as real;
    if d < 0.5 then f else if d > 0.5 then f + 1 else if f % 2 == 0 then f else f + 1
  }

  /** The value in thousandths, as `:.3f` rounds it. */
  function Millis(v: real): int {
    RoundHalfEven(v * 1000.0)
  }

  /** Three digits for a number below 1000, with leading zeros. */
  function ThreeDigits(n: int): (r: string)
    requires 0 <= n < 1000
    ensures |r| == 3 && AllDigits(r) && DigitsValue(r) == n
  {
    var a, b, c := n / 100, n / 10 % 10, n % 10;
    var r := [DigitChar(a), DigitChar(b), DigitChar(c)];
    assert r[..1][..0] == [] && r[..2][..1] == r[..1] && r[..2] == [DigitChar(a), DigitChar(b)];
    assert DigitsValue(r[..1]) == a;
    assert DigitsValue(r[..2]) == a * 10 + b;
    assert n / 10 == a * 10 + b && n == n / 10 * 10 + c;
    r
  }

  /** Python's `f"{v:.3f}"` for a value that is not negative. */
  function Fixed3(v: real): string
    requires v >= 0.0
  {
    var m := Millis(v);
    NatToString(m / 1000) + "." + ThreeDigits(m % 1000)
  }

  /** The text `:.3f` gives is whole digits, a point and three decimals that
      read back as the value in thousandths, which lies within half a
      thousandth of the value. */
  lemma Fixed3Reads(v: real)
    requires v >= 0.0
    ensures var r := Fixed3(v);
            var k := |r| - 4;
            && k >= 1 && r[k] == '.' && AllDigits(r[..k]) && AllDigits(r[k + 1..])
            && DigitsValue(r[..k]) * 1000 + DigitsValue(r[k + 1..]) == Millis(v)
            && v * 1000.0 - 0.5 <= Millis(v) as real <= v * 1000.0 + 0.5
  {
    var m := Millis(v);
    var whole := NatToString(m / 1000);
    NatToStringDigits(m / 1000);
    var r := whole + "." + ThreeDigits(m % 1000);
    assert r[..|whole|] == whole;
    assert r[|whole| + 1..] == ThreeDigits(m % 1000);
  }

  // ---------------------------------------------------------------------
  // The cached settings as a state machine.

  datatype Cache = Cache(voltage: real, currentLimit: real, outputEnabled: bool)

  /** What a new driver holds. */
  const Initial: Cache := Cache(0.0, 0.1, false)

  /** The settings `disable_output` leaves: output off, 0 V, 0.1 A, those of a new driver. */
  const Safe: Cache := Initial

  predicate VoltageInRange(v: real) { 0.0 <= v <= MaxVoltage }
  predicate CurrentInRange(i: real) { 0.0 <= i <= MaxCurrent }

  /** A cache step and the status the call ends with. */
  datatype Step = Step(cache: Cache, status: Status, sent: seq<string>)

  /** `set_voltage`: range check, write, then cache. A write that raises
      leaves the cache as it was. */
  function SetVoltageStep(c: Cache, v: real, connected: bool): Step {
    if !VoltageInRange(v) then Step(c, InvalidArgument, [])
    else if !connected then Step(c, NotConnected, [])
    else Step(c.(voltage := v), Done, ["VOLT " + Fixed3(v)])
  }

  function SetCurrentStep(c: Cache, i: real, connected: bool): Step {
    if !CurrentInRange(i) then Step(c, InvalidArgument, [])
    else if !connected then Step(c, NotConnected, [])
    else Step(c.(currentLimit := i), Done, ["CURR " + Fixed3(i)])
  }

  function EnableOutputStep(c: Cache, enabled: bool, connected: bool): Step {
    if !connected then Step(c, NotConnected, [])
    else Step(c.(outputEnabled := enabled), Done, ["OUTP " + (if enabled then "1" else "0")])
  }

  /** The second call of a pair runs only when the first ended normally. */
  function Then(first: Step, second: Cache -> Step): Step {
    if first.status != Done then first
    else
      var s := second(first.cache);
      Step(s.cache, s.status, first.sent + s.sent)
  }

  /** `set_output`: the voltage, then the current limit. */
  function SetOutputStep(c: Cache, v: real, i: real, connected: bool): Step {
    Then(SetVoltageStep(c, v, connected), c1 => SetCurrentStep(c1, i, connected))
  }

  /** `disable_output`: output off, 0 V, then 0.1 A. */
  function DisableOutputStep(c: Cache, connected: bool): Step {
    Then(Then(EnableOutputStep(c, false, connected), c1 => SetVoltageStep(c1, 0.0, connected)),
         c2 => SetCurrentStep(c2, 0.1, connected))
  }

  /** `set_output_channel`: the voltage, then the current limit when one is given. */
  function SetOutputChannelStep(c: Cache, v: real, limit: Option<real>, connected: bool): Step {
    if limit.None? then SetVoltageStep(c, v, connected)
    else SetOutputStep(c, v, limit.value, connected)
  }

  /** A setter out of range raises before writing and leaves the cache as it
      was; in range on an open supply, the cache holds the argument and
      nothing else changes. */
  lemma SettersCache(c: Cache, x: real, connected: bool)
    ensures var s := SetVoltageStep(c, x, connected);
            && (s.status == InvalidArgument <==> !VoltageInRange(x))
            && (s.status == Done <==> VoltageInRange(x) && connected)
            && s.cache == (if s.status == Done then c.(voltage := x) else c)
    ensures var s := SetCurrentStep(c, x, connected);
            && (s.status == InvalidArgument <==> !CurrentInRange(x))
            && (s.status == Done <==> CurrentInRange(x) && connected)
            && s.cache == (if s.status == Done then c.(currentLimit := x) else c)
  {
  }

  /** From any cached state, `disable_output` on an open supply ends in the
      safe state and writes `OUTP 0`, `VOLT 0.000`, `CURR 0.100`. */
  lemma DisableOutputSafe(c: Cache)
    ensures DisableOutputStep(c, true) == Step(Safe, Done, ["OUTP 0", "VOLT 0.000", "CURR 0.100"])
  {
    Fixed3Safe();
    assert "VOLT " + Fixed3(0.0) == "VOLT 0.000" && "CURR " + Fixed3(0.1) == "CURR 0.100";
    assert "OUTP " + "0" == "OUTP 0";
  }

  /** The safe setpoints as written. */
  lemma Fixed3Safe()
    ensures Fixed3(0.0) == "0.000" && Fixed3(0.1) == "0.100"
  {
    assert Millis(0.0) == 0 && Millis(0.1) == 100;
    assert ThreeDigits(0) == "000" && ThreeDigits(100) == "100";
    assert NatToString(0) == "0";
  }

  /** The voltage is applied before the current limit: a valid voltage with
      an invalid limit raises, yet leaves the new voltage cached. */
  lemma SetOutputVoltageFirst(c: Cache, v: real, i: real)
    requires VoltageInRange(v) && !CurrentInRange(i)
    ensures SetOutputStep(c, v, i, true) == Step(c.(voltage := v), InvalidArgument, ["VOLT " + Fixed3(v)])
  {
  }

  /** `set_output_channel` without a limit changes only the voltage; with
      one, it is `set_output`. */
  lemma OutputChannelLimit(c: Cache, v: real, limit: Option<real>, connected: bool)
    ensures limit.None? ==> SetOutputChannelStep(c, v, limit, connected).cache.currentLimit == c.currentLimit
    ensures limit.None? ==> SetOutputChannelStep(c, v, limit, connected).cache.outputEnabled == c.outputEnabled
    ensures limit.Some? ==> SetOutputChannelStep(c, v, limit, connected) == SetOutputStep(c, v, limit.value, connected)
  {
  }

  // ---------------------------------------------------------------------
  // The driver.

  class MPS6010H {
    const link: Link
    /** `_voltage_setpoint`, `_current_limit`, `_output_enabled`. */
    var voltage: real
    var currentLimit: real
    var outputEnabled: bool

    function Cached(): Cache
      reads this
    {
      Cache(voltage, currentLimit, outputEnabled)
    }

    /** A driver starts with no supply open and the initial cache. */
    constructor ()
      ensures fresh(link) && !link.connected && link.sent == []
      ensures Cached() == Initial
    {
      link := new Link();
      voltage, currentLimit, outputEnabled := 0.0, 0.1, false;
    }

    /** `connect`: open the port, then switch the supply to remote mode. */
    method Connect()
      modifies link
      ensures link.connected && link.sent == old(link.sent) + ["REM:ON"]
    {
      link.Open();
      var st := link.Send("REM:ON");
    }

    method SetVoltage(v: real) returns (st: Status)
      modifies this, link
      ensures link.connected == old(link.connected)
      ensures var s := SetVoltageStep(old(Cached()), v, link.connected);
              Cached() == s.cache && st == s.status && link.sent == old(link.sent) + s.sent
    {
      if !VoltageInRange(v) {
        return InvalidArgument;
      }
      st := link.Send("VOLT " + Fixed3(v));
      if st != Done {
        return;
      }
      voltage := v;
    }

    method SetCurrentLimit(i: real) returns (st: Status)
      modifies this, link
      ensures link.connected == old(link.connected)
      ensures var s := SetCurrentStep(old(Cached()), i, link.connected);
              Cached() == s.cache && st == s.status && link.sent == old(link.sent) + s.sent
    {
      if !CurrentInRange(i) {
        return InvalidArgument;
      }
      st := link.Send("CURR " + Fixed3(i));
      if st != Done {
        return;
      }
      currentLimit := i;
    }

    method EnableOutput(enabled: bool) returns (st: Status)
      modifies this, link
      ensures link.connected == old(link.connected)
      ensures var s := EnableOutputStep(old(Cached()), enabled, link.connected);
              Cached() == s.cache && st == s.status && link.sent == old(link.sent) + s.sent
    {
      st := link.Send("OUTP " + (if enabled then "1" else "0"));
      if st != Done {
        return;
      }
      outputEnabled := enabled;
    }

    method SetOutput(v: real, i: real) returns (st: Status)
      modifies this, link
      ensures link.connected == old(link.connected)
      ensures var s := SetOutputStep(old(Cached()), v, i, link.connected);
              Cached() == s.cache && st == s.status && link.sent == old(link.sent) + s.sent
    {
      st := SetVoltage(v);
      if st != Done {
        return;
      }
      st := SetCurrentLimit(i);
    }

    /** Output off, 0 V, 0.1 A; from any state on an open supply this ends in
      the safe state (`DisableOutputSafe`). */
    method DisableOutput() returns (st: Status)
      modifies this, link
      ensures link.connected == old(link.connected)
      ensures var s := DisableOutputStep(old(Cached()), link.connected);
              Cached() == s.cache && st == s.status && link.sent == old(link.sent) + s.sent
      ensures link.connected ==> Cached() == Safe && st == Done
    {
      DisableOutputSafe(Cached());
      st := EnableOutput(false);
      if st != Done {
        return;
      }
      st := SetVoltage(0.0);
      if st != Done {
        return;
      }
      st := SetCurrentLimit(0.1);
    }

    /** The channel is ignored: the supply has one output. */
    method SetOutputChannel(channel: int, v: real, limit: Option<real>) returns (st: Status)
      modifies this, link
      ensures link.connected == old(link.connected)
      ensures var s := SetOutputChannelStep(old(Cached()), v, limit, link.connected);
              Cached() == s.cache && st == s.status && link.sent == old(link.sent) + s.sent
    {
      st := SetVoltage(v);
      if st != Done || limit.None? {
        return;
      }
      st := SetCurrentLimit(limit.value);
    }

    /** `measure_voltage`: the supply's reply when it gives a number, the
      cached setpoint when there is no supply or the reply cannot be had or
      read (`reply` is `None`). */
    method MeasureVoltage(reply: Option<real>) returns (r: real)
      modifies link
      ensures link.connected == old(link.connected)
      ensures link.sent == old(link.sent) + (if link.connected then ["MEAS:VOLT?"] else [])
      ensures r == (if link.connected && reply.Some? then reply.value else voltage)
    {
      var st := link.Send("MEAS:VOLT?");
      if st == Done && reply.Some? {
        return reply.value;
      }
      return voltage;
    }
  }
}
