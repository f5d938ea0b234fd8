/** The HP 34401A digital multimeter driver: the DC voltage configuration
    and the front-panel text, shown whole or scrolled frame by frame. */
module Hp34401a {
  import opened Text
  import opened Scpi

  /** The front panel shows at most twelve characters. */
  const PanelWidth := 12

  /** `DISPlay:TEXT "<text>"`. */
  function ShowCommand(text: string): Command {
    Command("DISPlay:TEXT", "\"" + text + "\"")
  }

  /** `display_text`: the first twelve characters of the text. */
  function DisplayTextPlan(text: string): Plan {
    Emits([ShowCommand(Take(text, PanelWidth))])
  }

  /** `configure_dc_voltage`: the configuration, then the integration time
      when one is given. */
  function ConfigureDcPlan(rangeVal: string, resolution: string, nplc: Option<string>): Plan {
    Emits([Command("CONFigure:VOLTage:DC", rangeVal + "," + resolution)]
          + if nplc.Some? then [Command("SENSe:VOLTage:DC:NPLCycles", nplc.value)] else [])
  }

  /** `max(1, n)`. */
  function AtLeastOne(n: int): (r: nat)
    ensures r >= 1 && (n >= 1 ==> r == n)
  {
    if n <= 0 then 1 else n
  }

  /** The text scrolled: the text, then `max(1, pad)` blanks. */
  function Window(text: string, pad: int): (w: string)
    ensures |w| == |text| + AtLeastOne(pad) && w[..|text|] == text
  {
    text + Repeat(' ', AtLeastOne(pad))
  }

  /** One pass of the scroll: frame `k` is `(w + w)[k:k + width]` for each
      start `k` of the window `w`. */
  function FrameCommands(w: string, width: int): (r: seq<Command>)
    requires 0 < width < |w|
    ensures |r| == |w|
    ensures forall k :: 0 <= k < |w| ==> |(w + w)[k..k + width]| == width && r[k] == ShowCommand((w + w)[k..k + width])
  {
    seq(|w|, k requires 0 <= k < |w| => ShowCommand((w + w)[k..k + width]))
  }

  /** `display_text_rolling`: `width <= 0` raises, `loops <= 0` counts as one,
      a text that fits is shown once by `display_text`, a longer one scrolls
      `loops` times. */
  function RollingPlan(text: string, width: int, pad: int, loops: int): Plan {
    if width <= 0 then Rejected
    else if |text| <= width then DisplayTextPlan(text)
    else Emits(Copies(FrameCommands(Window(text, pad), width), AtLeastOne(loops)))
  }

  // ---------------------------------------------------------------------
  // Properties.

  /** `display_text` shows a prefix of the text, of at most twelve characters,
      the whole text when it fits. */
  lemma DisplayTextTruncates(text: string)
    ensures var shown := Take(text, PanelWidth);
            && DisplayTextPlan(text) == Emits([ShowCommand(shown)])
            && |shown| <= 12 && shown == text[..|shown|]
            && (|text| <= 12 ==> shown == text)
  {
  }

  /** The NPLC command is written exactly when `nplc` is given. */
  lemma ConfigureDcNplc(rangeVal: string, resolution: string, nplc: Option<string>)
    ensures var p := ConfigureDcPlan(rangeVal, resolution, nplc);
            && p.Emits? && |p.commands| == (if nplc.Some? then 2 else 1)
            && (nplc.Some? ==> p.commands[1] == Command("SENSe:VOLTage:DC:NPLCycles", nplc.value))
  {
  }

  /** Width zero or less is refused; any loop count of zero or less scrolls once. */
  lemma RollingArguments(text: string, width: int, pad: int, loops: int)
    ensures RollingPlan(text, width, pad, loops).Rejected? <==> width <= 0
    ensures loops <= 0 ==> RollingPlan(text, width, pad, loops) == RollingPlan(text, width, pad, 1)
  {
  }

  /** A text no wider than the display is one `display_text` call. */
  lemma RollingShort(text: string, width: int, pad: int, loops: int)
    requires 0 < width && |text| <= width
    ensures RollingPlan(text, width, pad, loops) == DisplayTextPlan(text)
    ensures |RollingPlan(text, width, pad, loops).commands| == 1
  {
  }

  /** Pass `p` of a sequence made of passes of length `len`. */
  function PassOf<T>(s: seq<T>, len: nat, p: nat): seq<T>
    requires (p + 1) * len <= |s|
  {
    s[p * len..(p + 1) * len]
  }

  /** Every pass of `n` copies of `s` is `s`. */
  lemma {:induction false} CopiesPass<T>(s: seq<T>, n: nat, p: nat)
    requires p < n
    ensures (p + 1) * |s| <= |Copies(s, n)| && PassOf(Copies(s, n), |s|, p) == s
    decreases n
  {
    var rest := Copies(s, n - 1);
    assert Copies(s, n) == s + rest;
    if p > 0 {
      CopiesPass(s, n - 1, p - 1);
      assert p * |s| == (p - 1) * |s| + |s| && (p + 1) * |s| == p * |s| + |s|;
      assert (s + rest)[p * |s|..(p + 1) * |s|] == rest[(p - 1) * |s|..p * |s|];
    } else {
      assert (s + rest)[..|s|] == s;
    }
  }

  /** One more pass appends one more pass's lines. */
  lemma CopiesStep(pass: seq<Command>, i: nat)
    ensures RenderAll(Copies(pass, i + 1)) == RenderAll(Copies(pass, i)) + RenderAll(pass)
  {
    CopiesSnoc(pass, i);
    RenderAllAppend(Copies(pass, i), pass);
  }

  /** At least one pass of a non-empty pass is not empty. */
  lemma CopiesNonEmpty<T>(s: seq<T>, n: nat)
    requires s != [] && n >= 1
    ensures Copies(s, n) != []
  {
    assert Copies(s, n) == s + Copies(s, n - 1);
  }

  /** A longer text scrolls `max(1, loops) * (len(text) + max(1, pad))`
      frames. */
  lemma RollingCount(text: string, width: int, pad: int, loops: int)
    requires 0 < width < |text|
    ensures var p := RollingPlan(text, width, pad, loops);
            p.Emits? && |p.commands| == AtLeastOne(loops) * (|text| + AtLeastOne(pad))
  {
    var w := Window(text, pad);
    var n := AtLeastOne(loops);
    assert |Copies(FrameCommands(w, width), n)| == n * |w|;
  }

  /** The frames of a longer text come in `max(1, loops)` passes, each of
      which is one frame for every start of the window `w` (see
      `FrameCommands`). */
  lemma RollingPasses(text: string, width: int, pad: int, loops: int, pass: nat)
    requires 0 < width < |text| && pass < AtLeastOne(loops)
    ensures var p := RollingPlan(text, width, pad, loops);
            var w := Window(text, pad);
            && p.Emits?
            && (pass + 1) * |w| <= |p.commands|
            && PassOf(p.commands, |w|, pass) == FrameCommands(w, width)
  {
    var w := Window(text, pad);
    CopiesPass(FrameCommands(w, width), AtLeastOne(loops), pass);
  }

  // ---------------------------------------------------------------------
  // The driver.

  class HP34401A {
    const link: Link

    /** A driver starts with no instrument open. */
    constructor ()
      ensures fresh(link) && !link.connected && link.sent == []
    {
      link := new Link();
    }

    method ConfigureDcVoltage(rangeVal: string, resolution: string, nplc: Option<string>) returns (st: Status)
      modifies link
      ensures Performed(link, ConfigureDcPlan(rangeVal, resolution, nplc), st)
    {
      st := link.Perform(ConfigureDcPlan(rangeVal, resolution, nplc));
    }

    method DisplayText(text: string) returns (st: Status)
      modifies link
      ensures Performed(link, DisplayTextPlan(text), st)
    {
      st := link.Perform(DisplayTextPlan(text));
    }

    /** `display_text_rolling`, without the pause between frames. */
    method DisplayTextRolling(text: string, width: int, pad: int, loops: int) returns (st: Status)
      modifies link
      ensures Performed(link, RollingPlan(text, width, pad, loops), st)
    {
      if width <= 0 {
        return InvalidArgument;
      }
      var count := if loops <= 0 then 1 else loops;
      if |text| <= width {
        st := DisplayText(text);
        return;
      }
      var w := text + Repeat(' ', if pad < 1 then 1 else pad);
      assert RollingPlan(text, width, pad, loops) == Emits(Copies(FrameCommands(w, width), count));
      st := Scroll(w, width, count);
    }

    /** The outer loop: `count` passes over the window. */
    method Scroll(w: string, width: int, count: nat) returns (st: Status)
      requires 0 < width < |w| && count >= 1
      modifies link
      ensures Performed(link, Emits(Copies(FrameCommands(w, width), count)), st)
    {
      ghost var pass := FrameCommands(w, width);
      CopiesNonEmpty(pass, count);
      st := Done;
      var i := 0;
      while i < count
        invariant 0 <= i <= count && st == Done
        invariant link.connected == old(link.connected)
        invariant link.connected ==> link.sent == old(link.sent) + RenderAll(Copies(pass, i))
        invariant !link.connected ==> link.sent == old(link.sent) && i == 0
      {
        st := ScrollStep(w, width, i, old(link.sent));
        if st != Done {
          return;
        }
        i := i + 1;
      }
    }

    /** Pass `i + 1` of the outer loop. */
    method ScrollStep(w: string, width: int, i: nat, ghost base: seq<string>) returns (st: Status)
      requires 0 < width < |w|
      requires link.connected ==> link.sent == base + RenderAll(Copies(FrameCommands(w, width), i))
      modifies link
      ensures link.connected == old(link.connected)
      ensures st == (if link.connected then Done else NotConnected)
      ensures !link.connected ==> link.sent == old(link.sent)
      ensures link.connected ==> link.sent == base + RenderAll(Copies(FrameCommands(w, width), i + 1))
    {
      ghost var pass := FrameCommands(w, width);
      ghost var before := RenderAll(Copies(pass, i));
      st := ScrollOnce(w, width);
      if link.connected {
        CopiesStep(pass, i);
        AppendAssoc(base, before, RenderAll(pass));
      }
    }

    /** The inner loop: one frame for each start in the window. */
    method ScrollOnce(w: string, width: int) returns (st: Status)
      requires 0 < width < |w|
      modifies link
      ensures Performed(link, Emits(FrameCommands(w, width)), st)
    {
      var cycle := w + w;
      st := Done;
      var start := 0;
      while start < |w|
        invariant 0 <= start <= |w| && st == Done
        invariant link.connected == old(link.connected) && (start > 0 ==> link.connected)
        invariant link.sent == old(link.sent) + Written(Emits(FrameCommands(w, width)[..start]), link.connected)
      {
        st := ShowFrame(w, width, start, old(link.sent));
        if st != Done {
          return;
        }
        start := start + 1;
      }
      assert FrameCommands(w, width)[..start] == FrameCommands(w, width);
    }

    /** `send_command(f'DISPlay:TEXT "{frame}"')` for the frame at `start`. */
    method ShowFrame(w: string, width: int, start: int, ghost base: seq<string>) returns (st: Status)
      requires 0 < width < |w| && 0 <= start < |w|
      requires link.sent == base + Written(Emits(FrameCommands(w, width)[..start]), link.connected)
      modifies link
      ensures link.connected == old(link.connected)
      ensures st == (if link.connected then Done else NotConnected)
      ensures !link.connected ==> link.sent == old(link.sent)
      ensures link.connected ==> link.sent == base + RenderAll(FrameCommands(w, width)[..start + 1])
    {
      var frame := (w + w)[start..start + width];
      st := link.Send(Render(ShowCommand(frame)));
      ghost var cs := FrameCommands(w, width);
      assert cs[..start + 1] == cs[..start] + [ShowCommand(frame)];
      RenderAllAppend(cs[..start], [ShowCommand(frame)]);
    }
  }
}
