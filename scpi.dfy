/** The connection every instrument driver shares (`DeviceManager`): an
    open-or-closed instrument handle and the commands written to it. */
module Scpi {
  import opened Text

  /** How a driver call ends: normally, with the `ValueError` a validation
      raises before anything is sent, or with the `ConnectionError` that
      `send_command` raises when no instrument is open. */
  datatype Status = Done | InvalidArgument | NotConnected | BadReply

  /** A command as written: its header and, after one blank, its parameters;
      a command without parameters is its header alone. */
  datatype Command = Command(header: string, args: string)

  function Render(c: Command): (r: string)
    ensures c.args == [] ==> r == c.header
    ensures c.args != [] ==> r == c.header + " " + c.args
  {
    if c.args == [] then c.header else c.header + " " + c.args
  }

  function RenderAll(cs: seq<Command>): (r: seq<string>)
    ensures |r| == |cs| && forall i :: 0 <= i < |cs| ==> r[i] == Render(cs[i])
  {
    if cs == [] then [] else [Render(cs[0])] + RenderAll(cs[1..])
  }

  lemma {:induction false} RenderAllAppend(a: seq<Command>, b: seq<Command>)
    ensures RenderAll(a + b) == RenderAll(a) + RenderAll(b)
  {
    if a != [] {
      assert (a + b)[1..] == a[1..] + b;
      RenderAllAppend(a[1..], b);
    }
  }

  /** What a driver call decides before it writes anything: raise the
      validation's `ValueError`, or write these commands in order. */
  datatype Plan = Rejected | Emits(commands: seq<Command>)

  /** How a call carrying out `p` ends, given whether an instrument is open. */
  function StatusOf(p: Plan, connected: bool): (st: Status)
    ensures st == Done <==> p.Emits? && (connected || p.commands == [])
    ensures st == InvalidArgument <==> p.Rejected?
  {
    match p
    case Rejected => InvalidArgument
    case Emits(cs) => if connected || cs == [] then Done else NotConnected
  }

  /** The lines a call carrying out `p` writes: all of them, or none when
      the call is rejected or no instrument is open. */
  function Written(p: Plan, connected: bool): (r: seq<string>)
    ensures p.Rejected? || !connected ==> r == []
    ensures p.Emits? && connected ==> r == RenderAll(p.commands)
  {
    if p.Emits? && connected then RenderAll(p.commands) else []
  }

  /** The call carried out `p` on `link` and ended with `st`. */
  twostate predicate Performed(link: Link, p: Plan, st: Status)
    reads link
  {
    && link.connected == old(link.connected)
    && st == StatusOf(p, link.connected)
    && link.sent == old(link.sent) + Written(p, link.connected)
  }

  /** Python's `"ON" if b else "OFF"`. */
  function OnOff(b: bool): (r: string)
    ensures r == "ON" <==> b
  {
    if b then "ON" else "OFF"
  }

  class Link {
    /** Whether `self.instrument` holds an open resource. */
    var connected: bool
    /** Every command written to the instrument, oldest first. */
    var sent: seq<string>

    /** A driver starts with no instrument open. */
    constructor ()
      ensures !connected && sent == []
    {
      connected := false;
      sent := [];
    }

    /** `connect` once `open_resource` has succeeded. */
    method Open()
      modifies this
      ensures connected && sent == old(sent)
    {
      connected := true;
    }

    /** `disconnect`. */
    method Close()
      modifies this
      ensures !connected && sent == old(sent)
    {
      connected := false;
    }

    /** `send_command`: writes the command, or raises when nothing is open. */
    method Send(command: string) returns (st: Status)
      modifies this
      ensures connected == old(connected)
      ensures st == (if connected then Done else NotConnected)
      ensures sent == old(sent) + (if connected then [command] else [])
    {
      if !connected {
        return NotConnected;
      }
      sent := sent + [command];
      return Done;
    }

    /** `send_command` for each command in turn, stopping at the first that
        raises: with the handle fixed for the whole call, all of them or none. */
    method SendAll(commands: seq<string>) returns (st: Status)
      modifies this
      ensures connected == old(connected)
      ensures st == (if connected || commands == [] then Done else NotConnected)
      ensures sent == old(sent) + (if connected then commands else [])
    {
      st := Done;
      var i := 0;
      while i < |commands|
        invariant 0 <= i <= |commands| && connected == old(connected) && st == Done
        invariant connected ==> sent == old(sent) + commands[..i]
        invariant !connected ==> sent == old(sent) && i == 0
      {
        st := Send(commands[i]);
        if st != Done {
          return;
        }
        i := i + 1;
      }
      assert commands[..i] == commands;
    }

    /** A driver call that validates, then writes its commands in order. */
    method Perform(p: Plan) returns (st: Status)
      modifies this
      ensures Performed(this, p, st)
    {
      if p.Rejected? {
        return InvalidArgument;
      }
      st := SendAll(RenderAll(p.commands));
    }

    /** `query`: writes the command and returns the reply, stripped; the
        instrument's reply is a parameter. */
    method Query(command: string, response: string) returns (st: Status, reply: string)
      modifies this
      ensures connected == old(connected)
      ensures st == (if connected then Done else NotConnected)
      ensures sent == old(sent) + (if connected then [command] else [])
      ensures st == Done ==> reply == Strip(response)
    {
      reply := "";
      st := Send(command);
      if st == Done {
        reply := Strip(response);
      }
    }
  }
}
