/** The Govee light driver (plugins/govee_plugin.py): fixed JSON commands
 *  sent over UDP, and `flash` as a train of them. */
module Govee {

  /** The `data` part of a command. */
  datatype Data =
    | TurnValue(value: int)
    | Colour(r: int, g: int, b: int)

  /** A command message `{"msg": {"cmd": cmd, "data": data}}`. */
  datatype Command = Command(cmd: string, data: Data)

  /** What the light object did: send a command, or sleep. */
  datatype LightEvent = Sent(command: Command) | Slept(seconds: real)

  const TurnOnCommand := Command("turn", TurnValue(1))
  const TurnOffCommand := Command("turn", TurnValue(0))

  /** The `set_color` command: the components as given, unchecked. */
  function ColourCommand(red: int, green: int, blue: int): (c: Command)
    ensures c.cmd == "colorwc" && c.data == Colour(red, green, blue)
  {
    Command("colorwc", Colour(red, green, blue))
  }

  /** The pause between the halves of a flash. */
  const FlashPause: real := 0.3

  /** One round of `flash`. */
  const FlashRound: seq<LightEvent> :=
    [Sent(TurnOffCommand), Slept(FlashPause), Sent(TurnOnCommand), Slept(FlashPause)]

  /** `n` rounds of `flash`. */
  function FlashEvents(n: nat): seq<LightEvent>
    decreases n
  {
    if n == 0 then [] else FlashEvents(n - 1) + FlashRound
  }

  /** The commands among some events, in order. */
  function Commands(events: seq<LightEvent>): (cs: seq<Command>)
    ensures |cs| <= |events|
    decreases |events|
  {
    if events == [] then []
    else
      var init := Commands(events[..|events| - 1]);
      match events[|events| - 1]
      case Sent(c) => init + [c]
      case Slept(_) => init
  }

  lemma {:induction false} CommandsAppend(a: seq<LightEvent>, b: seq<LightEvent>)
    ensures Commands(a + b) == Commands(a) + Commands(b)
    decreases |b|
  {
    if b == [] {
      assert a + b == a;
    } else {
      var init, ab := b[..|b| - 1], a + b;
      assert ab[..|ab| - 1] == a + init;
      assert ab[|ab| - 1] == b[|b| - 1];
      CommandsAppend(a, init);
    }
  }

  lemma CommandsOne(e: LightEvent)
    ensures Commands([e]) == if e.Sent? then [e.command] else []
  {
    assert [e][..0] == [];
  }

  /** A round of `flash` sends off, then on. */
  lemma RoundCommands()
    ensures Commands(FlashRound) == [TurnOffCommand, TurnOnCommand]
  {
    var off, pause, on := Sent(TurnOffCommand), Slept(FlashPause), Sent(TurnOnCommand);
    assert FlashRound == [off] + [pause] + [on] + [pause];
    CommandsAppend([off] + [pause] + [on], [pause]);
    CommandsAppend([off] + [pause], [on]);
    CommandsAppend([off], [pause]);
    CommandsOne(off);
    CommandsOne(pause);
    CommandsOne(on);
  }

  /** `flash(n)` sends exactly `2 n` commands, alternately off and on,
   *  starting with off; so the last one, if any, is on. */
  lemma {:induction false} FlashAlternates(n: nat)
    ensures var cs := Commands(FlashEvents(n));
      && |cs| == 2 * n
      && (forall i :: 0 <= i < |cs| ==> cs[i] == if i % 2 == 0 then TurnOffCommand else TurnOnCommand)
    decreases n
  {
    if n > 0 {
      FlashAlternates(n - 1);
      CommandsAppend(FlashEvents(n - 1), FlashRound);
      RoundCommands();
    }
  }

  /** A UDP light at a fixed address. */
  class GoveeLight {
    const ipAddress: string
    const port: nat
    /** What this light object did, in order. */
    var events: seq<LightEvent>

    /** `GoveeLight(ip_address, port=4003)`. */
    constructor (ipAddress: string, port: nat)
      ensures this.ipAddress == ipAddress && this.port == port && events == []
    {
      this.ipAddress := ipAddress;
      this.port := port;
      events := [];
    }

    /** `send_command`: one datagram to the light's address. */
    method SendCommand(c: Command)
      modifies this
      ensures events == old(events) + [Sent(c)]
    {
      events := events + [Sent(c)];
    }

    /** `turn_on`. */
    method TurnOn()
      modifies this
      ensures events == old(events) + [Sent(TurnOnCommand)]
    {
      SendCommand(TurnOnCommand);
    }

    /** `turn_off`. */
    method TurnOff()
      modifies this
      ensures events == old(events) + [Sent(TurnOffCommand)]
    {
      SendCommand(TurnOffCommand);
    }

    /** `set_color(red, green, blue, color_temp)`: the colour temperature is
     *  not sent. */
    method SetColor(red: int, green: int, blue: int, colorTemp: int)
      modifies this
      ensures events == old(events) + [Sent(ColourCommand(red, green, blue))]
    {
      SendCommand(ColourCommand(red, green, blue));
    }

    /** `flash(amount)`: `range` of a negative amount is empty. */
    method Flash(amount: int)
      modifies this
      ensures events == old(events) + FlashEvents(if amount < 0 then 0 else amount)
    {
      ghost var start := events;
      for i := 0 to if amount < 0 then 0 else amount
        invariant events == start + FlashEvents(i)
      {
        TurnOff();
        events := events + [Slept(FlashPause)];
        TurnOn();
        events := events + [Slept(FlashPause)];
        assert events == start + (FlashEvents(i) + FlashRound);
      }
    }
  }
}
