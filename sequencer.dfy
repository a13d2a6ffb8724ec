/** The controller of main.py: a flat interpreter over typed actions read
 *  from scenes.yaml, the two-sensor distance, and one pass of its detection
 *  loop. Every action reaches at most one device call or one sleep; what that
 *  call does, or whether it raises, never changes what the later actions do. */
module Sequencer {
  import opened Common
  import opened Hardware

  /** One entry of a `sequence` list; every key may be absent. `colour` is
   *  the mapping holding `r`, `g` and `b`. */
  datatype Action = Action(
    kind: Option<string>,
    action: Option<string>,
    name: Option<string>,
    duration: Option<real>,
    colour: Option<map<string, int>>,
    amount: Option<int>,
    file: Option<string>)

  /** The module-level devices: the door motor, the relays by name, the
   *  light, and the music players by short name. */
  datatype Devices = Devices(motor: Handle, relays: map<string, Handle>, light: Handle, music: map<string, Handle>)

  const DefaultMotorSeconds: real := 2.0
  const DefaultSleepSeconds: real := 1.0
  const DefaultFlashes: int := 10
  const Extension: string := ".mp3"

  /** Python's `s.replace('.mp3', '')`: every occurrence, scanning left to
   *  right. */
  function StripExtension(s: string): (r: string)
    ensures |r| <= |s|
    decreases |s|
  {
    if |s| < 4 then s
    else if s[..4] == Extension then StripExtension(s[4..])
    else [s[0]] + StripExtension(s[1..])
  }

  /** No occurrence of ".mp3" can straddle the end of `s` and the start of an
   *  appended ".mp3", so the lookup name is the same with or without the
   *  extension. */
  lemma {:induction false} StripAppendedExtension(s: string)
    ensures StripExtension(s + Extension) == StripExtension(s)
    decreases |s|
  {
    var t := s + Extension;
    if s == [] {
      assert t == Extension;
      assert t[4..] == [];
    } else if |s| >= 4 && s[..4] == Extension {
      assert t[..4] == Extension;
      assert t[4..] == s[4..] + Extension;
      StripAppendedExtension(s[4..]);
    } else {
      assert t[..4] != Extension by {
        if |s| >= 4 {
          assert t[..4] == s[..4];
        } else if |s| == 1 {
          assert t[1] == '.';
        } else if |s| == 2 {
          assert t[2] == '.';
        } else {
          assert t[3] == '.';
        }
      }
      assert t[1..] == s[1..] + Extension;
      StripAppendedExtension(s[1..]);
      if |s| < 4 {
        assert StripExtension(s[1..] + Extension) == s[1..];
      }
    }
  }

  /** The entry of `m` for `key`, if any: Python's `m.get(key)`. */
  function Find(m: map<string, Handle>, key: Option<string>): (h: Option<Handle>)
    ensures h.Some? <==> key.Some? && key.value in m
    ensures h.Some? ==> h.value == m[key.value]
  {
    if key.Some? && key.value in m then Some(m[key.value]) else None
  }

  /** The player a `music` action names: its file with ".mp3" removed; an
   *  absent or empty file name names none. */
  function PlayerFor(music: map<string, Handle>, file: Option<string>): Option<Handle> {
    if file.None? || file.value == [] then None
    else Find(music, Some(StripExtension(file.value)))
  }

  /** The call one action makes, or `None` when it makes none. */
  function ActionCall(a: Action, dev: Devices): Option<Call> {
    match a.kind
    case Some("motor") =>
      if a.action == Some("forward") then Some(Call(dev.motor, MoveForward(a.duration.GetOr(DefaultMotorSeconds))))
      else if a.action == Some("reverse") then Some(Call(dev.motor, MoveReverse(a.duration.GetOr(DefaultMotorSeconds))))
      else if a.action == Some("stop") then Some(Call(dev.motor, MotorStop))
      else None
    case Some("relay") =>
      var relay := Find(dev.relays, a.name);
      if relay.None? then None
      else if a.action == Some("on") then Some(Call(relay.value, RelayOn))
      else if a.action == Some("off") then Some(Call(relay.value, RelayOff))
      else None
    case Some("light") =>
      if a.action == Some("set_color") then
        var colour := a.colour.GetOr(map[]);
        var r := if "r" in colour then colour["r"] else 0;
        var g := if "g" in colour then colour["g"] else 0;
        var b := if "b" in colour then colour["b"] else 0;
        Some(Call(dev.light, SetColor(r, g, b)))
      else if a.action == Some("flash") then Some(Call(dev.light, Flash(a.amount.GetOr(DefaultFlashes))))
      else None
    case Some("music") =>
      if a.action == Some("play") then
        var player := PlayerFor(dev.music, a.file);
        if player.Some? then Some(Call(player.value, Play)) else None
      else None
    case _ => None
  }

  /** What each kind of action calls: a motor action calls the motor alone,
   *  'forward' and 'reverse' for the action's duration or 2 seconds and
   *  'stop' with no argument; a relay action calls the named relay, and only
   *  a known one; a light action calls the light alone, 'set_color' taking
   *  each of r, g and b, 0 when missing, and 'flash' 10 times unless told
   *  otherwise; 'play' calls the player of the file's name. Any other action
   *  of a known kind calls nothing. */
  lemma ActionCallFacts(a: Action, dev: Devices)
    ensures a.kind == Some("motor") ==>
      (ActionCall(a, dev).Some? <==> a.action in {Some("forward"), Some("reverse"), Some("stop")}) &&
      (ActionCall(a, dev).Some? ==> ActionCall(a, dev).value.target == dev.motor) &&
      (a.action == Some("forward") ==>
        ActionCall(a, dev).value.op == MoveForward(a.duration.GetOr(2.0))) &&
      (a.action == Some("reverse") ==>
        ActionCall(a, dev).value.op == MoveReverse(a.duration.GetOr(2.0))) &&
      (a.action == Some("stop") ==> ActionCall(a, dev).value.op == MotorStop)
    ensures a.kind == Some("relay") ==>
      (ActionCall(a, dev).Some? <==>
        Find(dev.relays, a.name).Some? && (a.action == Some("on") || a.action == Some("off"))) &&
      (ActionCall(a, dev).Some? ==> ActionCall(a, dev).value.target == dev.relays[a.name.value]) &&
      (ActionCall(a, dev).Some? && a.action == Some("on") ==> ActionCall(a, dev).value.op == RelayOn) &&
      (ActionCall(a, dev).Some? && a.action == Some("off") ==> ActionCall(a, dev).value.op == RelayOff)
    ensures a.kind == Some("light") && a.action == Some("set_color") ==>
      var colour := a.colour.GetOr(map[]);
      && ActionCall(a, dev).Some? && ActionCall(a, dev).value.op.SetColor?
      && var op := ActionCall(a, dev).value.op;
      && (op.red == if "r" in colour then colour["r"] else 0)
      && (op.green == if "g" in colour then colour["g"] else 0)
      && (op.blue == if "b" in colour then colour["b"] else 0)
    ensures a.kind == Some("light") ==>
      (ActionCall(a, dev).Some? <==> a.action in {Some("set_color"), Some("flash")}) &&
      (ActionCall(a, dev).Some? ==> ActionCall(a, dev).value.target == dev.light)
    ensures a.kind == Some("light") && a.action == Some("flash") ==>
      ActionCall(a, dev).value.op == Flash(a.amount.GetOr(10))
    ensures a.kind == Some("music") ==>
      (ActionCall(a, dev).Some? <==> a.action == Some("play") && PlayerFor(dev.music, a.file).Some?) &&
      (ActionCall(a, dev).Some? ==> ActionCall(a, dev) == Some(Call(PlayerFor(dev.music, a.file).value, Play)))
  {
  }

  /** What one action dispatches: its call, its sleep, or nothing. */
  function ActionEvents(a: Action, dev: Devices): (es: seq<Event>)
    ensures |es| <= 1
    ensures a.kind.None? || a.kind.value !in {"motor", "relay", "light", "music", "sleep"} ==> es == []
    ensures a.kind == Some("sleep") ==> es == [Slept(a.duration.GetOr(DefaultSleepSeconds))]
  {
    if a.kind == Some("sleep") then [Slept(a.duration.GetOr(DefaultSleepSeconds))]
    else
      var c := ActionCall(a, dev);
      if c.Some? then [Invoked(c.value)] else []
  }

  /** What `execute_sequence` dispatches for `actions`. */
  function SequenceEvents(actions: seq<Action>, dev: Devices): seq<Event>
    decreases |actions|
  {
    if actions == [] then []
    else SequenceEvents(actions[..|actions| - 1], dev) + ActionEvents(actions[|actions| - 1], dev)
  }

  /** The actions run in list order, each on its own: a sequence's events
   *  are those of its parts one after the other. */
  lemma {:induction false} SequenceEventsAppend(a: seq<Action>, b: seq<Action>, dev: Devices)
    ensures SequenceEvents(a + b, dev) == SequenceEvents(a, dev) + SequenceEvents(b, dev)
    decreases |b|
  {
    if b == [] {
      assert a + b == a;
    } else {
      var init := b[..|b| - 1];
      assert (a + b)[..|a + b| - 1] == a + init;
      assert (a + b)[|a + b| - 1] == b[|b| - 1];
      SequenceEventsAppend(a, init, dev);
    }
  }

  /** A skipped action, such as an unknown relay, an unknown music file or an
   *  unknown action type, leaves the rest of the sequence as it would have
   *  been without it. */
  lemma SkippedActionIsInvisible(before: seq<Action>, a: Action, after: seq<Action>, dev: Devices)
    requires ActionEvents(a, dev) == []
    ensures SequenceEvents(before + [a] + after, dev) == SequenceEvents(before + after, dev)
  {
    var with := before + [a];
    assert with[..|with| - 1] == before;
    SequenceEventsAppend(with, after, dev);
    SequenceEventsAppend(before, after, dev);
  }

  /** A `music` play action finds the same player whether or not its file
   *  name carries the extension. */
  lemma PlayWithOrWithoutExtension(music: map<string, Handle>, name: string)
    requires name != []
    ensures PlayerFor(music, Some(name + Extension)) == PlayerFor(music, Some(name))
  {
    StripAppendedExtension(name);
  }

  /** `get_shortest_distance` of main.py: `None` when either reading is
   *  falsy (absent or zero), else the smaller one. */
  function ShortestDistance(d1: Option<real>, d2: Option<real>): (r: Option<real>)
    ensures r.Some? <==> d1.Some? && d1.value != 0.0 && d2.Some? && d2.value != 0.0
    ensures r.Some? ==> r.value <= d1.value && r.value <= d2.value && (r.value == d1.value || r.value == d2.value)
  {
    if d1.None? || d1.value == 0.0 || d2.None? || d2.value == 0.0 then None
    else Some(Min(d1.value, d2.value))
  }

  /** How one pass of the `main` loop ended. */
  datatype Pass =
    | Crashed                                   // an exception left the loop
    | Skipped                                   // no distance: `continue`
    | Watched(warned: bool, triggered: bool)

  class Coffin {
    const devices: Devices
    const bus: Bus

    constructor (devices: Devices, bus: Bus)
      ensures this.devices == devices && this.bus == bus
    {
      this.devices := devices;
      this.bus := bus;
    }

    /** `execute_sequence`: every action in order; a call that raises is
     *  caught and the loop goes on. */
    method ExecuteSequence(actions: seq<Action>)
      modifies bus
      ensures bus.trace == old(bus.trace) + SequenceEvents(actions, devices)
    {
      for i := 0 to |actions|
        invariant bus.trace == old(bus.trace) + SequenceEvents(actions[..i], devices)
      {
        ExecuteAction(actions[i]);
        assert actions[..i + 1][..i] == actions[..i];
      }
      assert actions[..|actions|] == actions;
    }

    /** The body of the loop of `execute_sequence`, for one action. */
    method ExecuteAction(a: Action)
      modifies bus
      ensures bus.trace == old(bus.trace) + ActionEvents(a, devices)
    {
      if a.kind == Some("sleep") {
        bus.Wait(a.duration.GetOr(DefaultSleepSeconds));
        return;
      }
      var c := ActionCall(a, devices);
      if c.Some? {
        var _ := bus.Perform(c.value);
      }
    }

    /** One pass of `main`: a scene drawn from `available`, its `sequence`
     *  looked up in `scenes` (`None` for a scene without one), the two
     *  readings combined, a warning under `warningDistance`, and the
     *  sequence run under `triggerDistance`. `picked` is the scene drawn. */
    method MainPass(d1: Option<real>, d2: Option<real>, warningDistance: real, triggerDistance: real,
                    scenes: map<string, Option<seq<Action>>>, available: seq<string>)
      returns (pass: Pass, ghost picked: string)
      modifies bus
      ensures available == [] ==> pass == Crashed && bus.trace == old(bus.trace)
      ensures available != [] ==> picked in available
      ensures var d := ShortestDistance(d1, d2);
        && (available != [] && d.None? ==> pass == Skipped)
        && (available != [] && d.Some? && d.value < triggerDistance ==>
              if picked in scenes && scenes[picked].Some?
              then pass == Watched(d.value < warningDistance, true) &&
                   bus.trace == old(bus.trace) + SequenceEvents(scenes[picked].value, devices)
              else pass == Crashed)
        && (available != [] && d.Some? && triggerDistance <= d.value ==>
              pass == Watched(d.value < warningDistance, false))
      ensures !(pass.Watched? && pass.triggered) ==> bus.trace == old(bus.trace)
    {
      if available == [] {
        return Crashed, [];
      }
      assert available[0] in available;
      var name :| name in available;
      picked := name;
      var sequence := if name in scenes then scenes[name] else None;
      var distance := ShortestDistance(d1, d2);
      if distance.None? {
        return Skipped, picked;
      }
      var warned := distance.value < warningDistance;
      if distance.value < triggerDistance {
        if sequence.None? {
          return Crashed, picked;
        }
        ExecuteSequence(sequence.value);
        return Watched(warned, true), picked;
      }
      return Watched(warned, false), picked;
    }
  }
}
