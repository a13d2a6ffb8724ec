/** The GPIO pins the relay and motor drivers write, as a log of what each
 *  driver object did to its pins, in order. */
module Gpio {

  datatype Level = Low | High

  /** One thing a driver did: drive a pin, block in `time.sleep`, or start a
   *  daemon thread that will turn the relay off after a delay. */
  datatype PinEvent =
    | Output(pin: nat, level: Level)
    | Sleep(seconds: real)
    | OffTimer(seconds: real)

  /** The level of `pin` after `log`: the last level written to it, or LOW for
   *  a pin set up as an output and never written. */
  function LevelOf(log: seq<PinEvent>, pin: nat): Level
    decreases |log|
  {
    if log == [] then Low
    else
      var last := log[|log| - 1];
      if last.Output? && last.pin == pin then last.level
      else LevelOf(log[..|log| - 1], pin)
  }

  /** Writing a level to a pin sets that pin and leaves the others alone; any
   *  other event changes no pin. */
  lemma LevelAfter(log: seq<PinEvent>, e: PinEvent, pin: nat)
    ensures LevelOf(log + [e], pin) == if e.Output? && e.pin == pin then e.level else LevelOf(log, pin)
  {
    assert (log + [e])[..|log|] == log;
  }

  /** At no point of `log` were pins `a` and `b` both HIGH. */
  ghost predicate NeverBothHigh(log: seq<PinEvent>, a: nat, b: nat) {
    forall n :: 0 <= n <= |log| ==> !(LevelOf(log[..n], a) == High && LevelOf(log[..n], b) == High)
  }

  /** The safety of a log extended by one event is that of the log, and of
   *  the state the new event leaves. */
  lemma NeverBothHighSnoc(log: seq<PinEvent>, e: PinEvent, a: nat, b: nat)
    ensures NeverBothHigh(log + [e], a, b) <==>
      NeverBothHigh(log, a, b) && !(LevelOf(log + [e], a) == High && LevelOf(log + [e], b) == High)
  {
    var log' := log + [e];
    assert log'[..|log'|] == log';
    forall n | 0 <= n <= |log| ensures log'[..n] == log[..n] {
    }
    if NeverBothHigh(log, a, b) && !(LevelOf(log', a) == High && LevelOf(log', b) == High) {
      forall n | 0 <= n <= |log'| ensures !(LevelOf(log'[..n], a) == High && LevelOf(log'[..n], b) == High) {
        if n <= |log| {
          assert log'[..n] == log[..n];
        }
      }
    }
    if NeverBothHigh(log', a, b) {
      forall n | 0 <= n <= |log| ensures !(LevelOf(log[..n], a) == High && LevelOf(log[..n], b) == High) {
        assert log'[..n] == log[..n];
      }
    }
  }
}
