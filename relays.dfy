/** The relay driver (plugins/relay.py): a logical on/off state and the one
 *  GPIO pin that carries it, HIGH for on or LOW for on depending on how the
 *  relay board is wired. */
module Relays {
  import opened Common
  import opened Gpio

  /** The level `_set_gpio_state` drives for a state: the state itself on an
   *  active-high board, its negation on an active-low one. */
  function LevelFor(activeHigh: bool, on: bool): (l: Level)
    ensures l == High <==> on == activeHigh
  {
    if activeHigh then (if on then High else Low)
    else (if on then Low else High)
  }

  class Relay {
    const pin: nat
    const activeHigh: bool
    var state: bool
    /** Everything this relay did to its pin, in order. */
    var log: seq<PinEvent>

    /** The pin carries the state: HIGH exactly when the state is the active one. */
    ghost predicate Valid()
      reads this
    {
      LevelOf(log, pin) == LevelFor(activeHigh, state)
    }

    /** The event that drives the pin for state `on`. */
    function Drive(on: bool): PinEvent {
      Output(pin, LevelFor(activeHigh, on))
    }

    /** One full cycle of `pulse_pattern`. */
    function Cycle(onTime: real, offTime: real): seq<PinEvent> {
      [Drive(true), Sleep(onTime), Drive(false), Sleep(offTime)]
    }

    /** `n` full cycles of `pulse_pattern`, one after the other. */
    function Cycles(onTime: real, offTime: real, n: nat): seq<PinEvent>
      decreases n
    {
      if n == 0 then [] else Cycles(onTime, offTime, n - 1) + Cycle(onTime, offTime)
    }

    /** `Relay(pin, active_high, initial_state)`: the pin is driven for the
     *  initial state straight away. */
    constructor (pin: nat, activeHigh: bool, initialState: bool)
      ensures this.pin == pin && this.activeHigh == activeHigh
      ensures state == initialState
      ensures log == [Output(pin, LevelFor(activeHigh, initialState))]
      ensures Valid()
    {
      this.pin := pin;
      this.activeHigh := activeHigh;
      state := initialState;
      log := [];
      new;
      SetGpioState(initialState);
      LevelAfter([], Drive(initialState), pin);
    }

    /** `_set_gpio_state`: drives the pin, leaving the recorded state alone. */
    method SetGpioState(on: bool)
      modifies this
      ensures log == old(log) + [Drive(on)]
      ensures state == old(state)
      ensures LevelOf(log, pin) == LevelFor(activeHigh, on)
    {
      LevelAfter(log, Drive(on), pin);
      log := log + [Drive(on)];
    }

    /** `on`: whatever the state was, it is now on. */
    method On()
      modifies this
      ensures state && Valid()
      ensures log == old(log) + [Drive(true)]
    {
      state := true;
      SetGpioState(true);
    }

    /** `off`: whatever the state was, it is now off. */
    method Off()
      modifies this
      ensures !state && Valid()
      ensures log == old(log) + [Drive(false)]
    {
      state := false;
      SetGpioState(false);
    }

    /** `toggle`. */
    method Toggle()
      modifies this
      ensures state == !old(state) && Valid()
      ensures log == old(log) + [Drive(!old(state))]
    {
      if state {
        Off();
      } else {
        On();
      }
    }

    /** `time.sleep`, as this relay's thread sees it. */
    method Wait(seconds: real)
      modifies this
      requires Valid()
      ensures state == old(state) && Valid()
      ensures log == old(log) + [Sleep(seconds)]
    {
      LevelAfter(log, Sleep(seconds), pin);
      log := log + [Sleep(seconds)];
    }

    /** `pulse(duration)`: on, wait, off. */
    method Pulse(duration: real)
      modifies this
      ensures !state && Valid()
      ensures log == old(log) + [Drive(true), Sleep(duration), Drive(false)]
    {
      On();
      Wait(duration);
      Off();
    }

    /** `pulse_pattern(on_time, off_time, count, stop_event)`. A stop, asked
     *  for through `stop_pulse_pattern` or the caller's event, stays asked for;
     *  `stopAt` is the first check that sees it, if any: the checks before and
     *  after the on phase of cycle `i` are numbers `2 * i` and `2 * i + 1`.
     *  Without a count the pattern runs until it is stopped, so a stop must
     *  come. `pulses` is the count of complete cycles that the final message
     *  reports; `interrupted` says that the last cycle was cut short after its
     *  on phase. */
    method PulsePattern(onTime: real, offTime: real, count: Option<int>, stopAt: Option<nat>)
      returns (pulses: nat, ghost interrupted: bool)
      modifies this
      requires count.None? ==> stopAt.Some?
      ensures !state && Valid()
      ensures log == old(log) + Cycles(onTime, offTime, pulses)
        + (if interrupted then [Drive(true), Sleep(onTime)] else []) + [Drive(false)]
      ensures PatternEnded(count, stopAt, pulses, interrupted)
    {
      pulses, interrupted := 0, false;
      ghost var start := log;
      while !Stopped(stopAt, 2 * pulses)
        invariant log == start + Cycles(onTime, offTime, pulses)
        invariant stopAt.Some? ==> 2 * pulses <= stopAt.value
        invariant count.Some? && 0 < pulses ==> pulses < count.value
        decreases if count.Some? then (if count.value < 1 then 1 else count.value) - pulses else stopAt.value - 2 * pulses
      {
        var completed := PulseOnce(onTime, offTime, Stopped(stopAt, 2 * pulses + 1));
        if !completed {
          interrupted := true;
          break;
        }
        assert log == start + (Cycles(onTime, offTime, pulses) + Cycle(onTime, offTime));
        pulses := pulses + 1;
        if count.Some? && pulses >= count.value {
          break;
        }
      }
      ghost var ended := log;
      Off();
      assert log == ended + [Drive(false)];
    }

    /** One cycle of the `pulse_pattern` loop: on for `onTime`, then, unless a
     *  stop is asked for at the check after the on phase, off for `offTime`. */
    method PulseOnce(onTime: real, offTime: real, stop: bool) returns (completed: bool)
      modifies this
      ensures completed == !stop
      ensures log == old(log) + if completed then Cycle(onTime, offTime) else [Drive(true), Sleep(onTime)]
    {
      On();
      Wait(onTime);
      if stop {
        return false;
      }
      Off();
      Wait(offTime);
      return true;
    }

    /** The immediate part of `timed_on(duration)`: on, and a timer started
     *  that will turn the relay off later. */
    method TimedOn(duration: real)
      modifies this
      ensures state && Valid()
      ensures log == old(log) + [Drive(true), OffTimer(duration)]
    {
      On();
      LevelAfter(log, OffTimer(duration), pin);
      log := log + [OffTimer(duration)];
    }

    /** `get_state`: the last state set. */
    method GetState() returns (s: bool)
      ensures s == state
    {
      return state;
    }

    /** `cleanup`: with no pattern thread running, just `off`. */
    method Cleanup()
      modifies this
      ensures !state && Valid()
      ensures log == old(log) + [Drive(false)]
    {
      Off();
    }
  }

  /** Whether a stop has been asked for by check number `k`. */
  predicate Stopped(stopAt: Option<nat>, k: nat) {
    stopAt.Some? && stopAt.value <= k
  }

  /** How `pulse_pattern` ends after `pulses` complete cycles: no stop was
   *  seen during them; it then stopped at the check before an on phase, was
   *  interrupted at the check after one, or reached its count. A count below
   *  one still allows the first cycle. Once the count is reached the loop
   *  breaks, so no on phase of a further cycle is cut short. */
  predicate PatternEnded(count: Option<int>, stopAt: Option<nat>, pulses: nat, interrupted: bool) {
    && (stopAt.Some? ==> 2 * pulses <= stopAt.value)
    && (interrupted ==> stopAt == Some(2 * pulses + 1))
    && (!interrupted ==> stopAt == Some(2 * pulses) || (count.Some? && 1 <= pulses && count.value <= pulses))
    && (count.Some? ==> pulses <= if count.value < 1 then 1 else count.value)
    && (interrupted && count.Some? ==> pulses < if count.value < 1 then 1 else count.value)
  }

  /** The way a pattern ends is determined by its count and its stop request. */
  lemma PatternEndsOneWay(count: Option<int>, stopAt: Option<nat>, p1: nat, i1: bool, p2: nat, i2: bool)
    requires PatternEnded(count, stopAt, p1, i1) && PatternEnded(count, stopAt, p2, i2)
    ensures p1 == p2 && i1 == i2
  {
  }

  /** With a count and no stop, the pattern completes exactly `count` cycles
   *  (one, for a count below one) and is never cut short. */
  lemma PatternCountsExactly(count: int, pulses: nat, interrupted: bool)
    requires PatternEnded(Some(count), None, pulses, interrupted)
    ensures !interrupted
    ensures pulses == if count < 1 then 1 else count
  {
  }

  /** A stop seen at the check after the on phase of cycle `i`, before any
   *  count is reached, cuts that cycle short after `i` complete cycles; a stop
   *  seen at the check before it ends the pattern after those cycles. */
  lemma PatternStopsWhereAsked(count: Option<int>, i: nat, pulses: nat, interrupted: bool)
    requires count.None? || i < if count.value < 1 then 1 else count.value
    ensures PatternEnded(count, Some(2 * i + 1), pulses, interrupted) ==> pulses == i && interrupted
    ensures PatternEnded(count, Some(2 * i), pulses, interrupted) ==> pulses == i && !interrupted
  {
  }

  /** `n` cycles are `4 n` events, cycle `i` occupying events `4 i` to `4 i + 3`:
   *  on, the on time, off, the off time. */
  lemma {:induction false} CyclesLayout(r: Relay, onTime: real, offTime: real, n: nat, i: nat)
    requires i < n
    ensures |r.Cycles(onTime, offTime, n)| == 4 * n
    ensures r.Cycles(onTime, offTime, n)[4 * i .. 4 * i + 4] == r.Cycle(onTime, offTime)
    decreases n
  {
    if i < n - 1 {
      CyclesLayout(r, onTime, offTime, n - 1, i);
      var prev := r.Cycles(onTime, offTime, n - 1);
      assert r.Cycles(onTime, offTime, n)[4 * i .. 4 * i + 4] == prev[4 * i .. 4 * i + 4];
    } else if n > 1 {
      CyclesLayout(r, onTime, offTime, n - 1, 0);
    }
  }
}
