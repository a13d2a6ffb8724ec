/** The ultrasonic distance sensor (plugins/ultrasonic.py): converting an echo
 *  time to a distance, the bounded history of accepted readings, the record
 *  of the last significant change, and the movement and presence tests over
 *  them. How long the echo pin stays HIGH is not measured here: each reading
 *  is handed the echo duration, or `None` when `_wait_for_echo` timed out. */
module Ultrasonic {
  import opened Common
  import opened Gpio

  /** The speed of sound the driver assumes, in cm/s. */
  const SpeedOfSound: real := 34300.0
  /** `max_history`: how many readings the history keeps. */
  const MaxHistory: nat := 10
  const DefaultChangeThreshold: real := 5.0
  const DefaultMaxDistance: real := 2000.0
  const DefaultTimeout: real := 0.1
  /** The trigger pulse width, 10 microseconds. */
  const PulseWidth: real := 0.00001
  /** The pause between the samples of `get_average_distance`. */
  const SamplePause: real := 0.05

  function Abs(x: real): real {
    if x < 0.0 then -x else x
  }

  /** The distance an echo of `echo` seconds travelled there and back. */
  function EchoDistance(echo: real): (d: real)
    ensures 2.0 * d == echo * SpeedOfSound
  {
    (echo * SpeedOfSound) / 2.0
  }

  /** What `read_distance` accepts: an echo that came back, from no further
   *  than `maxDistance`. */
  function Reading(echo: Option<real>, maxDistance: real): (r: Option<real>)
    ensures r.Some? <==> echo.Some? && EchoDistance(echo.value) <= maxDistance
    ensures r.Some? ==> r.value == EchoDistance(echo.value) && r.value <= maxDistance
  {
    if echo.None? then None
    else
      var d := EchoDistance(echo.value);
      if d > maxDistance then None else Some(d)
  }

  /** The last `n` elements of `xs`, or all of them when there are fewer. */
  function LastN(xs: seq<real>, n: nat): (r: seq<real>)
    ensures |r| == if |xs| <= n then |xs| else n
    ensures r == xs[|xs| - |r|..]
  {
    if |xs| <= n then xs else xs[|xs| - n..]
  }

  /** The history after `_update_reading` appends `d`: the oldest entry is
   *  popped once when the list grew past `max_history`. */
  function Appended(history: seq<real>, d: real): seq<real> {
    var h := history + [d];
    if |h| > MaxHistory then h[1..] else h
  }

  /** A history that holds the last ten readings of `all` holds, once `d` is
   *  appended, the last ten of `all + [d]`. */
  lemma AppendedKeepsWindow(all: seq<real>, d: real)
    ensures Appended(LastN(all, MaxHistory), d) == LastN(all + [d], MaxHistory)
  {
    var h := LastN(all, MaxHistory);
    if |all| >= MaxHistory {
      assert h + [d] == (all + [d])[|all| - MaxHistory..];
      assert (h + [d])[1..] == (all + [d])[|all + [d]| - MaxHistory..];
    }
  }

  /** `last_significant_change`. */
  datatype Change = Change(from: real, to: real, change: real, timestamp: real)

  /** What a callback was handed: a distance, or a change record. */
  datatype Notice = DistanceNotice(distance: real) | ChangeNotice(record: Change)

  /** The change a reading of `d` at time `now` records after `previous`, if
   *  any. */
  function SignificantChange(previous: Option<real>, d: real, threshold: real, now: real): (c: Option<Change>)
    ensures c.Some? <==> previous.Some? && Abs(d - previous.value) >= threshold
    ensures c.Some? ==> c.value == Change(previous.value, d, Abs(d - previous.value), now)
  {
    if previous.Some? && Abs(d - previous.value) >= threshold then
      Some(Change(previous.value, d, Abs(d - previous.value), now))
    else None
  }

  /** The part of the sensor that `_update_reading` changes besides the
   *  history: the last reading, the last change, and what the callbacks were
   *  handed. */
  datatype Watch = Watch(lastReading: Option<real>, lastChange: Option<Change>, notices: seq<Notice>)

  /** The callbacks the sensor holds, and the threshold it compares against. */
  datatype Listeners = Listeners(threshold: real, onDistance: bool, onChange: bool)

  /** `_update_reading(d)` at time `now`, on the watched state. */
  function Observe(w: Watch, d: real, now: real, ls: Listeners): Watch {
    var c := SignificantChange(w.lastReading, d, ls.threshold, now);
    Watch(
      Some(d),
      if c.Some? then c else w.lastChange,
      w.notices
        + (if c.Some? && ls.onChange then [ChangeNotice(c.value)] else [])
        + (if ls.onDistance then [DistanceNotice(d)] else []))
  }

  /** A reading is the last reading afterwards; a change is recorded, and the
   *  change callback handed it before the distance callback gets the
   *  distance, exactly when there was a previous reading at least the
   *  threshold away; otherwise the last change stays. */
  lemma ObserveFacts(w: Watch, d: real, now: real, ls: Listeners)
    ensures var w' := Observe(w, d, now, ls);
      && w'.lastReading == Some(d)
      && (w'.lastChange != w.lastChange ==> w.lastReading.Some? && Abs(d - w.lastReading.value) >= ls.threshold)
      && (w.lastReading.Some? && Abs(d - w.lastReading.value) >= ls.threshold ==>
            w'.lastChange == Some(Change(w.lastReading.value, d, Abs(d - w.lastReading.value), now)))
      && var sig := w.lastReading.Some? && Abs(d - w.lastReading.value) >= ls.threshold;
      && w'.notices[..|w.notices|] == w.notices
      && |w'.notices| == |w.notices| + (if sig && ls.onChange then 1 else 0) + (if ls.onDistance then 1 else 0)
      && (sig && ls.onChange ==>
            w'.notices[|w.notices|] == ChangeNotice(Change(w.lastReading.value, d, Abs(d - w.lastReading.value), now)))
      && (ls.onDistance ==> w'.notices[|w'.notices| - 1] == DistanceNotice(d))
      && (!ls.onDistance && |w'.notices| > |w.notices| ==> !w'.notices[|w'.notices| - 1].DistanceNotice?)
  {
  }

  /** One accepted sample of `get_average_distance`: its distance and the
   *  time it was taken. */
  datatype Sample = Sample(distance: real, at: real)

  /** The accepted samples among the first `n`: sample `i` has echo `echo(i)`
   *  and is taken at `clock(i)`. */
  function Accepted(echo: nat -> Option<real>, clock: nat -> real, maxDistance: real, n: nat): seq<Sample>
    decreases n
  {
    if n == 0 then []
    else
      var r := Reading(echo(n - 1), maxDistance);
      Accepted(echo, clock, maxDistance, n - 1) + (if r.Some? then [Sample(r.value, clock(n - 1))] else [])
  }

  function Distances(samples: seq<Sample>): (ds: seq<real>)
    ensures |ds| == |samples|
    decreases |samples|
  {
    if samples == [] then [] else Distances(samples[..|samples| - 1]) + [samples[|samples| - 1].distance]
  }

  /** The watched state after `Observe` on each sample in turn. */
  function ObserveAll(w: Watch, samples: seq<Sample>, ls: Listeners): Watch
    decreases |samples|
  {
    if samples == [] then w
    else
      var last := samples[|samples| - 1];
      Observe(ObserveAll(w, samples[..|samples| - 1], ls), last.distance, last.at, ls)
  }

  /** Sample `n` is accepted exactly when its echo gives a reading. */
  lemma AcceptedStep(echo: nat -> Option<real>, clock: nat -> real, maxDistance: real, n: nat)
    ensures var r := Reading(echo(n), maxDistance);
      Accepted(echo, clock, maxDistance, n + 1) ==
        Accepted(echo, clock, maxDistance, n) + (if r.Some? then [Sample(r.value, clock(n))] else [])
  {
  }

  /** One more sample adds its distance, and one more observation. */
  lemma SampleFolds(ss: seq<Sample>, s: Sample, w: Watch, ls: Listeners)
    ensures Distances(ss + [s]) == Distances(ss) + [s.distance]
    ensures ObserveAll(w, ss + [s], ls) == Observe(ObserveAll(w, ss, ls), s.distance, s.at, ls)
  {
    assert (ss + [s])[..|ss|] == ss;
  }

  function Sum(xs: seq<real>): real
    decreases |xs|
  {
    if xs == [] then 0.0 else Sum(xs[..|xs| - 1]) + xs[|xs| - 1]
  }

  /** `sum(readings) / len(readings)`, or `None` for no readings. */
  function Average(xs: seq<real>): (r: Option<real>)
    ensures r.Some? <==> xs != []
  {
    if xs == [] then None else Some(Sum(xs) / (|xs| as real))
  }

  /** Values between `lo` and `hi` sum to between `|xs| * lo` and `|xs| * hi`. */
  lemma {:induction false} SumBounds(xs: seq<real>, lo: real, hi: real)
    requires forall i :: 0 <= i < |xs| ==> lo <= xs[i] <= hi
    ensures (|xs| as real) * lo <= Sum(xs) <= (|xs| as real) * hi
    decreases |xs|
  {
    if xs != [] {
      var init := xs[..|xs| - 1];
      SumBounds(init, lo, hi);
      assert (|xs| as real) * lo == (|init| as real) * lo + lo;
      assert (|xs| as real) * hi == (|init| as real) * hi + hi;
    }
  }

  /** The average of readings that all lie between `lo` and `hi` lies between
   *  them too; in particular it never exceeds the sensor's range. */
  lemma AverageBounds(xs: seq<real>, lo: real, hi: real)
    requires xs != []
    requires forall i :: 0 <= i < |xs| ==> lo <= xs[i] <= hi
    ensures lo <= Average(xs).value <= hi
  {
    SumBounds(xs, lo, hi);
    QuotientBounds(Sum(xs), |xs| as real, lo, hi);
  }

  lemma QuotientBounds(s: real, n: real, lo: real, hi: real)
    requires 0.0 < n && n * lo <= s <= n * hi
    ensures lo <= s / n <= hi
  {
  }

  /** The readings averaged are exactly the accepted ones, in order: every
   *  one within range, and each sample that came back in range among them. */
  lemma {:induction false} AcceptedFacts(echo: nat -> Option<real>, clock: nat -> real, maxDistance: real, n: nat)
    ensures var ss := Accepted(echo, clock, maxDistance, n);
      && |ss| <= n
      && (forall k :: 0 <= k < |ss| ==> ss[k].distance <= maxDistance)
      && (ss == [] <==> forall i :: 0 <= i < n ==> Reading(echo(i), maxDistance).None?)
    decreases n
  {
    if n > 0 {
      AcceptedFacts(echo, clock, maxDistance, n - 1);
      var ss := Accepted(echo, clock, maxDistance, n);
      if ss == [] {
        forall i | 0 <= i < n ensures Reading(echo(i), maxDistance).None? {
          if i < n - 1 {
            assert Accepted(echo, clock, maxDistance, n - 1) == [];
          }
        }
      }
    }
  }

  /** The elements of `h` Python's `h[-k:]` selects, for any integer `k`: the
   *  last `k` for a positive `k` (all when there are fewer), and for zero or
   *  a negative `k` everything from index `-k` on. */
  function PyTail(h: seq<real>, k: int): (r: seq<real>)
    ensures 0 < k ==> r == LastN(h, k)
    ensures k <= 0 ==> r == if -k <= |h| then h[-k..] else []
  {
    if 0 < k then LastN(h, k)
    else if -k <= |h| then h[-k..] else []
  }

  function MaxOf(xs: seq<real>): (m: real)
    requires xs != []
    ensures m in xs && forall i :: 0 <= i < |xs| ==> xs[i] <= m
    decreases |xs|
  {
    if |xs| == 1 then xs[0]
    else
      var rest := MaxOf(xs[1..]);
      assert forall i :: 1 <= i < |xs| ==> xs[i] == xs[1..][i - 1];
      if xs[0] >= rest then xs[0] else rest
  }

  function MinOf(xs: seq<real>): (m: real)
    requires xs != []
    ensures m in xs && forall i :: 0 <= i < |xs| ==> m <= xs[i]
    decreases |xs|
  {
    if |xs| == 1 then xs[0]
    else
      var rest := MinOf(xs[1..]);
      assert forall i :: 1 <= i < |xs| ==> xs[i] == xs[1..][i - 1];
      if xs[0] <= rest then xs[0] else rest
  }

  /** Some two of `xs` lie more than `threshold` apart. */
  predicate Spread(xs: seq<real>, threshold: real) {
    exists i, j :: 0 <= i < |xs| && 0 <= j < |xs| && xs[i] - xs[j] > threshold
  }

  /** The max-minus-min test says exactly whether some two readings lie more
   *  than the threshold apart. */
  lemma VariationIsSpread(xs: seq<real>, threshold: real)
    requires xs != []
    ensures MaxOf(xs) - MinOf(xs) > threshold <==> Spread(xs, threshold)
  {
    var hi, lo := MaxOf(xs), MinOf(xs);
    if hi - lo > threshold {
      var i :| 0 <= i < |xs| && xs[i] == hi;
      var j :| 0 <= j < |xs| && xs[j] == lo;
      assert xs[i] - xs[j] > threshold;
    }
  }

  /** The pin events of one `_send_trigger_pulse`. */
  function TriggerPulse(pin: nat): seq<PinEvent> {
    [Output(pin, High), Sleep(PulseWidth), Output(pin, Low)]
  }

  /** The pin events of the first `n` samples of `get_average_distance`. */
  function SamplingEvents(pin: nat, n: nat): seq<PinEvent>
    decreases n
  {
    if n == 0 then [] else SamplingEvents(pin, n - 1) + TriggerPulse(pin) + [Sleep(SamplePause)]
  }

  class UltrasonicSensor {
    const triggerPin: nat
    const echoPin: nat
    const maxDistance: real
    const timeout: real
    var lastReading: Option<real>
    var readingHistory: seq<real>
    /** Every reading accepted since construction. */
    ghost var allReadings: seq<real>
    var changeThreshold: real
    var lastSignificantChange: Option<Change>
    /** Whether a distance callback, and a change callback, is set. */
    var hasDistanceCallback: bool
    var hasChangeCallback: bool
    /** What the callbacks were handed, in order. */
    var notices: seq<Notice>
    /** What the sensor did to its trigger pin, and its pauses. */
    var log: seq<PinEvent>

    /** The history is the last ten readings accepted. */
    ghost predicate Valid()
      reads this
    {
      readingHistory == LastN(allReadings, MaxHistory)
    }

    function Watched(): Watch
      reads this
    {
      Watch(lastReading, lastSignificantChange, notices)
    }

    function Listening(): Listeners
      reads this
    {
      Listeners(changeThreshold, hasDistanceCallback, hasChangeCallback)
    }

    /** `UltrasonicSensor(trigger_pin, echo_pin, max_distance, timeout)`: no
     *  reading and no history yet, the change threshold at 5 cm, no
     *  callbacks, and the trigger pin driven LOW. */
    constructor (triggerPin: nat, echoPin: nat, maxDistance: real, timeout: real)
      ensures this.triggerPin == triggerPin && this.echoPin == echoPin
      ensures this.maxDistance == maxDistance && this.timeout == timeout
      ensures lastReading == None && readingHistory == [] && allReadings == []
      ensures changeThreshold == DefaultChangeThreshold && lastSignificantChange == None
      ensures !hasDistanceCallback && !hasChangeCallback && notices == []
      ensures log == [Output(triggerPin, Low)]
      ensures Valid()
    {
      this.triggerPin := triggerPin;
      this.echoPin := echoPin;
      this.maxDistance := maxDistance;
      this.timeout := timeout;
      lastReading := None;
      readingHistory := [];
      allReadings := [];
      changeThreshold := DefaultChangeThreshold;
      lastSignificantChange := None;
      hasDistanceCallback := false;
      hasChangeCallback := false;
      notices := [];
      log := [Output(triggerPin, Low)];
    }

    /** `_update_reading(d)` at time `now`. */
    method UpdateReading(d: real, now: real)
      modifies this
      requires Valid()
      ensures readingHistory == Appended(old(readingHistory), d)
      ensures allReadings == old(allReadings) + [d] && Valid()
      ensures Watched() == Observe(old(Watched()), d, now, Listening())
      ensures Listening() == old(Listening()) && log == old(log)
    {
      ghost var w := Observe(Watched(), d, now, Listening());
      ghost var c := SignificantChange(lastReading, d, changeThreshold, now);
      ghost var noticesBefore := notices;
      var previous := lastReading;
      lastReading := Some(d);
      AppendedKeepsWindow(allReadings, d);
      readingHistory := readingHistory + [d];
      if |readingHistory| > MaxHistory {
        readingHistory := readingHistory[1..];
      }
      allReadings := allReadings + [d];
      if previous.Some? {
        var change := Abs(d - previous.value);
        if change >= changeThreshold {
          lastSignificantChange := Some(Change(previous.value, d, change, now));
          if hasChangeCallback {
            notices := notices + [ChangeNotice(lastSignificantChange.value)];
          }
        }
      }
      assert lastSignificantChange == w.lastChange;
      assert notices == noticesBefore + (if c.Some? && hasChangeCallback then [ChangeNotice(c.value)] else []);
      if hasDistanceCallback {
        notices := notices + [DistanceNotice(d)];
      }
    }

    /** `read_distance`, given how the echo came back: the trigger pulse is
     *  sent, and a reading out of range or timed out changes nothing else. */
    method ReadDistance(echo: Option<real>, now: real) returns (d: Option<real>)
      modifies this
      requires Valid()
      ensures d == Reading(echo, maxDistance)
      ensures log == old(log) + TriggerPulse(triggerPin)
      ensures Valid() && Listening() == old(Listening())
      ensures d.None? ==>
        readingHistory == old(readingHistory) && allReadings == old(allReadings) && Watched() == old(Watched())
      ensures d.Some? ==>
        && readingHistory == Appended(old(readingHistory), d.value)
        && allReadings == old(allReadings) + [d.value]
        && Watched() == Observe(old(Watched()), d.value, now, Listening())
    {
      log := log + TriggerPulse(triggerPin);
      if echo.None? {
        return None;
      }
      var distance := (echo.value * SpeedOfSound) / 2.0;
      if distance > maxDistance {
        return None;
      }
      UpdateReading(distance, now);
      return Some(distance);
    }

    /** `get_average_distance(samples)`: sample `i` sees echo `echo(i)` at
     *  time `clock(i)`; the result averages the accepted samples only. */
    method GetAverageDistance(samples: int, echo: nat -> Option<real>, clock: nat -> real) returns (avg: Option<real>)
      modifies this
      requires Valid()
      ensures var n := if samples < 0 then 0 else samples;
        var accepted := Accepted(echo, clock, maxDistance, n);
        && avg == Average(Distances(accepted))
        && allReadings == old(allReadings) + Distances(accepted) && Valid()
        && Watched() == ObserveAll(old(Watched()), accepted, Listening())
        && log == old(log) + SamplingEvents(triggerPin, n)
      ensures Listening() == old(Listening())
    {
      var n := if samples < 0 then 0 else samples;
      var readings: seq<real> := [];
      ghost var accepted: seq<Sample> := [];
      for i := 0 to n
        invariant Valid() && Listening() == old(Listening())
        invariant accepted == Accepted(echo, clock, maxDistance, i)
        invariant readings == Distances(accepted)
        invariant allReadings == old(allReadings) + readings
        invariant Watched() == ObserveAll(old(Watched()), accepted, Listening())
        invariant log == old(log) + SamplingEvents(triggerPin, i)
      {
        var distance := ReadDistance(echo(i), clock(i));
        AcceptedStep(echo, clock, maxDistance, i);
        if distance.Some? {
          readings := readings + [distance.value];
          SampleFolds(accepted, Sample(distance.value, clock(i)), old(Watched()), Listening());
          accepted := accepted + [Sample(distance.value, clock(i))];
        }
        log := log + [Sleep(SamplePause)];
      }
      if readings == [] {
        return None;
      }
      return Some(Sum(readings) / (|readings| as real));
    }

    /** `get_reading_history`: a sequence is a value, so the caller's copy
     *  and the sensor's history cannot affect each other. */
    method GetReadingHistory() returns (h: seq<real>)
      ensures h == readingHistory
    {
      return readingHistory;
    }

    method GetLastReading() returns (r: Option<real>)
      ensures r == lastReading
    {
      return lastReading;
    }

    method GetLastChange() returns (c: Option<Change>)
      ensures c == lastSignificantChange
    {
      return lastSignificantChange;
    }

    method SetChangeThreshold(threshold: real)
      modifies this
      requires Valid()
      ensures changeThreshold == threshold
      ensures Valid() && allReadings == old(allReadings) && log == old(log)
      ensures Watched() == old(Watched()) && readingHistory == old(readingHistory)
      ensures hasDistanceCallback == old(hasDistanceCallback) && hasChangeCallback == old(hasChangeCallback)
    {
      changeThreshold := threshold;
    }

    /** `set_distance_callback`; `present` is whether the callback given is
     *  one (a `None` callback is never called). */
    method SetDistanceCallback(present: bool)
      modifies this
      requires Valid()
      ensures hasDistanceCallback == present
      ensures Valid() && allReadings == old(allReadings) && log == old(log)
      ensures Watched() == old(Watched()) && readingHistory == old(readingHistory)
      ensures changeThreshold == old(changeThreshold) && hasChangeCallback == old(hasChangeCallback)
    {
      hasDistanceCallback := present;
    }

    method SetChangeCallback(present: bool)
      modifies this
      requires Valid()
      ensures hasChangeCallback == present
      ensures Valid() && allReadings == old(allReadings) && log == old(log)
      ensures Watched() == old(Watched()) && readingHistory == old(readingHistory)
      ensures changeThreshold == old(changeThreshold) && hasDistanceCallback == old(hasDistanceCallback)
    {
      hasChangeCallback := present;
    }

    /** `detect_movement(samples, threshold)`: `None` where Python's `min`
     *  raises on an empty slice. */
    function DetectMovement(samples: int, threshold: real): (r: Option<bool>)
      reads this
      ensures |readingHistory| < samples ==> r == Some(false)
      ensures 0 < samples <= |readingHistory| ==>
        r == Some(Spread(readingHistory[|readingHistory| - samples..], threshold))
      ensures r.None? <==> samples <= 0 && |readingHistory| <= -samples
      ensures samples <= 0 && -samples < |readingHistory| ==>
        r == Some(Spread(readingHistory[-samples..], threshold))
      ensures samples <= |readingHistory| && r.Some? ==> r == Some(Spread(PyTail(readingHistory, samples), threshold))
    {
      if |readingHistory| < samples then Some(false)
      else
        var recent := PyTail(readingHistory, samples);
        if recent == [] then None
        else
          VariationIsSpread(recent, threshold);
          Some(MaxOf(recent) - MinOf(recent) > threshold)
    }

    /** `is_object_present(threshold)`. */
    function IsObjectPresent(threshold: real): (r: bool)
      reads this
      ensures lastReading.None? ==> !r
      ensures lastReading.Some? ==> (r <==> lastReading.value < threshold)
    {
      if lastReading.None? then false else lastReading.value < threshold
    }
  }
}
