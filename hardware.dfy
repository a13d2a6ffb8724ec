/** The boundary between the sequencing logic and the drivers (GPIO, pygame,
 *  UDP). The core never sees a driver: it holds handles, issues calls on them,
 *  and is told how each call came back. Everything it does to the outside world
 *  is recorded, in order, on a `Bus`. */
module Hardware {
  import opened Common

  /** An actuator handle, as found in a hardware registry. */
  datatype Handle = Handle(id: nat)

  /** The actuator methods the core calls. */
  datatype Op =
    | MoveForward(seconds: real)
    | MoveReverse(seconds: real)
    | MotorStop
    | RelayOn
    | RelayOff
    | TurnOn
    | TurnOff
    | SetColor(red: int, green: int, blue: int)
    | Flash(amount: int)
    | SetVolume(volume: Value)
    | Play

  datatype Call = Call(target: Handle, op: Op)

  /** How a call came back: it returned a value of the given truthiness, or it
   *  raised an exception. */
  datatype Outcome = Returned(truthy: bool) | Raised {
    /** The caller, which passes the returned value on as its own result,
     *  reports success. */
    predicate Succeeded() {
      Returned? && truthy
    }
  }

  /** One thing the core did: a call on a handle, a `time.sleep`, or the start of
   *  a timer thread that turns a relay off after a delay. */
  datatype Event =
    | Invoked(call: Call)
    | Slept(seconds: real)
    | OffScheduled(relay: Handle, after: real)

  /** The behaviour of the hardware: the outcome of `call` when `n` events have
   *  already been dispatched. Indexing by position lets the same call come back
   *  differently each time it is made. */
  type Env = (nat, Call) -> Outcome

  /** What a piece of sequencing code reports, and the events it dispatched. */
  datatype Run = Run(ok: bool, events: seq<Event>)

  /** The events of making `calls` in order. */
  function Invocations(calls: seq<Call>): (es: seq<Event>)
    ensures |es| == |calls|
    ensures forall i :: 0 <= i < |calls| ==> es[i] == Invoked(calls[i])
  {
    seq(|calls|, i requires 0 <= i < |calls| => Invoked(calls[i]))
  }

  /** None of the first `n` of `calls`, made from event number `t` on, raises. */
  ghost predicate Clean(calls: seq<Call>, env: Env, t: nat, n: nat)
    requires n <= |calls|
  {
    forall i :: 0 <= i < n ==> !env(t + i, calls[i]).Raised?
  }

  lemma CleanShift(calls: seq<Call>, env: Env, t: nat, n: nat)
    requires 0 < n <= |calls|
    ensures Clean(calls, env, t, n) <==> !env(t, calls[0]).Raised? && Clean(calls[1..], env, t + 1, n - 1)
  {
    if !env(t, calls[0]).Raised? && Clean(calls[1..], env, t + 1, n - 1) {
      forall i | 0 <= i < n ensures !env(t + i, calls[i]).Raised? {
        if i > 0 { assert calls[i] == calls[1..][i - 1]; }
      }
    }
  }

  /** Makes `calls` in order, the first one as event number `t`, inside one
   *  try-block: the first call that raises ends the block, which then reports
   *  failure. What a call returns is not looked at. */
  function Attempt(calls: seq<Call>, env: Env, t: nat): Run
    decreases |calls|
  {
    if calls == [] then Run(true, [])
    else if env(t, calls[0]).Raised? then Run(false, [Invoked(calls[0])])
    else
      var rest := Attempt(calls[1..], env, t + 1);
      Run(rest.ok, [Invoked(calls[0])] + rest.events)
  }

  /** The events are the calls, in order, up to and including the first call
   *  that raises. */
  lemma {:induction false} AttemptEvents(calls: seq<Call>, env: Env, t: nat)
    ensures var r := Attempt(calls, env, t);
      |r.events| <= |calls| && r.events == Invocations(calls[..|r.events|])
    decreases |calls|
  {
    if calls != [] && !env(t, calls[0]).Raised? {
      var rest := Attempt(calls[1..], env, t + 1);
      AttemptEvents(calls[1..], env, t + 1);
      assert calls[..|rest.events| + 1] == [calls[0]] + calls[1..][..|rest.events|];
    }
  }

  /** The block succeeds exactly when none of the calls raises, and then every
   *  call was made; when it fails, the last call made raised and none before it did. */
  lemma {:induction false} AttemptOutcome(calls: seq<Call>, env: Env, t: nat)
    ensures var r := Attempt(calls, env, t);
      && (r.ok <==> Clean(calls, env, t, |calls|))
      && (r.ok ==> |r.events| == |calls|)
      && (!r.ok ==> 0 < |r.events| <= |calls| && Clean(calls, env, t, |r.events| - 1)
                    && env(t + |r.events| - 1, calls[|r.events| - 1]).Raised?)
    decreases |calls|
  {
    if calls != [] {
      CleanShift(calls, env, t, |calls|);
      if !env(t, calls[0]).Raised? {
        var rest := Attempt(calls[1..], env, t + 1);
        AttemptOutcome(calls[1..], env, t + 1);
        if !rest.ok {
          CleanShift(calls, env, t, |rest.events| + 1);
          assert calls[|rest.events|] == calls[1..][|rest.events| - 1];
        }
      }
    }
  }

  /** A try-block over `a + b` is one over `a`, followed, only if no call of
   *  `a` raised, by one over `b` from where `a` ended. */
  lemma {:induction false} AttemptAppend(a: seq<Call>, b: seq<Call>, env: Env, t: nat)
    ensures Attempt(a + b, env, t) ==
      var ra := Attempt(a, env, t);
      if !ra.ok then ra
      else var rb := Attempt(b, env, t + |ra.events|); Run(rb.ok, ra.events + rb.events)
    decreases |a|
  {
    if a == [] {
      assert a + b == b;
    } else {
      assert (a + b)[0] == a[0];
      assert (a + b)[1..] == a[1..] + b;
      if !env(t, a[0]).Raised? {
        AttemptAppend(a[1..], b, env, t + 1);
      }
    }
  }

  /** One more call after calls that all went through. */
  lemma AttemptSnoc(made: seq<Call>, c: Call, env: Env, t: nat)
    requires Attempt(made, env, t) == Run(true, Invocations(made))
    ensures Attempt(made + [c], env, t) == Run(!env(t + |made|, c).Raised?, Invocations(made + [c]))
  {
    AttemptAppend(made, [c], env, t);
    assert [c][1..] == [];
  }

  /** A try-block in which no call raises makes every call and succeeds. */
  lemma AttemptClean(calls: seq<Call>, env: Env, t: nat)
    requires Clean(calls, env, t, |calls|)
    ensures Attempt(calls, env, t) == Run(true, Invocations(calls))
  {
    AttemptOutcome(calls, env, t);
    AttemptEvents(calls, env, t);
    assert calls[..|calls|] == calls;
  }

  /** A try-block whose call `k` is the first to raise fails after making the
   *  calls up to and including `k`. */
  lemma AttemptRaisesAt(calls: seq<Call>, env: Env, t: nat, k: nat)
    requires k < |calls| && Clean(calls, env, t, k) && env(t + k, calls[k]).Raised?
    ensures Attempt(calls, env, t) == Run(false, Invocations(calls[..k + 1]))
  {
    AttemptOutcome(calls, env, t);
    AttemptEvents(calls, env, t);
    var r := Attempt(calls, env, t);
    assert !r.ok;
    var last := |r.events| - 1;
    assert last == k;
  }

  /** Events recorded in four stretches after `before`. */
  lemma ConcatAssoc(before: seq<Event>, a: seq<Event>, b: seq<Event>, c: seq<Event>, d: seq<Event>)
    ensures before + a + b + c + d == before + (((a + b) + c) + d)
  {
  }

  /** The record of everything dispatched so far, and the hardware's behaviour. */
  class Bus {
    const env: Env
    var trace: seq<Event>

    constructor (env: Env)
      ensures this.env == env && trace == []
    {
      this.env := env;
      trace := [];
    }

    /** Calls an actuator method and reports how it came back. */
    method Perform(c: Call) returns (o: Outcome)
      modifies this
      ensures trace == old(trace) + [Invoked(c)]
      ensures o == env(|old(trace)|, c)
    {
      o := env(|trace|, c);
      trace := trace + [Invoked(c)];
    }

    /** `time.sleep(seconds)`: recorded, nothing else. */
    method Wait(seconds: real)
      modifies this
      ensures trace == old(trace) + [Slept(seconds)]
    {
      trace := trace + [Slept(seconds)];
    }

    /** Starts a daemon thread that will turn `relay` off after `after` seconds. */
    method ScheduleOff(relay: Handle, after: real)
      modifies this
      ensures trace == old(trace) + [OffScheduled(relay, after)]
    {
      trace := trace + [OffScheduled(relay, after)];
    }
  }
}
