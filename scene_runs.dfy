/** What the scene manager does when it executes a scene, as functions of the
 *  configuration, the hardware registry and the hardware's behaviour: the
 *  result it reports and the events it dispatches, from event number `t` on. */
module SceneRuns {
  import opened Common
  import opened Hardware
  import opened SceneConfig

  /** The hardware registry handed over by `set_hardware_references`; a name
   *  bound to `None` is simply absent. */
  type Refs = map<string, Handle>

  const Refused := Run(false, [])
  const Nothing := Run(true, [])

  /** One run followed by another that starts where the first one ended. */
  function Then(first: Run, second: Run): Run {
    Run(first.ok && second.ok, first.events + second.events)
  }

  // ---------------------------------------------------------------- lights

  function LightColour(cfg: LightConfig): seq<int> {
    cfg.color.GetOr([0, 0, 0])
  }

  /** The light calls, in the order `execute_light_effect` makes them, for a
   *  colour of length 3. */
  function LightCalls(cfg: LightConfig, lights: Handle): seq<Call>
    requires |LightColour(cfg)| == 3
  {
    var rgb := LightColour(cfg);
    (if cfg.on.GetOr(Flag(false)).Truthy() then [Call(lights, TurnOn)] else [])
    + [Call(lights, SetColor(rgb[0], rgb[1], rgb[2]))]
    + (if cfg.flash.GetOr(Flag(false)).Truthy() then [Call(lights, Flash(cfg.flashAmount.GetOr(10)))] else [])
    + (if cfg.off.GetOr(Flag(false)).Truthy() then [Call(lights, TurnOff)] else [])
  }

  /** The light effect sets the configured colour, and turns the light on,
   *  flashes it and turns it off exactly when configured to; it addresses the
   *  lights and nothing else. */
  lemma LightCallsFacts(cfg: LightConfig, lights: Handle)
    requires |LightColour(cfg)| == 3
    ensures var calls := LightCalls(cfg, lights); var rgb := LightColour(cfg);
      && Call(lights, SetColor(rgb[0], rgb[1], rgb[2])) in calls
      && (Call(lights, TurnOn) in calls <==> cfg.on.GetOr(Flag(false)).Truthy())
      && (Call(lights, Flash(cfg.flashAmount.GetOr(10))) in calls <==> cfg.flash.GetOr(Flag(false)).Truthy())
      && (Call(lights, TurnOff) in calls <==> cfg.off.GetOr(Flag(false)).Truthy())
      && (forall c :: c in calls ==> c.target == lights)
  {
  }

  /** Where each light call sits in the list. */
  lemma LightCallsLayout(cfg: LightConfig, lights: Handle)
    requires |LightColour(cfg)| == 3
    ensures var calls := LightCalls(cfg, lights); var rgb := LightColour(cfg);
      var n1 := if cfg.on.GetOr(Flag(false)).Truthy() then 1 else 0;
      var n3 := if cfg.flash.GetOr(Flag(false)).Truthy() then 1 else 0;
      var n4 := if cfg.off.GetOr(Flag(false)).Truthy() then 1 else 0;
      && |calls| == n1 + 1 + n3 + n4
      && (n1 == 1 ==> calls[0] == Call(lights, TurnOn))
      && calls[n1] == Call(lights, SetColor(rgb[0], rgb[1], rgb[2]))
      && (n3 == 1 ==> calls[n1 + 1] == Call(lights, Flash(cfg.flashAmount.GetOr(10))))
      && (n4 == 1 ==> calls[n1 + 1 + n3] == Call(lights, TurnOff))
  {
  }

  /** `execute_light_effect`: what the light calls return is not looked at
   *  (a falsy `set_color` only logs a warning); only an exception fails it. */
  function LightRun(cfg: LightConfig, refs: Refs, env: Env, t: nat): Run {
    if "lights" !in refs || |LightColour(cfg)| != 3 then Refused
    else Attempt(LightCalls(cfg, refs["lights"]), env, t)
  }

  // ---------------------------------------------------------------- audio

  /** The registry name of the player for a sound's short name. */
  function PlayerKey(file: string): Option<string> {
    if file == "opening" then Some("opening_sound")
    else if file == "creepy" then Some("creepy_sound")
    else if file == "thump" then Some("thump_sound")
    else None
  }

  /** `execute_audio_effect`: set the volume, then report what `play` returns. */
  function AudioRun(cfg: AudioConfig, refs: Refs, env: Env, t: nat): Run {
    if cfg.file.None? || cfg.file.value == [] then Refused
    else match PlayerKey(cfg.file.value)
      case None => Refused
      case Some(key) =>
        if key !in refs then Refused
        else
          var setVolume := Call(refs[key], SetVolume(cfg.volume.GetOr(Number(0.7))));
          var play := Call(refs[key], Play);
          if env(t, setVolume).Raised? then Run(false, [Invoked(setVolume)])
          else Run(env(t + 1, play).Succeeded(), [Invoked(setVolume), Invoked(play)])
  }

  // ---------------------------------------------------------------- motor

  /** The motor call for an action, if the action is one the manager knows. */
  function MotorOp(cfg: MotorConfig): Option<Op> {
    var seconds := cfg.duration.GetOr(6.0);
    if cfg.action == Some("open") then Some(MoveForward(seconds))
    else if cfg.action == Some("close") then Some(MoveReverse(seconds))
    else None
  }

  /** `execute_motor_effect`: the result is what the motor call returns. */
  function MotorRun(cfg: MotorConfig, refs: Refs, env: Env, t: nat): Run {
    if "motor" !in refs || MotorOp(cfg).None? then Refused
    else
      var c := Call(refs["motor"], MotorOp(cfg).value);
      Run(env(t, c).Succeeded(), [Invoked(c)])
  }

  // ---------------------------------------------------------------- relay

  /** The registry name of a relay. */
  function RelayKey(name: string): string {
    name + "_relay"
  }

  function RelayOp(cfg: RelayConfig): Option<Op> {
    if cfg.action == Some("on") then Some(RelayOn)
    else if cfg.action == Some("off") then Some(RelayOff)
    else None
  }

  /** `execute_relay_effect`: the result is what `on`/`off` returns; after a
   *  successful-or-not `on` with a positive duration, an auto-off timer starts. */
  function RelayRun(cfg: RelayConfig, refs: Refs, env: Env, t: nat): Run {
    if cfg.name.None? || cfg.name.value == [] || RelayKey(cfg.name.value) !in refs || RelayOp(cfg).None? then Refused
    else
      var relay := refs[RelayKey(cfg.name.value)];
      var c := Call(relay, RelayOp(cfg).value);
      var seconds := cfg.duration.GetOr(0.0);
      if env(t, c).Raised? then Run(false, [Invoked(c)])
      else
        var timer := if seconds > 0.0 && cfg.action == Some("on") then [OffScheduled(relay, seconds)] else [];
        Run(env(t, c).truthy, [Invoked(c)] + timer)
  }

  // ---------------------------------------------------------------- effects, steps, scenes

  function LightPart(e: Effects, refs: Refs, env: Env, t: nat): Run {
    if e.lights.Some? then LightRun(e.lights.value, refs, env, t) else Nothing
  }

  function AudioPart(e: Effects, refs: Refs, env: Env, t: nat): Run {
    if e.audio.Some? then AudioRun(e.audio.value, refs, env, t) else Nothing
  }

  function MotorPart(e: Effects, refs: Refs, env: Env, t: nat): Run {
    if e.motor.Some? then MotorRun(e.motor.value, refs, env, t) else Nothing
  }

  function RelayPart(e: Effects, refs: Refs, env: Env, t: nat): Run {
    if e.relay.Some? then RelayRun(e.relay.value, refs, env, t) else Nothing
  }

  /** `execute_effects`: every present effect, in the order lights, audio,
   *  motor, relay; the result is the conjunction of theirs. */
  function EffectsRun(e: Effects, refs: Refs, env: Env, t: nat): Run {
    var l := LightPart(e, refs, env, t);
    var a := AudioPart(e, refs, env, t + |l.events|);
    var m := MotorPart(e, refs, env, t + |l.events| + |a.events|);
    var r := RelayPart(e, refs, env, t + |l.events| + |a.events| + |m.events|);
    Then(Then(Then(l, a), m), r)
  }

  /** The effects run assembled from its four parts, each started where the
   *  one before it ended. */
  lemma EffectsRunIs(e: Effects, refs: Refs, env: Env, t: nat, l: Run, a: Run, m: Run, x: Run)
    requires l == LightPart(e, refs, env, t)
    requires a == AudioPart(e, refs, env, t + |l.events|)
    requires m == MotorPart(e, refs, env, t + |l.events| + |a.events|)
    requires x == RelayPart(e, refs, env, t + |l.events| + |a.events| + |m.events|)
    ensures EffectsRun(e, refs, env, t) == Then(Then(Then(l, a), m), x)
  {
  }

  function StepDuration(s: Step): real {
    s.duration.GetOr(0.0)
  }

  /** `execute_step`: the effects, then the pause, which is taken only when
   *  the effects succeeded and the duration is positive. */
  function StepRun(s: Step, refs: Refs, env: Env, t: nat): Run {
    var e := EffectsRun(s.effects.GetOr(NoEffects), refs, env, t);
    if !e.ok then e
    else if StepDuration(s) > 0.0 then Run(true, e.events + [Slept(StepDuration(s))])
    else e
  }

  /** What one step does, started as event number `t`. */
  type StepRunner = (Step, nat) -> Run

  /** The steps of a scene run against registry `refs` and hardware `env`. */
  function Runner(refs: Refs, env: Env): StepRunner {
    (s: Step, t: nat) => StepRun(s, refs, env, t)
  }

  /** `run` runs every step as `execute_step` does against `refs` and `env`. */
  ghost predicate RunsSteps(run: StepRunner, refs: Refs, env: Env) {
    forall s, t {:trigger StepRun(s, refs, env, t)} :: run(s, t) == StepRun(s, refs, env, t)
  }

  /** The step loop of `execute_scene`: the first failing step ends it. */
  function StepsRun(steps: seq<Step>, run: StepRunner, t: nat): Run
    decreases |steps|
  {
    if steps == [] then Nothing
    else
      var first := run(steps[0], t);
      if !first.ok then first
      else Then(first, StepsRun(steps[1..], run, t + |first.events|))
  }

  /** `execute_scene` on the scene `get_scene` found (or did not). */
  function SceneRun(scene: Option<Scene>, refs: Refs, env: Env, t: nat): Run {
    if scene.None? || scene.value.IsEmpty() then Refused
    else if scene.value.steps.None? || scene.value.steps.value == [] then Nothing
    else StepsRun(scene.value.steps.value, Runner(refs, env), t)
  }

  // ---------------------------------------------------------------- emergency cleanup

  /** How `None` is rendered inside an f-string. */
  function Rendered(target: Option<string>): string {
    target.GetOr("None")
  }

  /** The call one cleanup action makes, if it makes one. */
  function CleanupCall(a: CleanupAction, refs: Refs): Option<Call> {
    if a.action == Some("relay_off") then
      if RelayKey(Rendered(a.target)) in refs then Some(Call(refs[RelayKey(Rendered(a.target))], RelayOff)) else None
    else if a.action == Some("motor_close") then
      if "motor" in refs then Some(Call(refs["motor"], MoveReverse(6.0))) else None
    else if a.action == Some("lights_off") then
      if "lights" in refs then Some(Call(refs["lights"], TurnOff)) else None
    else None
  }

  /** The events of `execute_emergency_cleanup`: one call per action that has
   *  a handle to act on. What a call does, raising included, is not looked at,
   *  so the events do not depend on the hardware's behaviour at all. */
  function CleanupEvents(actions: seq<CleanupAction>, refs: Refs): seq<Event>
    decreases |actions|
  {
    if actions == [] then []
    else
      var init := CleanupEvents(actions[..|actions| - 1], refs);
      match CleanupCall(actions[|actions| - 1], refs)
      case None => init
      case Some(c) => init + [Invoked(c)]
  }

  // ================================================================ properties

  /** A scene that is not found, or is empty, is refused; a scene without steps
   *  succeeds; neither dispatches anything. */
  lemma SceneWithoutStepsDispatchesNothing(scene: Option<Scene>, refs: Refs, env: Env, t: nat)
    requires scene.None? || scene.value.IsEmpty() || scene.value.steps.None? || scene.value.steps.value == []
    ensures SceneRun(scene, refs, env, t).events == []
    ensures SceneRun(scene, refs, env, t).ok <==> scene.Some? && !scene.value.IsEmpty()
  {
  }

  /** Running `a + b` is running `a`, then, only if `a` succeeded, `b` from
   *  where `a` ended. */
  lemma {:induction false} StepsRunAppend(a: seq<Step>, b: seq<Step>, run: StepRunner, t: nat)
    ensures StepsRun(a + b, run, t) ==
      var ra := StepsRun(a, run, t);
      if !ra.ok then ra else Then(ra, StepsRun(b, run, t + |ra.events|))
    decreases |a|
  {
    if a == [] {
      assert a + b == b;
    } else {
      var first := run(a[0], t);
      assert (a + b)[0] == a[0];
      assert (a + b)[1..] == a[1..] + b;
      if first.ok {
        StepsRunAppend(a[1..], b, run, t + |first.events|);
      }
    }
  }

  /** One more step after steps that all succeeded. */
  lemma StepsRunSnoc(steps: seq<Step>, i: nat, run: StepRunner, t: nat)
    requires i < |steps| && StepsRun(steps[..i], run, t).ok
    ensures var before := StepsRun(steps[..i], run, t);
      StepsRun(steps[..i + 1], run, t) == Then(before, run(steps[i], t + |before.events|))
  {
    StepsRunAppend(steps[..i], [steps[i]], run, t);
    assert steps[..i + 1] == steps[..i] + [steps[i]];
    assert [steps[i]][1..] == [];
  }

  /** Once a step fails, the steps after it are not run. */
  lemma StepsRunStops(steps: seq<Step>, i: nat, run: StepRunner, t: nat)
    requires i < |steps| && !StepsRun(steps[..i + 1], run, t).ok
    ensures StepsRun(steps, run, t) == StepsRun(steps[..i + 1], run, t)
  {
    StepsRunAppend(steps[..i + 1], steps[i + 1..], run, t);
    assert steps[..i + 1] + steps[i + 1..] == steps;
  }

  /** Where step `k` starts: after the events of the steps before it. */
  function StepStart(steps: seq<Step>, k: nat, run: StepRunner, t: nat): nat
    requires k <= |steps|
  {
    t + |StepsRun(steps[..k], run, t).events|
  }

  /** The scene loop succeeds if and only if every step, each started where the
   *  steps before it ended, succeeds. */
  lemma {:induction false} StepsOkIffEveryStep(steps: seq<Step>, run: StepRunner, t: nat)
    ensures StepsRun(steps, run, t).ok <==>
      forall k :: 0 <= k < |steps| ==> run(steps[k], StepStart(steps, k, run, t)).ok
    decreases |steps|
  {
    if steps != [] {
      var first := run(steps[0], t);
      assert steps[..0] == [];
      if first.ok {
        var t' := t + |first.events|;
        StepsOkIffEveryStep(steps[1..], run, t');
        forall k | 0 < k < |steps|
          ensures StepStart(steps, k, run, t) == StepStart(steps[1..], k - 1, run, t')
          ensures steps[k] == steps[1..][k - 1]
        {
          PrependStep(steps, k - 1, run, t);
        }
      }
    }
  }

  /** Step `j` is where the loop stopped: the steps before it succeeded, step
   *  `j` failed, and nothing after it was dispatched. */
  ghost predicate StoppedAt(steps: seq<Step>, run: StepRunner, t: nat, j: nat)
    requires j < |steps|
  {
    var before := StepsRun(steps[..j], run, t);
    var failed := run(steps[j], t + |before.events|);
    before.ok && !failed.ok && StepsRun(steps, run, t).events == before.events + failed.events
  }

  /** A failing scene loop stops at its first failing step, `j`. */
  lemma {:induction false} StepsStopAtFirstFailure(steps: seq<Step>, run: StepRunner, t: nat) returns (j: nat)
    requires !StepsRun(steps, run, t).ok
    ensures j < |steps| && StoppedAt(steps, run, t, j)
    decreases |steps|
  {
    var first := run(steps[0], t);
    if !first.ok {
      assert steps[..0] == [];
      return 0;
    }
    var t' := t + |first.events|;
    var rest := steps[1..];
    var k := StepsStopAtFirstFailure(rest, run, t');
    j := k + 1;
    var before' := StepsRun(rest[..k], run, t');
    var failed := run(rest[k], t' + |before'.events|);
    PrependStep(steps, k, run, t);
    assert steps[j] == rest[k];
    assert StepsRun(steps, run, t).events == first.events + (before'.events + failed.events);
  }

  /** The steps up to `k + 1` are the first step, then those of the rest up to `k`. */
  lemma PrependStep(steps: seq<Step>, k: nat, run: StepRunner, t: nat)
    requires k < |steps| - 1 && run(steps[0], t).ok
    ensures var first := run(steps[0], t);
      StepsRun(steps[..k + 1], run, t) == Then(first, StepsRun(steps[1..][..k], run, t + |first.events|))
  {
    StepsRunAppend([steps[0]], steps[1..][..k], run, t);
    assert steps[..k + 1] == [steps[0]] + steps[1..][..k];
    assert [steps[0]][1..] == [];
  }

  /** The scene manager adds no pause of its own inside an effect handler:
   *  the only `time.sleep` a step makes itself is its own duration. A driver
   *  call may still block inside the driver (a motor move for its duration,
   *  a light flash for 0.6 s a round); the bus records such a call as one
   *  event and not the time spent in it. */
  lemma EffectsNeverSleep(e: Effects, refs: Refs, env: Env, t: nat)
    ensures forall ev :: ev in EffectsRun(e, refs, env, t).events ==> !ev.Slept?
  {
    var l := LightPart(e, refs, env, t);
    var a := AudioPart(e, refs, env, t + |l.events|);
    var m := MotorPart(e, refs, env, t + |l.events| + |a.events|);
    var x := RelayPart(e, refs, env, t + |l.events| + |a.events| + |m.events|);
    PartsSleepless(e, refs, env, t);
    PartsSleepless(e, refs, env, t + |l.events|);
    PartsSleepless(e, refs, env, t + |l.events| + |a.events|);
    PartsSleepless(e, refs, env, t + |l.events| + |a.events| + |m.events|);
    EffectsRunIs(e, refs, env, t, l, a, m, x);
    ThenSleepless(l, a);
    ThenSleepless(Then(l, a), m);
    ThenSleepless(Then(Then(l, a), m), x);
  }

  lemma ThenSleepless(first: Run, second: Run)
    requires Sleepless(first.events) && Sleepless(second.events)
    ensures Sleepless(Then(first, second).events)
    ensures forall ev :: ev in Then(first, second).events ==> !ev.Slept?
  {
  }

  /** No event of `es` is a pause. */
  predicate Sleepless(es: seq<Event>) {
    forall i :: 0 <= i < |es| ==> !es[i].Slept?
  }

  /** No single effect handler pauses, wherever it starts. */
  lemma PartsSleepless(e: Effects, refs: Refs, env: Env, t: nat)
    ensures Sleepless(LightPart(e, refs, env, t).events)
    ensures Sleepless(AudioPart(e, refs, env, t).events)
    ensures Sleepless(MotorPart(e, refs, env, t).events)
    ensures Sleepless(RelayPart(e, refs, env, t).events)
  {
    if e.lights.Some? && "lights" in refs && |LightColour(e.lights.value)| == 3 {
      var calls := LightCalls(e.lights.value, refs["lights"]);
      AttemptEvents(calls, env, t);
    }
  }

  /** A step pauses at most once, at its end, for its own positive duration, and
   *  only after its effects succeeded; a failing step returns before pausing. */
  lemma StepPausesOnlyAfterSuccess(s: Step, refs: Refs, env: Env, t: nat)
    ensures var r := StepRun(s, refs, env, t);
      var e := EffectsRun(s.effects.GetOr(NoEffects), refs, env, t);
      && (r.ok <==> e.ok)
      && (forall i :: 0 <= i < |r.events| && r.events[i].Slept? ==>
            i == |r.events| - 1 && r.ok && StepDuration(s) > 0.0 && r.events[i] == Slept(StepDuration(s)))
      && (r.ok && StepDuration(s) > 0.0 ==> r.events == e.events + [Slept(StepDuration(s))])
      && (!r.ok || StepDuration(s) <= 0.0 ==> r.events == e.events)
  {
    var e := EffectsRun(s.effects.GetOr(NoEffects), refs, env, t);
    EffectsNeverSleep(s.effects.GetOr(NoEffects), refs, env, t);
    var r := StepRun(s, refs, env, t);
  }

  /** The effects succeed exactly when every present effect succeeds. */
  lemma EffectsOkIffEveryEffect(e: Effects, refs: Refs, env: Env, t: nat)
    ensures var r := EffectsRun(e, refs, env, t);
      var l := LightPart(e, refs, env, t);
      var a := AudioPart(e, refs, env, t + |l.events|);
      var m := MotorPart(e, refs, env, t + |l.events| + |a.events|);
      var x := RelayPart(e, refs, env, t + |l.events| + |a.events| + |m.events|);
      && (r.ok <==> (e.lights.Some? ==> l.ok) && (e.audio.Some? ==> a.ok) && (e.motor.Some? ==> m.ok) && (e.relay.Some? ==> x.ok))
      && r.events == l.events + a.events + m.events + x.events
  {
  }

  /** The light effect is refused without a lights handle or a three-part
   *  colour; otherwise it makes its calls in order up to the first one that
   *  raises, and fails exactly when one raises, whatever the calls return. */
  lemma LightRunFacts(cfg: LightConfig, refs: Refs, env: Env, t: nat)
    ensures "lights" !in refs || |LightColour(cfg)| != 3 ==> LightRun(cfg, refs, env, t) == Refused
    ensures "lights" in refs && |LightColour(cfg)| == 3 ==>
      var calls := LightCalls(cfg, refs["lights"]);
      var r := LightRun(cfg, refs, env, t);
      && |r.events| <= |calls|
      && (r.ok <==> Clean(calls, env, t, |calls|))
      && r.events == Invocations(calls[..|r.events|])
      && (r.ok ==> |r.events| == |calls|)
  {
    if "lights" in refs && |LightColour(cfg)| == 3 {
      AttemptEvents(LightCalls(cfg, refs["lights"]), env, t);
      AttemptOutcome(LightCalls(cfg, refs["lights"]), env, t);
    }
  }

  /** The audio effect succeeds only with a known, non-empty sound name whose
   *  player is registered, a `set_volume` that does not raise, and a `play`
   *  that returns true. */
  lemma AudioRunFacts(cfg: AudioConfig, refs: Refs, env: Env, t: nat)
    ensures var r := AudioRun(cfg, refs, env, t);
      r.ok <==>
        && cfg.file.Some? && cfg.file.value in {"opening", "creepy", "thump"}
        && PlayerKey(cfg.file.value).value in refs
        && !env(t, Call(refs[PlayerKey(cfg.file.value).value], SetVolume(cfg.volume.GetOr(Number(0.7))))).Raised?
        && env(t + 1, Call(refs[PlayerKey(cfg.file.value).value], Play)).Succeeded()
  {
  }

  /** 'open' drives the motor forward and 'close' in reverse, for the configured
   *  duration or 6 seconds; any other action, or no motor, is refused. */
  lemma MotorRunFacts(cfg: MotorConfig, refs: Refs, env: Env, t: nat)
    ensures cfg.action != Some("open") && cfg.action != Some("close") ==> MotorRun(cfg, refs, env, t) == Refused
    ensures "motor" !in refs ==> MotorRun(cfg, refs, env, t) == Refused
    ensures "motor" in refs && cfg.action == Some("open") ==>
      MotorRun(cfg, refs, env, t).events == [Invoked(Call(refs["motor"], MoveForward(cfg.duration.GetOr(6.0))))]
    ensures "motor" in refs && cfg.action == Some("close") ==>
      MotorRun(cfg, refs, env, t).events == [Invoked(Call(refs["motor"], MoveReverse(cfg.duration.GetOr(6.0))))]
    ensures MotorRun(cfg, refs, env, t).ok ==>
      |MotorRun(cfg, refs, env, t).events| == 1 && env(t, MotorRun(cfg, refs, env, t).events[0].call).Succeeded()
    ensures "motor" in refs && MotorOp(cfg).Some? ==>
      (MotorRun(cfg, refs, env, t).ok <==> env(t, Call(refs["motor"], MotorOp(cfg).value)).Succeeded())
  {
  }

  /** The relay effect is refused on a missing name, a relay not registered
   *  under `name + "_relay"`, or an action other than 'on'/'off'; an auto-off
   *  timer is started exactly when the call did not raise, the action is 'on'
   *  and the duration is positive. */
  lemma RelayRunFacts(cfg: RelayConfig, refs: Refs, env: Env, t: nat)
    ensures cfg.name.None? || cfg.name.value == [] ==> RelayRun(cfg, refs, env, t) == Refused
    ensures cfg.name.Some? && RelayKey(cfg.name.value) !in refs ==> RelayRun(cfg, refs, env, t) == Refused
    ensures cfg.action != Some("on") && cfg.action != Some("off") ==> RelayRun(cfg, refs, env, t) == Refused
    ensures (exists ev :: ev in RelayRun(cfg, refs, env, t).events && ev.OffScheduled?) <==>
      && cfg.name.Some? && cfg.name.value != [] && RelayKey(cfg.name.value) in refs
      && cfg.action == Some("on") && cfg.duration.GetOr(0.0) > 0.0
      && !env(t, Call(refs[RelayKey(cfg.name.value)], RelayOn)).Raised?
    ensures RelayRun(cfg, refs, env, t).ok ==>
      cfg.name.Some? && RelayKey(cfg.name.value) in refs &&
      env(t, Call(refs[RelayKey(cfg.name.value)], RelayOp(cfg).value)).Succeeded()
    ensures cfg.name.Some? && cfg.name.value != [] && RelayKey(cfg.name.value) in refs && RelayOp(cfg).Some? ==>
      (RelayRun(cfg, refs, env, t).ok <==>
        env(t, Call(refs[RelayKey(cfg.name.value)], RelayOp(cfg).value)).Succeeded())
  {
    var r := RelayRun(cfg, refs, env, t);
    if cfg.name.Some? && cfg.name.value != [] && RelayKey(cfg.name.value) in refs
      && cfg.action == Some("on") && cfg.duration.GetOr(0.0) > 0.0
      && !env(t, Call(refs[RelayKey(cfg.name.value)], RelayOn)).Raised?
    {
      assert r.events[1].OffScheduled?;
      assert r.events[1] in r.events;
    }
  }

  lemma CleanupEventsAppend(a: seq<CleanupAction>, b: seq<CleanupAction>, refs: Refs)
    ensures CleanupEvents(a + b, refs) == CleanupEvents(a, refs) + CleanupEvents(b, refs)
    decreases |b|
  {
    if b == [] {
      assert a + b == a;
    } else {
      var b' := b[..|b| - 1];
      CleanupEventsAppend(a, b', refs);
      assert (a + b)[..|a + b| - 1] == a + b';
    }
  }

  /** Every cleanup action gets its turn: the events are the actions' own calls,
   *  action by action, whatever an earlier call did; unknown actions and
   *  missing handles contribute nothing. */
  lemma {:induction false} CleanupAttemptsEveryAction(actions: seq<CleanupAction>, refs: Refs, i: nat)
    requires i < |actions|
    ensures var call := CleanupCall(actions[i], refs);
      CleanupEvents(actions, refs) ==
        CleanupEvents(actions[..i], refs)
        + (if call.Some? then [Invoked(call.value)] else [])
        + CleanupEvents(actions[i + 1..], refs)
    ensures actions[i].action == Some("motor_close") && "motor" in refs ==>
      CleanupCall(actions[i], refs) == Some(Call(refs["motor"], MoveReverse(6.0)))
    ensures actions[i].action !in {Some("relay_off"), Some("motor_close"), Some("lights_off")} ==>
      CleanupCall(actions[i], refs).None?
  {
    assert actions == actions[..i] + [actions[i]] + actions[i + 1..];
    CleanupEventsAppend(actions[..i] + [actions[i]], actions[i + 1..], refs);
    CleanupEventsAppend(actions[..i], [actions[i]], refs);
    assert [actions[i]][..0] == [];
  }
}
