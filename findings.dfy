/** What the scene manager reports once it drives the drivers of plugins/ as
 *  they are written. `Motor.move_forward`, `Motor.move_reverse`, `Relay.on`
 *  and `Relay.off` return nothing (`None`), and `execute_motor_effect` and
 *  `execute_relay_effect` pass that value on as their result: a motor or
 *  relay effect that did its work reports failure, and a scene stops at its
 *  first motor or relay step. `Corrected` is the hardware as intended, whose
 *  motor and relay methods report completion. */
module Findings {
  import opened Common
  import opened Hardware
  import opened SceneConfig
  import opened SceneRuns
  import opened Music

  /** What a call on the drivers returns: motor and relay methods say
   *  `reports` (`None` as written), the light methods nothing, `set_volume`
   *  whether the volume was a number, and `play` what `played` says of the
   *  player at that point. */
  function DriverOutcome(c: Call, n: nat, played: (nat, Handle) -> bool, reports: bool): Outcome {
    match c.op
    case MoveForward(_) => Returned(reports)
    case MoveReverse(_) => Returned(reports)
    case MotorStop => Returned(reports)
    case RelayOn => Returned(reports)
    case RelayOff => Returned(reports)
    case TurnOn => Returned(false)
    case TurnOff => Returned(false)
    case SetColor(_, _, _) => Returned(false)
    case Flash(_) => Returned(false)
    case SetVolume(v) => Returned(ValidateVolume(v).Some?)
    case Play => Returned(played(n, c.target))
  }

  /** The drivers as written. */
  function AsWritten(played: (nat, Handle) -> bool): Env {
    (n: nat, c: Call) => DriverOutcome(c, n, played, false)
  }

  /** The drivers as intended: a motor or relay method that completes
   *  reports success. */
  function Corrected(played: (nat, Handle) -> bool): Env {
    (n: nat, c: Call) => DriverOutcome(c, n, played, true)
  }

  /** A step with a motor or a relay effect. */
  predicate DrivesMotorOrRelay(s: Step) {
    s.effects.Some? && (s.effects.value.motor.Some? || s.effects.value.relay.Some?)
  }

  /** As written, a step with a motor or relay effect fails, wherever it
   *  starts. */
  lemma AsWrittenStepFails(s: Step, refs: Refs, played: (nat, Handle) -> bool, t: nat)
    requires DrivesMotorOrRelay(s)
    ensures !StepRun(s, refs, AsWritten(played), t).ok
  {
    var env := AsWritten(played);
    var e := s.effects.value;
    EffectsOkIffEveryEffect(e, refs, env, t);
  }

  /** As written, a scene with a motor or relay step at `k` fails, at a step
   *  `j` no later than `k`: no step after the first motor or relay step
   *  runs. */
  lemma AsWrittenSceneStops(steps: seq<Step>, refs: Refs, played: (nat, Handle) -> bool, t: nat, k: nat)
      returns (j: nat)
    requires k < |steps| && DrivesMotorOrRelay(steps[k])
    ensures !StepsRun(steps, Runner(refs, AsWritten(played)), t).ok
    ensures j <= k && StoppedAt(steps, Runner(refs, AsWritten(played)), t, j)
  {
    var run := Runner(refs, AsWritten(played));
    StepsOkIffEveryStep(steps, run, t);
    AsWrittenStepFails(steps[k], refs, played, StepStart(steps, k, run, t));
    j := StepsStopAtFirstFailure(steps, run, t);
    if j > k {
      var prefix := steps[..j];
      StepsOkIffEveryStep(prefix, run, t);
      assert prefix[k] == steps[k];
      AsWrittenStepFails(steps[k], refs, played, StepStart(prefix, k, run, t));
      assert false;
    }
  }

  /** As intended, a motor effect succeeds exactly when the manager has a
   *  motor and knows the action. */
  lemma CorrectedMotorEffect(cfg: MotorConfig, refs: Refs, played: (nat, Handle) -> bool, t: nat)
    ensures MotorRun(cfg, refs, Corrected(played), t).ok <==> "motor" in refs && MotorOp(cfg).Some?
  {
  }

  /** As intended, a relay effect succeeds exactly when it names a relay the
   *  manager holds and an action it knows. */
  lemma CorrectedRelayEffect(cfg: RelayConfig, refs: Refs, played: (nat, Handle) -> bool, t: nat)
    ensures RelayRun(cfg, refs, Corrected(played), t).ok <==>
      cfg.name.Some? && cfg.name.value != [] && RelayKey(cfg.name.value) in refs && RelayOp(cfg).Some?
  {
  }

  /** A two-step scene: the door opens, and after three seconds the smoke
   *  machine goes on. */
  const DoorThenSmoke := Scene(Some("door_then_smoke"), None, Some([
    Step(Some(3.0), Some(Effects(None, None, Some(MotorConfig(Some("open"), None)), None))),
    Step(None, Some(Effects(None, None, None, Some(RelayConfig(Some("smoke"), Some("on"), None)))))
  ]), {})

  const Door := Handle(0)
  const Smoke := Handle(1)
  const Wiring: Refs := map["motor" := Door, "smoke_relay" := Smoke]

  /** As written, the scene fails once the door has opened: the pause and the
   *  smoke machine never come. */
  lemma AsWrittenDoorThenSmoke(played: (nat, Handle) -> bool)
    ensures SceneRun(Some(DoorThenSmoke), Wiring, AsWritten(played), 0) ==
      Run(false, [Invoked(Call(Door, MoveForward(6.0)))])
  {
    var steps := DoorThenSmoke.steps.value;
    var run := Runner(Wiring, AsWritten(played));
    assert !run(steps[0], 0).ok;
  }

  /** As intended, the same scene runs both steps and succeeds. */
  lemma CorrectedDoorThenSmoke(played: (nat, Handle) -> bool)
    ensures SceneRun(Some(DoorThenSmoke), Wiring, Corrected(played), 0) ==
      Run(true, [Invoked(Call(Door, MoveForward(6.0))), Slept(3.0), Invoked(Call(Smoke, RelayOn))])
  {
    var steps := DoorThenSmoke.steps.value;
    var run := Runner(Wiring, Corrected(played));
    var first := run(steps[0], 0);
    assert first == Run(true, [Invoked(Call(Door, MoveForward(6.0))), Slept(3.0)]);
    assert steps[1..] == [steps[1]];
    assert RelayKey("smoke") == "smoke_relay";
    assert run(steps[1], 2) == Run(true, [Invoked(Call(Smoke, RelayOn))]);
    assert StepsRun(steps[1..][1..], run, 3) == Nothing;
  }

  /** A one-step scene: the smoke machine goes on, then a two-second pause. */
  const SmokePuff := Scene(Some("smoke_puff"), None, Some([
    Step(Some(2.0), Some(Effects(None, None, None, Some(RelayConfig(Some("smoke"), Some("on"), None)))))
  ]), {})

  /** As written, switching the smoke on fails the scene: the pause never
   *  comes. */
  lemma AsWrittenSmokePuff(played: (nat, Handle) -> bool)
    ensures SceneRun(Some(SmokePuff), Wiring, AsWritten(played), 0) ==
      Run(false, [Invoked(Call(Smoke, RelayOn))])
  {
    var steps := SmokePuff.steps.value;
    assert RelayKey("smoke") == "smoke_relay";
    assert !Runner(Wiring, AsWritten(played))(steps[0], 0).ok;
  }

  /** As intended, the smoke goes on, the scene pauses and succeeds. */
  lemma CorrectedSmokePuff(played: (nat, Handle) -> bool)
    ensures SceneRun(Some(SmokePuff), Wiring, Corrected(played), 0) ==
      Run(true, [Invoked(Call(Smoke, RelayOn)), Slept(2.0)])
  {
    var steps := SmokePuff.steps.value;
    var run := Runner(Wiring, Corrected(played));
    assert RelayKey("smoke") == "smoke_relay";
    assert run(steps[0], 0) == Run(true, [Invoked(Call(Smoke, RelayOn)), Slept(2.0)]);
    assert StepsRun(steps[1..], run, 2) == Nothing;
  }
}
