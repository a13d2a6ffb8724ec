/** The scene manager object: the loaded configuration, the hardware registry,
 *  and the operations that look scenes up and execute them. Every method that
 *  dispatches is proved to dispatch exactly the events, and report exactly
 *  the result, of its counterpart in `SceneRuns`. */
module Scenes {
  import opened Common
  import opened Hardware
  import opened Dicts
  import opened SceneConfig
  import opened SceneRuns

  class SceneManager {
    var config: Config
    var hardwareRefs: Refs
    const bus: Bus

    /** `SceneManager(config_file)`: `parsed` is what the YAML file held, or
     *  `None` when it is missing or does not parse. */
    constructor (parsed: Option<Config>, bus: Bus)
      ensures config == parsed.GetOr(EmptyConfig)
      ensures hardwareRefs == map[] && this.bus == bus
    {
      config := EmptyConfig;
      hardwareRefs := map[];
      this.bus := bus;
      new;
      var _ := LoadConfig(parsed);
    }

    /** `load_config`: a failed load keeps the configuration held before. */
    method LoadConfig(parsed: Option<Config>) returns (ok: bool)
      modifies this
      ensures ok <==> parsed.Some?
      ensures config == parsed.GetOr(old(config))
      ensures hardwareRefs == old(hardwareRefs)
    {
      if parsed.None? {
        return false;
      }
      config := parsed.value;
      return true;
    }

    /** `set_hardware_references`. */
    method SetHardwareReferences(hardware: Refs)
      modifies this
      ensures hardwareRefs == hardware && config == old(config)
    {
      hardwareRefs := hardware;
    }

    /** `get_all_scenes`: an empty dictionary updated with the main scenes, then
     *  with the alternative sequences. */
    method GetAllScenes() returns (all: Dict<Scene>)
      ensures all == AllScenes(config)
    {
      all := [];
      var main := MainScenes(config);
      for i := 0 to |main|
        invariant all == PutAll([], main[..i])
      {
        assert main[..i + 1][..i] == main[..i];
        all := Put(all, main[i].0, main[i].1);
      }
      assert main[..|main|] == main;
      var alternatives := AlternativeScenes(config);
      ghost var merged := all;
      for i := 0 to |alternatives|
        invariant all == PutAll(merged, alternatives[..i])
      {
        assert alternatives[..i + 1][..i] == alternatives[..i];
        all := Put(all, alternatives[i].0, alternatives[i].1);
      }
      assert alternatives[..|alternatives|] == alternatives;
    }

    /** `get_scene_names`. */
    method GetSceneNames(excludeTestScenes: bool) returns (names: seq<string>)
      ensures names == SceneNames(config, excludeTestScenes)
    {
      var all := GetAllScenes();
      names := Keys(all);
      if excludeTestScenes {
        names := Exclude(names, TestScenes);
      }
    }

    /** `execute_scene`. */
    method ExecuteScene(sceneName: string) returns (ok: bool)
      modifies bus
      ensures var r := SceneRun(GetScene(config, sceneName), hardwareRefs, bus.env, |old(bus.trace)|);
        bus.trace == old(bus.trace) + r.events && ok == r.ok
    {
      var scene := GetScene(config, sceneName);
      if scene.None? || scene.value.IsEmpty() {
        return false;
      }
      var steps := scene.value.steps.GetOr([]);
      if steps == [] {
        return true;
      }
      ok := ExecuteSteps(steps, Runner(hardwareRefs, bus.env));
    }

    /** The step loop of `execute_scene`: the first step that fails ends the
     *  scene, which then fails. `run` is `execute_step` as a function. */
    method ExecuteSteps(steps: seq<Step>, ghost run: StepRunner) returns (ok: bool)
      modifies bus
      requires RunsSteps(run, hardwareRefs, bus.env)
      ensures var r := StepsRun(steps, run, |old(bus.trace)|);
        bus.trace == old(bus.trace) + r.events && ok == r.ok
    {
      ghost var start := bus.trace;
      for i := 0 to |steps|
        invariant StepsRun(steps[..i], run, |start|).ok
        invariant bus.trace == start + StepsRun(steps[..i], run, |start|).events
      {
        ghost var before, mid := StepsRun(steps[..i], run, |start|), bus.trace;
        var stepOk := ExecuteStep(steps[i], run);
        ghost var r := run(steps[i], |mid|);
        assert bus.trace == start + (before.events + r.events);
        StepsRunSnoc(steps, i, run, |start|);
        if !stepOk {
          StepsRunStops(steps, i, run, |start|);
          return false;
        }
      }
      assert steps[..|steps|] == steps;
      return true;
    }

    /** `execute_step`, which does what `run` says of a step; `run` is any
     *  function meeting `RunsSteps`, such as `Runner(hardwareRefs, bus.env)`. */
    method ExecuteStep(step: Step, ghost run: StepRunner) returns (ok: bool)
      modifies bus
      requires RunsSteps(run, hardwareRefs, bus.env)
      ensures var r := run(step, |old(bus.trace)|);
        bus.trace == old(bus.trace) + r.events && ok == r.ok
    {
      assert run(step, |bus.trace|) == StepRun(step, hardwareRefs, bus.env, |bus.trace|);
      var effectsOk := ExecuteEffects(step.effects.GetOr(NoEffects));
      if !effectsOk {
        return false;
      }
      var duration := step.duration.GetOr(0.0);
      if duration > 0.0 {
        bus.Wait(duration);
      }
      return true;
    }

    /** `execute_effects`: a failing effect clears `success` and the next
     *  effect is still attempted. */
    method ExecuteEffects(effects: Effects) returns (success: bool)
      modifies bus
      ensures var r := EffectsRun(effects, hardwareRefs, bus.env, |old(bus.trace)|);
        bus.trace == old(bus.trace) + r.events && success == r.ok
    {
      ghost var t0 := bus.trace;
      success := true;
      var ok := LightsIfPresent(effects);
      if !ok { success := false; }
      ghost var l, t1 := LightPart(effects, hardwareRefs, bus.env, |t0|), bus.trace;
      ok := AudioIfPresent(effects);
      if !ok { success := false; }
      ghost var a, t2 := AudioPart(effects, hardwareRefs, bus.env, |t1|), bus.trace;
      ok := MotorIfPresent(effects);
      if !ok { success := false; }
      ghost var m, t3 := MotorPart(effects, hardwareRefs, bus.env, |t2|), bus.trace;
      ok := RelayIfPresent(effects);
      if !ok { success := false; }
      ghost var x := RelayPart(effects, hardwareRefs, bus.env, |t3|);
      EffectsRunIs(effects, hardwareRefs, bus.env, |t0|, l, a, m, x);
      ConcatAssoc(t0, l.events, a.events, m.events, x.events);
    }

    /** The `if 'lights' in effects:` branch of `execute_effects`; an absent
     *  effect counts as a success. */
    method LightsIfPresent(effects: Effects) returns (ok: bool)
      modifies bus
      ensures var r := LightPart(effects, hardwareRefs, bus.env, |old(bus.trace)|);
        bus.trace == old(bus.trace) + r.events && ok == r.ok
    {
      ok := true;
      if effects.lights.Some? {
        ok := ExecuteLightEffect(effects.lights.value);
      }
    }

    /** The `if 'audio' in effects:` branch. */
    method AudioIfPresent(effects: Effects) returns (ok: bool)
      modifies bus
      ensures var r := AudioPart(effects, hardwareRefs, bus.env, |old(bus.trace)|);
        bus.trace == old(bus.trace) + r.events && ok == r.ok
    {
      ok := true;
      if effects.audio.Some? {
        ok := ExecuteAudioEffect(effects.audio.value);
      }
    }

    /** The `if 'motor' in effects:` branch. */
    method MotorIfPresent(effects: Effects) returns (ok: bool)
      modifies bus
      ensures var r := MotorPart(effects, hardwareRefs, bus.env, |old(bus.trace)|);
        bus.trace == old(bus.trace) + r.events && ok == r.ok
    {
      ok := true;
      if effects.motor.Some? {
        ok := ExecuteMotorEffect(effects.motor.value);
      }
    }

    /** The `if 'relay' in effects:` branch. */
    method RelayIfPresent(effects: Effects) returns (ok: bool)
      modifies bus
      ensures var r := RelayPart(effects, hardwareRefs, bus.env, |old(bus.trace)|);
        bus.trace == old(bus.trace) + r.events && ok == r.ok
    {
      ok := true;
      if effects.relay.Some? {
        ok := ExecuteRelayEffect(effects.relay.value);
      }
    }

    /** `execute_light_effect`. */
    method ExecuteLightEffect(cfg: LightConfig) returns (ok: bool)
      modifies bus
      ensures var r := LightRun(cfg, hardwareRefs, bus.env, |old(bus.trace)|);
        bus.trace == old(bus.trace) + r.events && ok == r.ok
    {
      if "lights" !in hardwareRefs {
        return false;
      }
      var color := cfg.color.GetOr([0, 0, 0]);
      if |color| != 3 {
        return false;
      }
      var lights := hardwareRefs["lights"];
      var red, green, blue := color[0], color[1], color[2];
      var turnOn, setColor := Call(lights, TurnOn), Call(lights, SetColor(red, green, blue));
      var flash, turnOff := Call(lights, Flash(cfg.flashAmount.GetOr(10))), Call(lights, TurnOff);
      ghost var start, t0 := bus.trace, |bus.trace|;
      ghost var calls := LightCalls(cfg, lights);
      ghost var k := 0;
      LightCallsLayout(cfg, lights);
      var raised;
      raised, k := TryCall(cfg.on.GetOr(Flag(false)).Truthy(), turnOn, start, calls, k);
      if raised { return false; }
      raised, k := TryCall(true, setColor, start, calls, k);
      if raised { return false; }
      // a falsy result of set_color is only a warning
      raised, k := TryCall(cfg.flash.GetOr(Flag(false)).Truthy(), flash, start, calls, k);
      if raised { return false; }
      raised, k := TryCall(cfg.off.GetOr(Flag(false)).Truthy(), turnOff, start, calls, k);
      if raised { return false; }
      assert k == |calls| && calls[..k] == calls;
      AttemptClean(calls, bus.env, t0);
      return true;
    }

    /** `if wanted: c` as call number `k` of a try-block over `calls` that
     *  started after the events `start`, the calls before it having gone through;
     *  it reports whether the call raised, and the number of the next call. */
    method TryCall(wanted: bool, c: Call, ghost start: seq<Event>, ghost calls: seq<Call>, ghost k: nat)
      returns (raised: bool, ghost next: nat)
      modifies bus
      requires wanted ==> k < |calls| && calls[k] == c
      requires k <= |calls| && Clean(calls, bus.env, |start|, k)
      requires bus.trace == start + Invocations(calls[..k])
      ensures next == if wanted then k + 1 else k
      ensures bus.trace == start + Invocations(calls[..next])
      ensures raised ==> wanted && Attempt(calls, bus.env, |start|) == Run(false, Invocations(calls[..next]))
      ensures !raised ==> Clean(calls, bus.env, |start|, next)
    {
      if !wanted {
        return false, k;
      }
      var o := bus.Perform(c);
      raised, next := o.Raised?, k + 1;
      assert calls[..k + 1] == calls[..k] + [c];
      assert Invocations(calls[..k + 1]) == Invocations(calls[..k]) + [Invoked(c)];
      if raised {
        AttemptRaisesAt(calls, bus.env, |start|, k);
      }
    }

    /** `execute_audio_effect`. */
    method ExecuteAudioEffect(cfg: AudioConfig) returns (ok: bool)
      modifies bus
      ensures var r := AudioRun(cfg, hardwareRefs, bus.env, |old(bus.trace)|);
        bus.trace == old(bus.trace) + r.events && ok == r.ok
    {
      if cfg.file.None? || cfg.file.value == [] {
        return false;
      }
      var key := PlayerKey(cfg.file.value);
      if key.None? || key.value !in hardwareRefs {
        return false;
      }
      var player := hardwareRefs[key.value];
      var o := bus.Perform(Call(player, SetVolume(cfg.volume.GetOr(Number(0.7)))));
      if o.Raised? {
        return false;
      }
      o := bus.Perform(Call(player, Play));
      return o.Succeeded();
    }

    /** `execute_motor_effect`. */
    method ExecuteMotorEffect(cfg: MotorConfig) returns (ok: bool)
      modifies bus
      ensures var r := MotorRun(cfg, hardwareRefs, bus.env, |old(bus.trace)|);
        bus.trace == old(bus.trace) + r.events && ok == r.ok
    {
      if "motor" !in hardwareRefs {
        return false;
      }
      var motor := hardwareRefs["motor"];
      var duration := cfg.duration.GetOr(6.0);
      var o: Outcome;
      if cfg.action == Some("open") {
        o := bus.Perform(Call(motor, MoveForward(duration)));
      } else if cfg.action == Some("close") {
        o := bus.Perform(Call(motor, MoveReverse(duration)));
      } else {
        return false;
      }
      return o.Succeeded();
    }

    /** `execute_relay_effect`. */
    method ExecuteRelayEffect(cfg: RelayConfig) returns (ok: bool)
      modifies bus
      ensures var r := RelayRun(cfg, hardwareRefs, bus.env, |old(bus.trace)|);
        bus.trace == old(bus.trace) + r.events && ok == r.ok
    {
      var duration := cfg.duration.GetOr(0.0);
      if cfg.name.None? || cfg.name.value == [] {
        return false;
      }
      var key := RelayKey(cfg.name.value);
      if key !in hardwareRefs {
        return false;
      }
      var relay := hardwareRefs[key];
      var o: Outcome;
      if cfg.action == Some("on") {
        o := bus.Perform(Call(relay, RelayOn));
      } else if cfg.action == Some("off") {
        o := bus.Perform(Call(relay, RelayOff));
      } else {
        return false;
      }
      if o.Raised? {
        return false;
      }
      if duration > 0.0 && cfg.action == Some("on") {
        bus.ScheduleOff(relay, duration);
      }
      return o.truthy;
    }

    /** `execute_emergency_cleanup`: an action that raises is logged and the
     *  next one is attempted. */
    method ExecuteEmergencyCleanup()
      modifies bus
      ensures bus.trace == old(bus.trace) + CleanupEvents(GetEmergencyCleanupActions(config), hardwareRefs)
    {
      var actions := GetEmergencyCleanupActions(config);
      for i := 0 to |actions|
        invariant bus.trace == old(bus.trace) + CleanupEvents(actions[..i], hardwareRefs)
      {
        assert actions[..i + 1][..i] == actions[..i];
        var action := actions[i];
        var target := action.target.GetOr("None");
        if action.action == Some("relay_off") {
          if RelayKey(target) in hardwareRefs {
            var _ := bus.Perform(Call(hardwareRefs[RelayKey(target)], RelayOff));
          }
        } else if action.action == Some("motor_close") {
          if "motor" in hardwareRefs {
            var _ := bus.Perform(Call(hardwareRefs["motor"], MoveReverse(6.0)));
          }
        } else if action.action == Some("lights_off") {
          if "lights" in hardwareRefs {
            var _ := bus.Perform(Call(hardwareRefs["lights"], TurnOff));
          }
        }
      }
      assert actions[..|actions|] == actions;
    }
  }
}
