/** The controller of old_files/main.py: the configuration lookup, the
 *  retrying distance reading, the guarded run of one scene (busy flag, scene
 *  selection, cleanup afterwards), one tick of the detection loop, and the
 *  guards of the light and door helpers. The hardware it sets up is given to
 *  it; what runs on threads is not modelled. */
module Legacy {
  import opened Common
  import opened Hardware
  import opened SceneConfig
  import opened SceneRuns
  import opened Scenes

  /** configs.yaml once loaded: section name to its mapping. */
  type ConfigFile = map<string, map<string, Value>>

  const DefaultScene: string := "halloween_sequence"
  const DefaultSafeDistance: real := 200.0
  const DefaultMaxRetries: real := 5.0
  const DefaultNear: real := 50.0
  const DefaultCooldown: real := 30.0

  /** `get_config_value(section, key, default)`: "detection" and "hardware"
   *  are read from configs.yaml, "settings" from the scene manager's
   *  settings (`settings` is `None` without a scene manager); any other
   *  section, and any missing key, gives `default`. */
  function GetConfigValue(file: Option<ConfigFile>, settings: Option<map<string, Value>>,
                          section: string, key: string, default: Value): (v: Value)
    ensures section !in {"detection", "hardware", "settings"} ==> v == default
    ensures section in {"detection", "hardware"} ==>
      if file.Some? && section in file.value && key in file.value[section]
      then v == file.value[section][key] else v == default
    ensures section == "settings" ==>
      if settings.Some? && key in settings.value then v == settings.value[key] else v == default
  {
    if section == "detection" || section == "hardware" then
      var sectionMap := if file.Some? && file.value != map[] && section in file.value then file.value[section] else map[];
      Lookup(sectionMap, key, default)
    else if section == "settings" then
      Lookup(settings.GetOr(map[]), key, default)
    else default
  }

  /** The number of attempts `while retry_count < max_retries` makes: the
   *  naturals below `m`. */
  function AttemptLimit(m: real): (n: nat)
    ensures m <= 0.0 ==> n == 0
    ensures 0.0 < m ==> m <= n as real && ((n - 1) as real) < m
  {
    if m <= 0.0 then 0
    else if (m.Floor as real) == m then m.Floor
    else m.Floor + 1
  }

  /** What the retry loop settles on from attempt `i` on: the smaller
   *  reading of the first attempt at which both sensors answered, or
   *  `fallback` when none of the remaining attempts did. */
  function ShortestFrom(d1: nat -> Option<real>, d2: nat -> Option<real>, i: nat, limit: nat, fallback: Value): Value
    decreases limit - i
  {
    if i >= limit then fallback
    else if d1(i).Some? && d2(i).Some? then Number(Min(d1(i).value, d2(i).value))
    else ShortestFrom(d1, d2, i + 1, limit, fallback)
  }

  /** Both sensors answered at attempt `j` and at no attempt before it. */
  predicate FirstAnswer(d1: nat -> Option<real>, d2: nat -> Option<real>, i: nat, j: nat) {
    i <= j && d1(j).Some? && d2(j).Some? &&
    forall k :: i <= k < j ==> !(d1(k).Some? && d2(k).Some?)
  }

  /** The first attempt at which both sensors answer decides the distance. */
  lemma {:induction false} ShortestIsFirstAnswer(d1: nat -> Option<real>, d2: nat -> Option<real>, i: nat, j: nat, limit: nat, fallback: Value)
    requires FirstAnswer(d1, d2, i, j) && j < limit
    ensures ShortestFrom(d1, d2, i, limit, fallback) == Number(Min(d1(j).value, d2(j).value))
    decreases j - i
  {
    if i < j {
      ShortestIsFirstAnswer(d1, d2, i + 1, j, limit, fallback);
    }
  }

  /** With no attempt at which both sensors answered, the fallback is used. */
  lemma {:induction false} ShortestFallsBack(d1: nat -> Option<real>, d2: nat -> Option<real>, i: nat, limit: nat, fallback: Value)
    requires forall k :: i <= k < limit ==> !(d1(k).Some? && d2(k).Some?)
    ensures ShortestFrom(d1, d2, i, limit, fallback) == fallback
    decreases limit - i
  {
    if i < limit {
      ShortestFallsBack(d1, d2, i + 1, limit, fallback);
    }
  }

  /** How `run_halloween_sequence` picks its scene. */
  datatype Selection =
    | Default                   // 'halloween_sequence'
    | Among(names: seq<string>) // `random.choice` over these, none empty of them
    | Fails                     // `random.choice` on a value that is no sequence raises

  /** The one-character strings `random.choice` can return on a string. */
  function Characters(s: string): (cs: seq<string>)
    ensures |cs| == |s| && forall i :: 0 <= i < |s| ==> cs[i] == [s[i]]
  {
    seq(|s|, i requires 0 <= i < |s| => [s[i]])
  }

  /** The selection for the scene manager's settings and random-eligible
   *  names: random mode draws from the names, or keeps the default when
   *  there are none; otherwise a truthy `random_scene_list` is drawn from. */
  function SelectionFor(settings: map<string, Value>, eligible: seq<string>): (s: Selection)
    ensures s.Among? ==> s.names != []
    ensures var random := Lookup(settings, "random_scene_mode", Flag(false)).Truthy();
      var list := Lookup(settings, "random_scene_list", Names([]));
      && (random ==> s == if eligible == [] then Default else Among(eligible))
      && (!random && list.Names? && list.Truthy() ==> s == Among(list.items))
      && (s.Default? <==> if random then eligible == [] else !list.Truthy())
      && (s.Fails? <==> !random && list.Truthy() && (list.Flag? || list.Number?))
  {
    if Lookup(settings, "random_scene_mode", Flag(false)).Truthy() then
      if eligible != [] then Among(eligible) else Default
    else
      match Lookup(settings, "random_scene_list", Names([]))
      case Names(items) => if items != [] then Among(items) else Default
      case Text(s) => if s != [] then Among(Characters(s)) else Default
      case Null => Default
      case Flag(b) => if b then Fails else Default
      case Number(x) => if x != 0.0 then Fails else Default
  }

  /** In random mode the scene drawn is a scene the manager holds, and never
   *  one of the test scenes. */
  lemma RandomModeDrawsEligible(c: Config, name: string)
    requires WellFormed(c)
    requires Lookup(GetSettings(c), "random_scene_mode", Flag(false)).Truthy()
    requires var s := SelectionFor(GetSettings(c), SceneNames(c, true)); s.Among? && name in s.names
    ensures GetScene(c, name).Some? && name !in TestScenes
  {
    SceneNamesFacts(c, name);
  }

  /** What a run of `run_halloween_sequence` past its guards does, starting
   *  from the record `before`: the scene `picked` is drawn as `SelectionFor`
   *  allows, its run decides `ok`, and the record grows by that run's events
   *  and then by the emergency cleanup's. */
  ghost predicate SequenceRan(c: Config, refs: Refs, env: Env, before: seq<Event>,
                              picked: Option<string>, ok: bool, after: seq<Event>)
  {
    var s := SelectionFor(GetSettings(c), SceneNames(c, true));
    var run := if picked.Some? then SceneRun(GetScene(c, picked.value), refs, env, |before|) else Refused;
    && (picked.None? <==> s.Fails?)
    && (s.Default? ==> picked == Some(DefaultScene))
    && (s.Among? ==> picked.Some? && picked.value in s.names)
    && ok == run.ok
    && after == before + run.events + CleanupEvents(GetEmergencyCleanupActions(c), refs)
  }

  class Controller {
    /** CONFIG: configs.yaml, or `None` when it did not load. */
    const file: Option<ConfigFile>
    /** `scene_manager`, or null before one was made. */
    const manager: SceneManager?
    /** Whether both ultrasonic sensors exist, and the door motor. */
    const sensorsPresent: bool
    const doorMotorPresent: bool
    var systemInitialized: bool
    var sequenceRunning: bool
    var lastSequenceTime: real

    /** The bus the scene manager dispatches on, if there is a manager. */
    function Hardware(): set<object>
      reads this
    {
      if manager == null then {} else {manager.bus}
    }

    /** The scene manager's settings, as `get_config_value` sees them. */
    function Settings(): Option<map<string, Value>>
      reads this, manager
    {
      if manager == null then None else Some(GetSettings(manager.config))
    }

    function Config(section: string, key: string, default: Value): Value
      reads this, manager
    {
      GetConfigValue(file, Settings(), section, key, default)
    }

    /** The module state after hardware set-up: no sequence running, and the
     *  cooldown clock at 0. */
    constructor (file: Option<ConfigFile>, manager: SceneManager?, sensorsPresent: bool,
                 doorMotorPresent: bool, initialized: bool)
      ensures this.file == file && this.manager == manager
      ensures this.sensorsPresent == sensorsPresent && this.doorMotorPresent == doorMotorPresent
      ensures systemInitialized == initialized && !sequenceRunning && lastSequenceTime == 0.0
    {
      this.file := file;
      this.manager := manager;
      this.sensorsPresent := sensorsPresent;
      this.doorMotorPresent := doorMotorPresent;
      systemInitialized := initialized;
      sequenceRunning := false;
      lastSequenceTime := 0.0;
    }

    /** `get_shortest_distance`: attempt `i` reads `d1(i)` from the first
     *  sensor and `d2(i)` from the second (`None` for no reading). `None`
     *  is the `TypeError` of comparing the attempt count with a
     *  `max_sensor_retries` that is no number. */
    method GetShortestDistance(d1: nat -> Option<real>, d2: nat -> Option<real>) returns (r: Option<Value>)
      ensures var fallback := Config("detection", "default_safe_distance", Number(DefaultSafeDistance));
        var retries := Config("detection", "max_sensor_retries", Number(DefaultMaxRetries));
        && (!systemInitialized || !sensorsPresent ==> r == Some(fallback))
        && (systemInitialized && sensorsPresent ==>
              if retries.Number? || retries.Flag?
              then r == Some(ShortestFrom(d1, d2, 0, AttemptLimit(retries.NumberOr(0.0)), fallback))
              else r == None)
    {
      var fallback := Config("detection", "default_safe_distance", Number(DefaultSafeDistance));
      if !systemInitialized || !sensorsPresent {
        return Some(fallback);
      }
      var retries := Config("detection", "max_sensor_retries", Number(DefaultMaxRetries));
      if !(retries.Number? || retries.Flag?) {
        return None;
      }
      var maxRetries := retries.NumberOr(0.0);
      ghost var limit := AttemptLimit(maxRetries);
      var retryCount: nat := 0;
      while (retryCount as real) < maxRetries
        invariant retryCount <= limit
        invariant ShortestFrom(d1, d2, 0, limit, fallback) == ShortestFrom(d1, d2, retryCount, limit, fallback)
        decreases limit - retryCount
      {
        var distance1 := d1(retryCount);
        var distance2 := d2(retryCount);
        if distance1.Some? && distance2.Some? {
          return Some(Number(Min(distance1.value, distance2.value)));
        }
        retryCount := retryCount + 1;
      }
      return Some(fallback);
    }

    /** The scene `run_halloween_sequence` runs, drawn as `random.choice`
     *  would; `None` where the draw raises. */
    method SelectScene() returns (name: Option<string>)
      requires manager != null
      ensures var s := SelectionFor(GetSettings(manager.config), SceneNames(manager.config, true));
        && (name.None? <==> s.Fails?)
        && (s.Default? ==> name == Some(DefaultScene))
        && (s.Among? ==> name.Some? && name.value in s.names)
    {
      var randomMode := Config("settings", "random_scene_mode", Flag(false));
      var available := manager.GetSceneNames(true);
      if randomMode.Truthy() {
        if available != [] {
          assert available[0] in available;
          var pick :| pick in available;
          return Some(pick);
        }
        return Some(DefaultScene);
      }
      var randomScenes := Config("settings", "random_scene_list", Names([]));
      if !randomScenes.Truthy() {
        return Some(DefaultScene);
      }
      match randomScenes
      case Names(items) =>
        assert items[0] in items;
        var pick :| pick in items;
        return Some(pick);
      case Text(s) =>
        var i :| 0 <= i < |s|;
        assert [s[i]] == Characters(s)[i];
        return Some([s[i]]);
      case _ =>
        return None;
    }

    /** `run_halloween_sequence`: refused while a sequence runs or before the
     *  system is up; otherwise the selected scene is executed and, whatever
     *  happened, the flag is cleared and the emergency cleanup runs.
     *  `picked` is the scene that was executed, if the draw did not raise. */
    method RunHalloweenSequence() returns (ok: bool, ghost picked: Option<string>)
      modifies this, Hardware()
      ensures systemInitialized == old(systemInitialized) && lastSequenceTime == old(lastSequenceTime)
      ensures sequenceRunning == old(sequenceRunning)
      ensures old(sequenceRunning) || !systemInitialized || manager == null ==>
        !ok && picked.None? && (manager != null ==> manager.bus.trace == old(manager.bus.trace))
      ensures !old(sequenceRunning) && systemInitialized && manager != null ==>
        SequenceRan(manager.config, manager.hardwareRefs, manager.bus.env, old(manager.bus.trace), picked, ok, manager.bus.trace)
    {
      if sequenceRunning {
        return false, None;
      }
      if !systemInitialized || manager == null {
        return false, None;
      }
      sequenceRunning := true;
      ghost var start := manager.bus.trace;
      var sceneName := SelectScene();
      picked := sceneName;
      if sceneName.Some? {
        ok := manager.ExecuteScene(sceneName.value);
      } else {
        ok := false;
      }
      sequenceRunning := false;
      manager.ExecuteEmergencyCleanup();
    }

    /** One pass of the `main` loop with a numeric `distance` and numeric
     *  thresholds: `run_halloween_sequence` is called exactly when someone
     *  is nearer than `near` and the cooldown since the last successful run
     *  is over; its result is the pass's `ok`, and only a successful run
     *  restarts the cooldown. `picked` is the scene that run drew. */
    method Tick(distance: real, now: real, near: real, cooldown: real) returns (triggered: bool, ok: bool, ghost picked: Option<string>)
      modifies this, Hardware()
      ensures triggered <==> distance < near && now - old(lastSequenceTime) >= cooldown
      ensures ok ==> triggered
      ensures lastSequenceTime == if ok then now else old(lastSequenceTime)
      ensures sequenceRunning == old(sequenceRunning) && systemInitialized == old(systemInitialized)
      ensures !triggered && manager != null ==> manager.bus.trace == old(manager.bus.trace)
      ensures triggered && (old(sequenceRunning) || !systemInitialized || manager == null) ==>
        !ok && (manager != null ==> manager.bus.trace == old(manager.bus.trace))
      ensures triggered && !old(sequenceRunning) && systemInitialized && manager != null ==>
        SequenceRan(manager.config, manager.hardwareRefs, manager.bus.env, old(manager.bus.trace), picked, ok, manager.bus.trace)
    {
      triggered := distance < near && now - lastSequenceTime >= cooldown;
      ok, picked := false, None;
      if triggered {
        ok, picked := RunHalloweenSequence();
        if ok {
          lastSequenceTime := now;
        }
      }
    }

    /** `process_lights`: only the missing light is refused; the light
     *  changes themselves run on a thread. */
    method ProcessLights(light: Option<Handle>) returns (started: bool)
      ensures started <==> light.Some?
    {
      if light.None? {
        return false;
      }
      return true;
    }

    /** `door`: refused before the system is up or without a door motor; the
     *  movement itself runs on a thread. */
    method Door(open: bool, length: real) returns (started: bool)
      ensures started <==> systemInitialized && doorMotorPresent
    {
      if !systemInitialized || !doorMotorPresent {
        return false;
      }
      return true;
    }
  }
}
