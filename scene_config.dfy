/** The scene configuration (scenes.yaml) as the scene manager reads it, and
 *  the lookups the manager makes in it. Every field the YAML may leave out is
 *  an `Option`; the manager's `.get(key, default)` is `GetOr(default)`. */
module SceneConfig {
  import opened Common
  import opened Dicts

  /** The `lights` entry of a step's effects. */
  datatype LightConfig = LightConfig(
    color: Option<seq<int>>,
    flash: Option<Value>,
    flashAmount: Option<int>,
    off: Option<Value>,
    on: Option<Value>)

  /** The `audio` entry: the sound's short name and its volume. */
  datatype AudioConfig = AudioConfig(file: Option<string>, volume: Option<Value>)

  /** The `motor` entry. */
  datatype MotorConfig = MotorConfig(action: Option<string>, duration: Option<real>)

  /** The `relay` entry: `name` is the relay's short name ("smoke", "skull"). */
  datatype RelayConfig = RelayConfig(name: Option<string>, action: Option<string>, duration: Option<real>)

  datatype Effects = Effects(
    lights: Option<LightConfig>,
    audio: Option<AudioConfig>,
    motor: Option<MotorConfig>,
    relay: Option<RelayConfig>)

  const NoEffects := Effects(None, None, None, None)

  /** One step of a scene: effects first, then a pause of `duration` seconds. */
  datatype Step = Step(duration: Option<real>, effects: Option<Effects>)

  /** A scene mapping; `otherKeys` are the keys it holds that the manager never
   *  reads (they matter only to whether the mapping is empty). */
  datatype Scene = Scene(
    name: Option<string>,
    description: Option<string>,
    steps: Option<seq<Step>>,
    otherKeys: set<string>)
  {
    /** An empty mapping, which Python treats as false. */
    predicate IsEmpty() {
      name.None? && description.None? && steps.None? && otherKeys == {}
    }
  }

  /** One entry of `error_handling.emergency_cleanup`. */
  datatype CleanupAction = CleanupAction(action: Option<string>, target: Option<string>)

  datatype ErrorHandling = ErrorHandling(emergencyCleanup: Option<seq<CleanupAction>>)

  /** The whole file: `scenes`, `alternative_sequences`, `settings` and
   *  `error_handling`. */
  datatype Config = Config(
    scenes: Option<Dict<Scene>>,
    alternatives: Option<Dict<Scene>>,
    settings: Option<map<string, Value>>,
    errorHandling: Option<ErrorHandling>)

  /** The configuration before any file has been loaded: `{}`. */
  const EmptyConfig := Config(None, None, None, None)

  /** A configuration as the YAML loader produces it: no section repeats a key. */
  ghost predicate WellFormed(c: Config) {
    Unique(c.scenes.GetOr([])) && Unique(c.alternatives.GetOr([]))
  }

  function MainScenes(c: Config): Dict<Scene> {
    c.scenes.GetOr([])
  }

  function AlternativeScenes(c: Config): Dict<Scene> {
    c.alternatives.GetOr([])
  }

  /** `get_scene`: the main scenes are searched before the alternative sequences. */
  function GetScene(c: Config, name: string): (r: Option<Scene>)
    ensures r.Some? <==> name in KeySet(MainScenes(c)) + KeySet(AlternativeScenes(c))
    ensures name in KeySet(MainScenes(c)) ==> r == Get(MainScenes(c), name)
    ensures name !in KeySet(MainScenes(c)) ==> r == Get(AlternativeScenes(c), name)
  {
    if name in KeySet(MainScenes(c)) then Get(MainScenes(c), name)
    else Get(AlternativeScenes(c), name)
  }

  /** What `get_all_scenes` builds: `{}` updated with the main scenes, then with
   *  the alternative sequences. */
  function AllScenes(c: Config): Dict<Scene> {
    PutAll(PutAll([], MainScenes(c)), AlternativeScenes(c))
  }

  /** The scenes never picked at random. */
  const TestScenes: set<string> := {"maintenance_mode", "emergency_test", "quick_scare"}

  /** What `get_scene_names(exclude_test_scenes)` returns. */
  function SceneNames(c: Config, excludeTests: bool): seq<string> {
    var names := Keys(AllScenes(c));
    if excludeTests then Exclude(names, TestScenes) else names
  }

  /** `get_settings`. */
  function GetSettings(c: Config): (s: map<string, Value>)
    ensures c.settings.None? ==> s == map[]
    ensures c.settings.Some? ==> s == c.settings.value
  {
    c.settings.GetOr(map[])
  }

  /** `get_emergency_cleanup_actions`. */
  function GetEmergencyCleanupActions(c: Config): (r: seq<CleanupAction>)
    ensures c.errorHandling.None? || c.errorHandling.value.emergencyCleanup.None? ==> r == []
    ensures c.errorHandling.Some? && c.errorHandling.value.emergencyCleanup.Some? ==>
      r == c.errorHandling.value.emergencyCleanup.value
  {
    c.errorHandling.GetOr(ErrorHandling(None)).emergencyCleanup.GetOr([])
  }

  /** `get_all_scenes` keeps the keys distinct; an alternative sequence
   *  replaces a main scene of the same name. */
  lemma AllScenesGet(c: Config, name: string)
    requires WellFormed(c)
    ensures Unique(AllScenes(c))
    ensures Get(AllScenes(c), name) ==
      if name in KeySet(AlternativeScenes(c)) then Get(AlternativeScenes(c), name)
      else Get(MainScenes(c), name)
  {
    PutAllIntoEmpty(MainScenes(c));
    PutAllUnique(MainScenes(c), AlternativeScenes(c));
    PutAllGet(MainScenes(c), AlternativeScenes(c), name);
  }

  /** The keys of `get_all_scenes` are the main scenes' in their order, then
   *  the alternative sequences' new ones in theirs. */
  lemma AllScenesKeys(c: Config)
    requires WellFormed(c)
    ensures Keys(AllScenes(c)) ==
      Keys(MainScenes(c)) + Exclude(Keys(AlternativeScenes(c)), KeySet(MainScenes(c)))
  {
    PutAllIntoEmpty(MainScenes(c));
    PutAllKeys(MainScenes(c), AlternativeScenes(c));
  }

  /** `get_scene` and `get_all_scenes` know the same names, and agree on every
   *  name except one held by both sections, where `get_scene` gives the main
   *  scene and `get_all_scenes` the alternative sequence. */
  lemma GetSceneVersusAllScenes(c: Config, name: string)
    requires WellFormed(c)
    ensures GetScene(c, name).Some? <==> Get(AllScenes(c), name).Some?
    ensures name !in KeySet(MainScenes(c)) || name !in KeySet(AlternativeScenes(c)) ==>
      GetScene(c, name) == Get(AllScenes(c), name)
    ensures name in KeySet(MainScenes(c)) && name in KeySet(AlternativeScenes(c)) ==>
      GetScene(c, name) == Get(MainScenes(c), name) &&
      Get(AllScenes(c), name) == Get(AlternativeScenes(c), name)
  {
    AllScenesGet(c, name);
    if name in KeySet(MainScenes(c)) && name !in KeySet(AlternativeScenes(c)) {
      assert Get(AllScenes(c), name) == Get(MainScenes(c), name);
    }
  }

  /** The random-eligible names are exactly the scene names outside the test
   *  scenes, each once, in `get_all_scenes` order; without exclusion every name
   *  is returned. */
  lemma SceneNamesFacts(c: Config, n: string)
    requires WellFormed(c)
    ensures n in SceneNames(c, true) <==>
      (n in KeySet(MainScenes(c)) || n in KeySet(AlternativeScenes(c))) && n !in TestScenes
    ensures n in SceneNames(c, false) <==> n in KeySet(MainScenes(c)) || n in KeySet(AlternativeScenes(c))
    ensures SceneNames(c, true) == Exclude(SceneNames(c, false), TestScenes)
  {
    AllScenesKeys(c);
    KeySetIsKeys(MainScenes(c));
    KeySetIsKeys(AlternativeScenes(c));
  }
}
