# Halloween coffin: a verified model of its sequencing core

The halloween_coffin prop is run from a Raspberry Pi. Ultrasonic sensors watch
for visitors. When someone comes near, a scene from `scenes.yaml` runs. Each
step of a scene drives a Govee light over UDP, plays a sound through pygame,
moves the lid motor, or switches a relay (smoke machine, skull), and then
pauses. This project models in Dafny the logic between the YAML data and the
drivers, and proves properties of that model:

- the scene manager (`scene_manager.py`): scene lookup, the step and effect
  executors, and emergency cleanup;
- the two controllers: the configuration-driven one (`old_files/main.py`) and
  the flat action interpreter (`main.py`);
- the driver state machines under `plugins/`: relay, motor, Govee light,
  ultrasonic sensor and MP3 player.

The drivers are seen by the scene logic only through handles (`Hardware`). A
call on a handle is recorded on a `Bus`, in order. How the call comes back is
an environment function of the call and of its position in the record: it
returns a truthy or falsy value, or it raises. The drivers themselves are
classes whose methods record what they do to their pins (`Gpio`) or what they
send (`Govee`).

Modules, one per concern:

| file | module | models |
|---|---|---|
| common.dfy | Common | optional values, YAML values and their Python truthiness |
| dicts.dfy | Dicts | insertion-ordered Python dicts as association lists |
| hardware.dfy | Hardware | handles, calls, outcomes, the event record, try-blocks |
| scene_config.dfy | SceneConfig | scenes.yaml and the scene manager's lookups in it |
| scene_runs.dfy | SceneRuns | what executing a scene reports and dispatches, as functions |
| scenes.dfy | Scenes | the `SceneManager` class, proved against `SceneRuns` |
| gpio.dfy | Gpio | pin writes and the level of each pin |
| relays.dfy | Relays | plugins/relay.py |
| motors.dfy | Motors | plugins/motor.py |
| govee.dfy | Govee | plugins/govee_plugin.py |
| ultrasonic.dfy | Ultrasonic | plugins/ultrasonic.py |
| music.dfy | Music | plugins/music_player.py |
| legacy.dfy | Legacy | old_files/main.py |
| sequencer.dfy | Sequencer | main.py |
| findings.dfy | Findings | the return-value mismatch between the scene manager and the drivers |

What the scene manager's code does, where one might expect otherwise:

- A failing step ends the scene at once (scene_manager.py:178-181). The later
  steps are not run.
- A step pauses for its full `duration` after its effects
  (scene_manager.py:226-227). The dispatch time is not subtracted.
- There is no emergency cleanup inside `execute_scene`. The caller
  `run_halloween_sequence` runs it in its `finally` block
  (old_files/main.py:423-429).

## Model

| member | source | states |
|---|---|---|
| Dicts.Exclude | scene_manager.py:118-125 | a name is kept exactly when it is in the list and not dropped; the result is no longer than the list |
| Dicts.PutAllGet | scene_manager.py:96-106 | after `update`, a key of the update has the update's value, and any other key keeps its old value |
| Dicts.PutAllKeys | scene_manager.py:96-106 | after `update`, the keys are the old keys in their order, followed by the update's new keys in theirs |
| Dicts.PutAllUnique | scene_manager.py:96-106 | `update` never makes a key occur twice |
| SceneConfig.GetScene | scene_manager.py:78-87 | a scene is found exactly when either section holds the name; the main section is searched first, then the alternative sequences |
| SceneConfig.GetSettings | scene_manager.py:145-152 | the `settings` section, or the empty mapping without one |
| SceneConfig.GetEmergencyCleanupActions | scene_manager.py:435-442 | the configured `emergency_cleanup` list, or no actions without `error_handling` or without the list |
| SceneConfig.AllScenesGet | scene_manager.py:96-106 | the merged scenes hold each name once; an alternative sequence replaces a main scene of the same name |
| SceneConfig.AllScenesKeys | scene_manager.py:96-106 | the merged names are the main scenes in order, then the alternative sequences not already present |
| SceneConfig.GetSceneVersusAllScenes | scene_manager.py:78-106 | `get_scene` and `get_all_scenes` know the same names and agree on each, except a name in both sections: there `get_scene` gives the main scene and `get_all_scenes` the alternative |
| SceneConfig.SceneNamesFacts | scene_manager.py:118-125 | with exclusion, a name is returned exactly when it is a scene name outside maintenance_mode, emergency_test and quick_scare; without exclusion, every scene name is returned |
| Scenes.SceneManager.constructor | scene_manager.py:20-30 | the parsed configuration, or `{}` when loading failed, and an empty hardware registry |
| Scenes.SceneManager.LoadConfig | scene_manager.py:32-55 | succeeds exactly when the file parsed; a failed load keeps the old configuration |
| Scenes.SceneManager.SetHardwareReferences | scene_manager.py:57-65 | the registry becomes the given one; the configuration is untouched |
| Scenes.SceneManager.GetAllScenes | scene_manager.py:96-106 | the two update loops build `{}` updated with the main scenes and then with the alternative sequences |
| Scenes.SceneManager.GetSceneNames | scene_manager.py:118-125 | the merged names, with the test scenes filtered out when asked |
| Scenes.SceneManager.ExecuteScene | scene_manager.py:164-188 | the result and the dispatched events are those of `SceneRun` on the scene `get_scene` finds |
| Scenes.SceneManager.ExecuteSteps | scene_manager.py:177-188 | the step loop dispatches and reports exactly what `StepsRun` says: steps in order, ending at the first failing step |
| Scenes.SceneManager.ExecuteStep | scene_manager.py:200-233 | one step dispatches and reports what `StepRun` says: its effects, then its pause only after success |
| Scenes.SceneManager.ExecuteEffects | scene_manager.py:245-267 | the present effects are tried in the order lights, audio, motor, relay, each from where the last ended; the result is `EffectsRun`'s |
| Scenes.SceneManager.ExecuteLightEffect | scene_manager.py:279-314 | the light effect dispatches and reports what `LightRun` says |
| Scenes.SceneManager.ExecuteAudioEffect | scene_manager.py:326-352 | the audio effect dispatches and reports what `AudioRun` says |
| Scenes.SceneManager.ExecuteMotorEffect | scene_manager.py:364-383 | the motor effect dispatches and reports what `MotorRun` says |
| Scenes.SceneManager.ExecuteRelayEffect | scene_manager.py:395-433 | the relay effect dispatches and reports what `RelayRun` says, including the auto-off timer |
| Scenes.SceneManager.ExecuteEmergencyCleanup | scene_manager.py:448-469 | the events are exactly `CleanupEvents` of the configured actions, whatever each call did |
| Hardware.AttemptEvents | scene_manager.py:279-314 | a try-block makes its calls in order, up to and including the first call that raises |
| Hardware.AttemptOutcome | scene_manager.py:279-314 | a try-block succeeds exactly when no call raises, and then makes every call; when it fails, its last call raised and none before did |
| Hardware.AttemptAppend | scene_manager.py:279-314 | a try-block over `a + b` runs `a`, then `b` only if no call of `a` raised |
| SceneRuns.SceneWithoutStepsDispatchesNothing | scene_manager.py:164-175 | a missing or empty scene is refused, a scene without steps succeeds, and neither dispatches anything |
| SceneRuns.StepsRunAppend | scene_manager.py:177-188 | running `a + b` runs `a`, then runs `b` from where `a` ended only if `a` succeeded |
| SceneRuns.StepsRunStops | scene_manager.py:178-181 | once a step fails, no later step is run |
| SceneRuns.StepsOkIffEveryStep | scene_manager.py:177-188 | the scene succeeds if and only if every step, started where the steps before it ended, succeeds |
| SceneRuns.StepsStopAtFirstFailure | scene_manager.py:177-188 | a failing scene stops at a step `j`: the steps before `j` succeeded, `j` failed, and nothing after `j` was dispatched |
| SceneRuns.EffectsNeverSleep | scene_manager.py:245-433 | the scene manager adds no pause of its own inside an effect handler; the driver calls it makes may block inside the driver |
| SceneRuns.StepPausesOnlyAfterSuccess | scene_manager.py:219-229 | a step succeeds exactly when its effects do; its only pause is its last event, for its own duration, and only after success with a positive duration |
| SceneRuns.EffectsOkIffEveryEffect | scene_manager.py:245-267 | the effects succeed exactly when every present effect succeeds; the events are those of lights, audio, motor and relay one after the other, so a failing effect does not stop a later one |
| SceneRuns.LightCallsFacts | scene_manager.py:297-308 | the light effect always sets the colour; it turns the light on, flashes it and turns it off exactly when configured; every call addresses the lights |
| SceneRuns.LightCallsLayout | scene_manager.py:297-308 | the light calls come in the order on, colour, flash, off |
| SceneRuns.LightRunFacts | scene_manager.py:279-314 | refused without lights or a three-part colour; otherwise fails exactly when a call raises, whatever `set_color` returns |
| SceneRuns.AudioRunFacts | scene_manager.py:326-352 | succeeds exactly for opening, creepy or thump with a registered player, a `set_volume` that does not raise, and a `play` that returns true |
| SceneRuns.MotorRunFacts | scene_manager.py:364-383 | 'open' moves forward and 'close' in reverse, for the configured duration or 6.0; any other action, or no motor, is refused; with a motor and a known action, it succeeds exactly when the motor call returns a truthy value |
| SceneRuns.RelayRunFacts | scene_manager.py:395-433 | refused on a missing name, an unregistered `name + "_relay"` or an unknown action; an auto-off timer starts exactly for a non-raising 'on' with a positive duration; for a registered relay and a known action, it succeeds exactly when the relay call returns a truthy value |
| SceneRuns.CleanupAttemptsEveryAction | scene_manager.py:448-469 | every cleanup action gets its call, whatever earlier calls did; 'motor_close' is `move_reverse(6.0)`; unknown actions do nothing |
| Relays.LevelFor | plugins/relay.py:37-42 | the pin is HIGH exactly when the state equals `active_high` |
| Relays.Relay.constructor | plugins/relay.py:13-33 | the state is `initial_state` and the pin is driven for it at once |
| Relays.Relay.SetGpioState | plugins/relay.py:37-42 | one write of `LevelFor` of the state; the pin then carries it |
| Relays.Relay.On | plugins/relay.py:44-48 | the relay is on, whatever it was, and its pin carries that |
| Relays.Relay.Off | plugins/relay.py:50-54 | the relay is off, whatever it was, and its pin carries that |
| Relays.Relay.Toggle | plugins/relay.py:56-61 | the state is negated |
| Relays.Relay.Pulse | plugins/relay.py:63-74 | on, a pause of `duration`, off: the relay ends off |
| Relays.Relay.PulsePattern | plugins/relay.py:76-119 | the pin record is a whole number of on/off cycles (plus half a cycle when interrupted, then off); the relay ends off; how many cycles is given by `PatternEnded` |
| Relays.PatternCountsExactly | plugins/relay.py:91-119 | with a count and no stop request, exactly `count` cycles run (one for a count below one) |
| Relays.PatternStopsWhereAsked | plugins/relay.py:91-119 | a stop request between cycles, before the count is reached, ends the pattern there; one during the on phase cuts that cycle short |
| Relays.PatternEndsOneWay | plugins/relay.py:91-119 | the count and the stop request determine how many cycles run and whether the last is cut short; once the count is reached no further cycle starts |
| Relays.CyclesLayout | plugins/relay.py:91-119 | `n` cycles are `4 n` events, cycle `i` at events `4 i` to `4 i + 3` |
| Relays.Relay.TimedOn | plugins/relay.py:149-157 | the relay is on before the call returns, and an off timer is started |
| Relays.Relay.GetState | plugins/relay.py:169-171 | the last state written |
| Relays.Relay.Cleanup | plugins/relay.py:173-177 | the relay ends off |
| Motors.Motor.constructor | plugins/motor.py:12-29 | both pins set up and written LOW |
| Motors.Motor.StopMotor | plugins/motor.py:33-36 | both pins LOW; the pins were never HIGH together |
| Motors.Motor.MoveForward | plugins/motor.py:38-50 | reverse LOW before forward HIGH, then the pause, then forward LOW; both pins LOW at the end, never both HIGH |
| Motors.Motor.MoveReverse | plugins/motor.py:52-64 | forward LOW before reverse HIGH, then the pause, then reverse LOW; both pins LOW at the end, never both HIGH |
| Motors.Motor.Stop | plugins/motor.py:66-69 | both pins LOW |
| Motors.Motor.Cleanup | plugins/motor.py:71-74 | both pins LOW |
| Govee.ColourCommand | plugins/govee_plugin.py:38-51 | a "colorwc" command carrying the three components as given |
| Govee.FlashAlternates | plugins/govee_plugin.py:53-58 | `flash(n)` sends exactly `2 n` commands, off and on alternately, starting with off |
| Govee.RoundCommands | plugins/govee_plugin.py:55-58 | one round of `flash` sends off, then on |
| Govee.GoveeLight.constructor | plugins/govee_plugin.py:6-9 | the address is stored and nothing is sent |
| Govee.GoveeLight.SendCommand | plugins/govee_plugin.py:11-14 | one command sent |
| Govee.GoveeLight.TurnOn | plugins/govee_plugin.py:16-25 | one "turn" command with value 1 |
| Govee.GoveeLight.TurnOff | plugins/govee_plugin.py:27-36 | one "turn" command with value 0 |
| Govee.GoveeLight.SetColor | plugins/govee_plugin.py:38-51 | one colour command; `color_temp` is not used |
| Govee.GoveeLight.Flash | plugins/govee_plugin.py:53-58 | the events of `amount` rounds, none for a negative amount |
| Music.ValidateVolume | plugins/music_player.py:118-134 | a number or bool is clamped into [0, 1], and is kept when already inside; anything else raises (`None`) |
| Music.ValidateIdempotent | plugins/music_player.py:118-134 | clamping a clamped volume changes nothing |
| Music.MP3Player.constructor | plugins/music_player.py:28-58 | not playing, with the given in-range volume |
| Music.MP3Player.Open | plugins/music_player.py:28-58 | a player exists exactly when the volume is numeric, the file exists and the mixer initialises; it holds the clamped volume and is not playing |
| Music.MP3Player.SetVolume | plugins/music_player.py:82-107 | true exactly on a numeric volume and a mixer that does not raise; a numeric volume is stored clamped even when the mixer then raises; otherwise the volume is unchanged |
| Music.MP3Player.GetVolume | plugins/music_player.py:109-116 | the stored volume |
| Music.MP3Player.Play | plugins/music_player.py:136-163 | starts a playback thread and succeeds exactly when not already playing and the file exists |
| Music.MP3Player.PlaybackStarted | plugins/music_player.py:182-183 | the playback thread sets `is_playing` |
| Music.MP3Player.PlaybackFinished | plugins/music_player.py:202-203 | the playback thread clears `is_playing` when it ends |
| Music.MP3Player.Stop | plugins/music_player.py:205-223 | true exactly when playing and the mixer does not raise; then `is_playing` is cleared; otherwise nothing changes |
| Music.MP3Player.Pause | plugins/music_player.py:225-242 | false when not playing, and false when the mixer raises |
| Music.MP3Player.Unpause | plugins/music_player.py:244-257 | true exactly when the mixer does not raise |
| Music.MP3Player.IsPlayingAudio | plugins/music_player.py:259-266 | playing exactly when the flag is set and the mixer is busy |
| Music.MP3Player.Cleanup | plugins/music_player.py:268-282 | playback is stopped unless the mixer raises |
| Ultrasonic.EchoDistance | plugins/ultrasonic.py:112-114 | the distance is half the echo time times 34300 cm/s |
| Ultrasonic.Reading | plugins/ultrasonic.py:106-124 | a reading exactly when an echo came back and its distance is at most `max_distance`, and then it is that distance |
| Ultrasonic.AppendedKeepsWindow | plugins/ultrasonic.py:138-141 | appending and popping the oldest above 10 keeps the history equal to the last 10 readings ever taken |
| Ultrasonic.SignificantChange | plugins/ultrasonic.py:143-152 | a change is recorded exactly when there was a previous reading and the distance moved by at least the threshold, with from, to, size and time |
| Ultrasonic.ObserveFacts | plugins/ultrasonic.py:130-160 | the last reading becomes the distance; the last change moves only on a significant change; a change notice is handed over exactly on a significant change with a change callback set, and a distance notice exactly with a distance callback set, the change first; nothing else is added |
| Ultrasonic.Average | plugins/ultrasonic.py:180-183 | an average exactly for a non-empty list |
| Ultrasonic.AverageBounds | plugins/ultrasonic.py:180-183 | the average lies between any bounds of the readings |
| Ultrasonic.AcceptedFacts | plugins/ultrasonic.py:172-178 | the samples kept are exactly the valid readings, in order, with none from an invalid attempt |
| Ultrasonic.PyTail | plugins/ultrasonic.py:263 | Python's `history[-k:]`: the last `k` entries for positive `k`, and the slice from `-k` for `k <= 0` |
| Ultrasonic.MaxOf | plugins/ultrasonic.py:267 | an entry of the list at least as large as every entry |
| Ultrasonic.MinOf | plugins/ultrasonic.py:267 | an entry of the list no larger than any entry |
| Ultrasonic.VariationIsSpread | plugins/ultrasonic.py:259-270 | max minus min exceeds the threshold exactly when two entries are further apart than the threshold |
| Ultrasonic.UltrasonicSensor.constructor | plugins/ultrasonic.py:14-55 | no reading, an empty history, the default threshold of 5, no callbacks, and the trigger pin LOW |
| Ultrasonic.UltrasonicSensor.UpdateReading | plugins/ultrasonic.py:130-160 | the history is appended and trimmed to 10, stays the last 10 readings ever taken, and the last reading, change and callbacks follow `Observe` |
| Ultrasonic.UltrasonicSensor.ReadDistance | plugins/ultrasonic.py:94-128 | the result is `Reading` of the echo; the trigger pulse is always sent; a missing or too far reading changes nothing else |
| Ultrasonic.UltrasonicSensor.GetAverageDistance | plugins/ultrasonic.py:162-183 | the mean of the valid samples only, `None` when none was valid; every valid sample also updates the sensor |
| Ultrasonic.UltrasonicSensor.GetReadingHistory | plugins/ultrasonic.py:185-187 | the history, as a value the caller cannot change |
| Ultrasonic.UltrasonicSensor.GetLastReading | plugins/ultrasonic.py:189-191 | the last reading |
| Ultrasonic.UltrasonicSensor.GetLastChange | plugins/ultrasonic.py:193-195 | the last significant change |
| Ultrasonic.UltrasonicSensor.SetChangeThreshold | plugins/ultrasonic.py:197-200 | the threshold is set; the history, readings, callbacks and pin log are untouched and the sensor stays valid |
| Ultrasonic.UltrasonicSensor.SetDistanceCallback | plugins/ultrasonic.py:202-204 | the distance callback is set; the history, readings, threshold, other callback and pin log are untouched |
| Ultrasonic.UltrasonicSensor.SetChangeCallback | plugins/ultrasonic.py:206-208 | the change callback is set; the history, readings, threshold, other callback and pin log are untouched |
| Ultrasonic.UltrasonicSensor.DetectMovement | plugins/ultrasonic.py:248-270 | false with fewer entries than asked for; otherwise whether `history[-samples:]` spreads by more than the threshold: the last `samples` entries for a positive count, and the history from index `-samples` for a count at or below 0; `None` (the `min` of an empty list raising) exactly when that slice is empty |
| Ultrasonic.UltrasonicSensor.IsObjectPresent | plugins/ultrasonic.py:272-285 | false without a reading, else whether the last reading is under the threshold |
| Legacy.GetConfigValue | old_files/main.py:307-332 | 'detection' and 'hardware' read configs.yaml, 'settings' the scene manager's settings; an unknown section, a missing key or a missing source gives the default |
| Legacy.AttemptLimit | old_files/main.py:286-288 | `while retry_count < max_retries` makes the smallest whole number of attempts that reaches `max_retries`, none for a bound at or below 0 |
| Legacy.ShortestIsFirstAnswer | old_files/main.py:288-296 | the first attempt at which both sensors answer decides the distance: the smaller of its two readings |
| Legacy.ShortestFallsBack | old_files/main.py:288-305 | when no attempt gets both readings, the default safe distance is returned |
| Legacy.Characters | old_files/main.py:405-407 | the one-character strings `random.choice` can draw from a string |
| Legacy.SelectionFor | old_files/main.py:390-408 | random mode draws from the eligible names, or keeps the default when there are none; otherwise a truthy `random_scene_list` is drawn from; the default is kept exactly when there is nothing to draw from; the draw raises exactly on a truthy bool or number; a draw is only ever made from a non-empty list |
| Legacy.RandomModeDrawsEligible | old_files/main.py:393-399 | in random mode the scene drawn is one the manager holds, and never a test scene |
| Legacy.Controller.constructor | old_files/main.py:46-47 | no sequence running and the cooldown clock at 0 |
| Legacy.Controller.GetShortestDistance | old_files/main.py:273-305 | uninitialised or without both sensors, the default safe distance; otherwise the retry loop's answer, `ShortestFrom`; `None` for a non-numeric retry count |
| Legacy.Controller.SelectScene | old_files/main.py:390-408 | 'halloween_sequence' by default; otherwise a drawn member of the eligible names or of `random_scene_list`; `None` exactly when the draw raises |
| Legacy.Controller.RunHalloweenSequence | old_files/main.py:368-429 | refused with nothing dispatched while a sequence runs, before initialisation or without a manager; otherwise the selected scene's run, then the emergency cleanup, with the busy flag cleared again |
| Legacy.Controller.Tick | old_files/main.py:454-477 | `run_halloween_sequence` is called exactly when the distance is under `near` and the cooldown is over, and the pass reports its result: refused while busy or uninitialised, otherwise the drawn scene's run followed by the emergency cleanup; the cooldown restarts only after a successful run; nothing is dispatched otherwise |
| Legacy.Controller.ProcessLights | old_files/main.py:247-271 | started exactly when there is a light |
| Legacy.Controller.Door | old_files/main.py:345-365 | started exactly when the system is up and there is a door motor |
| Sequencer.StripExtension | main.py:123 | `replace('.mp3', '')` never lengthens the name |
| Sequencer.StripAppendedExtension | main.py:122-124 | the lookup name is the same with or without ".mp3" appended |
| Sequencer.PlayWithOrWithoutExtension | main.py:121-129 | a play action finds the same player whether or not its file carries ".mp3" |
| Sequencer.Find | main.py:94 | a handle exactly when the name is given and known, and then the one it maps to |
| Sequencer.ActionCallFacts | main.py:78-129 | a motor action calls only the motor, and exactly for 'forward'/'reverse' (the duration or 2.0) and 'stop'; a relay action calls exactly a known relay's on/off; a light action calls only the light, and exactly for 'set_color' (r, g, b, each 0 when missing) and 'flash' (10 times by default); 'play' calls exactly a known player of the file's name |
| Sequencer.ActionEvents | main.py:74-141 | an action dispatches at most one event; an unknown type dispatches none; 'sleep' pauses for its duration or 1.0 |
| Sequencer.SequenceEventsAppend | main.py:74-141 | the actions run in order, each on its own: the events of `a + b` are those of `a`, then those of `b` |
| Sequencer.SkippedActionIsInvisible | main.py:94-97 | an action that dispatches nothing (unknown relay, music file or type) leaves the rest of the sequence as it would be without it |
| Sequencer.ShortestDistance | main.py:143-149 | `None` exactly when a reading is missing or zero; otherwise the smaller reading |
| Sequencer.Coffin.ExecuteSequence | main.py:67-141 | the events are `SequenceEvents` of the actions; a call that raises does not stop the later actions |
| Sequencer.Coffin.ExecuteAction | main.py:75-137 | one action: its sleep, its call, or nothing |
| Sequencer.Coffin.MainPass | main.py:157-172 | no distance: skipped; under the trigger distance, the drawn scene's sequence runs, or the pass crashes without one; a warning exactly under the warning distance; nothing is dispatched unless triggered |
| Findings.AsWrittenStepFails | scene_manager.py:364-433 | with the drivers as written, a step with a motor or relay effect fails |
| Findings.AsWrittenSceneStops | scene_manager.py:177-188 | with the drivers as written, a scene with a motor or relay step fails no later than that step |
| Findings.AsWrittenDoorThenSmoke | scene_manager.py:164-188 | as written, a door-then-smoke scene opens the door and stops: no pause, no smoke |
| Findings.CorrectedMotorEffect | scene_manager.py:364-383 | with drivers that report completion, a motor effect succeeds exactly when there is a motor and the action is known |
| Findings.CorrectedRelayEffect | scene_manager.py:395-433 | with drivers that report completion, a relay effect succeeds exactly for a registered relay and a known action |
| Findings.CorrectedDoorThenSmoke | scene_manager.py:164-188 | as intended, the same scene opens the door, pauses 3 seconds, switches the smoke on and succeeds |
| Findings.AsWrittenSmokePuff | scene_manager.py:395-433 | as written, a scene that switches the smoke on and then pauses fails after the relay call, without the pause |
| Findings.CorrectedSmokePuff | scene_manager.py:395-433 | as intended, the same scene switches the smoke on, pauses 2 seconds and succeeds |

## Left out

- Threads are not modelled; only what is done before each one starts is. This covers the playback thread of the MP3 player, the relay's pulse-pattern and timed-off threads, the ultrasonic monitor thread, the auto-off timer of a relay effect, and the light and door threads of old_files/main.py. The start of a thread is recorded as an event (`OffScheduled`, `OffTimer`, `threadsStarted`, the `started` result).
- `start_pulse_pattern`, `stop_pulse_pattern` and `start_monitoring`/`stop_monitoring`/`_monitor_loop` only start or stop those threads.
- Drivers at the bottom are not modelled: GPIO input, the echo busy-wait `_wait_for_echo`, pygame mixer calls and UDP sends. The echo time is an input. A mixer that raises is a boolean input. A command is recorded instead of sent.
- There is no clock; `time.time()` is a parameter. `time.sleep` is an event in the record: `Slept` on the bus, `Sleep` in pin logs and in the sensor's sampling events. Two pauses are not recorded: the 0.1 s pause between retries in `get_shortest_distance` (old_files/main.py:301) and the `sleep(sensor_reading_interval)` that ends each pass of the `main` loop (old_files/main.py:477), which `Legacy.Controller.Tick` leaves out.
- The bus records a driver call as one event and not the time spent inside it: a motor move blocks for its duration and a light flash for 0.6 s a round inside the driver. The driver models (`Motors`, `Govee`) record those pauses in their own logs.
- `random.choice` is a nondeterministic choice of some element, and the model proves only that the element belongs to the list.
- Distances, volumes and durations are mathematical reals, without float rounding.
- Logging, printing, and the error messages are not modelled.
- `SceneManager.load_config` reads and parses YAML; it is modelled as a parsed configuration or a parse failure.
- Scenes.SceneManager.LoadConfig: cannot express an empty scenes.yaml. There `yaml.safe_load` gives `None`, the load reports success and stores `None`, and every later `get_scene` raises AttributeError before `execute_scene`'s try (scene_manager.py:44-48, 77, 164). The model's configuration is always a mapping. `get_hardware_config` and `get_detection_config` are not modelled; no modelled operation calls them.
- YAML values the code does not expect are not modelled: a `null` effect entry, a step that is not a mapping, an action that is not a mapping, and a `duration` that is not a number. Each would raise inside a `try`.
- `initialize_system`, `initialize_hardware`, `load_config` and `cleanup_hardware` of old_files/main.py are not modelled. They construct drivers from configuration, so the Controller is given its hardware instead.
- `main` of old_files/main.py is not modelled beyond one tick. Not modelled: its start-up, its KeyboardInterrupt handling, and the `finally` cleanup.
- Legacy.Controller.Tick: takes the distance and the thresholds as numbers. A non-numeric configured threshold, which would raise a TypeError, is not modelled.
- The module-level hardware set-up of main.py (lines 19-62) and `setup_hardware` (main.py:151-155) are not modelled. `setup_hardware` is `execute_sequence` on the configured setup sequence, which `Sequencer.Coffin.ExecuteSequence` covers.
- Sequencer.Coffin.ExecuteAction: records a sleep action's pause even for a negative duration. There `time.sleep` raises, and the handler skips the action.
- Legacy.Controller.GetShortestDistance and Sequencer.Coffin.MainPass take the sensor readings as inputs. Each `read_distance` they stand for also sends a trigger pulse, and a valid reading also updates that sensor's history, last reading and change record and calls its callbacks (plugins/ultrasonic.py:103, 122). These effects on the sensors are not part of the controllers' models; `Ultrasonic.UltrasonicSensor.ReadDistance` models them on one sensor.
- The callbacks of the ultrasonic sensor are assumed not to raise; only the fact that one is called is recorded.
- Ultrasonic.UltrasonicSensor.ReadDistance: does not model the exception path. An error in the trigger pulse or in the echo wait gives `None`, which the model covers only in the form of a missing echo.
- The ultrasonic `cleanup` (plugins/ultrasonic.py:287-289) is not modelled. It stops monitoring and leaves the pins to the GPIO library.
- `MP3Player.get_devices` and the context-manager methods are not modelled. They query SDL audio devices, or call `cleanup`.
- Music.MP3Player.Pause: does not model pausing itself. The mixer call is outside the model; the result covers only the guard and a raising mixer.
- The `stop_pulse` field of the relay is not modelled. A stop request is an input that tells at which check the stop is seen.

## Findings

| source | as written | input that shows it | evidently intended | confidence | as-written member | corrected member |
|---|---|---|---|---|---|---|
| scene_manager.py:374-377 with plugins/motor.py:38-64 | `execute_motor_effect` returns what `Motor.move_forward` / `move_reverse` return, and they return `None`; a motor effect that moved the lid reports failure, so the scene stops at its first motor step | scene `DoorThenSmoke`: step 1 opens the door (3 s pause), step 2 switches the smoke relay on; only the door call is made and the scene reports false (`AsWrittenSceneStops` gives the general case) | a completed motor movement reports success, and the scene goes on to the pause and the smoke | not executed | Findings.AsWrittenDoorThenSmoke | Findings.CorrectedMotorEffect |
| scene_manager.py:411-431 with plugins/relay.py:44-54 | `execute_relay_effect` returns what `Relay.on` / `off` return, and they return `None`; every relay effect reports failure and ends its scene | scene `SmokePuff`: one step switches the smoke relay on and pauses 2 s; the relay call is made, the pause is not, and the scene reports false | a relay switched on or off reports success | not executed | Findings.AsWrittenSmokePuff | Findings.CorrectedRelayEffect |
