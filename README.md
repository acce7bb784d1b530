# HVX helmet core, modelled in Dafny

This project models the logic of the HVX AR helmet software, which is written in Python, and proves
properties of that model. At the centre is the visor's voice pipeline. A wake-word detector owns
the microphone and hands it to the realtime voice assistant when a keyword is heard. The
assistant probes sample rates, streams microphone audio behind an echo gate and relays tool
calls. It reconnects with a bounded backoff and gives the microphone back when the user
dismisses it.

Around the pipeline sit smaller parts of the helmet:
- the orchestrator's `SystemState` command handler;
- the power-profile machine;
- the two recorders with their bounded frame queues;
- the dot-path configuration store;
- the voice-command, intent and scene classifiers;
- the `tegrastats` parser;
- the BNO055 register decoding;
- the megaphone's device search.

Each Python file of the core is one Dafny module. The one exception is the wake-word detector and
the realtime assistant, which call each other and so share one module.

| file | module | what it models |
|---|---|---|
| `wrappers.dfy` | `Wrappers` | `Option` |
| `text.dfy` | `Text` | ASCII `lower`, `strip`, substring tests, `join`, decimal `str(int)` |
| `patterns.dfy` | `Patterns` | the fixed regular expressions `tegrastats` lines are searched with |
| `frame_queue.dfy` | `FrameQueue` | the 120-slot queue that drops its oldest frame when full |
| `config.dfy` | `Configuration` | `Config.get`/`set` over nested dictionaries, `reload`, `all`, `get_config` |
| `video_recorder.dfy` | `VideoRecording` | `VideoRecorder` |
| `full_recorder.dfy` | `FullRecording` | `FullRecorder` and the `_mux_av` branch choice |
| `power_manager.dfy` | `PowerManagement` | `PowerManager` and its profile table |
| `system_monitor.dfy` | `SystemMonitoring` | `_parse_tegrastats_line`, `get_status_brief` |
| `orchestrator.dfy` | `Orchestrator` | `SystemState`, `ExecuteCommand`, the status messages |
| `perception.dfy` | `Perception` | `ObjectDetector._rule_based_scene_analysis`, `set_roi` |
| `gyro_sensor.dfy` | `Gyro` | BNO055 chip check, int16 and calibration decoding, start/stop |
| `megaphone.dfy` | `Megaphone` | `find_device_by_name` |
| `voice_listener.dfy` | `VoiceCommands` | `_parse_command` and the callback guard of `_listen_loop` |
| `voice_service.dfy` | `VoiceIntents` | `IntentEngine.classify_intent` over `_default_intents`, `ProcessAudio` |
| `voice_assistant.dfy` | `ChatAssistant` | the Claude-backed `VoiceAssistant`: queue, history, dismissal |
| `voice_pipeline.dfy` | `VoicePipeline` | `WakeWordDetector` and `OpenAIRealtimeAssistant` |

**How the outside world enters the model.** Devices are the sets of sample rates they open at:
`opens(rate)` is `rate in micRates`. The clock is an integer parameter, as is its rendered
timestamp. What a model or speech service answers is a parameter too. Inbound realtime messages
are an `Inbound` datatype and outbound ones an `Outbound` datatype. The sqlite tables of
`SystemState` are the sequences of rows written to them.

Objects whose fields the Python methods update are classes whose methods name what they modify.
Loops are `while` loops over the sequence of outcomes they see: ticks of the detection loop,
connection attempts, queued messages, audio requests and recognised phrases. Each such method
is tied to a function of the old state. Lemmas on that function state what the source promises.
**Call order** (pause before callback, handles dropped before `resume()`) is recorded in
ghost logs on the objects.

**Where the model follows the code rather than its comments or documentation:**
- `WakeWordDetector.resume` only prints. The detection loop only sleeps while it has no stream,
  so once the detector pauses for the assistant it never listens again (`HandOverIsFinal`,
  `ReleasedMicOnlySleeps`).
- The keyword loop does not `break` after a hit. Each keyword over the threshold pauses and calls
  the callback again (`CallbackAfterPause`).
- The speaker probe of `_init_audio_lazy` re-raises on its *first* candidate, 44100. So 48000 and
  24000 are never tried, and a failure drops an already-opened microphone stream unclosed
  (`OutputProbe`, `OpenSpeaker`).
- `activate` reads `self.loop`, which exists only once the assistant thread has run. Called
  earlier, it raises after the audio set-up (`Activate`).
- In `process_transcript` a dismissal calls `deactivate` first. The scheduled acknowledgement
  then finds `is_active` false and sends nothing (`ProcessTranscript`).
- `_handle_message` lower-cases the transcript but does not strip it. `process_transcript`
  does both.
- A `RAM u/0MB` field assigns used and total and then raises `ZeroDivisionError`, so the parse
  returns False with the later fields unwritten (`ParsedRamFields`).
- A recording duration of 0 is falsy and means no limit (`VideoRecorder.AddFrame`).
- "hide detection" contains "detect", so `_parse_command` answers `show_detections`
  (`HideDetectionShows`).
- "stop recording video" matches `record.*video`, one of the three start-recording patterns
  `start.*record`, `begin.*record` and `record.*video`, before the stop intent is tried. No lemma is specific to it; it
  follows from `ClassifyIntentCases`.
- `VoiceListener.start` has no guard against a second start.
- In `ProcessAudio` the silence branch compares the clock with a time set on the same pass, so it
  practically never fires. The model leaves it out (see below).

## Model

| member | source | states |
|---|---|---|
| Configuration.Split | helmet/libs/utils/config.py:93 | `key.split('.')` always yields at least one segment |
| Configuration.SplitJoin | helmet/libs/utils/config.py:93 | the segments hold no dot and join back to the key, so the walk sees exactly the key's segments |
| Configuration.SetPathSucceedsIff | helmet/libs/utils/config.py:104-114 | `set` succeeds exactly when every existing value before the last segment is a dictionary; otherwise it raises |
| Configuration.FreshWalkable | helmet/libs/utils/config.py:108-111 | on an empty configuration every path can be set, because missing dictionaries are created |
| Configuration.SetThenGet | helmet/libs/utils/config.py:91-114 | round trip: after a successful `set(k, v)`, `get(k)` returns `v` |
| Configuration.SetLeavesOtherPaths | helmet/libs/utils/config.py:104-114 | `set` leaves every path that branches off its own path with the value it had |
| Configuration.PathValueMissing | helmet/libs/utils/config.py:96-100 | once a segment is missing the walk returns the default, whatever follows |
| Configuration.EmptyHasNoPaths | helmet/libs/utils/config.py:96-100 | an empty configuration reaches no value on any non-empty path |
| Configuration.DefaultPorts | helmet/libs/utils/config.py:35-89 | the default profile holds the video port 50051 and the orchestrator port 50054; walking below a non-dictionary finds nothing |
| Configuration.Config.constructor | helmet/libs/utils/config.py:14-33 | the data is the loaded profile file, or the defaults when it is missing or fails to load |
| Configuration.Config.Get | helmet/libs/utils/config.py:91-102 | the loop over the segments returns the value at the path, or the default as soon as a segment is missing or the value is not a dictionary |
| Configuration.Config.Set | helmet/libs/utils/config.py:104-114 | the new data is the path update; a `TypeError` leaves the data unchanged |
| Configuration.Config.Reload | helmet/libs/utils/config.py:126-128 | the data is reloaded from the file, with the defaults as fallback |
| Configuration.Registry.constructor | helmet/libs/utils/config.py:136 | there is no instance at first |
| Configuration.Registry.GetConfig | helmet/libs/utils/config.py:138-146 | the cached instance is reused unless there is none or a different profile is asked for; otherwise a fresh one replaces it |
| FrameQueue.Newest | helmet/apps/visor-ui/video_recorder.py:147-157 | the newest-`n` window has length `min(|s|, n)` |
| FrameQueue.EnqueueKeepsNewest | helmet/apps/visor-ui/video_recorder.py:147-157 | a queue within 120 stays within 120 and holds the 120 newest frames offered, the new frame last; below capacity nothing is dropped |
| FrameQueue.EnqueueAllBounded | helmet/apps/visor-ui/full_recorder.py:209-219 | any number of enqueues keeps the queue within 120 |
| VideoRecording.VideoRecorder.constructor | helmet/apps/visor-ui/video_recorder.py:19-51 | not recording: empty queue, no file, no limit, no frames |
| VideoRecording.VideoRecorder.StartRecording | helmet/apps/visor-ui/video_recorder.py:53-93 | while recording, returns the current file and changes nothing; otherwise `<dir>/<name>.mp4` (default name from the timestamp), zero frames, the limit and start time set, recording on, frames already queued are kept |
| VideoRecording.VideoRecorder.StopRecording | helmet/apps/visor-ui/video_recorder.py:95-127 | None with no change when not recording; otherwise the queue is drained, the count grows by the drained frames the writer accepts (`CountWritable`, at most the queue's length), the saved file is returned, and recording and file name are cleared |
| VideoRecording.VideoRecorder.AddFrame | helmet/apps/visor-ui/video_recorder.py:129-157 | no-op when not recording; at the duration limit recording stops as `StopRecording` does and the frame is dropped; otherwise the frame is enqueued with drop-oldest at 120; the limit and the start time are never changed, so the limit applies to every later frame |
| VideoRecording.VideoRecorder.WriteNextFrame | helmet/apps/visor-ui/video_recorder.py:159-203 | the oldest queued frame is taken and counted only when the writer accepts it, a rejected frame being consumed uncounted as the `except Exception` leaves it; an empty queue changes nothing; recording, file, limit and start time stay |
| VideoRecording.VideoRecorder.GetRecordingInfo | helmet/apps/visor-ui/video_recorder.py:209-230 | not recording gives {False, None, 0, 0}; while recording it reports the current file |
| VideoRecording.CountWritable | helmet/apps/visor-ui/video_recorder.py:184-196 | the frames the writer thread counts out of a queue it drains, never more than the queue holds |
| VideoRecording.CountWritableAppend | helmet/apps/visor-ui/video_recorder.py:162-196 | draining the queue one frame at a time counts what draining it in one go counts, so `WriteNextFrame` passes add up to `StopRecording`'s drain |
| VideoRecording.CountWritableAll | helmet/apps/visor-ui/video_recorder.py:184-196 | every drained frame is counted if and only if the writer accepts every one of them |
| FullRecording.MuxChoiceBranches | helmet/apps/visor-ui/full_recorder.py:368-399 | no temporary video means no mux; audio disabled or missing means video only; otherwise video and audio are muxed |
| FullRecording.FullRecorder.constructor | helmet/apps/visor-ui/full_recorder.py:27-76 | not recording, no paths, empty queue, no threads |
| FullRecording.FullRecorder.StartRecording | helmet/apps/visor-ui/full_recorder.py:78-128 | while recording, returns the current file unchanged; otherwise it sets the file and the temporary video path, and the temporary audio path and audio thread only when audio is enabled; the writer is live exactly when ffmpeg opens, and frames left queued from an earlier recording are kept |
| FullRecording.FullRecorder.StopRecording | helmet/apps/visor-ui/full_recorder.py:130-189 | None when not recording; otherwise a live writer drains the queue into the count while a failed one leaves queue and count untouched, the mux branch is chosen as `MuxChoice` says, and the file is returned and cleared |
| FullRecording.FullRecorder.AddFrame | helmet/apps/visor-ui/full_recorder.py:191-219 | no-op when not recording; at the limit a stop is scheduled and the frame dropped; otherwise drop-oldest enqueue at 120; the limit, start time, temporary paths, threads and writer are never changed |
| FullRecording.FullRecorder.WriteNextFrame | helmet/apps/visor-ui/full_recorder.py:221-292 | a live writer takes the oldest queued frame and counts it when the write succeeds; a failed write consumes the frame and stops the writer for good; a dead writer or an empty queue changes nothing; recording, file, limit, start time, temporary paths and threads stay |
| FullRecording.FullRecorder.GetRecordingInfo | helmet/apps/visor-ui/full_recorder.py:405-424 | not recording gives recording False with duration and frames 0; while recording it reports the current file |
| PowerManagement.ProfileTable | helmet/apps/visor-ui/power_manager.py:25-59 | PERFORMANCE, BALANCED and SAVER run at 30, 20 and 10 fps with intervals 33, 50 and 100 ms (1000 / fps); a lower profile has fewer frames and no more features |
| PowerManagement.AutoAdjustLowersOnly | helmet/apps/visor-ui/power_manager.py:106-128 | never raises the profile; battery < 15 or temperature > 75 gives SAVER; battery < 30 or temperature > 65 lowers only PERFORMANCE, to BALANCED; otherwise no change |
| PowerManagement.AutoAdjustSettles | helmet/apps/visor-ui/power_manager.py:106-128 | a second adjustment with the same readings changes nothing |
| PowerManagement.ProfileValueIsAlias | helmet/apps/visor-ui/power_manager.py:130-144 | each profile's own value selects it, in any case and with surrounding blanks |
| PowerManagement.AliasesDisjoint | helmet/apps/visor-ui/power_manager.py:133-141 | no alias names two profiles |
| PowerManagement.PowerManager.constructor | helmet/apps/visor-ui/power_manager.py:20-61 | starts in the given profile with no callback and no notifications |
| PowerManagement.PowerManager.RegisterCallback | helmet/apps/visor-ui/power_manager.py:97-104 | a callback is registered and nothing else changes |
| PowerManagement.PowerManager.SetProfile | helmet/apps/visor-ui/power_manager.py:63-83 | the same profile changes nothing and notifies no one; a different one switches and notifies the callback once with the new table entry |
| PowerManagement.PowerManager.AutoAdjust | helmet/apps/visor-ui/power_manager.py:106-128 | the profile becomes the adjustment target; returns True exactly when it changed, notifying on change |
| PowerManagement.PowerManager.SetProfileByName | helmet/apps/visor-ui/power_manager.py:130-144 | a known alias switches to its profile and returns True; an unknown name returns False with no change |
| Patterns.RunLength | helmet/apps/visor-ui/system_monitor.py:87-141 | a `k+` group takes the longest run of its class |
| Patterns.MatchFrom | helmet/apps/visor-ui/system_monitor.py:87-141 | an anchored match ends within the line and, for a consuming pattern, past its start |
| Patterns.Search | helmet/apps/visor-ui/system_monitor.py:87-141 | `re.search` reports a match inside the line |
| Patterns.SearchIsLeftmost | helmet/apps/visor-ui/system_monitor.py:87-141 | the match found is the leftmost one, and None means no position matches |
| Patterns.MatchStartsWithLiteral | helmet/apps/visor-ui/system_monitor.py:87-141 | a match of a literal-led pattern starts with that literal |
| SystemMonitoring.PercentValues | helmet/apps/visor-ui/system_monitor.py:100-106 | the per-core percentages are the groups' integers, in order |
| SystemMonitoring.TempReadingsOf | helmet/apps/visor-ui/system_monitor.py:114-116 | one temperature reading per `name@valueC` match |
| SystemMonitoring.FirstDot | helmet/apps/visor-ui/system_monitor.py:117-128 | the first dot of a value, or none, as `float` reads it |
| SystemMonitoring.FirstInvalid | helmet/apps/visor-ui/system_monitor.py:117-128 | the index of the first value `float` rejects: all before it parse |
| SystemMonitoring.SystemMonitor.constructor | helmet/apps/visor-ui/system_monitor.py:16-43 | the telemetry starts from the initial dictionary |
| SystemMonitoring.SystemMonitor.ApplyRam | helmet/apps/visor-ui/system_monitor.py:87-92 | used and total are written and the percentage only when total is non-zero; returns whether the division succeeded |
| SystemMonitoring.SystemMonitor.ApplyCounters | helmet/apps/visor-ui/system_monitor.py:94-111 | SWAP, CPU and GR3D fields take their readings when present |
| SystemMonitoring.SystemMonitor.ApplyTemperatures | helmet/apps/visor-ui/system_monitor.py:114-128 | readings are applied in order until `float` rejects one; `soc_temp` is updated after a complete pass with a soc reading |
| SystemMonitoring.SystemMonitor.ApplyPower | helmet/apps/visor-ui/system_monitor.py:131-143 | the VDD fields take their readings when present and the timestamp is written |
| SystemMonitoring.SystemMonitor.ParseTegrastatsLine | helmet/apps/visor-ui/system_monitor.py:75-148 | returns True exactly when RAM total is non-zero and every temperature parses; the record is the writes made up to the first failure |
| SystemMonitoring.ParsedRamFields | helmet/apps/visor-ui/system_monitor.py:87-92 | used and total take the RAM reading even when total is 0; the percentage is `used/total*100` only when total is non-zero, and otherwise untouched |
| SystemMonitoring.ParsedCounterFields | helmet/apps/visor-ui/system_monitor.py:94-111 | SWAP, the CPU per-core list and its mean, and GR3D change only when the parse passes the RAM division and the pattern is present |
| SystemMonitoring.ParsedTemperatureFields | helmet/apps/visor-ui/system_monitor.py:114-128 | cpu, gpu and tj take their last reading before the first malformed one; soc becomes the mean of the soc readings only when all parse and one exists |
| SystemMonitoring.ParsedPowerFields | helmet/apps/visor-ui/system_monitor.py:131-148 | a failure leaves power fields and timestamp unwritten; otherwise each VDD field takes its reading when present and the timestamp becomes the clock |
| SystemMonitoring.BriefWarningRules | helmet/apps/visor-ui/system_monitor.py:237-248 | each warning is present exactly when its threshold (CPU > 70, GPU > 70, RAM > 85, power > 15000 mW) is exceeded |
| SystemMonitoring.BriefWarningOrdered | helmet/apps/visor-ui/system_monitor.py:237-248 | warnings keep the fixed order, and the suffix is empty exactly when no threshold is exceeded |
| Orchestrator.SetModeAcceptsOnlyValid | helmet/services/orchestrator/orchestrator_service.py:116-126 | exactly the five modes are accepted; a refused mode changes nothing |
| Orchestrator.ToggleRecordingCases | helmet/services/orchestrator/orchestrator_service.py:128-137 | always succeeds; no value flips the flag (twice restores it); a value sets it |
| Orchestrator.BrightnessStaysInRange | helmet/services/orchestrator/orchestrator_service.py:139-150 | brightness stays in [10, 100]; "up" raises by at most 10, "down" lowers by at most 10, other directions fail with no change |
| Orchestrator.BrightnessAfterInRange | helmet/services/orchestrator/orchestrator_service.py:139-150 | from any start in [10, 100] (the initial 100 included), any sequence of adjustments stays in [10, 100] |
| Orchestrator.MarkTargetNumbers | helmet/services/orchestrator/orchestrator_service.py:165-175 | marking appends one target whose id is the previous count + 1, keeping the ids 1..n in order |
| Orchestrator.TransitionsConsistent | helmet/services/orchestrator/orchestrator_service.py:116-184 | every `SystemState` transition keeps the brightness and zoom bounds and the target numbering |
| Orchestrator.StatusMessagePriority | helmet/services/orchestrator/orchestrator_service.py:445-456 | each status message appears exactly when its condition holds and no earlier one does: emergency, recording, night, navigation, operational |
| Orchestrator.EmergencyOverridesStatus | helmet/services/orchestrator/orchestrator_service.py:177-184 | after emergency mode the state is emergency and recording, and the status is the emergency message |
| Orchestrator.SystemStatusNominal | helmet/services/orchestrator/orchestrator_service.py:458-475 | "All systems nominal" exactly when CPU ≤ 80, memory ≤ 80 and temperature ≤ 70 |
| Orchestrator.UnknownActionFails | helmet/services/orchestrator/orchestrator_service.py:326-336 | an unknown action fails with "Unknown action: …" and only adds its log row |
| Orchestrator.EnabledParameterSetsRecording | helmet/services/orchestrator/orchestrator_service.py:283-288 | `enabled` sets recording to `lower() == "true"`, its absence flips it, and the message says started or stopped accordingly |
| Orchestrator.UiCommandSucceedsIff | helmet/services/orchestrator/orchestrator_service.py:508-518 | a UI command succeeds exactly for the four overlay commands |
| Orchestrator.ExecuteLogsOnce | helmet/services/orchestrator/orchestrator_service.py:330-336 | every command that reaches its handler adds exactly one log row, with the handler's success |
| Orchestrator.HandleKeepsLog | helmet/services/orchestrator/orchestrator_service.py:278-328 | no handler touches the command log |
| Orchestrator.HandleConsistent | helmet/services/orchestrator/orchestrator_service.py:278-328 | every handler keeps the `SystemState` bounds |
| Orchestrator.ExecuteConsistent | helmet/services/orchestrator/orchestrator_service.py:266-352 | routing, logging and the coordinate-parse failure keep the bounds |
| Orchestrator.SystemState.constructor | helmet/services/orchestrator/orchestrator_service.py:30-39 | normal mode, not recording, brightness 100, zoom 1.0, no targets, empty tables |
| Orchestrator.SystemState.SetMode | helmet/services/orchestrator/orchestrator_service.py:116-126 | the state and result are those of the mode transition, and the bounds hold |
| Orchestrator.SystemState.ToggleRecording | helmet/services/orchestrator/orchestrator_service.py:128-137 | the state and result are those of the toggle transition, and the bounds hold |
| Orchestrator.SystemState.AdjustBrightness | helmet/services/orchestrator/orchestrator_service.py:139-150 | the state and result are those of the brightness transition, and the bounds hold |
| Orchestrator.SystemState.AdjustZoom | helmet/services/orchestrator/orchestrator_service.py:152-163 | state and result are those of the zoom transition: "in" multiplies by 1.2 up to 5.0, "out" divides by 1.2 down to 0.5, other directions fail with no change |
| Orchestrator.SystemState.MarkTarget | helmet/services/orchestrator/orchestrator_service.py:165-175 | state and result are those of the mark transition: one target numbered after the last is appended |
| Orchestrator.SystemState.EmergencyMode | helmet/services/orchestrator/orchestrator_service.py:177-184 | state and result are those of the emergency transition: mode emergency and recording on, both persisted in that order |
| Orchestrator.SystemState.LogCommand | helmet/services/orchestrator/orchestrator_service.py:198-208 | one command row is appended and nothing else changes |
| Orchestrator.OrchestratorService.constructor | helmet/services/orchestrator/orchestrator_service.py:257-264 | a fresh `SystemState` in its initial state |
| Orchestrator.OrchestratorService.HandleUiCommand | helmet/services/orchestrator/orchestrator_service.py:508-522 | succeeds exactly for the four commands, then writes `ui_<command>` = true; otherwise no change |
| Orchestrator.OrchestratorService.ExecuteCommand | helmet/services/orchestrator/orchestrator_service.py:266-352 | new state and response are `Execute`: the handler's outcome plus one log row, or "Command failed: …" when the coordinates do not parse |
| Orchestrator.OrchestratorService.Route | helmet/services/orchestrator/orchestrator_service.py:278-304 | the `if`/`elif` chain gives the handler's state and response |
| Orchestrator.OrchestratorService.RouteOther | helmet/services/orchestrator/orchestrator_service.py:306-328 | the rest of the chain, from screenshot to the unknown-action fallback |
| Perception.CountAppend | helmet/services/perception/perception_service.py:474-475 | label counts add over concatenation, never exceed the detections, and are positive exactly when the label occurs |
| Perception.AnyAppend | helmet/services/perception/perception_service.py:491-494 | a label occurs in a concatenation exactly when it occurs in one part |
| Perception.ClearOnlyWhenEmpty | helmet/services/perception/perception_service.py:468-498 | the tip is "Clear view" exactly when there are no detections |
| Perception.PersonWins | helmet/services/perception/perception_service.py:479-483 | with a person in view, adding objects that are not people anywhere leaves the tip unchanged |
| Perception.VehiclesWinWithoutPeople | helmet/services/perception/perception_service.py:475-486 | with vehicles and no people, adding objects that are neither leaves the tip unchanged |
| Perception.OrderDoesNotMatter | helmet/services/perception/perception_service.py:468-498 | the tip does not depend on the order of the detections |
| Perception.NumberFirst | helmet/services/perception/perception_service.py:483-498 | a counted tip starts with a digit, never with the clear-view text |
| Perception.ObjectDetector.constructor | helmet/services/perception/perception_service.py:63-72 | no region of interest at first |
| Perception.ObjectDetector.SetRoi | helmet/services/perception/perception_service.py:500-509 | the region is stored exactly when enabled and within bounds (corner in [0, 1], size in (0, 1]); otherwise cleared |
| Gyro.Int16LERoundTrip | helmet/apps/visor-ui/gyro_sensor.py:162-181 | every word decodes into [−32768, 32767]; decoding and encoding are inverse; the sign is the high bit |
| Gyro.AxesRoundTrip | helmet/apps/visor-ui/gyro_sensor.py:162-165 | the six-byte block of three words reads back as those words |
| Gyro.CalibrationRoundTrip | helmet/apps/visor-ui/gyro_sensor.py:213-218 | each of the four 2-bit fields is in 0..3 and recombining them gives the byte back, both ways |
| Gyro.DecodeEncode | helmet/apps/visor-ui/gyro_sensor.py:213-218 | splitting a byte and recombining it gives the byte |
| Gyro.EncodeDecode | helmet/apps/visor-ui/gyro_sensor.py:213-218 | fields in 0..3 recombine to a byte that splits back into them |
| Gyro.CalibratedIffFull | helmet/apps/visor-ui/gyro_sensor.py:272-275 | fully calibrated exactly when the status byte is 0xFF |
| Gyro.GyroSensor.constructor | helmet/apps/visor-ui/gyro_sensor.py:42-111 | the sensor counts as set up exactly when the chip answers with id 0xA0 and the mode writes succeed; a wrong id closes the bus before any mode write |
| Gyro.GyroSensor.Start | helmet/apps/visor-ui/gyro_sensor.py:113-135 | False with no sensor; True and no new thread when running; otherwise one thread and the callback |
| Gyro.GyroSensor.Stop | helmet/apps/visor-ui/gyro_sensor.py:137-142 | clears `running` only |
| Gyro.GyroSensor.ReadOnce | helmet/apps/visor-ui/gyro_sensor.py:160-218 | the raw words, temperature and decoded calibration are stored; a short block raises, keeping the writes made before it |
| Megaphone.FindFromSpec | helmet/megaphone.py:39-51 | the scan from `i` returns the lowest qualifying index at or after `i` with its info, or None when none qualifies |
| Megaphone.FindDeviceLowest | helmet/megaphone.py:35-51 | the result is the lowest index whose name contains the wanted one in any case and that has a channel in the wanted direction, with that entry's info; (None, None) exactly when no device qualifies |
| Megaphone.SkipsIncapable | helmet/megaphone.py:44-49 | a name match without the wanted channels is passed over and the search goes on |
| Megaphone.CaseInsensitive | helmet/megaphone.py:44 | the lookup does not depend on the case of the wanted name |
| Text.LowerIdempotent | helmet/apps/visor-ui/voice_listener.py:112 | lower-casing an already lower-cased text changes nothing |
| VoiceCommands.FirstMatchingIn | helmet/apps/visor-ui/voice_listener.py:115-132 | the first-match scan only ever returns one of the commands it was given |
| VoiceCommands.FirstMatchingIsFirst | helmet/apps/visor-ui/voice_listener.py:115-130 | over distinct commands, a command is returned exactly when its list matches and no earlier list does |
| VoiceCommands.FirstMatchingSkip | helmet/apps/visor-ui/voice_listener.py:115-130 | a first list that does not match passes the decision to the next ones |
| VoiceCommands.FirstMatchingNone | helmet/apps/visor-ui/voice_listener.py:132 | None exactly when no list matches |
| VoiceCommands.ParseCommandFirstMatch | helmet/apps/visor-ui/voice_listener.py:110-132 | on the lower-cased, stripped text the result is the first command in the fixed order whose phrases occur, and None when none does |
| VoiceCommands.HideDetectionShows | helmet/apps/visor-ui/voice_listener.py:119-123 | "hide detection" without an analyze phrase yields `show_detections` |
| VoiceCommands.HideDetectionSaysDetect | helmet/apps/visor-ui/voice_listener.py:119-122 | a text with "hide detection" contains "detect" |
| VoiceCommands.HideDetectionsOnlyByObjects | helmet/apps/visor-ui/voice_listener.py:122-123 | `hide_detections` comes out only for "hide objects", never for "hide detection" |
| VoiceCommands.DispatchedComeFromSpeech | helmet/apps/visor-ui/voice_listener.py:80-95 | with no callback nothing is dispatched; every dispatched command is the parse of some recognised speech; at most one per pass |
| VoiceCommands.VoiceListener.constructor | helmet/apps/visor-ui/voice_listener.py:13-23 | not listening, no callback, nothing dispatched |
| VoiceCommands.VoiceListener.Start | helmet/apps/visor-ui/voice_listener.py:54-65 | False with no change when recogniser or microphone are missing; otherwise listening with one more thread |
| VoiceCommands.VoiceListener.Stop | helmet/apps/visor-ui/voice_listener.py:67-72 | clears `is_listening` only |
| VoiceCommands.VoiceListener.ListenLoop | helmet/apps/visor-ui/voice_listener.py:74-108 | the callback receives exactly the dispatched commands of the passes; the loop ends exactly when a stop was requested; no thread is started |
| VoiceIntents.SearchTwoPieces | helmet/services/voice/voice_service.py:252-308 | on one line, `a.*b` matches exactly when `b` occurs after an occurrence of `a` |
| VoiceIntents.SearchInContext | helmet/services/voice/voice_service.py:321 | a pattern that matches a text still matches it with more said around it |
| VoiceIntents.GapMatchShift | helmet/services/voice/voice_service.py:321 | a match survives text added before and after |
| VoiceIntents.EntitiesOfKeys | helmet/services/voice/voice_service.py:328-329 | the entity keys are exactly the parameter keys |
| VoiceIntents.EntitiesOfParams | helmet/services/voice/voice_service.py:328-329 | a parameter whose key is not repeated later becomes the entity of its key, holding `str(value)` |
| VoiceIntents.FirstIntentAt | helmet/services/voice/voice_service.py:317-335 | the scan picks an entry exactly when its patterns match and no earlier entry's do |
| VoiceIntents.FirstIntentTail | helmet/services/voice/voice_service.py:317-335 | past a non-matching entry the scan is the scan of the rest |
| VoiceIntents.ClassifyIntentCases | helmet/services/voice/voice_service.py:310-346 | empty text gives None; the original text is kept; the first matching entry on the lower-cased text wins with 0.9 and its entities; no match gives "unknown", 0.1, no entities |
| VoiceIntents.KnownIntentMatched | helmet/services/voice/voice_service.py:317-335 | a known intent comes from an entry whose pattern matches the lower-cased text |
| VoiceIntents.DefaultRecordingEntities | helmet/services/voice/voice_service.py:250-308 | the default recording entries report `enabled` as "True" and "False", night vision `mode` as "night" |
| VoiceIntents.IntentEngine.constructor | helmet/services/voice/voice_service.py:233-248 | the table is the file's when it loads, the defaults otherwise |
| VoiceIntents.StreamYieldsKnown | helmet/services/voice/voice_service.py:431-458 | the stream yields at most one intent per request, and each is a known intent at confidence 0.9 for non-empty text |
| VoiceIntents.VoiceService.constructor | helmet/services/voice/voice_service.py:410-418 | not processing |
| VoiceIntents.VoiceService.ProcessAudio | helmet/services/voice/voice_service.py:420-478 | the yielded intents are the stream's: buffers over 16000 samples are transcribed, classified and cleared; a cancelled stream stops; processing ends false |
| ChatAssistant.ProcessOnTurns | helmet/apps/visor-ui/voice_assistant.py:100-155 | each message adds one user entry holding it and one assistant entry and keeps the history before it; a dismissal deactivates with the fixed reply and asks nothing; anything else activates on a wake word and calls the model once with the history ending in the message, unless the SDK import fails |
| ChatAssistant.FailuresBecomeErrorText | helmet/apps/visor-ui/voice_assistant.py:177-182 | a model failure becomes text starting with "Error: " |
| ChatAssistant.ProcessOnAlternates | helmet/apps/visor-ui/voice_assistant.py:108-143 | each message keeps the history alternating user and assistant, even in length |
| ChatAssistant.ServeOnAlternates | helmet/apps/visor-ui/voice_assistant.py:79-143 | over any run the history grows by two entries per message, stays alternating, and one reply is spoken per message |
| ChatAssistant.ServeOnRequests | helmet/apps/visor-ui/voice_assistant.py:137-171 | every history sent to the model alternates and ends with a user message |
| ChatAssistant.ProcessOnRequests | helmet/apps/visor-ui/voice_assistant.py:137-171 | after one message every request sent so far is still an alternating history of odd length, ending with a user entry |
| ChatAssistant.StepRequests | helmet/apps/visor-ui/voice_assistant.py:108-143 | the same as `ProcessOnRequests`, for a message whose dismissal is already decided |
| ChatAssistant.ServeOnAsks | helmet/apps/visor-ui/voice_assistant.py:117-137 | dismissals and a missing SDK never reach the model: requests grow by the other messages only |
| ChatAssistant.VoiceAssistant.constructor | helmet/apps/visor-ui/voice_assistant.py:17-46 | a missing or empty system prompt falls back to the default; not running, empty history and queue |
| ChatAssistant.VoiceAssistant.Start | helmet/apps/visor-ui/voice_assistant.py:48-56 | running; a second start starts no thread |
| ChatAssistant.VoiceAssistant.Stop | helmet/apps/visor-ui/voice_assistant.py:58-63 | not running; the conversation is kept |
| ChatAssistant.VoiceAssistant.ProcessMessage | helmet/apps/visor-ui/voice_assistant.py:65-72 | one (message, flag) pair is queued while running; otherwise nothing |
| ChatAssistant.VoiceAssistant.ClearHistory | helmet/apps/visor-ui/voice_assistant.py:74-76 | the history is empty and nothing else changes |
| ChatAssistant.VoiceAssistant.ProcessMessageAsync | helmet/apps/visor-ui/voice_assistant.py:100-155 | the conversation becomes `ProcessOn` of the old one and the alternation is kept |
| ChatAssistant.VoiceAssistant.ServeOne | helmet/apps/visor-ui/voice_assistant.py:79-92 | the oldest queued message is removed and processed |
| ChatAssistant.VoiceAssistant.ServeNext | helmet/apps/visor-ui/voice_assistant.py:79-92 | serving the next message advances the run by one message |
| ChatAssistant.VoiceAssistant.ServeFirst | helmet/apps/visor-ui/voice_assistant.py:79-98 | the first `n` queued messages are served in order and dequeued |
| ChatAssistant.VoiceAssistant.RunAssistant | helmet/apps/visor-ui/voice_assistant.py:79-98 | while running, queued messages are served oldest first; the conversation is the run over them and stays alternating |
| VoicePipeline.ProbeIsFirstOpenable | helmet/apps/visor-ui/wake_word_detector.py:131-150 | a probe opens the first candidate that opens if no earlier one re-raised; it raises at the first failing re-raise candidate; it runs out only when all fail quietly |
| VoicePipeline.ProbeRates | helmet/apps/visor-ui/wake_word_detector.py:131-150 | the `for` loop with `break` and re-raise computes the probe outcome |
| VoicePipeline.DetectorProbe | helmet/apps/visor-ui/wake_word_detector.py:128-150 | the detector opens at the first of 16000, 48000, 44100 that opens, resampling exactly when it is not 16000, and raises when none does |
| VoicePipeline.InputProbe | helmet/apps/visor-ui/openai_voice_assistant.py:938-958 | the assistant's microphone opens at the first of 24000, 48000, 44100 that opens and raises when none does |
| VoicePipeline.OutputProbe | helmet/apps/visor-ui/openai_voice_assistant.py:961-981 | the speaker opens at 44100 or raises: 48000 and 24000 are never tried |
| VoicePipeline.DetectorFrameLengths | helmet/apps/visor-ui/wake_word_detector.py:133-177 | chunks of 1280, 3840 and 3528 samples at the three rates, each resampled to 1280 |
| VoicePipeline.InputFrameLengths | helmet/apps/visor-ui/openai_voice_assistant.py:1009-1035 | chunks of 480, 960 and 882 samples, each resampled to 480 at 24 kHz |
| VoicePipeline.PlaybackLength | helmet/apps/visor-ui/openai_voice_assistant.py:1073-1075 | playback resampling scales by the rate ratio and never shortens |
| VoicePipeline.Hits | helmet/apps/visor-ui/wake_word_detector.py:190-191 | no more hits than scores |
| VoicePipeline.HitsAreDetections | helmet/apps/visor-ui/wake_word_detector.py:190-191 | every keyword scored strictly above 0.5 is a hit, and every hit is a keyword with such a score |
| VoicePipeline.CallbackAfterPause | helmet/apps/visor-ui/wake_word_detector.py:190-200 | every callback comes right after `pause()` with the microphone released; one call per hit, or only the first when the callback raises |
| VoicePipeline.PredictionTick | helmet/apps/visor-ui/wake_word_detector.py:165-200 | a scored prediction feeds one 80 ms frame and then the callbacks; the stream stays open unless a callback fired |
| VoicePipeline.ReleasedMicOnlySleeps | helmet/apps/visor-ui/wake_word_detector.py:157-163 | once the stream is released the loop only sleeps: it never reads, scores or reopens |
| VoicePipeline.HandOverIsFinal | helmet/apps/visor-ui/wake_word_detector.py:157-200 | with a callback, the first prediction with a hit hands the microphone over for good |
| VoicePipeline.WakeWordDetector.constructor | helmet/apps/visor-ui/wake_word_detector.py:14-38 | an empty keyword list selects `hey_jarvis`; not running, no handles |
| VoicePipeline.WakeWordDetector.Start | helmet/apps/visor-ui/wake_word_detector.py:40-57 | a no-op while running; otherwise running with the callback and one thread |
| VoicePipeline.WakeWordDetector.Stop | helmet/apps/visor-ui/wake_word_detector.py:59-66 | not running, and both handles released |
| VoicePipeline.WakeWordDetector.Pause | helmet/apps/visor-ui/wake_word_detector.py:68-78 | both handles are None afterwards (so a second pause finds them None) and the pause is logged |
| VoicePipeline.WakeWordDetector.CleanupAudio | helmet/apps/visor-ui/wake_word_detector.py:86-100 | both handles are None and nothing else changes |
| VoicePipeline.WakeWordDetector.OpenStream | helmet/apps/visor-ui/wake_word_detector.py:125-150 | a PyAudio instance, then the stream at the probed rate; false when the probe raises |
| VoicePipeline.WakeWordDetector.FireCallbacks | helmet/apps/visor-ui/wake_word_detector.py:190-200 | the events are pause then callback per hit; with a hit the microphone is released |
| VoicePipeline.WakeWordDetector.FireOne | helmet/apps/visor-ui/wake_word_detector.py:197-200 | `pause()` and then the callback, which finds the microphone released |
| VoicePipeline.WakeWordDetector.DetectionStep | helmet/apps/visor-ui/wake_word_detector.py:157-205 | one pass produces `TickEvents` and leaves the stream as `MicAfter` says; a stop request clears `is_running` |
| VoicePipeline.WakeWordDetector.PredictionStep | helmet/apps/visor-ui/wake_word_detector.py:158-200 | a prediction pass sleeps without a stream and otherwise scores and fires |
| VoicePipeline.WakeWordDetector.ScoreChunk | helmet/apps/visor-ui/wake_word_detector.py:165-200 | one 1280-sample frame is scored, then the callbacks for its hits |
| VoicePipeline.WakeWordDetector.ReadChunk | helmet/apps/visor-ui/wake_word_detector.py:165-177 | the chunk read and resampled is always 1280 samples |
| VoicePipeline.WakeWordDetector.RunDetection | helmet/apps/visor-ui/wake_word_detector.py:102-220 | listening exactly when the probe does not raise; the events are the run's; once stopped both handles are released |
| VoicePipeline.WakeWordDetector.DetectionLoop | helmet/apps/visor-ui/wake_word_detector.py:157-208 | the loop's events are `RunEvents` over the ticks, then the clean-up |
| VoicePipeline.Clamp | helmet/apps/visor-ui/openai_voice_assistant.py:37 | the volume is clamped into [0, 1], unchanged inside it |
| VoicePipeline.DismissalBySubstring | helmet/apps/visor-ui/openai_voice_assistant.py:58-64 | any text containing a phrase dismisses, including "abandoned" (it contains "done") |
| VoicePipeline.NoPhraseNoDismissal | helmet/apps/visor-ui/openai_voice_assistant.py:172 | a text containing no phrase never dismisses |
| VoicePipeline.Backoff | helmet/apps/visor-ui/openai_voice_assistant.py:275 | the delay is `min(2**n, 10)`, in [1, 10] |
| VoicePipeline.RetriesBounded | helmet/apps/visor-ui/openai_voice_assistant.py:201-283 | the counter never passes 3, each delay is 2 or 4 s, at most one pass per attempt, early end only when stopped or out of retries |
| VoicePipeline.ThreeFailuresGiveUp | helmet/apps/visor-ui/openai_voice_assistant.py:268-283 | three failed connections sleep 2 then 4 s and give up |
| VoicePipeline.LostConnectionsDoNotCount | helmet/apps/visor-ui/openai_voice_assistant.py:229-251 | an ordinary `ConnectionClosed` never counts: the counter stays 0 with no delay |
| VoicePipeline.SuccessResetsCounter | helmet/apps/visor-ui/openai_voice_assistant.py:229-269 | after a connection a failure starts the count over at 1 |
| VoicePipeline.PassStep | helmet/apps/visor-ui/openai_voice_assistant.py:229-277 | one pass, proved equal to `Pass`: a failed connect adds one to the counter, a handler exception after a connect leaves it at 1, a dropped connection resets it to 0 and sleeps nothing; a stop request clears running; the backoff is slept exactly when an exception leaves the loop running under 3 |
| VoicePipeline.StatusWarningRules | helmet/apps/visor-ui/openai_voice_assistant.py:419-428 | each tool-status warning appears exactly above its threshold (temperatures > 70, RAM > 85), never for power |
| VoicePipeline.RealtimeAssistant.constructor | helmet/apps/visor-ui/openai_voice_assistant.py:19-66 | the volume is clamped; every flag false and every handle None |
| VoicePipeline.RealtimeAssistant.Start | helmet/apps/visor-ui/openai_voice_assistant.py:68-76 | a no-op while running; otherwise running, and the thread creates the event loop; flags, audio handles, queue and outbox are untouched |
| VoicePipeline.RealtimeAssistant.Stop | helmet/apps/visor-ui/openai_voice_assistant.py:78-84 | clears `is_running` and `is_active`; the other flags, the audio handles, the queue and the outbox stay |
| VoicePipeline.RealtimeAssistant.InitAudioLazy | helmet/apps/visor-ui/openai_voice_assistant.py:921-992 | does nothing if PyAudio exists; otherwise both probes, and any failure drops all three handles |
| VoicePipeline.RealtimeAssistant.OpenInput | helmet/apps/visor-ui/openai_voice_assistant.py:938-958 | the microphone opens at the probed rate, resampling exactly when it is not 24000 |
| VoicePipeline.RealtimeAssistant.OpenOutput | helmet/apps/visor-ui/openai_voice_assistant.py:961-981 | the speaker opens at the probed rate |
| VoicePipeline.RealtimeAssistant.OpenSpeaker | helmet/apps/visor-ui/openai_voice_assistant.py:961-992 | the speaker opens at 44.1 kHz or everything is dropped, leaking an opened microphone stream |
| VoicePipeline.RealtimeAssistant.Activate | helmet/apps/visor-ui/openai_voice_assistant.py:86-104 | active with audio enabled; with no PyAudio instance the audio is set up as `_init_audio_lazy` does, all three handles open when the microphone probe and 44.1 kHz both open and otherwise all three dropped, with an opened microphone counted as leaked; the greeting only with a loop and a socket; raises before the loop exists |
| VoicePipeline.RealtimeAssistant.Deactivate | helmet/apps/visor-ui/openai_voice_assistant.py:106-163 | flags cleared, every held handle closed and None, queue emptied, all before `resume()`; a second call finds every handle None |
| VoicePipeline.RealtimeAssistant.ReleaseAudio | helmet/apps/visor-ui/openai_voice_assistant.py:116-155 | input, output and PyAudio are closed in that order and dropped, and the queue emptied |
| VoicePipeline.RealtimeAssistant.ProcessTranscript | helmet/apps/visor-ui/openai_voice_assistant.py:165-185 | inactive: no-op; a dismissal in the lower-cased stripped text leaves the full `deactivate()` post-state (flags cleared, every handle None in release order, the queue empty, the resume snapshot) and sends nothing; otherwise the text is sent and a response requested |
| VoicePipeline.RealtimeAssistant.SendAudioStep | helmet/apps/visor-ui/openai_voice_assistant.py:1002-1047 | a chunk is read when enabled with an input stream; it is sent only while not speaking |
| VoicePipeline.RealtimeAssistant.PlayStep | helmet/apps/visor-ui/openai_voice_assistant.py:1057-1089 | the oldest queued chunk is taken and written at the speaker rate, or lost without a speaker |
| VoicePipeline.RealtimeAssistant.RunPass | helmet/apps/visor-ui/openai_voice_assistant.py:204-279 | one pass drops PyAudio and speaker, follows `Pass` for the counter, and closes the microphone in `finally` |
| VoicePipeline.RealtimeAssistant.ConnectAndRun | helmet/apps/visor-ui/openai_voice_assistant.py:199-283 | the run is `Retries` over the attempts from counter 0 |
| VoicePipeline.RealtimeAssistant.NextPass | helmet/apps/visor-ui/openai_voice_assistant.py:204-279 | one loop pass is one unfolding of `Retries` |
| VoicePipeline.RealtimeAssistant.HandleFunctionCall | helmet/apps/visor-ui/openai_voice_assistant.py:803-911 | each of the five tools sends exactly one `function_call_output` with the request's `call_id`, then one `response.create`; unknown names send nothing; malformed arguments raise before sending; the session flags, the microphone gate and the audio handles stay |
| VoicePipeline.RealtimeAssistant.RunRecordingTool | helmet/apps/visor-ui/openai_voice_assistant.py:438-485 | start records when idle; stop ends a running recording |
| VoicePipeline.RealtimeAssistant.HandleMessage | helmet/apps/visor-ui/openai_voice_assistant.py:758-919 | an audio delta marks speaking and queues its audio; `response.done` clears the mark; a dismissal deactivates; tool calls relay; errors are logged except the empty-commit one; a tool call leaves the microphone gate and the audio handles as they were |
| VoicePipeline.RealtimeAssistant.HandleTranscript | helmet/apps/visor-ui/openai_voice_assistant.py:778-794 | the lower-cased transcript deactivates on a dismissal, otherwise a vision question relays the description |

## Left out

- Hardware and transport are abstracted:
  - PyAudio devices become rate sets;
  - websockets, asyncio tasks, threads, `join` timeouts and `time.sleep` leave only their effect on state;
  - a backoff delay is a number.
- Floating point is left out: the scipy resampling (only its lengths are modelled), numpy volume scaling, the gyro trigonometry, scaling and heading integration, and elapsed-time arithmetic.
- Zoom uses exact rationals: `Orchestrator.SystemState.AdjustZoom` does not model binary floating point.
- base64 and JSON are library calls and are taken as exact inverses. Inbound audio carries decoded samples, and tool arguments arrive parsed or `Malformed`.
- The external services are parameters: OpenAI vision and chat, the web search, Claude, ElevenLabs, mpg123 and speech recognition. `_speak` and `_play_audio` of the Claude assistant are not part of this model.
- The sqlite tables are the sequences of rows written to them. `SystemState._load_state`, `log_telemetry` and the `str()` rendering of values are not modelled.
- `Config.save` writes a file and is left out.
- `Configuration.Config.Set` works on values, so aliasing between nested dictionaries that callers hold is not captured, and neither is dictionary key order.
- `Text.Lower` lower-cases ASCII letters only, and `Strip` recognises ASCII and the common Unicode spaces.
- `Patterns.InClass`: the `Digit` and `Word` classes are ASCII-only, whereas Python's `\d` and `\w` also match other Unicode digits and letters.
- The intent patterns are limited to the `a.*b` form of the default intents. Arbitrary regular expressions from an `intents.json` file are not modelled.
- `VoiceIntents.VoiceService.ProcessAudio` leaves out the silence branch (voice_service.py:461-472). It compares the clock with the time set at voice_service.py:438 on the same pass, so it fires only when more than the silence threshold passes between the two reads, for example when the thread stalls; it is not modelled as reachable.
- The gyro's orientation callback and `get_orientation` are left out; only the fact that a callback is set is kept.
- `VideoRecording.VideoRecorder.WriteNextFrame` does not model the writer failing to open (video_recorder.py:179-182): on the first frame, when `cv2.VideoWriter` is not opened, the thread sets `is_recording = False` and returns, leaving the file name set, the frames still queued and the unopened writer in place. A frame that `cvtColor` or `write` rejects (video_recorder.py:193-196) is modelled as a property of the frame, `writable`, so a failure that depends on the writer rather than on the frame is not captured.
- `VideoRecording.VideoRecorder.StopRecording` assumes that the writer thread finishes its drain within the 5-second `join` (video_recorder.py:109-110).
- `FullRecording.FullRecorder.StopRecording` assumes that a live writer's remaining writes all succeed during the join; a write failing during that drain is not modelled, and neither is the 5-second `join` timeout cutting the drain short.
- `VideoRecording.VideoRecorder.GetRecordingInfo`: when not recording, the source returns a dictionary without a `max_duration` key (video_recorder.py:211-217); the model reports it as None.
- `FullRecording.FullRecorder.GetRecordingInfo`: when not recording, the source returns a dictionary without a `max_duration` key; the model reports it as None.
- `ChatAssistant.VoiceAssistant.RunAssistant`: the `while self.is_running` loop with its queue timeout runs over the queued messages and the replies given, and ends when either runs out.
- `VoicePipeline.RealtimeAssistant.ConnectAndRun`: each pass is summarised by how it ends (connected then lost, failed, stopped). The messages inside a session are modelled one at a time by `HandleMessage`. The `except ImportError: break` path (openai_voice_assistant.py:264-266), which ends the loop without counting an attempt, is not modelled.
- The getters `PowerManager.get_status_string`, `get_current_config`, `get_frame_interval_ms` and `get_target_fps`, `SystemMonitor.get_telemetry` and `get_status_brief`'s numeric summary are plain reads. They are modelled as functions without contracts of their own; the table they read is covered by `PowerManagement.ProfileTable`.
- Perception's model loading and inference, the gRPC servers and clients, the Qt UI, the camera modules and the test scripts are outside the core.
