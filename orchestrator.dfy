// The orchestrator's `SystemState` (mode, recording flag, brightness, zoom,
// marked targets) and the `ExecuteCommand` routing of
// `OrchestratorServiceImpl`. The sqlite tables are modelled as the sequences
// of rows each call writes.
module Orchestrator {
  import opened Wrappers
  import opened Text

  const ValidModes: seq<string> := ["normal", "night", "navigation", "debug", "emergency"]
  const UiCommands: seq<string> := ["show_hud", "show_detections", "hide_overlays", "show_crosshair"]

  /** The value `_save_state` stores, before `str()` renders it. */
  datatype Persisted = Text(text: string) | Flag(flag: bool) | Number(number: int) | Decimal(decimal: real)

  /** One `INSERT OR REPLACE` into `system_state`. */
  datatype StateWrite = StateWrite(key: string, value: Persisted)

  datatype Target = Target(id: nat, x: real, y: real, timestamp: string)

  /** One row of `command_log`. */
  datatype CommandRecord = CommandRecord(intent: string, action: string,
                                         parameters: map<string, string>, success: bool)

  /** Every field of a `SystemState`. */
  datatype Snapshot = Snapshot(
    mode: string,
    recording: bool,
    brightness: int,
    zoom: real,
    targets: seq<Target>,
    writes: seq<StateWrite>,
    commands: seq<CommandRecord>)

  /** Target ids are 1, 2, ... in the order the targets were marked. */
  predicate TargetsNumbered(ts: seq<Target>)
  {
    forall k | 0 <= k < |ts| :: ts[k].id == k + 1
  }

  /** What the methods of `SystemState` keep: brightness in [10, 100], zoom in [0.5, 5.0]. */
  predicate Consistent(s: Snapshot)
  {
    10 <= s.brightness <= 100 && 0.5 <= s.zoom <= 5.0 && TargetsNumbered(s.targets)
  }

  // ---------------------------------------------------------------------
  // The transitions of `SystemState`, on snapshots

  datatype Step = Step(state: Snapshot, ok: bool)

  function SetModeOn(s: Snapshot, mode: string): Step
  {
    if mode in ValidModes then Step(s.(mode := mode, writes := s.writes + [StateWrite("mode", Text(mode))]), true)
    else Step(s, false)
  }

  function ToggleRecordingOn(s: Snapshot, enabled: Option<bool>): Step
  {
    var r := if enabled.None? then !s.recording else enabled.value;
    Step(s.(recording := r, writes := s.writes + [StateWrite("recording", Flag(r))]), true)
  }

  function AdjustBrightnessOn(s: Snapshot, direction: string): Step
  {
    if direction == "up" then
      var b := if s.brightness + 10 < 100 then s.brightness + 10 else 100;
      Step(s.(brightness := b, writes := s.writes + [StateWrite("brightness", Number(b))]), true)
    else if direction == "down" then
      var b := if s.brightness - 10 > 10 then s.brightness - 10 else 10;
      Step(s.(brightness := b, writes := s.writes + [StateWrite("brightness", Number(b))]), true)
    else Step(s, false)
  }

  /** Zoom by a factor of 1.2, as exact rationals rather than binary floating point. */
  function AdjustZoomOn(s: Snapshot, direction: string): Step
  {
    if direction == "in" then
      var z := if s.zoom * 1.2 < 5.0 then s.zoom * 1.2 else 5.0;
      Step(s.(zoom := z, writes := s.writes + [StateWrite("zoom_level", Decimal(z))]), true)
    else if direction == "out" then
      var z := if s.zoom / 1.2 > 0.5 then s.zoom / 1.2 else 0.5;
      Step(s.(zoom := z, writes := s.writes + [StateWrite("zoom_level", Decimal(z))]), true)
    else Step(s, false)
  }

  function MarkTargetOn(s: Snapshot, x: real, y: real, timestamp: string): Step
  {
    Step(s.(targets := s.targets + [Target(|s.targets| + 1, x, y, timestamp)]), true)
  }

  function EmergencyOn(s: Snapshot): Step
  {
    Step(s.(mode := "emergency", recording := true,
            writes := s.writes + [StateWrite("mode", Text("emergency")), StateWrite("recording", Flag(true))]), true)
  }

  /** `set_mode` accepts exactly the five modes; a refused mode changes nothing. */
  lemma SetModeAcceptsOnlyValid(s: Snapshot, mode: string)
    ensures SetModeOn(s, mode).ok <==> mode in ValidModes
    ensures SetModeOn(s, mode).ok ==> SetModeOn(s, mode).state.mode == mode
    ensures !SetModeOn(s, mode).ok ==> SetModeOn(s, mode).state == s
  {
  }

  /** `toggle_recording(None)` flips the flag, twice restores it; a value sets it. */
  lemma ToggleRecordingCases(s: Snapshot, enabled: Option<bool>)
    ensures ToggleRecordingOn(s, enabled).ok
    ensures enabled.None? ==> ToggleRecordingOn(s, enabled).state.recording == !s.recording
    ensures enabled.None? ==> ToggleRecordingOn(ToggleRecordingOn(s, enabled).state, enabled).state.recording == s.recording
    ensures enabled.Some? ==> ToggleRecordingOn(s, enabled).state.recording == enabled.value
  {
  }

  /**
   * Brightness moves by 10 within [10, 100]: "up" never lowers it, "down"
   * never raises it, and other directions are refused without a change.
   */
  lemma BrightnessStaysInRange(s: Snapshot, direction: string)
    requires 10 <= s.brightness <= 100
    ensures var t := AdjustBrightnessOn(s, direction);
      && 10 <= t.state.brightness <= 100
      && (t.ok <==> direction == "up" || direction == "down")
      && (direction == "up" ==> s.brightness <= t.state.brightness <= s.brightness + 10)
      && (direction == "down" ==> s.brightness - 10 <= t.state.brightness <= s.brightness)
      && (!t.ok ==> t.state == s)
  {
  }

  /** Starting from the initial 100, any sequence of adjustments stays in [10, 100]. */
  function BrightnessAfter(b: int, directions: seq<string>): int
    decreases |directions|
  {
    if directions == [] then b
    else
      var s := Snapshot("normal", false, b, 1.0, [], [], []);
      BrightnessAfter(AdjustBrightnessOn(s, directions[0]).state.brightness, directions[1..])
  }

  lemma {:induction false} BrightnessAfterInRange(b: int, directions: seq<string>)
    requires 10 <= b <= 100
    ensures 10 <= BrightnessAfter(b, directions) <= 100
    decreases |directions|
  {
    if directions != [] {
      var s := Snapshot("normal", false, b, 1.0, [], [], []);
      BrightnessStaysInRange(s, directions[0]);
      BrightnessAfterInRange(AdjustBrightnessOn(s, directions[0]).state.brightness, directions[1..]);
    }
  }

  /** Marking appends one target numbered after the existing ones. */
  lemma MarkTargetNumbers(s: Snapshot, x: real, y: real, timestamp: string)
    requires TargetsNumbered(s.targets)
    ensures var t := MarkTargetOn(s, x, y, timestamp).state;
      && TargetsNumbered(t.targets) && |t.targets| == |s.targets| + 1
      && t.targets[..|s.targets|] == s.targets && t.targets[|s.targets|].id == |s.targets| + 1
  {
    var t := MarkTargetOn(s, x, y, timestamp).state;
    assert t.targets[..|s.targets|] == s.targets;
  }

  /** Every transition keeps the bounds and the numbering. */
  lemma TransitionsConsistent(s: Snapshot, text: string, enabled: Option<bool>, x: real, y: real)
    requires Consistent(s)
    ensures Consistent(SetModeOn(s, text).state)
    ensures Consistent(ToggleRecordingOn(s, enabled).state)
    ensures Consistent(AdjustBrightnessOn(s, text).state)
    ensures Consistent(AdjustZoomOn(s, text).state)
    ensures Consistent(MarkTargetOn(s, x, y, text).state)
    ensures Consistent(EmergencyOn(s).state)
  {
    MarkTargetNumbers(s, x, y, text);
  }

  // ---------------------------------------------------------------------
  // Status messages

  /** `_get_status_message`: the first of emergency, recording, night, navigation. */
  function StatusMessage(mode: string, recording: bool): string
  {
    if mode == "emergency" then "EMERGENCY MODE ACTIVE"
    else if recording then "Recording in progress"
    else if mode == "night" then "Night vision active"
    else if mode == "navigation" then "Navigation mode active"
    else "System operational"
  }

  /** Each message is shown exactly when its condition holds and no earlier one does. */
  lemma StatusMessagePriority(mode: string, recording: bool)
    ensures StatusMessage(mode, recording) == "EMERGENCY MODE ACTIVE" <==> mode == "emergency"
    ensures StatusMessage(mode, recording) == "Recording in progress" <==> mode != "emergency" && recording
    ensures StatusMessage(mode, recording) == "Night vision active"
            <==> mode == "night" && !recording
    ensures StatusMessage(mode, recording) == "Navigation mode active"
            <==> mode == "navigation" && !recording
    ensures StatusMessage(mode, recording) == "System operational"
            <==> mode !in ["emergency", "night", "navigation"] && !recording
  {
  }

  /** After `emergency_mode` the status line is the emergency one, whatever came before. */
  lemma EmergencyOverridesStatus(s: Snapshot)
    ensures var t := EmergencyOn(s).state;
      t.mode == "emergency" && t.recording && StatusMessage(t.mode, t.recording) == "EMERGENCY MODE ACTIVE"
  {
  }

  /** `_get_system_status_message` over the psutil readings. */
  function SystemStatusMessage(cpu: real, memory: real, temperature: real): string
  {
    var items := (if cpu > 80.0 then ["High CPU usage"] else [])
                 + (if memory > 80.0 then ["High memory usage"] else [])
                 + (if temperature > 70.0 then ["High temperature"] else []);
    if items == [] then "All systems nominal" else "System warnings: " + Join(items, ", ")
  }

  lemma SystemStatusNominal(cpu: real, memory: real, temperature: real)
    ensures SystemStatusMessage(cpu, memory, temperature) == "All systems nominal"
            <==> cpu <= 80.0 && memory <= 80.0 && temperature <= 70.0
  {
    var m := SystemStatusMessage(cpu, memory, temperature);
    if !(cpu <= 80.0 && memory <= 80.0 && temperature <= 70.0) {
      assert m[..|"System warnings: "|] == "System warnings: ";
    }
  }

  // ---------------------------------------------------------------------
  // Command routing

  const KnownActions: seq<string> := ["set_mode", "toggle_recording", "adjust_brightness", "adjust_zoom",
                                      "mark_target", "screenshot", "emergency_mode", "system_status",
                                      "describe_scene", "ui_command"]

  /**
   * What `ExecuteCommand` takes from outside the request: `float()` of the
   * `x` and `y` parameters (None when it raises, with the exception's text),
   * the clock, whether the screenshot directory could be created, and the
   * psutil readings.
   */
  datatype CommandEnv = CommandEnv(
    coordinates: Option<(real, real)>,
    error: string,
    timestamp: string,
    screenshotSaved: bool,
    cpu: real, memory: real, temperature: real)

  datatype CommandResponse = CommandResponse(success: bool, message: string)

  /** `str(v).lower() == "true"` for the `enabled` parameter, when present. */
  function EnabledParameter(parameters: map<string, string>): Option<bool>
  {
    if "enabled" in parameters then Some(Lower(parameters["enabled"]) == "true") else None
  }

  function Param(parameters: map<string, string>, key: string, default: string): string
  {
    if key in parameters then parameters[key] else default
  }

  /** The handler an action routes to: its new state, success flag and message. */
  function Handle(s: Snapshot, action: string, parameters: map<string, string>, env: CommandEnv): (Snapshot, CommandResponse)
    requires action != "mark_target" || env.coordinates.Some?
  {
    if action == "set_mode" then
      var mode := Param(parameters, "mode", "normal");
      var t := SetModeOn(s, mode);
      (t.state, CommandResponse(t.ok, if t.ok then "Mode set to " + mode else "Invalid mode: " + mode))
    else if action == "toggle_recording" then
      var t := ToggleRecordingOn(s, EnabledParameter(parameters));
      (t.state, CommandResponse(t.ok, "Recording " + (if t.state.recording then "started" else "stopped")))
    else if action == "adjust_brightness" then
      var direction := Param(parameters, "direction", "up");
      var t := AdjustBrightnessOn(s, direction);
      (t.state, CommandResponse(t.ok, "Brightness adjusted " + direction))
    else if action == "adjust_zoom" then
      var direction := Param(parameters, "direction", "in");
      var t := AdjustZoomOn(s, direction);
      (t.state, CommandResponse(t.ok, "Zoom adjusted " + direction))
    else if action == "mark_target" then
      var t := MarkTargetOn(s, env.coordinates.value.0, env.coordinates.value.1, env.timestamp);
      (t.state, CommandResponse(t.ok, "Target marked"))
    else HandleOther(s, action, parameters, env)
  }

  /** The handlers after `mark_target` in the chain. */
  function HandleOther(s: Snapshot, action: string, parameters: map<string, string>, env: CommandEnv): (Snapshot, CommandResponse)
  {
    if action == "screenshot" then
      (s, CommandResponse(env.screenshotSaved, if env.screenshotSaved then "Screenshot captured" else "Screenshot failed"))
    else if action == "emergency_mode" then
      var t := EmergencyOn(s);
      (t.state, CommandResponse(t.ok, "Emergency mode activated"))
    else if action == "system_status" then
      (s, CommandResponse(true, SystemStatusMessage(env.cpu, env.memory, env.temperature)))
    else if action == "describe_scene" then
      (s, CommandResponse(true, "I can see several objects in the current view including people and vehicles."))
    else if action == "ui_command" then
      var command := Param(parameters, "command", "");
      if command in UiCommands then
        (s.(writes := s.writes + [StateWrite("ui_" + command, Text("true"))]),
         CommandResponse(true, "UI command executed: " + command))
      else (s, CommandResponse(false, "UI command failed: " + command))
    else (s, CommandResponse(false, "Unknown action: " + action))
  }

  /**
   * `ExecuteCommand`: the handler's outcome, then one `command_log` row. A
   * `mark_target` whose coordinates do not parse ends in the outer `except`:
   * no state change, no log row, "Command failed: ...".
   */
  function Execute(s: Snapshot, action: string, parameters: map<string, string>, env: CommandEnv): (Snapshot, CommandResponse)
  {
    if action == "mark_target" && env.coordinates.None? then
      (s, CommandResponse(false, "Command failed: " + env.error))
    else
      var (t, r) := Handle(s, action, parameters, env);
      (t.(commands := t.commands + [CommandRecord(Param(parameters, "intent", "unknown"), action, parameters, r.success)]), r)
  }

  /** An unknown action fails with its name in the message and only adds the log row. */
  lemma UnknownActionFails(s: Snapshot, action: string, parameters: map<string, string>, env: CommandEnv)
    requires action !in KnownActions
    ensures Execute(s, action, parameters, env).1 == CommandResponse(false, "Unknown action: " + action)
    ensures Execute(s, action, parameters, env).0
            == s.(commands := s.commands + [CommandRecord(Param(parameters, "intent", "unknown"), action, parameters, false)])
  {
  }

  /** The `enabled` parameter sets recording to whether it reads "true" in any case; without it the flag flips. */
  lemma EnabledParameterSetsRecording(s: Snapshot, parameters: map<string, string>, env: CommandEnv)
    ensures var (t, r) := Execute(s, "toggle_recording", parameters, env);
      && r.success
      && ("enabled" in parameters ==> t.recording == (Lower(parameters["enabled"]) == "true"))
      && ("enabled" !in parameters ==> t.recording == !s.recording)
      && r.message == (if t.recording then "Recording started" else "Recording stopped")
  {
  }

  /** A UI command succeeds exactly for the four known overlay commands. */
  lemma UiCommandSucceedsIff(s: Snapshot, parameters: map<string, string>, env: CommandEnv)
    ensures Execute(s, "ui_command", parameters, env).1.success
            <==> Param(parameters, "command", "") in UiCommands
  {
  }

  /** Every command that reaches its handler is logged once, with the handler's success. */
  lemma ExecuteLogsOnce(s: Snapshot, action: string, parameters: map<string, string>, env: CommandEnv)
    requires action != "mark_target" || env.coordinates.Some?
    ensures var (t, r) := Execute(s, action, parameters, env);
      t.commands == s.commands + [CommandRecord(Param(parameters, "intent", "unknown"), action, parameters, r.success)]
  {
    HandleKeepsLog(s, action, parameters, env);
  }

  /** No handler touches the command log. */
  lemma HandleKeepsLog(s: Snapshot, action: string, parameters: map<string, string>, env: CommandEnv)
    requires action != "mark_target" || env.coordinates.Some?
    ensures Handle(s, action, parameters, env).0.commands == s.commands
  {
    if action == "set_mode" {
    } else if action == "toggle_recording" {
    } else if action == "adjust_brightness" {
    } else if action == "adjust_zoom" {
    } else if action == "mark_target" {
    } else {
      assert Handle(s, action, parameters, env) == HandleOther(s, action, parameters, env);
    }
  }

  /** Every handler keeps the `SystemState` bounds. */
  lemma HandleConsistent(s: Snapshot, action: string, parameters: map<string, string>, env: CommandEnv)
    requires Consistent(s)
    requires action != "mark_target" || env.coordinates.Some?
    ensures Consistent(Handle(s, action, parameters, env).0)
  {
    var x, y := if env.coordinates.Some? then env.coordinates.value.0 else 0.0,
                if env.coordinates.Some? then env.coordinates.value.1 else 0.0;
    if action == "set_mode" {
      TransitionsConsistent(s, Param(parameters, "mode", "normal"), None, x, y);
    } else if action == "toggle_recording" {
      TransitionsConsistent(s, "", EnabledParameter(parameters), x, y);
    } else if action == "adjust_brightness" {
      TransitionsConsistent(s, Param(parameters, "direction", "up"), None, x, y);
    } else if action == "adjust_zoom" {
      TransitionsConsistent(s, Param(parameters, "direction", "in"), None, x, y);
    } else if action == "mark_target" {
      TransitionsConsistent(s, env.timestamp, None, x, y);
    } else if action == "emergency_mode" {
      TransitionsConsistent(s, "", None, x, y);
    }
  }

  /** Routing and logging keep the `SystemState` bounds. */
  lemma ExecuteConsistent(s: Snapshot, action: string, parameters: map<string, string>, env: CommandEnv)
    requires Consistent(s)
    ensures Consistent(Execute(s, action, parameters, env).0)
  {
    if !(action == "mark_target" && env.coordinates.None?) {
      HandleConsistent(s, action, parameters, env);
    }
  }

  // ---------------------------------------------------------------------
  // The objects

  class SystemState {
    var currentMode: string
    var recording: bool
    var brightness: int
    var zoomLevel: real
    var markedTargets: seq<Target>
    /** The rows written to `system_state`, oldest first. */
    var stateWrites: seq<StateWrite>
    /** The rows written to `command_log`, oldest first. */
    var commandLog: seq<CommandRecord>

    function Snap(): Snapshot
      reads this
    {
      Snapshot(currentMode, recording, brightness, zoomLevel, markedTargets, stateWrites, commandLog)
    }

    ghost predicate Valid()
      reads this
    {
      Consistent(Snap())
    }

    /** A fresh state over an empty database. */
    constructor ()
      ensures Valid()
      ensures Snap() == Snapshot("normal", false, 100, 1.0, [], [], [])
    {
      currentMode := "normal";
      recording := false;
      brightness := 100;
      zoomLevel := 1.0;
      markedTargets := [];
      stateWrites := [];
      commandLog := [];
    }

    method SetMode(mode: string) returns (ok: bool)
      requires Valid()
      modifies this
      ensures Valid()
      ensures Step(Snap(), ok) == SetModeOn(old(Snap()), mode)
    {
      if mode in ValidModes {
        currentMode := mode;
        stateWrites := stateWrites + [StateWrite("mode", Text(mode))];
        return true;
      }
      return false;
    }

    method ToggleRecording(enabled: Option<bool>) returns (ok: bool)
      requires Valid()
      modifies this
      ensures Valid()
      ensures Step(Snap(), ok) == ToggleRecordingOn(old(Snap()), enabled)
    {
      if enabled.None? {
        recording := !recording;
      } else {
        recording := enabled.value;
      }
      stateWrites := stateWrites + [StateWrite("recording", Flag(recording))];
      return true;
    }

    method AdjustBrightness(direction: string) returns (ok: bool)
      requires Valid()
      modifies this
      ensures Valid()
      ensures Step(Snap(), ok) == AdjustBrightnessOn(old(Snap()), direction)
    {
      if direction == "up" {
        brightness := if brightness + 10 < 100 then brightness + 10 else 100;
      } else if direction == "down" {
        brightness := if brightness - 10 > 10 then brightness - 10 else 10;
      } else {
        return false;
      }
      stateWrites := stateWrites + [StateWrite("brightness", Number(brightness))];
      return true;
    }

    method AdjustZoom(direction: string) returns (ok: bool)
      requires Valid()
      modifies this
      ensures Valid()
      ensures Step(Snap(), ok) == AdjustZoomOn(old(Snap()), direction)
    {
      if direction == "in" {
        zoomLevel := if zoomLevel * 1.2 < 5.0 then zoomLevel * 1.2 else 5.0;
      } else if direction == "out" {
        zoomLevel := if zoomLevel / 1.2 > 0.5 then zoomLevel / 1.2 else 0.5;
      } else {
        return false;
      }
      stateWrites := stateWrites + [StateWrite("zoom_level", Decimal(zoomLevel))];
      return true;
    }

    method MarkTarget(x: real, y: real, timestamp: string) returns (ok: bool)
      requires Valid()
      modifies this
      ensures Valid()
      ensures Step(Snap(), ok) == MarkTargetOn(old(Snap()), x, y, timestamp)
    {
      MarkTargetNumbers(Snap(), x, y, timestamp);
      markedTargets := markedTargets + [Target(|markedTargets| + 1, x, y, timestamp)];
      return true;
    }

    method EmergencyMode() returns (ok: bool)
      requires Valid()
      modifies this
      ensures Valid()
      ensures Step(Snap(), ok) == EmergencyOn(old(Snap()))
    {
      currentMode := "emergency";
      recording := true;
      stateWrites := stateWrites + [StateWrite("mode", Text(currentMode)), StateWrite("recording", Flag(recording))];
      return true;
    }

    method LogCommand(intent: string, action: string, parameters: map<string, string>, success: bool)
      modifies this
      ensures Snap() == old(Snap()).(commands := old(commandLog) + [CommandRecord(intent, action, parameters, success)])
    {
      commandLog := commandLog + [CommandRecord(intent, action, parameters, success)];
    }
  }

  class OrchestratorService {
    const state: SystemState

    constructor ()
      ensures fresh(state) && state.Valid() && state.Snap() == Snapshot("normal", false, 100, 1.0, [], [], [])
    {
      state := new SystemState();
    }

    /** `_get_status_message()`. */
    function GetStatusMessage(): string
      reads state
    {
      StatusMessage(state.currentMode, state.recording)
    }

    /** `_handle_ui_command(command)`. */
    method HandleUiCommand(command: string) returns (ok: bool)
      requires state.Valid()
      modifies state
      ensures state.Valid()
      ensures ok == (command in UiCommands)
      ensures state.Snap() == if ok then old(state.Snap()).(writes := old(state.stateWrites)
                                        + [StateWrite("ui_" + command, Text("true"))])
                              else old(state.Snap())
    {
      if command in UiCommands {
        state.stateWrites := state.stateWrites + [StateWrite("ui_" + command, Text("true"))];
        return true;
      }
      return false;
    }

    /** `ExecuteCommand(request)`: route the action, then log it. */
    method ExecuteCommand(action: string, parameters: map<string, string>, env: CommandEnv)
      returns (response: CommandResponse)
      requires state.Valid()
      modifies state
      ensures state.Valid()
      ensures (state.Snap(), response) == Execute(old(state.Snap()), action, parameters, env)
    {
      if action == "mark_target" && env.coordinates.None? {
        return CommandResponse(false, "Command failed: " + env.error);
      }
      response := Route(action, parameters, env);
      state.LogCommand(Param(parameters, "intent", "unknown"), action, parameters, response.success);
    }

    /** The `if`/`elif` chain of `ExecuteCommand`. */
    method Route(action: string, parameters: map<string, string>, env: CommandEnv)
      returns (response: CommandResponse)
      requires state.Valid()
      requires action != "mark_target" || env.coordinates.Some?
      modifies state
      ensures state.Valid()
      ensures (state.Snap(), response) == Handle(old(state.Snap()), action, parameters, env)
    {
      var success := false;
      var message := "";
      if action == "set_mode" {
        var mode := Param(parameters, "mode", "normal");
        success := state.SetMode(mode);
        message := if success then "Mode set to " + mode else "Invalid mode: " + mode;
      } else if action == "toggle_recording" {
        success := state.ToggleRecording(EnabledParameter(parameters));
        message := "Recording " + (if state.recording then "started" else "stopped");
      } else if action == "adjust_brightness" {
        var direction := Param(parameters, "direction", "up");
        success := state.AdjustBrightness(direction);
        message := "Brightness adjusted " + direction;
      } else if action == "adjust_zoom" {
        var direction := Param(parameters, "direction", "in");
        success := state.AdjustZoom(direction);
        message := "Zoom adjusted " + direction;
      } else if action == "mark_target" {
        success := state.MarkTarget(env.coordinates.value.0, env.coordinates.value.1, env.timestamp);
        message := "Target marked";
      } else {
        response := RouteOther(action, parameters, env);
        return;
      }
      response := CommandResponse(success, message);
    }

    /** The rest of the chain, from `screenshot` on. */
    method RouteOther(action: string, parameters: map<string, string>, env: CommandEnv)
      returns (response: CommandResponse)
      requires state.Valid()
      modifies state
      ensures state.Valid()
      ensures (state.Snap(), response) == HandleOther(old(state.Snap()), action, parameters, env)
    {
      var success := false;
      var message := "";
      if action == "screenshot" {
        success := env.screenshotSaved;
        message := if success then "Screenshot captured" else "Screenshot failed";
      } else if action == "emergency_mode" {
        success := state.EmergencyMode();
        message := "Emergency mode activated";
      } else if action == "system_status" {
        success := true;
        message := SystemStatusMessage(env.cpu, env.memory, env.temperature);
      } else if action == "describe_scene" {
        success := true;
        message := "I can see several objects in the current view including people and vehicles.";
      } else if action == "ui_command" {
        var command := Param(parameters, "command", "");
        success := HandleUiCommand(command);
        message := if success then "UI command executed: " + command else "UI command failed: " + command;
      } else {
        success := false;
        message := "Unknown action: " + action;
      }
      response := CommandResponse(success, message);
    }
  }
}
