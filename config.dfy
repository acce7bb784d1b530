// `Config`: a profile's JSON settings as a nested dictionary, read and
// written with dot-separated key paths, and the process-wide instance that
// `get_config` hands out.
module Configuration {
  import opened Wrappers

  /** A JSON value: a dictionary, or any other value kept as its JSON text. */
  datatype Value = Dict(entries: map<string, Value>) | Scalar(json: string)

  /** Python `s.split(sep)`: the pieces between separators, at least one. */
  function Split(s: string, sep: char): (parts: seq<string>)
    ensures |parts| >= 1
    decreases |s|
  {
    if s == [] then [""]
    else
      var rest := Split(s[1..], sep);
      if s[0] == sep then [""] + rest else [[s[0]] + rest[0]] + rest[1..]
  }

  /** `sep.join(parts)`. */
  function JoinWith(parts: seq<string>, sep: char): string
    requires |parts| >= 1
    decreases |parts|
  {
    if |parts| == 1 then parts[0] else parts[0] + [sep] + JoinWith(parts[1..], sep)
  }

  /** Splitting loses nothing: the pieces hold no separator and join back to the key. */
  lemma {:induction false} SplitJoin(s: string, sep: char)
    ensures JoinWith(Split(s, sep), sep) == s
    ensures forall k, j | 0 <= k < |Split(s, sep)| && 0 <= j < |Split(s, sep)[k]| :: Split(s, sep)[k][j] != sep
    decreases |s|
  {
    if s != [] {
      SplitJoin(s[1..], sep);
      var rest := Split(s[1..], sep);
      if s[0] == sep {
        assert ([""] + rest)[1..] == rest;
      } else {
        var parts := [[s[0]] + rest[0]] + rest[1..];
        if |rest| > 1 {
          assert parts[1..] == rest[1..];
          assert JoinWith(rest, sep) == rest[0] + [sep] + JoinWith(rest[1..], sep);
        }
        assert s == [s[0]] + s[1..];
        forall k, j | 0 <= k < |parts| && 0 <= j < |parts[k]|
          ensures parts[k][j] != sep
        {
          if k == 0 && j > 0 {
            assert parts[0][j] == rest[0][j - 1];
          } else if k > 0 {
            assert parts[k] == rest[k];
          }
        }
      }
    }
  }

  /** The value at the end of `keys`, if every step finds a dictionary holding the key. */
  function PathValue(v: Value, keys: seq<string>): Option<Value>
    decreases |keys|
  {
    if keys == [] then Some(v)
    else if v.Dict? && keys[0] in v.entries then PathValue(v.entries[keys[0]], keys[1..])
    else None
  }

  /** One more segment: the walk goes on only from a dictionary that holds it. */
  lemma {:induction false} PathValueAppend(v: Value, keys: seq<string>, k: string)
    ensures PathValue(v, keys + [k])
            == match PathValue(v, keys)
               case Some(Dict(m)) => if k in m then Some(m[k]) else None
               case _ => None
    decreases |keys|
  {
    if keys == [] {
      assert [] + [k] == [k];
      assert [k][1..] == [];
    } else {
      assert (keys + [k])[0] == keys[0];
      assert (keys + [k])[1..] == keys[1..] + [k];
      if v.Dict? && keys[0] in v.entries {
        PathValueAppend(v.entries[keys[0]], keys[1..], k);
      }
    }
  }

  /** Whether `set` can walk `keys`: every value already on the path is a dictionary. */
  predicate Walkable(v: Value, keys: seq<string>)
    decreases |keys|
  {
    v.Dict? && (keys == [] || keys[0] !in v.entries || Walkable(v.entries[keys[0]], keys[1..]))
  }

  /**
   * `set` on values: missing dictionaries are created along the path and the
   * value is stored under the last segment. Reaching a value that is not a
   * dictionary raises `TypeError` before anything is changed (None).
   */
  function SetPath(v: Value, keys: seq<string>, x: Value): Option<Value>
    requires |keys| >= 1
    decreases |keys|
  {
    if !v.Dict? then None
    else if |keys| == 1 then Some(Dict(v.entries[keys[0] := x]))
    else
      var child := if keys[0] in v.entries then v.entries[keys[0]] else Dict(map[]);
      match SetPath(child, keys[1..], x)
      case None => None
      case Some(c) => Some(Dict(v.entries[keys[0] := c]))
  }

  /** `set` raises exactly when a value on the path before the last segment is not a dictionary. */
  lemma {:induction false} SetPathSucceedsIff(v: Value, keys: seq<string>, x: Value)
    requires |keys| >= 1
    ensures SetPath(v, keys, x).Some? <==> Walkable(v, keys[..|keys| - 1])
    decreases |keys|
  {
    if v.Dict? && |keys| > 1 {
      var child := if keys[0] in v.entries then v.entries[keys[0]] else Dict(map[]);
      SetPathSucceedsIff(child, keys[1..], x);
      assert keys[..|keys| - 1][0] == keys[0];
      assert keys[..|keys| - 1][1..] == keys[1..][..|keys[1..]| - 1];
      if keys[0] !in v.entries {
        FreshWalkable(keys[1..][..|keys[1..]| - 1]);
      }
    } else if v.Dict? {
      assert keys[..|keys| - 1] == [];
    }
  }

  lemma {:induction false} FreshWalkable(keys: seq<string>)
    ensures Walkable(Dict(map[]), keys)
  {
  }

  /** Round trip: after a successful `set(k, x)`, `get(k)` finds `x`. */
  lemma {:induction false} SetThenGet(v: Value, keys: seq<string>, x: Value)
    requires |keys| >= 1
    requires SetPath(v, keys, x).Some?
    ensures PathValue(SetPath(v, keys, x).value, keys) == Some(x)
    decreases |keys|
  {
    if |keys| > 1 {
      var child := if keys[0] in v.entries then v.entries[keys[0]] else Dict(map[]);
      SetThenGet(child, keys[1..], x);
    }
  }

  /** `p` leaves the path `keys` at some segment: they agree before it, differ at it. */
  predicate Diverges(p: seq<string>, keys: seq<string>)
  {
    exists i | 0 <= i < |p| && i < |keys| :: p[..i] == keys[..i] && p[i] != keys[i]
  }

  /** `set` leaves every path that branches off its own path as it was. */
  lemma {:induction false} SetLeavesOtherPaths(v: Value, keys: seq<string>, x: Value, p: seq<string>)
    requires |keys| >= 1
    requires SetPath(v, keys, x).Some?
    requires Diverges(p, keys)
    ensures PathValue(SetPath(v, keys, x).value, p) == PathValue(v, p)
    decreases |keys|
  {
    var i :| 0 <= i < |p| && i < |keys| && p[..i] == keys[..i] && p[i] != keys[i];
    var w := SetPath(v, keys, x).value;
    if i == 0 {
      assert p[0] != keys[0];
      if |keys| == 1 {
        assert w.entries == v.entries[keys[0] := x];
      }
    } else {
      assert p[0] == p[..i][0] == keys[..i][0] == keys[0];
      assert |keys| > 1;
      var child := if keys[0] in v.entries then v.entries[keys[0]] else Dict(map[]);
      assert p[1..][..i - 1] == p[..i][1..] == keys[..i][1..] == keys[1..][..i - 1];
      assert Diverges(p[1..], keys[1..]) by {
        assert p[1..][i - 1] != keys[1..][i - 1];
      }
      SetLeavesOtherPaths(child, keys[1..], x, p[1..]);
      if keys[0] !in v.entries {
        EmptyHasNoPaths(p[1..]);
      }
    }
  }

  lemma EmptyHasNoPaths(p: seq<string>)
    requires p != []
    ensures PathValue(Dict(map[]), p) == None
  {
  }

  // ---------------------------------------------------------------------
  // The default profile

  /** `_default_config()`, used when the profile file is missing or unreadable. */
  function DefaultConfig(): Value
  {
    Dict(map[
      "video" := Dict(map[
        "mock_source" := Scalar("true"), "source_path" := Scalar("\"demo.mp4\""),
        "width" := Scalar("1920"), "height" := Scalar("1080"), "fps" := Scalar("30"),
        "format" := Scalar("\"RGB\"")]),
      "perception" := Dict(map[
        "model_path" := Scalar("\"models/yolov8n.onnx\""), "confidence_threshold" := Scalar("0.5"),
        "nms_threshold" := Scalar("0.4"), "max_detections" := Scalar("100"),
        "input_size" := Scalar("[640, 640]"), "device" := Scalar("\"cpu\"")]),
      "voice" := Dict(map[
        "asr_model" := Scalar("\"small\""), "language" := Scalar("\"en\""),
        "mic_device" := Scalar("\"default\""), "tts_voice" := Scalar("\"en_US-ljspeech-medium\""),
        "sample_rate" := Scalar("16000")]),
      "ui" := Dict(map[
        "fullscreen" := Scalar("true"), "dual_eye" := Scalar("true"),
        "lens_correction" := Dict(map[
          "enabled" := Scalar("true"), "barrel_distortion" := Scalar("0.1"),
          "left_offset" := Scalar("[-0.05, 0.0]"), "right_offset" := Scalar("[0.05, 0.0]")]),
        "hud" := Dict(map[
          "show_fps" := Scalar("true"), "show_battery" := Scalar("true"),
          "show_temp" := Scalar("true"), "overlay_alpha" := Scalar("0.8")])]),
      "system" := Dict(map[
        "log_level" := Scalar("\"INFO\""), "log_dir" := Scalar("\"logs\""),
        "telemetry_enabled" := Scalar("true"), "recording_dir" := Scalar("\"recordings\"")]),
      "services" := Dict(map[
        "video_port" := Scalar("50051"), "perception_port" := Scalar("50052"),
        "voice_port" := Scalar("50053"), "orchestrator_port" := Scalar("50054")])])
  }

  /** The service ports the other services look up in the default profile. */
  lemma DefaultPorts()
    ensures PathValue(DefaultConfig(), ["services", "video_port"]) == Some(Scalar("50051"))
    ensures PathValue(DefaultConfig(), ["services", "orchestrator_port"]) == Some(Scalar("50054"))
    ensures PathValue(DefaultConfig(), ["video", "width", "x"]) == None
  {
    var services := DefaultConfig().entries["services"];
    assert PathValue(services, ["video_port"]) == PathValue(Scalar("50051"), []);
    assert PathValue(services, ["orchestrator_port"]) == PathValue(Scalar("50054"), []);
    var video := DefaultConfig().entries["video"];
    assert PathValue(video, ["width", "x"]) == PathValue(Scalar("1920"), ["x"]);
  }

  // ---------------------------------------------------------------------
  // The objects

  class Config {
    const profile: string
    var data: Value

    /**
     * `Config(profile)`; `stored` is what `json.load` makes of the profile
     * file, None when it is missing or fails to load.
     */
    constructor (profile: string, stored: Option<Value>)
      ensures this.profile == profile && data == stored.GetOr(DefaultConfig())
    {
      this.profile := profile;
      data := stored.GetOr(DefaultConfig());
    }

    /** `get(key, default)`: the walk over the segments of `key`. */
    method Get(key: string, default: Value) returns (value: Value)
      ensures value == PathValue(data, Split(key, '.')).GetOr(default)
    {
      var keys := Split(key, '.');
      value := data;
      var i := 0;
      while i < |keys|
        invariant 0 <= i <= |keys|
        invariant PathValue(data, keys[..i]) == Some(value)
        decreases |keys| - i
      {
        PathValueAppend(data, keys[..i], keys[i]);
        assert keys[..i + 1] == keys[..i] + [keys[i]];
        if value.Dict? && keys[i] in value.entries {
          value := value.entries[keys[i]];
        } else {
          PathValueMissing(data, keys, i);
          return default;
        }
        i := i + 1;
      }
      assert keys[..i] == keys;
    }

    /** `set(key, value)`; `raised` reports the `TypeError` of a non-dictionary on the path. */
    method Set(key: string, value: Value) returns (raised: bool)
      modifies this
      ensures raised == SetPath(old(data), Split(key, '.'), value).None?
      ensures !raised ==> data == SetPath(old(data), Split(key, '.'), value).value
      ensures raised ==> data == old(data)
    {
      var r := SetPath(data, Split(key, '.'), value);
      if r.None? {
        return true;
      }
      data := r.value;
      return false;
    }

    /** `reload()`, with `stored` as in the constructor. */
    method Reload(stored: Option<Value>)
      modifies this
      ensures data == stored.GetOr(DefaultConfig())
    {
      data := stored.GetOr(DefaultConfig());
    }

    /** The `all` property. */
    function All(): Value
      reads this
    {
      data
    }
  }

  /** A missing step ends the walk: no longer path reaches a value either. */
  lemma {:induction false} PathValueMissing(v: Value, keys: seq<string>, i: nat)
    requires i < |keys|
    requires PathValue(v, keys[..i + 1]) == None
    ensures PathValue(v, keys) == None
    decreases i
  {
    if i > 0 {
      assert keys[..i + 1][0] == keys[0];
      assert keys[..i + 1][1..] == keys[1..][..i];
      if v.Dict? && keys[0] in v.entries {
        PathValueMissing(v.entries[keys[0]], keys[1..], i - 1);
      }
    } else {
      assert keys[..1][1..] == [];
    }
  }

  /** Python truthiness of an optional profile name: None and "" are false. */
  predicate Given(profile: Option<string>)
  {
    profile.Some? && profile.value != ""
  }

  /** The module-level `_config_instance` and `get_config`. */
  class Registry {
    var instance: Config?

    constructor ()
      ensures instance == null
    {
      instance := null;
    }

    /**
     * `get_config(profile)`: the existing instance unless there is none or a
     * different profile is asked for; `envProfile` is `HELMET_PROFILE`.
     */
    method GetConfig(profile: Option<string>, envProfile: Option<string>, stored: Option<Value>)
      returns (c: Config)
      modifies this
      ensures instance == c
      ensures old(instance) != null && !(Given(profile) && old(instance).profile != profile.value)
              ==> c == old(instance)
      ensures old(instance) == null || (Given(profile) && old(instance).profile != profile.value)
              ==> fresh(c) && c.data == stored.GetOr(DefaultConfig())
                  && c.profile == (if Given(profile) then profile.value else envProfile.GetOr("dev"))
    {
      if instance == null || (Given(profile) && instance.profile != profile.value) {
        var name := if Given(profile) then profile.value else envProfile.GetOr("dev");
        instance := new Config(name, stored);
      }
      c := instance;
    }
  }
}
