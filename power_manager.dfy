// The display power profiles and the `PowerManager` that switches between
// them by hand, by name, or from the battery level and temperature.
module PowerManagement {
  import opened Text

  datatype PowerProfile = Performance | Balanced | Saver

  /** `PowerProfile.value`. */
  function ProfileValue(p: PowerProfile): string
  {
    match p
    case Performance => "performance"
    case Balanced => "balanced"
    case Saver => "saver"
  }

  /** One entry of `profile_configs`. */
  datatype ProfileConfig = ProfileConfig(
    fps: nat,
    frameIntervalMs: nat,
    description: string,
    hud: bool,
    detections: bool,
    rearCamera: bool,
    gyroRateHz: nat)

  function ConfigOf(p: PowerProfile): ProfileConfig
  {
    match p
    case Performance => ProfileConfig(30, 33, "Maximum performance", true, true, true, 60)
    case Balanced => ProfileConfig(20, 50, "Balanced performance and battery", true, false, true, 30)
    case Saver => ProfileConfig(10, 100, "Maximum battery life", true, false, false, 15)
  }

  /** How much power a profile may draw: PERFORMANCE above BALANCED above SAVER. */
  function Rank(p: PowerProfile): nat
  {
    match p
    case Performance => 2
    case Balanced => 1
    case Saver => 0
  }

  /**
   * The table: each interval is 1000 ms over the frame rate, rounded down,
   * and a lower profile has a lower frame rate and no more features.
   */
  lemma ProfileTable(p: PowerProfile, q: PowerProfile)
    ensures ConfigOf(p).fps > 0 && ConfigOf(p).frameIntervalMs == 1000 / ConfigOf(p).fps
    ensures ConfigOf(Performance).fps == 30 && ConfigOf(Balanced).fps == 20 && ConfigOf(Saver).fps == 10
    ensures ConfigOf(Performance).frameIntervalMs == 33 && ConfigOf(Balanced).frameIntervalMs == 50
            && ConfigOf(Saver).frameIntervalMs == 100
    ensures Rank(p) < Rank(q) ==>
      && ConfigOf(p).fps < ConfigOf(q).fps
      && (ConfigOf(p).detections ==> ConfigOf(q).detections)
      && (ConfigOf(p).rearCamera ==> ConfigOf(q).rearCamera)
      && ConfigOf(p).gyroRateHz < ConfigOf(q).gyroRateHz
  {
  }

  /** The profile `auto_adjust` leaves, from the current one and the readings. */
  function AutoTarget(current: PowerProfile, batteryLevel: real, temperature: real): PowerProfile
  {
    if batteryLevel < 15.0 || temperature > 75.0 then Saver
    else if (batteryLevel < 30.0 || temperature > 65.0) && current == Performance then Balanced
    else current
  }

  /**
   * `auto_adjust` never raises the profile; a critical reading always ends
   * in SAVER; an elevated one only lowers PERFORMANCE, to BALANCED; normal
   * readings change nothing.
   */
  lemma AutoAdjustLowersOnly(current: PowerProfile, batteryLevel: real, temperature: real)
    ensures Rank(AutoTarget(current, batteryLevel, temperature)) <= Rank(current)
    ensures batteryLevel < 15.0 || temperature > 75.0 ==> AutoTarget(current, batteryLevel, temperature) == Saver
    ensures !(batteryLevel < 15.0 || temperature > 75.0) && (batteryLevel < 30.0 || temperature > 65.0) ==>
      AutoTarget(current, batteryLevel, temperature) == if current == Performance then Balanced else current
    ensures !(batteryLevel < 30.0 || temperature > 65.0) ==> AutoTarget(current, batteryLevel, temperature) == current
  {
  }

  /** A second `auto_adjust` with the same readings changes nothing. */
  lemma AutoAdjustSettles(current: PowerProfile, batteryLevel: real, temperature: real)
    ensures var p := AutoTarget(current, batteryLevel, temperature);
      AutoTarget(p, batteryLevel, temperature) == p
  {
  }

  const PerformanceNames: seq<string> := ["performance", "perf", "high", "max"]
  const BalancedNames: seq<string> := ["balanced", "balance", "medium", "normal"]
  const SaverNames: seq<string> := ["saver", "save", "low", "eco", "economy"]

  datatype NamedProfile = Named(profile: PowerProfile) | Unknown

  /** The alias lists of `set_profile_by_name`, checked on the lower-cased, stripped name. */
  function ProfileByName(name: string): NamedProfile
  {
    var n := Strip(Lower(name));
    if n in PerformanceNames then Named(Performance)
    else if n in BalancedNames then Named(Balanced)
    else if n in SaverNames then Named(Saver)
    else Unknown
  }

  /** Each profile's own value is one of its aliases, in any case and with surrounding blanks. */
  lemma ProfileValueIsAlias(p: PowerProfile)
    ensures ProfileByName(ProfileValue(p)) == Named(p)
    ensures ProfileByName(" " + ProfileValue(p) + "\n") == Named(p)
  {
    var v := ProfileValue(p);
    assert Lower(v) == v;
    assert Strip(v) == v;
    assert Lower(" " + v + "\n") == " " + v + "\n";
    assert StripLeft(" " + v + "\n") == v + "\n";
    assert Strip(" " + v + "\n") == v;
  }

  /** The aliases name one profile each: the three lists do not overlap. */
  lemma AliasesDisjoint(n: string)
    ensures !(n in PerformanceNames && n in BalancedNames)
    ensures !(n in PerformanceNames && n in SaverNames)
    ensures !(n in BalancedNames && n in SaverNames)
  {
  }

  class PowerManager {
    var currentProfile: PowerProfile
    var hasCallback: bool
    /** The `(profile, config)` pairs passed to the change callback, oldest first. */
    var notifications: seq<(PowerProfile, ProfileConfig)>

    /** `PowerManager(initial_profile)`; the default is BALANCED. */
    constructor (initialProfile: PowerProfile)
      ensures currentProfile == initialProfile && !hasCallback && notifications == []
    {
      currentProfile := initialProfile;
      hasCallback := false;
      notifications := [];
    }

    method RegisterCallback()
      modifies this
      ensures hasCallback && currentProfile == old(currentProfile) && notifications == old(notifications)
    {
      hasCallback := true;
    }

    /**
     * `set_profile(profile)`: nothing happens for the current profile;
     * otherwise it switches and tells the callback, if one is registered.
     */
    method SetProfile(profile: PowerProfile)
      modifies this
      ensures currentProfile == profile && hasCallback == old(hasCallback)
      ensures notifications == old(notifications)
        + (if profile != old(currentProfile) && hasCallback then [(profile, ConfigOf(profile))] else [])
    {
      if profile == currentProfile {
        return;
      }
      currentProfile := profile;
      var config := ConfigOf(profile);
      if hasCallback {
        notifications := notifications + [(profile, config)];
      }
    }

    function GetCurrentConfig(): ProfileConfig
      reads this
    {
      ConfigOf(currentProfile)
    }

    function GetFrameIntervalMs(): nat
      reads this
    {
      ConfigOf(currentProfile).frameIntervalMs
    }

    function GetTargetFps(): nat
      reads this
    {
      ConfigOf(currentProfile).fps
    }

    /** `auto_adjust(battery_level, temperature)`: true exactly when the profile changed. */
    method AutoAdjust(batteryLevel: real, temperature: real) returns (changed: bool)
      modifies this
      ensures currentProfile == AutoTarget(old(currentProfile), batteryLevel, temperature)
      ensures changed == (currentProfile != old(currentProfile))
      ensures hasCallback == old(hasCallback)
      ensures notifications == old(notifications)
        + (if changed && hasCallback then [(currentProfile, ConfigOf(currentProfile))] else [])
    {
      if batteryLevel < 15.0 || temperature > 75.0 {
        if currentProfile != Saver {
          SetProfile(Saver);
          return true;
        }
      } else if batteryLevel < 30.0 || temperature > 65.0 {
        if currentProfile == Performance {
          SetProfile(Balanced);
          return true;
        }
      }
      return false;
    }

    /** `set_profile_by_name(name)`: false, with no change, for an unknown name. */
    method SetProfileByName(name: string) returns (ok: bool)
      modifies this
      ensures ok == ProfileByName(name).Named?
      ensures ok ==> currentProfile == ProfileByName(name).profile
      ensures hasCallback == old(hasCallback)
      ensures !ok ==> currentProfile == old(currentProfile) && notifications == old(notifications)
      ensures ok ==>
        notifications == old(notifications)
        + (if currentProfile != old(currentProfile) && hasCallback then [(currentProfile, ConfigOf(currentProfile))] else [])
    {
      var n := Strip(Lower(name));
      if n in PerformanceNames {
        SetProfile(Performance);
      } else if n in BalancedNames {
        SetProfile(Balanced);
      } else if n in SaverNames {
        SetProfile(Saver);
      } else {
        return false;
      }
      return true;
    }

    /** `get_status_string()`. */
    function GetStatusString(): string
      reads this
    {
      var config := ConfigOf(currentProfile);
      "Power profile: " + ProfileValue(currentProfile) + ", " + NatToString(config.fps) + " FPS, "
        + config.description
    }
  }
}
