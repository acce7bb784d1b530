// The megaphone's device lookup: the first audio device whose name contains
// the wanted one, ignoring case, and which can record (or play).
module Megaphone {
  import opened Wrappers
  import opened Text

  /** The fields of `get_device_info_by_index(i)` the lookup reads. */
  datatype DeviceInfo = DeviceInfo(name: string, maxInputChannels: int, maxOutputChannels: int)

  predicate NameMatches(info: DeviceInfo, deviceName: string)
  {
    Contains(Lower(info.name), Lower(deviceName))
  }

  predicate HasCapability(info: DeviceInfo, isInput: bool)
  {
    if isInput then info.maxInputChannels > 0 else info.maxOutputChannels > 0
  }

  predicate Qualifies(info: DeviceInfo, deviceName: string, isInput: bool)
  {
    NameMatches(info, deviceName) && HasCapability(info, isInput)
  }

  /** The loop of `find_device_by_name` from index `i` on. */
  function FindFrom(devices: seq<DeviceInfo>, deviceName: string, isInput: bool, i: nat): Option<(nat, DeviceInfo)>
    decreases |devices| - i
  {
    if i >= |devices| then None
    else if Qualifies(devices[i], deviceName, isInput) then Some((i, devices[i]))
    else FindFrom(devices, deviceName, isInput, i + 1)
  }

  /** `find_device_by_name(p, device_name, is_input)`; `None` stands for `(None, None)`. */
  function FindDeviceByName(devices: seq<DeviceInfo>, deviceName: string, isInput: bool): Option<(nat, DeviceInfo)>
  {
    FindFrom(devices, deviceName, isInput, 0)
  }

  /** The search from `i` finds the lowest qualifying index at or after `i`, or reports that there is none. */
  lemma {:induction false} FindFromSpec(devices: seq<DeviceInfo>, deviceName: string, isInput: bool, i: nat)
    ensures var r := FindFrom(devices, deviceName, isInput, i);
      && (r.Some? ==>
            && i <= r.value.0 < |devices|
            && r.value.1 == devices[r.value.0]
            && Qualifies(devices[r.value.0], deviceName, isInput)
            && forall j | i <= j < r.value.0 :: !Qualifies(devices[j], deviceName, isInput))
      && (r.None? <==> forall j | i <= j < |devices| :: !Qualifies(devices[j], deviceName, isInput))
    decreases |devices| - i
  {
    if i < |devices| && !Qualifies(devices[i], deviceName, isInput) {
      FindFromSpec(devices, deviceName, isInput, i + 1);
    }
  }

  /**
   * The result is the lowest index whose name contains `deviceName` in any
   * case and which has a channel in the wanted direction, together with that
   * device's info; `None` exactly when no device qualifies.
   */
  lemma FindDeviceLowest(devices: seq<DeviceInfo>, deviceName: string, isInput: bool)
    ensures var r := FindDeviceByName(devices, deviceName, isInput);
      && (r.Some? ==>
            && r.value.0 < |devices|
            && r.value.1 == devices[r.value.0]
            && Qualifies(devices[r.value.0], deviceName, isInput)
            && forall j | 0 <= j < r.value.0 :: !Qualifies(devices[j], deviceName, isInput))
      && (r.None? <==> forall j | 0 <= j < |devices| :: !Qualifies(devices[j], deviceName, isInput))
  {
    FindFromSpec(devices, deviceName, isInput, 0);
  }

  /** A device whose name matches but that lacks the wanted channels is passed over, and the search goes on. */
  lemma SkipsIncapable(devices: seq<DeviceInfo>, deviceName: string, isInput: bool, j: nat)
    requires j < |devices| && NameMatches(devices[j], deviceName) && !HasCapability(devices[j], isInput)
    ensures var r := FindDeviceByName(devices, deviceName, isInput); r.Some? ==> r.value.0 != j
    ensures FindFrom(devices, deviceName, isInput, j) == FindFrom(devices, deviceName, isInput, j + 1)
  {
    FindDeviceLowest(devices, deviceName, isInput);
  }

  /** The search ignores case on both sides. */
  lemma CaseInsensitive(devices: seq<DeviceInfo>, deviceName: string, isInput: bool)
    ensures FindDeviceByName(devices, Lower(deviceName), isInput) == FindDeviceByName(devices, deviceName, isInput)
  {
    LowerIdempotent(deviceName);
    var names := Lower(deviceName);
    FindFromSame(devices, names, deviceName, isInput, 0);
  }

  lemma {:induction false} FindFromSame(devices: seq<DeviceInfo>, a: string, b: string, isInput: bool, i: nat)
    requires Lower(a) == Lower(b)
    ensures FindFrom(devices, a, isInput, i) == FindFrom(devices, b, isInput, i)
    decreases |devices| - i
  {
    if i < |devices| {
      FindFromSame(devices, a, b, isInput, i + 1);
    }
  }
}
