/**
 * Choice of the XR controller that drives the laser pointer.
 *
 * The engine reports the devices attached to the controller's XR node as a
 * list; each device carries a set of characteristic bits. The component keeps
 * the first device, in list order, whose bits include every required bit.
 */
module DeviceSelection {
  import opened Wrappers

  // The two bits of the engine's input-device characteristics flag set that
  // the component requires by default.
  const TrackedDevice: bv32 := 0x20
  const Controller: bv32 := 0x40

  /** The characteristics the component requires unless configured otherwise. */
  const DefaultRequired: bv32 := Controller | TrackedDevice

  /** A device as the engine lists it: an opaque handle and its characteristic bits. */
  datatype InputDevice = InputDevice(id: nat, characteristics: bv32)

  /** The flag-set test `HasFlag`: every bit of `flag` is set in `c`. */
  predicate HasFlag(c: bv32, flag: bv32)
  {
    c & flag == flag
  }

  predicate Matches(d: InputDevice, required: bv32)
  {
    HasFlag(d.characteristics, required)
  }

  /** `i` is the position of the first device of `devices` that has every required bit. */
  ghost predicate IsFirstMatch(devices: seq<InputDevice>, required: bv32, i: nat)
  {
    i < |devices| && Matches(devices[i], required) &&
    forall j :: 0 <= j < i ==> !Matches(devices[j], required)
  }

  /** Position of the first matching device, if any device matches. */
  function FirstMatch(devices: seq<InputDevice>, required: bv32): (r: Option<nat>)
    ensures r.Some? ==> IsFirstMatch(devices, required, r.value)
    ensures r.None? <==> forall j :: 0 <= j < |devices| ==> !Matches(devices[j], required)
  {
    if |devices| == 0 then None
    else if Matches(devices[0], required) then Some(0)
    else match FirstMatch(devices[1..], required)
      case None => None
      case Some(i) => Some(i + 1)
  }

  /** The first-match position is unique: whatever satisfies IsFirstMatch is what FirstMatch returns. */
  lemma FirstMatchUnique(devices: seq<InputDevice>, required: bv32, i: nat)
    requires IsFirstMatch(devices, required, i)
    ensures FirstMatch(devices, required) == Some(i)
  {
  }

  /**
   * The device the component holds after searching `devices`: the first match,
   * or the device it held before when nothing matches.
   */
  function SelectDevice(devices: seq<InputDevice>, required: bv32, current: Option<InputDevice>): (r: Option<InputDevice>)
    ensures (exists j :: 0 <= j < |devices| && Matches(devices[j], required)) ==>
              exists i: nat :: IsFirstMatch(devices, required, i) && r == Some(devices[i])
    ensures (forall j :: 0 <= j < |devices| ==> !Matches(devices[j], required)) ==> r == current
  {
    match FirstMatch(devices, required)
    case None => current
    case Some(i) => Some(devices[i])
  }

  /** With the default configuration, a device matches exactly when it is both a controller and tracked. */
  lemma DefaultRequiresTrackedController(d: InputDevice)
    ensures Matches(d, DefaultRequired) <==>
              HasFlag(d.characteristics, Controller) && HasFlag(d.characteristics, TrackedDevice)
  {
  }

  /** Searching the same list again keeps the device the first search chose. */
  lemma SelectDeviceIdempotent(devices: seq<InputDevice>, required: bv32, current: Option<InputDevice>)
    ensures SelectDevice(devices, required, SelectDevice(devices, required, current))
         == SelectDevice(devices, required, current)
  {
  }
}
