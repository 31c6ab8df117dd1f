# VR laser pointer: on/off state machine

This project models the logic core of `VRLaserPointer`, a Unity behaviour for a VR
controller. The trigger button switches a laser pointer on and off. The component's line renderer
and its optional XR ray interactor are enabled and disabled together with the laser. Other
scripts can force the laser on or off. The controller is found by searching the devices of an XR
node for the first one whose characteristic flags include all required flags.

Modules:

- `Wrappers`: `Option`, which stands for a null reference or a failed engine query.
- `DeviceSelection`: device characteristics as `bv32` flag sets. It holds the `HasFlag` test,
  the first-match search, and the choice the component makes (the first match, or the old device
  when nothing matches).
- `LaserState`: the state machine as values. A `Snapshot` holds the active flag, the previous
  trigger reading, the renderer and interactor `enabled` flags, and the held device. It also
  holds the functions for start-up, toggling, the forced setters, one trigger poll and one frame,
  plus the lemmas about single steps and about whole runs of frames.
- `VRLaserPointerComponent`: the component as a class. Its fields are updated in place, and the
  renderer and interactor are separate objects whose `enabled` flags its methods write. Each
  method is proved to move the component's `Snapshot` exactly as the matching `LaserState`
  function does. Each method also keeps the invariant that the line is drawn exactly when the
  laser is active.

Engine inputs become parameters:

- `Update` takes whether the held device is still connected.
- The trigger poll is an `Option<bool>`; `None` means the read failed.
- The devices at the controller's XR node are a `seq<InputDevice>`.

A device counts as valid only once one has been found and while it stays connected. The
default device that the component holds before any search is never valid. The default required
characteristics are the engine's `Controller` (0x40) and `TrackedDevice` (0x20) bits.

One consequence of the code as written: start-up disables the line renderer but leaves the ray
interactor's own `enabled` flag alone. So the interactor can be on while the laser is off, until
the first toggle or forced setter (`InitialInteractorMayBeOn`). From then on, every step keeps
it in step with the laser (`RunKeepsSynced`). The renderer is in step from start-up on: over frames by
`ReachableRendererSynced`, and across the forced setters by the contracts of `Enable` and `Disable`.

## Model

| member | source | states |
|---|---|---|
| `DeviceSelection.FirstMatch` | Assets/Scripts/VRLaserPointer.cs:97-105 | the index found has every required flag and no earlier device has them; no index is found exactly when no device has them |
| `DeviceSelection.FirstMatchUnique` | Assets/Scripts/VRLaserPointer.cs:97-105 | the first matching position is unique, so any index with that property is the one the search returns |
| `DeviceSelection.SelectDevice` | Assets/Scripts/VRLaserPointer.cs:97-105 | if any device matches, the held device becomes the first match in list order; if none does, the held device is unchanged |
| `DeviceSelection.DefaultRequiresTrackedController` | Assets/Scripts/VRLaserPointer.cs:24-25 | with the default required characteristics, a device is selectable exactly when it is flagged both as a controller and as tracked |
| `DeviceSelection.SelectDeviceIdempotent` | Assets/Scripts/VRLaserPointer.cs:97-105 | searching the same list again keeps the device already chosen |
| `LaserState.Initial` | Assets/Scripts/VRLaserPointer.cs:29-84 | after start-up the laser is off, the trigger counts as released, the renderer is disabled (so it matches the laser), the interactor flag is as found, and the held device comes from a first search |
| `LaserState.Toggle` | Assets/Scripts/VRLaserPointer.cs:131-143 | the active flag is negated; the renderer and the interactor (if present) follow it; trigger history, device and interactor presence are kept |
| `LaserState.Enable` | Assets/Scripts/VRLaserPointer.cs:171-180 | laser, renderer and interactor (if present) are all on, whatever the prior state; everything else is kept |
| `LaserState.Disable` | Assets/Scripts/VRLaserPointer.cs:185-194 | laser, renderer and interactor (if present) are all off, whatever the prior state; everything else is kept |
| `LaserState.HandleTrigger` | Assets/Scripts/VRLaserPointer.cs:113-125 | a failed read changes nothing; a successful read stores the value read; the laser flips if and only if the read is "pressed" and the previous reading was "released"; without a flip the renderer and interactor flags are unchanged, with one both follow the laser; the sync invariants are preserved |
| `LaserState.Step` | Assets/Scripts/VRLaserPointer.cs:42-56 | without a valid device, the frame only re-selects the device and leaves laser, trigger history and flags unchanged; with one, it is exactly one trigger poll; the sync invariants are preserved |
| `LaserState.ToggleTwice` | Assets/Scripts/VRLaserPointer.cs:131-143 | toggling twice restores any state in which the renderer and interactor follow the laser |
| `LaserState.ToggleTwiceSynchronises` | Assets/Scripts/VRLaserPointer.cs:136-140 | toggling twice does not restore a state whose interactor is out of step, because the toggle re-syncs it |
| `LaserState.EnableIdempotent` | Assets/Scripts/VRLaserPointer.cs:171-180 | forcing the laser on twice is the same as once |
| `LaserState.DisableIdempotent` | Assets/Scripts/VRLaserPointer.cs:185-194 | forcing the laser off twice is the same as once |
| `LaserState.ForcedStateIgnoresPrior` | Assets/Scripts/VRLaserPointer.cs:171-194 | forced on and forced off depend only on trigger history, device and interactor presence, not on the laser's prior state |
| `LaserState.ToggleAfterForced` | Assets/Scripts/VRLaserPointer.cs:131-194 | toggling after forcing on gives forced off, and toggling after forcing off gives forced on |
| `LaserState.InitialInteractorMayBeOn` | Assets/Scripts/VRLaserPointer.cs:81-84 | an enabled interactor found at start-up stays on while the laser is off; the first toggle brings it in step |
| `LaserState.RunKeepsRendererSynced` | Assets/Scripts/VRLaserPointer.cs:42-56 | over any sequence of frames, the renderer stays enabled exactly when the laser is active |
| `LaserState.RunKeepsSynced` | Assets/Scripts/VRLaserPointer.cs:134-140 | once the interactor follows the laser, it does so after any sequence of frames |
| `LaserState.ReachableRendererSynced` | Assets/Scripts/VRLaserPointer.cs:36-56 | in every state reachable from start-up by frames, the renderer is enabled exactly when the laser is active |
| `LaserState.DisconnectedRunKeepsLaser` | Assets/Scripts/VRLaserPointer.cs:44-48 | frames without a connected device leave the laser, trigger history and both enabled flags unchanged |
| `LaserState.ConnectedRunFeedsTrigger` | Assets/Scripts/VRLaserPointer.cs:44-50 | while a held device stays connected, a run of frames is exactly the sequence of its trigger polls |
| `LaserState.FeedTogglesPerRisingEdge` | Assets/Scripts/VRLaserPointer.cs:113-125 | after any sequence of polls, the laser has flipped once per rising edge (failed polls skipped), and the stored trigger value is the last successful reading |
| `LaserState.HeldTriggerHasOneEdge` | Assets/Scripts/VRLaserPointer.cs:119-122 | polls that read "pressed" or fail contain at most one rising edge; there is exactly one when the trigger was released before and some poll succeeds |
| `LaserState.HeldTriggerTogglesOnce` | Assets/Scripts/VRLaserPointer.cs:119-124 | holding the trigger for any positive number of frames from released toggles the laser exactly once and leaves the trigger recorded as pressed |
| `LaserState.HeldLastReading` | Assets/Scripts/VRLaserPointer.cs:124 | a run of "pressed" polls leaves "pressed" as the stored trigger value |
| `VRLaserPointerComponent.VRLaserPointer.Start` | Assets/Scripts/VRLaserPointer.cs:29-87 | creation then Start gives the `Initial` snapshot and establishes the invariant that the renderer matches the laser |
| `VRLaserPointerComponent.VRLaserPointer.Update` | Assets/Scripts/VRLaserPointer.cs:42-56 | one frame moves the state exactly as `Step`, keeps the invariant, and reports a redraw exactly when the device was valid and the laser is now active |
| `VRLaserPointerComponent.VRLaserPointer.GetInputDevice` | Assets/Scripts/VRLaserPointer.cs:92-106 | the loop with break leaves the held device as `SelectDevice` of the list and the old device |
| `VRLaserPointerComponent.VRLaserPointer.HandleTriggerInput` | Assets/Scripts/VRLaserPointer.cs:111-126 | one poll moves the state exactly as `HandleTrigger` and keeps the invariant |
| `VRLaserPointerComponent.VRLaserPointer.ToggleLaser` | Assets/Scripts/VRLaserPointer.cs:131-143 | moves the state exactly as `Toggle`, writing the renderer and the interactor object in place |
| `VRLaserPointerComponent.VRLaserPointer.EnableLaser` | Assets/Scripts/VRLaserPointer.cs:171-180 | moves the state exactly as `Enable` |
| `VRLaserPointerComponent.VRLaserPointer.DisableLaser` | Assets/Scripts/VRLaserPointer.cs:185-194 | moves the state exactly as `Disable` |
| `VRLaserPointerComponent.VRLaserPointer.IsLaserActive` | Assets/Scripts/VRLaserPointer.cs:199 | the reported flag is also whether the line renderer is enabled |

## Left out

- `UpdateLaserVisual` is not modelled. It is a physics raycast plus floating-point vector
  arithmetic on engine data. `Update` only reports whether the frame would call it.
- The cosmetic line-renderer settings are left out: material, colours, widths, position count
  and world space. So are `laserMaxDistance`, `raycastLayerMask` and `controllerNode`. These are
  engine property writes or raycast/enumeration arguments.
- The renderer lookup in `InitializeLaserPointer` (inspector field, then `GetComponent`, then
  `AddComponent`) is reduced to the renderer the constructor receives. The interactor lookup is
  reduced to the interactor it receives, which may be null.
- `InputDevices.GetDevicesAtXRNode`, `InputDevice.isValid` and `TryGetFeatureValue` are engine
  queries. They appear only as inputs: a device list, a "connected" flag and an optional reading.
  A device is an opaque id plus its characteristic bits.
- `Debug.Log` calls and `GetCurrentHit` are logging or pass-through of engine data.
- Calls to `EnableLaser` or `DisableLaser` before Start are not modelled, because the line
  renderer may still be null then. The constructor models creation followed by Start, as the
  engine runs Start before the first Update.
- `VRLaserPointerComponent.VRLaserPointer.Start`, `Update`, `HandleTriggerInput`, `ToggleLaser`,
  `EnableLaser` and `DisableLaser` require the renderer and the interactor to be different
  objects: `Start` directly, `Update` and `HandleTriggerInput` through `Valid()`, and the other
  three directly. In the source they are components of different types, so they never alias.
- LocalSync/VRLaserPointerSetup.cs is not part of this model. It is editor GUI and scene wiring.
