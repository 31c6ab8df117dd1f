/**
 * The laser-pointer component itself: a per-frame behaviour that turns a
 * laser on and off with the controller's trigger and keeps the line
 * renderer and the optional ray interactor in step with it.
 *
 * Engine queries become inputs: whether the held device is still connected
 * is a parameter of Update, the trigger poll is an Option<bool> (None: the
 * read failed), and the devices listed at the controller's XR node are a
 * sequence. Each method is proved against the LaserState function of the
 * same step, applied to the component's Snapshot.
 */
module VRLaserPointerComponent {
  import opened Wrappers
  import opened DeviceSelection
  import opened LaserState

  /** An engine component with an `enabled` flag (the line renderer, the ray interactor). */
  class EngineComponent {
    var enabled: bool

    constructor (enabled: bool)
      ensures this.enabled == enabled
    {
      this.enabled := enabled;
    }
  }

  /** `enabled` of a component reference that may be null. */
  function EnabledFlag(c: EngineComponent?): Option<bool>
    reads c
  {
    if c == null then None else Some(c.enabled)
  }

  class VRLaserPointer {
    /** The line renderer found on or added to the game object. */
    const lineRenderer: EngineComponent
    /** The ray interactor on the game object, null when there is none. */
    const rayInteractor: EngineComponent?
    /** Characteristic bits a device must have to be used. */
    const deviceCharacteristics: bv32

    var targetDevice: Option<InputDevice>
    var isLaserActive: bool
    var previousTriggerState: bool

    /** The component invariant: two distinct components, and the line is drawn exactly when the laser is on. */
    ghost predicate Valid()
      reads this, lineRenderer
    {
      lineRenderer != rayInteractor && lineRenderer.enabled == isLaserActive
    }

    /** The abstract state the methods are specified on. */
    function State(): Snapshot
      reads this, lineRenderer, rayInteractor
    {
      Snapshot(isLaserActive, previousTriggerState, lineRenderer.enabled, EnabledFlag(rayInteractor), targetDevice)
    }

    /**
     * Creation followed by Start: the field initialisers, then
     * InitializeLaserPointer (which disables the renderer and takes the
     * interactor as found) and a first device search.
     */
    constructor Start(renderer: EngineComponent, interactor: EngineComponent?, required: bv32, devices: seq<InputDevice>)
      requires renderer != interactor
      modifies renderer
      ensures lineRenderer == renderer && rayInteractor == interactor && deviceCharacteristics == required
      ensures Valid()
      ensures State() == Initial(EnabledFlag(interactor), required, devices)
    {
      lineRenderer := renderer;
      rayInteractor := interactor;
      deviceCharacteristics := required;
      targetDevice := None;
      isLaserActive := false;
      previousTriggerState := false;
      new;
      lineRenderer.enabled := false;
      GetInputDevice(devices);
    }

    /**
     * One frame. Returns whether the frame went on to redraw the line
     * (UpdateLaserVisual, whose raycast and drawing are engine work).
     */
    method Update(deviceConnected: bool, devices: seq<InputDevice>, trigger: Option<bool>) returns (visualUpdated: bool)
      requires Valid()
      modifies this, lineRenderer, rayInteractor
      ensures Valid()
      ensures State() == Step(old(State()), deviceCharacteristics, Frame(deviceConnected, devices, trigger))
      ensures visualUpdated <==> old(targetDevice).Some? && deviceConnected && isLaserActive
    {
      if !(targetDevice.Some? && deviceConnected) {
        GetInputDevice(devices);
        return false;
      }
      HandleTriggerInput(trigger);
      visualUpdated := isLaserActive;
    }

    /** Keeps the first listed device having every required characteristic; keeps the old one if none has. */
    method GetInputDevice(devices: seq<InputDevice>)
      modifies this`targetDevice
      ensures targetDevice == SelectDevice(devices, deviceCharacteristics, old(targetDevice))
    {
      var i := 0;
      while i < |devices|
        invariant 0 <= i <= |devices|
        invariant forall j :: 0 <= j < i ==> !Matches(devices[j], deviceCharacteristics)
        invariant targetDevice == old(targetDevice)
      {
        if HasFlag(devices[i].characteristics, deviceCharacteristics) {
          targetDevice := Some(devices[i]);
          FirstMatchUnique(devices, deviceCharacteristics, i);
          break;
        }
        i := i + 1;
      }
    }

    /** Polls the trigger and toggles the laser on a rising edge. */
    method HandleTriggerInput(trigger: Option<bool>)
      requires Valid()
      modifies this, lineRenderer, rayInteractor
      ensures Valid()
      ensures State() == HandleTrigger(old(State()), trigger)
    {
      if trigger.Some? {
        var triggerValue := trigger.value;
        if triggerValue && !previousTriggerState {
          ToggleLaser();
        }
        previousTriggerState := triggerValue;
      }
    }

    method ToggleLaser()
      requires lineRenderer != rayInteractor
      modifies this, lineRenderer, rayInteractor
      ensures Valid()
      ensures State() == Toggle(old(State()))
    {
      isLaserActive := !isLaserActive;
      lineRenderer.enabled := isLaserActive;
      if rayInteractor != null {
        rayInteractor.enabled := isLaserActive;
      }
    }

    method EnableLaser()
      requires lineRenderer != rayInteractor
      modifies this, lineRenderer, rayInteractor
      ensures Valid()
      ensures State() == Enable(old(State()))
    {
      isLaserActive := true;
      lineRenderer.enabled := true;
      if rayInteractor != null {
        rayInteractor.enabled := true;
      }
    }

    method DisableLaser()
      requires lineRenderer != rayInteractor
      modifies this, lineRenderer, rayInteractor
      ensures Valid()
      ensures State() == Disable(old(State()))
    {
      isLaserActive := false;
      lineRenderer.enabled := false;
      if rayInteractor != null {
        rayInteractor.enabled := false;
      }
    }

    /** Whether the laser is on; by the invariant, also whether the line is drawn. */
    function IsLaserActive(): (r: bool)
      reads this, lineRenderer
      requires Valid()
      ensures r == lineRenderer.enabled
    {
      isLaserActive
    }
  }
}
