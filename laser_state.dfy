/**
 * The laser pointer's on/off state machine, as values.
 *
 * A Snapshot is everything the component's per-frame logic reads or writes:
 * the active flag, the trigger reading of the previous successful poll, the
 * `enabled` flag of the line renderer, the `enabled` flag of the ray
 * interactor (None when the game object has no interactor) and the device
 * the component polls (None while no device has been found). The functions
 * here are the specification the component's methods are proved against.
 */
module LaserState {
  import opened Wrappers
  import opened DeviceSelection

  datatype Snapshot = Snapshot(
    active: bool,
    previousTrigger: bool,
    rendererEnabled: bool,
    interactor: Option<bool>,
    target: Option<InputDevice>)

  /** One frame's worth of engine input: is the held device still connected,
      which devices the XR node lists, and the trigger poll (None: the read failed). */
  datatype Frame = Frame(connected: bool, devices: seq<InputDevice>, trigger: Option<bool>)

  /** The line is drawn exactly when the laser is active. */
  predicate RendererSynced(s: Snapshot)
  {
    s.rendererEnabled == s.active
  }

  /** The interactor, when there is one, is enabled exactly when the laser is active. */
  predicate InteractorSynced(s: Snapshot)
  {
    s.interactor.Some? ==> s.interactor.value == s.active
  }

  predicate Synced(s: Snapshot)
  {
    RendererSynced(s) && InteractorSynced(s)
  }

  /** Writing `enabled` through a reference that may be null. */
  function SetEnabled(component: Option<bool>, enabled: bool): Option<bool>
  {
    match component
    case None => None
    case Some(_) => Some(enabled)
  }

  /** Only the laser part (active flag and the two enabled flags) may differ. */
  predicate SameInputState(s: Snapshot, t: Snapshot)
  {
    t.previousTrigger == s.previousTrigger && t.target == s.target &&
    t.interactor.Some? == s.interactor.Some?
  }

  /**
   * State right after the component starts: the field initialisers leave the
   * laser off and the trigger released, initialisation disables the renderer
   * and looks up the interactor (whose flag it does not touch), and a first
   * device search runs.
   */
  function Initial(interactor: Option<bool>, required: bv32, devices: seq<InputDevice>): (r: Snapshot)
    ensures !r.active && !r.previousTrigger && !r.rendererEnabled
    ensures RendererSynced(r)
    ensures r.interactor == interactor
    ensures r.target == SelectDevice(devices, required, None)
  {
    Snapshot(false, false, false, interactor, SelectDevice(devices, required, None))
  }

  /** ToggleLaser: flip the active flag and make both components follow it. */
  function Toggle(s: Snapshot): (r: Snapshot)
    ensures r.active == !s.active
    ensures Synced(r)
    ensures SameInputState(s, r)
  {
    var on := !s.active;
    s.(active := on, rendererEnabled := on, interactor := SetEnabled(s.interactor, on))
  }

  /** EnableLaser: laser, renderer and interactor all on, whatever they were. */
  function Enable(s: Snapshot): (r: Snapshot)
    ensures r.active && r.rendererEnabled && (r.interactor.Some? ==> r.interactor.value)
    ensures SameInputState(s, r)
  {
    s.(active := true, rendererEnabled := true, interactor := SetEnabled(s.interactor, true))
  }

  /** DisableLaser: laser, renderer and interactor all off, whatever they were. */
  function Disable(s: Snapshot): (r: Snapshot)
    ensures !r.active && !r.rendererEnabled && (r.interactor.Some? ==> !r.interactor.value)
    ensures SameInputState(s, r)
  {
    s.(active := false, rendererEnabled := false, interactor := SetEnabled(s.interactor, false))
  }

  /**
   * HandleTriggerInput for one poll of the trigger button. A failed read
   * changes nothing; a successful one toggles the laser on a rising edge
   * (pressed now, released at the previous successful read) and remembers
   * the value read.
   */
  function HandleTrigger(s: Snapshot, reading: Option<bool>): (r: Snapshot)
    ensures reading.None? ==> r == s
    ensures reading.Some? ==> r.previousTrigger == reading.value
    ensures r.active != s.active <==> reading == Some(true) && !s.previousTrigger
    ensures r.target == s.target && r.interactor.Some? == s.interactor.Some?
    ensures r.active == s.active ==> r.rendererEnabled == s.rendererEnabled && r.interactor == s.interactor
    ensures r.active != s.active ==> Synced(r)
    ensures RendererSynced(s) ==> RendererSynced(r)
    ensures Synced(s) ==> Synced(r)
  {
    match reading
    case None => s
    case Some(pressed) =>
      var t := if pressed && !s.previousTrigger then Toggle(s) else s;
      t.(previousTrigger := pressed)
  }

  /** The held device counts as valid only once one was found and while it stays connected. */
  predicate DeviceValid(s: Snapshot, connected: bool)
  {
    s.target.Some? && connected
  }

  /**
   * Update for one frame: with no valid device, only search for one;
   * otherwise poll the trigger.
   */
  function Step(s: Snapshot, required: bv32, f: Frame): (r: Snapshot)
    ensures !DeviceValid(s, f.connected) ==>
              r == s.(target := SelectDevice(f.devices, required, s.target))
    ensures DeviceValid(s, f.connected) ==> r == HandleTrigger(s, f.trigger)
    ensures r.active == s.active || DeviceValid(s, f.connected)
    ensures RendererSynced(s) ==> RendererSynced(r)
    ensures Synced(s) ==> Synced(r)
  {
    if !DeviceValid(s, f.connected) then
      s.(target := SelectDevice(f.devices, required, s.target))
    else
      HandleTrigger(s, f.trigger)
  }

  /** The state after a sequence of frames. */
  function Run(s: Snapshot, required: bv32, frames: seq<Frame>): Snapshot
    decreases |frames|
  {
    if frames == [] then s else Run(Step(s, required, frames[0]), required, frames[1..])
  }

  /** The state after a sequence of trigger polls with a valid device. */
  function Feed(s: Snapshot, readings: seq<Option<bool>>): Snapshot
    decreases |readings|
  {
    if readings == [] then s else Feed(HandleTrigger(s, readings[0]), readings[1..])
  }

  function Readings(frames: seq<Frame>): seq<Option<bool>>
    decreases |frames|
  {
    if frames == [] then [] else [frames[0].trigger] + Readings(frames[1..])
  }

  /** Reference count of rising edges in a sequence of polls; failed polls are skipped. */
  function RisingEdges(previous: bool, readings: seq<Option<bool>>): nat
    decreases |readings|
  {
    if readings == [] then 0
    else match readings[0]
      case None => RisingEdges(previous, readings[1..])
      case Some(pressed) => (if pressed && !previous then 1 else 0) + RisingEdges(pressed, readings[1..])
  }

  /** The last successful poll, or `previous` when every poll failed. */
  function LastReading(previous: bool, readings: seq<Option<bool>>): bool
    decreases |readings|
  {
    if readings == [] then previous
    else match readings[0]
      case None => LastReading(previous, readings[1..])
      case Some(pressed) => LastReading(pressed, readings[1..])
  }

  // ---------------------------------------------------------------------
  // Properties of single operations

  /** Toggling twice restores a synchronised state. */
  lemma ToggleTwice(s: Snapshot)
    requires Synced(s)
    ensures Toggle(Toggle(s)) == s
  {
  }

  /** Toggling twice from a state whose interactor is out of step does not restore it. */
  lemma ToggleTwiceSynchronises(s: Snapshot)
    requires !InteractorSynced(s)
    ensures Toggle(Toggle(s)) != s
  {
  }

  lemma EnableIdempotent(s: Snapshot)
    ensures Enable(Enable(s)) == Enable(s)
  {
  }

  lemma DisableIdempotent(s: Snapshot)
    ensures Disable(Disable(s)) == Disable(s)
  {
  }

  /** Forced on and forced off depend only on the input state, not on the laser's prior state. */
  lemma ForcedStateIgnoresPrior(s: Snapshot, t: Snapshot)
    requires SameInputState(s, t)
    ensures Enable(s) == Enable(t) && Disable(s) == Disable(t)
  {
  }

  /** A toggle after a forced state lands on the opposite forced state. */
  lemma ToggleAfterForced(s: Snapshot)
    ensures Toggle(Enable(s)) == Disable(s)
    ensures Toggle(Disable(s)) == Enable(s)
  {
  }

  /** The interactor's flag is not touched at start-up, so it can be on while the laser is off. */
  lemma InitialInteractorMayBeOn(required: bv32, devices: seq<InputDevice>)
    ensures !InteractorSynced(Initial(Some(true), required, devices))
    ensures Synced(Toggle(Initial(Some(true), required, devices)))
  {
  }

  // ---------------------------------------------------------------------
  // Properties of runs

  /** Every reachable state draws the line exactly when the laser is active. */
  lemma {:induction false} RunKeepsRendererSynced(s: Snapshot, required: bv32, frames: seq<Frame>)
    requires RendererSynced(s)
    ensures RendererSynced(Run(s, required, frames))
    decreases |frames|
  {
    if frames != [] {
      RunKeepsRendererSynced(Step(s, required, frames[0]), required, frames[1..]);
    }
  }

  /** Once the interactor follows the laser, it keeps following it. */
  lemma {:induction false} RunKeepsSynced(s: Snapshot, required: bv32, frames: seq<Frame>)
    requires Synced(s)
    ensures Synced(Run(s, required, frames))
    decreases |frames|
  {
    if frames != [] {
      RunKeepsSynced(Step(s, required, frames[0]), required, frames[1..]);
    }
  }

  /** Every state reached from start-up by frames draws the line exactly when the laser is active. */
  lemma ReachableRendererSynced(interactor: Option<bool>, required: bv32, devices: seq<InputDevice>, frames: seq<Frame>)
    ensures RendererSynced(Run(Initial(interactor, required, devices), required, frames))
  {
    RunKeepsRendererSynced(Initial(interactor, required, devices), required, frames);
  }

  /** Frames without a valid device change the held device at most, never the laser. */
  lemma {:induction false} DisconnectedRunKeepsLaser(s: Snapshot, required: bv32, frames: seq<Frame>)
    requires forall i :: 0 <= i < |frames| ==> !frames[i].connected
    ensures var r := Run(s, required, frames);
      r.active == s.active && r.previousTrigger == s.previousTrigger &&
      r.rendererEnabled == s.rendererEnabled && r.interactor == s.interactor
    decreases |frames|
  {
    if frames != [] {
      DisconnectedRunKeepsLaser(Step(s, required, frames[0]), required, frames[1..]);
    }
  }

  /** While the held device stays connected, a run is the sequence of its trigger polls. */
  lemma {:induction false} ConnectedRunFeedsTrigger(s: Snapshot, required: bv32, frames: seq<Frame>)
    requires s.target.Some?
    requires forall i :: 0 <= i < |frames| ==> frames[i].connected
    ensures Run(s, required, frames) == Feed(s, Readings(frames))
    decreases |frames|
  {
    if frames != [] {
      var t := Step(s, required, frames[0]);
      ConnectedRunFeedsTrigger(t, required, frames[1..]);
      assert Readings(frames)[1..] == Readings(frames[1..]);
    }
  }

  /**
   * Edge-triggered toggling over any sequence of polls: the laser ends up
   * flipped once per rising edge, and the remembered trigger value is the
   * last successful poll.
   */
  lemma {:induction false} FeedTogglesPerRisingEdge(s: Snapshot, readings: seq<Option<bool>>)
    ensures Feed(s, readings).active == (s.active != (RisingEdges(s.previousTrigger, readings) % 2 == 1))
    ensures Feed(s, readings).previousTrigger == LastReading(s.previousTrigger, readings)
    decreases |readings|
  {
    if readings != [] {
      FeedTogglesPerRisingEdge(HandleTrigger(s, readings[0]), readings[1..]);
    }
  }

  /** Holding the trigger (every poll reads pressed or fails) gives at most one rising edge,
      and one exactly when the trigger was released before and some poll succeeds. */
  lemma {:induction false} HeldTriggerHasOneEdge(previous: bool, readings: seq<Option<bool>>)
    requires forall i :: 0 <= i < |readings| ==> readings[i] != Some(false)
    ensures RisingEdges(previous, readings) == if !previous && Some(true) in readings then 1 else 0
    decreases |readings|
  {
    if readings != [] {
      HeldTriggerHasOneEdge(if readings[0] == Some(true) then true else previous, readings[1..]);
      assert Some(true) in readings <==> readings[0] == Some(true) || Some(true) in readings[1..];
    }
  }

  /** Holding the trigger for any number of frames toggles the laser exactly once. */
  lemma HeldTriggerTogglesOnce(s: Snapshot, n: nat)
    requires !s.previousTrigger && n > 0
    ensures Feed(s, seq(n, _ => Some(true))).active == !s.active
    ensures Feed(s, seq(n, _ => Some(true))).previousTrigger
  {
    var held := seq(n, _ => Some(true));
    FeedTogglesPerRisingEdge(s, held);
    HeldTriggerHasOneEdge(s.previousTrigger, held);
    assert held[0] == Some(true);
    HeldLastReading(s.previousTrigger, held);
  }

  lemma {:induction false} HeldLastReading(previous: bool, readings: seq<Option<bool>>)
    requires forall i :: 0 <= i < |readings| ==> readings[i] == Some(true)
    ensures LastReading(previous, readings) == (previous || readings != [])
    decreases |readings|
  {
    if readings != [] {
      HeldLastReading(true, readings[1..]);
    }
  }
}
