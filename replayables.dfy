/** ReplayableObject and its unlock-trigger variant (second level): world
    objects that remember their state at `Awake` and return to it when the
    room is reset. */
module Replayables {
  import opened Engine
  import opened Doors

  /** What `Awake` remembers: position, rotation and the active flag. */
  datatype Snapshot = Snapshot(originalPosition: Vec3, originalRotation: Quat, wasActiveInitially: bool)

  function Capture(o: GameObj): (s: Snapshot)
  {
    Snapshot(o.pose.position, o.pose.rotation, o.active)
  }

  /** The object as `ResetToInitialState` leaves it. */
  function Restored(s: Snapshot): (o: GameObj)
    ensures Capture(o) == s
  {
    GameObj(Pose(s.originalPosition, s.originalRotation), s.wasActiveInitially)
  }

  /** Capturing and restoring gives back the object exactly, whatever
      happened to it in between. */
  lemma RestoreCaptured(initial: GameObj)
    ensures Restored(Capture(initial)) == initial
  {
  }

  /** The default ghost interaction: the object is deactivated (picked up);
      its transform is left alone. */
  function Interacted(o: GameObj): (r: GameObj)
    ensures r.pose == o.pose && !r.active
  {
    o.(active := false)
  }

  class ReplayableObject {
    var originalPosition: Vec3
    var originalRotation: Quat
    var wasActiveInitially: bool
    /** The object's current transform and `activeSelf`. */
    var obj: GameObj

    function Saved(): Snapshot
      reads this
    {
      Snapshot(originalPosition, originalRotation, wasActiveInitially)
    }

    /** `Awake`: the object as placed in the scene, and its snapshot. */
    constructor (placed: GameObj)
      ensures obj == placed && Saved() == Capture(placed)
    {
      obj := placed;
      originalPosition := placed.pose.position;
      originalRotation := placed.pose.rotation;
      wasActiveInitially := placed.active;
    }

    method ResetToInitialState()
      modifies this`obj
      ensures obj == Restored(Saved())
    {
      obj := GameObj(Pose(originalPosition, originalRotation), wasActiveInitially);
    }

    method OnGhostInteraction()
      modifies this`obj
      ensures obj == Interacted(old(obj))
    {
      obj := obj.(active := false);
    }
  }

  /** Whether a trigger entry unlocks: not yet unlocked, entered by the
      ghost, a phase manager present, and recording or playback running. */
  predicate GhostUnlockFires(unlocked: bool, other: Tag, hasPhaseManager: bool,
                             recordingActive: bool, playbackActive: bool)
  {
    !unlocked && other == Ghost && hasPhaseManager && (recordingActive || playbackActive)
  }

  /** One trigger entry seen as a value: the unlocked flag, the door and the
      trigger object after it. */
  datatype GhostTrigger = GhostTrigger(unlocked: bool, door: DoorCollider, obj: GameObj)

  function GhostEnter(s: GhostTrigger, other: Tag, hasPhaseManager: bool,
                      recordingActive: bool, playbackActive: bool): (r: GhostTrigger)
    ensures GhostUnlockFires(s.unlocked, other, hasPhaseManager, recordingActive, playbackActive) ==>
      r.unlocked && r.door == Unlocked(s.door) && r.obj == Interacted(s.obj)
    ensures !GhostUnlockFires(s.unlocked, other, hasPhaseManager, recordingActive, playbackActive) ==> r == s
  {
    if GhostUnlockFires(s.unlocked, other, hasPhaseManager, recordingActive, playbackActive)
    then GhostTrigger(true, Unlocked(s.door), Interacted(s.obj))
    else s
  }

  /** One trigger event with the phase manager's answers at that moment. */
  datatype Entry = Entry(other: Tag, recordingActive: bool, playbackActive: bool)

  function GhostEnterAll(s: GhostTrigger, hasPhaseManager: bool, entries: seq<Entry>): GhostTrigger
    decreases |entries|
  {
    if entries == [] then s
    else
      var e := entries[|entries| - 1];
      GhostEnter(GhostEnterAll(s, hasPhaseManager, entries[..|entries| - 1]),
                 e.other, hasPhaseManager, e.recordingActive, e.playbackActive)
  }

  /** How many entries of the run found the trigger ready to fire. */
  function GhostFireCount(s: GhostTrigger, hasPhaseManager: bool, entries: seq<Entry>): nat
    decreases |entries|
  {
    if entries == [] then 0
    else
      var before := GhostEnterAll(s, hasPhaseManager, entries[..|entries| - 1]);
      var e := entries[|entries| - 1];
      GhostFireCount(s, hasPhaseManager, entries[..|entries| - 1]) +
        if GhostUnlockFires(before.unlocked, e.other, hasPhaseManager, e.recordingActive, e.playbackActive) then 1 else 0
  }

  /** Whether the ghost entered while a phase was running. */
  predicate GhostDuringPhase(e: Entry)
  {
    e.other == Ghost && (e.recordingActive || e.playbackActive)
  }

  /** Between two resets the door is unlocked at most once: the trigger fires
      at most once, and exactly once iff a phase manager is present and the
      ghost entered while a phase was running. After the run the door is
      either untouched or unlocked, and the trigger is unlocked exactly when
      it fired. */
  lemma {:induction false} GhostUnlocksAtMostOnce(s: GhostTrigger, hasPhaseManager: bool, entries: seq<Entry>)
    requires !s.unlocked
    ensures GhostFireCount(s, hasPhaseManager, entries) <= 1
    ensures GhostFireCount(s, hasPhaseManager, entries) == 1 <==>
      hasPhaseManager && exists i :: 0 <= i < |entries| && GhostDuringPhase(entries[i])
    ensures var r := GhostEnterAll(s, hasPhaseManager, entries);
      (r.unlocked <==> GhostFireCount(s, hasPhaseManager, entries) == 1) &&
      ((!r.unlocked && r == s) ||
       (r.unlocked && r.door == Unlocked(s.door) && r.obj == Interacted(s.obj)))
    decreases |entries|
  {
    if entries != [] {
      var init := entries[..|entries| - 1];
      GhostUnlocksAtMostOnce(s, hasPhaseManager, init);
      var e := entries[|entries| - 1];
      assert (exists i :: 0 <= i < |entries| && GhostDuringPhase(entries[i])) <==>
             (exists i :: 0 <= i < |init| && GhostDuringPhase(init[i])) || GhostDuringPhase(e) by {
        if exists i :: 0 <= i < |entries| && GhostDuringPhase(entries[i]) {
          var i :| 0 <= i < |entries| && GhostDuringPhase(entries[i]);
          if i < |init| {
            assert init[i] == entries[i];
          }
        }
        if exists i :: 0 <= i < |init| && GhostDuringPhase(init[i]) {
          var i :| 0 <= i < |init| && GhostDuringPhase(init[i]);
          assert entries[i] == init[i];
        }
      }
    }
  }

  /** The second level's UnlockDoor: a replayable object (held as `base`,
      standing for the class it derives from) that unlocks its door when
      the ghost touches it while a phase is running. The phase manager's
      presence and its two queries are inputs here. */
  class ReplayableUnlockDoor {
    const base: ReplayableObject
    const door: Door
    const hasPhaseManager: bool
    var unlocked: bool

    constructor (base: ReplayableObject, door: Door, hasPhaseManager: bool)
      ensures this.base == base && this.door == door && this.hasPhaseManager == hasPhaseManager
      ensures !unlocked
    {
      this.base := base;
      this.door := door;
      this.hasPhaseManager := hasPhaseManager;
      unlocked := false;
    }

    function State(): GhostTrigger
      reads this, base, door
    {
      GhostTrigger(unlocked, door.doorCollider, base.obj)
    }

    method OnTriggerEnter(other: Tag, recordingActive: bool, playbackActive: bool)
      modifies this, base, door
      ensures State() == GhostEnter(old(State()), other, hasPhaseManager, recordingActive, playbackActive)
      ensures base.Saved() == old(base.Saved())
    {
      if unlocked {
        return;
      }
      if other != Ghost {
        return;
      }
      if !hasPhaseManager {
        return;
      }
      if !recordingActive && !playbackActive {
        return;
      }
      door.Unlock();
      unlocked := true;
      OnGhostInteraction();
    }

    /** Restores the base snapshot and clears the unlocked flag; the door
      itself is not relocked here. */
    method ResetToInitialState()
      modifies this, base
      ensures base.obj == Restored(base.Saved()) && base.Saved() == old(base.Saved())
      ensures !unlocked
    {
      base.ResetToInitialState();
      unlocked := false;
    }

    method OnGhostInteraction()
      modifies base
      ensures base.obj == Interacted(old(base.obj)) && base.Saved() == old(base.Saved())
    {
      base.OnGhostInteraction();
    }
  }
}
