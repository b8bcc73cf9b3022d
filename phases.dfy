/** GamePhaseManager: the ghost phase (recording the ghost for the room's
    phase duration) and the switch to the player phase (the ghost replays
    its recording while the player is live at the stored spawn point). */
module Phases {
  import opened Engine
  import opened Recording
  import opened Playback
  import opened Countdown

  /** The position both instances are created at when nothing else is given. */
  const DefaultSpawn: Vec3 := Vec3(0.0, 1.0, 0.0)

  /** A room as the manager reads it: an optional ghost spawn location and
      the ghost phase's duration. */
  datatype Room = Room(ghostSpawnLocation: Option<Vec3>, ghostPhaseDuration: real)

  /** What the camera follows. */
  datatype CameraTarget = FollowGhost | FollowPlayer

  /** The phase control fields. */
  datatype PhaseClock = PhaseClock(isGhostPhase: bool, recordingActive: bool, phaseTimer: real)

  /** The field initialisers: ghost phase, nothing recording, timer at 0. */
  const InitialClock: PhaseClock := PhaseClock(true, false, 0.0)

  /** What one `Update` did. `SwitchFailed` is the switch throwing on the
      missing recorder (after an earlier switch destroyed it, or when the
      ghost has none): the tick ends early and the phase stays as it was. */
  datatype TickOutcome = Waiting | CountedDown | Switched | SwitchFailed

  /** `BeginRecording`'s effect on the phase fields. */
  function Begun(p: PhaseClock, duration: real): (r: PhaseClock)
    ensures r.isGhostPhase && r.recordingActive && r.phaseTimer == duration
  {
    PhaseClock(true, true, duration)
  }

  /** One `Update` with frame time `dt`; `hasRecorder` says whether the ghost
      still carries its recorder. */
  function PhaseTick(p: PhaseClock, dt: real, hasRecorder: bool): (r: (PhaseClock, TickOutcome))
    ensures !(p.isGhostPhase && p.recordingActive) <==> r.1 == Waiting
    ensures r.1 == Waiting ==> r.0 == p
    ensures r.1 != Waiting ==> r.0.phaseTimer == p.phaseTimer - dt && r.0.recordingActive
    ensures r.1 == Switched <==>
      p.isGhostPhase && p.recordingActive && p.phaseTimer - dt <= 0.0 && hasRecorder
    ensures r.1 == SwitchFailed <==>
      p.isGhostPhase && p.recordingActive && p.phaseTimer - dt <= 0.0 && !hasRecorder
    ensures r.1 == Switched ==> !r.0.isGhostPhase
    ensures r.1 != Switched ==> r.0.isGhostPhase == p.isGhostPhase
  {
    if p.isGhostPhase && p.recordingActive then
      var t := p.phaseTimer - dt;
      if t > 0.0 then (p.(phaseTimer := t), CountedDown)
      else if hasRecorder then (p.(phaseTimer := t, isGhostPhase := false), Switched)
      else (p.(phaseTimer := t), SwitchFailed)
    else (p, Waiting)
  }

  /** The phase fields after one `Update` per entry of `dts`. */
  function PhaseRun(p: PhaseClock, dts: seq<real>, hasRecorder: bool): PhaseClock
    decreases |dts|
  {
    if dts == [] then p
    else PhaseTick(PhaseRun(p, dts[..|dts| - 1], hasRecorder), dts[|dts| - 1], hasRecorder).0
  }

  /** How many `Update`s of the run completed the switch. */
  function SwitchCount(p: PhaseClock, dts: seq<real>, hasRecorder: bool): nat
    decreases |dts|
  {
    if dts == [] then 0
    else
      var before := PhaseRun(p, dts[..|dts| - 1], hasRecorder);
      SwitchCount(p, dts[..|dts| - 1], hasRecorder) +
        if PhaseTick(before, dts[|dts| - 1], hasRecorder).1 == Switched then 1 else 0
  }

  function Sum(dts: seq<real>): real
    decreases |dts|
  {
    if dts == [] then 0.0 else Sum(dts[..|dts| - 1]) + dts[|dts| - 1]
  }

  /** Frame times reported by the engine are never negative. */
  predicate FrameTimes(dts: seq<real>)
  {
    forall i :: 0 <= i < |dts| ==> dts[i] >= 0.0
  }

  /** Until recording has begun, `Update` changes nothing and never switches. */
  lemma {:induction false} IdleUntilRecording(p: PhaseClock, dts: seq<real>, hasRecorder: bool)
    requires !p.recordingActive
    ensures PhaseRun(p, dts, hasRecorder) == p
    ensures SwitchCount(p, dts, hasRecorder) == 0
    decreases |dts|
  {
    if dts != [] {
      IdleUntilRecording(p, dts[..|dts| - 1], hasRecorder);
    }
  }

  /** After the switch, later `Update`s change nothing. */
  lemma {:induction false} QuietAfterSwitch(p: PhaseClock, dts: seq<real>, hasRecorder: bool)
    requires !p.isGhostPhase
    ensures PhaseRun(p, dts, hasRecorder) == p
    ensures SwitchCount(p, dts, hasRecorder) == 0
    decreases |dts|
  {
    if dts != [] {
      QuietAfterSwitch(p, dts[..|dts| - 1], hasRecorder);
    }
  }

  /** However many `Update`s follow, the switch happens at most once. */
  lemma {:induction false} SwitchesAtMostOnce(p: PhaseClock, dts: seq<real>, hasRecorder: bool)
    ensures SwitchCount(p, dts, hasRecorder) <= 1
    ensures SwitchCount(p, dts, hasRecorder) == 1 ==> !PhaseRun(p, dts, hasRecorder).isGhostPhase
    ensures PhaseRun(p, dts, hasRecorder).isGhostPhase ==> SwitchCount(p, dts, hasRecorder) == 0
    decreases |dts|
  {
    if dts != [] {
      SwitchesAtMostOnce(p, dts[..|dts| - 1], hasRecorder);
    }
  }

  /** While the elapsed time is below the duration, recording goes on and the
      phase timer is the duration less the time elapsed. */
  lemma {:induction false} CountsDownWhileTimeLeft(p: PhaseClock, duration: real, dts: seq<real>, hasRecorder: bool)
    requires FrameTimes(dts) && duration - Sum(dts) > 0.0
    ensures PhaseRun(Begun(p, duration), dts, hasRecorder) == PhaseClock(true, true, duration - Sum(dts))
    ensures SwitchCount(Begun(p, duration), dts, hasRecorder) == 0
    decreases |dts|
  {
    if dts != [] {
      var n := |dts| - 1;
      assert FrameTimes(dts[..n]) by {
        forall i | 0 <= i < n ensures dts[..n][i] >= 0.0 {
          assert dts[..n][i] == dts[i];
        }
      }
      assert dts[n] >= 0.0;
      CountsDownWhileTimeLeft(p, duration, dts[..n], hasRecorder);
    }
  }

  /** The `Update` whose frame time uses up the duration is the one that
      switches, and it is the only one. */
  lemma SwitchesWhenTimeRunsOut(p: PhaseClock, duration: real, dts: seq<real>, dt: real)
    requires FrameTimes(dts) && duration - Sum(dts) > 0.0 && duration - Sum(dts) - dt <= 0.0
    ensures !PhaseRun(Begun(p, duration), dts + [dt], true).isGhostPhase
    ensures SwitchCount(Begun(p, duration), dts + [dt], true) == 1
  {
    CountsDownWhileTimeLeft(p, duration, dts, true);
    assert (dts + [dt])[..|dts|] == dts;
  }

  /** The manager component. The ghost instance's own transform is driven
      by physics while recording and by the playback component afterwards,
      so its pose enters as a parameter; its rigidbody, controller and
      collisions are the three flags the switch sets. */
  class GamePhaseManager {
    var isGhostPhase: bool
    var phaseTimer: real
    var recordingActive: bool
    var playerSpawnPoint: Vec3
    const room: Room
    /** The room's countdown timer, if it has one. */
    const roomTimer: CountdownTimer?
    /** Where the ghost instance was created. */
    const ghostSpawnPosition: Vec3
    var player: GameObj
    var cameraTarget: CameraTarget
    /** The ghost's recorder, until the switch destroys it. */
    var recorder: PlayerRecorder?
    /** The ghost's playback, once the switch has added it. */
    var playback: GhostPlayback?
    var ghostFrozen: bool
    var ghostControllable: bool
    var collisionsIgnored: bool

    function Clock(): PhaseClock
      reads this
    {
      PhaseClock(isGhostPhase, recordingActive, phaseTimer)
    }

    /** Field initialisers and `Start`: the player is created inactive at the
        default spawn, the ghost at the room's ghost spawn (or the default),
        its recorder (if the ghost has one) is disabled and the camera follows
        the ghost. */
    constructor (room: Room, roomTimer: CountdownTimer?, ghostHasRecorder: bool)
      ensures Clock() == InitialClock && playerSpawnPoint == Vec3(0.0, 0.0, 0.0)
      ensures this.room == room && this.roomTimer == roomTimer
      ensures ghostSpawnPosition == (if room.ghostSpawnLocation.Some? then room.ghostSpawnLocation.value else DefaultSpawn)
      ensures player == GameObj(Pose(DefaultSpawn, IdentityRotation), false)
      ensures cameraTarget == FollowGhost
      ensures (recorder != null) == ghostHasRecorder
      ensures recorder != null ==> fresh(recorder) && recorder.recordedFrames == [] && !recorder.enabled
      ensures playback == null
      ensures !ghostFrozen && ghostControllable && !collisionsIgnored
    {
      isGhostPhase := true;
      phaseTimer := 0.0;
      recordingActive := false;
      playerSpawnPoint := Vec3(0.0, 0.0, 0.0);
      this.room := room;
      this.roomTimer := roomTimer;
      ghostSpawnPosition := if room.ghostSpawnLocation.Some? then room.ghostSpawnLocation.value else DefaultSpawn;
      player := GameObj(Pose(DefaultSpawn, IdentityRotation), false);
      cameraTarget := FollowGhost;
      playback := null;
      ghostFrozen := false;
      ghostControllable := true;
      collisionsIgnored := false;
      var r: PlayerRecorder? := null;
      if ghostHasRecorder {
        r := new PlayerRecorder();
        r.enabled := false;
      }
      recorder := r;
    }

    method SetPlayerSpawnPoint(pos: Vec3)
      modifies this`playerSpawnPoint
      ensures playerSpawnPoint == pos
    {
      playerSpawnPoint := pos;
    }

    /** One tick. On the tick that switches, the playback is handed a copy
        of the recording made so far and the player appears at the stored
        spawn point. */
    method Update(dt: real, ghostPose: Pose) returns (outcome: TickOutcome)
      modifies this
      ensures (Clock(), outcome) == PhaseTick(old(Clock()), dt, old(recorder) != null)
      ensures playerSpawnPoint == old(playerSpawnPoint)
      ensures outcome == Switched ==>
        recorder == null &&
        playback != null && fresh(playback) &&
        playback.State() == Replay(Some(old(recorder.recordedFrames)), 0, ghostPose) &&
        player == GameObj(Pose(old(playerSpawnPoint), old(player.pose.rotation)), true) &&
        cameraTarget == FollowPlayer &&
        ghostFrozen && !ghostControllable && collisionsIgnored
      ensures outcome == SwitchFailed ==>
        ghostFrozen && recorder == old(recorder) && playback == old(playback) && player == old(player) &&
        cameraTarget == old(cameraTarget) && ghostControllable == old(ghostControllable) &&
        collisionsIgnored == old(collisionsIgnored)
      ensures outcome == Waiting || outcome == CountedDown ==>
        recorder == old(recorder) && playback == old(playback) && player == old(player) &&
        cameraTarget == old(cameraTarget) && ghostFrozen == old(ghostFrozen) &&
        ghostControllable == old(ghostControllable) && collisionsIgnored == old(collisionsIgnored)
    {
      outcome := Waiting;
      if isGhostPhase && recordingActive {
        phaseTimer := phaseTimer - dt;
        outcome := CountedDown;
        if phaseTimer <= 0.0 {
          var ok := SwitchPhase(ghostPose);
          outcome := if ok then Switched else SwitchFailed;
        }
      }
    }

    /** Arms recording: ghost phase, timer at the room's duration, the room's
        countdown started with it and the recorder enabled. The recording
        already made is not cleared. */
    method BeginRecording()
      modifies this, roomTimer, recorder
      ensures Clock() == Begun(old(Clock()), room.ghostPhaseDuration)
      ensures roomTimer != null ==> roomTimer.State() == Started(old(roomTimer.State()), room.ghostPhaseDuration)
      ensures recorder == old(recorder)
      ensures recorder != null ==> recorder.enabled && recorder.recordedFrames == old(recorder.recordedFrames)
      ensures playerSpawnPoint == old(playerSpawnPoint) && player == old(player) && playback == old(playback)
      ensures cameraTarget == old(cameraTarget) && ghostFrozen == old(ghostFrozen)
      ensures ghostControllable == old(ghostControllable) && collisionsIgnored == old(collisionsIgnored)
    {
      recordingActive := true;
      isGhostPhase := true;
      phaseTimer := room.ghostPhaseDuration;
      if roomTimer != null {
        roomTimer.StartTimer(phaseTimer);
      }
      if recorder != null {
        recorder.enabled := true;
      }
    }

    /** The switch. In the ghost phase: stop the ghost's rigidbody, copy the
        recording, destroy the recorder, start playback of the copy, take the
        ghost's controls away, stop ghost and player colliding, activate the
        player at the spawn point and follow it with the camera. In every case
        the ghost phase ends, unless the recorder is missing, where copying
        the recording throws (`ok` false) and the rest is skipped. */
    method SwitchPhase(ghostPose: Pose) returns (ok: bool)
      modifies this
      ensures ok <==> !old(isGhostPhase) || old(recorder) != null
      ensures ok ==> !isGhostPhase
      ensures !ok ==> isGhostPhase == old(isGhostPhase)
      ensures phaseTimer == old(phaseTimer) && recordingActive == old(recordingActive)
      ensures playerSpawnPoint == old(playerSpawnPoint)
      ensures !old(isGhostPhase) ==>
        recorder == old(recorder) && playback == old(playback) && player == old(player) &&
        cameraTarget == old(cameraTarget) && ghostFrozen == old(ghostFrozen) &&
        ghostControllable == old(ghostControllable) && collisionsIgnored == old(collisionsIgnored)
      ensures old(isGhostPhase) && ok ==>
        recorder == null &&
        playback != null && fresh(playback) &&
        playback.State() == Replay(Some(old(recorder.recordedFrames)), 0, ghostPose) &&
        player == GameObj(Pose(old(playerSpawnPoint), old(player.pose.rotation)), true) &&
        cameraTarget == FollowPlayer &&
        ghostFrozen && !ghostControllable && collisionsIgnored
      ensures old(isGhostPhase) && !ok ==>
        ghostFrozen && recorder == old(recorder) && playback == old(playback) && player == old(player) &&
        cameraTarget == old(cameraTarget) && ghostControllable == old(ghostControllable) &&
        collisionsIgnored == old(collisionsIgnored)
    {
      if isGhostPhase {
        ghostFrozen := true;
        if recorder == null {
          return false;
        }
        var savedFrames := recorder.recordedFrames;
        recorder := null;
        var pb := new GhostPlayback(ghostPose);
        pb.Init(savedFrames);
        playback := pb;
        ghostControllable := false;
        collisionsIgnored := true;
        player := GameObj(Pose(playerSpawnPoint, player.pose.rotation), true);
        cameraTarget := FollowPlayer;
      }
      isGhostPhase := false;
      ok := true;
    }
  }

  /** The recording handed to playback is a copy: ticking the old recorder
      afterwards leaves the playback's frames as they were. */
  method CopyIsIndependent(room: Room, sample: Pose, ghostPose: Pose)
  {
    var m := new GamePhaseManager(room, null, true);
    var rec := m.recorder;
    m.BeginRecording();
    rec.Update(sample);
    var outcome := m.Update(room.ghostPhaseDuration, ghostPose);
    assert outcome == Switched;
    var pb := m.playback;
    var copied := pb.frames;
    assert copied == Some([Sample(sample)]);
    rec.Update(sample);
    assert pb.frames == copied;
  }
}
