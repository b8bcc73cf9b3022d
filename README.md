# TimeGhosts core in Dafny

TimeGhosts is a time-loop puzzle. A ghost player is recorded for a fixed
window (the ghost phase). At the end of that window the recording is replayed
on the ghost while the live player acts beside it (the player phase). This
project models the small, tick-driven state machines behind that mechanic:

- the phase manager: it arms recording, counts the phase timer down and
  switches phase exactly once;
- the recorder's append-only frame log;
- the ghost playback: it walks an index over a frozen copy of the log and
  freezes on the last sample;
- the countdown timer and the whole seconds it displays;
- the two-key synchronisation puzzle: two pickups must land on the same
  remaining second;
- the timer button;
- the doors and unlock triggers;
- the replayable world objects, which snapshot themselves at `Awake` and are
  restored on reset.

Each component is one module, in two layers:

- **A value-level specification.** A state datatype and transition functions
  (`Tick`, `Advance`, `Register`, `PhaseTick`, …), with lemmas about whole runs
  of ticks or events.
- **A class with the source's own fields.** Its methods change those fields in
  place. Each method's postcondition ties the new state to the transition
  function applied to the old state, and also says what the method leaves
  alone.

The client method `Phases.CopyIsIndependent` shows that ticking the old
recorder after the switch leaves the frames the playback received
unchanged. In the model this follows from frame lists being values; the
source gets the same independence from the copy it makes at
Assets/Scripts/GamePhaseManager.cs:100.

Time is a Dafny `real`, with no float rounding. Positions and rotations are
exact records, and a game object is its pose plus its `activeSelf` flag. Tags
are the enumeration `Player | Ghost | Other`.

Modules: `Engine` (shared values and `CeilToInt`), `Recording`, `Playback`,
`Countdown`, `Doors`, `Unlocking` (first level's `UnlockDoor`), `Replayables`
(`ReplayableObject` and the second level's `UnlockDoor`), `SyncPuzzle`
(`DualKey` and `DualKeyDoor`; they refer to each other, so they share a module),
`Phases` (`GamePhaseManager`), `Buttons` (`TimerButton`).

Behaviour of the code worth noting:

- Playback applies no spawn offset. It writes each recorded sample as it is
  (Assets/Scripts/GhostPlayback.cs:21-22). The two-argument `Init` called at
  Assets/Scripts/GamePhaseManager.cs:103 is not defined in the playback
  component, so the one-argument `Init` is modelled.
- `StartTimer` with a non-positive argument (including the default `-1`) uses the
  `duration` field (Assets/Scripts/CountdownTimer.cs:15).
- `BeginRecording` does not clear the recording made so far. The log is only
  empty because the recorder is created empty and stays disabled until then.
- The phase is the pair `isGhostPhase`/`recordingActive`. `recordingActive`
  is never cleared: the switch only clears `isGhostPhase`.
- The switch destroys the recorder. If recording is begun again, the next
  switch dereferences the missing recorder
  (Assets/Scripts/GamePhaseManager.cs:100). The same happens when the ghost
  never had a recorder. The model returns this as the `SwitchFailed` outcome:
  the tick ends there, the ghost is frozen, and the phase does not change.

## Model

| member | source | states |
|---|---|---|
| `Engine.CeilToInt` | Assets/Scripts/CountdownTimer.cs:33 | the result is the least integer not below the argument |
| `Recording.Appended` | Assets/Scripts/PlayerRecorder.cs:24 | one tick adds exactly one sample, of the current position and rotation, and keeps every earlier sample in place |
| `Recording.RecordedRun` | Assets/Scripts/PlayerRecorder.cs:21-25 | n ticks add exactly n samples after the existing log, the i-th being the i-th tick's transform |
| `Recording.FreshRecording` | Assets/Scripts/PlayerRecorder.cs:19-24 | from the empty initial list, after n ticks the log has exactly n frames, equal to the sampled transforms |
| `Recording.RecordingIsAppendOnly` | Assets/Scripts/PlayerRecorder.cs:24 | the log after a run is a prefix of the log after any longer run: frames are never rewritten |
| `Recording.PlayerRecorder.constructor` | Assets/Scripts/PlayerRecorder.cs:19 | a recorder starts with an empty frame list |
| `Recording.PlayerRecorder.Update` | Assets/Scripts/PlayerRecorder.cs:21-25 | the new frame list is the old one with the current transform appended |
| `Playback.Initialised` | Assets/Scripts/GhostPlayback.cs:9-13 | `Init` stores exactly the given frames and resets the index to 0, without moving the ghost |
| `Playback.Advance` | Assets/Scripts/GhostPlayback.cs:15-25 | a tick never changes the frames and keeps the index within the list; while frames remain it writes frame[index] to the transform and advances the index by one; with no, empty or exhausted frames it changes nothing |
| `Playback.ReplaysSampleByTick` | Assets/Scripts/GhostPlayback.cs:18-24 | for 1 <= k <= count, the k-th tick after `Init` leaves the ghost exactly on frame k-1 (no offset) with index k |
| `Playback.IndexNeverOverruns` | Assets/Scripts/GhostPlayback.cs:18-24 | after any k ticks the index is min(k, count) and the frame list is unchanged |
| `Playback.FreezesAtEnd` | Assets/Scripts/GhostPlayback.cs:17-18 | after the log is exhausted the ghost stays on the last frame for ever; with an empty log it never moves |
| `Playback.GhostPlayback.constructor` | Assets/Scripts/GhostPlayback.cs:6-7 | a new playback has a null frame list, index 0, and the ghost's current transform |
| `Playback.GhostPlayback.Init` | Assets/Scripts/GhostPlayback.cs:9-13 | the new state is `Initialised` of the old one |
| `Playback.GhostPlayback.Update` | Assets/Scripts/GhostPlayback.cs:15-25 | the new state is `Advance` of the old one |
| `Countdown.StartTimerWithoutArgument` | Assets/Scripts/CountdownTimer.cs:13-15 | `StartTimer()` with no argument (custom duration -1) runs for the inspector `duration` |
| `Countdown.Started` | Assets/Scripts/CountdownTimer.cs:13-18 | a positive custom duration becomes the remaining time, otherwise `duration` does; the timer is left running and enabled |
| `Countdown.Tick` | Assets/Scripts/CountdownTimer.cs:20-35 | a stopped timer is unchanged; a running tick subtracts dt, keeps running iff the result is positive, and otherwise clamps to exactly 0 and stops (disabling the component); a tick that keeps running leaves `enabled` alone; after a running tick the remaining time is >= 0 and the displayed value is its ceiling, >= 0 |
| `Countdown.StoppedStaysStopped` | Assets/Scripts/CountdownTimer.cs:22 | a stopped timer stays exactly as it is under any ticks until the next start |
| `Countdown.StopsAtMostOnce` | Assets/Scripts/CountdownTimer.cs:22-31 | in any run of ticks the timer stops at most once, and a timer still running has not stopped |
| `Countdown.RemainingNeverNegative` | Assets/Scripts/CountdownTimer.cs:24-33 | once a running timer has ticked, its remaining time and its displayed seconds stay non-negative whatever ticks follow |
| `Countdown.CountdownTimer.constructor` | Assets/Scripts/CountdownTimer.cs:7-10 | a placed timer is not running and has its inspector duration |
| `Countdown.CountdownTimer.StartTimer` | Assets/Scripts/CountdownTimer.cs:13-18 | the new state is `Started` of the old one |
| `Countdown.CountdownTimer.Update` | Assets/Scripts/CountdownTimer.cs:20-35 | the new state is `Tick` of the old one |
| `Doors.Unlocked` | Assets/Scripts/Door.cs:17-23 | an existing collider becomes a trigger (passable); a missing one stays missing |
| `Doors.UnlockIdempotent` | Assets/Scripts/Door.cs:19-21 | unlocking twice is the same as unlocking once |
| `Doors.StartAsWritten` | Assets/Scripts/Door.cs:7-15 | `Start` as written fails with a null dereference exactly when the collider is missing, and otherwise leaves the collider's trigger flag unchanged |
| `Doors.StartAsWrittenLeavesTriggerDoorOpen` | Assets/Scripts/Door.cs:11-13 | a door whose collider was set up as a trigger is still passable after `Start` as written |
| `Doors.Locked` | Assets/Scripts/Door.cs:11-13 | locking as `Start` intends it: an existing collider becomes solid, a missing one stays missing |
| `Doors.StartThenUnlock` | Assets/Scripts/Door.cs:11-21 | a started door is locked, and `Unlock` makes it passable |
| `Doors.Door.constructor` | Assets/Scripts/Door.cs:6 | the door holds the collider it was given |
| `Doors.Door.Start` | Assets/Scripts/Door.cs:7-15 | the collider becomes `Locked` of the old one |
| `Doors.Door.Unlock` | Assets/Scripts/Door.cs:17-23 | the collider becomes `Unlocked` of the old one |
| `Unlocking.Enter` | Assets/Scripts/UnlockDoor.cs:9-21 | an entry fires only for the `Player` tag and only if not yet unlocked; firing unlocks the door, sets `unlocked` and destroys the trigger; otherwise nothing changes |
| `Unlocking.UnlocksAtMostOnce` | Assets/Scripts/UnlockDoor.cs:7-20 | from a fresh trigger, any sequence of entries fires it at most once, and exactly once iff a player entered; the door ends unlocked iff a player entered |
| `Unlocking.UnlockDoor.constructor` | Assets/Scripts/UnlockDoor.cs:5-7 | a new trigger is not unlocked and refers to its door |
| `Unlocking.UnlockDoor.OnTriggerEnter` | Assets/Scripts/UnlockDoor.cs:9-21 | the trigger and door afterwards are `Enter` of the state before |
| `Replayables.Restored` | p2goldspikesubmit/Assets/Scripts/ReplayableObject.cs:22-28 | the restored object has exactly the snapshot's position, rotation and active flag |
| `Replayables.RestoreCaptured` | p2goldspikesubmit/Assets/Scripts/ReplayableObject.cs:9-28 | restoring what `Awake` captured gives back the object exactly |
| `Replayables.Interacted` | p2goldspikesubmit/Assets/Scripts/ReplayableObject.cs:30-34 | a ghost interaction only deactivates the object; its pose is untouched |
| `Replayables.ReplayableObject.constructor` | p2goldspikesubmit/Assets/Scripts/ReplayableObject.cs:9-15 | `Awake` captures position, rotation and the active flag as the snapshot |
| `Replayables.ReplayableObject.ResetToInitialState` | p2goldspikesubmit/Assets/Scripts/ReplayableObject.cs:22-28 | the object becomes `Restored` of the snapshot, whatever its state was, so a second reset changes nothing; the snapshot is not written |
| `Replayables.ReplayableObject.OnGhostInteraction` | p2goldspikesubmit/Assets/Scripts/ReplayableObject.cs:30-34 | the object becomes inactive with its pose unchanged; the snapshot is not written |
| `Replayables.GhostEnter` | p2goldspikesubmit/Assets/Scripts/UnlockDoor.cs:22-44 | an entry fires only if not yet unlocked, the tag is `Ghost`, a phase manager is present and recording or playback is active; firing unlocks the door, sets `unlocked` and deactivates the trigger object; otherwise nothing changes |
| `Replayables.GhostUnlocksAtMostOnce` | p2goldspikesubmit/Assets/Scripts/UnlockDoor.cs:24-33 | between resets, any run of entries fires the trigger at most once, and exactly once iff a phase manager is present and the ghost entered while recording or playback was active; the trigger ends unlocked exactly when it fired, with the door unlocked and the object deactivated, and is otherwise untouched |
| `Replayables.ReplayableUnlockDoor.constructor` | p2goldspikesubmit/Assets/Scripts/UnlockDoor.cs:5-11 | a new trigger is not unlocked |
| `Replayables.ReplayableUnlockDoor.OnTriggerEnter` | p2goldspikesubmit/Assets/Scripts/UnlockDoor.cs:22-44 | trigger, door and object afterwards are `GhostEnter` of the state before; the snapshot is not written |
| `Replayables.ReplayableUnlockDoor.ResetToInitialState` | p2goldspikesubmit/Assets/Scripts/UnlockDoor.cs:54-60 | the base object is restored to its snapshot and `unlocked` is cleared |
| `Replayables.ReplayableUnlockDoor.OnGhostInteraction` | p2goldspikesubmit/Assets/Scripts/UnlockDoor.cs:63-66 | behaves as the base interaction: the object is deactivated, pose and snapshot untouched |
| `SyncPuzzle.Filled` | Assets/Scripts/DualKeyDoor.cs:63-72 | the captured time goes into the first free slot, whichever key caused it; with both slots full nothing changes |
| `SyncPuzzle.Verdict` | Assets/Scripts/DualKeyDoor.cs:77-85 | pending iff not both slots are filled; matched iff both are filled with equal times; mismatched otherwise |
| `SyncPuzzle.Register` | Assets/Scripts/DualKeyDoor.cs:54-75 | ignored (no change) iff the door is open or there is no timer; a match opens the door; a mismatch empties both slots (time -1); the puzzle invariant (second slot implies first, empty slots hold -1, open iff both filled) is preserved; after any counted registration the door is open or the two slots are not both filled |
| `SyncPuzzle.PairOpensIffSameSecond` | Assets/Scripts/DualKeyDoor.cs:58-84 | on a fresh door the first pickup fills slot one with the ceiling of the remaining time, and the second opens the door iff both times round up to the same second; otherwise the door is back to its initial state |
| `SyncPuzzle.Reached` | Assets/Scripts/DualKeyDoor.cs:106-129 | `playerReachedDoor` becomes true only at an open door and only for the `Player` tag; it is never cleared here, and nothing else changes |
| `SyncPuzzle.Touch` | Assets/Scripts/DualKey.cs:8-20 | an entry that does not collect the key (already collected, or a tag other than Player/Ghost) changes nothing |
| `SyncPuzzle.TouchKeepsInvariant` | Assets/Scripts/DualKeyDoor.cs:54-85 | every key pickup keeps the whole-puzzle invariant: the door is consistent, the filled slots are as many as the collected keys, and a key is inactive exactly while collected |
| `SyncPuzzle.PuzzleInvariantAlways` | Assets/Scripts/DualKeyDoor.cs:63-84 | after any sequence of pickups the invariant holds: the door is open iff both slots are filled, the second slot implies the first, and each filled slot belongs to a different collected key |
| `SyncPuzzle.OpenDoorStaysOpen` | Assets/Scripts/DualKeyDoor.cs:56 | once the door is open, further pickups leave the door state unchanged |
| `SyncPuzzle.SynchronisedPickups` | Assets/Scripts/DualKeyDoor.cs:79-84 | keys taken by the ghost and the player at the same rounded second open the door; at different seconds both keys and the door return to their initial state |
| `SyncPuzzle.DualKey.constructor` | Assets/Scripts/DualKey.cs:5-6 | a key starts uncollected, active and unlinked |
| `SyncPuzzle.DualKey.OnTriggerEnter` | Assets/Scripts/DualKey.cs:8-20 | an uncollected key touched by Player or Ghost is collected and deactivated, and its linked door (if any) is told exactly once, with the outcome and new door state given by `Register` under the door's unchanged timer flag; a match makes the door's collider passable and requests the timer stop; a mismatch leaves this key and the door's keys collectible again; otherwise the door's collider, stop request, keys and active flag and the other key are unchanged, and no key's link changes |
| `SyncPuzzle.EntryIsTouch` | Assets/Scripts/DualKey.cs:8-20 | a trigger entry on either key of a timed door wired to two distinct keys takes the door's and keys' states to `Touch` of them, so the whole-puzzle invariant proved on `Touch` holds of the components; the wiring is kept |
| `SyncPuzzle.TwoPickups` | Assets/Scripts/DualKey.cs:14-18 | through the components: the ghost taking key A and the player key B on a fresh timed door opens it, makes it passable and requests the timer stop exactly when the two remaining times round up to the same second, and otherwise makes both keys collectible again |
| `SyncPuzzle.DualKey.ResetKey` | Assets/Scripts/DualKey.cs:22-31 | the key becomes uncollected and active |
| `SyncPuzzle.DualKeyDoor.constructor` | Assets/Scripts/DualKeyDoor.cs:23-41 | the door starts closed, not reached, with empty slots at -1, and links each present key to itself |
| `SyncPuzzle.DualKeyDoor.RegisterKeyCollected` | Assets/Scripts/DualKeyDoor.cs:54-75 | the door state and outcome are `Register` of the state before; a match makes the door collider passable and requests a timer stop; a mismatch resets both keys; otherwise the keys are untouched |
| `SyncPuzzle.DualKeyDoor.CheckIfSynchronized` | Assets/Scripts/DualKeyDoor.cs:77-85 | the outcome is `Verdict` of the slots; a match opens the door; a mismatch empties the slots and resets the keys; pending changes nothing |
| `SyncPuzzle.DualKeyDoor.Unlock` | Assets/Scripts/DualKeyDoor.cs:87-104 | `doorOpened` is set, the door collider becomes passable, and a timer stop is requested when a timer is present |
| `SyncPuzzle.DualKeyDoor.OnTriggerEnter` | Assets/Scripts/DualKeyDoor.cs:106-129 | the door state becomes `Reached` of the old one; nothing else changes |
| `SyncPuzzle.DualKeyDoor.ResetKeys` | Assets/Scripts/DualKeyDoor.cs:137-146 | both slots become not collected with time -1, and every present key is made collectible again |
| `SyncPuzzle.DualKeyDoor.ResetDoor` | Assets/Scripts/DualKeyDoor.cs:148-184 | the door returns to its initial state (not opened, not reached, slots empty at -1); the keys are collectible; the door object is active and its collider `Locked`, as the door's `Start` intends; the timer-stop request and the keys' links are kept |
| `Phases.Begun` | Assets/Scripts/GamePhaseManager.cs:64-70 | `BeginRecording` sets `recordingActive` and `isGhostPhase` and puts the phase timer at the room's ghost phase duration |
| `Phases.PhaseTick` | Assets/Scripts/GamePhaseManager.cs:52-62 | an update does nothing unless in the ghost phase with recording active; then it decreases the timer by exactly dt and switches iff the timer reaches <= 0 and the recorder is present; it fails iff the timer reaches <= 0 and the recorder is missing; only a switch leaves the ghost phase |
| `Phases.IdleUntilRecording` | Assets/Scripts/GamePhaseManager.cs:17-56 | until recording is begun, any number of updates changes neither the timer nor the phase, and never switches |
| `Phases.QuietAfterSwitch` | Assets/Scripts/GamePhaseManager.cs:54-62 | once out of the ghost phase, further updates change nothing and never switch |
| `Phases.SwitchesAtMostOnce` | Assets/Scripts/GamePhaseManager.cs:52-62 | in any run of updates the switch happens at most once, and after it the phase is no longer the ghost phase |
| `Phases.CountsDownWhileTimeLeft` | Assets/Scripts/GamePhaseManager.cs:54-56 | after `BeginRecording`, while the elapsed frame time is below the duration, recording continues and the timer equals the duration minus the elapsed time |
| `Phases.SwitchesWhenTimeRunsOut` | Assets/Scripts/GamePhaseManager.cs:56-59 | the update whose frame time uses up the duration is the one that switches, exactly once |
| `Phases.GamePhaseManager.constructor` | Assets/Scripts/GamePhaseManager.cs:12-50 | the initial flags are ghost phase, not recording, timer 0; the player is inactive at (0,1,0); the ghost spawns at the room's ghost spawn or (0,1,0); its recorder is disabled and empty; the camera follows the ghost |
| `Phases.GamePhaseManager.SetPlayerSpawnPoint` | Assets/Scripts/GamePhaseManager.cs:26-29 | the spawn point becomes exactly the given position |
| `Phases.GamePhaseManager.Update` | Assets/Scripts/GamePhaseManager.cs:52-62 | the phase fields and outcome are `PhaseTick` of the old ones; on the switch, playback gets a copy of the recorded frames at index 0, the recorder is gone, and the player is active at the stored spawn point and followed by the camera; the spawn point never changes |
| `Phases.GamePhaseManager.BeginRecording` | Assets/Scripts/GamePhaseManager.cs:64-81 | the phase fields become `Begun`; the room's timer (if any) is started with the phase duration; the recorder (if any) is enabled with its frames kept; nothing else changes |
| `Phases.GamePhaseManager.SwitchPhase` | Assets/Scripts/GamePhaseManager.cs:84-127 | outside the ghost phase only `isGhostPhase` is (re)set false; in it, the ghost is frozen, playback starts on a copy of the recording, the ghost loses its controls and collisions with the player, and the player is activated at the spawn point and followed by the camera; with the recorder missing it fails and the phase is unchanged |
| `Buttons.TimerButton.constructor` | Assets/Scripts/TimerButton.cs:5 | a button starts active and refers to its phase manager |
| `Buttons.TimerButton.OnTriggerEnter` | Assets/Scripts/TimerButton.cs:7-17 | only the `Ghost` tag activates it; activation stores the button's position as the player spawn point, requests recording at that position, and deactivates (not destroys) the button; other tags change nothing |

## Findings

| source | as written | input that shows it | evidently intended | confidence | as-written member | corrected member |
|---|---|---|---|---|---|---|
| Assets/Scripts/Door.cs:11-13 | `Start` tests that the collider is null before making it solid | a door whose collider is a trigger stays passable after `Start`; a door without a collider dereferences null | test that the collider is present, so that every door starts locked | high; not executed | `Doors.StartAsWritten`, `Doors.StartAsWrittenLeavesTriggerDoorOpen` | `Doors.Locked`, used by `Doors.Door.Start` |

## Left out

- Player controllers, moving platforms and camera smoothing are input, physics and floating-point animation. The camera is only its current target.
- A room is reduced to the two things the phase manager reads from it: its optional ghost spawn location and its phase duration. The room component itself is not part of this model.
- The second level's `UnlockDoor` drives a door through `Unlock`; the model uses the first level's door (Assets/Scripts/Door.cs) for it. The second level's own door component is not part of this model.
- Rigidbody zeroing, controller removal and `Physics.IgnoreCollision` are the three flags `ghostFrozen`, `ghostControllable` and `collisionsIgnored`. The model assumes the ghost has a Rigidbody: `ghostFrozen` is set at every switch, while Assets/Scripts/GamePhaseManager.cs:89-96 zeroes it only when one is found. Collider enabling on keys, `Instantiate`, `GetComponent` and `Destroy` are object creation, lookup and removal, reduced to references and flags.
- UI text, `Debug.Log`, the cursor, the restart button and `RestartGame`'s scene reload have no effect on the modelled state. The same holds for the second level's `HideTextAfterDelay` coroutine.
- `GetTimeRemaining`, `StopTimer`, `IsRecordingActive`, `IsPlaybackActive`, `RegisterReplayable` and the one-argument `BeginRecording(Vector3)` are called but not defined in the modelled files:
  - the remaining time and the two phase queries are parameters;
  - the stop is the `stopTimerRequested` flag;
  - the `BeginRecording(Vector3)` call is the returned `beginRecordingAt` request;
  - registration with the phase manager is not modelled.
- References the source dereferences without a null test are non-null in the model: the door in the first level's `UnlockDoor`, the door in the second level's `UnlockDoor` (p2goldspikesubmit/Assets/Scripts/UnlockDoor.cs:32), the phase manager in `TimerButton`, the door object in `DualKeyDoor.Unlock`, and the current room, camera and timer text. A scene that leaves them unassigned throws and is not modelled.
- The engine calls `Update` only on enabled components and delivers triggers only to active objects. The model's `Update` and `OnTriggerEnter` methods do not test these flags themselves, as the source does not.
- The ghost's transform is shared in the engine. The model passes it to the recorder as a parameter, and after the switch the playback's `transform` field stands for it. Aliasing between the components is not modelled.
- Frame lists are `List` references in the source and values in the model. `GhostPlayback.Init` keeps the reference it is given (Assets/Scripts/GhostPlayback.cs:11), so without the copy at Assets/Scripts/GamePhaseManager.cs:100 playback would share the recorder's list. The model cannot express that aliasing, so it does not show that the copy is needed.
- `Mathf.Approximately` on two whole-second values is plain equality. Float rounding of times and positions is not modelled.
- `DualKeyDoor.RegisterKeyCollected` ignores which key it is given, so the model does not pass the key. `DualKeyDoor.Start` is modelled only for linking the keys back to the door.
- `Doors.Door.Start` follows the corrected test (see Findings). The code as written is `Doors.StartAsWritten`.
