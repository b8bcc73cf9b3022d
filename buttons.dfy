/** TimerButton: the button the ghost steps on to start the ghost phase. */
module Buttons {
  import opened Engine
  import opened Phases

  class TimerButton {
    const phaseManager: GamePhaseManager
    /** The button's position. */
    const position: Vec3
    var active: bool

    constructor (phaseManager: GamePhaseManager, position: Vec3)
      ensures this.phaseManager == phaseManager && this.position == position && active
    {
      this.phaseManager := phaseManager;
      this.position := position;
      active := true;
    }

    /** Only the ghost activates the button: the manager's player spawn point
        becomes the button's position, the manager is asked to begin
        recording at that position (returned as `beginRecordingAt`, the
        argument of that request), and the button is deactivated so that it
        can be reset later. Any other visitor changes nothing. */
    method OnTriggerEnter(other: Tag) returns (beginRecordingAt: Option<Vec3>)
      modifies this, phaseManager`playerSpawnPoint
      ensures other == Ghost ==>
        phaseManager.playerSpawnPoint == position && !active && beginRecordingAt == Some(position)
      ensures other != Ghost ==>
        active == old(active) && phaseManager.playerSpawnPoint == old(phaseManager.playerSpawnPoint) &&
        beginRecordingAt == None
    {
      beginRecordingAt := None;
      if other == Ghost {
        phaseManager.SetPlayerSpawnPoint(position);
        beginRecordingAt := Some(position);
        active := false;
      }
    }
  }
}
