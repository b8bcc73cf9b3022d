/** Door: a door whose collider is solid while locked and becomes a trigger
    (passable) once unlocked. */
module Doors {

  /** The door's collider: absent, or present with its `isTrigger` flag. */
  datatype DoorCollider = Missing | Present(isTrigger: bool)

  /** What `Start` can end in: normally, or with the null dereference the
      source performs when there is no collider. */
  datatype StartOutcome = Started(collider: DoorCollider) | NullReference

  /** `Unlock`: an existing collider becomes a trigger; without one nothing
      happens. */
  function Unlocked(c: DoorCollider): (r: DoorCollider)
    ensures r.Present? <==> c.Present?
    ensures r.Present? ==> r.isTrigger
  {
    match c
    case Missing => Missing
    case Present(_) => Present(true)
  }

  /** Unlocking twice is unlocking once. */
  lemma UnlockIdempotent(c: DoorCollider)
    ensures Unlocked(Unlocked(c)) == Unlocked(c)
  {
  }

  /** `Start` as written: the null test is inverted, so an existing collider
      is left as it is and a missing one is dereferenced. */
  function StartAsWritten(c: DoorCollider): (r: StartOutcome)
    ensures r == NullReference <==> c == Missing
    ensures r.Started? ==> r.collider == c
  {
    if c == Missing then NullReference else Started(c)
  }

  /** With the source's test, a door whose collider was set up as a trigger
      is still passable after `Start`, although `Start` means to lock it. */
  lemma StartAsWrittenLeavesTriggerDoorOpen()
    ensures StartAsWritten(Present(true)) == Started(Present(true))
  {
  }

  /** Locking, as `Start` evidently intends it: an existing collider is
      made solid, a missing one is left missing. */
  function Locked(c: DoorCollider): (r: DoorCollider)
    ensures r.Present? <==> c.Present?
    ensures r.Present? ==> !r.isTrigger
  {
    match c
    case Missing => Missing
    case Present(_) => Present(false)
  }

  /** A started door stays locked until `Unlock`, which opens it for good. */
  lemma StartThenUnlock(c: DoorCollider)
    requires c.Present?
    ensures !Locked(c).isTrigger && Unlocked(Locked(c)).isTrigger
  {
  }

  class Door {
    var doorCollider: DoorCollider

    constructor (collider: DoorCollider)
      ensures doorCollider == collider
    {
      doorCollider := collider;
    }

    /** `Start`, following the corrected null test. */
    method Start()
      modifies this
      ensures doorCollider == Locked(old(doorCollider))
    {
      if doorCollider != Missing {
        doorCollider := Present(false);
      }
    }

    method Unlock()
      modifies this
      ensures doorCollider == Unlocked(old(doorCollider))
    {
      if doorCollider != Missing {
        doorCollider := Present(true);
      }
    }
  }
}
