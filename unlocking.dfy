/** UnlockDoor (first level): a trigger zone that unlocks its door the first
    time the player enters it, then destroys itself. Only the "Player" tag is
    accepted, although the code's comment speaks of player or ghost. */
module Unlocking {
  import opened Engine
  import opened Doors

  /** The trigger's own state: whether it has fired and whether its game
      object has been destroyed. */
  datatype Latch = Latch(unlocked: bool, destroyed: bool)

  /** Whether an entry by an object with tag `other` fires the trigger. */
  predicate Fires(s: Latch, other: Tag)
  {
    !s.unlocked && other == Player
  }

  /** One trigger entry: the trigger after it, and the door after it. */
  function Enter(s: Latch, door: DoorCollider, other: Tag): (r: (Latch, DoorCollider))
    ensures Fires(s, other) ==> r == (Latch(true, true), Unlocked(door))
    ensures !Fires(s, other) ==> r == (s, door)
    ensures r.0.unlocked
      <==> s.unlocked || other == Player
  {
    if s.unlocked then (s, door)
    else if other != Player then (s, door)
    else (Latch(true, true), Unlocked(door))
  }

  /** The trigger and door after a sequence of entries. */
  function EnterAll(s: Latch, door: DoorCollider, others: seq<Tag>): (Latch, DoorCollider)
    decreases |others|
  {
    if others == [] then (s, door)
    else
      var p := EnterAll(s, door, others[..|others| - 1]);
      Enter(p.0, p.1, others[|others| - 1])
  }

  /** How many entries of the sequence fired the trigger. */
  function FireCount(s: Latch, door: DoorCollider, others: seq<Tag>): nat
    decreases |others|
  {
    if others == [] then 0
    else
      var p := EnterAll(s, door, others[..|others| - 1]);
      FireCount(s, door, others[..|others| - 1]) + if Fires(p.0, others[|others| - 1]) then 1 else 0
  }

  /** From a fresh trigger, any sequence of entries fires it at most once,
      and the door ends unlocked exactly when a player entered. */
  lemma {:induction false} UnlocksAtMostOnce(door: DoorCollider, others: seq<Tag>)
    ensures FireCount(Latch(false, false), door, others) <= 1
    ensures FireCount(Latch(false, false), door, others) == 1 <==> Player in others
    ensures EnterAll(Latch(false, false), door, others) ==
      if Player in others then (Latch(true, true), Unlocked(door)) else (Latch(false, false), door)
    decreases |others|
  {
    if others != [] {
      var init := others[..|others| - 1];
      UnlocksAtMostOnce(door, init);
      assert others == init + [others[|others| - 1]];
      assert Player in others <==> Player in init || others[|others| - 1] == Player;
    }
  }

  class UnlockDoor {
    const door: Door
    var unlocked: bool
    var destroyed: bool

    constructor (door: Door)
      ensures this.door == door && !unlocked && !destroyed
    {
      this.door := door;
      unlocked := false;
      destroyed := false;
    }

    function State(): Latch
      reads this
    {
      Latch(unlocked, destroyed)
    }

    method OnTriggerEnter(other: Tag)
      modifies this, door
      ensures (State(), door.doorCollider) == Enter(old(State()), old(door.doorCollider), other)
    {
      if unlocked {
        return;
      }
      if other != Player {
        return;
      }
      door.Unlock();
      unlocked := true;
      destroyed := true;
    }
  }
}
