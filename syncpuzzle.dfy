/** DualKeyDoor and DualKey: the synchronisation puzzle. Two keys are
    picked up (by the player or the ghost); each pickup records the
    countdown's remaining time rounded up to whole seconds in the first free
    of two order-agnostic slots. When both slots are filled the door opens if
    the two times are equal, and otherwise both slots and both keys are reset. */
module SyncPuzzle {
  import opened Engine
  import opened Doors

  /** The time stored in an empty slot. */
  const NoTime: real := -1.0

  /** The two pickup slots. */
  datatype Slots = Slots(firstKeyCollected: bool, firstKeyTime: real,
                         secondKeyCollected: bool, secondKeyTime: real)

  const EmptySlots: Slots := Slots(false, NoTime, false, NoTime)

  /** The door's own puzzle state. */
  datatype DoorState = DoorState(doorOpened: bool, playerReachedDoor: bool, slots: Slots)

  const InitialDoor: DoorState := DoorState(false, false, EmptySlots)

  /** What `RegisterKeyCollected` did. */
  datatype Resolution =
    | Ignored     // the door was already open, or there is no countdown timer
    | Pending     // a slot was filled (or none was free) and both are not yet filled
    | Matched     // both slots filled with equal times: the door opened
    | Mismatched  // both slots filled with different times: slots and keys reset

  /** The door's puzzle invariant: the second slot is filled only after the
      first, an empty slot holds no time, and the door is open exactly when
      both slots are filled. */
  ghost predicate Consistent(d: DoorState)
  {
    (d.slots.secondKeyCollected ==> d.slots.firstKeyCollected) &&
    (!d.slots.firstKeyCollected ==> d.slots.firstKeyTime == NoTime) &&
    (!d.slots.secondKeyCollected ==> d.slots.secondKeyTime == NoTime) &&
    (d.doorOpened <==> d.slots.firstKeyCollected && d.slots.secondKeyCollected)
  }

  /** The first free slot takes the captured time. */
  function Filled(s: Slots, time: real): (r: Slots)
    ensures !s.firstKeyCollected ==> r == s.(firstKeyCollected := true, firstKeyTime := time)
    ensures s.firstKeyCollected && !s.secondKeyCollected ==>
      r == s.(secondKeyCollected := true, secondKeyTime := time)
    ensures s.firstKeyCollected && s.secondKeyCollected ==> r == s
  {
    if !s.firstKeyCollected then s.(firstKeyCollected := true, firstKeyTime := time)
    else if !s.secondKeyCollected then s.(secondKeyCollected := true, secondKeyTime := time)
    else s
  }

  /** `CheckIfSynchronized`'s verdict on a pair of slots. */
  function Verdict(s: Slots): (r: Resolution)
    ensures r != Ignored
    ensures r == Pending <==> !(s.firstKeyCollected && s.secondKeyCollected)
    ensures r == Matched <==> s.firstKeyCollected && s.secondKeyCollected && s.firstKeyTime == s.secondKeyTime
  {
    if !s.firstKeyCollected || !s.secondKeyCollected then Pending
    else if s.firstKeyTime == s.secondKeyTime then Matched
    else Mismatched
  }

  /** `RegisterKeyCollected` with the countdown's remaining time. */
  function Register(d: DoorState, hasTimer: bool, timeRemaining: real): (r: (DoorState, Resolution))
    ensures r.1 == Ignored <==> d.doorOpened || !hasTimer
    ensures r.1 == Ignored ==> r.0 == d
    ensures r.1 == Matched ==> r.0.doorOpened && !d.doorOpened
    ensures r.1 == Mismatched ==> r.0 == d.(slots := EmptySlots)
    ensures r.0.playerReachedDoor == d.playerReachedDoor
    ensures Consistent(d) ==> Consistent(r.0)
    ensures r.1 != Ignored ==> r.0.doorOpened || !(r.0.slots.firstKeyCollected && r.0.slots.secondKeyCollected)
  {
    if d.doorOpened || !hasTimer then (d, Ignored)
    else
      var slots := Filled(d.slots, CeilToInt(timeRemaining) as real);
      match Verdict(slots)
      case Matched => (d.(doorOpened := true, slots := slots), Matched)
      case Mismatched => (d.(slots := EmptySlots), Mismatched)
      case _ => (d.(slots := slots), Pending)
  }

  /** Two pickups on a fresh door open it exactly when the two remaining
      times round up to the same second, whichever key came first;
      otherwise the door is back to its initial state. */
  lemma PairOpensIffSameSecond(t1: real, t2: real)
    ensures var first := Register(InitialDoor, true, t1);
      var second := Register(first.0, true, t2);
      first.1 == Pending &&
      first.0.slots == Slots(true, CeilToInt(t1) as real, false, NoTime) &&
      (second.1 == Matched <==> CeilToInt(t1) == CeilToInt(t2)) &&
      (second.1 == Mismatched <==> CeilToInt(t1) != CeilToInt(t2)) &&
      (second.1 == Mismatched ==> second.0 == InitialDoor)
  {
  }

  /** `OnTriggerEnter` on the door: marks the player's arrival, once, and
      only at an open door. */
  function Reached(d: DoorState, other: Tag): (r: DoorState)
    ensures r.playerReachedDoor <==> d.playerReachedDoor || (d.doorOpened && other == Player)
    ensures r.doorOpened == d.doorOpened && r.slots == d.slots
  {
    if !d.doorOpened || d.playerReachedDoor then d
    else if other == Player then d.(playerReachedDoor := true)
    else d
  }

  /** A key's own state: collected, and whether its object is active. */
  datatype KeyState = KeyState(isCollected: bool, active: bool)

  const FreshKey: KeyState := KeyState(false, true)

  /** Whether an entry collects the key: it is not yet collected and the
      visitor is the player or the ghost. */
  predicate Collects(k: KeyState, other: Tag)
  {
    !k.isCollected && (other == Player || other == Ghost)
  }

  /** The puzzle as a whole: the door and the two keys linked to it, with a
      countdown timer present. */
  datatype Puzzle = Puzzle(door: DoorState, keyA: KeyState, keyB: KeyState)

  const InitialPuzzle: Puzzle := Puzzle(InitialDoor, FreshKey, FreshKey)

  datatype KeyId = KeyA | KeyB

  function KeyOf(p: Puzzle, which: KeyId): KeyState
  {
    if which == KeyA then p.keyA else p.keyB
  }

  /** One key's trigger entry, with the pickup it causes on the door. */
  function Touch(p: Puzzle, which: KeyId, other: Tag, timeRemaining: real): (r: Puzzle)
    ensures !Collects(KeyOf(p, which), other) ==> r == p
  {
    if !Collects(KeyOf(p, which), other) then p
    else
      var collected := KeyState(true, false);
      var p1 := if which == KeyA then p.(keyA := collected) else p.(keyB := collected);
      var reg := Register(p1.door, true, timeRemaining);
      if reg.1 == Mismatched then Puzzle(reg.0, FreshKey, FreshKey)
      else p1.(door := reg.0)
  }

  function NumCollected(p: Puzzle): nat
  {
    (if p.keyA.isCollected then 1 else 0) + (if p.keyB.isCollected then 1 else 0)
  }

  function NumFilled(s: Slots): nat
  {
    (if s.firstKeyCollected then 1 else 0) + (if s.secondKeyCollected then 1 else 0)
  }

  /** The whole-puzzle invariant: the door is consistent, every filled slot
      belongs to a distinct collected key, and a key is inactive exactly
      while it is collected. */
  ghost predicate PuzzleInv(p: Puzzle)
  {
    Consistent(p.door) &&
    NumFilled(p.door.slots) == NumCollected(p) &&
    p.keyA.active == !p.keyA.isCollected &&
    p.keyB.active == !p.keyB.isCollected
  }

  lemma TouchKeepsInvariant(p: Puzzle, which: KeyId, other: Tag, timeRemaining: real)
    requires PuzzleInv(p)
    ensures PuzzleInv(Touch(p, which, other, timeRemaining))
  {
  }

  /** A trigger entry on one of the keys. */
  datatype Event = Event(which: KeyId, other: Tag, timeRemaining: real)

  function TouchAll(p: Puzzle, events: seq<Event>): Puzzle
    decreases |events|
  {
    if events == [] then p
    else
      var e := events[|events| - 1];
      Touch(TouchAll(p, events[..|events| - 1]), e.which, e.other, e.timeRemaining)
  }

  /** After any sequence of pickups: the invariant holds, so either the door
      is open or the two slots are not both filled, and each filled slot was
      filled by a different key. An opened door stays open. */
  lemma {:induction false} PuzzleInvariantAlways(events: seq<Event>)
    ensures PuzzleInv(TouchAll(InitialPuzzle, events))
    decreases |events|
  {
    if events != [] {
      PuzzleInvariantAlways(events[..|events| - 1]);
      var e := events[|events| - 1];
      TouchKeepsInvariant(TouchAll(InitialPuzzle, events[..|events| - 1]), e.which, e.other, e.timeRemaining);
    }
  }

  /** Once the door is open, later pickups change nothing about the door. */
  lemma {:induction false} OpenDoorStaysOpen(p: Puzzle, events: seq<Event>)
    requires p.door.doorOpened
    ensures TouchAll(p, events).door == p.door
    decreases |events|
  {
    if events != [] {
      OpenDoorStaysOpen(p, events[..|events| - 1]);
    }
  }

  /** Scenario: key A taken by the ghost and key B by the player at the same
      rounded second opens the door; at different seconds both keys come back. */
  lemma SynchronisedPickups(t1: real, t2: real)
    ensures var p := Touch(Touch(InitialPuzzle, KeyA, Ghost, t1), KeyB, Player, t2);
      (CeilToInt(t1) == CeilToInt(t2) ==> p.door.doorOpened && p.keyA == p.keyB == KeyState(true, false)) &&
      (CeilToInt(t1) != CeilToInt(t2) ==> p == InitialPuzzle)
  {
  }

  /** The scene's wiring, driven through the components: a fresh door with
      a timer and a solid collider, its key A picked up by the ghost with
      `t1` seconds left and then its key B by the player with `t2` left. The
      door opens, turns passable and asks the timer to stop exactly when the
      two times round up to the same second; otherwise both keys are
      collectible again. */
  method TwoPickups(t1: real, t2: real) returns (doorOpen: bool, collider: DoorCollider, stopRequested: bool, keysBack: bool)
    ensures doorOpen <==> CeilToInt(t1) == CeilToInt(t2)
    ensures collider == Present(doorOpen) && stopRequested == doorOpen
    ensures keysBack <==> !doorOpen
  {
    var keyA := new DualKey();
    var keyB := new DualKey();
    var door := new DualKeyDoor(keyA, keyB, true, Present(false));
    var first := keyA.OnTriggerEnter(Ghost, t1);
    var second := keyB.OnTriggerEnter(Player, t2);
    doorOpen := door.doorOpened;
    collider := door.doorCollider;
    stopRequested := door.stopTimerRequested;
    keysBack := keyA.State() == FreshKey && keyB.State() == FreshKey;
  }

  /** The components follow the value model: a trigger entry on either key
      of a timed door wired to two distinct keys takes the puzzle made of the
      door's and the keys' states to `Touch` of it. So `PuzzleInvariantAlways`
      and `OpenDoorStaysOpen` hold of the components too. */
  method EntryIsTouch(door: DualKeyDoor, keyA: DualKey, keyB: DualKey, which: KeyId, other: Tag, timeRemaining: real)
    requires door.keyA == keyA && door.keyB == keyB && keyA != keyB && door.hasTimer
    requires keyA.linkedDoor == door && keyB.linkedDoor == door
    modifies door, keyA, keyB
    ensures Puzzle(door.State(), keyA.State(), keyB.State()) ==
      Touch(old(Puzzle(door.State(), keyA.State(), keyB.State())), which, other, timeRemaining)
    ensures door.keyA == keyA && door.keyB == keyB && door.hasTimer
    ensures keyA.linkedDoor == door && keyB.linkedDoor == door
  {
    var told;
    if which == KeyA {
      told := keyA.OnTriggerEnter(other, timeRemaining);
    } else {
      told := keyB.OnTriggerEnter(other, timeRemaining);
    }
  }

  /** The key component. */
  class DualKey {
    var linkedDoor: DualKeyDoor?
    var isCollected: bool
    var active: bool

    constructor ()
      ensures linkedDoor == null && !isCollected && active
    {
      linkedDoor := null;
      isCollected := false;
      active := true;
    }

    function State(): KeyState
      reads this
    {
      KeyState(isCollected, active)
    }

    /** The set of keys a pickup of this key may reset. */
    function ResetScope(): set<DualKey>
      reads this, linkedDoor
    {
      if linkedDoor == null then {} else linkedDoor.Keys()
    }

    /** A trigger entry on the key. Returns what the door did with the
        pickup, `None` when the door was not told. */
    method OnTriggerEnter(other: Tag, timeRemaining: real) returns (told: Option<Resolution>)
      modifies this, linkedDoor, ResetScope()
      ensures linkedDoor == old(linkedDoor)
      ensures told.Some? <==> Collects(old(State()), other) && linkedDoor != null
      ensures !Collects(old(State()), other) ==> State() == old(State())
      ensures !Collects(old(State()), other) && linkedDoor != null ==> linkedDoor.State() == old(linkedDoor.State())
      ensures Collects(old(State()), other) && linkedDoor == null ==> State() == KeyState(true, false)
      ensures told.Some? ==>
        (linkedDoor.State(), told.value) == Register(old(linkedDoor.State()), linkedDoor.hasTimer, timeRemaining)
      ensures told.Some? && told.value == Mismatched && this in old(ResetScope()) ==> State() == FreshKey
      ensures told.Some? && !(told.value == Mismatched && this in old(ResetScope())) ==> State() == KeyState(true, false)
      ensures told.Some? && told.value == Mismatched ==>
        forall k :: k in old(linkedDoor.Keys()) ==> k.State() == FreshKey
      ensures told != Some(Mismatched) ==>
        forall k :: k in old(ResetScope()) && k != this ==> k.State() == old(k.State())
      ensures forall k :: k in old(ResetScope()) ==> k.linkedDoor == old(k.linkedDoor)
      ensures linkedDoor != null ==>
        linkedDoor.keyA == old(linkedDoor.keyA) && linkedDoor.keyB == old(linkedDoor.keyB) &&
        linkedDoor.hasTimer == old(linkedDoor.hasTimer) && linkedDoor.doorActive == old(linkedDoor.doorActive)
      ensures told == Some(Matched) ==>
        linkedDoor.doorCollider == Unlocked(old(linkedDoor.doorCollider)) && linkedDoor.stopTimerRequested
      ensures told != Some(Matched) && linkedDoor != null ==>
        linkedDoor.doorCollider == old(linkedDoor.doorCollider) &&
        linkedDoor.stopTimerRequested == old(linkedDoor.stopTimerRequested)
    {
      told := None;
      if isCollected {
        return;
      }
      if other == Player || other == Ghost {
        isCollected := true;
        active := false;
        if linkedDoor != null {
          var r := linkedDoor.RegisterKeyCollected(timeRemaining);
          told := Some(r);
        }
      }
    }

    method ResetKey()
      modifies this
      ensures State() == FreshKey && linkedDoor == old(linkedDoor)
    {
      isCollected := false;
      active := true;
    }
  }

  /** The door component. `hasTimer` says whether a countdown timer is
      wired; the timer's remaining time is passed in with each pickup.
      `doorActive` and `doorCollider` are the door object's state, and
      `stopTimerRequested` records that the door asked the timer to stop. */
  class DualKeyDoor {
    var keyA: DualKey?
    var keyB: DualKey?
    var hasTimer: bool
    var doorActive: bool
    var doorCollider: DoorCollider
    var stopTimerRequested: bool
    var doorOpened: bool
    var playerReachedDoor: bool
    var firstKeyCollected: bool
    var secondKeyCollected: bool
    var firstKeyTime: real
    var secondKeyTime: real

    function State(): DoorState
      reads this
    {
      DoorState(doorOpened, playerReachedDoor,
                Slots(firstKeyCollected, firstKeyTime, secondKeyCollected, secondKeyTime))
    }

    function Keys(): set<DualKey>
      reads this
    {
      (if keyA == null then {} else {keyA}) + (if keyB == null then {} else {keyB})
    }

    /** The scene's door with its keys; `Start` links each present key back
        to this door. */
    constructor (keyA: DualKey?, keyB: DualKey?, hasTimer: bool, doorCollider: DoorCollider)
      modifies keyA, keyB
      ensures this.keyA == keyA && this.keyB == keyB && this.hasTimer == hasTimer
      ensures this.doorCollider == doorCollider && doorActive && !stopTimerRequested
      ensures State() == InitialDoor
      ensures keyA != null ==> keyA.linkedDoor == this && keyA.State() == old(keyA.State())
      ensures keyB != null ==> keyB.linkedDoor == this && keyB.State() == old(keyB.State())
    {
      this.keyA := keyA;
      this.keyB := keyB;
      this.hasTimer := hasTimer;
      this.doorCollider := doorCollider;
      doorActive := true;
      stopTimerRequested := false;
      doorOpened := false;
      playerReachedDoor := false;
      firstKeyCollected := false;
      secondKeyCollected := false;
      firstKeyTime := NoTime;
      secondKeyTime := NoTime;
      new;
      if keyA != null { keyA.linkedDoor := this; }
      if keyB != null { keyB.linkedDoor := this; }
    }

    method RegisterKeyCollected(timeRemaining: real) returns (res: Resolution)
      modifies this, Keys()
      ensures keyA == old(keyA) && keyB == old(keyB) && hasTimer == old(hasTimer)
      ensures (State(), res) == Register(old(State()), hasTimer, timeRemaining)
      ensures doorActive == old(doorActive)
      ensures res == Matched ==> doorCollider == Unlocked(old(doorCollider)) && stopTimerRequested
      ensures res != Matched ==> doorCollider == old(doorCollider) && stopTimerRequested == old(stopTimerRequested)
      ensures res == Mismatched ==> forall k :: k in Keys() ==> k.State() == FreshKey
      ensures res != Mismatched ==> forall k :: k in Keys() ==> k.State() == old(k.State())
      ensures forall k :: k in Keys() ==> k.linkedDoor == old(k.linkedDoor)
    {
      if doorOpened || !hasTimer {
        return Ignored;
      }
      var currentTime := CeilToInt(timeRemaining) as real;
      if !firstKeyCollected {
        firstKeyCollected := true;
        firstKeyTime := currentTime;
      } else if !secondKeyCollected {
        secondKeyCollected := true;
        secondKeyTime := currentTime;
      }
      res := CheckIfSynchronized();
    }

    method CheckIfSynchronized() returns (res: Resolution)
      modifies this, Keys()
      ensures keyA == old(keyA) && keyB == old(keyB) && hasTimer == old(hasTimer)
      ensures res == Verdict(old(State()).slots)
      ensures res == Matched ==> stopTimerRequested == (old(stopTimerRequested) || hasTimer)
      ensures res == Matched ==> State() == old(State()).(doorOpened := true)
      ensures res == Mismatched ==> State() == old(State()).(slots := EmptySlots)
      ensures res == Pending ==> State() == old(State())
      ensures doorActive == old(doorActive)
      ensures res == Matched ==> doorCollider == Unlocked(old(doorCollider))
      ensures res != Matched ==> doorCollider == old(doorCollider) && stopTimerRequested == old(stopTimerRequested)
      ensures res == Mismatched ==> forall k :: k in Keys() ==> k.State() == FreshKey
      ensures res != Mismatched ==> forall k :: k in Keys() ==> k.State() == old(k.State())
      ensures forall k :: k in Keys() ==> k.linkedDoor == old(k.linkedDoor)
    {
      if !firstKeyCollected || !secondKeyCollected {
        return Pending;
      }
      if firstKeyTime == secondKeyTime {
        Unlock();
        res := Matched;
      } else {
        ResetKeys();
        res := Mismatched;
      }
    }

    /** Opens the door: the collider becomes passable and the timer is asked
        to stop. */
    method Unlock()
      modifies this
      ensures State() == old(State()).(doorOpened := true)
      ensures doorCollider == Unlocked(old(doorCollider))
      ensures stopTimerRequested == (old(stopTimerRequested) || hasTimer)
      ensures doorActive == old(doorActive)
      ensures keyA == old(keyA) && keyB == old(keyB) && hasTimer == old(hasTimer)
    {
      doorOpened := true;
      if doorCollider != Missing {
        doorCollider := Present(true);
      }
      if hasTimer {
        stopTimerRequested := true;
      }
    }

    /** The player walking into the door's trigger. */
    method OnTriggerEnter(other: Tag)
      modifies this
      ensures State() == Reached(old(State()), other)
      ensures unchanged(this`doorCollider, this`doorActive, this`stopTimerRequested, this`keyA, this`keyB, this`hasTimer)
    {
      if !doorOpened || playerReachedDoor {
        return;
      }
      if other == Player {
        playerReachedDoor := true;
      }
    }

    method ResetKeys()
      modifies this, Keys()
      ensures State() == old(State()).(slots := EmptySlots)
      ensures keyA == old(keyA) && keyB == old(keyB) && hasTimer == old(hasTimer)
      ensures unchanged(this`doorCollider, this`doorActive, this`stopTimerRequested)
      ensures forall k :: k in Keys() ==> k.State() == FreshKey && k.linkedDoor == old(k.linkedDoor)
    {
      firstKeyCollected := false;
      secondKeyCollected := false;
      firstKeyTime := NoTime;
      secondKeyTime := NoTime;
      if keyA != null { keyA.ResetKey(); }
      if keyB != null { keyB.ResetKey(); }
    }

    /** Back to the initial state: closed, not reached, slots empty, keys
        collectible again, and the door object active and solid. */
    method ResetDoor()
      modifies this, Keys()
      ensures State() == InitialDoor
      ensures keyA == old(keyA) && keyB == old(keyB) && hasTimer == old(hasTimer)
      ensures doorActive && doorCollider == Locked(old(doorCollider))
      ensures stopTimerRequested == old(stopTimerRequested)
      ensures forall k :: k in Keys() ==> k.State() == FreshKey && k.linkedDoor == old(k.linkedDoor)
    {
      doorOpened := false;
      playerReachedDoor := false;
      ResetKeys();
      doorActive := true;
      if doorCollider != Missing {
        doorCollider := Present(false);
      }
      firstKeyCollected := false;
      secondKeyCollected := false;
      firstKeyTime := NoTime;
      secondKeyTime := NoTime;
    }
  }
}
