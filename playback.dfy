/** GhostPlayback: replays a frozen log onto the ghost's transform, one
    sample per tick, and freezes on the last sample once the log runs out.
    No spawn offset is applied: the sample is written as recorded. */
module Playback {
  import opened Engine
  import opened Recording

  /** The playback component's state: its frame list (`None` until `Init`,
      as the source's list reference is null), the index of the next sample
      and the transform it drives. */
  datatype Replay = Replay(frames: Option<seq<FrameData>>, frameIndex: nat, transform: Pose)

  /** The index never passes the end of the list. */
  ghost predicate Valid(s: Replay)
  {
    match s.frames
    case None => s.frameIndex == 0
    case Some(fs) => s.frameIndex <= |fs|
  }

  /** True when the next tick writes a sample. */
  predicate Playing(s: Replay)
  {
    s.frames.Some? && s.frameIndex < |s.frames.value|
  }

  /** `Init`: take the given list and start from its first sample. */
  function Initialised(s: Replay, recorded: seq<FrameData>): (r: Replay)
    ensures Valid(r) && r.frames == Some(recorded) && r.frameIndex == 0
    ensures r.transform == s.transform
  {
    Replay(Some(recorded), 0, s.transform)
  }

  /** One tick of playback. */
  function Advance(s: Replay): (r: Replay)
    ensures r.frames == s.frames
    ensures Valid(s) ==> Valid(r)
    ensures Playing(s) ==> r.transform == PoseOf(s.frames.value[s.frameIndex]) && r.frameIndex == s.frameIndex + 1
    ensures !Playing(s) ==> r == s
  {
    match s.frames
    case None => s
    case Some(fs) =>
      if |fs| == 0 then s
      else if s.frameIndex >= |fs| then s
      else s.(transform := PoseOf(fs[s.frameIndex]), frameIndex := s.frameIndex + 1)
  }

  /** `k` ticks of playback. */
  function Ticks(s: Replay, k: nat): Replay
  {
    if k == 0 then s else Advance(Ticks(s, k - 1))
  }

  /** The k-th tick after `Init` puts the ghost exactly on the k-th sample
      (index k - 1), for every k up to the length of the log. */
  lemma {:induction false} ReplaysSampleByTick(s: Replay, recorded: seq<FrameData>, k: nat)
    requires 1 <= k <= |recorded|
    ensures Ticks(Initialised(s, recorded), k) ==
      Replay(Some(recorded), k, PoseOf(recorded[k - 1]))
  {
    var s0 := Initialised(s, recorded);
    if k == 1 {
      assert Ticks(s0, 0) == s0;
    } else {
      ReplaysSampleByTick(s, recorded, k - 1);
    }
  }

  /** Playback never overruns its log: after any number of ticks the index
      is the number of ticks, capped at the log's length. */
  lemma {:induction false} IndexNeverOverruns(s: Replay, recorded: seq<FrameData>, k: nat)
    ensures Ticks(Initialised(s, recorded), k).frames == Some(recorded)
    ensures Ticks(Initialised(s, recorded), k).frameIndex == if k <= |recorded| then k else |recorded|
  {
    if k > 0 {
      IndexNeverOverruns(s, recorded, k - 1);
    }
  }

  /** Once the log is exhausted the ghost stays on the last sample for
      ever; with an empty log it never moves from where it stood. */
  lemma {:induction false} FreezesAtEnd(s: Replay, recorded: seq<FrameData>, k: nat)
    requires k >= |recorded|
    ensures Ticks(Initialised(s, recorded), k).transform ==
      if recorded == [] then s.transform else PoseOf(recorded[|recorded| - 1])
  {
    var s0 := Initialised(s, recorded);
    if k == |recorded| {
      if recorded != [] {
        ReplaysSampleByTick(s, recorded, k);
      }
    } else {
      FreezesAtEnd(s, recorded, k - 1);
      IndexNeverOverruns(s, recorded, k - 1);
    }
  }

  /** The playback component added to the ghost at the phase switch. */
  class GhostPlayback {
    var frames: Option<seq<FrameData>>
    var frameIndex: nat
    var transform: Pose

    function State(): Replay
      reads this
    {
      Replay(frames, frameIndex, transform)
    }

    /** `AddComponent`: no frames yet, on the ghost's current transform. */
    constructor (ghostTransform: Pose)
      ensures State() == Replay(None, 0, ghostTransform)
    {
      frames := None;
      frameIndex := 0;
      transform := ghostTransform;
    }

    /** `Init(recordedFrames)`: store the list, restart from its first sample. */
    method Init(recordedFrames: seq<FrameData>)
      modifies this
      ensures State() == Initialised(old(State()), recordedFrames)
    {
      frames := Some(recordedFrames);
      frameIndex := 0;
    }

    /** One tick: with no or an empty list, or past the end, nothing happens;
        otherwise the next sample is written and the index moves on. */
    method Update()
      modifies this
      ensures State() == Advance(old(State()))
    {
      if frames == None || |frames.value| == 0 {
        return;
      }
      if frameIndex >= |frames.value| {
        return;
      }
      transform := PoseOf(frames.value[frameIndex]);
      frameIndex := frameIndex + 1;
    }
  }
}
