/** PlayerRecorder: an append-only log of the ghost's transform, one sample
    per engine tick. */
module Recording {
  import opened Engine

  /** One recorded sample: the transform's position and rotation. */
  datatype FrameData = FrameData(position: Vec3, rotation: Quat)

  function Sample(transform: Pose): FrameData
  {
    FrameData(transform.position, transform.rotation)
  }

  /** The pose a sample puts back on a transform. */
  function PoseOf(f: FrameData): (p: Pose)
    ensures Sample(p) == f
  {
    Pose(f.position, f.rotation)
  }

  /** The log after one more tick: the earlier samples untouched, one new
      sample of the current transform at the end. */
  function Appended(log: seq<FrameData>, transform: Pose): (r: seq<FrameData>)
    ensures |r| == |log| + 1
    ensures r[..|log|] == log
    ensures r[|log|] == Sample(transform)
  {
    log + [Sample(transform)]
  }

  /** The log after one tick per transform in `transforms`, in order. */
  function Recorded(log: seq<FrameData>, transforms: seq<Pose>): seq<FrameData>
    decreases |transforms|
  {
    if transforms == [] then log
    else Appended(Recorded(log, transforms[..|transforms| - 1]), transforms[|transforms| - 1])
  }

  /** A run of n ticks adds exactly n samples after the existing ones, the
      i-th of them being the transform of the i-th tick. */
  lemma {:induction false} RecordedRun(log: seq<FrameData>, transforms: seq<Pose>)
    ensures |Recorded(log, transforms)| == |log| + |transforms|
    ensures Recorded(log, transforms)[..|log|] == log
    ensures forall i :: 0 <= i < |transforms| ==>
      Recorded(log, transforms)[|log| + i] == Sample(transforms[i])
    decreases |transforms|
  {
    if transforms != [] {
      var n := |transforms| - 1;
      var before := Recorded(log, transforms[..n]);
      RecordedRun(log, transforms[..n]);
      var after := Appended(before, transforms[n]);
      assert after[..|before|] == before;
      assert after[..|log|] == before[..|log|];
      forall i | 0 <= i < |transforms|
        ensures after[|log| + i] == Sample(transforms[i])
      {
        if i < n {
          assert after[|log| + i] == before[|log| + i];
          assert transforms[..n][i] == transforms[i];
        }
      }
    }
  }

  /** From a fresh recorder, the log is exactly the sampled transforms. */
  lemma FreshRecording(transforms: seq<Pose>)
    ensures |Recorded([], transforms)| == |transforms|
    ensures forall i :: 0 <= i < |transforms| ==> Recorded([], transforms)[i] == Sample(transforms[i])
  {
    RecordedRun([], transforms);
  }

  /** Later ticks never rewrite earlier samples: the log after a run is a
      prefix of the log after any longer run. */
  lemma {:induction false} RecordingIsAppendOnly(log: seq<FrameData>, transforms: seq<Pose>, more: seq<Pose>)
    ensures Recorded(log, transforms) <= Recorded(log, transforms + more)
    decreases |more|
  {
    if more == [] {
      assert transforms + more == transforms;
    } else {
      var n := |more| - 1;
      var longer := transforms + more;
      assert longer[..|longer| - 1] == transforms + more[..n];
      RecordingIsAppendOnly(log, transforms, more[..n]);
      var mid := Recorded(log, transforms + more[..n]);
      assert Recorded(log, longer) == Appended(mid, longer[|longer| - 1]);
      assert Recorded(log, longer)[..|mid|] == mid;
    }
  }

  /** The recorder component on the ghost. `enabled` is the component's
      Behaviour flag: the engine calls `Update` only while it is set, and the
      phase manager is the one that sets and clears it. */
  class PlayerRecorder {
    var recordedFrames: seq<FrameData>
    var enabled: bool

    /** A freshly added component: empty log, enabled as Unity components are. */
    constructor ()
      ensures recordedFrames == [] && enabled
    {
      recordedFrames := [];
      enabled := true;
    }

    /** One tick: sample the current transform onto the end of the log. */
    method Update(transform: Pose)
      modifies this`recordedFrames
      ensures recordedFrames == Appended(old(recordedFrames), transform)
    {
      recordedFrames := recordedFrames + [Sample(transform)];
    }
  }
}
