/** CountdownTimer: a countdown that subtracts each tick's delta while
    running, clamps at zero and stops, and displays the remaining time
    rounded up to whole seconds. */
module Countdown {
  import opened Engine

  /** The `customDuration` that `StartTimer()` receives when called with no
      argument. */
  const DefaultCustomDuration: real := -1.0

  /** The timer's state. `shown` is the number last written to the timer
      text (`None` while the text still holds what the scene gave it). */
  datatype Clock = Clock(duration: real, isRunning: bool, enabled: bool, timeRemaining: real, shown: Option<int>)

  /** `StartTimer(customDuration)`. */
  function Started(c: Clock, customDuration: real): (r: Clock)
    ensures r.isRunning && r.enabled
    ensures customDuration > 0.0 ==> r.timeRemaining == customDuration
    ensures customDuration <= 0.0 ==> r.timeRemaining == c.duration
    ensures r.duration == c.duration && r.shown == c.shown
  {
    c.(timeRemaining := if customDuration > 0.0 then customDuration else c.duration,
       isRunning := true, enabled := true)
  }

  /** `StartTimer()` with no argument runs for the inspector `duration`. */
  lemma StartTimerWithoutArgument(c: Clock)
    ensures Started(c, DefaultCustomDuration) == c.(timeRemaining := c.duration, isRunning := true, enabled := true)
  {
  }

  /** One `Update` with frame time `dt`. */
  function Tick(c: Clock, dt: real): (r: Clock)
    ensures !c.isRunning ==> r == c
    ensures c.isRunning ==> r.timeRemaining >= 0.0
    ensures c.isRunning ==> r.shown == Some(CeilToInt(r.timeRemaining)) && r.shown.value >= 0
    ensures c.isRunning ==> (r.isRunning <==> c.timeRemaining - dt > 0.0)
    ensures r.isRunning ==> r.timeRemaining == c.timeRemaining - dt && r.enabled == c.enabled
    ensures c.isRunning && !r.isRunning ==> r.timeRemaining == 0.0 && !r.enabled
    ensures r.duration == c.duration
  {
    if !c.isRunning then c
    else
      var t := c.timeRemaining - dt;
      var c' := if t <= 0.0 then c.(timeRemaining := 0.0, isRunning := false, enabled := false)
                else c.(timeRemaining := t);
      c'.(shown := Some(CeilToInt(c'.timeRemaining)))
  }

  /** The timer after one tick per entry of `dts`. */
  function Run(c: Clock, dts: seq<real>): Clock
    decreases |dts|
  {
    if dts == [] then c else Tick(Run(c, dts[..|dts| - 1]), dts[|dts| - 1])
  }

  /** How many ticks of the run stopped the timer. */
  function Stops(c: Clock, dts: seq<real>): nat
    decreases |dts|
  {
    if dts == [] then 0
    else
      var before := Run(c, dts[..|dts| - 1]);
      Stops(c, dts[..|dts| - 1]) + if before.isRunning && !Tick(before, dts[|dts| - 1]).isRunning then 1 else 0
  }

  /** A stopped timer stays exactly as it is, whatever ticks follow. */
  lemma {:induction false} StoppedStaysStopped(c: Clock, dts: seq<real>)
    requires !c.isRunning
    ensures Run(c, dts) == c && Stops(c, dts) == 0
    decreases |dts|
  {
    if dts != [] {
      StoppedStaysStopped(c, dts[..|dts| - 1]);
    }
  }

  /** Between two starts the timer stops at most once. */
  lemma {:induction false} StopsAtMostOnce(c: Clock, dts: seq<real>)
    ensures Stops(c, dts) <= 1
    ensures Stops(c, dts) == 1 ==> !Run(c, dts).isRunning
    ensures Run(c, dts).isRunning ==> Stops(c, dts) == 0
    decreases |dts|
  {
    if dts != [] {
      StopsAtMostOnce(c, dts[..|dts| - 1]);
    }
  }

  /** Once a running timer has ticked, its remaining time is never negative
      again, and neither is the number it shows. */
  lemma {:induction false} RemainingNeverNegative(c: Clock, dts: seq<real>)
    requires c.isRunning && dts != []
    ensures Run(c, dts).timeRemaining >= 0.0
    ensures Run(c, dts).shown.Some? && Run(c, dts).shown.value >= 0
    decreases |dts|
  {
    if |dts| > 1 {
      RemainingNeverNegative(c, dts[..|dts| - 1]);
    } else {
      assert dts[..0] == [];
    }
  }

  /** The timer component. */
  class CountdownTimer {
    var duration: real
    var isRunning: bool
    var enabled: bool
    var timeRemaining: real
    var shownSeconds: Option<int>

    function State(): Clock
      reads this
    {
      Clock(duration, isRunning, enabled, timeRemaining, shownSeconds)
    }

    /** A timer placed in the scene with the given inspector `duration`. */
    constructor (duration: real)
      ensures State() == Clock(duration, false, true, 0.0, None)
    {
      this.duration := duration;
      isRunning := false;
      enabled := true;
      timeRemaining := 0.0;
      shownSeconds := None;
    }

    method StartTimer(customDuration: real)
      modifies this
      ensures State() == Started(old(State()), customDuration)
    {
      timeRemaining := if customDuration > 0.0 then customDuration else duration;
      isRunning := true;
      enabled := true;
    }

    method Update(dt: real)
      modifies this
      ensures State() == Tick(old(State()), dt)
    {
      if !isRunning {
        return;
      }
      timeRemaining := timeRemaining - dt;
      if timeRemaining <= 0.0 {
        timeRemaining := 0.0;
        isRunning := false;
        enabled := false;
      }
      var seconds := CeilToInt(timeRemaining);
      shownSeconds := Some(seconds);
    }
  }
}
