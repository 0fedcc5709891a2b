/**
 * One animation clip (src/systems/animation/AnimationFramePattern.ts) and
 * its configuration (src/core/AnimationConfig.ts): keyframes `(time, frame)`
 * and a duration, played by a clock `currentTime` that jumps back to 0 when
 * it reaches the duration.  Times are real numbers of milliseconds.
 */
module Clips {
  import opened Options

  datatype Keyframe = Keyframe(time: real, frame: int)

  /** `duration` may be left out of a configuration; the clip then uses 500 ms. */
  datatype AnimationConfig = AnimationConfig(duration: Option<real>, frames: seq<Keyframe>)

  const DefaultDuration: real := 500.0

  /** The duration a clip built from `config` uses (`config.duration ?? 500`). */
  function DurationOf(config: AnimationConfig): real {
    if config.duration.Some? then config.duration.value else DefaultDuration
  }

  /** Index of the last keyframe whose time is at or before `t`, or None when every keyframe is later. */
  function LastAtOrBefore(frames: seq<Keyframe>, t: real): (r: Option<nat>)
    ensures r.None? <==> forall i :: 0 <= i < |frames| ==> t < frames[i].time
    ensures r.Some? ==> r.value < |frames| && frames[r.value].time <= t
    ensures r.Some? ==> forall j :: r.value < j < |frames| ==> t < frames[j].time
    decreases |frames|
  {
    if frames == [] then None
    else if frames[|frames| - 1].time <= t then Some(|frames| - 1)
    else LastAtOrBefore(frames[..|frames| - 1], t)
  }

  /** The frame shown at time `t`, or None where the source throws "before the first keyframe". */
  function FrameAt(frames: seq<Keyframe>, t: real): Option<int> {
    match LastAtOrBefore(frames, t)
    case None => None
    case Some(i) => Some(frames[i].frame)
  }

  /** The clock after `step(delta)`: advanced, or reset to exactly 0 once it reaches the duration. */
  function Advanced(t: real, delta: real, duration: real): real {
    if t + delta >= duration then 0.0 else t + delta
  }

  /** For non-negative steps the clock stays in [0, duration). */
  lemma AdvancedStaysInRange(t: real, delta: real, duration: real)
    requires 0.0 <= t < duration && 0.0 <= delta
    ensures 0.0 <= Advanced(t, delta, duration) < duration
  {
  }

  /** The reset discards the excess: it is not a remainder. */
  lemma AdvancedDiscardsExcess(t: real, delta: real, duration: real)
    requires t + delta >= duration
    ensures Advanced(t, delta, duration) == 0.0
  {
  }

  /** A clip with a keyframe at time 0 always has a frame for times in [0, duration). */
  lemma FrameDefinedFromZero(frames: seq<Keyframe>, t: real)
    requires |frames| > 0 && frames[0].time == 0.0 && 0.0 <= t
    ensures FrameAt(frames, t).Some?
  {
  }

  /** Keyframes (0,A), (100,B), (200,C) over 300 ms: A at 0, B at 150, C at 250, and A again after a step of 350. */
  lemma ThreeKeyframeExample(a: int, b: int, c: int)
    ensures var frames := [Keyframe(0.0, a), Keyframe(100.0, b), Keyframe(200.0, c)];
      && FrameAt(frames, 0.0) == Some(a)
      && FrameAt(frames, 150.0) == Some(b)
      && FrameAt(frames, 250.0) == Some(c)
      && Advanced(0.0, 350.0, 300.0) == 0.0
      && FrameAt(frames, Advanced(0.0, 350.0, 300.0)) == Some(a)
  {
    var frames := [Keyframe(0.0, a), Keyframe(100.0, b), Keyframe(200.0, c)];
    assert LastAtOrBefore(frames, 0.0) == Some(0);
    assert LastAtOrBefore(frames, 150.0) == Some(1);
    assert LastAtOrBefore(frames, 250.0) == Some(2);
  }

  class AnimationFramePattern {
    const config: AnimationConfig
    const duration: real
    var currentTime: real

    constructor(config: AnimationConfig)
      ensures this.config == config
      ensures duration == DurationOf(config)
      ensures currentTime == 0.0
    {
      this.config := config;
      duration := DurationOf(config);
      currentTime := 0.0;
    }

    /**
     * The `frame` getter: scans the keyframes from the last one down and
     * returns the first whose time is at or before the clock; None when the
     * clock is before every keyframe.  It changes nothing.
     */
    method Frame() returns (r: Option<int>)
      ensures r == FrameAt(config.frames, currentTime)
    {
      var frames := config.frames;
      var i := |frames| - 1;
      while i >= 0
        invariant -1 <= i < |frames|
        invariant forall j :: i < j < |frames| ==> currentTime < frames[j].time
      {
        if currentTime >= frames[i].time {
          return Some(frames[i].frame);
        }
        i := i - 1;
      }
      return None;
    }

    /** Advances the clock by `delta`, resetting it to 0 when it reaches the duration. */
    method Step(delta: real)
      modifies this`currentTime
      ensures currentTime == Advanced(old(currentTime), delta, duration)
      ensures old(0.0 <= currentTime < duration) && 0.0 <= delta ==> 0.0 <= currentTime < duration
    {
      currentTime := currentTime + delta;
      if currentTime >= duration {
        currentTime := 0.0;
      }
    }
  }
}
