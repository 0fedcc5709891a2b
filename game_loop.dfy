/**
 * The fixed-timestep loop of src/systems/GameLoop.ts.  The host's clock and
 * frame scheduler are parameters: `start` receives `performance.now()` and
 * the id `requestAnimationFrame` hands back, `mainLoop` the callback's
 * timestamp and the id of the next request.  The `update` and `render`
 * callbacks are not run; `MainLoop` returns the calls it makes, in order.
 */
module Loop {
  import opened Options

  datatype LoopCall = Update(dt: real) | Render

  /** 1000/60 ms: sixty updates per second. */
  const TimeStep: real := 1000.0 / 60.0

  /** `k` calls `update(timeStep)`. */
  function Updates(k: nat): (r: seq<LoopCall>)
    ensures |r| == k
    ensures forall i :: 0 <= i < k ==> r[i] == Update(TimeStep)
  {
    seq(k, _ => Update(TimeStep))
  }

  /** How many whole steps the drain takes out of `acc` and what it leaves in the accumulator. */
  function Drain(acc: real): (r: (nat, real))
    ensures r.0 as real * TimeStep + r.1 == acc
    ensures r.1 < TimeStep
    ensures r.0 > 0 ==> 0.0 <= r.1
    decreases if acc < TimeStep then 0 else (acc / TimeStep).Floor
  {
    if acc < TimeStep then (0, acc)
    else
      var rest := Drain(acc - TimeStep);
      (rest.0 + 1, rest.1)
  }

  /** The drain's result is the only split of `acc` into whole steps and a remainder that stops the loop. */
  lemma {:induction false} DrainUnique(acc: real, k: nat, rest: real)
    requires k as real * TimeStep + rest == acc
    requires rest < TimeStep
    requires k > 0 ==> 0.0 <= rest
    ensures Drain(acc) == (k, rest)
    decreases k
  {
    if k == 0 {
    } else {
      assert acc >= TimeStep;
      DrainUnique(acc - TimeStep, k - 1, rest);
    }
  }

  /** A callback exactly one step after the last, with an empty accumulator, runs one update. */
  lemma OneStepPerFrame()
    ensures Drain(TimeStep) == (1, 0.0)
  {
    DrainUnique(TimeStep, 1, 0.0);
  }

  class GameLoop {
    var lastFrameTime: real
    var accumulatedTime: real
    const timeStep: real := TimeStep
    var requestAnimationFrameId: Option<int>
    var isRunning: bool

    constructor()
      ensures lastFrameTime == 0.0 && accumulatedTime == 0.0
      ensures requestAnimationFrameId == None && !isRunning
    {
      lastFrameTime := 0.0;
      accumulatedTime := 0.0;
      requestAnimationFrameId := None;
      isRunning := false;
    }

    /** Starts a stopped loop at time `now`, scheduling the callback under `frameId`; a running loop is left alone. */
    method Start(now: real, frameId: int)
      modifies this
      ensures old(isRunning) ==> unchanged(this)
      ensures !old(isRunning) ==>
        && isRunning && lastFrameTime == now && requestAnimationFrameId == Some(frameId)
        && accumulatedTime == old(accumulatedTime)
    {
      if !isRunning {
        isRunning := true;
        lastFrameTime := now;
        requestAnimationFrameId := Some(frameId);
      }
    }

    /**
     * Stops the loop, returning the pending request it cancels, if any.
     * Stopping twice is the same as once, and the accumulator is kept.
     */
    method Stop() returns (cancelled: Option<int>)
      modifies this
      ensures cancelled == old(requestAnimationFrameId)
      ensures requestAnimationFrameId == None && !isRunning
      ensures lastFrameTime == old(lastFrameTime) && accumulatedTime == old(accumulatedTime)
    {
      cancelled := requestAnimationFrameId;
      requestAnimationFrameId := None;
      isRunning := false;
    }

    /**
     * One host callback at `timestamp`.  A stopped loop does nothing.  A
     * running one adds the elapsed time to the accumulator, calls
     * `update(timeStep)` while a whole step is left, then `render()` once,
     * and schedules itself again under `nextFrameId`.
     */
    method MainLoop(timestamp: real, nextFrameId: int) returns (calls: seq<LoopCall>)
      modifies this
      ensures !old(isRunning) ==> calls == [] && unchanged(this)
      ensures old(isRunning) ==>
        var drained := Drain(old(accumulatedTime) + (timestamp - old(lastFrameTime)));
        && calls == Updates(drained.0) + [Render]
        && accumulatedTime == drained.1
        && lastFrameTime == timestamp
        && requestAnimationFrameId == Some(nextFrameId)
        && isRunning
    {
      if !isRunning {
        return [];
      }
      var deltaTime := timestamp - lastFrameTime;
      lastFrameTime := timestamp;
      accumulatedTime := accumulatedTime + deltaTime;
      ghost var total := accumulatedTime;
      calls := [];
      while accumulatedTime >= timeStep
        invariant |calls| as real * TimeStep + accumulatedTime == total
        invariant calls == Updates(|calls|)
        invariant |calls| > 0 ==> 0.0 <= accumulatedTime
        invariant lastFrameTime == timestamp && isRunning
        decreases (accumulatedTime / TimeStep).Floor
      {
        calls := calls + [Update(timeStep)];
        accumulatedTime := accumulatedTime - timeStep;
      }
      DrainUnique(total, |calls|, accumulatedTime);
      calls := calls + [Render];
      requestAnimationFrameId := Some(nextFrameId);
    }
  }

  /** `render` comes last and exactly once, after every `update`. */
  lemma RenderOnceAfterUpdates(k: nat)
    ensures var calls := Updates(k) + [Render];
      && calls[|calls| - 1] == Render
      && forall i :: 0 <= i < |calls| - 1 ==> calls[i] == Update(TimeStep)
  {
  }

  /**
   * Three callbacks one step apart after a start at `t0` each run exactly
   * one update and one render and leave the accumulator empty.
   */
  method SteadyRate(t0: real) returns (first: seq<LoopCall>, second: seq<LoopCall>, third: seq<LoopCall>)
    ensures first == second == third == [Update(TimeStep), Render]
  {
    var loop := new GameLoop();
    loop.Start(t0, 1);
    first := loop.MainLoop(t0 + TimeStep, 2);
    OneStepPerFrame();
    assert loop.accumulatedTime == 0.0;
    second := loop.MainLoop(t0 + 2.0 * TimeStep, 3);
    third := loop.MainLoop(t0 + 3.0 * TimeStep, 4);
  }
}
