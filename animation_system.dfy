/**
 * The multi-clip controller of src/systems/animation/AnimationSystem.ts: a
 * fixed table of named clips and the key of the clip that plays.  When the
 * table is built, `keys` is the order `Object.keys` lists its names in.
 */
module ClipControl {
  import opened Options
  import opened Clips

  /** JavaScript truthiness of `activeKey`: null and the empty string are falsy. */
  predicate Truthy(key: Option<string>) {
    key.Some? && key.value != ""
  }

  class AnimationSystem {
    const patterns: map<string, AnimationFramePattern>
    var activeKey: Option<string>

    /** The active key is unset or names a clip of the table. */
    ghost predicate Valid()
      reads this
    {
      activeKey.Some? ==> activeKey.value in patterns
    }

    /** The clips of the table (what `play` and `step` may change). */
    function Clips(): set<AnimationFramePattern> {
      patterns.Values
    }

    /** The guard `this.activeKey && this.patterns[this.activeKey]`. */
    predicate HasActive()
      reads this
    {
      Truthy(activeKey) && activeKey.value in patterns
    }

    /** What the `frame` getter yields: the active clip's frame, 0 without an active clip. */
    ghost function CurrentFrame(): Option<int>
      reads this, patterns.Values
    {
      if HasActive() then FrameAt(patterns[activeKey.value].config.frames, patterns[activeKey.value].currentTime)
      else Some(0)
    }

    /** The first listed clip plays; with no clips nothing does. */
    constructor(keys: seq<string>, patterns: map<string, AnimationFramePattern>)
      requires forall k :: k in keys <==> k in patterns
      ensures this.patterns == patterns
      ensures activeKey == if |keys| > 0 then Some(keys[0]) else None
      ensures Valid()
    {
      this.patterns := patterns;
      activeKey := if |keys| > 0 then Some(keys[0]) else None;
    }

    /** The active clip's frame, 0 without an active clip; None where the clip's lookup throws. */
    method Frame() returns (r: Option<int>)
      ensures r == CurrentFrame()
      ensures !HasActive() ==> r == Some(0)
    {
      if HasActive() {
        r := patterns[activeKey.value].Frame();
      } else {
        r := Some(0);
      }
    }

    /**
     * Switches to clip `key` starting at `startAtTime`.  Playing the active
     * key again changes nothing (the clip is not rewound); an unknown key is
     * ignored.  Only the newly active clip's clock is set.
     */
    method Play(key: string, startAtTime: real := 0.0)
      modifies this`activeKey, Clips()
      ensures old(Valid()) ==> Valid()
      ensures old(activeKey) == Some(key) ==> activeKey == old(activeKey) && unchanged(Clips())
      ensures old(activeKey) != Some(key) && key !in patterns ==> activeKey == old(activeKey) && unchanged(Clips())
      ensures old(activeKey) != Some(key) && key in patterns ==>
        && activeKey == Some(key)
        && patterns[key].currentTime == startAtTime
        && forall p :: p in Clips() && p != patterns[key] ==> p.currentTime == old(p.currentTime)
    {
      if activeKey == Some(key) {
        return;
      }
      if key !in patterns {
        return;
      }
      activeKey := Some(key);
      patterns[key].currentTime := startAtTime;
    }

    /** Advances the active clip only; without an active clip nothing changes. */
    method Step(delta: real)
      modifies Clips()
      ensures HasActive() ==>
        var p := patterns[activeKey.value];
        && p.currentTime == Advanced(old(p.currentTime), delta, p.duration)
        && forall q :: q in Clips() && q != p ==> q.currentTime == old(q.currentTime)
      ensures !HasActive() ==> unchanged(Clips())
    {
      if HasActive() {
        patterns[activeKey.value].Step(delta);
      }
    }
  }
}

/**
 * The older controller of src/systems/Animations.ts.  It differs from
 * AnimationSystem in `play`: the key is made active before it is looked
 * up, so an unknown key throws with the active key already overwritten.
 * Its clips are FrameIndexPattern objects in the source; that class is not
 * part of this model and its clips are modelled by AnimationFramePattern.
 */
module LegacyAnimations {
  import opened Options
  import opened Clips
  import opened ClipControl

  class Animations {
    const patterns: map<string, AnimationFramePattern>
    var activeKey: Option<string>

    function Clips(): set<AnimationFramePattern> {
      patterns.Values
    }

    /** Different keys name different pattern objects, so each clip keeps its own clock. */
    predicate DistinctClips() {
      forall k1, k2 :: k1 in patterns && k2 in patterns && k1 != k2 ==> patterns[k1] != patterns[k2]
    }

    predicate HasActive()
      reads this
    {
      Truthy(activeKey) && activeKey.value in patterns
    }

    /** What the `frame` getter yields: the active clip's frame, 0 without an active clip. */
    ghost function CurrentFrame(): Option<int>
      reads this, patterns.Values
    {
      if HasActive() then FrameAt(patterns[activeKey.value].config.frames, patterns[activeKey.value].currentTime)
      else Some(0)
    }

    constructor(keys: seq<string>, patterns: map<string, AnimationFramePattern>)
      requires forall k :: k in keys <==> k in patterns
      ensures this.patterns == patterns
      ensures activeKey == if |keys| > 0 then Some(keys[0]) else None
    {
      this.patterns := patterns;
      activeKey := if |keys| > 0 then Some(keys[0]) else None;
    }

    /** The active clip's frame, 0 without an active clip; None where the clip's lookup throws. */
    method Frame() returns (r: Option<int>)
      ensures r == CurrentFrame()
      ensures !HasActive() ==> r == Some(0)
    {
      if HasActive() {
        r := patterns[activeKey.value].Frame();
      } else {
        r := Some(0);
      }
    }

    /**
     * Switches to clip `key`.  `ok` is false where the source throws: the
     * key is unknown, and `activeKey` has already been set to it.
     */
    method Play(key: string, startAtTime: real := 0.0) returns (ok: bool)
      modifies this`activeKey, Clips()
      ensures old(activeKey) == Some(key) ==> ok && activeKey == old(activeKey) && unchanged(Clips())
      ensures old(activeKey) != Some(key) ==> activeKey == Some(key)
      ensures old(activeKey) != Some(key) ==> (ok <==> key in patterns)
      ensures old(activeKey) != Some(key) && key !in patterns ==> unchanged(Clips())
      ensures old(activeKey) != Some(key) && key in patterns ==>
        && patterns[key].currentTime == startAtTime
        && forall p :: p in Clips() && p != patterns[key] ==> p.currentTime == old(p.currentTime)
    {
      if activeKey == Some(key) {
        return true;
      }
      activeKey := Some(key);
      if key in patterns {
        patterns[key].currentTime := startAtTime;
        ok := true;
      } else {
        ok := false;
      }
    }

    /** Advances the active clip only; without an active clip nothing changes. */
    method Step(delta: real)
      modifies Clips()
      ensures HasActive() ==>
        var p := patterns[activeKey.value];
        && p.currentTime == Advanced(old(p.currentTime), delta, p.duration)
        && forall q :: q in Clips() && q != p ==> q.currentTime == old(q.currentTime)
      ensures !HasActive() ==> unchanged(Clips())
    {
      if HasActive() {
        patterns[activeKey.value].Step(delta);
      }
    }
  }
}
