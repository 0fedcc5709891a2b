/**
 * The hero of src/entities/Hero/Hero.ts: a scene node with a shadow and a
 * body sprite, a facing direction and a destination cell.  Once the hero
 * has arrived, a held direction proposes the neighbouring grid cell, which
 * becomes the destination only when no wall occupies it.
 *
 * Parameters stand for what comes from modules outside this model: the
 * eight clip configurations (module heroAnimation), the wall keys (module
 * levels/level1), whether `moveTowards` reports the hero as arrived, and the
 * `input` object of the root.  The direction names are those of
 * src/systems/InputSystem.ts.
 */
module Heroes {
  import opened Options
  import opened Geometry
  import opened Clips
  import opened ClipControl
  import opened LegacyAnimations
  import opened SpriteSheet
  import opened Scene
  import HelperGrid
  import Input

  /** The configurations the body's eight clips are built from. */
  datatype HeroClips = HeroClips(
    walkDown: AnimationConfig, walkUp: AnimationConfig, walkLeft: AnimationConfig, walkRight: AnimationConfig,
    standDown: AnimationConfig, standUp: AnimationConfig, standLeft: AnimationConfig, standRight: AnimationConfig)

  /** The clip names, in the order of the object literal the controller is built from. */
  const ClipKeys: seq<string> :=
    ["walkDown", "walkUp", "walkLeft", "walkRight", "standDown", "standUp", "standLeft", "standRight"]

  const GridSize: int := 16

  /** `root.input`: an input whose `direction` may be undefined. */
  datatype InputView = InputView(direction: Option<string>)

  /** The change of destination one step in `direction` proposes. */
  function Offset(direction: string): (o: Vec)
    ensures direction == Input.Down ==> o == Vec(0, GridSize)
    ensures direction == Input.Up ==> o == Vec(0, -GridSize)
    ensures direction == Input.Left ==> o == Vec(-GridSize, 0)
    ensures direction == Input.Right ==> o == Vec(GridSize, 0)
    ensures !Input.IsDirection(direction) ==> o == Vec(0, 0)
  {
    if direction == Input.Down then Vec(0, GridSize)
    else if direction == Input.Up then Vec(0, -GridSize)
    else if direction == Input.Left then Vec(-GridSize, 0)
    else if direction == Input.Right then Vec(GridSize, 0)
    else Vec(0, 0)
  }

  /** The cell next to `p` in `direction`. */
  function NextCell(p: Vec, direction: string): Vec {
    Vec(p.x + Offset(direction).x, p.y + Offset(direction).y)
  }

  /** The walk clip of a direction. */
  function WalkKey(direction: string): string
    requires Input.IsDirection(direction)
  {
    if direction == Input.Down then "walkDown"
    else if direction == Input.Up then "walkUp"
    else if direction == Input.Left then "walkLeft"
    else "walkRight"
  }

  /** The stand clip of a direction. */
  function StandKey(direction: string): string
    requires Input.IsDirection(direction)
  {
    if direction == Input.Left then "standLeft"
    else if direction == Input.Right then "standRight"
    else if direction == Input.Up then "standUp"
    else "standDown"
  }

  /** Both pixel coordinates are whole grid cells. */
  predicate OnGrid(p: Vec) {
    p.x % GridSize == 0 && p.y % GridSize == 0
  }

  /** Every direction moves exactly one cell along one axis. */
  lemma OneCellAway(p: Vec, direction: string)
    requires Input.IsDirection(direction)
    ensures var q := NextCell(p, direction);
      (q.x == p.x && (q.y - p.y == GridSize || p.y - q.y == GridSize))
      || (q.y == p.y && (q.x - p.x == GridSize || p.x - q.x == GridSize))
  {
  }

  /** A step and the step back return to the start. */
  lemma OppositeStepsCancel(p: Vec)
    ensures NextCell(NextCell(p, Input.Down), Input.Up) == p
    ensures NextCell(NextCell(p, Input.Left), Input.Right) == p
  {
  }

  /** Stepping from a grid cell lands on a grid cell. */
  lemma StepKeepsGrid(p: Vec, direction: string)
    requires OnGrid(p)
    ensures OnGrid(NextCell(p, direction))
  {
    var o := Offset(direction);
    assert o.x % GridSize == 0 && o.y % GridSize == 0;
    AddMultiple(p.x, o.x);
    AddMultiple(p.y, o.y);
  }

  lemma AddMultiple(a: int, b: int)
    requires a % GridSize == 0 && b % GridSize == 0
    ensures (a + b) % GridSize == 0
  {
    assert a == GridSize * (a / GridSize);
    assert b == GridSize * (b / GridSize);
    assert a + b == GridSize * (a / GridSize + b / GridSize);
  }

  /** Each clip key names its own clip; the table is keyed by exactly these names. */
  lemma ClipKeysOfDirections(direction: string)
    requires Input.IsDirection(direction)
    ensures WalkKey(direction) in ClipKeys && StandKey(direction) in ClipKeys
  {
  }

  /** The clip configurations, in the order of ClipKeys. */
  function ClipConfigs(clips: HeroClips): (r: seq<AnimationConfig>)
    ensures |r| == |ClipKeys|
  {
    [clips.walkDown, clips.walkUp, clips.walkLeft, clips.walkRight,
     clips.standDown, clips.standUp, clips.standLeft, clips.standRight]
  }

  /** The object literal the controller is built from: the i-th clip name bound to the i-th pattern. */
  function ClipTable(objs: seq<AnimationFramePattern>): map<string, AnimationFramePattern>
    requires |objs| == |ClipKeys|
  {
    map["walkDown" := objs[0], "walkUp" := objs[1], "walkLeft" := objs[2], "walkRight" := objs[3],
        "standDown" := objs[4], "standUp" := objs[5], "standLeft" := objs[6], "standRight" := objs[7]]
  }

  lemma ClipTableKeys(objs: seq<AnimationFramePattern>)
    requires |objs| == |ClipKeys|
    ensures forall k :: k in ClipTable(objs) <==> k in ClipKeys
  {
  }

  lemma ClipTableLookup(objs: seq<AnimationFramePattern>)
    requires |objs| == |ClipKeys|
    ensures forall i :: 0 <= i < |ClipKeys| ==> ClipKeys[i] in ClipTable(objs) && ClipTable(objs)[ClipKeys[i]] == objs[i]
  {
  }

  /** Distinct patterns make the table's values distinct: no two clip names share a clock. */
  lemma ClipTableDistinct(objs: seq<AnimationFramePattern>)
    requires |objs| == |ClipKeys|
    requires forall i, j :: 0 <= i < j < |objs| ==> objs[i] != objs[j]
    ensures forall k1, k2 :: k1 in ClipTable(objs) && k2 in ClipTable(objs) && k1 != k2 ==>
      ClipTable(objs)[k1] != ClipTable(objs)[k2]
  {
    ClipTableKeys(objs);
    ClipTableLookup(objs);
    forall k1, k2 | k1 in ClipTable(objs) && k2 in ClipTable(objs) && k1 != k2
      ensures ClipTable(objs)[k1] != ClipTable(objs)[k2]
    {
      var i :| 0 <= i < |ClipKeys| && ClipKeys[i] == k1;
      var j :| 0 <= j < |ClipKeys| && ClipKeys[j] == k2;
      assert i != j;
      if i < j {
        assert objs[i] != objs[j];
      } else {
        assert objs[j] != objs[i];
      }
    }
  }

  /** The eight `new FrameIndexPattern(...)` of the controller's literal, in ClipKeys order. */
  method NewPatterns(clips: HeroClips) returns (objs: seq<AnimationFramePattern>)
    ensures |objs| == |ClipKeys|
    ensures forall i, j :: 0 <= i < j < |objs| ==> objs[i] != objs[j]
    ensures forall i :: 0 <= i < |objs| ==>
      fresh(objs[i]) && objs[i].currentTime == 0.0 && objs[i].config == ClipConfigs(clips)[i]
  {
    var walkDown := new AnimationFramePattern(clips.walkDown);
    var walkUp := new AnimationFramePattern(clips.walkUp);
    var walkLeft := new AnimationFramePattern(clips.walkLeft);
    var walkRight := new AnimationFramePattern(clips.walkRight);
    var standDown := new AnimationFramePattern(clips.standDown);
    var standUp := new AnimationFramePattern(clips.standUp);
    var standLeft := new AnimationFramePattern(clips.standLeft);
    var standRight := new AnimationFramePattern(clips.standRight);
    objs := [walkDown, walkUp, walkLeft, walkRight, standDown, standUp, standLeft, standRight];
  }

  /**
   * The body's controller: one fresh pattern per clip at time 0, keyed by
   * clip name, no two names sharing a pattern, with walkDown active.
   */
  method NewController(clips: HeroClips) returns (a: Animations)
    ensures fresh(a)
    ensures forall k :: k in a.patterns <==> k in ClipKeys
    ensures a.DistinctClips()
    ensures a.activeKey == Some("walkDown")
    ensures forall i :: 0 <= i < |ClipKeys| ==>
      var p := a.patterns[ClipKeys[i]];
      fresh(p) && p.currentTime == 0.0 && p.config == ClipConfigs(clips)[i]
  {
    var objs := NewPatterns(clips);
    ClipTableKeys(objs);
    ClipTableLookup(objs);
    ClipTableDistinct(objs);
    a := new Animations(ClipKeys, ClipTable(objs));
  }

  class Hero {
    const node: GameObject
    const shadow: Sprite
    const body: Sprite
    /** The sprites added with `addChild`, in order. */
    const children: seq<Sprite>
    var facingDirection: string
    const destinationPosition: Vector2
    const walls: set<string>

    /** The body's controller holds exactly the eight clips. */
    ghost predicate Valid()
      reads this, body
    {
      && children == [shadow, body]
      && (forall k :: k in body.animations.patterns <==> k in ClipKeys)
      && body.animations.DistinctClips()
    }

    /** The hero at (x, y), facing down, with its destination on its own cell. */
    constructor(x: int, y: int, id: nat, clips: HeroClips, walls: set<string>)
      ensures Valid()
      ensures fresh(node) && node.position == Vec(x, y) && node.Valid() && node.children == []
      ensures fresh(shadow) && shadow.resource == "shadow" && shadow.frameSize == Vec(32, 32)
      ensures shadow.hFrames == 1 && shadow.vFrames == 1 && shadow.position == Vec(-8, -19)
      ensures fresh(body) && body.resource == "hero" && body.frameSize == Vec(32, 32)
      ensures body.hFrames == 3 && body.vFrames == 8 && body.position == Vec(-8, -21)
      ensures shadow.Valid() && body.Valid()
      ensures body.animations.activeKey == Some("walkDown")
      ensures forall i :: 0 <= i < |ClipKeys| ==>
        var p := body.animations.patterns[ClipKeys[i]];
        fresh(p) && p.currentTime == 0.0 && p.config == ClipConfigs(clips)[i]
      ensures facingDirection == Input.Down
      ensures fresh(destinationPosition) && destinationPosition.Value() == Vec(x, y)
      ensures this.walls == walls
    {
      node := new GameObject(id, Some(Vec(x, y)));
      shadow := new Sprite("shadow", Some(Vec(32, 32)), position := Vec(-8, -19));
      var animations := NewController(clips);
      body := new Sprite("hero", Some(Vec(32, 32)), Some(3), Some(8), position := Vec(-8, -21),
                         animations := Some(animations));
      children := [shadow, body];
      facingDirection := Input.Down;
      destinationPosition := new Vector2(x, y);
      this.walls := walls;
    }

    /**
     * One frame: with the hero arrived and an input present the move rule
     * runs; the body sprite steps in every case.  `ok` is false where the
     * body's frame lookup throws.
     */
    method Step(delta: real, arrived: bool, input: Option<InputView>) returns (ok: bool)
      requires Valid()
      modifies this`facingDirection, destinationPosition, body`frame, body.animations`activeKey, body.animations.Clips()
      ensures Valid()
      ensures !(arrived && input.Some?) ==>
        facingDirection == old(facingDirection) && destinationPosition.Value() == old(destinationPosition.Value())
        && body.animations.activeKey == old(body.animations.activeKey)
      ensures arrived && input.Some? ==> Moved(input.value, old(facingDirection), old(destinationPosition.Value()),
                                              old(body.animations.activeKey))
      ensures ok <==> body.animations.CurrentFrame().Some?
      ensures ok ==> body.frame == body.animations.CurrentFrame().value
      ensures old(!HelperGrid.IsSpaceFree(walls, destinationPosition.x, destinationPosition.y)) ||
              HelperGrid.IsSpaceFree(walls, destinationPosition.x, destinationPosition.y)
      ensures OnGrid(old(destinationPosition.Value())) ==> OnGrid(destinationPosition.Value())
    {
      if arrived && input.Some? {
        TryMove(input.value);
      }
      ok := body.Step(delta);
    }

    /**
     * How the move rule leaves facing, destination and active clip, given
     * their values before it ran.
     */
    ghost predicate Moved(input: InputView, facing: string, dest: Vec, active: Option<string>)
      reads this, destinationPosition, body, body.animations
    {
      if !Truthy(input.direction) then
        && facingDirection == facing
        && destinationPosition.Value() == dest
        && body.animations.activeKey == (if Input.IsDirection(facing) then Some(StandKey(facing)) else active)
      else
        var d := input.direction.value;
        var next := NextCell(dest, d);
        && facingDirection == d
        && destinationPosition.Value() == (if HelperGrid.IsSpaceFree(walls, next.x, next.y) then next else dest)
        && body.animations.activeKey == (if Input.IsDirection(d) then Some(WalkKey(d)) else active)
    }

    /**
     * Without a direction the stand clip of the facing direction plays.
     * With one, the walk clip plays, the hero faces that way whether or not
     * it can move, and the destination moves one cell exactly when the
     * cell is free.
     */
    method TryMove(input: InputView)
      requires Valid()
      modifies this`facingDirection, destinationPosition, body.animations`activeKey, body.animations.Clips()
      ensures Valid()
      ensures Moved(input, old(facingDirection), old(destinationPosition.Value()), old(body.animations.activeKey))
      ensures Truthy(input.direction) && Input.IsDirection(input.direction.value) ==>
        ClipPlayed(WalkKey(input.direction.value), old(body.animations.activeKey))
      ensures !Truthy(input.direction) && Input.IsDirection(old(facingDirection)) ==>
        ClipPlayed(StandKey(old(facingDirection)), old(body.animations.activeKey))
      ensures (Truthy(input.direction) && !Input.IsDirection(input.direction.value)) ||
              (!Truthy(input.direction) && !Input.IsDirection(old(facingDirection))) ==>
        unchanged(body.animations.Clips())
      ensures old(!HelperGrid.IsSpaceFree(walls, destinationPosition.x, destinationPosition.y)) ||
              HelperGrid.IsSpaceFree(walls, destinationPosition.x, destinationPosition.y)
      ensures OnGrid(old(destinationPosition.Value())) ==> OnGrid(destinationPosition.Value())
    {
      if !Truthy(input.direction) {
        PlayStandAnimation();
        return;
      }
      StepTowards(input.direction.value);
    }

    /**
     * The branch of `tryMove` with a direction: the walk clip plays, the
     * hero faces `direction`, and the destination moves one cell exactly
     * when that cell is free.
     */
    method StepTowards(direction: string)
      requires Valid()
      modifies this`facingDirection, destinationPosition, body.animations`activeKey, body.animations.Clips()
      ensures Valid()
      ensures facingDirection == direction
      ensures var next := NextCell(old(destinationPosition.Value()), direction);
        destinationPosition.Value() == (if HelperGrid.IsSpaceFree(walls, next.x, next.y) then next else old(destinationPosition.Value()))
      ensures Input.IsDirection(direction) ==>
        body.animations.activeKey == Some(WalkKey(direction)) && ClipPlayed(WalkKey(direction), old(body.animations.activeKey))
      ensures !Input.IsDirection(direction) ==>
        body.animations.activeKey == old(body.animations.activeKey) && unchanged(body.animations.Clips())
      ensures old(!HelperGrid.IsSpaceFree(walls, destinationPosition.x, destinationPosition.y)) ||
              HelperGrid.IsSpaceFree(walls, destinationPosition.x, destinationPosition.y)
      ensures OnGrid(old(destinationPosition.Value())) ==> OnGrid(destinationPosition.Value())
    {
      ghost var dest := destinationPosition.Value();
      var nextX, nextY := ProposeStep(direction);
      facingDirection := direction;
      MoveIfFree(nextX, nextY);
      if OnGrid(dest) {
        StepKeepsGrid(dest, direction);
      }
    }

    /** The destination becomes (nextX, nextY) when that space is free, and stays otherwise. */
    method MoveIfFree(nextX: int, nextY: int)
      requires Valid()
      modifies destinationPosition
      ensures Valid()
      ensures destinationPosition.Value() ==
        (if HelperGrid.IsSpaceFree(walls, nextX, nextY) then Vec(nextX, nextY) else old(destinationPosition.Value()))
    {
      if HelperGrid.IsSpaceFree(walls, nextX, nextY) {
        destinationPosition.x := nextX;
        destinationPosition.y := nextY;
      }
    }

    /**
     * The clocks after `play(key)` on the body's controller: the clip of
     * `key` restarts at 0 unless it was already active (then no clock
     * changes), and every other clip keeps its clock.
     */
    twostate predicate ClipPlayed(key: string, active: Option<string>)
      requires key in body.animations.patterns
      reads body.animations.Clips()
    {
      var q := body.animations.patterns[key];
      && (active == Some(key) ==> q.currentTime == old(q.currentTime))
      && (active != Some(key) ==> q.currentTime == 0.0)
      && forall p :: p in body.animations.Clips() && p != q ==> p.currentTime == old(p.currentTime)
    }

    /**
     * The direction switch of `tryMove`: the cell one step from the
     * destination, and the walk clip of the direction played; any other
     * direction proposes the destination itself and plays nothing.
     */
    method ProposeStep(direction: string) returns (nextX: int, nextY: int)
      requires Valid()
      modifies body.animations`activeKey, body.animations.Clips()
      ensures Vec(nextX, nextY) == NextCell(destinationPosition.Value(), direction)
      ensures Input.IsDirection(direction) ==>
        body.animations.activeKey == Some(WalkKey(direction)) && ClipPlayed(WalkKey(direction), old(body.animations.activeKey))
      ensures !Input.IsDirection(direction) ==>
        body.animations.activeKey == old(body.animations.activeKey) && unchanged(body.animations.Clips())
    {
      nextX := destinationPosition.x;
      nextY := destinationPosition.y;
      if direction == Input.Down {
        nextY := nextY + GridSize;
        PlayWalkAnimation(direction);
      } else if direction == Input.Up {
        nextY := nextY - GridSize;
        PlayWalkAnimation(direction);
      } else if direction == Input.Left {
        nextX := nextX - GridSize;
        PlayWalkAnimation(direction);
      } else if direction == Input.Right {
        nextX := nextX + GridSize;
        PlayWalkAnimation(direction);
      }
    }

    /** Plays the walk clip of `direction`. */
    method PlayWalkAnimation(direction: string)
      requires Valid() && Input.IsDirection(direction)
      modifies body.animations`activeKey, body.animations.Clips()
      ensures body.animations.activeKey == Some(WalkKey(direction))
      ensures ClipPlayed(WalkKey(direction), old(body.animations.activeKey))
    {
      var _ := body.animations.Play(WalkKey(direction));
    }

    /** Plays the stand clip of the facing direction; any other facing plays nothing. */
    method PlayStandAnimation()
      requires Valid()
      modifies body.animations`activeKey, body.animations.Clips()
      ensures Input.IsDirection(facingDirection) ==> body.animations.activeKey == Some(StandKey(facingDirection))
      ensures Input.IsDirection(facingDirection) ==> ClipPlayed(StandKey(facingDirection), old(body.animations.activeKey))
      ensures !Input.IsDirection(facingDirection) ==>
        body.animations.activeKey == old(body.animations.activeKey) && unchanged(body.animations.Clips())
    {
      if facingDirection == Input.Left {
        var _ := body.animations.Play("standLeft");
      } else if facingDirection == Input.Right {
        var _ := body.animations.Play("standRight");
      } else if facingDirection == Input.Up {
        var _ := body.animations.Play("standUp");
      } else if facingDirection == Input.Down {
        var _ := body.animations.Play("standDown");
      }
    }
  }
}
