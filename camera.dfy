/**
 * The camera of src/systems/Camera.ts: a scene node whose position follows
 * the hero so that the hero's centre sits at the centre of the 320x180
 * canvas.  The source extends GameObject; here the camera holds its scene
 * node.  The bus is the one the source imports as a module singleton and is
 * passed in.
 */
module Cameras {
  import opened Geometry
  import opened EventBus
  import opened Scene

  /** Half the hero's 16-pixel sprite. */
  const PersonHalf: int := 8
  const CanvasWidth: int := 320
  const CanvasHeight: int := 180
  const HalfWidth: int := -PersonHalf + CanvasWidth / 2
  const HalfHeight: int := -PersonHalf + CanvasHeight / 2

  /** The event the camera listens to. */
  const HeroPosition: string := "HERO_POSITION"

  /** The camera position for a hero at (hx, hy). */
  function FollowPosition(hx: int, hy: int): (p: Vec)
    ensures p.x + hx == 152 && p.y + hy == 82
  {
    Vec(-hx + HalfWidth, -hy + HalfHeight)
  }

  /** Seen through the camera, the hero's centre is at the centre of the canvas. */
  lemma HeroCentred(hx: int, hy: int)
    ensures var p := FollowPosition(hx, hy);
      && p.x + hx + PersonHalf == CanvasWidth / 2
      && p.y + hy + PersonHalf == CanvasHeight / 2
  {
  }

  /** A hero step of (dx, dy) moves the camera by (-dx, -dy). */
  lemma FollowCancelsMoves(hx: int, hy: int, dx: int, dy: int)
    ensures FollowPosition(hx + dx, hy + dy).x == FollowPosition(hx, hy).x - dx
    ensures FollowPosition(hx + dx, hy + dy).y == FollowPosition(hx, hy).y - dy
  {
  }

  /** The camera position is determined by, and determines, the hero position. */
  lemma FollowInjective(hx1: int, hy1: int, hx2: int, hy2: int)
    requires FollowPosition(hx1, hy1) == FollowPosition(hx2, hy2)
    ensures hx1 == hx2 && hy1 == hy2
  {
  }

  class Camera {
    const node: GameObject

    /**
     * A childless node at (0, 0) that registers exactly one HERO_POSITION
     * subscription, with the camera as caller.
     */
    constructor(bus: Events, id: nat)
      requires bus.Valid()
      modifies bus
      ensures bus.Valid()
      ensures bus.nextId == old(bus.nextId) + 1
      ensures bus.callbacks == old(bus.callbacks) + [Subscription(bus.nextId, HeroPosition, this, FollowHero)]
      ensures fresh(node) && node.id == id && node.Valid()
      ensures node.position == Vec(0, 0) && node.drawOffset == Vec(0, 0) && node.children == []
    {
      node := new GameObject(id);
      new;
      var _ := bus.On(HeroPosition, this, FollowHero);
    }

    /** The HERO_POSITION handler: replaces the position and nothing else. */
    method OnHeroPosition(hx: int, hy: int)
      modifies node`position
      ensures node.position == FollowPosition(hx, hy)
    {
      node.position := Vec(-hx + HalfWidth, -hy + HalfHeight);
    }
  }

  /** A hero at (112, 80) puts the camera at (40, 2). */
  lemma FollowExample()
    ensures FollowPosition(112, 80) == Vec(40, 2)
  {
  }
}
