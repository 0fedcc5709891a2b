/**
 * The 2D vector of src/core/Vector2.ts.  `Vector2` is the mutable class the
 * source defines; `Vec` is the same pair of numbers as a value, used where
 * the runtime only ever reads or replaces a vector (scene-node positions,
 * frame sizes, frame-map entries).  Pixel coordinates are integers here.
 */
module Geometry {

  datatype Vec = Vec(x: int, y: int)

  class Vector2 {
    var x: int
    var y: int

    /** Both components default to 0. */
    constructor(x: int := 0, y: int := 0)
      ensures this.x == x && this.y == y
    {
      this.x := x;
      this.y := y;
    }

    /** Overwrites both components and returns the receiver, for chaining. */
    method Set(x: int, y: int) returns (r: Vector2)
      modifies this
      ensures r == this
      ensures this.x == x && this.y == y
    {
      this.x := x;
      this.y := y;
      r := this;
    }

    /** Adds `v` componentwise into the receiver; `v` itself changes only when it is the receiver. */
    method Add(v: Vector2) returns (r: Vector2)
      modifies this
      ensures r == this
      ensures x == old(x) + old(v.x) && y == old(y) + old(v.y)
      ensures v != this ==> v.x == old(v.x) && v.y == old(v.y)
    {
      x := x + v.x;
      y := y + v.y;
      r := this;
    }

    /** Subtracts `v` componentwise from the receiver; `v` itself changes only when it is the receiver. */
    method Subtract(v: Vector2) returns (r: Vector2)
      modifies this
      ensures r == this
      ensures x == old(x) - old(v.x) && y == old(y) - old(v.y)
      ensures v != this ==> v.x == old(v.x) && v.y == old(v.y)
    {
      x := x - v.x;
      y := y - v.y;
      r := this;
    }

    /** A fresh vector with the same components; later changes to either do not reach the other. */
    method Clone() returns (r: Vector2)
      ensures fresh(r)
      ensures r.x == x && r.y == y
    {
      r := new Vector2(x, y);
    }

    /** The components as a value. */
    function Value(): (v: Vec)
      reads this
      ensures v.x == x && v.y == y
    {
      Vec(x, y)
    }
  }

  /** Adding a different vector and then subtracting it restores the receiver and leaves the argument alone. */
  method AddThenSubtract(p: Vector2, v: Vector2)
    requires p != v
    modifies p
    ensures p.x == old(p.x) && p.y == old(p.y)
    ensures v.x == old(v.x) && v.y == old(v.y)
  {
    var _ := p.Add(v);
    var _ := p.Subtract(v);
  }

  /** With the receiver as its own argument the round trip does not restore it: `p.add(p).subtract(p)` is (0, 0). */
  method AddSelfThenSubtractSelf(p: Vector2)
    modifies p
    ensures p.x == 0 && p.y == 0
  {
    var _ := p.Add(p);
    var _ := p.Subtract(p);
  }

  /** Mutating a clone leaves the original unchanged. */
  method CloneIsIndependent(p: Vector2, dx: int, dy: int) returns (c: Vector2)
    ensures fresh(c)
    ensures c.x == p.x + dx && c.y == p.y + dy
    ensures p.x == old(p.x) && p.y == old(p.y)
  {
    c := p.Clone();
    var _ := c.Set(c.x + dx, c.y + dy);
  }
}
