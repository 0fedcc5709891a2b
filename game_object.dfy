/**
 * The scene node of src/systems/GameObject.ts.  A node owns an ordered list
 * of children.  `stepEntry` visits children before the node (post-order) and
 * `draw` visits the node before its children (pre-order), accumulating
 * absolute coordinates.  The overridable hooks `step` and `drawImage` are
 * not run: the traversals return the hook calls they make, in order, each
 * named by the node's `id`.
 *
 * The source keeps no parent pointer and does not stop a node from being
 * added under its own descendant; `Valid()` is the acyclicity a traversal
 * needs to terminate, with `Repr` the nodes reachable from this one.  It
 * reads only the `children` and `Repr` fields, so moving a node keeps every
 * ancestor valid.
 */
module Scene {
  import opened Options
  import opened Geometry
  import opened Seqs

  /** A `drawImage(ctx, x, y)` call made by node `node`. */
  datatype DrawCall = DrawCall(node: nat, x: int, y: int)

  /** The children list after `removeChild(child)`. */
  function WithoutChild(children: seq<GameObject>, child: GameObject): seq<GameObject> {
    Filter(children, (c: GameObject) => c != child)
  }

  /** The same draw calls, each moved by (dx, dy). */
  function Shifted(calls: seq<DrawCall>, dx: int, dy: int): (r: seq<DrawCall>)
    ensures |r| == |calls|
    ensures forall i :: 0 <= i < |calls| ==>
      r[i] == DrawCall(calls[i].node, calls[i].x + dx, calls[i].y + dy)
  {
    seq(|calls|, i requires 0 <= i < |calls| => DrawCall(calls[i].node, calls[i].x + dx, calls[i].y + dy))
  }

  /** The nodes the draw calls belong to, in order. */
  function DrawnNodes(calls: seq<DrawCall>): (r: seq<nat>)
    ensures |r| == |calls|
    ensures forall i :: 0 <= i < |calls| ==> r[i] == calls[i].node
  {
    seq(|calls|, i requires 0 <= i < |calls| => calls[i].node)
  }

  lemma ShiftedConcat(a: seq<DrawCall>, b: seq<DrawCall>, dx: int, dy: int)
    ensures Shifted(a + b, dx, dy) == Shifted(a, dx, dy) + Shifted(b, dx, dy)
  {
  }

  lemma DrawnNodesConcat(a: seq<DrawCall>, b: seq<DrawCall>)
    ensures DrawnNodes(a + b) == DrawnNodes(a) + DrawnNodes(b)
  {
  }

  class GameObject {
    /** A label naming this node in traversal traces; not an identity, since two nodes may share it. */
    const id: nat
    var position: Vec
    var drawOffset: Vec
    var children: seq<GameObject>
    ghost var Repr: set<GameObject>

    ghost predicate Valid()
      reads this`children, this`Repr, Repr`children, Repr`Repr
      decreases Repr
    {
      && this in Repr
      && forall c :: c in children ==>
           && c in Repr
           && c.Repr <= Repr
           && this !in c.Repr
           && c.Valid()
    }

    /** A detached node with no children; position and draw offset default to (0, 0). */
    constructor(id: nat, position: Option<Vec> := None, drawOffset: Option<Vec> := None)
      ensures this.id == id
      ensures this.position == (if position.Some? then position.value else Vec(0, 0))
      ensures this.drawOffset == (if drawOffset.Some? then drawOffset.value else Vec(0, 0))
      ensures children == []
      ensures Valid() && Repr == {this}
    {
      this.id := id;
      this.position := if position.Some? then position.value else Vec(0, 0);
      this.drawOffset := if drawOffset.Some? then drawOffset.value else Vec(0, 0);
      children := [];
      Repr := {this};
    }

    /** The `step` hook calls of `stepEntry`: every child's, in list order, then this node's. */
    ghost function StepOrder(): seq<nat>
      reads this`children, this`Repr, Repr`children, Repr`Repr
      requires Valid()
      decreases Repr, |children| + 1
    {
      ChildrenStepOrder(0) + [id]
    }

    /** The `step` hook calls of children[i..], in list order. */
    ghost function ChildrenStepOrder(i: nat): seq<nat>
      reads this`children, this`Repr, Repr`children, Repr`Repr
      requires Valid() && i <= |children|
      decreases Repr, |children| - i
    {
      if i == |children| then []
      else children[i].StepOrder() + ChildrenStepOrder(i + 1)
    }

    /** Where this node is drawn when its parent's origin is (parentX, parentY). */
    function Origin(parentX: int, parentY: int): Vec
      reads this`position, this`drawOffset
    {
      Vec(parentX + position.x + drawOffset.x, parentY + position.y + drawOffset.y)
    }

    /** The `drawImage` hook calls of `draw(ctx, parentX, parentY)`: this node's, then every child's from this node's origin. */
    ghost function DrawOrder(parentX: int, parentY: int): seq<DrawCall>
      reads Repr
      requires Valid()
      decreases Repr, |children| + 1
    {
      var o := Origin(parentX, parentY);
      [DrawCall(id, o.x, o.y)] + ChildrenDrawOrder(0, o.x, o.y)
    }

    /** The `drawImage` hook calls of children[i..] drawn from origin (x, y). */
    ghost function ChildrenDrawOrder(i: nat, x: int, y: int): seq<DrawCall>
      reads Repr
      requires Valid() && i <= |children|
      decreases Repr, |children| - i
    {
      if i == |children| then []
      else children[i].DrawOrder(x, y) + ChildrenDrawOrder(i + 1, x, y)
    }

    /** Runs `stepEntry`: children first, in list order, then this node's own `step`. */
    method StepEntry() returns (trace: seq<nat>)
      requires Valid()
      ensures trace == StepOrder()
      decreases Repr
    {
      trace := [];
      var i := 0;
      while i < |children|
        invariant 0 <= i <= |children|
        invariant trace + ChildrenStepOrder(i) == ChildrenStepOrder(0)
      {
        ChildFacts(i);
        var sub := children[i].StepEntry();
        AppendStep(trace, sub, ChildrenStepOrder(i + 1), ChildrenStepOrder(i), ChildrenStepOrder(0));
        trace := trace + sub;
        i := i + 1;
      }
      trace := trace + [id];
    }

    /** Runs `draw(ctx, parentX, parentY)`: this node's `drawImage` at its absolute origin, then its children from there. */
    method Draw(parentX: int := 0, parentY: int := 0) returns (calls: seq<DrawCall>)
      requires Valid()
      ensures calls == DrawOrder(parentX, parentY)
      ensures calls[0] == DrawCall(id, parentX + position.x + drawOffset.x, parentY + position.y + drawOffset.y)
      decreases Repr
    {
      var x := parentX + position.x + drawOffset.x;
      var y := parentY + position.y + drawOffset.y;
      calls := [DrawCall(id, x, y)];
      var i := 0;
      while i < |children|
        invariant 0 <= i <= |children|
        invariant calls + ChildrenDrawOrder(i, x, y) == DrawOrder(parentX, parentY)
      {
        ChildFacts(i);
        var sub := children[i].Draw(x, y);
        AppendStep(calls, sub, ChildrenDrawOrder(i + 1, x, y), ChildrenDrawOrder(i, x, y), DrawOrder(parentX, parentY));
        calls := calls + sub;
        i := i + 1;
      }
    }

    /** A child is a valid, strictly smaller subtree. */
    lemma ChildFacts(i: nat)
      requires Valid() && i < |children|
      ensures children[i].Valid() && children[i].Repr < Repr
    {
      assert children[i] in children;
    }

    /** Appends `child` (duplicates allowed).  Adding a valid node that does not reach this one keeps the node valid. */
    method AddChild(child: GameObject)
      modifies this`children, this`Repr
      ensures children == old(children) + [child]
      ensures Repr == old(Repr) + child.Repr
      ensures old(Valid()) && child.Valid() && this !in child.Repr ==> Valid()
    {
      children := children + [child];
      Repr := Repr + child.Repr;
    }

    /** Removes every occurrence of `child`, keeping the other children in order. */
    method RemoveChild(child: GameObject)
      modifies this`children
      ensures children == WithoutChild(old(children), child)
      ensures old(Valid()) ==> Valid()
    {
      children := Filter(children, (c: GameObject) => c != child);
    }
  }

  /** A node's own `step` runs after all of its children's, so it ends the trace. */
  lemma StepOrderEndsWithSelf(n: GameObject)
    requires n.Valid()
    ensures |n.StepOrder()| >= 1 && n.StepOrder()[|n.StepOrder()| - 1] == n.id
  {
  }

  /**
   * Moving the parent origin by (dx, dy) moves every draw call of the
   * subtree by exactly (dx, dy): coordinates accumulate along the tree.
   */
  lemma {:induction false} DrawOrderTranslates(n: GameObject, px: int, py: int, dx: int, dy: int)
    requires n.Valid()
    ensures n.DrawOrder(px + dx, py + dy) == Shifted(n.DrawOrder(px, py), dx, dy)
    decreases n.Repr, |n.children| + 1
  {
    var o := n.Origin(px, py);
    ChildrenDrawOrderTranslates(n, 0, o.x, o.y, dx, dy);
    ShiftedConcat([DrawCall(n.id, o.x, o.y)], n.ChildrenDrawOrder(0, o.x, o.y), dx, dy);
  }

  lemma {:induction false} ChildrenDrawOrderTranslates(n: GameObject, i: nat, x: int, y: int, dx: int, dy: int)
    requires n.Valid() && i <= |n.children|
    ensures n.ChildrenDrawOrder(i, x + dx, y + dy) == Shifted(n.ChildrenDrawOrder(i, x, y), dx, dy)
    decreases n.Repr, |n.children| - i
  {
    if i < |n.children| {
      var c := n.children[i];
      DrawOrderTranslates(c, x, y, dx, dy);
      ChildrenDrawOrderTranslates(n, i + 1, x, y, dx, dy);
      ShiftedConcat(c.DrawOrder(x, y), n.ChildrenDrawOrder(i + 1, x, y), dx, dy);
    }
  }

  /** Both traversals call the hooks of the same nodes, equally often. */
  lemma {:induction false} TraversalsVisitSameNodes(n: GameObject, px: int, py: int)
    requires n.Valid()
    ensures multiset(n.StepOrder()) == multiset(DrawnNodes(n.DrawOrder(px, py)))
    decreases n.Repr, |n.children| + 1
  {
    var o := n.Origin(px, py);
    ChildrenVisitSameNodes(n, 0, o.x, o.y);
    DrawnNodesConcat([DrawCall(n.id, o.x, o.y)], n.ChildrenDrawOrder(0, o.x, o.y));
  }

  lemma {:induction false} ChildrenVisitSameNodes(n: GameObject, i: nat, x: int, y: int)
    requires n.Valid() && i <= |n.children|
    ensures multiset(n.ChildrenStepOrder(i)) == multiset(DrawnNodes(n.ChildrenDrawOrder(i, x, y)))
    decreases n.Repr, |n.children| - i
  {
    if i < |n.children| {
      var c := n.children[i];
      TraversalsVisitSameNodes(c, x, y);
      ChildrenVisitSameNodes(n, i + 1, x, y);
      DrawnNodesConcat(c.DrawOrder(x, y), n.ChildrenDrawOrder(i + 1, x, y));
    }
  }

  /** `removeChild` drops exactly the removed node and keeps the others; a non-child leaves the list unchanged. */
  lemma RemoveChildKeepsOthers(children: seq<GameObject>, child: GameObject)
    ensures child !in WithoutChild(children, child)
    ensures forall c :: c in children && c != child ==> c in WithoutChild(children, child)
    ensures child !in children ==> WithoutChild(children, child) == children
  {
    forall c | c in children && c != child ensures c in WithoutChild(children, child) {
      var i :| 0 <= i < |children| && children[i] == c;
    }
    if child !in children {
      FilterKeepsAll(children, (c: GameObject) => c != child);
    }
  }
}
