/**
 * The direction stack of src/systems/InputSystem.ts: the held directions,
 * most recently pressed first, and the key-code switch that feeds it.
 * Registering the two listeners with the document is host I/O and is not
 * modelled; the key handlers are methods taking `e.code`.
 */
module Input {
  import opened Options
  import opened Seqs

  const Left: string := "LEFT"
  const Right: string := "RIGHT"
  const Up: string := "UP"
  const Down: string := "DOWN"

  predicate IsDirection(d: string) {
    d == Up || d == Down || d == Left || d == Right
  }

  /** The direction a key code stands for: arrows and WASD; None for every other code. */
  function DirectionOfCode(code: string): (r: Option<string>)
    ensures r.Some? ==> IsDirection(r.value)
    ensures r == Some(Up) <==> code == "ArrowUp" || code == "KeyW"
    ensures r == Some(Down) <==> code == "ArrowDown" || code == "KeyS"
    ensures r == Some(Left) <==> code == "ArrowLeft" || code == "KeyA"
    ensures r == Some(Right) <==> code == "ArrowRight" || code == "KeyD"
  {
    match code
    case "ArrowUp" => Some(Up)
    case "KeyW" => Some(Up)
    case "ArrowDown" => Some(Down)
    case "KeyS" => Some(Down)
    case "ArrowLeft" => Some(Left)
    case "KeyA" => Some(Left)
    case "ArrowRight" => Some(Right)
    case "KeyD" => Some(Right)
    case _ => None
  }

  /** `held.indexOf(d)`: the first position of `d`, or -1. */
  function IndexOf(held: seq<string>, d: string): (i: int)
    ensures -1 <= i < |held|
    ensures i == -1 <==> d !in held
    ensures i >= 0 ==> held[i] == d && d !in held[..i]
  {
    if |held| == 0 then -1
    else if held[0] == d then 0
    else
      var j := IndexOf(held[1..], d);
      assert j >= 0 ==> held[1..][..j] == held[1..j + 1];
      if j == -1 then -1 else j + 1
  }

  /** The list after pressing `d`: prepended unless already held. */
  function Pressed(held: seq<string>, d: string): seq<string> {
    if d in held then held else [d] + held
  }

  /** The list after releasing `d`: its first occurrence spliced out, if any. */
  function Released(held: seq<string>, d: string): seq<string> {
    var i := IndexOf(held, d);
    if i == -1 then held else held[..i] + held[i + 1..]
  }

  ghost predicate NoDuplicates(held: seq<string>) {
    forall i, j :: 0 <= i < j < |held| ==> held[i] != held[j]
  }

  /** Every held entry is one of the four directions and none occurs twice. */
  ghost predicate WellFormed(held: seq<string>) {
    NoDuplicates(held) && forall i :: 0 <= i < |held| ==> IsDirection(held[i])
  }

  class InputSystem {
    var heldDirections: seq<string>

    ghost predicate Valid()
      reads this
    {
      WellFormed(heldDirections)
    }

    constructor()
      ensures heldDirections == [] && Valid()
    {
      heldDirections := [];
    }

    /** The `direction` getter: the most recent held direction, None (undefined) when nothing is held. */
    function Direction(): (r: Option<string>)
      reads this
      ensures r.None? <==> heldDirections == []
      ensures r.Some? ==> r.value == heldDirections[0]
    {
      if |heldDirections| == 0 then None else Some(heldDirections[0])
    }

    method OnArrowPressed(direction: string)
      modifies this
      ensures heldDirections == Pressed(old(heldDirections), direction)
      ensures old(Valid()) && IsDirection(direction) ==> Valid()
    {
      if direction !in heldDirections {
        heldDirections := [direction] + heldDirections;
      }
      PressedKeepsWellFormed(old(heldDirections), direction);
    }

    /** Splices out the first occurrence and returns the removed one-element list; None (undefined) when not held. */
    method OnArrowReleased(direction: string) returns (removed: Option<seq<string>>)
      modifies this
      ensures heldDirections == Released(old(heldDirections), direction)
      ensures removed.None? <==> direction !in old(heldDirections)
      ensures removed.Some? ==> removed.value == [direction]
      ensures old(Valid()) ==> Valid()
    {
      var index := IndexOf(heldDirections, direction);
      ReleasedKeepsWellFormed(heldDirections, direction);
      if index != -1 {
        removed := Some([heldDirections[index]]);
        heldDirections := heldDirections[..index] + heldDirections[index + 1..];
      } else {
        removed := None;
      }
    }

    /** The keydown listener: presses the direction of `code`; other codes change nothing. */
    method OnKeyDown(code: string)
      modifies this
      ensures DirectionOfCode(code).Some? ==> heldDirections == Pressed(old(heldDirections), DirectionOfCode(code).value)
      ensures DirectionOfCode(code).None? ==> heldDirections == old(heldDirections)
      ensures old(Valid()) ==> Valid()
    {
      match DirectionOfCode(code)
      case Some(d) => OnArrowPressed(d);
      case None =>
    }

    /** The keyup listener: releases the direction of `code`; other codes change nothing. */
    method OnKeyUp(code: string)
      modifies this
      ensures DirectionOfCode(code).Some? ==> heldDirections == Released(old(heldDirections), DirectionOfCode(code).value)
      ensures DirectionOfCode(code).None? ==> heldDirections == old(heldDirections)
      ensures old(Valid()) ==> Valid()
    {
      match DirectionOfCode(code)
      case Some(d) =>
        var _ := OnArrowReleased(d);
      case None =>
    }
  }

  /** Pressing prepends a direction not held and leaves a held one where it is; the new head is the pressed direction. */
  lemma PressedMakesMostRecent(held: seq<string>, d: string)
    ensures d !in held ==> Pressed(held, d) == [d] + held
    ensures d in held ==> Pressed(held, d) == held
    ensures d in Pressed(held, d)
    ensures d !in held ==> Pressed(held, d)[0] == d
  {
  }

  lemma PressedKeepsWellFormed(held: seq<string>, d: string)
    ensures WellFormed(held) && IsDirection(d) ==> WellFormed(Pressed(held, d))
  {
    if WellFormed(held) && IsDirection(d) && d !in held {
      var p := [d] + held;
      forall i, j | 0 <= i < j < |p| ensures p[i] != p[j] {
        if i == 0 {
          assert p[j] == held[j - 1];
        } else {
          assert p[i] == held[i - 1] && p[j] == held[j - 1];
        }
      }
    }
  }

  /** Releasing removes only the released direction and keeps the order of the rest. */
  lemma ReleasedKeepsWellFormed(held: seq<string>, d: string)
    ensures WellFormed(held) ==> WellFormed(Released(held, d))
  {
    var i := IndexOf(held, d);
    if WellFormed(held) && i != -1 {
      var r := held[..i] + held[i + 1..];
      forall k | 0 <= k < |r| ensures r[k] == held[if k < i then k else k + 1] {
      }
      forall a, b | 0 <= a < b < |r| ensures r[a] != r[b] {
        assert r[a] == held[if a < i then a else a + 1];
        assert r[b] == held[if b < i then b else b + 1];
      }
      forall k | 0 <= k < |r| ensures IsDirection(r[k]) {
        assert r[k] == held[if k < i then k else k + 1];
      }
    }
  }

  /** Releasing a direction that is not held is a no-op. */
  lemma ReleaseNotHeld(held: seq<string>, d: string)
    requires d !in held
    ensures Released(held, d) == held
  {
  }

  /** Below a head that is not `d`, the search continues in the tail. */
  lemma IndexOfCons(h: string, tail: seq<string>, d: string)
    requires h != d
    ensures IndexOf([h] + tail, d) == (if IndexOf(tail, d) == -1 then -1 else IndexOf(tail, d) + 1)
  {
    assert ([h] + tail)[1..] == tail;
  }

  /** Splicing position j + 1 out of [h] + tail splices position j out of the tail. */
  lemma SpliceCons(h: string, tail: seq<string>, j: nat)
    requires j < |tail|
    ensures ([h] + tail)[..j + 1] + ([h] + tail)[j + 2..] == [h] + (tail[..j] + tail[j + 1..])
  {
    var held := [h] + tail;
    assert held[..j + 1] == [h] + tail[..j];
    assert held[j + 2..] == tail[j + 1..];
  }

  /** Below a head that is not `d`, a release acts on the tail. */
  lemma ReleasedCons(h: string, tail: seq<string>, d: string)
    requires h != d
    ensures Released([h] + tail, d) == [h] + Released(tail, d)
  {
    IndexOfCons(h, tail, d);
    var j := IndexOf(tail, d);
    if j != -1 {
      SpliceCons(h, tail, j);
    }
  }

  /** On a duplicate-free list a release removes exactly the released direction: it is the filter that drops it. */
  lemma {:induction false} ReleasedIsFilter(held: seq<string>, d: string)
    requires NoDuplicates(held)
    ensures Released(held, d) == Filter(held, (x: string) => x != d)
    decreases |held|
  {
    if |held| > 0 {
      var tail := held[1..];
      assert held == [held[0]] + tail;
      if held[0] == d {
        assert d !in tail by {
          forall k | 0 <= k < |tail| ensures tail[k] != d {
            assert tail[k] == held[k + 1];
          }
        }
        FilterKeepsAll(tail, (x: string) => x != d);
        assert Released(held, d) == tail;
      } else {
        assert NoDuplicates(tail) by {
          forall i, j | 0 <= i < j < |tail| ensures tail[i] != tail[j] {
            assert tail[i] == held[i + 1] && tail[j] == held[j + 1];
          }
        }
        ReleasedIsFilter(tail, d);
        ReleasedCons(held[0], tail, d);
      }
    }
  }

  /** After a release on a duplicate-free list the direction is no longer held, and every other one still is. */
  lemma ReleasedRemovesExactly(held: seq<string>, d: string, e: string)
    requires NoDuplicates(held)
    ensures e in Released(held, d) <==> e in held && e != d
  {
    ReleasedIsFilter(held, d);
    if e in held && e != d {
      var k :| 0 <= k < |held| && held[k] == e;
    }
  }

  /** Pressing a direction that is not held and then releasing it restores the list. */
  lemma PressThenRelease(held: seq<string>, d: string)
    requires d !in held
    ensures Released(Pressed(held, d), d) == held
  {
    assert IndexOf([d] + held, d) == 0;
  }

  /** The four directions, as a set. */
  function Directions(): set<string> {
    {Up, Down, Left, Right}
  }

  lemma {:induction false} DistinctCardinality(held: seq<string>)
    requires NoDuplicates(held)
    ensures |set i | 0 <= i < |held| :: held[i]| == |held|
    decreases |held|
  {
    if |held| > 0 {
      var init := held[..|held| - 1];
      assert NoDuplicates(init) by {
        forall i, j | 0 <= i < j < |init| ensures init[i] != init[j] {
          assert init[i] == held[i] && init[j] == held[j];
        }
      }
      DistinctCardinality(init);
      var s := set i | 0 <= i < |init| :: init[i];
      var t := set i | 0 <= i < |held| :: held[i];
      assert t == s + {held[|held| - 1]};
      assert held[|held| - 1] !in s;
    }
  }

  /** A well-formed list holds at most the four directions. */
  lemma AtMostFourHeld(held: seq<string>)
    requires WellFormed(held)
    ensures |held| <= 4
  {
    DistinctCardinality(held);
    var t := set i | 0 <= i < |held| :: held[i];
    assert t <= Directions();
    assert |Directions()| == 4;
    assert |t| <= |Directions()| by {
      SubsetCardinality(t, Directions());
    }
  }

  lemma SubsetCardinality(a: set<string>, b: set<string>)
    requires a <= b
    ensures |a| <= |b|
  {
    assert b == a + (b - a);
  }

  /** Holding Up then pressing Left makes Left the current direction; releasing it brings Up back. */
  method ArrowExample() returns (during: Option<string>, after: Option<string>)
    ensures during == Some(Left) && after == Some(Up)
  {
    var input := new InputSystem();
    input.OnKeyDown("ArrowUp");
    input.OnKeyDown("KeyA");
    during := input.Direction();
    input.OnKeyUp("ArrowLeft");
    after := input.Direction();
  }
}
