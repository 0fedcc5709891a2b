/**
 * The event bus of src/core/Event.ts: a list of subscription records and a
 * counter that hands out subscription ids.  Callbacks are not run here: a
 * subscription names its callback, and `Emit` returns the ids of the
 * subscriptions it dispatches to, in dispatch order.
 */
module EventBus {
  import opened Seqs

  /** The callbacks the rest of this model registers, and any other callback (by tag). */
  datatype Callback = FollowHero | AddPickedUpItem | Foreign(tag: nat)

  datatype Subscription = Subscription(id: int, eventName: string, caller: object, callback: Callback)

  /** The subscriptions registered for `eventName`, in list order. */
  function Matching(cbs: seq<Subscription>, eventName: string): seq<Subscription> {
    Filter(cbs, (s: Subscription) => s.eventName == eventName)
  }

  /** The list after `off(id)`. */
  function WithoutId(cbs: seq<Subscription>, id: int): seq<Subscription> {
    Filter(cbs, (s: Subscription) => s.id != id)
  }

  /** The list after `unsubscribe(caller)`. */
  function WithoutCaller(cbs: seq<Subscription>, caller: object): seq<Subscription> {
    Filter(cbs, (s: Subscription) => s.caller != caller)
  }

  /** The ids of the subscriptions, in order. */
  function Ids(cbs: seq<Subscription>): (r: seq<int>)
    ensures |r| == |cbs|
    ensures forall i :: 0 <= i < |cbs| ==> r[i] == cbs[i].id
  {
    seq(|cbs|, i requires 0 <= i < |cbs| => cbs[i].id)
  }

  predicate IdBefore(a: Subscription, b: Subscription) {
    a.id < b.id
  }

  /** Ids strictly increase along the list. */
  ghost predicate IdsIncreasing(cbs: seq<Subscription>) {
    Pairwise(cbs, IdBefore)
  }

  lemma IdsConcat(a: seq<Subscription>, b: seq<Subscription>)
    ensures Ids(a + b) == Ids(a) + Ids(b)
  {
  }

  class Events {
    var callbacks: seq<Subscription>
    var nextId: int

    /** Every stored id was handed out by `on` (1..nextId) and ids increase along the list. */
    ghost predicate Valid()
      reads this
    {
      && 0 <= nextId
      && IdsIncreasing(callbacks)
      && forall i :: 0 <= i < |callbacks| ==> 1 <= callbacks[i].id <= nextId
    }

    constructor()
      ensures Valid()
      ensures callbacks == [] && nextId == 0
    {
      callbacks := [];
      nextId := 0;
    }

    /**
     * Registers a callback: bumps the counter, appends one record with the
     * new id and returns that id, which is larger than every id stored before.
     */
    method On(eventName: string, caller: object, callback: Callback) returns (id: int)
      requires Valid()
      modifies this
      ensures Valid()
      ensures id == old(nextId) + 1 && nextId == id
      ensures callbacks == old(callbacks) + [Subscription(id, eventName, caller, callback)]
      ensures forall i :: 0 <= i < |old(callbacks)| ==> old(callbacks)[i].id < id
    {
      nextId := nextId + 1;
      callbacks := callbacks + [Subscription(nextId, eventName, caller, callback)];
      id := nextId;
    }

    /** The ids of the subscriptions `emit(eventName, value)` calls back, in registration order. */
    method Emit(eventName: string) returns (dispatched: seq<int>)
      ensures dispatched == Ids(Matching(callbacks, eventName))
    {
      var snapshot := callbacks;
      dispatched := [];
      var i := 0;
      while i < |snapshot|
        invariant 0 <= i <= |snapshot|
        invariant dispatched == Ids(Matching(snapshot[..i], eventName))
      {
        var stored := snapshot[i];
        assert snapshot[..i + 1] == snapshot[..i] + [stored];
        FilterConcat(snapshot[..i], [stored], (s: Subscription) => s.eventName == eventName);
        IdsConcat(Matching(snapshot[..i], eventName), Matching([stored], eventName));
        if stored.eventName == eventName {
          dispatched := dispatched + [stored.id];
        }
        i := i + 1;
      }
      assert snapshot[..i] == snapshot;
    }

    /** Removes every record with this id; the others keep their order and the counter is untouched. */
    method Off(id: int)
      requires Valid()
      modifies this`callbacks
      ensures Valid()
      ensures callbacks == WithoutId(old(callbacks), id)
    {
      FilterPairwise(callbacks, (s: Subscription) => s.id != id, IdBefore);
      callbacks := Filter(callbacks, (s: Subscription) => s.id != id);
    }

    /** Removes every record registered by `caller`; the others keep their order and the counter is untouched. */
    method Unsubscribe(caller: object)
      requires Valid()
      modifies this`callbacks
      ensures Valid()
      ensures callbacks == WithoutCaller(old(callbacks), caller)
    {
      FilterPairwise(callbacks, (s: Subscription) => s.caller != caller, IdBefore);
      callbacks := Filter(callbacks, (s: Subscription) => s.caller != caller);
    }
  }

  /** Registering appends to the dispatch list of its own event only. */
  lemma EmitAfterOn(cbs: seq<Subscription>, s: Subscription, eventName: string)
    ensures Matching(cbs + [s], eventName)
         == Matching(cbs, eventName) + (if s.eventName == eventName then [s] else [])
  {
    FilterConcat(cbs, [s], (x: Subscription) => x.eventName == eventName);
  }

  /** With increasing ids the dispatch order is registration order: dispatched ids strictly increase. */
  lemma DispatchInRegistrationOrder(cbs: seq<Subscription>, eventName: string)
    requires IdsIncreasing(cbs)
    ensures forall i, j :: 0 <= i < j < |Matching(cbs, eventName)| ==>
              Ids(Matching(cbs, eventName))[i] < Ids(Matching(cbs, eventName))[j]
  {
    FilterPairwise(cbs, (x: Subscription) => x.eventName == eventName, IdBefore);
  }

  /** Exactly the subscriptions of this event are dispatched to. */
  lemma EmitSelectsByName(cbs: seq<Subscription>, eventName: string, s: Subscription)
    ensures s in Matching(cbs, eventName) <==> s in cbs && s.eventName == eventName
  {
    if s in cbs && s.eventName == eventName {
      var i :| 0 <= i < |cbs| && cbs[i] == s;
    }
  }

  /**
   * With unique ids `off` removes one record when the id is present and none
   * otherwise; an absent id leaves the list as it was.
   */
  lemma {:induction false} OffRemovesAtMostOne(cbs: seq<Subscription>, id: int)
    requires IdsIncreasing(cbs)
    ensures id in Ids(cbs) ==> |WithoutId(cbs, id)| == |cbs| - 1
    ensures id !in Ids(cbs) ==> WithoutId(cbs, id) == cbs
    decreases |cbs|
  {
    if cbs != [] {
      var tail := cbs[1..];
      IncreasingTail(cbs);
      OffRemovesAtMostOne(tail, id);
      OffStep(cbs, id);
    }
  }

  /** The inductive step: a head whose id does not recur is the only record `off` can drop from it. */
  lemma OffStep(cbs: seq<Subscription>, id: int)
    requires cbs != [] && cbs[0].id !in Ids(cbs[1..])
    requires id in Ids(cbs[1..]) ==> |WithoutId(cbs[1..], id)| == |cbs| - 2
    requires id !in Ids(cbs[1..]) ==> WithoutId(cbs[1..], id) == cbs[1..]
    ensures id in Ids(cbs) ==> |WithoutId(cbs, id)| == |cbs| - 1
    ensures id !in Ids(cbs) ==> WithoutId(cbs, id) == cbs
  {
    var tail := cbs[1..];
    WithoutIdCons(cbs, id);
    IdsCons(cbs);
    if cbs[0].id == id {
      assert WithoutId(cbs, id) == tail;
    } else {
      assert id in Ids(cbs) <==> id in Ids(tail);
    }
  }

  /** Below the head of an increasing list ids still increase, and the head's id does not occur again. */
  lemma IncreasingTail(cbs: seq<Subscription>)
    requires IdsIncreasing(cbs) && cbs != []
    ensures IdsIncreasing(cbs[1..])
    ensures cbs[0].id !in Ids(cbs[1..])
  {
    var tail := cbs[1..];
    forall i, j | 0 <= i < j < |tail| ensures IdBefore(tail[i], tail[j]) {
      assert tail[i] == cbs[i + 1] && tail[j] == cbs[j + 1];
    }
    forall k | 0 <= k < |tail| ensures Ids(tail)[k] != cbs[0].id {
      assert IdBefore(cbs[0], cbs[k + 1]);
    }
  }

  lemma WithoutIdCons(cbs: seq<Subscription>, id: int)
    requires cbs != []
    ensures WithoutId(cbs, id) == (if cbs[0].id != id then [cbs[0]] else []) + WithoutId(cbs[1..], id)
  {
  }

  lemma IdsCons(cbs: seq<Subscription>)
    requires cbs != []
    ensures cbs == [cbs[0]] + cbs[1..]
    ensures Ids(cbs) == [cbs[0].id] + Ids(cbs[1..])
  {
  }

  /** After `unsubscribe(caller)` exactly the records of other callers remain. */
  lemma UnsubscribeRemovesAllAndOnly(cbs: seq<Subscription>, caller: object, s: Subscription)
    ensures s in WithoutCaller(cbs, caller) <==> s in cbs && s.caller != caller
  {
    if s in cbs && s.caller != caller {
      var i :| 0 <= i < |cbs| && cbs[i] == s;
    }
  }

  /** Unsubscribing the same caller twice is the same as once. */
  lemma UnsubscribeIdempotent(cbs: seq<Subscription>, caller: object)
    ensures WithoutCaller(WithoutCaller(cbs, caller), caller) == WithoutCaller(cbs, caller)
  {
    FilterIdempotent(cbs, (s: Subscription) => s.caller != caller);
  }

  /** Unsubscribing a caller that registered nothing leaves the list unchanged. */
  lemma UnsubscribeAbsentCaller(cbs: seq<Subscription>, caller: object)
    requires forall i :: 0 <= i < |cbs| ==> cbs[i].caller != caller
    ensures WithoutCaller(cbs, caller) == cbs
  {
    FilterKeepsAll(cbs, (s: Subscription) => s.caller != caller);
  }
}
