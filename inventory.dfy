/**
 * The inventory of src/entities/inventory/Inventory.ts: the list of held
 * items, the counter their ids come from, and the row of item sprites a
 * render lays out.  Images are named by resource name.  A render is
 * modelled by the placements of the sprites it creates, which replace the
 * previous ones.
 */
module Inventories {
  import opened Geometry
  import opened Seqs
  import opened EventBus

  datatype Item = Item(id: int, image: string)

  /** An item sprite: its image and its position inside the inventory node. */
  datatype Placement = Placement(image: string, position: Vec)

  /** Horizontal distance between neighbouring item sprites. */
  const ItemSpacing: int := 12

  /** The inventory node's own position. */
  const InventoryPosition: Vec := Vec(0, 1)

  const PicksUpItem: string := "HERO_PICKS_UP_ITEM"

  /** The image every picked-up item shows. */
  const Rod: string := "rod"

  /** The sprite of the item at index i stands at (12*i, 0). */
  function Layout(items: seq<Item>): (r: seq<Placement>)
    ensures |r| == |items|
    ensures forall i :: 0 <= i < |items| ==> r[i] == Placement(items[i].image, Vec(ItemSpacing * i, 0))
  {
    seq(|items|, i requires 0 <= i < |items| => Placement(items[i].image, Vec(ItemSpacing * i, 0)))
  }

  /** The items after `removeFromInventory(id)`. */
  function WithoutItem(items: seq<Item>, id: int): seq<Item> {
    Filter(items, (item: Item) => item.id != id)
  }

  ghost predicate IdsDistinct(items: seq<Item>) {
    forall i, j :: 0 <= i < j < |items| ==> items[i].id != items[j].id
  }

  class Inventory {
    /** Where the inventory node sits. */
    const position: Vec
    var nextId: int
    var items: seq<Item>
    /** The item sprites of the last render, in creation order. */
    var sprites: seq<Placement>

    /** Ids are distinct, and every id is negative (a starting item) or one the counter handed out. */
    ghost predicate Valid()
      reads this
    {
      && 0 <= nextId
      && IdsDistinct(items)
      && forall i :: 0 <= i < |items| ==> (items[i].id < 0 || 0 < items[i].id <= nextId)
    }

    /**
     * Two rods with ids -1 and -2, the counter at 0, one HERO_PICKS_UP_ITEM
     * subscription with the inventory as caller, and a first render.
     */
    constructor(bus: Events)
      requires bus.Valid()
      modifies bus
      ensures Valid()
      ensures position == InventoryPosition
      ensures nextId == 0 && items == [Item(-1, Rod), Item(-2, Rod)]
      ensures sprites == Layout(items)
      ensures bus.Valid()
      ensures bus.nextId == old(bus.nextId) + 1
      ensures bus.callbacks == old(bus.callbacks) + [Subscription(bus.nextId, PicksUpItem, this, AddPickedUpItem)]
    {
      position := InventoryPosition;
      nextId := 0;
      items := [Item(-1, Rod), Item(-2, Rod)];
      sprites := [];
      new;
      var _ := bus.On(PicksUpItem, this, AddPickedUpItem);
      RenderInventory();
    }

    /** Creates one sprite per item, in item order, the item at index i at (12*i, 0). */
    method RenderInventory()
      modifies this`sprites
      ensures sprites == Layout(items)
    {
      sprites := [];
      var index := 0;
      while index < |items|
        invariant 0 <= index <= |items|
        invariant sprites == Layout(items[..index])
      {
        var item := items[index];
        sprites := sprites + [Placement(item.image, Vec(index * ItemSpacing, 0))];
        index := index + 1;
      }
      assert items[..index] == items;
    }

    /** Bumps the counter and appends one item with the new id; earlier items are unchanged. */
    method AddItem(image: string)
      requires Valid()
      modifies this`nextId, this`items, this`sprites
      ensures Valid()
      ensures nextId == old(nextId) + 1
      ensures items == old(items) + [Item(nextId, image)]
      ensures forall i :: 0 <= i < |old(items)| ==> old(items)[i].id != nextId
      ensures sprites == Layout(items)
    {
      nextId := nextId + 1;
      items := items + [Item(nextId, image)];
      RenderInventory();
    }

    /** Drops every item with this id; the others keep their order. */
    method RemoveFromInventory(id: int)
      requires Valid()
      modifies this`items, this`sprites
      ensures Valid()
      ensures items == WithoutItem(old(items), id)
      ensures sprites == Layout(items)
    {
      ghost var before := items;
      items := Filter(items, (item: Item) => item.id != id);
      FilterKeepsDistinct(before, id);
      RenderInventory();
    }

    /** The HERO_PICKS_UP_ITEM handler: one more rod. */
    method OnHeroPicksUpItem()
      requires Valid()
      modifies this`nextId, this`items, this`sprites
      ensures Valid()
      ensures items == old(items) + [Item(nextId, Rod)] && nextId == old(nextId) + 1
      ensures sprites == Layout(items)
    {
      AddItem(Rod);
    }
  }

  /** Removal keeps ids distinct and keeps every remaining id one that was there. */
  lemma FilterKeepsDistinct(items: seq<Item>, id: int)
    ensures IdsDistinct(items) ==> IdsDistinct(WithoutItem(items, id))
    ensures forall i :: 0 <= i < |WithoutItem(items, id)| ==> WithoutItem(items, id)[i] in items
  {
    if IdsDistinct(items) {
      FilterPairwise(items, (item: Item) => item.id != id, DifferentIds);
      assert Pairwise(items, DifferentIds);
    }
  }

  predicate DifferentIds(a: Item, b: Item) {
    a.id != b.id
  }

  /** Appending an item moves no earlier sprite and puts the new one at the end of the row. */
  lemma LayoutAfterAdd(items: seq<Item>, item: Item)
    ensures Layout(items + [item])[..|items|] == Layout(items)
    ensures Layout(items + [item])[|items|] == Placement(item.image, Vec(ItemSpacing * |items|, 0))
  {
  }

  /** Removal drops all and only the items with that id; an absent id changes nothing. */
  lemma RemoveDropsExactly(items: seq<Item>, id: int, item: Item)
    ensures item in WithoutItem(items, id) <==> item in items && item.id != id
    ensures (forall i :: 0 <= i < |items| ==> items[i].id != id) ==> WithoutItem(items, id) == items
  {
    if item in items && item.id != id {
      var i :| 0 <= i < |items| && items[i] == item;
    }
    if forall i :: 0 <= i < |items| ==> items[i].id != id {
      FilterKeepsAll(items, (x: Item) => x.id != id);
    }
  }

  /** Two pick-ups after construction give ids 1 and 2 and a row of four sprites. */
  method TwoPickUps(bus: Events) returns (inv: Inventory)
    requires bus.Valid()
    modifies bus
    ensures inv.items == [Item(-1, Rod), Item(-2, Rod), Item(1, Rod), Item(2, Rod)]
    ensures |inv.sprites| == 4 && inv.sprites[3].position == Vec(36, 0)
  {
    inv := new Inventory(bus);
    inv.OnHeroPicksUpItem();
    inv.OnHeroPicksUpItem();
  }
}
