/** The shopping cart: a list of `{id, quantity}` entries updated in place
    by `addItem` and `removeItem` and read by `getItem`. `saved` stands for
    the copy last written to local storage. */
module CartStore {
  import opened Wrappers

  datatype Item = Item(id: int, quantity: int)

  /** `items.findIndex(item => item.id === id)`: the first position holding
      `id`, or -1. */
  function FindIndex(items: seq<Item>, id: int): (k: int)
    ensures -1 <= k < |items|
    ensures k == -1 <==> forall j :: 0 <= j < |items| ==> items[j].id != id
    ensures k >= 0 ==> items[k].id == id && forall j :: 0 <= j < k ==> items[j].id != id
  {
    if |items| == 0 then -1
    else if items[0].id == id then 0
    else
      var k := FindIndex(items[1..], id);
      if k == -1 then -1 else k + 1
  }

  /** No id appears twice. */
  ghost predicate UniqueIds(items: seq<Item>) {
    forall i, j :: 0 <= i < j < |items| ==> items[i].id != items[j].id
  }

  /** The entries whose id is not `id`, in order. */
  function Others(items: seq<Item>, id: int): seq<Item>
  {
    if |items| == 0 then []
    else (if items[0].id == id then [] else [items[0]]) + Others(items[1..], id)
  }

  /** The list after `addItem(id, quantity)`. */
  function Added(items: seq<Item>, id: int, quantity: int): (r: seq<Item>)
  {
    var k := FindIndex(items, id);
    if k >= 0 then items[k := Item(id, items[k].quantity + quantity)]
    else items + [Item(id, quantity)]
  }

  /** The list after `removeItem(id)`. */
  function Removed(items: seq<Item>, id: int): (r: seq<Item>)
  {
    var k := FindIndex(items, id);
    if k < 0 then items
    else if items[k].quantity > 1 then items[k := Item(id, items[k].quantity - 1)]
    else items[..k] + items[k + 1..]
  }

  class Cart {
    var items: seq<Item>
    var saved: seq<Item>

    /** The cart as loaded from storage. */
    constructor (stored: seq<Item>)
      ensures items == stored && saved == stored
    {
      items := stored;
      saved := stored;
    }

    /** `getItem(id)`: the first entry with that id, if any. */
    function GetItem(id: int): (r: Option<Item>)
      reads this
      ensures r.None? <==> forall j :: 0 <= j < |items| ==> items[j].id != id
      ensures r.Some? ==> r.value.id == id && r.value in items
      ensures r.Some? ==> exists k :: 0 <= k < |items| && items[k] == r.value
                                    && forall j :: 0 <= j < k ==> items[j].id != id
    {
      var k := FindIndex(items, id);
      if k >= 0 then Some(items[k]) else None
    }

    /** `addItem(id, quantity)`; the source's default quantity is 1. The
        new list is saved. */
    method AddItem(id: int, quantity: int := 1)
      modifies this
      ensures items == Added(old(items), id, quantity)
      ensures saved == items
    {
      var k := FindIndex(items, id);
      if k >= 0 {
        items := items[k := Item(id, items[k].quantity + quantity)];
      } else {
        items := items + [Item(id, quantity)];
      }
      saved := items;
    }

    /** `removeItem(id)`. Only a cart that held `id` is saved. */
    method RemoveItem(id: int)
      modifies this
      ensures items == Removed(old(items), id)
      ensures saved == if FindIndex(old(items), id) >= 0 then items else old(saved)
    {
      var k := FindIndex(items, id);
      if k >= 0 {
        if items[k].quantity > 1 {
          items := items[k := Item(id, items[k].quantity - 1)];
        } else {
          items := items[..k] + items[k + 1..];
        }
        saved := items;
      }
    }
  }

  // -----------------------------------------------------------------------
  // Properties of the updates

  /** Adding to an id already in the cart raises only that entry's
      quantity; adding a new id appends it at the end. */
  lemma AddedShape(items: seq<Item>, id: int, quantity: int)
    ensures (exists j :: 0 <= j < |items| && items[j].id == id) ==>
      var k := FindIndex(items, id);
      |Added(items, id, quantity)| == |items|
      && Added(items, id, quantity)[k] == Item(id, items[k].quantity + quantity)
      && forall j :: 0 <= j < |items| && j != k ==> Added(items, id, quantity)[j] == items[j]
    ensures (forall j :: 0 <= j < |items| ==> items[j].id != id) ==>
      Added(items, id, quantity) == items + [Item(id, quantity)]
  {
  }

  /** Removing an id whose quantity is above 1 lowers it by exactly one;
      otherwise the entry goes and the rest keep their order; an absent id
      changes nothing. */
  lemma RemovedShape(items: seq<Item>, id: int)
    ensures (forall j :: 0 <= j < |items| ==> items[j].id != id) ==> Removed(items, id) == items
    ensures (exists j :: 0 <= j < |items| && items[j].id == id) ==>
      var k := FindIndex(items, id);
      if items[k].quantity > 1 then
        |Removed(items, id)| == |items|
        && Removed(items, id)[k] == Item(id, items[k].quantity - 1)
        && forall j :: 0 <= j < |items| && j != k ==> Removed(items, id)[j] == items[j]
      else
        Removed(items, id) == items[..k] + items[k + 1..]
  {
  }

  /** Changing the quantity of the first entry with `id` leaves the entries
      with other ids as they were. */
  lemma {:induction false} OthersAfterUpdate(items: seq<Item>, id: int, k: nat, q: int)
    requires k < |items| && items[k].id == id
    ensures Others(items[k := Item(id, q)], id) == Others(items, id)
  {
    if k > 0 {
      OthersAfterUpdate(items[1..], id, k - 1, q);
      assert items[k := Item(id, q)][1..] == items[1..][k - 1 := Item(id, q)];
    }
  }

  lemma {:induction false} OthersAppend(a: seq<Item>, b: seq<Item>, id: int)
    ensures Others(a + b, id) == Others(a, id) + Others(b, id)
  {
    if |a| > 0 {
      OthersAppend(a[1..], b, id);
      assert (a + b)[1..] == a[1..] + b;
    } else {
      assert a + b == b;
    }
  }

  /** Every entry with another id is untouched by `addItem`. */
  lemma AddedKeepsOthers(items: seq<Item>, id: int, quantity: int)
    ensures Others(Added(items, id, quantity), id) == Others(items, id)
  {
    var k := FindIndex(items, id);
    if k >= 0 {
      OthersAfterUpdate(items, id, k, items[k].quantity + quantity);
    } else {
      OthersAppend(items, [Item(id, quantity)], id);
      assert Others([Item(id, quantity)], id) == [];
    }
  }

  /** Every entry with another id is untouched by `removeItem`. */
  lemma RemovedKeepsOthers(items: seq<Item>, id: int)
    ensures Others(Removed(items, id), id) == Others(items, id)
  {
    var k := FindIndex(items, id);
    if k >= 0 {
      if items[k].quantity > 1 {
        OthersAfterUpdate(items, id, k, items[k].quantity - 1);
      } else {
        assert items == items[..k] + ([items[k]] + items[k + 1..]);
        OthersAppend(items[..k], [items[k]] + items[k + 1..], id);
        OthersAppend([items[k]], items[k + 1..], id);
        OthersAppend(items[..k], items[k + 1..], id);
      }
    }
  }

  /** `addItem` keeps ids unique. */
  lemma AddedKeepsUnique(items: seq<Item>, id: int, quantity: int)
    requires UniqueIds(items)
    ensures UniqueIds(Added(items, id, quantity))
  {
  }

  /** `removeItem` keeps ids unique, and in a cart with unique ids an
      entry it deletes is gone. */
  lemma RemovedKeepsUnique(items: seq<Item>, id: int)
    requires UniqueIds(items)
    ensures UniqueIds(Removed(items, id))
    ensures |Removed(items, id)| < |items| ==> forall j :: 0 <= j < |Removed(items, id)| ==> Removed(items, id)[j].id != id
  {
  }
}
