/** The client cart store of src/hooks/useCart.ts: a list of lines keyed by variant id and an
    open flag, replaced wholesale by each action. The list operations are functions; the store
    is a class whose actions assign their results. */
module CartStore {
  import opened Base

  datatype CartItem = CartItem(
    productId: string,
    variantId: string,
    name: string,
    price: int,
    size: string,
    color: string,
    image: Option<string>,
    quantity: int)

  /** The variant ids of the lines, in order. */
  function Ids(items: seq<CartItem>): (ids: seq<string>)
    ensures |ids| == |items| && forall k :: 0 <= k < |items| ==> ids[k] == items[k].variantId
  {
    seq(|items|, k requires 0 <= k < |items| => items[k].variantId)
  }

  /** At most one line per variant. */
  predicate Unique(items: seq<CartItem>) {
    forall i, j :: 0 <= i < j < |items| ==> items[i].variantId != items[j].variantId
  }

  /** Every line holds at least one unit. */
  predicate Positive(items: seq<CartItem>) {
    forall k :: 0 <= k < |items| ==> items[k].quantity >= 1
  }

  /** `items.map(i => i.variantId === id ? { ...i, quantity: f(i.quantity) } : i)` */
  function Bumped(items: seq<CartItem>, id: string): (r: seq<CartItem>)
    ensures |r| == |items|
    ensures forall k :: 0 <= k < |items| ==>
      r[k] == if items[k].variantId == id then items[k].(quantity := items[k].quantity + 1) else items[k]
  {
    seq(|items|, k requires 0 <= k < |items| =>
      if items[k].variantId == id then items[k].(quantity := items[k].quantity + 1) else items[k])
  }

  function WithQuantity(items: seq<CartItem>, id: string, quantity: int): (r: seq<CartItem>)
    ensures |r| == |items|
    ensures forall k :: 0 <= k < |items| ==>
      r[k] == if items[k].variantId == id then items[k].(quantity := quantity) else items[k]
  {
    seq(|items|, k requires 0 <= k < |items| =>
      if items[k].variantId == id then items[k].(quantity := quantity) else items[k])
  }

  /** addItem: one more of an existing line, or a new line of one at the end. `item` carries
      everything but the quantity, which is ignored. */
  function Added(items: seq<CartItem>, item: CartItem): seq<CartItem>
  {
    if item.variantId in Ids(items) then Bumped(items, item.variantId) else items + [item.(quantity := 1)]
  }

  /** removeItem: `items.filter(i => i.variantId !== id)` */
  function Removed(items: seq<CartItem>, id: string): (r: seq<CartItem>)
    ensures id !in Ids(r)
    ensures forall x :: x in r <==> x in items && x.variantId != id
    ensures |r| <= |items|
  {
    if items == [] then []
    else (if items[0].variantId == id then [] else [items[0]]) + Removed(items[1..], id)
  }

  /** updateQuantity: a quantity of zero or less removes the line. */
  function Updated(items: seq<CartItem>, id: string, quantity: int): seq<CartItem>
  {
    if quantity <= 0 then Removed(items, id) else WithQuantity(items, id, quantity)
  }

  /** itemCount: Σ quantity */
  function ItemCount(items: seq<CartItem>): int
  {
    if items == [] then 0 else ItemCount(items[..|items| - 1]) + items[|items| - 1].quantity
  }

  /** subtotal: Σ price × quantity */
  function Subtotal(items: seq<CartItem>): int
  {
    if items == [] then 0 else Subtotal(items[..|items| - 1]) + items[|items| - 1].price * items[|items| - 1].quantity
  }

  // ---------------------------------------------------------------------------------------------
  // Properties of the list operations

  /** A new variant is appended with quantity 1. */
  lemma {:induction false} AddNew(items: seq<CartItem>, item: CartItem)
    requires item.variantId !in Ids(items)
    ensures Added(items, item) == items + [item.(quantity := 1)]
    ensures ItemCount(Added(items, item)) == ItemCount(items) + 1
    ensures Subtotal(Added(items, item)) == Subtotal(items) + item.price
  {
    var r := items + [item.(quantity := 1)];
    assert r[..|r| - 1] == items;
  }

  /** An existing variant's line gains one unit and keeps its price, name and image; no other
      line changes and the length stays. */
  lemma {:induction false} AddExisting(items: seq<CartItem>, item: CartItem, k: nat)
    requires k < |items| && items[k].variantId == item.variantId && Unique(items)
    ensures |Added(items, item)| == |items|
    ensures Added(items, item)[k] == items[k].(quantity := items[k].quantity + 1)
    ensures forall j :: 0 <= j < |items| && j != k ==> Added(items, item)[j] == items[j]
  {
    assert Ids(items)[k] == item.variantId;
  }

  /** Adding counts one more item, whatever the cart held. */
  lemma {:induction false} AddCountsOne(items: seq<CartItem>, item: CartItem)
    requires Unique(items)
    ensures ItemCount(Added(items, item)) == ItemCount(items) + 1
  {
    if item.variantId in Ids(items) {
      var k :| 0 <= k < |items| && Ids(items)[k] == item.variantId;
      BumpedCount(items, item.variantId, k);
    } else {
      AddNew(items, item);
    }
  }

  lemma {:induction false} BumpedCount(items: seq<CartItem>, id: string, k: nat)
    requires Unique(items) && k < |items| && items[k].variantId == id
    ensures ItemCount(Bumped(items, id)) == ItemCount(items) + 1
    decreases |items|
  {
    var n := |items| - 1;
    var init := items[..n];
    assert Bumped(items, id)[..n] == Bumped(init, id);
    if k < n {
      assert items[n].variantId != id;
      BumpedCount(init, id, k);
    } else {
      assert id !in Ids(init);
      UntouchedCount(init, id);
    }
  }

  lemma {:induction false} UntouchedCount(items: seq<CartItem>, id: string)
    requires id !in Ids(items)
    ensures Bumped(items, id) == items
  {
    assert forall k :: 0 <= k < |items| ==> items[k].variantId != id by {
      assert forall k :: 0 <= k < |items| ==> Ids(items)[k] == items[k].variantId;
    }
  }

  /** The cart never holds two lines for one variant. */
  lemma {:induction false} AddKeepsUnique(items: seq<CartItem>, item: CartItem)
    requires Unique(items)
    ensures Unique(Added(items, item))
  {
    if item.variantId !in Ids(items) {
      assert forall k :: 0 <= k < |items| ==> items[k].variantId != item.variantId by {
        assert forall k :: 0 <= k < |items| ==> Ids(items)[k] == items[k].variantId;
      }
    }
  }

  /** A filter of a list with one line per variant has one line per variant. */
  lemma {:induction false} RemoveKeepsUnique(items: seq<CartItem>, id: string)
    requires Unique(items)
    ensures Unique(Removed(items, id))
  {
    if items != [] {
      RemoveKeepsUnique(items[1..], id);
      var rest := Removed(items[1..], id);
      assert forall x :: x in rest ==> x in items[1..];
      assert forall x :: x in items[1..] ==> x.variantId != items[0].variantId;
    }
  }

  lemma {:induction false} UpdateKeepsUnique(items: seq<CartItem>, id: string, quantity: int)
    requires Unique(items)
    ensures Unique(Updated(items, id, quantity))
  {
    if quantity <= 0 {
      RemoveKeepsUnique(items, id);
    }
  }

  /** No action leaves a line with zero or fewer units: adding starts at one and only counts
      up, updating to zero or less removes the line. */
  lemma {:induction false} ActionsKeepPositive(items: seq<CartItem>, item: CartItem, id: string, quantity: int)
    requires Positive(items)
    ensures Positive(Added(items, item))
    ensures Positive(Removed(items, id))
    ensures Positive(Updated(items, id, quantity))
  {
    var r := Removed(items, id);
    assert forall k :: 0 <= k < |r| ==> r[k] in items;
  }

  /** removeItem drops exactly that variant's lines and keeps the rest in order: it distributes
      over concatenation and keeps or drops each single line. */
  lemma {:induction false} RemovedDistributes(a: seq<CartItem>, b: seq<CartItem>, id: string)
    ensures Removed(a + b, id) == Removed(a, id) + Removed(b, id)
    decreases |a|
  {
    if a == [] {
      assert a + b == b;
    } else {
      assert (a + b)[1..] == a[1..] + b;
      RemovedDistributes(a[1..], b, id);
    }
  }

  lemma RemovedSingle(x: CartItem, id: string)
    ensures Removed([x], id) == if x.variantId == id then [] else [x]
  {
    assert [x][1..] == [];
  }

  /** updateQuantity with a positive quantity sets that line only. */
  lemma {:induction false} UpdateSetsQuantity(items: seq<CartItem>, id: string, quantity: int, k: nat)
    requires quantity > 0 && k < |items|
    ensures |Updated(items, id, quantity)| == |items|
    ensures Updated(items, id, quantity)[k] ==
      if items[k].variantId == id then items[k].(quantity := quantity) else items[k]
  {
  }

  /** updateQuantity with zero or less is removeItem. */
  lemma {:induction false} UpdateToZeroRemoves(items: seq<CartItem>, id: string, quantity: int)
    requires quantity <= 0
    ensures Updated(items, id, quantity) == Removed(items, id)
  {
  }

  /** Both folds add line by line: the cart's sums are those of its parts. */
  lemma {:induction false} FoldsSplit(a: seq<CartItem>, b: seq<CartItem>)
    ensures ItemCount(a + b) == ItemCount(a) + ItemCount(b)
    ensures Subtotal(a + b) == Subtotal(a) + Subtotal(b)
    decreases |b|
  {
    if b == [] {
      assert a + b == a;
    } else {
      var n := |b| - 1;
      assert (a + b)[..|a + b| - 1] == a + b[..n];
      FoldsSplit(a, b[..n]);
    }
  }

  // ---------------------------------------------------------------------------------------------
  // The store

  class Cart {
    var items: seq<CartItem>
    var isOpen: bool

    predicate Valid()
      reads this
    {
      Unique(items) && Positive(items)
    }

    constructor ()
      ensures items == [] && !isOpen && Valid()
    {
      items := [];
      isOpen := false;
    }

    method OpenCart()
      modifies this
      ensures isOpen && items == old(items)
    {
      isOpen := true;
    }

    method CloseCart()
      modifies this
      ensures !isOpen && items == old(items)
    {
      isOpen := false;
    }

    /** Always opens the drawer. */
    method AddItem(item: CartItem)
      requires Valid()
      modifies this
      ensures Valid() && isOpen
      ensures items == Added(old(items), item)
      ensures ItemCount(items) == ItemCount(old(items)) + 1
    {
      AddKeepsUnique(items, item);
      ActionsKeepPositive(items, item, "", 1);
      AddCountsOne(items, item);
      if item.variantId in Ids(items) {
        items := Bumped(items, item.variantId);
      } else {
        items := items + [item.(quantity := 1)];
      }
      isOpen := true;
    }

    method RemoveItem(variantId: string)
      requires Valid()
      modifies this
      ensures Valid() && isOpen == old(isOpen)
      ensures items == Removed(old(items), variantId)
    {
      RemoveKeepsUnique(items, variantId);
      ActionsKeepPositive(items, CartItem("", "", "", 0, "", "", None, 1), variantId, 0);
      items := Removed(items, variantId);
    }

    method UpdateQuantity(variantId: string, quantity: int)
      requires Valid()
      modifies this
      ensures Valid() && isOpen == old(isOpen)
      ensures items == Updated(old(items), variantId, quantity)
    {
      if quantity <= 0 {
        RemoveItem(variantId);
        return;
      }
      ActionsKeepPositive(items, CartItem("", "", "", 0, "", "", None, 1), variantId, quantity);
      items := WithQuantity(items, variantId, quantity);
    }

    method ClearCart()
      modifies this
      ensures items == [] && isOpen == old(isOpen) && Valid()
      ensures ItemCount(items) == 0 && Subtotal(items) == 0
    {
      items := [];
    }
  }
}
