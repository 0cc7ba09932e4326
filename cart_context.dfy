/**
 * The customer's cart shared by the storefront: the item list, the updates that add, remove
 * and re-quantify items, and the two derived counters shown in the header and the drawer.
 */
module Cart {
  import opened Wrappers
  import opened Seqs

  datatype ItemType = TacosItem | FamilyItem | EnterpriseItem

  /** A supplement chosen for a taco, with its count and unit price. */
  datatype Supplement = Supplement(id: string, name: string, qty: int, price: int)

  datatype MeatDistribution = MeatDistribution(viande: int, poulet: int)

  /** An entry of the cart; the optional fields belong to one kind of item or another. */
  datatype CartItem = CartItem(id: string, itemType: ItemType, name: string, size: Option<string>,
                               meatChoice: Option<string>, quantity: int, unitPrice: int,
                               supplements: seq<Supplement>, menuQuantity: Option<int>,
                               meatDistribution: Option<MeatDistribution>, bonus: Option<string>,
                               companyName: Option<string>, pricePerMenu: Option<int>)

  // ---------------------------------------------------------------------------------
  // The updaters passed to `setItems`

  /** `addItem`: the new item, given the generated id, goes after every existing item. */
  function Appended(items: seq<CartItem>, item: CartItem, id: string): (r: seq<CartItem>)
    ensures |r| == |items| + 1 && r[..|items|] == items
    ensures r[|items|].id == id && r[|items|] == item.(id := id)
  {
    items + [item.(id := id)]
  }

  /** `removeItem`: `prev.filter(i => i.id !== id)`. */
  function Removed(items: seq<CartItem>, id: string): (r: seq<CartItem>)
    ensures IsSubsequence(r, items)
    ensures forall i :: 0 <= i < |r| ==> r[i].id != id
    ensures forall i :: 0 <= i < |items| && items[i].id != id ==> items[i] in r
    ensures forall x :: multiset(r)[x] == if x.id != id then multiset(items)[x] else 0
  {
    FilterIsSubsequence(items, (i: CartItem) => i.id != id);
    FilterMultiplicity(items, (i: CartItem) => i.id != id);
    Filter(items, (i: CartItem) => i.id != id)
  }

  /** `updateQuantity`: below one the item is removed, otherwise every item with that id takes the quantity. */
  function UpdatedQuantity(items: seq<CartItem>, id: string, quantity: int): (r: seq<CartItem>)
    ensures quantity < 1 ==> r == Removed(items, id)
    ensures quantity >= 1 ==> |r| == |items|
    ensures quantity >= 1 ==> forall i :: 0 <= i < |r| ==>
      r[i].id == items[i].id && (items[i].id == id ==> r[i] == items[i].(quantity := quantity))
      && (items[i].id != id ==> r[i] == items[i])
  {
    if quantity < 1 then Removed(items, id)
    else seq(|items|, i requires 0 <= i < |items| => if items[i].id == id then items[i].(quantity := quantity) else items[i])
  }

  predicate QuantitiesPositive(items: seq<CartItem>) {
    forall i :: 0 <= i < |items| ==> items[i].quantity >= 1
  }

  predicate IdsDistinct(items: seq<CartItem>) {
    forall i, j :: 0 <= i < j < |items| ==> items[i].id != items[j].id
  }

  /** Removing a freshly added item gives back the cart as it was. */
  lemma RemoveUndoesAppend(items: seq<CartItem>, item: CartItem, id: string)
    requires forall i :: 0 <= i < |items| ==> items[i].id != id
    ensures Removed(Appended(items, item, id), id) == items
  {
    var keep := (i: CartItem) => i.id != id;
    FilterAppend(items, [item.(id := id)], keep);
    assert Filter([item.(id := id)], keep) == [];
    FilterKeepsAll(items, keep);
  }

  /** A fresh id keeps the ids distinct. */
  lemma AppendedIdsDistinct(items: seq<CartItem>, item: CartItem, id: string)
    requires IdsDistinct(items)
    requires forall i :: 0 <= i < |items| ==> items[i].id != id
    ensures IdsDistinct(Appended(items, item, id))
  {
  }

  /** Whatever the update, a cart whose quantities are all at least one keeps them so. */
  lemma UpdatedQuantityPositive(items: seq<CartItem>, id: string, quantity: int)
    requires QuantitiesPositive(items)
    ensures QuantitiesPositive(UpdatedQuantity(items, id, quantity))
  {
    var r := UpdatedQuantity(items, id, quantity);
    if quantity < 1 {
      forall i | 0 <= i < |r|
        ensures r[i].quantity >= 1
      {
        var k :| 0 <= k < |items| && items[k] == r[i];
      }
    }
  }

  // ---------------------------------------------------------------------------------
  // The derived counters

  /** `totalItems`: the sum of the quantities. */
  function TotalItems(items: seq<CartItem>): int {
    if items == [] then 0 else TotalItems(items[..|items| - 1]) + items[|items| - 1].quantity
  }

  /** `item.supplements.reduce((s, sup) => s + sup.price * sup.qty, 0)`. */
  function SupplementsTotal(sups: seq<Supplement>): int {
    if sups == [] then 0 else SupplementsTotal(sups[..|sups| - 1]) + sups[|sups| - 1].price * sups[|sups| - 1].qty
  }

  /**
   * `totalPrice`: family and enterprise items count unit price times quantity; a taco counts its
   * unit price plus its supplements, times its quantity.
   */
  function TotalPrice(items: seq<CartItem>): int {
    if items == [] then 0
    else
      var item := items[|items| - 1];
      TotalPrice(items[..|items| - 1])
      + (if item.itemType == FamilyItem || item.itemType == EnterpriseItem then item.unitPrice * item.quantity
         else (item.unitPrice + SupplementsTotal(item.supplements)) * item.quantity)
  }

  lemma {:induction false} TotalItemsAppend(a: seq<CartItem>, b: seq<CartItem>)
    ensures TotalItems(a + b) == TotalItems(a) + TotalItems(b)
    decreases |b|
  {
    if b == [] {
      assert a + b == a;
    } else {
      assert (a + b)[..|a + b| - 1] == a + b[..|b| - 1];
      TotalItemsAppend(a, b[..|b| - 1]);
    }
  }

  lemma {:induction false} TotalPriceAppend(a: seq<CartItem>, b: seq<CartItem>)
    ensures TotalPrice(a + b) == TotalPrice(a) + TotalPrice(b)
    decreases |b|
  {
    if b == [] {
      assert a + b == a;
    } else {
      assert (a + b)[..|a + b| - 1] == a + b[..|b| - 1];
      TotalPriceAppend(a, b[..|b| - 1]);
    }
  }

  /** Adding an item adds its quantity to the count and its line amount to the price. */
  lemma AppendedTotals(items: seq<CartItem>, item: CartItem, id: string)
    ensures TotalItems(Appended(items, item, id)) == TotalItems(items) + item.quantity
    ensures TotalPrice(Appended(items, item, id)) == TotalPrice(items) + TotalPrice([item])
  {
    TotalItemsAppend(items, [item.(id := id)]);
    TotalPriceAppend(items, [item.(id := id)]);
    assert [item.(id := id)][..0] == [] && [item][..0] == [];
  }

  /** Replacing one item changes the count by the difference of the quantities. */
  lemma {:induction false} TotalItemsUpdate(items: seq<CartItem>, k: nat, x: CartItem)
    requires k < |items|
    ensures TotalItems(items[k := x]) == TotalItems(items) - items[k].quantity + x.quantity
    decreases |items|
  {
    var n := |items| - 1;
    if k < n {
      assert items[k := x][..n] == items[..n][k := x];
      TotalItemsUpdate(items[..n], k, x);
    } else {
      assert items[k := x][..n] == items[..n];
    }
  }

  /** Setting the quantity of the item with a given id changes the count by exactly the difference. */
  lemma UpdatedQuantityTotal(items: seq<CartItem>, id: string, quantity: int, k: nat)
    requires IdsDistinct(items) && k < |items| && items[k].id == id && quantity >= 1
    ensures TotalItems(UpdatedQuantity(items, id, quantity)) == TotalItems(items) - items[k].quantity + quantity
  {
    assert UpdatedQuantity(items, id, quantity) == items[k := items[k].(quantity := quantity)];
    TotalItemsUpdate(items, k, items[k].(quantity := quantity));
  }

  /** Quantities of at least one make the count at least the number of items. */
  lemma {:induction false} TotalItemsAtLeastLength(items: seq<CartItem>)
    requires QuantitiesPositive(items)
    ensures TotalItems(items) >= |items|
    decreases |items|
  {
    if items != [] {
      TotalItemsAtLeastLength(items[..|items| - 1]);
    }
  }

  // ---------------------------------------------------------------------------------
  // The provider

  /** The `CartProvider` state. */
  class CartStore {
    var items: seq<CartItem>

    /** The first render: the stored cart when one parses, otherwise empty. */
    constructor (stored: Option<seq<CartItem>>)
      ensures items == stored.GetOr([])
    {
      items := stored.GetOr([]);
    }

    /** `addItem`, with the id `${Date.now()}-${random}` supplied by the caller. */
    method AddItem(item: CartItem, freshId: string)
      modifies this`items
      ensures items == Appended(old(items), item, freshId)
      ensures TotalItems(items) == old(TotalItems(items)) + item.quantity
    {
      AppendedTotals(items, item, freshId);
      items := Appended(items, item, freshId);
    }

    method RemoveItem(id: string)
      modifies this`items
      ensures items == Removed(old(items), id)
    {
      items := Removed(items, id);
    }

    /** `updateQuantity`: a quantity below one goes through `removeItem`. */
    method UpdateQuantity(id: string, quantity: int)
      modifies this`items
      ensures items == UpdatedQuantity(old(items), id, quantity)
      ensures QuantitiesPositive(old(items)) ==> QuantitiesPositive(items)
    {
      if QuantitiesPositive(items) {
        UpdatedQuantityPositive(items, id, quantity);
      }
      if quantity < 1 {
        RemoveItem(id);
        return;
      }
      items := UpdatedQuantity(items, id, quantity);
    }

    method ClearCart()
      modifies this`items
      ensures items == [] && TotalItems(items) == 0 && TotalPrice(items) == 0
    {
      items := [];
    }
  }
}
