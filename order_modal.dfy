/**
 * The taco customisation dialog: the supplement counters, the quantity stepper and the price
 * shown on the order button.
 *
 * `selectedSupplements` is a JavaScript object from supplement id to count; it is modelled as an
 * association list in the order the keys were first set, which is the order `Object.entries`
 * lists them for non-numeric keys.
 */
module OrderModal {
  import opened Wrappers
  import opened Seqs

  /** An entry of the supplement menu. */
  datatype SupplementOffer = SupplementOffer(id: string, name: string, price: int)

  /** The six supplements the dialog offers. */
  const Supplements: seq<SupplementOffer> := [
    SupplementOffer("frites", "Frites", 500),
    SupplementOffer("coca", "Coca-Cola", 500),
    SupplementOffer("sprite", "Sprite", 500),
    SupplementOffer("fanta", "Fanta", 500),
    SupplementOffer("eau", "Eau minérale", 300),
    SupplementOffer("sauce-extra", "Sauce supplémentaire", 200)
  ]

  /** One key of `selectedSupplements` with its count. */
  datatype Selection = Selection(id: string, qty: int)

  /** `prev[id]`: the count stored under a key, if any. */
  function Lookup(sel: seq<Selection>, id: string): Option<int> {
    if sel == [] then None
    else if sel[0].id == id then Some(sel[0].qty)
    else Lookup(sel[1..], id)
  }

  /** An object has each key at most once. */
  predicate KeysDistinct(sel: seq<Selection>) {
    sel == [] || (Lookup(sel[1..], sel[0].id).None? && KeysDistinct(sel[1..]))
  }

  /** No key is ever stored with a count of zero (or below). */
  predicate NoZero(sel: seq<Selection>) {
    forall i :: 0 <= i < |sel| ==> sel[i].qty > 0
  }

  /** `{ ...prev, [id]: v }`: an existing key keeps its place, a new key goes last. */
  function SetKey(sel: seq<Selection>, id: string, v: int): seq<Selection> {
    if sel == [] then [Selection(id, v)]
    else if sel[0].id == id then [Selection(id, v)] + sel[1..]
    else [sel[0]] + SetKey(sel[1..], id, v)
  }

  /** `const { [id]: _, ...rest } = prev`. */
  function RemoveKey(sel: seq<Selection>, id: string): seq<Selection> {
    if sel == [] then []
    else if sel[0].id == id then RemoveKey(sel[1..], id)
    else [sel[0]] + RemoveKey(sel[1..], id)
  }

  function Max(a: int, b: int): int {
    if a >= b then a else b
  }

  /** The count `handleSupplementChange(id, delta)` computes: `Math.max(0, (prev[id] || 0) + delta)`. */
  function NewCount(sel: seq<Selection>, id: string, delta: int): nat {
    Max(0, Lookup(sel, id).GetOr(0) + delta)
  }

  /** The updater of `handleSupplementChange`: a count of zero removes the key. */
  function SupplementChange(sel: seq<Selection>, id: string, delta: int): seq<Selection> {
    if NewCount(sel, id, delta) == 0 then RemoveKey(sel, id) else SetKey(sel, id, NewCount(sel, id, delta))
  }

  /** Setting a key changes the count of that key only. */
  lemma {:induction false} LookupSet(sel: seq<Selection>, id: string, v: int, key: string)
    ensures Lookup(SetKey(sel, id, v), key) == if key == id then Some(v) else Lookup(sel, key)
    decreases |sel|
  {
    if sel != [] && sel[0].id != id {
      LookupSet(sel[1..], id, v, key);
    }
  }

  /** Removing a key drops that key only. */
  lemma {:induction false} LookupRemove(sel: seq<Selection>, id: string, key: string)
    ensures Lookup(RemoveKey(sel, id), key) == if key == id then None else Lookup(sel, key)
    decreases |sel|
  {
    if sel != [] {
      LookupRemove(sel[1..], id, key);
    }
  }

  lemma {:induction false} SetKeyInvariant(sel: seq<Selection>, id: string, v: int)
    requires KeysDistinct(sel) && NoZero(sel) && v > 0
    ensures KeysDistinct(SetKey(sel, id, v)) && NoZero(SetKey(sel, id, v))
    decreases |sel|
  {
    if sel != [] && sel[0].id != id {
      SetKeyInvariant(sel[1..], id, v);
      LookupSet(sel[1..], id, v, sel[0].id);
    }
  }

  lemma {:induction false} RemoveKeyInvariant(sel: seq<Selection>, id: string)
    requires KeysDistinct(sel) && NoZero(sel)
    ensures KeysDistinct(RemoveKey(sel, id)) && NoZero(RemoveKey(sel, id))
    decreases |sel|
  {
    if sel != [] {
      RemoveKeyInvariant(sel[1..], id);
      LookupRemove(sel[1..], id, sel[0].id);
    }
  }

  /** The change keeps the keys distinct and never stores a zero count. */
  lemma SupplementChangeInvariant(sel: seq<Selection>, id: string, delta: int)
    requires KeysDistinct(sel) && NoZero(sel)
    ensures KeysDistinct(SupplementChange(sel, id, delta)) && NoZero(SupplementChange(sel, id, delta))
  {
    if NewCount(sel, id, delta) == 0 {
      RemoveKeyInvariant(sel, id);
    } else {
      SetKeyInvariant(sel, id, NewCount(sel, id, delta));
    }
  }

  /** After the change the key holds exactly the new count, or is absent when that count is zero; other keys keep theirs. */
  lemma SupplementChangeLookup(sel: seq<Selection>, id: string, delta: int, key: string)
    ensures Lookup(SupplementChange(sel, id, delta), id)
         == if NewCount(sel, id, delta) == 0 then None else Some(NewCount(sel, id, delta) as int)
    ensures key != id ==> Lookup(SupplementChange(sel, id, delta), key) == Lookup(sel, key)
  {
    if NewCount(sel, id, delta) == 0 {
      LookupRemove(sel, id, id);
      LookupRemove(sel, id, key);
    } else {
      LookupSet(sel, id, NewCount(sel, id, delta), id);
      LookupSet(sel, id, NewCount(sel, id, delta), key);
    }
  }

  // ---------------------------------------------------------------------------------
  // calculateTotal

  /** `supplements.find(s => s.id === id)`. */
  function FindOffer(offers: seq<SupplementOffer>, id: string): Option<SupplementOffer> {
    if offers == [] then None
    else if offers[0].id == id then Some(offers[0])
    else FindOffer(offers[1..], id)
  }

  /** `supplement?.price || 0`. */
  function PriceOf(id: string): int {
    match FindOffer(Supplements, id)
    case Some(s) => s.price
    case None => 0
  }

  /** The search finds an offer exactly when one has that id, and then the first such offer. */
  lemma {:induction false} FindOfferSpec(offers: seq<SupplementOffer>, id: string)
    ensures FindOffer(offers, id).None? <==> forall k :: 0 <= k < |offers| ==> offers[k].id != id
    ensures FindOffer(offers, id).Some? ==> FindOffer(offers, id).value in offers && FindOffer(offers, id).value.id == id
    decreases |offers|
  {
    if offers != [] && offers[0].id != id {
      FindOfferSpec(offers[1..], id);
      assert forall k :: 1 <= k < |offers| ==> offers[k] == offers[1..][k - 1];
    }
  }

  /** An id outside the six offers contributes nothing to the total; a known one costs its listed price. */
  lemma PriceOfSpec(id: string)
    ensures (forall k :: 0 <= k < |Supplements| ==> Supplements[k].id != id) ==> PriceOf(id) == 0
    ensures forall k :: 0 <= k < |Supplements| && Supplements[k].id == id ==> PriceOf(id) == Supplements[k].price
  {
    FindOfferSpec(Supplements, id);
    SupplementIdsDistinct();
    var found := FindOffer(Supplements, id);
    if found.Some? {
      var j :| 0 <= j < |Supplements| && Supplements[j] == found.value;
      assert PriceOf(id) == Supplements[j].price;
    }
  }

  /** No two offers share an id. */
  lemma SupplementIdsDistinct()
    ensures forall i, j :: 0 <= i < j < |Supplements| ==> Supplements[i].id != Supplements[j].id
  {
  }

  /** The `Object.entries(selectedSupplements).reduce(...)` sum. */
  function SelectionTotal(sel: seq<Selection>): int {
    if sel == [] then 0 else PriceOf(sel[0].id) * sel[0].qty + SelectionTotal(sel[1..])
  }

  /** `calculateTotal`: the taco price plus the supplements, times the quantity. */
  function CalculateTotal(tacoPrice: int, sel: seq<Selection>, quantity: int): int {
    (tacoPrice + SelectionTotal(sel)) * quantity
  }

  /** Removing a key takes its price times its count off the supplement sum. */
  lemma {:induction false} SelectionTotalRemove(sel: seq<Selection>, id: string)
    requires KeysDistinct(sel)
    ensures SelectionTotal(RemoveKey(sel, id)) == SelectionTotal(sel) - PriceOf(id) * Lookup(sel, id).GetOr(0)
    decreases |sel|
  {
    if sel != [] {
      SelectionTotalRemove(sel[1..], id);
      if sel[0].id == id {
        RemoveAbsent(sel[1..], id);
      }
    }
  }

  /** Removing a key that is not there changes nothing. */
  lemma {:induction false} RemoveAbsent(sel: seq<Selection>, id: string)
    requires Lookup(sel, id).None?
    ensures RemoveKey(sel, id) == sel
    decreases |sel|
  {
    if sel != [] {
      RemoveAbsent(sel[1..], id);
    }
  }

  /** Setting a key to `v` moves the supplement sum by its price times the change of its count. */
  lemma {:induction false} SelectionTotalSet(sel: seq<Selection>, id: string, v: int)
    ensures SelectionTotal(SetKey(sel, id, v)) == SelectionTotal(sel) + PriceOf(id) * (v - Lookup(sel, id).GetOr(0))
    decreases |sel|
  {
    var p := PriceOf(id);
    if sel == [] {
      assert SetKey(sel, id, v) == [Selection(id, v)];
      assert [Selection(id, v)][1..] == [];
    } else if sel[0].id == id {
      var r := [Selection(id, v)] + sel[1..];
      assert r[1..] == sel[1..];
      assert p * v - p * sel[0].qty == p * (v - sel[0].qty);
    } else {
      var r := [sel[0]] + SetKey(sel[1..], id, v);
      assert r[1..] == SetKey(sel[1..], id, v);
      SelectionTotalSet(sel[1..], id, v);
    }
  }

  /** A change moves the supplement sum by the price of that supplement times the change in its count. */
  lemma SupplementChangeTotal(sel: seq<Selection>, id: string, delta: int)
    requires KeysDistinct(sel)
    ensures SelectionTotal(SupplementChange(sel, id, delta))
         == SelectionTotal(sel) + PriceOf(id) * (NewCount(sel, id, delta) - Lookup(sel, id).GetOr(0))
  {
    if NewCount(sel, id, delta) == 0 {
      ChangeToZeroTotal(sel, id, delta);
    } else {
      ChangeToCountTotal(sel, id, delta);
    }
  }

  /** The case of `SupplementChangeTotal` where the count drops to zero and the key is removed. */
  lemma ChangeToZeroTotal(sel: seq<Selection>, id: string, delta: int)
    requires KeysDistinct(sel) && NewCount(sel, id, delta) == 0
    ensures SelectionTotal(SupplementChange(sel, id, delta))
         == SelectionTotal(sel) + PriceOf(id) * (NewCount(sel, id, delta) - Lookup(sel, id).GetOr(0))
  {
    var p, c := PriceOf(id), Lookup(sel, id).GetOr(0);
    SelectionTotalRemove(sel, id);
    assert p * (0 - c) == -(p * c);
  }

  /** The case of `SupplementChangeTotal` where the key is set to a positive count. */
  lemma ChangeToCountTotal(sel: seq<Selection>, id: string, delta: int)
    requires NewCount(sel, id, delta) != 0
    ensures SelectionTotal(SupplementChange(sel, id, delta))
         == SelectionTotal(sel) + PriceOf(id) * (NewCount(sel, id, delta) - Lookup(sel, id).GetOr(0))
  {
    SelectionTotalSet(sel, id, NewCount(sel, id, delta));
  }

  /** The entries the order message lists: `.filter(([_, qty]) => qty > 0)`. */
  function MessageSupplements(sel: seq<Selection>): (r: seq<Selection>)
    ensures forall i :: 0 <= i < |r| ==> r[i].qty > 0
    ensures IsSubsequence(r, sel)
    ensures forall e :: multiset(r)[e] == if e.qty > 0 then multiset(sel)[e] else 0
  {
    FilterIsSubsequence(sel, (e: Selection) => e.qty > 0);
    FilterMultiplicity(sel, (e: Selection) => e.qty > 0);
    Filter(sel, (e: Selection) => e.qty > 0)
  }

  /** Since no zero is ever stored, the message lists every selected supplement. */
  lemma MessageListsAll(sel: seq<Selection>)
    requires NoZero(sel)
    ensures MessageSupplements(sel) == sel
  {
    FilterKeepsAll(sel, (e: Selection) => e.qty > 0);
  }

  // ---------------------------------------------------------------------------------
  // The dialog

  class Dialog {
    var selectedSupplements: seq<Selection>
    var quantity: int

    ghost predicate Valid()
      reads this
    {
      KeysDistinct(selectedSupplements) && NoZero(selectedSupplements) && quantity >= 1
    }

    constructor ()
      ensures Valid() && selectedSupplements == [] && quantity == 1
    {
      selectedSupplements := [];
      quantity := 1;
    }

    /** The price on the order button. */
    function Total(tacoPrice: int): int
      reads this
    {
      CalculateTotal(tacoPrice, selectedSupplements, quantity)
    }

    /** The "-" and "+" buttons of a supplement call this with `delta` -1 and 1. */
    method HandleSupplementChange(id: string, delta: int)
      requires Valid()
      modifies this`selectedSupplements
      ensures Valid()
      ensures selectedSupplements == SupplementChange(old(selectedSupplements), id, delta)
      ensures SelectionTotal(selectedSupplements) == old(SelectionTotal(selectedSupplements))
        + PriceOf(id) * (NewCount(old(selectedSupplements), id, delta) - Lookup(old(selectedSupplements), id).GetOr(0))
    {
      SupplementChangeInvariant(selectedSupplements, id, delta);
      SupplementChangeTotal(selectedSupplements, id, delta);
      selectedSupplements := SupplementChange(selectedSupplements, id, delta);
    }

    /** The quantity "-" button: `Math.max(1, quantity - 1)`. */
    method DecrementQuantity()
      requires Valid()
      modifies this`quantity
      ensures Valid()
      ensures quantity == Max(1, old(quantity) - 1)
      ensures old(quantity) > 1 ==> quantity == old(quantity) - 1
    {
      quantity := Max(1, quantity - 1);
    }

    /** The quantity "+" button. */
    method IncrementQuantity()
      requires Valid()
      modifies this`quantity
      ensures Valid()
      ensures quantity == old(quantity) + 1
    {
      quantity := quantity + 1;
    }

    /** `handleClose`: no supplements and a quantity of one. */
    method HandleClose()
      modifies this`selectedSupplements, this`quantity
      ensures Valid()
      ensures selectedSupplements == [] && quantity == 1
      ensures forall tacoPrice :: Total(tacoPrice) == tacoPrice
    {
      selectedSupplements := [];
      quantity := 1;
    }
  }
}
