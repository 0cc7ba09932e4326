/**
 * The till (point of sale) screen: a ticket of product lines keyed by product id, its running
 * total, the payment numpad, and the recording of a paid order with its 3-digit order number.
 */
module AdminPos {
  import opened Wrappers
  import opened Text
  import opened Seqs
  import opened Receipt
  import PosProducts

  datatype Screen = PosScreen | PaymentScreen | ReceiptScreen

  datatype PaymentMethod = Especes | Wave | Orange

  /** A numpad key that reaches the handler: a digit, "C" (clear) or "⌫" (erase); "+/-" is inert. */
  datatype NumpadKey = DigitKey(c: char) | ClearKey | BackspaceKey

  /** The record written to the `orders` table when a payment is accepted. */
  datatype PosOrder = PosOrder(orderNumber: string, dailySequence: nat, items: seq<OrderItem>,
                               subtotal: int, taxRate: int, taxAmount: int, total: int,
                               paymentMethod: PaymentMethod, amountPaid: int, changeAmount: int)

  // ---------------------------------------------------------------------------------
  // The ticket

  /** `orderItems.reduce((sum, item) => sum + item.price * item.qty, 0)`. */
  function Total(items: seq<OrderItem>): int {
    if items == [] then 0 else Total(items[..|items| - 1]) + items[|items| - 1].price * items[|items| - 1].qty
  }

  predicate IdsUnique(items: seq<OrderItem>) {
    forall i, j :: 0 <= i < j < |items| ==> items[i].id != items[j].id
  }

  /** Every line has a positive price and a quantity of at least one. */
  predicate LinesPositive(items: seq<OrderItem>) {
    forall i :: 0 <= i < |items| ==> items[i].qty >= 1 && items[i].price > 0
  }

  /** `items.find(i => i.id === id)`, as the position of the first line with that id. */
  function FindLine(items: seq<OrderItem>, id: string): (r: Option<nat>)
    ensures r.Some? ==> r.value < |items| && items[r.value].id == id
    ensures r.Some? ==> forall i :: 0 <= i < r.value ==> items[i].id != id
    ensures r.None? ==> forall i :: 0 <= i < |items| ==> items[i].id != id
  {
    if items == [] then None
    else if items[0].id == id then Some(0)
    else match FindLine(items[1..], id)
      case Some(k) => Some(k + 1)
      case None => None
  }

  /** The ticket after `addProduct(p)`: one more of an existing line, or a new line of one. */
  function WithProduct(items: seq<OrderItem>, p: PosProducts.PosProduct): seq<OrderItem> {
    if FindLine(items, p.id).Some? then
      seq(|items|, i requires 0 <= i < |items| =>
        if items[i].id == p.id then items[i].(qty := items[i].qty + 1) else items[i])
    else
      items + [OrderItem(p.id, p.name, 1, p.price)]
  }

  /** The ticket after `removeItem(id)`. */
  function WithoutItem(items: seq<OrderItem>, id: string): seq<OrderItem> {
    Filter(items, (i: OrderItem) => i.id != id)
  }

  /** Adding a product already on the ticket raises that line's quantity by one and changes nothing else. */
  lemma WithProductExisting(items: seq<OrderItem>, p: PosProducts.PosProduct, k: nat)
    requires IdsUnique(items) && k < |items| && items[k].id == p.id
    ensures WithProduct(items, p) == items[k := items[k].(qty := items[k].qty + 1)]
  {
  }

  /** Adding a product not on the ticket appends a single line of quantity one. */
  lemma WithProductNew(items: seq<OrderItem>, p: PosProducts.PosProduct)
    requires forall i :: 0 <= i < |items| ==> items[i].id != p.id
    ensures WithProduct(items, p) == items + [OrderItem(p.id, p.name, 1, p.price)]
  {
  }

  /** Adding a product of positive price keeps the ids distinct and the lines positive. */
  lemma WithProductInvariant(items: seq<OrderItem>, p: PosProducts.PosProduct)
    requires IdsUnique(items) && LinesPositive(items) && p.price > 0
    ensures IdsUnique(WithProduct(items, p)) && LinesPositive(WithProduct(items, p))
  {
    var found := FindLine(items, p.id);
    if found.Some? {
      var k := found.value;
      WithProductExisting(items, p, k);
      UpdatedLineKeepsInvariant(items, k, items[k].(qty := items[k].qty + 1));
    } else {
      WithProductNew(items, p);
    }
  }

  /** Replacing a line by one with the same id and positive amounts keeps the ticket invariant. */
  lemma UpdatedLineKeepsInvariant(items: seq<OrderItem>, k: nat, x: OrderItem)
    requires IdsUnique(items) && LinesPositive(items) && k < |items|
    requires x.id == items[k].id && x.qty >= 1 && x.price > 0
    ensures IdsUnique(items[k := x]) && LinesPositive(items[k := x])
  {
  }

  lemma {:induction false} TotalAppend(a: seq<OrderItem>, b: seq<OrderItem>)
    ensures Total(a + b) == Total(a) + Total(b)
    decreases |b|
  {
    if b == [] {
      assert a + b == a;
    } else {
      var init := b[..|b| - 1];
      assert (a + b)[..|a + b| - 1] == a + init;
      TotalAppend(a, init);
    }
  }

  /** Replacing one line changes the total by the difference of the two line amounts. */
  lemma {:induction false} TotalUpdate(items: seq<OrderItem>, k: nat, x: OrderItem)
    requires k < |items|
    ensures Total(items[k := x]) == Total(items) - items[k].price * items[k].qty + x.price * x.qty
  {
    var before, after := items[..k], items[k + 1..];
    assert items == before + [items[k]] + after;
    assert items[k := x] == before + [x] + after;
    TotalAppend(before + [items[k]], after);
    TotalAppend(before + [x], after);
    TotalAppend(before, [items[k]]);
    TotalAppend(before, [x]);
  }

  /** The total grows by the unit price of the product added, whether it merged or appended. */
  lemma TotalWithProduct(items: seq<OrderItem>, p: PosProducts.PosProduct)
    requires IdsUnique(items)
    ensures Total(WithProduct(items, p)) ==
      Total(items) + match FindLine(items, p.id) case Some(k) => items[k].price case None => p.price
  {
    var found := FindLine(items, p.id);
    if found.Some? {
      TotalWithExisting(items, p, found.value);
    } else {
      TotalWithNew(items, p);
    }
  }

  lemma TotalWithExisting(items: seq<OrderItem>, p: PosProducts.PosProduct, k: nat)
    requires IdsUnique(items) && k < |items| && items[k].id == p.id
    ensures Total(WithProduct(items, p)) == Total(items) + items[k].price
  {
    WithProductExisting(items, p, k);
    TotalOneMore(items, k);
  }

  /** One more of the line at `k` adds its unit price to the total. */
  lemma TotalOneMore(items: seq<OrderItem>, k: nat)
    requires k < |items|
    ensures Total(items[k := items[k].(qty := items[k].qty + 1)]) == Total(items) + items[k].price
  {
    var line := items[k];
    var x := line.(qty := line.qty + 1);
    TotalUpdate(items, k, x);
    var a, q := line.price, line.qty;
    assert x.price * x.qty == a * (q + 1);
    assert a * (q + 1) == a * q + a;
  }

  lemma TotalWithNew(items: seq<OrderItem>, p: PosProducts.PosProduct)
    requires forall i :: 0 <= i < |items| ==> items[i].id != p.id
    ensures Total(WithProduct(items, p)) == Total(items) + p.price
  {
    WithProductNew(items, p);
    TotalAppend(items, [OrderItem(p.id, p.name, 1, p.price)]);
  }

  /** Removing an id that is not on the ticket leaves it unchanged. */
  lemma WithoutItemAbsent(items: seq<OrderItem>, id: string)
    requires forall i :: 0 <= i < |items| ==> items[i].id != id
    ensures WithoutItem(items, id) == items
  {
    FilterKeepsAll(items, (i: OrderItem) => i.id != id);
  }

  /** Removing the line at `k` keeps every other line, in order. */
  lemma WithoutItemAt(items: seq<OrderItem>, id: string, k: nat)
    requires IdsUnique(items) && k < |items| && items[k].id == id
    ensures WithoutItem(items, id) == items[..k] + items[k + 1..]
  {
    var before, after := items[..k], items[k + 1..];
    assert items == before + [items[k]] + after;
    assert forall i :: 0 <= i < |before| ==> before[i].id != id by {
      forall i | 0 <= i < |before| ensures before[i].id != id { assert before[i] == items[i]; }
    }
    assert forall i :: 0 <= i < |after| ==> after[i].id != id by {
      forall i | 0 <= i < |after| ensures after[i].id != id { assert after[i] == items[k + 1 + i]; }
    }
    FilterDropsOne(before, items[k], after, (i: OrderItem) => i.id != id);
  }

  /** Removing a line keeps the ids distinct and the lines positive. */
  lemma WithoutItemInvariant(items: seq<OrderItem>, id: string)
    requires IdsUnique(items) && LinesPositive(items)
    ensures IdsUnique(WithoutItem(items, id)) && LinesPositive(WithoutItem(items, id))
  {
    var found := FindLine(items, id);
    if found.Some? {
      WithoutItemAt(items, id, found.value);
      RemovedLineKeepsInvariant(items, found.value);
    } else {
      WithoutItemAbsent(items, id);
    }
  }

  /** Deleting the line at `k` keeps the ticket invariant. */
  lemma RemovedLineKeepsInvariant(items: seq<OrderItem>, k: nat)
    requires IdsUnique(items) && LinesPositive(items) && k < |items|
    ensures IdsUnique(items[..k] + items[k + 1..]) && LinesPositive(items[..k] + items[k + 1..])
  {
    var r := items[..k] + items[k + 1..];
    forall i | 0 <= i < |r|
      ensures r[i] == items[if i < k then i else i + 1]
    {
    }
  }

  /** Removing a line takes exactly its amount off the total. */
  lemma TotalWithoutItem(items: seq<OrderItem>, id: string)
    requires IdsUnique(items)
    ensures Total(WithoutItem(items, id)) ==
      Total(items) - match FindLine(items, id) case Some(k) => items[k].price * items[k].qty case None => 0
  {
    var found := FindLine(items, id);
    if found.Some? {
      var k := found.value;
      WithoutItemAt(items, id, k);
      assert items == items[..k] + [items[k]] + items[k + 1..];
      TotalAppend(items[..k] + [items[k]], items[k + 1..]);
      TotalAppend(items[..k], [items[k]]);
      TotalAppend(items[..k], items[k + 1..]);
    } else {
      WithoutItemAbsent(items, id);
    }
  }

  /** A ticket of positive lines has a non-negative total. */
  lemma {:induction false} TotalNonNegative(items: seq<OrderItem>)
    requires LinesPositive(items)
    ensures Total(items) >= 0
  {
    if items != [] {
      TotalNonNegative(items[..|items| - 1]);
    }
  }

  // ---------------------------------------------------------------------------------
  // Product search

  /**
   * `filteredProducts`: all products for a blank search, otherwise those whose lower-cased name
   * contains the lower-cased search, in catalog order.
   */
  function ProductsMatching(products: seq<PosProducts.PosProduct>, search: string): (r: seq<PosProducts.PosProduct>)
    ensures IsSubsequence(r, products)
    ensures IsBlank(search) ==> r == products
    ensures !IsBlank(search) ==>
      (forall i :: 0 <= i < |r| ==> r[i] in products && Contains(ToLower(r[i].name), ToLower(search))) &&
      (forall i :: 0 <= i < |products| && Contains(ToLower(products[i].name), ToLower(search)) ==> products[i] in r)
    ensures !IsBlank(search) ==>
      forall p :: multiset(r)[p] == (if Contains(ToLower(p.name), ToLower(search)) then multiset(products)[p] else 0)
  {
    if IsBlank(search) then
      SubsequenceOfSelf(products);
      products
    else
      var keep := (p: PosProducts.PosProduct) => Contains(ToLower(p.name), ToLower(search));
      FilterIsSubsequence(products, keep);
      FilterMultiplicity(products, keep);
      Filter(products, keep)
  }

  // ---------------------------------------------------------------------------------
  // Payment

  /** The numpad string after a key: cleared, its last character erased, or the digit appended. */
  function NumpadNext(value: string, key: NumpadKey): string {
    match key
    case ClearKey => ""
    case BackspaceKey => if value == [] then [] else value[..|value| - 1]
    case DigitKey(c) => value + [c]
  }

  /** The change handed back: what was paid beyond the total, never negative. */
  function Change(paid: int, total: int): (c: int)
    ensures c >= 0
    ensures paid >= total ==> paid - c == total
    ensures paid < total ==> c == 0
  {
    if paid - total > 0 then paid - total else 0
  }

  /** The daily sequence used: the allocator's number, or 1 when it returns nothing (or 0). */
  function SequenceOrOne(seqData: Option<nat>): (s: nat)
    ensures s >= 1
    ensures seqData.Some? && seqData.value != 0 ==> s == seqData.value
  {
    match seqData
    case Some(v) => if v != 0 then v else 1
    case None => 1
  }

  /**
   * The order number: the sequence in decimal, left-padded with zeros to three digits, written
   * by the number of digits the decimal form has.
   */
  function OrderNumber(sequence: nat): (r: string)
    ensures |r| >= 3 && AllDigits(r) && DigitsValue(r) == sequence
  {
    var digits := NatToString(sequence);
    DigitsValueOfNatToString(sequence);
    NatToStringLength(sequence);
    ZerosTwo();
    if sequence < 10 then
      DigitsValueLeadingZeros(2, digits);
      "00" + digits
    else if sequence < 100 then
      DigitsValueLeadingZeros(1, digits);
      "0" + digits
    else
      digits
  }

  /** The order number is `String(sequence).padStart(3, "0")`. */
  lemma OrderNumberIsPadStart(sequence: nat)
    ensures OrderNumber(sequence) == PadZeros(NatToString(sequence), 3)
  {
    NatToStringLength(sequence);
    ZerosTwo();
  }

  /** The order `handlePayment` records, or nothing when less than the total has been paid. */
  function PaymentRecord(items: seq<OrderItem>, payMethod: PaymentMethod, paid: int, seqData: Option<nat>): (r: Option<PosOrder>)
    ensures r.None? <==> paid < Total(items)
    ensures r.Some? ==>
      && r.value.items == items && r.value.total == Total(items) && r.value.subtotal == r.value.total
      && r.value.taxRate == 0 && r.value.taxAmount == 0
      && r.value.paymentMethod == payMethod && r.value.amountPaid == paid
      && r.value.changeAmount >= 0 && r.value.amountPaid - r.value.changeAmount == r.value.total
      && r.value.dailySequence >= 1 && AllDigits(r.value.orderNumber) && DigitsValue(r.value.orderNumber) == r.value.dailySequence
      && |r.value.orderNumber| >= 3
      && (seqData.Some? && seqData.value != 0 ==> r.value.dailySequence == seqData.value)
    ensures r.Some? ==> r.value.orderNumber == PadZeros(NatToString(r.value.dailySequence), 3)
  {
    OrderNumberIsPadStart(SequenceOrOne(seqData));
    var total := Total(items);
    if paid < total then None
    else
      var sequence := SequenceOrOne(seqData);
      Some(PosOrder(OrderNumber(sequence), sequence, items, total, 0, 0, total, payMethod, paid, Change(paid, total)))
  }

  /** The payment button is disabled while underpaid, while saving, or for an empty ticket. */
  predicate PaymentDisabled(paid: int, total: int, loading: bool, items: seq<OrderItem>) {
    paid < total || loading || items == []
  }

  /**
   * The button guards `handlePayment`: whenever the handler would refuse, the button is disabled,
   * and an enabled button always leads to a recorded order.
   */
  lemma PaymentButtonGuards(items: seq<OrderItem>, payMethod: PaymentMethod, paid: int, loading: bool, seqData: Option<nat>)
    ensures PaymentRecord(items, payMethod, paid, seqData).None? ==> PaymentDisabled(paid, Total(items), loading, items)
    ensures !PaymentDisabled(paid, Total(items), loading, items) ==> PaymentRecord(items, payMethod, paid, seqData).Some?
    ensures PaymentDisabled(paid, Total(items), loading, items) <==>
      PaymentRecord(items, payMethod, paid, seqData).None? || loading || items == []
  {
  }

  /** The state of the till screen. */
  class Till {
    var orderItems: seq<OrderItem>
    var screen: Screen
    var paymentMethod: PaymentMethod
    var amountPaid: int
    var numpadValue: string
    var orderNumber: string
    var loading: bool

    /** Ticket ids are distinct, lines are positive, and the amount paid is the value of the numpad string. */
    ghost predicate Valid()
      reads this`orderItems, this`numpadValue, this`amountPaid
    {
      && IdsUnique(orderItems) && LinesPositive(orderItems)
      && AllDigits(numpadValue) && amountPaid == DigitsValue(numpadValue)
    }

    constructor ()
      ensures Valid()
      ensures orderItems == [] && screen == PosScreen && paymentMethod == Especes
      ensures amountPaid == 0 && numpadValue == "" && orderNumber == "001" && !loading
    {
      orderItems := [];
      screen := PosScreen;
      paymentMethod := Especes;
      amountPaid := 0;
      numpadValue := "";
      orderNumber := "001";
      loading := false;
    }

    /** `addProduct`: a product of the catalog goes onto the ticket. */
    method AddProduct(p: PosProducts.PosProduct)
      requires Valid() && p in PosProducts.Catalog
      modifies this
      ensures Valid()
      ensures orderItems == WithProduct(old(orderItems), p)
      ensures Total(orderItems) == old(Total(orderItems)) +
        match FindLine(old(orderItems), p.id) case Some(k) => old(orderItems)[k].price case None => p.price
      ensures screen == old(screen) && paymentMethod == old(paymentMethod) && amountPaid == old(amountPaid)
      ensures numpadValue == old(numpadValue) && orderNumber == old(orderNumber) && loading == old(loading)
    {
      PosProducts.CatalogProductPricePositive(p);
      WithProductInvariant(orderItems, p);
      TotalWithProduct(orderItems, p);
      orderItems := WithProduct(orderItems, p);
    }

    /** `removeItem`: the line with that id leaves the ticket. */
    method RemoveItem(id: string)
      requires Valid()
      modifies this
      ensures Valid()
      ensures orderItems == WithoutItem(old(orderItems), id)
      ensures Total(orderItems) == old(Total(orderItems)) -
        match FindLine(old(orderItems), id) case Some(k) => old(orderItems)[k].price * old(orderItems)[k].qty case None => 0
      ensures screen == old(screen) && paymentMethod == old(paymentMethod) && amountPaid == old(amountPaid)
      ensures numpadValue == old(numpadValue) && orderNumber == old(orderNumber) && loading == old(loading)
    {
      TotalWithoutItem(orderItems, id);
      WithoutItemInvariant(orderItems, id);
      orderItems := WithoutItem(orderItems, id);
    }

    /** The "Paiement" button of the ticket panel: only a non-empty ticket moves to payment. */
    method GoToPayment()
      requires Valid()
      modifies this`screen
      ensures Valid()
      ensures screen == if orderItems != [] then PaymentScreen else old(screen)
    {
      if orderItems != [] {
        screen := PaymentScreen;
      }
    }

    /** The "Retour" button of the payment screen. */
    method BackToTicket()
      requires Valid()
      modifies this`screen
      ensures Valid() && screen == PosScreen
    {
      screen := PosScreen;
    }

    method SelectPaymentMethod(m: PaymentMethod)
      requires Valid()
      modifies this`paymentMethod
      ensures Valid() && paymentMethod == m
    {
      paymentMethod := m;
    }

    /** `handleNumpad`: the key edits the digit string and the amount paid is re-read from it. */
    method HandleNumpad(key: NumpadKey)
      requires Valid()
      requires key.DigitKey? ==> IsDigit(key.c)
      modifies this`numpadValue, this`amountPaid
      ensures Valid()
      ensures numpadValue == NumpadNext(old(numpadValue), key)
      ensures key.ClearKey? ==> numpadValue == "" && amountPaid == 0
      ensures key.BackspaceKey? ==> amountPaid == old(amountPaid) / 10
      ensures key.DigitKey? ==> amountPaid == old(amountPaid) * 10 + DigitOf(key.c)
    {
      match key
      case ClearKey =>
        numpadValue := "";
        amountPaid := 0;
      case BackspaceKey =>
        var nv := if numpadValue == [] then [] else numpadValue[..|numpadValue| - 1];
        if numpadValue != [] {
          DigitsValuePop(numpadValue);
        }
        numpadValue := nv;
        amountPaid := DigitsValue(nv);
      case DigitKey(c) =>
        var nv := numpadValue + [c];
        DigitsValuePush(numpadValue, c);
        numpadValue := nv;
        amountPaid := DigitsValue(nv);
    }

    /** `quickAmount(v)`, called by the +1 000, +2 000 and +5 000 buttons: the amount paid rises by exactly `v` and the numpad shows the new amount. */
    method QuickAmount(v: nat)
      requires Valid()
      modifies this`numpadValue, this`amountPaid
      ensures Valid()
      ensures amountPaid == old(amountPaid) + v
      ensures numpadValue == NatToString(amountPaid)
    {
      var nv := amountPaid + v;
      DigitsValueOfNatToString(nv);
      amountPaid := nv;
      numpadValue := NatToString(nv);
    }

    /** The "Facture" button: the amount paid becomes exactly the total. */
    method PayExactTotal()
      requires Valid()
      modifies this`numpadValue, this`amountPaid
      ensures Valid()
      ensures amountPaid == Total(orderItems)
      ensures numpadValue == NatToString(amountPaid)
    {
      var total := Total(orderItems);
      TotalNonNegative(orderItems);
      DigitsValueOfNatToString(total);
      amountPaid := total;
      numpadValue := NatToString(total);
    }

    /**
     * `handlePayment`: nothing happens while less than the total is paid; otherwise the order is
     * recorded under the seqData daily sequence and the receipt is shown. None of the fields `Valid`
     * reads is modified, so the invariant carries over unchanged.
     */
    method HandlePayment(seqData: Option<nat>) returns (recorded: Option<PosOrder>)
      modifies this`orderNumber, this`screen, this`loading
      ensures recorded == PaymentRecord(old(orderItems), old(paymentMethod), old(amountPaid), seqData)
      ensures recorded.None? ==> orderNumber == old(orderNumber) && screen == old(screen) && loading == old(loading)
      ensures recorded.Some? ==> orderNumber == recorded.value.orderNumber && screen == ReceiptScreen && !loading
    {
      recorded := PaymentRecord(orderItems, paymentMethod, amountPaid, seqData);
      if recorded.Some? {
        loading := true;
        orderNumber := recorded.value.orderNumber;
        screen := ReceiptScreen;
        loading := false;
      }
    }

    /** `handleNewOrder`: back to an empty ticket on the till screen. */
    method HandleNewOrder()
      requires Valid()
      modifies this`orderItems, this`screen, this`amountPaid, this`numpadValue, this`paymentMethod
      ensures Valid()
      ensures orderItems == [] && screen == PosScreen && amountPaid == 0 && numpadValue == ""
      ensures paymentMethod == Especes
    {
      orderItems := [];
      screen := PosScreen;
      amountPaid := 0;
      numpadValue := "";
      paymentMethod := Especes;
    }
  }
}
