/**
 * The cart drawer: the phone rule, the per-line amount, the guards of the "order everything"
 * button, and the submission that writes one `client_orders` record per cart item and then
 * empties the cart.
 */
module CartDrawer {
  import opened Wrappers
  import opened Text
  import opened Delivery
  import opened Cart

  /** The `order_details` JSON of a record sent from the cart. */
  datatype OrderDetails = OrderDetails(tacoName: string, size: Option<string>, meatChoice: Option<string>,
                                       quantity: int, supplements: seq<Supplement>, unitPrice: int,
                                       menuQuantity: Option<int>, meatDistribution: Option<MeatDistribution>,
                                       companyName: Option<string>, bonus: Option<string>, fromCart: bool)

  /** A row inserted into `client_orders`. */
  datatype ClientOrderRecord = ClientOrderRecord(orderType: ItemType, details: OrderDetails, phone: string,
                                                 deliveryType: DeliveryType, deliveryAddress: Option<string>,
                                                 total: int)

  /** `isPhoneValid`: at least 11 characters once every whitespace character is removed. */
  predicate IsPhoneValid(phone: string) {
    |StripSpaces(phone)| >= 11
  }

  /** A number already free of whitespace is valid exactly when it has 11 characters or more. */
  lemma PhoneValidWithoutSpaces(phone: string)
    requires NoSpaces(phone)
    ensures IsPhoneValid(phone) <==> |phone| >= 11
  {
  }

  /** Whitespace never makes a number valid: fewer than 11 characters in all is always invalid. */
  lemma ShortPhoneInvalid(phone: string)
    requires |phone| < 11
    ensures !IsPhoneValid(phone)
  {
  }

  /** `getItemTotal`: the amount of one cart line. */
  function ItemTotal(item: CartItem): int {
    if item.itemType == FamilyItem || item.itemType == EnterpriseItem then item.unitPrice * item.quantity
    else (item.unitPrice + SupplementsTotal(item.supplements)) * item.quantity
  }

  /** The sum of the amounts the drawer shows for its lines. */
  function ItemsTotal(items: seq<CartItem>): int {
    if items == [] then 0 else ItemsTotal(items[..|items| - 1]) + ItemTotal(items[|items| - 1])
  }

  /** The drawer's line amounts add up to the cart's `totalPrice`. */
  lemma {:induction false} ItemsTotalIsTotalPrice(items: seq<CartItem>)
    ensures ItemsTotal(items) == TotalPrice(items)
    decreases |items|
  {
    if items != [] {
      ItemsTotalIsTotalPrice(items[..|items| - 1]);
    }
  }

  /** `x || null` on an optional string: an empty string counts as absent. */
  function OrNull(s: Option<string>): (r: Option<string>)
    ensures r.Some? <==> s.Some? && s.value != ""
    ensures r.Some? ==> r == s
  {
    if s.Some? && s.value != "" then s else None
  }

  /** The `phone` column: the number with every whitespace character removed. */
  function PhoneColumn(phone: string): (r: string)
    ensures NoSpaces(r) && |r| <= |phone|
    ensures NoSpaces(phone) ==> r == phone
  {
    StripSpaces(phone)
  }

  /** The `delivery_address` column: the trimmed address for a delivery, null otherwise. */
  function AddressColumn(deliveryType: DeliveryType, address: string): (r: Option<string>)
    ensures r.Some? <==> deliveryType == Livraison
    ensures r.Some? ==> r.value == Trim(address)
  {
    if deliveryType == Livraison then Some(Trim(address)) else None
  }

  /**
   * The record written for one item, given the `phone` and `delivery_address` columns, which are
   * the same for every item of the cart.
   */
  function RecordFor(item: CartItem, phone: string, deliveryType: DeliveryType, address: Option<string>): (r: ClientOrderRecord)
    ensures r.total == ItemTotal(item) && r.orderType == item.itemType
    ensures r.phone == phone && r.deliveryType == deliveryType && r.deliveryAddress == address
    ensures r.details.fromCart && r.details.quantity == item.quantity && r.details.tacoName == item.name
    ensures r.details.size.Some? <==> item.size.Some? && item.size.value != ""
  {
    ClientOrderRecord(
      item.itemType,
      OrderDetails(item.name, OrNull(item.size), OrNull(item.meatChoice), item.quantity, item.supplements,
                   item.unitPrice, item.menuQuantity, item.meatDistribution, item.companyName, item.bonus, true),
      phone,
      deliveryType,
      address,
      ItemTotal(item))
  }

  /** The early returns of `handleOrderAll`. */
  predicate SubmitBlocked(items: seq<CartItem>, deliveryType: Option<DeliveryType>, address: string, phone: string) {
    || deliveryType.None? || |items| == 0
    || (deliveryType == Some(Livraison) && IsBlank(address))
    || !IsPhoneValid(phone)
  }

  /** The `disabled` condition of the order button. */
  predicate OrderButtonDisabled(items: seq<CartItem>, deliveryType: Option<DeliveryType>, address: string,
                                phone: string, isSubmitting: bool) {
    || |items| == 0
    || deliveryType.None?
    || (deliveryType == Some(Livraison) && Trim(address) == "")
    || !IsPhoneValid(phone)
    || isSubmitting
  }

  /** The button is disabled exactly when the handler would return early, or while a send is running. */
  lemma ButtonMatchesGuards(items: seq<CartItem>, deliveryType: Option<DeliveryType>, address: string,
                            phone: string, isSubmitting: bool)
    ensures OrderButtonDisabled(items, deliveryType, address, phone, isSubmitting)
        <==> SubmitBlocked(items, deliveryType, address, phone) || isSubmitting
    ensures SubmitBlocked(items, deliveryType, address, phone)
        <==> |items| == 0 || ChoiceIncomplete(deliveryType, address) || !IsPhoneValid(phone)
  {
  }

  /** The sum of the totals of a list of records. */
  function RecordsTotal(records: seq<ClientOrderRecord>): int {
    if records == [] then 0 else RecordsTotal(records[..|records| - 1]) + records[|records| - 1].total
  }

  /** The records sent for a list of items, in the same order. */
  function SentRecords(items: seq<CartItem>, phone: string, deliveryType: DeliveryType, address: Option<string>): seq<ClientOrderRecord> {
    if items == [] then []
    else SentRecords(items[..|items| - 1], phone, deliveryType, address) + [RecordFor(items[|items| - 1], phone, deliveryType, address)]
  }

  /** One record per item, the k-th written for the k-th item. */
  lemma {:induction false} SentRecordsAt(items: seq<CartItem>, phone: string, deliveryType: DeliveryType, address: Option<string>)
    ensures |SentRecords(items, phone, deliveryType, address)| == |items|
    ensures forall k :: 0 <= k < |items| ==>
      SentRecords(items, phone, deliveryType, address)[k] == RecordFor(items[k], phone, deliveryType, address)
    decreases |items|
  {
    if items != [] {
      var init := items[..|items| - 1];
      SentRecordsAt(init, phone, deliveryType, address);
      assert forall k :: 0 <= k < |init| ==> init[k] == items[k];
    }
  }

  /** The records' totals add up to the drawer's line amounts. */
  lemma {:induction false} SentRecordsTotal(items: seq<CartItem>, phone: string, deliveryType: DeliveryType, address: Option<string>)
    ensures RecordsTotal(SentRecords(items, phone, deliveryType, address)) == ItemsTotal(items)
    decreases |items|
  {
    if items != [] {
      var init := items[..|items| - 1];
      var r := SentRecords(items, phone, deliveryType, address);
      SentRecordsTotal(init, phone, deliveryType, address);
      assert r[..|r| - 1] == SentRecords(init, phone, deliveryType, address);
    }
  }

  /** What the loop sends: one record per item, in order, adding up to the cart's `totalPrice`. */
  lemma SentRecordsSpec(items: seq<CartItem>, phone: string, deliveryType: DeliveryType, address: Option<string>)
    ensures var sent := SentRecords(items, phone, deliveryType, address);
      && |sent| == |items|
      && (forall k :: 0 <= k < |items| ==> sent[k] == RecordFor(items[k], phone, deliveryType, address))
      && RecordsTotal(sent) == TotalPrice(items)
  {
    SentRecordsAt(items, phone, deliveryType, address);
    SentRecordsTotal(items, phone, deliveryType, address);
    ItemsTotalIsTotalPrice(items);
  }

  /** The `for (const item of items)` loop: one insert per item, in cart order. */
  method SendAll(items: seq<CartItem>, phone: string, deliveryType: DeliveryType, address: Option<string>)
    returns (sent: seq<ClientOrderRecord>)
    ensures sent == SentRecords(items, phone, deliveryType, address)
    ensures |sent| == |items|
    ensures forall k :: 0 <= k < |items| ==> sent[k] == RecordFor(items[k], phone, deliveryType, address)
    ensures RecordsTotal(sent) == TotalPrice(items)
  {
    sent := [];
    var i := 0;
    while i < |items|
      invariant 0 <= i <= |items|
      invariant sent == SentRecords(items[..i], phone, deliveryType, address)
    {
      var record := RecordFor(items[i], phone, deliveryType, address);
      assert items[..i + 1][..i] == items[..i];
      sent := sent + [record];
      i := i + 1;
    }
    assert items[..i] == items;
    SentRecordsSpec(items, phone, deliveryType, address);
  }

  /** The drawer's own state next to the shared cart. */
  class Drawer {
    const cart: CartStore
    var deliveryType: Option<DeliveryType>
    var deliveryAddress: string
    var phoneNumber: string
    var isSubmitting: bool

    /** The first render: no delivery choice, an empty address and the "+223" prefix. */
    constructor (cart: CartStore)
      ensures this.cart == cart
      ensures deliveryType == None && deliveryAddress == "" && phoneNumber == "+223" && !isSubmitting
    {
      this.cart := cart;
      deliveryType := None;
      deliveryAddress := "";
      phoneNumber := "+223";
      isSubmitting := false;
    }

    /**
     * `handleOrderAll`: unless a guard returns early, one record per item in cart order, each
     * with that item's amount, is sent; then the cart is cleared.
     */
    method HandleOrderAll() returns (sent: seq<ClientOrderRecord>)
      modifies this`isSubmitting, cart`items
      ensures SubmitBlocked(old(cart.items), deliveryType, deliveryAddress, phoneNumber) ==>
        sent == [] && cart.items == old(cart.items) && isSubmitting == old(isSubmitting)
      ensures !SubmitBlocked(old(cart.items), deliveryType, deliveryAddress, phoneNumber) ==>
        && |sent| == |old(cart.items)|
        && (forall i :: 0 <= i < |sent| ==>
              sent[i] == RecordFor(old(cart.items)[i], PhoneColumn(phoneNumber), deliveryType.value,
                                   AddressColumn(deliveryType.value, deliveryAddress)))
        && RecordsTotal(sent) == TotalPrice(old(cart.items))
        && cart.items == [] && !isSubmitting
    {
      sent := [];
      var items := cart.items;
      if deliveryType.None? || |items| == 0 {
        return;
      }
      if deliveryType.value == Livraison && IsBlank(deliveryAddress) {
        return;
      }
      if !IsPhoneValid(phoneNumber) {
        return;
      }
      isSubmitting := true;
      sent := SendAll(items, PhoneColumn(phoneNumber), deliveryType.value, AddressColumn(deliveryType.value, deliveryAddress));
      cart.ClearCart();
      isSubmitting := false;
    }
  }
}
