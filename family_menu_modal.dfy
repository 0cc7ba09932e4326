/** The family-menu order dialog: the meat split, the delivery choice and the order guard. */
module FamilyMenuModal {
  import opened Wrappers
  import opened Text
  import opened Delivery
  import opened MeatSplit

  /** A family menu offer: how many complete menus, the price and an optional bonus. */
  datatype FamilyMenu = FamilyMenu(id: string, quantity: int, price: int, bonus: Option<string>)

  /** What the order message states, without its wording. */
  datatype FamilyOrder = FamilyOrder(menuQuantity: int, split: Distribution, bonusLine: Option<string>,
                                     deliveryType: DeliveryType, address: Option<string>, total: int)

  /** `menu.bonus ? ... : ""`: the bonus line exists only for a non-empty bonus. */
  function BonusLine(menu: FamilyMenu): (r: Option<string>)
    ensures r.Some? <==> menu.bonus.Some? && menu.bonus.value != ""
    ensures r.Some? ==> r == menu.bonus
  {
    if menu.bonus.Some? && menu.bonus.value != "" then menu.bonus else None
  }

  /** The `disabled` condition of the order button. */
  predicate OrderDisabled(deliveryType: Option<DeliveryType>, address: string) {
    deliveryType.None? || (deliveryType == Some(Livraison) && Trim(address) == "")
  }

  /**
   * `handleOrder`: nothing without a delivery type or, for delivery, without an address;
   * otherwise the order with the split, the bonus line and the trimmed address.
   */
  function OrderFor(menu: FamilyMenu, split: Distribution, deliveryType: Option<DeliveryType>, address: string)
    : (r: Option<FamilyOrder>)
    ensures r.None? <==> ChoiceIncomplete(deliveryType, address)
    ensures r.None? <==> OrderDisabled(deliveryType, address)
    ensures r.Some? ==> r.value.split == split && r.value.total == menu.price && r.value.menuQuantity == menu.quantity
    ensures r.Some? ==> r.value.bonusLine == BonusLine(menu) && Some(r.value.deliveryType) == deliveryType
    ensures r.Some? ==> (r.value.address.Some? <==> deliveryType == Some(Livraison))
    ensures r.Some? && r.value.address.Some? ==> r.value.address.value == Trim(address) && !IsBlank(address)
  {
    if deliveryType.None? then None
    else if deliveryType.value == Livraison && IsBlank(address) then None
    else Some(FamilyOrder(menu.quantity, split, BonusLine(menu), deliveryType.value,
                          if deliveryType.value == Livraison then Some(Trim(address)) else None, menu.price))
  }

  /** The dialog's state for one menu. */
  class Dialog {
    const menu: FamilyMenu
    var meatDistribution: Distribution
    var deliveryType: Option<DeliveryType>
    var deliveryAddress: string

    constructor (menu: FamilyMenu)
      ensures this.menu == menu
      ensures meatDistribution == Distribution(0, 0) && deliveryType == None && deliveryAddress == ""
    {
      this.menu := menu;
      meatDistribution := Distribution(0, 0);
      deliveryType := None;
      deliveryAddress := "";
    }

    /** The effect run when the dialog opens: the default split, no delivery type, no address. */
    method OnOpen()
      modifies this`meatDistribution, this`deliveryType, this`deliveryAddress
      ensures meatDistribution == InitialSplit(menu.quantity)
      ensures meatDistribution.viande + meatDistribution.poulet == menu.quantity
      ensures deliveryType == None && deliveryAddress == ""
    {
      meatDistribution := InitialSplit(menu.quantity);
      deliveryType := None;
      deliveryAddress := "";
    }

    /** The +/- buttons of either meat. */
    method HandleMeatChange(meat: Meat, delta: int)
      modifies this`meatDistribution
      ensures meatDistribution == MeatChange(old(meatDistribution), menu.quantity, meat, delta)
      ensures meatDistribution.viande + meatDistribution.poulet == menu.quantity
    {
      meatDistribution := MeatChange(meatDistribution, menu.quantity, meat, delta);
    }

    method SelectDeliveryType(t: DeliveryType)
      modifies this`deliveryType
      ensures deliveryType == Some(t)
    {
      deliveryType := Some(t);
    }

    method HandleOrder() returns (order: Option<FamilyOrder>)
      ensures order == OrderFor(menu, meatDistribution, deliveryType, deliveryAddress)
    {
      order := OrderFor(menu, meatDistribution, deliveryType, deliveryAddress);
    }
  }
}
