/**
 * The enterprise-menu order dialog: the same split and guard as the family dialog, a delivery
 * type preset from the page, and an optional company name.
 */
module EnterpriseMenuModal {
  import opened Wrappers
  import opened Text
  import opened Delivery
  import opened MeatSplit

  datatype EnterpriseMenu = EnterpriseMenu(id: string, quantity: int, price: int, pricePerMenu: int)

  /** What the order message states, without its wording. */
  datatype EnterpriseOrder = EnterpriseOrder(menuQuantity: int, companyLine: Option<string>, split: Distribution,
                                             deliveryType: DeliveryType, address: Option<string>,
                                             total: int, pricePerMenu: int)

  /** `companyName.trim() ? ... : ""`: the company line holds the trimmed name, when there is one. */
  function CompanyLine(companyName: string): (r: Option<string>)
    ensures r.Some? <==> !IsBlank(companyName)
    ensures r.Some? ==> r.value == Trim(companyName)
  {
    if Trim(companyName) != "" then Some(Trim(companyName)) else None
  }

  /** A name made only of whitespace gives no company line. */
  lemma CompanyLineAllSpaces(companyName: string)
    ensures CompanyLine(companyName).None? <==> forall i :: 0 <= i < |companyName| ==> IsSpace(companyName[i])
  {
    BlankIffAllSpaces(companyName);
  }

  predicate OrderDisabled(deliveryType: Option<DeliveryType>, address: string) {
    deliveryType.None? || (deliveryType == Some(Livraison) && Trim(address) == "")
  }

  /** `handleOrder`: the same early returns as the family dialog, then the order. */
  function OrderFor(menu: EnterpriseMenu, split: Distribution, deliveryType: Option<DeliveryType>,
                    address: string, companyName: string): (r: Option<EnterpriseOrder>)
    ensures r.None? <==> ChoiceIncomplete(deliveryType, address)
    ensures r.None? <==> OrderDisabled(deliveryType, address)
    ensures r.Some? ==> r.value.split == split && r.value.total == menu.price && r.value.pricePerMenu == menu.pricePerMenu
    ensures r.Some? ==> r.value.companyLine == CompanyLine(companyName) && Some(r.value.deliveryType) == deliveryType
    ensures r.Some? ==> (r.value.address.Some? <==> deliveryType == Some(Livraison))
    ensures r.Some? && r.value.address.Some? ==> r.value.address.value == Trim(address) && !IsBlank(address)
  {
    if deliveryType.None? then None
    else if deliveryType.value == Livraison && IsBlank(address) then None
    else Some(EnterpriseOrder(menu.quantity, CompanyLine(companyName), split, deliveryType.value,
                              if deliveryType.value == Livraison then Some(Trim(address)) else None,
                              menu.price, menu.pricePerMenu))
  }

  class Dialog {
    const menu: EnterpriseMenu
    const initialDeliveryMode: Option<DeliveryType>
    var meatDistribution: Distribution
    var deliveryType: Option<DeliveryType>
    var deliveryAddress: string
    var companyName: string

    constructor (menu: EnterpriseMenu, initialDeliveryMode: Option<DeliveryType>)
      ensures this.menu == menu && this.initialDeliveryMode == initialDeliveryMode
      ensures meatDistribution == Distribution(0, 0) && deliveryType == None
      ensures deliveryAddress == "" && companyName == ""
    {
      this.menu := menu;
      this.initialDeliveryMode := initialDeliveryMode;
      meatDistribution := Distribution(0, 0);
      deliveryType := None;
      deliveryAddress := "";
      companyName := "";
    }

    /** The effect run when the dialog opens: default split, the page's delivery mode, empty texts. */
    method OnOpen()
      modifies this`meatDistribution, this`deliveryType, this`deliveryAddress, this`companyName
      ensures meatDistribution == InitialSplit(menu.quantity)
      ensures meatDistribution.viande + meatDistribution.poulet == menu.quantity
      ensures deliveryType == initialDeliveryMode && deliveryAddress == "" && companyName == ""
    {
      meatDistribution := InitialSplit(menu.quantity);
      deliveryType := initialDeliveryMode;
      deliveryAddress := "";
      companyName := "";
    }

    method HandleMeatChange(meat: Meat, delta: int)
      modifies this`meatDistribution
      ensures meatDistribution == MeatChange(old(meatDistribution), menu.quantity, meat, delta)
      ensures meatDistribution.viande + meatDistribution.poulet == menu.quantity
    {
      meatDistribution := MeatChange(meatDistribution, menu.quantity, meat, delta);
    }

    method HandleOrder() returns (order: Option<EnterpriseOrder>)
      ensures order == OrderFor(menu, meatDistribution, deliveryType, deliveryAddress, companyName)
    {
      order := OrderFor(menu, meatDistribution, deliveryType, deliveryAddress, companyName);
    }
  }
}
