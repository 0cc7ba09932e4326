/** How a storefront customer receives an order: delivered ("livraison") or collected ("emporter"). */
module Delivery {
  import opened Wrappers
  import opened Text

  datatype DeliveryType = Livraison | Emporter

  /** The value stored in the `delivery_type` column and in browser storage. */
  function Code(t: DeliveryType): string {
    match t
    case Livraison => "livraison"
    case Emporter => "emporter"
  }

  /** The stored value read back: only the two exact codes are recognised. */
  function Parse(s: string): (r: Option<DeliveryType>)
    ensures r.Some? ==> Code(r.value) == s
  {
    if s == "livraison" then Some(Livraison)
    else if s == "emporter" then Some(Emporter)
    else None
  }

  lemma ParseCode(t: DeliveryType)
    ensures Parse(Code(t)) == Some(t)
  {
  }

  /**
   * The order guard shared by the cart drawer and the two menu modals: an order may not be
   * sent while no delivery type is chosen, or while delivery is chosen and the address is blank.
   */
  predicate ChoiceIncomplete(t: Option<DeliveryType>, address: string) {
    t.None? || (t == Some(Livraison) && IsBlank(address))
  }
}
