/**
 * The viande/poulet split of a family or enterprise menu: the default split when the dialog
 * opens and the +/- buttons that move units from one meat to the other.
 */
module MeatSplit {

  datatype Meat = Viande | Poulet

  datatype Distribution = Distribution(viande: int, poulet: int)

  /** The count on one side. */
  function Side(d: Distribution, meat: Meat): int {
    match meat
    case Viande => d.viande
    case Poulet => d.poulet
  }

  /**
   * The split set when the dialog opens: `poulet = Math.floor(q / 2)` and `viande` takes the rest,
   * so viande is the larger half. (Dafny's `/` by a positive divisor rounds down, as `Math.floor` does.)
   */
  function InitialSplit(q: int): (d: Distribution)
    ensures d.viande + d.poulet == q
    ensures 0 <= d.viande - d.poulet <= 1
    ensures q >= 0 ==> d.poulet >= 0
  {
    Distribution(q - q / 2, q / 2)
  }

  /** `Math.max(lo, Math.min(hi, x))`. */
  function Clamp(lo: int, hi: int, x: int): (r: int)
    ensures lo <= hi ==> lo <= r <= hi
    ensures lo <= x <= hi ==> r == x
  {
    if hi < x then (if lo >= hi then lo else hi) else (if lo >= x then lo else x)
  }

  /**
   * The updater of `handleMeatChange(meat, delta)`: the changed side is clamped to `[0, q]` and
   * the other side becomes `q` minus it.
   */
  function MeatChange(d: Distribution, q: int, meat: Meat, delta: int): (r: Distribution)
    ensures r.viande + r.poulet == q
    ensures Side(r, meat) == Clamp(0, q, Side(d, meat) + delta)
    ensures q >= 0 ==> 0 <= r.viande <= q && 0 <= r.poulet <= q
  {
    var v := Clamp(0, q, Side(d, meat) + delta);
    match meat
    case Viande => Distribution(v, q - v)
    case Poulet => Distribution(q - v, v)
  }

  /** A change that stays within range moves exactly `delta` units between the two sides. */
  lemma MeatChangeMoves(d: Distribution, q: int, meat: Meat, delta: int)
    requires d.viande + d.poulet == q
    requires 0 <= Side(d, meat) + delta <= q
    ensures Side(MeatChange(d, q, meat, delta), meat) == Side(d, meat) + delta
    ensures var other := if meat == Viande then Poulet else Viande;
      Side(MeatChange(d, q, meat, delta), other) == Side(d, other) - delta
  {
  }

  /** At the bound a press changes nothing: both sides already sum to `q` within range. */
  lemma MeatChangeAtBound(d: Distribution, q: int, meat: Meat, delta: int)
    requires d.viande + d.poulet == q && 0 <= d.viande && 0 <= d.poulet
    requires (delta < 0 && Side(d, meat) == 0) || (delta > 0 && Side(d, meat) == q)
    ensures MeatChange(d, q, meat, delta) == d
  {
  }
}
