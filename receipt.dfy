/** A line of a till ticket, as stored in an order's `items` and shown on the receipt. */
module Receipt {

  datatype OrderItem = OrderItem(id: string, name: string, qty: int, price: int)

  /** The number of articles on a list of ticket lines: the sum of their quantities. */
  function QtySum(items: seq<OrderItem>): int {
    if items == [] then 0 else QtySum(items[..|items| - 1]) + items[|items| - 1].qty
  }

  lemma QtySumAppend(items: seq<OrderItem>, more: seq<OrderItem>)
    ensures QtySum(items + more) == QtySum(items) + QtySum(more)
    decreases |more|
  {
    if more != [] {
      var last := |more| - 1;
      assert (items + more)[..|items + more| - 1] == items + more[..last];
      QtySumAppend(items, more[..last]);
    } else {
      assert items + more == items;
    }
  }
}
