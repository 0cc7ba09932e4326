/**
 * The admin list of storefront orders: the status workflow offered on each card, the status
 * update, the count of new orders, the realtime insertion and the expanded card.
 */
module ClientOrders {
  import opened Wrappers
  import opened Seqs

  /** A row of `client_orders` (its `order_details` JSON is not modelled). */
  datatype ClientOrder = ClientOrder(id: string, orderType: string, phone: string, deliveryType: string,
                                     deliveryAddress: Option<string>, total: int, status: string, createdAt: int)

  /** The status changes a card offers: a new order can be confirmed or cancelled, a confirmed one completed. */
  function OfferedTransitions(status: string): (r: seq<string>)
    ensures status == "new" ==> r == ["confirmed", "cancelled"]
    ensures status == "confirmed" ==> r == ["completed"]
    ensures status != "new" && status != "confirmed" ==> r == []
  {
    if status == "new" then ["confirmed", "cancelled"]
    else if status == "confirmed" then ["completed"]
    else []
  }

  /** How far along the workflow a status is. */
  function Rank(status: string): nat {
    if status == "new" then 0 else if status == "confirmed" then 1 else 2
  }

  /** Every offered change moves the order strictly forward, so the workflow has no cycle. */
  lemma TransitionsMoveForward(status: string)
    ensures forall i :: 0 <= i < |OfferedTransitions(status)| ==> Rank(OfferedTransitions(status)[i]) > Rank(status)
  {
  }

  /** A status reached by following offered changes, counting the change steps. */
  predicate ReachableIn(from: string, to: string, steps: nat)
    decreases steps
  {
    if steps == 0 then from == to
    else exists i :: 0 <= i < |OfferedTransitions(from)| && ReachableIn(OfferedTransitions(from)[i], to, steps - 1)
  }

  /** Following offered changes never takes more than two steps, and always ends in a later status. */
  lemma {:induction false} ReachableForward(from: string, to: string, steps: nat)
    requires ReachableIn(from, to, steps)
    ensures Rank(to) >= Rank(from) + steps && steps <= 2 - Rank(from)
    ensures steps > 0 ==> to == "completed" || to == "cancelled" || to == "confirmed"
    decreases steps
  {
    if steps > 0 {
      var i :| 0 <= i < |OfferedTransitions(from)| && ReachableIn(OfferedTransitions(from)[i], to, steps - 1);
      ReachableForward(OfferedTransitions(from)[i], to, steps - 1);
    }
  }

  /** `updateStatus`'s update: the rows with that id take the new status; nothing else changes. */
  function WithStatus(orders: seq<ClientOrder>, id: string, newStatus: string): (r: seq<ClientOrder>)
    ensures |r| == |orders|
    ensures forall i :: 0 <= i < |r| && orders[i].id == id ==> r[i] == orders[i].(status := newStatus)
    ensures forall i :: 0 <= i < |r| && orders[i].id != id ==> r[i] == orders[i]
  {
    seq(|orders|, i requires 0 <= i < |orders| => if orders[i].id == id then orders[i].(status := newStatus) else orders[i])
  }

  predicate IsNew(o: ClientOrder) {
    o.status == "new"
  }

  /** `newCount`: the orders whose status is "new". */
  function NewCount(orders: seq<ClientOrder>): (n: nat)
    ensures n <= |orders|
  {
    Count(orders, IsNew)
  }

  predicate IdsDistinct(orders: seq<ClientOrder>) {
    forall i, j :: 0 <= i < j < |orders| ==> orders[i].id != orders[j].id
  }

  /** Moving one new order (of a list with distinct ids) to another status lowers the count by one. */
  lemma NewCountAfterUpdate(orders: seq<ClientOrder>, k: nat, newStatus: string)
    requires IdsDistinct(orders) && k < |orders|
    ensures NewCount(WithStatus(orders, orders[k].id, newStatus))
         == NewCount(orders) - (if IsNew(orders[k]) then 1 else 0) + (if newStatus == "new" then 1 else 0)
  {
    assert WithStatus(orders, orders[k].id, newStatus) == orders[k := orders[k].(status := newStatus)];
    CountUpdate(orders, k, orders[k].(status := newStatus), IsNew);
  }

  /** The realtime insert: the new order in front, the rest as they were. */
  function Prepended(orders: seq<ClientOrder>, newOrder: ClientOrder): (r: seq<ClientOrder>)
    ensures |r| == |orders| + 1 && r[0] == newOrder && r[1..] == orders
  {
    [newOrder] + orders
  }

  /** An incoming order counts as new exactly when its status is "new". */
  lemma NewCountAfterInsert(orders: seq<ClientOrder>, newOrder: ClientOrder)
    ensures NewCount(Prepended(orders, newOrder)) == NewCount(orders) + (if IsNew(newOrder) then 1 else 0)
  {
    CountCons(newOrder, orders, IsNew);
  }

  /** Clicking a card: the expanded card collapses, any other card becomes the expanded one. */
  function ToggleExpanded(expanded: Option<string>, id: string): (r: Option<string>)
    ensures r == Some(id) <==> expanded != Some(id)
    ensures r.Some? ==> r.value == id
  {
    if expanded == Some(id) then None else Some(id)
  }

  /** Clicking the same card twice from the collapsed state leaves every card collapsed again. */
  lemma ToggleTwice(id: string)
    ensures ToggleExpanded(ToggleExpanded(None, id), id) == None
  {
  }

  /** `created_at` descending: the order the list is fetched in. */
  predicate NewestFirst(orders: seq<ClientOrder>) {
    forall i, j :: 0 <= i < j < |orders| ==> orders[i].createdAt >= orders[j].createdAt
  }

  /** The result of `fetchOrders`: the 100 most recent rows. */
  function Latest(table: seq<ClientOrder>): (r: seq<ClientOrder>)
    requires NewestFirst(table)
    ensures |r| == if |table| <= 100 then |table| else 100
    ensures NewestFirst(r) && r == table[..|r|]
  {
    if |table| <= 100 then table else table[..100]
  }

  /** The screen's state next to the `client_orders` table, kept newest first. */
  class Screen {
    var table: seq<ClientOrder>
    var orders: seq<ClientOrder>
    var loading: bool
    var expandedOrder: Option<string>

    ghost predicate Valid()
      reads this
    {
      NewestFirst(table)
    }

    constructor (table: seq<ClientOrder>)
      requires NewestFirst(table)
      ensures Valid()
      ensures this.table == table && orders == [] && loading && expandedOrder == None
    {
      this.table := table;
      orders := [];
      loading := true;
      expandedOrder := None;
    }

    /** `fetchOrders`; when the query fails the list stays as it was. */
    method FetchOrders(queryOk: bool)
      requires Valid()
      modifies this`orders, this`loading
      ensures Valid()
      ensures orders == if queryOk then Latest(table) else old(orders)
      ensures !loading
    {
      loading := true;
      if queryOk {
        orders := Latest(table);
      }
      loading := false;
    }

    /** `updateStatus`: the row changes status, then the list is fetched again. */
    method UpdateStatus(orderId: string, newStatus: string, queryOk: bool)
      requires Valid()
      modifies this`table, this`orders, this`loading
      ensures Valid()
      ensures table == WithStatus(old(table), orderId, newStatus)
      ensures orders == if queryOk then Latest(table) else old(orders)
    {
      table := WithStatus(table, orderId, newStatus);
      FetchOrders(queryOk);
    }

    /**
     * The realtime INSERT handler. The event reports a row just written to `client_orders`, so the
     * table gains it in front (it is created no earlier than any row already there) and the list
     * shows it first.
     */
    method OnInsert(newOrder: ClientOrder)
      requires Valid() && (table == [] || newOrder.createdAt >= table[0].createdAt)
      modifies this`table, this`orders
      ensures Valid()
      ensures table == [newOrder] + old(table)
      ensures orders == Prepended(old(orders), newOrder)
      ensures NewCount(orders) == old(NewCount(orders)) + (if IsNew(newOrder) then 1 else 0)
    {
      NewCountAfterInsert(orders, newOrder);
      table := [newOrder] + table;
      orders := Prepended(orders, newOrder);
    }

    method ClickOrder(id: string)
      modifies this`expandedOrder
      ensures expandedOrder == ToggleExpanded(old(expandedOrder), id)
    {
      expandedOrder := ToggleExpanded(expandedOrder, id);
    }
  }
}
