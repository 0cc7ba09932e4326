/**
 * The till's order history: the search box's filter over the fetched orders and the article
 * count shown on each row.
 */
module OrderHistory {
  import opened Wrappers
  import opened Text
  import opened Seqs
  import opened Receipt

  /** A row of `orders` as the history screen reads it. */
  datatype Order = Order(id: string, orderNumber: string, ticketCode: Option<string>, items: seq<OrderItem>,
                         total: int, createdAt: int, paymentMethod: string, amountPaid: int)

  /**
   * The `filter` callback: a blank search keeps everything; otherwise the search is lowercased
   * (untrimmed) and matched by `MatchesQuery`.
   */
  predicate Matches(o: Order, search: string) {
    IsBlank(search) || MatchesQuery(o, ToLower(search))
  }

  /**
   * The order number, the lowercased ticket code (when present and non-empty) or the decimal
   * form of the total contains the query.
   */
  predicate MatchesQuery(o: Order, q: string) {
    || Contains(o.orderNumber, q)
    || (o.ticketCode.Some? && o.ticketCode.value != "" && Contains(ToLower(o.ticketCode.value), q))
    || Contains(IntToString(o.total), q)
  }

  /** `filtered`: the orders shown for a search, in the fetched order. */
  function Filtered(orders: seq<Order>, search: string): (r: seq<Order>)
    ensures IsSubsequence(r, orders)
    ensures IsBlank(search) ==> r == orders
    ensures forall i :: 0 <= i < |r| ==> r[i] in orders && Matches(r[i], search)
    ensures forall i :: 0 <= i < |orders| && Matches(orders[i], search) ==> orders[i] in r
    ensures forall o :: multiset(r)[o] == if Matches(o, search) then multiset(orders)[o] else 0
  {
    var keep := (o: Order) => Matches(o, search);
    if IsBlank(search) then
      FilterKeepsAll(orders, keep);
      SubsequenceOfSelf(orders);
      Filter(orders, keep)
    else
      FilterIsSubsequence(orders, keep);
      FilterMultiplicity(orders, keep);
      Filter(orders, keep)
  }

  /** Each string occurs in itself. */
  lemma ContainsSelf(s: string)
    ensures Contains(s, s)
  {
  }

  /** An order is found by its own number typed in lower case, and by its total typed out. */
  lemma FoundByNumberOrTotal(o: Order)
    requires ToLower(o.orderNumber) == o.orderNumber && !IsBlank(o.orderNumber)
    ensures Matches(o, o.orderNumber)
    ensures !IsBlank(IntToString(o.total)) ==> Matches(o, IntToString(o.total))
  {
    ContainsSelf(o.orderNumber);
    LowerIntToString(o.total);
    ContainsSelf(IntToString(o.total));
  }

  /** The decimal form of a number has no letters, so lowercasing leaves it as it is. */
  lemma LowerIntToString(n: int)
    ensures ToLower(IntToString(n)) == IntToString(n)
  {
    var t := IntToString(n);
    var d := NatToString(if n < 0 then -n else n);
    assert t == if n < 0 then "-" + d else d;
    forall i | 0 <= i < |t|
      ensures LowerChar(t[i]) == t[i]
    {
      assert t[i] == '-' || IsDigit(t[i]);
    }
  }

  /** A string that contains `q + [c]` contains `q`. */
  lemma {:induction false} ContainsShorter(s: string, q: string, c: char)
    requires Contains(s, q + [c])
    ensures Contains(s, q)
    decreases |s|
  {
    if IsPrefix(q + [c], s) {
      assert s[..|q|] == s[..|q| + 1][..|q|];
    } else {
      ContainsShorter(s[1..], q, c);
    }
  }

  /** A query that matches with one more character at its end matches without it. */
  lemma QueryNarrowing(o: Order, q: string, c: char)
    requires MatchesQuery(o, q + [c])
    ensures MatchesQuery(o, q)
  {
    if Contains(o.orderNumber, q + [c]) {
      ContainsShorter(o.orderNumber, q, c);
    } else if o.ticketCode.Some? && o.ticketCode.value != "" && Contains(ToLower(o.ticketCode.value), q + [c]) {
      ContainsShorter(ToLower(o.ticketCode.value), q, c);
    } else {
      ContainsShorter(IntToString(o.total), q, c);
    }
  }

  /** A search that is not blank stays so when a character is typed. */
  lemma NotBlankExtended(search: string, c: char)
    requires !IsBlank(search)
    ensures !IsBlank(search + [c])
  {
    BlankIffAllSpaces(search);
    BlankIffAllSpaces(search + [c]);
    var i :| 0 <= i < |search| && !IsSpace(search[i]);
    assert (search + [c])[i] == search[i];
  }

  /** Typing one more character into the search box can only narrow the list. */
  lemma MatchesNarrowing(o: Order, search: string, c: char)
    requires Matches(o, search + [c])
    ensures Matches(o, search)
  {
    if !IsBlank(search) {
      NotBlankExtended(search, c);
      ToLowerPush(search, c);
      QueryNarrowing(o, ToLower(search), LowerChar(c));
    }
  }

  /** Every order listed after a keystroke was already listed before it. */
  lemma FilteredNarrowing(orders: seq<Order>, search: string, c: char)
    ensures forall i :: 0 <= i < |Filtered(orders, search + [c])| ==>
      Filtered(orders, search + [c])[i] in Filtered(orders, search)
  {
    var r := Filtered(orders, search + [c]);
    forall i | 0 <= i < |r|
      ensures r[i] in Filtered(orders, search)
    {
      MatchesNarrowing(r[i], search, c);
      var k :| 0 <= k < |orders| && orders[k] == r[i];
    }
  }

  /** The "article(s)" count of a row: the sum of its lines' quantities. */
  function ArticleCount(o: Order): int {
    QtySum(o.items)
  }

  /** With every line quantity at least one, a row counts at least one article per line. */
  lemma ArticleCountAtLeastLines(o: Order)
    requires forall i :: 0 <= i < |o.items| ==> o.items[i].qty >= 1
    ensures ArticleCount(o) >= |o.items|
  {
    QtySumAtLeastLength(o.items);
  }

  /** Quantities of at least one sum to at least the number of lines. */
  lemma {:induction false} QtySumAtLeastLength(items: seq<OrderItem>)
    requires forall i :: 0 <= i < |items| ==> items[i].qty >= 1
    ensures QtySum(items) >= |items|
    decreases |items|
  {
    if items != [] {
      QtySumAtLeastLength(items[..|items| - 1]);
    }
  }
}
