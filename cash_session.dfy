/**
 * The cash-register session screen: finding the open session, opening one with a generated
 * code, closing it with the totals of the orders taken since it opened, and the closing
 * report's per-article aggregation sorted by revenue.
 *
 * Instants (`opened_at`, `created_at`, `closed_at`) are modelled as integers ordered like the
 * timestamps they stand for; the two tables the screen reads are passed in as sequences.
 */
module CashSession {
  import opened Wrappers
  import opened Text
  import opened Seqs
  import opened Receipt

  /** A row of the `cash_sessions` table. */
  datatype Session = Session(id: string, sessionCode: string, openedAt: int, closedAt: Option<int>,
                             status: string, totalSales: Option<int>, totalOrders: Option<int>)

  /** The columns of an `orders` row that the close reads; `items` is a JSON column that may be null. */
  datatype LedgerOrder = LedgerOrder(createdAt: int, total: Option<int>, items: Option<seq<OrderItem>>)

  /** One entry of `itemAgg`: an article name with its summed quantity and revenue. */
  datatype ArticleRow = ArticleRow(name: string, qty: int, total: int)

  /** What `generateClosingPDF` puts in the report: the sales table, its total row and the counters. */
  datatype ClosingReport = ClosingReport(session: Session, articles: seq<ArticleRow>, articleQty: int,
                                         totalSales: int, totalOrders: nat)

  predicate IsOpen(s: Session) {
    s.status == "open"
  }

  predicate IdsDistinct(sessions: seq<Session>) {
    forall i, j :: 0 <= i < j < |sessions| ==> sessions[i].id != sessions[j].id
  }

  // ---------------------------------------------------------------------------------
  // fetchSession

  /**
   * `status = 'open'`, ordered by `opened_at` descending, first row: an open session opened no
   * earlier than any other open one. Among equal instants the later row is taken.
   */
  function LatestOpen(sessions: seq<Session>): (r: Option<Session>)
    ensures r.Some? ==> r.value in sessions && IsOpen(r.value)
    ensures r.Some? ==> forall i :: 0 <= i < |sessions| && IsOpen(sessions[i]) ==> sessions[i].openedAt <= r.value.openedAt
    ensures r.None? <==> forall i :: 0 <= i < |sessions| ==> !IsOpen(sessions[i])
  {
    if sessions == [] then None
    else
      var init := sessions[..|sessions| - 1];
      var last := sessions[|sessions| - 1];
      var before := LatestOpen(init);
      assert forall i :: 0 <= i < |init| ==> init[i] == sessions[i];
      if IsOpen(last) && (before.None? || before.value.openedAt <= last.openedAt) then Some(last) else before
  }

  /** A session appended with an instant no earlier than every existing one is the one found. */
  lemma LatestOpenAfterInsert(sessions: seq<Session>, s: Session)
    requires IsOpen(s)
    requires forall i :: 0 <= i < |sessions| ==> sessions[i].openedAt <= s.openedAt
    ensures LatestOpen(sessions + [s]) == Some(s)
  {
    assert (sessions + [s])[..|sessions|] == sessions;
  }

  // ---------------------------------------------------------------------------------
  // openCash: the session code

  /** `String.prototype.slice(2)`. */
  function DropTwo(s: string): string {
    if |s| >= 2 then s[2..] else ""
  }

  /**
   * The code of a new session: "MM-", the year without its first two digits, the month and the
   * day of the month on two digits each, "-", then `Math.floor(Math.random() * 9000 + 1000)`,
   * written here as `draw + 1000` for the integer part `draw` of the random product.
   */
  function SessionCode(year: nat, month: nat, day: nat, draw: nat): string
    requires draw < 9000
  {
    "MM-" + DropTwo(NatToString(year)) + PadZeros(NatToString(month), 2) + PadZeros(NatToString(day), 2)
    + "-" + NatToString(draw + 1000)
  }

  datatype CodeParts = CodeParts(yy: nat, mm: nat, dd: nat, suffix: nat)

  /** Reads a code of the shape "MM-" + six digits + "-" + four digits back into its numbers. */
  function ParseSessionCode(code: string): Option<CodeParts> {
    if |code| == 14 && code[..3] == "MM-" && code[9] == '-'
       && AllDigits(code[3..5]) && AllDigits(code[5..7]) && AllDigits(code[7..9]) && AllDigits(code[10..])
    then Some(CodeParts(DigitsValue(code[3..5]), DigitsValue(code[5..7]), DigitsValue(code[7..9]), DigitsValue(code[10..])))
    else None
  }

  /** The year part of the code: the last two digits of a four-digit year. */
  lemma YearDigits(year: nat)
    requires 1000 <= year <= 9999
    ensures var yy := DropTwo(NatToString(year)); |yy| == 2 && AllDigits(yy) && DigitsValue(yy) == year % 100
  {
    var c, d := year / 10 % 10, year % 10;
    NatToStringFourDigits(year);
    DropTwoOfFour(DigitChar(year / 1000), DigitChar(year / 100 % 10), DigitChar(c), DigitChar(d));
    DigitsValueTwo(c, d);
    LastTwoDigits(year);
  }

  lemma DropTwoOfFour(a: char, b: char, c: char, d: char)
    ensures DropTwo([a, b, c, d]) == [c, d]
  {
  }

  lemma LastTwoDigits(n: nat)
    ensures n % 100 == 10 * (n / 10 % 10) + n % 10
  {
  }

  /** The random suffix is written on exactly four digits. */
  lemma SuffixDigits(draw: nat)
    requires draw < 9000
    ensures var ss := NatToString(draw + 1000); |ss| == 4 && DigitsValue(ss) == draw + 1000
  {
    NatToStringFourDigits(draw + 1000);
    DigitsValueOfNatToString(draw + 1000);
  }

  /** Where the digit groups sit in a code. */
  lemma CodeSlices(yy: string, mm: string, dd: string, ss: string)
    requires |yy| == 2 && |mm| == 2 && |dd| == 2 && |ss| == 4
    ensures var code := "MM-" + yy + mm + dd + "-" + ss;
      && |code| == 14 && code[..3] == "MM-" && code[9] == '-'
      && code[3..5] == yy && code[5..7] == mm && code[7..9] == dd && code[10..] == ss
  {
    var code := "MM-" + yy + mm + dd + "-" + ss;
    MiddleSlice("MM-", yy, mm + dd + "-" + ss);
    MiddleSlice("MM-" + yy, mm, dd + "-" + ss);
    MiddleSlice("MM-" + yy + mm, dd, "-" + ss);
    assert code == "MM-" + yy + (mm + dd + "-" + ss);
    assert code == "MM-" + yy + mm + (dd + "-" + ss);
    assert code == "MM-" + yy + mm + dd + ("-" + ss);
  }

  lemma MiddleSlice(a: string, b: string, c: string)
    ensures (a + b + c)[|a|..|a| + |b|] == b
  {
  }

  /** Any string of the documented shape reads back into the values of its digit groups. */
  lemma ParseParts(yy: string, mm: string, dd: string, ss: string)
    requires |yy| == 2 && |mm| == 2 && |dd| == 2 && |ss| == 4
    requires AllDigits(yy) && AllDigits(mm) && AllDigits(dd) && AllDigits(ss)
    ensures ParseSessionCode("MM-" + yy + mm + dd + "-" + ss)
         == Some(CodeParts(DigitsValue(yy), DigitsValue(mm), DigitsValue(dd), DigitsValue(ss)))
  {
    CodeSlices(yy, mm, dd, ss);
  }

  /** For a four-digit year and a calendar date, the code has the documented shape and reads back. */
  lemma SessionCodeRoundTrip(year: nat, month: nat, day: nat, draw: nat)
    requires 1000 <= year <= 9999 && 1 <= month <= 12 && 1 <= day <= 31 && draw < 9000
    ensures ParseSessionCode(SessionCode(year, month, day, draw)) == Some(CodeParts(year % 100, month, day, draw + 1000))
  {
    var yy := DropTwo(NatToString(year));
    var mm := PadZeros(NatToString(month), 2);
    var dd := PadZeros(NatToString(day), 2);
    var ss := NatToString(draw + 1000);
    YearDigits(year);
    SuffixDigits(draw);
    assert mm == TwoDigits(month) && dd == TwoDigits(day);
    ParseParts(yy, mm, dd, ss);
  }

  // ---------------------------------------------------------------------------------
  // closeCash: the totals

  /** `o.total || 0`. */
  function OrderAmount(o: LedgerOrder): int {
    o.total.GetOr(0)
  }

  /** `ordersList.reduce((s, o) => s + (o.total || 0), 0)`. */
  function SalesTotal(orders: seq<LedgerOrder>): int {
    if orders == [] then 0 else SalesTotal(orders[..|orders| - 1]) + OrderAmount(orders[|orders| - 1])
  }

  lemma {:induction false} SalesTotalAppend(a: seq<LedgerOrder>, b: seq<LedgerOrder>)
    ensures SalesTotal(a + b) == SalesTotal(a) + SalesTotal(b)
    decreases |b|
  {
    if b == [] {
      assert a + b == a;
    } else {
      var init := b[..|b| - 1];
      assert (a + b)[..|a + b| - 1] == a + init;
      SalesTotalAppend(a, init);
    }
  }

  /** The orders the close reads: exactly those created at or after the opening instant, in order. */
  function SessionOrders(orders: seq<LedgerOrder>, openedAt: int): (r: seq<LedgerOrder>)
    ensures IsSubsequence(r, orders)
    ensures forall i :: 0 <= i < |r| ==> r[i].createdAt >= openedAt
    ensures forall i :: 0 <= i < |orders| && orders[i].createdAt >= openedAt ==> orders[i] in r
    ensures forall o :: multiset(r)[o] == if o.createdAt >= openedAt then multiset(orders)[o] else 0
  {
    FilterIsSubsequence(orders, (o: LedgerOrder) => o.createdAt >= openedAt);
    FilterMultiplicity(orders, (o: LedgerOrder) => o.createdAt >= openedAt);
    Filter(orders, (o: LedgerOrder) => o.createdAt >= openedAt)
  }

  /** One more order adds its amount and one to the count exactly when it is not older than the session. */
  lemma SessionOrdersAppend(orders: seq<LedgerOrder>, o: LedgerOrder, openedAt: int)
    ensures SalesTotal(SessionOrders(orders + [o], openedAt))
         == SalesTotal(SessionOrders(orders, openedAt)) + (if o.createdAt >= openedAt then OrderAmount(o) else 0)
    ensures |SessionOrders(orders + [o], openedAt)|
         == |SessionOrders(orders, openedAt)| + (if o.createdAt >= openedAt then 1 else 0)
  {
    var keep := (x: LedgerOrder) => x.createdAt >= openedAt;
    FilterAppend(orders, [o], keep);
    assert Filter([o], keep) == (if keep(o) then [o] else []) + Filter([], keep);
    SalesTotalAppend(Filter(orders, keep), Filter([o], keep));
    assert SalesTotal([o]) == OrderAmount(o) by {
      assert [o][..0] == [];
    }
  }

  /**
   * The table after the update of `closeCash`: the rows with that id become closed at `now` with
   * both totals; every other row is untouched.
   */
  function Closed(sessions: seq<Session>, id: string, now: int, sales: int, count: nat): (r: seq<Session>)
    ensures |r| == |sessions|
    ensures forall i :: 0 <= i < |r| ==> r[i].id == sessions[i].id && r[i].openedAt == sessions[i].openedAt
    ensures forall i :: 0 <= i < |r| && sessions[i].id != id ==> r[i] == sessions[i]
  {
    seq(|sessions|, i requires 0 <= i < |sessions| =>
      if sessions[i].id == id
      then sessions[i].(closedAt := Some(now), status := "closed", totalSales := Some(sales), totalOrders := Some(count))
      else sessions[i])
  }

  /** After the close the session is no longer open, so a fresh lookup can never return it again. */
  lemma ClosedIsNoLongerOpen(sessions: seq<Session>, id: string, now: int, sales: int, count: nat)
    ensures var r := Closed(sessions, id, now, sales, count);
      forall i :: 0 <= i < |r| && r[i].id == id ==>
        !IsOpen(r[i]) && r[i].closedAt == Some(now) && r[i].totalSales == Some(sales) && r[i].totalOrders == Some(count)
    ensures var found := LatestOpen(Closed(sessions, id, now, sales, count)); found.Some? ==> found.value.id != id
  {
    var r := Closed(sessions, id, now, sales, count);
    var found := LatestOpen(r);
    if found.Some? {
      var k :| 0 <= k < |r| && r[k] == found.value;
    }
  }

  /** A close keeps the ids of the table distinct. */
  lemma ClosedIdsDistinct(sessions: seq<Session>, id: string, now: int, sales: int, count: nat)
    requires IdsDistinct(sessions)
    ensures IdsDistinct(Closed(sessions, id, now, sales, count))
  {
  }

  // ---------------------------------------------------------------------------------
  // generateClosingPDF: the article aggregation

  /** Every ticket line of the orders, order after order (`o.items || []`). */
  function AllItems(orders: seq<LedgerOrder>): seq<OrderItem> {
    if orders == [] then [] else AllItems(orders[..|orders| - 1]) + orders[|orders| - 1].items.GetOr([])
  }

  predicate Distinct(names: seq<string>) {
    forall i, j :: 0 <= i < j < |names| ==> names[i] != names[j]
  }

  /** The distinct article names, in the order they first occur; these are the keys of `itemAgg`. */
  function Names(items: seq<OrderItem>): (r: seq<string>)
    ensures Distinct(r)
    ensures forall i :: 0 <= i < |items| ==> items[i].name in r
  {
    if items == [] then []
    else
      var init := items[..|items| - 1];
      var x := items[|items| - 1];
      var before := Names(init);
      assert forall i :: 0 <= i < |init| ==> init[i] == items[i];
      if x.name in before then before else before + [x.name]
  }

  /** The total quantity sold under one name. */
  function NameQty(items: seq<OrderItem>, name: string): int {
    if items == [] then 0
    else NameQty(items[..|items| - 1], name) + (if items[|items| - 1].name == name then items[|items| - 1].qty else 0)
  }

  /** The revenue earned under one name: the sum of `price * qty` of its lines. */
  function NameRevenue(items: seq<OrderItem>, name: string): int {
    if items == [] then 0
    else NameRevenue(items[..|items| - 1], name)
         + (if items[|items| - 1].name == name then items[|items| - 1].price * items[|items| - 1].qty else 0)
  }

  /** One row per given name, holding that name's quantity and revenue. */
  function RowsFor(names: seq<string>, items: seq<OrderItem>): (r: seq<ArticleRow>)
    ensures |r| == |names|
    ensures forall k :: 0 <= k < |r| ==> r[k] == ArticleRow(names[k], NameQty(items, names[k]), NameRevenue(items, names[k]))
  {
    if names == [] then []
    else
      var last := names[|names| - 1];
      RowsFor(names[..|names| - 1], items) + [ArticleRow(last, NameQty(items, last), NameRevenue(items, last))]
  }

  /** The reference value of `Object.values(itemAgg)`: one row per distinct name, in first-occurrence order. */
  function Aggregated(items: seq<OrderItem>): seq<ArticleRow> {
    RowsFor(Names(items), items)
  }

  /** The sum of the quantities of a list of rows (the report's total row). */
  function RowsQty(rows: seq<ArticleRow>): int {
    if rows == [] then 0 else RowsQty(rows[..|rows| - 1]) + rows[|rows| - 1].qty
  }

  /** Processing one more line: the keys, quantities and revenues change only for its name. */
  lemma StepItem(done: seq<OrderItem>, x: OrderItem)
    ensures Names(done + [x]) == if x.name in Names(done) then Names(done) else Names(done) + [x.name]
    ensures forall n :: NameQty(done + [x], n) == NameQty(done, n) + (if x.name == n then x.qty else 0)
    ensures forall n :: NameRevenue(done + [x], n) == NameRevenue(done, n) + (if x.name == n then x.price * x.qty else 0)
  {
    assert (done + [x])[..|done|] == done;
  }

  /** A name that never occurs has sold nothing. */
  lemma {:induction false} AbsentNameQty(items: seq<OrderItem>, name: string)
    requires name !in Names(items)
    ensures NameQty(items, name) == 0
    decreases |items|
  {
    if items != [] {
      var init := items[..|items| - 1];
      assert name !in Names(init) && items[|items| - 1].name != name;
      AbsentNameQty(init, name);
    }
  }

  /** A name that never occurs has earned nothing. */
  lemma {:induction false} AbsentNameRevenue(items: seq<OrderItem>, name: string)
    requires name !in Names(items)
    ensures NameRevenue(items, name) == 0
    decreases |items|
  {
    if items != [] {
      var init := items[..|items| - 1];
      assert name !in Names(init) && items[|items| - 1].name != name;
      AbsentNameRevenue(init, name);
    }
  }

  /** Adding one line adds its quantity to the rows of a list of distinct names exactly when its name is listed. */
  lemma {:induction false} RowsQtyStep(names: seq<string>, done: seq<OrderItem>, x: OrderItem)
    requires Distinct(names)
    ensures RowsQty(RowsFor(names, done + [x])) == RowsQty(RowsFor(names, done)) + (if x.name in names then x.qty else 0)
    decreases |names|
  {
    if names != [] {
      var init := names[..|names| - 1];
      var m := names[|names| - 1];
      var after := done + [x];
      assert names == init + [m];
      RowsQtyStep(init, done, x);
      RowsForSnoc(init, m, after);
      RowsForSnoc(init, m, done);
      RowsQtySnoc(RowsFor(init, after), ArticleRow(m, NameQty(after, m), NameRevenue(after, m)));
      RowsQtySnoc(RowsFor(init, done), ArticleRow(m, NameQty(done, m), NameRevenue(done, m)));
      assert after[..|done|] == done;
      assert NameQty(after, m) == NameQty(done, m) + (if x.name == m then x.qty else 0);
      assert x.name in names <==> x.name in init || x.name == m;
      assert m !in init;
    }
  }

  /** The quantity of the report's total row is the number of articles over all the lines. */
  lemma {:induction false} AggregatedQty(items: seq<OrderItem>)
    ensures RowsQty(Aggregated(items)) == QtySum(items)
    decreases |items|
  {
    if items != [] {
      var init := items[..|items| - 1];
      var x := items[|items| - 1];
      assert items == init + [x];
      AggregatedQty(init);
      if x.name in Names(init) {
        AggregatedQtySeen(init, x);
      } else {
        AggregatedQtyNew(init, x);
      }
    }
  }

  /** A line whose name was already seen adds its quantity to that name's row. */
  lemma AggregatedQtySeen(init: seq<OrderItem>, x: OrderItem)
    requires x.name in Names(init)
    ensures RowsQty(Aggregated(init + [x])) == RowsQty(Aggregated(init)) + x.qty
  {
    assert (init + [x])[..|init|] == init;
    assert Names(init + [x]) == Names(init);
    RowsQtyStep(Names(init), init, x);
  }

  /** A line with a new name adds a row holding just its quantity. */
  lemma AggregatedQtyNew(init: seq<OrderItem>, x: OrderItem)
    requires x.name !in Names(init)
    ensures RowsQty(Aggregated(init + [x])) == RowsQty(Aggregated(init)) + x.qty
  {
    var items := init + [x];
    var names := Names(init);
    assert items[..|init|] == init;
    assert Names(items) == names + [x.name];
    RowsForSnoc(names, x.name, items);
    var row := ArticleRow(x.name, NameQty(items, x.name), NameRevenue(items, x.name));
    RowsQtySnoc(RowsFor(names, items), row);
    RowsQtyStep(names, init, x);
    AbsentNameQty(init, x.name);
    assert NameQty(items, x.name) == x.qty;
  }

  lemma RowsForSnoc(names: seq<string>, m: string, items: seq<OrderItem>)
    ensures RowsFor(names + [m], items) == RowsFor(names, items) + [ArticleRow(m, NameQty(items, m), NameRevenue(items, m))]
  {
    assert (names + [m])[..|names|] == names;
  }

  lemma RowsQtySnoc(rows: seq<ArticleRow>, row: ArticleRow)
    ensures RowsQty(rows + [row]) == RowsQty(rows) + row.qty
  {
    assert (rows + [row])[..|rows|] == rows;
  }

  /** `AllItems` of one more order is the earlier lines followed by that order's lines. */
  lemma AllItemsStep(orders: seq<LedgerOrder>, k: nat)
    requires k < |orders|
    ensures AllItems(orders[..k + 1]) == AllItems(orders[..k]) + orders[k].items.GetOr([])
  {
    assert orders[..k + 1][..k] == orders[..k];
  }

  /** The reference `itemAgg` after the given lines: one row per name seen, with its quantity and revenue. */
  ghost function AggMap(done: seq<OrderItem>): map<string, ArticleRow> {
    map n | n in Names(done) :: ArticleRow(n, NameQty(done, n), NameRevenue(done, n))
  }

  /** `itemAgg` and its key order hold exactly the rows of the lines processed so far. */
  ghost predicate AggHolds(itemAgg: map<string, ArticleRow>, keys: seq<string>, done: seq<OrderItem>) {
    keys == Names(done) && itemAgg == AggMap(done)
  }

  /** A line whose name is already a key adds to that key's row and keeps `AggHolds`. */
  lemma AggStepSeen(itemAgg: map<string, ArticleRow>, keys: seq<string>, done: seq<OrderItem>, item: OrderItem)
    requires AggHolds(itemAgg, keys, done) && item.name in itemAgg
    ensures var row := itemAgg[item.name];
      AggHolds(itemAgg[item.name := row.(qty := row.qty + item.qty, total := row.total + item.price * item.qty)], keys, done + [item])
  {
    var row := itemAgg[item.name];
    var next := itemAgg[item.name := row.(qty := row.qty + item.qty, total := row.total + item.price * item.qty)];
    var after := done + [item];
    assert after[..|done|] == done;
    assert Names(after) == keys;
    forall n | n in next
      ensures next[n] == AggMap(after)[n]
    {
      assert NameQty(after, n) == NameQty(done, n) + (if item.name == n then item.qty else 0);
      assert NameRevenue(after, n) == NameRevenue(done, n) + (if item.name == n then item.price * item.qty else 0);
    }
    assert next.Keys == AggMap(after).Keys;
  }

  /** A line with a new name adds a key and a row of its own and keeps `AggHolds`. */
  lemma AggStepNew(itemAgg: map<string, ArticleRow>, keys: seq<string>, done: seq<OrderItem>, item: OrderItem)
    requires AggHolds(itemAgg, keys, done) && item.name !in itemAgg
    ensures AggHolds(itemAgg[item.name := ArticleRow(item.name, item.qty, item.price * item.qty)], keys + [item.name], done + [item])
  {
    var next := itemAgg[item.name := ArticleRow(item.name, item.qty, item.price * item.qty)];
    var after := done + [item];
    assert after[..|done|] == done;
    assert Names(after) == keys + [item.name];
    AbsentNameQty(done, item.name);
    AbsentNameRevenue(done, item.name);
    forall n | n in next
      ensures next[n] == AggMap(after)[n]
    {
      assert NameQty(after, n) == NameQty(done, n) + (if item.name == n then item.qty else 0);
      assert NameRevenue(after, n) == NameRevenue(done, n) + (if item.name == n then item.price * item.qty else 0);
    }
    assert next.Keys == AggMap(after).Keys;
  }

  /** The rows of `AggHolds` listed in key order are the reference aggregation. */
  lemma AggValues(itemAgg: map<string, ArticleRow>, keys: seq<string>, done: seq<OrderItem>)
    requires AggHolds(itemAgg, keys, done)
    ensures forall k :: 0 <= k < |keys| ==> keys[k] in itemAgg
    ensures seq(|keys|, k requires 0 <= k < |keys| && keys[k] in itemAgg => itemAgg[keys[k]]) == Aggregated(done)
  {
  }

  /**
   * The nested `forEach` of `generateClosingPDF`: `itemAgg` gains a row the first time a name is
   * seen and otherwise accumulates the line's quantity and `price * qty`; the result is the rows
   * in key insertion order.
   */
  method AggregateArticles(orders: seq<LedgerOrder>) returns (rows: seq<ArticleRow>)
    ensures rows == Aggregated(AllItems(orders))
  {
    var itemAgg: map<string, ArticleRow> := map[];
    var keys: seq<string> := [];
    ghost var done: seq<OrderItem> := [];
    var oi := 0;
    while oi < |orders|
      invariant 0 <= oi <= |orders|
      invariant done == AllItems(orders[..oi])
      invariant AggHolds(itemAgg, keys, done)
    {
      var items := orders[oi].items.GetOr([]);
      itemAgg, keys := AggregateLines(itemAgg, keys, done, items);
      done := done + items;
      AllItemsStep(orders, oi);
      oi := oi + 1;
    }
    assert orders[..oi] == orders;
    AggValues(itemAgg, keys, done);
    rows := seq(|keys|, k requires 0 <= k < |keys| && keys[k] in itemAgg => itemAgg[keys[k]]);
  }

  /** The inner `forEach` over the lines of one order. */
  method AggregateLines(itemAgg0: map<string, ArticleRow>, keys0: seq<string>, ghost done0: seq<OrderItem>,
                        items: seq<OrderItem>)
    returns (itemAgg: map<string, ArticleRow>, keys: seq<string>)
    requires AggHolds(itemAgg0, keys0, done0)
    ensures AggHolds(itemAgg, keys, done0 + items)
  {
    itemAgg, keys := itemAgg0, keys0;
    ghost var done := done0;
    var ii := 0;
    while ii < |items|
      invariant 0 <= ii <= |items|
      invariant done == done0 + items[..ii]
      invariant AggHolds(itemAgg, keys, done)
    {
      var item := items[ii];
      ghost var next := done + [item];
      if item.name in itemAgg {
        AggStepSeen(itemAgg, keys, done, item);
        var row := itemAgg[item.name];
        itemAgg := itemAgg[item.name := row.(qty := row.qty + item.qty, total := row.total + item.price * item.qty)];
      } else {
        AggStepNew(itemAgg, keys, done, item);
        itemAgg := itemAgg[item.name := ArticleRow(item.name, item.qty, item.price * item.qty)];
        keys := keys + [item.name];
      }
      AppendTakeOneMore(done0, items, ii);
      done := next;
      ii := ii + 1;
    }
    assert items[..ii] == items;
  }

  // ---------------------------------------------------------------------------------
  // The sort by revenue

  predicate ByTotalDesc(rows: seq<ArticleRow>) {
    forall i, j :: 0 <= i < j < |rows| ==> rows[i].total >= rows[j].total
  }

  /** Places a row before the first row whose revenue does not exceed its own. */
  function InsertByTotal(x: ArticleRow, rows: seq<ArticleRow>): (r: seq<ArticleRow>)
    ensures multiset(r) == multiset(rows) + multiset{x}
    ensures |r| == |rows| + 1
  {
    if rows == [] || rows[0].total <= x.total then [x] + rows
    else
      assert rows == [rows[0]] + rows[1..];
      [rows[0]] + InsertByTotal(x, rows[1..])
  }

  /** Inserting keeps every revenue under a common bound. */
  lemma {:induction false} InsertBounded(x: ArticleRow, rows: seq<ArticleRow>, bound: int)
    requires x.total <= bound && forall i :: 0 <= i < |rows| ==> rows[i].total <= bound
    ensures forall i :: 0 <= i < |InsertByTotal(x, rows)| ==> InsertByTotal(x, rows)[i].total <= bound
  {
    if rows != [] && rows[0].total > x.total {
      InsertBounded(x, rows[1..], bound);
    }
  }

  /** Inserting into rows sorted by revenue keeps them sorted. */
  lemma {:induction false} InsertSorted(x: ArticleRow, rows: seq<ArticleRow>)
    requires ByTotalDesc(rows)
    ensures ByTotalDesc(InsertByTotal(x, rows))
  {
    if rows != [] && rows[0].total > x.total {
      InsertSorted(x, rows[1..]);
      InsertBounded(x, rows[1..], rows[0].total);
    }
  }

  /** `.sort((a, b) => b.total - a.total)`: revenue non-increasing, the same rows. */
  function SortByTotal(rows: seq<ArticleRow>): (r: seq<ArticleRow>)
    ensures ByTotalDesc(r)
    ensures multiset(r) == multiset(rows)
  {
    if rows == [] then []
    else
      assert rows == [rows[0]] + rows[1..];
      InsertSorted(rows[0], SortByTotal(rows[1..]));
      InsertByTotal(rows[0], SortByTotal(rows[1..]))
  }

  /**
   * The data of the closing report: the aggregated rows sorted by revenue, the quantity of the
   * total row (summed over `Object.values(itemAgg)`), and the two totals of the close.
   */
  method BuildReport(session: Session, orders: seq<LedgerOrder>, totalSales: int, totalOrders: nat)
    returns (report: ClosingReport)
    ensures report.session == session && report.totalSales == totalSales && report.totalOrders == totalOrders
    ensures ByTotalDesc(report.articles)
    ensures multiset(report.articles) == multiset(Aggregated(AllItems(orders)))
    ensures report.articleQty == QtySum(AllItems(orders))
  {
    var rows := AggregateArticles(orders);
    AggregatedQty(AllItems(orders));
    report := ClosingReport(session, SortByTotal(rows), RowsQty(rows), totalSales, totalOrders);
  }

  // ---------------------------------------------------------------------------------
  // The screen

  /** The state of the cash-session screen with the `cash_sessions` table it works on. */
  class Register {
    var sessions: seq<Session>
    var currentSession: Option<Session>
    var loading: bool
    var closing: bool

    /** Ids are distinct and the session shown is an open row of the table. */
    ghost predicate Valid()
      reads this
    {
      && IdsDistinct(sessions)
      && (currentSession.Some? ==> currentSession.value in sessions && IsOpen(currentSession.value))
    }

    /** The first render: loading, no session yet. */
    constructor (table: seq<Session>)
      requires IdsDistinct(table)
      ensures Valid()
      ensures sessions == table && currentSession == None && loading && !closing
    {
      sessions := table;
      currentSession := None;
      loading := true;
      closing := false;
    }

    /** `fetchSession`: the latest open session becomes the current one. */
    method FetchSession()
      requires Valid()
      modifies this`currentSession, this`loading
      ensures Valid()
      ensures currentSession == LatestOpen(sessions) && !loading
    {
      currentSession := LatestOpen(sessions);
      loading := false;
    }

    /**
     * `openCash`: a row with a generated code and status "open" is inserted, opened at `now`
     * with the fresh id the database assigns, then the session is fetched again.
     */
    method OpenCash(freshId: string, now: int, year: nat, month: nat, day: nat, draw: nat)
      requires Valid()
      requires draw < 9000
      requires forall i :: 0 <= i < |sessions| ==> sessions[i].id != freshId
      modifies this`sessions, this`currentSession, this`loading
      ensures Valid()
      ensures sessions == old(sessions) + [Session(freshId, SessionCode(year, month, day, draw), now, None, "open", None, None)]
      ensures currentSession == LatestOpen(sessions) && !loading
      ensures (forall i :: 0 <= i < |old(sessions)| ==> old(sessions)[i].openedAt <= now) ==>
        currentSession == Some(sessions[|sessions| - 1])
    {
      loading := true;
      var s := Session(freshId, SessionCode(year, month, day, draw), now, None, "open", None, None);
      if forall i :: 0 <= i < |sessions| ==> sessions[i].openedAt <= now {
        LatestOpenAfterInsert(sessions, s);
      }
      sessions := sessions + [s];
      FetchSession();
    }

    /**
     * `closeCash`: without a current session nothing happens. Otherwise the orders created since
     * the opening are totalled, that session's row is closed with the totals at `now`, the report
     * is built and the current session is cleared.
     */
    method CloseCash(orders: seq<LedgerOrder>, now: int) returns (report: Option<ClosingReport>)
      requires Valid()
      modifies this`sessions, this`currentSession, this`closing
      ensures Valid()
      ensures old(currentSession).None? ==>
        report.None? && sessions == old(sessions) && currentSession == None && closing == old(closing)
      ensures old(currentSession).Some? ==>
        var cur := old(currentSession).value;
        var included := SessionOrders(orders, cur.openedAt);
        && sessions == Closed(old(sessions), cur.id, now, SalesTotal(included), |included|)
        && currentSession == None && !closing
        && report.Some? && report.value.session == cur
        && report.value.totalSales == SalesTotal(included) && report.value.totalOrders == |included|
        && ByTotalDesc(report.value.articles)
        && multiset(report.value.articles) == multiset(Aggregated(AllItems(included)))
        && report.value.articleQty == QtySum(AllItems(included))
    {
      if currentSession.None? {
        report := None;
        return;
      }
      var cur := currentSession.value;
      closing := true;
      var included := SessionOrders(orders, cur.openedAt);
      var totalSales := SalesTotal(included);
      var totalOrders := |included|;
      ClosedIdsDistinct(sessions, cur.id, now, totalSales, totalOrders);
      sessions := Closed(sessions, cur.id, now, totalSales, totalOrders);
      var r := BuildReport(cur, included, totalSales, totalOrders);
      report := Some(r);
      currentSession := None;
      closing := false;
    }
  }
}
