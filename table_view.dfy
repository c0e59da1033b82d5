/** What the order table shows: the page of `localOrders` selected by
    `currentPage` and `pageSize`, and its rows, one per order number. */
module TableView {
  import opened JsValues
  import opened LinkedMaps
  import opened Orders

  /** `Math.ceil(n / pageSize)`: the fewest pages of `pageSize` orders that
      hold `n` orders. */
  function TotalPages(n: nat, pageSize: nat): (t: nat)
    requires pageSize > 0
    ensures n <= t * pageSize
    ensures t == 0 || (t - 1) * pageSize < n
  {
    var t := (n + pageSize - 1) / pageSize;
    var r := (n + pageSize - 1) % pageSize;
    assert t * pageSize + r == n + pageSize - 1;
    assert (t - 1) * pageSize == t * pageSize - pageSize;
    t
  }

  /** `(currentPage - 1) * pageSize`, the index of the first order of a page,
      written as repeated addition so that the slice below stays linear. */
  function PageStart(currentPage: nat, pageSize: nat): (start: nat)
    requires currentPage >= 1
  {
    if currentPage == 1 then 0 else PageStart(currentPage - 1, pageSize) + pageSize
  }

  lemma {:induction false} PageStartIsProduct(currentPage: nat, pageSize: nat)
    requires currentPage >= 1
    ensures PageStart(currentPage, pageSize) == (currentPage - 1) * pageSize
  {
    if currentPage > 1 {
      PageStartIsProduct(currentPage - 1, pageSize);
    }
  }

  /** `orders.slice(start, start + size)`. */
  function Window(orders: seq<Order>, start: nat, size: nat): (r: seq<Order>)
    ensures start >= |orders| ==> r == []
    ensures start < |orders| <= start + size ==> |r| == |orders| - start
    ensures start + size <= |orders| ==> |r| == size
    ensures forall k :: 0 <= k < |r| ==> start + k < |orders| && r[k] == orders[start + k]
  {
    if start >= |orders| then []
    else if start + size <= |orders| then orders[start..start + size]
    else orders[start..]
  }

  /** The orders of page `currentPage`: the window of `pageSize` orders that
      starts at `(currentPage - 1) * pageSize`. */
  function PageSlice(orders: seq<Order>, currentPage: nat, pageSize: nat): (r: seq<Order>)
    requires currentPage >= 1 && pageSize >= 1
  {
    Window(orders, PageStart(currentPage, pageSize), pageSize)
  }

  /** The page holds the orders from `(currentPage - 1) * pageSize` on, as many
      as fit in `pageSize` and no more than remain. */
  lemma PageSliceContents(orders: seq<Order>, currentPage: nat, pageSize: nat)
    requires currentPage >= 1 && pageSize >= 1
    ensures var r, start := PageSlice(orders, currentPage, pageSize), (currentPage - 1) * pageSize;
      && (start >= |orders| ==> r == [])
      && (start < |orders| <= start + pageSize ==> |r| == |orders| - start)
      && (start + pageSize <= |orders| ==> |r| == pageSize)
      && (forall k :: 0 <= k < |r| ==> start + k < |orders| && r[k] == orders[start + k])
  {
    PageStartIsProduct(currentPage, pageSize);
  }

  lemma MulMonotone(a: nat, b: nat, c: nat)
    requires a <= b
    ensures a * c <= b * c
  {
  }

  /** Position `r` of page `p` holds the order `r` places after the page's start. */
  lemma PageEntry(orders: seq<Order>, p: nat, pageSize: nat, r: nat)
    requires p >= 1 && r < pageSize && PageStart(p, pageSize) + r < |orders|
    ensures r < |PageSlice(orders, p, pageSize)|
    ensures PageSlice(orders, p, pageSize)[r] == orders[PageStart(p, pageSize) + r]
  {
  }

  /** A page that starts before the end of the list is one of the `TotalPages` pages. */
  lemma PageWithinTotal(n: nat, pageSize: nat, q: nat)
    requires pageSize >= 1 && q * pageSize < n
    ensures q + 1 <= TotalPages(n, pageSize)
  {
    var t := TotalPages(n, pageSize);
    if t <= q {
      MulMonotone(t, q, pageSize);
      assert false;
    }
  }

  /** Order `i` is on page `i / pageSize + 1`, which is one of the
      `TotalPages` pages, at position `i % pageSize`. */
  lemma OrderOnItsPage(orders: seq<Order>, pageSize: nat, i: nat)
    requires pageSize >= 1 && i < |orders|
    ensures var p := i / pageSize + 1;
      && p <= TotalPages(|orders|, pageSize)
      && i % pageSize < |PageSlice(orders, p, pageSize)|
      && PageSlice(orders, p, pageSize)[i % pageSize] == orders[i]
  {
    var q, r := i / pageSize, i % pageSize;
    assert q * pageSize + r == i;
    PageStartIsProduct(q + 1, pageSize);
    assert PageStart(q + 1, pageSize) + r == i;
    PageEntry(orders, q + 1, pageSize, r);
    PageWithinTotal(|orders|, pageSize, q);
  }

  /** A page past the last one is empty. */
  lemma PastLastPageEmpty(orders: seq<Order>, currentPage: nat, pageSize: nat)
    requires currentPage >= 1 && pageSize >= 1
    requires currentPage > TotalPages(|orders|, pageSize)
    ensures PageSlice(orders, currentPage, pageSize) == []
  {
    PageSliceContents(orders, currentPage, pageSize);
    MulMonotone(TotalPages(|orders|, pageSize), currentPage - 1, pageSize);
  }

  /** The `set` calls of `new Map(page.map((o) => [o.orderId, o]))`. */
  function NumberPairs(page: seq<Order>): (ps: seq<(Option<string>, Order)>)
    ensures |ps| == |page|
    ensures forall i :: 0 <= i < |page| ==> ps[i] == (page[i].orderId, page[i])
  {
    seq(|page|, i requires 0 <= i < |page| => (page[i].orderId, page[i]))
  }

  /** The rows: the values of that map. */
  function DisplayRows(page: seq<Order>): seq<Order> {
    Values(FromPairs(NumberPairs(page)))
  }

  /** No two rows carry the same order number. */
  lemma RowsDistinctNumbers(page: seq<Order>)
    ensures DistinctBy(DisplayRows(page), (o: Order) => o.orderId)
  {
    var ps := NumberPairs(page);
    var m := FromPairs(ps);
    forall a | 0 <= a < |m.keys| ensures DisplayRows(page)[a].orderId == m.keys[a] {
      var i := ValueAt(ps, a);
    }
  }

  /** Each row is the last order of the page with its number. */
  lemma RowIsLastOccurrence(page: seq<Order>, a: nat) returns (i: nat)
    requires a < |DisplayRows(page)|
    ensures i < |page| && DisplayRows(page)[a] == page[i]
    ensures forall j :: i < j < |page| ==> page[j].orderId != page[i].orderId
  {
    var ps := NumberPairs(page);
    i := ValueAt(ps, a);
    forall j | i < j < |page| ensures page[j].orderId != page[i].orderId {
      assert ps[j].0 != ps[i].0;
    }
  }

  /** Every order number of the page has a row. */
  lemma EveryNumberHasRow(page: seq<Order>, i: nat)
    requires i < |page|
    ensures exists a :: 0 <= a < |DisplayRows(page)| && DisplayRows(page)[a].orderId == page[i].orderId
  {
    var ps := NumberPairs(page);
    var m := FromPairs(ps);
    FromPairsKeys(ps);
    assert KeysOf(ps)[i] == page[i].orderId;
    assert page[i].orderId in m.keys;
    var a :| 0 <= a < |m.keys| && m.keys[a] == page[i].orderId;
    RowsDistinctNumbers(page);
    var j := ValueAt(ps, a);
    assert DisplayRows(page)[a].orderId == page[i].orderId;
  }

  /** The rows come in the order in which their numbers first occur on the page. */
  lemma RowsInFirstOccurrenceOrder(page: seq<Order>)
    ensures var numbers := KeysOf(NumberPairs(page));
      && (forall a :: 0 <= a < |DisplayRows(page)| ==> DisplayRows(page)[a].orderId in numbers)
      && (forall a, b :: 0 <= a < b < |DisplayRows(page)| ==>
            FirstIndex(numbers, DisplayRows(page)[a].orderId) < FirstIndex(numbers, DisplayRows(page)[b].orderId))
  {
    var ps := NumberPairs(page);
    var m := FromPairs(ps);
    FromPairsFirstOrder(ps);
    forall a | 0 <= a < |m.keys| ensures DisplayRows(page)[a].orderId == m.keys[a] {
      var i := ValueAt(ps, a);
    }
  }

  /** A page whose order numbers are distinct is shown as it is. */
  lemma DistinctPageShownAsIs(page: seq<Order>)
    requires DistinctBy(page, (o: Order) => o.orderId)
    ensures DisplayRows(page) == page
  {
    var ps := NumberPairs(page);
    FromPairsDistinct(ps);
  }
}
