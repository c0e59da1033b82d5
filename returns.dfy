/** Return requests: which products of an order are returned and with which
    quantity, and the per-order steps of the bulk return with its counters. */
module Returns {
  import opened JsValues
  import opened Seqs
  import opened Orders
  import opened TableSelection

  /** The answer of the return endpoint: `success`, `orderStatus` and the
      updated `order`. */
  datatype ReturnAnswer = ReturnAnswer(success: bool, orderStatus: Option<string>, order: Option<Order>)

  /** The part of the request body the model follows: the order number and
      the products to return. */
  datatype ReturnRequest = ReturnRequest(orderId: Option<string>, products: seq<Product>)

  /** The positions `idx < n` with `selected.includes(idx)`, ascending: the
      positions `order.products.filter((_, idx) => ...)` keeps. */
  function SelectedIndices(n: nat, selected: seq<int>): (r: seq<nat>)
    ensures forall i :: i in r <==> 0 <= i < n && i in selected
    ensures forall a, b :: 0 <= a < b < |r| ==> r[a] < r[b]
    ensures forall a :: 0 <= a < |r| ==> r[a] < n
  {
    if n == 0 then []
    else SelectedIndices(n - 1, selected) + (if n - 1 in selected then [n - 1] else [])
  }

  /** `stored || item.quantity || 1` */
  function ReturnQuantity(stored: Option<int>, item: Option<int>): (q: int)
    ensures q != 0
    ensures stored.Some? && stored.value != 0 ==> q == stored.value
    ensures (stored.None? || stored.value == 0) && item.Some? && item.value != 0 ==> q == item.value
    ensures (stored.None? || stored.value == 0) && (item.None? || item.value == 0) ==> q == 1
  {
    if stored.Some? && stored.value != 0 then stored.value
    else if item.Some? && item.value != 0 then item.value
    else 1
  }

  /** `{ ...item, quantity, smart_checks: item.smart_checks || [], uploadedImageUrl: item.uploadedImageUrl || "" }` */
  function ReturnItem(p: Product, stored: Option<int>): (r: Product)
    ensures r.productName == p.productName && r.imageUrl == p.imageUrl
    ensures r.quantity == Some(ReturnQuantity(stored, p.quantity))
    ensures p.smartChecks.Some? ==> r.smartChecks == p.smartChecks
    ensures p.smartChecks.None? ==> r.smartChecks == Some([])
    ensures r.uploadedImageUrl == Some(StrOr(p.uploadedImageUrl, ""))
  {
    p.(quantity := Some(ReturnQuantity(stored, p.quantity)),
       smartChecks := Some(if p.smartChecks.Some? then p.smartChecks.value else []),
       uploadedImageUrl := Some(StrOr(p.uploadedImageUrl, "")))
  }

  /** `(prev[key] || {})[idx]` for the quantities of one order. */
  function QuantityAt(q: map<int, int>, idx: int): (r: Option<int>)
    ensures r.Some? <==> idx in q
  {
    if idx in q then Some(q[idx]) else None
  }

  /** The products of a single return as the code builds them: the quantity
      chosen for product `i` is stored under `i`, but it is looked up under
      the product's position `k` among the selected ones. */
  function ReturnProductsAsWritten(products: seq<Product>, selected: seq<int>, q: map<int, int>): (r: seq<Product>)
    ensures var idx := SelectedIndices(|products|, selected);
      && |r| == |idx|
      && forall k :: 0 <= k < |r| ==> r[k] == ReturnItem(products[idx[k]], QuantityAt(q, k))
  {
    var idx := SelectedIndices(|products|, selected);
    seq(|idx|, k requires 0 <= k < |idx| => ReturnItem(products[idx[k]], QuantityAt(q, k)))
  }

  /** The products of a single return: the selected products in their order,
      each with the quantity chosen for it, else its ordered quantity, else 1. */
  function ReturnProducts(products: seq<Product>, selected: seq<int>, q: map<int, int>): (r: seq<Product>)
    ensures var idx := SelectedIndices(|products|, selected);
      && |r| == |idx|
      && forall k :: 0 <= k < |r| ==> r[k] == ReturnItem(products[idx[k]], QuantityAt(q, idx[k]))
  {
    var idx := SelectedIndices(|products|, selected);
    seq(|idx|, k requires 0 <= k < |idx| => ReturnItem(products[idx[k]], QuantityAt(q, idx[k])))
  }

  /** Only the first selected product is looked up under its own position:
      with product 1 of two selected and quantity 2 chosen for it, the code
      returns the ordered quantity 5. */
  lemma ReturnQuantityMisread(a: Product, b: Product)
    requires b.quantity == Some(5)
    ensures ReturnProductsAsWritten([a, b], [1], map[1 := 2])[0].quantity == Some(5)
    ensures ReturnProducts([a, b], [1], map[1 := 2])[0].quantity == Some(2)
  {
    assert SelectedIndices(2, [1]) == [1] by {
      assert SelectedIndices(1, [1]) == [];
    }
  }

  /** The intended lookup: a selected product with a non-zero chosen quantity
      is returned with exactly that quantity. */
  lemma ReturnProductsHonoursChoice(products: seq<Product>, selected: seq<int>, q: map<int, int>, i: nat)
    returns (k: nat)
    requires i < |products| && i in selected && i in q && q[i] != 0
    ensures k < |ReturnProducts(products, selected, q)|
    ensures ReturnProducts(products, selected, q)[k] == ReturnItem(products[i], Some(q[i]))
    ensures ReturnProducts(products, selected, q)[k].quantity == Some(q[i])
  {
    var idx := SelectedIndices(|products|, selected);
    assert i in idx;
    k :| 0 <= k < |idx| && idx[k] == i;
  }

  /** Every product of the order is returned when every position is selected. */
  lemma AllSelectedReturnsAll(products: seq<Product>, selected: seq<int>, q: map<int, int>)
    requires forall i :: 0 <= i < |products| ==> i in selected
    ensures |ReturnProducts(products, selected, q)| == |products|
  {
    SelectedIndicesAll(|products|, selected);
  }

  lemma {:induction false} SelectedIndicesAll(n: nat, selected: seq<int>)
    requires forall i :: 0 <= i < n ==> i in selected
    ensures |SelectedIndices(n, selected)| == n
  {
    if n > 0 {
      SelectedIndicesAll(n - 1, selected);
    }
  }

  /** `response.data.orderStatus || updatedOrderFromBackend?.status` */
  function NewStatus(answer: ReturnAnswer): (s: Option<string>)
    requires answer.order.Some?
    ensures answer.orderStatus.Some? && answer.orderStatus.value != "" ==> s == answer.orderStatus
    ensures answer.orderStatus.None? || answer.orderStatus.value == "" ==> s == answer.order.value.status
  {
    if answer.orderStatus.Some? && answer.orderStatus.value != "" then answer.orderStatus else answer.order.value.status
  }

  /** The order a successful single return puts in the list: the backend's
      order with the new status, not loading, updated now. */
  function ReturnedOrder(answer: ReturnAnswer, now: nat): (o: Order)
    requires answer.order.Some?
    ensures o.status == NewStatus(answer) && o.trackingLoading == Some(false) && o.updatedAt == Some(now)
    ensures o.(status := answer.order.value.status, trackingLoading := answer.order.value.trackingLoading,
               updatedAt := answer.order.value.updatedAt) == answer.order.value
  {
    answer.order.value.(status := NewStatus(answer), trackingLoading := Some(false), updatedAt := Some(now))
  }

  /** The answer completes the single return: it succeeded and carries the
      updated order (without it the code throws). */
  predicate ReturnSucceeded(reply: Reply<ReturnAnswer>) {
    reply.Ok? && reply.value.success && reply.value.order.Some?
  }

  // ---------------------------------------------------------------------
  // Bulk return
  // ---------------------------------------------------------------------

  /** `products.map((item) => ({ ...item, smart_checks: item.smart_checks || [] }))`
      over the selected products. */
  function BulkReturnProducts(products: seq<Product>, selected: seq<int>): (r: seq<Product>)
    ensures var idx := SelectedIndices(|products|, selected);
      && |r| == |idx|
      && forall k :: 0 <= k < |r| ==>
           r[k] == products[idx[k]].(smartChecks := Some(if products[idx[k]].smartChecks.Some? then products[idx[k]].smartChecks.value else []))
  {
    var idx := SelectedIndices(|products|, selected);
    seq(|idx|, k requires 0 <= k < |idx| =>
      products[idx[k]].(smartChecks := Some(if products[idx[k]].smartChecks.Some? then products[idx[k]].smartChecks.value else [])))
  }

  /** `{ ...updatedOrderFromBackend, trackingLoading: false }`; spreading an
      absent order leaves only `trackingLoading`. */
  function BulkReturned(answer: ReturnAnswer): (o: Order)
    ensures o.trackingLoading == Some(false)
    ensures answer.order.Some? ==> o.(trackingLoading := answer.order.value.trackingLoading) == answer.order.value
  {
    if answer.order.Some? then answer.order.value.(trackingLoading := Some(false))
    else Order(None, None, None, None, None, None, [], None, Some(false), map[])
  }

  /** What the bulk return loop carries from one order to the next. */
  datatype BulkReturnState = BulkReturnState(
    orders: seq<Order>,
    selection: map<string, seq<int>>,
    successCount: nat,
    errorCount: nat,
    requests: seq<ReturnRequest>)

  /** One pass of the loop body. The products are looked up in `snapshot`,
      the selection the handler's closure captured when it was rendered; the
      loop's own updates to the selection land in `st.selection` and are not
      seen by later passes. An order with no selected products is an error
      and sends nothing; otherwise the request is sent and the answer decides
      between a success, which replaces the order and drops its selection,
      and an error. */
  function BulkStep(st: BulkReturnState, snapshot: map<string, seq<int>>, order: Order, reply: Reply<ReturnAnswer>): (r: BulkReturnState)
    ensures r.successCount + r.errorCount == st.successCount + st.errorCount + 1
    ensures Selected(snapshot, PropKey(order.id)) == [] ==> r == st.(errorCount := st.errorCount + 1)
    ensures Selected(snapshot, PropKey(order.id)) != [] ==>
      r.requests == st.requests + [ReturnRequest(order.orderId, BulkReturnProducts(order.products, Selected(snapshot, PropKey(order.id))))]
    ensures r.successCount == st.successCount + 1 <==>
      Selected(snapshot, PropKey(order.id)) != [] && reply.Ok? && reply.value.success
    ensures r.successCount == st.successCount + 1 ==>
      r.orders == ReplaceById(st.orders, order.id, BulkReturned(reply.value)) &&
      r.selection == st.selection - {PropKey(order.id)}
    ensures r.successCount == st.successCount ==> r.orders == st.orders && r.selection == st.selection
  {
    var sel := Selected(snapshot, PropKey(order.id));
    if sel == [] then st.(errorCount := st.errorCount + 1)
    else
      var requests := st.requests + [ReturnRequest(order.orderId, BulkReturnProducts(order.products, sel))];
      if reply.Ok? && reply.value.success then
        BulkReturnState(ReplaceById(st.orders, order.id, BulkReturned(reply.value)),
          st.selection - {PropKey(order.id)}, st.successCount + 1, st.errorCount, requests)
      else
        st.(errorCount := st.errorCount + 1, requests := requests)
  }

  /** The loop over the first `k` orders to return; `replies(k)` answers the
      request of the `k`-th. */
  function BulkRun(st: BulkReturnState, snapshot: map<string, seq<int>>, todo: seq<Order>, k: nat,
                   replies: nat -> Reply<ReturnAnswer>): BulkReturnState
    requires k <= |todo|
  {
    if k == 0 then st else BulkStep(BulkRun(st, snapshot, todo, k - 1, replies), snapshot, todo[k - 1], replies(k - 1))
  }

  /** Every attempted order is counted once, as a success or as an error, and
      no more requests are sent than orders are attempted. */
  lemma {:induction false} BulkRunCounts(st: BulkReturnState, snapshot: map<string, seq<int>>, todo: seq<Order>, k: nat,
                                         replies: nat -> Reply<ReturnAnswer>)
    requires k <= |todo|
    ensures var r := BulkRun(st, snapshot, todo, k, replies);
      && r.successCount + r.errorCount == st.successCount + st.errorCount + k
      && r.successCount >= st.successCount && r.errorCount >= st.errorCount
      && |st.requests| <= |r.requests| <= |st.requests| + k
      && r.requests[..|st.requests|] == st.requests
  {
    if k > 0 {
      BulkRunCounts(st, snapshot, todo, k - 1, replies);
      var p := BulkRun(st, snapshot, todo, k - 1, replies);
      var r := BulkStep(p, snapshot, todo[k - 1], replies(k - 1));
      assert r.requests[..|p.requests|] == p.requests;
      assert r.requests[..|st.requests|] == p.requests[..|st.requests|];
    }
  }

  /** Two orders to return that share a selection key (the same `_id`, or
      both without one) both send a request: the first one's success drops
      the key from the selection, but the loop still reads the captured one. */
  lemma BulkSharedKeySentTwice(st: BulkReturnState, snapshot: map<string, seq<int>>, a: Order, b: Order,
                               replies: nat -> Reply<ReturnAnswer>)
    requires PropKey(a.id) == PropKey(b.id) && Selected(snapshot, PropKey(a.id)) != []
    ensures var r := BulkRun(st, snapshot, [a, b], 2, replies);
      r.requests == st.requests + [ReturnRequest(a.orderId, BulkReturnProducts(a.products, Selected(snapshot, PropKey(a.id)))),
                                   ReturnRequest(b.orderId, BulkReturnProducts(b.products, Selected(snapshot, PropKey(a.id))))]
  {
    var r1 := BulkRun(st, snapshot, [a, b], 1, replies);
    assert BulkRun(st, snapshot, [a, b], 0, replies) == st;
    assert [a, b][0] == a && [a, b][1] == b;
    assert r1 == BulkStep(st, snapshot, a, replies(0));
    assert BulkRun(st, snapshot, [a, b], 2, replies) == BulkStep(r1, snapshot, b, replies(1));
  }

  /** The orders the bulk return works through: `localOrders.filter((o) => selectedOrderIds.includes(o._id))`. */
  function OrdersToReturn(orders: seq<Order>, selectedIds: seq<Option<string>>): seq<Order> {
    Filter(orders, (o: Order) => o.id in selectedIds)
  }

  /** The bulk return works through exactly the selected orders, in list order. */
  lemma OrdersToReturnSelected(orders: seq<Order>, selectedIds: seq<Option<string>>)
    ensures forall o :: o in OrdersToReturn(orders, selectedIds) <==> o in orders && o.id in selectedIds
    ensures IsSubsequence(OrdersToReturn(orders, selectedIds), orders)
  {
    FilterSubsequence(orders, (o: Order) => o.id in selectedIds);
  }
}
