/** The order table component: its own copy of the order list, the page it
    shows, the selections, and the actions that refresh tracking and request
    returns. */
module OrderTable {
  import opened JsValues
  import opened Seqs
  import opened Orders
  import opened TableSelection
  import opened TableView
  import opened TrackingRefresh
  import opened Returns

  /** `orders.map((o) => o._id)` */
  function IdsOf(orders: seq<Order>): (ids: seq<Option<string>>)
    ensures |ids| == |orders| && forall i :: 0 <= i < |orders| ==> ids[i] == orders[i].id
  {
    seq(|orders|, i requires 0 <= i < |orders| => orders[i].id)
  }

  /** The loop of `handleBulkReturn` over the orders to return, in order:
      `replies(i)` answers the request for the `i`-th. The selected products
      are read from `selection0`, the selection the handler captured; the
      updaters that the loop passes to `setLocalOrders` and
      `setSelectedProductsPerOrder` take effect in turn, and `orders` and
      `selection` carry their results. */
  method BulkReturnLoop(orders0: seq<Order>, selection0: map<string, seq<int>>, ordersToReturn: seq<Order>,
                        replies: nat -> Reply<ReturnAnswer>)
    returns (orders: seq<Order>, selection: map<string, seq<int>>, successCount: nat, errorCount: nat, requests: seq<ReturnRequest>)
    ensures BulkReturnState(orders, selection, successCount, errorCount, requests) ==
      BulkRun(BulkReturnState(orders0, selection0, 0, 0, []), selection0, ordersToReturn, |ordersToReturn|, replies)
    ensures successCount + errorCount == |ordersToReturn|
    ensures |requests| <= |ordersToReturn|
  {
    orders, selection, successCount, errorCount, requests := orders0, selection0, 0, 0, [];
    ghost var start := BulkReturnState(orders0, selection0, 0, 0, []);
    var i := 0;
    while i < |ordersToReturn|
      invariant 0 <= i <= |ordersToReturn|
      invariant BulkReturnState(orders, selection, successCount, errorCount, requests) ==
        BulkRun(start, selection0, ordersToReturn, i, replies)
      invariant successCount + errorCount == i
      invariant |requests| <= i
    {
      var order := ordersToReturn[i];
      ghost var before := BulkReturnState(orders, selection, successCount, errorCount, requests);
      var key := PropKey(order.id);
      var selectedProductIndices := Selected(selection0, key);
      if |selectedProductIndices| == 0 {
        errorCount := errorCount + 1;
      } else {
        requests := requests + [ReturnRequest(order.orderId, BulkReturnProducts(order.products, selectedProductIndices))];
        var reply := replies(i);
        if reply.Ok? && reply.value.success {
          orders := ReplaceById(orders, order.id, BulkReturned(reply.value));
          successCount := successCount + 1;
          selection := selection - {key};
        } else {
          errorCount := errorCount + 1;
        }
      }
      assert BulkReturnState(orders, selection, successCount, errorCount, requests) ==
        BulkStep(before, selection0, order, replies(i));
      assert BulkRun(start, selection0, ordersToReturn, i + 1, replies) == BulkStep(before, selection0, order, replies(i));
      i := i + 1;
    }
  }

  class Table {
    var localOrders: seq<Order>
    var currentPage: nat
    var pageSize: nat
    var loadingReturnId: Option<string>
    var selectedOrderIds: seq<Option<string>>
    var selectedProductsPerOrder: map<string, seq<int>>
    var selectedReturnQuantities: map<string, map<int, int>>

    /** Pages are numbered from 1 and hold at least one order. */
    ghost predicate Valid()
      reads this
    {
      currentPage >= 1 && pageSize >= 1
    }

    constructor (orders: seq<Order>)
      ensures Valid()
      ensures localOrders == orders && currentPage == 1 && pageSize == 100 && loadingReturnId == None
      ensures selectedOrderIds == [] && selectedProductsPerOrder == map[] && selectedReturnQuantities == map[]
    {
      localOrders := orders;
      currentPage := 1;
      pageSize := 100;
      loadingReturnId := None;
      selectedOrderIds := [];
      selectedProductsPerOrder := map[];
      selectedReturnQuantities := map[];
    }

    /** New `orders` from the dashboard: the table takes a copy and drops the
        order and product selections; the chosen quantities and the page stay. */
    method ReceiveOrders(orders: seq<Order>)
      modifies this
      ensures localOrders == orders && selectedOrderIds == [] && selectedProductsPerOrder == map[]
      ensures selectedReturnQuantities == old(selectedReturnQuantities) && loadingReturnId == old(loadingReturnId)
      ensures currentPage == old(currentPage) && pageSize == old(pageSize)
    {
      localOrders := orders;
      selectedOrderIds := [];
      selectedProductsPerOrder := map[];
    }

    function TotalPageCount(): nat
      reads this
      requires Valid()
    {
      TotalPages(|localOrders|, pageSize)
    }

    /** `paginatedOrders` */
    function PaginatedOrders(): seq<Order>
      reads this
      requires Valid()
    {
      PageSlice(localOrders, currentPage, pageSize)
    }

    /** The rows of the table body. */
    function Rows(): seq<Order>
      reads this
      requires Valid()
    {
      DisplayRows(PaginatedOrders())
    }

    /** The page-size selector: a new size and back to page 1. */
    method SetPageSize(n: nat)
      requires n >= 1
      modifies this
      ensures Valid() && pageSize == n && currentPage == 1
      ensures localOrders == old(localOrders) && selectedOrderIds == old(selectedOrderIds)
      ensures selectedProductsPerOrder == old(selectedProductsPerOrder)
      ensures selectedReturnQuantities == old(selectedReturnQuantities) && loadingReturnId == old(loadingReturnId)
    {
      pageSize := n;
      currentPage := 1;
    }

    /** `toggleSelectOrder` */
    method ToggleSelectOrder(id: Option<string>)
      modifies this
      ensures selectedOrderIds == Toggle(old(selectedOrderIds), id)
      ensures localOrders == old(localOrders) && selectedProductsPerOrder == old(selectedProductsPerOrder)
      ensures selectedReturnQuantities == old(selectedReturnQuantities) && loadingReturnId == old(loadingReturnId)
      ensures currentPage == old(currentPage) && pageSize == old(pageSize)
    {
      selectedOrderIds := Toggle(selectedOrderIds, id);
    }

    /** `toggleSelectAll`: every order of the page, or none. */
    method ToggleSelectAll(checked: bool)
      requires Valid()
      modifies this
      ensures checked ==> selectedOrderIds == IdsOf(old(PaginatedOrders()))
      ensures !checked ==> selectedOrderIds == []
      ensures localOrders == old(localOrders) && selectedProductsPerOrder == old(selectedProductsPerOrder)
      ensures selectedReturnQuantities == old(selectedReturnQuantities) && loadingReturnId == old(loadingReturnId)
      ensures currentPage == old(currentPage) && pageSize == old(pageSize)
    {
      if checked {
        selectedOrderIds := IdsOf(PaginatedOrders());
      } else {
        selectedOrderIds := [];
      }
    }

    /** `toggleSelectProduct` */
    method ToggleSelectProduct(id: Option<string>, idx: int)
      modifies this
      ensures selectedProductsPerOrder == ToggleProduct(old(selectedProductsPerOrder), PropKey(id), idx)
      ensures localOrders == old(localOrders) && selectedOrderIds == old(selectedOrderIds)
      ensures selectedReturnQuantities == old(selectedReturnQuantities) && loadingReturnId == old(loadingReturnId)
      ensures currentPage == old(currentPage) && pageSize == old(pageSize)
    {
      selectedProductsPerOrder := ToggleProduct(selectedProductsPerOrder, PropKey(id), idx);
    }

    /** `updateReturnQuantity` */
    method UpdateReturnQuantity(id: Option<string>, idx: int, quantity: int)
      modifies this
      ensures selectedReturnQuantities == SetReturnQuantity(old(selectedReturnQuantities), PropKey(id), idx, quantity)
      ensures localOrders == old(localOrders) && selectedOrderIds == old(selectedOrderIds)
      ensures selectedProductsPerOrder == old(selectedProductsPerOrder) && loadingReturnId == old(loadingReturnId)
      ensures currentPage == old(currentPage) && pageSize == old(pageSize)
    {
      selectedReturnQuantities := SetReturnQuantity(selectedReturnQuantities, PropKey(id), idx, quantity);
    }

    /** `refreshTracking`: an unknown number changes nothing; otherwise the
        orders with that number are marked loading, then either take the
        reported tracking or, when the request fails, stop loading. */
    method RefreshTracking(orderId: Option<string>, reply: Reply<TrackAnswer>, now: nat) returns (found: bool)
      modifies this
      ensures found <==> FindByNumber(old(localOrders), orderId).Some?
      ensures !found ==> localOrders == old(localOrders)
      ensures found && reply.Ok? && reply.value.success ==>
        localOrders == WithTracking(old(localOrders), orderId, NewTracking(reply.value), now)
      ensures found && !(reply.Ok? && reply.value.success) ==>
        localOrders == SetLoading(old(localOrders), orderId, false)
      ensures selectedOrderIds == old(selectedOrderIds) && selectedProductsPerOrder == old(selectedProductsPerOrder)
      ensures selectedReturnQuantities == old(selectedReturnQuantities) && loadingReturnId == old(loadingReturnId)
      ensures currentPage == old(currentPage) && pageSize == old(pageSize)
    {
      found := FindByNumber(localOrders, orderId).Some?;
      if !found {
        return;
      }
      localOrders := SetLoading(localOrders, orderId, true);
      if reply.Ok? && reply.value.success {
        LoadingThenUpdated(old(localOrders), orderId, NewTracking(reply.value), now);
        localOrders := WithTracking(localOrders, orderId, NewTracking(reply.value), now);
      } else {
        LoadingThenCleared(old(localOrders), orderId);
        localOrders := SetLoading(localOrders, orderId, false);
      }
    }

    /** `handleBulkTrackingRefresh`: sends the tracking ids of the selected
        orders that have one; with none, nothing happens. A successful answer
        refreshes every order of the list whose tracking id it reports. */
    method HandleBulkTrackingRefresh(reply: Reply<BulkAnswer>, now: nat) returns (trackingIds: seq<string>)
      modifies this
      ensures trackingIds == TrackingIds(OrdersWithTracking(old(localOrders), old(selectedOrderIds)))
      ensures trackingIds == [] ==> localOrders == old(localOrders) && loadingReturnId == old(loadingReturnId)
      ensures trackingIds != [] ==> loadingReturnId == None
      ensures trackingIds != [] && reply.Ok? && reply.value.success ==>
        localOrders == BulkApply(old(localOrders), reply.value.trackingData, now)
      ensures !(reply.Ok? && reply.value.success) ==> localOrders == old(localOrders)
      ensures selectedOrderIds == old(selectedOrderIds) && selectedProductsPerOrder == old(selectedProductsPerOrder)
      ensures selectedReturnQuantities == old(selectedReturnQuantities)
      ensures currentPage == old(currentPage) && pageSize == old(pageSize)
    {
      var ordersWithTracking := OrdersWithTracking(localOrders, selectedOrderIds);
      trackingIds := TrackingIds(ordersWithTracking);
      if |ordersWithTracking| == 0 {
        return;
      }
      loadingReturnId := Some("bulk-tracking");
      if reply.Ok? && reply.value.success {
        localOrders := BulkApply(localOrders, reply.value.trackingData, now);
      }
      loadingReturnId := None;
    }

    /** `handleReturnClick`: without selected products nothing is sent;
        otherwise the selected products are sent, each with its quantity looked
        up as the handler does it (by position among the selected products),
        and a complete answer puts the backend's order in place of every order
        with that `_id`, drops the order's product selection and schedules a
        refetch of all orders. The loading mark is cleared on every path. */
    method HandleReturnClick(order: Order, reply: Reply<ReturnAnswer>, now: nat)
      returns (request: Option<ReturnRequest>, refetch: bool)
      modifies this
      ensures request.Some? <==> Selected(old(selectedProductsPerOrder), PropKey(order.id)) != []
      ensures request.Some? ==> request.value == ReturnRequest(order.orderId,
        ReturnProductsAsWritten(order.products, Selected(old(selectedProductsPerOrder), PropKey(order.id)),
          QuantitiesOf(old(selectedReturnQuantities), PropKey(order.id))))
      ensures request.Some? && ReturnSucceeded(reply) ==>
        && localOrders == ReplaceById(old(localOrders), order.id, ReturnedOrder(reply.value, now))
        && selectedProductsPerOrder == old(selectedProductsPerOrder) - {PropKey(order.id)}
      ensures request.None? || !ReturnSucceeded(reply) ==>
        localOrders == old(localOrders) && selectedProductsPerOrder == old(selectedProductsPerOrder)
      ensures refetch <==> request.Some? && ReturnSucceeded(reply)
      ensures loadingReturnId == None
      ensures selectedOrderIds == old(selectedOrderIds) && selectedReturnQuantities == old(selectedReturnQuantities)
      ensures currentPage == old(currentPage) && pageSize == old(pageSize)
    {
      loadingReturnId := order.id;
      refetch := false;
      var key := PropKey(order.id);
      var selectedProductIndices := Selected(selectedProductsPerOrder, key);
      if |selectedProductIndices| == 0 {
        request := None;
        loadingReturnId := None;
        return;
      }
      var productsToReturn := ReturnProductsAsWritten(order.products, selectedProductIndices, QuantitiesOf(selectedReturnQuantities, key));
      request := Some(ReturnRequest(order.orderId, productsToReturn));
      if ReturnSucceeded(reply) {
        localOrders := ReplaceById(localOrders, order.id, ReturnedOrder(reply.value, now));
        selectedProductsPerOrder := selectedProductsPerOrder - {key};
        refetch := true;
      }
      loadingReturnId := None;
    }

    /** `handleBulkReturn`: with no selected order, or unconfirmed, nothing
        happens. Otherwise every selected order is attempted in list order and
        counted once, as a success or an error; then the dashboard is asked to
        refetch and the order selection is cleared. */
    method HandleBulkReturn(confirmed: bool, replies: nat -> Reply<ReturnAnswer>)
      returns (successCount: nat, errorCount: nat, requests: seq<ReturnRequest>, refetch: bool)
      modifies this
      ensures old(selectedOrderIds) == [] || !confirmed ==>
        && successCount == 0 && errorCount == 0 && requests == [] && !refetch
        && localOrders == old(localOrders) && selectedOrderIds == old(selectedOrderIds)
        && selectedProductsPerOrder == old(selectedProductsPerOrder) && loadingReturnId == old(loadingReturnId)
      ensures old(selectedOrderIds) != [] && confirmed ==>
        var todo := OrdersToReturn(old(localOrders), old(selectedOrderIds));
        && BulkReturnState(localOrders, selectedProductsPerOrder, successCount, errorCount, requests) ==
           BulkRun(BulkReturnState(old(localOrders), old(selectedProductsPerOrder), 0, 0, []), old(selectedProductsPerOrder),
             todo, |todo|, replies)
        && successCount + errorCount == |todo|
        && refetch && selectedOrderIds == [] && loadingReturnId == None
      ensures selectedReturnQuantities == old(selectedReturnQuantities)
      ensures currentPage == old(currentPage) && pageSize == old(pageSize)
    {
      successCount, errorCount, requests, refetch := 0, 0, [], false;
      if |selectedOrderIds| == 0 || !confirmed {
        return;
      }
      var orders, selection;
      orders, selection, successCount, errorCount, requests :=
        BulkReturnLoop(localOrders, selectedProductsPerOrder, OrdersToReturn(localOrders, selectedOrderIds), replies);
      refetch := true;
      localOrders, selectedProductsPerOrder, selectedOrderIds := orders, selection, [];
      loadingReturnId := None;
    }
  }
}
