/** Refreshing the return tracking of orders in the table: one order by its
    number, or every selected order with a tracking id in one request. */
module TrackingRefresh {
  import opened JsValues
  import opened Seqs
  import opened Orders

  // ---------------------------------------------------------------------
  // One order
  // ---------------------------------------------------------------------

  /** The answer of the single tracking endpoint: its `success` flag,
      `order?.returnTracking` and `tracking`. */
  datatype TrackAnswer = TrackAnswer(success: bool, orderTracking: Option<Tracking>, tracking: Option<Tracking>)

  /** `res.data.order?.returnTracking || res.data.tracking` */
  function NewTracking(answer: TrackAnswer): (t: Option<Tracking>)
    ensures answer.orderTracking.Some? ==> t == answer.orderTracking
    ensures answer.orderTracking.None? ==> t == answer.tracking
  {
    if answer.orderTracking.Some? then answer.orderTracking else answer.tracking
  }

  /** `localOrders.find((o) => o.orderId === orderId)`, as a position. */
  function FindByNumber(orders: seq<Order>, orderId: Option<string>): (r: Option<nat>)
    ensures r.None? <==> forall i :: 0 <= i < |orders| ==> orders[i].orderId != orderId
    ensures r.Some? ==> r.value < |orders| && orders[r.value].orderId == orderId
    ensures r.Some? ==> forall i :: 0 <= i < r.value ==> orders[i].orderId != orderId
  {
    if orders == [] then None
    else if orders[0].orderId == orderId then Some(0)
    else
      var r := FindByNumber(orders[1..], orderId);
      if r.Some? then Some(r.value + 1) else None
  }

  /** `{ ...o, trackingLoading: flag }` on every order with that number: only
      their `trackingLoading` changes. */
  function SetLoading(orders: seq<Order>, orderId: Option<string>, flag: bool): (r: seq<Order>)
    ensures |r| == |orders|
    ensures forall i :: 0 <= i < |r| ==> r[i].(trackingLoading := orders[i].trackingLoading) == orders[i]
    ensures forall i :: 0 <= i < |r| ==>
      r[i].trackingLoading == if orders[i].orderId == orderId then Some(flag) else orders[i].trackingLoading
  {
    seq(|orders|, i requires 0 <= i < |orders| =>
      if orders[i].orderId == orderId then orders[i].(trackingLoading := Some(flag)) else orders[i])
  }

  /** The success update of `refreshTracking`: on every order with that number
      only `returnTracking`, `trackingLoading` and `updatedAt` change; its
      `status` in particular stays. */
  function WithTracking(orders: seq<Order>, orderId: Option<string>, t: Option<Tracking>, now: nat): (r: seq<Order>)
    ensures |r| == |orders|
    ensures forall i :: 0 <= i < |r| && orders[i].orderId != orderId ==> r[i] == orders[i]
    ensures forall i :: 0 <= i < |r| && orders[i].orderId == orderId ==>
      && r[i].returnTracking == t && r[i].trackingLoading == Some(false) && r[i].updatedAt == Some(now)
      && r[i].status == orders[i].status
      && r[i].(returnTracking := orders[i].returnTracking, trackingLoading := orders[i].trackingLoading,
               updatedAt := orders[i].updatedAt) == orders[i]
  {
    seq(|orders|, i requires 0 <= i < |orders| =>
      if orders[i].orderId == orderId
      then orders[i].(returnTracking := t, trackingLoading := Some(false), updatedAt := Some(now))
      else orders[i])
  }

  /** Clearing the loading flag after setting it is clearing it outright. */
  lemma LoadingThenCleared(orders: seq<Order>, orderId: Option<string>)
    ensures SetLoading(SetLoading(orders, orderId, true), orderId, false) == SetLoading(orders, orderId, false)
  {
    var a, b := SetLoading(SetLoading(orders, orderId, true), orderId, false), SetLoading(orders, orderId, false);
    forall i | 0 <= i < |a| ensures a[i] == b[i] {
      assert SetLoading(orders, orderId, true)[i].orderId == orders[i].orderId;
    }
  }

  /** The success update overwrites the loading flag set before the request. */
  lemma LoadingThenUpdated(orders: seq<Order>, orderId: Option<string>, t: Option<Tracking>, now: nat)
    ensures WithTracking(SetLoading(orders, orderId, true), orderId, t, now) == WithTracking(orders, orderId, t, now)
  {
    var a, b := WithTracking(SetLoading(orders, orderId, true), orderId, t, now), WithTracking(orders, orderId, t, now);
    forall i | 0 <= i < |a| ensures a[i] == b[i] {
      assert SetLoading(orders, orderId, true)[i].orderId == orders[i].orderId;
    }
  }

  // ---------------------------------------------------------------------
  // Every selected order
  // ---------------------------------------------------------------------

  /** The answer of the bulk endpoint: `success` and `trackingData`, the
      shipment reported for each tracking id. */
  datatype BulkAnswer = BulkAnswer(success: bool, trackingData: map<string, Shipment>)

  /** `order.returnTracking?.ekartTrackingId` is truthy. */
  predicate HasTrackingId(o: Order) {
    o.returnTracking.Some? && o.returnTracking.value.ekartTrackingId.Some? &&
    o.returnTracking.value.ekartTrackingId.value != ""
  }

  function TrackingId(o: Order): string
    requires HasTrackingId(o)
  {
    o.returnTracking.value.ekartTrackingId.value
  }

  /** `ordersWithTracking`: the orders with a tracking id whose `_id` is selected. */
  function OrdersWithTracking(orders: seq<Order>, selected: seq<Option<string>>): (r: seq<Order>)
    ensures forall o :: o in r <==> o in orders && HasTrackingId(o) && o.id in selected
    ensures IsSubsequence(r, orders)
  {
    FilterSubsequence(orders, (o: Order) => HasTrackingId(o) && o.id in selected);
    Filter(orders, (o: Order) => HasTrackingId(o) && o.id in selected)
  }

  /** `trackingIds`: the tracking ids sent, one per order. */
  function TrackingIds(orders: seq<Order>): (ids: seq<string>)
    requires forall o :: o in orders ==> HasTrackingId(o)
    ensures |ids| == |orders|
    ensures forall k :: 0 <= k < |orders| ==> ids[k] == TrackingId(orders[k])
  {
    seq(|orders|, k requires 0 <= k < |orders| => TrackingId(orders[k]))
  }

  /** `shipmentData.history?.[0]`: the latest event, if any. */
  function LatestEvent(s: Shipment): (e: Option<ShipmentEvent>)
    ensures e.Some? <==> s.history.Some? && s.history.value != []
    ensures e.Some? ==> e.value == s.history.value[0]
  {
    if s.history.Some? && s.history.value != [] then Some(s.history.value[0]) else None
  }

  /** `latestHistory?.status` */
  function LatestStatus(s: Shipment): Option<string> {
    var e := LatestEvent(s);
    if e.Some? then e.value.status else None
  }

  /** The history entry the bulk refresh appends: the latest event's status,
      description, city and hub, with "Updated" and the bulk description
      standing in for a missing status or description. */
  function BulkEntry(s: Shipment, now: nat): (h: HistoryEntry)
    ensures h.timestamp == now
    ensures h.status == StrOr(LatestStatus(s), "Updated")
    ensures LatestEvent(s).None? ==> h.description == "Bulk tracking update" && h.city.None? && h.hubName.None?
    ensures LatestEvent(s).Some? ==>
      && h.description == StrOr(LatestEvent(s).value.publicDescription, "Bulk tracking update")
      && h.city == LatestEvent(s).value.city && h.hubName == LatestEvent(s).value.hubName
  {
    var e := LatestEvent(s);
    HistoryEntry(
      StrOr(LatestStatus(s), "Updated"),
      now,
      StrOr(if e.Some? then e.value.publicDescription else None, "Bulk tracking update"),
      if e.Some? then e.value.city else None,
      if e.Some? then e.value.hubName else None)
  }

  /** `order.returnTracking.history || []` */
  function PastHistory(o: Order): seq<HistoryEntry>
    requires o.returnTracking.Some?
  {
    var h := o.returnTracking.value.history;
    if h.Some? then h.value else []
  }

  /** The refreshed order: its tracking gets the latest status (or keeps its
      own when none is reported), the time, the shipment and one more history
      entry; nothing else of the order changes. */
  function BulkRefreshed(o: Order, s: Shipment, now: nat): (r: Order)
    requires HasTrackingId(o)
    ensures r.(returnTracking := o.returnTracking) == o
    ensures r.returnTracking.Some? && r.returnTracking.value.ekartTrackingId == o.returnTracking.value.ekartTrackingId
    ensures r.returnTracking.value.history == Some(PastHistory(o) + [BulkEntry(s, now)])
    ensures var st := LatestStatus(s);
      r.returnTracking.value.currentStatus ==
        if st.Some? && st.value != "" then st else o.returnTracking.value.currentStatus
    ensures r.returnTracking.value.lastUpdated == Some(now) && r.returnTracking.value.fullTrackingData == Some(s)
  {
    var t := o.returnTracking.value;
    var st := LatestStatus(s);
    o.(returnTracking := Some(t.(
      currentStatus := if st.Some? && st.value != "" then st else t.currentStatus,
      lastUpdated := Some(now),
      fullTrackingData := Some(s),
      history := Some(PastHistory(o) + [BulkEntry(s, now)]))))
  }

  /** `order.returnTracking?.ekartTrackingId && trackingData[id]`: the answer
      reports a shipment for the order. */
  predicate Reported(o: Order, data: map<string, Shipment>) {
    HasTrackingId(o) && TrackingId(o) in data
  }

  /** The success update of `handleBulkTrackingRefresh`: every order of the
      list whose tracking id the answer reports is refreshed, the others stay. */
  function BulkApply(orders: seq<Order>, data: map<string, Shipment>, now: nat): (r: seq<Order>)
    ensures |r| == |orders|
    ensures forall i :: 0 <= i < |r| && !Reported(orders[i], data) ==> r[i] == orders[i]
    ensures forall i :: 0 <= i < |r| && Reported(orders[i], data) ==>
      r[i] == BulkRefreshed(orders[i], data[TrackingId(orders[i])], now)
  {
    seq(|orders|, i requires 0 <= i < |orders| =>
      if Reported(orders[i], data) then BulkRefreshed(orders[i], data[TrackingId(orders[i])], now) else orders[i])
  }

  /** A refreshed order's history grows by exactly one entry and keeps its
      earlier entries in front. */
  lemma BulkAppendsOne(orders: seq<Order>, data: map<string, Shipment>, now: nat, i: nat)
    requires i < |orders| && Reported(orders[i], data)
    ensures var r := BulkApply(orders, data, now)[i];
      && r.returnTracking.Some? && r.returnTracking.value.history.Some?
      && |r.returnTracking.value.history.value| == |PastHistory(orders[i])| + 1
      && r.returnTracking.value.history.value[..|PastHistory(orders[i])|] == PastHistory(orders[i])
  {
    var r := BulkApply(orders, data, now)[i];
    assert r.returnTracking.value.history.value == PastHistory(orders[i]) + [BulkEntry(data[TrackingId(orders[i])], now)];
  }

  /** The append is unconditional: refreshing twice with the same answer
      adds two entries. */
  lemma BulkTwiceAppendsTwo(o: Order, data: map<string, Shipment>, now: nat, later: nat)
    requires Reported(o, data)
    ensures var o2 := BulkApply(BulkApply([o], data, now), data, later)[0];
      Reported(o2, data) && |PastHistory(o2)| == |PastHistory(o)| + 2
  {
    var o1 := BulkApply([o], data, now)[0];
    assert Reported(o1, data);
    var o2 := BulkApply([o1], data, later)[0];
    assert |PastHistory(o1)| == |PastHistory(o)| + 1;
    assert |PastHistory(o2)| == |PastHistory(o1)| + 1;
  }
}
