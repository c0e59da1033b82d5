/** The order records the panel keeps in memory, and the "latest first"
    ordering every list update re-establishes. */
module Orders {
  import opened JsValues

  /** One line of an order. Absent properties are `None`. */
  datatype Product = Product(
    productName: Option<string>,
    quantity: Option<int>,
    imageUrl: Option<string>,
    uploadedImageUrl: Option<string>,
    smartChecks: Option<seq<string>>)

  /** An event of a carrier shipment as the tracking service reports it. */
  datatype ShipmentEvent = ShipmentEvent(
    status: Option<string>,
    publicDescription: Option<string>,
    city: Option<string>,
    hubName: Option<string>)

  /** A carrier shipment; `history` lists the most recent event first. */
  datatype Shipment = Shipment(history: Option<seq<ShipmentEvent>>)

  /** An entry of the return-tracking history kept on an order. */
  datatype HistoryEntry = HistoryEntry(
    status: string,
    timestamp: nat,
    description: string,
    city: Option<string>,
    hubName: Option<string>)

  /** The `returnTracking` record of an order. */
  datatype Tracking = Tracking(
    ekartTrackingId: Option<string>,
    currentStatus: Option<string>,
    lastUpdated: Option<nat>,
    fullTrackingData: Option<Shipment>,
    history: Option<seq<HistoryEntry>>)

  /** An order. `id` is the database key `_id`, `orderId` the shop's order
      number; timestamps are milliseconds since the epoch. The customer,
      address and dimension fields are carried unchanged by every operation
      of the model and are summarised as `details`. */
  datatype Order = Order(
    id: Option<string>,
    orderId: Option<string>,
    status: Option<string>,
    tag: Option<string>,
    createdAt: Option<nat>,
    updatedAt: Option<nat>,
    products: seq<Product>,
    returnTracking: Option<Tracking>,
    trackingLoading: Option<bool>,
    details: map<string, string>)

  /** The outcome of a request to the backend: the record it answered with,
      or a failure (a rejected promise or an unsuccessful answer). */
  datatype Reply<T> = Ok(value: T) | Failed

  /** `new Date(o.updatedAt || o.createdAt)` as a number; an order with
      neither timestamp sorts as the oldest possible. */
  function Recency(o: Order): (t: int)
    ensures t >= -1
    ensures o.updatedAt.Some? ==> t == o.updatedAt.value
    ensures o.updatedAt.None? && o.createdAt.Some? ==> t == o.createdAt.value
  {
    if o.updatedAt.Some? then o.updatedAt.value
    else if o.createdAt.Some? then o.createdAt.value
    else -1
  }

  /** Latest first. */
  ghost predicate SortedByRecency(s: seq<Order>) {
    forall i, j :: 0 <= i < j < |s| ==> Recency(s[i]) >= Recency(s[j])
  }

  /** Places `x` before the first element that is not more recent than it. */
  function Insert(x: Order, s: seq<Order>): (r: seq<Order>)
    ensures |r| == |s| + 1
    ensures r[0] == x || (s != [] && r[0] == s[0])
  {
    if s == [] || Recency(s[0]) <= Recency(x) then [x] + s else [s[0]] + Insert(x, s[1..])
  }

  /** Inserting into a list sorted latest first keeps it sorted. */
  lemma {:induction false} InsertSorted(x: Order, s: seq<Order>)
    requires SortedByRecency(s)
    ensures SortedByRecency(Insert(x, s))
  {
    if s != [] && Recency(s[0]) > Recency(x) {
      InsertSorted(x, s[1..]);
      var t := Insert(x, s[1..]);
      assert Recency(s[0]) >= Recency(t[0]);
    }
  }

  /** Inserting adds `x` and loses nothing. */
  lemma {:induction false} InsertPermutes(x: Order, s: seq<Order>)
    ensures multiset(Insert(x, s)) == multiset(s) + multiset{x}
  {
    if s != [] && Recency(s[0]) > Recency(x) {
      InsertPermutes(x, s[1..]);
      assert s == [s[0]] + s[1..];
    }
  }

  /** `s.sort((a, b) => recency(b) - recency(a))`: a stable sort, latest
      first (`SortSorts`, `SortPermutes`). */
  function SortByRecency(s: seq<Order>): (r: seq<Order>)
    ensures |r| == |s|
  {
    if s == [] then [] else Insert(s[0], SortByRecency(s[1..]))
  }

  /** The sort puts the latest orders first. */
  lemma {:induction false} SortSorts(s: seq<Order>)
    ensures SortedByRecency(SortByRecency(s))
  {
    if s != [] {
      SortSorts(s[1..]);
      InsertSorted(s[0], SortByRecency(s[1..]));
    }
  }

  /** Sorting only reorders: it keeps every order as often as it occurs. */
  lemma {:induction false} SortPermutes(s: seq<Order>)
    ensures multiset(SortByRecency(s)) == multiset(s)
  {
    if s != [] {
      var t := SortByRecency(s[1..]);
      SortPermutes(s[1..]);
      InsertPermutes(s[0], t);
      calc {
        multiset(SortByRecency(s));
        multiset(Insert(s[0], t));
        multiset(t) + multiset{s[0]};
        multiset(s[1..]) + multiset{s[0]};
        { assert s == [s[0]] + s[1..]; }
        multiset(s);
      }
    }
  }

  /** An already sorted list is left as it is. */
  lemma {:induction false} SortSorted(s: seq<Order>)
    requires SortedByRecency(s)
    ensures SortByRecency(s) == s
  {
    if s != [] {
      SortSorted(s[1..]);
      assert s[1..] == [] || Recency(s[1..][0]) <= Recency(s[0]);
    }
  }

  /** Sorting is idempotent. */
  lemma SortIdempotent(s: seq<Order>)
    ensures SortByRecency(SortByRecency(s)) == SortByRecency(s)
  {
    SortSorts(s);
    SortSorted(SortByRecency(s));
  }

  /** Membership is what a permutation keeps. */
  lemma SortMembers(s: seq<Order>, x: Order)
    ensures x in SortByRecency(s) <==> x in s
  {
    SortPermutes(s);
    assert x in multiset(SortByRecency(s)) <==> x in multiset(s);
  }

  /** `orders.map((o) => o._id === id ? saved : o)`: every order with that
      `_id` becomes `saved`, the others stay where and as they are. */
  function ReplaceById(orders: seq<Order>, id: Option<string>, saved: Order): (r: seq<Order>)
    ensures |r| == |orders|
    ensures forall i :: 0 <= i < |orders| ==> r[i] == if orders[i].id == id then saved else orders[i]
  {
    seq(|orders|, i requires 0 <= i < |orders| => if orders[i].id == id then saved else orders[i])
  }

  /** `status || "New"`: the status a tab compares against. */
  function EffectiveStatus(o: Order): (st: string)
    ensures st != ""
    ensures o.status.Some? && o.status.value != "" ==> st == o.status.value
  {
    StrOr(o.status, "New")
  }

  /** A key that tells two orders apart. */
  ghost predicate DistinctBy<K>(s: seq<Order>, key: Order -> K) {
    forall i, j :: 0 <= i < j < |s| ==> key(s[i]) != key(s[j])
  }

  lemma {:induction false} DistinctAtMostOnce<K>(s: seq<Order>, key: Order -> K, x: Order)
    requires DistinctBy(s, key)
    ensures multiset(s)[x] <= 1
  {
    if s != [] {
      assert s == [s[0]] + s[1..];
      DistinctAtMostOnce(s[1..], key, x);
      if s[0] == x {
        assert x !in s[1..] by {
          forall j | 1 <= j < |s| ensures s[j] != x {
            assert key(s[0]) != key(s[j]);
          }
        }
      }
    }
  }

  lemma TwiceCountsTwice(s: seq<Order>, i: nat, j: nat)
    requires i < j < |s| && s[i] == s[j]
    ensures multiset(s)[s[i]] >= 2
  {
    assert s == s[..j] + s[j..];
    assert s[i] in s[..j];
    assert s[j] in s[j..];
  }

  /** Reordering keeps a key distinct. */
  lemma PermutationKeepsDistinct<K>(a: seq<Order>, b: seq<Order>, key: Order -> K)
    requires multiset(a) == multiset(b)
    requires DistinctBy(a, key)
    ensures DistinctBy(b, key)
  {
    forall i, j | 0 <= i < j < |b| ensures key(b[i]) != key(b[j]) {
      if b[i] == b[j] {
        TwiceCountsTwice(b, i, j);
        DistinctAtMostOnce(a, key, b[i]);
      } else {
        assert b[i] in multiset(a) && b[j] in multiset(a);
        var p :| 0 <= p < |a| && a[p] == b[i];
        var q :| 0 <= q < |a| && a[q] == b[j];
        assert p != q;
        if p < q {
          assert key(a[p]) != key(a[q]);
        } else {
          assert key(a[q]) != key(a[p]);
        }
      }
    }
  }
}
