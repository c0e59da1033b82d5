/** The dashboard that owns the order list: merging a CSV upload into it,
    saving, tagging, cloning and deleting orders, and the tab/search filter
    with its per-status counters. */
module MainDashboard {
  import opened JsStrings
  import opened JsNumbers
  import opened JsValues
  import opened Seqs
  import opened LinkedMaps
  import opened Orders

  // ---------------------------------------------------------------------
  // Order-number normalisation
  // ---------------------------------------------------------------------

  /** `t.replace(/^#/, "")`: drops one leading `#`. */
  function StripHash(t: string): (r: string)
    ensures r == t || (t != [] && t[0] == '#' && r == t[1..])
  {
    if t != [] && t[0] == '#' then t[1..] else t
  }

  /** `id?.toString().trim().replace(/^#/, "")`: an absent id stays absent;
      otherwise surrounding whitespace goes, then at most one leading `#`. */
  function Normalize(id: Option<string>): (k: Option<string>)
    ensures id.None? <==> k.None?
    ensures k.Some? ==> Trim(id.value) == k.value || Trim(id.value) == "#" + k.value
    ensures k.Some? && Trim(id.value) == k.value ==> k.value == [] || k.value[0] != '#'
  {
    match id
    case None => None
    case Some(s) =>
      var t := Trim(s);
      assert t != [] && t[0] == '#' ==> t == "#" + t[1..];
      Some(StripHash(t))
  }

  /** A key that normalisation leaves as it is: trimmed, and not starting
      with `#`. */
  predicate NormalKey(k: string) {
    Trim(k) == k && (k == [] || k[0] != '#')
  }

  /** Surrounding whitespace does not change the key: `" 1001 "` is `"1001"`. */
  lemma NormalizeIgnoresPadding(pre: string, s: string, post: string)
    requires AllWhitespace(pre) && AllWhitespace(post)
    ensures Normalize(Some(pre + s + post)) == Normalize(Some(s))
  {
    TrimPadded(pre, s, post);
  }

  /** One leading `#` goes in front of an already trimmed string. */
  lemma NormalizeDropsHash(u: string)
    requires Trim(u) == u
    ensures Normalize(Some("#" + u)) == Some(u)
  {
    TrimPrefixed('#', u);
    assert ("#" + u)[1..] == u;
  }

  /** One leading `#` does not change the key: `"#1001"` and `"1001"` both
      give `"1001"`. */
  lemma NormalizeIgnoresHash(t: string)
    requires NormalKey(t)
    ensures Normalize(Some("#" + t)) == Some(t)
    ensures Normalize(Some(t)) == Some(t)
  {
    NormalizeDropsHash(t);
  }

  /** Only one `#` goes: `"##1"` gives `"#1"`. */
  lemma NormalizeStripsOneHash(t: string)
    requires Trim(t) == t
    ensures Normalize(Some("##" + t)) == Some("#" + t)
  {
    TrimPrefixed('#', t);
    NormalizeDropsHash("#" + t);
    assert "#" + ("#" + t) == "##" + t;
  }

  /** A key is its own normalisation exactly when it is a `NormalKey`. */
  lemma NormalizeFixedPoint(k: string)
    ensures Normalize(Some(k)) == Some(k) <==> NormalKey(k)
  {
    if Normalize(Some(k)) == Some(k) {
      assert |StripHash(Trim(k))| == |k|;
    }
  }

  /** Normalisation is therefore not idempotent: `"##1"` gives `"#1"`, which gives `"1"`. */
  lemma NormalizeNotIdempotent()
    ensures Normalize(Some("##1")) == Some("#1")
    ensures Normalize(Normalize(Some("##1"))) == Some("1")
  {
    assert Trim("1") == "1" by {
      TrimOfTrimmed("1");
    }
    NormalizeStripsOneHash("1");
    assert "##" + "1" == "##1" && "#" + "1" == "#1";
    NormalizeIgnoresHash("1");
  }

  // ---------------------------------------------------------------------
  // Merging an upload into the order list
  // ---------------------------------------------------------------------

  /** `{ ...u, orderId: normalize(u.orderId), updatedAt: now }`: an uploaded
      order replaces the stored one as a whole, under its normalised number. */
  function Stored(u: Order, now: nat): (o: Order)
    ensures o.orderId == Normalize(u.orderId) && o.updatedAt == Some(now)

  {
    u.(orderId := Normalize(u.orderId), updatedAt := Some(now))
  }

  /** The `set` calls of the merge in the order they are made: every existing
      order under its normalised number, then every uploaded order. */
  function MergePairs(prev: seq<Order>, uploaded: seq<Order>, now: nat): (ps: seq<(Option<string>, Order)>)
    ensures |ps| == |prev| + |uploaded|
  {
    ExistingPairs(prev) + UploadPairs(uploaded, now)
  }

  /** `prev.forEach((o) => map.set(normalize(o.orderId), o))` as a list of calls. */
  function ExistingPairs(prev: seq<Order>): (ps: seq<(Option<string>, Order)>)
    ensures |ps| == |prev|
  {
    if prev == [] then []
    else ExistingPairs(prev[..|prev| - 1]) + [(Normalize(prev[|prev| - 1].orderId), prev[|prev| - 1])]
  }

  /** The `set` calls made for the uploaded orders. */
  function UploadPairs(uploaded: seq<Order>, now: nat): (ps: seq<(Option<string>, Order)>)
    ensures |ps| == |uploaded|
  {
    if uploaded == [] then []
    else
      var u := uploaded[|uploaded| - 1];
      UploadPairs(uploaded[..|uploaded| - 1], now) + [(Normalize(u.orderId), Stored(u, now))]
  }

  lemma {:induction false} ExistingPairAt(prev: seq<Order>, i: nat)
    requires i < |prev|
    ensures ExistingPairs(prev)[i] == (Normalize(prev[i].orderId), prev[i])
  {
    if i < |prev| - 1 {
      ExistingPairAt(prev[..|prev| - 1], i);
    }
  }

  lemma {:induction false} UploadPairAt(uploaded: seq<Order>, now: nat, j: nat)
    requires j < |uploaded|
    ensures UploadPairs(uploaded, now)[j] == (Normalize(uploaded[j].orderId), Stored(uploaded[j], now))
  {
    if j < |uploaded| - 1 {
      UploadPairAt(uploaded[..|uploaded| - 1], now, j);
    }
  }

  /** The `n`-th `set` call of the merge. */
  lemma MergePairAt(prev: seq<Order>, uploaded: seq<Order>, now: nat, n: nat)
    requires n < |prev| + |uploaded|
    ensures n < |prev| ==> MergePairs(prev, uploaded, now)[n] == (Normalize(prev[n].orderId), prev[n])
    ensures n >= |prev| ==>
      MergePairs(prev, uploaded, now)[n] == (Normalize(uploaded[n - |prev|].orderId), Stored(uploaded[n - |prev|], now))
  {
    if n < |prev| {
      ExistingPairAt(prev, n);
    } else {
      UploadPairAt(uploaded, now, n - |prev|);
    }
  }

  /** The list the merge produces: the map's values, latest first. */
  function MergedOrders(prev: seq<Order>, uploaded: seq<Order>, now: nat): seq<Order> {
    SortByRecency(Values(FromPairs(MergePairs(prev, uploaded, now))))
  }

  lemma ExistingStep(prev: seq<Order>, uploaded: seq<Order>, now: nat, i: nat)
    requires i < |prev|
    ensures var ps := MergePairs(prev, uploaded, now);
      FromPairs(ps[..i + 1]) == Set(FromPairs(ps[..i]), Normalize(prev[i].orderId), prev[i])
  {
    FromPairsStep(MergePairs(prev, uploaded, now), i);
    MergePairAt(prev, uploaded, now, i);
  }

  /** The `set` calls made once the first `j` uploaded orders are in. */
  ghost function UploadPrefix(prev: seq<Order>, uploaded: seq<Order>, now: nat, j: nat): seq<(Option<string>, Order)>
    requires j <= |uploaded|
  {
    MergePairs(prev, uploaded, now)[..|prev| + j]
  }

  lemma UploadStep(prev: seq<Order>, uploaded: seq<Order>, now: nat, j: nat)
    requires j < |uploaded|
    ensures FromPairs(UploadPrefix(prev, uploaded, now, j + 1))
      == Set(FromPairs(UploadPrefix(prev, uploaded, now, j)), Normalize(uploaded[j].orderId), Stored(uploaded[j], now))
  {
    var ps, k := MergePairs(prev, uploaded, now), |prev| + j;
    var a, b := UploadPrefix(prev, uploaded, now, j), UploadPrefix(prev, uploaded, now, j + 1);
    UploadPairAt(uploaded, now, j);
    assert ps[k] == UploadPairs(uploaded, now)[j];
    assert b == a + [ps[k]];
    FromPairsSnoc(a, ps[k]);
  }

  /** The first `forEach` of the merge: every existing order goes into the
      map under its normalised number. */
  method SetExisting(prev: seq<Order>, uploaded: seq<Order>, now: nat) returns (orderMap: LinkedMap<Option<string>, Order>)
    ensures orderMap == FromPairs(MergePairs(prev, uploaded, now)[..|prev|])
  {
    ghost var ps := MergePairs(prev, uploaded, now);
    orderMap := Empty();
    var i := 0;
    while i < |prev|
      invariant 0 <= i <= |prev|
      invariant orderMap == FromPairs(ps[..i])
    {
      ExistingStep(prev, uploaded, now, i);
      orderMap := Set(orderMap, Normalize(prev[i].orderId), prev[i]);
      i := i + 1;
    }
  }

  /** The second `forEach`: every uploaded order goes into the map, stored
      under its normalised number with `updatedAt = now`. */
  method SetUploaded(prev: seq<Order>, uploaded: seq<Order>, now: nat, existing: LinkedMap<Option<string>, Order>)
    returns (orderMap: LinkedMap<Option<string>, Order>)
    requires existing == FromPairs(MergePairs(prev, uploaded, now)[..|prev|])
    ensures orderMap == FromPairs(MergePairs(prev, uploaded, now))
  {
    ghost var ps := MergePairs(prev, uploaded, now);
    orderMap := existing;
    var j := 0;
    while j < |uploaded|
      invariant 0 <= j <= |uploaded|
      invariant orderMap == FromPairs(UploadPrefix(prev, uploaded, now, j))
    {
      UploadStep(prev, uploaded, now, j);
      orderMap := Set(orderMap, Normalize(uploaded[j].orderId), Stored(uploaded[j], now));
      j := j + 1;
    }
    assert ps[..|prev| + j] == ps;
  }

  /** The merge of `handleCSVUploaded`: fill a map keyed by normalised order
      number with the existing orders, then with the uploaded ones, and sort
      its values latest first. */
  method MergeUploaded(prev: seq<Order>, uploaded: seq<Order>, now: nat) returns (merged: seq<Order>)
    ensures merged == MergedOrders(prev, uploaded, now)
    ensures SortedByRecency(merged)
  {
    var existing := SetExisting(prev, uploaded, now);
    var orderMap := SetUploaded(prev, uploaded, now, existing);
    merged := SortByRecency(Values(orderMap));
    SortSorts(Values(orderMap));
  }

  /** An existing order survives when no later order, existing or uploaded,
      has the same normalised number. */
  lemma MergeKeepsUntouched(prev: seq<Order>, uploaded: seq<Order>, now: nat, i: nat)
    requires i < |prev|
    requires forall j :: i < j < |prev| ==> Normalize(prev[j].orderId) != Normalize(prev[i].orderId)
    requires forall j :: 0 <= j < |uploaded| ==> Normalize(uploaded[j].orderId) != Normalize(prev[i].orderId)
    ensures prev[i] in MergedOrders(prev, uploaded, now)
  {
    var ps := MergePairs(prev, uploaded, now);
    MergePairAt(prev, uploaded, now, i);
    forall j | i < j < |ps| ensures ps[j].0 != ps[i].0 {
      MergePairAt(prev, uploaded, now, j);
    }
    LastPairInValues(ps, i);
    SortMembers(Values(FromPairs(ps)), prev[i]);
  }

  /** Existing orders are keyed like uploaded ones, so two existing orders
      with the same normalised number (`"#1001"` and `"1001"`, or two orders
      without an order number, both keyed `undefined`) collapse into the later
      one even when nothing is uploaded with that number. */
  lemma MergeCollapsesExisting(a: Order, b: Order, now: nat)
    requires Normalize(a.orderId) == Normalize(b.orderId) && a != b
    ensures a !in MergedOrders([a, b], [], now)
    ensures b in MergedOrders([a, b], [], now)
  {
    MergePairAt([a, b], [], now, 0);
    MergePairAt([a, b], [], now, 1);
    if a in MergedOrders([a, b], [], now) {
      var n := MergeLastCall([a, b], [], now, a);
      assert false;
    }
    MergeKeepsUntouched([a, b], [], now, 1);
  }

  /** The last uploaded order with a given number is in the list, stored
      whole with the normalised number and `updatedAt = now`; an earlier
      duplicate in the same upload is overwritten. */
  lemma MergeStoresUpload(prev: seq<Order>, uploaded: seq<Order>, now: nat, j: nat)
    requires j < |uploaded|
    requires forall j' :: j < j' < |uploaded| ==> Normalize(uploaded[j'].orderId) != Normalize(uploaded[j].orderId)
    ensures Stored(uploaded[j], now) in MergedOrders(prev, uploaded, now)
  {
    var ps := MergePairs(prev, uploaded, now);
    var i := |prev| + j;
    MergePairAt(prev, uploaded, now, i);
    forall k | i < k < |ps| ensures ps[k].0 != ps[i].0 {
      MergePairAt(prev, uploaded, now, k);
      assert uploaded[k - |prev|].orderId == uploaded[(k - |prev|)].orderId;
    }
    LastPairInValues(ps, i);
    SortMembers(Values(FromPairs(ps)), Stored(uploaded[j], now));
  }

  /** Every order of the merged list is the order of the last `set` call
      made with its number. */
  lemma MergeLastCall(prev: seq<Order>, uploaded: seq<Order>, now: nat, o: Order) returns (n: nat)
    requires o in MergedOrders(prev, uploaded, now)
    ensures n < |prev| + |uploaded| && MergePairs(prev, uploaded, now)[n].1 == o
    ensures forall k :: n < k < |prev| + |uploaded| ==>
      MergePairs(prev, uploaded, now)[k].0 != MergePairs(prev, uploaded, now)[n].0
  {
    var ps := MergePairs(prev, uploaded, now);
    var vs := Values(FromPairs(ps));
    SortMembers(vs, o);
    var a :| 0 <= a < |vs| && vs[a] == o;
    n := ValueAt(ps, a);
  }

  /** The order of the last `set` call made with its number is an existing
      order whose number no uploaded order has, or a stored uploaded order. */
  lemma LastCallSource(prev: seq<Order>, uploaded: seq<Order>, now: nat, n: nat)
    requires n < |prev| + |uploaded|
    requires forall k :: n < k < |prev| + |uploaded| ==>
      MergePairs(prev, uploaded, now)[k].0 != MergePairs(prev, uploaded, now)[n].0
    ensures n < |prev| ==> forall j :: 0 <= j < |uploaded| ==> Normalize(uploaded[j].orderId) != Normalize(prev[n].orderId)
  {
    if n < |prev| {
      MergePairAt(prev, uploaded, now, n);
      forall j | 0 <= j < |uploaded| ensures Normalize(uploaded[j].orderId) != Normalize(prev[n].orderId) {
        MergePairAt(prev, uploaded, now, |prev| + j);
      }
    }
  }

  /** Every order of the merged list is an existing order whose number no
      uploaded order has, or a stored uploaded order. */
  lemma MergeSource(prev: seq<Order>, uploaded: seq<Order>, now: nat, o: Order)
    requires o in MergedOrders(prev, uploaded, now)
    ensures || (o in prev && forall j :: 0 <= j < |uploaded| ==> Normalize(uploaded[j].orderId) != Normalize(o.orderId))
            || (exists j :: 0 <= j < |uploaded| && o == Stored(uploaded[j], now))
  {
    var n := MergeLastCall(prev, uploaded, now, o);
    LastCallSource(prev, uploaded, now, n);
    MergePairAt(prev, uploaded, now, n);
    if n >= |prev| {
      var j := n - |prev|;
      assert 0 <= j < |uploaded| && o == Stored(uploaded[j], now);
    }
  }

  /** When every uploaded number normalises to a key that normalisation
      leaves alone, no two orders of the merged list share a normalised
      number. */
  lemma MergeDistinctNumbers(prev: seq<Order>, uploaded: seq<Order>, now: nat)
    requires forall j :: 0 <= j < |uploaded| && Normalize(uploaded[j].orderId).Some? ==>
      NormalKey(Normalize(uploaded[j].orderId).value)
    ensures DistinctBy(MergedOrders(prev, uploaded, now), (o: Order) => Normalize(o.orderId))
  {
    var ps := MergePairs(prev, uploaded, now);
    var m := FromPairs(ps);
    var vs := Values(m);
    forall a | 0 <= a < |vs| ensures Normalize(vs[a].orderId) == m.keys[a] {
      var i := ValueAt(ps, a);
      MergePairAt(prev, uploaded, now, i);
      if i >= |prev| {
        var k := Normalize(uploaded[i - |prev|].orderId);
        if k.Some? {
          NormalizeFixedPoint(k.value);
        }
      }
    }
    assert DistinctBy(vs, (o: Order) => Normalize(o.orderId));
    SortPermutes(vs);
    PermutationKeepsDistinct(vs, MergedOrders(prev, uploaded, now), (o: Order) => Normalize(o.orderId));
  }

  /** Without that condition two orders can share a normalised number: an
      existing `"1"` and an uploaded `"##1"` (stored as `"#1"`) both stay. */
  lemma MergeNumberCollision(a: Order, b: Order, now: nat)
    requires a.orderId == Some("1") && b.orderId == Some("##1")
    ensures a in MergedOrders([a], [b], now)
    ensures Stored(b, now) in MergedOrders([a], [b], now)
    ensures Stored(b, now) != a
    ensures Normalize(Stored(b, now).orderId) == Normalize(a.orderId)
  {
    NormalizeNotIdempotent();
    assert Normalize(a.orderId) == Some("1") by {
      TrimOfTrimmed("1");
      NormalizeIgnoresHash("1");
    }
    assert Normalize(b.orderId) == Some("#1");
    assert "#1" != "1" by {
      assert |"#1"| != |"1"|;
    }
    MergeKeepsUntouched([a], [b], now, 0);
    MergeStoresUpload([a], [b], now, 0);
  }

  // ---------------------------------------------------------------------
  // List maintenance
  // ---------------------------------------------------------------------

  /** `{ ...saved, updatedAt: now }` */
  function Touched(saved: Order, now: nat): (o: Order)
    ensures o.updatedAt == Some(now) && o.(updatedAt := saved.updatedAt) == saved
  {
    saved.(updatedAt := Some(now))
  }

  /** After an edit the list holds the other orders and, if some order had the
      edited `_id`, the saved one, and nothing else. */
  lemma EditReplacesOnlyMatching(orders: seq<Order>, id: Option<string>, saved: Order, x: Order)
    ensures x in SortByRecency(ReplaceById(orders, id, saved)) <==>
      (x in orders && x.id != id) || (x == saved && exists i :: 0 <= i < |orders| && orders[i].id == id)
  {
    var r := ReplaceById(orders, id, saved);
    SortMembers(r, x);
    if x in r {
      var i :| 0 <= i < |r| && r[i] == x;
      assert orders[i].id == id ==> x == saved;
    }
    if x in orders && x.id != id {
      var i :| 0 <= i < |orders| && orders[i] == x;
      assert r[i] == x;
    }
    if x == saved && exists i :: 0 <= i < |orders| && orders[i].id == id {
      var i :| 0 <= i < |orders| && orders[i].id == id;
      assert r[i] == x;
    }
  }

  /** `orders.filter((o: Order) => o._id !== id)` */
  function RemoveById(orders: seq<Order>, id: Option<string>): (r: seq<Order>)
    ensures forall x :: x in r <==> x in orders && x.id != id
    ensures IsSubsequence(r, orders)
    ensures (forall i :: 0 <= i < |orders| ==> orders[i].id != id) ==> r == orders
  {
    FilterSubsequence(orders, (o: Order) => o.id != id);
    if forall i :: 0 <= i < |orders| ==> orders[i].id != id then
      FilterKeepsAll(orders, (o: Order) => o.id != id);
      Filter(orders, (o: Order) => o.id != id)
    else
      Filter(orders, (o: Order) => o.id != id)
  }

  /** Deleting keeps the rest in place: removing from a concatenation removes
      from each part. */
  lemma RemoveKeepsOrder(a: seq<Order>, b: seq<Order>, id: Option<string>)
    ensures RemoveById(a + b, id) == RemoveById(a, id) + RemoveById(b, id)
  {
    FilterConcat(a, b, (o: Order) => o.id != id);
  }

  /** `order.orderId || order._id`, as it is concatenated into a string. */
  function CloneBase(order: Order): string {
    if order.orderId.Some? && order.orderId.value != "" then order.orderId.value
    else if order.id.Some? then order.id.value
    else "undefined"
  }

  /** The order sent to be created by "clone": the source with a fresh number
      `base + "-CLONE-" + Date.now()`, `updatedAt = now` and no `_id`. */
  function ClonePayload(order: Order, now: nat): (c: Order)
    ensures c.id.None? && c.updatedAt == Some(now)
    ensures c.orderId == Some(CloneBase(order) + "-CLONE-" + DecimalString(now))
    ensures c.(id := order.id, orderId := order.orderId, updatedAt := order.updatedAt) == order
  {
    order.(id := None, orderId := Some(CloneBase(order) + "-CLONE-" + DecimalString(now)), updatedAt := Some(now))
  }

  /** The clone's number differs from its source's, begins with the source's
      number (or `_id`) and `-CLONE-`, and the timestamp reads back from it. */
  lemma CloneNumber(order: Order, now: nat)
    ensures ClonePayload(order, now).orderId != order.orderId
    ensures StartsWith(ClonePayload(order, now).orderId.value, CloneBase(order) + "-CLONE-")
    ensures var n := ClonePayload(order, now).orderId.value;
      StringToNumber(n[|CloneBase(order)| + 7..]) == Finite(now as real)
  {
    var base, stamp := CloneBase(order), DecimalString(now);
    var n := base + "-CLONE-" + stamp;
    assert n[..|base| + 7] == base + "-CLONE-";
    assert n[|base| + 7..] == stamp;
    DecimalStringRoundTrip(now);
    if order.orderId.Some? && order.orderId.value != "" {
      assert |n| > |order.orderId.value|;
    }
  }

  // ---------------------------------------------------------------------
  // Tab and search filter, per-status counters
  // ---------------------------------------------------------------------

  /** `order.returnTracking && order.returnTracking.currentStatus === "Returned"` */
  predicate IsReturned(o: Order) {
    o.returnTracking.Some? && o.returnTracking.value.currentStatus == Some("Returned")
  }

  /** The search: the lower-cased text of the order contains the lower-cased
      term. `text` stands for `JSON.stringify`. */
  predicate SearchMatch(o: Order, searchTerm: string, text: Order -> string) {
    Includes(ToLowerAscii(text(o)), ToLowerAscii(searchTerm))
  }

  predicate StatusMatch(o: Order, selectedStatus: string) {
    if selectedStatus == "AlreadyReturned" then IsReturned(o)
    else if selectedStatus != "All" then EffectiveStatus(o) == selectedStatus
    else true
  }

  predicate Shown(o: Order, selectedStatus: string, searchTerm: string, text: Order -> string) {
    SearchMatch(o, searchTerm, text) && StatusMatch(o, selectedStatus)
  }

  /** `filteredOrders`: the orders, in list order, that match the search and
      the selected tab. */
  function FilterOrders(orders: seq<Order>, selectedStatus: string, searchTerm: string, text: Order -> string): (r: seq<Order>)
    ensures IsSubsequence(r, orders)
    ensures forall o :: o in r <==> (o in orders && SearchMatch(o, searchTerm, text) &&
      (|| selectedStatus == "All"
       || (selectedStatus == "AlreadyReturned" && IsReturned(o))
       || (selectedStatus != "All" && selectedStatus != "AlreadyReturned" && EffectiveStatus(o) == selectedStatus)))
  {
    FilterSubsequence(orders, (o: Order) => Shown(o, selectedStatus, searchTerm, text));
    Filter(orders, (o: Order) => Shown(o, selectedStatus, searchTerm, text))
  }

  /** The empty search on the "All" tab shows every order. */
  lemma AllTabShowsEverything(orders: seq<Order>, text: Order -> string)
    ensures FilterOrders(orders, "All", "", text) == orders
  {
    forall o | o in orders ensures Shown(o, "All", "", text) {
      assert ToLowerAscii("") == "";
    }
    FilterKeepsAll(orders, (o: Order) => Shown(o, "All", "", text));
  }

  datatype StatusCounts = StatusCounts(
    All: nat, New: nat, RETURN_REQUESTED: nat, PROCESSING: nat,
    SHIPPED: nat, DELIVERED: nat, AlreadyReturned: nat)

  predicate HasStatus(o: Order, st: string) {
    o.status == Some(st)
  }

  /** `orders.filter((o) => o.status === st).length` */
  function CountStatus(orders: seq<Order>, st: string): (n: nat)
    ensures n <= |orders|
  {
    |Filter(orders, (o: Order) => HasStatus(o, st))|
  }

  /** `getStatusCounts()`: `All` is the number of orders, and no counter
      exceeds it. */
  function GetStatusCounts(orders: seq<Order>): (c: StatusCounts)
    ensures c.All == |orders|
    ensures c.New <= c.All && c.RETURN_REQUESTED <= c.All && c.PROCESSING <= c.All
    ensures c.SHIPPED <= c.All && c.DELIVERED <= c.All && c.AlreadyReturned <= c.All
  {
    StatusCounts(
      |orders|,
      |Filter(orders, (o: Order) => EffectiveStatus(o) == "New")|,
      CountStatus(orders, "RETURN_REQUESTED"),
      CountStatus(orders, "PROCESSING"),
      CountStatus(orders, "SHIPPED"),
      CountStatus(orders, "DELIVERED"),
      |Filter(orders, (o: Order) => IsReturned(o))|)
  }

  /** A tab named after a status other than "New" shows, with an empty
      search, exactly the orders that carry that status. */
  lemma StatusTabCount(orders: seq<Order>, st: string, text: Order -> string)
    requires st != "" && st != "New" && st != "All" && st != "AlreadyReturned"
    ensures CountStatus(orders, st) == |FilterOrders(orders, st, "", text)|
  {
    assert ToLowerAscii("") == "";
    FilterAgree(orders, (o: Order) => HasStatus(o, st), (o: Order) => Shown(o, st, "", text));
  }

  lemma NewTabCount(orders: seq<Order>, text: Order -> string)
    ensures |Filter(orders, (o: Order) => EffectiveStatus(o) == "New")| == |FilterOrders(orders, "New", "", text)|
  {
    assert ToLowerAscii("") == "";
    FilterAgree(orders, (o: Order) => EffectiveStatus(o) == "New", (o: Order) => Shown(o, "New", "", text));
  }

  lemma ReturnedTabCount(orders: seq<Order>, text: Order -> string)
    ensures |Filter(orders, (o: Order) => IsReturned(o))| == |FilterOrders(orders, "AlreadyReturned", "", text)|
  {
    assert ToLowerAscii("") == "";
    FilterAgree(orders, (o: Order) => IsReturned(o), (o: Order) => Shown(o, "AlreadyReturned", "", text));
  }

  /** With an empty search, each counter is the number of orders its tab
      shows; in particular `New` counts the orders with no status too. */
  lemma CountsMatchTabs(orders: seq<Order>, text: Order -> string)
    ensures var c := GetStatusCounts(orders);
      && c.All == |FilterOrders(orders, "All", "", text)|
      && c.New == |FilterOrders(orders, "New", "", text)|
      && c.RETURN_REQUESTED == |FilterOrders(orders, "RETURN_REQUESTED", "", text)|
      && c.PROCESSING == |FilterOrders(orders, "PROCESSING", "", text)|
      && c.SHIPPED == |FilterOrders(orders, "SHIPPED", "", text)|
      && c.DELIVERED == |FilterOrders(orders, "DELIVERED", "", text)|
      && c.AlreadyReturned == |FilterOrders(orders, "AlreadyReturned", "", text)|
  {
    AllTabShowsEverything(orders, text);
    NewTabCount(orders, text);
    StatusTabCount(orders, "RETURN_REQUESTED", text);
    StatusTabCount(orders, "PROCESSING", text);
    StatusTabCount(orders, "SHIPPED", text);
    StatusTabCount(orders, "DELIVERED", text);
    ReturnedTabCount(orders, text);
  }

  // ---------------------------------------------------------------------
  // The dashboard state
  // ---------------------------------------------------------------------

  class Dashboard {
    var orders: seq<Order>
    var showOrderForm: bool
    var editOrderData: Option<Order>
    var searchTerm: string
    var selectedStatus: string

    constructor ()
      ensures orders == [] && !showOrderForm && editOrderData == None
      ensures searchTerm == "" && selectedStatus == "All"
    {
      orders := [];
      showOrderForm := false;
      editOrderData := None;
      searchTerm := "";
      selectedStatus := "All";
    }

    /** The orders the table is given. */
    function FilteredOrders(text: Order -> string): (r: seq<Order>)
      reads this
      ensures IsSubsequence(r, orders)
    {
      FilterOrders(orders, selectedStatus, searchTerm, text)
    }

    /** `handleCSVUploaded`: a non-empty upload is merged into the list; an
        absent or empty one leaves it alone and asks for a refetch. */
    method HandleCsvUploaded(updatedOrders: Option<seq<Order>>, now: nat) returns (refetch: bool)
      modifies this
      ensures refetch <==> updatedOrders.None? || updatedOrders.value == []
      ensures refetch ==> orders == old(orders)
      ensures !refetch ==> orders == MergedOrders(old(orders), updatedOrders.value, now)
      ensures showOrderForm == old(showOrderForm) && editOrderData == old(editOrderData)
      ensures searchTerm == old(searchTerm) && selectedStatus == old(selectedStatus)
    {
      if updatedOrders.Some? && |updatedOrders.value| > 0 {
        orders := MergeUploaded(orders, updatedOrders.value, now);
        refetch := false;
      } else {
        refetch := true;
      }
    }

    /** "Edit": opens the form on the order. */
    method HandleEditAction(order: Order)
      modifies this
      ensures editOrderData == Some(order) && showOrderForm
      ensures orders == old(orders) && searchTerm == old(searchTerm) && selectedStatus == old(selectedStatus)
    {
      editOrderData := Some(order);
      showOrderForm := true;
    }

    /** `handleSaveOrder`: with an order being edited, the saved order replaces
        every order with its `_id` and the list is re-sorted; otherwise the
        created order goes first. A success closes the form; a failure
        changes nothing. */
    method HandleSaveOrder(reply: Reply<Order>, now: nat)
      modifies this
      ensures reply.Failed? ==> orders == old(orders) && showOrderForm == old(showOrderForm) && editOrderData == old(editOrderData)
      ensures reply.Ok? && old(editOrderData).Some? ==>
        orders == SortByRecency(ReplaceById(old(orders), old(editOrderData).value.id, Touched(reply.value, now)))
      ensures reply.Ok? && old(editOrderData).None? ==> orders == [Touched(reply.value, now)] + old(orders)
      ensures reply.Ok? ==> !showOrderForm && editOrderData == None
      ensures searchTerm == old(searchTerm) && selectedStatus == old(selectedStatus)
    {
      if reply.Ok? {
        var saved := Touched(reply.value, now);
        if editOrderData.Some? {
          orders := SortByRecency(ReplaceById(orders, editOrderData.value.id, saved));
        } else {
          orders := [saved] + orders;
        }
        showOrderForm := false;
        editOrderData := None;
      }
    }

    /** "Add tag": a non-empty answer to the prompt sends the tagged order;
        the answer replaces the order with that `_id` and the list is
        re-sorted. A cancelled or empty prompt sends nothing. */
    method HandleAddTagAction(order: Order, tag: Option<string>, reply: Reply<Order>, now: nat) returns (request: Option<Order>)
      modifies this
      ensures request.Some? <==> tag.Some? && tag.value != ""
      ensures request.Some? ==> request.value == order.(tag := tag, updatedAt := Some(now))
      ensures request.Some? && reply.Ok? ==>
        orders == SortByRecency(ReplaceById(old(orders), order.id, Touched(reply.value, now)))
      ensures request.None? || reply.Failed? ==> orders == old(orders)
      ensures showOrderForm == old(showOrderForm) && editOrderData == old(editOrderData)
      ensures searchTerm == old(searchTerm) && selectedStatus == old(selectedStatus)
    {
      if tag.Some? && tag.value != "" {
        request := Some(order.(tag := tag, updatedAt := Some(now)));
        if reply.Ok? {
          orders := SortByRecency(ReplaceById(orders, order.id, Touched(reply.value, now)));
        }
      } else {
        request := None;
      }
    }

    /** "Clone": sends the clone payload; the created order goes first. */
    method HandleCloneAction(order: Order, reply: Reply<Order>, now: nat) returns (request: Order)
      modifies this
      ensures request == ClonePayload(order, now)
      ensures reply.Ok? ==> orders == [Touched(reply.value, now)] + old(orders)
      ensures reply.Failed? ==> orders == old(orders)
      ensures showOrderForm == old(showOrderForm) && editOrderData == old(editOrderData)
      ensures searchTerm == old(searchTerm) && selectedStatus == old(selectedStatus)
    {
      request := ClonePayload(order, now);
      if reply.Ok? {
        orders := [Touched(reply.value, now)] + orders;
      }
    }

    /** "Delete": once confirmed, the delete request is sent and, when it
        succeeds, every order with that `_id` leaves the list. */
    method HandleDeleteAction(order: Order, confirmed: bool, reply: Reply<()>) returns (sent: bool)
      modifies this
      ensures sent == confirmed
      ensures confirmed && reply.Ok? ==> orders == RemoveById(old(orders), order.id)
      ensures !confirmed || reply.Failed? ==> orders == old(orders)
      ensures showOrderForm == old(showOrderForm) && editOrderData == old(editOrderData)
      ensures searchTerm == old(searchTerm) && selectedStatus == old(selectedStatus)
    {
      sent := confirmed;
      if confirmed && reply.Ok? {
        orders := RemoveById(orders, order.id);
      }
    }
  }
}
