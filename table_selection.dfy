/** The selection state of the order table: the ticked orders, the ticked
    products of each order, and the return quantity chosen for each product.
    The per-order state lives in plain objects indexed by `_id`. */
module TableSelection {
  import opened JsValues
  import opened Seqs

  /** The property name an `_id` becomes when it indexes a plain object: an
      absent `_id` is the key `"undefined"`. */
  function PropKey(id: Option<string>): (k: string)
    ensures id.Some? ==> k == id.value
  {
    if id.Some? then id.value else "undefined"
  }

  /** `prev.includes(x) ? prev.filter((y) => y !== x) : [...prev, x]` */
  function Toggle<T(==, !new)>(s: seq<T>, x: T): (r: seq<T>)
    ensures x in r <==> x !in s
    ensures forall y :: y != x ==> (y in r <==> y in s)
  {
    if x in s then Filter(s, (y: T) => y != x) else s + [x]
  }

  /** Toggling twice restores the selected elements; when the element was not
      selected it restores the very same list. */
  lemma ToggleTwice<T(!new)>(s: seq<T>, x: T)
    ensures forall y :: y in Toggle(Toggle(s, x), x) <==> y in s
    ensures x !in s ==> Toggle(Toggle(s, x), x) == s
  {
    if x !in s {
      var p := (y: T) => y != x;
      FilterConcat(s, [x], p);
      FilterKeepsAll(s, p);
      assert Filter([x], p) == [];
    }
  }

  /** A selection never holds the same element twice. */
  lemma ToggleKeepsNoDup<T(!new)>(s: seq<T>, x: T)
    requires NoDup(s)
    ensures NoDup(Toggle(s, x))
  {
    if x in s {
      FilterNoDup(s, (y: T) => y != x);
    }
  }

  /** `prev[key] || []`: the product positions ticked for an order. */
  function Selected(m: map<string, seq<int>>, key: string): (r: seq<int>)
    ensures key in m ==> r == m[key]
    ensures key !in m ==> r == []
  {
    if key in m then m[key] else []
  }

  /** `toggleSelectProduct`: toggles one product of one order and leaves the
      selections of every other order as they are. */
  function ToggleProduct(m: map<string, seq<int>>, key: string, idx: int): (r: map<string, seq<int>>)
    ensures idx in Selected(r, key) <==> idx !in Selected(m, key)
    ensures forall j :: j != idx ==> (j in Selected(r, key) <==> j in Selected(m, key))
    ensures forall k :: k != key ==> Selected(r, k) == Selected(m, k)
  {
    m[key := Toggle(Selected(m, key), idx)]
  }

  /** Ticking and unticking a product restores that order's selection. */
  lemma ToggleProductTwice(m: map<string, seq<int>>, key: string, idx: int)
    requires idx !in Selected(m, key)
    ensures Selected(ToggleProduct(ToggleProduct(m, key, idx), key, idx), key) == Selected(m, key)
  {
    ToggleTwice(Selected(m, key), idx);
  }

  /** `prev[key] || {}`: the quantities chosen for the products of an order. */
  function QuantitiesOf(q: map<string, map<int, int>>, key: string): (r: map<int, int>)
    ensures key in q ==> r == q[key]
    ensures key !in q ==> r == map[]
  {
    if key in q then q[key] else map[]
  }

  /** The quantity stored for product `idx` of the order under `key`. */
  function StoredQuantity(q: map<string, map<int, int>>, key: string, idx: int): (r: Option<int>)
    ensures r.Some? <==> key in q && idx in q[key]
    ensures r.Some? ==> r.value == q[key][idx]
  {
    if key in q && idx in q[key] then Some(q[key][idx]) else None
  }

  /** `{ ...prev, [key]: { ...(prev[key] || {}), [idx]: quantity } }`: only
      the entry of that product of that order changes. */
  function SetReturnQuantity(q: map<string, map<int, int>>, key: string, idx: int, quantity: int): (r: map<string, map<int, int>>)
    ensures StoredQuantity(r, key, idx) == Some(quantity)
    ensures forall k, i :: k != key || i != idx ==> StoredQuantity(r, k, i) == StoredQuantity(q, k, i)
  {
    q[key := QuantitiesOf(q, key)[idx := quantity]]
  }
}
