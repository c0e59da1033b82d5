/** A JavaScript `Map`: `set` on a new key appends the key, `set` on a present
    key replaces its value in place, and `values()` yields the values in the
    order in which their keys were first inserted. Both the CSV merge of the
    dashboard and the row de-duplication of the order table are built on it. */
module LinkedMaps {

  datatype LinkedMap<K, V> = LinkedMap(keys: seq<K>, vals: map<K, V>)

  /** The keys are distinct and each is bound. A key is present (`m.has(k)`)
      exactly when it is among `keys`. */
  ghost predicate Valid<K, V>(m: LinkedMap<K, V>) {
    && (forall i, j :: 0 <= i < j < |m.keys| ==> m.keys[i] != m.keys[j])
    && (forall i :: 0 <= i < |m.keys| ==> m.keys[i] in m.vals)
  }

  function Empty<K, V>(): (m: LinkedMap<K, V>)
    ensures Valid(m) && m.keys == []
  {
    LinkedMap([], map[])
  }

  /** `m.set(k, v)` */
  function Set<K, V>(m: LinkedMap<K, V>, k: K, v: V): (r: LinkedMap<K, V>)
    requires Valid(m)
    ensures Valid(r)
    ensures k in r.keys && r.vals[k] == v
    ensures forall x :: x in m.keys && x != k ==> x in r.vals && r.vals[x] == m.vals[x]
    ensures k in m.keys ==> r.keys == m.keys
    ensures k !in m.keys ==> r.keys == m.keys + [k]
  {
    LinkedMap(if k in m.keys then m.keys else m.keys + [k], m.vals[k := v])
  }

  /** `Array.from(m.values())` */
  function Values<K, V>(m: LinkedMap<K, V>): (r: seq<V>)
    requires Valid(m)
    ensures |r| == |m.keys|
    ensures forall i :: 0 <= i < |r| ==> r[i] == m.vals[m.keys[i]]
  {
    seq(|m.keys|, i requires 0 <= i < |m.keys| => m.vals[m.keys[i]])
  }

  /** `new Map(pairs)`, or `set` called on an empty map for each pair in turn. */
  function FromPairs<K, V>(ps: seq<(K, V)>): (m: LinkedMap<K, V>)
    ensures Valid(m)
  {
    if ps == [] then Empty() else Set(FromPairs(ps[..|ps| - 1]), ps[|ps| - 1].0, ps[|ps| - 1].1)
  }

  /** One more `set` call extends the map built so far. */
  lemma FromPairsStep<K, V>(ps: seq<(K, V)>, i: nat)
    requires i < |ps|
    ensures FromPairs(ps[..i + 1]) == Set(FromPairs(ps[..i]), ps[i].0, ps[i].1)
  {
    assert ps[..i + 1][..i] == ps[..i];
  }

  /** The same, for a list of calls given by its last one. */
  lemma FromPairsSnoc<K, V>(ps: seq<(K, V)>, p: (K, V))
    ensures FromPairs(ps + [p]) == Set(FromPairs(ps), p.0, p.1)
  {
    assert (ps + [p])[..|ps|] == ps;
  }

  function KeysOf<K, V>(ps: seq<(K, V)>): (ks: seq<K>)
    ensures |ks| == |ps| && forall i :: 0 <= i < |ps| ==> ks[i] == ps[i].0
  {
    seq(|ps|, i requires 0 <= i < |ps| => ps[i].0)
  }

  /** The position of the first occurrence of `k`. */
  function FirstIndex<K(==)>(ks: seq<K>, k: K): (r: nat)
    requires k in ks
    ensures r < |ks| && ks[r] == k
    ensures forall j :: 0 <= j < r ==> ks[j] != k
  {
    if ks[0] == k then 0 else 1 + FirstIndex(ks[1..], k)
  }

  lemma FirstIndexAppend<K>(ks: seq<K>, x: K, k: K)
    requires k in ks
    ensures FirstIndex(ks + [x], k) == FirstIndex(ks, k)
  {
    var r' := FirstIndex(ks, k);
    assert (ks + [x])[r'] == k;
  }

  /** The map holds exactly the keys of the pairs. */
  lemma {:induction false} FromPairsKeys<K, V>(ps: seq<(K, V)>)
    ensures forall k :: k in FromPairs(ps).keys <==> k in KeysOf(ps)
  {
    if ps != [] {
      var init := ps[..|ps| - 1];
      FromPairsKeys(init);
      assert KeysOf(ps) == KeysOf(init) + [ps[|ps| - 1].0];
    }
  }

  /** A key is bound to the value of its last pair. */
  lemma {:induction false} FromPairsLastWins<K, V>(ps: seq<(K, V)>, i: nat)
    requires i < |ps|
    requires forall j :: i < j < |ps| ==> ps[j].0 != ps[i].0
    ensures ps[i].0 in FromPairs(ps).keys && FromPairs(ps).vals[ps[i].0] == ps[i].1
  {
    var init := ps[..|ps| - 1];
    if i < |ps| - 1 {
      FromPairsLastWins(init, i);
    }
  }

  /** Every binding comes from the last pair of its key. */
  lemma {:induction false} FromPairsSource<K, V>(ps: seq<(K, V)>, k: K) returns (i: nat)
    requires k in FromPairs(ps).keys
    ensures i < |ps| && ps[i].0 == k && FromPairs(ps).vals[k] == ps[i].1
    ensures forall j :: i < j < |ps| ==> ps[j].0 != k
  {
    var init, last := ps[..|ps| - 1], ps[|ps| - 1];
    assert FromPairs(ps) == Set(FromPairs(init), last.0, last.1);
    if last.0 == k {
      i := |ps| - 1;
    } else {
      assert ps == init + [last];
      i := FromPairsSource(init, k);
    }
  }

  /** The keys come out in the order of their first occurrence among the pairs. */
  lemma {:induction false} FromPairsFirstOrder<K, V>(ps: seq<(K, V)>)
    ensures forall k :: k in FromPairs(ps).keys ==> k in KeysOf(ps)
    ensures forall a, b :: 0 <= a < b < |FromPairs(ps).keys| ==>
      FirstIndex(KeysOf(ps), FromPairs(ps).keys[a]) < FirstIndex(KeysOf(ps), FromPairs(ps).keys[b])
  {
    FromPairsKeys(ps);
    if ps != [] {
      var init, last := ps[..|ps| - 1], ps[|ps| - 1];
      var m, ks := FromPairs(init), KeysOf(init);
      FromPairsFirstOrder(init);
      assert KeysOf(ps) == ks + [last.0];
      forall k | k in m.keys
        ensures FirstIndex(KeysOf(ps), k) == FirstIndex(ks, k) < |ks|
      {
        FirstIndexAppend(ks, last.0, k);
      }
      if last.0 !in m.keys {
        FromPairsKeys(init);
        assert last.0 !in ks;
        assert FirstIndex(KeysOf(ps), last.0) == |ks|;
      }
    }
  }

  /** Pairs with distinct keys: the keys come out as given, each bound to the
      value of its own pair. */
  lemma {:induction false} FromPairsDistinct<K, V>(ps: seq<(K, V)>)
    requires forall i, j :: 0 <= i < j < |ps| ==> ps[i].0 != ps[j].0
    ensures FromPairs(ps).keys == KeysOf(ps)
    ensures forall i :: 0 <= i < |ps| ==> ps[i].0 in FromPairs(ps).vals && FromPairs(ps).vals[ps[i].0] == ps[i].1
  {
    if ps != [] {
      var init, last := ps[..|ps| - 1], ps[|ps| - 1];
      FromPairsDistinct(init);
      assert last.0 !in KeysOf(init);
      assert KeysOf(ps) == KeysOf(init) + [last.0];
    }
  }

  /** The value at position `a` of `values()` is that of the last pair whose
      key is the `a`-th distinct key. */
  lemma ValueAt<K, V>(ps: seq<(K, V)>, a: nat) returns (i: nat)
    requires a < |FromPairs(ps).keys|
    ensures i < |ps| && ps[i].0 == FromPairs(ps).keys[a] && Values(FromPairs(ps))[a] == ps[i].1
    ensures forall j :: i < j < |ps| ==> ps[j].0 != ps[i].0
  {
    i := FromPairsSource(ps, FromPairs(ps).keys[a]);
  }

  /** The value of the last pair of each key is among the values. */
  lemma LastPairInValues<K, V>(ps: seq<(K, V)>, i: nat)
    requires i < |ps|
    requires forall j :: i < j < |ps| ==> ps[j].0 != ps[i].0
    ensures ps[i].1 in Values(FromPairs(ps))
  {
    var m := FromPairs(ps);
    FromPairsLastWins(ps, i);
    var a :| 0 <= a < |m.keys| && m.keys[a] == ps[i].0;
    assert Values(m)[a] == ps[i].1;
  }
}
