/** Insertion-ordered maps whose removal moves the last entry into the gap. */
module IndexMaps {
  import opened Wrappers
  import opened SocketSpecs

  datatype Entry<+V> = Entry(key: SocketSpec, value: V)

  type IndexMap<+V> = seq<Entry<V>>

  ghost predicate Distinct<V>(m: IndexMap<V>) {
    forall i, j | 0 <= i < j < |m| :: m[i].key != m[j].key
  }

  ghost function Keys<V>(m: IndexMap<V>): set<SocketSpec> {
    set i | 0 <= i < |m| :: m[i].key
  }

  function Find<V>(m: IndexMap<V>, key: SocketSpec): (index: Option<nat>)
    ensures index.Some? ==> index.value < |m| && m[index.value].key == key
    ensures index.None? <==> key !in Keys(m)
  {
    if m == [] then None
    else if m[|m| - 1].key == key then Some(|m| - 1)
    else
      assert Keys(m) == Keys(m[..|m| - 1]) + {m[|m| - 1].key} by {
        assert forall i | 0 <= i < |m| - 1 :: m[i].key == m[..|m| - 1][i].key;
      }
      Find(m[..|m| - 1], key)
  }

  function Insert<V>(m: IndexMap<V>, key: SocketSpec, value: V): (r: IndexMap<V>) {
    match Find(m, key)
    case Some(i) => m[i := Entry(key, value)]
    case None => m + [Entry(key, value)]
  }

  function SwapRemove<V>(m: IndexMap<V>, i: nat): (r: IndexMap<V>)
    requires i < |m|
  {
    m[i := m[|m| - 1]][..|m| - 1]
  }

  /** The keys in their order. */
  function KeyList<V>(m: IndexMap<V>): (keys: seq<SocketSpec>)
    ensures |keys| == |m| && forall i | 0 <= i < |keys| :: keys[i] == m[i].key
  {
    if m == [] then [] else KeyList(m[..|m| - 1]) + [m[|m| - 1].key]
  }

  /** The entries as a map, which forgets their order. */
  ghost function ToMap<V>(m: IndexMap<V>): (r: map<SocketSpec, V>)
    ensures r.Keys == Keys(m)
  {
    map key | key in Keys(m) :: m[Find(m, key).value].value
  }

  lemma At<V>(m: IndexMap<V>, i: nat)
    requires Distinct(m) && i < |m|
    ensures m[i].key in ToMap(m) && ToMap(m)[m[i].key] == m[i].value && Find(m, m[i].key) == Some(i)
  {
    assert m[i].key in Keys(m);
  }

  lemma UpdateEntry<V>(m: IndexMap<V>, i: nat, value: V)
    requires Distinct(m) && i < |m|
    ensures var r := m[i := Entry(m[i].key, value)];
            Distinct(r) && ToMap(r) == ToMap(m)[m[i].key := value]
  {
    var key, r := m[i].key, m[i := Entry(m[i].key, value)];
    SameKeys(m, r);
    forall k | k in Keys(m)
      ensures ToMap(r)[k] == ToMap(m)[key := value][k]
    {
      At(m, Find(m, k).value);
      At(r, Find(m, k).value);
    }
  }

  lemma SameKeys<V>(m: IndexMap<V>, r: IndexMap<V>)
    requires |m| == |r| && forall i | 0 <= i < |m| :: m[i].key == r[i].key
    ensures Keys(m) == Keys(r) && (Distinct(m) ==> Distinct(r))
  {
    assert forall i | 0 <= i < |m| :: m[i].key in Keys(r) && r[i].key in Keys(m);
  }

  lemma AppendKeys<V>(m: IndexMap<V>, key: SocketSpec, value: V)
    requires Distinct(m) && key !in Keys(m)
    ensures var r := m + [Entry(key, value)]; Distinct(r) && Keys(r) == Keys(m) + {key}
  {
    var r := m + [Entry(key, value)];
    assert forall i | 0 <= i < |m| :: m[i].key in Keys(m) && r[i].key == m[i].key;
    assert r[|m|].key == key;
  }

  lemma InsertNew<V>(m: IndexMap<V>, key: SocketSpec, value: V)
    requires Distinct(m) && key !in Keys(m)
    ensures var r := Insert(m, key, value);
            r == m + [Entry(key, value)] && Distinct(r) && ToMap(r) == ToMap(m)[key := value]
  {
    var r := m + [Entry(key, value)];
    AppendKeys(m, key, value);
    hide Find;
    forall k | k in Keys(r)
      ensures ToMap(r)[k] == ToMap(m)[key := value][k]
    {
      if k == key {
        At(r, |m|);
      } else {
        At(m, Find(m, k).value);
        At(r, Find(m, k).value);
      }
    }
  }

  /** The last entry takes the place of the removed one, and no other moves. */
  lemma SwapRemovedAt<V>(m: IndexMap<V>, i: nat, j: nat)
    requires i < |m| && j < |m| - 1
    ensures |SwapRemove(m, i)| == |m| - 1
    ensures SwapRemove(m, i)[j] == if j == i then m[|m| - 1] else m[j]
  {
  }

  lemma SwapRemoved<V>(m: IndexMap<V>, i: nat)
    requires Distinct(m) && i < |m|
    ensures var r := SwapRemove(m, i);
            |r| == |m| - 1 && Distinct(r) && ToMap(r) == ToMap(m) - {m[i].key}
  {
    hide Find;
    var r, last, key := SwapRemove(m, i), |m| - 1, m[i].key;
    assert forall j | 0 <= j < last :: r[j] == if j == i then m[last] else m[j];
    assert Keys(r) == Keys(m) - {key} by {
      forall k | k in Keys(m) && k != key
        ensures k in Keys(r)
      {
        var j := Find(m, k).value;
        assert r[if j == last then i else j].key == k;
      }
      forall j | 0 <= j < last
        ensures r[j].key in Keys(m) && r[j].key != key
      {
      }
    }
    forall k | k in Keys(r)
      ensures ToMap(r)[k] == ToMap(m)[k]
    {
      var j := Find(m, k).value;
      At(m, j);
      At(r, if j == last then i else j);
    }
  }
}
