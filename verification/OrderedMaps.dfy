// std::map and std::multimap with std::string keys, as sequences of entries in key order.
module OrderedMaps {
  import opened Sequences
  import opened Text

  datatype Entry<+V> = Entry(key: string, value: V)

  predicate Sorted<V>(m: seq<Entry<V>>) {
    forall i, j :: 0 <= i < j < |m| ==> !Less(m[j].key, m[i].key)
  }

  predicate StrictlySorted<V>(m: seq<Entry<V>>) {
    forall i, j :: 0 <= i < j < |m| ==> Less(m[i].key, m[j].key)
  }

  // The place of the first entry above k.
  function UpperBound<V>(m: seq<Entry<V>>, k: string): (n: nat)
    ensures n <= |m|
    ensures forall i :: 0 <= i < n ==> !Less(k, m[i].key)
    ensures n < |m| ==> Less(k, m[n].key)
  {
    if m == [] || Less(k, m[0].key) then 0 else 1 + UpperBound(m[1..], k)
  }

  // multimap::insert: after every entry with the same key.
  function Insert<V>(m: seq<Entry<V>>, e: Entry<V>): (r: seq<Entry<V>>) {
    var n := UpperBound(m, e.key);
    m[..n] + [e] + m[n..]
  }

  lemma UpperBoundTail<V>(m: seq<Entry<V>>, k: string)
    requires Sorted(m)
    ensures forall i :: UpperBound(m, k) <= i < |m| ==> Less(k, m[i].key)
  {
    var n := UpperBound(m, k);
    forall i | n <= i < |m|
      ensures Less(k, m[i].key)
    {
      if n < i {
        LessMixedRight(k, m[n].key, m[i].key);
      }
    }
  }

  lemma InsertSorted<V>(m: seq<Entry<V>>, e: Entry<V>)
    requires Sorted(m)
    ensures Sorted(Insert(m, e))
    ensures multiset(Insert(m, e)) == multiset(m) + multiset{e}
  {
    hide Less, UpperBound;
    var n := UpperBound(m, e.key);
    UpperBoundTail(m, e.key);
    assert m == m[..n] + m[n..];
    var r := Insert(m, e);
    forall i, j | 0 <= i < j < |r|
      ensures !Less(r[j].key, r[i].key)
    {
      if i == n {
        LessAsymmetric(e.key, r[j].key);
      }
    }
  }

  // The values stored under k, in order: what equal_range(k) spans.
  function ValuesAt<V>(m: seq<Entry<V>>, k: string): seq<V> {
    FlatMap(ValueIfAt(k), m)
  }

  function ValueIfAt<V>(k: string): Entry<V> -> seq<V> {
    (e: Entry<V>) => if e.key == k then [e.value] else []
  }

  lemma InsertValues<V>(m: seq<Entry<V>>, e: Entry<V>, k: string)
    requires Sorted(m)
    ensures ValuesAt(Insert(m, e), k) == ValuesAt(m, k) + ValuesAt([e], k)
  {
    var n := UpperBound(m, e.key);
    var l, r := m[..n], m[n..];
    assert m == l + r;
    if e.key == k {
      UpperBoundTail(m, k);
      NoValuesAbove(r, k);
    }
    ValuesAtSplice(l, e, r, k);
  }

  lemma ValuesAtSplice<V>(l: seq<Entry<V>>, e: Entry<V>, r: seq<Entry<V>>, k: string)
    requires e.key == k ==> ValuesAt(r, k) == []
    ensures ValuesAt(l + [e] + r, k) == ValuesAt(l + r, k) + ValuesAt([e], k)
  {
    hide ValuesAt;
    ValuesAtAppend(l, r, k);
    ValuesAtAppend(l + [e], r, k);
    ValuesAtAppend(l, [e], k);
    ValuesAtOne(e, k);
  }

  lemma ValuesAtOne<V>(e: Entry<V>, k: string)
    ensures ValuesAt([e], k) == if e.key == k then [e.value] else []
  {
    FlatMapOne(ValueIfAt<V>(k), e);
  }

  lemma ValuesAtAppend<V>(l: seq<Entry<V>>, r: seq<Entry<V>>, k: string)
    ensures ValuesAt(l + r, k) == ValuesAt(l, k) + ValuesAt(r, k)
  {
    FlatMapAppend(ValueIfAt<V>(k), l, r);
  }

  lemma {:induction false} NoValuesAbove<V>(m: seq<Entry<V>>, k: string)
    requires forall i :: 0 <= i < |m| ==> Less(k, m[i].key)
    ensures ValuesAt(m, k) == []
  {
    LessIrreflexive(k);
    FlatMapEmpty(ValueIfAt<V>(k), m);
  }

  // The multimap reached by inserting es one after another.
  function FromEntries<V>(es: seq<Entry<V>>): seq<Entry<V>> {
    if es == [] then [] else Insert(FromEntries(es[..|es| - 1]), es[|es| - 1])
  }

  lemma FromEntriesNone<V>()
    ensures FromEntries<V>([]) == []
  {
  }

  lemma FromEntriesSnoc<V>(es: seq<Entry<V>>, e: Entry<V>)
    ensures FromEntries(es + [e]) == Insert(FromEntries(es), e)
  {
    assert (es + [e])[..|es + [e]| - 1] == es;
  }

  // Successive insertion is the stable sort by key: sorted, the same entries, and the values
  // under each key in the order they came.
  lemma {:induction false} FromEntriesIsStableSort<V>(es: seq<Entry<V>>)
    ensures Sorted(FromEntries(es))
    ensures multiset(FromEntries(es)) == multiset(es)
    ensures forall k :: ValuesAt(FromEntries(es), k) == ValuesAt(es, k)
  {
    if es != [] {
      var n := |es| - 1;
      FromEntriesIsStableSort(es[..n]);
      InsertSorted(FromEntries(es[..n]), es[n]);
      assert es == es[..n] + [es[n]];
      forall k
        ensures ValuesAt(FromEntries(es), k) == ValuesAt(es, k)
      {
        InsertValues(FromEntries(es[..n]), es[n], k);
        ValuesAtAppend(es[..n], [es[n]], k);
      }
    }
  }

  lemma FromEntriesMembers<V>(es: seq<Entry<V>>)
    ensures forall e :: e in FromEntries(es) <==> e in es
  {
    FromEntriesIsStableSort(es);
    forall e
      ensures e in FromEntries(es) <==> e in es
    {
      assert e in FromEntries(es) <==> e in multiset(FromEntries(es));
      assert e in es <==> e in multiset(es);
    }
  }

  // map::find and multimap::find: the first entry with key k, or |m| for end().
  function Find<V>(m: seq<Entry<V>>, k: string): (n: nat)
    ensures n <= |m|
    ensures n < |m| ==> m[n].key == k
    ensures forall i :: 0 <= i < n ==> m[i].key != k
  {
    if m == [] || m[0].key == k then 0 else 1 + Find(m[1..], k)
  }

  // A walk from place i that stops at the end of the range of key k.
  predicate RangeHas<V(==)>(m: seq<Entry<V>>, i: nat, k: string, v: V)
    decreases |m| - i
  {
    i < |m| && m[i].key == k && (m[i].value == v || RangeHas(m, i + 1, k, v))
  }

  // A walk from place i that goes on to the end of the map.
  predicate SuffixHas<V(==)>(m: seq<Entry<V>>, i: nat, v: V) {
    exists j :: i <= j < |m| && m[j].value == v
  }

  lemma {:induction false} RangeHasReached<V>(m: seq<Entry<V>>, i: nat, j: nat, k: string, v: V)
    requires i <= j < |m| && m[j] == Entry(k, v)
    requires forall h :: i <= h <= j ==> m[h].key == k
    ensures RangeHas(m, i, k, v)
    decreases j - i
  {
    if i < j {
      RangeHasReached(m, i + 1, j, k, v);
    }
  }

  lemma {:induction false} RangeHasSound<V>(m: seq<Entry<V>>, i: nat, k: string, v: V)
    requires RangeHas(m, i, k, v)
    ensures Entry(k, v) in m
    decreases |m| - i
  {
    if m[i].value == v {
      assert m[i] == Entry(k, v);
    } else {
      RangeHasSound(m, i + 1, k, v);
    }
  }

  // In a sorted multimap the range search started by find is membership.
  lemma RangeSearchIsMembership<V>(m: seq<Entry<V>>, k: string, v: V)
    requires Sorted(m)
    ensures RangeHas(m, Find(m, k), k, v) <==> Entry(k, v) in m
  {
    if RangeHas(m, Find(m, k), k, v) {
      RangeHasSound(m, Find(m, k), k, v);
    }
    if Entry(k, v) in m {
      var j :| 0 <= j < |m| && m[j] == Entry(k, v);
      var i := Find(m, k);
      assert i <= j;
      forall h | i <= h <= j
        ensures m[h].key == k
      {
        LessTotal(m[h].key, k);
        assert h == i || !Less(m[h].key, m[i].key);
        assert h == j || !Less(m[j].key, m[h].key);
      }
      RangeHasReached(m, i, j, k, v);
    }
  }

  // In a sorted multimap the unbounded search finds v exactly when k is a key and v stands
  // under some key at or above k.
  lemma SuffixSearchIsAbove<V>(m: seq<Entry<V>>, k: string, v: V)
    requires Sorted(m)
    ensures SuffixHas(m, Find(m, k), v)
       <==> (exists e :: e in m && e.key == k) && (exists e :: e in m && !Less(e.key, k) && e.value == v)
  {
    var i := Find(m, k);
    if SuffixHas(m, i, v) {
      var j :| i <= j < |m| && m[j].value == v;
      assert m[i] in m && m[j] in m;
      if i == j {
        LessIrreflexive(k);
      }
    }
    if (exists e :: e in m && e.key == k) && (exists e :: e in m && !Less(e.key, k) && e.value == v) {
      var e0 :| e0 in m && e0.key == k;
      var j0 :| 0 <= j0 < |m| && m[j0] == e0;
      var e :| e in m && !Less(e.key, k) && e.value == v;
      var j :| 0 <= j < |m| && m[j] == e;
      if j < i {
        LessTotal(m[j].key, k);
        assert false;
      }
    }
  }

  // ---- std::map ----

  predicate Has<V>(m: seq<Entry<V>>, k: string) {
    Find(m, k) < |m|
  }

  function At<V>(m: seq<Entry<V>>, k: string): V
    requires Has(m, k)
  {
    m[Find(m, k)].value
  }

  // map::insert and map::emplace: a key already present keeps its value.
  function Emplace<V>(m: seq<Entry<V>>, k: string, v: V): seq<Entry<V>> {
    if Has(m, k) then m else Insert(m, Entry(k, v))
  }

  lemma EmplaceKeepsOrder<V>(m: seq<Entry<V>>, k: string, v: V)
    requires StrictlySorted(m)
    ensures StrictlySorted(Emplace(m, k, v))
  {
    if !Has(m, k) {
      StrictlySortedIsSorted(m);
      UpperBoundTail(m, k);
      var n := UpperBound(m, k);
      forall i | 0 <= i < n
        ensures Less(m[i].key, k)
      {
        LessTotal(m[i].key, k);
      }
    }
  }

  lemma StrictlySortedIsSorted<V>(m: seq<Entry<V>>)
    requires StrictlySorted(m)
    ensures Sorted(m)
  {
    forall i, j | 0 <= i < j < |m|
      ensures !Less(m[j].key, m[i].key)
    {
      LessAsymmetric(m[i].key, m[j].key);
    }
  }

  // Emplacing above every key appends.
  lemma EmplaceAbove<V>(m: seq<Entry<V>>, k: string, v: V)
    requires forall i :: 0 <= i < |m| ==> Less(m[i].key, k)
    ensures Emplace(m, k, v) == m + [Entry(k, v)]
  {
    LessIrreflexive(k);
    assert !Has(m, k);
    var n := UpperBound(m, k);
    if n < |m| {
      LessAsymmetric(m[n].key, k);
    }
  }

  lemma FindAppend<V>(a: seq<Entry<V>>, b: seq<Entry<V>>, k: string)
    ensures Find(a + b, k) == if Has(a, k) then Find(a, k) else |a| + Find(b, k)
  {
    var ab, i := a + b, Find(a + b, k);
    var n := if Has(a, k) then Find(a, k) else |a| + Find(b, k);
    assert forall j :: 0 <= j < |a| ==> ab[j] == a[j];
    assert forall j :: 0 <= j < |b| ==> ab[|a| + j] == b[j];
    assert forall j :: 0 <= j < n ==> ab[j].key != k;
    if n < |ab| {
      assert ab[n].key == k;
    }
  }

  // After map::insert a key reads as before if it was there, and otherwise as inserted.
  lemma EmplaceFinds<V>(m: seq<Entry<V>>, k: string, v: V, key: string)
    ensures Has(Emplace(m, k, v), key) <==> Has(m, key) || key == k
    ensures Has(m, key) ==> At(Emplace(m, k, v), key) == At(m, key)
    ensures !Has(m, key) && key == k ==> At(Emplace(m, k, v), key) == v
  {
    hide Find, UpperBound;
    if !Has(m, k) {
      var n := UpperBound(m, k);
      var l, r := m[..n], m[n..];
      assert m == l + r;
      FindAppend(l, r, key);
      FindAppend(l, [Entry(k, v)], key);
      FindAppend(l + [Entry(k, v)], r, key);
      FindOne(Entry(k, v), key);
    }
  }

  lemma FindOne<V>(e: Entry<V>, key: string)
    ensures Find([e], key) == if e.key == key then 0 else 1
  {
    assert Find([e], key) <= 1;
  }
}
