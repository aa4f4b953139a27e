// The update of a slice profile against the stored one
// (ValidationData::checkForUpdateSpecificUdmSliceProfileRules): repetitions already in the stored
// profile are tolerated, and dnnListIds must not be deleted.
module UpdateRules {
  import opened Sequences
  import opened Text
  import opened OrderedMaps
  import opened Types
  import opened CreateRules

  // ---- what is read from the stored profile ----

  datatype Keyed<+V> = Keyed(plmn: string, name: string, values: seq<V>)

  // map::insert over a list of keyed vectors: the first vector of a key stays.
  function FirstOf<V>(es: seq<Keyed<V>>): map<(string, string), seq<V>> {
    if es == [] then map[] else
      var n := |es| - 1;
      PutFirst(FirstOf(es[..n]), es[n])
  }

  function PutFirst<V>(m: map<(string, string), seq<V>>, e: Keyed<V>): map<(string, string), seq<V>> {
    if (e.plmn, e.name) in m then m else m[(e.plmn, e.name) := e.values]
  }

  lemma FirstOfNone<V>()
    ensures FirstOf<V>([]) == map[]
  {
  }

  lemma FirstOfSnoc<V>(es: seq<Keyed<V>>, e: Keyed<V>)
    ensures FirstOf(es + [e]) == PutFirst(FirstOf(es), e)
  {
    assert (es + [e])[..|es + [e]| - 1] == es;
  }

  // map::operator[]: an absent key reads as the empty vector.
  function Lookup<V>(m: map<(string, string), seq<V>>, plmn: string, name: string): seq<V> {
    if (plmn, name) in m then m[(plmn, name)] else []
  }

  predicate HasKey<V>(es: seq<Keyed<V>>, plmn: string, name: string) {
    exists i :: 0 <= i < |es| && es[i].plmn == plmn && es[i].name == name
  }

  // Looking a key up finds the vector of its first occurrence.
  lemma {:induction false} LookupFindsFirst<V>(es: seq<Keyed<V>>, plmn: string, name: string)
    ensures (plmn, name) in FirstOf(es) <==> HasKey(es, plmn, name)
    ensures forall i :: 0 <= i < |es| && es[i].plmn == plmn && es[i].name == name && !HasKey(es[..i], plmn, name)
                     ==> Lookup(FirstOf(es), plmn, name) == es[i].values
  {
    if es != [] {
      var n := |es| - 1;
      LookupFindsFirst(es[..n], plmn, name);
      assert forall i :: 0 <= i < n ==> es[..n][i] == es[i] && es[..n][..i] == es[..i];
      assert HasKey(es, plmn, name) <==> HasKey(es[..n], plmn, name) || (es[n].plmn == plmn && es[n].name == name);
    }
  }

  function StoredListsOf(plmn: string): DnnList -> seq<Keyed<string>> {
    (l: DnnList) => [Keyed(plmn, l.dnnListId, LowerDnns(l.dnnDataList))]
  }

  function StoredSetOf(): PlmnIdSet -> seq<Keyed<string>> {
    (s: PlmnIdSet) => FlatMap(StoredListsOf(s.plmnIdSetIdentifier), s.dnnLists)
  }

  // getAllDnnsUdmSliceProfile.
  function StoredDnns(stored: seq<PlmnIdSet>): map<(string, string), seq<string>> {
    FirstOf(FlatMap(StoredSetOf(), stored))
  }

  datatype NssaiTriple = NssaiTriple(key: NssaiKey, dnnListId: string)

  // getNssais.
  function Triples(ns: seq<NssaiDetails>): (ts: seq<NssaiTriple>)
    ensures |ts| == |ns|
  {
    seq(|ns|, i requires 0 <= i < |ns| => NssaiTriple(KeyOf(ns[i]), ns[i].dnnListId))
  }

  const DEFAULT_KEY := "default"
  const SINGLE_KEY := "single"

  function StoredNssaisOf(): PlmnIdSet -> seq<Keyed<NssaiTriple>> {
    (s: PlmnIdSet) => [Keyed(s.plmnIdSetIdentifier, DEFAULT_KEY, Triples(s.nssai.defaultSingleNssais)),
                       Keyed(s.plmnIdSetIdentifier, SINGLE_KEY, Triples(s.nssai.singleNssais))]
  }

  // getAllNssaisUdmSliceProfile.
  function StoredNssais(stored: seq<PlmnIdSet>): map<(string, string), seq<NssaiTriple>> {
    FirstOf(FlatMap(StoredNssaisOf(), stored))
  }

  // ---- the errors, in the order they are appended ----

  // A DNN repeats when it stands earlier in the list; it is tolerated when the stored list holds
  // it more often than the list so far.
  predicate DnnFlagged(keys: seq<string>, i: nat, stored: seq<string>)
    requires i < |keys|
  {
    1 <= multiset(keys[..i])[keys[i]] && !(multiset(stored)[keys[i]] > multiset(keys[..i])[keys[i]])
  }

  function DnnUpdateErrors(keys: seq<string>, stored: seq<string>, e: Error): (es: seq<Error>)
    ensures forall x :: x in es ==> x == e
  {
    if keys == [] then [] else
      var n := |keys| - 1;
      DnnUpdateErrors(keys[..n], stored, e) + (if DnnFlagged(keys, n, stored) then [e] else [])
  }

  lemma DnnUpdateErrorsOfNone(stored: seq<string>, e: Error)
    ensures DnnUpdateErrors([], stored, e) == []
  {
  }

  lemma DnnUpdateErrorsSnoc(keys: seq<string>, k: string, stored: seq<string>, e: Error)
    ensures DnnUpdateErrors(keys + [k], stored, e)
         == DnnUpdateErrors(keys, stored, e)
            + (if 1 <= multiset(keys)[k] && !(multiset(stored)[k] > multiset(keys)[k]) then [e] else [])
  {
    assert (keys + [k])[..|keys|] == keys;
  }

  datatype NssaiUse = NssaiUse(kind: string, triple: NssaiTriple)

  function Uses(kind: string, ns: seq<NssaiDetails>): (us: seq<NssaiUse>)
    ensures |us| == |ns|
  {
    seq(|ns|, i requires 0 <= i < |ns| => NssaiUse(kind, NssaiTriple(KeyOf(ns[i]), ns[i].dnnListId)))
  }

  function SetUses(s: PlmnIdSet): seq<NssaiUse> {
    Uses(DEFAULT_KEY, s.nssai.defaultSingleNssais) + Uses(SINGLE_KEY, s.nssai.singleNssais)
  }

  predicate KeyUsed(us: seq<NssaiUse>, key: NssaiKey) {
    exists i :: 0 <= i < |us| && us[i].triple.key == key
  }

  // An S-NSSAI repeats when its key was used earlier in the PLMN set; it is tolerated when the
  // stored list of its own kind holds the same triple.
  predicate NssaiFlagged(us: seq<NssaiUse>, i: nat, stored: map<(string, string), seq<NssaiTriple>>, plmn: string)
    requires i < |us|
  {
    KeyUsed(us[..i], us[i].triple.key) && us[i].triple !in Lookup(stored, plmn, us[i].kind)
  }

  function NssaiUpdateErrors(us: seq<NssaiUse>, stored: map<(string, string), seq<NssaiTriple>>, plmn: string, e: Error): (es: seq<Error>)
    ensures forall x :: x in es ==> x == e
  {
    if us == [] then [] else
      var n := |us| - 1;
      NssaiUpdateErrors(us[..n], stored, plmn, e) + (if NssaiFlagged(us, n, stored, plmn) then [e] else [])
  }

  lemma NssaiUpdateErrorsOfNone(stored: map<(string, string), seq<NssaiTriple>>, plmn: string, e: Error)
    ensures NssaiUpdateErrors([], stored, plmn, e) == []
  {
  }

  lemma NssaiUpdateErrorsSnoc(us: seq<NssaiUse>, u: NssaiUse, stored: map<(string, string), seq<NssaiTriple>>, plmn: string, e: Error)
    ensures NssaiUpdateErrors(us + [u], stored, plmn, e)
         == NssaiUpdateErrors(us, stored, plmn, e)
            + (if KeyUsed(us, u.triple.key) && u.triple !in Lookup(stored, plmn, u.kind) then [e] else [])
    ensures forall k :: KeyUsed(us + [u], k) <==> KeyUsed(us, k) || k == u.triple.key
  {
    assert (us + [u])[..|us|] == us;
    assert (us + [u])[|us|] == u;
    assert forall i :: 0 <= i < |us| ==> (us + [u])[i] == us[i];
  }

  lemma UsedKeysAreLower(d: seq<NssaiDetails>, g: seq<NssaiDetails>, us: seq<NssaiUse>)
    requires us == Uses(DEFAULT_KEY, d) + Uses(SINGLE_KEY, g)
    ensures forall k :: KeyUsed(us, k) ==> ToLower(k.sd) == k.sd
  {
    KeysAreLower(d);
    KeysAreLower(g);
    forall i | 0 <= i < |us|
      ensures ToLower(us[i].triple.key.sd) == us[i].triple.key.sd
    {
      if i < |d| {
        assert us[i].triple.key == NssaiKeys(d)[i];
      } else {
        assert us[i].triple.key == NssaiKeys(g)[i - |d|];
      }
    }
  }

  function ListUpdateErrorsOf(plmn: string, dnns: map<(string, string), seq<string>>, path: string): DnnList -> seq<Error> {
    (l: DnnList) => DnnUpdateErrors(LowerDnns(l.dnnDataList), Lookup(dnns, plmn, l.dnnListId), DnnError(path))
  }

  function SetUpdateErrors(s: PlmnIdSet, dnns: map<(string, string), seq<string>>,
                           nssais: map<(string, string), seq<NssaiTriple>>, path: string): seq<Error> {
    NssaiUpdateErrors(SetUses(s), nssais, s.plmnIdSetIdentifier, NssaiError(path))
    + FlatMap(ListUpdateErrorsOf(s.plmnIdSetIdentifier, dnns, path), s.dnnLists)
  }

  function SetUpdateErrorsOf(dnns: map<(string, string), seq<string>>,
                             nssais: map<(string, string), seq<NssaiTriple>>, path: string): PlmnIdSet -> seq<Error> {
    (s: PlmnIdSet) => SetUpdateErrors(s, dnns, nssais, path)
  }

  function ListKeyOf(plmn: string): DnnList -> seq<Entry<string>> {
    (l: DnnList) => [Entry(plmn, l.dnnListId)]
  }

  function SetKeysOf(): PlmnIdSet -> seq<Entry<string>> {
    (s: PlmnIdSet) => FlatMap(ListKeyOf(s.plmnIdSetIdentifier), s.dnnLists)
  }

  // The (plmnIdSetIdentifier, dnnListId) pairs of a value, in document order.
  function ListKeys(sets: seq<PlmnIdSet>): seq<Entry<string>> {
    FlatMap(SetKeysOf(), sets)
  }

  // The scan for a stored pair: from the first entry of its PLMN to the end of the multimap.
  predicate ScanFinds(onChange: seq<Entry<string>>, k: Entry<string>) {
    SuffixHas(onChange, Find(onChange, k.key), k.value)
  }

  function DeletionErrorsOf(onChange: seq<Entry<string>>, path: string): Entry<string> -> seq<Error> {
    (k: Entry<string>) => if ScanFinds(onChange, k) then [] else [Violation(path, DeletedDnnList(k.value, k.key))]
  }

  function DeletionErrors(sets: seq<PlmnIdSet>, stored: seq<PlmnIdSet>, path: string): seq<Error> {
    FlatMap(DeletionErrorsOf(FromEntries(ListKeys(sets)), path), ListKeys(stored))
  }

  function RepeatedOnUpdate(sets: seq<PlmnIdSet>, stored: seq<PlmnIdSet>, path: string): seq<Error> {
    FlatMap(SetUpdateErrorsOf(StoredDnns(stored), StoredNssais(stored), path), sets)
  }

  function UpdateErrors(sets: seq<PlmnIdSet>, stored: seq<PlmnIdSet>, path: string): seq<Error> {
    RepeatedOnUpdate(sets, stored, path) + DeletionErrors(sets, stored, path)
  }

  lemma UpdateErrorsAreViolations(sets: seq<PlmnIdSet>, stored: seq<PlmnIdSet>, path: string)
    ensures Violations(UpdateErrors(sets, stored, path), path)
  {
    var dnns, nssais := StoredDnns(stored), StoredNssais(stored);
    var f := SetUpdateErrorsOf(dnns, nssais, path);
    var g := DeletionErrorsOf(FromEntries(ListKeys(sets)), path);
    forall e | e in UpdateErrors(sets, stored, path)
      ensures e.message == ConstraintViolation && e.resourcePath == path
    {
      FlatMapIn(g, ListKeys(stored), e);
      FlatMapIn(f, sets, e);
      if e in FlatMap(f, sets) {
        var i :| 0 <= i < |sets| && e in f(sets[i]);
        FlatMapIn(ListUpdateErrorsOf(sets[i].plmnIdSetIdentifier, dnns, path), sets[i].dnnLists, e);
      }
    }
  }

  // ---- DNN repetitions are counted exactly ----

  function Max(a: int, b: int): int {
    if a < b then b else a
  }

  // How many occurrences of a DNN are too many: n in the change, m in the stored list.
  function Excess(n: nat, m: nat): nat {
    Max(0, n - Max(1, m))
  }

  // The errors raised at the places of DNN x.
  function DnnErrorsFor(keys: seq<string>, stored: seq<string>, x: string): nat {
    if keys == [] then 0 else
      var n := |keys| - 1;
      DnnErrorsFor(keys[..n], stored, x) + (if keys[n] == x && DnnFlagged(keys, n, stored) then 1 else 0)
  }

  // DNN x, n times in the change and m times in the stored list, gives max(0, n - max(1, m)) errors.
  lemma {:induction false} DnnErrorsExact(keys: seq<string>, stored: seq<string>, x: string)
    ensures DnnErrorsFor(keys, stored, x) == Excess(multiset(keys)[x], multiset(stored)[x])
  {
    if keys != [] {
      var n := |keys| - 1;
      DnnErrorsExact(keys[..n], stored, x);
      assert keys == keys[..n] + [keys[n]];
    }
  }

  // The sum of the excesses of the DNNs xs.
  function TotalExcess(xs: seq<string>, keys: seq<string>, stored: seq<string>): nat {
    if xs == [] then 0 else
      var n := |xs| - 1;
      TotalExcess(xs[..n], keys, stored) + Excess(multiset(keys)[xs[n]], multiset(stored)[xs[n]])
  }

  function ErrorsForAll(xs: seq<string>, keys: seq<string>, stored: seq<string>): nat {
    if xs == [] then 0 else
      var n := |xs| - 1;
      ErrorsForAll(xs[..n], keys, stored) + DnnErrorsFor(keys, stored, xs[n])
  }

  lemma {:induction false} ErrorsForAllStep(xs: seq<string>, keys: seq<string>, stored: seq<string>)
    requires keys != [] && Distinct(xs)
    ensures ErrorsForAll(xs, keys, stored)
         == ErrorsForAll(xs, keys[..|keys| - 1], stored)
            + (if keys[|keys| - 1] in xs && DnnFlagged(keys, |keys| - 1, stored) then 1 else 0)
  {
    if xs != [] {
      var n := |xs| - 1;
      ErrorsForAllStep(xs[..n], keys, stored);
      assert xs == xs[..n] + [xs[n]];
      DistinctSnoc(xs[..n], xs[n]);
    }
  }

  lemma {:induction false} NoErrorsForNone(xs: seq<string>, stored: seq<string>)
    ensures ErrorsForAll(xs, [], stored) == 0
  {
    if xs != [] {
      NoErrorsForNone(xs[..|xs| - 1], stored);
    }
  }

  lemma {:induction false} ErrorsSplitByDnn(xs: seq<string>, keys: seq<string>, stored: seq<string>, e: Error)
    requires Distinct(xs) && forall k :: k in keys ==> k in xs
    ensures |DnnUpdateErrors(keys, stored, e)| == ErrorsForAll(xs, keys, stored)
  {
    if keys == [] {
      NoErrorsForNone(xs, stored);
    } else {
      var n := |keys| - 1;
      assert keys[n] in keys;
      ErrorsSplitByDnn(xs, keys[..n], stored, e);
      ErrorsForAllStep(xs, keys, stored);
    }
  }

  lemma {:induction false} ErrorsForAllIsExcess(xs: seq<string>, keys: seq<string>, stored: seq<string>)
    ensures ErrorsForAll(xs, keys, stored) == TotalExcess(xs, keys, stored)
  {
    if xs != [] {
      ErrorsForAllIsExcess(xs[..|xs| - 1], keys, stored);
      DnnErrorsExact(keys, stored, xs[|xs| - 1]);
    }
  }

  // The errors of a list are the excesses of its DNNs, summed over any enumeration of them.
  lemma DnnUpdateErrorsCount(xs: seq<string>, keys: seq<string>, stored: seq<string>, e: Error)
    requires Distinct(xs) && forall k :: k in keys ==> k in xs
    ensures |DnnUpdateErrors(keys, stored, e)| == TotalExcess(xs, keys, stored)
  {
    ErrorsSplitByDnn(xs, keys, stored, e);
    ErrorsForAllIsExcess(xs, keys, stored);
  }

  predicate WithinStored(keys: seq<string>, stored: seq<string>) {
    forall x :: x in keys ==> multiset(keys)[x] <= Max(1, multiset(stored)[x])
  }

  lemma FlaggedInPrefix(keys: seq<string>, n: nat, stored: seq<string>)
    requires n <= |keys|
    ensures forall i :: 0 <= i < n ==> (DnnFlagged(keys[..n], i, stored) <==> DnnFlagged(keys, i, stored))
  {
    forall i | 0 <= i < n
      ensures DnnFlagged(keys[..n], i, stored) <==> DnnFlagged(keys, i, stored)
    {
      assert keys[..n][..i] == keys[..i];
    }
  }

  predicate NothingFlagged(keys: seq<string>, stored: seq<string>) {
    forall i :: 0 <= i < |keys| ==> !DnnFlagged(keys, i, stored)
  }

  lemma {:induction false} NothingFlaggedNoErrors(keys: seq<string>, stored: seq<string>, e: Error)
    ensures DnnUpdateErrors(keys, stored, e) == [] <==> NothingFlagged(keys, stored)
  {
    hide DnnFlagged;
    if keys != [] {
      var n := |keys| - 1;
      NothingFlaggedNoErrors(keys[..n], stored, e);
      FlaggedInPrefix(keys, n, stored);
      assert NothingFlagged(keys, stored) <==> NothingFlagged(keys[..n], stored) && !DnnFlagged(keys, n, stored);
    }
  }

  lemma {:induction false} ErrorsForFlagged(keys: seq<string>, stored: seq<string>, x: string)
    ensures DnnErrorsFor(keys, stored, x) == 0 <==> forall i :: 0 <= i < |keys| && keys[i] == x ==> !DnnFlagged(keys, i, stored)
  {
    if keys != [] {
      var n := |keys| - 1;
      ErrorsForFlagged(keys[..n], stored, x);
      FlaggedInPrefix(keys, n, stored);
    }
  }

  // A list is accepted exactly when no DNN is more frequent than in the stored list, or than once.
  lemma DnnUpdateNone(keys: seq<string>, stored: seq<string>, e: Error)
    ensures DnnUpdateErrors(keys, stored, e) == [] <==> WithinStored(keys, stored)
  {
    NothingFlaggedNoErrors(keys, stored, e);
    forall x | x in keys
      ensures multiset(keys)[x] <= Max(1, multiset(stored)[x])
         <==> forall i :: 0 <= i < |keys| && keys[i] == x ==> !DnnFlagged(keys, i, stored)
    {
      DnnErrorsExact(keys, stored, x);
      ErrorsForFlagged(keys, stored, x);
    }
  }

  // ---- S-NSSAI repetitions ----

  lemma NssaiFlaggedInPrefix(us: seq<NssaiUse>, n: nat, stored: map<(string, string), seq<NssaiTriple>>, plmn: string)
    requires n <= |us|
    ensures forall i :: 0 <= i < n ==> (NssaiFlagged(us[..n], i, stored, plmn) <==> NssaiFlagged(us, i, stored, plmn))
  {
    forall i | 0 <= i < n
      ensures NssaiFlagged(us[..n], i, stored, plmn) <==> NssaiFlagged(us, i, stored, plmn)
    {
      assert us[..n][..i] == us[..i];
    }
  }

  lemma {:induction false} NssaiUpdateNone(us: seq<NssaiUse>, stored: map<(string, string), seq<NssaiTriple>>, plmn: string, e: Error)
    ensures NssaiUpdateErrors(us, stored, plmn, e) == [] <==> forall i :: 0 <= i < |us| ==> !NssaiFlagged(us, i, stored, plmn)
  {
    hide NssaiFlagged;
    if us != [] {
      var n := |us| - 1;
      NssaiUpdateNone(us[..n], stored, plmn, e);
      NssaiFlaggedInPrefix(us, n, stored, plmn);
    }
  }

  // ---- S-NSSAI repetitions, had they been counted ----

  // How often the stored list of its kind holds the triple of a use.
  function StoredTimes(u: NssaiUse, stored: map<(string, string), seq<NssaiTriple>>, plmn: string): nat {
    multiset(Lookup(stored, plmn, u.kind))[u.triple]
  }

  // What the rule for DNNs would report: a repetition that the stored list does not hold more
  // often than the places before it.
  predicate NssaiExceeds(us: seq<NssaiUse>, i: nat, stored: map<(string, string), seq<NssaiTriple>>, plmn: string)
    requires i < |us|
  {
    KeyUsed(us[..i], us[i].triple.key) && !(StoredTimes(us[i], stored, plmn) > multiset(us[..i])[us[i]])
  }

  lemma {:induction false} CountReached(us: seq<NssaiUse>, u: NssaiUse, m: nat)
    requires m < multiset(us)[u]
    ensures exists i :: 0 <= i < |us| && us[i] == u && multiset(us[..i])[u] == m
  {
    var n := |us| - 1;
    assert us == us[..n] + [us[n]];
    if m < multiset(us[..n])[u] {
      CountReached(us[..n], u, m);
      var i :| 0 <= i < n && us[..n][i] == u && multiset(us[..n][..i])[u] == m;
      assert us[..n][..i] == us[..i];
    }
  }

  lemma CountIn(us: seq<NssaiUse>, i: nat)
    requires i < |us|
    ensures multiset(us[..i])[us[i]] < multiset(us)[us[i]]
    ensures multiset(us[..i])[us[i]] >= 1 ==> KeyUsed(us[..i], us[i].triple.key)
  {
    assert us == us[..i] + [us[i]] + us[i + 1..];
    if multiset(us[..i])[us[i]] >= 1 {
      assert us[i] in us[..i];
      var j :| 0 <= j < i && us[..i][j] == us[i];
    }
  }

  // A stored triple sent more often than it is stored: one of its places is not reported.
  lemma SearchMissesExcess(us: seq<NssaiUse>, u: NssaiUse, stored: map<(string, string), seq<NssaiTriple>>, plmn: string)
    requires 1 <= StoredTimes(u, stored, plmn) < multiset(us)[u]
    ensures exists i :: 0 <= i < |us| && NssaiExceeds(us, i, stored, plmn) && !NssaiFlagged(us, i, stored, plmn)
  {
    CountReached(us, u, StoredTimes(u, stored, plmn));
    var i :| 0 <= i < |us| && us[i] == u && multiset(us[..i])[u] == StoredTimes(u, stored, plmn);
    CountIn(us, i);
    assert NssaiExceeds(us, i, stored, plmn);
  }

  // The search reports every repetition that counting would report, and no other, exactly when no
  // stored triple is sent more often than it is stored.
  lemma NssaiCountEnforced(us: seq<NssaiUse>, stored: map<(string, string), seq<NssaiTriple>>, plmn: string)
    ensures (forall i :: 0 <= i < |us| ==> (NssaiFlagged(us, i, stored, plmn) <==> NssaiExceeds(us, i, stored, plmn)))
       <==> (forall u :: u in us && StoredTimes(u, stored, plmn) >= 1 ==> multiset(us)[u] <= StoredTimes(u, stored, plmn))
  {
    hide KeyUsed;
    if forall i :: 0 <= i < |us| ==> (NssaiFlagged(us, i, stored, plmn) <==> NssaiExceeds(us, i, stored, plmn)) {
      forall u | u in us && StoredTimes(u, stored, plmn) >= 1
        ensures multiset(us)[u] <= StoredTimes(u, stored, plmn)
      {
        if multiset(us)[u] > StoredTimes(u, stored, plmn) {
          SearchMissesExcess(us, u, stored, plmn);
        }
      }
    }
    if forall u :: u in us && StoredTimes(u, stored, plmn) >= 1 ==> multiset(us)[u] <= StoredTimes(u, stored, plmn) {
      forall i | 0 <= i < |us|
        ensures NssaiFlagged(us, i, stored, plmn) <==> NssaiExceeds(us, i, stored, plmn)
      {
        CountIn(us, i);
        assert us[i] in us;
      }
    }
  }

  // ---- deletion of dnnListIds ----

  predicate IsKey(keys: seq<Entry<string>>, plmn: string) {
    exists k :: k in keys && k.key == plmn
  }

  predicate StandsAtOrAbove(keys: seq<Entry<string>>, plmn: string, id: string) {
    exists k :: k in keys && !Less(k.key, plmn) && k.value == id
  }

  // A stored (plmn, id) is reported exactly when plmn is no key of the change or id stands under
  // no PLMN of the change at or above plmn.
  lemma DeletionReported(sets: seq<PlmnIdSet>, k: Entry<string>)
    ensures ScanFinds(FromEntries(ListKeys(sets)), k)
       <==> IsKey(ListKeys(sets), k.key) && StandsAtOrAbove(ListKeys(sets), k.key, k.value)
  {
    var keys := ListKeys(sets);
    var m := FromEntries(keys);
    FromEntriesIsStableSort(keys);
    FromEntriesMembers(keys);
    SuffixSearchIsAbove(m, k.key, k.value);
    assert (exists e :: e in m && e.key == k.key) <==> IsKey(keys, k.key);
    assert (exists e :: e in m && !Less(e.key, k.key) && e.value == k.value) <==> StandsAtOrAbove(keys, k.key, k.value);
  }

  // No false alarm: a pair that is kept is never reported.
  lemma KeptIsNotReported(sets: seq<PlmnIdSet>, k: Entry<string>)
    requires k in ListKeys(sets)
    ensures ScanFinds(FromEntries(ListKeys(sets)), k)
  {
    LessIrreflexive(k.key);
    DeletionReported(sets, k);
  }

  // For a PLMN the scan enforces the rule of its comment, every deletion and only deletions, for
  // every id, exactly when the PLMN is no key of the change or every id that the change lists
  // under a greater PLMN is listed under this one too.
  lemma DeletionRuleEnforced(sets: seq<PlmnIdSet>, plmn: string)
    ensures (forall id :: ScanFinds(FromEntries(ListKeys(sets)), Entry(plmn, id)) <==> Entry(plmn, id) in ListKeys(sets))
       <==> (IsKey(ListKeys(sets), plmn) ==>
               forall k :: k in ListKeys(sets) && Less(plmn, k.key) ==> Entry(plmn, k.value) in ListKeys(sets))
  {
    var keys := ListKeys(sets);
    var m := FromEntries(keys);
    forall id
      ensures ScanFinds(m, Entry(plmn, id)) <==> IsKey(keys, plmn) && StandsAtOrAbove(keys, plmn, id)
    {
      DeletionReported(sets, Entry(plmn, id));
    }
    if IsKey(keys, plmn) && forall id :: ScanFinds(m, Entry(plmn, id)) <==> Entry(plmn, id) in keys {
      forall k | k in keys && Less(plmn, k.key)
        ensures Entry(plmn, k.value) in keys
      {
        LessAsymmetric(plmn, k.key);
        assert StandsAtOrAbove(keys, plmn, k.value);
      }
    }
    if IsKey(keys, plmn) ==> forall k :: k in keys && Less(plmn, k.key) ==> Entry(plmn, k.value) in keys {
      forall id
        ensures ScanFinds(m, Entry(plmn, id)) <==> Entry(plmn, id) in keys
      {
        if Entry(plmn, id) in keys {
          KeptIsNotReported(sets, Entry(plmn, id));
        } else if ScanFinds(m, Entry(plmn, id)) {
          var k :| k in keys && !Less(k.key, plmn) && k.value == id;
          LessTotal(k.key, plmn);
          assert false;
        }
      }
    }
  }

  // An update that meets the format rules loses no id stored under "Default": no legal
  // identifier sorts above it.
  lemma DefaultIdsAreNeverLost(sets: seq<PlmnIdSet>, id: string)
    requires forall s :: s in sets ==> s.plmnIdSetIdentifier == "" || IsPlmnIdSetIdentifier(s.plmnIdSetIdentifier)
    ensures ScanFinds(FromEntries(ListKeys(sets)), Entry(DEFAULT_VALUE, id)) <==> Entry(DEFAULT_VALUE, id) in ListKeys(sets)
  {
    forall k | k in ListKeys(sets)
      ensures !Less(DEFAULT_VALUE, k.key)
    {
      FlatMapIn(SetKeysOf(), sets, k);
      var i :| 0 <= i < |sets| && k in SetKeysOf()(sets[i]);
      FlatMapIn(ListKeyOf(sets[i].plmnIdSetIdentifier), sets[i].dnnLists, k);
      LegalPlmnNotAboveDefault(k.key);
    }
    DeletionRuleEnforced(sets, DEFAULT_VALUE);
  }
}
