// What the update rules amount to: when they accept, what they tolerate, and how they relate to
// the rules of a creation.
module UpdateTheorems {
  import opened Sequences
  import opened Text
  import opened OrderedMaps
  import opened Types
  import opened SliceProfileRules
  import opened CreateRules
  import opened UpdateRules

  // ---- the exact condition of acceptance ----

  predicate NssaisOk(s: PlmnIdSet, stored: seq<PlmnIdSet>) {
    forall i :: 0 <= i < |SetUses(s)| ==> !NssaiFlagged(SetUses(s), i, StoredNssais(stored), s.plmnIdSetIdentifier)
  }

  predicate DnnsOk(s: PlmnIdSet, stored: seq<PlmnIdSet>) {
    forall l :: l in s.dnnLists ==>
      WithinStored(LowerDnns(l.dnnDataList), Lookup(StoredDnns(stored), s.plmnIdSetIdentifier, l.dnnListId))
  }

  predicate UpdateOk(sets: seq<PlmnIdSet>, stored: seq<PlmnIdSet>) {
    && (forall s :: s in sets ==> NssaisOk(s, stored) && DnnsOk(s, stored))
    && (forall k :: k in ListKeys(stored) ==>
          IsKey(ListKeys(sets), k.key) && StandsAtOrAbove(ListKeys(sets), k.key, k.value))
  }

  lemma SetUpdateNone(s: PlmnIdSet, stored: seq<PlmnIdSet>, path: string)
    ensures SetUpdateErrors(s, StoredDnns(stored), StoredNssais(stored), path) == []
       <==> NssaisOk(s, stored) && DnnsOk(s, stored)
  {
    var dnns := StoredDnns(stored);
    NssaiUpdateNone(SetUses(s), StoredNssais(stored), s.plmnIdSetIdentifier, NssaiError(path));
    FlatMapEmpty(ListUpdateErrorsOf(s.plmnIdSetIdentifier, dnns, path), s.dnnLists);
    forall l
      ensures ListUpdateErrorsOf(s.plmnIdSetIdentifier, dnns, path)(l) == []
         <==> WithinStored(LowerDnns(l.dnnDataList), Lookup(dnns, s.plmnIdSetIdentifier, l.dnnListId))
    {
      DnnUpdateNone(LowerDnns(l.dnnDataList), Lookup(dnns, s.plmnIdSetIdentifier, l.dnnListId), DnnError(path));
    }
  }

  lemma RepeatsNone(sets: seq<PlmnIdSet>, stored: seq<PlmnIdSet>, path: string)
    ensures RepeatedOnUpdate(sets, stored, path) == [] <==> forall s :: s in sets ==> NssaisOk(s, stored) && DnnsOk(s, stored)
  {
    var f := SetUpdateErrorsOf(StoredDnns(stored), StoredNssais(stored), path);
    FlatMapEmpty(f, sets);
    forall s
      ensures f(s) == [] <==> NssaisOk(s, stored) && DnnsOk(s, stored)
    {
      SetUpdateNone(s, stored, path);
    }
  }

  lemma DeletionsNone(sets: seq<PlmnIdSet>, stored: seq<PlmnIdSet>, path: string)
    ensures DeletionErrors(sets, stored, path) == []
       <==> forall k :: k in ListKeys(stored) ==>
              IsKey(ListKeys(sets), k.key) && StandsAtOrAbove(ListKeys(sets), k.key, k.value)
  {
    var f := DeletionErrorsOf(FromEntries(ListKeys(sets)), path);
    var ks := ListKeys(stored);
    FlatMapEmpty(f, ks);
    forall k
      ensures f(k) == [] <==> IsKey(ListKeys(sets), k.key) && StandsAtOrAbove(ListKeys(sets), k.key, k.value)
    {
      DeletionReported(sets, k);
    }
  }

  // An update is accepted exactly when every repeated S-NSSAI is a stored triple of its kind, no
  // DNN exceeds max(1, stored), and every stored pair is found by the scan.
  lemma UpdateRulesAccept(sets: seq<PlmnIdSet>, stored: seq<PlmnIdSet>, path: string)
    ensures UpdateErrors(sets, stored, path) == [] <==> UpdateOk(sets, stored)
  {
    RepeatsNone(sets, stored, path);
    DeletionsNone(sets, stored, path);
  }

  // An accepted update keeps every id stored under the PLMN set "Default", although it may lose
  // ids stored under other PLMN sets.
  lemma AcceptedUpdateKeepsDefaultIds(sets: seq<PlmnIdSet>, stored: seq<PlmnIdSet>, path: string)
    requires sets == [] || CommonErrors(sets, true, path) == []
    requires UpdateErrors(sets, stored, path) == []
    ensures forall id :: Entry(DEFAULT_VALUE, id) in ListKeys(stored) ==> Entry(DEFAULT_VALUE, id) in ListKeys(sets)
  {
    UpdateRulesAccept(sets, stored, path);
    CommonRulesAccept(sets, true, path);
    forall s | s in sets
      ensures s.plmnIdSetIdentifier == "" || IsPlmnIdSetIdentifier(s.plmnIdSetIdentifier)
    {
      assert PlmnIdSetOk(s, true);
    }
    forall id | Entry(DEFAULT_VALUE, id) in ListKeys(stored)
      ensures Entry(DEFAULT_VALUE, id) in ListKeys(sets)
    {
      DefaultIdsAreNeverLost(sets, id);
      DeletionReported(sets, Entry(DEFAULT_VALUE, id));
    }
  }

  // Whatever an accepted update loses, the change lists the same id under a greater PLMN.
  lemma LostIdsStandAbove(sets: seq<PlmnIdSet>, stored: seq<PlmnIdSet>, path: string, k: Entry<string>)
    requires UpdateErrors(sets, stored, path) == []
    requires k in ListKeys(stored) && k !in ListKeys(sets)
    ensures exists above :: above in ListKeys(sets) && Less(k.key, above.key) && above.value == k.value
  {
    hide UpdateErrors;
    UpdateRulesAccept(sets, stored, path);
    var above :| above in ListKeys(sets) && !Less(above.key, k.key) && above.value == k.value;
    LessTotal(above.key, k.key);
  }

  // ---- an update of an empty profile is a creation ----

  lemma {:induction false} DnnsAsOnCreate(keys: seq<string>, e: Error)
    ensures DnnUpdateErrors(keys, [], e) == RepeatErrors(keys, e)
  {
    if keys != [] {
      var n := |keys| - 1;
      DnnsAsOnCreate(keys[..n], e);
      assert keys[n] in keys[..n] <==> keys[n] in multiset(keys[..n]);
    }
  }

  function UseKeys(us: seq<NssaiUse>): (keys: seq<NssaiKey>)
    ensures |keys| == |us|
  {
    seq(|us|, i requires 0 <= i < |us| => us[i].triple.key)
  }

  lemma UsedKeys(us: seq<NssaiUse>, key: NssaiKey)
    ensures KeyUsed(us, key) <==> key in UseKeys(us)
  {
    if KeyUsed(us, key) {
      var i :| 0 <= i < |us| && us[i].triple.key == key;
      assert UseKeys(us)[i] == key;
    }
  }

  lemma {:induction false} NssaisAsOnCreate(us: seq<NssaiUse>, plmn: string, e: Error)
    ensures NssaiUpdateErrors(us, map[], plmn, e) == RepeatErrors(UseKeys(us), e)
  {
    if us != [] {
      var n := |us| - 1;
      NssaisAsOnCreate(us[..n], plmn, e);
      assert UseKeys(us)[..n] == UseKeys(us[..n]);
      UsedKeys(us[..n], us[n].triple.key);
    }
  }

  lemma SetAsOnCreate(s: PlmnIdSet, path: string)
    ensures SetUpdateErrors(s, map[], map[], path) == SetRepeatErrors(s, path)
  {
    hide NssaiUpdateErrors, DnnUpdateErrors, RepeatErrors, LowerDnns, FlatMap;
    NssaisAsOnCreate(SetUses(s), s.plmnIdSetIdentifier, NssaiError(path));
    assert UseKeys(SetUses(s)) == NssaiKeys(AllNssais(s));
    var f := ListUpdateErrorsOf(s.plmnIdSetIdentifier, map[], path);
    forall l | l in s.dnnLists
      ensures f(l) == DnnRepeatErrorsOf(path)(l)
    {
      DnnsAsOnCreate(LowerDnns(l.dnnDataList), DnnError(path));
    }
    FlatMapSame(f, DnnRepeatErrorsOf(path), s.dnnLists);
  }

  // Against a stored profile without PLMN sets the update rules append the error sequence of the
  // creation rules.
  lemma UpdateRefinesCreate(sets: seq<PlmnIdSet>, path: string)
    ensures UpdateErrors(sets, [], path) == CreateErrors(sets, path)
  {
    var f := SetUpdateErrorsOf(map[], map[], path);
    forall s | s in sets
      ensures f(s) == SetRepeatErrorsOf(path)(s)
    {
      SetAsOnCreate(s, path);
    }
    FlatMapSame(f, SetRepeatErrorsOf(path), sets);
    assert ListKeys([]) == [];
  }

  // ---- stored data with repetitions does not block an update ----

  function Plmns(sets: seq<PlmnIdSet>): (ps: seq<string>)
    ensures |ps| == |sets|
  {
    seq(|sets|, i requires 0 <= i < |sets| => sets[i].plmnIdSetIdentifier)
  }

  predicate WellKeyed(stored: seq<PlmnIdSet>) {
    Distinct(Plmns(stored)) && Distinct(ListKeys(stored))
  }

  predicate TriplesWithin(ns: seq<NssaiDetails>, stored: seq<NssaiDetails>) {
    forall t :: t in Triples(ns) ==> t in Triples(stored)
  }

  // The S-NSSAIs of s are pairwise distinct, or all are taken from the stored set of its PLMN.
  predicate NssaisKept(s: PlmnIdSet, stored: seq<PlmnIdSet>) {
    || Distinct(NssaiKeys(AllNssais(s)))
    || exists t :: t in stored && t.plmnIdSetIdentifier == s.plmnIdSetIdentifier
                   && TriplesWithin(s.nssai.defaultSingleNssais, t.nssai.defaultSingleNssais)
                   && TriplesWithin(s.nssai.singleNssais, t.nssai.singleNssais)
  }

  predicate ListWithin(l: DnnList, r: DnnList) {
    l.dnnListId == r.dnnListId && multiset(LowerDnns(l.dnnDataList)) <= multiset(LowerDnns(r.dnnDataList))
  }

  // The DNNs of l are pairwise distinct, or contained, with multiplicity, in the stored list of
  // its PLMN and id.
  predicate DnnsKept(plmn: string, l: DnnList, stored: seq<PlmnIdSet>) {
    || Distinct(LowerDnns(l.dnnDataList))
    || exists t, r :: t in stored && t.plmnIdSetIdentifier == plmn && r in t.dnnLists && ListWithin(l, r)
  }

  predicate KeepsStored(sets: seq<PlmnIdSet>, stored: seq<PlmnIdSet>) {
    && (forall k :: k in ListKeys(stored) ==> k in ListKeys(sets))
    && (forall s :: s in sets ==> NssaisKept(s, stored) && forall l :: l in s.dnnLists ==> DnnsKept(s.plmnIdSetIdentifier, l, stored))
  }

  function StoredDnnEntries(stored: seq<PlmnIdSet>): seq<Keyed<string>> {
    FlatMap(StoredSetOf(), stored)
  }

  predicate SameKeys(es: seq<Keyed<string>>, ks: seq<Entry<string>>) {
    |es| == |ks| && forall i :: 0 <= i < |es| ==> es[i].plmn == ks[i].key && es[i].name == ks[i].value
  }

  lemma {:induction false} SetEntriesMatchKeys(plmn: string, ls: seq<DnnList>)
    ensures SameKeys(FlatMap(StoredListsOf(plmn), ls), FlatMap(ListKeyOf(plmn), ls))
  {
    if ls != [] {
      SetEntriesMatchKeys(plmn, ls[..|ls| - 1]);
    }
  }

  lemma {:induction false} EntriesMatchKeys(stored: seq<PlmnIdSet>)
    ensures SameKeys(StoredDnnEntries(stored), ListKeys(stored))
  {
    if stored != [] {
      var n := |stored| - 1;
      EntriesMatchKeys(stored[..n]);
      SetEntriesMatchKeys(stored[n].plmnIdSetIdentifier, stored[n].dnnLists);
    }
  }

  // With distinct keys the looked-up DNNs are those of the one stored list of that key.
  lemma StoredListFound(stored: seq<PlmnIdSet>, t: PlmnIdSet, r: DnnList)
    requires WellKeyed(stored) && t in stored && r in t.dnnLists
    ensures Lookup(StoredDnns(stored), t.plmnIdSetIdentifier, r.dnnListId) == LowerDnns(r.dnnDataList)
  {
    var es := StoredDnnEntries(stored);
    var e := Keyed(t.plmnIdSetIdentifier, r.dnnListId, LowerDnns(r.dnnDataList));
    assert e in StoredSetOf()(t) by {
      FlatMapIn(StoredListsOf(t.plmnIdSetIdentifier), t.dnnLists, e);
    }
    FlatMapIn(StoredSetOf(), stored, e);
    var i :| 0 <= i < |es| && es[i] == e;
    EntriesMatchKeys(stored);
    LookupFindsFirst(es, t.plmnIdSetIdentifier, r.dnnListId);
    var ks := ListKeys(stored);
    forall j | 0 <= j < i
      ensures es[j].plmn != e.plmn || es[j].name != e.name
    {
      assert ks[j] != ks[i];
    }
    assert !HasKey(es[..i], e.plmn, e.name);
  }

  lemma StoredNssaisSnoc(stored: seq<PlmnIdSet>)
    requires stored != []
    ensures var n := |stored| - 1;
            StoredNssais(stored) == PutFirst(PutFirst(StoredNssais(stored[..n]), StoredNssaisOf()(stored[n])[0]),
                                             StoredNssaisOf()(stored[n])[1])
  {
    var n := |stored| - 1;
    var es := FlatMap(StoredNssaisOf(), stored[..n]);
    var pair := StoredNssaisOf()(stored[n]);
    assert es + pair == es + [pair[0]] + [pair[1]];
    FirstOfSnoc(es, pair[0]);
    FirstOfSnoc(es + [pair[0]], pair[1]);
  }

  lemma {:induction false} StoredNssaisKeys(stored: seq<PlmnIdSet>, plmn: string, kind: string)
    requires (plmn, kind) in StoredNssais(stored)
    ensures plmn in Plmns(stored)
  {
    if stored != [] {
      var n := |stored| - 1;
      StoredNssaisSnoc(stored);
      assert Plmns(stored) == Plmns(stored[..n]) + [stored[n].plmnIdSetIdentifier];
      if (plmn, kind) in StoredNssais(stored[..n]) {
        StoredNssaisKeys(stored[..n], plmn, kind);
      }
    }
  }

  // With distinct PLMN identifiers the looked-up triples are those of the one stored set.
  lemma {:induction false} StoredNssaisFound(stored: seq<PlmnIdSet>, t: PlmnIdSet)
    requires Distinct(Plmns(stored)) && t in stored
    ensures (t.plmnIdSetIdentifier, DEFAULT_KEY) in StoredNssais(stored)
    ensures (t.plmnIdSetIdentifier, SINGLE_KEY) in StoredNssais(stored)
    ensures Lookup(StoredNssais(stored), t.plmnIdSetIdentifier, DEFAULT_KEY) == Triples(t.nssai.defaultSingleNssais)
    ensures Lookup(StoredNssais(stored), t.plmnIdSetIdentifier, SINGLE_KEY) == Triples(t.nssai.singleNssais)
  {
    var n := |stored| - 1;
    StoredNssaisSnoc(stored);
    assert Plmns(stored) == Plmns(stored[..n]) + [stored[n].plmnIdSetIdentifier];
    DistinctSnoc(Plmns(stored[..n]), stored[n].plmnIdSetIdentifier);
    if t in stored[..n] {
      StoredNssaisFound(stored[..n], t);
    } else {
      assert t == stored[n];
      var p := t.plmnIdSetIdentifier;
      if (p, DEFAULT_KEY) in StoredNssais(stored[..n]) {
        StoredNssaisKeys(stored[..n], p, DEFAULT_KEY);
      }
      if (p, SINGLE_KEY) in StoredNssais(stored[..n]) {
        StoredNssaisKeys(stored[..n], p, SINGLE_KEY);
      }
    }
  }

  lemma KeptNssaisPass(s: PlmnIdSet, stored: seq<PlmnIdSet>)
    requires WellKeyed(stored) && NssaisKept(s, stored)
    ensures NssaisOk(s, stored)
  {
    var us := SetUses(s);
    forall i | 0 <= i < |us|
      ensures !NssaiFlagged(us, i, StoredNssais(stored), s.plmnIdSetIdentifier)
    {
      if Distinct(NssaiKeys(AllNssais(s))) {
        assert forall j :: 0 <= j < |us| ==> us[j].triple.key == NssaiKeys(AllNssais(s))[j];
      } else {
        var t :| t in stored && t.plmnIdSetIdentifier == s.plmnIdSetIdentifier
                 && TriplesWithin(s.nssai.defaultSingleNssais, t.nssai.defaultSingleNssais)
                 && TriplesWithin(s.nssai.singleNssais, t.nssai.singleNssais);
        StoredNssaisFound(stored, t);
        var n := |s.nssai.defaultSingleNssais|;
        if i < n {
          assert us[i].triple == Triples(s.nssai.defaultSingleNssais)[i];
        } else {
          assert us[i].triple == Triples(s.nssai.singleNssais)[i - n];
        }
      }
    }
  }

  lemma {:induction false} DistinctOnce(xs: seq<string>, x: string)
    requires Distinct(xs)
    ensures multiset(xs)[x] <= 1
  {
    if xs != [] {
      var n := |xs| - 1;
      assert xs == xs[..n] + [xs[n]];
      DistinctSnoc(xs[..n], xs[n]);
      DistinctOnce(xs[..n], x);
      assert xs[n] !in multiset(xs[..n]);
    }
  }

  lemma KeptDnnsPass(s: PlmnIdSet, stored: seq<PlmnIdSet>)
    requires WellKeyed(stored)
    requires forall l :: l in s.dnnLists ==> DnnsKept(s.plmnIdSetIdentifier, l, stored)
    ensures DnnsOk(s, stored)
  {
    forall l | l in s.dnnLists
      ensures WithinStored(LowerDnns(l.dnnDataList), Lookup(StoredDnns(stored), s.plmnIdSetIdentifier, l.dnnListId))
    {
      var keys := LowerDnns(l.dnnDataList);
      if Distinct(keys) {
        forall x | x in keys
          ensures multiset(keys)[x] <= 1
        {
          DistinctOnce(keys, x);
        }
      } else {
        var t, r :| t in stored && t.plmnIdSetIdentifier == s.plmnIdSetIdentifier && r in t.dnnLists && ListWithin(l, r);
        StoredListFound(stored, t, r);
      }
    }
  }

  // However many repetitions the stored profile holds, an update that keeps every stored list id
  // and takes its repetitions from the stored lists passes without an error.
  lemma DirtyStoredDataNeverBlocks(sets: seq<PlmnIdSet>, stored: seq<PlmnIdSet>, path: string)
    requires WellKeyed(stored) && KeepsStored(sets, stored)
    ensures UpdateErrors(sets, stored, path) == []
  {
    forall s | s in sets
      ensures NssaisOk(s, stored) && DnnsOk(s, stored)
    {
      KeptNssaisPass(s, stored);
      KeptDnnsPass(s, stored);
    }
    forall k | k in ListKeys(stored)
      ensures IsKey(ListKeys(sets), k.key) && StandsAtOrAbove(ListKeys(sets), k.key, k.value)
    {
      KeptIsNotReported(sets, k);
      DeletionReported(sets, k);
    }
    UpdateRulesAccept(sets, stored, path);
  }

  // In particular the stored profile itself, sent unchanged, passes the update-specific rules.
  lemma UnchangedUpdatePasses(stored: seq<PlmnIdSet>, path: string)
    requires WellKeyed(stored)
    ensures UpdateErrors(stored, stored, path) == []
  {
    forall s, l | s in stored && l in s.dnnLists
      ensures DnnsKept(s.plmnIdSetIdentifier, l, stored)
    {
      assert ListWithin(l, l);
    }
    DirtyStoredDataNeverBlocks(stored, stored, path);
  }
}
