// The repetition rules in terms of the fields of the entities: which places of a change are
// reported, on creation and on update, and when none is.
module Repetitions {
  import opened JsonModel
  import opened Sequences
  import opened Text
  import opened OrderedMaps
  import opened Types
  import opened CreateRules
  import opened UpdateRules
  import opened UpdateTheorems

  // How many of the first n places have the property.
  function Places(n: nat, p: nat -> bool): nat {
    if n == 0 then 0 else Places(n - 1, p) + if p(n - 1) then 1 else 0
  }

  lemma {:induction false} PlacesSame(n: nat, p: nat -> bool, q: nat -> bool)
    requires forall i :: 0 <= i < n ==> p(i) == q(i)
    ensures Places(n, p) == Places(n, q)
  {
    if n > 0 {
      PlacesSame(n - 1, p, q);
    }
  }

  lemma {:induction false} NoPlaces(n: nat, p: nat -> bool)
    ensures Places(n, p) == 0 <==> forall i :: 0 <= i < n ==> !p(i)
  {
    if n > 0 {
      NoPlaces(n - 1, p);
    }
  }

  // ---- S-NSSAIs ----

  predicate SameNssai(m: NssaiDetails, n: NssaiDetails) {
    m.nssai.sst == n.nssai.sst && ToLower(m.nssai.sd) == ToLower(n.nssai.sd)
  }

  // An earlier place holds the same S-NSSAI.
  predicate NssaiSeen(ns: seq<NssaiDetails>, i: nat) {
    i < |ns| && exists j :: 0 <= j < i && SameNssai(ns[j], ns[i])
  }

  function NssaiSeenIn(ns: seq<NssaiDetails>): nat -> bool {
    (i: nat) => NssaiSeen(ns, i)
  }

  lemma KeySeen(ns: seq<NssaiDetails>, i: nat)
    requires i < |ns|
    ensures NssaiKeys(ns)[i] in NssaiKeys(ns)[..i] <==> NssaiSeen(ns, i)
  {
    var keys := NssaiKeys(ns);
    assert forall j :: 0 <= j < |ns| ==> (keys[j] == keys[i] <==> SameNssai(ns[j], ns[i]));
    assert forall j :: 0 <= j < i ==> keys[..i][j] == keys[j];
  }

  lemma {:induction false} NssaiRepeatsCounted(ns: seq<NssaiDetails>, n: nat, e: Error)
    requires n <= |ns|
    ensures |RepeatErrors(NssaiKeys(ns)[..n], e)| == Places(n, NssaiSeenIn(ns))
  {
    if n > 0 {
      NssaiRepeatsCounted(ns, n - 1, e);
      var keys := NssaiKeys(ns);
      assert keys[..n] == keys[..n - 1] + [keys[n - 1]];
      RepeatErrorsSnoc(keys[..n - 1], keys[n - 1], e);
      KeySeen(ns, n - 1);
    }
  }

  // ---- DNNs ----

  predicate SameDnn(d: DnnData, e: DnnData) {
    d.dnn != "" && e.dnn != "" && ToLower(d.dnn) == ToLower(e.dnn)
  }

  // Place i holds the DNN x, in any case.
  predicate IsDnn(ds: seq<DnnData>, i: nat, x: string) {
    i < |ds| && ds[i].dnn != "" && ToLower(ds[i].dnn) == x
  }

  function IsDnnIn(ds: seq<DnnData>, x: string): nat -> bool {
    (i: nat) => IsDnn(ds, i, x)
  }

  // How many of the first n places hold the DNN x.
  function TimesIn(ds: seq<DnnData>, n: nat, x: string): nat {
    Places(n, IsDnnIn(ds, x))
  }

  function Times(ds: seq<DnnData>, x: string): nat {
    TimesIn(ds, |ds|, x)
  }

  lemma LowerDnnsSnoc(ds: seq<DnnData>, n: nat)
    requires 0 < n <= |ds|
    ensures LowerDnns(ds[..n]) == LowerDnns(ds[..n - 1]) + if ds[n - 1].dnn == "" then [] else [ToLower(ds[n - 1].dnn)]
  {
    FlatMapSnoc(LowerDnnOf(), ds, n - 1);
  }

  lemma {:induction false} DnnsCounted(ds: seq<DnnData>, n: nat, x: string)
    requires n <= |ds|
    ensures multiset(LowerDnns(ds[..n]))[x] == TimesIn(ds, n, x)
  {
    if n > 0 {
      DnnsCounted(ds, n - 1, x);
      LowerDnnsSnoc(ds, n);
    }
  }

  lemma AllDnnsCounted(ds: seq<DnnData>, x: string)
    ensures multiset(LowerDnns(ds))[x] == Times(ds, x)
  {
    assert ds[..|ds|] == ds;
    DnnsCounted(ds, |ds|, x);
  }

  // An earlier place of the list holds the same DNN.
  predicate DnnSeen(ds: seq<DnnData>, i: nat) {
    i < |ds| && exists j :: 0 <= j < i && SameDnn(ds[j], ds[i])
  }

  // On update: the DNN stands earlier in the list, at least as often as in the stored list.
  predicate DnnReported(ds: seq<DnnData>, stored: seq<DnnData>, i: nat) {
    && i < |ds| && ds[i].dnn != ""
    && var x := ToLower(ds[i].dnn);
    TimesIn(ds, i, x) >= 1 && TimesIn(ds, i, x) >= Times(stored, x)
  }

  function ReportedOfIn(ds: seq<DnnData>, stored: seq<DnnData>, x: string): nat -> bool {
    (i: nat) => IsDnn(ds, i, x) && DnnReported(ds, stored, i)
  }

  function DnnSeenIn(ds: seq<DnnData>): nat -> bool {
    (i: nat) => DnnSeen(ds, i)
  }

  function DnnReportedIn(ds: seq<DnnData>, stored: seq<DnnData>): nat -> bool {
    (i: nat) => DnnReported(ds, stored, i)
  }

  lemma SeenIsCounted(ds: seq<DnnData>, i: nat)
    requires i < |ds| && ds[i].dnn != ""
    ensures DnnSeen(ds, i) <==> TimesIn(ds, i, ToLower(ds[i].dnn)) >= 1
  {
    var x := ToLower(ds[i].dnn);
    NoPlaces(i, IsDnnIn(ds, x));
    assert forall j :: 0 <= j < i ==> (IsDnnIn(ds, x)(j) <==> SameDnn(ds[j], ds[i]));
  }

  lemma NoLowerDnns(ds: seq<DnnData>, stored: seq<string>, e: Error)
    ensures RepeatErrors(LowerDnns(ds[..0]), e) == [] && DnnUpdateErrors(LowerDnns(ds[..0]), stored, e) == []
  {
  }

  lemma {:induction false} DnnRepeatsCounted(ds: seq<DnnData>, n: nat, e: Error)
    requires n <= |ds|
    ensures |RepeatErrors(LowerDnns(ds[..n]), e)| == Places(n, DnnSeenIn(ds))
  {
    hide LowerDnns, RepeatErrors, ToLower, TimesIn;
    if n == 0 {
      NoLowerDnns(ds, [], e);
    } else {
      DnnRepeatsCounted(ds, n - 1, e);
      LowerDnnsSnoc(ds, n);
      assert LowerDnns(ds[..n - 1]) + [] == LowerDnns(ds[..n - 1]);
      if ds[n - 1].dnn != "" {
        var x := ToLower(ds[n - 1].dnn);
        RepeatErrorsSnoc(LowerDnns(ds[..n - 1]), x, e);
        DnnsCounted(ds, n - 1, x);
        SeenIsCounted(ds, n - 1);
        assert x in LowerDnns(ds[..n - 1]) <==> multiset(LowerDnns(ds[..n - 1]))[x] >= 1;
      }
    }
  }

  lemma {:induction false} DnnUpdateCounted(ds: seq<DnnData>, stored: seq<DnnData>, n: nat, e: Error)
    requires n <= |ds|
    ensures |DnnUpdateErrors(LowerDnns(ds[..n]), LowerDnns(stored), e)| == Places(n, DnnReportedIn(ds, stored))
  {
    hide LowerDnns, DnnUpdateErrors, ToLower, TimesIn;
    if n == 0 {
      NoLowerDnns(ds, LowerDnns(stored), e);
    } else {
      DnnUpdateCounted(ds, stored, n - 1, e);
      LowerDnnsSnoc(ds, n);
      assert LowerDnns(ds[..n - 1]) + [] == LowerDnns(ds[..n - 1]);
      if ds[n - 1].dnn != "" {
        var x := ToLower(ds[n - 1].dnn);
        DnnUpdateErrorsSnoc(LowerDnns(ds[..n - 1]), x, LowerDnns(stored), e);
        DnnsCounted(ds, n - 1, x);
        AllDnnsCounted(stored, x);
      }
    }
  }

  lemma {:induction false} ReportedOfDnn(ds: seq<DnnData>, stored: seq<DnnData>, n: nat, x: string)
    requires n <= |ds|
    ensures Places(n, ReportedOfIn(ds, stored, x)) == Excess(TimesIn(ds, n, x), Times(stored, x))
  {
    if n > 0 {
      ReportedOfDnn(ds, stored, n - 1, x);
    }
  }

  // A DNN x that stands, ignoring case, at n places of the list and at m places of the stored list
  // is reported at exactly max(0, n - max(1, m)) of its places; and the errors of the list are as
  // many as its reported places.
  lemma DnnReportsExact(ds: seq<DnnData>, stored: seq<DnnData>, x: string, e: Error)
    ensures Places(|ds|, ReportedOfIn(ds, stored, x)) == Max(0, Times(ds, x) - Max(1, Times(stored, x)))
    ensures |DnnUpdateErrors(LowerDnns(ds), LowerDnns(stored), e)| == Places(|ds|, DnnReportedIn(ds, stored))
  {
    ReportedOfDnn(ds, stored, |ds|, x);
    DnnUpdateCounted(ds, stored, |ds|, e);
    assert ds[..|ds|] == ds;
  }

  // ---- what is stored ----

  // The first list of that id.
  function FirstListIn(ls: seq<DnnList>, id: string): Option<DnnList> {
    if ls == [] then None else
      var n := |ls| - 1;
      var before := FirstListIn(ls[..n], id);
      if before.Some? then before else if ls[n].dnnListId == id then Some(ls[n]) else None
  }

  // The first stored list of that PLMN and id.
  function FirstList(stored: seq<PlmnIdSet>, plmn: string, id: string): Option<DnnList> {
    if stored == [] then None else
      var n := |stored| - 1;
      var before := FirstList(stored[..n], plmn, id);
      if before.Some? then before
      else if stored[n].plmnIdSetIdentifier == plmn then FirstListIn(stored[n].dnnLists, id)
      else None
  }

  // The DNNs stored under a PLMN and id.
  function StoredDnnData(stored: seq<PlmnIdSet>, plmn: string, id: string): seq<DnnData> {
    match FirstList(stored, plmn, id)
    case Some(l) => l.dnnDataList
    case None => []
  }

  // The first stored set of that PLMN.
  function FirstSet(stored: seq<PlmnIdSet>, plmn: string): Option<PlmnIdSet> {
    if stored == [] then None else
      var n := |stored| - 1;
      var before := FirstSet(stored[..n], plmn);
      if before.Some? then before else if stored[n].plmnIdSetIdentifier == plmn then Some(stored[n]) else None
  }

  lemma {:induction false} FirstOfAppend<V>(a: seq<Keyed<V>>, b: seq<Keyed<V>>, k: (string, string))
    ensures k in FirstOf(a + b) <==> k in FirstOf(a) || k in FirstOf(b)
    ensures k in FirstOf(a) ==> FirstOf(a + b)[k] == FirstOf(a)[k]
    ensures k !in FirstOf(a) && k in FirstOf(b) ==> FirstOf(a + b)[k] == FirstOf(b)[k]
  {
    if b == [] {
      assert a + b == a;
    } else {
      var n := |b| - 1;
      assert (a + b)[..|a + b| - 1] == a + b[..n];
      FirstOfAppend(a, b[..n], k);
    }
  }

  lemma {:induction false} FirstListInFound(ls: seq<DnnList>, plmn: string, k: (string, string))
    ensures var m := FirstOf(FlatMap(StoredListsOf(plmn), ls));
            && (k in m <==> k.0 == plmn && FirstListIn(ls, k.1).Some?)
            && (k in m ==> m[k] == LowerDnns(FirstListIn(ls, k.1).value.dnnDataList))
  {
    if ls != [] {
      var n := |ls| - 1;
      FirstListInFound(ls[..n], plmn, k);
      FirstOfAppend(FlatMap(StoredListsOf(plmn), ls[..n]), StoredListsOf(plmn)(ls[n]), k);
      FirstOfOne(Keyed(plmn, ls[n].dnnListId, LowerDnns(ls[n].dnnDataList)));
    }
  }

  lemma FirstOfOne<V>(e: Keyed<V>)
    ensures FirstOf([e]) == map[(e.plmn, e.name) := e.values]
  {
    assert [e][..0] == [];
    assert FirstOf([e]) == PutFirst(FirstOf([e][..0]), e);
  }

  lemma {:induction false} FirstListFound(stored: seq<PlmnIdSet>, plmn: string, id: string)
    ensures (plmn, id) in StoredDnns(stored) <==> FirstList(stored, plmn, id).Some?
    ensures (plmn, id) in StoredDnns(stored) ==> StoredDnns(stored)[(plmn, id)] == LowerDnns(FirstList(stored, plmn, id).value.dnnDataList)
  {
    if stored != [] {
      var n := |stored| - 1;
      FirstListFound(stored[..n], plmn, id);
      var s := stored[n];
      FirstOfAppend(FlatMap(StoredSetOf(), stored[..n]), StoredSetOf()(s), (plmn, id));
      FirstListInFound(s.dnnLists, s.plmnIdSetIdentifier, (plmn, id));
    }
  }

  // What the update rules look up for a list are the DNNs of the first stored list of its key.
  lemma LookedUpDnns(stored: seq<PlmnIdSet>, plmn: string, id: string)
    ensures Lookup(StoredDnns(stored), plmn, id) == LowerDnns(StoredDnnData(stored, plmn, id))
  {
    FirstListFound(stored, plmn, id);
    assert LowerDnns([]) == [];
  }

  lemma FirstOfPair<V>(a: Keyed<V>, b: Keyed<V>)
    requires a.name != b.name
    ensures FirstOf([a, b]) == map[(a.plmn, a.name) := a.values, (b.plmn, b.name) := b.values]
  {
    FirstOfOne(a);
    assert [a, b][..1] == [a];
  }

  lemma {:induction false} FirstSetFound(stored: seq<PlmnIdSet>, plmn: string)
    ensures var first := FirstSet(stored, plmn);
            && ((plmn, DEFAULT_KEY) in StoredNssais(stored) <==> first.Some?)
            && ((plmn, SINGLE_KEY) in StoredNssais(stored) <==> first.Some?)
            && (first.Some? ==> StoredNssais(stored)[(plmn, DEFAULT_KEY)] == Triples(first.value.nssai.defaultSingleNssais)
                                && StoredNssais(stored)[(plmn, SINGLE_KEY)] == Triples(first.value.nssai.singleNssais))
  {
    if stored != [] {
      var n := |stored| - 1;
      FirstSetFound(stored[..n], plmn);
      var pair := StoredNssaisOf()(stored[n]);
      FirstOfAppend(FlatMap(StoredNssaisOf(), stored[..n]), pair, (plmn, DEFAULT_KEY));
      FirstOfAppend(FlatMap(StoredNssaisOf(), stored[..n]), pair, (plmn, SINGLE_KEY));
      FirstOfPair(pair[0], pair[1]);
    }
  }

  // ---- S-NSSAIs on update ----

  // The stored S-NSSAIs that place i of the S-NSSAIs of s is compared with: those of the first
  // stored set of its PLMN that are of its kind.
  function StoredOfKind(s: PlmnIdSet, stored: seq<PlmnIdSet>, i: nat): seq<NssaiDetails> {
    match FirstSet(stored, s.plmnIdSetIdentifier)
    case Some(t) => if i < |s.nssai.defaultSingleNssais| then t.nssai.defaultSingleNssais else t.nssai.singleNssais
    case None => []
  }

  predicate NssaiReported(s: PlmnIdSet, stored: seq<PlmnIdSet>, i: nat) {
    && NssaiSeen(AllNssais(s), i)
    && forall t :: t in StoredOfKind(s, stored, i) ==>
         !(SameNssai(t, AllNssais(s)[i]) && t.dnnListId == AllNssais(s)[i].dnnListId)
  }

  function NssaiReportedIn(s: PlmnIdSet, stored: seq<PlmnIdSet>): nat -> bool {
    (i: nat) => NssaiReported(s, stored, i)
  }

  lemma TripleStored(ns: seq<NssaiDetails>, n: NssaiDetails)
    ensures NssaiTriple(KeyOf(n), n.dnnListId) in Triples(ns) <==> exists t :: t in ns && SameNssai(t, n) && t.dnnListId == n.dnnListId
  {
    var ts := Triples(ns);
    assert forall i :: 0 <= i < |ns| ==>
        (ts[i] == NssaiTriple(KeyOf(n), n.dnnListId) <==> SameNssai(ns[i], n) && ns[i].dnnListId == n.dnnListId);
    if exists t :: t in ns && SameNssai(t, n) && t.dnnListId == n.dnnListId {
      var t :| t in ns && SameNssai(t, n) && t.dnnListId == n.dnnListId;
      var i :| 0 <= i < |ns| && ns[i] == t;
      assert ts[i] in ts;
    }
  }

  // Place i is reported exactly when an earlier place has equal sst and lower-cased sd, and no
  // stored S-NSSAI of its kind has equal sst, lower-cased sd and dnnListId.
  lemma NssaiReportedExactly(s: PlmnIdSet, stored: seq<PlmnIdSet>, i: nat)
    requires i < |AllNssais(s)|
    ensures i < |SetUses(s)|
    ensures NssaiFlagged(SetUses(s), i, StoredNssais(stored), s.plmnIdSetIdentifier) <==> NssaiReported(s, stored, i)
  {
    var us, ns := SetUses(s), AllNssais(s);
    assert forall j :: 0 <= j < |ns| ==> us[j].triple == NssaiTriple(KeyOf(ns[j]), ns[j].dnnListId);
    assert forall j :: 0 <= j < |ns| ==> (us[j].triple.key == us[i].triple.key <==> SameNssai(ns[j], ns[i]));
    assert KeyUsed(us[..i], us[i].triple.key) <==> NssaiSeen(ns, i) by {
      assert forall j :: 0 <= j < i ==> us[..i][j] == us[j];
    }
    FirstSetFound(stored, s.plmnIdSetIdentifier);
    TripleStored(StoredOfKind(s, stored, i), ns[i]);
  }

  lemma {:induction false} NssaiUpdateCounted(s: PlmnIdSet, stored: seq<PlmnIdSet>, n: nat, e: Error)
    requires n <= |SetUses(s)|
    ensures |NssaiUpdateErrors(SetUses(s)[..n], StoredNssais(stored), s.plmnIdSetIdentifier, e)| == Places(n, NssaiReportedIn(s, stored))
  {
    hide NssaiFlagged, NssaiReported, SetUses, StoredNssais;
    if n > 0 {
      NssaiUpdateCounted(s, stored, n - 1, e);
      SetUsesLength(s);
      NssaiReportedExactly(s, stored, n - 1);
      NssaiFlaggedInPrefix(SetUses(s), n, StoredNssais(stored), s.plmnIdSetIdentifier);
      assert SetUses(s)[..n][..n - 1] == SetUses(s)[..n - 1];
    }
  }

  lemma SetUsesLength(s: PlmnIdSet)
    ensures |SetUses(s)| == |AllNssais(s)|
  {
  }

  // ---- whole lists of PLMN sets ----

  predicate NoNssaiTwice(ns: seq<NssaiDetails>) {
    forall i, j :: 0 <= i < j < |ns| ==> !SameNssai(ns[i], ns[j])
  }

  predicate NoDnnTwice(ds: seq<DnnData>) {
    forall i, j :: 0 <= i < j < |ds| ==> !SameDnn(ds[i], ds[j])
  }

  // No S-NSSAI of the set, default and single together, and no DNN of one of its lists stands at
  // two places.
  predicate NothingTwice(s: PlmnIdSet) {
    && NoNssaiTwice(s.nssai.defaultSingleNssais + s.nssai.singleNssais)
    && forall l :: l in s.dnnLists ==> NoDnnTwice(l.dnnDataList)
  }

  lemma NssaisDistinct(ns: seq<NssaiDetails>)
    ensures Distinct(NssaiKeys(ns)) <==> NoNssaiTwice(ns)
  {
    var keys := NssaiKeys(ns);
    assert forall i, j :: 0 <= i < j < |ns| ==> (keys[i] == keys[j] <==> SameNssai(ns[i], ns[j]));
    if Distinct(keys) {
      forall i, j | 0 <= i < j < |ns|
        ensures !SameNssai(ns[i], ns[j])
      {
        assert keys[i] != keys[j];
      }
    }
  }

  lemma DnnsDistinct(ds: seq<DnnData>)
    ensures Distinct(LowerDnns(ds)) <==> NoDnnTwice(ds)
  {
    RepeatErrorsNone(LowerDnns(ds), DnnError(""));
    DnnRepeatsCounted(ds, |ds|, DnnError(""));
    assert ds[..|ds|] == ds;
    NoPlaces(|ds|, DnnSeenIn(ds));
    assert forall i :: 0 <= i < |ds| ==> (DnnSeenIn(ds)(i) <==> exists j :: 0 <= j < i && SameDnn(ds[j], ds[i]));
  }

  // A creation has no repetition error exactly when in every set no two S-NSSAIs, default and
  // single together, have equal sst and lower-cased sd, and in every list no two non-empty DNNs
  // are equal ignoring case.
  lemma CreationRepetitions(sets: seq<PlmnIdSet>, path: string)
    ensures CreateErrors(sets, path) == [] <==> forall s :: s in sets ==> NothingTwice(s)
  {
    CreateRulesAccept(sets, path);
    forall s: PlmnIdSet
      ensures SetDistinct(s) <==> NothingTwice(s)
    {
      NssaisDistinct(AllNssais(s));
      forall l | l in s.dnnLists
        ensures Distinct(LowerDnns(l.dnnDataList)) <==> NoDnnTwice(l.dnnDataList)
      {
        DnnsDistinct(l.dnnDataList);
      }
    }
  }

  // Over the lists of a set, the places at which an earlier place holds the same DNN.
  function DnnPlacesSeen(ls: seq<DnnList>): nat {
    if ls == [] then 0 else
      var n := |ls| - 1;
      DnnPlacesSeen(ls[..n]) + Places(|ls[n].dnnDataList|, DnnSeenIn(ls[n].dnnDataList))
  }

  function DnnPlacesReported(ls: seq<DnnList>, plmn: string, stored: seq<PlmnIdSet>): nat {
    if ls == [] then 0 else
      var n := |ls| - 1;
      DnnPlacesReported(ls[..n], plmn, stored)
      + Places(|ls[n].dnnDataList|, DnnReportedIn(ls[n].dnnDataList, StoredDnnData(stored, plmn, ls[n].dnnListId)))
  }

  lemma {:induction false} ListsSeenCounted(ls: seq<DnnList>, path: string)
    ensures |FlatMap(DnnRepeatErrorsOf(path), ls)| == DnnPlacesSeen(ls)
  {
    if ls != [] {
      var n := |ls| - 1;
      ListsSeenCounted(ls[..n], path);
      var ds := ls[n].dnnDataList;
      DnnRepeatsCounted(ds, |ds|, DnnError(path));
      assert ds[..|ds|] == ds;
    }
  }

  lemma {:induction false} ListsReportedCounted(ls: seq<DnnList>, plmn: string, stored: seq<PlmnIdSet>, path: string)
    ensures |FlatMap(ListUpdateErrorsOf(plmn, StoredDnns(stored), path), ls)| == DnnPlacesReported(ls, plmn, stored)
  {
    if ls != [] {
      var n := |ls| - 1;
      ListsReportedCounted(ls[..n], plmn, stored, path);
      var ds, sd := ls[n].dnnDataList, StoredDnnData(stored, plmn, ls[n].dnnListId);
      LookedUpDnns(stored, plmn, ls[n].dnnListId);
      DnnUpdateCounted(ds, sd, |ds|, DnnError(path));
      assert ds[..|ds|] == ds;
    }
  }

  // The repetition errors of a set are as many as its reported places, S-NSSAIs and DNNs together:
  // on creation the places whose value stands earlier, on update those that are not excused by
  // what is stored.
  lemma SetErrorsArePlaces(s: PlmnIdSet, stored: seq<PlmnIdSet>, path: string)
    ensures |SetRepeatErrors(s, path)| == Places(|AllNssais(s)|, NssaiSeenIn(AllNssais(s))) + DnnPlacesSeen(s.dnnLists)
    ensures |SetUpdateErrors(s, StoredDnns(stored), StoredNssais(stored), path)|
         == Places(|AllNssais(s)|, NssaiReportedIn(s, stored)) + DnnPlacesReported(s.dnnLists, s.plmnIdSetIdentifier, stored)
  {
    hide RepeatErrors, NssaiUpdateErrors, StoredDnns, StoredNssais, AllNssais;
    var keys := NssaiKeys(AllNssais(s));
    NssaiRepeatsCounted(AllNssais(s), |keys|, NssaiError(path));
    assert keys[..|keys|] == keys;
    ListsSeenCounted(s.dnnLists, path);
    SetUsesLength(s);
    NssaiUpdateCounted(s, stored, |SetUses(s)|, NssaiError(path));
    assert SetUses(s)[..|SetUses(s)|] == SetUses(s);
    ListsReportedCounted(s.dnnLists, s.plmnIdSetIdentifier, stored, path);
  }

  // ---- acceptance of an update ----

  // Some set of that PLMN has a list of that id.
  predicate DefinesList(sets: seq<PlmnIdSet>, plmn: string, id: string) {
    exists s, l :: s in sets && s.plmnIdSetIdentifier == plmn && l in s.dnnLists && l.dnnListId == id
  }

  lemma ListKeysMembers(sets: seq<PlmnIdSet>, k: Entry<string>)
    ensures k in ListKeys(sets) <==> DefinesList(sets, k.key, k.value)
  {
    FlatMapIn(SetKeysOf(), sets, k);
    forall s: PlmnIdSet
      ensures k in SetKeysOf()(s) <==> s.plmnIdSetIdentifier == k.key && exists l :: l in s.dnnLists && l.dnnListId == k.value
    {
      FlatMapIn(ListKeyOf(s.plmnIdSetIdentifier), s.dnnLists, k);
    }
  }

  // A stored list is found by the scan: its PLMN has some list in the change, and its id is listed
  // under that PLMN or a greater one.
  predicate ScannedFor(sets: seq<PlmnIdSet>, plmn: string, id: string) {
    && (exists s :: s in sets && s.plmnIdSetIdentifier == plmn && s.dnnLists != [])
    && exists s, l :: s in sets && !Less(s.plmnIdSetIdentifier, plmn) && l in s.dnnLists && l.dnnListId == id
  }

  predicate RepetitionsExcused(s: PlmnIdSet, stored: seq<PlmnIdSet>) {
    && (forall i :: 0 <= i < |AllNssais(s)| ==> !NssaiReported(s, stored, i))
    && forall l :: l in s.dnnLists ==> forall i :: 0 <= i < |l.dnnDataList| ==>
         !DnnReported(l.dnnDataList, StoredDnnData(stored, s.plmnIdSetIdentifier, l.dnnListId), i)
  }

  lemma ListPasses(l: DnnList, stored: seq<PlmnIdSet>, plmn: string)
    ensures WithinStored(LowerDnns(l.dnnDataList), Lookup(StoredDnns(stored), plmn, l.dnnListId))
       <==> forall i :: 0 <= i < |l.dnnDataList| ==> !DnnReported(l.dnnDataList, StoredDnnData(stored, plmn, l.dnnListId), i)
  {
    hide DnnReported, WithinStored, StoredDnns;
    var ds, sd := l.dnnDataList, StoredDnnData(stored, plmn, l.dnnListId);
    LookedUpDnns(stored, plmn, l.dnnListId);
    DnnUpdateNone(LowerDnns(ds), LowerDnns(sd), DnnError(""));
    DnnReportsExact(ds, sd, "", DnnError(""));
    NoPlaces(|ds|, DnnReportedIn(ds, sd));
    assert forall i :: DnnReportedIn(ds, sd)(i) <==> DnnReported(ds, sd, i);
  }

  lemma SetPasses(s: PlmnIdSet, stored: seq<PlmnIdSet>)
    ensures NssaisOk(s, stored) && DnnsOk(s, stored) <==> RepetitionsExcused(s, stored)
  {
    hide NssaiFlagged, NssaiReported, WithinStored, DnnReported, SetUses, StoredNssais, StoredDnns;
    SetUsesLength(s);
    forall i | 0 <= i < |AllNssais(s)|
      ensures NssaiFlagged(SetUses(s), i, StoredNssais(stored), s.plmnIdSetIdentifier) <==> NssaiReported(s, stored, i)
    {
      NssaiReportedExactly(s, stored, i);
    }
    forall l | l in s.dnnLists
      ensures WithinStored(LowerDnns(l.dnnDataList), Lookup(StoredDnns(stored), s.plmnIdSetIdentifier, l.dnnListId))
         <==> forall i :: 0 <= i < |l.dnnDataList| ==>
                !DnnReported(l.dnnDataList, StoredDnnData(stored, s.plmnIdSetIdentifier, l.dnnListId), i)
    {
      ListPasses(l, stored, s.plmnIdSetIdentifier);
    }
  }

  lemma ScanOfFields(sets: seq<PlmnIdSet>, plmn: string, id: string)
    ensures IsKey(ListKeys(sets), plmn) && StandsAtOrAbove(ListKeys(sets), plmn, id) <==> ScannedFor(sets, plmn, id)
  {
    hide ListKeys;
    forall k
      ensures k in ListKeys(sets) <==> DefinesList(sets, k.key, k.value)
    {
      ListKeysMembers(sets, k);
    }
    if IsKey(ListKeys(sets), plmn) {
      var k :| k in ListKeys(sets) && k.key == plmn;
      assert DefinesList(sets, k.key, k.value);
    }
    if exists s :: s in sets && s.plmnIdSetIdentifier == plmn && s.dnnLists != [] {
      var s :| s in sets && s.plmnIdSetIdentifier == plmn && s.dnnLists != [];
      assert s.dnnLists[0] in s.dnnLists;
      assert DefinesList(sets, plmn, s.dnnLists[0].dnnListId);
      assert Entry(plmn, s.dnnLists[0].dnnListId) in ListKeys(sets);
    }
    if exists s, l :: s in sets && !Less(s.plmnIdSetIdentifier, plmn) && l in s.dnnLists && l.dnnListId == id {
      var s, l :| s in sets && !Less(s.plmnIdSetIdentifier, plmn) && l in s.dnnLists && l.dnnListId == id;
      assert DefinesList(sets, s.plmnIdSetIdentifier, id);
      assert Entry(s.plmnIdSetIdentifier, id) in ListKeys(sets);
    }
    if StandsAtOrAbove(ListKeys(sets), plmn, id) {
      var k :| k in ListKeys(sets) && !Less(k.key, plmn) && k.value == id;
      assert DefinesList(sets, k.key, k.value);
    }
  }

  // The update-specific rules append nothing exactly when every repetition is excused and every
  // stored list is found by the scan.
  lemma UpdateRepetitions(sets: seq<PlmnIdSet>, stored: seq<PlmnIdSet>, path: string)
    ensures UpdateErrors(sets, stored, path) == []
       <==> (forall s :: s in sets ==> RepetitionsExcused(s, stored))
            && forall t, r :: t in stored && r in t.dnnLists ==> ScannedFor(sets, t.plmnIdSetIdentifier, r.dnnListId)
  {
    hide NssaisOk, DnnsOk, RepetitionsExcused, ScannedFor, IsKey, StandsAtOrAbove, ListKeys, UpdateErrors;
    UpdateRulesAccept(sets, stored, path);
    forall s
      ensures NssaisOk(s, stored) && DnnsOk(s, stored) <==> RepetitionsExcused(s, stored)
    {
      SetPasses(s, stored);
    }
    forall k: Entry<string>
      ensures k in ListKeys(stored) <==> DefinesList(stored, k.key, k.value)
      ensures IsKey(ListKeys(sets), k.key) && StandsAtOrAbove(ListKeys(sets), k.key, k.value) <==> ScannedFor(sets, k.key, k.value)
    {
      ListKeysMembers(stored, k);
      ScanOfFields(sets, k.key, k.value);
    }
    forall t, r | t in stored && r in t.dnnLists
      ensures Entry(t.plmnIdSetIdentifier, r.dnnListId) in ListKeys(stored)
    {
      assert DefinesList(stored, t.plmnIdSetIdentifier, r.dnnListId);
    }
  }
}
