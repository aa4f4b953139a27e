// The rewriting of accepted changes (ValidationData::computeMutations): an S-NSSAI without a
// dnnListId is given the one named "Default". The theorems say when the rewritten value would be
// accepted again.
module Mutations {
  import opened Sequences
  import opened Text
  import opened OrderedMaps
  import opened Types
  import opened Paths
  import opened SliceProfileRules
  import opened CreateRules
  import opened UpdateRules
  import opened UpdateTheorems
  import opened SubscriptionRules

  function FillDnnListId(n: NssaiDetails): NssaiDetails {
    if n.dnnListId == "" then n.(dnnListId := DEFAULT_VALUE) else n
  }

  function IncludeNssai(ns: seq<NssaiDetails>): (r: seq<NssaiDetails>)
    ensures |r| == |ns|
  {
    seq(|ns|, i requires 0 <= i < |ns| => FillDnnListId(ns[i]))
  }

  function MutateSet(s: PlmnIdSet): PlmnIdSet {
    s.(nssai := s.nssai.(
         defaultSingleNssais := IncludeNssai(s.nssai.defaultSingleNssais),
         singleNssais := if s.hasNssai then IncludeNssai(s.nssai.singleNssais) else s.nssai.singleNssais))
  }

  function MutateSets(sets: seq<PlmnIdSet>): (r: seq<PlmnIdSet>)
    ensures |r| == |sets|
  {
    seq(|sets|, i requires 0 <= i < |sets| => MutateSet(sets[i]))
  }

  function MutateProfile(c: Change): Change {
    if Contains(c.resourcePath, UDM_SLICE_PROFILES) && (c.operation == CREATE || c.operation == UPDATE)
    then c.(udmSliceProfile := c.udmSliceProfile.(plmnIdSets := MutateSets(c.udmSliceProfile.plmnIdSets)))
    else c
  }

  function MutateSliceData(c: Change): Change {
    if Contains(c.resourcePath, UDM_STATIC_DATA)
    then c.(udmStaticData := c.udmStaticData.(sliceDataPlmnIdSets := MutateSets(c.udmStaticData.sliceDataPlmnIdSets)))
    else c
  }

  function Mutate(c: Change): Change {
    MutateSliceData(MutateProfile(c))
  }

  // ---- what the rewriting keeps ----

  lemma IncludeNssaiIdempotent(ns: seq<NssaiDetails>)
    ensures IncludeNssai(IncludeNssai(ns)) == IncludeNssai(ns)
  {
    var r := IncludeNssai(ns);
    assert forall i :: 0 <= i < |ns| ==> IncludeNssai(r)[i] == r[i];
  }

  lemma MutateSetsIdempotent(sets: seq<PlmnIdSet>)
    ensures MutateSets(MutateSets(sets)) == MutateSets(sets)
  {
    forall i | 0 <= i < |sets|
      ensures MutateSet(MutateSet(sets[i])) == MutateSet(sets[i])
    {
      IncludeNssaiIdempotent(sets[i].nssai.defaultSingleNssais);
      IncludeNssaiIdempotent(sets[i].nssai.singleNssais);
    }
    assert forall i :: 0 <= i < |sets| ==> MutateSets(MutateSets(sets))[i] == MutateSets(sets)[i];
  }

  // A second rewriting changes nothing.
  lemma MutateIdempotent(c: Change)
    ensures Mutate(Mutate(c)) == Mutate(c)
  {
    MutateSetsIdempotent(c.udmSliceProfile.plmnIdSets);
    MutateSetsIdempotent(c.udmStaticData.sliceDataPlmnIdSets);
  }

  // A change whose path names neither a created or updated slice profile nor a subscription is
  // emitted as it was sent.
  lemma OthersAreNotRewritten(c: Change)
    requires !(Contains(c.resourcePath, UDM_SLICE_PROFILES) && (c.operation == CREATE || c.operation == UPDATE))
    requires !Contains(c.resourcePath, UDM_STATIC_DATA)
    ensures Mutate(c) == c
  {
  }

  // The same S-NSSAIs in the same order, each as before except that an empty dnnListId may have
  // been filled.
  predicate OnlyBlankIdsFilled(before: seq<NssaiDetails>, after: seq<NssaiDetails>) {
    && |before| == |after|
    && forall i :: 0 <= i < |before| ==>
         && after[i].nssai == before[i].nssai
         && after[i].chargingCharacteristics == before[i].chargingCharacteristics
         && after[i].vendorSpecific == before[i].vendorSpecific
         && (after[i].dnnListId == before[i].dnnListId || (before[i].dnnListId == "" && after[i].dnnListId == DEFAULT_VALUE))
  }

  predicate SameButNssais(before: PlmnIdSet, after: PlmnIdSet) {
    && OnlyBlankIdsFilled(before.nssai.defaultSingleNssais, after.nssai.defaultSingleNssais)
    && OnlyBlankIdsFilled(before.nssai.singleNssais, after.nssai.singleNssais)
    && after.nssai.vendorSpecific == before.nssai.vendorSpecific
    && after.plmnIdSetIdentifier == before.plmnIdSetIdentifier
    && after.dnnLists == before.dnnLists
    && after.hasNssai == before.hasNssai && after.hasAnyNssai == before.hasAnyNssai
    && after.vendorSpecific == before.vendorSpecific
  }

  lemma MutatedListKeys(sets: seq<PlmnIdSet>)
    ensures ListKeys(MutateSets(sets)) == ListKeys(sets)
  {
    FlatMapIndexed(SetKeysOf(), SetKeysOf(), MutateSets(sets), sets);
  }

  // The S-NSSAIs whose ids the rewriting fills when they are empty.
  function Fillable(s: PlmnIdSet): seq<NssaiDetails> {
    s.nssai.defaultSingleNssais + if s.hasNssai then s.nssai.singleNssais else []
  }

  // Rewriting alters nothing but empty dnnListIds, and leaves none empty that it may fill.
  lemma MutationKeeps(sets: seq<PlmnIdSet>)
    ensures forall i :: 0 <= i < |sets| ==> SameButNssais(sets[i], MutateSets(sets)[i])
    ensures forall t, n :: t in MutateSets(sets) && n in Fillable(t) ==> n.dnnListId != ""
  {
    forall t, n | t in MutateSets(sets) && n in Fillable(t)
      ensures n.dnnListId != ""
    {
      var i :| 0 <= i < |sets| && MutateSets(sets)[i] == t;
      var k :| 0 <= k < |Fillable(t)| && Fillable(t)[k] == n;
      assert n == FillDnnListId(Fillable(sets[i])[k]);
    }
  }

  predicate HasBlankId(s: PlmnIdSet) {
    exists n :: n in Fillable(s) && n.dnnListId == ""
  }

  lemma {:induction false} MutatedNssais(s: PlmnIdSet, n: NssaiDetails)
    ensures n in AllNssais(MutateSet(s)) ==> exists m :: m in AllNssais(s) && (n == m || (n == FillDnnListId(m) && m in Fillable(s)))
    ensures n in AllNssais(s) ==> exists m :: m in AllNssais(MutateSet(s)) && (m == n || (m == FillDnnListId(n) && n in Fillable(s)))
    ensures n in Fillable(s) ==> FillDnnListId(n) in AllNssais(MutateSet(s))
  {
    var t := MutateSet(s);
    var d, g := s.nssai.defaultSingleNssais, s.nssai.singleNssais;
    var d', g' := t.nssai.defaultSingleNssais, t.nssai.singleNssais;
    assert forall i :: 0 <= i < |d| ==> d'[i] == FillDnnListId(d[i]) && d[i] in d && d'[i] in d';
    assert forall i :: 0 <= i < |g| ==> g'[i] == (if s.hasNssai then FillDnnListId(g[i]) else g[i]) && g[i] in g && g'[i] in g';
    assert forall m :: m in AllNssais(s) <==> m in d || m in g;
    assert forall m :: m in AllNssais(t) <==> m in d' || m in g';
    assert forall m :: m in Fillable(s) <==> m in d || (s.hasNssai && m in g);
  }

  lemma MutatedDistinct(s: PlmnIdSet)
    ensures SetDistinct(MutateSet(s)) <==> SetDistinct(s)
  {
    assert NssaiKeys(AllNssais(MutateSet(s))) == NssaiKeys(AllNssais(s));
  }

  lemma MutatedDetailsOk(s: PlmnIdSet)
    ensures (forall n :: n in AllNssais(MutateSet(s)) ==> NssaiDetailsOk(n)) <==> forall n :: n in AllNssais(s) ==> NssaiDetailsOk(n)
  {
    if forall n :: n in AllNssais(s) ==> NssaiDetailsOk(n) {
      forall n | n in AllNssais(MutateSet(s))
        ensures NssaiDetailsOk(n)
      {
        MutatedNssais(s, n);
      }
    }
    if forall n :: n in AllNssais(MutateSet(s)) ==> NssaiDetailsOk(n) {
      forall n | n in AllNssais(s)
        ensures NssaiDetailsOk(n)
      {
        MutatedNssais(s, n);
      }
    }
  }

  // The references of a rewritten set are resolved exactly when they were before and, if an id
  // was filled, a list is named "Default".
  lemma MutatedReferences(s: PlmnIdSet)
    ensures ReferencesResolved(MutateSet(s)) <==> ReferencesResolved(s) && (HasBlankId(s) ==> NamesDnnList(DEFAULT_VALUE, s))
  {
    var t := MutateSet(s);
    assert forall id :: NamesDnnList(id, t) <==> NamesDnnList(id, s);
    if ReferencesResolved(t) {
      forall n | n in AllNssais(s) && n.dnnListId != ""
        ensures NamesDnnList(n.dnnListId, s)
      {
        MutatedNssais(s, n);
      }
      if HasBlankId(s) {
        var n :| n in Fillable(s) && n.dnnListId == "";
        MutatedNssais(s, n);
      }
    }
    if ReferencesResolved(s) && (HasBlankId(s) ==> NamesDnnList(DEFAULT_VALUE, s)) {
      forall n | n in AllNssais(t) && n.dnnListId != ""
        ensures NamesDnnList(n.dnnListId, t)
      {
        MutatedNssais(s, n);
        assert n in AllNssais(s) || HasBlankId(s);
      }
    }
  }

  // ---- creations of slice profiles ----

  function CreateProfileErrors(sets: seq<PlmnIdSet>, path: string): seq<Error> {
    (if sets == [] then [] else CommonErrors(sets, true, path)) + CreateErrors(sets, path)
  }

  predicate CreateSetOk(s: PlmnIdSet) {
    PlmnIdSetOk(s, true) && SetDistinct(s)
  }

  predicate CreateProfileOk(sets: seq<PlmnIdSet>) {
    && (forall s :: s in sets ==> CreateSetOk(s))
    && (sets != [] ==> DEFAULT_VALUE in Plmns(sets))
  }

  lemma CreateProfileAccept(sets: seq<PlmnIdSet>, path: string)
    ensures CreateProfileErrors(sets, path) == [] <==> CreateProfileOk(sets)
  {
    CommonRulesAccept(sets, true, path);
    CreateRulesAccept(sets, path);
    DefaultInPlmns(sets);
  }

  lemma DefaultInPlmns(sets: seq<PlmnIdSet>)
    ensures DEFAULT_VALUE in Plmns(sets) <==> exists s :: s in sets && s.plmnIdSetIdentifier == DEFAULT_VALUE
  {
    if exists s :: s in sets && s.plmnIdSetIdentifier == DEFAULT_VALUE {
      var s :| s in sets && s.plmnIdSetIdentifier == DEFAULT_VALUE;
      var i :| 0 <= i < |sets| && sets[i] == s;
      assert Plmns(sets)[i] == DEFAULT_VALUE;
    }
  }

  // An S-NSSAI of s was filled although s has no list to point to.
  predicate FilledInVain(s: PlmnIdSet) {
    HasBlankId(s) && s.dnnLists == []
  }

  lemma MutatedSetOk(s: PlmnIdSet)
    requires CreateSetOk(s)
    ensures CreateSetOk(MutateSet(s)) <==> !FilledInVain(s)
  {
    MutatedSetFormat(s);
    MutatedDistinct(s);
  }

  // A property of the rewritten sets is a property of the sets they came from.
  lemma ForallMutated(sets: seq<PlmnIdSet>, p: PlmnIdSet -> bool, q: PlmnIdSet -> bool)
    requires forall s :: s in sets ==> (p(MutateSet(s)) <==> q(s))
    ensures (forall t :: t in MutateSets(sets) ==> p(t)) <==> forall s :: s in sets ==> q(s)
  {
    var r := MutateSets(sets);
    if forall t :: t in r ==> p(t) {
      forall s | s in sets
        ensures q(s)
      {
        var i :| 0 <= i < |sets| && sets[i] == s;
        assert r[i] in r;
      }
    }
    if forall s :: s in sets ==> q(s) {
      forall t | t in r
        ensures p(t)
      {
        var i :| 0 <= i < |r| && r[i] == t;
        assert sets[i] in sets;
      }
    }
  }

  lemma MutatedCreateSetsOk(sets: seq<PlmnIdSet>)
    requires forall s :: s in sets ==> CreateSetOk(s)
    ensures (forall t :: t in MutateSets(sets) ==> CreateSetOk(t)) <==> forall s :: s in sets ==> !FilledInVain(s)
  {
    var p := (s: PlmnIdSet) => CreateSetOk(s);
    var q := (s: PlmnIdSet) => !FilledInVain(s);
    forall s | s in sets
      ensures p(MutateSet(s)) <==> q(s)
    {
      MutatedSetOk(s);
    }
    ForallMutated(sets, p, q);
    assert (forall t :: t in MutateSets(sets) ==> CreateSetOk(t)) <==> forall t :: t in MutateSets(sets) ==> p(t);
    assert (forall s :: s in sets ==> !FilledInVain(s)) <==> forall s :: s in sets ==> q(s);
  }

  // An accepted creation, once rewritten, is accepted again exactly when no PLMN set without
  // dnnLists has an S-NSSAI whose id was filled.
  lemma MutatedCreateAccepted(sets: seq<PlmnIdSet>, path: string)
    requires CreateProfileErrors(sets, path) == []
    ensures CreateProfileErrors(MutateSets(sets), path) == [] <==> forall s :: s in sets ==> !FilledInVain(s)
  {
    CreateProfileAccept(sets, path);
    CreateProfileAccept(MutateSets(sets), path);
    MutatedCreateOk(sets);
  }

  lemma MutatedCreateOk(sets: seq<PlmnIdSet>)
    requires CreateProfileOk(sets)
    ensures CreateProfileOk(MutateSets(sets)) <==> forall s :: s in sets ==> !FilledInVain(s)
  {
    MutatedCreateSetsOk(sets);
    assert Plmns(MutateSets(sets)) == Plmns(sets);
  }

  // An accepted creation whose PLMN sets all have dnnLists, and hasNssai with their single
  // S-NSSAIs, is a fixpoint of rewriting and accepting, and afterwards every S-NSSAI names a
  // dnnList of its own PLMN set.
  lemma CreateFixpoint(sets: seq<PlmnIdSet>, path: string)
    requires CreateProfileErrors(sets, path) == []
    requires forall s :: s in sets ==> s.dnnLists != [] && (s.nssai.singleNssais != [] ==> s.hasNssai)
    ensures CreateProfileErrors(MutateSets(sets), path) == []
    ensures MutateSets(MutateSets(sets)) == MutateSets(sets)
    ensures forall i :: 0 <= i < |sets| ==> SameButNssais(sets[i], MutateSets(sets)[i])
    ensures forall s, n :: s in MutateSets(sets) && n in AllNssais(s) ==> NamesDnnList(n.dnnListId, s)
  {
    CreateProfileAccept(sets, path);
    CreateProfileAccept(MutateSets(sets), path);
    MutatedCreateOk(sets);
    MutateSetsIdempotent(sets);
    MutationKeeps(sets);
    MutatedReferencesNamed(sets);
  }

  // A set without dnnLists and with one S-NSSAI that names none.
  function BareSet(nssai: Snssai): PlmnIdSet {
    PlmnIdSet(DEFAULT_VALUE, SliceInfoNssai([NssaiDetails(nssai, "", "", [])], [], []), [], false, true, [])
  }

  // Such a set, with any legal S-NSSAI, is accepted by a creation and emitted in a form that is
  // rejected.
  lemma EmittedCreationCanBeRejected(nssai: Snssai, path: string)
    requires 0 <= nssai.sst <= 255 && (nssai.sd != "" ==> IsSd(nssai.sd))
    ensures CreateProfileErrors([BareSet(nssai)], path) == []
    ensures CreateProfileErrors(MutateSets([BareSet(nssai)]), path) != []
  {
    hide CreateProfileErrors, CreateProfileOk, FilledInVain, MutateSets;
    BareSetFacts(nssai);
    CreateProfileAccept([BareSet(nssai)], path);
    MutatedCreateAccepted([BareSet(nssai)], path);
    assert BareSet(nssai) in [BareSet(nssai)];
  }

  lemma DefaultIsLegal()
    ensures IsPlmnIdSetIdentifier(DEFAULT_VALUE)
  {
  }

  lemma BareSetFacts(nssai: Snssai)
    requires 0 <= nssai.sst <= 255 && (nssai.sd != "" ==> IsSd(nssai.sd))
    ensures CreateProfileOk([BareSet(nssai)]) && FilledInVain(BareSet(nssai))
  {
    hide IsSd, IsPlmnIdSetIdentifier;
    var s := BareSet(nssai);
    assert Plmns([s]) == [DEFAULT_VALUE];
    assert AllNssais(s) == s.nssai.defaultSingleNssais;
    DefaultIsLegal();
    assert Fillable(s)[0].dnnListId == "";
  }

  lemma MutatedReferencesNamed(sets: seq<PlmnIdSet>)
    requires forall s :: s in sets ==> (s.nssai.singleNssais != [] ==> s.hasNssai)
    requires forall t :: t in MutateSets(sets) ==> CreateSetOk(t)
    ensures forall t, n :: t in MutateSets(sets) && n in AllNssais(t) ==> NamesDnnList(n.dnnListId, t)
  {
    forall t, n | t in MutateSets(sets) && n in AllNssais(t)
      ensures NamesDnnList(n.dnnListId, t)
    {
      var i :| 0 <= i < |sets| && t == MutateSet(sets[i]);
      assert sets[i] in sets;
      AllIdsFilled(sets[i]);
      assert CreateSetOk(t);
    }
  }

  lemma AllIdsFilled(s: PlmnIdSet)
    requires s.nssai.singleNssais != [] ==> s.hasNssai
    ensures forall n :: n in AllNssais(MutateSet(s)) ==> n.dnnListId != ""
  {
  }

  // ---- slice data of subscriptions ----

  lemma MutatedPointsTo(sets: seq<PlmnIdSet>, k: Entry<string>)
    ensures PointsTo(MutateSets(sets), k)
       <==> PointsTo(sets, k)
            || (k.value == DEFAULT_VALUE && exists s :: s in sets && s.plmnIdSetIdentifier == k.key && HasBlankId(s))
  {
    var r := MutateSets(sets);
    if PointsTo(r, k) {
      var s, n :| s in r && s.plmnIdSetIdentifier == k.key && n in AllNssais(s) && n.dnnListId == k.value;
      var i :| 0 <= i < |r| && r[i] == s;
      MutatedNssais(sets[i], n);
      assert sets[i] in sets;
      assert n in AllNssais(sets[i]) || (HasBlankId(sets[i]) && k.value == DEFAULT_VALUE);
    }
    if PointsTo(sets, k) {
      var s, n :| s in sets && s.plmnIdSetIdentifier == k.key && n in AllNssais(s) && n.dnnListId == k.value;
      var i :| 0 <= i < |sets| && sets[i] == s;
      MutatedNssais(s, n);
      assert r[i] in r;
    }
    if k.value == DEFAULT_VALUE && exists s :: s in sets && s.plmnIdSetIdentifier == k.key && HasBlankId(s) {
      var s :| s in sets && s.plmnIdSetIdentifier == k.key && HasBlankId(s);
      var i :| 0 <= i < |sets| && sets[i] == s;
      var n :| n in Fillable(s) && n.dnnListId == "";
      MutatedNssais(s, n);
      assert r[i] in r && FillDnnListId(n) in AllNssais(r[i]);
    }
  }

  // Accepted slice data, once rewritten, is accepted again exactly when each PLMN with a filled
  // id has a list named "Default", in the slice data or in the associated profile.
  lemma MutatedSliceDataAccepted(sets: seq<PlmnIdSet>, profile: UdmSliceProfile, path: string)
    requires SliceDataErrors(sets, profile, path) == []
    ensures SliceDataErrors(MutateSets(sets), profile, path) == []
       <==> forall s :: s in sets && HasBlankId(s) ==> Resolved(Entry(s.plmnIdSetIdentifier, DEFAULT_VALUE), sets, profile)
  {
    SliceDataAccept(sets, profile, path);
    SliceDataAccept(MutateSets(sets), profile, path);
    MutatedSliceSetsOk(sets);
    MutatedReferencesDefined(sets, profile);
  }

  predicate SliceSetOk(s: PlmnIdSet) {
    PlmnIdSetOk(s, false) && SetDistinct(s)
  }

  lemma MutatedSliceSetsOk(sets: seq<PlmnIdSet>)
    requires forall s :: s in sets ==> SliceSetOk(s)
    ensures forall t :: t in MutateSets(sets) ==> SliceSetOk(t)
  {
    forall t | t in MutateSets(sets)
      ensures SliceSetOk(t)
    {
      var i :| 0 <= i < |sets| && t == MutateSet(sets[i]);
      MutatedDetailsOk(sets[i]);
      MutatedDistinct(sets[i]);
      assert SliceSetOk(sets[i]);
    }
  }

  lemma MutatedReferencesDefined(sets: seq<PlmnIdSet>, profile: UdmSliceProfile)
    requires ReferencesDefined(sets, profile)
    ensures ReferencesDefined(MutateSets(sets), profile)
       <==> forall s :: s in sets && HasBlankId(s) ==> Resolved(Entry(s.plmnIdSetIdentifier, DEFAULT_VALUE), sets, profile)
  {
    var r := MutateSets(sets);
    MutatedListKeys(sets);
    if ReferencesDefined(r, profile) {
      forall s | s in sets && HasBlankId(s)
        ensures Resolved(Entry(s.plmnIdSetIdentifier, DEFAULT_VALUE), sets, profile)
      {
        MutatedPointsTo(sets, Entry(s.plmnIdSetIdentifier, DEFAULT_VALUE));
        assert PointsTo(r, Entry(s.plmnIdSetIdentifier, DEFAULT_VALUE));
      }
    }
    if forall s :: s in sets && HasBlankId(s) ==> Resolved(Entry(s.plmnIdSetIdentifier, DEFAULT_VALUE), sets, profile) {
      forall k | PointsTo(r, k)
        ensures Resolved(k, r, profile)
      {
        MutatedPointsTo(sets, k);
      }
    }
  }

  // ---- updates of slice profiles ----

  function UpdateProfileErrors(sets: seq<PlmnIdSet>, stored: seq<PlmnIdSet>, path: string): seq<Error> {
    (if sets == [] then [] else CommonErrors(sets, true, path)) + UpdateErrors(sets, stored, path)
  }

  // An accepted update, once rewritten, is accepted again exactly when no set without dnnLists has
  // an S-NSSAI whose id was filled, and each repeated S-NSSAI whose id was filled is stored with
  // the id "Default" too.
  lemma MutatedUpdateAccepted(sets: seq<PlmnIdSet>, stored: seq<PlmnIdSet>, path: string)
    requires UpdateProfileErrors(sets, stored, path) == []
    ensures UpdateProfileErrors(MutateSets(sets), stored, path) == []
       <==> forall s :: s in sets ==> !FilledInVain(s) && FilledRepetitionsStored(s, stored)
  {
    hide CommonErrors, UpdateErrors, MutateSet, FilledInVain, FilledRepetitionsStored;
    MutatedUpdateRulesAccepted(sets, stored, path);
    if sets != [] {
      MutatedFormatAccepted(sets, path);
    }
  }

  lemma MutatedFormatAccepted(sets: seq<PlmnIdSet>, path: string)
    requires CommonErrors(sets, true, path) == []
    ensures CommonErrors(MutateSets(sets), true, path) == [] <==> forall s :: s in sets ==> !FilledInVain(s)
  {
    hide CommonErrors, PlmnIdSetOk, FilledInVain;
    CommonRulesAccept(sets, true, path);
    CommonRulesAccept(MutateSets(sets), true, path);
    DefaultInPlmns(sets);
    DefaultInPlmns(MutateSets(sets));
    assert Plmns(MutateSets(sets)) == Plmns(sets);
    var p := (s: PlmnIdSet) => PlmnIdSetOk(s, true);
    var q := (s: PlmnIdSet) => !FilledInVain(s);
    forall s | s in sets
      ensures p(MutateSet(s)) <==> q(s)
    {
      MutatedSetFormat(s);
    }
    ForallMutated(sets, p, q);
    assert (forall t :: t in MutateSets(sets) ==> PlmnIdSetOk(t, true)) <==> forall t :: t in MutateSets(sets) ==> p(t);
    assert (forall s :: s in sets ==> !FilledInVain(s)) <==> forall s :: s in sets ==> q(s);
  }

  lemma MutatedSetFormat(s: PlmnIdSet)
    requires PlmnIdSetOk(s, true)
    ensures PlmnIdSetOk(MutateSet(s), true) <==> !FilledInVain(s)
  {
    MutatedDetailsOk(s);
    MutatedReferences(s);
  }

  lemma MutatedUpdateRulesAccepted(sets: seq<PlmnIdSet>, stored: seq<PlmnIdSet>, path: string)
    requires UpdateErrors(sets, stored, path) == []
    ensures UpdateErrors(MutateSets(sets), stored, path) == []
       <==> forall s :: s in sets ==> FilledRepetitionsStored(s, stored)
  {
    UpdateRulesAccept(sets, stored, path);
    UpdateRulesAccept(MutateSets(sets), stored, path);
    MutatedListKeys(sets);
    MutatedRepeatsOk(sets, stored);
  }

  predicate RepeatsOk(s: PlmnIdSet, stored: seq<PlmnIdSet>) {
    NssaisOk(s, stored) && DnnsOk(s, stored)
  }

  lemma MutatedRepeatsOk(sets: seq<PlmnIdSet>, stored: seq<PlmnIdSet>)
    requires forall s :: s in sets ==> RepeatsOk(s, stored)
    ensures (forall t :: t in MutateSets(sets) ==> RepeatsOk(t, stored)) <==> forall s :: s in sets ==> FilledRepetitionsStored(s, stored)
  {
    var p := (s: PlmnIdSet) => RepeatsOk(s, stored);
    var q := (s: PlmnIdSet) => FilledRepetitionsStored(s, stored);
    forall s | s in sets
      ensures p(MutateSet(s)) <==> q(s)
    {
      assert RepeatsOk(s, stored);
      MutatedNssaisOk(s, stored);
    }
    ForallMutated(sets, p, q);
    assert (forall t :: t in MutateSets(sets) ==> RepeatsOk(t, stored)) <==> forall t :: t in MutateSets(sets) ==> p(t);
    assert (forall s :: s in sets ==> FilledRepetitionsStored(s, stored)) <==> forall s :: s in sets ==> q(s);
  }

  // Place i of the uses of s holds an S-NSSAI whose id the rewriting fills.
  predicate FilledAt(s: PlmnIdSet, i: nat)
    requires i < |SetUses(s)|
  {
    SetUses(s)[i].triple.dnnListId == "" && (SetUses(s)[i].kind == SINGLE_KEY ==> s.hasNssai)
  }

  predicate FilledRepetitionsStored(s: PlmnIdSet, stored: seq<PlmnIdSet>) {
    forall i :: 0 <= i < |SetUses(s)| && FilledAt(s, i) && KeyUsed(SetUses(s)[..i], SetUses(s)[i].triple.key) ==>
      NssaiTriple(SetUses(s)[i].triple.key, DEFAULT_VALUE)
        in Lookup(StoredNssais(stored), s.plmnIdSetIdentifier, SetUses(s)[i].kind)
  }

  lemma MutatedUses(s: PlmnIdSet)
    ensures |SetUses(MutateSet(s))| == |SetUses(s)|
    ensures forall i :: 0 <= i < |SetUses(s)| ==>
              SetUses(MutateSet(s))[i]
                == if FilledAt(s, i) then NssaiUse(SetUses(s)[i].kind, NssaiTriple(SetUses(s)[i].triple.key, DEFAULT_VALUE))
                   else SetUses(s)[i]
  {
  }

  lemma MutatedKeyUsed(s: PlmnIdSet, i: nat, key: NssaiKey)
    requires i <= |SetUses(s)| == |SetUses(MutateSet(s))|
    ensures KeyUsed(SetUses(MutateSet(s))[..i], key) <==> KeyUsed(SetUses(s)[..i], key)
  {
    MutatedUses(s);
    var us, vs := SetUses(s)[..i], SetUses(MutateSet(s))[..i];
    assert forall j :: 0 <= j < i ==> us[j] == SetUses(s)[j] && vs[j] == SetUses(MutateSet(s))[j];
    assert forall j :: 0 <= j < i ==> us[j].triple.key == vs[j].triple.key;
  }

  lemma MutatedNssaisOk(s: PlmnIdSet, stored: seq<PlmnIdSet>)
    requires NssaisOk(s, stored)
    ensures NssaisOk(MutateSet(s), stored) <==> FilledRepetitionsStored(s, stored)
  {
    var t := MutateSet(s);
    var m := StoredNssais(stored);
    MutatedUses(s);
    forall i | 0 <= i < |SetUses(s)|
      ensures NssaiFlagged(SetUses(t), i, m, t.plmnIdSetIdentifier)
         <==> FilledAt(s, i) && KeyUsed(SetUses(s)[..i], SetUses(s)[i].triple.key)
              && NssaiTriple(SetUses(s)[i].triple.key, DEFAULT_VALUE) !in Lookup(m, s.plmnIdSetIdentifier, SetUses(s)[i].kind)
    {
      MutatedKeyUsed(s, i, SetUses(s)[i].triple.key);
      assert !NssaiFlagged(SetUses(s), i, m, s.plmnIdSetIdentifier);
    }
  }
}
