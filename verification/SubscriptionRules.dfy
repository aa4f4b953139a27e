// The rules of a subscription's slice data (second half of
// ValidationData::checkForCommonUdmSubscriptionRules): every dnnListId an S-NSSAI points to must
// be defined in the slice data itself or in the associated slice profile.
module SubscriptionRules {
  import opened Sequences
  import opened OrderedMaps
  import opened Types
  import opened SliceProfileRules
  import opened CreateRules
  import opened UpdateRules

  function ReferenceOf(plmn: string): NssaiDetails -> seq<Entry<string>> {
    (n: NssaiDetails) => if n.dnnListId == "" then [] else [Entry(plmn, n.dnnListId)]
  }

  function References(plmn: string, ns: seq<NssaiDetails>): seq<Entry<string>> {
    FlatMap(ReferenceOf(plmn), ns)
  }

  function SetReferencesOf(): PlmnIdSet -> seq<Entry<string>> {
    (s: PlmnIdSet) => References(s.plmnIdSetIdentifier, s.nssai.defaultSingleNssais)
                      + References(s.plmnIdSetIdentifier, s.nssai.singleNssais)
  }

  // The (plmnIdSetIdentifier, dnnListId) pairs S-NSSAIs point to, in document order.
  function ReferenceKeys(sets: seq<PlmnIdSet>): seq<Entry<string>> {
    FlatMap(SetReferencesOf(), sets)
  }

  function DefinitionOf(plmn: string): DnnList -> seq<Entry<string>> {
    (l: DnnList) => if l.dnnListId == "" then [] else [Entry(plmn, l.dnnListId)]
  }

  function SetDefinitionsOf(): PlmnIdSet -> seq<Entry<string>> {
    (s: PlmnIdSet) => FlatMap(DefinitionOf(s.plmnIdSetIdentifier), s.dnnLists)
  }

  function DefinitionKeys(sets: seq<PlmnIdSet>): seq<Entry<string>> {
    FlatMap(SetDefinitionsOf(), sets)
  }

  // The search of lines 547-565 in the two sorted multimaps.
  predicate SearchFinds(defined: seq<Entry<string>>, associated: seq<Entry<string>>, k: Entry<string>) {
    || RangeHas(defined, Find(defined, k.key), k.key, k.value)
    || RangeHas(associated, Find(associated, k.key), k.key, k.value)
  }

  function UnknownList(k: Entry<string>, profileId: string, path: string): Error {
    Violation(path, UnknownDnnList(k.value, k.key, profileId))
  }

  function SearchErrorsOf(defined: seq<Entry<string>>, associated: seq<Entry<string>>,
                          profileId: string, path: string): Entry<string> -> seq<Error> {
    (k: Entry<string>) => if SearchFinds(defined, associated, k) then [] else [UnknownList(k, profileId, path)]
  }

  function ReferenceSearchErrors(sets: seq<PlmnIdSet>, profile: UdmSliceProfile, path: string): seq<Error> {
    FlatMap(SearchErrorsOf(FromEntries(DefinitionKeys(sets)), FromEntries(ListKeys(profile.plmnIdSets)),
                           profile.udmSliceProfileId, path),
            FromEntries(ReferenceKeys(sets)))
  }

  // ---- the search is set membership ----

  predicate Resolved(k: Entry<string>, sets: seq<PlmnIdSet>, profile: UdmSliceProfile) {
    k in ListKeys(sets) || k in ListKeys(profile.plmnIdSets)
  }

  function MembershipErrorsOf(sets: seq<PlmnIdSet>, profile: UdmSliceProfile, path: string): Entry<string> -> seq<Error> {
    (k: Entry<string>) => if Resolved(k, sets, profile) then [] else [UnknownList(k, profile.udmSliceProfileId, path)]
  }

  lemma DefinedIsListed(sets: seq<PlmnIdSet>, k: Entry<string>)
    requires k.value != ""
    ensures k in DefinitionKeys(sets) <==> k in ListKeys(sets)
  {
    FlatMapIn(SetDefinitionsOf(), sets, k);
    FlatMapIn(SetKeysOf(), sets, k);
    forall s
      ensures k in SetDefinitionsOf()(s) <==> k in SetKeysOf()(s)
    {
      FlatMapIn(DefinitionOf(s.plmnIdSetIdentifier), s.dnnLists, k);
      FlatMapIn(ListKeyOf(s.plmnIdSetIdentifier), s.dnnLists, k);
    }
  }

  predicate PointsTo(sets: seq<PlmnIdSet>, k: Entry<string>) {
    k.value != "" && exists s, n :: s in sets && s.plmnIdSetIdentifier == k.key && n in AllNssais(s) && n.dnnListId == k.value
  }

  lemma ReferencesMembers(plmn: string, ns: seq<NssaiDetails>, k: Entry<string>)
    ensures k in References(plmn, ns) <==> k.key == plmn && k.value != "" && exists n :: n in ns && n.dnnListId == k.value
  {
    FlatMapIn(ReferenceOf(plmn), ns, k);
  }

  lemma ReferenceKeysMembers(sets: seq<PlmnIdSet>, k: Entry<string>)
    ensures k in ReferenceKeys(sets) <==> PointsTo(sets, k)
  {
    FlatMapIn(SetReferencesOf(), sets, k);
    forall s
      ensures k in SetReferencesOf()(s)
         <==> s.plmnIdSetIdentifier == k.key && k.value != "" && exists n :: n in AllNssais(s) && n.dnnListId == k.value
    {
      ReferencesMembers(s.plmnIdSetIdentifier, s.nssai.defaultSingleNssais, k);
      ReferencesMembers(s.plmnIdSetIdentifier, s.nssai.singleNssais, k);
      assert forall n :: n in AllNssais(s) <==> n in s.nssai.defaultSingleNssais || n in s.nssai.singleNssais;
    }
  }

  lemma SearchIsMembership(sets: seq<PlmnIdSet>, profile: UdmSliceProfile, k: Entry<string>)
    requires k.value != ""
    ensures SearchFinds(FromEntries(DefinitionKeys(sets)), FromEntries(ListKeys(profile.plmnIdSets)), k)
       <==> Resolved(k, sets, profile)
  {
    var d, a := DefinitionKeys(sets), ListKeys(profile.plmnIdSets);
    FromEntriesIsStableSort(d);
    FromEntriesIsStableSort(a);
    RangeSearchIsMembership(FromEntries(d), k.key, k.value);
    RangeSearchIsMembership(FromEntries(a), k.key, k.value);
    FromEntriesMembers(d);
    FromEntriesMembers(a);
    DefinedIsListed(sets, k);
  }

  lemma SearchErrorsAreMembershipErrors(sets: seq<PlmnIdSet>, profile: UdmSliceProfile, path: string)
    ensures ReferenceSearchErrors(sets, profile, path)
         == FlatMap(MembershipErrorsOf(sets, profile, path), FromEntries(ReferenceKeys(sets)))
  {
    var refs := ReferenceKeys(sets);
    var f := SearchErrorsOf(FromEntries(DefinitionKeys(sets)), FromEntries(ListKeys(profile.plmnIdSets)),
                            profile.udmSliceProfileId, path);
    var g := MembershipErrorsOf(sets, profile, path);
    FromEntriesMembers(refs);
    forall k | k in FromEntries(refs)
      ensures f(k) == g(k)
    {
      ReferenceKeysMembers(sets, k);
      SearchIsMembership(sets, profile, k);
    }
    FlatMapSame(f, g, FromEntries(refs));
  }

  // One error per reference that neither the slice data nor the profile defines, walking the
  // references stably sorted by PLMN; as a multiset, the same as walking the document.
  lemma ReferenceErrorsExact(sets: seq<PlmnIdSet>, profile: UdmSliceProfile, path: string)
    ensures ReferenceSearchErrors(sets, profile, path)
         == FlatMap(MembershipErrorsOf(sets, profile, path), FromEntries(ReferenceKeys(sets)))
    ensures Sorted(FromEntries(ReferenceKeys(sets)))
    ensures forall plmn :: ValuesAt(FromEntries(ReferenceKeys(sets)), plmn) == ValuesAt(ReferenceKeys(sets), plmn)
    ensures multiset(ReferenceSearchErrors(sets, profile, path))
         == multiset(FlatMap(MembershipErrorsOf(sets, profile, path), ReferenceKeys(sets)))
  {
    SearchErrorsAreMembershipErrors(sets, profile, path);
    FromEntriesIsStableSort(ReferenceKeys(sets));
    FlatMapPermuted(MembershipErrorsOf(sets, profile, path), FromEntries(ReferenceKeys(sets)), ReferenceKeys(sets));
  }

  ghost predicate ReferencesDefined(sets: seq<PlmnIdSet>, profile: UdmSliceProfile) {
    forall k :: PointsTo(sets, k) ==> Resolved(k, sets, profile)
  }

  lemma ReferenceSearchNone(sets: seq<PlmnIdSet>, profile: UdmSliceProfile, path: string)
    ensures ReferenceSearchErrors(sets, profile, path) == [] <==> ReferencesDefined(sets, profile)
  {
    var refs := FromEntries(ReferenceKeys(sets));
    var g := MembershipErrorsOf(sets, profile, path);
    SearchErrorsAreMembershipErrors(sets, profile, path);
    FlatMapEmpty(g, refs);
    forall k
      ensures k in refs <==> PointsTo(sets, k)
    {
      FromEntriesMembers(ReferenceKeys(sets));
      ReferenceKeysMembers(sets, k);
    }
  }

  // ---- all rules of a subscription ----

  function ScalarErrors(faults: seq<Description>, path: string): (es: seq<Error>)
    ensures |es| == |faults| && Violations(es, path)
  {
    seq(|faults|, i requires 0 <= i < |faults| => Violation(path, faults[i]))
  }

  function SliceDataErrors(sets: seq<PlmnIdSet>, profile: UdmSliceProfile, path: string): seq<Error> {
    (if sets == [] then [] else CommonErrors(sets, false, path))
    + CreateErrors(sets, path)
    + ReferenceSearchErrors(sets, profile, path)
  }

  function SubscriptionErrors(c: Change, profile: UdmSliceProfile): seq<Error> {
    ScalarErrors(c.udmStaticData.scalarFaults, c.resourcePath)
    + (if c.udmStaticData.hasUdmSliceData
       then SliceDataErrors(c.udmStaticData.sliceDataPlmnIdSets, profile, c.resourcePath) else [])
  }

  lemma ReferenceSearchErrorsAreViolations(sets: seq<PlmnIdSet>, profile: UdmSliceProfile, path: string)
    ensures Violations(ReferenceSearchErrors(sets, profile, path), path)
  {
    FlatMapViolations(SearchErrorsOf(FromEntries(DefinitionKeys(sets)), FromEntries(ListKeys(profile.plmnIdSets)),
                                     profile.udmSliceProfileId, path),
                      FromEntries(ReferenceKeys(sets)), path);
  }

  lemma SubscriptionErrorsAreViolations(c: Change, profile: UdmSliceProfile)
    ensures Violations(SubscriptionErrors(c, profile), c.resourcePath)
  {
    CreateErrorsAreViolations(c.udmStaticData.sliceDataPlmnIdSets, c.resourcePath);
    ReferenceSearchErrorsAreViolations(c.udmStaticData.sliceDataPlmnIdSets, profile, c.resourcePath);
  }

  ghost predicate SliceDataOk(sets: seq<PlmnIdSet>, profile: UdmSliceProfile) {
    && PlmnIdSetsOk(sets, false)
    && (forall s :: s in sets ==> SetDistinct(s))
    && ReferencesDefined(sets, profile)
  }

  // The slice data is accepted exactly when it is well formed, repeats nothing and points only
  // to lists that are defined.
  lemma SliceDataAccept(sets: seq<PlmnIdSet>, profile: UdmSliceProfile, path: string)
    ensures SliceDataErrors(sets, profile, path) == [] <==> SliceDataOk(sets, profile)
  {
    CommonRulesAccept(sets, false, path);
    CreateRulesAccept(sets, path);
    ReferenceSearchNone(sets, profile, path);
  }
}
