// What the dispatcher answers to whole updates of slice profiles: when an update that keeps what is
// stored is accepted, and families of accepted updates that show a deletion and a repetition that
// the comments of the update rules exclude, and a form that is emitted and then rejected.
module UpdateOutcomes {
  import opened JsonModel
  import opened Sequences
  import opened Text
  import opened OrderedMaps
  import opened Types
  import opened Paths
  import opened SliceProfileRules
  import opened CreateRules
  import opened UpdateRules
  import opened UpdateTheorems
  import opened Mutations
  import opened Dispatch
  import opened MutatedChanges

  // A change of a slice profile from one list of PLMN sets to another.
  predicate Updates(c: Change, rr: RelatedResources, stored: seq<PlmnIdSet>, sent: seq<PlmnIdSet>) {
    && IsUdmSliceProfile(c.resourcePath) && c.operation == UPDATE
    && c.udmSliceProfile.plmnIdSets == sent
    && Has(rr, c.resourcePath) && At(rr, c.resourcePath).SliceProfileResource?
    && At(rr, c.resourcePath).profile.plmnIdSets == stored
  }

  // However many repetitions the stored profile holds, an update that keeps every stored list id
  // and takes its repetitions from the stored lists is accepted exactly when it has no PLMN sets
  // or meets the format rules.
  lemma KeepingUpdateAccepted(c: Change, rr: RelatedResources, stored: seq<PlmnIdSet>, sent: seq<PlmnIdSet>)
    requires Updates(c, rr, stored, sent) && WellKeyed(stored) && KeepsStored(sent, stored)
    ensures Accepted(c, rr) <==> sent == [] || PlmnIdSetsOk(sent, true)
  {
    hide PlmnIdSetsOk, CommonErrors, UpdateErrors, CheckChange, IsUdmSliceProfile, WellKeyed, KeepsStored;
    UpdateAnswer(c, rr, stored);
    CommonRulesAccept(sent, true, c.resourcePath);
    DirtyStoredDataNeverBlocks(sent, stored, c.resourcePath);
  }

  lemma UpdatesAccepted(c: Change, rr: RelatedResources, stored: seq<PlmnIdSet>, sent: seq<PlmnIdSet>)
    requires Updates(c, rr, stored, sent) && PlmnIdSetsOk(sent, true) && UpdateOk(sent, stored)
    ensures Accepted(c, rr)
  {
    hide PlmnIdSetsOk, UpdateOk, CheckChange, IsUdmSliceProfile;
    UpdateAnswer(c, rr, stored);
    CommonRulesAccept(sent, true, c.resourcePath);
    UpdateRulesAccept(sent, stored, c.resourcePath);
  }

  function DefaultDnn(): DnnData {
    DnnData("internet", Some(true), None, None, None, None, None, None, None, "", None, None, None, [])
  }

  // A list of each id, with the default DNN in it.
  function ListsOf(ids: seq<string>): (ls: seq<DnnList>)
    ensures |ls| == |ids|
  {
    seq(|ids|, i requires 0 <= i < |ids| => DnnList(ids[i], [DefaultDnn()], []))
  }

  function SetOf(plmn: string, ns: seq<NssaiDetails>, ids: seq<string>): PlmnIdSet {
    PlmnIdSet(plmn, SliceInfoNssai(ns, [], []), ListsOf(ids), false, ns != [], [])
  }

  lemma SetOfIsWellFormed(plmn: string, ns: seq<NssaiDetails>, ids: seq<string>)
    requires IsPlmnIdSetIdentifier(plmn) && DEFAULT_VALUE in ids
    requires forall n :: n in ns ==> NssaiDetailsOk(n) && n.dnnListId in ids
    ensures PlmnIdSetOk(SetOf(plmn, ns, ids), true)
  {
    hide NssaiDetailsOk, IsPlmnIdSetIdentifier;
    var s := SetOf(plmn, ns, ids);
    assert [DefaultDnn()][0] in [DefaultDnn()];
    forall id | id in ids
      ensures NamesDnnList(id, s)
    {
      var i :| 0 <= i < |ids| && ids[i] == id;
      assert s.dnnLists[i] in s.dnnLists;
    }
    assert s.nssai.defaultSingleNssais + s.nssai.singleNssais == ns;
  }

  lemma SetOfDnnsPass(plmn: string, ns: seq<NssaiDetails>, ids: seq<string>, stored: seq<PlmnIdSet>)
    ensures DnnsOk(SetOf(plmn, ns, ids), stored)
  {
    FlatMapOne(LowerDnnOf(), DefaultDnn());
    assert |LowerDnns([DefaultDnn()])| == 1;
  }

  lemma {:induction false} ListsOfKeys(plmn: string, ids: seq<string>)
    ensures FlatMap(ListKeyOf(plmn), ListsOf(ids)) == seq(|ids|, i requires 0 <= i < |ids| => Entry(plmn, ids[i]))
  {
    if ids != [] {
      var n := |ids| - 1;
      assert ListsOf(ids)[..n] == ListsOf(ids[..n]);
      ListsOfKeys(plmn, ids[..n]);
    }
  }

  // ---- a deletion that goes unreported ----

  lemma DeletionKeys(p: string, a: string)
    ensures ListKeys([SetOf(p, [], [DEFAULT_VALUE, a]), SetOf(DEFAULT_VALUE, [], [DEFAULT_VALUE])])
         == [Entry(p, DEFAULT_VALUE), Entry(p, a), Entry(DEFAULT_VALUE, DEFAULT_VALUE)]
    ensures ListKeys([SetOf(p, [], [DEFAULT_VALUE]), SetOf(DEFAULT_VALUE, [], [DEFAULT_VALUE, a])])
         == [Entry(p, DEFAULT_VALUE), Entry(DEFAULT_VALUE, DEFAULT_VALUE), Entry(DEFAULT_VALUE, a)]
  {
    hide FlatMap, SetOf;
    ListsOfKeys(p, [DEFAULT_VALUE, a]);
    ListsOfKeys(p, [DEFAULT_VALUE]);
    ListsOfKeys(DEFAULT_VALUE, [DEFAULT_VALUE, a]);
    ListsOfKeys(DEFAULT_VALUE, [DEFAULT_VALUE]);
    KeysOfSet(p, [DEFAULT_VALUE, a]);
    KeysOfSet(p, [DEFAULT_VALUE]);
    KeysOfSet(DEFAULT_VALUE, [DEFAULT_VALUE, a]);
    KeysOfSet(DEFAULT_VALUE, [DEFAULT_VALUE]);
    KeysOfTwo(SetOf(p, [], [DEFAULT_VALUE, a]), SetOf(DEFAULT_VALUE, [], [DEFAULT_VALUE]));
    KeysOfTwo(SetOf(p, [], [DEFAULT_VALUE]), SetOf(DEFAULT_VALUE, [], [DEFAULT_VALUE, a]));
  }

  lemma KeysOfSet(plmn: string, ids: seq<string>)
    ensures SetKeysOf()(SetOf(plmn, [], ids)) == FlatMap(ListKeyOf(plmn), ListsOf(ids))
  {
    hide FlatMap;
  }

  lemma KeysOfTwo(s: PlmnIdSet, t: PlmnIdSet)
    ensures ListKeys([s, t]) == SetKeysOf()(s) + SetKeysOf()(t)
  {
    assert [s] + [t] == [s, t];
    FlatMapAppend(SetKeysOf(), [s], [t]);
    FlatMapOne(SetKeysOf(), s);
    FlatMapOne(SetKeysOf(), t);
  }

  // Every id but "Default" can be deleted from every PLMN set but "Default": the stored pair (p, a)
  // is gone from the change, which lists a under "Default" instead, and the dispatcher accepts it
  // without an error.
  lemma DeletionCanGoUnreported(c: Change, rr: RelatedResources, p: string, a: string)
    requires IsPlmnIdSetIdentifier(p) && p != DEFAULT_VALUE && a != DEFAULT_VALUE
    requires Updates(c, rr,
                     [SetOf(p, [], [DEFAULT_VALUE, a]), SetOf(DEFAULT_VALUE, [], [DEFAULT_VALUE])],
                     [SetOf(p, [], [DEFAULT_VALUE]), SetOf(DEFAULT_VALUE, [], [DEFAULT_VALUE, a])])
    ensures Entry(p, a) in ListKeys(At(rr, c.resourcePath).profile.plmnIdSets)
    ensures Entry(p, a) !in ListKeys(c.udmSliceProfile.plmnIdSets)
    ensures Accepted(c, rr)
  {
    hide Accepted, IsUdmSliceProfile, SetOf, UpdateOk, PlmnIdSetsOk, ListKeys, IsPlmnIdSetIdentifier, Find;
    DeletionKeys(p, a);
    DeletionWellFormed(p, a);
    DeletionPasses(p, a);
    UpdatesAccepted(c, rr,
                    [SetOf(p, [], [DEFAULT_VALUE, a]), SetOf(DEFAULT_VALUE, [], [DEFAULT_VALUE])],
                    [SetOf(p, [], [DEFAULT_VALUE]), SetOf(DEFAULT_VALUE, [], [DEFAULT_VALUE, a])]);
  }

  lemma DeletionWellFormed(p: string, a: string)
    requires IsPlmnIdSetIdentifier(p)
    ensures PlmnIdSetsOk([SetOf(p, [], [DEFAULT_VALUE]), SetOf(DEFAULT_VALUE, [], [DEFAULT_VALUE, a])], true)
  {
    hide PlmnIdSetOk;
    SetOfIsWellFormed(p, [], [DEFAULT_VALUE]);
    DefaultIsLegal();
    SetOfIsWellFormed(DEFAULT_VALUE, [], [DEFAULT_VALUE, a]);
    var sets := [SetOf(p, [], [DEFAULT_VALUE]), SetOf(DEFAULT_VALUE, [], [DEFAULT_VALUE, a])];
    assert sets[1] in sets;
  }

  lemma DeletionPasses(p: string, a: string)
    requires IsPlmnIdSetIdentifier(p)
    ensures UpdateOk([SetOf(p, [], [DEFAULT_VALUE]), SetOf(DEFAULT_VALUE, [], [DEFAULT_VALUE, a])],
                     [SetOf(p, [], [DEFAULT_VALUE, a]), SetOf(DEFAULT_VALUE, [], [DEFAULT_VALUE])])
  {
    hide ListKeys, DnnsOk, IsPlmnIdSetIdentifier, Less;
    var stored := [SetOf(p, [], [DEFAULT_VALUE, a]), SetOf(DEFAULT_VALUE, [], [DEFAULT_VALUE])];
    var sets := [SetOf(p, [], [DEFAULT_VALUE]), SetOf(DEFAULT_VALUE, [], [DEFAULT_VALUE, a])];
    DeletionKeys(p, a);
    SetOfDnnsPass(p, [], [DEFAULT_VALUE], stored);
    SetOfDnnsPass(DEFAULT_VALUE, [], [DEFAULT_VALUE, a], stored);
    LegalPlmnNotAboveDefault(p);
    LessIrreflexive(p);
    LessIrreflexive(DEFAULT_VALUE);
    var keys := ListKeys(sets);
    assert keys[0] in keys && keys[1] in keys && keys[2] in keys;
  }

  // ---- a new repetition that is tolerated ----

  function Repeated(n: NssaiDetails, times: nat): PlmnIdSet {
    SetOf(DEFAULT_VALUE, seq(times, _ => n), [DEFAULT_VALUE, n.dnnListId])
  }

  // Any legal S-NSSAI that is stored once may be sent any number of times: the stored triple is
  // searched, not counted. A creation with the same data is rejected.
  lemma NewNssaiRepetitionTolerated(c: Change, rr: RelatedResources, n: NssaiDetails, times: nat)
    requires NssaiDetailsOk(n) && times >= 2
    requires Updates(c, rr, [Repeated(n, 1)], [Repeated(n, times)])
    ensures Accepted(c, rr)
    ensures !Accepted(c.(operation := CREATE), rr)
  {
    hide Accepted, IsUdmSliceProfile, Repeated, UpdateOk, PlmnIdSetsOk, NssaiDetailsOk, Find;
    RepetitionWellFormed(n, times);
    RepetitionPasses(n, times);
    UpdatesAccepted(c, rr, [Repeated(n, 1)], [Repeated(n, times)]);
    RepetitionNotCreated(c.(operation := CREATE), rr, n, times);
  }

  lemma RepetitionWellFormed(n: NssaiDetails, times: nat)
    requires NssaiDetailsOk(n)
    ensures PlmnIdSetsOk([Repeated(n, times)], true)
  {
    hide PlmnIdSetOk, NssaiDetailsOk;
    DefaultIsLegal();
    SetOfIsWellFormed(DEFAULT_VALUE, seq(times, _ => n), [DEFAULT_VALUE, n.dnnListId]);
    assert [Repeated(n, times)][0] in [Repeated(n, times)];
  }

  lemma RepetitionKept(n: NssaiDetails, times: nat)
    ensures NssaisOk(Repeated(n, times), [Repeated(n, 1)])
  {
    var s, kept := Repeated(n, times), Repeated(n, 1);
    assert Plmns([kept]) == [DEFAULT_VALUE];
    StoredNssaisFound([kept], kept);
    assert Triples(kept.nssai.defaultSingleNssais)[0] in Triples(kept.nssai.defaultSingleNssais);
  }

  lemma RepetitionPasses(n: NssaiDetails, times: nat)
    ensures UpdateOk([Repeated(n, times)], [Repeated(n, 1)])
  {
    hide NssaisOk, DnnsOk, ListKeys;
    RepetitionKept(n, times);
    SetOfDnnsPass(DEFAULT_VALUE, seq(times, _ => n), [DEFAULT_VALUE, n.dnnListId], [Repeated(n, 1)]);
    SameListKeys(n, times);
    forall k | k in ListKeys([Repeated(n, 1)])
      ensures IsKey(ListKeys([Repeated(n, times)]), k.key) && StandsAtOrAbove(ListKeys([Repeated(n, times)]), k.key, k.value)
    {
      LessIrreflexive(k.key);
    }
  }

  lemma SameListKeys(n: NssaiDetails, times: nat)
    ensures ListKeys([Repeated(n, times)]) == ListKeys([Repeated(n, 1)])
  {
    FlatMapOne(SetKeysOf(), Repeated(n, times));
    FlatMapOne(SetKeysOf(), Repeated(n, 1));
  }

  lemma RepetitionNotCreated(c: Change, rr: RelatedResources, n: NssaiDetails, times: nat)
    requires IsUdmSliceProfile(c.resourcePath) && c.operation == CREATE && times >= 2
    requires c.udmSliceProfile.plmnIdSets == [Repeated(n, times)]
    ensures !Accepted(c, rr)
  {
    hide IsUdmSliceProfile, CheckChange, CommonErrors, CreateErrors;
    CreateAnswer(c, rr);
    CreateRulesAccept([Repeated(n, times)], c.resourcePath);
    var s := Repeated(n, times);
    var keys := NssaiKeys(AllNssais(s));
    assert keys[0] == keys[1];
    assert s in [s];
  }

  // ---- accepted updates that are emitted in a form that is rejected ----

  // A set without lists, sent to a stored profile without PLMN sets: the id that is filled in
  // names no list.
  lemma EmittedUpdateCanBeRejected(c: Change, rr: RelatedResources, nssai: Snssai)
    requires 0 <= nssai.sst <= 255 && (nssai.sd != "" ==> IsSd(nssai.sd))
    requires Updates(c, rr, [], [BareSet(nssai)])
    ensures Accepted(c, rr) && !Accepted(Mutate(c), rr)
  {
    hide CheckChange, IsUdmSliceProfile, CommonErrors, CreateErrors, UpdateErrors, FilledInVain, Mutate, Find, BareSet;
    UpdateAnswer(c, rr, []);
    UpdateRefinesCreate([BareSet(nssai)], c.resourcePath);
    EmittedCreationCanBeRejected(nssai, c.resourcePath);
    BareSetFacts(nssai);
    MutatedChangeAccepted(c, rr);
    SlicePathIsNoSubscription(c.resourcePath);
    assert BareSet(nssai) in c.udmSliceProfile.plmnIdSets;
  }

  // An S-NSSAI stored and repeated without an id: it is emitted with the id "Default", with which
  // it is not stored.
  lemma EmittedRepetitionCanBeRejected(c: Change, rr: RelatedResources, n: NssaiDetails, times: nat)
    requires NssaiDetailsOk(n) && n.dnnListId == "" && times >= 2
    requires Updates(c, rr, [Repeated(n, 1)], [Repeated(n, times)])
    ensures Accepted(c, rr) && !Accepted(Mutate(c), rr)
  {
    hide Accepted, IsUdmSliceProfile, Repeated, NssaiDetailsOk, FilledInVain, FilledRepetitionsStored, Mutate, Find;
    NewNssaiRepetitionTolerated(c, rr, n, times);
    FilledRepetitionUnstored(n, times);
    MutatedChangeAccepted(c, rr);
    SlicePathIsNoSubscription(c.resourcePath);
    assert Repeated(n, times) in c.udmSliceProfile.plmnIdSets;
  }

  lemma FilledRepetitionUnstored(n: NssaiDetails, times: nat)
    requires n.dnnListId == "" && times >= 2
    ensures !FilledRepetitionsStored(Repeated(n, times), [Repeated(n, 1)])
  {
    var s, kept := Repeated(n, times), Repeated(n, 1);
    assert Plmns([kept]) == [DEFAULT_VALUE];
    StoredNssaisFound([kept], kept);
    var us := SetUses(s);
    assert us[..1][0].triple.key == us[1].triple.key;
    assert FilledAt(s, 1) && KeyUsed(us[..1], us[1].triple.key);
  }
}
