// Rewriting seen from the dispatcher: when an accepted change of any kind, and an accepted list of
// changes, is accepted again in the form in which it is emitted.
module MutatedChanges {
  import opened Text
  import opened OrderedMaps
  import opened Types
  import opened Paths
  import opened SliceProfileRules
  import opened UpdateRules
  import opened SubscriptionRules
  import opened Mutations
  import opened Runs
  import opened Dispatch

  predicate Accepted(c: Change, rr: RelatedResources) {
    CheckChange(c, rr) == Answer([])
  }

  // Every PLMN with a filled id has a list named "Default".
  predicate SliceDataStays(sets: seq<PlmnIdSet>, profile: UdmSliceProfile) {
    forall s :: s in sets && HasBlankId(s) ==> Resolved(Entry(s.plmnIdSetIdentifier, DEFAULT_VALUE), sets, profile)
  }

  // What a caller can read off an accepted change to know whether its rewritten form is accepted.
  predicate StaysAccepted(c: Change, rr: RelatedResources) {
    if IsUdmStaticData(c.resourcePath) && (c.operation == CREATE || c.operation == UPDATE) then
      var search := RelatedProfile(rr, c.udmStaticData.udmSliceProfileId);
      c.udmStaticData.hasUdmSliceData && search.Found? ==> SliceDataStays(c.udmStaticData.sliceDataPlmnIdSets, search.profile)
    else if IsUdmSliceProfile(c.resourcePath) && c.operation == CREATE then
      forall s :: s in c.udmSliceProfile.plmnIdSets ==> !FilledInVain(s)
    else if IsUdmSliceProfile(c.resourcePath) && c.operation == UPDATE && Has(rr, c.resourcePath) && At(rr, c.resourcePath).SliceProfileResource? then
      forall s :: s in c.udmSliceProfile.plmnIdSets ==>
        !FilledInVain(s) && FilledRepetitionsStored(s, At(rr, c.resourcePath).profile.plmnIdSets)
    else true
  }

  // Rewriting leaves alone all that the rules read besides the PLMN sets.
  lemma MutateFrame(c: Change)
    ensures var m := Mutate(c);
            && m.operation == c.operation && m.resourcePath == c.resourcePath
            && m.udmRoamingArea == c.udmRoamingArea && m.smsStaticData == c.smsStaticData
            && m.udmStaticData.scalarFaults == c.udmStaticData.scalarFaults
            && m.udmStaticData.udmSliceProfileId == c.udmStaticData.udmSliceProfileId
            && m.udmStaticData.hasUdmSliceData == c.udmStaticData.hasUdmSliceData
  {
    hide MutateSets;
  }

  lemma MutateOfSubscription(c: Change)
    requires IsUdmStaticData(c.resourcePath)
    ensures Mutate(c).udmStaticData.sliceDataPlmnIdSets == MutateSets(c.udmStaticData.sliceDataPlmnIdSets)
  {
    hide MutateSets;
    SubscriptionPathNamesData(c.resourcePath);
  }

  lemma MutateOfProfile(c: Change)
    requires IsUdmSliceProfile(c.resourcePath) && (c.operation == CREATE || c.operation == UPDATE)
    ensures Mutate(c).udmSliceProfile == c.udmSliceProfile.(plmnIdSets := MutateSets(c.udmSliceProfile.plmnIdSets))
  {
    hide MutateSets;
    SlicePathNamesProfiles(c.resourcePath);
  }

  // ---- subscriptions ----

  lemma NothingBefore(a: seq<Error>, b: seq<Error>)
    ensures a + b == [] <==> a == [] && b == []
  {
  }

  lemma MutatedSubscription(c: Change, profile: UdmSliceProfile)
    requires IsUdmStaticData(c.resourcePath) && SubscriptionErrors(c, profile) == []
    ensures SubscriptionErrors(Mutate(c), profile) == []
       <==> (c.udmStaticData.hasUdmSliceData ==> SliceDataStays(c.udmStaticData.sliceDataPlmnIdSets, profile))
  {
    hide SliceDataErrors, ScalarErrors, MutateSets, Mutate, Resolved, HasBlankId;
    MutateFrame(c);
    MutateOfSubscription(c);
    if c.udmStaticData.hasUdmSliceData {
      MutatedSliceDataAccepted(c.udmStaticData.sliceDataPlmnIdSets, profile, c.resourcePath);
    }
  }

  lemma MutatedWithProfile(before: seq<Error>, c: Change, rr: RelatedResources)
    requires IsUdmStaticData(c.resourcePath) && CheckWithProfile(before, c, rr) == Answer([])
    ensures before == [] && RelatedProfile(rr, c.udmStaticData.udmSliceProfileId).Found?
    ensures CheckWithProfile(before, Mutate(c), rr) == Answer([])
       <==> (c.udmStaticData.hasUdmSliceData ==>
               SliceDataStays(c.udmStaticData.sliceDataPlmnIdSets, RelatedProfile(rr, c.udmStaticData.udmSliceProfileId).profile))
  {
    hide SubscriptionErrors, Mutate, SliceDataStays, RelatedProfile;
    MutateFrame(c);
    var search := RelatedProfile(rr, c.udmStaticData.udmSliceProfileId);
    assert search.Found?;
    NothingBefore(before, SubscriptionErrors(c, search.profile));
    MutatedSubscription(c, search.profile);
  }

  lemma MutatedSubscriptionChange(c: Change, rr: RelatedResources)
    requires IsUdmStaticData(c.resourcePath) && (c.operation == CREATE || c.operation == UPDATE)
    requires Accepted(c, rr)
    ensures Accepted(Mutate(c), rr) <==> StaysAccepted(c, rr)
  {
    hide CheckWithProfile, Mutate, SliceDataStays, RelatedProfile, IsUdmStaticData, ProvJournalPath, GetMscId, Find, At, ImsiErrors;
    MutateFrame(c);
    var journal := ProvJournalPath(GetMscId(c.resourcePath));
    if c.operation == CREATE {
      assert Has(rr, journal) && At(rr, journal).ProvJournalResource?;
      MutatedWithProfile(ImsiErrors(At(rr, journal).imsi, c.resourcePath, GetMscId(c.resourcePath)), c, rr);
    } else {
      assert Has(rr, c.resourcePath);
      MutatedWithProfile([], c, rr);
    }
  }

  // ---- slice profiles ----

  lemma UpdateAnswer(c: Change, rr: RelatedResources, stored: seq<PlmnIdSet>)
    requires IsUdmSliceProfile(c.resourcePath) && c.operation == UPDATE
    requires Has(rr, c.resourcePath) && At(rr, c.resourcePath).SliceProfileResource?
    requires At(rr, c.resourcePath).profile.plmnIdSets == stored
    ensures CheckChange(c, rr) == Answer(UpdateProfileErrors(c.udmSliceProfile.plmnIdSets, stored, c.resourcePath))
  {
    hide IsUdmSliceProfile, IsUdmStaticData, CommonErrors, UpdateErrors, Find;
    SlicePathIsNoSubscription(c.resourcePath);
  }

  lemma CreateAnswer(c: Change, rr: RelatedResources)
    requires IsUdmSliceProfile(c.resourcePath) && c.operation == CREATE
    ensures CheckChange(c, rr) == Answer(CreateProfileErrors(c.udmSliceProfile.plmnIdSets, c.resourcePath))
  {
    hide IsUdmSliceProfile, IsUdmStaticData, CreateProfileErrors;
    SlicePathIsNoSubscription(c.resourcePath);
  }

  lemma MutatedProfileChange(c: Change, rr: RelatedResources)
    requires IsUdmSliceProfile(c.resourcePath) && (c.operation == CREATE || c.operation == UPDATE)
    requires Accepted(c, rr)
    ensures Accepted(Mutate(c), rr) <==> StaysAccepted(c, rr)
  {
    hide IsUdmSliceProfile, IsUdmStaticData, Mutate, MutateSets, CreateProfileErrors, UpdateProfileErrors, FilledInVain,
         FilledRepetitionsStored, Find;
    MutateFrame(c);
    MutateOfProfile(c);
    SlicePathIsNoSubscription(c.resourcePath);
    if c.operation == CREATE {
      CreateAnswer(c, rr);
      CreateAnswer(Mutate(c), rr);
      MutatedCreateAccepted(c.udmSliceProfile.plmnIdSets, c.resourcePath);
    } else {
      AcceptedUpdateHasStored(c, rr);
      var stored := At(rr, c.resourcePath).profile.plmnIdSets;
      UpdateAnswer(c, rr, stored);
      UpdateAnswer(Mutate(c), rr, stored);
      MutatedUpdateAccepted(c.udmSliceProfile.plmnIdSets, stored, c.resourcePath);
    }
  }

  lemma AcceptedUpdateHasStored(c: Change, rr: RelatedResources)
    requires IsUdmSliceProfile(c.resourcePath) && c.operation == UPDATE && Accepted(c, rr)
    ensures Has(rr, c.resourcePath) && At(rr, c.resourcePath).SliceProfileResource?
  {
    hide IsUdmSliceProfile, IsUdmStaticData, Find, CommonErrors, UpdateErrors;
    SlicePathIsNoSubscription(c.resourcePath);
  }

  // ---- every kind of change ----

  // The other kinds of change do not look at PLMN sets.
  lemma MutatedOtherChange(c: Change, rr: RelatedResources)
    requires !((IsUdmStaticData(c.resourcePath) || IsUdmSliceProfile(c.resourcePath)) && (c.operation == CREATE || c.operation == UPDATE))
    ensures CheckChange(Mutate(c), rr) == CheckChange(c, rr) && StaysAccepted(c, rr)
  {
    hide Mutate, IsUdmStaticData, IsUdmSliceProfile, IsUdmRoamingArea, IsSmsSubscription, RoamingAreaRules.RoamingAreaErrors,
         SmsRules.SmsErrors, Find, At, ProvJournalPath, GetSmsStaticDataMscId;
    MutateFrame(c);
  }

  // An accepted change of any kind is accepted again as emitted, against the same related
  // resources, exactly when StaysAccepted holds of it.
  lemma MutatedChangeAccepted(c: Change, rr: RelatedResources)
    requires Accepted(c, rr)
    ensures Accepted(Mutate(c), rr) <==> StaysAccepted(c, rr)
  {
    hide Accepted, StaysAccepted, CheckChange, Mutate, IsUdmStaticData, IsUdmSliceProfile;
    if IsUdmStaticData(c.resourcePath) && (c.operation == CREATE || c.operation == UPDATE) {
      MutatedSubscriptionChange(c, rr);
    } else if IsUdmSliceProfile(c.resourcePath) && (c.operation == CREATE || c.operation == UPDATE) {
      MutatedProfileChange(c, rr);
    } else {
      MutatedOtherChange(c, rr);
      SameAnswer(c, Mutate(c), rr);
    }
  }

  lemma SameAnswer(c: Change, d: Change, rr: RelatedResources)
    requires CheckChange(c, rr) == CheckChange(d, rr)
    ensures Accepted(c, rr) <==> Accepted(d, rr)
  {
    hide CheckChange;
  }

  // ---- runs ----

  // Rewriting does not decide whether a change throws.
  lemma MutatedThrowsAlike(c: Change, rr: RelatedResources)
    ensures CheckChange(Mutate(c), rr).resp.Some? <==> CheckChange(c, rr).resp.Some?
  {
    hide Mutate, IsUdmStaticData, IsUdmSliceProfile, IsUdmRoamingArea, IsSmsSubscription, SubscriptionErrors, CommonErrors, UpdateErrors,
         CreateProfileErrors, RoamingAreaRules.RoamingAreaErrors, SmsRules.SmsErrors, Find, At, ProvJournalPath, GetMscId,
         GetSmsStaticDataMscId, RelatedProfile, ImsiErrors, ProfileFormatErrors;
    MutateFrame(c);
  }

  lemma AcceptedIsValid(c: Change, rr: RelatedResources)
    requires CheckChange(c, rr).resp.Some?
    ensures Accepted(c, rr) <==> IsValid(c, CheckOf(rr))
  {
    ChangeCoheres(c, rr);
    hide CheckChange;
  }

  // A list of changes accepted as a whole, sent again as emitted against the same related
  // resources, is accepted exactly when StaysAccepted holds of every change; and it is then
  // emitted as it was sent.
  lemma EmittedRunAccepted(cs: seq<Change>, rr: RelatedResources)
    requires NoThrow(cs, CheckOf(rr)) && RunRules(cs, rr).resp.valid
    ensures var sent := RunRules(cs, rr).emitted;
            && (RunRules(sent, rr).resp == OK <==> forall c :: c in cs ==> StaysAccepted(c, rr))
            && (RunRules(sent, rr).resp == OK ==> RunRules(sent, rr).emitted == sent)
  {
    hide CheckChange, RunRules, Accepted, StaysAccepted, Mutate, IsValid, ValidPrefix;
    RunIsFold(cs, rr);
    AllValid(cs, CheckOf(rr));
    assert cs[..|cs|] == cs;
    var sent := MutateAll(cs, MutateOf());
    assert RunRules(cs, rr).emitted == sent;
    EmittedNeverThrows(cs, rr);
    RunIsFold(sent, rr);
    AllValid(sent, CheckOf(rr));
    assert sent[..|sent|] == sent;
    EmittedIsFixed(cs);
    EmittedValid(cs, rr);
    ValidIsOk(sent, rr);
  }

  lemma ValidIsOk(cs: seq<Change>, rr: RelatedResources)
    requires NoThrow(cs, CheckOf(rr))
    ensures RunRules(cs, rr).resp == OK <==> forall c :: c in cs ==> IsValid(c, CheckOf(rr))
  {
    hide CheckChange, RunRules, IsValid, ValidPrefix;
    RunIsFold(cs, rr);
  }

  lemma EmittedNeverThrows(cs: seq<Change>, rr: RelatedResources)
    requires NoThrow(cs, CheckOf(rr))
    ensures NoThrow(MutateAll(cs, MutateOf()), CheckOf(rr))
  {
    hide CheckChange, Mutate;
    var sent := MutateAll(cs, MutateOf());
    forall d | d in sent
      ensures CheckOf(rr)(d).resp.Some?
    {
      var i :| 0 <= i < |sent| && sent[i] == d;
      assert cs[i] in cs && CheckOf(rr)(cs[i]).resp.Some?;
      MutatedThrowsAlike(cs[i], rr);
    }
  }

  lemma EmittedIsFixed(cs: seq<Change>)
    ensures MutateAll(MutateAll(cs, MutateOf()), MutateOf()) == MutateAll(cs, MutateOf())
  {
    hide Mutate;
    forall i | 0 <= i < |cs|
      ensures MutateOf()(MutateOf()(cs[i])) == MutateOf()(cs[i])
    {
      MutateIdempotent(cs[i]);
    }
  }

  lemma EmittedValid(cs: seq<Change>, rr: RelatedResources)
    requires NoThrow(cs, CheckOf(rr)) && forall c :: c in cs ==> IsValid(c, CheckOf(rr))
    ensures (forall d :: d in MutateAll(cs, MutateOf()) ==> IsValid(d, CheckOf(rr))) <==> forall c :: c in cs ==> StaysAccepted(c, rr)
  {
    hide CheckChange, Accepted, StaysAccepted, Mutate, IsValid;
    var sent := MutateAll(cs, MutateOf());
    assert |sent| == |cs| && forall i :: 0 <= i < |cs| ==> sent[i] == Mutate(cs[i]);
    forall i | 0 <= i < |cs|
      ensures IsValid(sent[i], CheckOf(rr)) <==> StaysAccepted(cs[i], rr)
    {
      var c := cs[i];
      assert c in cs && CheckOf(rr)(c).resp.Some?;
      MutatedThrowsAlike(c, rr);
      AcceptedIsValid(c, rr);
      AcceptedIsValid(Mutate(c), rr);
      MutatedChangeAccepted(c, rr);
    }
    if forall c :: c in cs ==> StaysAccepted(c, rr) {
      forall d | d in sent
        ensures IsValid(d, CheckOf(rr))
      {
        var i :| 0 <= i < |sent| && sent[i] == d;
        assert cs[i] in cs;
      }
    }
    if forall d :: d in sent ==> IsValid(d, CheckOf(rr)) {
      forall c | c in cs
        ensures StaysAccepted(c, rr)
      {
        var i :| 0 <= i < |cs| && cs[i] == c;
        assert sent[i] in sent;
      }
    }
  }
}
