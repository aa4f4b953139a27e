// What the dispatcher answers to each kind of change, in terms of the fields of the change and of
// the related resources: the code, the errors that are answered with 422, and exactly when a change
// is accepted.
module Answers {
  import opened JsonModel
  import opened Text
  import opened OrderedMaps
  import opened Types
  import opened Paths
  import opened SliceProfileRules
  import opened CreateRules
  import opened UpdateRules
  import opened SubscriptionRules
  import opened RoamingAreaRules
  import opened SmsRules
  import opened Repetitions
  import opened Runs
  import opened Dispatch
  import opened MutatedChanges

  // ---- the related slice profile ----

  // Entry i stands under a slice profile path.
  predicate UnderProfilePath(rr: RelatedResources, i: nat) {
    i < |rr| && IsUdmSliceProfile(rr[i].key)
  }

  predicate HoldsProfile(rr: RelatedResources, i: nat, id: string) {
    i < |rr| && rr[i].value.SliceProfileResource? && rr[i].value.profile.udmSliceProfileId == id
  }

  // The first n entries under slice profile paths hold slice profiles of other ids.
  predicate OthersBefore(rr: RelatedResources, n: nat, id: string) {
    forall j :: 0 <= j < n && UnderProfilePath(rr, j) ==> rr[j].value.SliceProfileResource? && !HoldsProfile(rr, j, id)
  }

  predicate FoundAt(rr: RelatedResources, i: nat, id: string) {
    UnderProfilePath(rr, i) && HoldsProfile(rr, i, id) && OthersBefore(rr, i, id)
  }

  predicate WrongAt(rr: RelatedResources, i: nat, id: string) {
    UnderProfilePath(rr, i) && !rr[i].value.SliceProfileResource? && OthersBefore(rr, i, id)
  }

  // The search finds the first profile of the id, in key order, when only profiles of other ids
  // stand before it; it throws at a wrong variant that stands before the first fit; and it finds
  // none exactly when all entries under slice profile paths hold profiles of other ids.
  lemma {:induction false} RelatedProfileExactly(rr: RelatedResources, id: string)
    ensures forall p :: RelatedProfile(rr, id) == Found(p) <==> exists i :: 0 <= i < |rr| && FoundAt(rr, i, id) && rr[i].value.profile == p
    ensures RelatedProfile(rr, id).BadGet? <==> exists i :: 0 <= i < |rr| && WrongAt(rr, i, id)
    ensures RelatedProfile(rr, id).NotFound? <==> OthersBefore(rr, |rr|, id)
  {
    SearchResult(rr, id);
    match RelatedProfile(rr, id)
    case Found(p) =>
      var i :| 0 <= i < |rr| && FoundAt(rr, i, id) && rr[i].value.profile == p;
      OnlyOneEnd(rr, i, id);
      assert forall j :: 0 <= j < |rr| && (FoundAt(rr, j, id) || WrongAt(rr, j, id)) ==> EndsAt(rr, j, id);
    case BadGet =>
      var i :| 0 <= i < |rr| && WrongAt(rr, i, id);
      OnlyOneEnd(rr, i, id);
      assert forall j :: 0 <= j < |rr| && (FoundAt(rr, j, id) || WrongAt(rr, j, id)) ==> EndsAt(rr, j, id);
    case NotFound =>
      forall i | 0 <= i < |rr|
        ensures !FoundAt(rr, i, id) && !WrongAt(rr, i, id)
      {
        assert UnderProfilePath(rr, i) ==> rr[i].value.SliceProfileResource? && !HoldsProfile(rr, i, id);
      }
  }

  lemma {:induction false} SearchResult(rr: RelatedResources, id: string)
    ensures match RelatedProfile(rr, id)
            case Found(p) => exists i :: 0 <= i < |rr| && FoundAt(rr, i, id) && rr[i].value.profile == p
            case BadGet => exists i :: 0 <= i < |rr| && WrongAt(rr, i, id)
            case NotFound => OthersBefore(rr, |rr|, id)
  {
    hide IsUdmSliceProfile;
    if rr != [] {
      var rest := rr[1..];
      SearchResult(rest, id);
      assert forall j :: 0 <= j < |rest| ==> rest[j] == rr[j + 1];
      if !UnderProfilePath(rr, 0) || (rr[0].value.SliceProfileResource? && !HoldsProfile(rr, 0, id)) {
        forall n: nat | n <= |rest| && OthersBefore(rest, n, id)
          ensures OthersBefore(rr, n + 1, id)
        {
          OthersShift(rr, n, id);
        }
        match RelatedProfile(rest, id)
        case Found(p) =>
          var i :| 0 <= i < |rest| && FoundAt(rest, i, id) && rest[i].value.profile == p;
          assert FoundAt(rr, i + 1, id);
        case BadGet =>
          var i :| 0 <= i < |rest| && WrongAt(rest, i, id);
          assert WrongAt(rr, i + 1, id);
        case NotFound =>
      } else {
        assert OthersBefore(rr, 0, id);
        assert FoundAt(rr, 0, id) || WrongAt(rr, 0, id);
      }
    }
  }

  lemma OthersShift(rr: RelatedResources, n: nat, id: string)
    requires rr != [] && n <= |rr| - 1 && OthersBefore(rr[1..], n, id)
    requires !UnderProfilePath(rr, 0) || (rr[0].value.SliceProfileResource? && !HoldsProfile(rr, 0, id))
    ensures OthersBefore(rr, n + 1, id)
  {
    hide IsUdmSliceProfile;
    forall j | 0 <= j < n + 1 && UnderProfilePath(rr, j)
      ensures rr[j].value.SliceProfileResource? && !HoldsProfile(rr, j, id)
    {
      if j > 0 {
        assert rr[1..][j - 1] == rr[j];
        assert UnderProfilePath(rr[1..], j - 1);
      }
    }
  }

  function FoundProfile(rr: RelatedResources, i: nat, id: string): (p: UdmSliceProfile)
    requires FoundAt(rr, i, id)
    ensures i < |rr| && rr[i].value == SliceProfileResource(p) && p.udmSliceProfileId == id
  {
    rr[i].value.profile
  }

  predicate EndsAt(rr: RelatedResources, i: nat, id: string) {
    FoundAt(rr, i, id) || WrongAt(rr, i, id)
  }

  lemma EndStops(rr: RelatedResources, i: nat, n: nat, id: string)
    requires EndsAt(rr, i, id) && i < n
    ensures !OthersBefore(rr, n, id)
  {
    hide IsUdmSliceProfile;
    assert UnderProfilePath(rr, i);
  }

  // At most one entry ends the search.
  lemma OnlyOneEnd(rr: RelatedResources, i: nat, id: string)
    requires EndsAt(rr, i, id)
    ensures forall j: nat :: EndsAt(rr, j, id) ==> j == i
    ensures !OthersBefore(rr, |rr|, id)
  {
    hide IsUdmSliceProfile, OthersBefore;
    EndStops(rr, i, |rr|, id);
    forall j: nat | EndsAt(rr, j, id)
      ensures j == i
    {
      if j < i {
        EndStops(rr, j, i, id);
      } else if i < j {
        EndStops(rr, i, j, id);
      }
    }
  }

  // ---- subscriptions ----

  // A reference is defined in the slice data or in the associated profile.
  predicate ReferencesDefinedIn(sets: seq<PlmnIdSet>, profile: UdmSliceProfile) {
    forall s, n :: s in sets && n in s.nssai.defaultSingleNssais + s.nssai.singleNssais && n.dnnListId != "" ==>
      || DefinesList(sets, s.plmnIdSetIdentifier, n.dnnListId)
      || DefinesList(profile.plmnIdSets, s.plmnIdSetIdentifier, n.dnnListId)
  }

  predicate SliceDataMeetsRules(sets: seq<PlmnIdSet>, profile: UdmSliceProfile) {
    && PlmnIdSetsOk(sets, false)
    && (forall s :: s in sets ==> NothingTwice(s))
    && ReferencesDefinedIn(sets, profile)
  }

  predicate SubscriptionMeetsRules(c: Change, profile: UdmSliceProfile) {
    && c.udmStaticData.scalarFaults == []
    && (c.udmStaticData.hasUdmSliceData ==> SliceDataMeetsRules(c.udmStaticData.sliceDataPlmnIdSets, profile))
  }

  lemma ReferencesOfFields(sets: seq<PlmnIdSet>, profile: UdmSliceProfile)
    ensures ReferencesDefined(sets, profile) <==> ReferencesDefinedIn(sets, profile)
  {
    hide ListKeys, DefinesList;
    forall k: Entry<string>
      ensures Resolved(k, sets, profile) <==> DefinesList(sets, k.key, k.value) || DefinesList(profile.plmnIdSets, k.key, k.value)
    {
      ListKeysMembers(sets, k);
      ListKeysMembers(profile.plmnIdSets, k);
    }
    if ReferencesDefined(sets, profile) {
      forall s, n | s in sets && n in s.nssai.defaultSingleNssais + s.nssai.singleNssais && n.dnnListId != ""
        ensures DefinesList(sets, s.plmnIdSetIdentifier, n.dnnListId) || DefinesList(profile.plmnIdSets, s.plmnIdSetIdentifier, n.dnnListId)
      {
        var k := Entry(s.plmnIdSetIdentifier, n.dnnListId);
        assert PointsTo(sets, k) by {
          assert n in AllNssais(s);
        }
        assert Resolved(k, sets, profile);
      }
    }
    if ReferencesDefinedIn(sets, profile) {
      forall k | PointsTo(sets, k)
        ensures Resolved(k, sets, profile)
      {
        var s, n :| s in sets && s.plmnIdSetIdentifier == k.key && n in AllNssais(s) && n.dnnListId == k.value;
        assert n in s.nssai.defaultSingleNssais + s.nssai.singleNssais;
      }
    }
  }

  lemma SubscriptionErrorsNone(c: Change, profile: UdmSliceProfile)
    ensures SubscriptionErrors(c, profile) == [] <==> SubscriptionMeetsRules(c, profile)
  {
    hide SliceDataErrors, PlmnIdSetsOk, NothingTwice, SetDistinct, ReferencesDefined, ReferencesDefinedIn, CreateErrors;
    var sets, path := c.udmStaticData.sliceDataPlmnIdSets, c.resourcePath;
    SliceDataAccept(sets, profile, path);
    CreationRepetitions(sets, path);
    CreateRulesAccept(sets, path);
    ReferencesOfFields(sets, profile);
  }

  // The journal a subscription needs.
  function JournalPath(mscId: string): string {
    "/subscribers/" + mscId + "/journal/provJournal"
  }

  function MissingJournal(c: Change, mscId: string): Error {
    Error(UnprocessableEntity, c.resourcePath, NoProvJournal(mscId, JournalPath(mscId)))
  }

  function MissingProfile(c: Change, mscId: string): Error {
    Error(UnprocessableEntity, c.resourcePath, NoSliceProfile(c.udmStaticData.udmSliceProfileId, mscId))
  }

  function MissingImsi(c: Change, mscId: string): Error {
    Error(ConstraintViolation, c.resourcePath, NoImsi(mscId))
  }

  function MissingResource(c: Change): Error {
    Error(UnprocessableEntity, c.resourcePath, NoRelatedResource(c.resourcePath))
  }

  predicate IsSubscriptionOf(path: string, mscId: string) {
    path == "/subscribers/" + mscId + "/udmSubscription/udmStaticAndRegistrationData/udmStaticData"
  }

  predicate IsSmsSubscriptionOf(path: string, mscId: string) {
    path == "/subscribers/" + mscId + "/smsSubscription/smsStaticAndRegistrationData/smsStaticData"
  }

  function CodeFor(accepted: bool): Option<ValidationResponse> {
    Some(if accepted then ValidationResponse(true, 200) else ValidationResponse(false, 409))
  }

  // The end of both answers: 422 without a related profile of the id, otherwise 200 or 409 as the
  // IMSI and the rules decide.
  predicate AnsweredByProfile(c: Change, rr: RelatedResources, mscId: string, before: seq<Error>, answer: Checked) {
    var id := c.udmStaticData.udmSliceProfileId;
    && (OthersBefore(rr, |rr|, id) ==>
          answer == Checked(before + [MissingProfile(c, mscId)], Some(ValidationResponse(false, 422))))
    && (forall i :: 0 <= i < |rr| && FoundAt(rr, i, id) ==>
          before <= answer.errors && answer.resp == CodeFor(before == [] && SubscriptionMeetsRules(c, FoundProfile(rr, i, id))))
    && (forall i :: 0 <= i < |rr| && WrongAt(rr, i, id) ==> answer.resp == None)
  }

  lemma WithProfileAnswers(before: seq<Error>, c: Change, rr: RelatedResources, mscId: string)
    requires GetMscId(c.resourcePath) == mscId
    ensures AnsweredByProfile(c, rr, mscId, before, CheckWithProfile(before, c, rr))
  {
    hide SubscriptionErrors, SubscriptionMeetsRules, RelatedProfile, OthersBefore, FoundAt, WrongAt, GetMscId;
    var id := c.udmStaticData.udmSliceProfileId;
    RelatedProfileExactly(rr, id);
    forall i | 0 <= i < |rr| && FoundAt(rr, i, id)
      ensures before <= CheckWithProfile(before, c, rr).errors
      ensures CheckWithProfile(before, c, rr).resp == CodeFor(before == [] && SubscriptionMeetsRules(c, FoundProfile(rr, i, id)))
    {
      var p := FoundProfile(rr, i, id);
      assert RelatedProfile(rr, id) == Found(p);
      SubscriptionErrorsNone(c, p);
      NothingBefore(before, SubscriptionErrors(c, p));
    }
  }

  // A creation of the subscription of mscId: 422 without the subscriber's journal, otherwise the
  // journal must have an IMSI, and the related profile of the id decides.
  lemma CreateSubscriptionAnswer(c: Change, rr: RelatedResources, mscId: string)
    requires IsSubscriptionOf(c.resourcePath, mscId) && c.operation == CREATE
    ensures !Has(rr, JournalPath(mscId)) ==>
              CheckChange(c, rr) == Checked([MissingJournal(c, mscId)], Some(ValidationResponse(false, 422)))
    ensures Has(rr, JournalPath(mscId)) && At(rr, JournalPath(mscId)).ProvJournalResource? ==>
              AnsweredByProfile(c, rr, mscId, if At(rr, JournalPath(mscId)).imsi == "" then [MissingImsi(c, mscId)] else [], CheckChange(c, rr))
  {
    hide CheckWithProfile, AnsweredByProfile, Find, At, IsUdmStaticData, GetMscId, ProvJournalPath;
    SubscriptionPath(c.resourcePath, mscId);
    JournalPathIs(mscId);
    if Has(rr, JournalPath(mscId)) && At(rr, JournalPath(mscId)).ProvJournalResource? {
      WithProfileAnswers(if At(rr, JournalPath(mscId)).imsi == "" then [MissingImsi(c, mscId)] else [], c, rr, mscId);
    }
  }

  lemma SubscriptionPath(path: string, mscId: string)
    requires IsSubscriptionOf(path, mscId)
    ensures IsUdmStaticData(path) && GetMscId(path) == mscId
  {
    MscIdRoundTrip(path, mscId);
  }

  lemma JournalPathIs(mscId: string)
    ensures ProvJournalPath(mscId) == JournalPath(mscId)
  {
  }

  // An update of a subscription: 422 without the stored subscription, otherwise the related profile
  // of the id decides.
  lemma UpdateSubscriptionAnswer(c: Change, rr: RelatedResources, mscId: string)
    requires IsSubscriptionOf(c.resourcePath, mscId) && c.operation == UPDATE
    ensures !Has(rr, c.resourcePath) ==> CheckChange(c, rr) == Checked([MissingResource(c)], Some(ValidationResponse(false, 422)))
    ensures Has(rr, c.resourcePath) ==> AnsweredByProfile(c, rr, mscId, [], CheckChange(c, rr))
  {
    hide CheckWithProfile, AnsweredByProfile, Find, IsUdmStaticData, GetMscId;
    SubscriptionPath(c.resourcePath, mscId);
    WithProfileAnswers([], c, rr, mscId);
  }

  // An accepted subscription has a related profile of its id, whose rules it meets, and on creation
  // a journal with an IMSI.
  lemma AcceptedSubscription(c: Change, rr: RelatedResources, mscId: string)
    requires IsSubscriptionOf(c.resourcePath, mscId) && (c.operation == CREATE || c.operation == UPDATE)
    ensures Accepted(c, rr)
       <==> && (exists i :: 0 <= i < |rr| && FoundAt(rr, i, c.udmStaticData.udmSliceProfileId) && SubscriptionMeetsRules(c, rr[i].value.profile))
            && (if c.operation == CREATE
                then Has(rr, JournalPath(mscId)) && At(rr, JournalPath(mscId)).ProvJournalResource? && At(rr, JournalPath(mscId)).imsi != ""
                else Has(rr, c.resourcePath))
  {
    hide CheckChange, SubscriptionMeetsRules, FoundAt, WrongAt, OthersBefore, Find, At, JournalPath, IsSubscriptionOf, RelatedProfile;
    AcceptedByCode(c, rr);
    RelatedProfileExactly(rr, c.udmStaticData.udmSliceProfileId);
    SomeEnd(rr, c.udmStaticData.udmSliceProfileId);
    if c.operation == CREATE {
      CreateSubscriptionAnswer(c, rr, mscId);
      if Has(rr, JournalPath(mscId)) && !At(rr, JournalPath(mscId)).ProvJournalResource? {
        WrongJournal(c, rr, mscId);
      }
    } else {
      UpdateSubscriptionAnswer(c, rr, mscId);
    }
  }

  lemma WrongJournal(c: Change, rr: RelatedResources, mscId: string)
    requires IsSubscriptionOf(c.resourcePath, mscId) && c.operation == CREATE
    requires Has(rr, JournalPath(mscId)) && !At(rr, JournalPath(mscId)).ProvJournalResource?
    ensures CheckChange(c, rr).resp == None
  {
    hide CheckWithProfile, Find, At, IsUdmStaticData, GetMscId, ProvJournalPath;
    SubscriptionPath(c.resourcePath, mscId);
    JournalPathIs(mscId);
  }

  // One of the three ends of the search is reached.
  lemma SomeEnd(rr: RelatedResources, id: string)
    ensures || OthersBefore(rr, |rr|, id)
            || (exists i :: 0 <= i < |rr| && FoundAt(rr, i, id))
            || (exists i :: 0 <= i < |rr| && WrongAt(rr, i, id))
  {
    hide OthersBefore, FoundAt, WrongAt;
    SearchResult(rr, id);
  }

  lemma AcceptedByCode(c: Change, rr: RelatedResources)
    ensures Accepted(c, rr) <==> CheckChange(c, rr).resp == Some(ValidationResponse(true, 200))
  {
    ChangeCoheres(c, rr);
    hide CheckChange;
  }

  // ---- slice profiles ----

  predicate CreationMeetsRules(sets: seq<PlmnIdSet>) {
    (sets != [] ==> PlmnIdSetsOk(sets, true)) && forall s :: s in sets ==> NothingTwice(s)
  }

  predicate UpdateMeetsRules(sets: seq<PlmnIdSet>, stored: seq<PlmnIdSet>) {
    && (sets != [] ==> PlmnIdSetsOk(sets, true))
    && (forall s :: s in sets ==> RepetitionsExcused(s, stored))
    && forall t, r :: t in stored && r in t.dnnLists ==> ScannedFor(sets, t.plmnIdSetIdentifier, r.dnnListId)
  }

  lemma CreateProfileAnswer(c: Change, rr: RelatedResources)
    requires IsUdmSliceProfile(c.resourcePath) && c.operation == CREATE
    ensures CheckChange(c, rr).resp == CodeFor(CreationMeetsRules(c.udmSliceProfile.plmnIdSets))
  {
    hide CheckChange, IsUdmSliceProfile, CommonErrors, CreateErrors, PlmnIdSetsOk, NothingTwice;
    CreateAnswer(c, rr);
    CommonRulesAccept(c.udmSliceProfile.plmnIdSets, true, c.resourcePath);
    CreationRepetitions(c.udmSliceProfile.plmnIdSets, c.resourcePath);
  }

  // An update of a slice profile: 422 without a stored resource, otherwise 200 or 409 as the rules
  // decide.
  lemma UpdateProfileAnswer(c: Change, rr: RelatedResources)
    requires IsUdmSliceProfile(c.resourcePath) && c.operation == UPDATE
    ensures !Has(rr, c.resourcePath) ==> CheckChange(c, rr) == Checked([MissingResource(c)], Some(ValidationResponse(false, 422)))
    ensures Has(rr, c.resourcePath) && At(rr, c.resourcePath).SliceProfileResource? ==>
              CheckChange(c, rr).resp == CodeFor(UpdateMeetsRules(c.udmSliceProfile.plmnIdSets, At(rr, c.resourcePath).profile.plmnIdSets))
    ensures Has(rr, c.resourcePath) && !At(rr, c.resourcePath).SliceProfileResource? ==> CheckChange(c, rr).resp == None
  {
    hide IsUdmSliceProfile, IsUdmStaticData, CommonErrors, UpdateErrors, PlmnIdSetsOk, RepetitionsExcused, ScannedFor, Find;
    SlicePathIsNoSubscription(c.resourcePath);
    if Has(rr, c.resourcePath) && At(rr, c.resourcePath).SliceProfileResource? {
      var sets, stored := c.udmSliceProfile.plmnIdSets, At(rr, c.resourcePath).profile.plmnIdSets;
      UpdateAnswer(c, rr, stored);
      CommonRulesAccept(sets, true, c.resourcePath);
      UpdateRepetitions(sets, stored, c.resourcePath);
    }
  }

  // ---- roaming areas ----

  // There are areas, and every list of TACs is non-empty and well formed.
  predicate RoamingAreaMeetsRules(r: UdmRoamingArea) {
    && r.areaList != []
    && forall a :: a in r.areaList && a.area.Tacs? ==> a.area.tacs != [] && forall t :: t in a.area.tacs ==> IsTac(t)
  }

  lemma RoamingPath(path: string)
    requires IsUdmRoamingArea(path)
    ensures !IsUdmStaticData(path) && !IsUdmSliceProfile(path)
  {
    assert path[1] == ROAMING_AREA_PREFIX[1] == 'p';
    assert SUBSCRIBERS[1] == 's';
    assert path[25] == ROAMING_AREA_PREFIX[25] == 'R';
    assert SLICE_PROFILE_PREFIX[25] == 'S';
  }

  // A creation of a roaming area is accepted exactly when it meets the rules, and is otherwise
  // answered with 409.
  lemma CreateRoamingAreaAnswer(c: Change, rr: RelatedResources)
    requires IsUdmRoamingArea(c.resourcePath) && c.operation == CREATE
    ensures CheckChange(c, rr).resp == CodeFor(RoamingAreaMeetsRules(c.udmRoamingArea))
  {
    hide IsUdmRoamingArea, IsUdmStaticData, IsUdmSliceProfile, RoamingAreaErrors, IsTac;
    RoamingPath(c.resourcePath);
    RoamingAreaAccept(c.udmRoamingArea, c.resourcePath);
  }

  // An update of a roaming area is answered with 422 exactly when its path has no related resource,
  // and otherwise as the creation.
  lemma UpdateRoamingAreaAnswer(c: Change, rr: RelatedResources)
    requires IsUdmRoamingArea(c.resourcePath) && c.operation == UPDATE
    ensures !Has(rr, c.resourcePath) ==> CheckChange(c, rr) == Checked([MissingResource(c)], Some(ValidationResponse(false, 422)))
    ensures Has(rr, c.resourcePath) ==> CheckChange(c, rr).resp == CodeFor(RoamingAreaMeetsRules(c.udmRoamingArea))
    ensures Has(rr, c.resourcePath) ==> CheckChange(c, rr) == CheckChange(c.(operation := CREATE), rr)
  {
    hide IsUdmRoamingArea, IsUdmStaticData, IsUdmSliceProfile, RoamingAreaErrors, IsTac, Find;
    RoamingPath(c.resourcePath);
    RoamingAreaAccept(c.udmRoamingArea, c.resourcePath);
  }

  // ---- SMS subscriptions ----

  // R5, R6 and R7.
  predicate SmsMeetsRules(d: SmsStaticData) {
    && (d.mtSmsSubscribed == Some(true) || d.moSmsSubscribed == Some(true) ==> d.smsSubscribed == Some(true))
    && (d.mtSmsBarringAll == Some(true) || d.mtSmsBarringRoaming == Some(true) ==> d.mtSmsSubscribed == Some(true))
    && (d.moSmsBarringAll == Some(true) || d.moSmsBarringRoaming == Some(true) ==> d.moSmsSubscribed == Some(true))
  }

  // The answer joins the common rules and what the operation needs besides: 422 takes precedence,
  // and its error follows those of the common rules.
  predicate SmsAnsweredWithout(c: Change, missing: Error, answer: Checked) {
    && answer.resp == Some(ValidationResponse(false, 422))
    && answer.errors == SmsErrors(c.smsStaticData, c.resourcePath) + [missing]
  }

  lemma SmsPath(path: string, mscId: string)
    requires IsSmsSubscriptionOf(path, mscId)
    ensures IsSmsSubscription(path) && GetSmsStaticDataMscId(path) == mscId
    ensures !IsUdmStaticData(path) && !IsUdmSliceProfile(path) && !IsUdmRoamingArea(path)
  {
    hide IsUdmStaticData, IsUdmSliceProfile, IsUdmRoamingArea;
    MscIdRoundTrip(path, mscId);
    SmsPathIsNoOther(path, mscId);
    SubscriberPathIsNoProfile(path);
  }

  lemma SubscriberPathIsNoProfile(path: string)
    requires "/subscribers/" <= path
    ensures !IsUdmSliceProfile(path) && !IsUdmRoamingArea(path)
  {
    assert path[1] == 's';
    assert SLICE_PROFILE_PREFIX[1] == 'p' && ROAMING_AREA_PREFIX[1] == 'p';
  }

  lemma SmsPathIsNoOther(path: string, mscId: string)
    requires IsSmsSubscriptionOf(path, mscId)
    ensures !IsUdmStaticData(path)
  {
    hide IsUdmStaticData;
    assert |SMS_STATIC_SUFFIX| == 59 && SMS_STATIC_SUFFIX[46] == 's';
    assert path[|path| - 59..] == SMS_STATIC_SUFFIX;
    if IsUdmStaticData(path) {
      UdmPathEnds(path);
    }
  }

  lemma UdmPathEnds(path: string)
    requires IsUdmStaticData(path)
    ensures |path| >= 59 && path[|path| - 59..][46] == 'u'
  {
    var m := Group(path, SUBSCRIBERS, UDM_STATIC_SUFFIX).value;
    GroupIsInverse(path, SUBSCRIBERS, UDM_STATIC_SUFFIX, m);
    assert |UDM_STATIC_SUFFIX| == 59 && UDM_STATIC_SUFFIX[46] == 'u';
    assert path[|path| - 59..] == UDM_STATIC_SUFFIX;
  }

  lemma SmsRulesNone(d: SmsStaticData, path: string)
    ensures SmsErrors(d, path) == [] <==> SmsMeetsRules(d)
  {
  }

  lemma CreateSmsAnswer(c: Change, rr: RelatedResources, mscId: string)
    requires IsSmsSubscriptionOf(c.resourcePath, mscId) && c.operation == CREATE
    ensures !Has(rr, JournalPath(mscId)) ==> SmsAnsweredWithout(c, MissingJournal(c, mscId), CheckChange(c, rr))
    ensures Has(rr, JournalPath(mscId)) && At(rr, JournalPath(mscId)).ProvJournalResource? ==>
              CheckChange(c, rr).resp == CodeFor(SmsMeetsRules(c.smsStaticData) && At(rr, JournalPath(mscId)).imsi != "")
    ensures Has(rr, JournalPath(mscId)) && !At(rr, JournalPath(mscId)).ProvJournalResource? ==> CheckChange(c, rr).resp == None
  {
    hide IsSmsSubscription, IsUdmStaticData, IsUdmSliceProfile, IsUdmRoamingArea, SmsErrors, SmsMeetsRules, Find, At, ProvJournalPath,
         GetSmsStaticDataMscId;
    SmsPath(c.resourcePath, mscId);
    JournalPathIs(mscId);
    SmsRulesNone(c.smsStaticData, c.resourcePath);
  }

  lemma UpdateSmsAnswer(c: Change, rr: RelatedResources, mscId: string)
    requires IsSmsSubscriptionOf(c.resourcePath, mscId) && c.operation == UPDATE
    ensures !Has(rr, c.resourcePath) ==> SmsAnsweredWithout(c, MissingResource(c), CheckChange(c, rr))
    ensures Has(rr, c.resourcePath) ==> CheckChange(c, rr).resp == CodeFor(SmsMeetsRules(c.smsStaticData))
  {
    hide IsSmsSubscription, IsUdmStaticData, IsUdmSliceProfile, IsUdmRoamingArea, SmsErrors, SmsMeetsRules, Find, GetSmsStaticDataMscId;
    SmsPath(c.resourcePath, mscId);
    SmsRulesNone(c.smsStaticData, c.resourcePath);
  }

  // ---- everything else ----

  // One of the kinds of resource that are validated.
  predicate IsValidated(path: string) {
    IsUdmStaticData(path) || IsUdmSliceProfile(path) || IsUdmRoamingArea(path)
  }

  // An SMS subscription is accepted unread by any operation other than CREATE and UPDATE; any other
  // change that is neither a creation nor an update of a validated resource is accepted without an
  // error when it is a deletion, and is otherwise answered with 422 and one error.
  lemma OtherAnswer(c: Change, rr: RelatedResources)
    requires !(IsValidated(c.resourcePath) && (c.operation == CREATE || c.operation == UPDATE))
    requires !(IsSmsSubscription(c.resourcePath) && (c.operation == CREATE || c.operation == UPDATE))
    ensures CheckChange(c, rr)
         == if IsSmsSubscription(c.resourcePath) || c.operation == DELETE then Checked([], Some(ValidationResponse(true, 200)))
            else Checked([Error(UnprocessableEntity, c.resourcePath, NotValidated)], Some(ValidationResponse(false, 422)))
  {
    hide IsSmsSubscription, IsUdmStaticData, IsUdmSliceProfile, IsUdmRoamingArea;
  }
}
