// The dispatcher (ValidationData::applyValidationRules): what one change contributes, and the run
// over a list of changes as a fold.
module Dispatch {
  import opened JsonModel
  import opened Sequences
  import opened OrderedMaps
  import opened Types
  import opened Paths
  import opened SliceProfileRules
  import opened CreateRules
  import opened UpdateRules
  import opened SubscriptionRules
  import opened RoamingAreaRules
  import opened SmsRules
  import opened Mutations
  import opened Runs

  function Answer(es: seq<Error>): Checked {
    Checked(es, Some(if es == [] then OK else CONFLICT))
  }

  // ---- one change ----

  datatype ProfileSearch = Found(profile: UdmSliceProfile) | NotFound | BadGet

  // getRelatedUdmSliceProfile: the related resources in key order, reading each one under a
  // slice profile path until the id fits.
  function RelatedProfile(rr: RelatedResources, id: string): ProfileSearch {
    if rr == [] then NotFound
    else if !IsUdmSliceProfile(rr[0].key) then RelatedProfile(rr[1..], id)
    else if !rr[0].value.SliceProfileResource? then BadGet
    else if rr[0].value.profile.udmSliceProfileId == id then Found(rr[0].value.profile)
    else RelatedProfile(rr[1..], id)
  }

  // The end that creation and update of a subscription share.
  function CheckWithProfile(before: seq<Error>, c: Change, rr: RelatedResources): Checked {
    match RelatedProfile(rr, c.udmStaticData.udmSliceProfileId)
    case BadGet => Checked(before, None)
    case NotFound =>
      Checked(before + [Unprocessable(c.resourcePath, NoSliceProfile(c.udmStaticData.udmSliceProfileId, GetMscId(c.resourcePath)))],
              Some(UNPROCESSABLE))
    case Found(profile) => Answer(before + SubscriptionErrors(c, profile))
  }

  function ImsiErrors(imsi: string, path: string, mscId: string): (es: seq<Error>)
    ensures Violations(es, path)
  {
    if imsi == "" then [Violation(path, NoImsi(mscId))] else []
  }

  function CheckCreateSubscription(c: Change, rr: RelatedResources): Checked {
    var mscId := GetMscId(c.resourcePath);
    var journal := ProvJournalPath(mscId);
    if !Has(rr, journal) then
      Checked([Unprocessable(c.resourcePath, NoProvJournal(mscId, journal))], Some(UNPROCESSABLE))
    else if !At(rr, journal).ProvJournalResource? then Checked([], None)
    else CheckWithProfile(ImsiErrors(At(rr, journal).imsi, c.resourcePath, mscId), c, rr)
  }

  function NoRelated(c: Change): Checked {
    Checked([Unprocessable(c.resourcePath, NoRelatedResource(c.resourcePath))], Some(UNPROCESSABLE))
  }

  function CheckUpdateSubscription(c: Change, rr: RelatedResources): Checked {
    if !Has(rr, c.resourcePath) then NoRelated(c) else CheckWithProfile([], c, rr)
  }

  function CheckCreateProfile(c: Change): Checked {
    Answer(CreateProfileErrors(c.udmSliceProfile.plmnIdSets, c.resourcePath))
  }

  function ProfileFormatErrors(c: Change): (es: seq<Error>)
    ensures Violations(es, c.resourcePath)
  {
    if c.udmSliceProfile.plmnIdSets == [] then [] else CommonErrors(c.udmSliceProfile.plmnIdSets, true, c.resourcePath)
  }

  function CheckUpdateProfile(c: Change, rr: RelatedResources): Checked {
    if !Has(rr, c.resourcePath) then NoRelated(c)
    else if !At(rr, c.resourcePath).SliceProfileResource? then Checked(ProfileFormatErrors(c), None)
    else Answer(ProfileFormatErrors(c)
                + UpdateErrors(c.udmSliceProfile.plmnIdSets, At(rr, c.resourcePath).profile.plmnIdSets, c.resourcePath))
  }

  function CheckCreateRoamingArea(c: Change): Checked {
    Answer(RoamingAreaErrors(c.udmRoamingArea, c.resourcePath))
  }

  function CheckUpdateRoamingArea(c: Change, rr: RelatedResources): Checked {
    if !Has(rr, c.resourcePath) then NoRelated(c) else CheckCreateRoamingArea(c)
  }

  function Joined(a: Checked, b: Checked): Checked {
    Checked(a.errors + b.errors,
            if a.resp.Some? && b.resp.Some? then Some(Worst(Worst(OK, a.resp.value), b.resp.value)) else None)
  }

  function CheckSmsCreateSpecific(c: Change, rr: RelatedResources): Checked {
    var mscId := GetSmsStaticDataMscId(c.resourcePath);
    var journal := ProvJournalPath(mscId);
    if !Has(rr, journal) then
      Checked([Unprocessable(c.resourcePath, NoProvJournal(mscId, journal))], Some(UNPROCESSABLE))
    else if !At(rr, journal).ProvJournalResource? then Checked([], None)
    else Answer(ImsiErrors(At(rr, journal).imsi, c.resourcePath, mscId))
  }

  function CheckSmsUpdateSpecific(c: Change, rr: RelatedResources): Checked {
    if !Has(rr, c.resourcePath) then NoRelated(c) else Answer([])
  }

  function CheckSms(c: Change, rr: RelatedResources): Checked {
    var common := Answer(SmsErrors(c.smsStaticData, c.resourcePath));
    if c.operation == UPDATE then Joined(common, CheckSmsUpdateSpecific(c, rr))
    else if c.operation == CREATE then Joined(common, CheckSmsCreateSpecific(c, rr))
    else Answer([])
  }

  function CheckChange(c: Change, rr: RelatedResources): Checked {
    if IsUdmStaticData(c.resourcePath) && c.operation == CREATE then CheckCreateSubscription(c, rr)
    else if IsUdmStaticData(c.resourcePath) && c.operation == UPDATE then CheckUpdateSubscription(c, rr)
    else if IsUdmSliceProfile(c.resourcePath) && c.operation == CREATE then CheckCreateProfile(c)
    else if IsUdmSliceProfile(c.resourcePath) && c.operation == UPDATE then CheckUpdateProfile(c, rr)
    else if IsUdmRoamingArea(c.resourcePath) && c.operation == CREATE then CheckCreateRoamingArea(c)
    else if IsUdmRoamingArea(c.resourcePath) && c.operation == UPDATE then CheckUpdateRoamingArea(c, rr)
    else if IsSmsSubscription(c.resourcePath) then CheckSms(c, rr)
    else if c.operation != DELETE then
      Checked([Unprocessable(c.resourcePath, NotValidated)], Some(UNPROCESSABLE))
    else Answer([])
  }

  lemma ViolationsCohere(es: seq<Error>, path: string)
    requires Violations(es, path)
    ensures Coherent(Answer(es)) && FromPath(es, path)
  {
  }

  lemma WithProfileCoheres(before: seq<Error>, c: Change, rr: RelatedResources)
    requires Violations(before, c.resourcePath)
    ensures Coherent(CheckWithProfile(before, c, rr)) && FromPath(CheckWithProfile(before, c, rr).errors, c.resourcePath)
  {
    var r := CheckWithProfile(before, c, rr);
    match RelatedProfile(rr, c.udmStaticData.udmSliceProfileId)
    case BadGet =>
    case NotFound =>
      assert r.errors[|before|] in r.errors;
    case Found(profile) =>
      SubscriptionErrorsAreViolations(c, profile);
      ViolationsCohere(before + SubscriptionErrors(c, profile), c.resourcePath);
  }

  lemma UpdateProfileCoheres(c: Change, rr: RelatedResources)
    ensures Coherent(CheckUpdateProfile(c, rr)) && FromPath(CheckUpdateProfile(c, rr).errors, c.resourcePath)
  {
    if Has(rr, c.resourcePath) && At(rr, c.resourcePath).SliceProfileResource? {
      var stored := At(rr, c.resourcePath).profile.plmnIdSets;
      UpdateErrorsAreViolations(c.udmSliceProfile.plmnIdSets, stored, c.resourcePath);
      ViolationsCohere(ProfileFormatErrors(c) + UpdateErrors(c.udmSliceProfile.plmnIdSets, stored, c.resourcePath), c.resourcePath);
    }
  }

  lemma CreateProfileCoheres(c: Change)
    ensures Coherent(CheckCreateProfile(c)) && FromPath(CheckCreateProfile(c).errors, c.resourcePath)
  {
    CreateErrorsAreViolations(c.udmSliceProfile.plmnIdSets, c.resourcePath);
    ViolationsCohere(CreateProfileErrors(c.udmSliceProfile.plmnIdSets, c.resourcePath), c.resourcePath);
  }

  lemma JoinedCoheres(a: Checked, b: Checked)
    requires Coherent(a) && Coherent(b)
    ensures Coherent(Joined(a, b))
  {
    VerdictJoin(a.errors, b.errors);
  }

  lemma SmsCoheres(c: Change, rr: RelatedResources)
    ensures Coherent(CheckSms(c, rr)) && FromPath(CheckSms(c, rr).errors, c.resourcePath)
  {
    var common := Answer(SmsErrors(c.smsStaticData, c.resourcePath));
    ViolationsCohere(common.errors, c.resourcePath);
    JoinedCoheres(common, CheckSmsUpdateSpecific(c, rr));
    JoinedCoheres(common, CheckSmsCreateSpecific(c, rr));
  }

  lemma CreateSubscriptionCoheres(c: Change, rr: RelatedResources)
    ensures Coherent(CheckCreateSubscription(c, rr)) && FromPath(CheckCreateSubscription(c, rr).errors, c.resourcePath)
  {
    var mscId := GetMscId(c.resourcePath);
    if Has(rr, ProvJournalPath(mscId)) && At(rr, ProvJournalPath(mscId)).ProvJournalResource? {
      WithProfileCoheres(ImsiErrors(At(rr, ProvJournalPath(mscId)).imsi, c.resourcePath, mscId), c, rr);
    }
  }

  lemma UpdateSubscriptionCoheres(c: Change, rr: RelatedResources)
    ensures Coherent(CheckUpdateSubscription(c, rr)) && FromPath(CheckUpdateSubscription(c, rr).errors, c.resourcePath)
  {
    WithProfileCoheres([], c, rr);
  }

  lemma RoamingAreaCoheres(c: Change, rr: RelatedResources)
    ensures Coherent(CheckUpdateRoamingArea(c, rr)) && FromPath(CheckUpdateRoamingArea(c, rr).errors, c.resourcePath)
    ensures Coherent(CheckCreateRoamingArea(c)) && FromPath(CheckCreateRoamingArea(c).errors, c.resourcePath)
  {
    ViolationsCohere(RoamingAreaErrors(c.udmRoamingArea, c.resourcePath), c.resourcePath);
  }

  // Whatever the change, its verdict is the one its errors call for, and every error names the
  // change's own path.
  lemma ChangeCoheres(c: Change, rr: RelatedResources)
    ensures Coherent(CheckChange(c, rr)) && FromPath(CheckChange(c, rr).errors, c.resourcePath)
  {
    if IsUdmStaticData(c.resourcePath) && c.operation == CREATE {
      CreateSubscriptionCoheres(c, rr);
    } else if IsUdmStaticData(c.resourcePath) && c.operation == UPDATE {
      UpdateSubscriptionCoheres(c, rr);
    } else if IsUdmSliceProfile(c.resourcePath) && c.operation == CREATE {
      CreateProfileCoheres(c);
    } else if IsUdmSliceProfile(c.resourcePath) && c.operation == UPDATE {
      UpdateProfileCoheres(c, rr);
    } else if IsUdmRoamingArea(c.resourcePath) && (c.operation == CREATE || c.operation == UPDATE) {
      RoamingAreaCoheres(c, rr);
    } else if IsSmsSubscription(c.resourcePath) {
      SmsCoheres(c, rr);
    }
  }

  // ---- runs ----

  function CheckOf(rr: RelatedResources): Change -> Checked {
    (c: Change) => CheckChange(c, rr)
  }

  function MutateOf(): Change -> Change {
    (c: Change) => Mutate(c)
  }

  function RunRules(cs: seq<Change>, rr: RelatedResources): RunState {
    Run(cs, CheckOf(rr), MutateOf())
  }

  lemma AllCohere(cs: seq<Change>, rr: RelatedResources)
    ensures AllCoherent(cs, CheckOf(rr))
  {
    forall c | c in cs
      ensures Coherent(CheckOf(rr)(c))
    {
      ChangeCoheres(c, rr);
    }
  }

  // Verdict, code, errors and emitted changes of every run that no exception leaves: the errors
  // are the changes' own errors in order, the verdict and the code are the ones they call for,
  // and what is emitted is the rewritten longest prefix of valid changes.
  lemma RunIsFold(cs: seq<Change>, rr: RelatedResources)
    requires NoThrow(cs, CheckOf(rr))
    ensures var s := RunRules(cs, rr);
            && !s.thrown
            && s.errors == FlatMap(ErrorsOf(CheckOf(rr)), cs)
            && s.resp == VerdictOf(s.errors)
            && (s.resp.valid <==> forall c :: c in cs ==> IsValid(c, CheckOf(rr)))
            && s.emitted == MutateAll(cs[..ValidPrefix(cs, CheckOf(rr))], MutateOf())
  {
    AllCohere(cs, rr);
    RunErrors(cs, CheckOf(rr), MutateOf());
    RunEmits(cs, CheckOf(rr), MutateOf());
    AllValid(cs, CheckOf(rr));
  }

  lemma RunRulesPermuted(a: seq<Change>, b: seq<Change>, rr: RelatedResources)
    requires multiset(a) == multiset(b) && NoThrow(a, CheckOf(rr))
    ensures RunRules(a, rr).resp == RunRules(b, rr).resp
    ensures multiset(RunRules(a, rr).errors) == multiset(RunRules(b, rr).errors)
  {
    AllCohere(a, rr);
    RunPermuted(a, b, CheckOf(rr), MutateOf());
  }

  // A body sent with a code other than 200 holds all errors and no change, although a valid
  // prefix may have been stored; a body sent with 200 holds every change, rewritten.
  lemma BodyCoheres(cs: seq<Change>, rr: RelatedResources)
    requires NoThrow(cs, CheckOf(rr))
    ensures var s := RunRules(cs, rr);
            ResponseBody(s.errors, s.emitted)
              == if s.resp.code != HTTP_OK then ErrorsBody(FlatMap(ErrorsOf(CheckOf(rr)), cs))
                 else if cs != [] then ChangesBody(MutateAll(cs, MutateOf()))
                 else EmptyBody
  {
    AllCohere(cs, rr);
    BodyOfRun(cs, CheckOf(rr), MutateOf());
  }
}
