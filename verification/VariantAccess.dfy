// boost::get on the related resources: on which maps it never meets another variant, and that the
// maps the parser builds are such maps.
module VariantAccess {
  import opened JsonModel
  import opened JsonObjects
  import opened Text
  import opened OrderedMaps
  import opened Types
  import opened Paths
  import opened SliceProfileRules
  import opened CreateRules
  import opened UpdateRules
  import opened SubscriptionRules
  import opened RoamingAreaRules
  import opened SmsRules
  import opened Mutations
  import opened ResourceCodec
  import opened Dispatch

  predicate IsJournalPath(path: string) {
    Group(path, SUBSCRIBERS, JOURNAL_SUFFIX).Some?
  }

  // Slice profiles stand under slice profile paths and journals under journal paths.
  predicate EntrySafe(e: Entry<Resource>) {
    && (IsUdmSliceProfile(e.key) ==> e.value.SliceProfileResource?)
    && (IsJournalPath(e.key) ==> e.value.ProvJournalResource?)
  }

  predicate SafeToRead(rr: RelatedResources) {
    forall e :: e in rr ==> EntrySafe(e)
  }

  lemma {:induction false} SearchNeverThrows(rr: RelatedResources, id: string)
    requires SafeToRead(rr)
    ensures !RelatedProfile(rr, id).BadGet?
  {
    hide IsUdmSliceProfile, IsJournalPath;
    if rr != [] {
      assert EntrySafe(rr[0]);
      SearchNeverThrows(rr[1..], id);
    }
  }

  lemma ReadAt(rr: RelatedResources, k: string)
    requires SafeToRead(rr) && Has(rr, k)
    ensures EntrySafe(Entry(k, At(rr, k)))
  {
    assert rr[Find(rr, k)] in rr;
  }

  lemma JournalReadable(rr: RelatedResources, mscId: string)
    requires SafeToRead(rr) && Has(rr, ProvJournalPath(mscId))
    ensures At(rr, ProvJournalPath(mscId)).ProvJournalResource?
  {
    ReadAt(rr, ProvJournalPath(mscId));
    GroupIsInverse(ProvJournalPath(mscId), SUBSCRIBERS, JOURNAL_SUFFIX, mscId);
  }

  lemma SafeNeverThrows(c: Change, rr: RelatedResources)
    requires SafeToRead(rr)
    ensures CheckChange(c, rr).resp.Some?
  {
    hide SafeToRead, EntrySafe, SubscriptionErrors, CommonErrors, CreateErrors, UpdateErrors, RoamingAreaErrors, SmsErrors, ProvJournalPath, GetMscId,
         GetSmsStaticDataMscId, IsUdmStaticData, IsUdmSliceProfile, IsUdmRoamingArea, IsSmsSubscription, CreateProfileErrors, ProfileFormatErrors,
         ImsiErrors, Find, At, RelatedProfile;
    SearchNeverThrows(rr, c.udmStaticData.udmSliceProfileId);
    if Has(rr, ProvJournalPath(GetMscId(c.resourcePath))) {
      JournalReadable(rr, GetMscId(c.resourcePath));
    }
    if Has(rr, ProvJournalPath(GetSmsStaticDataMscId(c.resourcePath))) {
      JournalReadable(rr, GetSmsStaticDataMscId(c.resourcePath));
    }
    if Has(rr, c.resourcePath) && IsUdmSliceProfile(c.resourcePath) {
      ProfileReadable(rr, c.resourcePath);
    }
  }

  lemma ProfileReadable(rr: RelatedResources, k: string)
    requires SafeToRead(rr) && Has(rr, k) && IsUdmSliceProfile(k)
    ensures At(rr, k).SliceProfileResource?
  {
    ReadAt(rr, k);
  }

  // ---- an unsafe map makes some change throw ----

  function ChangeOf(operation: string, path: string): Change {
    Change(operation, path, UdmStaticData([], "", false, []), UdmSliceProfile("", [], []), UdmRoamingArea("", [], []),
           SmsStaticData(None, None, None, None, None, None, None))
  }

  lemma EntryFound(rr: RelatedResources, e: Entry<Resource>)
    requires StrictlySorted(rr) && e in rr
    ensures Has(rr, e.key) && At(rr, e.key) == e.value
  {
    var i := Find(rr, e.key);
    var j :| 0 <= j < |rr| && rr[j] == e;
    LessIrreflexive(e.key);
  }

  // A wrong variant under a slice profile path makes the update of that path throw.
  lemma WrongProfileThrows(rr: RelatedResources, e: Entry<Resource>)
    requires StrictlySorted(rr) && e in rr && IsUdmSliceProfile(e.key) && !e.value.SliceProfileResource?
    ensures CheckChange(ChangeOf(UPDATE, e.key), rr).resp.None?
  {
    hide IsUdmSliceProfile, IsUdmStaticData, ProfileFormatErrors;
    EntryFound(rr, e);
    SlicePathIsNoSubscription(e.key);
  }

  // A wrong variant under a subscriber's journal path makes the creation of that subscription throw.
  lemma WrongJournalThrows(rr: RelatedResources, e: Entry<Resource>)
    requires StrictlySorted(rr) && e in rr && IsJournalPath(e.key) && !e.value.ProvJournalResource?
    ensures exists c :: CheckChange(c, rr).resp.None?
  {
    var mscId := Group(e.key, SUBSCRIBERS, JOURNAL_SUFFIX).value;
    GroupIsInverse(e.key, SUBSCRIBERS, JOURNAL_SUFFIX, mscId);
    var path := SUBSCRIBERS + mscId + UDM_STATIC_SUFFIX;
    MscIdRoundTrip(path, mscId);
    EntryFound(rr, e);
    assert ProvJournalPath(GetMscId(path)) == e.key;
    CreationThrows(ChangeOf(CREATE, path), rr);
    assert CheckChange(ChangeOf(CREATE, path), rr).resp.None?;
  }

  lemma CreationThrows(c: Change, rr: RelatedResources)
    requires IsUdmStaticData(c.resourcePath) && c.operation == CREATE
    requires Has(rr, ProvJournalPath(GetMscId(c.resourcePath))) && !At(rr, ProvJournalPath(GetMscId(c.resourcePath))).ProvJournalResource?
    ensures CheckChange(c, rr).resp.None?
  {
    hide IsUdmStaticData, ProvJournalPath, GetMscId;
  }

  // No change at all throws exactly on the maps that are safe to read.
  lemma NeverThrowsIffSafe(rr: RelatedResources)
    requires StrictlySorted(rr)
    ensures (forall c :: CheckChange(c, rr).resp.Some?) <==> SafeToRead(rr)
  {
    hide CheckChange, IsUdmSliceProfile, IsJournalPath;
    if SafeToRead(rr) {
      forall c
        ensures CheckChange(c, rr).resp.Some?
      {
        SafeNeverThrows(c, rr);
      }
    } else {
      var e :| e in rr && !EntrySafe(e);
      if IsUdmSliceProfile(e.key) && !e.value.SliceProfileResource? {
        WrongProfileThrows(rr, e);
        assert CheckChange(ChangeOf(UPDATE, e.key), rr).resp.None?;
      } else {
        WrongJournalThrows(rr, e);
      }
    }
  }

  // ---- maps built by the parser ----

  // A slice profile path that the parser takes for a subscription or a journal.
  predicate Misread(path: string) {
    IsUdmSliceProfile(path) && (EndsWith(path, UDM_STATIC_DATA) || EndsWith(path, PROV_JOURNAL))
  }

  lemma LastOfEnd(path: string, t: string)
    requires EndsWith(path, t) && t != ""
    ensures path != "" && path[|path| - 1] == t[|t| - 1]
  {
    assert path[|path| - |t|..][|t| - 1] == path[|path| - 1];
  }

  lemma JournalPathEnds(path: string)
    requires IsJournalPath(path)
    ensures EndsWith(path, PROV_JOURNAL) && !EndsWith(path, UDM_STATIC_DATA)
  {
    if EndsWith(path, UDM_STATIC_DATA) {
      LastOfEnd(path, UDM_STATIC_DATA);
    }
    var m := Group(path, SUBSCRIBERS, JOURNAL_SUFFIX).value;
    GroupIsInverse(path, SUBSCRIBERS, JOURNAL_SUFFIX, m);
    assert |JOURNAL_SUFFIX| == 20 && |PROV_JOURNAL| == 11 && JOURNAL_SUFFIX[9..] == PROV_JOURNAL;
    assert path[|path| - 20..] == JOURNAL_SUFFIX;
    assert path[|path| - 11..] == path[|path| - 20..][9..];
    LastOfEnd(path, PROV_JOURNAL);
  }

  lemma ReadSafely(path: string, j: Json)
    requires ParseResource(path, j).value.Some?
    ensures EntrySafe(Entry(path, ParseResource(path, j).value.value)) <==> !Misread(path)
  {
    hide EndsWith, Contains, ParseSliceProfile, ParseRoamingArea, StringOrEmpty, IsUdmSliceProfile, IsJournalPath;
    if IsUdmSliceProfile(path) {
      SlicePathNamesProfiles(path);
      if IsJournalPath(path) {
        SlicePathIsNoJournal(path);
      }
    }
    if IsJournalPath(path) {
      JournalPathEnds(path);
    }
  }

  lemma SlicePathIsNoJournal(path: string)
    requires IsUdmSliceProfile(path)
    ensures !IsJournalPath(path)
  {
    assert path[1] == SLICE_PROFILE_PREFIX[1] == 'p';
    assert SUBSCRIBERS[1] == 's';
  }

  lemma {:induction false} ReadMembersAreKept(ms: Members, i: nat)
    requires i < |ms| && ParseResource(ms[i].key, ms[i].value).value.Some?
    ensures Has(ParseRelated(ms).value, ms[i].key)
    decreases |ms|
  {
    hide ParseResource;
    var n := |ms| - 1;
    var before, last := ParseRelated(ms[..n]).value, ParseResource(ms[n].key, ms[n].value);
    if i < n {
      ReadMembersAreKept(ms[..n], i);
      if last.value.Some? {
        EmplaceKeepsKeys(before, ms[n].key, last.value.value, ms[i].key);
      }
    } else {
      EmplaceMembers(before, ms[n].key, last.value.value);
    }
  }

  lemma EmplaceKeepsKeys<V>(m: seq<Entry<V>>, k: string, v: V, key: string)
    requires Has(m, key)
    ensures Has(Emplace(m, k, v), key)
  {
    if !Has(m, k) {
      var n, i := UpperBound(m, k), Find(m, key);
      var r := Insert(m, Entry(k, v));
      assert m == m[..n] + m[n..];
      assert r[if i < n then i else i + 1] == m[i];
    }
  }

  lemma MisreadIsRead(path: string, j: Json)
    requires Misread(path)
    ensures ParseResource(path, j).value.Some?
  {
  }

  // A map built by the parser is safe to read exactly when no slice profile path ends in
  // "udmStaticData" or "provJournal".
  lemma ParserBuiltIsSafe(ms: Members)
    ensures SafeToRead(ParseRelated(ms).value) <==> forall i :: 0 <= i < |ms| ==> !Misread(ms[i].key)
  {
    hide ParseResource, EntrySafe, Misread, Find;
    var rr := ParseRelated(ms).value;
    RelatedFromMembers(ms);
    if forall i :: 0 <= i < |ms| ==> !Misread(ms[i].key) {
      forall e | e in rr
        ensures EntrySafe(e)
      {
        var i :| 0 <= i < |ms| && ms[i].key == e.key && ParseResource(e.key, ms[i].value).value == Some(e.value);
        ReadSafely(e.key, ms[i].value);
      }
    }
    if exists i :: 0 <= i < |ms| && Misread(ms[i].key) {
      var i :| 0 <= i < |ms| && Misread(ms[i].key);
      MisreadIsRead(ms[i].key, ms[i].value);
      ReadMembersAreKept(ms, i);
      var e := rr[Find(rr, ms[i].key)];
      assert e in rr;
      var j :| 0 <= j < |ms| && ms[j].key == e.key && ParseResource(e.key, ms[j].value).value == Some(e.value);
      ReadSafely(e.key, ms[j].value);
      assert !EntrySafe(e);
    }
  }

  // On a map built by the parser no change of any kind throws, exactly when no slice profile path
  // ends in "udmStaticData" or "provJournal".
  lemma ParserBuiltNeverThrows(ms: Members)
    ensures (forall c :: CheckChange(c, ParseRelated(ms).value).resp.Some?) <==> forall i :: 0 <= i < |ms| ==> !Misread(ms[i].key)
  {
    hide CheckChange, ParseRelated, SafeToRead, Misread;
    assert StrictlySorted(ParseRelated(ms).value) by { RelatedFromMembers(ms); }
    NeverThrowsIffSafe(ParseRelated(ms).value);
    ParserBuiltIsSafe(ms);
  }

  // The journal that the rules look up is read from the first member of its path, and its IMSI is
  // the text of the member "imsi", empty when there is none.
  lemma JournalIsRead(ms: Members, mscId: string)
    ensures var rr, path := ParseRelated(ms).value, "/subscribers/" + mscId + "/journal/provJournal";
            && (Has(rr, path) <==> Has(ms, path))
            && (Has(ms, path) ==> At(rr, path) == ProvJournalResource(
                  match At(ms, path)
                  case Obj(journal) => (match Member(journal, "imsi") case Some(Str(s)) => s case _ => "")
                  case _ => ""))
  {
    hide ParseRelated, Find, At, Member, EndsWith, Contains, ParseSliceProfile, ParseRoamingArea;
    var path := "/subscribers/" + mscId + "/journal/provJournal";
    RelatedKeepsFirst(ms, path);
    assert IsJournalPath(path) by { GroupIsInverse(path, SUBSCRIBERS, JOURNAL_SUFFIX, mscId); }
    JournalPathEnds(path);
    NoImsiMember();
  }

  lemma NoImsiMember()
    ensures Member([], "imsi") == None
  {
  }
}
