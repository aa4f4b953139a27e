// Resource paths: recognising them and taking the mscId out of them.
module Paths {
  import opened Text
  import opened JsonModel

  const SUBSCRIBERS := "/subscribers/"
  const UDM_STATIC_SUFFIX := "/udmSubscription/udmStaticAndRegistrationData/udmStaticData"
  const SMS_STATIC_SUFFIX := "/smsSubscription/smsStaticAndRegistrationData/smsStaticData"
  const JOURNAL_SUFFIX := "/journal/provJournal"
  const SLICE_PROFILE_PREFIX := "/profiles/udmProfiles/udmSliceProfiles/"
  const ROAMING_AREA_PREFIX := "/profiles/udmProfiles/udmRoamingAreas/"

  const UDM_STATIC_DATA := "udmStaticData"
  const PROV_JOURNAL := "provJournal"
  const UDM_SLICE_PROFILES := "udmSliceProfiles"
  const UDM_ROAMING_AREAS := "udmRoamingAreas"
  const SMS_STATIC_DATA := "smsStaticData"

  // The lazy group (.*?) followed by a fixed tail and the end of the text: the shortest length,
  // from k on, after which the rest of the text is exactly the tail.
  function LazyLength(text: string, tail: string, k: nat): (length: Option<nat>)
    requires k <= |text|
    ensures length.Some? ==> k <= length.value <= |text| && text[length.value..] == tail
    decreases |text| - k
  {
    if text[k..] == tail then Some(k)
    else if k == |text| then None
    else LazyLength(text, tail, k + 1)
  }

  // The group of ^head(.*?)tail$.
  function Group(path: string, head: string, tail: string): Option<string> {
    if head <= path then
      var text := path[|head|..];
      match LazyLength(text, tail, 0)
      case Some(k) => Some(text[..k])
      case None => None
    else None
  }

  lemma {:induction false} LazyLengthUnique(text: string, tail: string, k: nat)
    requires k <= |text|
    ensures LazyLength(text, tail, k)
         == if |tail| <= |text| - k && EndsWith(text, tail) then Some(|text| - |tail|) else None
    decreases |text| - k
  {
    if text[k..] != tail && k < |text| {
      LazyLengthUnique(text, tail, k + 1);
    }
  }

  // The pattern matches exactly the paths of the form head + m + tail, and the group is m: the
  // lazy group has one solution.
  lemma GroupIsInverse(path: string, head: string, tail: string, m: string)
    ensures Group(path, head, tail) == Some(m) <==> path == head + m + tail
  {
    if head <= path {
      var text := path[|head|..];
      assert path == head + text;
      LazyLengthUnique(text, tail, 0);
      if Group(path, head, tail) == Some(m) {
        assert text == m + tail;
      }
    }
    if path == head + m + tail {
      assert path == head + (m + tail);
      assert path[|head|..] == m + tail;
    }
  }

  predicate IsUdmStaticData(path: string) {
    Group(path, SUBSCRIBERS, UDM_STATIC_SUFFIX).Some?
  }

  predicate IsSmsSubscription(path: string) {
    Group(path, SUBSCRIBERS, SMS_STATIC_SUFFIX).Some?
  }

  // ^head(.*?) matched as a whole: any path that starts with head.
  predicate IsUdmSliceProfile(path: string) {
    SLICE_PROFILE_PREFIX <= path
  }

  predicate IsUdmRoamingArea(path: string) {
    ROAMING_AREA_PREFIX <= path
  }

  function GroupOrEmpty(g: Option<string>): string {
    if g.Some? then g.value else ""
  }

  function GetMscId(path: string): string {
    GroupOrEmpty(Group(path, SUBSCRIBERS, UDM_STATIC_SUFFIX))
  }

  function GetSmsStaticDataMscId(path: string): string {
    GroupOrEmpty(Group(path, SUBSCRIBERS, SMS_STATIC_SUFFIX))
  }

  function ProvJournalPath(mscId: string): string {
    SUBSCRIBERS + mscId + JOURNAL_SUFFIX
  }

  // Extraction undoes path building for every mscId, in both directions.
  lemma MscIdRoundTrip(path: string, m: string)
    ensures path == SUBSCRIBERS + m + UDM_STATIC_SUFFIX <==> IsUdmStaticData(path) && GetMscId(path) == m
    ensures path == SUBSCRIBERS + m + SMS_STATIC_SUFFIX <==> IsSmsSubscription(path) && GetSmsStaticDataMscId(path) == m
  {
    GroupIsInverse(path, SUBSCRIBERS, UDM_STATIC_SUFFIX, m);
    GroupIsInverse(path, SUBSCRIBERS, SMS_STATIC_SUFFIX, m);
  }

  // Two subscriber paths look up the same journal only when they belong to one subscriber.
  lemma JournalsAreNotShared(m1: string, m2: string)
    requires ProvJournalPath(m1) == ProvJournalPath(m2)
    ensures m1 == m2
  {
    GroupIsInverse(ProvJournalPath(m1), SUBSCRIBERS, JOURNAL_SUFFIX, m1);
    GroupIsInverse(ProvJournalPath(m2), SUBSCRIBERS, JOURNAL_SUFFIX, m2);
  }

  // The journal a subscription change reads is the one of the subscriber its path names.
  lemma JournalOfChange(m1: string, m2: string)
    ensures ProvJournalPath(GetMscId(SUBSCRIBERS + m1 + UDM_STATIC_SUFFIX))
         == ProvJournalPath(GetSmsStaticDataMscId(SUBSCRIBERS + m2 + SMS_STATIC_SUFFIX))
       <==> m1 == m2
  {
    MscIdRoundTrip(SUBSCRIBERS + m1 + UDM_STATIC_SUFFIX, m1);
    MscIdRoundTrip(SUBSCRIBERS + m2 + SMS_STATIC_SUFFIX, m2);
    if ProvJournalPath(m1) == ProvJournalPath(m2) {
      JournalsAreNotShared(m1, m2);
    }
  }

  lemma SlicePathIsNoSubscription(path: string)
    requires IsUdmSliceProfile(path)
    ensures !IsUdmStaticData(path)
  {
    assert path[1] == SLICE_PROFILE_PREFIX[1] == 'p';
    assert SUBSCRIBERS[1] == 's';
  }

  lemma SlicePathNamesProfiles(path: string)
    requires IsUdmSliceProfile(path)
    ensures Contains(path, UDM_SLICE_PROFILES)
  {
    assert |SLICE_PROFILE_PREFIX| == 39 && |UDM_SLICE_PROFILES| == 16;
    assert SLICE_PROFILE_PREFIX[22..38] == UDM_SLICE_PROFILES;
    assert path[..39] == SLICE_PROFILE_PREFIX;
    assert path[22..38] == path[..39][22..38];
    assert OccursAt(path, UDM_SLICE_PROFILES, 22);
  }

  lemma SubscriptionPathNamesData(path: string)
    requires IsUdmStaticData(path)
    ensures Contains(path, UDM_STATIC_DATA)
  {
    var m := Group(path, SUBSCRIBERS, UDM_STATIC_SUFFIX).value;
    GroupIsInverse(path, SUBSCRIBERS, UDM_STATIC_SUFFIX, m);
    var n := |path| - |UDM_STATIC_DATA|;
    assert |UDM_STATIC_DATA| == 13 && |UDM_STATIC_SUFFIX| == 59 && UDM_STATIC_SUFFIX[46..] == UDM_STATIC_DATA;
    assert path[|path| - 59..] == UDM_STATIC_SUFFIX;
    assert path[n..] == path[|path| - 59..][46..];
    assert path[n..n + |UDM_STATIC_DATA|] == path[n..];
    assert OccursAt(path, UDM_STATIC_DATA, n);
  }
}
