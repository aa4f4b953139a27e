// Reading and writing slice profiles and roaming areas as JSON, and building the map of related
// resources (ValidatorRapidJsonParser::getRelatedResources).
module ResourceCodec {
  import opened JsonModel
  import opened JsonObjects
  import opened Text
  import opened OrderedMaps
  import opened Types
  import opened Paths
  import opened PlmnCodec
  import opened PlmnRoundTrip

  // ---- slice profiles ----

  // getUdmSliceProfile; a plmnIdSets member that is no array leaves the list empty.
  function ParseSliceProfile(ms: Members, path: string): Parsed<UdmSliceProfile> {
    var id := ParseString(ms, JSON_UDM_SLICE_PROFILE_ID, path);
    var sets := match Get(ms, JSON_PLMN_ID_SETS)
      case None => Parsed([], [])
      case Some(j) => if j.Arr? then ParsePlmnIdSets(j.items, false, path) else Parsed([], []);
    Parsed(UdmSliceProfile(id.value, sets.value, VendorOf(ms)), id.errors + sets.errors)
  }

  function SliceProfileFields(p: UdmSliceProfile): seq<Field> {
    [StringField(JSON_UDM_SLICE_PROFILE_ID, p.udmSliceProfileId),
     ListField(JSON_PLMN_ID_SETS, EncodePlmnIdSets(p.plmnIdSets))]
  }

  // udmSliceProfileToJson.
  function EncodeSliceProfile(p: UdmSliceProfile): Members {
    p.vendorSpecific + Present(SliceProfileFields(p))
  }

  lemma SliceProfileNames(p: UdmSliceProfile)
    ensures WellNamed(SliceProfileFields(p))
  {
    hide EncodePlmnIdSets;
  }

  // A written slice profile reads back unchanged exactly when all its PLMN sets are printable.
  lemma SliceProfileRoundTrip(p: UdmSliceProfile, path: string)
    requires VendorOk(p.vendorSpecific) && forall s :: s in p.plmnIdSets ==> PlmnIdSetVendorOk(s)
    ensures ParseSliceProfile(EncodeSliceProfile(p), path) == Parsed(p, [])
       <==> forall s :: s in p.plmnIdSets ==> PlmnIdSetPrintable(s, false)
  {
    hide Get, VendorOf, Present, VendorOk, Name, ParsePlmnIdSets, PlmnIdSetVendorOk, PlmnIdSetPrintable, EncodeAll, ParseString;
    var fs := SliceProfileFields(p);
    SliceProfileNames(p);
    ObjectReadBack(p.vendorSpecific, fs);
    assert fs[0].attribute == JSON_UDM_SLICE_PROFILE_ID && fs[1].attribute == JSON_PLMN_ID_SETS;
    StringBack(EncodeSliceProfile(p), JSON_UDM_SLICE_PROFILE_ID, p.udmSliceProfileId, path);
    PlmnIdSetsRoundTrip(p.plmnIdSets, false, path);
  }

  // ---- roaming areas ----

  function ParseArea(ms: Members, path: string): Parsed<AreaListElement> {
    match Get(ms, JSON_AREA_CODE)
    case Some(j) =>
      var code := ParseString(ms, JSON_AREA_CODE, path);
      Parsed(AreaListElement(AreaCode(code.value), VendorOf(ms)), code.errors)
    case None =>
      match Get(ms, JSON_TACS)
      case None => Parsed(AreaListElement(AreaCode(""), VendorOf(ms)), [Violation(path, NoAreaCodeNorTacs)])
      case Some(j) =>
        if j.Arr? then
          var tacs := ParseItems(ParseStringItemOf(JSON_TACS, path), j.items);
          Parsed(AreaListElement(Tacs(tacs.value), VendorOf(ms)), tacs.errors)
        else Parsed(AreaListElement(AreaCode(""), VendorOf(ms)), [Violation(path, NotArray(JSON_TACS))])
  }

  function ParseAreaItemOf(path: string): Json -> Parsed<seq<AreaListElement>> {
    (j: Json) =>
      if j.Obj? then
        var r := ParseArea(j.members, path);
        Parsed([r.value], r.errors)
      else Parsed([], [Violation(path, NotObject(JSON_AREA_LIST))])
  }

  // getUdmRoamingAreas.
  function ParseRoamingArea(ms: Members, path: string): Parsed<UdmRoamingArea> {
    var id := ParseString(ms, JSON_UDM_ROAMING_AREA_ID, path);
    var areas := ParseArray(ms, JSON_AREA_LIST, ParseAreaItemOf(path), path);
    Parsed(UdmRoamingArea(id.value, OrEmpty(areas.value), VendorOf(ms)), id.errors + areas.errors)
  }

  function AreaFields(a: AreaListElement): seq<Field> {
    match a.area
    case Tacs(tacs) => [ListField(JSON_TACS, EncodeAll(StrOf(), tacs)), Field(JSON_AREA_CODE, None)]
    case AreaCode(code) => [Field(JSON_TACS, None), StringField(JSON_AREA_CODE, code)]
  }

  function EncodeAreaOf(): AreaListElement -> Json {
    (a: AreaListElement) => ObjectOf(a.vendorSpecific, AreaFields(a))
  }

  function RoamingAreaFields(r: UdmRoamingArea): seq<Field> {
    [StringField(JSON_UDM_ROAMING_AREA_ID, r.udmRoamingAreaId),
     ListField(JSON_AREA_LIST, EncodeAll(EncodeAreaOf(), r.areaList))]
  }

  // udmRoamingAreaToJson.
  function EncodeRoamingArea(r: UdmRoamingArea): Members {
    r.vendorSpecific + Present(RoamingAreaFields(r))
  }

  predicate AreaPrintable(a: AreaListElement) {
    match a.area
    case Tacs(tacs) => tacs != []
    case AreaCode(code) => code != ""
  }

  lemma AreaBack(a: AreaListElement, path: string)
    requires VendorOk(a.vendorSpecific)
    ensures ParseArea(a.vendorSpecific + Present(AreaFields(a)), path) == Parsed(a, []) <==> AreaPrintable(a)
  {
    hide Get, VendorOf, Present, VendorOk, ParseItems, EncodeAll;
    var fs := AreaFields(a);
    ObjectReadBack(a.vendorSpecific, fs);
    assert fs[0].attribute == JSON_TACS && fs[1].attribute == JSON_AREA_CODE;
    if a.area.Tacs? {
      StringsBack(JSON_TACS, a.area.tacs, path);
    }
  }

  lemma AreaListBack(xs: seq<AreaListElement>, path: string)
    requires forall a :: a in xs ==> VendorOk(a.vendorSpecific)
    ensures ParseItems(ParseAreaItemOf(path), EncodeAll(EncodeAreaOf(), xs)) == Parsed(xs, []) <==> forall a :: a in xs ==> AreaPrintable(a)
  {
    hide ParseArea, AreaFields, VendorOk, AreaPrintable;
    var p, encode := ParseAreaItemOf(path), EncodeAreaOf();
    forall a | a in xs
      ensures |p(encode(a)).value| == 1
      ensures p(encode(a)) == Parsed([a], []) <==> AreaPrintable(a)
    {
      AreaBack(a, path);
    }
    EncodedItems(p, encode, xs);
  }

  lemma RoamingAreaNames(r: UdmRoamingArea)
    ensures WellNamed(RoamingAreaFields(r))
  {
    hide EncodeAll;
  }

  // A written roaming area reads back unchanged exactly when each area holds a code or TACs.
  lemma RoamingAreaRoundTrip(r: UdmRoamingArea, path: string)
    requires VendorOk(r.vendorSpecific) && forall a :: a in r.areaList ==> VendorOk(a.vendorSpecific)
    ensures ParseRoamingArea(EncodeRoamingArea(r), path) == Parsed(r, []) <==> forall a :: a in r.areaList ==> AreaPrintable(a)
  {
    hide Get, VendorOf, Present, VendorOk, Name, ParseItems, EncodeAll, ParseString, AreaPrintable;
    var fs := RoamingAreaFields(r);
    RoamingAreaNames(r);
    ObjectReadBack(r.vendorSpecific, fs);
    assert fs[0].attribute == JSON_UDM_ROAMING_AREA_ID && fs[1].attribute == JSON_AREA_LIST;
    StringBack(EncodeRoamingArea(r), JSON_UDM_ROAMING_AREA_ID, r.udmRoamingAreaId, path);
    AreaListBack(r.areaList, path);
  }

  // ---- related resources ----

  function MembersOf(j: Json): Members {
    if j.Obj? then j.members else []
  }

  const JSON_IMSI := "imsi"

  // getString: the text of a member, empty when it is absent or no string.
  function StringOrEmpty(ms: Members, name: string): string {
    match Member(ms, name)
    case Some(j) => if j.Str? then j.s else ""
    case None => ""
  }

  // The variant a path is read into, tried in the order of the parser, and the errors of reading
  // a slice profile or a roaming area.
  function ParseResource(path: string, j: Json): Parsed<Option<Resource>> {
    if EndsWith(path, UDM_STATIC_DATA) then Parsed(Some(StaticDataResource), [])
    else if EndsWith(path, PROV_JOURNAL) then Parsed(Some(ProvJournalResource(StringOrEmpty(MembersOf(j), JSON_IMSI))), [])
    else if Contains(path, UDM_SLICE_PROFILES) then
      var r := ParseSliceProfile(MembersOf(j), path);
      Parsed(Some(SliceProfileResource(r.value)), r.errors)
    else if Contains(path, UDM_ROAMING_AREAS) then
      var r := ParseRoamingArea(MembersOf(j), path);
      Parsed(Some(RoamingAreaResource(r.value)), r.errors)
    else if Contains(path, SMS_STATIC_DATA) then Parsed(Some(SmsDataResource), [])
    else Parsed(None, [])
  }

  function ParseRelated(ms: Members): Parsed<RelatedResources> {
    if ms == [] then Parsed([], []) else
      var n := |ms| - 1;
      var before, last := ParseRelated(ms[..n]), ParseResource(ms[n].key, ms[n].value);
      Parsed(if last.value.Some? then Emplace(before.value, ms[n].key, last.value.value) else before.value,
             before.errors + last.errors)
  }

  lemma ParseRelatedSnoc(ms: Members, i: nat)
    requires i < |ms|
    ensures var before, last := ParseRelated(ms[..i]), ParseResource(ms[i].key, ms[i].value);
            ParseRelated(ms[..i + 1])
              == Parsed(if last.value.Some? then Emplace(before.value, ms[i].key, last.value.value) else before.value,
                        before.errors + last.errors)
  {
    assert ms[..i + 1][..i] == ms[..i];
  }

  // The paths of the resources that are read.
  predicate IsRelatedPath(path: string) {
    || EndsWith(path, UDM_STATIC_DATA) || EndsWith(path, PROV_JOURNAL)
    || Contains(path, UDM_SLICE_PROFILES) || Contains(path, UDM_ROAMING_AREAS) || Contains(path, SMS_STATIC_DATA)
  }

  // The map holds, for each path that is read, the resource read from the first member of that path.
  lemma {:induction false} RelatedKeepsFirst(ms: Members, path: string)
    ensures Has(ParseRelated(ms).value, path) <==> Has(ms, path) && IsRelatedPath(path)
    ensures Has(ParseRelated(ms).value, path) ==> ParseResource(path, At(ms, path)).value == Some(At(ParseRelated(ms).value, path))
  {
    hide ParseResource, IsRelatedPath, Emplace, Find;
    if ms == [] {
      NothingFound<Json>(path);
      NothingFound<Resource>(path);
    } else {
      var n := |ms| - 1;
      assert ms == ms[..n] + [ms[n]];
      RelatedKeepsFirst(ms[..n], path);
      FindAppend(ms[..n], [ms[n]], path);
      FindOne(ms[n], path);
      ReadByPath(ms[n].key, ms[n].value);
      var last := ParseResource(ms[n].key, ms[n].value).value;
      if last.Some? {
        EmplaceFinds(ParseRelated(ms[..n]).value, ms[n].key, last.value, path);
      }
    }
  }

  lemma ReadByPath(path: string, j: Json)
    ensures ParseResource(path, j).value.Some? <==> IsRelatedPath(path)
  {
    hide ParseSliceProfile, ParseRoamingArea, EndsWith, Contains;
  }

  // Every entry of the map was read from a member of the same path.
  lemma {:induction false} RelatedFromMembers(ms: Members)
    ensures StrictlySorted(ParseRelated(ms).value)
    ensures forall e :: e in ParseRelated(ms).value ==>
              exists i :: 0 <= i < |ms| && ms[i].key == e.key && ParseResource(e.key, ms[i].value).value == Some(e.value)
  {
    hide ParseResource;
    if ms != [] {
      var n := |ms| - 1;
      RelatedFromMembers(ms[..n]);
      var before, last := ParseRelated(ms[..n]).value, ParseResource(ms[n].key, ms[n].value);
      if last.value.Some? {
        EmplaceKeepsOrder(before, ms[n].key, last.value.value);
        EmplaceMembers(before, ms[n].key, last.value.value);
      }
      assert forall i :: 0 <= i < n ==> ms[..n][i] == ms[i];
    }
  }

  lemma EmplaceMembers<V>(m: seq<Entry<V>>, k: string, v: V)
    ensures forall e :: e in Emplace(m, k, v) ==> e in m || e == Entry(k, v)
    ensures Has(Emplace(m, k, v), k)
  {
    if !Has(m, k) {
      var n := UpperBound(m, k);
      assert m == m[..n] + m[n..];
      assert Insert(m, Entry(k, v))[n] == Entry(k, v);
    }
  }
}
