// Members of JSON objects: the attribute names, the vendor-specific members
// (ValidatorVendorSpecificParser and ValidatorVendorSpecificEncoder), and objects written as a
// list of optional fields.
module JsonObjects {
  import opened JsonModel
  import opened Sequences
  import opened OrderedMaps
  import opened Text
  import opened Types

  type Members = seq<Entry<Json>>

  function Name(a: Attribute): (name: string)
    ensures name != ""
  {
    match a
    case JSON_PLMN_ID_SETS => "plmnIdSets"
    case JSON_PLMN_ID_SET_IDENTIFIER => "plmnIdSetIdentifier"
    case JSON_NSSAI => "nssai"
    case JSON_DEFAULT_SINGLE_NSSAIS => "defaultSingleNssais"
    case JSON_SINGLE_NSSAIS => "singleNssais"
    case JSON_SST => "sst"
    case JSON_SD => "sd"
    case JSON_DNN_LISTS => "dnnLists"
    case JSON_DNN_LIST_ID => "dnnListId"
    case JSON_DNN_DATA_LIST => "dnnDataList"
    case JSON_DNN => "dnn"
    case JSON_DEFAULT_DNN_INDICATOR => "defaultDnnIndicator"
    case JSON_LBO_ROAMING_ALLOWED => "lboRoamingAllowed"
    case JSON_IWK_EPS_IND => "iwkEpsInd"
    case JSON_LADN_INDICATOR => "ladnIndicator"
    case JSON_PDU_SESSION_TYPES => "pduSessionTypes"
    case JSON_DEFAULT_SESSION_TYPE => "defaultSessionType"
    case JSON_ALLOWED_SESSION_TYPES => "allowedSessionTypes"
    case JSON_SSC_MODES => "sscModes"
    case JSON_DEFAULT_SSC_MODE => "defaultSscMode"
    case JSON_ALLOWED_SSC_MODES => "allowedSscModes"
    case JSON_5G_QOS_PROFILE => "5gQosProfile"
    case JSON_5QI => "5qi"
    case JSON_ARP => "arp"
    case JSON_PRIORITY_LEVEL => "priorityLevel"
    case JSON_PREEMPTCAP => "preemptCap"
    case JSON_PREEMPTVULN => "preemptVuln"
    case JSON_SESSION_AMBR => "sessionAmbr"
    case JSON_UPLINK => "uplink"
    case JSON_DOWNLINK => "downlink"
    case JSON_3GPP_CHARGING_CHARACTERISTICS => "3gppChargingCharacteristics"
    case JSON_UP_SECURITY => "upSecurity"
    case JSON_UP_INTEGR => "upIntegr"
    case JSON_UP_CONFID => "upConfid"
    case JSON_SMF_LIST => "smfList"
    case JSON_SAME_SMF_IND => "sameSmfInd"
    case JSON_UDM_SLICE_PROFILE_ID => "udmSliceProfileId"
    case JSON_UDM_ROAMING_AREA_ID => "udmRoamingAreaId"
    case JSON_AREA_LIST => "areaList"
    case JSON_AREA_CODE => "areaCodes"
    case JSON_TACS => "tacs"
  }

  // ---- vendor-specific members ----

  const VENDOR_SPECIFIC := "vendorSpecific-"

  // ^vendorSpecific-(.*?) matched as a whole.
  predicate IsVendorSpecific(name: string) {
    VENDOR_SPECIFIC <= name
  }

  // getVendorSpecific: the vendor-specific members into a std::map, the first of a name kept.
  function VendorOf(ms: Members): VendorSpecific {
    if ms == [] then [] else
      var n := |ms| - 1;
      var vs := VendorOf(ms[..n]);
      if IsVendorSpecific(ms[n].key) then Emplace(vs, ms[n].key, ms[n].value) else vs
  }

  lemma VendorOfSnoc(ms: Members, m: Entry<Json>)
    ensures VendorOf(ms + [m]) == if IsVendorSpecific(m.key) then Emplace(VendorOf(ms), m.key, m.value) else VendorOf(ms)
  {
    assert (ms + [m])[..|ms|] == ms;
  }

  // The map holds exactly the first member of each vendor-specific name.
  lemma {:induction false} VendorOfExactly(ms: Members, name: string)
    ensures Has(VendorOf(ms), name) <==> IsVendorSpecific(name) && Has(ms, name)
    ensures Has(VendorOf(ms), name) ==> At(VendorOf(ms), name) == At(ms, name)
  {
    hide IsVendorSpecific, Emplace, Find;
    if ms == [] {
      NothingFound<Json>(name);
    } else {
      var n := |ms| - 1;
      assert ms == ms[..n] + [ms[n]];
      VendorOfExactly(ms[..n], name);
      FindAppend(ms[..n], [ms[n]], name);
      FindOne(ms[n], name);
      EmplaceFinds(VendorOf(ms[..n]), ms[n].key, ms[n].value, name);
    }
  }

  lemma NothingFound<V>(name: string)
    ensures !Has<V>([], name)
  {
  }

  // What a vendorSpecific map of the program holds.
  predicate VendorOk(vs: VendorSpecific) {
    StrictlySorted(vs) && forall i :: 0 <= i < |vs| ==> IsVendorSpecific(vs[i].key)
  }

  lemma EmplaceVendorOk(vs: VendorSpecific, k: string, j: Json)
    requires VendorOk(vs) && IsVendorSpecific(k)
    ensures VendorOk(Emplace(vs, k, j))
  {
    hide IsVendorSpecific, Less;
    EmplaceKeepsOrder(vs, k, j);
    var n := UpperBound(vs, k);
    var r := vs[..n] + [Entry(k, j)] + vs[n..];
    assert forall i :: 0 <= i < |r| ==> r[i].key == (if i < n then vs[i].key else if i == n then k else vs[i - 1].key);
  }

  lemma {:induction false} VendorOfIsOk(ms: Members)
    ensures VendorOk(VendorOf(ms))
  {
    hide IsVendorSpecific, VendorOk;
    if ms == [] {
      assert VendorOk([]) by { NoVendorOk(); }
    } else {
      var n := |ms| - 1;
      VendorOfIsOk(ms[..n]);
      if IsVendorSpecific(ms[n].key) {
        EmplaceVendorOk(VendorOf(ms[..n]), ms[n].key, ms[n].value);
      }
    }
  }

  lemma NoVendorOk()
    ensures VendorOk([])
  {
  }

  lemma {:induction false} VendorOfVendor(vs: VendorSpecific)
    requires VendorOk(vs)
    ensures VendorOf(vs) == vs
  {
    if vs != [] {
      var n := |vs| - 1;
      VendorOfVendor(vs[..n]);
      EmplaceAbove(vs[..n], vs[n].key, vs[n].value);
      assert vs == vs[..n] + [vs[n]];
    }
  }

  // ---- objects as lists of fields ----

  datatype Field = Field(attribute: Attribute, value: Option<Json>)

  function PresentOf(): Field -> Members {
    (f: Field) => if f.value.Some? then [Entry(Name(f.attribute), f.value.value)] else []
  }

  // The members the fields add, in order.
  function Present(fs: seq<Field>): Members {
    FlatMap(PresentOf(), fs)
  }

  function ObjectOf(vs: VendorSpecific, fs: seq<Field>): Json {
    Obj(vs + Present(fs))
  }

  // FindMember by attribute.
  function Get(ms: Members, a: Attribute): Option<Json> {
    Member(ms, Name(a))
  }

  // The fields have different names, none of them vendor-specific.
  predicate WellNamed(fs: seq<Field>) {
    && (forall i, j :: 0 <= i < j < |fs| ==> Name(fs[i].attribute) != Name(fs[j].attribute))
    && (forall i :: 0 <= i < |fs| ==> Name(fs[i].attribute)[0] != 'v')
  }

  lemma MemberAppend(a: Members, b: Members, name: string)
    ensures Member(a + b, name) == if Has(a, name) then Member(a, name) else Member(b, name)
  {
    var ab := a + b;
    var i := Find(ab, name);
    if Has(a, name) {
      var j := Find(a, name);
      assert ab[j] == a[j];
      assert i <= j;
      assert a[i] == ab[i];
    } else {
      assert forall j :: 0 <= j < |a| ==> ab[j] == a[j];
      assert i >= |a|;
      var j := Find(b, name);
      if Has(b, name) {
        assert ab[|a| + j] == b[j];
      }
      if i < |ab| {
        assert ab[i] == b[i - |a|];
      }
    }
  }

  lemma {:induction false} PresentNames(fs: seq<Field>, name: string)
    requires Has(Present(fs), name)
    ensures exists i :: 0 <= i < |fs| && name == Name(fs[i].attribute)
  {
    hide Name;
    var ms := Present(fs);
    var e := ms[Find(ms, name)];
    FlatMapIn(PresentOf(), fs, e);
  }

  lemma {:induction false} PresentFound(fs: seq<Field>, i: nat)
    requires i < |fs| && WellNamed(fs)
    ensures Get(Present(fs), fs[i].attribute) == fs[i].value
    decreases |fs|
  {
    hide Name;
    var n := |fs| - 1;
    var init, last := fs[..n], PresentOf()(fs[n]);
    var name := Name(fs[i].attribute);
    MemberAppend(Present(init), last, name);
    if i < n {
      PresentFound(init, i);
    } else if Has(Present(init), name) {
      PresentNames(init, name);
    }
  }

  lemma VendorLacks(vs: VendorSpecific, name: string)
    requires VendorOk(vs) && name != "" && name[0] != 'v'
    ensures !Has(vs, name)
  {
  }

  lemma {:induction false} VendorOfObject(vs: VendorSpecific, fs: seq<Field>)
    requires VendorOk(vs) && WellNamed(fs)
    ensures VendorOf(vs + Present(fs)) == vs
  {
    hide Name;
    if fs == [] {
      assert vs + Present(fs) == vs;
      VendorOfVendor(vs);
    } else {
      var n := |fs| - 1;
      VendorOfObject(vs, fs[..n]);
      var before := vs + Present(fs[..n]);
      if fs[n].value.Some? {
        var m := Entry(Name(fs[n].attribute), fs[n].value.value);
        assert vs + Present(fs) == before + [m];
        VendorOfSnoc(before, m);
        assert m.key[0] != 'v';
      } else {
        assert vs + Present(fs) == before;
      }
    }
  }

  // Every field of a written object is read back, absent ones as absent, and so are the
  // vendor-specific members.
  lemma ObjectReadBack(vs: VendorSpecific, fs: seq<Field>)
    requires VendorOk(vs) && WellNamed(fs)
    ensures VendorOf(vs + Present(fs)) == vs
    ensures forall i :: 0 <= i < |fs| ==> Get(vs + Present(fs), fs[i].attribute) == fs[i].value
  {
    hide Name;
    VendorOfObject(vs, fs);
    forall i | 0 <= i < |fs|
      ensures Get(vs + Present(fs), fs[i].attribute) == fs[i].value
    {
      MemberAppend(vs, Present(fs), Name(fs[i].attribute));
      VendorLacks(vs, Name(fs[i].attribute));
      PresentFound(fs, i);
    }
  }
}
