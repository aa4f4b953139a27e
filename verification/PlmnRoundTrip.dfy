// Writing a value and reading it back: level by level, the value comes out unchanged and without
// an error exactly when it is in printable form.
module PlmnRoundTrip {
  import opened JsonModel
  import opened JsonObjects
  import opened Sequences
  import opened Types
  import opened PlmnCodec

  // ---- lists ----

  lemma {:induction false} EncodedItems<T>(p: Json -> Parsed<seq<T>>, encode: T -> Json, xs: seq<T>)
    requires forall x :: x in xs ==> |p(encode(x)).value| == 1
    ensures |ParseItems(p, EncodeAll(encode, xs)).value| == |xs|
    ensures ParseItems(p, EncodeAll(encode, xs)) == Parsed(xs, []) <==> forall x :: x in xs ==> p(encode(x)) == Parsed([x], [])
  {
    if xs != [] {
      var n := |xs| - 1;
      assert EncodeAll(encode, xs)[..n] == EncodeAll(encode, xs[..n]);
      assert xs == xs[..n] + [xs[n]];
      EncodedItems(p, encode, xs[..n]);
      var before, last := ParseItems(p, EncodeAll(encode, xs[..n])), p(encode(xs[n]));
      assert before.value + last.value == xs <==> before.value == xs[..n] && last.value == [xs[n]] by {
        assert (before.value + last.value)[..n] == before.value && (before.value + last.value)[n..] == last.value;
      }
    }
  }

  lemma StringsBack(a: Attribute, xs: seq<string>, path: string)
    ensures ParseItems(ParseStringItemOf(a, path), EncodeAll(StrOf(), xs)) == Parsed(xs, [])
  {
    EncodedItems(ParseStringItemOf(a, path), StrOf(), xs);
  }

  // ---- single members ----

  lemma StringBack(ms: Members, a: Attribute, s: string, path: string)
    requires Get(ms, a) == StringField(a, s).value
    ensures ParseString(ms, a, path) == Parsed(s, [])
  {
  }

  lemma MandatoryStringBack(ms: Members, a: Attribute, parent: Attribute, s: string, path: string)
    requires Get(ms, a) == StringField(a, s).value
    ensures ParseMandatoryString(ms, a, parent, path) == Parsed(s, if s != "" then [] else [Violation(path, MissingField(a, parent))])
  {
  }

  lemma BoolBack(ms: Members, a: Attribute, b: Option<bool>, path: string)
    requires Get(ms, a) == BoolField(a, b).value
    ensures ParseBool(ms, a, path) == Parsed(b, [])
  {
  }

  lemma MandatoryIntBack(ms: Members, a: Attribute, parent: Attribute, n: Int32, path: string)
    requires Get(ms, a) == IntField(a, n).value
    ensures ParseMandatoryInt(ms, a, parent, path) == Parsed(n, [])
  {
  }

  // ---- objects ----

  lemma SnssaiBack(n: Snssai, path: string)
    requires VendorOk(n.vendorSpecific)
    ensures ParseSnssai(n.vendorSpecific + Present(SnssaiFields(n)), path) == Parsed(n, [])
  {
    hide Get, VendorOf, Present, VendorOk;
    var fs := SnssaiFields(n);
    ObjectReadBack(n.vendorSpecific, fs);
    assert fs[0].attribute == JSON_SST && fs[1].attribute == JSON_SD;
  }

  lemma NssaiDetailsBack(n: NssaiDetails, parent: Attribute, path: string)
    requires NssaiVendorOk(n)
    ensures ParseNssaiDetails(n.vendorSpecific + Present(NssaiDetailsFields(n)), parent, path) == Parsed(n, [])
  {
    hide Get, VendorOf, Present, VendorOk, ParseSnssai, SnssaiFields;
    var fs := NssaiDetailsFields(n);
    ObjectReadBack(n.vendorSpecific, fs);
    SnssaiBack(n.nssai, path);
    assert fs[0].attribute == JSON_DNN_LIST_ID && fs[1].attribute == JSON_3GPP_CHARGING_CHARACTERISTICS && fs[2].attribute == JSON_NSSAI;
  }

  lemma NssaiListBack(ns: seq<NssaiDetails>, parent: Attribute, path: string)
    requires forall n :: n in ns ==> NssaiVendorOk(n)
    ensures ParseItems(ParseNssaiItemOf(parent, path), EncodeAll(EncodeNssaiDetailsOf(), ns)) == Parsed(ns, [])
  {
    hide ParseNssaiDetails, NssaiDetailsFields;
    forall n | n in ns
      ensures ParseNssaiItemOf(parent, path)(EncodeNssaiDetailsOf()(n)) == Parsed([n], [])
    {
      NssaiDetailsBack(n, parent, path);
    }
    EncodedItems(ParseNssaiItemOf(parent, path), EncodeNssaiDetailsOf(), ns);
  }

  lemma PduSessionTypesBack(p: PduSessionTypes, path: string)
    requires VendorOk(p.vendorSpecific)
    ensures ParsePduSessionTypes(p.vendorSpecific + Present(PduSessionTypesFields(p)), path) == Parsed(p, [])
       <==> (p.hasAllowedSessionTypes <==> p.allowedSessionTypes != [])
  {
    hide Get, VendorOf, Present, VendorOk, ParseItems;
    var fs := PduSessionTypesFields(p);
    ObjectReadBack(p.vendorSpecific, fs);
    StringsBack(JSON_ALLOWED_SESSION_TYPES, p.allowedSessionTypes, path);
    assert fs[0].attribute == JSON_DEFAULT_SESSION_TYPE && fs[1].attribute == JSON_ALLOWED_SESSION_TYPES;
  }

  lemma SscModesBack(m: SscModes, path: string)
    requires VendorOk(m.vendorSpecific)
    ensures ParseSscModes(m.vendorSpecific + Present(SscModesFields(m)), path) == Parsed(m, [])
  {
    hide Get, VendorOf, Present, VendorOk, ParseItems;
    var fs := SscModesFields(m);
    ObjectReadBack(m.vendorSpecific, fs);
    StringsBack(JSON_ALLOWED_SSC_MODES, m.allowedSscModes, path);
    assert fs[0].attribute == JSON_DEFAULT_SSC_MODE && fs[1].attribute == JSON_ALLOWED_SSC_MODES;
  }

  lemma UpSecurityBack(u: UpSecurity, path: string)
    requires VendorOk(u.vendorSpecific)
    ensures ParseUpSecurity(u.vendorSpecific + Present(UpSecurityFields(u)), path) == Parsed(u, [])
  {
    hide Get, VendorOf, Present, VendorOk, ParseString;
    var fs := UpSecurityFields(u);
    UpSecurityNames(u);
    ObjectReadBack(u.vendorSpecific, fs);
    var ms := u.vendorSpecific + Present(fs);
    assert fs[0] == StringField(JSON_UP_INTEGR, u.upIntegr) && fs[1] == StringField(JSON_UP_CONFID, u.upConfid);
    StringBack(ms, JSON_UP_INTEGR, u.upIntegr, path);
    StringBack(ms, JSON_UP_CONFID, u.upConfid, path);
  }

  lemma AmbrBack(a: Ambr, path: string)
    requires VendorOk(a.vendorSpecific)
    ensures ParseAmbr(a.vendorSpecific + Present(AmbrFields(a)), path) == Parsed(a, []) <==> a.uplink != "" && a.downlink != ""
  {
    hide Get, VendorOf, Present, VendorOk;
    var fs := AmbrFields(a);
    ObjectReadBack(a.vendorSpecific, fs);
    assert fs[0].attribute == JSON_UPLINK && fs[1].attribute == JSON_DOWNLINK;
  }

  lemma ArpNames(a: Arp)
    ensures WellNamed(ArpFields(a))
  {
  }

  lemma ArpBack(a: Arp, path: string)
    requires VendorOk(a.vendorSpecific)
    ensures ParseArp(a.vendorSpecific + Present(ArpFields(a)), path) == Parsed(a, []) <==> a.preemptCap != "" && a.preemptVuln != ""
  {
    hide Get, VendorOf, Present, VendorOk, Name, ParseMandatoryInt, ParseMandatoryString;
    var fs := ArpFields(a);
    ArpNames(a);
    ObjectReadBack(a.vendorSpecific, fs);
    var ms := a.vendorSpecific + Present(fs);
    assert fs[0].attribute == JSON_PRIORITY_LEVEL && fs[1].attribute == JSON_PREEMPTCAP && fs[2].attribute == JSON_PREEMPTVULN;
    MandatoryIntBack(ms, JSON_PRIORITY_LEVEL, JSON_ARP, a.priorityLevel, path);
    MandatoryStringBack(ms, JSON_PREEMPTCAP, JSON_ARP, a.preemptCap, path);
    MandatoryStringBack(ms, JSON_PREEMPTVULN, JSON_ARP, a.preemptVuln, path);
  }

  lemma QosNames(q: FivegQosProfile)
    ensures WellNamed(QosFields(q))
  {
    hide ObjectOf, ArpFields;
  }

  lemma QosBack(q: FivegQosProfile, path: string)
    requires VendorOk(q.vendorSpecific) && VendorOk(q.arp.vendorSpecific)
    ensures ParseQos(q.vendorSpecific + Present(QosFields(q)), path) == Parsed(q, [])
       <==> q.arp.preemptCap != "" && q.arp.preemptVuln != ""
  {
    hide Get, VendorOf, Present, VendorOk, Name, ParseArp, ArpFields, ParseMandatoryInt;
    var fs := QosFields(q);
    QosNames(q);
    ObjectReadBack(q.vendorSpecific, fs);
    ArpBack(q.arp, path);
    assert fs[0].attribute == JSON_5QI && fs[1].attribute == JSON_ARP && fs[2].attribute == JSON_PRIORITY_LEVEL;
    MandatoryIntBack(q.vendorSpecific + Present(fs), JSON_5QI, JSON_5G_QOS_PROFILE, q.fiveqi, path);
  }

  const DNN_ATTRIBUTES := [JSON_DNN, JSON_DEFAULT_DNN_INDICATOR, JSON_LBO_ROAMING_ALLOWED, JSON_IWK_EPS_IND,
                           JSON_LADN_INDICATOR, JSON_PDU_SESSION_TYPES, JSON_SSC_MODES, JSON_5G_QOS_PROFILE, JSON_SESSION_AMBR,
                           JSON_3GPP_CHARGING_CHARACTERISTICS, JSON_UP_SECURITY, JSON_SMF_LIST, JSON_SAME_SMF_IND]

  const DNN_NAMES := ["dnn", "defaultDnnIndicator", "lboRoamingAllowed", "iwkEpsInd", "ladnIndicator", "pduSessionTypes", "sscModes",
                      "5gQosProfile", "sessionAmbr", "3gppChargingCharacteristics", "upSecurity", "smfList", "sameSmfInd"]

  lemma DnnNamesDiffer()
    ensures Distinct(DNN_NAMES)
    ensures forall i :: 0 <= i < |DNN_NAMES| ==> DNN_NAMES[i] != "" && DNN_NAMES[i][0] != 'v'
  {
  }

  lemma DnnAttributeNamesLow(i: nat)
    requires i < 7
    ensures Name(DNN_ATTRIBUTES[i]) == DNN_NAMES[i]
  {
  }

  lemma DnnAttributeNamesHigh(i: nat)
    requires 7 <= i < 13
    ensures Name(DNN_ATTRIBUTES[i]) == DNN_NAMES[i]
  {
  }

  lemma DnnAttributeNames(i: nat)
    requires i < |DNN_ATTRIBUTES|
    ensures |DNN_NAMES| == |DNN_ATTRIBUTES| == 13 && Name(DNN_ATTRIBUTES[i]) == DNN_NAMES[i]
  {
    hide Name;
    if i < 7 {
      DnnAttributeNamesLow(i);
    } else {
      DnnAttributeNamesHigh(i);
    }
  }

  lemma DnnDataAttributes(d: DnnData)
    ensures |DnnDataFields(d)| == |DNN_ATTRIBUTES|
    ensures forall i :: 0 <= i < |DNN_ATTRIBUTES| ==> DnnDataFields(d)[i].attribute == DNN_ATTRIBUTES[i]
  {
    hide ObjectOf, EncodeAll;
  }

  // The members of a written DNN, as reading finds them.
  lemma DnnDataMembers(d: DnnData)
    requires VendorOk(d.vendorSpecific)
    ensures var ms := d.vendorSpecific + Present(DnnDataFields(d));
            && VendorOf(ms) == d.vendorSpecific
            && |DnnDataFields(d)| == |DNN_ATTRIBUTES|
            && forall i :: 0 <= i < |DNN_ATTRIBUTES| ==> Get(ms, DNN_ATTRIBUTES[i]) == DnnDataFields(d)[i].value
  {
    hide Get, VendorOf, Present, VendorOk, Name, DnnDataFields, DNN_ATTRIBUTES, DNN_NAMES;
    var fs := DnnDataFields(d);
    DnnNamesDiffer();
    DnnDataAttributes(d);
    forall i | 0 <= i < |fs|
      ensures |DNN_NAMES| == |DNN_ATTRIBUTES| && Name(fs[i].attribute) == DNN_NAMES[i]
    {
      DnnAttributeNames(i);
    }
    ObjectReadBack(d.vendorSpecific, fs);
  }

  lemma UpSecurityNames(u: UpSecurity)
    ensures WellNamed(UpSecurityFields(u))
  {
  }

  lemma PduBack(ms: Members, d: DnnData, path: string)
    requires DnnDataVendorOk(d) && Get(ms, JSON_PDU_SESSION_TYPES) == PduJson(d)
    ensures ParseObject(ms, JSON_PDU_SESSION_TYPES, (m: Members) => ParsePduSessionTypes(m, path), PduSessionTypes("", [], false, []), path)
              == Parsed(d.pduSessionTypes, [])
       <==> (d.pduSessionTypes.Some? ==> (d.pduSessionTypes.value.hasAllowedSessionTypes <==> d.pduSessionTypes.value.allowedSessionTypes != []))
  {
    hide Get, Present, VendorOk, ParsePduSessionTypes, PduSessionTypesFields;
    if d.pduSessionTypes.Some? {
      PduSessionTypesBack(d.pduSessionTypes.value, path);
    }
  }

  lemma SscBack(ms: Members, d: DnnData, path: string)
    requires DnnDataVendorOk(d) && Get(ms, JSON_SSC_MODES) == SscJson(d)
    ensures ParseObject(ms, JSON_SSC_MODES, (m: Members) => ParseSscModes(m, path), SscModes("", [], []), path) == Parsed(d.sscModes, [])
  {
    hide Get, Present, VendorOk, ParseSscModes, SscModesFields;
    if d.sscModes.Some? {
      SscModesBack(d.sscModes.value, path);
    }
  }

  lemma QosProfileBack(ms: Members, d: DnnData, path: string)
    requires DnnDataVendorOk(d) && Get(ms, JSON_5G_QOS_PROFILE) == QosJson(d)
    ensures ParseObject(ms, JSON_5G_QOS_PROFILE, (m: Members) => ParseQos(m, path), FivegQosProfile(0, NO_ARP, None, []), path)
              == Parsed(d.fivegQosProfile, [])
       <==> (d.fivegQosProfile.Some? ==> d.fivegQosProfile.value.arp.preemptCap != "" && d.fivegQosProfile.value.arp.preemptVuln != "")
  {
    hide Get, Present, VendorOk, ParseQos, QosFields;
    if d.fivegQosProfile.Some? {
      QosBack(d.fivegQosProfile.value, path);
    }
  }

  lemma SessionAmbrBack(ms: Members, d: DnnData, path: string)
    requires DnnDataVendorOk(d) && Get(ms, JSON_SESSION_AMBR) == AmbrJson(d)
    ensures ParseObject(ms, JSON_SESSION_AMBR, (m: Members) => ParseAmbr(m, path), Ambr("", "", []), path) == Parsed(d.sessionAmbr, [])
       <==> (d.sessionAmbr.Some? ==> d.sessionAmbr.value.uplink != "" && d.sessionAmbr.value.downlink != "")
  {
    hide Get, Present, VendorOk, ParseAmbr, AmbrFields;
    if d.sessionAmbr.Some? {
      AmbrBack(d.sessionAmbr.value, path);
    }
  }

  lemma SecurityBack(ms: Members, d: DnnData, path: string)
    requires DnnDataVendorOk(d) && Get(ms, JSON_UP_SECURITY) == UpSecurityJson(d)
    ensures ParseObject(ms, JSON_UP_SECURITY, (m: Members) => ParseUpSecurity(m, path), UpSecurity("", "", []), path) == Parsed(d.upSecurity, [])
  {
    hide Get, Present, VendorOk, ParseUpSecurity, UpSecurityFields;
    if d.upSecurity.Some? {
      UpSecurityBack(d.upSecurity.value, path);
    }
  }

  lemma SmfListBack(ms: Members, d: DnnData, path: string)
    requires Get(ms, JSON_SMF_LIST) == SmfListJson(d)
    ensures ParseStrings(ms, JSON_SMF_LIST, path) == Parsed(d.smfList, [])
  {
    hide Get, ParseItems, EncodeAll;
    if d.smfList.Some? {
      StringsBack(JSON_SMF_LIST, d.smfList.value, path);
    }
  }

  lemma DnnDataGets(d: DnnData)
    requires VendorOk(d.vendorSpecific)
    ensures var ms := d.vendorSpecific + Present(DnnDataFields(d));
            && VendorOf(ms) == d.vendorSpecific
            && Get(ms, JSON_DNN) == StringField(JSON_DNN, d.dnn).value
            && Get(ms, JSON_DEFAULT_DNN_INDICATOR) == BoolField(JSON_DEFAULT_DNN_INDICATOR, d.defaultDnnIndicator).value
            && Get(ms, JSON_LBO_ROAMING_ALLOWED) == BoolField(JSON_LBO_ROAMING_ALLOWED, d.lboRoamingAllowed).value
            && Get(ms, JSON_IWK_EPS_IND) == BoolField(JSON_IWK_EPS_IND, d.iwkEpsInd).value
            && Get(ms, JSON_LADN_INDICATOR) == BoolField(JSON_LADN_INDICATOR, d.ladnIndicator).value
            && Get(ms, JSON_PDU_SESSION_TYPES) == PduJson(d)
            && Get(ms, JSON_SSC_MODES) == SscJson(d)
            && Get(ms, JSON_5G_QOS_PROFILE) == QosJson(d)
            && Get(ms, JSON_SESSION_AMBR) == AmbrJson(d)
            && Get(ms, JSON_3GPP_CHARGING_CHARACTERISTICS) == StringField(JSON_3GPP_CHARGING_CHARACTERISTICS, d.chargingCharacteristics).value
            && Get(ms, JSON_UP_SECURITY) == UpSecurityJson(d)
            && Get(ms, JSON_SMF_LIST) == SmfListJson(d)
            && Get(ms, JSON_SAME_SMF_IND) == BoolField(JSON_SAME_SMF_IND, d.sameSmfInd).value
  {
    hide Get, VendorOf, Present, VendorOk, Name, StringField, BoolField, PduJson, SscJson, QosJson, AmbrJson, UpSecurityJson, SmfListJson, DNN_ATTRIBUTES;
    DnnDataMembers(d);
    DnnAttributesListed();
  }

  lemma DnnAttributesListed()
    ensures |DNN_ATTRIBUTES| == 13
    ensures DNN_ATTRIBUTES[0] == JSON_DNN && DNN_ATTRIBUTES[1] == JSON_DEFAULT_DNN_INDICATOR
    ensures DNN_ATTRIBUTES[2] == JSON_LBO_ROAMING_ALLOWED && DNN_ATTRIBUTES[3] == JSON_IWK_EPS_IND
    ensures DNN_ATTRIBUTES[4] == JSON_LADN_INDICATOR && DNN_ATTRIBUTES[5] == JSON_PDU_SESSION_TYPES
    ensures DNN_ATTRIBUTES[6] == JSON_SSC_MODES && DNN_ATTRIBUTES[7] == JSON_5G_QOS_PROFILE
    ensures DNN_ATTRIBUTES[8] == JSON_SESSION_AMBR && DNN_ATTRIBUTES[9] == JSON_3GPP_CHARGING_CHARACTERISTICS
    ensures DNN_ATTRIBUTES[10] == JSON_UP_SECURITY && DNN_ATTRIBUTES[11] == JSON_SMF_LIST && DNN_ATTRIBUTES[12] == JSON_SAME_SMF_IND
  {
  }

  // A written DNN reads back unchanged exactly when it is printable.
  lemma DnnDataBack(d: DnnData, path: string)
    requires DnnDataVendorOk(d)
    ensures ParseDnnData(d.vendorSpecific + Present(DnnDataFields(d)), path) == Parsed(d, []) <==> DnnDataPrintable(d)
  {
    hide Get, VendorOf, Present, VendorOk, Name, ParseString, ParseBool, ParseObject, ParseStrings, DnnDataFields,
         StringField, BoolField, PduJson, SscJson, QosJson, AmbrJson, UpSecurityJson, SmfListJson;
    var ms := d.vendorSpecific + Present(DnnDataFields(d));
    DnnDataGets(d);
    StringBack(ms, JSON_DNN, d.dnn, path);
    BoolBack(ms, JSON_DEFAULT_DNN_INDICATOR, d.defaultDnnIndicator, path);
    BoolBack(ms, JSON_LBO_ROAMING_ALLOWED, d.lboRoamingAllowed, path);
    BoolBack(ms, JSON_IWK_EPS_IND, d.iwkEpsInd, path);
    BoolBack(ms, JSON_LADN_INDICATOR, d.ladnIndicator, path);
    PduBack(ms, d, path);
    SscBack(ms, d, path);
    QosProfileBack(ms, d, path);
    SessionAmbrBack(ms, d, path);
    StringBack(ms, JSON_3GPP_CHARGING_CHARACTERISTICS, d.chargingCharacteristics, path);
    SecurityBack(ms, d, path);
    SmfListBack(ms, d, path);
    BoolBack(ms, JSON_SAME_SMF_IND, d.sameSmfInd, path);
  }

  lemma DnnDataListBack(ds: seq<DnnData>, path: string)
    requires forall d :: d in ds ==> DnnDataVendorOk(d)
    ensures |ParseItems(ParseDnnDataItemOf(path), EncodeAll(EncodeDnnDataOf(), ds)).value| == |ds|
    ensures ParseItems(ParseDnnDataItemOf(path), EncodeAll(EncodeDnnDataOf(), ds)) == Parsed(ds, [])
       <==> forall d :: d in ds ==> DnnDataPrintable(d)
  {
    hide ParseDnnData, DnnDataFields, DnnDataVendorOk, DnnDataPrintable;
    var p, encode := ParseDnnDataItemOf(path), EncodeDnnDataOf();
    forall d | d in ds
      ensures |p(encode(d)).value| == 1
      ensures p(encode(d)) == Parsed([d], []) <==> DnnDataPrintable(d)
    {
      DnnDataBack(d, path);
    }
    EncodedItems(p, encode, ds);
  }

  lemma DnnListBack(l: DnnList, path: string)
    requires DnnListVendorOk(l)
    ensures ParseDnnList(l.vendorSpecific + Present(DnnListFields(l)), path) == Parsed(l, []) <==> DnnListPrintable(l)
  {
    hide Get, VendorOf, Present, VendorOk, ParseItems, EncodeAll, DnnDataVendorOk, DnnDataPrintable, ParseMandatoryString;
    var fs := DnnListFields(l);
    DnnListNames(l);
    ObjectReadBack(l.vendorSpecific, fs);
    var ms := l.vendorSpecific + Present(fs);
    assert fs[0] == StringField(JSON_DNN_LIST_ID, l.dnnListId) && fs[1].attribute == JSON_DNN_DATA_LIST;
    MandatoryStringBack(ms, JSON_DNN_LIST_ID, JSON_DNN_LISTS, l.dnnListId, path);
    DnnDataListBack(l.dnnDataList, path);
  }

  lemma DnnListNames(l: DnnList)
    ensures WellNamed(DnnListFields(l))
  {
    hide EncodeAll;
  }

  lemma DnnListsBack(ls: seq<DnnList>, path: string)
    requires forall l :: l in ls ==> DnnListVendorOk(l)
    ensures |ParseItems(ParseDnnListItemOf(path), EncodeAll(EncodeDnnListOf(), ls)).value| == |ls|
    ensures ParseItems(ParseDnnListItemOf(path), EncodeAll(EncodeDnnListOf(), ls)) == Parsed(ls, [])
       <==> forall l :: l in ls ==> DnnListPrintable(l)
  {
    hide ParseDnnList, DnnListFields, DnnListVendorOk, DnnListPrintable;
    var p, encode := ParseDnnListItemOf(path), EncodeDnnListOf();
    forall l | l in ls
      ensures |p(encode(l)).value| == 1
      ensures p(encode(l)) == Parsed([l], []) <==> DnnListPrintable(l)
    {
      DnnListBack(l, path);
    }
    EncodedItems(p, encode, ls);
  }

  lemma SliceInfoNames(s: PlmnIdSet)
    ensures WellNamed(SliceInfoFields(s))
  {
    hide EncodeAll;
  }

  // The nssai member of a written PLMN set: the single S-NSSAIs come back when they are written.
  lemma SliceInfoBack(s: PlmnIdSet, path: string)
    requires PlmnIdSetVendorOk(s)
    ensures var singles := if s.hasNssai then s.nssai.singleNssais else [];
            ParseSliceInfo(s.nssai.vendorSpecific + Present(SliceInfoFields(s)), path)
              == Parsed((s.nssai.(singleNssais := singles), singles != []), [])
  {
    hide Get, VendorOf, Present, VendorOk, ParseItems, EncodeAll, NssaiVendorOk, DnnListVendorOk;
    var fs := SliceInfoFields(s);
    SliceInfoNames(s);
    ObjectReadBack(s.nssai.vendorSpecific, fs);
    assert fs[0].attribute == JSON_DEFAULT_SINGLE_NSSAIS && fs[1].attribute == JSON_SINGLE_NSSAIS;
    NssaiListBack(s.nssai.defaultSingleNssais, JSON_DEFAULT_SINGLE_NSSAIS, path);
    NssaiListBack(s.nssai.singleNssais, JSON_SINGLE_NSSAIS, path);
  }

  lemma PlmnIdSetNames(s: PlmnIdSet)
    ensures WellNamed(PlmnIdSetFields(s))
  {
    hide EncodeAll, NssaiJson;
  }

  lemma NssaiMemberBack(ms: Members, s: PlmnIdSet, path: string)
    requires PlmnIdSetVendorOk(s) && Get(ms, JSON_NSSAI) == NssaiJson(s)
    ensures var singles := if s.hasNssai then s.nssai.singleNssais else [];
            ParseObject(ms, JSON_NSSAI, (m: Members) => ParseSliceInfo(m, path), (NO_NSSAI, false), path)
              == Parsed(if s.hasAnyNssai then Some((s.nssai.(singleNssais := singles), singles != [])) else None, [])
  {
    hide Get, Present, PlmnIdSetVendorOk, ParseSliceInfo, SliceInfoFields;
    if s.hasAnyNssai {
      SliceInfoBack(s, path);
    }
  }

  lemma DnnListsMemberBack(ms: Members, ls: seq<DnnList>, path: string)
    requires forall l :: l in ls ==> DnnListVendorOk(l)
    requires Get(ms, JSON_DNN_LISTS) == ListField(JSON_DNN_LISTS, EncodeAll(EncodeDnnListOf(), ls)).value
    ensures var r := ParseArray(ms, JSON_DNN_LISTS, ParseDnnListItemOf(path), path);
            && (r.value.Some? <==> ls != [])
            && (OrEmpty(r.value) == ls && r.errors == [] <==> forall l :: l in ls ==> DnnListPrintable(l))
  {
    hide Get, ParseItems, DnnListVendorOk, DnnListPrintable, EncodeDnnListOf;
    DnnListsBack(ls, path);
  }

  // A written PLMN set reads back unchanged exactly when it is printable.
  lemma PlmnIdSetBack(s: PlmnIdSet, isSliceData: bool, path: string)
    requires PlmnIdSetVendorOk(s)
    ensures ParsePlmnIdSet(s.vendorSpecific + Present(PlmnIdSetFields(s)), isSliceData, path) == Parsed(s, [])
       <==> PlmnIdSetPrintable(s, isSliceData)
  {
    hide Get, VendorOf, Present, VendorOk, Name, EncodeAll, NssaiJson, NssaiVendorOk, DnnListVendorOk, DnnListPrintable,
         ParseMandatoryString, ParseObject, ParseArray;
    var fs := PlmnIdSetFields(s);
    PlmnIdSetNames(s);
    ObjectReadBack(s.vendorSpecific, fs);
    var ms := s.vendorSpecific + Present(fs);
    assert fs[0] == StringField(JSON_PLMN_ID_SET_IDENTIFIER, s.plmnIdSetIdentifier);
    assert fs[1].attribute == JSON_NSSAI && fs[2].attribute == JSON_DNN_LISTS;
    MandatoryStringBack(ms, JSON_PLMN_ID_SET_IDENTIFIER, JSON_PLMN_ID_SETS, s.plmnIdSetIdentifier, path);
    NssaiMemberBack(ms, s, path);
    DnnListsMemberBack(ms, s.dnnLists, path);
  }

  // Writing PLMN sets and reading them back gives the same sets and no error exactly when every
  // set is in printable form.
  lemma PlmnIdSetsRoundTrip(sets: seq<PlmnIdSet>, isSliceData: bool, path: string)
    requires forall s :: s in sets ==> PlmnIdSetVendorOk(s)
    ensures ParsePlmnIdSets(EncodePlmnIdSets(sets), isSliceData, path) == Parsed(sets, [])
       <==> forall s :: s in sets ==> PlmnIdSetPrintable(s, isSliceData)
  {
    hide ParsePlmnIdSet, PlmnIdSetFields, PlmnIdSetVendorOk, PlmnIdSetPrintable;
    var p, encode := ParsePlmnIdSetItemOf(isSliceData, path), EncodePlmnIdSetOf();
    forall s | s in sets
      ensures |p(encode(s)).value| == 1
      ensures p(encode(s)) == Parsed([s], []) <==> PlmnIdSetPrintable(s, isSliceData)
    {
      PlmnIdSetBack(s, isSliceData, path);
    }
    EncodedItems(p, encode, sets);
  }
}
