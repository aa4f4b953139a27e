// What reading gives, whatever the JSON: each field of a value read is the member of its name, and
// each list of values the objects of the array, in order.
module ReadValues {
  import opened JsonModel
  import opened JsonObjects
  import opened Types
  import opened PlmnCodec
  import opened ResourceCodec

  // ---- members by name ----

  // The text of a member, empty when it is absent or no text.
  function TextAt(ms: Members, a: Attribute): string {
    match Get(ms, a)
    case Some(Str(s)) => s
    case _ => ""
  }

  // A flag, false when it is there but no flag.
  function FlagAt(ms: Members, a: Attribute): Option<bool> {
    match Get(ms, a)
    case None => None
    case Some(j) => Some(j.Bool? && j.b)
  }

  // A number of 32 bits, 0 when it is there but no such number.
  function NumberAt(ms: Members, a: Attribute): Option<Int32> {
    match Get(ms, a)
    case None => None
    case Some(j) => Some(if j.IsInt() then j.n else 0)
  }

  function TextsOf(items: seq<Json>): seq<string> {
    if items == [] then [] else
      var n := |items| - 1;
      TextsOf(items[..n]) + if items[n].Str? then [items[n].s] else []
  }

  // The texts of an array, none when it is there but no array.
  function TextsAt(ms: Members, a: Attribute): Option<seq<string>> {
    match Get(ms, a)
    case None => None
    case Some(j) => Some(if j.Arr? then TextsOf(j.items) else [])
  }

  function ObjectsOf(items: seq<Json>): seq<Members> {
    if items == [] then [] else
      var n := |items| - 1;
      ObjectsOf(items[..n]) + if items[n].Obj? then [items[n].members] else []
  }

  // The objects of an array, none when it is absent or no array.
  function ObjectsAt(ms: Members, a: Attribute): seq<Members> {
    match Get(ms, a)
    case Some(Arr(items)) => ObjectsOf(items)
    case _ => []
  }

  // The members of an object member; one of another type counts as an object without members.
  function ObjectAt(ms: Members, a: Attribute): Option<Members> {
    match Get(ms, a)
    case None => None
    case Some(j) => Some(if j.Obj? then j.members else [])
  }

  predicate Pairwise<T>(objects: seq<Members>, xs: seq<T>, fits: (Members, T) -> bool) {
    |xs| == |objects| && forall i :: 0 <= i < |xs| ==> fits(objects[i], xs[i])
  }

  predicate Optional<T>(member: Option<Members>, x: Option<T>, fits: (Members, T) -> bool) {
    (x.Some? <==> member.Some?) && (x.Some? ==> fits(member.value, x.value))
  }

  // ---- the objects ----

  predicate SnssaiReads(ms: Members, n: Snssai) {
    && n.sst == (if NumberAt(ms, JSON_SST).Some? then NumberAt(ms, JSON_SST).value else 0)
    && n.sd == TextAt(ms, JSON_SD)
    && n.vendorSpecific == VendorOf(ms)
  }

  predicate NssaiReads(ms: Members, n: NssaiDetails) {
    && n.dnnListId == TextAt(ms, JSON_DNN_LIST_ID)
    && n.chargingCharacteristics == TextAt(ms, JSON_3GPP_CHARGING_CHARACTERISTICS)
    && SnssaiReads(if ObjectAt(ms, JSON_NSSAI).Some? then ObjectAt(ms, JSON_NSSAI).value else [], n.nssai)
    && n.vendorSpecific == VendorOf(ms)
  }

  predicate PduReads(ms: Members, p: PduSessionTypes) {
    && p.defaultSessionType == TextAt(ms, JSON_DEFAULT_SESSION_TYPE)
    && p.allowedSessionTypes == OrEmpty(TextsAt(ms, JSON_ALLOWED_SESSION_TYPES))
    && p.hasAllowedSessionTypes == TextsAt(ms, JSON_ALLOWED_SESSION_TYPES).Some?
    && p.vendorSpecific == VendorOf(ms)
  }

  predicate SscReads(ms: Members, m: SscModes) {
    && m.defaultSscMode == TextAt(ms, JSON_DEFAULT_SSC_MODE)
    && m.allowedSscModes == OrEmpty(TextsAt(ms, JSON_ALLOWED_SSC_MODES))
    && m.vendorSpecific == VendorOf(ms)
  }

  predicate UpSecurityReads(ms: Members, u: UpSecurity) {
    u.upIntegr == TextAt(ms, JSON_UP_INTEGR) && u.upConfid == TextAt(ms, JSON_UP_CONFID) && u.vendorSpecific == VendorOf(ms)
  }

  predicate AmbrReads(ms: Members, a: Ambr) {
    a.uplink == TextAt(ms, JSON_UPLINK) && a.downlink == TextAt(ms, JSON_DOWNLINK) && a.vendorSpecific == VendorOf(ms)
  }

  predicate ArpReads(ms: Members, a: Arp) {
    && a.priorityLevel == (if NumberAt(ms, JSON_PRIORITY_LEVEL).Some? then NumberAt(ms, JSON_PRIORITY_LEVEL).value else 0)
    && a.preemptCap == TextAt(ms, JSON_PREEMPTCAP)
    && a.preemptVuln == TextAt(ms, JSON_PREEMPTVULN)
    && a.vendorSpecific == VendorOf(ms)
  }

  predicate QosReads(ms: Members, q: FivegQosProfile) {
    && q.fiveqi == (if NumberAt(ms, JSON_5QI).Some? then NumberAt(ms, JSON_5QI).value else 0)
    && ArpReads(if ObjectAt(ms, JSON_ARP).Some? then ObjectAt(ms, JSON_ARP).value else [], q.arp)
    && q.priorityLevel == NumberAt(ms, JSON_PRIORITY_LEVEL)
    && q.vendorSpecific == VendorOf(ms)
  }

  predicate DnnDataReads(ms: Members, d: DnnData) {
    && d.dnn == TextAt(ms, JSON_DNN)
    && d.defaultDnnIndicator == FlagAt(ms, JSON_DEFAULT_DNN_INDICATOR)
    && d.lboRoamingAllowed == FlagAt(ms, JSON_LBO_ROAMING_ALLOWED)
    && d.iwkEpsInd == FlagAt(ms, JSON_IWK_EPS_IND)
    && d.ladnIndicator == FlagAt(ms, JSON_LADN_INDICATOR)
    && Optional(ObjectAt(ms, JSON_PDU_SESSION_TYPES), d.pduSessionTypes, PduReads)
    && Optional(ObjectAt(ms, JSON_SSC_MODES), d.sscModes, SscReads)
    && Optional(ObjectAt(ms, JSON_5G_QOS_PROFILE), d.fivegQosProfile, QosReads)
    && Optional(ObjectAt(ms, JSON_SESSION_AMBR), d.sessionAmbr, AmbrReads)
    && d.chargingCharacteristics == TextAt(ms, JSON_3GPP_CHARGING_CHARACTERISTICS)
    && Optional(ObjectAt(ms, JSON_UP_SECURITY), d.upSecurity, UpSecurityReads)
    && d.smfList == TextsAt(ms, JSON_SMF_LIST)
    && d.sameSmfInd == FlagAt(ms, JSON_SAME_SMF_IND)
    && d.vendorSpecific == VendorOf(ms)
  }

  predicate DnnListReads(ms: Members, l: DnnList) {
    && l.dnnListId == TextAt(ms, JSON_DNN_LIST_ID)
    && Pairwise(ObjectsAt(ms, JSON_DNN_DATA_LIST), l.dnnDataList, DnnDataReads)
    && l.vendorSpecific == VendorOf(ms)
  }

  predicate SliceInfoReads(ms: Members, n: SliceInfoNssai) {
    && Pairwise(ObjectsAt(ms, JSON_DEFAULT_SINGLE_NSSAIS), n.defaultSingleNssais, NssaiReads)
    && Pairwise(ObjectsAt(ms, JSON_SINGLE_NSSAIS), n.singleNssais, NssaiReads)
    && n.vendorSpecific == VendorOf(ms)
  }

  predicate PlmnIdSetReads(ms: Members, s: PlmnIdSet) {
    var nssai := ObjectAt(ms, JSON_NSSAI);
    && s.plmnIdSetIdentifier == TextAt(ms, JSON_PLMN_ID_SET_IDENTIFIER)
    && SliceInfoReads(if nssai.Some? then nssai.value else [], s.nssai)
    && s.hasAnyNssai == nssai.Some?
    && s.hasNssai == (nssai.Some? && Get(nssai.value, JSON_SINGLE_NSSAIS).Some?)
    && Pairwise(ObjectsAt(ms, JSON_DNN_LISTS), s.dnnLists, DnnListReads)
    && s.vendorSpecific == VendorOf(ms)
  }

  predicate SliceProfileReads(ms: Members, p: UdmSliceProfile) {
    && p.udmSliceProfileId == TextAt(ms, JSON_UDM_SLICE_PROFILE_ID)
    && Pairwise(ObjectsAt(ms, JSON_PLMN_ID_SETS), p.plmnIdSets, PlmnIdSetReads)
    && p.vendorSpecific == VendorOf(ms)
  }

  // An area with a code is that code, one without a code its TACs.
  predicate AreaReads(ms: Members, a: AreaListElement) {
    && a.area == (if Get(ms, JSON_AREA_CODE).Some? || Get(ms, JSON_TACS).None? || !Get(ms, JSON_TACS).value.Arr?
                  then AreaCode(TextAt(ms, JSON_AREA_CODE)) else Tacs(TextsOf(Get(ms, JSON_TACS).value.items)))
    && a.vendorSpecific == VendorOf(ms)
  }

  predicate RoamingAreaReads(ms: Members, r: UdmRoamingArea) {
    && r.udmRoamingAreaId == TextAt(ms, JSON_UDM_ROAMING_AREA_ID)
    && Pairwise(ObjectsAt(ms, JSON_AREA_LIST), r.areaList, AreaReads)
    && r.vendorSpecific == VendorOf(ms)
  }

  // ---- single members ----

  lemma StringReads(ms: Members, a: Attribute, parent: Attribute, path: string)
    ensures ParseString(ms, a, path).value == TextAt(ms, a)
    ensures ParseMandatoryString(ms, a, parent, path).value == TextAt(ms, a)
  {
    hide Get;
  }

  lemma BoolReads(ms: Members, a: Attribute, path: string)
    ensures ParseBool(ms, a, path).value == FlagAt(ms, a)
  {
    hide Get;
  }

  lemma IntReads(ms: Members, a: Attribute, parent: Attribute, path: string)
    ensures ParseInt(ms, a, path).value == NumberAt(ms, a)
    ensures ParseMandatoryInt(ms, a, parent, path).value == if NumberAt(ms, a).Some? then NumberAt(ms, a).value else 0
  {
    hide Get;
  }

  lemma {:induction false} TextItemsRead(a: Attribute, items: seq<Json>, path: string)
    ensures ParseItems(ParseStringItemOf(a, path), items).value == TextsOf(items)
  {
    if items != [] {
      TextItemsRead(a, items[..|items| - 1], path);
    }
  }

  lemma StringsRead(ms: Members, a: Attribute, path: string)
    ensures ParseStrings(ms, a, path).value == TextsAt(ms, a)
  {
    hide Get, ParseItems, TextsOf;
    if Get(ms, a).Some? && Get(ms, a).value.Arr? {
      TextItemsRead(a, Get(ms, a).value.items, path);
    }
  }

  lemma ObjectReads<T>(ms: Members, a: Attribute, p: Members -> Parsed<T>, absent: T, fits: (Members, T) -> bool, path: string)
    requires fits([], absent) && forall m :: fits(m, p(m).value)
    ensures Optional(ObjectAt(ms, a), ParseObject(ms, a, p, absent, path).value, fits)
  {
    hide Get;
  }

  lemma {:induction false} ItemsRead<T>(p: Json -> Parsed<seq<T>>, items: seq<Json>, fits: (Members, T) -> bool)
    requires forall j: Json :: if j.Obj? then |p(j).value| == 1 && fits(j.members, p(j).value[0]) else p(j).value == []
    ensures Pairwise(ObjectsOf(items), ParseItems(p, items).value, fits)
  {
    if items != [] {
      var n := |items| - 1;
      ItemsRead(p, items[..n], fits);
      assert if items[n].Obj? then |p(items[n]).value| == 1 && fits(items[n].members, p(items[n]).value[0]) else p(items[n]).value == [];
    }
  }

  lemma ArrayReads<T>(ms: Members, a: Attribute, p: Json -> Parsed<seq<T>>, fits: (Members, T) -> bool, path: string)
    requires forall j: Json :: if j.Obj? then |p(j).value| == 1 && fits(j.members, p(j).value[0]) else p(j).value == []
    ensures Pairwise(ObjectsAt(ms, a), OrEmpty(ParseArray(ms, a, p, path).value), fits)
    ensures ParseArray(ms, a, p, path).value.Some? <==> Get(ms, a).Some?
  {
    hide Get, ParseItems, ObjectsOf;
    if Get(ms, a).Some? && Get(ms, a).value.Arr? {
      ItemsRead(p, Get(ms, a).value.items, fits);
    }
  }

  // ---- what the parser gives ----

  lemma NothingRead()
    ensures SnssaiReads([], Snssai(0, "", [])) && PduReads([], PduSessionTypes("", [], false, [])) && SscReads([], SscModes("", [], []))
    ensures UpSecurityReads([], UpSecurity("", "", [])) && AmbrReads([], Ambr("", "", [])) && ArpReads([], NO_ARP)
    ensures forall a: Attribute :: Get([], a) == None
    ensures QosReads([], FivegQosProfile(0, NO_ARP, None, []))
    ensures SliceInfoReads([], NO_NSSAI)
  {
    assert VendorOf([]) == [];
  }

  lemma SmallObjectsRead(ms: Members, path: string)
    ensures SnssaiReads(ms, ParseSnssai(ms, path).value)
    ensures PduReads(ms, ParsePduSessionTypes(ms, path).value)
    ensures SscReads(ms, ParseSscModes(ms, path).value)
    ensures UpSecurityReads(ms, ParseUpSecurity(ms, path).value)
    ensures AmbrReads(ms, ParseAmbr(ms, path).value)
    ensures ArpReads(ms, ParseArp(ms, path).value)
  {
    hide TextAt, NumberAt, TextsAt, VendorOf, ParseString, ParseMandatoryString, ParseStrings, ParseMandatoryInt;
    IntReads(ms, JSON_SST, JSON_NSSAI, path);
    StringReads(ms, JSON_SD, JSON_NSSAI, path);
    StringReads(ms, JSON_DEFAULT_SESSION_TYPE, JSON_NSSAI, path);
    StringsRead(ms, JSON_ALLOWED_SESSION_TYPES, path);
    StringReads(ms, JSON_DEFAULT_SSC_MODE, JSON_NSSAI, path);
    StringsRead(ms, JSON_ALLOWED_SSC_MODES, path);
    StringReads(ms, JSON_UP_INTEGR, JSON_NSSAI, path);
    StringReads(ms, JSON_UP_CONFID, JSON_NSSAI, path);
    StringReads(ms, JSON_UPLINK, JSON_SESSION_AMBR, path);
    StringReads(ms, JSON_DOWNLINK, JSON_SESSION_AMBR, path);
    IntReads(ms, JSON_PRIORITY_LEVEL, JSON_ARP, path);
    StringReads(ms, JSON_PREEMPTCAP, JSON_ARP, path);
    StringReads(ms, JSON_PREEMPTVULN, JSON_ARP, path);
  }

  lemma NssaiRead(ms: Members, parent: Attribute, path: string)
    ensures NssaiReads(ms, ParseNssaiDetails(ms, parent, path).value)
  {
    hide TextAt, VendorOf, ParseString, ParseObject, ParseSnssai, SnssaiReads, ObjectAt;
    var p := (m: Members) => ParseSnssai(m, path);
    forall m
      ensures SnssaiReads(m, p(m).value)
    {
      SmallObjectsRead(m, path);
    }
    NothingRead();
    ObjectReads(ms, JSON_NSSAI, p, Snssai(0, "", []), SnssaiReads, path);
    StringReads(ms, JSON_DNN_LIST_ID, JSON_NSSAI, path);
    StringReads(ms, JSON_3GPP_CHARGING_CHARACTERISTICS, JSON_NSSAI, path);
  }

  lemma QosRead(ms: Members, path: string)
    ensures QosReads(ms, ParseQos(ms, path).value)
  {
    hide NumberAt, VendorOf, ParseInt, ParseMandatoryInt, ParseObject, ParseArp, ArpReads, ObjectAt;
    var p := (m: Members) => ParseArp(m, path);
    forall m
      ensures ArpReads(m, p(m).value)
    {
      SmallObjectsRead(m, path);
    }
    NothingRead();
    ObjectReads(ms, JSON_ARP, p, NO_ARP, ArpReads, path);
    IntReads(ms, JSON_5QI, JSON_5G_QOS_PROFILE, path);
    IntReads(ms, JSON_PRIORITY_LEVEL, JSON_5G_QOS_PROFILE, path);
  }

  lemma DnnObjectsRead(ms: Members, path: string)
    ensures Optional(ObjectAt(ms, JSON_PDU_SESSION_TYPES), ParseDnnData(ms, path).value.pduSessionTypes, PduReads)
    ensures Optional(ObjectAt(ms, JSON_SSC_MODES), ParseDnnData(ms, path).value.sscModes, SscReads)
    ensures Optional(ObjectAt(ms, JSON_UP_SECURITY), ParseDnnData(ms, path).value.upSecurity, UpSecurityReads)
    ensures Optional(ObjectAt(ms, JSON_SESSION_AMBR), ParseDnnData(ms, path).value.sessionAmbr, AmbrReads)
    ensures Optional(ObjectAt(ms, JSON_5G_QOS_PROFILE), ParseDnnData(ms, path).value.fivegQosProfile, QosReads)
  {
    hide VendorOf, ParseString, ParseBool, ParseStrings, ParseObject, ParsePduSessionTypes, ParseSscModes, ParseUpSecurity, ParseAmbr, ParseQos,
         PduReads, SscReads, UpSecurityReads, AmbrReads, QosReads, ObjectAt, Optional;
    var pdu, ssc := (m: Members) => ParsePduSessionTypes(m, path), (m: Members) => ParseSscModes(m, path);
    var up, ambr, qos := (m: Members) => ParseUpSecurity(m, path), (m: Members) => ParseAmbr(m, path), (m: Members) => ParseQos(m, path);
    forall m
      ensures PduReads(m, pdu(m).value) && SscReads(m, ssc(m).value) && UpSecurityReads(m, up(m).value)
      ensures AmbrReads(m, ambr(m).value) && QosReads(m, qos(m).value)
    {
      SmallObjectsRead(m, path);
      QosRead(m, path);
    }
    NothingRead();
    ObjectReads(ms, JSON_PDU_SESSION_TYPES, pdu, PduSessionTypes("", [], false, []), PduReads, path);
    ObjectReads(ms, JSON_SSC_MODES, ssc, SscModes("", [], []), SscReads, path);
    ObjectReads(ms, JSON_UP_SECURITY, up, UpSecurity("", "", []), UpSecurityReads, path);
    ObjectReads(ms, JSON_SESSION_AMBR, ambr, Ambr("", "", []), AmbrReads, path);
    ObjectReads(ms, JSON_5G_QOS_PROFILE, qos, FivegQosProfile(0, NO_ARP, None, []), QosReads, path);
  }

  lemma DnnDataRead(ms: Members, path: string)
    ensures DnnDataReads(ms, ParseDnnData(ms, path).value)
  {
    DnnObjectsRead(ms, path);
    hide TextAt, FlagAt, TextsAt, VendorOf, ParseString, ParseBool, ParseStrings, ParseObject, PduReads, SscReads, UpSecurityReads, AmbrReads,
         QosReads, ObjectAt, Optional;
    StringReads(ms, JSON_DNN, JSON_DNN, path);
    BoolReads(ms, JSON_DEFAULT_DNN_INDICATOR, path);
    BoolReads(ms, JSON_LBO_ROAMING_ALLOWED, path);
    BoolReads(ms, JSON_IWK_EPS_IND, path);
    BoolReads(ms, JSON_LADN_INDICATOR, path);
    StringReads(ms, JSON_3GPP_CHARGING_CHARACTERISTICS, JSON_DNN, path);
    StringsRead(ms, JSON_SMF_LIST, path);
    BoolReads(ms, JSON_SAME_SMF_IND, path);
  }

  lemma DnnListRead(ms: Members, path: string)
    ensures DnnListReads(ms, ParseDnnList(ms, path).value)
  {
    hide TextAt, VendorOf, ParseMandatoryString, ParseArray, ParseDnnData, DnnDataReads, ObjectsAt, Pairwise;
    var p := ParseDnnDataItemOf(path);
    forall j: Json
      ensures if j.Obj? then |p(j).value| == 1 && DnnDataReads(j.members, p(j).value[0]) else p(j).value == []
    {
      if j.Obj? {
        DnnDataRead(j.members, path);
      }
    }
    ArrayReads(ms, JSON_DNN_DATA_LIST, p, DnnDataReads, path);
    StringReads(ms, JSON_DNN_LIST_ID, JSON_DNN_LISTS, path);
  }

  lemma NssaiArrayRead(ms: Members, a: Attribute, path: string)
    ensures Pairwise(ObjectsAt(ms, a), OrEmpty(ParseArray(ms, a, ParseNssaiItemOf(a, path), path).value), NssaiReads)
    ensures ParseArray(ms, a, ParseNssaiItemOf(a, path), path).value.Some? <==> Get(ms, a).Some?
  {
    hide Get, ParseArray, ParseNssaiDetails, NssaiReads, ObjectsAt, Pairwise;
    var p := ParseNssaiItemOf(a, path);
    forall j: Json
      ensures if j.Obj? then |p(j).value| == 1 && NssaiReads(j.members, p(j).value[0]) else p(j).value == []
    {
      if j.Obj? {
        NssaiRead(j.members, a, path);
      }
    }
    ArrayReads(ms, a, p, NssaiReads, path);
  }

  lemma SliceInfoRead(ms: Members, path: string)
    ensures SliceInfoReads(ms, ParseSliceInfo(ms, path).value.0)
    ensures ParseSliceInfo(ms, path).value.1 <==> Get(ms, JSON_SINGLE_NSSAIS).Some?
  {
    hide Get, VendorOf, ParseArray, NssaiReads, ObjectsAt, Pairwise;
    NssaiArrayRead(ms, JSON_DEFAULT_SINGLE_NSSAIS, path);
    NssaiArrayRead(ms, JSON_SINGLE_NSSAIS, path);
  }

  predicate InfoReads(ms: Members, info: (SliceInfoNssai, bool)) {
    SliceInfoReads(ms, info.0) && info.1 == Get(ms, JSON_SINGLE_NSSAIS).Some?
  }

  // Whatever the JSON object, the PLMN set read from it is the one that its members describe.
  lemma PlmnIdSetRead(ms: Members, isSliceData: bool, path: string)
    ensures PlmnIdSetReads(ms, ParsePlmnIdSet(ms, isSliceData, path).value)
  {
    hide Get, TextAt, VendorOf, ParseMandatoryString, ParseArray, ParseObject, ParseSliceInfo, ParseDnnList, DnnListReads, SliceInfoReads,
         ObjectsAt, ObjectAt, Pairwise;
    var p, q := (m: Members) => ParseSliceInfo(m, path), ParseDnnListItemOf(path);
    forall m
      ensures InfoReads(m, p(m).value)
    {
      SliceInfoRead(m, path);
    }
    NothingRead();
    ObjectReads(ms, JSON_NSSAI, p, (NO_NSSAI, false), InfoReads, path);
    forall j: Json
      ensures if j.Obj? then |q(j).value| == 1 && DnnListReads(j.members, q(j).value[0]) else q(j).value == []
    {
      if j.Obj? {
        DnnListRead(j.members, path);
      }
    }
    ArrayReads(ms, JSON_DNN_LISTS, q, DnnListReads, path);
    StringReads(ms, JSON_PLMN_ID_SET_IDENTIFIER, JSON_PLMN_ID_SETS, path);
  }

  lemma PlmnIdSetsRead(items: seq<Json>, isSliceData: bool, path: string)
    ensures Pairwise(ObjectsOf(items), ParsePlmnIdSets(items, isSliceData, path).value, PlmnIdSetReads)
  {
    hide ParsePlmnIdSet, PlmnIdSetReads, Pairwise, ParseItems;
    var p := ParsePlmnIdSetItemOf(isSliceData, path);
    forall j: Json
      ensures if j.Obj? then |p(j).value| == 1 && PlmnIdSetReads(j.members, p(j).value[0]) else p(j).value == []
    {
      if j.Obj? {
        PlmnIdSetRead(j.members, isSliceData, path);
      }
    }
    ItemsRead(p, items, PlmnIdSetReads);
  }

  lemma SliceProfileRead(ms: Members, path: string)
    ensures SliceProfileReads(ms, ParseSliceProfile(ms, path).value)
  {
    hide Get, TextAt, VendorOf, ParseString, ParsePlmnIdSets, PlmnIdSetReads;
    StringReads(ms, JSON_UDM_SLICE_PROFILE_ID, JSON_UDM_SLICE_PROFILE_ID, path);
    match Get(ms, JSON_PLMN_ID_SETS)
    case Some(j) =>
      if j.Arr? {
        PlmnIdSetsRead(j.items, false, path);
      }
    case None =>
  }

  lemma AreaRead(ms: Members, path: string)
    ensures AreaReads(ms, ParseArea(ms, path).value)
  {
    hide Get, VendorOf, ParseItems, TextsOf;
    if Get(ms, JSON_TACS).Some? && Get(ms, JSON_TACS).value.Arr? {
      TextItemsRead(JSON_TACS, Get(ms, JSON_TACS).value.items, path);
    }
  }

  // Whatever the JSON object, the roaming area read from it is the one that its members describe.
  lemma RoamingAreaRead(ms: Members, path: string)
    ensures RoamingAreaReads(ms, ParseRoamingArea(ms, path).value)
  {
    hide Get, TextAt, VendorOf, ParseString, ParseArray, ParseArea, AreaReads, ObjectsAt, Pairwise;
    var p := ParseAreaItemOf(path);
    forall j: Json
      ensures if j.Obj? then |p(j).value| == 1 && AreaReads(j.members, p(j).value[0]) else p(j).value == []
    {
      if j.Obj? {
        AreaRead(j.members, path);
      }
    }
    ArrayReads(ms, JSON_AREA_LIST, p, AreaReads, path);
    StringReads(ms, JSON_UDM_ROAMING_AREA_ID, JSON_UDM_ROAMING_AREA_ID, path);
  }
}
