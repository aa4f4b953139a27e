// Reading and writing PLMN sets as JSON (getPlmnIdSets and plmnIdsToJson): what is read from an
// object, the errors that reading appends, and what is written. Written and read back, a value
// comes out unchanged and without an error exactly when it is in printable form.
module PlmnCodec {
  import opened JsonModel
  import opened JsonObjects
  import opened Types

  // A value read and the errors appended while reading it.
  datatype Parsed<+T> = Parsed(value: T, errors: seq<Error>)

  // ---- single members ----

  function ParseString(ms: Members, a: Attribute, path: string): Parsed<string> {
    match Get(ms, a)
    case None => Parsed("", [])
    case Some(j) => if j.Str? then Parsed(j.s, []) else Parsed("", [Violation(path, NotString(a))])
  }

  function ParseMandatoryString(ms: Members, a: Attribute, parent: Attribute, path: string): Parsed<string> {
    if Get(ms, a).None? then Parsed("", [Violation(path, MissingField(a, parent))]) else ParseString(ms, a, path)
  }

  function ParseBool(ms: Members, a: Attribute, path: string): Parsed<Option<bool>> {
    match Get(ms, a)
    case None => Parsed(None, [])
    case Some(j) => if j.Bool? then Parsed(Some(j.b), []) else Parsed(Some(false), [Violation(path, NotBool(a))])
  }

  function ParseInt(ms: Members, a: Attribute, path: string): Parsed<Option<Int32>> {
    match Get(ms, a)
    case None => Parsed(None, [])
    case Some(j) => if j.IsInt() then Parsed(Some(j.n), []) else Parsed(Some(0), [Violation(path, NotInt(a))])
  }

  function ParseMandatoryInt(ms: Members, a: Attribute, parent: Attribute, path: string): Parsed<Int32> {
    var p := ParseInt(ms, a, path);
    if p.value.None? then Parsed(0, [Violation(path, MissingField(a, parent))]) else Parsed(p.value.value, p.errors)
  }

  // The items of an array one by one; an item may be dropped with an error.
  function ParseItems<T>(p: Json -> Parsed<seq<T>>, items: seq<Json>): Parsed<seq<T>> {
    if items == [] then Parsed([], []) else
      var n := |items| - 1;
      var before, last := ParseItems(p, items[..n]), p(items[n]);
      Parsed(before.value + last.value, before.errors + last.errors)
  }

  lemma ParseItemsSnoc<T>(p: Json -> Parsed<seq<T>>, items: seq<Json>, i: nat)
    requires i < |items|
    ensures ParseItems(p, items[..i + 1])
         == Parsed(ParseItems(p, items[..i]).value + p(items[i]).value, ParseItems(p, items[..i]).errors + p(items[i]).errors)
  {
    assert items[..i + 1][..i] == items[..i];
  }

  // A member that is an array of items; the flag says whether the member is there.
  function ParseArray<T>(ms: Members, a: Attribute, p: Json -> Parsed<seq<T>>, path: string): Parsed<Option<seq<T>>> {
    match Get(ms, a)
    case None => Parsed(None, [])
    case Some(j) =>
      if j.Arr? then
        var r := ParseItems(p, j.items);
        Parsed(Some(r.value), r.errors)
      else Parsed(Some([]), [Violation(path, NotArray(a))])
  }

  function ParseStringItemOf(a: Attribute, path: string): Json -> Parsed<seq<string>> {
    (j: Json) => if j.Str? then Parsed([j.s], []) else Parsed([], [Violation(path, NotString(a))])
  }

  function ParseStrings(ms: Members, a: Attribute, path: string): Parsed<Option<seq<string>>> {
    ParseArray(ms, a, ParseStringItemOf(a, path), path)
  }

  function OrEmpty<T>(o: Option<seq<T>>): seq<T> {
    if o.Some? then o.value else []
  }

  // A member that is an object.
  function ParseObject<T>(ms: Members, a: Attribute, p: Members -> Parsed<T>, absent: T, path: string): Parsed<Option<T>> {
    match Get(ms, a)
    case None => Parsed(None, [])
    case Some(j) =>
      if j.Obj? then
        var r := p(j.members);
        Parsed(Some(r.value), r.errors)
      else Parsed(Some(absent), [Violation(path, NotObject(a))])
  }

  // ---- reading ----

  function ParseSnssai(ms: Members, path: string): Parsed<Snssai> {
    var sst := ParseMandatoryInt(ms, JSON_SST, JSON_NSSAI, path);
    var sd := ParseString(ms, JSON_SD, path);
    Parsed(Snssai(sst.value, sd.value, VendorOf(ms)), sst.errors + sd.errors)
  }

  function ParseNssaiDetails(ms: Members, parent: Attribute, path: string): Parsed<NssaiDetails> {
    var id := ParseString(ms, JSON_DNN_LIST_ID, path);
    var charging := ParseString(ms, JSON_3GPP_CHARGING_CHARACTERISTICS, path);
    var nssai := ParseObject(ms, JSON_NSSAI, (m: Members) => ParseSnssai(m, path), Snssai(0, "", []), path);
    var missing := if nssai.value.None? then [Violation(path, MissingField(JSON_NSSAI, parent))] else [];
    Parsed(NssaiDetails(if nssai.value.Some? then nssai.value.value else Snssai(0, "", []), id.value, charging.value, VendorOf(ms)),
           id.errors + charging.errors + nssai.errors + missing)
  }

  function ParseNssaiItem(j: Json, parent: Attribute, path: string): Parsed<seq<NssaiDetails>> {
    if j.Obj? then
      var r := ParseNssaiDetails(j.members, parent, path);
      Parsed([r.value], r.errors)
    else Parsed([], [Violation(path, NotObject(parent))])
  }

  function ParseNssaiItemOf(parent: Attribute, path: string): Json -> Parsed<seq<NssaiDetails>> {
    (j: Json) => ParseNssaiItem(j, parent, path)
  }

  function ParsePduSessionTypes(ms: Members, path: string): Parsed<PduSessionTypes> {
    var d := ParseString(ms, JSON_DEFAULT_SESSION_TYPE, path);
    var allowed := ParseStrings(ms, JSON_ALLOWED_SESSION_TYPES, path);
    Parsed(PduSessionTypes(d.value, OrEmpty(allowed.value), allowed.value.Some?, VendorOf(ms)), d.errors + allowed.errors)
  }

  function ParseSscModes(ms: Members, path: string): Parsed<SscModes> {
    var d := ParseString(ms, JSON_DEFAULT_SSC_MODE, path);
    var allowed := ParseStrings(ms, JSON_ALLOWED_SSC_MODES, path);
    Parsed(SscModes(d.value, OrEmpty(allowed.value), VendorOf(ms)), d.errors + allowed.errors)
  }

  function ParseUpSecurity(ms: Members, path: string): Parsed<UpSecurity> {
    var integr := ParseString(ms, JSON_UP_INTEGR, path);
    var confid := ParseString(ms, JSON_UP_CONFID, path);
    Parsed(UpSecurity(integr.value, confid.value, VendorOf(ms)), integr.errors + confid.errors)
  }

  function ParseAmbr(ms: Members, path: string): Parsed<Ambr> {
    var up := ParseMandatoryString(ms, JSON_UPLINK, JSON_SESSION_AMBR, path);
    var down := ParseMandatoryString(ms, JSON_DOWNLINK, JSON_SESSION_AMBR, path);
    Parsed(Ambr(up.value, down.value, VendorOf(ms)), up.errors + down.errors)
  }

  function ParseArp(ms: Members, path: string): Parsed<Arp> {
    var level := ParseMandatoryInt(ms, JSON_PRIORITY_LEVEL, JSON_ARP, path);
    var cap := ParseMandatoryString(ms, JSON_PREEMPTCAP, JSON_ARP, path);
    var vuln := ParseMandatoryString(ms, JSON_PREEMPTVULN, JSON_ARP, path);
    Parsed(Arp(level.value, cap.value, vuln.value, VendorOf(ms)), level.errors + cap.errors + vuln.errors)
  }

  const NO_ARP := Arp(0, "", "", [])

  function ParseQos(ms: Members, path: string): Parsed<FivegQosProfile> {
    var qi := ParseMandatoryInt(ms, JSON_5QI, JSON_5G_QOS_PROFILE, path);
    var arp := ParseObject(ms, JSON_ARP, (m: Members) => ParseArp(m, path), NO_ARP, path);
    var missing := if arp.value.None? then [Violation(path, MissingField(JSON_ARP, JSON_5G_QOS_PROFILE))] else [];
    var level := ParseInt(ms, JSON_PRIORITY_LEVEL, path);
    Parsed(FivegQosProfile(qi.value, if arp.value.Some? then arp.value.value else NO_ARP, level.value, VendorOf(ms)),
           qi.errors + arp.errors + missing + level.errors)
  }

  function ParseDnnData(ms: Members, path: string): Parsed<DnnData> {
    var dnn := ParseString(ms, JSON_DNN, path);
    var indicator := ParseBool(ms, JSON_DEFAULT_DNN_INDICATOR, path);
    var lbo := ParseBool(ms, JSON_LBO_ROAMING_ALLOWED, path);
    var iwk := ParseBool(ms, JSON_IWK_EPS_IND, path);
    var ladn := ParseBool(ms, JSON_LADN_INDICATOR, path);
    var pdu := ParseObject(ms, JSON_PDU_SESSION_TYPES, (m: Members) => ParsePduSessionTypes(m, path), PduSessionTypes("", [], false, []), path);
    var ssc := ParseObject(ms, JSON_SSC_MODES, (m: Members) => ParseSscModes(m, path), SscModes("", [], []), path);
    var charging := ParseString(ms, JSON_3GPP_CHARGING_CHARACTERISTICS, path);
    var up := ParseObject(ms, JSON_UP_SECURITY, (m: Members) => ParseUpSecurity(m, path), UpSecurity("", "", []), path);
    var ambr := ParseObject(ms, JSON_SESSION_AMBR, (m: Members) => ParseAmbr(m, path), Ambr("", "", []), path);
    var smf := ParseStrings(ms, JSON_SMF_LIST, path);
    var same := ParseBool(ms, JSON_SAME_SMF_IND, path);
    var qos := ParseObject(ms, JSON_5G_QOS_PROFILE, (m: Members) => ParseQos(m, path), FivegQosProfile(0, NO_ARP, None, []), path);
    Parsed(DnnData(dnn.value, indicator.value, lbo.value, iwk.value, ladn.value, pdu.value, ssc.value, qos.value,
                   ambr.value, charging.value, up.value, smf.value, same.value, VendorOf(ms)),
           dnn.errors + indicator.errors + lbo.errors + iwk.errors + ladn.errors + pdu.errors + ssc.errors
           + charging.errors + up.errors + ambr.errors + smf.errors + same.errors + qos.errors)
  }

  function ParseDnnDataItem(j: Json, path: string): Parsed<seq<DnnData>> {
    if j.Obj? then
      var r := ParseDnnData(j.members, path);
      Parsed([r.value], r.errors)
    else Parsed([], [Violation(path, NotObject(JSON_DNN_DATA_LIST))])
  }

  function ParseDnnDataItemOf(path: string): Json -> Parsed<seq<DnnData>> {
    (j: Json) => ParseDnnDataItem(j, path)
  }

  function ParseDnnList(ms: Members, path: string): Parsed<DnnList> {
    var id := ParseMandatoryString(ms, JSON_DNN_LIST_ID, JSON_DNN_LISTS, path);
    var data := ParseArray(ms, JSON_DNN_DATA_LIST, ParseDnnDataItemOf(path), path);
    Parsed(DnnList(id.value, OrEmpty(data.value), VendorOf(ms)), id.errors + data.errors)
  }

  function ParseDnnListItem(j: Json, path: string): Parsed<seq<DnnList>> {
    if j.Obj? then
      var r := ParseDnnList(j.members, path);
      Parsed([r.value], r.errors)
    else Parsed([], [Violation(path, NotObject(JSON_DNN_LISTS))])
  }

  function ParseDnnListItemOf(path: string): Json -> Parsed<seq<DnnList>> {
    (j: Json) => ParseDnnListItem(j, path)
  }

  const NO_NSSAI := SliceInfoNssai([], [], [])

  // The nssai member: the lists of default and single S-NSSAIs, and whether single ones are named.
  function ParseSliceInfo(ms: Members, path: string): Parsed<(SliceInfoNssai, bool)> {
    var defaults := ParseArray(ms, JSON_DEFAULT_SINGLE_NSSAIS, ParseNssaiItemOf(JSON_DEFAULT_SINGLE_NSSAIS, path), path);
    var singles := ParseArray(ms, JSON_SINGLE_NSSAIS, ParseNssaiItemOf(JSON_SINGLE_NSSAIS, path), path);
    Parsed((SliceInfoNssai(OrEmpty(defaults.value), OrEmpty(singles.value), VendorOf(ms)), singles.value.Some?),
           defaults.errors + singles.errors)
  }

  function ParsePlmnIdSet(ms: Members, isSliceData: bool, path: string): Parsed<PlmnIdSet> {
    var id := ParseMandatoryString(ms, JSON_PLMN_ID_SET_IDENTIFIER, JSON_PLMN_ID_SETS, path);
    var nssai := ParseObject(ms, JSON_NSSAI, (m: Members) => ParseSliceInfo(m, path), (NO_NSSAI, false), path);
    var info := if nssai.value.Some? then nssai.value.value else (NO_NSSAI, false);
    var noDefault := if nssai.value.Some? && |info.0.defaultSingleNssais| == 0 then [Violation(path, NoDefaultSingleNssai)] else [];
    var lists := ParseArray(ms, JSON_DNN_LISTS, ParseDnnListItemOf(path), path);
    var missing := if lists.value.None? && !isSliceData then [Violation(path, MissingField(JSON_DNN_LISTS, JSON_PLMN_ID_SETS))] else [];
    Parsed(PlmnIdSet(id.value, info.0, OrEmpty(lists.value), info.1, nssai.value.Some?, VendorOf(ms)),
           id.errors + nssai.errors + noDefault + lists.errors + missing)
  }

  function ParsePlmnIdSetItemOf(isSliceData: bool, path: string): Json -> Parsed<seq<PlmnIdSet>> {
    (j: Json) =>
      if j.Obj? then
        var r := ParsePlmnIdSet(j.members, isSliceData, path);
        Parsed([r.value], r.errors)
      else Parsed([], [])
  }

  function ParsePlmnIdSets(items: seq<Json>, isSliceData: bool, path: string): Parsed<seq<PlmnIdSet>> {
    ParseItems(ParsePlmnIdSetItemOf(isSliceData, path), items)
  }

  // ---- writing ----

  // strToJson: an empty string is not written.
  function StringField(a: Attribute, s: string): Field {
    Field(a, if s == "" then None else Some(Str(s)))
  }

  function BoolField(a: Attribute, b: Option<bool>): Field {
    Field(a, if b.Some? then Some(Bool(b.value)) else None)
  }

  function IntField(a: Attribute, n: Int32): Field {
    Field(a, Some(Num(n)))
  }

  function EncodeAll<T>(encode: T -> Json, xs: seq<T>): (js: seq<Json>)
    ensures |js| == |xs|
  {
    seq(|xs|, i requires 0 <= i < |xs| => encode(xs[i]))
  }

  // An empty list is not written.
  function ListField(a: Attribute, items: seq<Json>): Field {
    Field(a, if items == [] then None else Some(Arr(items)))
  }

  function StrOf(): string -> Json {
    (s: string) => Str(s)
  }

  function SnssaiFields(n: Snssai): seq<Field> {
    [IntField(JSON_SST, n.sst), StringField(JSON_SD, n.sd)]
  }

  function EncodeSnssai(n: Snssai): Json {
    ObjectOf(n.vendorSpecific, SnssaiFields(n))
  }

  function NssaiDetailsFields(n: NssaiDetails): seq<Field> {
    [StringField(JSON_DNN_LIST_ID, n.dnnListId),
     StringField(JSON_3GPP_CHARGING_CHARACTERISTICS, n.chargingCharacteristics),
     Field(JSON_NSSAI, Some(EncodeSnssai(n.nssai)))]
  }

  function EncodeNssaiDetails(n: NssaiDetails): Json {
    ObjectOf(n.vendorSpecific, NssaiDetailsFields(n))
  }

  function EncodeNssaiDetailsOf(): NssaiDetails -> Json {
    (n: NssaiDetails) => EncodeNssaiDetails(n)
  }

  function PduSessionTypesFields(p: PduSessionTypes): seq<Field> {
    [StringField(JSON_DEFAULT_SESSION_TYPE, p.defaultSessionType),
     ListField(JSON_ALLOWED_SESSION_TYPES, EncodeAll(StrOf(), p.allowedSessionTypes))]
  }

  function SscModesFields(m: SscModes): seq<Field> {
    [StringField(JSON_DEFAULT_SSC_MODE, m.defaultSscMode),
     ListField(JSON_ALLOWED_SSC_MODES, EncodeAll(StrOf(), m.allowedSscModes))]
  }

  function ArpFields(a: Arp): seq<Field> {
    [IntField(JSON_PRIORITY_LEVEL, a.priorityLevel), StringField(JSON_PREEMPTCAP, a.preemptCap), StringField(JSON_PREEMPTVULN, a.preemptVuln)]
  }

  function QosFields(q: FivegQosProfile): seq<Field> {
    [IntField(JSON_5QI, q.fiveqi),
     Field(JSON_ARP, Some(ObjectOf(q.arp.vendorSpecific, ArpFields(q.arp)))),
     Field(JSON_PRIORITY_LEVEL, if q.priorityLevel.Some? then Some(Num(q.priorityLevel.value)) else None)]
  }

  function AmbrFields(a: Ambr): seq<Field> {
    [StringField(JSON_UPLINK, a.uplink), StringField(JSON_DOWNLINK, a.downlink)]
  }

  function UpSecurityFields(u: UpSecurity): seq<Field> {
    [StringField(JSON_UP_INTEGR, u.upIntegr), StringField(JSON_UP_CONFID, u.upConfid)]
  }

  // The members of the nested objects of a DNN.
  function PduJson(d: DnnData): Option<Json> {
    if d.pduSessionTypes.None? then None
    else Some(ObjectOf(d.pduSessionTypes.value.vendorSpecific, PduSessionTypesFields(d.pduSessionTypes.value)))
  }

  function SscJson(d: DnnData): Option<Json> {
    if d.sscModes.None? then None
    else Some(ObjectOf(d.sscModes.value.vendorSpecific, SscModesFields(d.sscModes.value)))
  }

  function QosJson(d: DnnData): Option<Json> {
    if d.fivegQosProfile.None? then None
    else Some(ObjectOf(d.fivegQosProfile.value.vendorSpecific, QosFields(d.fivegQosProfile.value)))
  }

  function AmbrJson(d: DnnData): Option<Json> {
    if d.sessionAmbr.None? then None
    else Some(ObjectOf(d.sessionAmbr.value.vendorSpecific, AmbrFields(d.sessionAmbr.value)))
  }

  function UpSecurityJson(d: DnnData): Option<Json> {
    if d.upSecurity.None? then None
    else Some(ObjectOf(d.upSecurity.value.vendorSpecific, UpSecurityFields(d.upSecurity.value)))
  }

  function SmfListJson(d: DnnData): Option<Json> {
    if d.smfList.None? then None else Some(Arr(EncodeAll(StrOf(), d.smfList.value)))
  }

  function DnnDataFields(d: DnnData): seq<Field> {
    [StringField(JSON_DNN, d.dnn),
     BoolField(JSON_DEFAULT_DNN_INDICATOR, d.defaultDnnIndicator),
     BoolField(JSON_LBO_ROAMING_ALLOWED, d.lboRoamingAllowed),
     BoolField(JSON_IWK_EPS_IND, d.iwkEpsInd),
     BoolField(JSON_LADN_INDICATOR, d.ladnIndicator),
     Field(JSON_PDU_SESSION_TYPES, PduJson(d)),
     Field(JSON_SSC_MODES, SscJson(d)),
     Field(JSON_5G_QOS_PROFILE, QosJson(d)),
     Field(JSON_SESSION_AMBR, AmbrJson(d)),
     StringField(JSON_3GPP_CHARGING_CHARACTERISTICS, d.chargingCharacteristics),
     Field(JSON_UP_SECURITY, UpSecurityJson(d)),
     Field(JSON_SMF_LIST, SmfListJson(d)),
     BoolField(JSON_SAME_SMF_IND, d.sameSmfInd)]
  }

  function EncodeDnnData(d: DnnData): Json {
    ObjectOf(d.vendorSpecific, DnnDataFields(d))
  }

  function EncodeDnnDataOf(): DnnData -> Json {
    (d: DnnData) => EncodeDnnData(d)
  }

  function DnnListFields(l: DnnList): seq<Field> {
    [StringField(JSON_DNN_LIST_ID, l.dnnListId),
     ListField(JSON_DNN_DATA_LIST, EncodeAll(EncodeDnnDataOf(), l.dnnDataList))]
  }

  function EncodeDnnList(l: DnnList): Json {
    ObjectOf(l.vendorSpecific, DnnListFields(l))
  }

  function EncodeDnnListOf(): DnnList -> Json {
    (l: DnnList) => EncodeDnnList(l)
  }

  function SliceInfoFields(s: PlmnIdSet): seq<Field> {
    [ListField(JSON_DEFAULT_SINGLE_NSSAIS, EncodeAll(EncodeNssaiDetailsOf(), s.nssai.defaultSingleNssais)),
     if s.hasNssai then ListField(JSON_SINGLE_NSSAIS, EncodeAll(EncodeNssaiDetailsOf(), s.nssai.singleNssais))
     else Field(JSON_SINGLE_NSSAIS, None)]
  }

  function NssaiJson(s: PlmnIdSet): Option<Json> {
    if s.hasAnyNssai then Some(ObjectOf(s.nssai.vendorSpecific, SliceInfoFields(s))) else None
  }

  function PlmnIdSetFields(s: PlmnIdSet): seq<Field> {
    [StringField(JSON_PLMN_ID_SET_IDENTIFIER, s.plmnIdSetIdentifier),
     Field(JSON_NSSAI, NssaiJson(s)),
     ListField(JSON_DNN_LISTS, EncodeAll(EncodeDnnListOf(), s.dnnLists))]
  }

  function EncodePlmnIdSet(s: PlmnIdSet): Json {
    ObjectOf(s.vendorSpecific, PlmnIdSetFields(s))
  }

  function EncodePlmnIdSetOf(): PlmnIdSet -> Json {
    (s: PlmnIdSet) => EncodePlmnIdSet(s)
  }

  function EncodePlmnIdSets(sets: seq<PlmnIdSet>): (js: seq<Json>)
    ensures |js| == |sets|
  {
    EncodeAll(EncodePlmnIdSetOf(), sets)
  }

  // ---- the vendor-specific members of a value, as the program holds them ----

  predicate NssaiVendorOk(n: NssaiDetails) {
    VendorOk(n.vendorSpecific) && VendorOk(n.nssai.vendorSpecific)
  }

  predicate DnnDataVendorOk(d: DnnData) {
    && VendorOk(d.vendorSpecific)
    && (d.pduSessionTypes.Some? ==> VendorOk(d.pduSessionTypes.value.vendorSpecific))
    && (d.sscModes.Some? ==> VendorOk(d.sscModes.value.vendorSpecific))
    && (d.fivegQosProfile.Some? ==> VendorOk(d.fivegQosProfile.value.vendorSpecific) && VendorOk(d.fivegQosProfile.value.arp.vendorSpecific))
    && (d.sessionAmbr.Some? ==> VendorOk(d.sessionAmbr.value.vendorSpecific))
    && (d.upSecurity.Some? ==> VendorOk(d.upSecurity.value.vendorSpecific))
  }

  predicate DnnListVendorOk(l: DnnList) {
    VendorOk(l.vendorSpecific) && forall d :: d in l.dnnDataList ==> DnnDataVendorOk(d)
  }

  predicate PlmnIdSetVendorOk(s: PlmnIdSet) {
    && VendorOk(s.vendorSpecific)
    && VendorOk(s.nssai.vendorSpecific)
    && (forall n :: n in s.nssai.defaultSingleNssais ==> NssaiVendorOk(n))
    && (forall n :: n in s.nssai.singleNssais ==> NssaiVendorOk(n))
    && (forall l :: l in s.dnnLists ==> DnnListVendorOk(l))
  }

  // ---- printable form ----

  // The flag of the allowed session types agrees with the list, and the strings and members that
  // reading demands are not empty.
  predicate DnnDataPrintable(d: DnnData) {
    && (d.pduSessionTypes.Some? ==> (d.pduSessionTypes.value.hasAllowedSessionTypes <==> d.pduSessionTypes.value.allowedSessionTypes != []))
    && (d.fivegQosProfile.Some? ==> d.fivegQosProfile.value.arp.preemptCap != "" && d.fivegQosProfile.value.arp.preemptVuln != "")
    && (d.sessionAmbr.Some? ==> d.sessionAmbr.value.uplink != "" && d.sessionAmbr.value.downlink != "")
  }

  predicate DnnListPrintable(l: DnnList) {
    l.dnnListId != "" && forall d :: d in l.dnnDataList ==> DnnDataPrintable(d)
  }

  predicate PlmnIdSetPrintable(s: PlmnIdSet, isSliceData: bool) {
    && s.plmnIdSetIdentifier != ""
    && (if s.hasAnyNssai then s.nssai.defaultSingleNssais != [] && (s.hasNssai <==> s.nssai.singleNssais != [])
        else s.nssai == NO_NSSAI && !s.hasNssai)
    && (isSliceData || s.dnnLists != [])
    && (forall l :: l in s.dnnLists ==> DnnListPrintable(l))
  }
}
