// The format rules every slice profile and every subscription's slice data must meet
// (ValidationData::checkForCommonUdmSliceProfileRules): the errors they append, in order, and
// the declarative condition under which they append none.
module SliceProfileRules {
  import opened JsonModel
  import opened Sequences
  import opened Text
  import opened Types

  const SSC_MODES := {"SSC_MODE_1", "SSC_MODE_2", "SSC_MODE_3"}
  const SESSION_TYPES := {"IPV4", "IPV6", "IPV4V6", "UNSTRUCTURED", "ETHERNET"}
  const PREEMPT_CAPS := {"NOT_PREEMPT", "MAY_PREEMPT"}
  const PREEMPT_VULNS := {"NOT_PREEMPTABLE", "PREEMPTABLE"}
  const SECURITY_LEVELS := {"REQUIRED", "PREFERRED", "NOT_NEEDED"}

  // One error unless the rule holds.
  function Check(ok: bool, path: string, d: Description): seq<Error> {
    if ok then [] else [Violation(path, d)]
  }

  // ---- the errors, in the order they are appended ----

  function NssaiDetailsErrors(n: NssaiDetails, parent: Attribute, path: string): (es: seq<Error>)
    ensures Violations(es, path)
  {
    Check(0 <= n.nssai.sst <= 255, path, InvalidValue(JSON_SST, parent))
    + Check(n.nssai.sd == "" || IsSd(n.nssai.sd), path, InvalidValue(JSON_SD, parent))
    + ChargingErrors(n.chargingCharacteristics, parent, path)
  }

  function ChargingErrors(c: string, parent: Attribute, path: string): (es: seq<Error>)
    ensures Violations(es, path)
  {
    Check(c == "" || IsChargingCharacteristics(c), path, InvalidFormat(JSON_3GPP_CHARGING_CHARACTERISTICS, parent))
  }

  function NssaiDetailsErrorsOf(parent: Attribute, path: string): NssaiDetails -> seq<Error> {
    (n: NssaiDetails) => NssaiDetailsErrors(n, parent, path)
  }

  // The walk over a list of enumeration values: an unknown value and a value seen before (in
  // first or earlier in the list) give one error each.
  function EnumErrors(first: seq<string>, xs: seq<string>, legal: set<string>,
                      path: string, bad: Description, repeated: Description): (es: seq<Error>)
    ensures Violations(es, path)
  {
    if xs == [] then [] else
      var n := |xs| - 1;
      EnumErrors(first, xs[..n], legal, path, bad, repeated)
      + (if xs[n] !in legal then [Violation(path, bad)]
         else Check(xs[n] !in first && xs[n] !in xs[..n], path, repeated))
  }

  function LegalOnly(x: string, legal: set<string>): seq<string> {
    if x in legal then [x] else []
  }

  function DefaultValueErrors(x: string, legal: set<string>, field: Attribute, parent: Attribute, path: string): (es: seq<Error>)
    ensures Violations(es, path)
  {
    if x == "" then [Violation(path, RequiredField(field, parent))]
    else Check(x in legal, path, InvalidValue(field, parent))
  }

  function SscModesErrors(m: SscModes, path: string): (es: seq<Error>)
    ensures Violations(es, path)
  {
    DefaultValueErrors(m.defaultSscMode, SSC_MODES, JSON_DEFAULT_SSC_MODE, JSON_SSC_MODES, path)
    + (if |m.allowedSscModes| > 2 then [Violation(path, InvalidSize(JSON_ALLOWED_SSC_MODES, JSON_SSC_MODES))]
       else EnumErrors(LegalOnly(m.defaultSscMode, SSC_MODES), m.allowedSscModes, SSC_MODES, path,
                       InvalidValue(JSON_ALLOWED_SSC_MODES, JSON_SSC_MODES), RepeatedSscMode))
  }

  function PduSessionTypesErrors(p: PduSessionTypes, path: string): (es: seq<Error>)
    ensures Violations(es, path)
  {
    DefaultValueErrors(p.defaultSessionType, SESSION_TYPES, JSON_DEFAULT_SESSION_TYPE, JSON_PDU_SESSION_TYPES, path)
    + (if !p.hasAllowedSessionTypes then []
       else if |p.allowedSessionTypes| < 1 then [Violation(path, InvalidSize(JSON_ALLOWED_SESSION_TYPES, JSON_PDU_SESSION_TYPES))]
       else EnumErrors(LegalOnly(p.defaultSessionType, SESSION_TYPES), p.allowedSessionTypes, SESSION_TYPES, path,
                       InvalidValue(JSON_ALLOWED_SESSION_TYPES, JSON_PDU_SESSION_TYPES), RepeatedSessionType))
  }

  function ArpErrors(a: Arp, path: string): (es: seq<Error>)
    ensures Violations(es, path)
  {
    Check(1 <= a.priorityLevel <= 15, path, InvalidValue(JSON_PRIORITY_LEVEL, JSON_ARP))
    + Check(a.preemptCap in PREEMPT_CAPS, path, InvalidValue(JSON_PREEMPTCAP, JSON_ARP))
    + Check(a.preemptVuln in PREEMPT_VULNS, path, InvalidValue(JSON_PREEMPTVULN, JSON_ARP))
  }

  function QosErrors(q: FivegQosProfile, path: string): (es: seq<Error>)
    ensures Violations(es, path)
  {
    Check(0 <= q.fiveqi <= 255, path, InvalidValue(JSON_5QI, JSON_5G_QOS_PROFILE))
    + Check(q.priorityLevel.Some? ==> 1 <= q.priorityLevel.value <= 127, path, InvalidValue(JSON_PRIORITY_LEVEL, JSON_5G_QOS_PROFILE))
    + ArpErrors(q.arp, path)
  }

  function AmbrErrors(a: Ambr, path: string): (es: seq<Error>)
    ensures Violations(es, path)
  {
    Check(a.uplink == "" || IsBitRate(a.uplink), path, InvalidFormat(JSON_UPLINK, JSON_SESSION_AMBR))
    + Check(a.downlink == "" || IsBitRate(a.downlink), path, InvalidFormat(JSON_DOWNLINK, JSON_SESSION_AMBR))
  }

  function UpSecurityErrors(u: UpSecurity, path: string): (es: seq<Error>)
    ensures Violations(es, path)
  {
    Check(u.upIntegr == "" || u.upIntegr in SECURITY_LEVELS, path, InvalidFormat(JSON_UP_INTEGR, JSON_UP_SECURITY))
    + Check(u.upConfid == "" || u.upConfid in SECURITY_LEVELS, path, InvalidFormat(JSON_UP_CONFID, JSON_UP_SECURITY))
  }

  function SmfErrors(smf: string, path: string): (es: seq<Error>)
    ensures Violations(es, path)
  {
    Check(IsUuid(smf), path, InvalidFormat(JSON_SMF_LIST, JSON_DNN_DATA_LIST))
  }

  function SmfErrorsOf(path: string): string -> seq<Error> {
    (smf: string) => SmfErrors(smf, path)
  }

  function SmfListErrors(smfs: seq<string>, path: string): (es: seq<Error>)
    ensures Violations(es, path)
  {
    FlatMapViolations(SmfErrorsOf(path), smfs, path);
    Check(|smfs| >= 1, path, EmptySmfList) + FlatMap(SmfErrorsOf(path), smfs)
  }

  predicate IsDefaultDnn(d: DnnData) {
    d.defaultDnnIndicator == Some(true)
  }

  function DnnSessionErrors(d: DnnData, path: string): (es: seq<Error>)
    ensures Violations(es, path)
  {
    Check(!(IsDefaultDnn(d) && d.dnn == "*"), path, DefaultOnWildcard)
    + (if d.sscModes.Some? then SscModesErrors(d.sscModes.value, path) else [])
    + (if d.pduSessionTypes.Some? then PduSessionTypesErrors(d.pduSessionTypes.value, path) else [])
    + (if d.fivegQosProfile.Some? then QosErrors(d.fivegQosProfile.value, path) else [])
  }

  function DnnTransportErrors(d: DnnData, path: string): (es: seq<Error>)
    ensures Violations(es, path)
  {
    (if d.sessionAmbr.Some? then AmbrErrors(d.sessionAmbr.value, path) else [])
    + (if d.upSecurity.Some? then UpSecurityErrors(d.upSecurity.value, path) else [])
    + (if d.smfList.Some? then SmfListErrors(d.smfList.value, path) else [])
    + ChargingErrors(d.chargingCharacteristics, JSON_DNN_DATA_LIST, path)
  }

  function DnnDataErrors(d: DnnData, path: string): (es: seq<Error>)
    ensures Violations(es, path)
  {
    DnnSessionErrors(d, path) + DnnTransportErrors(d, path)
  }

  function DnnDataErrorsOf(path: string): DnnData -> seq<Error> {
    (d: DnnData) => DnnDataErrors(d, path)
  }

  predicate HasDefaultDnn(ds: seq<DnnData>) {
    exists i :: 0 <= i < |ds| && IsDefaultDnn(ds[i])
  }

  function DnnListErrors(l: DnnList, path: string): (es: seq<Error>)
    ensures Violations(es, path)
  {
    FlatMapViolations(DnnDataErrorsOf(path), l.dnnDataList, path);
    FlatMap(DnnDataErrorsOf(path), l.dnnDataList) + Check(HasDefaultDnn(l.dnnDataList), path, NoDefaultDnn)
  }

  function DnnListErrorsOf(path: string): DnnList -> seq<Error> {
    (l: DnnList) => DnnListErrors(l, path)
  }

  predicate HasDefaultList(ls: seq<DnnList>) {
    exists i :: 0 <= i < |ls| && ls[i].dnnListId == DEFAULT_VALUE
  }

  function NonEmpty(s: string): seq<string> {
    if s == "" then [] else [s]
  }

  function ReferencedIdOf(): NssaiDetails -> seq<string> {
    (n: NssaiDetails) => NonEmpty(n.dnnListId)
  }

  function DefinedIdOf(): DnnList -> seq<string> {
    (l: DnnList) => NonEmpty(l.dnnListId)
  }

  // dnnVector and dnnListIdVector.
  function ReferencedIds(s: PlmnIdSet): seq<string> {
    FlatMap(ReferencedIdOf(), s.nssai.defaultSingleNssais) + FlatMap(ReferencedIdOf(), s.nssai.singleNssais)
  }

  function DefinedIds(ls: seq<DnnList>): seq<string> {
    FlatMap(DefinedIdOf(), ls)
  }

  function ReferenceErrorsOf(defined: seq<string>, path: string): string -> seq<Error> {
    (id: string) => Check(id in defined, path, UnresolvedDnnListId)
  }

  function ReferenceErrors(s: PlmnIdSet, path: string): (es: seq<Error>)
    ensures Violations(es, path)
  {
    FlatMapViolations(ReferenceErrorsOf(DefinedIds(s.dnnLists), path), ReferencedIds(s), path);
    FlatMap(ReferenceErrorsOf(DefinedIds(s.dnnLists), path), ReferencedIds(s))
  }

  function NssaiListErrors(ns: seq<NssaiDetails>, parent: Attribute, path: string): (es: seq<Error>)
    ensures Violations(es, path)
  {
    FlatMapViolations(NssaiDetailsErrorsOf(parent, path), ns, path);
    FlatMap(NssaiDetailsErrorsOf(parent, path), ns)
  }

  function DnnListsErrors(ls: seq<DnnList>, isSliceProfile: bool, path: string): (es: seq<Error>)
    ensures Violations(es, path)
  {
    FlatMapViolations(DnnListErrorsOf(path), ls, path);
    FlatMap(DnnListErrorsOf(path), ls)
    + Check(ls == [] || !isSliceProfile || HasDefaultList(ls), path, NoDefaultDnnList)
  }

  function PlmnIdSetErrors(s: PlmnIdSet, isSliceProfile: bool, path: string): (es: seq<Error>)
    ensures Violations(es, path)
  {
    Check(s.plmnIdSetIdentifier == "" || IsPlmnIdSetIdentifier(s.plmnIdSetIdentifier), path,
          InvalidFormat(JSON_PLMN_ID_SET_IDENTIFIER, JSON_PLMN_ID_SETS))
    + NssaiListErrors(s.nssai.defaultSingleNssais, JSON_DEFAULT_SINGLE_NSSAIS, path)
    + NssaiListErrors(s.nssai.singleNssais, JSON_SINGLE_NSSAIS, path)
    + DnnListsErrors(s.dnnLists, isSliceProfile, path)
    + (if isSliceProfile then ReferenceErrors(s, path) else [])
  }

  function PlmnIdSetErrorsOf(isSliceProfile: bool, path: string): PlmnIdSet -> seq<Error> {
    (s: PlmnIdSet) => PlmnIdSetErrors(s, isSliceProfile, path)
  }

  predicate HasDefaultSet(sets: seq<PlmnIdSet>) {
    exists i :: 0 <= i < |sets| && sets[i].plmnIdSetIdentifier == DEFAULT_VALUE
  }

  function CommonErrors(sets: seq<PlmnIdSet>, isSliceProfile: bool, path: string): (es: seq<Error>)
    ensures Violations(es, path)
  {
    FlatMapViolations(PlmnIdSetErrorsOf(isSliceProfile, path), sets, path);
    FlatMap(PlmnIdSetErrorsOf(isSliceProfile, path), sets)
    + Check(!isSliceProfile || HasDefaultSet(sets), path, NoDefaultPlmnIdSet)
  }

  lemma FlatMapViolations<T>(f: T -> seq<Error>, xs: seq<T>, path: string)
    requires forall x :: Violations(f(x), path)
    ensures Violations(FlatMap(f, xs), path)
  {
    forall e | e in FlatMap(f, xs)
      ensures e.message == ConstraintViolation && e.resourcePath == path
    {
      FlatMapIn(f, xs, e);
    }
  }

  // ---- the declarative condition ----

  predicate NssaiDetailsOk(n: NssaiDetails) {
    && 0 <= n.nssai.sst <= 255
    && (n.nssai.sd != "" ==> IsSd(n.nssai.sd))
    && (n.chargingCharacteristics != "" ==> IsChargingCharacteristics(n.chargingCharacteristics))
  }

  // The legal values, as the code compares them one by one.
  lemma LegalValues(x: string)
    ensures x in SSC_MODES <==> x == "SSC_MODE_1" || x == "SSC_MODE_2" || x == "SSC_MODE_3"
    ensures x in SESSION_TYPES <==> x == "IPV4" || x == "IPV6" || x == "IPV4V6" || x == "UNSTRUCTURED" || x == "ETHERNET"
    ensures x in PREEMPT_CAPS <==> x == "NOT_PREEMPT" || x == "MAY_PREEMPT"
    ensures x in PREEMPT_VULNS <==> x == "NOT_PREEMPTABLE" || x == "PREEMPTABLE"
    ensures x in SECURITY_LEVELS <==> x == "REQUIRED" || x == "PREFERRED" || x == "NOT_NEEDED"
  {
  }

  // Legal modes without repetition; no clause bounds their number.
  predicate SscModesOk(m: SscModes) {
    && (forall x :: x in [m.defaultSscMode] + m.allowedSscModes ==> x in SSC_MODES)
    && Distinct([m.defaultSscMode] + m.allowedSscModes)
  }

  predicate PduSessionTypesOk(p: PduSessionTypes) {
    && p.defaultSessionType in SESSION_TYPES
    && (p.hasAllowedSessionTypes ==>
          && p.allowedSessionTypes != []
          && (forall x :: x in p.allowedSessionTypes ==> x in SESSION_TYPES)
          && Distinct([p.defaultSessionType] + p.allowedSessionTypes))
  }

  predicate QosOk(q: FivegQosProfile) {
    && 0 <= q.fiveqi <= 255
    && (q.priorityLevel.Some? ==> 1 <= q.priorityLevel.value <= 127)
    && 1 <= q.arp.priorityLevel <= 15
    && q.arp.preemptCap in PREEMPT_CAPS
    && q.arp.preemptVuln in PREEMPT_VULNS
  }

  predicate DnnDataOk(d: DnnData) {
    && (IsDefaultDnn(d) ==> d.dnn != "*")
    && (d.sscModes.Some? ==> SscModesOk(d.sscModes.value))
    && (d.pduSessionTypes.Some? ==> PduSessionTypesOk(d.pduSessionTypes.value))
    && (d.fivegQosProfile.Some? ==> QosOk(d.fivegQosProfile.value))
    && (d.sessionAmbr.Some? ==>
          forall r :: r in [d.sessionAmbr.value.uplink, d.sessionAmbr.value.downlink] && r != "" ==> IsBitRate(r))
    && (d.upSecurity.Some? ==>
          forall u :: u in [d.upSecurity.value.upIntegr, d.upSecurity.value.upConfid] && u != "" ==> u in SECURITY_LEVELS)
    && (d.smfList.Some? ==> d.smfList.value != [] && forall u :: u in d.smfList.value ==> IsUuid(u))
    && (d.chargingCharacteristics != "" ==> IsChargingCharacteristics(d.chargingCharacteristics))
  }

  // Every DNN is well formed and one of them is the default.
  predicate DnnListOk(l: DnnList) {
    && (forall d :: d in l.dnnDataList ==> DnnDataOk(d))
    && (exists d :: d in l.dnnDataList && IsDefaultDnn(d))
  }

  predicate NamesDnnList(id: string, s: PlmnIdSet) {
    exists l :: l in s.dnnLists && l.dnnListId == id
  }

  predicate ReferencesResolved(s: PlmnIdSet) {
    forall n :: n in s.nssai.defaultSingleNssais + s.nssai.singleNssais && n.dnnListId != "" ==> NamesDnnList(n.dnnListId, s)
  }

  predicate PlmnIdSetOk(s: PlmnIdSet, isSliceProfile: bool) {
    && (s.plmnIdSetIdentifier != "" ==> IsPlmnIdSetIdentifier(s.plmnIdSetIdentifier))
    && (forall n :: n in s.nssai.defaultSingleNssais + s.nssai.singleNssais ==> NssaiDetailsOk(n))
    && (forall l :: l in s.dnnLists ==> DnnListOk(l))
    && (isSliceProfile ==> (s.dnnLists != [] ==> NamesDnnList(DEFAULT_VALUE, s)) && ReferencesResolved(s))
  }

  predicate PlmnIdSetsOk(sets: seq<PlmnIdSet>, isSliceProfile: bool) {
    && (forall s :: s in sets ==> PlmnIdSetOk(s, isSliceProfile))
    && (isSliceProfile ==> exists s :: s in sets && s.plmnIdSetIdentifier == DEFAULT_VALUE)
  }

  // ---- the errors are none exactly when the condition holds ----

  lemma {:induction false} EnumErrorsNone(first: seq<string>, xs: seq<string>, legal: set<string>,
                                          path: string, bad: Description, repeated: Description)
    requires Distinct(first)
    ensures EnumErrors(first, xs, legal, path, bad, repeated) == []
       <==> (forall x :: x in xs ==> x in legal) && Distinct(first + xs)
  {
    if xs == [] {
      assert first + xs == first;
    } else {
      var n := |xs| - 1;
      EnumErrorsNone(first, xs[..n], legal, path, bad, repeated);
      assert xs == xs[..n] + [xs[n]];
      DistinctSnoc(first + xs[..n], xs[n]);
      assert first + xs[..n] + [xs[n]] == first + xs;
    }
  }

  // Three modes in all: the size test of the code never rejects what distinctness accepts.
  lemma SscSizeImplied(m: SscModes)
    requires SscModesOk(m)
    ensures |m.allowedSscModes| <= 2
  {
    Pigeonhole([m.defaultSscMode] + m.allowedSscModes, SSC_MODES);
  }

  lemma SscModesNone(m: SscModes, path: string)
    ensures SscModesErrors(m, path) == [] <==> SscModesOk(m)
  {
    EnumErrorsNone(LegalOnly(m.defaultSscMode, SSC_MODES), m.allowedSscModes, SSC_MODES, path,
                   InvalidValue(JSON_ALLOWED_SSC_MODES, JSON_SSC_MODES), RepeatedSscMode);
    if SscModesOk(m) {
      assert m.defaultSscMode in [m.defaultSscMode] + m.allowedSscModes;
      SscSizeImplied(m);
    }
  }

  lemma PduSessionTypesNone(p: PduSessionTypes, path: string)
    ensures PduSessionTypesErrors(p, path) == [] <==> PduSessionTypesOk(p)
  {
    EnumErrorsNone(LegalOnly(p.defaultSessionType, SESSION_TYPES), p.allowedSessionTypes, SESSION_TYPES, path,
                   InvalidValue(JSON_ALLOWED_SESSION_TYPES, JSON_PDU_SESSION_TYPES), RepeatedSessionType);
  }

  // An accepted DNN that lists allowed session types lists at most four.
  lemma AtMostFourAllowedSessionTypes(d: DnnData)
    requires DnnDataOk(d)
    requires d.pduSessionTypes.Some? && d.pduSessionTypes.value.hasAllowedSessionTypes
    ensures 1 <= |d.pduSessionTypes.value.allowedSessionTypes| <= 4
  {
    var p := d.pduSessionTypes.value;
    Pigeonhole([p.defaultSessionType] + p.allowedSessionTypes, SESSION_TYPES);
  }

  lemma SmfListNone(smfs: seq<string>, path: string)
    ensures SmfListErrors(smfs, path) == [] <==> smfs != [] && forall u :: u in smfs ==> IsUuid(u)
  {
    FlatMapEmpty(SmfErrorsOf(path), smfs);
  }

  lemma DnnDataNone(d: DnnData, path: string)
    ensures DnnDataErrors(d, path) == [] <==> DnnDataOk(d)
  {
    if d.sscModes.Some? {
      SscModesNone(d.sscModes.value, path);
    }
    if d.pduSessionTypes.Some? {
      PduSessionTypesNone(d.pduSessionTypes.value, path);
    }
    if d.smfList.Some? {
      SmfListNone(d.smfList.value, path);
    }
  }

  lemma DnnListNone(l: DnnList, path: string)
    ensures DnnListErrors(l, path) == [] <==> DnnListOk(l)
  {
    FlatMapEmpty(DnnDataErrorsOf(path), l.dnnDataList);
    forall d
      ensures DnnDataErrors(d, path) == [] <==> DnnDataOk(d)
    {
      DnnDataNone(d, path);
    }
  }

  lemma NssaiListNone(ns: seq<NssaiDetails>, parent: Attribute, path: string)
    ensures NssaiListErrors(ns, parent, path) == [] <==> forall n :: n in ns ==> NssaiDetailsOk(n)
  {
    FlatMapEmpty(NssaiDetailsErrorsOf(parent, path), ns);
    forall n
      ensures NssaiDetailsErrors(n, parent, path) == [] <==> NssaiDetailsOk(n)
    {
    }
  }

  lemma DnnListsNone(ls: seq<DnnList>, isSliceProfile: bool, path: string)
    ensures DnnListsErrors(ls, isSliceProfile, path) == []
       <==> (forall l :: l in ls ==> DnnListOk(l)) && (isSliceProfile && ls != [] ==> exists l :: l in ls && l.dnnListId == DEFAULT_VALUE)
  {
    FlatMapEmpty(DnnListErrorsOf(path), ls);
    forall l
      ensures DnnListErrors(l, path) == [] <==> DnnListOk(l)
    {
      DnnListNone(l, path);
    }
  }

  lemma DefinedIdsMembers(ls: seq<DnnList>, id: string)
    ensures id in DefinedIds(ls) <==> id != "" && exists l :: l in ls && l.dnnListId == id
  {
    FlatMapIn(DefinedIdOf(), ls, id);
  }

  lemma ReferencedIdsMembers(s: PlmnIdSet, id: string)
    ensures id in ReferencedIds(s)
       <==> id != "" && exists n :: n in s.nssai.defaultSingleNssais + s.nssai.singleNssais && n.dnnListId == id
  {
    FlatMapIn(ReferencedIdOf(), s.nssai.defaultSingleNssais, id);
    FlatMapIn(ReferencedIdOf(), s.nssai.singleNssais, id);
    assert forall n :: n in s.nssai.defaultSingleNssais + s.nssai.singleNssais
                  <==> n in s.nssai.defaultSingleNssais || n in s.nssai.singleNssais;
  }

  lemma ReferencesNone(s: PlmnIdSet, path: string)
    ensures ReferenceErrors(s, path) == [] <==> ReferencesResolved(s)
  {
    var ids := ReferencedIds(s);
    var defined := DefinedIds(s.dnnLists);
    FlatMapEmpty(ReferenceErrorsOf(defined, path), ids);
    assert ReferenceErrors(s, path) == [] <==> forall id :: id in ids ==> id in defined;
    forall id
      ensures id in ids <==> id != "" && exists n :: n in s.nssai.defaultSingleNssais + s.nssai.singleNssais && n.dnnListId == id
      ensures id in defined <==> id != "" && NamesDnnList(id, s)
    {
      ReferencedIdsMembers(s, id);
      DefinedIdsMembers(s.dnnLists, id);
    }
  }

  lemma PlmnIdSetNone(s: PlmnIdSet, isSliceProfile: bool, path: string)
    ensures PlmnIdSetErrors(s, isSliceProfile, path) == [] <==> PlmnIdSetOk(s, isSliceProfile)
  {
    hide NssaiListErrors, DnnListsErrors, ReferenceErrors, NssaiDetailsOk, DnnListOk, ReferencesResolved, IsPlmnIdSetIdentifier;
    NssaiListNone(s.nssai.defaultSingleNssais, JSON_DEFAULT_SINGLE_NSSAIS, path);
    NssaiListNone(s.nssai.singleNssais, JSON_SINGLE_NSSAIS, path);
    DnnListsNone(s.dnnLists, isSliceProfile, path);
    ReferencesNone(s, path);
  }

  // The loop nest accepts exactly the values that satisfy the declarative condition.
  lemma CommonRulesAccept(sets: seq<PlmnIdSet>, isSliceProfile: bool, path: string)
    ensures CommonErrors(sets, isSliceProfile, path) == [] <==> PlmnIdSetsOk(sets, isSliceProfile)
  {
    FlatMapEmpty(PlmnIdSetErrorsOf(isSliceProfile, path), sets);
    forall s
      ensures PlmnIdSetErrors(s, isSliceProfile, path) == [] <==> PlmnIdSetOk(s, isSliceProfile)
    {
      PlmnIdSetNone(s, isSliceProfile, path);
    }
  }
}
