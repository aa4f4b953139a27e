// The class entities::ValidationData and the SMS rule classes that append to it. Each method is
// the imperative form of a rule; its contract ties the errors it appends, and its answer, to the
// function that specifies the rule.
module Validation {
  import opened JsonModel
  import opened Sequences
  import opened Text
  import opened OrderedMaps
  import opened Types
  import opened Paths
  import opened SliceProfileRules
  import opened CreateRules
  import opened UpdateRules
  import opened SubscriptionRules
  import opened RoamingAreaRules
  import opened SmsRules
  import opened Mutations
  import opened Runs
  import opened Dispatch

  // Errors appended one group after another are the groups joined, and none were appended exactly
  // when every group is empty.
  lemma Regroup2(e: seq<Error>, a: seq<Error>, b: seq<Error>)
    ensures e + a + b == e + (a + b)
    ensures a + b == [] <==> a == [] && b == []
  {
  }

  lemma Regroup3(e: seq<Error>, a: seq<Error>, b: seq<Error>, c: seq<Error>)
    ensures e + a + b + c == e + (a + b + c)
    ensures a + b + c == [] <==> a == [] && b == [] && c == []
  {
  }

  lemma Regroup4(e: seq<Error>, a: seq<Error>, b: seq<Error>, c: seq<Error>, d: seq<Error>)
    ensures e + a + b + c + d == e + (a + b + c + d)
    ensures a + b + c + d == [] <==> a == [] && b == [] && c == [] && d == []
  {
    Regroup2(e, a + b + c, d);
    Regroup3(e, a, b, c);
  }

  lemma Regroup5(e: seq<Error>, a: seq<Error>, b: seq<Error>, c: seq<Error>, d: seq<Error>, f: seq<Error>)
    ensures e + a + b + c + d + f == e + (a + b + c + d + f)
    ensures a + b + c + d + f == [] <==> a == [] && b == [] && c == [] && d == [] && f == []
  {
    Regroup2(e, a + b + c + d, f);
    Regroup4(e, a, b, c, d);
  }

  class ValidationData {
    var changes: seq<Change>
    var relatedResources: RelatedResources
    var errors: seq<Error>            // response.errors
    var responseChanges: seq<Change>  // response.changes

    constructor (changes: seq<Change>, relatedResources: RelatedResources)
      ensures this.changes == changes && this.relatedResources == relatedResources
      ensures errors == [] && responseChanges == []
    {
      this.changes := changes;
      this.relatedResources := relatedResources;
      errors := [];
      responseChanges := [];
    }

    method AddError(message: Message, path: string, d: Description)
      modifies this`errors
      ensures errors == old(errors) + [Error(message, path, d)]
    {
      errors := errors + [Error(message, path, d)];
    }

    // The block every format rule ends in: unless ok, clear ret and add one error.
    method Require(ok: bool, path: string, d: Description) returns (ret: bool)
      modifies this`errors
      ensures errors == old(errors) + Check(ok, path, d)
      ensures ret <==> Check(ok, path, d) == []
    {
      ret := true;
      if !ok {
        ret := false;
        AddError(ConstraintViolation, path, d);
      }
    }

    // ---- checkForCommonUdmSliceProfileRules, innermost loops first ----

    method CheckCharging(c: string, parent: Attribute, path: string) returns (ret: bool)
      modifies this`errors
      ensures errors == old(errors) + ChargingErrors(c, parent, path)
      ensures ret <==> ChargingErrors(c, parent, path) == []
    {
      ret := Require(c == "" || IsChargingCharacteristics(c), path, InvalidFormat(JSON_3GPP_CHARGING_CHARACTERISTICS, parent));
    }

    method CheckNssai(n: NssaiDetails, parent: Attribute, path: string) returns (ret: bool)
      modifies this`errors
      ensures errors == old(errors) + NssaiDetailsErrors(n, parent, path)
      ensures ret <==> NssaiDetailsErrors(n, parent, path) == []
    {
      hide Check, ChargingErrors, IsSd;
      ghost var e0 := errors;
      var sst := Require(0 <= n.nssai.sst <= 255, path, InvalidValue(JSON_SST, parent));
      var sd := Require(n.nssai.sd == "" || IsSd(n.nssai.sd), path, InvalidValue(JSON_SD, parent));
      var charging := CheckCharging(n.chargingCharacteristics, parent, path);
      ret := sst && sd && charging;
      Regroup3(e0, Check(0 <= n.nssai.sst <= 255, path, InvalidValue(JSON_SST, parent)),
               Check(n.nssai.sd == "" || IsSd(n.nssai.sd), path, InvalidValue(JSON_SD, parent)),
               ChargingErrors(n.chargingCharacteristics, parent, path));
    }

    method CheckNssaiList(ns: seq<NssaiDetails>, parent: Attribute, path: string) returns (ret: bool)
      modifies this`errors
      ensures errors == old(errors) + NssaiListErrors(ns, parent, path)
      ensures ret <==> NssaiListErrors(ns, parent, path) == []
    {
      hide NssaiDetailsErrors;
      ret := true;
      ghost var f := NssaiDetailsErrorsOf(parent, path);
      for i := 0 to |ns|
        invariant errors == old(errors) + FlatMap(f, ns[..i])
        invariant ret <==> FlatMap(f, ns[..i]) == []
      {
        FlatMapSnoc(f, ns, i);
        Regroup2(old(errors), FlatMap(f, ns[..i]), f(ns[i]));
        var ok := CheckNssai(ns[i], parent, path);
        ret := ret && ok;
      }
      FlatMapFull(f, ns);
    }

    // checkSscRepeated and checkPduSessionTypeRepeated: report x if the list holds it, push it
    // otherwise.
    method CheckRepeated(path: string, seen: seq<string>, x: string, repeated: Description) returns (seen': seq<string>, ret: bool)
      modifies this`errors
      ensures errors == old(errors) + Check(x !in seen, path, repeated)
      ensures ret <==> Check(x !in seen, path, repeated) == []
      ensures forall y :: y in seen' <==> y in seen || y == x
    {
      if multiset(seen)[x] >= 1 {
        ret := false;
        AddError(ConstraintViolation, path, repeated);
        seen' := seen;
      } else {
        ret := true;
        seen' := seen + [x];
      }
    }

    method CheckDefaultValue(x: string, legal: set<string>, field: Attribute, parent: Attribute, path: string)
      returns (seen: seq<string>, ret: bool)
      modifies this`errors
      ensures errors == old(errors) + DefaultValueErrors(x, legal, field, parent, path)
      ensures ret <==> DefaultValueErrors(x, legal, field, parent, path) == []
      ensures seen == if x == "" then [] else LegalOnly(x, legal)
    {
      ret := true;
      seen := [];
      if x == "" {
        ret := false;
        AddError(ConstraintViolation, path, RequiredField(field, parent));
      } else if x !in legal {
        ret := false;
        AddError(ConstraintViolation, path, InvalidValue(field, parent));
      } else {
        seen := seen + [x];
      }
    }

    method CheckAllowedValues(first: seq<string>, xs: seq<string>, legal: set<string>, path: string,
                              bad: Description, repeated: Description) returns (ret: bool)
      modifies this`errors
      ensures errors == old(errors) + EnumErrors(first, xs, legal, path, bad, repeated)
      ensures ret <==> EnumErrors(first, xs, legal, path, bad, repeated) == []
    {
      hide Check;
      ret := true;
      var seen := first;
      ghost var e0 := errors;
      for i := 0 to |xs|
        invariant errors == e0 + EnumErrors(first, xs[..i], legal, path, bad, repeated)
        invariant ret <==> EnumErrors(first, xs[..i], legal, path, bad, repeated) == []
        invariant forall x :: x in legal ==> (x in seen <==> x in first || x in xs[..i])
      {
        ghost var before := EnumErrors(first, xs[..i], legal, path, bad, repeated);
        assert xs[..i + 1][..i] == xs[..i] && xs[..i + 1] == xs[..i] + [xs[i]];
        if xs[i] !in legal {
          Regroup2(e0, before, [Violation(path, bad)]);
          ret := false;
          AddError(ConstraintViolation, path, bad);
        } else {
          Regroup2(e0, before, Check(xs[i] !in first && xs[i] !in xs[..i], path, repeated));
          assert xs[i] !in seen <==> xs[i] !in first && xs[i] !in xs[..i];
          var ok;
          seen, ok := CheckRepeated(path, seen, xs[i], repeated);
          ret := ret && ok;
        }
      }
      assert xs[..|xs|] == xs;
    }

    method CheckSscModes(m: SscModes, path: string) returns (ret: bool)
      modifies this`errors
      ensures errors == old(errors) + SscModesErrors(m, path)
      ensures ret <==> SscModesErrors(m, path) == []
    {
      hide DefaultValueErrors, EnumErrors;
      var seen;
      seen, ret := CheckDefaultValue(m.defaultSscMode, SSC_MODES, JSON_DEFAULT_SSC_MODE, JSON_SSC_MODES, path);
      if |m.allowedSscModes| > 2 {
        ret := false;
        AddError(ConstraintViolation, path, InvalidSize(JSON_ALLOWED_SSC_MODES, JSON_SSC_MODES));
      } else {
        var ok := CheckAllowedValues(seen, m.allowedSscModes, SSC_MODES, path,
                                     InvalidValue(JSON_ALLOWED_SSC_MODES, JSON_SSC_MODES), RepeatedSscMode);
        ret := ret && ok;
      }
    }

    method CheckPduSessionTypes(p: PduSessionTypes, path: string) returns (ret: bool)
      modifies this`errors
      ensures errors == old(errors) + PduSessionTypesErrors(p, path)
      ensures ret <==> PduSessionTypesErrors(p, path) == []
    {
      hide DefaultValueErrors, EnumErrors;
      var seen;
      seen, ret := CheckDefaultValue(p.defaultSessionType, SESSION_TYPES, JSON_DEFAULT_SESSION_TYPE, JSON_PDU_SESSION_TYPES, path);
      if p.hasAllowedSessionTypes {
        if |p.allowedSessionTypes| < 1 {
          ret := false;
          AddError(ConstraintViolation, path, InvalidSize(JSON_ALLOWED_SESSION_TYPES, JSON_PDU_SESSION_TYPES));
        } else {
          var ok := CheckAllowedValues(seen, p.allowedSessionTypes, SESSION_TYPES, path,
                                       InvalidValue(JSON_ALLOWED_SESSION_TYPES, JSON_PDU_SESSION_TYPES), RepeatedSessionType);
          ret := ret && ok;
        }
      }
    }

    method CheckQos(q: FivegQosProfile, path: string) returns (ret: bool)
      modifies this`errors
      ensures errors == old(errors) + QosErrors(q, path)
      ensures ret <==> QosErrors(q, path) == []
    {
      hide Check, ArpErrors;
      ghost var e0 := errors;
      var qi := Require(0 <= q.fiveqi <= 255, path, InvalidValue(JSON_5QI, JSON_5G_QOS_PROFILE));
      var level := Require(q.priorityLevel.Some? ==> 1 <= q.priorityLevel.value <= 127, path,
                           InvalidValue(JSON_PRIORITY_LEVEL, JSON_5G_QOS_PROFILE));
      var arp := CheckArp(q.arp, path);
      ret := qi && level && arp;
      Regroup3(e0, Check(0 <= q.fiveqi <= 255, path, InvalidValue(JSON_5QI, JSON_5G_QOS_PROFILE)),
               Check(q.priorityLevel.Some? ==> 1 <= q.priorityLevel.value <= 127, path,
                     InvalidValue(JSON_PRIORITY_LEVEL, JSON_5G_QOS_PROFILE)),
               ArpErrors(q.arp, path));
    }

    method CheckArp(a: Arp, path: string) returns (ret: bool)
      modifies this`errors
      ensures errors == old(errors) + ArpErrors(a, path)
      ensures ret <==> ArpErrors(a, path) == []
    {
      hide Check;
      ghost var e0 := errors;
      var level := Require(1 <= a.priorityLevel <= 15, path, InvalidValue(JSON_PRIORITY_LEVEL, JSON_ARP));
      var cap := Require(a.preemptCap in PREEMPT_CAPS, path, InvalidValue(JSON_PREEMPTCAP, JSON_ARP));
      var vuln := Require(a.preemptVuln in PREEMPT_VULNS, path, InvalidValue(JSON_PREEMPTVULN, JSON_ARP));
      ret := level && cap && vuln;
      Regroup3(e0, Check(1 <= a.priorityLevel <= 15, path, InvalidValue(JSON_PRIORITY_LEVEL, JSON_ARP)),
               Check(a.preemptCap in PREEMPT_CAPS, path, InvalidValue(JSON_PREEMPTCAP, JSON_ARP)),
               Check(a.preemptVuln in PREEMPT_VULNS, path, InvalidValue(JSON_PREEMPTVULN, JSON_ARP)));
    }

    method CheckAmbr(a: Ambr, path: string) returns (ret: bool)
      modifies this`errors
      ensures errors == old(errors) + AmbrErrors(a, path)
      ensures ret <==> AmbrErrors(a, path) == []
    {
      hide Check, IsBitRate;
      ghost var e0 := errors;
      var up := Require(a.uplink == "" || IsBitRate(a.uplink), path, InvalidFormat(JSON_UPLINK, JSON_SESSION_AMBR));
      var down := Require(a.downlink == "" || IsBitRate(a.downlink), path, InvalidFormat(JSON_DOWNLINK, JSON_SESSION_AMBR));
      ret := up && down;
      Regroup2(e0, Check(a.uplink == "" || IsBitRate(a.uplink), path, InvalidFormat(JSON_UPLINK, JSON_SESSION_AMBR)),
               Check(a.downlink == "" || IsBitRate(a.downlink), path, InvalidFormat(JSON_DOWNLINK, JSON_SESSION_AMBR)));
    }

    method CheckUpSecurity(u: UpSecurity, path: string) returns (ret: bool)
      modifies this`errors
      ensures errors == old(errors) + UpSecurityErrors(u, path)
      ensures ret <==> UpSecurityErrors(u, path) == []
    {
      hide Check;
      ghost var e0 := errors;
      var integr := Require(u.upIntegr == "" || u.upIntegr in SECURITY_LEVELS, path, InvalidFormat(JSON_UP_INTEGR, JSON_UP_SECURITY));
      var confid := Require(u.upConfid == "" || u.upConfid in SECURITY_LEVELS, path, InvalidFormat(JSON_UP_CONFID, JSON_UP_SECURITY));
      ret := integr && confid;
      Regroup2(e0, Check(u.upIntegr == "" || u.upIntegr in SECURITY_LEVELS, path, InvalidFormat(JSON_UP_INTEGR, JSON_UP_SECURITY)),
               Check(u.upConfid == "" || u.upConfid in SECURITY_LEVELS, path, InvalidFormat(JSON_UP_CONFID, JSON_UP_SECURITY)));
    }

    method CheckSmfList(smfs: seq<string>, path: string) returns (ret: bool)
      modifies this`errors
      ensures errors == old(errors) + SmfListErrors(smfs, path)
      ensures ret <==> SmfListErrors(smfs, path) == []
    {
      hide Check, IsUuid;
      ghost var f := SmfErrorsOf(path);
      ghost var start := Check(|smfs| >= 1, path, EmptySmfList);
      ghost var e0 := errors;
      ret := Require(|smfs| >= 1, path, EmptySmfList);
      for i := 0 to |smfs|
        invariant errors == e0 + (start + FlatMap(f, smfs[..i]))
        invariant ret <==> start == [] && FlatMap(f, smfs[..i]) == []
      {
        FlatMapSnoc(f, smfs, i);
        Regroup2(start, FlatMap(f, smfs[..i]), f(smfs[i]));
        Regroup2(e0, start + FlatMap(f, smfs[..i]), f(smfs[i]));
        var ok := Require(IsUuid(smfs[i]), path, InvalidFormat(JSON_SMF_LIST, JSON_DNN_DATA_LIST));
        ret := ret && ok;
      }
      FlatMapFull(f, smfs);
      Regroup2(e0, start, FlatMap(f, smfs));
    }

    // The rules of one DNN, in two halves.
    method CheckSession(d: DnnData, path: string) returns (ret: bool)
      modifies this`errors
      ensures errors == old(errors) + DnnSessionErrors(d, path)
      ensures ret <==> DnnSessionErrors(d, path) == []
    {
      hide Check, SscModesErrors, PduSessionTypesErrors, QosErrors;
      ghost var e0 := errors;
      ghost var ssc := if d.sscModes.Some? then SscModesErrors(d.sscModes.value, path) else [];
      ghost var pdu := if d.pduSessionTypes.Some? then PduSessionTypesErrors(d.pduSessionTypes.value, path) else [];
      ghost var qos := if d.fivegQosProfile.Some? then QosErrors(d.fivegQosProfile.value, path) else [];
      ret := Require(!(IsDefaultDnn(d) && d.dnn == "*"), path, DefaultOnWildcard);
      ghost var e1 := errors;
      var ok := true;
      if d.sscModes.Some? {
        ok := CheckSscModes(d.sscModes.value, path);
        ret := ret && ok;
      }
      assert errors == e1 + ssc && (ok <==> ssc == []);
      ghost var e2 := errors;
      ok := true;
      if d.pduSessionTypes.Some? {
        ok := CheckPduSessionTypes(d.pduSessionTypes.value, path);
        ret := ret && ok;
      }
      assert errors == e2 + pdu && (ok <==> pdu == []);
      ghost var e3 := errors;
      ok := true;
      if d.fivegQosProfile.Some? {
        ok := CheckQos(d.fivegQosProfile.value, path);
        ret := ret && ok;
      }
      assert errors == e3 + qos && (ok <==> qos == []);
      Regroup4(e0, Check(!(IsDefaultDnn(d) && d.dnn == "*"), path, DefaultOnWildcard), ssc, pdu, qos);
    }

    method CheckTransport(d: DnnData, path: string) returns (ret: bool)
      modifies this`errors
      ensures errors == old(errors) + DnnTransportErrors(d, path)
      ensures ret <==> DnnTransportErrors(d, path) == []
    {
      hide AmbrErrors, UpSecurityErrors, SmfListErrors, ChargingErrors;
      ghost var e0 := errors;
      ret := true;
      if d.sessionAmbr.Some? {
        var ok := CheckAmbr(d.sessionAmbr.value, path);
        ret := ret && ok;
      }
      if d.upSecurity.Some? {
        var ok := CheckUpSecurity(d.upSecurity.value, path);
        ret := ret && ok;
      }
      if d.smfList.Some? {
        var ok := CheckSmfList(d.smfList.value, path);
        ret := ret && ok;
      }
      var charging := CheckCharging(d.chargingCharacteristics, JSON_DNN_DATA_LIST, path);
      ret := ret && charging;
      Regroup4(e0, if d.sessionAmbr.Some? then AmbrErrors(d.sessionAmbr.value, path) else [],
               if d.upSecurity.Some? then UpSecurityErrors(d.upSecurity.value, path) else [],
               if d.smfList.Some? then SmfListErrors(d.smfList.value, path) else [],
               ChargingErrors(d.chargingCharacteristics, JSON_DNN_DATA_LIST, path));
    }

    method CheckDnnList(l: DnnList, path: string) returns (ret: bool)
      modifies this`errors
      ensures errors == old(errors) + DnnListErrors(l, path)
      ensures ret <==> DnnListErrors(l, path) == []
    {
      hide Check, DnnSessionErrors, DnnTransportErrors;
      ret := true;
      var dnnDefaultExists := false;
      ghost var f := DnnDataErrorsOf(path);
      ghost var e0 := errors;
      for i := 0 to |l.dnnDataList|
        invariant errors == e0 + FlatMap(f, l.dnnDataList[..i])
        invariant ret <==> FlatMap(f, l.dnnDataList[..i]) == []
        invariant dnnDefaultExists <==> exists j :: 0 <= j < i && IsDefaultDnn(l.dnnDataList[j])
      {
        var d := l.dnnDataList[i];
        FlatMapSnoc(f, l.dnnDataList, i);
        Regroup2(e0, FlatMap(f, l.dnnDataList[..i]), f(d));
        Regroup2(errors, DnnSessionErrors(d, path), DnnTransportErrors(d, path));
        if IsDefaultDnn(d) {
          dnnDefaultExists := true;
        }
        var session := CheckSession(d, path);
        var transport := CheckTransport(d, path);
        ret := ret && session && transport;
      }
      FlatMapFull(f, l.dnnDataList);
      var ok := Require(dnnDefaultExists, path, NoDefaultDnn);
      ret := ret && ok;
      Regroup2(e0, FlatMap(f, l.dnnDataList), Check(HasDefaultDnn(l.dnnDataList), path, NoDefaultDnn));
    }

    method CheckDnnLists(ls: seq<DnnList>, isSliceProfile: bool, path: string) returns (dnnListIds: seq<string>, ret: bool)
      modifies this`errors
      ensures errors == old(errors) + DnnListsErrors(ls, isSliceProfile, path)
      ensures ret <==> DnnListsErrors(ls, isSliceProfile, path) == []
      ensures dnnListIds == DefinedIds(ls)
    {
      hide Check, DnnListErrors;
      ret := true;
      dnnListIds := [];
      var dnnListIdDefaultExists := false;
      ghost var f := DnnListErrorsOf(path);
      ghost var e0 := errors;
      for i := 0 to |ls|
        invariant errors == e0 + FlatMap(f, ls[..i])
        invariant ret <==> FlatMap(f, ls[..i]) == []
        invariant dnnListIds == DefinedIds(ls[..i])
        invariant dnnListIdDefaultExists <==> exists j :: 0 <= j < i && ls[j].dnnListId == DEFAULT_VALUE
      {
        FlatMapSnoc(f, ls, i);
        FlatMapSnoc(DefinedIdOf(), ls, i);
        Regroup2(e0, FlatMap(f, ls[..i]), f(ls[i]));
        if ls[i].dnnListId == DEFAULT_VALUE {
          dnnListIdDefaultExists := true;
        }
        if ls[i].dnnListId != "" {
          dnnListIds := dnnListIds + [ls[i].dnnListId];
        }
        var ok := CheckDnnList(ls[i], path);
        ret := ret && ok;
      }
      FlatMapFull(f, ls);
      FlatMapFull(DefinedIdOf(), ls);
      assert dnnListIdDefaultExists == HasDefaultList(ls);
      var ok := Require(ls == [] || !isSliceProfile || dnnListIdDefaultExists, path, NoDefaultDnnList);
      ret := ret && ok;
      Regroup2(e0, FlatMap(f, ls), Check(ls == [] || !isSliceProfile || HasDefaultList(ls), path, NoDefaultDnnList));
    }

    method CollectReferences(ns: seq<NssaiDetails>, ids: seq<string>) returns (ids': seq<string>)
      ensures ids' == ids + FlatMap(ReferencedIdOf(), ns)
    {
      ids' := ids;
      for i := 0 to |ns|
        invariant ids' == ids + FlatMap(ReferencedIdOf(), ns[..i])
      {
        FlatMapSnoc(ReferencedIdOf(), ns, i);
        if ns[i].dnnListId != "" {
          ids' := ids' + [ns[i].dnnListId];
        }
      }
      FlatMapFull(ReferencedIdOf(), ns);
    }

    method CheckReferences(dnns: seq<string>, dnnListIds: seq<string>, path: string) returns (ret: bool)
      modifies this`errors
      ensures errors == old(errors) + FlatMap(ReferenceErrorsOf(dnnListIds, path), dnns)
      ensures ret <==> FlatMap(ReferenceErrorsOf(dnnListIds, path), dnns) == []
    {
      hide Check;
      ret := true;
      ghost var f := ReferenceErrorsOf(dnnListIds, path);
      for i := 0 to |dnns|
        invariant errors == old(errors) + FlatMap(f, dnns[..i])
        invariant ret <==> FlatMap(f, dnns[..i]) == []
      {
        FlatMapSnoc(f, dnns, i);
        Regroup2(old(errors), FlatMap(f, dnns[..i]), f(dnns[i]));
        var ok := Require(dnns[i] in dnnListIds, path, UnresolvedDnnListId);
        ret := ret && ok;
      }
      FlatMapFull(f, dnns);
    }

    method CheckPlmnIdSet(s: PlmnIdSet, isSliceProfile: bool, path: string) returns (ret: bool)
      modifies this`errors
      ensures errors == old(errors) + PlmnIdSetErrors(s, isSliceProfile, path)
      ensures ret <==> PlmnIdSetErrors(s, isSliceProfile, path) == []
    {
      hide Check, NssaiListErrors, DnnListsErrors, DefinedIds, IsPlmnIdSetIdentifier, FlatMap;
      ghost var e0 := errors;
      ret := Require(s.plmnIdSetIdentifier == "" || IsPlmnIdSetIdentifier(s.plmnIdSetIdentifier), path,
                     InvalidFormat(JSON_PLMN_ID_SET_IDENTIFIER, JSON_PLMN_ID_SETS));
      var dnns := CollectReferences(s.nssai.defaultSingleNssais, []);
      var ok := CheckNssaiList(s.nssai.defaultSingleNssais, JSON_DEFAULT_SINGLE_NSSAIS, path);
      ret := ret && ok;
      dnns := CollectReferences(s.nssai.singleNssais, dnns);
      ok := CheckNssaiList(s.nssai.singleNssais, JSON_SINGLE_NSSAIS, path);
      ret := ret && ok;
      var dnnListIds;
      dnnListIds, ok := CheckDnnLists(s.dnnLists, isSliceProfile, path);
      ret := ret && ok;
      if isSliceProfile {
        assert dnns == ReferencedIds(s);
        ok := CheckReferences(dnns, dnnListIds, path);
        ret := ret && ok;
      }
      Regroup5(e0, Check(s.plmnIdSetIdentifier == "" || IsPlmnIdSetIdentifier(s.plmnIdSetIdentifier), path,
                         InvalidFormat(JSON_PLMN_ID_SET_IDENTIFIER, JSON_PLMN_ID_SETS)),
               NssaiListErrors(s.nssai.defaultSingleNssais, JSON_DEFAULT_SINGLE_NSSAIS, path),
               NssaiListErrors(s.nssai.singleNssais, JSON_SINGLE_NSSAIS, path),
               DnnListsErrors(s.dnnLists, isSliceProfile, path),
               if isSliceProfile then ReferenceErrors(s, path) else []);
    }

    method CheckForCommonUdmSliceProfileRules(sets: seq<PlmnIdSet>, isSliceProfile: bool, path: string) returns (ret: bool)
      modifies this`errors
      ensures errors == old(errors) + CommonErrors(sets, isSliceProfile, path)
      ensures ret <==> CommonErrors(sets, isSliceProfile, path) == []
    {
      hide Check, PlmnIdSetErrors;
      ret := true;
      var plmnIdSetIdDefaultExists := false;
      ghost var f := PlmnIdSetErrorsOf(isSliceProfile, path);
      ghost var e0 := errors;
      for i := 0 to |sets|
        invariant errors == e0 + FlatMap(f, sets[..i])
        invariant ret <==> FlatMap(f, sets[..i]) == []
        invariant plmnIdSetIdDefaultExists <==> exists j :: 0 <= j < i && sets[j].plmnIdSetIdentifier == DEFAULT_VALUE
      {
        FlatMapSnoc(f, sets, i);
        Regroup2(e0, FlatMap(f, sets[..i]), f(sets[i]));
        if sets[i].plmnIdSetIdentifier == DEFAULT_VALUE {
          plmnIdSetIdDefaultExists := true;
        }
        var ok := CheckPlmnIdSet(sets[i], isSliceProfile, path);
        ret := ret && ok;
      }
      FlatMapFull(f, sets);
      assert plmnIdSetIdDefaultExists == HasDefaultSet(sets);
      var ok := Require(!isSliceProfile || plmnIdSetIdDefaultExists, path, NoDefaultPlmnIdSet);
      ret := ret && ok;
      Regroup2(e0, FlatMap(f, sets), Check(!isSliceProfile || HasDefaultSet(sets), path, NoDefaultPlmnIdSet));
    }

    // ---- checkForRepeatedDnnsandNssais ----

    // checkForRepeatedNssais: report an S-NSSAI that the list holds, push it otherwise.
    method CheckForRepeatedNssai(n: NssaiDetails, nssaiList: seq<NssaiKey>, path: string) returns (nssaiList': seq<NssaiKey>, ret: bool)
      requires forall k :: k in nssaiList ==> ToLower(k.sd) == k.sd
      modifies this`errors
      ensures errors == old(errors) + (if KeyOf(n) in nssaiList then [NssaiError(path)] else [])
      ensures ret <==> KeyOf(n) !in nssaiList
      ensures forall k :: k in nssaiList' <==> k in nssaiList || k == KeyOf(n)
    {
      var theNssai := NssaiKey(n.nssai.sst, ToLower(n.nssai.sd));
      if exists k :: k in nssaiList && theNssai.sst == k.sst && theNssai.sd == ToLower(k.sd) {
        ret := false;
        AddError(ConstraintViolation, path, RepeatedNssai);
        nssaiList' := nssaiList;
      } else {
        ret := true;
        nssaiList' := nssaiList + [theNssai];
      }
    }

    method CheckNssaisOfSet(s: PlmnIdSet, path: string) returns (ret: bool)
      modifies this`errors
      ensures errors == old(errors) + RepeatErrors(NssaiKeys(AllNssais(s)), NssaiError(path))
      ensures ret <==> RepeatErrors(NssaiKeys(AllNssais(s)), NssaiError(path)) == []
    {
      hide RepeatErrors;
      var d, g := s.nssai.defaultSingleNssais, s.nssai.singleNssais;
      ghost var e := NssaiError(path);
      var nssaiList: seq<NssaiKey> := [];
      ret := true;
      ghost var e0 := errors;
      RepeatErrorsOfNone<NssaiKey>(e);
      for i := 0 to |d|
        invariant errors == e0 + RepeatErrors(NssaiKeys(d[..i]), e)
        invariant ret <==> RepeatErrors(NssaiKeys(d[..i]), e) == []
        invariant forall k :: k in nssaiList <==> k in NssaiKeys(d[..i])
      {
        assert NssaiKeys(d[..i + 1]) == NssaiKeys(d[..i]) + [KeyOf(d[i])];
        RepeatErrorsSnoc(NssaiKeys(d[..i]), KeyOf(d[i]), e);
        KeysAreLower(d[..i]);
        var ok;
        nssaiList, ok := CheckForRepeatedNssai(d[i], nssaiList, path);
        ret := ret && ok;
      }
      assert d[..|d|] == d && d + g[..0] == d;
      for i := 0 to |g|
        invariant errors == e0 + RepeatErrors(NssaiKeys(d + g[..i]), e)
        invariant ret <==> RepeatErrors(NssaiKeys(d + g[..i]), e) == []
        invariant forall k :: k in nssaiList <==> k in NssaiKeys(d + g[..i])
      {
        assert NssaiKeys(d + g[..i + 1]) == NssaiKeys(d + g[..i]) + [KeyOf(g[i])];
        RepeatErrorsSnoc(NssaiKeys(d + g[..i]), KeyOf(g[i]), e);
        KeysAreLower(d + g[..i]);
        var ok;
        nssaiList, ok := CheckForRepeatedNssai(g[i], nssaiList, path);
        ret := ret && ok;
      }
      assert g[..|g|] == g;
    }

    method CheckDnnsOfList(l: DnnList, path: string) returns (ret: bool)
      modifies this`errors
      ensures errors == old(errors) + DnnRepeatErrors(l, path)
      ensures ret <==> DnnRepeatErrors(l, path) == []
    {
      hide RepeatErrors;
      var ds := l.dnnDataList;
      ghost var e := DnnError(path);
      var dnnRepeated: seq<string> := [];
      ret := true;
      ghost var e0 := errors;
      ghost var keys: seq<string> := [];
      RepeatErrorsOfNone<string>(e);
      for i := 0 to |ds|
        invariant keys == LowerDnns(ds[..i])
        invariant errors == e0 + RepeatErrors(keys, e)
        invariant ret <==> RepeatErrors(keys, e) == []
        invariant forall k :: k in dnnRepeated <==> k in keys
      {
        FlatMapSnoc(LowerDnnOf(), ds, i);
        if ds[i].dnn != "" {
          var lowDnn := ToLower(ds[i].dnn);
          RepeatErrorsSnoc(keys, lowDnn, e);
          if multiset(dnnRepeated)[lowDnn] >= 1 {
            assert lowDnn in dnnRepeated;
            ret := false;
            AddError(ConstraintViolation, path, RepeatedDnn);
          } else {
            assert lowDnn !in dnnRepeated;
            dnnRepeated := dnnRepeated + [lowDnn];
          }
          keys := keys + [lowDnn];
        }
      }
      FlatMapFull(LowerDnnOf(), ds);
    }

    method CheckForRepeatedDnnsAndNssais(sets: seq<PlmnIdSet>, path: string) returns (ret: bool)
      modifies this`errors
      ensures errors == old(errors) + CreateErrors(sets, path)
      ensures ret <==> CreateErrors(sets, path) == []
    {
      hide RepeatErrors, DnnRepeatErrors;
      ret := true;
      ghost var f := SetRepeatErrorsOf(path);
      ghost var e0 := errors;
      for i := 0 to |sets|
        invariant errors == e0 + FlatMap(f, sets[..i])
        invariant ret <==> FlatMap(f, sets[..i]) == []
      {
        FlatMapSnoc(f, sets, i);
        Regroup2(e0, FlatMap(f, sets[..i]), f(sets[i]));
        ghost var nssais := RepeatErrors(NssaiKeys(AllNssais(sets[i])), NssaiError(path));
        ghost var e1 := errors;
        var ok := CheckNssaisOfSet(sets[i], path);
        ret := ret && ok;
        ghost var g := DnnRepeatErrorsOf(path);
        var ls := sets[i].dnnLists;
        ghost var e2 := errors;
        ghost var r2 := ret;
        for j := 0 to |ls|
          invariant errors == e2 + FlatMap(g, ls[..j])
          invariant ret <==> r2 && FlatMap(g, ls[..j]) == []
        {
          FlatMapSnoc(g, ls, j);
          Regroup2(e2, FlatMap(g, ls[..j]), g(ls[j]));
          ok := CheckDnnsOfList(ls[j], path);
          ret := ret && ok;
        }
        FlatMapFull(g, ls);
        Regroup2(e1, nssais, FlatMap(g, ls));
      }
      FlatMapFull(f, sets);
    }

    // ---- checkForUpdateSpecificUdmSliceProfileRules ----

    // checkForRepeatedNssaisOnUpdate: a repetition is reported unless the stored list of the
    // same kind holds the triple.
    method CheckForRepeatedNssaiOnUpdate(n: NssaiDetails, kind: string, nssaiList: seq<NssaiKey>,
                                         stored: map<(string, string), seq<NssaiTriple>>, plmn: string, path: string)
      returns (nssaiList': seq<NssaiKey>, ret: bool)
      requires forall k :: k in nssaiList ==> ToLower(k.sd) == k.sd
      modifies this`errors
      ensures var flagged := KeyOf(n) in nssaiList && NssaiTriple(KeyOf(n), n.dnnListId) !in Lookup(stored, plmn, kind);
              errors == old(errors) + (if flagged then [NssaiError(path)] else []) && (ret <==> !flagged)
      ensures forall k :: k in nssaiList' <==> k in nssaiList || k == KeyOf(n)
    {
      var theNssai := NssaiKey(n.nssai.sst, ToLower(n.nssai.sd));
      ret := true;
      nssaiList' := nssaiList;
      if exists k :: k in nssaiList && theNssai.sst == k.sst && theNssai.sd == ToLower(k.sd) {
        var duplicatedInRelResource := Lookup(stored, plmn, kind);
        if NssaiTriple(theNssai, n.dnnListId) !in duplicatedInRelResource {
          ret := false;
          AddError(ConstraintViolation, path, RepeatedNssai);
        }
      } else {
        nssaiList' := nssaiList' + [theNssai];
      }
    }

    method CheckNssaisOnUpdate(s: PlmnIdSet, stored: map<(string, string), seq<NssaiTriple>>, path: string) returns (ret: bool)
      modifies this`errors
      ensures errors == old(errors) + NssaiUpdateErrors(SetUses(s), stored, s.plmnIdSetIdentifier, NssaiError(path))
      ensures ret <==> NssaiUpdateErrors(SetUses(s), stored, s.plmnIdSetIdentifier, NssaiError(path)) == []
    {
      hide NssaiUpdateErrors, Lookup;
      var d, g := s.nssai.defaultSingleNssais, s.nssai.singleNssais;
      var plmn := s.plmnIdSetIdentifier;
      ghost var e := NssaiError(path);
      var nssaiList: seq<NssaiKey> := [];
      ret := true;
      ghost var e0 := errors;
      ghost var us: seq<NssaiUse> := [];
      NssaiUpdateErrorsOfNone(stored, plmn, e);
      for i := 0 to |d|
        invariant us == Uses(DEFAULT_KEY, d[..i])
        invariant errors == e0 + NssaiUpdateErrors(us, stored, plmn, e)
        invariant ret <==> NssaiUpdateErrors(us, stored, plmn, e) == []
        invariant forall k :: k in nssaiList <==> KeyUsed(us, k)
      {
        ghost var u := NssaiUse(DEFAULT_KEY, NssaiTriple(KeyOf(d[i]), d[i].dnnListId));
        assert Uses(DEFAULT_KEY, d[..i + 1]) == us + [u];
        NssaiUpdateErrorsSnoc(us, u, stored, plmn, e);
        UsedKeysAreLower(d[..i], [], us);
        var ok;
        nssaiList, ok := CheckForRepeatedNssaiOnUpdate(d[i], DEFAULT_KEY, nssaiList, stored, plmn, path);
        ret := ret && ok;
        us := us + [u];
      }
      assert d[..|d|] == d;
      for i := 0 to |g|
        invariant us == Uses(DEFAULT_KEY, d) + Uses(SINGLE_KEY, g[..i])
        invariant errors == e0 + NssaiUpdateErrors(us, stored, plmn, e)
        invariant ret <==> NssaiUpdateErrors(us, stored, plmn, e) == []
        invariant forall k :: k in nssaiList <==> KeyUsed(us, k)
      {
        ghost var u := NssaiUse(SINGLE_KEY, NssaiTriple(KeyOf(g[i]), g[i].dnnListId));
        assert Uses(SINGLE_KEY, g[..i + 1]) == Uses(SINGLE_KEY, g[..i]) + [u];
        NssaiUpdateErrorsSnoc(us, u, stored, plmn, e);
        UsedKeysAreLower(d, g[..i], us);
        var ok;
        nssaiList, ok := CheckForRepeatedNssaiOnUpdate(g[i], SINGLE_KEY, nssaiList, stored, plmn, path);
        ret := ret && ok;
        us := us + [u];
      }
      assert g[..|g|] == g;
    }

    method CheckDnnsOnUpdate(l: DnnList, stored: seq<string>, path: string) returns (ret: bool)
      modifies this`errors
      ensures errors == old(errors) + DnnUpdateErrors(LowerDnns(l.dnnDataList), stored, DnnError(path))
      ensures ret <==> DnnUpdateErrors(LowerDnns(l.dnnDataList), stored, DnnError(path)) == []
    {
      hide DnnUpdateErrors, FlatMap, ToLower;
      var ds := l.dnnDataList;
      ghost var e := DnnError(path);
      var dnnUpdated: seq<string> := [];
      ret := true;
      ghost var e0 := errors;
      DnnUpdateErrorsOfNone(stored, e);
      FlatMapNone(LowerDnnOf(), ds);
      for i := 0 to |ds|
        invariant dnnUpdated == LowerDnns(ds[..i])
        invariant errors == e0 + DnnUpdateErrors(dnnUpdated, stored, e)
        invariant ret <==> DnnUpdateErrors(dnnUpdated, stored, e) == []
      {
        FlatMapSnoc(LowerDnnOf(), ds, i);
        if ds[i].dnn != "" {
          var lowDnn := ToLower(ds[i].dnn);
          DnnUpdateErrorsSnoc(dnnUpdated, lowDnn, stored, e);
          var isRepeated := multiset(dnnUpdated)[lowDnn];
          if isRepeated >= 1 {
            var countRep := multiset(stored)[lowDnn];
            if !(countRep > isRepeated) {
              ret := false;
              AddError(ConstraintViolation, path, RepeatedDnn);
            }
          }
          dnnUpdated := dnnUpdated + [lowDnn];
        }
      }
      FlatMapFull(LowerDnnOf(), ds);
    }

    method CheckSetOnUpdate(s: PlmnIdSet, dnns: map<(string, string), seq<string>>,
                            nssais: map<(string, string), seq<NssaiTriple>>, path: string,
                            dnnListIdsOnChange: seq<Entry<string>>, ghost keys: seq<Entry<string>>)
      returns (onChange: seq<Entry<string>>, ret: bool)
      requires dnnListIdsOnChange == FromEntries(keys)
      modifies this`errors
      ensures errors == old(errors) + SetUpdateErrors(s, dnns, nssais, path)
      ensures ret <==> SetUpdateErrors(s, dnns, nssais, path) == []
      ensures onChange == FromEntries(keys + SetKeysOf()(s))
    {
      hide NssaiUpdateErrors, DnnUpdateErrors, FromEntries, Lookup, Insert;
      var plmn, ls := s.plmnIdSetIdentifier, s.dnnLists;
      ghost var e0 := errors;
      ret := CheckNssaisOnUpdate(s, nssais, path);
      onChange := dnnListIdsOnChange;
      ghost var f := ListUpdateErrorsOf(plmn, dnns, path);
      ghost var e1 := errors;
      ghost var r1 := ret;
      assert keys + [] == keys;
      for j := 0 to |ls|
        invariant errors == e1 + FlatMap(f, ls[..j])
        invariant ret <==> r1 && FlatMap(f, ls[..j]) == []
        invariant onChange == FromEntries(keys + FlatMap(ListKeyOf(plmn), ls[..j]))
      {
        FlatMapSnoc(f, ls, j);
        FlatMapSnoc(ListKeyOf(plmn), ls, j);
        Regroup2(e1, FlatMap(f, ls[..j]), f(ls[j]));
        ghost var before := keys + FlatMap(ListKeyOf(plmn), ls[..j]);
        assert keys + FlatMap(ListKeyOf(plmn), ls[..j + 1]) == before + [Entry(plmn, ls[j].dnnListId)];
        FromEntriesSnoc(before, Entry(plmn, ls[j].dnnListId));
        onChange := Insert(onChange, Entry(plmn, ls[j].dnnListId));
        var ok := CheckDnnsOnUpdate(ls[j], Lookup(dnns, plmn, ls[j].dnnListId), path);
        ret := ret && ok;
      }
      FlatMapFull(f, ls);
      FlatMapFull(ListKeyOf(plmn), ls);
      Regroup2(e0, NssaiUpdateErrors(SetUses(s), nssais, plmn, NssaiError(path)), FlatMap(f, ls));
    }

    // The scan of lines 1309-1315, which runs on past the range of its key.
    method ScanForDeleted(onChange: seq<Entry<string>>, k: Entry<string>) returns (dnnListIdDefined: bool)
      ensures dnnListIdDefined <==> ScanFinds(onChange, k)
    {
      dnnListIdDefined := false;
      var start := Find(onChange, k.key);
      var it := start;
      while it < |onChange|
        invariant start <= it <= |onChange|
        invariant forall j :: start <= j < it ==> onChange[j].value != k.value
      {
        if onChange[it].value == k.value {
          dnnListIdDefined := true;
          return;
        }
        it := it + 1;
      }
    }

    method CheckSetForDeletedLists(onChange: seq<Entry<string>>, plmn: string, ls: seq<DnnList>, path: string) returns (ret: bool)
      modifies this`errors
      ensures errors == old(errors) + FlatMap(DeletionErrorsOf(onChange, path), FlatMap(ListKeyOf(plmn), ls))
      ensures ret <==> FlatMap(DeletionErrorsOf(onChange, path), FlatMap(ListKeyOf(plmn), ls)) == []
    {
      hide ScanFinds;
      ret := true;
      ghost var f := DeletionErrorsOf(onChange, path);
      ghost var keys: seq<Entry<string>> := [];
      ghost var e0 := errors;
      for j := 0 to |ls|
        invariant keys == FlatMap(ListKeyOf(plmn), ls[..j])
        invariant errors == e0 + FlatMap(f, keys)
        invariant ret <==> FlatMap(f, keys) == []
      {
        var k := Entry(plmn, ls[j].dnnListId);
        FlatMapSnoc(ListKeyOf(plmn), ls, j);
        FlatMapPush(f, keys, k);
        Regroup2(e0, FlatMap(f, keys), f(k));
        var dnnListIdDefined := ScanForDeleted(onChange, k);
        if !dnnListIdDefined {
          ret := false;
          AddError(ConstraintViolation, path, DeletedDnnList(ls[j].dnnListId, plmn));
        }
        keys := keys + [k];
      }
      FlatMapFull(ListKeyOf(plmn), ls);
    }

    method CheckForDeletedLists(onChange: seq<Entry<string>>, stored: seq<PlmnIdSet>, path: string) returns (ret: bool)
      modifies this`errors
      ensures errors == old(errors) + FlatMap(DeletionErrorsOf(onChange, path), ListKeys(stored))
      ensures ret <==> FlatMap(DeletionErrorsOf(onChange, path), ListKeys(stored)) == []
    {
      hide ScanFinds, DeletionErrorsOf;
      ret := true;
      ghost var f := DeletionErrorsOf(onChange, path);
      ghost var e0 := errors;
      for i := 0 to |stored|
        invariant errors == e0 + FlatMap(f, ListKeys(stored[..i]))
        invariant ret <==> FlatMap(f, ListKeys(stored[..i])) == []
      {
        ghost var before, here := ListKeys(stored[..i]), FlatMap(ListKeyOf(stored[i].plmnIdSetIdentifier), stored[i].dnnLists);
        FlatMapSnoc(SetKeysOf(), stored, i);
        FlatMapAppend(f, before, here);
        Regroup2(e0, FlatMap(f, before), FlatMap(f, here));
        var ok := CheckSetForDeletedLists(onChange, stored[i].plmnIdSetIdentifier, stored[i].dnnLists, path);
        ret := ret && ok;
      }
      assert stored[..|stored|] == stored;
    }

    method GetAllDnnsUdmSliceProfile(stored: seq<PlmnIdSet>) returns (theMap: map<(string, string), seq<string>>)
      ensures theMap == StoredDnns(stored)
    {
      hide FirstOf, PutFirst;
      theMap := map[];
      ghost var es: seq<Keyed<string>> := [];
      FirstOfNone<string>();
      for i := 0 to |stored|
        invariant es == FlatMap(StoredSetOf(), stored[..i])
        invariant theMap == FirstOf(es)
      {
        var plmn, ls := stored[i].plmnIdSetIdentifier, stored[i].dnnLists;
        FlatMapSnoc(StoredSetOf(), stored, i);
        for j := 0 to |ls|
          invariant es == FlatMap(StoredSetOf(), stored[..i]) + FlatMap(StoredListsOf(plmn), ls[..j])
          invariant theMap == FirstOf(es)
        {
          FlatMapSnoc(StoredListsOf(plmn), ls, j);
          var dnns: seq<string> := [];
          var ds := ls[j].dnnDataList;
          for h := 0 to |ds|
            invariant dnns == LowerDnns(ds[..h])
          {
            FlatMapSnoc(LowerDnnOf(), ds, h);
            if ds[h].dnn != "" {
              dnns := dnns + [ToLower(ds[h].dnn)];
            }
          }
          FlatMapFull(LowerDnnOf(), ds);
          var e := Keyed(plmn, ls[j].dnnListId, dnns);
          FirstOfSnoc(es, e);
          theMap := PutFirst(theMap, e);
          es := es + [e];
        }
        FlatMapFull(StoredListsOf(plmn), ls);
      }
      assert stored[..|stored|] == stored;
    }

    method GetNssais(ns: seq<NssaiDetails>) returns (nssais: seq<NssaiTriple>)
      ensures nssais == Triples(ns)
    {
      nssais := [];
      for i := 0 to |ns|
        invariant nssais == Triples(ns[..i])
      {
        nssais := nssais + [NssaiTriple(NssaiKey(ns[i].nssai.sst, ToLower(ns[i].nssai.sd)), ns[i].dnnListId)];
      }
      assert ns[..|ns|] == ns;
    }

    method GetAllNssaisUdmSliceProfile(stored: seq<PlmnIdSet>) returns (theMap: map<(string, string), seq<NssaiTriple>>)
      ensures theMap == StoredNssais(stored)
    {
      hide FirstOf, PutFirst;
      theMap := map[];
      ghost var es: seq<Keyed<NssaiTriple>> := [];
      FirstOfNone<NssaiTriple>();
      for i := 0 to |stored|
        invariant es == FlatMap(StoredNssaisOf(), stored[..i])
        invariant theMap == FirstOf(es)
      {
        var s := stored[i];
        FlatMapSnoc(StoredNssaisOf(), stored, i);
        var nssais := GetNssais(s.nssai.defaultSingleNssais);
        var e1 := Keyed(s.plmnIdSetIdentifier, DEFAULT_KEY, nssais);
        FirstOfSnoc(es, e1);
        theMap := PutFirst(theMap, e1);
        nssais := GetNssais(s.nssai.singleNssais);
        var e2 := Keyed(s.plmnIdSetIdentifier, SINGLE_KEY, nssais);
        FirstOfSnoc(es + [e1], e2);
        theMap := PutFirst(theMap, e2);
        assert StoredNssaisOf()(s) == [e1] + [e2];
        assert es + [e1] + [e2] == es + ([e1] + [e2]);
        es := es + [e1] + [e2];
      }
      assert stored[..|stored|] == stored;
    }

    method CheckForUpdateSpecificUdmSliceProfileRules(sets: seq<PlmnIdSet>, stored: seq<PlmnIdSet>, path: string) returns (ret: bool)
      modifies this`errors
      ensures errors == old(errors) + UpdateErrors(sets, stored, path)
      ensures ret <==> UpdateErrors(sets, stored, path) == []
    {
      hide SetUpdateErrors, FromEntries, StoredDnns, StoredNssais;
      ret := true;
      var dnnsRelResource := GetAllDnnsUdmSliceProfile(stored);
      var nssaiRelResource := GetAllNssaisUdmSliceProfile(stored);
      var dnnListIdsOnChange: seq<Entry<string>> := [];
      ghost var f := SetUpdateErrorsOf(dnnsRelResource, nssaiRelResource, path);
      ghost var e0 := errors;
      FromEntriesNone<string>();
      for i := 0 to |sets|
        invariant errors == e0 + FlatMap(f, sets[..i])
        invariant ret <==> FlatMap(f, sets[..i]) == []
        invariant dnnListIdsOnChange == FromEntries(ListKeys(sets[..i]))
      {
        FlatMapSnoc(f, sets, i);
        FlatMapSnoc(SetKeysOf(), sets, i);
        Regroup2(e0, FlatMap(f, sets[..i]), f(sets[i]));
        var ok;
        dnnListIdsOnChange, ok := CheckSetOnUpdate(sets[i], dnnsRelResource, nssaiRelResource, path,
                                                   dnnListIdsOnChange, ListKeys(sets[..i]));
        ret := ret && ok;
      }
      FlatMapFull(f, sets);
      assert sets[..|sets|] == sets;
      var kept := CheckForDeletedLists(dnnListIdsOnChange, stored, path);
      ret := ret && kept;
      Regroup2(e0, RepeatedOnUpdate(sets, stored, path), DeletionErrors(sets, stored, path));
    }

    // ---- checkForCommonUdmSubscriptionRules ----

    method CheckScalars(faults: seq<Description>, path: string) returns (ret: bool)
      modifies this`errors
      ensures errors == old(errors) + ScalarErrors(faults, path)
      ensures ret <==> ScalarErrors(faults, path) == []
    {
      ret := true;
      for i := 0 to |faults|
        invariant errors == old(errors) + ScalarErrors(faults[..i], path)
        invariant ret <==> i == 0
      {
        ret := false;
        AddError(ConstraintViolation, path, faults[i]);
      }
      assert faults[..|faults|] == faults;
    }

    method InsertReferences(plmn: string, ns: seq<NssaiDetails>, m: seq<Entry<string>>, ghost keys: seq<Entry<string>>)
      returns (m': seq<Entry<string>>)
      requires m == FromEntries(keys)
      ensures m' == FromEntries(keys + References(plmn, ns))
    {
      hide FromEntries, Insert;
      m' := m;
      ghost var now := keys;
      assert keys + [] == keys;
      for i := 0 to |ns|
        invariant now == keys + References(plmn, ns[..i])
        invariant m' == FromEntries(now)
      {
        FlatMapSnoc(ReferenceOf(plmn), ns, i);
        if ns[i].dnnListId != "" {
          FromEntriesSnoc(now, Entry(plmn, ns[i].dnnListId));
          m' := Insert(m', Entry(plmn, ns[i].dnnListId));
          now := now + [Entry(plmn, ns[i].dnnListId)];
        }
      }
      FlatMapFull(ReferenceOf(plmn), ns);
    }

    method InsertDefinitions(plmn: string, ls: seq<DnnList>, m: seq<Entry<string>>, ghost keys: seq<Entry<string>>)
      returns (m': seq<Entry<string>>)
      requires m == FromEntries(keys)
      ensures m' == FromEntries(keys + FlatMap(DefinitionOf(plmn), ls))
    {
      hide FromEntries, Insert;
      m' := m;
      ghost var now := keys;
      assert keys + [] == keys;
      for i := 0 to |ls|
        invariant now == keys + FlatMap(DefinitionOf(plmn), ls[..i])
        invariant m' == FromEntries(now)
      {
        FlatMapSnoc(DefinitionOf(plmn), ls, i);
        if ls[i].dnnListId != "" {
          FromEntriesSnoc(now, Entry(plmn, ls[i].dnnListId));
          m' := Insert(m', Entry(plmn, ls[i].dnnListId));
          now := now + [Entry(plmn, ls[i].dnnListId)];
        }
      }
      FlatMapFull(DefinitionOf(plmn), ls);
    }

    method CollectSliceData(sets: seq<PlmnIdSet>) returns (referenced: seq<Entry<string>>, defined: seq<Entry<string>>)
      ensures referenced == FromEntries(ReferenceKeys(sets))
      ensures defined == FromEntries(DefinitionKeys(sets))
    {
      hide FromEntries, FlatMap, References;
      referenced, defined := [], [];
      FromEntriesNone<string>();
      FlatMapNone(SetReferencesOf(), sets);
      FlatMapNone(SetDefinitionsOf(), sets);
      for i := 0 to |sets|
        invariant referenced == FromEntries(ReferenceKeys(sets[..i]))
        invariant defined == FromEntries(DefinitionKeys(sets[..i]))
      {
        var plmn, nssai := sets[i].plmnIdSetIdentifier, sets[i].nssai;
        FlatMapSnoc(SetReferencesOf(), sets, i);
        FlatMapSnoc(SetDefinitionsOf(), sets, i);
        ghost var before := ReferenceKeys(sets[..i]);
        ghost var d, g := References(plmn, nssai.defaultSingleNssais), References(plmn, nssai.singleNssais);
        assert before + d + g == before + (d + g);
        referenced := InsertReferences(plmn, nssai.defaultSingleNssais, referenced, before);
        referenced := InsertReferences(plmn, nssai.singleNssais, referenced, before + d);
        defined := InsertDefinitions(plmn, sets[i].dnnLists, defined, DefinitionKeys(sets[..i]));
      }
      assert sets[..|sets|] == sets;
    }

    method CollectProfileLists(sets: seq<PlmnIdSet>) returns (associated: seq<Entry<string>>)
      ensures associated == FromEntries(ListKeys(sets))
    {
      hide FromEntries, Insert;
      associated := [];
      ghost var keys: seq<Entry<string>> := [];
      FromEntriesNone<string>();
      for i := 0 to |sets|
        invariant keys == ListKeys(sets[..i])
        invariant associated == FromEntries(keys)
      {
        var plmn, ls := sets[i].plmnIdSetIdentifier, sets[i].dnnLists;
        FlatMapSnoc(SetKeysOf(), sets, i);
        for j := 0 to |ls|
          invariant keys == ListKeys(sets[..i]) + FlatMap(ListKeyOf(plmn), ls[..j])
          invariant associated == FromEntries(keys)
        {
          FlatMapSnoc(ListKeyOf(plmn), ls, j);
          FromEntriesSnoc(keys, Entry(plmn, ls[j].dnnListId));
          associated := Insert(associated, Entry(plmn, ls[j].dnnListId));
          keys := keys + [Entry(plmn, ls[j].dnnListId)];
        }
        FlatMapFull(ListKeyOf(plmn), ls);
      }
      assert sets[..|sets|] == sets;
    }

    // One search over the range of a key, from find to the first other key.
    method SearchRange(m: seq<Entry<string>>, k: Entry<string>) returns (found: bool)
      ensures found <==> RangeHas(m, Find(m, k.key), k.key, k.value)
    {
      found := false;
      var it := Find(m, k.key);
      while it < |m| && m[it].key == k.key && !found
        invariant it <= |m|
        invariant RangeHas(m, Find(m, k.key), k.key, k.value) <==> found || RangeHas(m, it, k.key, k.value)
        decreases |m| - it
      {
        if m[it].value == k.value {
          found := true;
        }
        it := it + 1;
      }
    }

    method CheckSliceDataReferences(sets: seq<PlmnIdSet>, profile: UdmSliceProfile, path: string) returns (ret: bool)
      modifies this`errors
      ensures errors == old(errors) + ReferenceSearchErrors(sets, profile, path)
      ensures ret <==> ReferenceSearchErrors(sets, profile, path) == []
    {
      hide FromEntries, RangeHas;
      ret := true;
      var referenced, defined := CollectSliceData(sets);
      var associated := CollectProfileLists(profile.plmnIdSets);
      ghost var f := SearchErrorsOf(defined, associated, profile.udmSliceProfileId, path);
      ghost var e0 := errors;
      for i := 0 to |referenced|
        invariant errors == e0 + FlatMap(f, referenced[..i])
        invariant ret <==> FlatMap(f, referenced[..i]) == []
      {
        FlatMapSnoc(f, referenced, i);
        Regroup2(e0, FlatMap(f, referenced[..i]), f(referenced[i]));
        var nssaiDefined := SearchRange(defined, referenced[i]);
        if !nssaiDefined {
          nssaiDefined := SearchRange(associated, referenced[i]);
        }
        if !nssaiDefined {
          ret := false;
          AddError(ConstraintViolation, path, UnknownDnnList(referenced[i].value, referenced[i].key, profile.udmSliceProfileId));
        }
      }
      FlatMapFull(f, referenced);
    }

    method CheckSliceData(sets: seq<PlmnIdSet>, profile: UdmSliceProfile, path: string) returns (ret: bool)
      modifies this`errors
      ensures errors == old(errors) + SliceDataErrors(sets, profile, path)
      ensures ret <==> SliceDataErrors(sets, profile, path) == []
    {
      hide CommonErrors, CreateErrors, ReferenceSearchErrors;
      ghost var e0 := errors;
      ret := true;
      if |sets| > 0 {
        ret := CheckForCommonUdmSliceProfileRules(sets, false, path);
      }
      ghost var common := if sets == [] then [] else CommonErrors(sets, false, path);
      assert errors == e0 + common && (ret <==> common == []);
      var ok := CheckForRepeatedDnnsAndNssais(sets, path);
      ret := ret && ok;
      ok := CheckSliceDataReferences(sets, profile, path);
      ret := ret && ok;
      Regroup3(e0, common, CreateErrors(sets, path), ReferenceSearchErrors(sets, profile, path));
    }

    method CheckForCommonUdmSubscriptionRules(c: Change, profile: UdmSliceProfile) returns (ret: bool)
      modifies this`errors
      ensures errors == old(errors) + SubscriptionErrors(c, profile)
      ensures ret <==> SubscriptionErrors(c, profile) == []
    {
      hide SliceDataErrors, ScalarErrors;
      ghost var e0 := errors;
      ret := CheckScalars(c.udmStaticData.scalarFaults, c.resourcePath);
      if c.udmStaticData.hasUdmSliceData {
        var ok := CheckSliceData(c.udmStaticData.sliceDataPlmnIdSets, profile, c.resourcePath);
        ret := ret && ok;
        Regroup2(e0, ScalarErrors(c.udmStaticData.scalarFaults, c.resourcePath),
                 SliceDataErrors(c.udmStaticData.sliceDataPlmnIdSets, profile, c.resourcePath));
      }
    }

    // ---- the rules of each kind of change ----

    method GetRelatedUdmSliceProfile(profId: string) returns (r: ProfileSearch)
      ensures r == RelatedProfile(relatedResources, profId)
    {
      for i := 0 to |relatedResources|
        invariant RelatedProfile(relatedResources, profId) == RelatedProfile(relatedResources[i..], profId)
      {
        var e := relatedResources[i];
        if IsUdmSliceProfile(e.key) {
          if !e.value.SliceProfileResource? {
            return BadGet;
          }
          if e.value.profile.udmSliceProfileId == profId {
            return Found(e.value.profile);
          }
        }
      }
      return NotFound;
    }

    function Verdict(ret: bool): ValidationResponse {
      if ret then OK else CONFLICT
    }

    // checkRelatedUdmSliceProfile and the common rules, as both subscription methods end.
    method CheckProfileAndCommonRules(c: Change, ret: bool, ghost before: seq<Error>) returns (r: Option<ValidationResponse>)
      requires ret <==> before == []
      modifies this`errors
      ensures var checked := CheckWithProfile(before, c, relatedResources);
              old(errors) <= errors && before + errors[|old(errors)|..] == checked.errors && r == checked.resp
    {
      hide SubscriptionErrors;
      var search := GetRelatedUdmSliceProfile(c.udmStaticData.udmSliceProfileId);
      match search
      case BadGet =>
        return None;
      case NotFound =>
        AddError(UnprocessableEntity, c.resourcePath, NoSliceProfile(c.udmStaticData.udmSliceProfileId, GetMscId(c.resourcePath)));
        return Some(UNPROCESSABLE);
      case Found(profile) =>
        var ok := CheckForCommonUdmSubscriptionRules(c, profile);
        return Some(Verdict(ret && ok));
    }

    method CheckForCreationUdmSubscriptionRules(c: Change) returns (r: Option<ValidationResponse>)
      modifies this`errors
      ensures errors == old(errors) + CheckCreateSubscription(c, relatedResources).errors
      ensures r == CheckCreateSubscription(c, relatedResources).resp
    {
      hide CheckWithProfile;
      var ret := true;
      var mscId := GetMscId(c.resourcePath);
      var pathToFind := ProvJournalPath(mscId);
      ghost var e0 := errors;
      if Has(relatedResources, pathToFind) {
        var journal := At(relatedResources, pathToFind);
        if !journal.ProvJournalResource? {
          return None;
        }
        if journal.imsi == "" {
          ret := false;
          AddError(ConstraintViolation, c.resourcePath, NoImsi(mscId));
        }
        ghost var imsi := ImsiErrors(journal.imsi, c.resourcePath, mscId);
        ghost var e1 := errors;
        assert e1 == e0 + imsi;
        r := CheckProfileAndCommonRules(c, ret, imsi);
        assert errors == e1 + errors[|e1|..];
        Regroup2(e0, imsi, errors[|e1|..]);
      } else {
        AddError(UnprocessableEntity, c.resourcePath, NoProvJournal(mscId, pathToFind));
        return Some(UNPROCESSABLE);
      }
    }

    method CheckForUpdateUdmSubscriptionRules(c: Change) returns (r: Option<ValidationResponse>)
      modifies this`errors
      ensures errors == old(errors) + CheckUpdateSubscription(c, relatedResources).errors
      ensures r == CheckUpdateSubscription(c, relatedResources).resp
    {
      hide CheckWithProfile;
      if !Has(relatedResources, c.resourcePath) {
        AddError(UnprocessableEntity, c.resourcePath, NoRelatedResource(c.resourcePath));
        return Some(UNPROCESSABLE);
      }
      ghost var e0 := errors;
      r := CheckProfileAndCommonRules(c, true, []);
      assert errors == e0 + errors[|e0|..];
      assert [] + errors[|e0|..] == errors[|e0|..];
    }

    method CheckProfileFormat(c: Change) returns (ret: bool)
      modifies this`errors
      ensures errors == old(errors) + ProfileFormatErrors(c)
      ensures ret <==> ProfileFormatErrors(c) == []
    {
      hide CommonErrors;
      ret := true;
      if |c.udmSliceProfile.plmnIdSets| > 0 {
        ret := CheckForCommonUdmSliceProfileRules(c.udmSliceProfile.plmnIdSets, true, c.resourcePath);
      }
    }

    method CheckForCreationUdmSliceProfileRules(c: Change) returns (r: Option<ValidationResponse>)
      modifies this`errors
      ensures errors == old(errors) + CheckCreateProfile(c).errors
      ensures r == CheckCreateProfile(c).resp
    {
      hide CommonErrors, CreateErrors;
      ghost var e0 := errors;
      var ret := CheckProfileFormat(c);
      var ok := CheckForRepeatedDnnsAndNssais(c.udmSliceProfile.plmnIdSets, c.resourcePath);
      Regroup2(e0, ProfileFormatErrors(c), CreateErrors(c.udmSliceProfile.plmnIdSets, c.resourcePath));
      return Some(Verdict(ret && ok));
    }

    method CheckForUpdateUdmSliceProfileRules(c: Change) returns (r: Option<ValidationResponse>)
      modifies this`errors
      ensures errors == old(errors) + CheckUpdateProfile(c, relatedResources).errors
      ensures r == CheckUpdateProfile(c, relatedResources).resp
    {
      hide ProfileFormatErrors, UpdateErrors;
      if !Has(relatedResources, c.resourcePath) {
        AddError(UnprocessableEntity, c.resourcePath, NoRelatedResource(c.resourcePath));
        return Some(UNPROCESSABLE);
      }
      ghost var e0 := errors;
      var ret := CheckProfileFormat(c);
      var stored := At(relatedResources, c.resourcePath);
      if !stored.SliceProfileResource? {
        return None;
      }
      var ok := CheckForUpdateSpecificUdmSliceProfileRules(c.udmSliceProfile.plmnIdSets, stored.profile.plmnIdSets, c.resourcePath);
      Regroup2(e0, ProfileFormatErrors(c), UpdateErrors(c.udmSliceProfile.plmnIdSets, stored.profile.plmnIdSets, c.resourcePath));
      return Some(Verdict(ret && ok));
    }

    method CheckTacs(tacs: seq<string>, path: string) returns (ret: bool)
      modifies this`errors
      ensures errors == old(errors) + (Check(|tacs| >= 1, path, EmptyTacs) + FlatMap(TacErrorsOf(path), tacs))
      ensures ret <==> Check(|tacs| >= 1, path, EmptyTacs) + FlatMap(TacErrorsOf(path), tacs) == []
    {
      hide Check, IsTac;
      ghost var f := TacErrorsOf(path);
      ghost var start := Check(|tacs| >= 1, path, EmptyTacs);
      ghost var e0 := errors;
      ret := Require(|tacs| >= 1, path, EmptyTacs);
      for i := 0 to |tacs|
        invariant errors == e0 + start + FlatMap(f, tacs[..i])
        invariant ret <==> start == [] && FlatMap(f, tacs[..i]) == []
      {
        FlatMapSnoc(f, tacs, i);
        Regroup2(e0 + start, FlatMap(f, tacs[..i]), f(tacs[i]));
        var ok := Require(IsTac(tacs[i]), path, InvalidTac);
        ret := ret && ok;
      }
      FlatMapFull(f, tacs);
      Regroup2(e0, start, FlatMap(f, tacs));
    }

    method CheckForCommonUdmRoamingAreaRules(c: Change) returns (ret: bool)
      modifies this`errors
      ensures errors == old(errors) + RoamingAreaErrors(c.udmRoamingArea, c.resourcePath)
      ensures ret <==> RoamingAreaErrors(c.udmRoamingArea, c.resourcePath) == []
    {
      hide Check, TacErrorsOf;
      var areas, path := c.udmRoamingArea.areaList, c.resourcePath;
      ghost var f := AreaErrorsOf(path);
      ghost var start := Check(|areas| >= 1, path, EmptyAreaList);
      ghost var e0 := errors;
      ret := Require(|areas| >= 1, path, EmptyAreaList);
      for i := 0 to |areas|
        invariant errors == e0 + start + FlatMap(f, areas[..i])
        invariant ret <==> start == [] && FlatMap(f, areas[..i]) == []
      {
        FlatMapSnoc(f, areas, i);
        Regroup2(e0 + start, FlatMap(f, areas[..i]), f(areas[i]));
        if areas[i].area.Tacs? {
          var ok := CheckTacs(areas[i].area.tacs, path);
          ret := ret && ok;
        }
      }
      FlatMapFull(f, areas);
      Regroup2(e0, start, FlatMap(f, areas));
    }

    method CheckForCreationUdmRoamingAreaRules(c: Change) returns (r: Option<ValidationResponse>)
      modifies this`errors
      ensures errors == old(errors) + CheckCreateRoamingArea(c).errors
      ensures r == CheckCreateRoamingArea(c).resp
    {
      hide RoamingAreaErrors;
      var ret := CheckForCommonUdmRoamingAreaRules(c);
      return Some(Verdict(ret));
    }

    method CheckForUpdateUdmRoamingAreaRules(c: Change) returns (r: Option<ValidationResponse>)
      modifies this`errors
      ensures errors == old(errors) + CheckUpdateRoamingArea(c, relatedResources).errors
      ensures r == CheckUpdateRoamingArea(c, relatedResources).resp
    {
      hide CheckCreateRoamingArea;
      if !Has(relatedResources, c.resourcePath) {
        AddError(UnprocessableEntity, c.resourcePath, NoRelatedResource(c.resourcePath));
        return Some(UNPROCESSABLE);
      }
      r := CheckForCreationUdmRoamingAreaRules(c);
    }

    // ---- computeMutations ----

    method FillIn(nssai: seq<NssaiDetails>) returns (r: seq<NssaiDetails>)
      ensures r == IncludeNssai(nssai)
    {
      r := nssai;
      for i := 0 to |nssai|
        invariant |r| == |nssai|
        invariant forall j :: 0 <= j < i ==> r[j] == FillDnnListId(nssai[j])
        invariant forall j :: i <= j < |nssai| ==> r[j] == nssai[j]
      {
        if r[i].dnnListId == "" {
          r := r[i := r[i].(dnnListId := DEFAULT_VALUE)];
        }
      }
    }

    method FillInSets(sets: seq<PlmnIdSet>) returns (r: seq<PlmnIdSet>)
      ensures r == MutateSets(sets)
    {
      r := sets;
      for i := 0 to |sets|
        invariant |r| == |sets|
        invariant forall j :: 0 <= j < i ==> r[j] == MutateSet(sets[j])
        invariant forall j :: i <= j < |sets| ==> r[j] == sets[j]
      {
        var filled := FillIn(r[i].nssai.defaultSingleNssais);
        r := r[i := r[i].(nssai := r[i].nssai.(defaultSingleNssais := filled))];
        if r[i].hasNssai {
          filled := FillIn(r[i].nssai.singleNssais);
          r := r[i := r[i].(nssai := r[i].nssai.(singleNssais := filled))];
        }
      }
    }

    method ComputeMutations(c: Change) returns (r: Change)
      ensures r == Mutate(c)
    {
      hide Contains, MutateSets;
      r := c;
      if Contains(r.resourcePath, UDM_SLICE_PROFILES) && (r.operation == CREATE || r.operation == UPDATE) {
        var sets := FillInSets(r.udmSliceProfile.plmnIdSets);
        r := r.(udmSliceProfile := r.udmSliceProfile.(plmnIdSets := sets));
      }
      if Contains(r.resourcePath, UDM_STATIC_DATA) {
        var sets := FillInSets(r.udmStaticData.sliceDataPlmnIdSets);
        r := r.(udmStaticData := r.udmStaticData.(sliceDataPlmnIdSets := sets));
      }
    }

    // ---- applyValidationRules ----

    method CheckOneChange(c: Change) returns (r: Option<ValidationResponse>)
      modifies this`errors
      ensures errors == old(errors) + CheckChange(c, relatedResources).errors
      ensures r == CheckChange(c, relatedResources).resp
    {
      hide CheckCreateSubscription, CheckUpdateSubscription, CheckCreateProfile, CheckUpdateProfile,
           CheckCreateRoamingArea, CheckUpdateRoamingArea, CheckSms, IsUdmStaticData, IsUdmSliceProfile, IsUdmRoamingArea,
           IsSmsSubscription;
      r := Some(OK);
      if IsUdmStaticData(c.resourcePath) && c.operation == CREATE {
        r := CheckForCreationUdmSubscriptionRules(c);
      } else if IsUdmStaticData(c.resourcePath) && c.operation == UPDATE {
        r := CheckForUpdateUdmSubscriptionRules(c);
      } else if IsUdmSliceProfile(c.resourcePath) && c.operation == CREATE {
        r := CheckForCreationUdmSliceProfileRules(c);
      } else if IsUdmSliceProfile(c.resourcePath) && c.operation == UPDATE {
        r := CheckForUpdateUdmSliceProfileRules(c);
      } else if IsUdmRoamingArea(c.resourcePath) && c.operation == CREATE {
        r := CheckForCreationUdmRoamingAreaRules(c);
      } else if IsUdmRoamingArea(c.resourcePath) && c.operation == UPDATE {
        r := CheckForUpdateUdmRoamingAreaRules(c);
      } else if IsSmsSubscription(c.resourcePath) {
        var smsValidator := new SmsValidationData(this, c);
        r := smsValidator.ApplyValidationRules();
      } else if c.operation != DELETE {
        AddError(UnprocessableEntity, c.resourcePath, NotValidated);
        r := Some(UNPROCESSABLE);
      }
    }

    // Runs all changes: the fields reach the state of the fold, and the answer is its verdict, or
    // none when an exception left the loop. Started with no errors, the answer is the verdict
    // that the errors in the field call for.
    method ApplyValidationRules() returns (r: Option<ValidationResponse>)
      modifies this`errors, this`responseChanges
      ensures var s := RunRules(changes, relatedResources);
              && errors == old(errors) + s.errors
              && responseChanges == old(responseChanges) + s.emitted
              && r == if s.thrown then None else Some(s.resp)
      ensures r.Some? && old(errors) == [] ==> r.value == VerdictOf(errors)
    {
      hide CheckChange, Mutate, VerdictOf;
      var ret, code := true, HTTP_OK;
      ghost var check, mutate := CheckOf(relatedResources), MutateOf();
      ghost var e0, c0 := errors, responseChanges;
      for i := 0 to |changes|
        invariant var s := Run(changes[..i], check, mutate);
                  && !s.thrown
                  && errors == e0 + s.errors
                  && responseChanges == c0 + s.emitted
                  && s.resp == ValidationResponse(ret, code)
      {
        ghost var s := Run(changes[..i], check, mutate);
        RunSnoc(changes, i, check, mutate);
        var c := changes[i];
        Regroup2(e0, s.errors, check(c).errors);
        var resp := CheckOneChange(c);
        if resp.None? {
          ThrownRunStays(changes, i + 1, check, mutate);
          return None;
        }
        ret := ret && resp.value.valid;
        code := if code < resp.value.code then resp.value.code else code;
        if ret {
          var responseChange := ComputeMutations(c);
          responseChanges := responseChanges + [responseChange];
          assert c0 + s.emitted + [mutate(c)] == c0 + (s.emitted + [mutate(c)]);
        }
      }
      assert changes[..|changes|] == changes;
      RunThrows(changes, check, mutate);
      RunIsFold(changes, relatedResources);
      assert [] + Run(changes, check, mutate).errors == Run(changes, check, mutate).errors;
      return Some(ValidationResponse(ret, code));
    }
  }

  // ---- src/entities/SmsValidationData.cpp and its rule classes ----

  method GetWorstResponseCode(responses: seq<ValidationResponse>) returns (r: ValidationResponse)
    ensures r == WorstOf(responses)
  {
    var successful, code := true, HTTP_OK;
    for i := 0 to |responses|
      invariant ValidationResponse(successful, code) == WorstOf(responses[..i])
    {
      assert responses[..i + 1][..i] == responses[..i];
      successful := successful && responses[i].valid;
      code := if code < responses[i].code then responses[i].code else code;
    }
    assert responses[..|responses|] == responses;
    return ValidationResponse(successful, code);
  }

  class CommonSmsValidationRules {
    const data: ValidationData
    const change: Change

    constructor (data: ValidationData, change: Change)
      ensures this.data == data && this.change == change
    {
      this.data := data;
      this.change := change;
    }

    // The value of an attribute that is false when absent.
    static function IsSet(b: Option<bool>): bool {
      b == Some(true)
    }

    method CheckSmsSubscribed() returns (ok: bool)
      modifies data`errors
      ensures var d := change.smsStaticData;
              var e := Check(d.mtSmsSubscribed == Some(true) || d.moSmsSubscribed == Some(true) ==> d.smsSubscribed == Some(true),
                             change.resourcePath, SmsSubscribedNeeded);
              data.errors == old(data.errors) + e && (ok <==> e == [])
    {
      var d := change.smsStaticData;
      ok := data.Require(!((IsSet(d.mtSmsSubscribed) || IsSet(d.moSmsSubscribed)) && !IsSet(d.smsSubscribed)),
                         change.resourcePath, SmsSubscribedNeeded);
    }

    method CheckMtSmsSubscribed() returns (ok: bool)
      modifies data`errors
      ensures var d := change.smsStaticData;
              var e := Check(d.mtSmsBarringAll == Some(true) || d.mtSmsBarringRoaming == Some(true) ==> d.mtSmsSubscribed == Some(true),
                             change.resourcePath, MtSmsSubscribedNeeded);
              data.errors == old(data.errors) + e && (ok <==> e == [])
    {
      var d := change.smsStaticData;
      ok := data.Require(!((IsSet(d.mtSmsBarringAll) || IsSet(d.mtSmsBarringRoaming)) && !IsSet(d.mtSmsSubscribed)),
                         change.resourcePath, MtSmsSubscribedNeeded);
    }

    method CheckMoSmsSubscribed() returns (ok: bool)
      modifies data`errors
      ensures var d := change.smsStaticData;
              var e := Check(d.moSmsBarringAll == Some(true) || d.moSmsBarringRoaming == Some(true) ==> d.moSmsSubscribed == Some(true),
                             change.resourcePath, MoSmsSubscribedNeeded);
              data.errors == old(data.errors) + e && (ok <==> e == [])
    {
      var d := change.smsStaticData;
      ok := data.Require(!((IsSet(d.moSmsBarringAll) || IsSet(d.moSmsBarringRoaming)) && !IsSet(d.moSmsSubscribed)),
                         change.resourcePath, MoSmsSubscribedNeeded);
    }

    method ApplyValidationRules() returns (r: ValidationResponse)
      modifies data`errors
      ensures data.errors == old(data.errors) + SmsErrors(change.smsStaticData, change.resourcePath)
      ensures Some(r) == Answer(SmsErrors(change.smsStaticData, change.resourcePath)).resp
    {
      hide Check;
      ghost var d, path, e0 := change.smsStaticData, change.resourcePath, data.errors;
      var sms := CheckSmsSubscribed();
      var mt := CheckMtSmsSubscribed();
      var mo := CheckMoSmsSubscribed();
      Regroup3(e0,
               Check(d.mtSmsSubscribed == Some(true) || d.moSmsSubscribed == Some(true) ==> d.smsSubscribed == Some(true),
                     path, SmsSubscribedNeeded),
               Check(d.mtSmsBarringAll == Some(true) || d.mtSmsBarringRoaming == Some(true) ==> d.mtSmsSubscribed == Some(true),
                     path, MtSmsSubscribedNeeded),
               Check(d.moSmsBarringAll == Some(true) || d.moSmsBarringRoaming == Some(true) ==> d.moSmsSubscribed == Some(true),
                     path, MoSmsSubscribedNeeded));
      return if sms && mt && mo then OK else CONFLICT;
    }
  }

  class UpdateSpecificSmsValidationRules {
    const data: ValidationData
    const change: Change

    constructor (data: ValidationData, change: Change)
      ensures this.data == data && this.change == change
    {
      this.data := data;
      this.change := change;
    }

    method ApplyValidationRules() returns (r: ValidationResponse)
      modifies data`errors
      ensures data.errors == old(data.errors) + CheckSmsUpdateSpecific(change, data.relatedResources).errors
      ensures Some(r) == CheckSmsUpdateSpecific(change, data.relatedResources).resp
    {
      if !Has(data.relatedResources, change.resourcePath) {
        data.AddError(UnprocessableEntity, change.resourcePath, NoRelatedResource(change.resourcePath));
        return UNPROCESSABLE;
      }
      return OK;
    }
  }

  class CreateSpecificSmsValidationRules {
    const data: ValidationData
    const change: Change

    constructor (data: ValidationData, change: Change)
      ensures this.data == data && this.change == change
    {
      this.data := data;
      this.change := change;
    }

    method ProvJournalIsIncluded() returns (included: bool)
      modifies data`errors
      ensures var mscId := GetSmsStaticDataMscId(change.resourcePath);
              && (included <==> Has(data.relatedResources, ProvJournalPath(mscId)))
              && data.errors == old(data.errors)
                   + if included then [] else [Unprocessable(change.resourcePath, NoProvJournal(mscId, ProvJournalPath(mscId)))]
    {
      var mscId := GetSmsStaticDataMscId(change.resourcePath);
      var pathToFind := ProvJournalPath(mscId);
      included := Has(data.relatedResources, pathToFind);
      if !included {
        data.AddError(UnprocessableEntity, change.resourcePath, NoProvJournal(mscId, pathToFind));
      }
    }

    // R3; no answer when the journal's path holds another variant.
    method CheckImsiIsInProvJournal() returns (ok: Option<bool>)
      requires Has(data.relatedResources, ProvJournalPath(GetSmsStaticDataMscId(change.resourcePath)))
      modifies data`errors
      ensures var mscId := GetSmsStaticDataMscId(change.resourcePath);
              var journal := At(data.relatedResources, ProvJournalPath(mscId));
              if journal.ProvJournalResource? then
                var e := ImsiErrors(journal.imsi, change.resourcePath, mscId);
                data.errors == old(data.errors) + e && ok == Some(e == [])
              else ok == None && data.errors == old(data.errors)
    {
      var mscId := GetSmsStaticDataMscId(change.resourcePath);
      var journal := At(data.relatedResources, ProvJournalPath(mscId));
      if !journal.ProvJournalResource? {
        return None;
      }
      if journal.imsi == "" {
        data.AddError(ConstraintViolation, change.resourcePath, NoImsi(mscId));
        return Some(false);
      }
      return Some(true);
    }

    method ApplyValidationRules() returns (r: Option<ValidationResponse>)
      modifies data`errors
      ensures data.errors == old(data.errors) + CheckSmsCreateSpecific(change, data.relatedResources).errors
      ensures r == CheckSmsCreateSpecific(change, data.relatedResources).resp
    {
      hide ProvJournalPath, GetSmsStaticDataMscId;
      var included := ProvJournalIsIncluded();
      if !included {
        return Some(UNPROCESSABLE);
      }
      var ok := CheckImsiIsInProvJournal();
      if ok.None? {
        return None;
      }
      return if ok.value then Some(OK) else Some(CONFLICT);
    }
  }

  class SmsValidationData {
    const data: ValidationData
    const change: Change

    constructor (data: ValidationData, change: Change)
      ensures this.data == data && this.change == change
    {
      this.data := data;
      this.change := change;
    }

    method ApplyValidationRules() returns (r: Option<ValidationResponse>)
      modifies data`errors
      ensures data.errors == old(data.errors) + CheckSms(change, data.relatedResources).errors
      ensures r == CheckSms(change, data.relatedResources).resp
    {
      hide SmsErrors, CheckSmsCreateSpecific, CheckSmsUpdateSpecific;
      var responses := [OK];
      ghost var e0, rr := data.errors, data.relatedResources;
      ghost var sms := SmsErrors(change.smsStaticData, change.resourcePath);
      if change.operation == UPDATE {
        var updateRules := new UpdateSpecificSmsValidationRules(data, change);
        var commonRules := new CommonSmsValidationRules(data, change);
        var common := commonRules.ApplyValidationRules();
        var update := updateRules.ApplyValidationRules();
        Regroup2(e0, sms, CheckSmsUpdateSpecific(change, rr).errors);
        WorstOfThree(OK, common, update);
        responses := responses + [common];
        responses := responses + [update];
      } else if change.operation == CREATE {
        var commonRules := new CommonSmsValidationRules(data, change);
        var createRules := new CreateSpecificSmsValidationRules(data, change);
        var common := commonRules.ApplyValidationRules();
        var create := createRules.ApplyValidationRules();
        Regroup2(e0, sms, CheckSmsCreateSpecific(change, rr).errors);
        if create.None? {
          return None;
        }
        WorstOfThree(OK, common, create.value);
        responses := responses + [common];
        responses := responses + [create.value];
      }
      var worst := GetWorstResponseCode(responses);
      return Some(worst);
    }
  }

  lemma WorstOfThree(a: ValidationResponse, b: ValidationResponse, c: ValidationResponse)
    ensures WorstOf([a] + [b] + [c]) == Worst(Worst(Worst(OK, a), b), c)
  {
    var rs := [a] + [b] + [c];
    assert rs[..2] == [a] + [b];
    assert ([a] + [b])[..1] == [a];
    assert [a][..0] == [];
    assert WorstOf([a]) == Worst(WorstOf([]), a);
    assert WorstOf([a] + [b]) == Worst(WorstOf([a]), b);
  }
}
