// What reading reports: the errors of the parser are the deviations of the JSON from the shapes
// below, so reading reports nothing exactly when the tree is well typed.
module ReadTypes {
  import opened JsonModel
  import opened JsonObjects
  import opened JsonShapes
  import opened OrderedMaps
  import opened Paths
  import opened Sequences
  import opened Text
  import opened Types
  import opened PlmnCodec
  import opened ResourceCodec

  // ---- the shapes ----

  function May(a: Attribute, shape: Shape): FieldShape {
    FieldShape(a, shape, None)
  }

  function Must(a: Attribute, shape: Shape, parent: Attribute): FieldShape {
    FieldShape(a, shape, Some(parent))
  }

  function SnssaiShape(): seq<FieldShape> {
    [Must(JSON_SST, Number, JSON_NSSAI), May(JSON_SD, Text)]
  }

  function NssaiDetailsShape(parent: Attribute): seq<FieldShape> {
    [May(JSON_DNN_LIST_ID, Text), May(JSON_3GPP_CHARGING_CHARACTERISTICS, Text), Must(JSON_NSSAI, Object(SnssaiShape()), parent)]
  }

  function PduShape(): seq<FieldShape> {
    [May(JSON_DEFAULT_SESSION_TYPE, Text), May(JSON_ALLOWED_SESSION_TYPES, Texts)]
  }

  function SscShape(): seq<FieldShape> {
    [May(JSON_DEFAULT_SSC_MODE, Text), May(JSON_ALLOWED_SSC_MODES, Texts)]
  }

  function UpSecurityShape(): seq<FieldShape> {
    [May(JSON_UP_INTEGR, Text), May(JSON_UP_CONFID, Text)]
  }

  function AmbrShape(): seq<FieldShape> {
    [Must(JSON_UPLINK, Text, JSON_SESSION_AMBR), Must(JSON_DOWNLINK, Text, JSON_SESSION_AMBR)]
  }

  function ArpShape(): seq<FieldShape> {
    [Must(JSON_PRIORITY_LEVEL, Number, JSON_ARP), Must(JSON_PREEMPTCAP, Text, JSON_ARP), Must(JSON_PREEMPTVULN, Text, JSON_ARP)]
  }

  function QosShape(): seq<FieldShape> {
    [Must(JSON_5QI, Number, JSON_5G_QOS_PROFILE), Must(JSON_ARP, Object(ArpShape()), JSON_5G_QOS_PROFILE), May(JSON_PRIORITY_LEVEL, Number)]
  }

  function DnnFlagsShape(): seq<FieldShape> {
    [May(JSON_DNN, Text), May(JSON_DEFAULT_DNN_INDICATOR, Flag), May(JSON_LBO_ROAMING_ALLOWED, Flag), May(JSON_IWK_EPS_IND, Flag)]
  }

  function DnnSessionShape(): seq<FieldShape> {
    [May(JSON_LADN_INDICATOR, Flag), May(JSON_PDU_SESSION_TYPES, Object(PduShape())), May(JSON_SSC_MODES, Object(SscShape()))]
  }

  function DnnSecurityShape(): seq<FieldShape> {
    [May(JSON_3GPP_CHARGING_CHARACTERISTICS, Text), May(JSON_UP_SECURITY, Object(UpSecurityShape())),
     May(JSON_SESSION_AMBR, Object(AmbrShape()))]
  }

  function DnnTransportShape(): seq<FieldShape> {
    [May(JSON_SMF_LIST, Texts), May(JSON_SAME_SMF_IND, Flag), May(JSON_5G_QOS_PROFILE, Object(QosShape()))]
  }

  function DnnDataShape(): seq<FieldShape> {
    DnnFlagsShape() + DnnSessionShape() + DnnSecurityShape() + DnnTransportShape()
  }

  function DnnListShape(): seq<FieldShape> {
    [Must(JSON_DNN_LIST_ID, Text, JSON_DNN_LISTS), May(JSON_DNN_DATA_LIST, Objects(DnnDataShape()))]
  }

  function SliceInfoShape(): seq<FieldShape> {
    [May(JSON_DEFAULT_SINGLE_NSSAIS, Objects(NssaiDetailsShape(JSON_DEFAULT_SINGLE_NSSAIS))),
     May(JSON_SINGLE_NSSAIS, Objects(NssaiDetailsShape(JSON_SINGLE_NSSAIS)))]
  }

  function IdentifierShape(): FieldShape {
    Must(JSON_PLMN_ID_SET_IDENTIFIER, Text, JSON_PLMN_ID_SETS)
  }

  function NssaiShape(): FieldShape {
    May(JSON_NSSAI, Object(SliceInfoShape()))
  }

  // Slice data may leave the lists out, slice profiles may not.
  function ListsShape(isSliceData: bool): FieldShape {
    if isSliceData then May(JSON_DNN_LISTS, Objects(DnnListShape())) else Must(JSON_DNN_LISTS, Objects(DnnListShape()), JSON_PLMN_ID_SETS)
  }

  // ---- lists of fields ----

  lemma {:induction false} FaultsAppend(a: seq<FieldShape>, b: seq<FieldShape>, ms: Members, path: string)
    ensures Faults(a + b, ms, path) == Faults(a, ms, path) + Faults(b, ms, path)
  {
    hide FieldFaults, Get;
    if b == [] {
      assert a + b == a;
    } else {
      var n := |b| - 1;
      FaultsAppend(a, b[..n], ms, path);
      FaultsSnoc(a + b, ms, path);
      FaultsSnoc(b, ms, path);
      assert (a + b)[..|a + b| - 1] == a + b[..n];
    }
  }

  lemma FaultsOfOne(f: FieldShape, ms: Members, path: string)
    ensures Faults([f], ms, path) == FieldFaults(f, Get(ms, f.attribute), path)
  {
    hide FieldFaults, Get;
    FaultsSnoc([f], ms, path);
    assert [f][..0] == [];
    NoFields(ms, path);
  }

  lemma FaultsOfTwo(f: FieldShape, g: FieldShape, ms: Members, path: string)
    ensures Faults([f, g], ms, path) == FieldFaults(f, Get(ms, f.attribute), path) + FieldFaults(g, Get(ms, g.attribute), path)
  {
    hide FieldFaults, Get, Faults;
    FaultsSnoc([f, g], ms, path);
    assert [f, g][..1] == [f];
    FaultsOfOne(f, ms, path);
  }

  lemma FaultsOfThree(f: FieldShape, g: FieldShape, h: FieldShape, ms: Members, path: string)
    ensures Faults([f, g, h], ms, path)
         == FieldFaults(f, Get(ms, f.attribute), path) + FieldFaults(g, Get(ms, g.attribute), path) + FieldFaults(h, Get(ms, h.attribute), path)
  {
    hide FieldFaults, Get, Faults;
    FaultsSnoc([f, g, h], ms, path);
    assert [f, g, h][..2] == [f, g];
    FaultsOfTwo(f, g, ms, path);
  }

  lemma FaultsOfFour(f: FieldShape, g: FieldShape, h: FieldShape, k: FieldShape, ms: Members, path: string)
    ensures Faults([f, g, h, k], ms, path)
         == FieldFaults(f, Get(ms, f.attribute), path) + FieldFaults(g, Get(ms, g.attribute), path)
            + FieldFaults(h, Get(ms, h.attribute), path) + FieldFaults(k, Get(ms, k.attribute), path)
  {
    hide FieldFaults, Get, Faults;
    FaultsSnoc([f, g, h, k], ms, path);
    assert [f, g, h, k][..3] == [f, g, h];
    FaultsOfThree(f, g, h, ms, path);
  }

  // ---- single members ----

  lemma StringFaults(ms: Members, a: Attribute, parent: Attribute, path: string)
    ensures ParseString(ms, a, path).errors == FieldFaults(May(a, Text), Get(ms, a), path)
    ensures ParseMandatoryString(ms, a, parent, path).errors == FieldFaults(Must(a, Text, parent), Get(ms, a), path)
  {
    hide Get;
  }

  lemma BoolFaults(ms: Members, a: Attribute, path: string)
    ensures ParseBool(ms, a, path).errors == FieldFaults(May(a, Flag), Get(ms, a), path)
  {
    hide Get;
  }

  lemma IntFaults(ms: Members, a: Attribute, parent: Attribute, path: string)
    ensures ParseInt(ms, a, path).errors == FieldFaults(May(a, Number), Get(ms, a), path)
    ensures ParseMandatoryInt(ms, a, parent, path).errors == FieldFaults(Must(a, Number, parent), Get(ms, a), path)
  {
    hide Get;
  }

  lemma {:induction false} TextItems(a: Attribute, items: seq<Json>, path: string)
    ensures ParseItems(ParseStringItemOf(a, path), items).errors == TextFaults(a, items, path)
  {
    if items != [] {
      TextItems(a, items[..|items| - 1], path);
    }
  }

  lemma StringsFaults(ms: Members, a: Attribute, path: string)
    ensures ParseStrings(ms, a, path).errors == FieldFaults(May(a, Texts), Get(ms, a), path)
  {
    hide Get, ParseItems, TextFaults;
    if Get(ms, a).Some? && Get(ms, a).value.Arr? {
      TextItems(a, Get(ms, a).value.items, path);
    }
  }

  lemma ObjectFaults<T>(ms: Members, a: Attribute, p: Members -> Parsed<T>, absent: T, fields: seq<FieldShape>, path: string)
    requires forall m :: p(m).errors == Faults(fields, m, path)
    ensures ParseObject(ms, a, p, absent, path).errors == FieldFaults(May(a, Object(fields)), Get(ms, a), path)
    ensures ParseObject(ms, a, p, absent, path).value.Some? <==> Get(ms, a).Some?
  {
    hide Get, Faults;
  }

  // An object that must be there: the error of its absence follows.
  lemma MandatoryObject(a: Attribute, fields: seq<FieldShape>, parent: Attribute, j: Option<Json>, path: string)
    ensures FieldFaults(Must(a, Object(fields), parent), j, path)
         == FieldFaults(May(a, Object(fields)), j, path) + if j.None? then [Violation(path, MissingField(a, parent))] else []
  {
    hide Faults;
  }

  lemma {:induction false} ObjectItems<T>(a: Attribute, p: Json -> Parsed<seq<T>>, fields: seq<FieldShape>, items: seq<Json>, path: string)
    requires forall j :: p(j).errors == if j.Obj? then Faults(fields, j.members, path) else [Violation(path, NotObject(a))]
    ensures ParseItems(p, items).errors == ItemFaults(a, fields, items, path)
  {
    hide Faults;
    if items != [] {
      ObjectItems(a, p, fields, items[..|items| - 1], path);
    }
  }

  lemma ArrayFaults<T>(ms: Members, a: Attribute, p: Json -> Parsed<seq<T>>, fields: seq<FieldShape>, path: string)
    requires forall j :: p(j).errors == if j.Obj? then Faults(fields, j.members, path) else [Violation(path, NotObject(a))]
    ensures ParseArray(ms, a, p, path).errors == FieldFaults(May(a, Objects(fields)), Get(ms, a), path)
    ensures ParseArray(ms, a, p, path).value.Some? <==> Get(ms, a).Some?
  {
    hide Get, Faults, ParseItems, ItemFaults;
    if Get(ms, a).Some? && Get(ms, a).value.Arr? {
      ObjectItems(a, p, fields, Get(ms, a).value.items, path);
    }
  }

  // ---- objects ----

  lemma SnssaiFaults(ms: Members, path: string)
    ensures ParseSnssai(ms, path).errors == Faults(SnssaiShape(), ms, path)
  {
    hide Get, Faults, FieldFaults, ParseString, ParseMandatoryInt, VendorOf;
    IntFaults(ms, JSON_SST, JSON_NSSAI, path);
    StringFaults(ms, JSON_SD, JSON_NSSAI, path);
    FaultsOfTwo(Must(JSON_SST, Number, JSON_NSSAI), May(JSON_SD, Text), ms, path);
  }

  lemma NssaiDetailsFaults(ms: Members, parent: Attribute, path: string)
    ensures ParseNssaiDetails(ms, parent, path).errors == Faults(NssaiDetailsShape(parent), ms, path)
  {
    hide Get, Faults, FieldFaults, ParseString, ParseObject, VendorOf, ParseSnssai;
    var p := (m: Members) => ParseSnssai(m, path);
    forall m
      ensures p(m).errors == Faults(SnssaiShape(), m, path)
    {
      SnssaiFaults(m, path);
    }
    StringFaults(ms, JSON_DNN_LIST_ID, parent, path);
    StringFaults(ms, JSON_3GPP_CHARGING_CHARACTERISTICS, parent, path);
    ObjectFaults(ms, JSON_NSSAI, p, Snssai(0, "", []), SnssaiShape(), path);
    MandatoryObject(JSON_NSSAI, SnssaiShape(), parent, Get(ms, JSON_NSSAI), path);
    FaultsOfThree(May(JSON_DNN_LIST_ID, Text), May(JSON_3GPP_CHARGING_CHARACTERISTICS, Text),
                  Must(JSON_NSSAI, Object(SnssaiShape()), parent), ms, path);
  }

  lemma PduFaults(ms: Members, path: string)
    ensures ParsePduSessionTypes(ms, path).errors == Faults(PduShape(), ms, path)
    ensures ParseSscModes(ms, path).errors == Faults(SscShape(), ms, path)
  {
    hide Get, Faults, FieldFaults, ParseString, ParseStrings, VendorOf;
    StringFaults(ms, JSON_DEFAULT_SESSION_TYPE, JSON_DNN, path);
    StringsFaults(ms, JSON_ALLOWED_SESSION_TYPES, path);
    FaultsOfTwo(May(JSON_DEFAULT_SESSION_TYPE, Text), May(JSON_ALLOWED_SESSION_TYPES, Texts), ms, path);
    StringFaults(ms, JSON_DEFAULT_SSC_MODE, JSON_DNN, path);
    StringsFaults(ms, JSON_ALLOWED_SSC_MODES, path);
    FaultsOfTwo(May(JSON_DEFAULT_SSC_MODE, Text), May(JSON_ALLOWED_SSC_MODES, Texts), ms, path);
  }

  lemma AmbrFaults(ms: Members, path: string)
    ensures ParseUpSecurity(ms, path).errors == Faults(UpSecurityShape(), ms, path)
    ensures ParseAmbr(ms, path).errors == Faults(AmbrShape(), ms, path)
  {
    hide Get, Faults, FieldFaults, ParseString, ParseMandatoryString, VendorOf;
    StringFaults(ms, JSON_UP_INTEGR, JSON_DNN, path);
    StringFaults(ms, JSON_UP_CONFID, JSON_DNN, path);
    FaultsOfTwo(May(JSON_UP_INTEGR, Text), May(JSON_UP_CONFID, Text), ms, path);
    StringFaults(ms, JSON_UPLINK, JSON_SESSION_AMBR, path);
    StringFaults(ms, JSON_DOWNLINK, JSON_SESSION_AMBR, path);
    FaultsOfTwo(Must(JSON_UPLINK, Text, JSON_SESSION_AMBR), Must(JSON_DOWNLINK, Text, JSON_SESSION_AMBR), ms, path);
  }

  lemma ArpFaults(ms: Members, path: string)
    ensures ParseArp(ms, path).errors == Faults(ArpShape(), ms, path)
  {
    hide Get, Faults, FieldFaults, ParseMandatoryString, ParseMandatoryInt, VendorOf;
    IntFaults(ms, JSON_PRIORITY_LEVEL, JSON_ARP, path);
    StringFaults(ms, JSON_PREEMPTCAP, JSON_ARP, path);
    StringFaults(ms, JSON_PREEMPTVULN, JSON_ARP, path);
    FaultsOfThree(Must(JSON_PRIORITY_LEVEL, Number, JSON_ARP), Must(JSON_PREEMPTCAP, Text, JSON_ARP),
                  Must(JSON_PREEMPTVULN, Text, JSON_ARP), ms, path);
  }

  lemma QosFaults(ms: Members, path: string)
    ensures ParseQos(ms, path).errors == Faults(QosShape(), ms, path)
  {
    hide Get, Faults, FieldFaults, ParseInt, ParseMandatoryInt, ParseObject, ParseArp, VendorOf;
    var p := (m: Members) => ParseArp(m, path);
    forall m
      ensures p(m).errors == Faults(ArpShape(), m, path)
    {
      ArpFaults(m, path);
    }
    IntFaults(ms, JSON_5QI, JSON_5G_QOS_PROFILE, path);
    IntFaults(ms, JSON_PRIORITY_LEVEL, JSON_5G_QOS_PROFILE, path);
    ObjectFaults(ms, JSON_ARP, p, NO_ARP, ArpShape(), path);
    MandatoryObject(JSON_ARP, ArpShape(), JSON_5G_QOS_PROFILE, Get(ms, JSON_ARP), path);
    FaultsOfThree(Must(JSON_5QI, Number, JSON_5G_QOS_PROFILE), Must(JSON_ARP, Object(ArpShape()), JSON_5G_QOS_PROFILE),
                  May(JSON_PRIORITY_LEVEL, Number), ms, path);
  }

  lemma SessionMembers(ms: Members, path: string)
    ensures ParseObject(ms, JSON_PDU_SESSION_TYPES, (m: Members) => ParsePduSessionTypes(m, path), PduSessionTypes("", [], false, []), path).errors
         == FieldFaults(May(JSON_PDU_SESSION_TYPES, Object(PduShape())), Get(ms, JSON_PDU_SESSION_TYPES), path)
    ensures ParseObject(ms, JSON_SSC_MODES, (m: Members) => ParseSscModes(m, path), SscModes("", [], []), path).errors
         == FieldFaults(May(JSON_SSC_MODES, Object(SscShape())), Get(ms, JSON_SSC_MODES), path)
  {
    hide Get, Faults, FieldFaults, ParseObject, ParsePduSessionTypes, ParseSscModes;
    var p, q := (m: Members) => ParsePduSessionTypes(m, path), (m: Members) => ParseSscModes(m, path);
    forall m
      ensures p(m).errors == Faults(PduShape(), m, path) && q(m).errors == Faults(SscShape(), m, path)
    {
      PduFaults(m, path);
    }
    ObjectFaults(ms, JSON_PDU_SESSION_TYPES, p, PduSessionTypes("", [], false, []), PduShape(), path);
    ObjectFaults(ms, JSON_SSC_MODES, q, SscModes("", [], []), SscShape(), path);
  }

  lemma SecurityMembers(ms: Members, path: string)
    ensures ParseObject(ms, JSON_UP_SECURITY, (m: Members) => ParseUpSecurity(m, path), UpSecurity("", "", []), path).errors
         == FieldFaults(May(JSON_UP_SECURITY, Object(UpSecurityShape())), Get(ms, JSON_UP_SECURITY), path)
    ensures ParseObject(ms, JSON_SESSION_AMBR, (m: Members) => ParseAmbr(m, path), Ambr("", "", []), path).errors
         == FieldFaults(May(JSON_SESSION_AMBR, Object(AmbrShape())), Get(ms, JSON_SESSION_AMBR), path)
    ensures ParseObject(ms, JSON_5G_QOS_PROFILE, (m: Members) => ParseQos(m, path), FivegQosProfile(0, NO_ARP, None, []), path).errors
         == FieldFaults(May(JSON_5G_QOS_PROFILE, Object(QosShape())), Get(ms, JSON_5G_QOS_PROFILE), path)
  {
    hide Get, Faults, FieldFaults, ParseObject, ParseUpSecurity, ParseAmbr, ParseQos;
    var p, q, r := (m: Members) => ParseUpSecurity(m, path), (m: Members) => ParseAmbr(m, path), (m: Members) => ParseQos(m, path);
    forall m
      ensures p(m).errors == Faults(UpSecurityShape(), m, path) && q(m).errors == Faults(AmbrShape(), m, path)
      ensures r(m).errors == Faults(QosShape(), m, path)
    {
      AmbrFaults(m, path);
      QosFaults(m, path);
    }
    ObjectFaults(ms, JSON_UP_SECURITY, p, UpSecurity("", "", []), UpSecurityShape(), path);
    ObjectFaults(ms, JSON_SESSION_AMBR, q, Ambr("", "", []), AmbrShape(), path);
    ObjectFaults(ms, JSON_5G_QOS_PROFILE, r, FivegQosProfile(0, NO_ARP, None, []), QosShape(), path);
  }

  lemma DnnFlagsFaults(ms: Members, path: string)
    ensures Faults(DnnFlagsShape(), ms, path)
         == ParseString(ms, JSON_DNN, path).errors + ParseBool(ms, JSON_DEFAULT_DNN_INDICATOR, path).errors
            + ParseBool(ms, JSON_LBO_ROAMING_ALLOWED, path).errors + ParseBool(ms, JSON_IWK_EPS_IND, path).errors
  {
    hide Get, Faults, FieldFaults, ParseString, ParseBool;
    StringFaults(ms, JSON_DNN, JSON_DNN, path);
    BoolFaults(ms, JSON_DEFAULT_DNN_INDICATOR, path);
    BoolFaults(ms, JSON_LBO_ROAMING_ALLOWED, path);
    BoolFaults(ms, JSON_IWK_EPS_IND, path);
    FaultsOfFour(May(JSON_DNN, Text), May(JSON_DEFAULT_DNN_INDICATOR, Flag), May(JSON_LBO_ROAMING_ALLOWED, Flag),
                 May(JSON_IWK_EPS_IND, Flag), ms, path);
  }

  // The errors of a DNN are its deviations from its shape, in the order of the shape.
  lemma DnnDataFaults(ms: Members, path: string)
    ensures ParseDnnData(ms, path).errors == Faults(DnnDataShape(), ms, path)
  {
    hide Get, Faults, FieldFaults, ParseString, ParseBool, ParseStrings, ParseObject, VendorOf;
    DnnFlagsFaults(ms, path);
    SessionMembers(ms, path);
    SecurityMembers(ms, path);
    BoolFaults(ms, JSON_LADN_INDICATOR, path);
    StringFaults(ms, JSON_3GPP_CHARGING_CHARACTERISTICS, JSON_DNN, path);
    StringsFaults(ms, JSON_SMF_LIST, path);
    BoolFaults(ms, JSON_SAME_SMF_IND, path);
    FaultsOfThree(May(JSON_LADN_INDICATOR, Flag), May(JSON_PDU_SESSION_TYPES, Object(PduShape())), May(JSON_SSC_MODES, Object(SscShape())),
                  ms, path);
    FaultsOfThree(May(JSON_3GPP_CHARGING_CHARACTERISTICS, Text), May(JSON_UP_SECURITY, Object(UpSecurityShape())),
                  May(JSON_SESSION_AMBR, Object(AmbrShape())), ms, path);
    FaultsOfThree(May(JSON_SMF_LIST, Texts), May(JSON_SAME_SMF_IND, Flag), May(JSON_5G_QOS_PROFILE, Object(QosShape())), ms, path);
    FaultsAppend(DnnFlagsShape() + DnnSessionShape() + DnnSecurityShape(), DnnTransportShape(), ms, path);
    FaultsAppend(DnnFlagsShape() + DnnSessionShape(), DnnSecurityShape(), ms, path);
    FaultsAppend(DnnFlagsShape(), DnnSessionShape(), ms, path);
  }

  lemma DnnListFaults(ms: Members, path: string)
    ensures ParseDnnList(ms, path).errors == Faults(DnnListShape(), ms, path)
  {
    hide Get, Faults, FieldFaults, ParseMandatoryString, ParseArray, ParseDnnData, VendorOf, DnnDataShape;
    var p := ParseDnnDataItemOf(path);
    forall j
      ensures p(j).errors == if j.Obj? then Faults(DnnDataShape(), j.members, path) else [Violation(path, NotObject(JSON_DNN_DATA_LIST))]
    {
      if j.Obj? {
        DnnDataFaults(j.members, path);
      }
    }
    StringFaults(ms, JSON_DNN_LIST_ID, JSON_DNN_LISTS, path);
    ArrayFaults(ms, JSON_DNN_DATA_LIST, p, DnnDataShape(), path);
    FaultsOfTwo(Must(JSON_DNN_LIST_ID, Text, JSON_DNN_LISTS), May(JSON_DNN_DATA_LIST, Objects(DnnDataShape())), ms, path);
  }

  lemma NssaiArrayFaults(ms: Members, a: Attribute, path: string)
    ensures ParseArray(ms, a, ParseNssaiItemOf(a, path), path).errors
         == FieldFaults(May(a, Objects(NssaiDetailsShape(a))), Get(ms, a), path)
  {
    hide Get, Faults, FieldFaults, ParseArray, ParseNssaiDetails, NssaiDetailsShape;
    var p := ParseNssaiItemOf(a, path);
    forall j
      ensures p(j).errors == if j.Obj? then Faults(NssaiDetailsShape(a), j.members, path) else [Violation(path, NotObject(a))]
    {
      if j.Obj? {
        NssaiDetailsFaults(j.members, a, path);
      }
    }
    ArrayFaults(ms, a, p, NssaiDetailsShape(a), path);
  }

  lemma SliceInfoFaults(ms: Members, path: string)
    ensures ParseSliceInfo(ms, path).errors == Faults(SliceInfoShape(), ms, path)
  {
    hide Get, Faults, FieldFaults, ParseArray, VendorOf, NssaiDetailsShape;
    NssaiArrayFaults(ms, JSON_DEFAULT_SINGLE_NSSAIS, path);
    NssaiArrayFaults(ms, JSON_SINGLE_NSSAIS, path);
    FaultsOfTwo(May(JSON_DEFAULT_SINGLE_NSSAIS, Objects(NssaiDetailsShape(JSON_DEFAULT_SINGLE_NSSAIS))),
                May(JSON_SINGLE_NSSAIS, Objects(NssaiDetailsShape(JSON_SINGLE_NSSAIS))), ms, path);
  }

  // ---- PLMN sets ----

  // The nssai member lists an object among its default S-NSSAIs.
  predicate HasDefaultNssai(ms: Members) {
    match Get(ms, JSON_NSSAI)
    case Some(Obj(nssai)) =>
      (match Get(nssai, JSON_DEFAULT_SINGLE_NSSAIS)
       case Some(Arr(items)) => exists i :: i in items && i.Obj?
       case _ => false)
    case _ => false
  }

  lemma {:induction false} NssaiItemsRead(items: seq<Json>, a: Attribute, path: string)
    ensures ParseItems(ParseNssaiItemOf(a, path), items).value == [] <==> forall i :: i in items ==> !i.Obj?
  {
    hide ParseNssaiDetails;
    if items != [] {
      var n := |items| - 1;
      assert items == items[..n] + [items[n]];
      NssaiItemsRead(items[..n], a, path);
    }
  }

  lemma DefaultNssaiRead(ms: Members, path: string)
    ensures var nssai := ParseObject(ms, JSON_NSSAI, (m: Members) => ParseSliceInfo(m, path), (NO_NSSAI, false), path);
            nssai.value.Some? ==> (|nssai.value.value.0.defaultSingleNssais| == 0 <==> !HasDefaultNssai(ms))
  {
    hide Get, VendorOf, ParseItems;
    match Get(ms, JSON_NSSAI)
    case Some(j) =>
      if j.Obj? {
        match Get(j.members, JSON_DEFAULT_SINGLE_NSSAIS)
        case Some(k) =>
          if k.Arr? {
            NssaiItemsRead(k.items, JSON_DEFAULT_SINGLE_NSSAIS, path);
          }
        case None =>
      }
    case None =>
  }

  function NoDefaultFaults(ms: Members, path: string): seq<Error> {
    if Get(ms, JSON_NSSAI).Some? && !HasDefaultNssai(ms) then [Violation(path, NoDefaultSingleNssai)] else []
  }

  // The errors of reading a PLMN set: the deviations of its three members, and one error if an
  // nssai member holds no default S-NSSAI.
  lemma PlmnIdSetFaults(ms: Members, isSliceData: bool, path: string)
    ensures ParsePlmnIdSet(ms, isSliceData, path).errors
         == FieldFaults(IdentifierShape(), Get(ms, JSON_PLMN_ID_SET_IDENTIFIER), path)
            + FieldFaults(NssaiShape(), Get(ms, JSON_NSSAI), path)
            + NoDefaultFaults(ms, path)
            + FieldFaults(ListsShape(isSliceData), Get(ms, JSON_DNN_LISTS), path)
  {
    hide Get, Faults, FieldFaults, ParseMandatoryString, ParseObject, ParseArray, ParseSliceInfo, ParseDnnList, VendorOf,
         SliceInfoShape, DnnListShape, HasDefaultNssai;
    var p, q := (m: Members) => ParseSliceInfo(m, path), ParseDnnListItemOf(path);
    forall m
      ensures p(m).errors == Faults(SliceInfoShape(), m, path)
    {
      SliceInfoFaults(m, path);
    }
    forall j
      ensures q(j).errors == if j.Obj? then Faults(DnnListShape(), j.members, path) else [Violation(path, NotObject(JSON_DNN_LISTS))]
    {
      if j.Obj? {
        DnnListFaults(j.members, path);
      }
    }
    StringFaults(ms, JSON_PLMN_ID_SET_IDENTIFIER, JSON_PLMN_ID_SETS, path);
    ObjectFaults(ms, JSON_NSSAI, p, (NO_NSSAI, false), SliceInfoShape(), path);
    DefaultNssaiRead(ms, path);
    ArrayFaults(ms, JSON_DNN_LISTS, q, DnnListShape(), path);
    MandatoryLists(Get(ms, JSON_DNN_LISTS), isSliceData, path);
    assert ParseObject(ms, JSON_NSSAI, p, (NO_NSSAI, false), path)
        == ParseObject(ms, JSON_NSSAI, (m: Members) => ParseSliceInfo(m, path), (NO_NSSAI, false), path);
  }

  lemma MandatoryLists(j: Option<Json>, isSliceData: bool, path: string)
    ensures FieldFaults(ListsShape(isSliceData), j, path)
         == FieldFaults(May(JSON_DNN_LISTS, Objects(DnnListShape())), j, path)
            + if j.None? && !isSliceData then [Violation(path, MissingField(JSON_DNN_LISTS, JSON_PLMN_ID_SETS))] else []
  {
    hide DnnListShape, ItemFaults;
  }

  predicate PlmnIdSetWellTyped(ms: Members, isSliceData: bool) {
    && FieldFits(IdentifierShape(), Get(ms, JSON_PLMN_ID_SET_IDENTIFIER))
    && FieldFits(NssaiShape(), Get(ms, JSON_NSSAI))
    && (Get(ms, JSON_NSSAI).Some? ==> HasDefaultNssai(ms))
    && FieldFits(ListsShape(isSliceData), Get(ms, JSON_DNN_LISTS))
  }

  // Reading a PLMN set reports nothing exactly when its tree is well typed.
  lemma PlmnIdSetReadsClean(ms: Members, isSliceData: bool, path: string)
    ensures ParsePlmnIdSet(ms, isSliceData, path).errors == [] <==> PlmnIdSetWellTyped(ms, isSliceData)
  {
    hide Get, FieldFaults, FieldFits, HasDefaultNssai, ParsePlmnIdSet;
    PlmnIdSetFaults(ms, isSliceData, path);
    FieldFaultsNone(IdentifierShape(), Get(ms, JSON_PLMN_ID_SET_IDENTIFIER), path);
    FieldFaultsNone(NssaiShape(), Get(ms, JSON_NSSAI), path);
    FieldFaultsNone(ListsShape(isSliceData), Get(ms, JSON_DNN_LISTS), path);
  }

  // One member of the wrong type gives exactly its own error, and an nssai member of the wrong type
  // the error that it holds no default S-NSSAI besides.
  lemma OneWrongMember(ms: Members, isSliceData: bool, path: string)
    ensures var id, nssai, lists := Get(ms, JSON_PLMN_ID_SET_IDENTIFIER), Get(ms, JSON_NSSAI), Get(ms, JSON_DNN_LISTS);
            var idFits, listsFit := FieldFits(IdentifierShape(), id), FieldFits(ListsShape(isSliceData), lists);
            var nssaiFits := FieldFits(NssaiShape(), nssai) && (nssai.Some? ==> HasDefaultNssai(ms));
            var errors := ParsePlmnIdSet(ms, isSliceData, path).errors;
            && (nssaiFits && listsFit && id.Some? && !id.value.Str? ==> errors == [Violation(path, NotString(JSON_PLMN_ID_SET_IDENTIFIER))])
            && (nssaiFits && listsFit && id.None? ==> errors == [Violation(path, MissingField(JSON_PLMN_ID_SET_IDENTIFIER, JSON_PLMN_ID_SETS))])
            && (idFits && nssaiFits && lists.Some? && !lists.value.Arr? ==> errors == [Violation(path, NotArray(JSON_DNN_LISTS))])
            && (idFits && listsFit && nssai.Some? && !nssai.value.Obj? ==>
                  errors == [Violation(path, NotObject(JSON_NSSAI)), Violation(path, NoDefaultSingleNssai)])
  {
    hide Get, FieldFits, ParsePlmnIdSet, Faults, ItemFaults, SliceInfoShape, DnnListShape;
    PlmnIdSetFaults(ms, isSliceData, path);
    FieldFaultsNone(IdentifierShape(), Get(ms, JSON_PLMN_ID_SET_IDENTIFIER), path);
    FieldFaultsNone(NssaiShape(), Get(ms, JSON_NSSAI), path);
    FieldFaultsNone(ListsShape(isSliceData), Get(ms, JSON_DNN_LISTS), path);
  }

  lemma {:induction false} PlmnIdSetsReadClean(items: seq<Json>, isSliceData: bool, path: string)
    ensures ParsePlmnIdSets(items, isSliceData, path).errors == []
       <==> forall i :: i in items && i.Obj? ==> PlmnIdSetWellTyped(i.members, isSliceData)
  {
    hide ParsePlmnIdSet, PlmnIdSetWellTyped;
    if items != [] {
      var n := |items| - 1;
      assert items == items[..n] + [items[n]];
      PlmnIdSetsReadClean(items[..n], isSliceData, path);
      if items[n].Obj? {
        PlmnIdSetReadsClean(items[n].members, isSliceData, path);
      }
    }
  }

  // ---- slice profiles and roaming areas ----

  predicate SliceProfileWellTyped(ms: Members) {
    && FieldFits(May(JSON_UDM_SLICE_PROFILE_ID, Text), Get(ms, JSON_UDM_SLICE_PROFILE_ID))
    && (match Get(ms, JSON_PLMN_ID_SETS)
        case Some(Arr(items)) => forall i :: i in items && i.Obj? ==> PlmnIdSetWellTyped(i.members, false)
        case _ => true)
  }

  // Reading a slice profile reports nothing exactly when its id is absent or a text, and the sets
  // of an array of sets are well typed.
  lemma SliceProfileReadsClean(ms: Members, path: string)
    ensures ParseSliceProfile(ms, path).errors == [] <==> SliceProfileWellTyped(ms)
  {
    hide Get, ParsePlmnIdSets, PlmnIdSetWellTyped, ParseString, VendorOf;
    StringFaults(ms, JSON_UDM_SLICE_PROFILE_ID, JSON_UDM_SLICE_PROFILE_ID, path);
    FieldFaultsNone(May(JSON_UDM_SLICE_PROFILE_ID, Text), Get(ms, JSON_UDM_SLICE_PROFILE_ID), path);
    if Get(ms, JSON_PLMN_ID_SETS).Some? && Get(ms, JSON_PLMN_ID_SETS).value.Arr? {
      PlmnIdSetsReadClean(Get(ms, JSON_PLMN_ID_SETS).value.items, false, path);
    }
  }

  // An area has a code that is a text, or no code and TACs that are an array of texts.
  predicate AreaWellTyped(ms: Members) {
    match Get(ms, JSON_AREA_CODE)
    case Some(code) => code.Str?
    case None => Get(ms, JSON_TACS).Some? && HasShape(Texts, Get(ms, JSON_TACS).value)
  }

  lemma AreaFaults(ms: Members, path: string)
    ensures ParseArea(ms, path).errors
         == (match Get(ms, JSON_AREA_CODE)
             case Some(code) => FieldFaults(May(JSON_AREA_CODE, Text), Some(code), path)
             case None => if Get(ms, JSON_TACS).None? then [Violation(path, NoAreaCodeNorTacs)]
                          else FieldFaults(May(JSON_TACS, Texts), Get(ms, JSON_TACS), path))
    ensures ParseArea(ms, path).errors == [] <==> AreaWellTyped(ms)
  {
    hide Get, VendorOf, ParseItems, TextFaults;
    FieldFaultsNone(May(JSON_TACS, Texts), Get(ms, JSON_TACS), path);
    if Get(ms, JSON_TACS).Some? && Get(ms, JSON_TACS).value.Arr? {
      TextItems(JSON_TACS, Get(ms, JSON_TACS).value.items, path);
    }
  }

  lemma {:induction false} AreasReadClean(items: seq<Json>, path: string)
    ensures ParseItems(ParseAreaItemOf(path), items).errors == [] <==> forall i :: i in items ==> i.Obj? && AreaWellTyped(i.members)
  {
    hide ParseArea, AreaWellTyped;
    if items != [] {
      var n := |items| - 1;
      assert items == items[..n] + [items[n]];
      AreasReadClean(items[..n], path);
      if items[n].Obj? {
        AreaFaults(items[n].members, path);
      }
    }
  }

  predicate RoamingAreaWellTyped(ms: Members) {
    && FieldFits(May(JSON_UDM_ROAMING_AREA_ID, Text), Get(ms, JSON_UDM_ROAMING_AREA_ID))
    && (match Get(ms, JSON_AREA_LIST)
        case Some(j) => j.Arr? && forall i :: i in j.items ==> i.Obj? && AreaWellTyped(i.members)
        case None => true)
  }

  // Reading a roaming area reports nothing exactly when its id is absent or a text, and its areas
  // are absent or an array of well-typed objects.
  lemma RoamingAreaReadsClean(ms: Members, path: string)
    ensures ParseRoamingArea(ms, path).errors == [] <==> RoamingAreaWellTyped(ms)
  {
    hide Get, ParseItems, AreaWellTyped, ParseString, VendorOf, ParseAreaItemOf;
    StringFaults(ms, JSON_UDM_ROAMING_AREA_ID, JSON_UDM_ROAMING_AREA_ID, path);
    FieldFaultsNone(May(JSON_UDM_ROAMING_AREA_ID, Text), Get(ms, JSON_UDM_ROAMING_AREA_ID), path);
    if Get(ms, JSON_AREA_LIST).Some? && Get(ms, JSON_AREA_LIST).value.Arr? {
      AreasReadClean(Get(ms, JSON_AREA_LIST).value.items, path);
    }
  }

  // ---- related resources ----

  // Subscriptions, journals and SMS data are not looked into; the rest is read as its path says.
  predicate RelatedWellTyped(path: string, j: Json) {
    if EndsWith(path, UDM_STATIC_DATA) || EndsWith(path, PROV_JOURNAL) then true
    else if Contains(path, UDM_SLICE_PROFILES) then SliceProfileWellTyped(MembersOf(j))
    else if Contains(path, UDM_ROAMING_AREAS) then RoamingAreaWellTyped(MembersOf(j))
    else true
  }

  lemma ResourceReadsClean(path: string, j: Json)
    ensures ParseResource(path, j).errors == [] <==> RelatedWellTyped(path, j)
  {
    hide EndsWith, Contains, ParseSliceProfile, ParseRoamingArea, SliceProfileWellTyped, RoamingAreaWellTyped, StringOrEmpty;
    SliceProfileReadsClean(MembersOf(j), path);
    RoamingAreaReadsClean(MembersOf(j), path);
  }

  // The errors of the related resources are those of all their members in document order, also of
  // members whose path was read before; there are none exactly when all are well typed.
  lemma {:induction false} RelatedReadsClean(ms: Members)
    ensures ParseRelated(ms).errors == FlatMap((m: Entry<Json>) => ParseResource(m.key, m.value).errors, ms)
    ensures ParseRelated(ms).errors == [] <==> forall i :: 0 <= i < |ms| ==> RelatedWellTyped(ms[i].key, ms[i].value)
  {
    hide ParseResource, RelatedWellTyped, Emplace;
    if ms != [] {
      var n := |ms| - 1;
      RelatedReadsClean(ms[..n]);
      ResourceReadsClean(ms[n].key, ms[n].value);
      assert forall i :: 0 <= i < n ==> ms[..n][i] == ms[i];
    }
  }
}
