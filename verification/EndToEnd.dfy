// A slice profile creation through the whole service: read from JSON, accepted, rewritten, written
// and read again by the next reader.
module EndToEnd {
  import opened JsonModel
  import opened JsonObjects
  import opened Types
  import opened Paths
  import opened SliceProfileRules
  import opened CreateRules
  import opened Mutations
  import opened PlmnCodec
  import opened PlmnRoundTrip
  import opened ResourceCodec
  import opened Dispatch
  import opened MutatedChanges

  // ---- what holds of everything that is read ----

  lemma {:induction false} ItemsCome<T>(p: Json -> Parsed<seq<T>>, items: seq<Json>, x: T)
    requires x in ParseItems(p, items).value
    ensures exists j :: j in items && x in p(j).value
  {
    var n := |items| - 1;
    assert items == items[..n] + [items[n]];
    if x in p(items[n]).value {
      assert items[n] in items;
    } else {
      ItemsCome(p, items[..n], x);
    }
  }

  lemma ArrayItemsCome<T>(ms: Members, a: Attribute, p: Json -> Parsed<seq<T>>, path: string, x: T)
    requires x in OrEmpty(ParseArray(ms, a, p, path).value)
    ensures exists j :: x in p(j).value
  {
    ItemsCome(p, Get(ms, a).value.items, x);
  }

  lemma ReadNssaiVendorOk(j: Json, parent: Attribute, path: string)
    ensures forall n :: n in ParseNssaiItem(j, parent, path).value ==> NssaiVendorOk(n)
  {
    hide VendorOf, VendorOk, Get, ParseString, ParseMandatoryInt;
    if j.Obj? {
      NoVendorOk();
      VendorOfIsOk(j.members);
      match Get(j.members, JSON_NSSAI)
      case Some(k) =>
        if k.Obj? {
          VendorOfIsOk(k.members);
        }
      case None =>
    }
  }

  lemma ReadObjectVendorOk(ms: Members, a: Attribute)
    ensures VendorOk([])
    ensures Get(ms, a).Some? && Get(ms, a).value.Obj? ==> VendorOk(VendorOf(Get(ms, a).value.members))
  {
    hide VendorOf, VendorOk, Get;
    NoVendorOk();
    if Get(ms, a).Some? && Get(ms, a).value.Obj? {
      VendorOfIsOk(Get(ms, a).value.members);
    }
  }

  lemma ReadQosVendorOk(ms: Members, path: string)
    ensures VendorOk(ParseQos(ms, path).value.vendorSpecific) && VendorOk(ParseQos(ms, path).value.arp.vendorSpecific)
  {
    hide VendorOf, VendorOk, Get, ParseMandatoryString, ParseMandatoryInt, ParseInt;
    VendorOfIsOk(ms);
    ReadObjectVendorOk(ms, JSON_ARP);
  }

  lemma ReadPduAndSscVendorOk(ms: Members, path: string)
    ensures var pdu := ParseObject(ms, JSON_PDU_SESSION_TYPES, (m: Members) => ParsePduSessionTypes(m, path), PduSessionTypes("", [], false, []), path).value;
            pdu.Some? ==> VendorOk(pdu.value.vendorSpecific)
    ensures var ssc := ParseObject(ms, JSON_SSC_MODES, (m: Members) => ParseSscModes(m, path), SscModes("", [], []), path).value;
            ssc.Some? ==> VendorOk(ssc.value.vendorSpecific)
  {
    hide VendorOf, VendorOk, Get, ParseString, ParseStrings;
    ReadObjectVendorOk(ms, JSON_PDU_SESSION_TYPES);
    ReadObjectVendorOk(ms, JSON_SSC_MODES);
  }

  lemma ReadAmbrAndSecurityVendorOk(ms: Members, path: string)
    ensures var ambr := ParseObject(ms, JSON_SESSION_AMBR, (m: Members) => ParseAmbr(m, path), Ambr("", "", []), path).value;
            ambr.Some? ==> VendorOk(ambr.value.vendorSpecific)
    ensures var up := ParseObject(ms, JSON_UP_SECURITY, (m: Members) => ParseUpSecurity(m, path), UpSecurity("", "", []), path).value;
            up.Some? ==> VendorOk(up.value.vendorSpecific)
  {
    hide VendorOf, VendorOk, Get, ParseString, ParseMandatoryString;
    ReadObjectVendorOk(ms, JSON_SESSION_AMBR);
    ReadObjectVendorOk(ms, JSON_UP_SECURITY);
  }

  lemma ReadQosMemberVendorOk(ms: Members, path: string)
    ensures var qos := ParseObject(ms, JSON_5G_QOS_PROFILE, (m: Members) => ParseQos(m, path), FivegQosProfile(0, NO_ARP, None, []), path).value;
            qos.Some? ==> VendorOk(qos.value.vendorSpecific) && VendorOk(qos.value.arp.vendorSpecific)
  {
    hide VendorOk, Get, ParseQos;
    NoVendorOk();
    match Get(ms, JSON_5G_QOS_PROFILE)
    case Some(k) =>
      if k.Obj? {
        ReadQosVendorOk(k.members, path);
      }
    case None =>
  }

  lemma ReadDnnVendorOk(ms: Members, path: string)
    ensures DnnDataVendorOk(ParseDnnData(ms, path).value)
  {
    hide VendorOf, VendorOk, ParseString, ParseBool, ParseStrings, ParseObject;
    VendorOfIsOk(ms);
    ReadPduAndSscVendorOk(ms, path);
    ReadAmbrAndSecurityVendorOk(ms, path);
    ReadQosMemberVendorOk(ms, path);
  }

  lemma ReadDnnListVendorOk(ms: Members, path: string)
    ensures DnnListVendorOk(ParseDnnList(ms, path).value)
  {
    hide VendorOf, VendorOk, DnnDataVendorOk, ParseArray, ParseDnnData;
    VendorOfIsOk(ms);
    forall d | d in ParseDnnList(ms, path).value.dnnDataList
      ensures DnnDataVendorOk(d)
    {
      ArrayItemsCome(ms, JSON_DNN_DATA_LIST, ParseDnnDataItemOf(path), path, d);
      var j: Json :| d in ParseDnnDataItemOf(path)(j).value;
      ReadDnnVendorOk(j.members, path);
    }
  }

  lemma ReadNssaiListVendorOk(ms: Members, parent: Attribute, path: string)
    ensures forall n :: n in OrEmpty(ParseArray(ms, parent, ParseNssaiItemOf(parent, path), path).value) ==> NssaiVendorOk(n)
  {
    hide NssaiVendorOk, ParseArray, ParseNssaiItem;
    forall n | n in OrEmpty(ParseArray(ms, parent, ParseNssaiItemOf(parent, path), path).value)
      ensures NssaiVendorOk(n)
    {
      ArrayItemsCome(ms, parent, ParseNssaiItemOf(parent, path), path, n);
      var j: Json :| n in ParseNssaiItemOf(parent, path)(j).value;
      ReadNssaiVendorOk(j, parent, path);
    }
  }

  // What reading the nssai member gives: sound vendor members, and the flag of the single
  // S-NSSAIs whenever there are any.
  lemma ReadSliceInfo(ms: Members, path: string)
    ensures var info := ParseSliceInfo(ms, path).value;
            && VendorOk(info.0.vendorSpecific)
            && (forall n :: n in info.0.defaultSingleNssais ==> NssaiVendorOk(n))
            && (forall n :: n in info.0.singleNssais ==> NssaiVendorOk(n))
            && (info.0.singleNssais != [] ==> info.1)
  {
    hide VendorOf, VendorOk, NssaiVendorOk, ParseArray, ParseNssaiItem;
    VendorOfIsOk(ms);
    ReadNssaiListVendorOk(ms, JSON_DEFAULT_SINGLE_NSSAIS, path);
    ReadNssaiListVendorOk(ms, JSON_SINGLE_NSSAIS, path);
  }

  lemma ReadSetOk(ms: Members, isSliceData: bool, path: string)
    ensures var s := ParsePlmnIdSet(ms, isSliceData, path).value;
            PlmnIdSetVendorOk(s) && (s.nssai.singleNssais != [] ==> s.hasNssai)
  {
    hide VendorOf, VendorOk, NssaiVendorOk, DnnListVendorOk, Get, ParseArray, ParseSliceInfo, ParseDnnListItem, ParseMandatoryString;
    NoVendorOk();
    VendorOfIsOk(ms);
    match Get(ms, JSON_NSSAI) {
      case Some(k) =>
        if k.Obj? {
          ReadSliceInfo(k.members, path);
        }
      case None =>
    }
    forall l | l in OrEmpty(ParseArray(ms, JSON_DNN_LISTS, ParseDnnListItemOf(path), path).value)
      ensures DnnListVendorOk(l)
    {
      ArrayItemsCome(ms, JSON_DNN_LISTS, ParseDnnListItemOf(path), path, l);
      var j: Json :| l in ParseDnnListItemOf(path)(j).value;
      ReadListItemOk(j, path);
    }
  }

  lemma ReadListItemOk(j: Json, path: string)
    ensures forall l :: l in ParseDnnListItem(j, path).value ==> DnnListVendorOk(l)
  {
    hide DnnListVendorOk, ParseDnnList;
    if j.Obj? {
      ReadDnnListVendorOk(j.members, path);
    }
  }

  // Every PLMN set that is read has sound vendor-specific members, and hasNssai set when it has
  // single S-NSSAIs.
  lemma ReadSetsOk(items: seq<Json>, isSliceData: bool, path: string)
    ensures forall s :: s in ParsePlmnIdSets(items, isSliceData, path).value ==>
              PlmnIdSetVendorOk(s) && (s.nssai.singleNssais != [] ==> s.hasNssai)
  {
    hide PlmnIdSetVendorOk, ParsePlmnIdSet;
    forall s | s in ParsePlmnIdSets(items, isSliceData, path).value
      ensures PlmnIdSetVendorOk(s) && (s.nssai.singleNssais != [] ==> s.hasNssai)
    {
      ItemsCome(ParsePlmnIdSetItemOf(isSliceData, path), items, s);
      var j :| j in items && s in ParsePlmnIdSetItemOf(isSliceData, path)(j).value;
      ReadSetOk(j.members, isSliceData, path);
    }
  }

  // ---- rewriting and printing ----

  // Rewriting keeps a value in printable form, or out of it.
  lemma MutationKeepsPrintable(s: PlmnIdSet, isSliceData: bool)
    ensures PlmnIdSetPrintable(MutateSet(s), isSliceData) <==> PlmnIdSetPrintable(s, isSliceData)
  {
    hide DnnListPrintable;
    assert IncludeNssai(s.nssai.defaultSingleNssais) == [] <==> s.nssai.defaultSingleNssais == [];
    assert IncludeNssai(s.nssai.singleNssais) == [] <==> s.nssai.singleNssais == [];
  }

  lemma MutationKeepsVendorOk(s: PlmnIdSet)
    requires PlmnIdSetVendorOk(s)
    ensures PlmnIdSetVendorOk(MutateSet(s))
  {
    hide VendorOk, DnnListVendorOk;
    var t := MutateSet(s);
    forall n | n in t.nssai.defaultSingleNssais
      ensures NssaiVendorOk(n)
    {
      var i :| 0 <= i < |t.nssai.defaultSingleNssais| && t.nssai.defaultSingleNssais[i] == n;
      assert s.nssai.defaultSingleNssais[i] in s.nssai.defaultSingleNssais;
    }
    forall n | n in t.nssai.singleNssais
      ensures NssaiVendorOk(n)
    {
      var i :| 0 <= i < |t.nssai.singleNssais| && t.nssai.singleNssais[i] == n;
      assert s.nssai.singleNssais[i] in s.nssai.singleNssais;
    }
  }

  lemma PrintableAsSent(sets: seq<PlmnIdSet>, isSliceData: bool)
    ensures (forall t :: t in MutateSets(sets) ==> PlmnIdSetPrintable(t, isSliceData))
       <==> forall s :: s in sets ==> PlmnIdSetPrintable(s, isSliceData)
  {
    hide PlmnIdSetPrintable, MutateSet;
    var p := (s: PlmnIdSet) => PlmnIdSetPrintable(s, isSliceData);
    forall s | s in sets
      ensures p(MutateSet(s)) <==> p(s)
    {
      MutationKeepsPrintable(s, isSliceData);
    }
    ForallMutated(sets, p, p);
    assert (forall t :: t in MutateSets(sets) ==> PlmnIdSetPrintable(t, isSliceData)) <==> forall t :: t in MutateSets(sets) ==> p(t);
    assert (forall s :: s in sets ==> PlmnIdSetPrintable(s, isSliceData)) <==> forall s :: s in sets ==> p(s);
  }

  // Whatever JSON the PLMN sets were read from: the rewritten sets, written and read again, come
  // back unchanged and without an error exactly when the sets read were in printable form.
  lemma EmittedReadsBack(items: seq<Json>, isSliceData: bool, path: string)
    ensures var sets := ParsePlmnIdSets(items, isSliceData, path).value;
            (ParsePlmnIdSets(EncodePlmnIdSets(MutateSets(sets)), isSliceData, path) == Parsed(MutateSets(sets), []))
              <==> (forall s :: s in sets ==> PlmnIdSetPrintable(s, isSliceData))
  {
    hide ParsePlmnIdSets, EncodePlmnIdSets, PlmnIdSetVendorOk, PlmnIdSetPrintable, MutateSet;
    var sets := ParsePlmnIdSets(items, isSliceData, path).value;
    ReadSetsOk(items, isSliceData, path);
    forall t | t in MutateSets(sets)
      ensures PlmnIdSetVendorOk(t)
    {
      var i :| 0 <= i < |sets| && t == MutateSet(sets[i]);
      MutationKeepsVendorOk(sets[i]);
    }
    PlmnIdSetsRoundTrip(MutateSets(sets), isSliceData, path);
    PrintableAsSent(sets, isSliceData);
  }

  // A slice profile creation that was read and accepted, with dnnLists in every PLMN set, is
  // emitted in a form that is accepted again as it stands, in which every S-NSSAI names a dnnList
  // of its own PLMN set.
  lemma EmittedIsStable(items: seq<Json>, path: string)
    requires var sets := ParsePlmnIdSets(items, false, path).value;
             CreateProfileErrors(sets, path) == [] && forall s :: s in sets ==> s.dnnLists != []
    ensures var sent := MutateSets(ParsePlmnIdSets(items, false, path).value);
            && CreateProfileErrors(sent, path) == []
            && MutateSets(sent) == sent
            && forall s, n :: s in sent && n in AllNssais(s) ==> NamesDnnList(n.dnnListId, s)
  {
    hide ParsePlmnIdSets, CreateProfileErrors, PlmnIdSetVendorOk, MutateSets;
    ReadSetsOk(items, false, path);
    CreateFixpoint(ParsePlmnIdSets(items, false, path).value, path);
  }

  // Writing and reading a rewritten slice profile that was read from ms.
  lemma EmittedProfileReadsBack(ms: Members, path: string)
    ensures var read := ParseSliceProfile(ms, path).value;
            var sent := read.(plmnIdSets := MutateSets(read.plmnIdSets));
            (ParseSliceProfile(EncodeSliceProfile(sent), path) == Parsed(sent, []))
              <==> (forall s :: s in read.plmnIdSets ==> PlmnIdSetPrintable(s, false))
  {
    hide ParseSliceProfile, EncodeSliceProfile, PlmnIdSetPrintable, PlmnIdSetVendorOk, VendorOk, MutateSet;
    var read := ParseSliceProfile(ms, path).value;
    var sent := read.(plmnIdSets := MutateSets(read.plmnIdSets));
    ReadProfileOk(ms, path);
    forall t | t in sent.plmnIdSets
      ensures PlmnIdSetVendorOk(t)
    {
      var i :| 0 <= i < |read.plmnIdSets| && t == MutateSet(read.plmnIdSets[i]);
      MutationKeepsVendorOk(read.plmnIdSets[i]);
    }
    SliceProfileRoundTrip(sent, path);
    PrintableAsSent(read.plmnIdSets, false);
  }

  // Whatever JSON a slice profile was read from.
  lemma ReadProfileOk(ms: Members, path: string)
    ensures var read := ParseSliceProfile(ms, path).value;
            && VendorOk(read.vendorSpecific)
            && forall s :: s in read.plmnIdSets ==> PlmnIdSetVendorOk(s) && (s.nssai.singleNssais != [] ==> s.hasNssai)
  {
    hide ParsePlmnIdSets, PlmnIdSetVendorOk, VendorOk, VendorOf, Get, ParseString;
    VendorOfIsOk(ms);
    match Get(ms, JSON_PLMN_ID_SETS)
    case Some(j) =>
      if j.Arr? {
        ReadSetsOk(j.items, false, path);
      }
    case None =>
  }

  predicate AllPrintable(sets: seq<PlmnIdSet>) {
    forall s :: s in sets ==> PlmnIdSetPrintable(s, false)
  }

  // A slice profile creation through the service: read from ms, accepted with lists in every PLMN
  // set, and emitted. The next reader reads what was sent, without an error, exactly when the sets
  // were in printable form; the change with the profile it reads is accepted again, is not
  // rewritten any more, and its S-NSSAIs all name lists of their own sets.
  lemma CreationThroughTheService(c: Change, ms: Members, rr: RelatedResources)
    requires IsUdmSliceProfile(c.resourcePath) && c.operation == CREATE
    requires ParseSliceProfile(ms, c.resourcePath) == Parsed(c.udmSliceProfile, [])
    requires Accepted(c, rr) && forall s :: s in c.udmSliceProfile.plmnIdSets ==> s.dnnLists != []
    ensures var sent := Mutate(c);
            var readAgain := ParseSliceProfile(EncodeSliceProfile(sent.udmSliceProfile), sent.resourcePath);
            && (readAgain == Parsed(sent.udmSliceProfile, []) <==> AllPrintable(c.udmSliceProfile.plmnIdSets))
            && (readAgain == Parsed(sent.udmSliceProfile, []) ==> Accepted(sent.(udmSliceProfile := readAgain.value), rr))
            && Accepted(sent, rr) && Mutate(sent) == sent
            && forall s, n :: s in sent.udmSliceProfile.plmnIdSets && n in AllNssais(s) ==> NamesDnnList(n.dnnListId, s)
  {
    hide ParseSliceProfile, EncodeSliceProfile, Accepted, IsUdmSliceProfile, Mutate, MutateSets, CreateProfileErrors, PlmnIdSetPrintable,
         NamesDnnList, PlmnIdSetVendorOk;
    var sent := Mutate(c);
    MutateFrame(c);
    MutateOfProfile(c);
    MutateIdempotent(c);
    EmittedProfileReadsBack(ms, c.resourcePath);
    ReadProfileOk(ms, c.resourcePath);
    AcceptedCreation(c, rr);
    AcceptedCreation(sent, rr);
    CreateFixpoint(c.udmSliceProfile.plmnIdSets, c.resourcePath);
    assert sent.(udmSliceProfile := sent.udmSliceProfile) == sent;
  }

  lemma AcceptedCreation(c: Change, rr: RelatedResources)
    requires IsUdmSliceProfile(c.resourcePath) && c.operation == CREATE
    ensures Accepted(c, rr) <==> CreateProfileErrors(c.udmSliceProfile.plmnIdSets, c.resourcePath) == []
  {
    hide CheckChange, IsUdmSliceProfile, CreateProfileErrors;
    CreateAnswer(c, rr);
  }
}
