// The loops of ValidatorRapidJsonParser and ValidatorRapidJsonEncoder: each is proved against the
// function of PlmnCodec or ResourceCodec that specifies it. The attributes of one object that
// holds no list of objects are read and written by those functions themselves.
module ParserEncoder {
  import opened JsonModel
  import opened JsonObjects
  import opened Sequences
  import opened OrderedMaps
  import opened Types
  import opened PlmnCodec
  import opened ResourceCodec
  import V = Validation

  lemma Regroup(e: seq<Error>, a: seq<Error>, b: seq<Error>)
    ensures e + a + b == e + (a + b)
  {
  }

  method GetVendorSpecific(ms: Members) returns (vs: VendorSpecific)
    ensures vs == VendorOf(ms)
  {
    hide IsVendorSpecific, Emplace;
    vs := [];
    for i := 0 to |ms|
      invariant vs == VendorOf(ms[..i])
    {
      assert ms[..i + 1] == ms[..i] + [ms[i]];
      VendorOfSnoc(ms[..i], ms[i]);
      if IsVendorSpecific(ms[i].key) {
        vs := Emplace(vs, ms[i].key, ms[i].value);
      }
    }
    assert ms[..|ms|] == ms;
  }

  class ValidatorRapidJsonParser {
    const data: V.ValidationData

    constructor (data: V.ValidationData)
      ensures this.data == data
    {
      this.data := data;
    }

    method GetNssais(items: seq<Json>, parent: Attribute, path: string) returns (nssais: seq<NssaiDetails>)
      modifies data`errors
      ensures var r := ParseItems(ParseNssaiItemOf(parent, path), items);
              nssais == r.value && data.errors == old(data.errors) + r.errors
    {
      hide ParseNssaiDetails;
      ghost var p, e0 := ParseNssaiItemOf(parent, path), data.errors;
      nssais := [];
      for i := 0 to |items|
        invariant nssais == ParseItems(p, items[..i]).value
        invariant data.errors == e0 + ParseItems(p, items[..i]).errors
      {
        ParseItemsSnoc(p, items, i);
        Regroup(e0, ParseItems(p, items[..i]).errors, p(items[i]).errors);
        var z := items[i];
        if z.Obj? {
          var r := ParseNssaiDetails(z.members, parent, path);
          data.errors := data.errors + r.errors;
          nssais := nssais + [r.value];
        } else {
          data.AddError(ConstraintViolation, path, NotObject(parent));
        }
      }
      assert items[..|items|] == items;
    }

    method GetDnnDataList(items: seq<Json>, path: string) returns (dnnDataList: seq<DnnData>)
      modifies data`errors
      ensures var r := ParseItems(ParseDnnDataItemOf(path), items);
              dnnDataList == r.value && data.errors == old(data.errors) + r.errors
    {
      hide ParseDnnData;
      ghost var p, e0 := ParseDnnDataItemOf(path), data.errors;
      dnnDataList := [];
      for i := 0 to |items|
        invariant dnnDataList == ParseItems(p, items[..i]).value
        invariant data.errors == e0 + ParseItems(p, items[..i]).errors
      {
        ParseItemsSnoc(p, items, i);
        Regroup(e0, ParseItems(p, items[..i]).errors, p(items[i]).errors);
        var b := items[i];
        if b.Obj? {
          var r := ParseDnnData(b.members, path);
          data.errors := data.errors + r.errors;
          dnnDataList := dnnDataList + [r.value];
        } else {
          data.AddError(ConstraintViolation, path, NotObject(JSON_DNN_DATA_LIST));
        }
      }
      assert items[..|items|] == items;
    }

    method GetDnnList(ms: Members, path: string) returns (dnnList: DnnList)
      modifies data`errors
      ensures var r := ParseDnnList(ms, path);
              dnnList == r.value && data.errors == old(data.errors) + r.errors
    {
      hide Get, VendorOf, ParseMandatoryString, ParseItems;
      ghost var e0 := data.errors;
      var vendor := GetVendorSpecific(ms);
      var id := ParseMandatoryString(ms, JSON_DNN_LIST_ID, JSON_DNN_LISTS, path);
      data.errors := data.errors + id.errors;
      var dnnDataList: seq<DnnData> := [];
      var member := Get(ms, JSON_DNN_DATA_LIST);
      if member.Some? {
        if member.value.Arr? {
          dnnDataList := GetDnnDataList(member.value.items, path);
        } else {
          data.AddError(ConstraintViolation, path, NotArray(JSON_DNN_DATA_LIST));
        }
      }
      Regroup(e0, id.errors, ParseArray(ms, JSON_DNN_DATA_LIST, ParseDnnDataItemOf(path), path).errors);
      dnnList := DnnList(id.value, dnnDataList, vendor);
    }

    method GetDnnLists(items: seq<Json>, path: string) returns (dnnLists: seq<DnnList>)
      modifies data`errors
      ensures var r := ParseItems(ParseDnnListItemOf(path), items);
              dnnLists == r.value && data.errors == old(data.errors) + r.errors
    {
      hide ParseDnnList;
      ghost var p, e0 := ParseDnnListItemOf(path), data.errors;
      dnnLists := [];
      for i := 0 to |items|
        invariant dnnLists == ParseItems(p, items[..i]).value
        invariant data.errors == e0 + ParseItems(p, items[..i]).errors
      {
        ParseItemsSnoc(p, items, i);
        Regroup(e0, ParseItems(p, items[..i]).errors, p(items[i]).errors);
        var z := items[i];
        if z.Obj? {
          var dnnList := GetDnnList(z.members, path);
          dnnLists := dnnLists + [dnnList];
        } else {
          data.AddError(ConstraintViolation, path, NotObject(JSON_DNN_LISTS));
        }
      }
      assert items[..|items|] == items;
    }

    // An optional member that is an array of S-NSSAIs, and whether it is there.
    method GetNssaiMember(ms: Members, a: Attribute, path: string) returns (nssais: seq<NssaiDetails>, present: bool)
      modifies data`errors
      ensures var r := ParseArray(ms, a, ParseNssaiItemOf(a, path), path);
              nssais == OrEmpty(r.value) && present == r.value.Some? && data.errors == old(data.errors) + r.errors
    {
      hide Get, ParseItems;
      nssais, present := [], false;
      var member := Get(ms, a);
      if member.Some? {
        present := true;
        if member.value.Arr? {
          nssais := GetNssais(member.value.items, a, path);
        } else {
          data.AddError(ConstraintViolation, path, NotArray(a));
        }
      }
    }

    method GetSliceInfo(ms: Members, path: string) returns (nssai: SliceInfoNssai, hasNssai: bool)
      modifies data`errors
      ensures var r := ParseSliceInfo(ms, path);
              (nssai, hasNssai) == r.value && data.errors == old(data.errors) + r.errors
    {
      hide VendorOf, ParseArray;
      ghost var e0 := data.errors;
      var vendor := GetVendorSpecific(ms);
      var defaults, _ := GetNssaiMember(ms, JSON_DEFAULT_SINGLE_NSSAIS, path);
      var singles, present := GetNssaiMember(ms, JSON_SINGLE_NSSAIS, path);
      Regroup(e0, ParseArray(ms, JSON_DEFAULT_SINGLE_NSSAIS, ParseNssaiItemOf(JSON_DEFAULT_SINGLE_NSSAIS, path), path).errors,
              ParseArray(ms, JSON_SINGLE_NSSAIS, ParseNssaiItemOf(JSON_SINGLE_NSSAIS, path), path).errors);
      nssai, hasNssai := SliceInfoNssai(defaults, singles, vendor), present;
    }

    // The nssai member of a PLMN set and the rule that it must name a default S-NSSAI.
    method GetNssaiOfSet(ms: Members, path: string) returns (nssai: SliceInfoNssai, hasNssai: bool, hasAnyNssai: bool)
      modifies data`errors
      ensures var r := ParseObject(ms, JSON_NSSAI, (m: Members) => ParseSliceInfo(m, path), (NO_NSSAI, false), path);
              var noDefault := if r.value.Some? && |r.value.value.0.defaultSingleNssais| == 0 then [Violation(path, NoDefaultSingleNssai)] else [];
              && (nssai, hasNssai) == (if r.value.Some? then r.value.value else (NO_NSSAI, false))
              && hasAnyNssai == r.value.Some?
              && data.errors == old(data.errors) + (r.errors + noDefault)
    {
      hide Get, ParseSliceInfo;
      nssai, hasNssai, hasAnyNssai := NO_NSSAI, false, false;
      var member := Get(ms, JSON_NSSAI);
      if member.Some? {
        hasAnyNssai := true;
        if member.value.Obj? {
          nssai, hasNssai := GetSliceInfo(member.value.members, path);
        } else {
          data.AddError(ConstraintViolation, path, NotObject(JSON_NSSAI));
        }
      }
      if hasAnyNssai && |nssai.defaultSingleNssais| == 0 {
        data.AddError(ConstraintViolation, path, NoDefaultSingleNssai);
      }
    }

    method GetPlmnIdSet(ms: Members, isSliceData: bool, path: string) returns (s: PlmnIdSet)
      modifies data`errors
      ensures var r := ParsePlmnIdSet(ms, isSliceData, path);
              s == r.value && data.errors == old(data.errors) + r.errors
    {
      hide Get, VendorOf, ParseMandatoryString, ParseObject, ParseItems;
      ghost var e0 := data.errors;
      var vendor := GetVendorSpecific(ms);
      var id := ParseMandatoryString(ms, JSON_PLMN_ID_SET_IDENTIFIER, JSON_PLMN_ID_SETS, path);
      data.errors := data.errors + id.errors;
      var nssai, hasNssai, hasAnyNssai := GetNssaiOfSet(ms, path);
      ghost var e2 := data.errors;
      var dnnLists: seq<DnnList> := [];
      var member := Get(ms, JSON_DNN_LISTS);
      if member.Some? {
        if member.value.Arr? {
          dnnLists := GetDnnLists(member.value.items, path);
        } else {
          data.AddError(ConstraintViolation, path, NotArray(JSON_DNN_LISTS));
        }
      } else if !isSliceData {
        data.AddError(ConstraintViolation, path, MissingField(JSON_DNN_LISTS, JSON_PLMN_ID_SETS));
      }
      ghost var r := ParseObject(ms, JSON_NSSAI, (m: Members) => ParseSliceInfo(m, path), (NO_NSSAI, false), path);
      ghost var noDefault := if r.value.Some? && |r.value.value.0.defaultSingleNssais| == 0 then [Violation(path, NoDefaultSingleNssai)] else [];
      ghost var lists := ParseArray(ms, JSON_DNN_LISTS, ParseDnnListItemOf(path), path);
      ghost var missing := if lists.value.None? && !isSliceData then [Violation(path, MissingField(JSON_DNN_LISTS, JSON_PLMN_ID_SETS))] else [];
      assert data.errors == e2 + (lists.errors + missing);
      RegroupFive(e0, id.errors, r.errors, noDefault, lists.errors, missing);
      s := PlmnIdSet(id.value, nssai, dnnLists, hasNssai, hasAnyNssai, vendor);
    }

    // getPlmnIdSets: the items must be objects.
    method GetPlmnIdSets(items: seq<Json>, isSliceData: bool, path: string) returns (sets: seq<PlmnIdSet>)
      requires forall j :: j in items ==> j.Obj?
      modifies data`errors
      ensures var r := ParsePlmnIdSets(items, isSliceData, path);
              sets == r.value && data.errors == old(data.errors) + r.errors
    {
      hide ParsePlmnIdSet;
      ghost var p, e0 := ParsePlmnIdSetItemOf(isSliceData, path), data.errors;
      sets := [];
      for i := 0 to |items|
        invariant sets == ParseItems(p, items[..i]).value
        invariant data.errors == e0 + ParseItems(p, items[..i]).errors
      {
        ParseItemsSnoc(p, items, i);
        Regroup(e0, ParseItems(p, items[..i]).errors, p(items[i]).errors);
        var plmnIdSet := GetPlmnIdSet(items[i].members, isSliceData, path);
        sets := sets + [plmnIdSet];
      }
      assert items[..|items|] == items;
    }

    method GetUdmRoamingAreas(ms: Members, path: string) returns (area: UdmRoamingArea)
      modifies data`errors
      ensures var r := ParseRoamingArea(ms, path);
              area == r.value && data.errors == old(data.errors) + r.errors
    {
      hide Get, VendorOf, ParseString, ParseArea;
      ghost var e0 := data.errors;
      ghost var p := ParseAreaItemOf(path);
      var vendor := GetVendorSpecific(ms);
      var id := ParseString(ms, JSON_UDM_ROAMING_AREA_ID, path);
      data.errors := data.errors + id.errors;
      var areaList: seq<AreaListElement> := [];
      var member := Get(ms, JSON_AREA_LIST);
      ghost var e1 := data.errors;
      if member.Some? {
        if member.value.Arr? {
          var items := member.value.items;
          for i := 0 to |items|
            invariant areaList == ParseItems(p, items[..i]).value
            invariant data.errors == e1 + ParseItems(p, items[..i]).errors
          {
            ParseItemsSnoc(p, items, i);
            Regroup(e1, ParseItems(p, items[..i]).errors, p(items[i]).errors);
            if items[i].Obj? {
              var r := ParseArea(items[i].members, path);
              data.errors := data.errors + r.errors;
              areaList := areaList + [r.value];
            } else {
              data.AddError(ConstraintViolation, path, NotObject(JSON_AREA_LIST));
            }
          }
          assert items[..|items|] == items;
        } else {
          data.AddError(ConstraintViolation, path, NotArray(JSON_AREA_LIST));
        }
      }
      Regroup(e0, id.errors, ParseArray(ms, JSON_AREA_LIST, p, path).errors);
      area := UdmRoamingArea(id.value, areaList, vendor);
    }

    // getRelatedResources: one pass over the members, the first of a path kept.
    method GetRelatedResources(ms: Members)
      modifies data`errors, data`relatedResources
      requires data.relatedResources == []
      ensures data.relatedResources == ParseRelated(ms).value
      ensures data.errors == old(data.errors) + ParseRelated(ms).errors
    {
      hide ParseResource, Emplace;
      ghost var e0 := data.errors;
      for i := 0 to |ms|
        invariant data.relatedResources == ParseRelated(ms[..i]).value
        invariant data.errors == e0 + ParseRelated(ms[..i]).errors
      {
        ParseRelatedSnoc(ms, i);
        var r := ParseResource(ms[i].key, ms[i].value);
        Regroup(e0, ParseRelated(ms[..i]).errors, r.errors);
        data.errors := data.errors + r.errors;
        if r.value.Some? {
          data.relatedResources := Emplace(data.relatedResources, ms[i].key, r.value.value);
        }
      }
      assert ms[..|ms|] == ms;
    }
  }

  lemma RegroupFive(e: seq<Error>, a: seq<Error>, b: seq<Error>, c: seq<Error>, d: seq<Error>, f: seq<Error>)
    ensures e + a + (b + c) + (d + f) == e + (a + b + c + d + f)
  {
    assert a + b + c + d + f == a + (b + c) + (d + f);
    Regroup(e, a, b + c);
    Regroup(e, a + (b + c), d + f);
  }

  // ---- the encoder ----

  // vendorSpecificToJson.
  method VendorSpecificToJson(ms: Members, vs: VendorSpecific) returns (ms': Members)
    ensures ms' == ms + vs
  {
    ms' := ms;
    for i := 0 to |vs|
      invariant ms' == ms + vs[..i]
    {
      ms' := ms' + [vs[i]];
    }
    assert vs[..|vs|] == vs;
  }

  // One AddMember for each field that is present.
  method AddFields(ms: Members, fs: seq<Field>) returns (ms': Members)
    ensures ms' == ms + Present(fs)
  {
    hide Name;
    ms' := ms;
    for i := 0 to |fs|
      invariant ms' == ms + Present(fs[..i])
    {
      FlatMapSnoc(PresentOf(), fs, i);
      if fs[i].value.Some? {
        ms' := ms' + [Entry(Name(fs[i].attribute), fs[i].value.value)];
      }
    }
    assert fs[..|fs|] == fs;
  }

  method WriteObject(vs: VendorSpecific, fs: seq<Field>) returns (j: Json)
    ensures j == ObjectOf(vs, fs)
  {
    var ms := VendorSpecificToJson([], vs);
    ms := AddFields(ms, fs);
    return Obj(ms);
  }

  method NssaisToJson(ns: seq<NssaiDetails>) returns (js: seq<Json>)
    ensures js == EncodeAll(EncodeNssaiDetailsOf(), ns)
  {
    hide ObjectOf, NssaiDetailsFields;
    js := [];
    for i := 0 to |ns|
      invariant js == EncodeAll(EncodeNssaiDetailsOf(), ns[..i])
    {
      var obj := WriteObject(ns[i].vendorSpecific, NssaiDetailsFields(ns[i]));
      js := js + [obj];
    }
    assert ns[..|ns|] == ns;
  }

  method DnnDataListToJson(ds: seq<DnnData>) returns (js: seq<Json>)
    ensures js == EncodeAll(EncodeDnnDataOf(), ds)
  {
    hide ObjectOf, DnnDataFields;
    js := [];
    for i := 0 to |ds|
      invariant js == EncodeAll(EncodeDnnDataOf(), ds[..i])
    {
      var obj := WriteObject(ds[i].vendorSpecific, DnnDataFields(ds[i]));
      js := js + [obj];
    }
    assert ds[..|ds|] == ds;
  }

  method DnnListsToJson(ls: seq<DnnList>) returns (js: seq<Json>)
    ensures js == EncodeAll(EncodeDnnListOf(), ls)
  {
    hide ObjectOf, EncodeDnnDataOf;
    js := [];
    for i := 0 to |ls|
      invariant js == EncodeAll(EncodeDnnListOf(), ls[..i])
    {
      var dnnDataList := DnnDataListToJson(ls[i].dnnDataList);
      var obj := WriteObject(ls[i].vendorSpecific,
                             [StringField(JSON_DNN_LIST_ID, ls[i].dnnListId), ListField(JSON_DNN_DATA_LIST, dnnDataList)]);
      js := js + [obj];
    }
    assert ls[..|ls|] == ls;
  }

  method NssaiToJson(s: PlmnIdSet) returns (j: Option<Json>)
    ensures j == NssaiJson(s)
  {
    hide ObjectOf, EncodeNssaiDetailsOf;
    j := None;
    if s.hasAnyNssai {
      var defaults := NssaisToJson(s.nssai.defaultSingleNssais);
      var singles := Field(JSON_SINGLE_NSSAIS, None);
      if s.hasNssai {
        var items := NssaisToJson(s.nssai.singleNssais);
        singles := ListField(JSON_SINGLE_NSSAIS, items);
      }
      var obj := WriteObject(s.nssai.vendorSpecific, [ListField(JSON_DEFAULT_SINGLE_NSSAIS, defaults), singles]);
      j := Some(obj);
    }
  }

  // plmnIdsToJson.
  method PlmnIdsToJson(sets: seq<PlmnIdSet>) returns (js: seq<Json>)
    ensures js == EncodePlmnIdSets(sets)
  {
    hide ObjectOf, EncodeDnnListOf, NssaiJson;
    js := [];
    for i := 0 to |sets|
      invariant js == EncodePlmnIdSets(sets[..i])
    {
      var nssai := NssaiToJson(sets[i]);
      var dnnLists := DnnListsToJson(sets[i].dnnLists);
      var obj := WriteObject(sets[i].vendorSpecific,
                             [StringField(JSON_PLMN_ID_SET_IDENTIFIER, sets[i].plmnIdSetIdentifier),
                              Field(JSON_NSSAI, nssai), ListField(JSON_DNN_LISTS, dnnLists)]);
      js := js + [obj];
    }
    assert sets[..|sets|] == sets;
  }

  method UdmSliceProfileToJson(p: UdmSliceProfile) returns (ms: Members)
    ensures ms == EncodeSliceProfile(p)
  {
    hide EncodePlmnIdSets, Present;
    ms := VendorSpecificToJson([], p.vendorSpecific);
    var sets := PlmnIdsToJson(p.plmnIdSets);
    ms := AddFields(ms, [StringField(JSON_UDM_SLICE_PROFILE_ID, p.udmSliceProfileId), ListField(JSON_PLMN_ID_SETS, sets)]);
  }

  method UdmRoamingAreaToJson(r: UdmRoamingArea) returns (ms: Members)
    ensures ms == EncodeRoamingArea(r)
  {
    hide ObjectOf, Present, AreaFields;
    var areas: seq<Json> := [];
    for i := 0 to |r.areaList|
      invariant areas == EncodeAll(EncodeAreaOf(), r.areaList[..i])
    {
      var obj := WriteObject(r.areaList[i].vendorSpecific, AreaFields(r.areaList[i]));
      areas := areas + [obj];
    }
    assert r.areaList[..|r.areaList|] == r.areaList;
    ms := VendorSpecificToJson([], r.vendorSpecific);
    ms := AddFields(ms, [StringField(JSON_UDM_ROAMING_AREA_ID, r.udmRoamingAreaId), ListField(JSON_AREA_LIST, areas)]);
  }
}
