// Repetitions in one request (ValidationData::checkForRepeatedDnnsandNssais): S-NSSAIs within a
// PLMN set, DNNs within a dnnList.
module CreateRules {
  import opened Sequences
  import opened Text
  import opened Types

  // What two S-NSSAIs are compared by: sst and the lower-cased sd.
  datatype NssaiKey = NssaiKey(sst: int, sd: string)

  function KeyOf(n: NssaiDetails): NssaiKey {
    NssaiKey(n.nssai.sst, ToLower(n.nssai.sd))
  }

  function NssaiKeys(ns: seq<NssaiDetails>): (keys: seq<NssaiKey>)
    ensures |keys| == |ns|
  {
    seq(|ns|, i requires 0 <= i < |ns| => KeyOf(ns[i]))
  }

  function LowerDnnOf(): DnnData -> seq<string> {
    (d: DnnData) => if d.dnn == "" then [] else [ToLower(d.dnn)]
  }

  // The non-empty DNNs of a list, lower-cased.
  function LowerDnns(ds: seq<DnnData>): seq<string> {
    FlatMap(LowerDnnOf(), ds)
  }

  // One error for each place whose key stands at an earlier place too.
  function RepeatErrors<K(==)>(keys: seq<K>, e: Error): (es: seq<Error>)
    ensures forall x :: x in es ==> x == e
  {
    if keys == [] then [] else
      var n := |keys| - 1;
      RepeatErrors(keys[..n], e) + (if keys[n] in keys[..n] then [e] else [])
  }

  lemma RepeatErrorsSnoc<K>(keys: seq<K>, k: K, e: Error)
    ensures RepeatErrors(keys + [k], e) == RepeatErrors(keys, e) + (if k in keys then [e] else [])
  {
    assert (keys + [k])[..|keys + [k]| - 1] == keys;
  }

  lemma RepeatErrorsOfNone<K>(e: Error)
    ensures RepeatErrors<K>([], e) == []
  {
  }

  lemma KeysAreLower(ns: seq<NssaiDetails>)
    ensures forall k :: k in NssaiKeys(ns) ==> ToLower(k.sd) == k.sd
  {
    forall i | 0 <= i < |ns|
      ensures ToLower(KeyOf(ns[i]).sd) == KeyOf(ns[i]).sd
    {
      ToLowerIdempotent(ns[i].nssai.sd);
    }
  }

  // Entries minus distinct entries.
  lemma {:induction false} RepeatErrorsCount<K>(keys: seq<K>, e: Error)
    ensures |RepeatErrors(keys, e)| == |keys| - |Elements(keys)|
  {
    if keys != [] {
      var n := |keys| - 1;
      RepeatErrorsCount(keys[..n], e);
      var seen := Elements(keys[..n]);
      ElementsSnoc(keys[..n], keys[n]);
      assert keys[..n] + [keys[n]] == keys;
      if keys[n] in keys[..n] {
        assert seen + {keys[n]} == seen;
      } else {
        assert keys[n] !in seen;
      }
    }
  }

  lemma {:induction false} RepeatErrorsNone<K>(keys: seq<K>, e: Error)
    ensures RepeatErrors(keys, e) == [] <==> Distinct(keys)
  {
    if keys != [] {
      var n := |keys| - 1;
      RepeatErrorsNone(keys[..n], e);
      assert keys == keys[..n] + [keys[n]];
      DistinctSnoc(keys[..n], keys[n]);
    }
  }

  function NssaiError(path: string): Error {
    Violation(path, RepeatedNssai)
  }

  function DnnError(path: string): Error {
    Violation(path, RepeatedDnn)
  }

  function AllNssais(s: PlmnIdSet): seq<NssaiDetails> {
    s.nssai.defaultSingleNssais + s.nssai.singleNssais
  }

  function DnnRepeatErrors(l: DnnList, path: string): seq<Error> {
    RepeatErrors(LowerDnns(l.dnnDataList), DnnError(path))
  }

  function DnnRepeatErrorsOf(path: string): DnnList -> seq<Error> {
    (l: DnnList) => DnnRepeatErrors(l, path)
  }

  function SetRepeatErrors(s: PlmnIdSet, path: string): seq<Error> {
    RepeatErrors(NssaiKeys(AllNssais(s)), NssaiError(path)) + FlatMap(DnnRepeatErrorsOf(path), s.dnnLists)
  }

  function SetRepeatErrorsOf(path: string): PlmnIdSet -> seq<Error> {
    (s: PlmnIdSet) => SetRepeatErrors(s, path)
  }

  function CreateErrors(sets: seq<PlmnIdSet>, path: string): seq<Error> {
    FlatMap(SetRepeatErrorsOf(path), sets)
  }

  lemma CreateErrorsAreViolations(sets: seq<PlmnIdSet>, path: string)
    ensures Violations(CreateErrors(sets, path), path)
  {
    forall e | e in CreateErrors(sets, path)
      ensures e.message == ConstraintViolation && e.resourcePath == path
    {
      FlatMapIn(SetRepeatErrorsOf(path), sets, e);
      var i :| 0 <= i < |sets| && e in SetRepeatErrors(sets[i], path);
      FlatMapIn(DnnRepeatErrorsOf(path), sets[i].dnnLists, e);
    }
  }

  predicate SetDistinct(s: PlmnIdSet) {
    && Distinct(NssaiKeys(AllNssais(s)))
    && forall l :: l in s.dnnLists ==> Distinct(LowerDnns(l.dnnDataList))
  }

  // No error exactly when in every PLMN set the S-NSSAIs (default and single together) are
  // pairwise distinct and so are the DNNs of every list.
  lemma CreateRulesAccept(sets: seq<PlmnIdSet>, path: string)
    ensures CreateErrors(sets, path) == [] <==> forall s :: s in sets ==> SetDistinct(s)
  {
    FlatMapEmpty(SetRepeatErrorsOf(path), sets);
    forall s
      ensures SetRepeatErrors(s, path) == [] <==> SetDistinct(s)
    {
      RepeatErrorsNone(NssaiKeys(AllNssais(s)), NssaiError(path));
      FlatMapEmpty(DnnRepeatErrorsOf(path), s.dnnLists);
      forall l
        ensures DnnRepeatErrors(l, path) == [] <==> Distinct(LowerDnns(l.dnnDataList))
      {
        RepeatErrorsNone(LowerDnns(l.dnnDataList), DnnError(path));
      }
    }
  }

  // Entries minus distinct entries, for one PLMN set as a whole.
  function DnnSurplus(ls: seq<DnnList>): int {
    if ls == [] then 0 else
      var n := |ls| - 1;
      DnnSurplus(ls[..n]) + |LowerDnns(ls[n].dnnDataList)| - |Elements(LowerDnns(ls[n].dnnDataList))|
  }

  lemma SetRepeatErrorsCount(s: PlmnIdSet, path: string)
    ensures |SetRepeatErrors(s, path)|
         == |AllNssais(s)| - |Elements(NssaiKeys(AllNssais(s)))| + DnnSurplus(s.dnnLists)
  {
    RepeatErrorsCount(NssaiKeys(AllNssais(s)), NssaiError(path));
    DnnRepeatErrorsCount(s.dnnLists, path);
  }

  lemma {:induction false} DnnRepeatErrorsCount(ls: seq<DnnList>, path: string)
    ensures |FlatMap(DnnRepeatErrorsOf(path), ls)| == DnnSurplus(ls)
  {
    if ls != [] {
      var n := |ls| - 1;
      DnnRepeatErrorsCount(ls[..n], path);
      RepeatErrorsCount(LowerDnns(ls[n].dnnDataList), DnnError(path));
    }
  }
}
