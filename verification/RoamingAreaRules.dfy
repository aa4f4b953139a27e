// The rules of roaming areas (ValidationData::checkForCommonUdmRoamingAreaRules).
module RoamingAreaRules {
  import opened Sequences
  import opened Text
  import opened Types
  import opened SliceProfileRules

  function TacErrorsOf(path: string): string -> seq<Error> {
    (tac: string) => Check(IsTac(tac), path, InvalidTac)
  }

  function AreaErrors(a: AreaListElement, path: string): (es: seq<Error>)
    ensures Violations(es, path)
  {
    match a.area
    case AreaCode(_) => []
    case Tacs(tacs) =>
      FlatMapViolations(TacErrorsOf(path), tacs, path);
      Check(|tacs| >= 1, path, EmptyTacs) + FlatMap(TacErrorsOf(path), tacs)
  }

  function AreaErrorsOf(path: string): AreaListElement -> seq<Error> {
    (a: AreaListElement) => AreaErrors(a, path)
  }

  function RoamingAreaErrors(r: UdmRoamingArea, path: string): (es: seq<Error>)
    ensures Violations(es, path)
  {
    FlatMapViolations(AreaErrorsOf(path), r.areaList, path);
    Check(|r.areaList| >= 1, path, EmptyAreaList) + FlatMap(AreaErrorsOf(path), r.areaList)
  }

  // A roaming area is accepted exactly when it has areas and every list of TACs in it is
  // non-empty and well formed.
  lemma RoamingAreaAccept(r: UdmRoamingArea, path: string)
    ensures RoamingAreaErrors(r, path) == []
       <==> r.areaList != []
            && forall a :: a in r.areaList && a.area.Tacs? ==> a.area.tacs != [] && forall t :: t in a.area.tacs ==> IsTac(t)
  {
    FlatMapEmpty(AreaErrorsOf(path), r.areaList);
    forall a: AreaListElement
      ensures AreaErrors(a, path) == []
         <==> (a.area.Tacs? ==> a.area.tacs != [] && forall t :: t in a.area.tacs ==> IsTac(t))
    {
      if a.area.Tacs? {
        FlatMapEmpty(TacErrorsOf(path), a.area.tacs);
      }
    }
  }
}
