// The part of the rapidjson document model that the parser and the encoder use.
module JsonModel {
  import opened OrderedMaps

  datatype Json =
    | Null
    | Bool(b: bool)
    | Num(n: int)
    | Real(r: real)
    | Str(s: string)
    | Arr(items: seq<Json>)
    | Obj(members: seq<Entry<Json>>)
  {
    // IsInt: an integer of 32 bits.
    predicate IsInt() {
      Num? && -0x8000_0000 <= n < 0x8000_0000
    }
  }

  datatype Option<+T> = None | Some(value: T)

  // FindMember: the first member of that name.
  function Member(ms: seq<Entry<Json>>, name: string): Option<Json> {
    if Has(ms, name) then Some(At(ms, name)) else None
  }
}
