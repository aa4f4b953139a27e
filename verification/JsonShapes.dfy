// The types that JSON members must have, as data: a shape for each object that is read, what
// deviates from it, and when nothing does.
module JsonShapes {
  import opened JsonModel
  import opened JsonObjects
  import opened Types

  datatype Shape =
    | Text
    | Number                              // an integer of 32 bits
    | Flag
    | Texts                               // an array of texts
    | Object(fields: seq<FieldShape>)
    | Objects(fields: seq<FieldShape>)    // an array of objects

  // A member; mandatory names the object that its absence is reported for.
  datatype FieldShape = FieldShape(attribute: Attribute, shape: Shape, mandatory: Option<Attribute>)

  // ---- what deviates, in document order of the fields ----

  function FieldFaults(f: FieldShape, j: Option<Json>, path: string): seq<Error>
    decreases f, 0, 0
  {
    match j
    case None => if f.mandatory.Some? then [Violation(path, MissingField(f.attribute, f.mandatory.value))] else []
    case Some(v) =>
      match f.shape
      case Text => if v.Str? then [] else [Violation(path, NotString(f.attribute))]
      case Number => if v.IsInt() then [] else [Violation(path, NotInt(f.attribute))]
      case Flag => if v.Bool? then [] else [Violation(path, NotBool(f.attribute))]
      case Texts => if v.Arr? then TextFaults(f.attribute, v.items, path) else [Violation(path, NotArray(f.attribute))]
      case Object(fields) => if v.Obj? then Faults(fields, v.members, path) else [Violation(path, NotObject(f.attribute))]
      case Objects(fields) =>
        if v.Arr? then ItemFaults(f.attribute, fields, v.items, path) else [Violation(path, NotArray(f.attribute))]
  }

  function TextFaults(a: Attribute, items: seq<Json>, path: string): seq<Error> {
    if items == [] then [] else
      var n := |items| - 1;
      TextFaults(a, items[..n], path) + if items[n].Str? then [] else [Violation(path, NotString(a))]
  }

  function Faults(fields: seq<FieldShape>, ms: Members, path: string): seq<Error>
    decreases fields, 0, |fields|
  {
    if fields == [] then [] else
      var n := |fields| - 1;
      Faults(fields[..n], ms, path) + FieldFaults(fields[n], Get(ms, fields[n].attribute), path)
  }

  function ItemFaults(a: Attribute, fields: seq<FieldShape>, items: seq<Json>, path: string): seq<Error>
    decreases fields, 1, |items|
  {
    if items == [] then [] else
      var n := |items| - 1;
      ItemFaults(a, fields, items[..n], path)
      + if items[n].Obj? then Faults(fields, items[n].members, path) else [Violation(path, NotObject(a))]
  }

  // ---- when nothing deviates ----

  predicate HasShape(shape: Shape, v: Json)
    decreases shape, 0
  {
    match shape
    case Text => v.Str?
    case Number => v.IsInt()
    case Flag => v.Bool?
    case Texts => v.Arr? && forall i :: i in v.items ==> i.Str?
    case Object(fields) => v.Obj? && WellTyped(fields, v.members)
    case Objects(fields) => v.Arr? && forall i :: i in v.items ==> i.Obj? && WellTyped(fields, i.members)
  }

  // Every member looked for is absent or of its shape, and the mandatory ones are there.
  predicate WellTyped(fields: seq<FieldShape>, ms: Members)
    decreases fields, 0
  {
    forall i :: 0 <= i < |fields| ==> FieldFits(fields[i], Get(ms, fields[i].attribute))
  }

  predicate FieldFits(f: FieldShape, j: Option<Json>)
    decreases f, 0
  {
    match j
    case None => f.mandatory.None?
    case Some(v) => HasShape(f.shape, v)
  }

  lemma {:induction false} TextFaultsNone(a: Attribute, items: seq<Json>, path: string)
    ensures TextFaults(a, items, path) == [] <==> forall i :: i in items ==> i.Str?
  {
    if items != [] {
      var n := |items| - 1;
      assert items == items[..n] + [items[n]];
      TextFaultsNone(a, items[..n], path);
    }
  }

  lemma {:induction false} FieldFaultsNone(f: FieldShape, j: Option<Json>, path: string)
    ensures FieldFaults(f, j, path) == [] <==> FieldFits(f, j)
    decreases f, 0, 0
  {
    if j.Some? {
      var v := j.value;
      match f.shape
      case Text =>
      case Number =>
      case Flag =>
      case Texts =>
        if v.Arr? {
          TextFaultsNone(f.attribute, v.items, path);
        }
      case Object(fields) =>
        if v.Obj? {
          FaultsNone(fields, v.members, path);
        }
      case Objects(fields) =>
        if v.Arr? {
          ItemFaultsNone(f.attribute, fields, v.items, path);
        }
    }
  }

  // Nothing deviates exactly when the object is well typed.
  lemma {:induction false} FaultsNone(fields: seq<FieldShape>, ms: Members, path: string)
    ensures Faults(fields, ms, path) == [] <==> WellTyped(fields, ms)
    decreases fields, 0, |fields|
  {
    hide Get, FieldFits, FieldFaults;
    if fields == [] {
      NoFields(ms, path);
    }
    if fields != [] {
      var n := |fields| - 1;
      FaultsNone(fields[..n], ms, path);
      FieldFaultsNone(fields[n], Get(ms, fields[n].attribute), path);
      WellTypedSnoc(fields, ms);
      FaultsSnoc(fields, ms, path);
    }
  }

  lemma NoFields(ms: Members, path: string)
    ensures Faults([], ms, path) == [] && WellTyped([], ms)
  {
  }

  lemma FaultsSnoc(fields: seq<FieldShape>, ms: Members, path: string)
    requires fields != []
    ensures var n := |fields| - 1;
            Faults(fields, ms, path) == Faults(fields[..n], ms, path) + FieldFaults(fields[n], Get(ms, fields[n].attribute), path)
  {
    hide FieldFaults, Get;
  }

  lemma WellTypedSnoc(fields: seq<FieldShape>, ms: Members)
    requires fields != []
    ensures var n := |fields| - 1;
            WellTyped(fields, ms) <==> WellTyped(fields[..n], ms) && FieldFits(fields[n], Get(ms, fields[n].attribute))
  {
    hide FieldFits, Get;
    assert forall i :: 0 <= i < |fields| - 1 ==> fields[..|fields| - 1][i] == fields[i];
  }

  lemma {:induction false} ItemFaultsNone(a: Attribute, fields: seq<FieldShape>, items: seq<Json>, path: string)
    ensures ItemFaults(a, fields, items, path) == [] <==> forall i :: i in items ==> i.Obj? && WellTyped(fields, i.members)
    decreases fields, 1, |items|
  {
    if items != [] {
      var n := |items| - 1;
      assert items == items[..n] + [items[n]];
      ItemFaultsNone(a, fields, items[..n], path);
      if items[n].Obj? {
        FaultsNone(fields, items[n].members, path);
      }
    }
  }

  // ---- one deviation ----

  // What a member of the wrong type at its top is reported as.
  function WrongType(f: FieldShape): Description {
    match f.shape
    case Text => NotString(f.attribute)
    case Number => NotInt(f.attribute)
    case Flag => NotBool(f.attribute)
    case Texts | Objects(_) => NotArray(f.attribute)
    case Object(_) => NotObject(f.attribute)
  }

  // The value is of the wrong type at its top.
  predicate IsWrong(shape: Shape, v: Json) {
    match shape
    case Text => !v.Str?
    case Number => !v.IsInt()
    case Flag => !v.Bool?
    case Texts | Objects(_) => !v.Arr?
    case Object(_) => !v.Obj?
  }

  // When all members but one fit, the deviations are those of that one: exactly one error when it
  // is of the wrong type, and exactly one when it is missing.
  lemma {:induction false} OneFault(fields: seq<FieldShape>, ms: Members, k: nat, path: string)
    requires k < |fields|
    requires forall i :: 0 <= i < |fields| && i != k ==> FieldFits(fields[i], Get(ms, fields[i].attribute))
    ensures var f, j := fields[k], Get(ms, fields[k].attribute);
            && Faults(fields, ms, path) == FieldFaults(f, j, path)
            && (j.Some? && IsWrong(f.shape, j.value) ==> Faults(fields, ms, path) == [Violation(path, WrongType(f))])
            && (j.None? && f.mandatory.Some? ==> Faults(fields, ms, path) == [Violation(path, MissingField(f.attribute, f.mandatory.value))])
    decreases |fields|
  {
    hide Get, FieldFits, Faults, FieldFaults;
    OnlyFaults(fields, ms, k, path);
    TopFault(fields[k], Get(ms, fields[k].attribute), path);
  }

  lemma TopFault(f: FieldShape, j: Option<Json>, path: string)
    ensures j.Some? && IsWrong(f.shape, j.value) ==> FieldFaults(f, j, path) == [Violation(path, WrongType(f))]
    ensures j.None? && f.mandatory.Some? ==> FieldFaults(f, j, path) == [Violation(path, MissingField(f.attribute, f.mandatory.value))]
  {
  }

  lemma {:induction false} OnlyFaults(fields: seq<FieldShape>, ms: Members, k: nat, path: string)
    requires k < |fields|
    requires forall i :: 0 <= i < |fields| && i != k ==> FieldFits(fields[i], Get(ms, fields[i].attribute))
    ensures Faults(fields, ms, path) == FieldFaults(fields[k], Get(ms, fields[k].attribute), path)
    decreases |fields|
  {
    hide Get, FieldFits, Faults, FieldFaults;
    var n := |fields| - 1;
    FaultsSnoc(fields, ms, path);
    FieldFaultsNone(fields[n], Get(ms, fields[n].attribute), path);
    assert forall i :: 0 <= i < n ==> fields[..n][i] == fields[i];
    if k < n {
      OnlyFaults(fields[..n], ms, k, path);
    } else {
      FaultsNone(fields[..n], ms, path);
    }
  }

  // The same for the items of an array of objects.
  lemma {:induction false} OneItemFault(a: Attribute, fields: seq<FieldShape>, items: seq<Json>, k: nat, path: string)
    requires k < |items|
    requires forall i :: 0 <= i < |items| && i != k ==> items[i].Obj? && WellTyped(fields, items[i].members)
    ensures ItemFaults(a, fields, items, path)
         == if items[k].Obj? then Faults(fields, items[k].members, path) else [Violation(path, NotObject(a))]
    decreases |items|
  {
    var n := |items| - 1;
    if k < n {
      OneItemFault(a, fields, items[..n], k, path);
      FaultsNone(fields, items[n].members, path);
    } else {
      ItemFaultsNone(a, fields, items[..n], path);
    }
  }
}
