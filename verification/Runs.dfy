// The loop of ValidationData::applyValidationRules as a fold: how the answers to single changes
// add up to the answer to a list of them. What checking and rewriting one change do is given by
// the functions check and mutate.
module Runs {
  import opened JsonModel
  import opened Sequences
  import opened Types

  // What checking one change appends and answers; no response when boost::get meets a variant of
  // another type and throws.
  datatype Checked = Checked(errors: seq<Error>, resp: Option<ValidationResponse>)

  const OK := ValidationResponse(true, HTTP_OK)
  const CONFLICT := ValidationResponse(false, HTTP_CONFLICT)
  const UNPROCESSABLE := ValidationResponse(false, HTTP_UNPROCESSABLE_ENTITY)

  // getWorstResponseCode.
  function Worst(a: ValidationResponse, b: ValidationResponse): ValidationResponse {
    ValidationResponse(a.valid && b.valid, if a.code < b.code then b.code else a.code)
  }

  function WorstOf(rs: seq<ValidationResponse>): ValidationResponse {
    if rs == [] then OK else Worst(WorstOf(rs[..|rs| - 1]), rs[|rs| - 1])
  }

  // ---- verdict, code and errors cohere ----

  predicate SomeUnprocessable(es: seq<Error>) {
    exists e :: e in es && e.message == UnprocessableEntity
  }

  // The one verdict that coheres with the errors: valid and 200 with none, 422 if some error is
  // "Unprocessable entity", 409 otherwise.
  function VerdictOf(es: seq<Error>): ValidationResponse {
    if es == [] then OK else if SomeUnprocessable(es) then UNPROCESSABLE else CONFLICT
  }

  predicate Coherent(r: Checked) {
    r.resp.Some? ==> r.resp.value == VerdictOf(r.errors)
  }

  predicate FromPath(es: seq<Error>, path: string) {
    forall e :: e in es ==> e.resourcePath == path
  }

  lemma VerdictJoin(a: seq<Error>, b: seq<Error>)
    ensures VerdictOf(a + b) == Worst(VerdictOf(a), VerdictOf(b))
  {
    assert SomeUnprocessable(a + b) <==> SomeUnprocessable(a) || SomeUnprocessable(b);
  }

  lemma VerdictPermuted(a: seq<Error>, b: seq<Error>)
    requires multiset(a) == multiset(b)
    ensures VerdictOf(a) == VerdictOf(b)
  {
    assert |a| == |multiset(a)| == |multiset(b)| == |b|;
    assert forall e :: e in a <==> e in multiset(a);
    assert forall e :: e in b <==> e in multiset(b);
  }

  // ---- the loop ----

  datatype RunState = RunState(resp: ValidationResponse, errors: seq<Error>, emitted: seq<Change>, thrown: bool)

  const START := RunState(OK, [], [], false)

  // One turn: the errors are appended, the verdict and the code joined, and while everything was
  // valid the rewritten change is emitted. An exception ends the loop.
  function Step(s: RunState, c: Change, check: Change -> Checked, mutate: Change -> Change): RunState {
    if s.thrown then s else
      var r := check(c);
      match r.resp
      case None => s.(errors := s.errors + r.errors, thrown := true)
      case Some(resp) =>
        var joint := Worst(s.resp, resp);
        RunState(joint, s.errors + r.errors, if joint.valid then s.emitted + [mutate(c)] else s.emitted, false)
  }

  function Run(cs: seq<Change>, check: Change -> Checked, mutate: Change -> Change): RunState {
    if cs == [] then START else Step(Run(cs[..|cs| - 1], check, mutate), cs[|cs| - 1], check, mutate)
  }

  lemma RunSnoc(cs: seq<Change>, i: nat, check: Change -> Checked, mutate: Change -> Change)
    requires i < |cs|
    ensures Run(cs[..i + 1], check, mutate) == Step(Run(cs[..i], check, mutate), cs[i], check, mutate)
  {
    assert cs[..i + 1][..i] == cs[..i];
  }

  // A run continued by another.
  function Then(a: RunState, b: RunState): RunState {
    if a.thrown then a
    else RunState(Worst(a.resp, b.resp), a.errors + b.errors,
                  if a.resp.valid then a.emitted + b.emitted else a.emitted, b.thrown)
  }

  // A run over a concatenation is determined by the runs over its parts.
  lemma {:induction false} RunIsHomomorphism(a: seq<Change>, b: seq<Change>, check: Change -> Checked, mutate: Change -> Change)
    ensures Run(a + b, check, mutate) == Then(Run(a, check, mutate), Run(b, check, mutate))
  {
    if b == [] {
      assert a + b == a;
      RunCodeAtLeastOk(a, check, mutate);
    } else {
      var n := |b| - 1;
      assert (a + b)[..|a + b| - 1] == a + b[..n];
      RunIsHomomorphism(a, b[..n], check, mutate);
      ThenStep(Run(a, check, mutate), Run(b[..n], check, mutate), b[n], check, mutate);
    }
  }

  lemma ThenStep(s: RunState, t: RunState, c: Change, check: Change -> Checked, mutate: Change -> Change)
    ensures Step(Then(s, t), c, check, mutate) == Then(s, Step(t, c, check, mutate))
  {
    var r := check(c);
    var m := mutate(c);
    assert s.errors + t.errors + r.errors == s.errors + (t.errors + r.errors);
    assert s.emitted + t.emitted + [m] == s.emitted + (t.emitted + [m]);
  }

  lemma {:induction false} RunCodeAtLeastOk(cs: seq<Change>, check: Change -> Checked, mutate: Change -> Change)
    ensures Run(cs, check, mutate).resp.code >= HTTP_OK
  {
    if cs != [] {
      RunCodeAtLeastOk(cs[..|cs| - 1], check, mutate);
    }
  }

  // ---- what a run computes ----

  predicate NoThrow(cs: seq<Change>, check: Change -> Checked) {
    forall c :: c in cs ==> check(c).resp.Some?
  }

  predicate AllCoherent(cs: seq<Change>, check: Change -> Checked) {
    forall c :: c in cs ==> Coherent(check(c))
  }

  predicate IsValid(c: Change, check: Change -> Checked) {
    check(c).errors == []
  }

  function ErrorsOf(check: Change -> Checked): Change -> seq<Error> {
    (c: Change) => check(c).errors
  }

  // The length of the longest prefix of valid changes.
  function ValidPrefix(cs: seq<Change>, check: Change -> Checked): (n: nat)
    ensures n <= |cs|
    ensures forall i :: 0 <= i < n ==> IsValid(cs[i], check)
    ensures n < |cs| ==> !IsValid(cs[n], check)
  {
    if cs == [] || !IsValid(cs[0], check) then 0 else 1 + ValidPrefix(cs[1..], check)
  }

  function MutateAll(cs: seq<Change>, mutate: Change -> Change): (r: seq<Change>)
    ensures |r| == |cs|
  {
    seq(|cs|, i requires 0 <= i < |cs| => mutate(cs[i]))
  }

  lemma {:induction false} RunErrors(cs: seq<Change>, check: Change -> Checked, mutate: Change -> Change)
    requires NoThrow(cs, check) && AllCoherent(cs, check)
    ensures !Run(cs, check, mutate).thrown
    ensures Run(cs, check, mutate).errors == FlatMap(ErrorsOf(check), cs)
    ensures Run(cs, check, mutate).resp == VerdictOf(Run(cs, check, mutate).errors)
  {
    if cs != [] {
      var n := |cs| - 1;
      assert cs == cs[..n] + [cs[n]];
      RunErrors(cs[..n], check, mutate);
      VerdictJoin(Run(cs[..n], check, mutate).errors, check(cs[n]).errors);
    }
  }

  lemma AllValid(cs: seq<Change>, check: Change -> Checked)
    ensures FlatMap(ErrorsOf(check), cs) == [] <==> ValidPrefix(cs, check) == |cs|
    ensures FlatMap(ErrorsOf(check), cs) == [] <==> forall c :: c in cs ==> IsValid(c, check)
  {
    FlatMapEmpty(ErrorsOf(check), cs);
  }

  lemma ValidPrefixUnique(cs: seq<Change>, check: Change -> Checked, n: nat)
    requires n <= |cs| && (forall i :: 0 <= i < n ==> IsValid(cs[i], check)) && (n < |cs| ==> !IsValid(cs[n], check))
    ensures n == ValidPrefix(cs, check)
  {
  }

  lemma ValidPrefixSnoc(cs: seq<Change>, c: Change, check: Change -> Checked)
    ensures ValidPrefix(cs + [c], check)
         == if ValidPrefix(cs, check) == |cs| && IsValid(c, check) then |cs| + 1 else ValidPrefix(cs, check)
  {
    var n := if ValidPrefix(cs, check) == |cs| && IsValid(c, check) then |cs| + 1 else ValidPrefix(cs, check);
    ValidPrefixUnique(cs + [c], check, n);
  }

  lemma MutateAllSnoc(cs: seq<Change>, c: Change, mutate: Change -> Change)
    ensures MutateAll(cs + [c], mutate) == MutateAll(cs, mutate) + [mutate(c)]
  {
  }

  lemma {:induction false} RunEmits(cs: seq<Change>, check: Change -> Checked, mutate: Change -> Change)
    requires NoThrow(cs, check) && AllCoherent(cs, check)
    ensures Run(cs, check, mutate).emitted == MutateAll(cs[..ValidPrefix(cs, check)], mutate)
  {
    hide ValidPrefix, SomeUnprocessable;
    if cs == [] {
      assert cs[..ValidPrefix(cs, check)] == [];
    } else {
      var n := |cs| - 1;
      var init, c := cs[..n], cs[n];
      assert cs == init + [c];
      RunEmits(init, check, mutate);
      RunErrors(init, check, mutate);
      AllValid(init, check);
      ValidPrefixSnoc(init, c, check);
      var m := ValidPrefix(init, check);
      assert cs[..m] == init[..m];
      if m == n && IsValid(c, check) {
        assert cs[..n + 1] == cs && init[..n] == init;
        MutateAllSnoc(init, c, mutate);
      }
    }
  }

  // An exception leaves the loop at the first change that throws; the run up to it stands.
  lemma {:induction false} RunStopsAtThrow(cs: seq<Change>, k: nat, check: Change -> Checked, mutate: Change -> Change)
    requires k < |cs| && check(cs[k]).resp.None?
    requires NoThrow(cs[..k], check) && AllCoherent(cs, check)
    ensures var s := Run(cs[..k], check, mutate);
            !s.thrown && Run(cs, check, mutate) == s.(errors := s.errors + check(cs[k]).errors, thrown := true)
  {
    var n := |cs| - 1;
    RunErrors(cs[..k], check, mutate);
    if k < n {
      assert cs[..n][..k] == cs[..k];
      RunStopsAtThrow(cs[..n], k, check, mutate);
    }
  }

  lemma {:induction false} RunThrows(cs: seq<Change>, check: Change -> Checked, mutate: Change -> Change)
    ensures Run(cs, check, mutate).thrown <==> !NoThrow(cs, check)
  {
    if cs != [] {
      var n := |cs| - 1;
      assert cs == cs[..n] + [cs[n]];
      RunThrows(cs[..n], check, mutate);
    }
  }

  lemma {:induction false} ThrownRunStays(cs: seq<Change>, i: nat, check: Change -> Checked, mutate: Change -> Change)
    requires i <= |cs| && Run(cs[..i], check, mutate).thrown
    ensures Run(cs, check, mutate) == Run(cs[..i], check, mutate)
  {
    if i == |cs| {
      assert cs[..i] == cs;
    } else {
      var n := |cs| - 1;
      assert cs[..n][..i] == cs[..i];
      ThrownRunStays(cs[..n], i, check, mutate);
    }
  }

  // Verdict, code and the errors as a multiset do not depend on the order of the changes.
  lemma RunPermuted(a: seq<Change>, b: seq<Change>, check: Change -> Checked, mutate: Change -> Change)
    requires multiset(a) == multiset(b)
    requires NoThrow(a, check) && AllCoherent(a, check)
    ensures Run(a, check, mutate).resp == Run(b, check, mutate).resp
    ensures multiset(Run(a, check, mutate).errors) == multiset(Run(b, check, mutate).errors)
  {
    forall c | c in b
      ensures c in a
    {
      assert c in multiset(b);
    }
    RunErrors(a, check, mutate);
    RunErrors(b, check, mutate);
    FlatMapPermuted(ErrorsOf(check), a, b);
    VerdictPermuted(Run(a, check, mutate).errors, Run(b, check, mutate).errors);
  }

  // ---- the response body ----

  datatype Body = ErrorsBody(errors: seq<Error>) | ChangesBody(changes: seq<Change>) | EmptyBody

  // validatorResponseToJson: the errors if there are any, otherwise the changes.
  function ResponseBody(errors: seq<Error>, emitted: seq<Change>): Body {
    if errors != [] then ErrorsBody(errors)
    else if emitted != [] then ChangesBody(emitted)
    else EmptyBody
  }

  lemma BodyOfRun(cs: seq<Change>, check: Change -> Checked, mutate: Change -> Change)
    requires NoThrow(cs, check) && AllCoherent(cs, check)
    ensures var s := Run(cs, check, mutate);
            ResponseBody(s.errors, s.emitted)
              == if s.resp.code != HTTP_OK then ErrorsBody(FlatMap(ErrorsOf(check), cs))
                 else if cs != [] then ChangesBody(MutateAll(cs, mutate))
                 else EmptyBody
  {
    RunErrors(cs, check, mutate);
    RunEmits(cs, check, mutate);
    AllValid(cs, check);
    assert cs[..|cs|] == cs;
  }
}
