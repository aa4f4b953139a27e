// The anonymising formatter of the logs (anonlog::Formatter): split at '-', mask every other
// character of each token but the first, join again.
module Formatter {
  import opened JsonModel

  // boost::split at '-': always at least one token, possibly empty.
  function Split(s: string): (ts: seq<string>)
    ensures |ts| >= 1
    ensures forall i :: 0 <= i < |ts| ==> '-' !in ts[i]
  {
    if s == "" then [""]
    else if s[0] == '-' then [""] + Split(s[1..])
    else
      var rest := Split(s[1..]);
      [[s[0]] + rest[0]] + rest[1..]
  }

  // "-t" for each token.
  function Joined(ts: seq<string>): string {
    if ts == [] then "" else "-" + ts[0] + Joined(ts[1..])
  }

  function Join(ts: seq<string>): string
    requires ts != []
  {
    ts[0] + Joined(ts[1..])
  }

  // Joining undoes splitting.
  lemma {:induction false} JoinSplit(s: string)
    ensures Join(Split(s)) == s
  {
    if s != "" {
      JoinSplit(s[1..]);
      var rest := Split(s[1..]);
      if s[0] == '-' {
        assert Split(s)[1..] == rest;
        assert Joined(rest) == "-" + rest[0] + Joined(rest[1..]);
      } else {
        assert Split(s)[1..] == rest[1..];
      }
    }
  }

  lemma {:induction false} SplitToken(t: string, s: string)
    requires '-' !in t
    ensures Split(t + s) == [t + Split(s)[0]] + Split(s)[1..]
  {
    if t == "" {
      assert t + s == s && t + Split(s)[0] == Split(s)[0];
      assert Split(s) == [Split(s)[0]] + Split(s)[1..];
    } else {
      assert t[0] in t;
      assert (t + s)[1..] == t[1..] + s;
      SplitToken(t[1..], s);
      assert [t[0]] + (t[1..] + Split(s)[0]) == t + Split(s)[0];
      assert ([t[1..] + Split(s)[0]] + Split(s)[1..])[1..] == Split(s)[1..];
    }
  }

  // Splitting undoes joining of tokens without '-'.
  lemma {:induction false} SplitJoin(ts: seq<string>)
    requires ts != [] && forall t :: t in ts ==> '-' !in t
    ensures Split(Join(ts)) == ts
    decreases |ts|
  {
    var rest := Joined(ts[1..]);
    SplitToken(ts[0], rest);
    assert ts[0] + "" == ts[0];
    if |ts| == 1 {
      assert rest == "" && Split(rest) == [""];
    } else {
      SplitJoin(ts[1..]);
      assert rest == "-" + Join(ts[1..]);
      assert rest[1..] == Join(ts[1..]);
      assert Split(rest)[1..] == ts[1..];
    }
    assert ts == [ts[0]] + ts[1..];
  }

  // replace_if over a token: the places of even index become '*'.
  function Mask(t: string): (r: string)
    ensures |r| == |t|
  {
    seq(|t|, i requires 0 <= i < |t| => if i % 2 == 0 then '*' else t[i])
  }

  function MaskAll(ts: seq<string>): (r: seq<string>)
    ensures |r| == |ts|
  {
    seq(|ts|, i requires 0 <= i < |ts| => Mask(ts[i]))
  }

  function Anonymized(s: string): string {
    var ts := Split(s);
    Join([ts[0]] + MaskAll(ts[1..]))
  }

  // ---- what becomes of each character ----

  // d is the last '-' before place i.
  predicate LastDash(s: string, d: nat, i: nat)
    requires d < i <= |s|
  {
    s[d] == '-' && forall j :: d < j < i ==> s[j] != '-'
  }

  // Place i is inside a token after a '-', at an even distance from the start of that token.
  predicate IsMasked(s: string, i: nat)
    requires i < |s|
  {
    s[i] != '-' && exists d :: 0 <= d < i && LastDash(s, d, i) && (i - d - 1) % 2 == 0
  }

  // The same text, produced in one pass; offset is the place inside the current token, none in
  // the first token.
  function Scan(s: string, offset: Option<nat>): (r: string)
    ensures |r| == |s|
  {
    if s == "" then ""
    else if s[0] == '-' then "-" + Scan(s[1..], Some(0))
    else
      [if offset.Some? && offset.value % 2 == 0 then '*' else s[0]]
      + Scan(s[1..], if offset.Some? then Some(offset.value + 1) else None)
  }

  // A token masked as the continuation of one that has already offset characters.
  function MaskFrom(t: string, offset: Option<nat>): string {
    if offset.None? then t
    else seq(|t|, i requires 0 <= i < |t| => if (offset.value + i) % 2 == 0 then '*' else t[i])
  }

  lemma JoinCons(t: string, ts: seq<string>)
    ensures Join([t] + ts) == t + Joined(ts)
  {
    assert ([t] + ts)[1..] == ts;
  }

  // One character more at the front of a token.
  lemma MaskFromCons(c: char, t: string, offset: Option<nat>)
    ensures MaskFrom([c] + t, offset)
         == [if offset.Some? && offset.value % 2 == 0 then '*' else c]
            + MaskFrom(t, if offset.Some? then Some(offset.value + 1) else None)
  {
    var next := if offset.Some? then Some(offset.value + 1) else None;
    var whole, tail := MaskFrom([c] + t, offset), MaskFrom(t, next);
    if offset.Some? {
      assert |whole| == 1 + |tail|;
      forall i | 0 <= i < |tail|
        ensures whole[i + 1] == tail[i]
      {
        assert offset.value + (i + 1) == offset.value + 1 + i;
      }
    }
  }

  lemma {:induction false} ScanIsJoin(s: string, offset: Option<nat>)
    ensures Scan(s, offset) == MaskFrom(Split(s)[0], offset) + Joined(MaskAll(Split(s)[1..]))
  {
    hide MaskFrom, MaskAll, Mask, Joined, Split, Scan;
    if s == "" {
      EmptyToken(offset);
    } else if s[0] == '-' {
      ScanIsJoin(s[1..], Some(0));
      ScanDash(s, offset);
      MaskAllCons(Split(s[1..]));
      EmptyToken(offset);
    } else {
      ScanIsJoin(s[1..], if offset.Some? then Some(offset.value + 1) else None);
      ScanLetter(s, offset);
      MaskFromCons(s[0], Split(s[1..])[0], offset);
    }
  }

  lemma ScanDash(s: string, offset: Option<nat>)
    requires s != "" && s[0] == '-'
    ensures Split(s)[0] == "" && Split(s)[1..] == Split(s[1..])
    ensures Scan(s, offset) == "-" + Scan(s[1..], Some(0))
  {
  }

  lemma ScanLetter(s: string, offset: Option<nat>)
    requires s != "" && s[0] != '-'
    ensures Split(s)[0] == [s[0]] + Split(s[1..])[0] && Split(s)[1..] == Split(s[1..])[1..]
    ensures Scan(s, offset) == [if offset.Some? && offset.value % 2 == 0 then '*' else s[0]]
                               + Scan(s[1..], if offset.Some? then Some(offset.value + 1) else None)
  {
  }

  lemma EmptyToken(offset: Option<nat>)
    ensures MaskFrom("", offset) == "" && Joined(MaskAll([])) == ""
    ensures Scan("", offset) == "" && Split("")[0] == "" && Split("")[1..] == []
  {
  }

  lemma MaskAllCons(ts: seq<string>)
    requires ts != []
    ensures Joined(MaskAll(ts)) == "-" + MaskFrom(ts[0], Some(0)) + Joined(MaskAll(ts[1..]))
  {
    assert MaskAll(ts)[1..] == MaskAll(ts[1..]);
    assert Mask(ts[0]) == MaskFrom(ts[0], Some(0));
  }

  predicate IsMaskedFrom(s: string, offset: Option<nat>, i: nat)
    requires i < |s|
  {
    || IsMasked(s, i)
    || (offset.Some? && '-' !in s[..i + 1] && (offset.value + i) % 2 == 0)
  }

  lemma ShiftMasked(s: string, offset: Option<nat>, i: nat)
    requires 0 < i < |s|
    ensures IsMaskedFrom(s, offset, i)
       <==> IsMaskedFrom(s[1..], if s[0] == '-' then Some(0) else if offset.Some? then Some(offset.value + 1) else None, i - 1)
  {
    var t := s[1..];
    assert forall j :: 0 <= j < |t| ==> t[j] == s[j + 1];
    assert s[..i + 1] == [s[0]] + t[..i];
    forall d | 0 < d < i
      ensures LastDash(s, d, i) <==> LastDash(t, d - 1, i - 1)
    {
      assert forall j :: d - 1 < j < i - 1 ==> t[j] == s[j + 1];
      assert forall j :: d < j < i ==> s[j] == t[j - 1];
    }
    if IsMasked(t, i - 1) {
      var d :| 0 <= d < i - 1 && LastDash(t, d, i - 1) && (i - 1 - d - 1) % 2 == 0;
      assert LastDash(s, d + 1, i);
    }
    if s[0] == '-' && '-' !in t[..i] {
      assert forall j :: 0 < j <= i ==> s[j] == t[..i][j - 1];
      assert LastDash(s, 0, i);
    }
    if IsMasked(s, i) {
      var d :| 0 <= d < i && LastDash(s, d, i) && (i - d - 1) % 2 == 0;
      if d > 0 {
        assert LastDash(t, d - 1, i - 1);
      } else {
        assert forall j :: 0 <= j < i ==> t[j] == s[j + 1];
      }
    }
  }

  lemma {:induction false} ScanAt(s: string, offset: Option<nat>, i: nat)
    requires i < |s|
    ensures Scan(s, offset)[i] == if IsMaskedFrom(s, offset, i) then '*' else s[i]
  {
    if i == 0 {
      assert s[..1] == [s[0]];
    } else {
      var next := if s[0] == '-' then Some(0) else if offset.Some? then Some(offset.value + 1) else None;
      ScanAt(s[1..], next, i - 1);
      ShiftMasked(s, offset, i);
      assert Scan(s, offset)[i] == Scan(s[1..], next)[i - 1];
    }
  }

  // The formatter keeps the length and every '-', leaves the first token alone, and replaces
  // exactly the characters at even places of the later tokens.
  lemma AnonymizedExactly(s: string)
    ensures |Anonymized(s)| == |s|
    ensures forall i :: 0 <= i < |s| ==> Anonymized(s)[i] == if IsMasked(s, i) then '*' else s[i]
  {
    ScanIsJoin(s, None);
    JoinCons(Split(s)[0], MaskAll(Split(s)[1..]));
    forall i | 0 <= i < |s|
      ensures Anonymized(s)[i] == if IsMasked(s, i) then '*' else s[i]
    {
      ScanAt(s, None, i);
    }
  }

  lemma FirstTokenKept(s: string, i: nat)
    requires i < |s| && '-' !in s[..i]
    ensures !IsMasked(s, i)
  {
    forall d | 0 <= d < i
      ensures s[d] != '-'
    {
      assert s[..i][d] == s[d];
    }
  }

  // Formatting twice is formatting once.
  lemma AnonymizedIdempotent(s: string)
    ensures Anonymized(Anonymized(s)) == Anonymized(s)
  {
    var t := Anonymized(s);
    AnonymizedExactly(s);
    AnonymizedExactly(t);
    forall i | 0 <= i < |s|
      ensures Anonymized(t)[i] == t[i]
    {
      assert forall j :: 0 <= j < |s| ==> (t[j] == '-' <==> s[j] == '-');
      if IsMasked(t, i) {
        var d :| 0 <= d < i && LastDash(t, d, i) && (i - d - 1) % 2 == 0;
        assert LastDash(s, d, i);
      }
    }
  }

  // ---- the loops of the code ----

  method ReplaceEven(token: string) returns (r: string)
    ensures r == Mask(token)
  {
    r := token;
    var idx := 0;
    while idx < |token|
      invariant idx <= |token| == |r|
      invariant forall j :: 0 <= j < idx ==> r[j] == Mask(token)[j]
      invariant forall j :: idx <= j < |token| ==> r[j] == token[j]
    {
      if idx % 2 == 0 {
        r := r[idx := '*'];
      }
      idx := idx + 1;
    }
  }

  lemma JoinedSnoc(ts: seq<string>, t: string)
    ensures Joined(ts + [t]) == Joined(ts) + "-" + t
  {
    if ts == [] {
      assert ts + [t] == [t] && Joined([t]) == "-" + t + Joined([t][1..]);
    } else {
      assert (ts + [t])[1..] == ts[1..] + [t];
      JoinedSnoc(ts[1..], t);
    }
  }

  lemma MaskAllSnoc(ts: seq<string>, t: string)
    ensures MaskAll(ts + [t]) == MaskAll(ts) + [Mask(t)]
  {
  }

  // The loop over the tokens computes the formatted text.
  method Format(orig: string) returns (out: string)
    ensures out == Anonymized(orig)
  {
    var strs := Split(orig);
    var anonymized := "";
    for it := 1 to |strs|
      invariant anonymized == Joined(MaskAll(strs[1..it]))
    {
      var token := ReplaceEven(strs[it]);
      assert strs[1..it + 1] == strs[1..it] + [strs[it]];
      MaskAllSnoc(strs[1..it], strs[it]);
      JoinedSnoc(MaskAll(strs[1..it]), token);
      anonymized := anonymized + "-" + token;
    }
    assert strs[1..|strs|] == strs[1..];
    out := strs[0] + anonymized;
  }
}
