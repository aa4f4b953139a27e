// The regular expressions of the format rules, as data, and that the predicates of the rules are
// what they match as a whole.
module Patterns {
  import opened Text

  datatype Class = Digits | Hexadecimals

  predicate InClass(k: Class, c: char) {
    match k
    case Digits => c in "0123456789"
    case Hexadecimals => c in "0123456789ABCDEFabcdef"
  }

  datatype Pattern =
    | Between(k: Class, least: nat, most: nat)   // k{least,most}
    | Plus(k: Class)                             // k+
    | Word(text: string)
    | Then(first: Pattern, second: Pattern)
    | Or(left: Pattern, right: Pattern)

  predicate AllIn(k: Class, s: string) {
    forall i :: 0 <= i < |s| ==> InClass(k, s[i])
  }

  // regex_match: the whole text.
  predicate Matches(p: Pattern, s: string)
  {
    match p
    case Between(k, least, most) => least <= |s| <= most && AllIn(k, s)
    case Plus(k) => s != "" && AllIn(k, s)
    case Word(text) => s == text
    case Then(first, second) => exists i :: 0 <= i <= |s| && Matches(first, s[..i]) && Matches(second, s[i..])
    case Or(left, right) => Matches(left, s) || Matches(right, s)
  }

  function Times(k: Class, n: nat): Pattern {
    Between(k, n, n)
  }

  // ^\d{5,6}$|Default
  const PLMNID_SET_IDENTIFIER_REGEXP := Or(Between(Digits, 5, 6), Word("Default"))

  // ^[A-Fa-f0-9]{6}$
  const SD_REGEXP := Times(Hexadecimals, 6)

  // (^[A-Fa-f0-9]{4}$)
  const THREEGPP_CHARGING_CHARACTERISTICS_REGEX := Times(Hexadecimals, 4)

  // (^[A-Fa-f0-9]{4}$)|(^[A-Fa-f0-9]{6}$)
  const TACS_REGEXP := Or(Times(Hexadecimals, 4), Times(Hexadecimals, 6))

  function Dashed(n: nat, rest: Pattern): Pattern {
    Then(Times(Hexadecimals, n), Then(Word("-"), rest))
  }

  // ^[0-9a-fA-F]{8}\-[0-9a-fA-F]{4}\-[0-9a-fA-F]{4}\-[0-9a-fA-F]{4}\-[0-9a-fA-F]{12}$
  const UUID_REGEX := Dashed(8, Dashed(4, Dashed(4, Dashed(4, Times(Hexadecimals, 12)))))

  // \d+(\.\d+)?
  const DECIMAL := Then(Plus(Digits), Or(Word(""), Then(Word("."), Plus(Digits))))

  const UNITS := Or(Word("bps"), Or(Word("Kbps"), Or(Word("Mbps"), Or(Word("Gbps"), Word("Tbps")))))

  // ^\d+(\.\d+)? (bps|Kbps|Mbps|Gbps|Tbps)$
  const BIT_RATE_REGEXP := Then(DECIMAL, Then(Word(" "), UNITS))

  // ---- classes ----

  lemma ClassOf(c: char)
    ensures InClass(Digits, c) <==> IsDigit(c)
    ensures InClass(Hexadecimals, c) <==> IsHex(c)
  {
    DigitsListed(c);
    HexListed(c);
  }

  lemma DigitsListed(c: char)
    ensures c in "0123456789" <==> '0' <= c <= '9'
  {
    var s := "0123456789";
    if '0' <= c <= '9' {
      assert s[c as int - '0' as int] == c;
    }
  }

  lemma HexListed(c: char)
    ensures c in "0123456789ABCDEFabcdef" <==> '0' <= c <= '9' || 'A' <= c <= 'F' || 'a' <= c <= 'f'
  {
    var s := "0123456789ABCDEFabcdef";
    if '0' <= c <= '9' {
      assert s[c as int - '0' as int] == c;
    } else if 'A' <= c <= 'F' {
      assert s[c as int - 'A' as int + 10] == c;
    } else if 'a' <= c <= 'f' {
      assert s[c as int - 'a' as int + 16] == c;
    }
  }

  lemma AllOf(s: string)
    ensures AllIn(Digits, s) <==> AllDigits(s)
    ensures AllIn(Hexadecimals, s) <==> AllHex(s)
  {
    hide InClass, IsDigit, IsHex;
    forall i | 0 <= i < |s|
      ensures InClass(Digits, s[i]) <==> IsDigit(s[i])
      ensures InClass(Hexadecimals, s[i]) <==> IsHex(s[i])
    {
      ClassOf(s[i]);
    }
  }

  // ---- the predicates of the rules ----

  // The predicates of the rules are whole matches of the expressions in the code.
  lemma FormatsMatch(s: string)
    ensures IsPlmnIdSetIdentifier(s) <==> Matches(PLMNID_SET_IDENTIFIER_REGEXP, s)
    ensures IsSd(s) <==> Matches(SD_REGEXP, s)
    ensures IsChargingCharacteristics(s) <==> Matches(THREEGPP_CHARGING_CHARACTERISTICS_REGEX, s)
    ensures IsTac(s) <==> Matches(TACS_REGEXP, s)
  {
    AllOf(s);
  }

  lemma DashedMatches(n: nat, rest: Pattern, s: string)
    ensures Matches(Dashed(n, rest), s) <==> n < |s| && AllHex(s[..n]) && s[n] == '-' && Matches(rest, s[n + 1..])
  {
    hide AllHex, AllIn;
    if n < |s| && AllHex(s[..n]) && s[n] == '-' && Matches(rest, s[n + 1..]) {
      AllOf(s[..n]);
      assert Matches(Times(Hexadecimals, n), s[..n]);
      DashAndRest(rest, s[n..]);
      assert s[n..][1..] == s[n + 1..];
    }
    if Matches(Dashed(n, rest), s) {
      var i :| 0 <= i <= |s| && Matches(Times(Hexadecimals, n), s[..i]) && Matches(Then(Word("-"), rest), s[i..]);
      AllOf(s[..n]);
      DashAndRest(rest, s[n..]);
      assert s[n..][1..] == s[n + 1..];
    }
  }

  lemma DashAndRest(rest: Pattern, t: string)
    ensures Matches(Then(Word("-"), rest), t) <==> t != "" && t[0] == '-' && Matches(rest, t[1..])
  {
    if t != "" && t[0] == '-' && Matches(rest, t[1..]) {
      assert t[..1] == "-";
      assert Matches(Word("-"), t[..1]);
    }
    if Matches(Then(Word("-"), rest), t) {
      var i :| 0 <= i <= |t| && Matches(Word("-"), t[..i]) && Matches(rest, t[i..]);
      assert |t[..i]| == 1 && t[..i][0] == t[0];
    }
  }

  lemma UuidMatches(s: string)
    ensures IsUuid(s) <==> Matches(UUID_REGEX, s)
  {
    hide Matches, AllHex, AllIn, Dashed;
    var last := Times(Hexadecimals, 12);
    DashedMatches(8, Dashed(4, Dashed(4, Dashed(4, last))), s);
    if |s| > 8 {
      var a := s[9..];
      DashedMatches(4, Dashed(4, Dashed(4, last)), a);
      if |a| > 4 {
        var b := a[5..];
        assert b == s[14..] && a[..4] == s[9..13] && a[4] == s[13];
        DashedMatches(4, Dashed(4, last), b);
        if |b| > 4 {
          var c := b[5..];
          assert c == s[19..] && b[..4] == s[14..18] && b[4] == s[18];
          DashedMatches(4, last, c);
          if |c| > 4 {
            assert c[5..] == s[24..] && c[..4] == s[19..23] && c[4] == s[23];
            LastMatches(c[5..]);
          }
        }
      }
    }
  }

  lemma LastMatches(s: string)
    ensures Matches(Times(Hexadecimals, 12), s) <==> |s| == 12 && AllHex(s)
  {
    AllOf(s);
  }

  lemma FractionMatches(t: string)
    ensures Matches(Or(Word(""), Then(Word("."), Plus(Digits))), t) <==> t == "" || (|t| >= 2 && t[0] == '.' && AllDigits(t[1..]))
  {
    if |t| >= 2 && t[0] == '.' && AllDigits(t[1..]) {
      AllOf(t[1..]);
      assert t[..1] == ".";
      assert Matches(Word("."), t[..1]) && Matches(Plus(Digits), t[1..]);
    }
    if Matches(Then(Word("."), Plus(Digits)), t) {
      var i :| 0 <= i <= |t| && Matches(Word("."), t[..i]) && Matches(Plus(Digits), t[i..]);
      assert |t[..i]| == 1 && t[..i][0] == t[0];
      AllOf(t[1..]);
    }
  }

  lemma DecimalMatches(s: string)
    ensures IsDecimal(s) <==> Matches(DECIMAL, s)
  {
    hide AllIn, AllDigits;
    var fraction := Or(Word(""), Then(Word("."), Plus(Digits)));
    if IsDecimal(s) {
      if AllDigits(s) {
        AllOf(s);
        assert s[..|s|] == s && s[|s|..] == "";
        assert Matches(Plus(Digits), s[..|s|]) && Matches(fraction, s[|s|..]);
      } else {
        var i :| 0 < i < |s| - 1 && s[i] == '.' && AllDigits(s[..i]) && AllDigits(s[i + 1..]);
        AllOf(s[..i]);
        FractionMatches(s[i..]);
        assert s[i..][1..] == s[i + 1..];
        assert Matches(Plus(Digits), s[..i]) && Matches(fraction, s[i..]);
      }
    }
    if Matches(DECIMAL, s) {
      var i :| 0 <= i <= |s| && Matches(Plus(Digits), s[..i]) && Matches(fraction, s[i..]);
      AllOf(s[..i]);
      FractionMatches(s[i..]);
      if s[i..] == "" {
        assert s[..i] == s;
      } else {
        assert s[i..][1..] == s[i + 1..];
      }
    }
  }

  // A unit with the blank before it.
  predicate IsUnit(t: string) {
    t == " bps" || t == " Kbps" || t == " Mbps" || t == " Gbps" || t == " Tbps"
  }

  lemma UnitsListed(u: string)
    ensures Matches(UNITS, u) <==> u == "bps" || u == "Kbps" || u == "Mbps" || u == "Gbps" || u == "Tbps"
  {
    var last := Or(Word("Gbps"), Word("Tbps"));
    var middle := Or(Word("Mbps"), last);
    assert Matches(last, u) <==> u == "Gbps" || u == "Tbps";
    assert Matches(middle, u) <==> u == "Mbps" || Matches(last, u);
    assert Matches(Or(Word("Kbps"), middle), u) <==> u == "Kbps" || Matches(middle, u);
  }

  lemma UnitMatches(t: string)
    ensures Matches(Then(Word(" "), UNITS), t) <==> IsUnit(t)
  {
    if IsUnit(t) {
      assert t[..1] == " ";
      UnitsListed(t[1..]);
      assert Matches(Word(" "), t[..1]);
    }
    if Matches(Then(Word(" "), UNITS), t) {
      var i :| 0 <= i <= |t| && Matches(Word(" "), t[..i]) && Matches(UNITS, t[i..]);
      UnitsListed(t[i..]);
      assert t == " " + t[i..];
      Blanks();
    }
  }

  lemma Blanks()
    ensures " " + "bps" == " bps" && " " + "Kbps" == " Kbps" && " " + "Mbps" == " Mbps"
    ensures " " + "Gbps" == " Gbps" && " " + "Tbps" == " Tbps"
  {
  }

  lemma UnitAtEnd(s: string, u: string)
    requires IsUnit(u)
    ensures IsDecimalWithUnit(s, u) ==> exists i :: 0 <= i <= |s| && IsDecimal(s[..i]) && IsUnit(s[i..])
    ensures IsDecimalWithUnit(s, u) ==> IsBitRate(s)
  {
    hide IsDecimal;
    if IsDecimalWithUnit(s, u) {
      assert IsDecimal(s[..|s| - |u|]) && s[|s| - |u|..] == u;
    }
  }

  lemma BitRateSplits(s: string)
    ensures IsBitRate(s) <==> exists i :: 0 <= i <= |s| && IsDecimal(s[..i]) && IsUnit(s[i..])
  {
    hide IsDecimal, IsDecimalWithUnit;
    UnitAtEnd(s, " bps");
    UnitAtEnd(s, " Kbps");
    UnitAtEnd(s, " Mbps");
    UnitAtEnd(s, " Gbps");
    UnitAtEnd(s, " Tbps");
    if exists i :: 0 <= i <= |s| && IsDecimal(s[..i]) && IsUnit(s[i..]) {
      var i :| 0 <= i <= |s| && IsDecimal(s[..i]) && IsUnit(s[i..]);
      SplitHasUnit(s, i);
      UnitAtEnd(s, s[i..]);
    }
  }

  lemma SplitHasUnit(s: string, i: nat)
    requires i <= |s| && IsDecimal(s[..i])
    ensures IsDecimalWithUnit(s, s[i..])
  {
    assert i == |s| - |s[i..]|;
  }

  lemma BitRateMatches(s: string)
    ensures IsBitRate(s) <==> Matches(BIT_RATE_REGEXP, s)
  {
    hide IsDecimal, IsUnit, IsBitRate;
    BitRateSplits(s);
    forall i | 0 <= i <= |s|
      ensures IsDecimal(s[..i]) <==> Matches(DECIMAL, s[..i])
      ensures IsUnit(s[i..]) <==> Matches(Then(Word(" "), UNITS), s[i..])
    {
      DecimalMatches(s[..i]);
      UnitMatches(s[i..]);
    }
  }
}
