// Strings as std::string compares and boost::algorithm::to_lower_copy lowers them, and the
// fixed formats the rules test. Strings hold no NUL and no line break.
module Text {

  function LowerChar(c: char): char {
    if 'A' <= c <= 'Z' then (c as int + 32) as char else c
  }

  function ToLower(s: string): (t: string)
    ensures |t| == |s|
  {
    seq(|s|, i requires 0 <= i < |s| => LowerChar(s[i]))
  }

  lemma ToLowerIdempotent(s: string)
    ensures ToLower(ToLower(s)) == ToLower(s)
  {
    var t := ToLower(s);
    assert forall i :: 0 <= i < |s| ==> ToLower(t)[i] == t[i];
  }

  // The same letter in either case, or the same character.
  predicate SameLetter(c: char, d: char) {
    || c == d
    || ('A' <= c <= 'Z' && d as int == c as int + 32)
    || ('A' <= d <= 'Z' && c as int == d as int + 32)
  }

  // Two texts are lowered to the same text exactly when they agree letter by letter.
  lemma EqualIgnoringCase(s: string, t: string)
    ensures ToLower(s) == ToLower(t) <==> |s| == |t| && forall i :: 0 <= i < |s| ==> SameLetter(s[i], t[i])
  {
    var a, b := ToLower(s), ToLower(t);
    if a == b {
      assert |s| == |a| == |t|;
      forall i | 0 <= i < |s|
        ensures SameLetter(s[i], t[i])
      {
        assert a[i] == b[i];
      }
    }
    if |s| == |t| && forall i :: 0 <= i < |s| ==> SameLetter(s[i], t[i]) {
      assert forall i :: 0 <= i < |s| ==> a[i] == b[i];
    }
  }

  // The order of std::string: lexicographic, a proper prefix before its extensions.
  predicate Less(a: string, b: string) {
    b != [] && (a == [] || a[0] < b[0] || (a[0] == b[0] && Less(a[1..], b[1..])))
  }

  lemma {:induction false} LessIrreflexive(a: string)
    ensures !Less(a, a)
  {
    if a != [] {
      LessIrreflexive(a[1..]);
    }
  }

  lemma {:induction false} LessTransitive(a: string, b: string, c: string)
    requires Less(a, b) && Less(b, c)
    ensures Less(a, c)
  {
    if a != [] && a[0] == b[0] == c[0] {
      LessTransitive(a[1..], b[1..], c[1..]);
    }
  }

  lemma {:induction false} LessTotal(a: string, b: string)
    ensures Less(a, b) || a == b || Less(b, a)
  {
    if a != [] && b != [] && a[0] == b[0] {
      LessTotal(a[1..], b[1..]);
      assert a == [a[0]] + a[1..] && b == [b[0]] + b[1..];
    }
  }

  lemma LessAsymmetric(a: string, b: string)
    requires Less(a, b)
    ensures !Less(b, a)
  {
    if Less(b, a) {
      LessTransitive(a, b, a);
      LessIrreflexive(a);
    }
  }

  // a < b and b <= c give a < c.
  lemma LessMixedRight(a: string, b: string, c: string)
    requires Less(a, b) && !Less(c, b)
    ensures Less(a, c)
  {
    LessTotal(b, c);
    if b != c {
      LessTransitive(a, b, c);
    }
  }

  predicate IsDigit(c: char) {
    '0' <= c <= '9'
  }

  predicate IsHex(c: char) {
    IsDigit(c) || 'A' <= c <= 'F' || 'a' <= c <= 'f'
  }

  predicate AllDigits(s: string) {
    forall i :: 0 <= i < |s| ==> IsDigit(s[i])
  }

  predicate AllHex(s: string) {
    forall i :: 0 <= i < |s| ==> IsHex(s[i])
  }

  predicate OccursAt(s: string, t: string, i: nat) {
    i + |t| <= |s| && s[i..i + |t|] == t
  }

  // Whether t occurs somewhere in s, as std::string::find reports it.
  predicate Contains(s: string, t: string) {
    exists i :: 0 <= i <= |s| && OccursAt(s, t, i)
  }

  predicate EndsWith(s: string, t: string) {
    |t| <= |s| && s[|s| - |t|..] == t
  }

  const DEFAULT_VALUE := "Default"

  // ^\d{5,6}$|Default
  predicate IsPlmnIdSetIdentifier(s: string) {
    (5 <= |s| <= 6 && AllDigits(s)) || s == DEFAULT_VALUE
  }

  // Section 5.4.4.2 of 3GPP TS 29.571: six hexadecimal digits.
  predicate IsSd(s: string) {
    |s| == 6 && AllHex(s)
  }

  predicate IsChargingCharacteristics(s: string) {
    |s| == 4 && AllHex(s)
  }

  predicate IsTac(s: string) {
    (|s| == 4 || |s| == 6) && AllHex(s)
  }

  predicate IsUuid(s: string) {
    && |s| == 36
    && AllHex(s[..8]) && s[8] == '-'
    && AllHex(s[9..13]) && s[13] == '-'
    && AllHex(s[14..18]) && s[18] == '-'
    && AllHex(s[19..23]) && s[23] == '-'
    && AllHex(s[24..])
  }

  // \d+(\.\d+)?
  predicate IsDecimal(s: string) {
    && s != ""
    && (AllDigits(s) || exists i :: 0 < i < |s| - 1 && s[i] == '.' && AllDigits(s[..i]) && AllDigits(s[i + 1..]))
  }

  predicate IsDecimalWithUnit(s: string, unit: string) {
    EndsWith(s, unit) && IsDecimal(s[..|s| - |unit|])
  }

  // Section 5.5.2 of 3GPP TS 29.571: a decimal number, one blank and a unit.
  predicate IsBitRate(s: string) {
    || IsDecimalWithUnit(s, " bps")
    || IsDecimalWithUnit(s, " Kbps")
    || IsDecimalWithUnit(s, " Mbps")
    || IsDecimalWithUnit(s, " Gbps")
    || IsDecimalWithUnit(s, " Tbps")
  }

  // Every legal PLMN set identifier, and the empty one, sorts at or below "Default".
  lemma LegalPlmnNotAboveDefault(s: string)
    requires s == "" || IsPlmnIdSetIdentifier(s)
    ensures !Less(DEFAULT_VALUE, s)
  {
    if s == DEFAULT_VALUE {
      LessIrreflexive(s);
    } else if s != "" {
      assert IsDigit(s[0]) && DEFAULT_VALUE[0] == 'D';
    }
  }
}
