/**
 Section 11 of Semantic Versioning 2.0.0, defined on its own, and exactly when the version
 comparison of the update check agrees with it.
 */
module VersionPrecedence {
  import opened Common
  import opened Text
  import opened SemanticVersion
  import opened VersionText

  // ---- Section 11, item 4 ----

  function TextOrder(l: string, r: string): int {
    if l == r then 0 else if StringLess(l, r) then -1 else 1
  }

  function Sign(x: int): int {
    if x < 0 then -1 else if x > 0 then 1 else 0
  }

  /** Digits compare as numbers, everything else as text, and numbers are lower than text. */
  function IdentifierOrder(l: string, r: string): int {
    if Digits(l) && Digits(r) then Sign(Value(l) - Value(r))
    else if Digits(l) then -1
    else if Digits(r) then 1
    else TextOrder(l, r)
  }

  /** The first identifiers of different precedence decide; if there are none, the longer list is higher. */
  function SectionOrder(l: seq<string>, r: seq<string>, i: nat): int
    decreases |l| + |r| - 2 * i
  {
    if i >= |l| && i >= |r| then 0
    else if i >= |l| then -1
    else if i >= |r| then 1
    else
      var c := IdentifierOrder(l[i], r[i]);
      if c != 0 then c else SectionOrder(l, r, i + 1)
  }

  /** A version is above its prereleases, and prereleases compare by their identifiers. */
  predicate SectionPreAbove(l: string, r: string) {
    if l == "" then r != "" else r != "" && SectionOrder(Split(l, '.'), Split(r, '.'), 0) > 0
  }

  /** Precedence, with the cores extended to two to four components. */
  ghost predicate SectionAbove(latest: string, current: string) {
    var l, r := Parse(latest), Parse(current);
    && l.Some? && r.Some?
    && (CoreAbove(l.value, r.value)
        || (CoreSame(l.value, r.value) && SectionPreAbove(Prerelease(latest), Prerelease(current))))
  }

  // ---- Numbers by their digits ----

  function Strip(s: string): string {
    if s != "" && s[0] == '0' then Strip(s[1..]) else s
  }

  /** Numerals compare by length and then as text, once their leading zeros are gone. */
  function NumeralOrder(l: string, r: string): int {
    var a, b := Strip(l), Strip(r);
    if |a| != |b| then Sign(|a| - |b|) else TextOrder(a, b)
  }

  predicate AllDigits(s: string) {
    forall i :: 0 <= i < |s| ==> Digit(s[i])
  }

  function Num(s: string): nat
    requires AllDigits(s)
  {
    Value(s)
  }

  function Pow10(n: nat): nat {
    if n == 0 then 1 else 10 * Pow10(n - 1)
  }

  function Digit0(c: char): int {
    c as int - '0' as int
  }

  lemma {:induction false} NumHead(s: string)
    requires s != "" && AllDigits(s)
    ensures Num(s) == Digit0(s[0]) * Pow10(|s| - 1) + Num(s[1..])
  {
    var n := |s| - 1;
    if n == 0 {
      assert s[..0] == "" && s[1..] == "";
    } else {
      NumHead(s[..n]);
      assert s[..n][1..] == s[1..][..n - 1];
      assert Num(s[1..]) == 10 * Num(s[1..][..n - 1]) + Digit0(s[n]);
      assert Num(s) == 10 * Num(s[..n]) + Digit0(s[n]);
      Tenfold(Digit0(s[0]), Pow10(n - 1));
    }
  }

  lemma Tenfold(d: int, p: int)
    ensures 10 * (d * p) == d * (10 * p)
  {
  }

  lemma {:induction false} Digitwise(d: int, e: int, p: int)
    requires d < e && p >= 0
    ensures d * p + p <= e * p
    decreases e - d
  {
    assert e * p == (e - 1) * p + p;
    if d < e - 1 {
      Digitwise(d, e - 1, p);
    }
  }

  lemma {:induction false} NumBelow(s: string)
    requires AllDigits(s)
    ensures Num(s) < Pow10(|s|)
  {
    if s != "" {
      NumHead(s);
      NumBelow(s[1..]);
      Digitwise(Digit0(s[0]), 10, Pow10(|s| - 1));
    }
  }

  lemma {:induction false} NumStrip(s: string)
    requires AllDigits(s)
    ensures AllDigits(Strip(s)) && Num(Strip(s)) == Num(s) && (Strip(s) != "" ==> Strip(s)[0] != '0')
  {
    if s != "" && s[0] == '0' {
      NumHead(s);
      NumStrip(s[1..]);
    }
  }

  lemma {:induction false} PowGrows(m: nat, n: nat)
    requires m <= n
    ensures Pow10(m) <= Pow10(n)
  {
    if m < n {
      PowGrows(m, n - 1);
    }
  }

  /** Without leading zeros a longer numeral is a larger number. */
  lemma LongerIsLarger(a: string, b: string)
    requires AllDigits(a) && AllDigits(b) && |a| < |b| && b[0] != '0'
    ensures Num(a) < Num(b)
  {
    NumBelow(a);
    NumHead(b);
    PowGrows(|a|, |b| - 1);
    if Digit0(b[0]) > 1 {
      Digitwise(1, Digit0(b[0]), Pow10(|b| - 1));
    }
  }

  lemma {:induction false} SameLengthAsText(a: string, b: string)
    requires AllDigits(a) && AllDigits(b) && |a| == |b|
    ensures StringLess(a, b) ==> Num(a) < Num(b)
    ensures a != b && !StringLess(a, b) ==> Num(a) > Num(b)
  {
    if a != "" {
      NumHead(a);
      NumHead(b);
      NumBelow(a[1..]);
      NumBelow(b[1..]);
      assert a == [a[0]] + a[1..] && b == [b[0]] + b[1..];
      if a[0] == b[0] {
        SameLengthAsText(a[1..], b[1..]);
      } else if a[0] < b[0] {
        Digitwise(Digit0(a[0]), Digit0(b[0]), Pow10(|a| - 1));
      } else {
        Digitwise(Digit0(b[0]), Digit0(a[0]), Pow10(|a| - 1));
      }
    }
  }

  /** The order by digits is the order of the numbers. */
  lemma NumeralOrderIsValue(l: string, r: string)
    requires AllDigits(l) && AllDigits(r)
    ensures NumeralOrder(l, r) == Sign(Num(l) - Num(r))
    ensures Strip(l) == Strip(r) <==> Num(l) == Num(r)
  {
    NumStrip(l);
    NumStrip(r);
    var a, b := Strip(l), Strip(r);
    if |a| < |b| {
      LongerIsLarger(a, b);
    } else if |a| > |b| {
      LongerIsLarger(b, a);
    } else {
      SameLengthAsText(a, b);
    }
  }

  // ---- Identifiers ----

  /** A number that the code reads as one. */
  predicate InRange(s: string) {
    Digits(s) && Value(s) <= MAX_INT
  }

  /** A minus sign and digits: text for section 11, a number for the code. */
  predicate Signed(s: string) {
    s != "" && s[0] == '-' && Digits(s[1..]) && Value(s[1..]) <= MAX_INT + 1
  }

  /** What strconv.Atoi makes of an identifier; a plus sign cannot occur in one. */
  lemma AtoiOf(s: string)
    requires '+' !in s
    ensures Atoi(s) == if InRange(s) then Some(Value(s)) else if Signed(s) then Some(0 - Value(s[1..])) else None
    ensures Digits(s) ==> !Signed(s)
  {
    assert s != "" ==> s[0] != '+';
    assert Digits(s) ==> Digit(s[0]);
  }

  /**
   The syntax on which the code agrees with section 11. It goes wrong on leading zeros, on
   digits with a minus sign, and on numbers out of range where text order is another order.
   */
  predicate PartAgrees(l: string, r: string) {
    || l == r
    || if Digits(l) && Digits(r) then
         if InRange(l) && InRange(r) then Strip(l) != Strip(r)
         else InRange(l) || InRange(r) || TextOrder(l, r) == NumeralOrder(l, r)
       else if Digits(l) then !Signed(r) && (InRange(l) || StringLess(l, r))
       else if Digits(r) then !Signed(l) && (InRange(r) || StringLess(r, l))
       else if Signed(l) && Signed(r) then
         Strip(l[1..]) == Strip(r[1..]) || TextOrder(l, r) == NumeralOrder(r[1..], l[1..])
       else if Signed(l) then StringLess(l, r)
       else if Signed(r) then StringLess(r, l)
       else true
  }

  lemma SignFirst(l: string, r: string)
    requires Signed(l) && Digits(r)
    ensures StringLess(l, r) && !StringLess(r, l) && l != r
  {
    assert Digit(r[0]);
  }

  lemma DigitsAgreeIff(l: string, r: string)
    requires '+' !in l && '+' !in r && l != r && Digits(l) && Digits(r)
    ensures PartOrder(l, r) == IdentifierOrder(l, r) <==> PartAgrees(l, r)
  {
    AtoiOf(l);
    AtoiOf(r);
    StringTrichotomy(l, r);
    NumeralOrderIsValue(l, r);
    hide Atoi, StringLess, Strip, NumeralOrder, Signed, Value;
  }

  lemma NumberAgreesIff(l: string, r: string)
    requires '+' !in l && '+' !in r && Digits(l) && !Digits(r)
    ensures PartOrder(l, r) == IdentifierOrder(l, r) <==> PartAgrees(l, r)
    ensures PartOrder(r, l) == IdentifierOrder(r, l) <==> PartAgrees(r, l)
  {
    AtoiOf(l);
    AtoiOf(r);
    StringTrichotomy(l, r);
    if Signed(r) {
      SignFirst(r, l);
    }
    hide Atoi, StringLess, Strip, NumeralOrder, Value;
  }

  lemma TextAgreesIff(l: string, r: string)
    requires '+' !in l && '+' !in r && l != r && !Digits(l) && !Digits(r)
    ensures PartOrder(l, r) == IdentifierOrder(l, r) <==> PartAgrees(l, r)
  {
    AtoiOf(l);
    AtoiOf(r);
    StringTrichotomy(l, r);
    if Signed(l) && Signed(r) {
      NumeralOrderIsValue(r[1..], l[1..]);
    }
    hide Atoi, StringLess, Strip, NumeralOrder, Value;
  }

  /** One round of comparePrerelease agrees with section 11 exactly on that syntax. */
  lemma PartAgreesIff(l: string, r: string)
    requires '+' !in l && '+' !in r
    ensures PartOrder(l, r) == IdentifierOrder(l, r) <==> PartAgrees(l, r)
  {
    if l == r {
      StringTrichotomy(l, r);
    } else if Digits(l) && Digits(r) {
      DigitsAgreeIff(l, r);
    } else if Digits(l) {
      NumberAgreesIff(l, r);
    } else if Digits(r) {
      NumberAgreesIff(r, l);
    } else {
      TextAgreesIff(l, r);
    }
    hide PartAgrees, PartOrder;
  }

  // ---- Lists of identifiers ----

  /** The first position where the lists differ as text, or where one of them ends. */
  function DiffAt(l: seq<string>, r: seq<string>, i: nat): (d: nat)
    requires i <= |l| && i <= |r|
    ensures i <= d <= |l| && d <= |r|
    ensures d < |l| && d < |r| ==> l[d] != r[d]
    decreases |l| - i
  {
    if i < |l| && i < |r| && l[i] == r[i] then DiffAt(l, r, i + 1) else i
  }

  /** The same number, written with different leading zeros. */
  predicate SameNumeral(l: string, r: string) {
    Digits(l) && Digits(r) && Strip(l) == Strip(r)
  }

  /**
   The first differing identifiers agree; or they are one number with different leading zeros,
   and what follows happens to be ordered like their texts.
   */
  predicate ListAgrees(l: seq<string>, r: seq<string>) {
    var d := DiffAt(l, r, 0);
    || d == |l| || d == |r|
    || PartAgrees(l[d], r[d])
    || (SameNumeral(l[d], r[d]) && SectionOrder(l, r, d + 1) == TextOrder(l[d], r[d]))
  }

  lemma {:induction false} SkipEqual(l: seq<string>, r: seq<string>, i: nat)
    requires i <= |l| && i <= |r|
    ensures PartsOrder(l, r, i) == PartsOrder(l, r, DiffAt(l, r, i))
    ensures SectionOrder(l, r, i) == SectionOrder(l, r, DiffAt(l, r, i))
    decreases |l| - i
  {
    if i < |l| && i < |r| && l[i] == r[i] {
      StringTrichotomy(l[i], l[i]);
      SkipEqual(l, r, i + 1);
      hide Atoi, StringLess, Digits, Value;
    }
  }

  /** Where section 11 sees no difference, the texts are one number. */
  lemma NoDifference(l: string, r: string)
    requires '+' !in l && '+' !in r && l != r
    ensures IdentifierOrder(l, r) == 0 <==> SameNumeral(l, r)
    ensures IdentifierOrder(l, r) == 0 ==> PartOrder(l, r) == TextOrder(l, r)
    ensures PartOrder(l, r) != 0 && TextOrder(l, r) != 0
  {
    AtoiOf(l);
    AtoiOf(r);
    StringTrichotomy(l, r);
    if Digits(l) && Digits(r) {
      NumeralOrderIsValue(l, r);
    }
    hide Atoi, StringLess, Strip, NumeralOrder, Value, Signed;
  }

  predicate NoPlus(parts: seq<string>) {
    forall i :: 0 <= i < |parts| ==> '+' !in parts[i]
  }

  /** comparePrerelease agrees with section 11 on two lists exactly then. */
  lemma ListAgreesIff(l: seq<string>, r: seq<string>)
    requires NoPlus(l) && NoPlus(r)
    ensures PartsOrder(l, r, 0) == SectionOrder(l, r, 0) <==> ListAgrees(l, r)
  {
    SkipEqual(l, r, 0);
    var d := DiffAt(l, r, 0);
    if d < |l| && d < |r| {
      PartAgreesIff(l[d], r[d]);
      NoDifference(l[d], r[d]);
      hide PartOrder, IdentifierOrder, PartAgrees, SameNumeral, DiffAt, TextOrder;
    }
  }

  /** Section 9 of Semantic Versioning 2.0.0 forbids leading zeros in numbers. */
  predicate Canonical(parts: seq<string>) {
    forall i :: 0 <= i < |parts| && Digits(parts[i]) ==> Strip(parts[i]) == parts[i] || parts[i] == "0"
  }

  /** On lists without leading zeros the first differing identifiers alone decide the agreement. */
  lemma CanonicalAgreesIff(l: seq<string>, r: seq<string>)
    requires NoPlus(l) && NoPlus(r) && Canonical(l) && Canonical(r)
    ensures var d := DiffAt(l, r, 0);
            PartsOrder(l, r, 0) == SectionOrder(l, r, 0) <==> d == |l| || d == |r| || PartAgrees(l[d], r[d])
  {
    ListAgreesIff(l, r);
    var d := DiffAt(l, r, 0);
    assert Strip("0") == Strip("") == "";
    assert d < |l| && d < |r| ==> !SameNumeral(l[d], r[d]);
    hide PartsOrder, SectionOrder, PartAgrees, DiffAt;
  }

  // ---- Versions ----

  lemma {:induction false} SectionTotal(l: seq<string>, r: seq<string>, i: nat)
    requires i <= |l| && i <= |r|
    ensures SectionOrder(l, r, i) == -SectionOrder(r, l, i) && -1 <= SectionOrder(l, r, i) <= 1
    decreases |l| - i
  {
    if i < |l| && i < |r| {
      StringTrichotomy(l[i], r[i]);
      SectionTotal(l, r, i + 1);
      hide StringLess, Digits, Value;
    }
  }

  lemma {:induction false} CutHas(s: string, c: char)
    ensures var (before, after) := Cut(s, c);
            && c !in before
            && (forall x :: x in before ==> x in s)
            && (after.Some? ==> forall x :: x in after.value ==> x in s)
  {
    if s != "" && s[0] != c {
      CutHas(s[1..], c);
    }
  }

  lemma {:induction false} SplitHas(s: string, c: char, x: char)
    requires x !in s
    ensures forall i :: 0 <= i < |Split(s, c)| ==> x !in Split(s, c)[i]
  {
    if s != "" {
      SplitHas(s[1..], c, x);
    }
  }

  /** A prerelease contains no plus sign. */
  lemma PrereleaseHasNoPlus(version: string)
    ensures NoPlus(Split(Prerelease(version), '.'))
  {
    var s := TrimSpace(TrimPrefix(TrimPrefix(version, 'v'), 'V'));
    CutHas(s, '+');
    CutHas(Cut(s, '+').0, '-');
    SplitHas(Prerelease(version), '.', '+');
    hide Cut, Split, TrimSpace;
  }

  /** The order of the identifiers is at stake between two versions. */
  ghost predicate ByPrerelease(a: string, b: string) {
    && Parses(a) && Parses(b) && CoreSame(Parse(a).value, Parse(b).value)
    && Prerelease(a) != "" && Prerelease(b) != ""
  }

  /**
   versionGreater follows section 11 on a pair of versions, both ways round, if and only if the
   prereleases do not decide, or agree in the sense above.
   */
  lemma PrecedenceAgreesIff(a: string, b: string)
    ensures (Above(a, b) <==> SectionAbove(a, b)) && (Above(b, a) <==> SectionAbove(b, a)) <==>
            (ByPrerelease(a, b) ==> ListAgrees(Split(Prerelease(a), '.'), Split(Prerelease(b), '.')))
  {
    var l, r := Split(Prerelease(a), '.'), Split(Prerelease(b), '.');
    PrereleaseHasNoPlus(a);
    PrereleaseHasNoPlus(b);
    ListAgreesIff(l, r);
    SectionTotal(l, r, 0);
    PartsTotal(l, r, 0);
    PrereleaseTotal(Prerelease(a), Prerelease(b));
    if Parses(a) && Parses(b) {
      CoreTrichotomy(Parse(a).value, Parse(b).value);
      assert CoreSame(Parse(a).value, Parse(b).value) <==> CoreSame(Parse(b).value, Parse(a).value);
    }
    hide Parse, Prerelease, CoreAbove, ListAgrees, Split, PartsOrder, SectionOrder, NoPlus;
  }

  // ---- Failing inputs ----

  /** Digits with a minus sign are text for section 11, above every number; the code puts them below. */
  lemma SignedIsMisplaced(l: string, r: string)
    requires Signed(l) && Digits(r) && '+' !in l && '+' !in r
    ensures PartOrder(l, r) == -1 && IdentifierOrder(l, r) == 1
  {
    AtoiOf(l);
    AtoiOf(r);
    SignFirst(l, r);
    hide Atoi, StringLess;
  }

  lemma MinusFiveBelowZero()
    ensures PartOrder("-5", "0") == -1 && IdentifierOrder("-5", "0") == 1
  {
    assert "-5"[1..] == "5" && "5"[..0] == "" && "0"[..0] == "";
    SignedIsMisplaced("-5", "0");
  }

  /** Leading zeros make two identifiers for the code out of one number. */
  lemma ZeroOneBelowOne()
    ensures PartOrder("01", "1") == -1 && IdentifierOrder("01", "1") == 0
  {
    assert "01"[..1] == "0" && "0"[..0] == "" && "1"[..0] == "";
    assert Value("01") == 1 && Value("1") == 1;
    assert StringLess("01", "1") && !StringLess("1", "01");
  }

  lemma LongNumberOutOfRange(s: string)
    requires Digits(s) && |s| >= 20 && s[0] != '0'
    ensures !InRange(s)
  {
    PowGrows(19, |s| - 1);
    assert Pow10(19) == 10_000_000_000_000_000_000 by {
      assert Pow10(5) == 100000;
      assert Pow10(10) == 100000 * Pow10(5);
      assert Pow10(15) == 100000 * Pow10(10);
      assert Pow10(19) == 10000 * Pow10(15);
    }
    NumHead(s);
    if Digit0(s[0]) > 1 {
      Digitwise(1, Digit0(s[0]), Pow10(|s| - 1));
    }
  }

  /** Out of range the code compares as text: twenty nines come out above a one with twenty zeros. */
  lemma OutOfRangeIsMisplaced(l: string, r: string)
    requires Digits(l) && Digits(r) && l[0] != '0' && r[0] != '0' && 20 <= |l| < |r| && r[0] < l[0]
    ensures PartOrder(l, r) == 1 && IdentifierOrder(l, r) == -1
  {
    LongNumberOutOfRange(l);
    LongNumberOutOfRange(r);
    assert l[0] != '-' && r[0] != '-' && l[0] != '+' && r[0] != '+';
    LongerIsLarger(l, r);
    hide Value;
  }

  lemma NinesAboveTenToTheTwentieth()
    ensures PartOrder("99999999999999999999", "100000000000000000000") == 1
    ensures IdentifierOrder("99999999999999999999", "100000000000000000000") == -1
  {
    OutOfRangeIsMisplaced("99999999999999999999", "100000000000000000000");
  }

  // ---- A version for every prerelease ----

  /** The version 1.0 with this prerelease. */
  function OneZero(pre: string): string {
    Render("", ["1", "0"], Some(pre), None)
  }

  /** Every text that the pattern allows is the prerelease of some version. */
  lemma OneZeroParses(pre: string)
    requires Written(Some(pre))
    ensures Parse(OneZero(pre)) == Some([1, 0]) && Prerelease(OneZero(pre)) == pre
  {
    var one, zero := ['1'], ['0'];
    RenderedParses("", [one, zero], Some(pre), None);
    OneDigit('1');
    OneDigit('0');
    NumbersOfTwo(one, zero);
    hide Parse, Prerelease, Render, Numbers, Atoi, Matches;
  }

  /** Versions with prereleases of one identifier are ordered by it. */
  lemma OneZeroOrder(p: string, q: string)
    requires Written(Some(p)) && Written(Some(q)) && '.' !in p && '.' !in q && p != q
    ensures Above(OneZero(p), OneZero(q)) <==> PartOrder(p, q) > 0
    ensures SectionAbove(OneZero(p), OneZero(q)) <==> IdentifierOrder(p, q) > 0
  {
    OneZeroParses(p);
    OneZeroParses(q);
    SplitFirst(p, "", '.');
    SplitFirst(q, "", '.');
    var core: seq<int> := [1, 0];
    CoreTrichotomy(core, core);
    var l, r := [p], [q];
    assert l[0] == p && r[0] == q;
    assert PartsOrder(l, r, 0) == PartOrder(p, q);
    assert SectionOrder(l, r, 0) == IdentifierOrder(p, q);
    hide Parse, Prerelease, OneZero, Split, PartOrder, IdentifierOrder, CoreAbove, PartsOrder, SectionOrder;
  }

  /** The code puts 1.0--5 below 1.0-0, section 11 above it. */
  lemma VersionIsMisplaced()
    ensures var (minus, zero) := (OneZero("-5"), OneZero("0"));
            Above(zero, minus) && !SectionAbove(zero, minus) && SectionAbove(minus, zero) && !Above(minus, zero)
  {
    var minus, zero := "-5", "0";
    MinusFiveBelowZero();
    PartTotal(minus, zero);
    hide PartOrder, Above, SectionAbove, OneZero;
    OneZeroOrder(minus, zero);
    OneZeroOrder(zero, minus);
    hide IdentifierOrder;
  }
}
