/**
 Version precedence of the update check, as the code orders versions: cores of two to four
 components that are compared as if padded with zeros, and prereleases by their identifiers.
 The module VersionPrecedence relates this order to section 11 of Semantic Versioning 2.0.0.
 */
module SemanticVersion {
  import opened Common
  import opened Text

  // ---- Reading numbers and versions ----

  const MAX_INT := 0x7fff_ffff_ffff_ffff

  /** strconv.Atoi for 64-bit integers: an optional sign and digits, within range. */
  function Atoi(s: string): Option<int> {
    var negative := s != "" && s[0] == '-';
    var body := if s != "" && (s[0] == '-' || s[0] == '+') then s[1..] else s;
    if !Digits(body) then None
    else
      var n: int := if negative then 0 - Value(body) else Value(body);
      if -MAX_INT - 1 <= n <= MAX_INT then Some(n) else None
  }

  /** Unicode's white space, as strings.TrimSpace removes it. */
  predicate Space(c: char) {
    || c in {' ', '\t', '\n', '\r', '\U{0B}', '\U{0C}', '\U{85}', '\U{A0}', '\U{1680}', '\U{2028}', '\U{2029}'}
    || c in {'\U{202F}', '\U{205F}', '\U{3000}'} || '\U{2000}' <= c <= '\U{200A}'
  }

  function TrimLeft(s: string): string {
    if s != "" && Space(s[0]) then TrimLeft(s[1..]) else s
  }

  function TrimRight(s: string): string {
    if s != "" && Space(s[|s| - 1]) then TrimRight(s[..|s| - 1]) else s
  }

  function TrimSpace(s: string): string {
    TrimRight(TrimLeft(s))
  }

  function TrimPrefix(s: string, c: char): string {
    if s != "" && s[0] == c then s[1..] else s
  }

  /** strings.Cut at one character: what is before it, and what is after it if it occurs. */
  function Cut(s: string, c: char): (string, Option<string>) {
    if s == "" then ("", None)
    else if s[0] == c then ("", Some(s[1..]))
    else
      var (before, after) := Cut(s[1..], c);
      ([s[0]] + before, after)
  }

  predicate IdentifierChar(c: char) {
    Digit(c) || 'A' <= c <= 'Z' || 'a' <= c <= 'z' || c == '.' || c == '-'
  }

  predicate Suffix(s: Option<string>) {
    s.Some? ==> s.value != "" && forall i :: 0 <= i < |s.value| ==> IdentifierChar(s.value[i])
  }

  /** semanticVersionPattern: v, two to four numbers, an optional prerelease and build. */
  predicate Matches(s: string) {
    var body := if s != "" && (s[0] == 'v' || s[0] == 'V') then s[1..] else s;
    var (version, build) := Cut(body, '+');
    var (core, pre) := Cut(version, '-');
    var parts := Split(core, '.');
    && Suffix(build) && Suffix(pre)
    && 2 <= |parts| <= 4
    && forall i :: 0 <= i < |parts| ==> Digits(parts[i])
  }

  function Numbers(parts: seq<string>): Option<seq<int>> {
    if forall i :: 0 <= i < |parts| ==> Atoi(parts[i]).Some?
    then Some(seq(|parts|, i requires 0 <= i < |parts| && Atoi(parts[i]).Some? => Atoi(parts[i]).value))
    else None
  }

  /** parseSemanticVersion: the numbers of the core. */
  function Parse(value: string): Option<seq<int>> {
    var s := TrimSpace(value);
    if !Matches(s) then None
    else
      var body := TrimPrefix(TrimPrefix(s, 'v'), 'V');
      Numbers(Split(Cut(Cut(body, '+').0, '-').0, '.'))
  }

  /** semanticPrerelease. */
  function Prerelease(value: string): string {
    var s := TrimSpace(TrimPrefix(TrimPrefix(value, 'v'), 'V'));
    var pre := Cut(Cut(s, '+').0, '-').1;
    if pre.Some? then pre.value else ""
  }

  // ---- The order of strings ----

  /** Go's < on strings. */
  predicate StringLess(a: string, b: string) {
    if b == "" then false
    else if a == "" then true
    else a[0] < b[0] || (a[0] == b[0] && StringLess(a[1..], b[1..]))
  }

  lemma {:induction false} StringTrichotomy(a: string, b: string)
    ensures a == b || StringLess(a, b) || StringLess(b, a)
    ensures !(StringLess(a, b) && StringLess(b, a)) && !StringLess(a, a)
  {
    if a != "" && b != "" {
      StringTrichotomy(a[1..], b[1..]);
      StringTrichotomy(a[1..], a[1..]);
      assert a == [a[0]] + a[1..] && b == [b[0]] + b[1..];
    } else if a != "" {
      StringTrichotomy(a[1..], a[1..]);
    }
  }

  lemma {:induction false} StringTransitive(a: string, b: string, c: string)
    requires StringLess(a, b) && StringLess(b, c)
    ensures StringLess(a, c)
  {
    if a != "" && a[0] == b[0] == c[0] {
      StringTransitive(a[1..], b[1..], c[1..]);
    }
  }

  // ---- The order of prerelease identifiers ----

  /** One round of comparePrerelease: numbers before names, then by value, then as text. */
  function PartOrder(l: string, r: string): int {
    var x, y := Atoi(l), Atoi(r);
    if x.Some? && y.Some? && x.value != y.value then (if x.value > y.value then 1 else -1)
    else if x.Some? && y.None? then -1
    else if x.None? && y.Some? then 1
    else if l != r then (if StringLess(r, l) then 1 else -1)
    else 0
  }

  /** The lists of identifiers from position i on; a list that ends first is smaller. */
  function PartsOrder(l: seq<string>, r: seq<string>, i: nat): int
    decreases |l| + |r| - 2 * i
  {
    if i >= |l| && i >= |r| then 0
    else if i >= |l| then -1
    else if i >= |r| then 1
    else
      var c := PartOrder(l[i], r[i]);
      if c != 0 then c else PartsOrder(l, r, i + 1)
  }

  function PrereleaseOrder(left: string, right: string): int {
    PartsOrder(Split(left, '.'), Split(right, '.'), 0)
  }

  method ComparePrerelease(left: string, right: string) returns (c: int)
    ensures c == PrereleaseOrder(left, right)
  {
    var l, r := Split(left, '.'), Split(right, '.');
    var length := if |l| < |r| then |r| else |l|;
    for i := 0 to length
      invariant PartsOrder(l, r, i) == PartsOrder(l, r, 0)
    {
      if i >= |l| {
        return -1;
      }
      if i >= |r| {
        return 1;
      }
      var x, y := Atoi(l[i]), Atoi(r[i]);
      if x.Some? && y.Some? && x.value != y.value {
        return if x.value > y.value then 1 else -1;
      } else if x.Some? && y.None? {
        return -1;
      } else if x.None? && y.Some? {
        return 1;
      } else if l[i] != r[i] {
        return if StringLess(r[i], l[i]) then 1 else -1;
      }
    }
    c := 0;
  }

  lemma PartTotal(l: string, r: string)
    ensures PartOrder(l, r) == -PartOrder(r, l) && -1 <= PartOrder(l, r) <= 1
    ensures PartOrder(l, r) == 0 <==> l == r
  {
    StringTrichotomy(l, r);
    hide StringLess, Atoi;
  }

  lemma PartTransitive(a: string, b: string, c: string)
    requires PartOrder(a, b) <= 0 && PartOrder(b, c) <= 0
    ensures PartOrder(a, c) <= 0
    ensures PartOrder(a, b) < 0 || PartOrder(b, c) < 0 ==> PartOrder(a, c) < 0
  {
    StringTrichotomy(a, b);
    StringTrichotomy(b, c);
    StringTrichotomy(a, c);
    if StringLess(a, b) && StringLess(b, c) {
      StringTransitive(a, b, c);
    }
    hide StringLess, Atoi;
  }

  lemma {:induction false} PartsTotal(l: seq<string>, r: seq<string>, i: nat)
    requires i <= |l| && i <= |r|
    ensures PartsOrder(l, r, i) == -PartsOrder(r, l, i) && -1 <= PartsOrder(l, r, i) <= 1
    ensures PartsOrder(l, r, i) == 0 <==> l[i..] == r[i..]
    decreases |l| - i
  {
    if i < |l| && i < |r| {
      PartTotal(l[i], r[i]);
      PartsTotal(l, r, i + 1);
      assert l[i..] == [l[i]] + l[i + 1..] && r[i..] == [r[i]] + r[i + 1..];
    }
  }

  lemma {:induction false} PartsTransitive(a: seq<string>, b: seq<string>, c: seq<string>, i: nat)
    requires i <= |a| && i <= |b| && i <= |c|
    requires PartsOrder(a, b, i) <= 0 && PartsOrder(b, c, i) <= 0
    ensures PartsOrder(a, c, i) <= 0
    decreases |a| - i
  {
    if i < |a| && i < |b| && i < |c| {
      PartTotal(a[i], b[i]);
      PartTotal(b[i], c[i]);
      PartTotal(a[i], c[i]);
      PartTransitive(a[i], b[i], c[i]);
      hide PartOrder;
      if a[i] == b[i] == c[i] {
        PartsTransitive(a, b, c, i + 1);
      }
    }
  }

  /** comparePrerelease is a total order on all strings, and 0 only on equal ones. */
  lemma PrereleaseTotal(a: string, b: string)
    ensures PrereleaseOrder(a, b) == -PrereleaseOrder(b, a)
    ensures PrereleaseOrder(a, b) == 0 <==> a == b
  {
    var l, r := Split(a, '.'), Split(b, '.');
    PartsTotal(l, r, 0);
    assert l[0..] == l && r[0..] == r;
    if l == r {
      SplitInjective(a, b, '.');
    }
  }

  lemma PrereleaseTransitive(a: string, b: string, c: string)
    requires PrereleaseOrder(a, b) <= 0 && PrereleaseOrder(b, c) <= 0
    ensures PrereleaseOrder(a, c) <= 0
  {
    PartsTransitive(Split(a, '.'), Split(b, '.'), Split(c, '.'), 0);
  }

  // ---- The order of versions ----

  predicate Parses(s: string) {
    Parse(s).Some?
  }

  /** A component of a core; missing ones count as zero. */
  function Component(core: seq<int>, i: nat): int {
    if i < |core| then core[i] else 0
  }

  predicate AgreeBelow(l: seq<int>, r: seq<int>, n: nat) {
    forall j: nat :: j < n ==> Component(l, j) == Component(r, j)
  }

  /** At the first difference, the left component is larger. */
  ghost predicate CoreAbove(l: seq<int>, r: seq<int>) {
    exists i: nat :: Component(l, i) > Component(r, i) && AgreeBelow(l, r, i)
  }

  ghost predicate CoreSame(l: seq<int>, r: seq<int>) {
    forall i: nat :: Component(l, i) == Component(r, i)
  }

  /** No prerelease is above every prerelease. */
  predicate PreAbove(l: string, r: string) {
    l != r && (l == "" || (r != "" && PrereleaseOrder(l, r) > 0))
  }

  /** Precedence, without reference to the lengths of the cores. */
  ghost predicate Above(latest: string, current: string) {
    var l, r := Parse(latest), Parse(current);
    && l.Some? && r.Some?
    && (CoreAbove(l.value, r.value) || (CoreSame(l.value, r.value) && PreAbove(Prerelease(latest), Prerelease(current))))
  }

  /** The loop over the components of both cores. */
  method CompareCores(left: seq<int>, right: seq<int>) returns (decided: bool, greater: bool)
    ensures decided ==> (greater <==> CoreAbove(left, right)) && !CoreSame(left, right)
    ensures !decided ==> CoreSame(left, right) && !CoreAbove(left, right)
  {
    var length := if |left| < |right| then |right| else |left|;
    for index := 0 to length
      invariant AgreeBelow(left, right, index)
    {
      var l, r := 0, 0;
      if index < |left| {
        l := left[index];
      }
      if index < |right| {
        r := right[index];
      }
      assert l == Component(left, index) && r == Component(right, index);
      if l != r {
        CoresDiffer(left, right, index);
        return true, l > r;
      }
    }
    CoresAgree(left, right, length);
    return false, false;
  }

  method VersionGreater(latest: string, current: string) returns (greater: bool)
    ensures greater <==> Above(latest, current)
  {
    hide Parse, Prerelease, PrereleaseOrder, CoreAbove, CoreSame;
    var left, right := Parse(latest), Parse(current);
    if left.None? || right.None? {
      return false;
    }
    var decided;
    decided, greater := CompareCores(left.value, right.value);
    if decided {
      return;
    }
    var leftPre, rightPre := Prerelease(latest), Prerelease(current);
    if leftPre == rightPre {
      return false;
    }
    if leftPre == "" {
      return true;
    }
    if rightPre == "" {
      return false;
    }
    var c := ComparePrerelease(leftPre, rightPre);
    greater := c > 0;
  }

  lemma CoresDiffer(l: seq<int>, r: seq<int>, i: nat)
    requires AgreeBelow(l, r, i) && Component(l, i) != Component(r, i)
    ensures CoreAbove(l, r) <==> Component(l, i) > Component(r, i)
    ensures !CoreSame(l, r)
  {
  }

  lemma CoresAgree(l: seq<int>, r: seq<int>, n: nat)
    requires AgreeBelow(l, r, n) && |l| <= n && |r| <= n
    ensures CoreSame(l, r) && !CoreAbove(l, r) && !CoreAbove(r, l)
  {
  }

  lemma {:induction false} FirstDifference(l: seq<int>, r: seq<int>, n: nat) returns (i: nat)
    ensures AgreeBelow(l, r, i) && i <= n
    ensures i < n ==> Component(l, i) != Component(r, i)
  {
    if n == 0 {
      i := 0;
    } else {
      i := FirstDifference(l, r, n - 1);
      if i == n - 1 && Component(l, i) == Component(r, i) {
        i := n;
      }
    }
  }

  lemma CoreTrichotomy(l: seq<int>, r: seq<int>)
    ensures CoreAbove(l, r) || CoreAbove(r, l) || CoreSame(l, r)
    ensures !(CoreAbove(l, r) && CoreAbove(r, l)) && !(CoreAbove(l, r) && CoreSame(l, r))
  {
    var n := |l| + |r|;
    var i := FirstDifference(l, r, n);
    assert AgreeBelow(r, l, i);
    if i < n {
      CoresDiffer(l, r, i);
      CoresDiffer(r, l, i);
    } else {
      CoresAgree(l, r, n);
    }
  }

  lemma CoreTransitive(a: seq<int>, b: seq<int>, c: seq<int>)
    requires CoreAbove(a, b) || CoreSame(a, b)
    requires CoreAbove(b, c) || CoreSame(b, c)
    ensures CoreAbove(a, c) || CoreSame(a, c)
    ensures CoreAbove(a, b) || CoreAbove(b, c) ==> CoreAbove(a, c)
  {
  }

  /** Equal precedence: the same numbers and the same prerelease; the build does not matter. */
  ghost predicate SamePrecedence(a: string, b: string)
    requires Parse(a).Some? && Parse(b).Some?
  {
    CoreSame(Parse(a).value, Parse(b).value) && Prerelease(a) == Prerelease(b)
  }

  /** Of two versions exactly one is above the other, or they have equal precedence. */
  lemma VersionTrichotomy(a: string, b: string)
    ensures !(Above(a, b) && Above(b, a)) && !Above(a, a)
    ensures Parses(a) && Parses(b) ==> (!Above(a, b) && !Above(b, a) <==> SamePrecedence(a, b))
  {
    if Parses(a) {
      CoreTrichotomy(Parse(a).value, Parse(a).value);
      if Parses(b) {
        CoreTrichotomy(Parse(a).value, Parse(b).value);
        PrereleaseTotal(Prerelease(a), Prerelease(b));
      }
    }
    hide Parse, Prerelease, CoreAbove, PrereleaseOrder;
  }

  lemma VersionTransitive(a: string, b: string, c: string)
    ensures Above(a, b) && Above(b, c) ==> Above(a, c)
  {
    if Above(a, b) && Above(b, c) {
      AboveTransitive(a, b, c);
    }
    hide Above;
  }

  lemma AboveTransitive(a: string, b: string, c: string)
    requires Parses(a) && Parses(b) && Parses(c)
    ensures Above(a, b) && Above(b, c) ==> Above(a, c)
  {
    if !(Above(a, b) && Above(b, c)) {
      return;
    }
    CoreTransitive(Parse(a).value, Parse(b).value, Parse(c).value);
    CoreTrichotomy(Parse(a).value, Parse(b).value);
    var p, q, r := Prerelease(a), Prerelease(b), Prerelease(c);
    PrereleaseTotal(p, q);
    PrereleaseTotal(q, r);
    PrereleaseTotal(p, r);
    hide Parse, Prerelease, CoreAbove, CoreSame;
    if PreAbove(p, q) && PreAbove(q, r) && p != "" && q != "" && r != "" {
      PrereleaseTransitive(r, q, p);
    }
    hide PrereleaseOrder;
  }

  ghost predicate Incomparable(a: string, b: string) {
    !Above(a, b) && !Above(b, a)
  }

  /**
   Incomparability passes through b, for all a and c, if and only if b parses: on versions
   the comparison is a strict weak order, and any other string breaks it.
   */
  lemma StrictWeakOrderIff(b: string)
    ensures (forall a, c :: Incomparable(a, b) && Incomparable(b, c) ==> Incomparable(a, c)) <==> Parses(b)
  {
    if Parses(b) {
      forall a, c | Incomparable(a, b) && Incomparable(b, c) ensures Incomparable(a, c) {
        if Parses(a) && Parses(c) {
          VersionTrichotomy(a, b);
          VersionTrichotomy(b, c);
          VersionTrichotomy(a, c);
        }
        hide Parse, Prerelease, CoreAbove, PreAbove;
      }
      hide *;
    } else {
      var two, one := TwoIsAboveOne();
      hide Parse;
      assert Incomparable(two, b) && Incomparable(b, one) && !Incomparable(two, one);
    }
  }

  lemma SimpleVersion(c: char)
    requires '1' <= c <= '2'
    ensures Parse([c, '.', '0']) == Some([c as int - '0' as int, 0])
  {
    var s := [c, '.', '0'];
    SimpleParts(c);
    OneDigit('0');
    OneDigit(c);
    NumbersOfTwo([c], ['0']);
    hide Atoi, TrimSpace, Split, Cut, Numbers;
    assert Matches(s);
  }

  lemma SimpleParts(c: char)
    requires '1' <= c <= '2'
    ensures var s := [c, '.', '0'];
            && TrimSpace(s) == s && TrimPrefix(TrimPrefix(s, 'v'), 'V') == s
            && Cut(s, '+') == (s, None) && Cut(s, '-') == (s, None)
            && Split(s, '.') == [[c], ['0']]
  {
    var s := [c, '.', '0'];
    TrimNothing(s);
    CutAbsent(s, '+');
    CutAbsent(s, '-');
    SplitSimple([c], ['0']);
    assert s == [c] + ['.'] + ['0'];
    hide Cut, Split, TrimSpace;
  }

  lemma TrimNothing(s: string)
    requires s != "" ==> !Space(s[0]) && !Space(s[|s| - 1])
    ensures TrimSpace(s) == s
  {
    hide Space;
  }

  lemma SplitSimple(a: string, b: string)
    requires '.' !in a && '.' !in b
    ensures Split(a + ['.'] + b, '.') == [a, b]
  {
    SplitFirst(a, b, '.');
    SplitFirst(b, "", '.');
    hide Split;
  }

  lemma NumbersOfTwo(a: string, b: string)
    requires Atoi(a).Some? && Atoi(b).Some?
    ensures Numbers([a, b]) == Some([Atoi(a).value, Atoi(b).value])
  {
    hide Atoi;
    var parts := [a, b];
    assert parts[0] == a && parts[1] == b;
    forall i | 0 <= i < |parts| ensures Atoi(parts[i]).Some? {
      assert parts[i] == a || parts[i] == b;
    }
    assert Numbers(parts).Some?;
    assert Numbers(parts).value == [Atoi(a).value, Atoi(b).value];
  }

  lemma OneDigit(c: char)
    requires Digit(c)
    ensures Atoi([c]) == Some(c as int - '0' as int)
  {
    assert [c][..0] == "";
    assert Value([c]) == 10 * Value([c][..0]) + (c as int - '0' as int);
  }

  lemma {:induction false} CutAbsent(s: string, c: char)
    requires c !in s
    ensures Cut(s, c) == (s, None)
  {
    if s != "" {
      CutAbsent(s[1..], c);
      assert s == [s[0]] + s[1..];
    }
  }

  lemma TwoIsAboveOne() returns (two: string, one: string)
    ensures Parses(two) && Parses(one) && Above(two, one)
  {
    two, one := ['2', '.', '0'], ['1', '.', '0'];
    SimpleVersion('2');
    SimpleVersion('1');
    hide Parse, Prerelease;
    var l, r := Parse(two).value, Parse(one).value;
    assert Component(l, 0) > Component(r, 0) && AgreeBelow(l, r, 0);
  }

  /** One more component matters exactly if it is not zero. */
  lemma MissingIsZero(core: seq<int>, k: nat)
    ensures CoreSame(core, core + [k]) <==> k == 0
    ensures CoreAbove(core + [k], core) <==> k > 0
  {
    var more := core + [k];
    var n := |core|;
    assert forall j: nat :: j != n ==> Component(more, j) == Component(core, j);
    assert Component(more, n) == k && Component(core, n) == 0;
    assert AgreeBelow(more, core, n);
  }
}
