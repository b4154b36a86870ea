/**
 The texts that the update check takes for versions, written out, and what it reads in them.
 */
module VersionText {
  import opened Common
  import opened Text
  import opened SemanticVersion

  function Tail(c: char, suffix: Option<string>): string {
    if suffix.Some? then [c] + suffix.value else ""
  }

  /** An optional v, two to four numbers with dots, an optional prerelease, an optional build. */
  function Render(v: string, parts: seq<string>, pre: Option<string>, build: Option<string>): string
    requires parts != []
  {
    v + Join(parts, '.') + Tail('-', pre) + Tail('+', build)
  }

  predicate Letter(c: char) {
    'a' <= c <= 'z' || 'A' <= c <= 'Z' || '0' <= c <= '9'
  }

  /** Not empty, of letters, digits, dots and hyphens. */
  predicate Written(s: Option<string>) {
    s.Some? ==> |s.value| > 0 && forall i :: 0 <= i < |s.value| ==> Letter(s.value[i]) || s.value[i] in {'.', '-'}
  }

  predicate Numeral(s: string) {
    |s| > 0 && forall i :: 0 <= i < |s| ==> '0' <= s[i] <= '9'
  }

  predicate Core(parts: seq<string>) {
    2 <= |parts| <= 4 && forall i :: 0 <= i < |parts| ==> Numeral(parts[i])
  }

  lemma {:induction false} JoinHas(parts: seq<string>, c: char)
    requires parts != [] && forall i :: 0 <= i < |parts| ==> Numeral(parts[i])
    ensures forall x :: x in Join(parts, c) ==> '0' <= x <= '9' || x == c
    ensures Join(parts, c) != "" && '0' <= Join(parts, c)[0] <= '9'
  {
    if |parts| > 1 {
      JoinHas(parts[1..], c);
    }
  }

  lemma {:induction false} CutFirst(a: string, b: string, c: char)
    requires c !in a
    ensures Cut(a + [c] + b, c) == (a, Some(b))
  {
    var s := a + [c] + b;
    if a == "" {
      assert s[1..] == b;
    } else {
      CutFirst(a[1..], b, c);
      assert s[1..] == a[1..] + [c] + b && a == [a[0]] + a[1..];
    }
  }

  /** Cutting off an optional suffix finds it. */
  lemma CutOptional(a: string, suffix: Option<string>, c: char)
    requires c !in a
    ensures Cut(a + Tail(c, suffix), c) == (a, suffix)
  {
    hide Cut;
    if suffix.Some? {
      CutFirst(a, suffix.value, c);
      assert a + ([c] + suffix.value) == a + [c] + suffix.value;
    } else {
      CutAbsent(a, c);
      assert a + "" == a;
    }
  }

  lemma CutTwice(core: string, pre: Option<string>, build: Option<string>)
    requires '+' !in core && '-' !in core && (pre.Some? ==> '+' !in pre.value)
    ensures var version := core + Tail('-', pre);
            && Cut(version + Tail('+', build), '+') == (version, build)
            && Cut(version, '-') == (core, pre)
  {
    var version := core + Tail('-', pre);
    assert '+' !in version;
    CutOptional(version, build, '+');
    CutOptional(core, pre, '-');
    hide Cut;
  }

  /** What the cuts find in the text after an optional v. */
  lemma BodyCuts(parts: seq<string>, pre: Option<string>, build: Option<string>)
    requires Core(parts) && Written(pre) && Written(build)
    ensures var (version, b) := Cut(Render("", parts, pre, build), '+');
            var (core, p) := Cut(version, '-');
            b == build && p == pre && core == Join(parts, '.') && Split(core, '.') == parts
  {
    var core := Join(parts, '.');
    var version := core + Tail('-', pre);
    JoinHas(parts, '.');
    assert pre.Some? ==> '+' !in pre.value;
    forall i | 0 <= i < |parts| ensures '.' !in parts[i] {
    }
    SplitOfJoin(parts, '.');
    hide Cut, Join, Split, Written, Core;
    CutTwice(core, pre, build);
    assert "" + core == core;
  }

  predicate Solid(s: string) {
    forall x :: x in s ==> !Space(x)
  }

  lemma SolidPieces(v: string, parts: seq<string>, pre: Option<string>, build: Option<string>)
    requires v in {"", "v", "V"} && Core(parts) && Written(pre) && Written(build)
    ensures Solid(v) && Solid(Join(parts, '.')) && Solid(Tail('-', pre)) && Solid(Tail('+', build))
    ensures Join(parts, '.') != "" && '0' <= Join(parts, '.')[0] <= '9'
  {
    JoinHas(parts, '.');
    hide Join;
  }

  /** No character of a version is white space. */
  lemma NoSpace(v: string, parts: seq<string>, pre: Option<string>, build: Option<string>)
    requires v in {"", "v", "V"} && Core(parts) && Written(pre) && Written(build)
    ensures var s := Render(v, parts, pre, build);
            && s != "" && TrimSpace(s) == s
            && s == v + Render("", parts, pre, build) && '0' <= Render("", parts, pre, build)[0] <= '9'
  {
    SolidPieces(v, parts, pre, build);
    hide Join, Core, Written, Tail;
    SolidText(v, Join(parts, '.'), Tail('-', pre), Tail('+', build));
  }

  lemma SolidText(v: string, a: string, b: string, c: string)
    requires Solid(v) && Solid(a) && Solid(b) && Solid(c) && a != ""
    ensures var s := v + a + b + c;
            && s != "" && TrimSpace(s) == s && s == v + ("" + a + b + c) && ("" + a + b + c)[0] == a[0]
  {
    hide Space;
    var s := v + a + b + c;
    assert s == v + ("" + a + b + c);
    assert forall x :: x in s ==> x in v || x in a || x in b || x in c;
    assert s[0] in s && s[|s| - 1] in s;
    TrimNothing(s);
  }

  /** The pattern, on a text with an optional v whose parts are known. */
  lemma MatchesBody(v: string, body: string, version: string, parts: seq<string>, pre: Option<string>, build: Option<string>)
    requires v in {"", "v", "V"} && body != "" && '0' <= body[0] <= '9'
    requires Cut(body, '+') == (version, build) && Cut(version, '-').1 == pre && Split(Cut(version, '-').0, '.') == parts
    requires Core(parts) && Written(pre) && Written(build)
    ensures Matches(v + body) && TrimPrefix(TrimPrefix(v + body, 'v'), 'V') == body
  {
    hide Cut, Split;
    forall i | 0 <= i < |parts| ensures Digits(parts[i]) {
    }
    assert v != "" ==> (v + body)[1..] == body;
    assert v == "" ==> v + body == body;
  }

  /** Every such text is a version, with these numbers and this prerelease. */
  lemma RenderedParses(v: string, parts: seq<string>, pre: Option<string>, build: Option<string>)
    requires v in {"", "v", "V"} && Core(parts) && Written(pre) && Written(build)
    ensures var s := Render(v, parts, pre, build);
            && Matches(s) && Parse(s) == Numbers(parts)
            && Prerelease(s) == if pre.Some? then pre.value else ""
  {
    var s, body := Render(v, parts, pre, build), Render("", parts, pre, build);
    NoSpace(v, parts, pre, build);
    NoSpace("", parts, pre, build);
    BodyCuts(parts, pre, build);
    hide Render, Cut, Split, TrimSpace, Numbers, Core, Written, Join;
    MatchesBody(v, body, Cut(body, '+').0, parts, pre, build);
    hide Matches, TrimPrefix;
  }

  lemma {:induction false} CutRejoins(s: string, c: char)
    ensures var (a, b) := Cut(s, c); c !in a && s == a + Tail(c, b)
  {
    if s != "" && s[0] != c {
      CutRejoins(s[1..], c);
      var (a, b) := Cut(s[1..], c);
      assert s == [s[0]] + s[1..];
      assert [s[0]] + (a + Tail(c, b)) == ([s[0]] + a) + Tail(c, b);
    }
  }

  /** What the pattern asks of the parts. */
  lemma MatchedParts(s: string, body: string, version: string, parts: seq<string>, pre: Option<string>,
                     build: Option<string>)
    requires Matches(s) && body == (if s != "" && (s[0] == 'v' || s[0] == 'V') then s[1..] else s)
    requires Cut(body, '+') == (version, build) && Cut(version, '-').1 == pre && Split(Cut(version, '-').0, '.') == parts
    ensures Core(parts) && Written(pre) && Written(build)
  {
    var core := Cut(version, '-').0;
    assert forall i :: 0 <= i < |Split(core, '.')| ==> Digits(Split(core, '.')[i]);
    forall i | 0 <= i < |parts| ensures Numeral(parts[i]) {
      assert Digits(parts[i]);
    }
  }

  /** And nothing else is: what the pattern matches is such a text. */
  lemma MatchedIsRendered(s: string) returns (v: string, parts: seq<string>, pre: Option<string>, build: Option<string>)
    requires Matches(s)
    ensures v in {"", "v", "V"} && Core(parts) && Written(pre) && Written(build) && s == Render(v, parts, pre, build)
  {
    var body := if s != "" && (s[0] == 'v' || s[0] == 'V') then s[1..] else s;
    v := if s != "" && (s[0] == 'v' || s[0] == 'V') then [s[0]] else "";
    assert s == v + body && v in {"", "v", "V"};
    var version := Cut(body, '+').0;
    var core := Cut(version, '-').0;
    pre, build, parts := Cut(version, '-').1, Cut(body, '+').1, Split(core, '.');
    MatchedParts(s, body, version, parts, pre, build);
    hide Matches, Cut, Split, Join, Core, Written, Tail;
    CutRejoins(body, '+');
    CutRejoins(version, '-');
    SplitJoin(core, '.');
    FourPieces(v, core, Tail('-', pre), Tail('+', build));
  }

  lemma FourPieces(v: string, a: string, b: string, c: string)
    ensures v + (a + b + c) == v + a + b + c
  {
  }

  /** A text is read as a version exactly if, without its outer white space, it is one and its numbers fit. */
  lemma ParsesIff(value: string)
    ensures Parses(value) <==>
            exists v, parts, pre, build ::
              && v in {"", "v", "V"} && Core(parts) && Written(pre) && Written(build)
              && TrimSpace(value) == Render(v, parts, pre, build) && Numbers(parts).Some?
  {
    var s := TrimSpace(value);
    if Matches(s) {
      var v, parts, pre, build := MatchedIsRendered(s);
      RenderedParses(v, parts, pre, build);
      assert TrimSpace(s) == s by { NoSpace(v, parts, pre, build); }
      assert Parse(value) == Parse(s);
      assert Parses(value) <==> Numbers(parts).Some?;
      hide *;
      if v1, parts1, pre1, build1 :| v1 in {"", "v", "V"} && Core(parts1) && Written(pre1) && Written(build1)
                                     && s == Render(v1, parts1, pre1, build1) && Numbers(parts1).Some? {
        RenderedParses(v1, parts1, pre1, build1);
      }
    } else {
      forall v, parts, pre, build
        | v in {"", "v", "V"} && Core(parts) && Written(pre) && Written(build)
        ensures s != Render(v, parts, pre, build)
      {
        RenderedParses(v, parts, pre, build);
      }
    }
  }

  /** The leading v and the build change nothing, missing components count as zero. */
  lemma SameVersion(parts: seq<string>, pre: Option<string>, build: Option<string>)
    requires Core(parts) && Written(pre) && Written(build) && Numbers(parts).Some?
    ensures var (a, b) := (Render("v", parts, pre, build), Render("", parts, pre, None));
            Parses(a) && Parses(b) && SamePrecedence(a, b)
  {
    RenderedParses("v", parts, pre, build);
    RenderedParses("", parts, pre, None);
    hide Parse, Prerelease, Render;
  }
}
