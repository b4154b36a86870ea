/**
 The routing policy of the runtime: the rule list that a mode, a list mode, the selected
 outbound and the two user lists amount to; and the normalisation of list entries.
 */
module RoutingPolicy {
  import opened Common
  import opened RoutingRules
  import opened Text

  const DIRECT := "direct"
  const MODE_GLOBAL := "global"
  const MODE_DIRECT := "direct"
  const LIST_BLACKLIST := "blacklist"
  const LIST_WHITELIST := "whitelist"

  const PRIVATE_CIDRS := [
    "10.0.0.0/8", "100.64.0.0/10", "127.0.0.0/8", "169.254.0.0/16",
    "172.16.0.0/12", "192.168.0.0/16", "::1/128", "fc00::/7", "fe80::/10"]

  /** The mainland suffixes are a parameter; the policy does not depend on what they are. */
  datatype Inputs = Inputs(
    mode: string, listMode: string, selected: string, blacklist: seq<string>, whitelist: seq<string>,
    mainland: seq<string>)

  function RoutingRule(kind: Kind, values: seq<string>, outbound: string): Rule {
    Rule(kind, values, outbound, outbound, true)
  }

  /** The entries with, or without, a slash. */
  function Part(entries: seq<string>, slash: bool): seq<string> {
    if entries == [] then []
    else
      var n := |entries| - 1;
      Part(entries[..n], slash) + (if ('/' in entries[n]) == slash then [entries[n]] else [])
  }

  function ListRules(entries: seq<string>, outbound: string): seq<Rule> {
    (if Part(entries, false) != [] then [RoutingRule(DomainSuffix, Part(entries, false), outbound)] else [])
    + (if Part(entries, true) != [] then [RoutingRule(Cidr, Part(entries, true), outbound)] else [])
  }

  /** runtimeRoutingPolicy: the final outbound and the rules. */
  function Policy(x: Inputs): (string, seq<Rule>) {
    var selected := if x.selected == "" then DIRECT else x.selected;
    var rules := [RoutingRule(Cidr, PRIVATE_CIDRS, DIRECT)]
      + (if x.listMode == LIST_WHITELIST then ListRules(x.whitelist, DIRECT) else [])
      + (if x.listMode == LIST_BLACKLIST && selected != DIRECT then ListRules(x.blacklist, selected) else []);
    if x.mode == MODE_DIRECT then (DIRECT, rules)
    else if x.mode == MODE_GLOBAL then (selected, rules)
    else (selected, rules + [RoutingRule(DomainSuffix, x.mainland, DIRECT)])
  }

  method AppendListRules(rules: seq<Rule>, entries: seq<string>, outbound: string) returns (r: seq<Rule>)
    ensures r == rules + ListRules(entries, outbound)
  {
    var domains: seq<string>, cidrs: seq<string> := [], [];
    for i := 0 to |entries|
      invariant domains == Part(entries[..i], false) && cidrs == Part(entries[..i], true)
    {
      assert entries[..i + 1][..i] == entries[..i];
      if '/' in entries[i] {
        cidrs := cidrs + [entries[i]];
      } else {
        domains := domains + [entries[i]];
      }
    }
    assert entries[..|entries|] == entries;
    r := rules;
    if |domains| > 0 {
      r := r + [RoutingRule(DomainSuffix, domains, outbound)];
    }
    if |cidrs| > 0 {
      r := r + [RoutingRule(Cidr, cidrs, outbound)];
    }
  }

  method RuntimeRoutingPolicy(x: Inputs) returns (final: string, rules: seq<Rule>)
    ensures (final, rules) == Policy(x)
  {
    var selected := if x.selected == "" then DIRECT else x.selected;
    rules := [RoutingRule(Cidr, PRIVATE_CIDRS, DIRECT)];
    if x.listMode == LIST_WHITELIST {
      rules := AppendListRules(rules, x.whitelist, DIRECT);
    }
    if x.listMode == LIST_BLACKLIST && selected != DIRECT {
      rules := AppendListRules(rules, x.blacklist, selected);
    }
    assert rules == [RoutingRule(Cidr, PRIVATE_CIDRS, DIRECT)]
      + (if x.listMode == LIST_WHITELIST then ListRules(x.whitelist, DIRECT) else [])
      + (if x.listMode == LIST_BLACKLIST && selected != DIRECT then ListRules(x.blacklist, selected) else []);
    hide ListRules;
    if x.mode == MODE_DIRECT {
      return DIRECT, rules;
    } else if x.mode == MODE_GLOBAL {
      return selected, rules;
    }
    rules := rules + [RoutingRule(DomainSuffix, x.mainland, DIRECT)];
    final := selected;
  }

  // ---- What the policy decides ----

  /** The connection satisfies an entry of the list, whatever the entry's kind. */
  ghost predicate OnList(m: Matcher, entries: seq<string>) {
    exists i :: 0 <= i < |entries| && m(if '/' in entries[i] then Cidr else DomainSuffix, entries[i])
  }

  ghost predicate Matches(m: Matcher, kind: Kind, values: seq<string>) {
    exists i :: 0 <= i < |values| && m(kind, values[i])
  }

  /**
   The closed form: private networks go direct, then the whitelist goes direct or the
   blacklist to the selected outbound, then the mode decides.
   */
  ghost function Decision(x: Inputs, m: Matcher): string {
    var selected := if x.selected == "" then DIRECT else x.selected;
    if Matches(m, Cidr, PRIVATE_CIDRS) then DIRECT
    else if x.listMode == LIST_WHITELIST && OnList(m, x.whitelist) then DIRECT
    else if x.listMode == LIST_BLACKLIST && OnList(m, x.blacklist) then selected
    else if x.mode == MODE_DIRECT then DIRECT
    else if x.mode == MODE_GLOBAL then selected
    else if Matches(m, DomainSuffix, x.mainland) then DIRECT
    else selected
  }

  lemma {:induction false} PartHas(entries: seq<string>, slash: bool)
    ensures forall e :: e in Part(entries, slash) <==> e in entries && ('/' in e) == slash
  {
    if entries != [] {
      var n := |entries| - 1;
      PartHas(entries[..n], slash);
      assert entries == entries[..n] + [entries[n]];
    }
  }

  /** Splitting a list into a domain rule and a network rule does not change what it decides. */
  lemma ListRulesDecide(entries: seq<string>, outbound: string, final: string, m: Matcher)
    ensures Decide(ListRules(entries, outbound), final, m) == if OnList(m, entries) then outbound else final
  {
    var domains, cidrs := Part(entries, false), Part(entries, true);
    PartHas(entries, false);
    PartHas(entries, true);
    var a, b := RoutingRule(DomainSuffix, domains, outbound), RoutingRule(Cidr, cidrs, outbound);
    assert Hits(m, a) || Hits(m, b) ==> OnList(m, entries) by {
      if i :| 0 <= i < |domains| && m(DomainSuffix, domains[i]) {
        assert domains[i] in entries;
        var k :| 0 <= k < |entries| && entries[k] == domains[i];
      } else if i :| 0 <= i < |cidrs| && m(Cidr, cidrs[i]) {
        assert cidrs[i] in entries;
        var k :| 0 <= k < |entries| && entries[k] == cidrs[i];
      }
    }
    assert OnList(m, entries) ==> Hits(m, a) || Hits(m, b) by {
      if i :| 0 <= i < |entries| && m(if '/' in entries[i] then Cidr else DomainSuffix, entries[i]) {
        assert entries[i] in domains || entries[i] in cidrs;
      }
    }
    DecideOne(a, Decide(if cidrs != [] then [b] else [], final, m), m);
    DecideOne(b, final, m);
    DecideConcat(if domains != [] then [a] else [], if cidrs != [] then [b] else [], final, m);
    assert Decide([], final, m) == final;
    var rest := Decide(if cidrs != [] then [b] else [], final, m);
    assert Decide([], rest, m) == rest;
  }

  /** The rule list decides as the closed form says, for every mode, list mode and list. */
  lemma PolicyIsDecision(x: Inputs, m: Matcher)
    ensures Decide(Policy(x).1, Policy(x).0, m) == Decision(x, m)
  {
    var selected := if x.selected == "" then DIRECT else x.selected;
    var white := if x.listMode == LIST_WHITELIST then ListRules(x.whitelist, DIRECT) else [];
    var black := if x.listMode == LIST_BLACKLIST && selected != DIRECT then ListRules(x.blacklist, selected) else [];
    var final := Policy(x).0;
    var first, tail := PolicyShape(x, m);
    hide Policy, Decide, ListRules, Hits, Matches, OnList;
    var d3 := Decide(tail, final, m);
    var d2 := Decide(black, d3, m);
    DecideFour([first], white, black, tail, final, m);
    DecideOne(first, Decide(white, d2, m), m);
    ListRulesDecide(x.whitelist, DIRECT, d2, m);
    ListRulesDecide(x.blacklist, selected, d3, m);
    DecideNone(d3, m);
    DecideNone(d2, m);
  }

  /** The policy as private networks, lists and mode, and what the first and the last of them decide. */
  lemma PolicyShape(x: Inputs, m: Matcher) returns (first: Rule, tail: seq<Rule>)
    ensures var selected := if x.selected == "" then DIRECT else x.selected;
            var white := if x.listMode == LIST_WHITELIST then ListRules(x.whitelist, DIRECT) else [];
            var black := if x.listMode == LIST_BLACKLIST && selected != DIRECT then ListRules(x.blacklist, selected) else [];
            var final := if x.mode == MODE_DIRECT then DIRECT else selected;
            && Policy(x) == (final, [first] + white + black + tail)
            && first.enabled && first.outboundTag == DIRECT && (Hits(m, first) <==> Matches(m, Cidr, PRIVATE_CIDRS))
            && Decide(tail, final, m) ==
               if x.mode == MODE_DIRECT then DIRECT
               else if x.mode != MODE_GLOBAL && Matches(m, DomainSuffix, x.mainland) then DIRECT
               else selected
  {
    var selected := if x.selected == "" then DIRECT else x.selected;
    var last := RoutingRule(DomainSuffix, x.mainland, DIRECT);
    first := RoutingRule(Cidr, PRIVATE_CIDRS, DIRECT);
    tail := if x.mode == MODE_DIRECT || x.mode == MODE_GLOBAL then [] else [last];
    DecideOne(last, selected, m);
    DecideNone(if x.mode == MODE_DIRECT then DIRECT else selected, m);
    assert Hits(m, last) <==> Matches(m, DomainSuffix, x.mainland);
    var white := if x.listMode == LIST_WHITELIST then ListRules(x.whitelist, DIRECT) else [];
    var black := if x.listMode == LIST_BLACKLIST && selected != DIRECT then ListRules(x.blacklist, selected) else [];
    assert Policy(x).1 == [first] + white + black + tail;
    hide Decide, ListRules;
  }

  lemma DecideNone(final: string, m: Matcher)
    ensures Decide([], final, m) == final
  {
  }

  lemma DecideFour(a: seq<Rule>, b: seq<Rule>, c: seq<Rule>, d: seq<Rule>, final: string, m: Matcher)
    ensures Decide(a + b + c + d, final, m) == Decide(a, Decide(b, Decide(c, Decide(d, final, m), m), m), m)
  {
    hide Decide;
    DecideConcat(a + b + c, d, final, m);
    DecideConcat(a + b, c, Decide(d, final, m), m);
    DecideConcat(a, b, Decide(c, Decide(d, final, m), m), m);
  }

  // ---- Normalising list entries ----

  const MAX_ENTRIES := 256

  /** Lower-casing with trimming, and the canonical form of a network, as Go's library has them. */
  datatype Library = Library(fold: string -> string, network: string -> Option<string>)

  predicate LabelChar(c: char) {
    'a' <= c <= 'z' || '0' <= c <= '9' || c == '-'
  }

  predicate ValidLabel(s: string) {
    && 0 < |s| <= 63 && s[0] != '-' && s[|s| - 1] != '-'
    && forall i :: 0 <= i < |s| ==> LabelChar(s[i])
  }

  /** validateDomainSuffix. */
  predicate ValidSuffix(s: string) {
    |s| <= 253 && '.' in s && forall i :: 0 <= i < |Split(s, '.')| ==> ValidLabel(Split(s, '.')[i])
  }

  function TrimDots(s: string): string {
    var s1 := if |s| >= 2 && s[0] == '*' && s[1] == '.' then s[2..] else s;
    if s1 != "" && s1[0] == '.' then s1[1..] else s1
  }

  datatype Entry = Skip | Bad | Keep(value: string)

  /** One round of the loop, before the test for duplicates. */
  function Canonical(lib: Library, raw: string): Entry {
    var value := lib.fold(raw);
    if value == "" then Skip
    else if '/' in value then
      var network := lib.network(value);
      if network.None? then Bad else Keep(network.value)
    else if ValidSuffix(TrimDots(value)) then Keep(TrimDots(value))
    else Bad
  }

  function Distinct(lib: Library, values: seq<string>): Option<seq<string>> {
    if values == [] then Some([])
    else
      var n := |values| - 1;
      var before := Distinct(lib, values[..n]);
      var e := Canonical(lib, values[n]);
      if before.None? || e.Bad? then None
      else if e.Skip? || e.value in before.value then before
      else Some(before.value + [e.value])
  }

  function Normalize(lib: Library, values: seq<string>): Option<seq<string>> {
    if |values| > MAX_ENTRIES then None else Distinct(lib, values)
  }

  lemma {:induction false} OnceBad(lib: Library, values: seq<string>, i: nat)
    requires i <= |values| && Distinct(lib, values[..i]).None?
    ensures Distinct(lib, values).None?
  {
    if i < |values| {
      assert values[..|values| - 1][..i] == values[..i];
      OnceBad(lib, values[..|values| - 1], i);
    } else {
      assert values[..i] == values;
    }
  }

  method NormalizeEntries(lib: Library, values: seq<string>) returns (r: Option<seq<string>>)
    ensures r == Normalize(lib, values)
  {
    if |values| > MAX_ENTRIES {
      return None;
    }
    var result: seq<string> := [];
    var seen: set<string> := {};
    for i := 0 to |values|
      invariant Distinct(lib, values[..i]) == Some(result)
      invariant forall v :: v in seen <==> v in result
    {
      assert values[..i + 1][..i] == values[..i];
      var value := lib.fold(values[i]);
      if value == "" {
        continue;
      }
      if '/' in value {
        var network := lib.network(value);
        if network.None? {
          OnceBad(lib, values, i + 1);
          return None;
        }
        value := network.value;
      } else {
        value := TrimDots(value);
        if !ValidSuffix(value) {
          OnceBad(lib, values, i + 1);
          return None;
        }
      }
      if value in seen {
        continue;
      }
      seen := seen + {value};
      result := result + [value];
    }
    assert values[..|values|] == values;
    r := Some(result);
  }

  /** Position i of the input is the first that stands for this value. */
  ghost predicate FirstOf(lib: Library, values: seq<string>, i: nat, value: string) {
    && i < |values| && Canonical(lib, values[i]) == Keep(value)
    && forall j :: 0 <= j < i ==> Canonical(lib, values[j]) != Keep(value)
  }

  predicate Covered(lib: Library, raw: string, r: seq<string>) {
    Canonical(lib, raw) == Skip || (Canonical(lib, raw).Keep? && Canonical(lib, raw).value in r)
  }

  /** r takes each value once, from its first occurrence, in the order of the input. */
  ghost predicate Firsts(lib: Library, values: seq<string>, r: seq<string>, at: seq<nat>) {
    && |at| == |r| <= |values|
    && (forall k :: 0 <= k < |r| ==> FirstOf(lib, values, at[k], r[k]))
    && (forall k, l :: 0 <= k < l < |r| ==> at[k] < at[l] && r[k] != r[l])
    && (forall i :: 0 <= i < |values| ==> Covered(lib, values[i], r))
  }

  lemma FirstsStay(lib: Library, values: seq<string>, r: seq<string>, at: seq<nat>, raw: string)
    requires Firsts(lib, values, r, at) && Covered(lib, raw, r)
    ensures Firsts(lib, values + [raw], r, at)
  {
  }

  lemma FirstsGrow(lib: Library, values: seq<string>, r: seq<string>, at: seq<nat>, raw: string, v: string)
    requires Firsts(lib, values, r, at) && Canonical(lib, raw) == Keep(v) && v !in r
    ensures Firsts(lib, values + [raw], r + [v], at + [|values|])
  {
  }

  lemma {:induction false} DistinctIsOrdered(lib: Library, values: seq<string>) returns (at: seq<nat>)
    requires Distinct(lib, values).Some?
    ensures Firsts(lib, values, Distinct(lib, values).value, at)
  {
    at := [];
    if values != [] {
      var n := |values| - 1;
      assert values == values[..n] + [values[n]];
      var before := Distinct(lib, values[..n]).value;
      at := DistinctIsOrdered(lib, values[..n]);
      var e := Canonical(lib, values[n]);
      hide Firsts, Canonical;
      if e.Keep? && e.value !in before {
        FirstsGrow(lib, values[..n], before, at, values[n], e.value);
        at := at + [n];
      } else {
        FirstsStay(lib, values[..n], before, at, values[n]);
      }
    }
  }

  /** Folding leaves plain lower-case text alone, and a canonical network is its own canonical form. */
  ghost predicate Sound(lib: Library) {
    && (forall s :: ValidSuffix(s) ==> lib.fold(s) == s)
    && (forall s :: lib.network(s).Some? ==>
          var c := lib.network(s).value; '/' in c && lib.fold(c) == c && lib.network(c) == Some(c))
  }

  lemma SuffixIsPlain(s: string)
    requires ValidSuffix(s)
    ensures s != "" && '/' !in s && TrimDots(s) == s
  {
    SplitJoin(s, '.');
    JoinPlain(Split(s, '.'));
    assert ValidLabel(Split(s, '.')[0]);
    var first := Split(s, '.')[0];
    assert s[0] == first[0];
  }

  lemma {:induction false} JoinPlain(parts: seq<string>)
    requires parts != [] && forall i :: 0 <= i < |parts| ==> ValidLabel(parts[i])
    ensures var s := Join(parts, '.');
            && ValidLabel(parts[0]) && s != "" && s[0] == parts[0][0]
            && forall i :: 0 <= i < |s| ==> LabelChar(s[i]) || s[i] == '.'
  {
    if |parts| > 1 {
      JoinPlain(parts[1..]);
    }
  }

  lemma CanonicalIsStable(lib: Library, raw: string)
    requires Sound(lib) && Canonical(lib, raw).Keep?
    ensures Canonical(lib, Canonical(lib, raw).value) == Canonical(lib, raw)
  {
    var value := lib.fold(raw);
    if '/' !in value {
      SuffixIsPlain(TrimDots(value));
    }
    hide ValidSuffix, TrimDots;
  }

  lemma {:induction false} DistinctOfStable(lib: Library, values: seq<string>)
    requires forall i :: 0 <= i < |values| ==> Canonical(lib, values[i]) == Keep(values[i])
    requires forall i, j :: 0 <= i < j < |values| ==> values[i] != values[j]
    ensures Distinct(lib, values) == Some(values)
  {
    hide Canonical;
    if values != [] {
      var n := |values| - 1;
      DistinctOfStable(lib, values[..n]);
      assert values == values[..n] + [values[n]];
      assert values[n] !in values[..n];
    }
  }

  /** Normalising twice is normalising once. */
  lemma NormalizeIdempotent(lib: Library, values: seq<string>)
    requires Sound(lib) && Normalize(lib, values).Some?
    ensures Normalize(lib, Normalize(lib, values).value) == Normalize(lib, values)
  {
    var at := DistinctIsOrdered(lib, values);
    var r := Distinct(lib, values).value;
    forall k | 0 <= k < |r| ensures Canonical(lib, r[k]) == Keep(r[k]) {
      assert FirstOf(lib, values, at[k], r[k]);
      CanonicalIsStable(lib, values[at[k]]);
    }
    DistinctOfStable(lib, r);
    hide Canonical, Distinct;
  }

  // ---- How a domain suffix may be written ----

  /** A suffix is entered as it is, with a dot, as a wildcard, or as a wildcard with a dot; all mean the same. */
  lemma WrittenSuffix(lib: Library, raw: string, s: string)
    requires ValidSuffix(s)
    ensures Canonical(lib, raw) == Keep(s) && '/' !in lib.fold(raw) <==>
            lib.fold(raw) in {s, ['.'] + s, ['*', '.'] + s, ['*', '.', '.'] + s}
  {
    SuffixIsPlain(s);
    StartsPlain(s);
    hide ValidSuffix, TrimDots;
    TrimDotsIff(lib.fold(raw), s);
  }

  lemma TrimDotsIff(value: string, s: string)
    requires s != "" && s[0] != '.' && s[0] != '*'
    ensures TrimDots(value) == s <==> value in {s, ['.'] + s, ['*', '.'] + s, ['*', '.', '.'] + s}
  {
    assert value == ['.'] + s ==> value[1..] == s;
    assert value == ['*', '.'] + s ==> value[2..] == s;
    assert value == ['*', '.', '.'] + s ==> value[2..] == ['.'] + s && value[2..][1..] == s;
    if TrimDots(value) == s && value != s {
      if value[0] == '*' && |value| >= 2 && value[1] == '.' {
        assert value == ['*', '.'] + value[2..];
        if value[2..] != s {
          assert value[2..] == ['.'] + s;
        }
      } else {
        assert value == ['.'] + s;
      }
    }
  }

  lemma StartsPlain(s: string)
    requires ValidSuffix(s)
    ensures s != "" && s[0] != '.' && s[0] != '*'
  {
    SuffixIsPlain(s);
    var parts := Split(s, '.');
    assert ValidLabel(parts[0]);
    if s[0] != '.' {
      LabelsStart(s);
    }
  }

  lemma LabelsStart(s: string)
    requires ValidSuffix(s) && s != "" && s[0] != '.'
    ensures s[0] != '*'
  {
    var parts := Split(s, '.');
    assert ValidLabel(parts[0]) && parts[0][0] == s[0];
    assert LabelChar(parts[0][0]);
  }

  /** One to 63 lower-case letters, digits and hyphens, with no hyphen at either end. */
  predicate DomainLabel(s: string) {
    && 1 <= |s| <= 63 && '-' != s[0] && '-' != s[|s| - 1]
    && forall c :: c in s ==> 'a' <= c <= 'z' || '0' <= c <= '9' || c == '-'
  }

  lemma LabelIs(s: string)
    ensures ValidLabel(s) <==> DomainLabel(s)
  {
    if ValidLabel(s) {
      forall c | c in s ensures 'a' <= c <= 'z' || '0' <= c <= '9' || c == '-' {
        var k :| 0 <= k < |s| && s[k] == c;
        assert LabelChar(s[k]);
      }
    }
    if DomainLabel(s) {
      forall i | 0 <= i < |s| ensures LabelChar(s[i]) {
        assert s[i] in s;
      }
    }
  }

  /** A domain suffix is two or more labels with dots between them, 253 characters at most. */
  lemma SuffixIsLabels(labels: seq<string>)
    requires labels != [] && forall i :: 0 <= i < |labels| ==> '.' !in labels[i]
    ensures ValidSuffix(Join(labels, '.')) <==>
            |labels| >= 2 && |Join(labels, '.')| <= 253 && forall i :: 0 <= i < |labels| ==> DomainLabel(labels[i])
  {
    var s := Join(labels, '.');
    SplitOfJoin(labels, '.');
    assert '.' in s <==> |labels| >= 2 by {
      assert |labels| >= 2 ==> s[|labels[0]|] == '.';
    }
    forall i | 0 <= i < |labels| ensures ValidLabel(labels[i]) <==> DomainLabel(labels[i]) {
      LabelIs(labels[i]);
    }
    assert |labels| == 1 ==> s == labels[0];
  }

  /** A list is rejected if and only if it is too long or one of its entries cannot be read. */
  lemma NormalizeFailsIff(lib: Library, values: seq<string>)
    ensures Normalize(lib, values).None? <==>
            |values| > 256 || exists i :: 0 <= i < |values| && Canonical(lib, values[i]).Bad?
  {
    DistinctFailsIff(lib, values);
  }

  lemma {:induction false} DistinctFailsIff(lib: Library, values: seq<string>)
    ensures Distinct(lib, values).None? <==> exists i :: 0 <= i < |values| && Canonical(lib, values[i]).Bad?
  {
    if values != [] {
      var n := |values| - 1;
      DistinctFailsIff(lib, values[..n]);
      hide Canonical;
      forall i | 0 <= i < n ensures values[..n][i] == values[i] {
      }
    }
  }
}
