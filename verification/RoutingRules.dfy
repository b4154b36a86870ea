/** Routing rules, and what it means for a rule list to decide a connection. */
module RoutingRules {
  datatype Kind = Domain | DomainSuffix | DomainKeyword | DomainRegex | Cidr | Geosite | Geoip

  datatype Rule = Rule(kind: Kind, values: seq<string>, outboundId: string, outboundTag: string, enabled: bool)

  /** Whether a connection satisfies one value of one kind. All cores are taken to agree on this. */
  type Matcher = (Kind, string) -> bool

  predicate Hits(m: Matcher, r: Rule) {
    exists i :: 0 <= i < |r.values| && m(r.kind, r.values[i])
  }

  /** The first enabled rule that the connection satisfies, or |rules|. */
  function First(rules: seq<Rule>, m: Matcher): (i: nat)
    ensures i <= |rules|
    ensures i < |rules| ==> rules[i].enabled && Hits(m, rules[i])
    ensures forall j :: 0 <= j < i ==> !(rules[j].enabled && Hits(m, rules[j]))
  {
    if rules == [] then 0
    else
      var n := |rules| - 1;
      var i := First(rules[..n], m);
      if i < n then i
      else if rules[n].enabled && Hits(m, rules[n]) then n else n + 1
  }

  function Decide(rules: seq<Rule>, final: string, m: Matcher): string {
    var i := First(rules, m);
    if i < |rules| then rules[i].outboundTag else final
  }

  lemma FirstUnique(rules: seq<Rule>, m: Matcher, i: nat)
    requires i <= |rules|
    requires i < |rules| ==> rules[i].enabled && Hits(m, rules[i])
    requires forall j :: 0 <= j < i ==> !(rules[j].enabled && Hits(m, rules[j]))
    ensures First(rules, m) == i
  {
  }

  /** A list followed by a list: the first one that decides wins. */
  lemma DecideConcat(a: seq<Rule>, b: seq<Rule>, final: string, m: Matcher)
    ensures Decide(a + b, final, m) == Decide(a, Decide(b, final, m), m)
  {
    var i, j := First(a, m), First(b, m);
    if i < |a| {
      FirstUnique(a + b, m, i);
    } else {
      forall k | 0 <= k < |a| + j ensures !((a + b)[k].enabled && Hits(m, (a + b)[k])) {
        assert k >= |a| ==> (a + b)[k] == b[k - |a|];
      }
      FirstUnique(a + b, m, |a| + j);
    }
  }

  lemma DecideOne(r: Rule, final: string, m: Matcher)
    ensures Decide([r], final, m) == if r.enabled && Hits(m, r) then r.outboundTag else final
  {
  }
}
