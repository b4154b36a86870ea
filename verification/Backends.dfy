/**
 The routing sections of the three back ends. sing-box and Xray get one rule per rule, Mihomo
 one line per value; the final outbound becomes a default, a catch-all rule or a proxy group.
 */
module Backends {
  import opened Common
  import opened RoutingRules
  import P = RoutingPolicy

  const DIRECT := "direct"
  const MIHOMO_DIRECT := "DIRECT"
  const MIHOMO_GROUP := "NAVO"

  /** direct: an outbound of type direct. */
  datatype Outbound = Outbound(id: string, direct: bool, enabled: bool)

  datatype Config = Config(rules: seq<Rule>, final: string, outbounds: seq<Outbound>, sniff: bool, tun: bool)

  /** A connection: what it satisfies, and whether it is a DNS query or ICMP. */
  datatype Connection = Connection(m: Matcher, dns: bool, icmp: bool)

  datatype Fate = To(outbound: string) | Resolver | Unroutable

  // ---- Mihomo ----

  datatype Line = Line(kind: Kind, value: string, target: string) | Match(target: string)

  function MihomoName(id: string): string {
    if id == "" || id == DIRECT then MIHOMO_DIRECT else id
  }

  /** The tag, or the id where there is no tag. */
  function Target(r: Rule): string {
    if r.outboundTag == "" then r.outboundId else r.outboundTag
  }

  function ValueLines(r: Rule, n: nat): seq<Line>
    requires n <= |r.values|
  {
    if n == 0 then [] else ValueLines(r, n - 1) + [Line(r.kind, r.values[n - 1], MihomoName(Target(r)))]
  }

  function RuleLines(rules: seq<Rule>): seq<Line> {
    if rules == [] then []
    else
      var n := |rules| - 1;
      RuleLines(rules[..n]) + (if rules[n].enabled then ValueLines(rules[n], |rules[n].values|) else [])
  }

  method GenerateMihomo(cfg: Config) returns (lines: seq<Line>, member: string)
    ensures lines == RuleLines(cfg.rules) + [Match(MIHOMO_GROUP)]
    ensures member == MihomoName(cfg.final)
  {
    var target := cfg.final;
    if target == "" {
      target := MIHOMO_DIRECT;
    }
    member := MihomoName(target);
    lines := [];
    for i := 0 to |cfg.rules|
      invariant lines == RuleLines(cfg.rules[..i])
    {
      assert cfg.rules[..i + 1][..i] == cfg.rules[..i];
      var rule := cfg.rules[i];
      if !rule.enabled {
        continue;
      }
      var name := MihomoName(Target(rule));
      for k := 0 to |rule.values|
        invariant lines == RuleLines(cfg.rules[..i]) + ValueLines(rule, k)
      {
        lines := lines + [Line(rule.kind, rule.values[k], name)];
      }
    }
    assert cfg.rules[..|cfg.rules|] == cfg.rules;
    lines := lines + [Match(MIHOMO_GROUP)];
  }

  predicate LineHits(c: Connection, l: Line) {
    l.Match? || c.m(l.kind, l.value)
  }

  /** The target of the first line that the connection satisfies, or what follows the lines. */
  function LinesTarget(lines: seq<Line>, c: Connection, otherwise: string): string {
    if lines == [] then otherwise
    else
      var n := |lines| - 1;
      LinesTarget(lines[..n], c, if LineHits(c, lines[n]) then lines[n].target else otherwise)
  }

  /** What a name stands for: the built-in DIRECT, the group with its one member, or a proxy. */
  function Named(name: string, member: string): Fate {
    var n := if name == MIHOMO_GROUP then member else name;
    if n == MIHOMO_GROUP then Unroutable else if n == MIHOMO_DIRECT then To(DIRECT) else To(n)
  }

  function MihomoFate(cfg: Config, c: Connection): Fate {
    Named(LinesTarget(RuleLines(cfg.rules) + [Match(MIHOMO_GROUP)], c, MIHOMO_GROUP), MihomoName(cfg.final))
  }

  // ---- Xray ----

  function XrayRules(rules: seq<Rule>): seq<Rule> {
    if rules == [] then []
    else
      var n := |rules| - 1;
      XrayRules(rules[..n]) + (if rules[n].enabled then [rules[n].(outboundTag := Target(rules[n]))] else [])
  }

  /** The compiled rules and the tag of the catch-all; Xray has no TUN. */
  method GenerateXray(cfg: Config) returns (r: Option<(seq<Rule>, string)>)
    ensures r == if cfg.tun then None else Some((XrayRules(cfg.rules), if cfg.final == "" then DIRECT else cfg.final))
  {
    if cfg.tun {
      return None;
    }
    var final := cfg.final;
    if final == "" {
      final := DIRECT;
    }
    var rules := [];
    for i := 0 to |cfg.rules|
      invariant rules == XrayRules(cfg.rules[..i])
    {
      assert cfg.rules[..i + 1][..i] == cfg.rules[..i];
      if cfg.rules[i].enabled {
        rules := rules + [cfg.rules[i].(outboundTag := Target(cfg.rules[i]))];
      }
    }
    assert cfg.rules[..|cfg.rules|] == cfg.rules;
    r := Some((rules, final));
  }

  function XrayFate(cfg: Config, c: Connection): Fate {
    To(Decide(XrayRules(cfg.rules), if cfg.final == "" then DIRECT else cfg.final, c.m))
  }

  // ---- sing-box ----

  datatype SingBoxRule = Sniff | HijackDns | RouteIcmp(outbound: string) | Route(rule: Rule)

  function DirectTag(outbounds: seq<Outbound>): string {
    if outbounds == [] then ""
    else if outbounds[0].enabled && outbounds[0].direct then outbounds[0].id
    else DirectTag(outbounds[1..])
  }

  function Preamble(cfg: Config): seq<SingBoxRule> {
    (if cfg.sniff then [Sniff] else [])
    + (if cfg.tun then [HijackDns] else [])
    + (if cfg.tun && DirectTag(cfg.outbounds) != "" then [RouteIcmp(DirectTag(cfg.outbounds))] else [])
  }

  function Routes(rules: seq<Rule>): seq<SingBoxRule> {
    if rules == [] then []
    else
      var n := |rules| - 1;
      Routes(rules[..n]) + (if rules[n].enabled then [Route(rules[n])] else [])
  }

  method GenerateSingBox(cfg: Config) returns (rules: seq<SingBoxRule>, final: string)
    ensures rules == Preamble(cfg) + Routes(cfg.rules) && final == cfg.final
  {
    final := cfg.final;
    rules := [];
    if cfg.sniff {
      rules := rules + [Sniff];
    }
    if cfg.tun {
      rules := rules + [HijackDns];
      var tag := DirectTag(cfg.outbounds);
      if tag != "" {
        rules := rules + [RouteIcmp(tag)];
      }
    }
    assert rules == Preamble(cfg);
    for i := 0 to |cfg.rules|
      invariant rules == Preamble(cfg) + Routes(cfg.rules[..i])
    {
      assert cfg.rules[..i + 1][..i] == cfg.rules[..i];
      if cfg.rules[i].enabled {
        rules := rules + [Route(cfg.rules[i])];
      }
    }
    assert cfg.rules[..|cfg.rules|] == cfg.rules;
  }

  /** Sniffing lets a connection pass; every other rule decides what it matches. */
  predicate Settles(c: Connection, r: SingBoxRule) {
    match r
    case Sniff => false
    case HijackDns => c.dns
    case RouteIcmp(_) => c.icmp
    case Route(rule) => Hits(c.m, rule)
  }

  function FateOf(r: SingBoxRule): Fate {
    match r
    case HijackDns => Resolver
    case RouteIcmp(outbound) => To(outbound)
    case Route(rule) => To(rule.outboundTag)
    case Sniff => Unroutable
  }

  /** The fate of a connection after the rules, when `otherwise` is what follows them. */
  function Settled(rules: seq<SingBoxRule>, c: Connection, otherwise: Fate): Fate {
    if rules == [] then otherwise
    else
      var n := |rules| - 1;
      Settled(rules[..n], c, if Settles(c, rules[n]) then FateOf(rules[n]) else otherwise)
  }

  function SingBoxFate(cfg: Config, c: Connection): Fate {
    Settled(Preamble(cfg) + Routes(cfg.rules), c, To(cfg.final))
  }

  // ---- Each back end follows the rule list ----

  lemma {:induction false} LinesConcat(a: seq<Line>, b: seq<Line>, c: Connection, otherwise: string)
    ensures LinesTarget(a + b, c, otherwise) == LinesTarget(a, c, LinesTarget(b, c, otherwise))
  {
    if b == [] {
      assert a + b == a;
    } else {
      var n := |b| - 1;
      assert (a + b)[..|a + b| - 1] == a + b[..n];
      LinesConcat(a, b[..n], c, if LineHits(c, b[n]) then b[n].target else otherwise);
    }
  }

  predicate HitsFirst(m: Matcher, r: Rule, n: nat)
    requires n <= |r.values|
  {
    exists i :: 0 <= i < n && m(r.kind, r.values[i])
  }

  lemma {:induction false} ValueLinesTarget(r: Rule, n: nat, c: Connection, otherwise: string)
    requires n <= |r.values|
    ensures LinesTarget(ValueLines(r, n), c, otherwise) == if HitsFirst(c.m, r, n) then MihomoName(Target(r)) else otherwise
  {
    if n > 0 {
      var last := Line(r.kind, r.values[n - 1], MihomoName(Target(r)));
      var all := ValueLines(r, n - 1) + [last];
      assert all[..|all| - 1] == ValueLines(r, n - 1);
      ValueLinesTarget(r, n - 1, c, if LineHits(c, last) then last.target else otherwise);
      assert c.m(r.kind, r.values[n - 1]) ==> HitsFirst(c.m, r, n);
      assert HitsFirst(c.m, r, n) ==> HitsFirst(c.m, r, n - 1) || c.m(r.kind, r.values[n - 1]);
    }
  }

  lemma {:induction false} RuleLinesTarget(rules: seq<Rule>, c: Connection, otherwise: string)
    ensures var i := First(rules, c.m);
            LinesTarget(RuleLines(rules), c, otherwise) == if i < |rules| then MihomoName(Target(rules[i])) else otherwise
  {
    if rules != [] {
      var n := |rules| - 1;
      var lines := if rules[n].enabled then ValueLines(rules[n], |rules[n].values|) else [];
      ValueLinesTarget(rules[n], |rules[n].values|, c, otherwise);
      LinesConcat(RuleLines(rules[..n]), lines, c, otherwise);
      RuleLinesTarget(rules[..n], c, LinesTarget(lines, c, otherwise));
      assert HitsFirst(c.m, rules[n], |rules[n].values|) <==> Hits(c.m, rules[n]);
    }
  }

  /** One line per value decides like one rule with all its values. */
  lemma MihomoFollows(cfg: Config, c: Connection)
    ensures var i := First(cfg.rules, c.m);
            MihomoFate(cfg, c) == Named(if i < |cfg.rules| then MihomoName(Target(cfg.rules[i])) else MIHOMO_GROUP,
                                        MihomoName(cfg.final))
  {
    var last := [Match(MIHOMO_GROUP)];
    LinesConcat(RuleLines(cfg.rules), last, c, MIHOMO_GROUP);
    assert LinesTarget(last[..0], c, MIHOMO_GROUP) == MIHOMO_GROUP;
    RuleLinesTarget(cfg.rules, c, MIHOMO_GROUP);
  }

  lemma {:induction false} XrayFollows(rules: seq<Rule>, final: string, m: Matcher)
    ensures var i := First(rules, m);
            Decide(XrayRules(rules), final, m) == if i < |rules| then Target(rules[i]) else final
  {
    if rules != [] {
      var n := |rules| - 1;
      var r := rules[n].(outboundTag := Target(rules[n]));
      DecideConcat(XrayRules(rules[..n]), if rules[n].enabled then [r] else [], final, m);
      DecideOne(r, final, m);
      assert Decide([], final, m) == final;
      assert Hits(m, r) <==> Hits(m, rules[n]);
      XrayFollows(rules[..n], Decide(if rules[n].enabled then [r] else [], final, m), m);
      hide Decide, Hits;
    }
  }

  lemma {:induction false} SettledConcat(a: seq<SingBoxRule>, b: seq<SingBoxRule>, c: Connection, otherwise: Fate)
    ensures Settled(a + b, c, otherwise) == Settled(a, c, Settled(b, c, otherwise))
  {
    if b == [] {
      assert a + b == a;
    } else {
      var n := |b| - 1;
      assert (a + b)[..|a + b| - 1] == a + b[..n];
      SettledConcat(a, b[..n], c, if Settles(c, b[n]) then FateOf(b[n]) else otherwise);
    }
  }

  lemma {:induction false} RoutesFollow(rules: seq<Rule>, c: Connection, otherwise: Fate)
    ensures var i := First(rules, c.m);
            Settled(Routes(rules), c, otherwise) == if i < |rules| then To(rules[i].outboundTag) else otherwise
  {
    if rules != [] {
      var n := |rules| - 1;
      var last := Route(rules[n]);
      var tail := if rules[n].enabled then [last] else [];
      SettledConcat(Routes(rules[..n]), tail, c, otherwise);
      SettledOne(last, c, otherwise);
      RoutesFollow(rules[..n], c, Settled(tail, c, otherwise));
    }
  }

  /** Ahead of the rules, sing-box under TUN takes DNS queries and sends ICMP out directly. */
  lemma PreambleSettles(cfg: Config, c: Connection, otherwise: Fate)
    ensures Settled(Preamble(cfg), c, otherwise) ==
            if cfg.tun && c.dns then Resolver
            else if cfg.tun && c.icmp && DirectTag(cfg.outbounds) != "" then To(DirectTag(cfg.outbounds))
            else otherwise
  {
    var tag := DirectTag(cfg.outbounds);
    var a := if cfg.sniff then [Sniff] else [];
    var b := if cfg.tun then [HijackDns] else [];
    var d := if cfg.tun && tag != "" then [RouteIcmp(tag)] else [];
    SettledConcat(a + b, d, c, otherwise);
    SettledConcat(a, b, c, Settled(d, c, otherwise));
    SettledOne(Sniff, c, Settled(b, c, Settled(d, c, otherwise)));
    SettledOne(HijackDns, c, Settled(d, c, otherwise));
    SettledOne(RouteIcmp(tag), c, otherwise);
    hide DirectTag;
  }

  lemma SettledOne(r: SingBoxRule, c: Connection, otherwise: Fate)
    ensures Settled([r], c, otherwise) == if Settles(c, r) then FateOf(r) else otherwise
  {
  }

  lemma SingBoxFollows(cfg: Config, c: Connection)
    ensures var i := First(cfg.rules, c.m);
            SingBoxFate(cfg, c) ==
            if cfg.tun && c.dns then Resolver
            else if cfg.tun && c.icmp && DirectTag(cfg.outbounds) != "" then To(DirectTag(cfg.outbounds))
            else To(if i < |cfg.rules| then cfg.rules[i].outboundTag else cfg.final)
  {
    SettledConcat(Preamble(cfg), Routes(cfg.rules), c, To(cfg.final));
    RoutesFollow(cfg.rules, c, To(cfg.final));
    PreambleSettles(cfg, c, Settled(Routes(cfg.rules), c, To(cfg.final)));
    hide Settled, Preamble, Routes, DirectTag;
  }

  // ---- Agreement ----

  /** A name that means the same to all three cores. */
  predicate Plain(id: string) {
    id != "" && id != MIHOMO_DIRECT && id != MIHOMO_GROUP
  }

  /** The connections that reach the rule list. */
  predicate Routed(cfg: Config, c: Connection) {
    cfg.tun ==> !c.dns && !c.icmp
  }

  predicate Agree(cfg: Config, c: Connection) {
    SingBoxFate(cfg, c) == MihomoFate(cfg, c) && (!cfg.tun ==> XrayFate(cfg, c) == MihomoFate(cfg, c))
  }

  /** Value k of rule i stands in an enabled rule of the same kind before it. */
  predicate Preceded(rules: seq<Rule>, i: nat, k: nat)
    requires i < |rules| && k < |rules[i].values|
  {
    exists j :: 0 <= j < i && rules[j].enabled && rules[j].kind == rules[i].kind && rules[i].values[k] in rules[j].values
  }

  /** Every value of rule i does. */
  predicate Shadowed(rules: seq<Rule>, i: nat)
    requires i < |rules|
  {
    forall k :: 0 <= k < |rules[i].values| ==> Preceded(rules, i, k)
  }

  lemma ShadowedNeverFirst(rules: seq<Rule>, i: nat, m: Matcher)
    requires i < |rules| && Shadowed(rules, i)
    ensures First(rules, m) != i
  {
    if First(rules, m) == i {
      var k :| 0 <= k < |rules[i].values| && m(rules[i].kind, rules[i].values[k]);
      assert Preceded(rules, i, k);
    }
  }

  /** A connection that only the value k of rule i matches. */
  function Probe(rules: seq<Rule>, i: nat, k: nat): Connection
    requires i < |rules| && k < |rules[i].values|
  {
    Connection((kind, value) => kind == rules[i].kind && value == rules[i].values[k], false, false)
  }

  lemma ProbeFinds(rules: seq<Rule>, i: nat, k: nat)
    requires i < |rules| && rules[i].enabled && k < |rules[i].values|
    requires !Preceded(rules, i, k)
    ensures First(rules, Probe(rules, i, k).m) == i
  {
  }

  lemma Fates(cfg: Config, c: Connection)
    requires Routed(cfg, c) && Plain(cfg.final)
    requires forall i :: 0 <= i < |cfg.rules| && cfg.rules[i].enabled ==> Plain(Target(cfg.rules[i]))
    ensures var i := First(cfg.rules, c.m);
            && MihomoFate(cfg, c) == XrayFate(cfg, c) == To(if i < |cfg.rules| then Target(cfg.rules[i]) else cfg.final)
            && SingBoxFate(cfg, c) == To(if i < |cfg.rules| then cfg.rules[i].outboundTag else cfg.final)
  {
    MihomoFollows(cfg, c);
    XrayFollows(cfg.rules, cfg.final, c.m);
    SingBoxFollows(cfg, c);
    hide MihomoFate, SingBoxFate, Decide, XrayRules;
  }

  /**
   The three back ends route every connection to the same outbound if and only if every enabled
   rule has an outbound tag, rules aside that earlier rules shadow: sing-box alone does not
   fall back to the outbound id. Under TUN this concerns what is neither DNS nor ICMP, and
   Xray does not exist.
   */
  lemma BackendsAgreeIff(cfg: Config)
    requires Plain(cfg.final)
    requires forall i :: 0 <= i < |cfg.rules| && cfg.rules[i].enabled ==>
               cfg.rules[i].values != [] && Plain(Target(cfg.rules[i]))
    ensures (forall c :: Routed(cfg, c) ==> Agree(cfg, c)) <==>
            (forall i :: 0 <= i < |cfg.rules| && cfg.rules[i].enabled ==>
               cfg.rules[i].outboundTag != "" || Shadowed(cfg.rules, i))
  {
    var rules := cfg.rules;
    if forall i :: 0 <= i < |rules| && rules[i].enabled ==> rules[i].outboundTag != "" || Shadowed(rules, i) {
      forall c | Routed(cfg, c) ensures Agree(cfg, c) {
        Fates(cfg, c);
        var i := First(rules, c.m);
        if i < |rules| && Shadowed(rules, i) {
          ShadowedNeverFirst(rules, i, c.m);
        }
        hide SingBoxFate, MihomoFate, XrayFate, Shadowed;
      }
    } else {
      var i :| 0 <= i < |rules| && rules[i].enabled && rules[i].outboundTag == "" && !Shadowed(rules, i);
      var k :| 0 <= k < |rules[i].values| && !Preceded(rules, i, k);
      var c := Probe(rules, i, k);
      ProbeFinds(rules, i, k);
      Fates(cfg, c);
      hide SingBoxFate, MihomoFate, XrayFate;
      assert Routed(cfg, c) && !Agree(cfg, c);
    }
  }

  // ---- From the runtime's choices to the cores ----

  /** All back ends that exist send the connection to this outbound. */
  predicate AllTo(cfg: Config, c: Connection, outbound: string) {
    && SingBoxFate(cfg, c) == To(outbound) && MihomoFate(cfg, c) == To(outbound)
    && (!cfg.tun ==> XrayFate(cfg, c) == To(outbound))
  }

  predicate AllTowards(rules: seq<Rule>, selected: string) {
    forall i :: 0 <= i < |rules| ==>
      rules[i].outboundTag in {DIRECT, selected} && Target(rules[i]) == rules[i].outboundTag && rules[i].enabled
  }

  lemma ListTowards(entries: seq<string>, outbound: string, selected: string)
    requires outbound in {DIRECT, selected} && outbound != ""
    ensures AllTowards(P.ListRules(entries, outbound), selected)
  {
    hide P.Part;
  }

  lemma PolicyTargets(x: P.Inputs)
    ensures var (final, rules) := P.Policy(x);
            var selected := if x.selected == "" then DIRECT else x.selected;
            final in {DIRECT, selected} && AllTowards(rules, selected)
  {
    var selected := if x.selected == "" then DIRECT else x.selected;
    ListTowards(x.whitelist, DIRECT, selected);
    ListTowards(x.blacklist, selected, selected);
    hide P.ListRules;
  }

  /** Under a policy of the runtime a connection is preserved exactly if it is to go to a plain name. */
  lemma PreservedAtIff(x: P.Inputs, cfg: Config, c: Connection)
    requires (cfg.final, cfg.rules) == P.Policy(x) && Routed(cfg, c)
    ensures P.Decision(x, c.m) in {DIRECT, if x.selected == "" then DIRECT else x.selected}
    ensures AllTo(cfg, c, P.Decision(x, c.m)) <==> Plain(P.Decision(x, c.m))
  {
    PolicyTargets(x);
    P.PolicyIsDecision(x, c.m);
    hide P.Policy, P.Decision;
    MihomoFollows(cfg, c);
    XrayFollows(cfg.rules, cfg.final, c.m);
    SingBoxFollows(cfg, c);
    hide MihomoFate, SingBoxFate, XrayRules;
  }

  /** Some connection is decided by the selected outbound. */
  ghost predicate SelectedDecides(x: P.Inputs) {
    || x.mode != P.MODE_DIRECT
    || (x.listMode == P.LIST_BLACKLIST && exists i :: 0 <= i < |x.blacklist| && x.blacklist[i] !in P.PRIVATE_CIDRS)
  }

  lemma PrivateHaveSlash()
    ensures forall e :: e in P.PRIVATE_CIDRS ==> '/' in e
  {
    assert "10.0.0.0/8"[8] == '/' && "100.64.0.0/10"[10] == '/' && "127.0.0.0/8"[9] == '/';
    assert "169.254.0.0/16"[11] == '/' && "172.16.0.0/12"[10] == '/' && "192.168.0.0/16"[11] == '/';
    assert "::1/128"[3] == '/' && "fc00::/7"[6] == '/' && "fe80::/10"[6] == '/';
  }

  lemma NobodySelects(x: P.Inputs, m: Matcher)
    requires !SelectedDecides(x)
    ensures P.Decision(x, m) == DIRECT
  {
    PrivateHaveSlash();
    if x.listMode == P.LIST_BLACKLIST && P.OnList(m, x.blacklist) {
      var i :| 0 <= i < |x.blacklist| && m(if '/' in x.blacklist[i] then Cidr else DomainSuffix, x.blacklist[i]);
      assert x.blacklist[i] in P.PRIVATE_CIDRS;
      var k :| 0 <= k < |P.PRIVATE_CIDRS| && P.PRIVATE_CIDRS[k] == x.blacklist[i];
      assert P.Matches(m, Cidr, P.PRIVATE_CIDRS);
    }
  }

  /** A connection that nothing or only one entry of the blacklist matches goes to the selected outbound. */
  lemma SomebodySelects(x: P.Inputs) returns (c: Connection)
    requires SelectedDecides(x) && x.selected != ""
    ensures P.Decision(x, c.m) == x.selected && !c.dns && !c.icmp
  {
    if x.mode != P.MODE_DIRECT {
      c := Connection((kind, value) => false, false, false);
    } else {
      var i :| 0 <= i < |x.blacklist| && x.blacklist[i] !in P.PRIVATE_CIDRS;
      var e := x.blacklist[i];
      c := Connection((kind, value) => kind == (if '/' in e then Cidr else DomainSuffix) && value == e, false, false);
      assert c.m(if '/' in x.blacklist[i] then Cidr else DomainSuffix, x.blacklist[i]);
      assert P.OnList(c.m, x.blacklist);
      assert !P.Matches(c.m, Cidr, P.PRIVATE_CIDRS);
    }
  }

  /**
   End to end: every core sends every connection where the closed form of the policy says, if
   and only if the selected outbound is not called DIRECT or NAVO, or it decides nothing: in
   direct mode it does so for the blacklist only, as far as that names anything beyond the
   private networks.
   */
  lemma RuntimePolicyPreservedIff(x: P.Inputs, cfg: Config)
    requires (cfg.final, cfg.rules) == P.Policy(x)
    ensures (forall c :: Routed(cfg, c) ==> AllTo(cfg, c, P.Decision(x, c.m))) <==>
            (x.selected != MIHOMO_DIRECT && x.selected != MIHOMO_GROUP) || !SelectedDecides(x)
  {
    hide P.Policy, P.Decision, AllTo;
    if (x.selected != MIHOMO_DIRECT && x.selected != MIHOMO_GROUP) || !SelectedDecides(x) {
      forall c | Routed(cfg, c) ensures AllTo(cfg, c, P.Decision(x, c.m)) {
        PreservedAtIff(x, cfg, c);
        if !SelectedDecides(x) {
          NobodySelects(x, c.m);
        }
      }
    } else {
      var c := SomebodySelects(x);
      PreservedAtIff(x, cfg, c);
      assert Routed(cfg, c) && !AllTo(cfg, c, P.Decision(x, c.m));
    }
  }

  /** In direct mode: preserved unless a reserved name is selected and the blacklist has a public entry. */
  lemma DirectModePreservedIff(x: P.Inputs, cfg: Config)
    requires (cfg.final, cfg.rules) == P.Policy(x) && x.mode == P.MODE_DIRECT
    ensures (forall c :: Routed(cfg, c) ==> AllTo(cfg, c, P.Decision(x, c.m))) <==>
            || x.listMode != P.LIST_BLACKLIST
            || (x.selected != MIHOMO_DIRECT && x.selected != MIHOMO_GROUP)
            || forall i :: 0 <= i < |x.blacklist| ==> x.blacklist[i] in P.PRIVATE_CIDRS
  {
    hide P.Policy, P.Decision, AllTo;
    RuntimePolicyPreservedIff(x, cfg);
  }

  // ---- Where ICMP goes under TUN ----

  lemma {:induction false} DirectIsFirst(outbounds: seq<Outbound>, k: nat)
    requires k < |outbounds| && outbounds[k].enabled && outbounds[k].direct
    requires forall i :: 0 <= i < k ==> !(outbounds[i].enabled && outbounds[i].direct)
    ensures DirectTag(outbounds) == outbounds[k].id
  {
    if k > 0 {
      DirectIsFirst(outbounds[1..], k - 1);
    }
  }

  /** Under TUN, sing-box sends ICMP out by the first enabled outbound of type direct, whatever the rules say. */
  lemma IcmpGoesDirect(cfg: Config, c: Connection, k: nat)
    requires cfg.tun && c.icmp && !c.dns
    requires k < |cfg.outbounds| && cfg.outbounds[k].enabled && cfg.outbounds[k].direct && cfg.outbounds[k].id != ""
    requires forall i :: 0 <= i < k ==> !(cfg.outbounds[i].enabled && cfg.outbounds[i].direct)
    ensures SingBoxFate(cfg, c) == To(cfg.outbounds[k].id)
  {
    DirectIsFirst(cfg.outbounds, k);
    SingBoxFollows(cfg, c);
    hide SingBoxFate, DirectTag;
  }

  lemma {:induction false} NoDirect(outbounds: seq<Outbound>)
    requires forall i :: 0 <= i < |outbounds| ==> !(outbounds[i].enabled && outbounds[i].direct)
    ensures DirectTag(outbounds) == ""
  {
    if outbounds != [] {
      NoDirect(outbounds[1..]);
    }
  }

  /** Without such an outbound, and without TUN, ICMP follows the rules like everything else. */
  lemma IcmpFollowsRules(cfg: Config, c: Connection)
    requires !cfg.tun || forall i :: 0 <= i < |cfg.outbounds| ==> !(cfg.outbounds[i].enabled && cfg.outbounds[i].direct)
    requires !(cfg.tun && c.dns)
    ensures var i := First(cfg.rules, c.m);
            SingBoxFate(cfg, c) == To(if i < |cfg.rules| then cfg.rules[i].outboundTag else cfg.final)
  {
    if cfg.tun {
      NoDirect(cfg.outbounds);
    }
    SingBoxFollows(cfg, c);
    hide SingBoxFate, DirectTag;
  }

  /** For Mihomo an empty final outbound means direct. */
  lemma EmptyMeansDirect(cfg: Config, c: Connection)
    requires cfg.final == ""
    ensures MihomoFate(cfg, c) == MihomoFate(cfg.(final := DIRECT), c)
  {
    MihomoFollows(cfg, c);
    MihomoFollows(cfg.(final := DIRECT), c);
    hide MihomoFate;
  }

  /** sing-box sniffs first if it is told to, and answers DNS itself exactly under TUN. */
  lemma PreambleHas(cfg: Config)
    ensures Sniff in Preamble(cfg) <==> cfg.sniff
    ensures cfg.sniff ==> Preamble(cfg)[0] == Sniff
    ensures HijackDns in Preamble(cfg) <==> cfg.tun
  {
    hide DirectTag;
  }
}
