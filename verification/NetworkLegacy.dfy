/**
 What the names and addresses of resources stand for: the routes of an activation, and the journals
 that version 1 wrote for the same resources under the same names.
 */
module NetworkLegacy {
  import opened Common
  import opened NetworkJournal
  import opened NetworkManager
  import opened NetworkRecovery
  import opened NetworkTheorems

  /** Every route of an activation has the family of its addresses, and an endpoint route is one host. */
  lemma FamilyFollowsAddress(cfg: Config, plan: Plan, adapter: Adapter, i: nat)
    requires i < |Operations(cfg, plan, adapter)| && Operations(cfg, plan, adapter)[i].resource.Route?
    ensures var r := Operations(cfg, plan, adapter)[i].resource;
            && r.family in {"IPv4", "IPv6"} && (r.family == "IPv6" <==> ':' in r.prefix)
            && (r.endpoint <==> i < |plan.endpoints|)
            && (r.endpoint ==>
                  && Operations(cfg, plan, adapter)[i].name == "proxy endpoint bypass " + plan.endpoints[i].ip
                  && r.prefix == plan.endpoints[i].ip + (if r.family == "IPv6" then "/128" else "/32")
                  && r.nextHop == plan.endpoints[i].nextHop && r.ifIndex == plan.endpoints[i].ifIndex
                  && r.alias == plan.endpoints[i].alias && r.metric == plan.endpointMetric)
            && (!r.endpoint ==>
                  && r.prefix in {"0.0.0.0/1", "128.0.0.0/1"} && r.metric == 1
                  && Operations(cfg, plan, adapter)[i].name == "IPv4 route " + r.prefix
                  && r.nextHop == cfg.peer && r.ifIndex == adapter.ifIndex && r.alias == adapter.name)
  {
    assert ':' !in "0.0.0.0/1" && ':' !in "128.0.0.0/1" && ':' !in "/32" && ':' !in "/128";
  }

  /** An activation installs both halves of the IPv4 space, one NRPT rule, and the firewall rule if asked to. */
  lemma WhatIsInstalled(cfg: Config, plan: Plan, adapter: Adapter)
    ensures var ops := Operations(cfg, plan, adapter);
            var n := |plan.endpoints|;
            && |ops| == n + (if plan.blockIPv6 then 4 else 3)
            && ops[n].resource.Route? && ops[n].resource.prefix == "0.0.0.0/1"
            && ops[n + 1].resource.Route? && ops[n + 1].resource.prefix == "128.0.0.0/1"
            && ops[n + 2].resource == Nrpt(".", "Navo:TUN:" + plan.sessionId, cfg.dns)
            && (plan.blockIPv6 ==> ops[n + 3].resource == Firewall("Navo TUN IPv6 Block " + plan.sessionId))
  {
  }

  /**
   A version 1 action stands for the resource that an activation installs under the same name: the
   entry that the activation creates is exactly what the migrated action designates and undoes.
   */
  lemma LegacyStandsFor(cfg: Config, plan: Plan, adapter: Adapter, j: Journal, i: nat, id: nat)
    requires |plan.endpoints| <= i < |Operations(cfg, plan, adapter)|
    requires j.sessionId == plan.sessionId && j.adapterName == adapter.name
    ensures var op := Operations(cfg, plan, adapter)[i];
            var legacy := LegacyResource(j, cfg.peer, cfg.dns, op.name);
            && legacy.Some? && !op.resource.UnknownKind? && !legacy.value.UnknownKind?
            && Exact(legacy.value, CreatedEntry(op.resource, id)) && UndoMatch(legacy.value, CreatedEntry(op.resource, id))
            && (legacy.value.Route? ==> legacy.value == op.resource.(ifIndex := 0))
            && (!legacy.value.Route? ==> legacy.value == op.resource)
            && forall e :: Rivals(legacy.value, e) <==> Rivals(op.resource, e)
  {
    var n := |plan.endpoints|;
    var ops := Operations(cfg, plan, adapter);
    assert i == n || i == n + 1 || i == n + 2 || i == n + 3;
    assert SPLIT_NAME[0] == 'I' && NRPT_NAME[0] == 'D' && FIREWALL_NAME[0] == 'I';
    assert SPLIT_NAME[3] == '4' && FIREWALL_NAME[3] == '6';
    assert (SPLIT_NAME + SPLIT_PREFIXES[0])[11] == '0' && (SPLIT_NAME + SPLIT_PREFIXES[1])[11] == '1';
  }

  /** The entries that a version 1 process may have left: those of the listed operations. */
  ghost predicate LeftBy(os: set<Entry>, base: set<Entry>, ops: seq<Op>, ids: seq<nat>) {
    && |ids| == |ops| && KnownKinds(ops) && base <= os
    && (forall e :: e in os && e !in base ==> exists i :: 0 <= i < |ops| && e == Made(ops, ids, i))
  }

  function Made(ops: seq<Op>, ids: seq<nat>, i: nat): Entry
    requires i < |ops| && |ids| == |ops| && KnownKinds(ops)
  {
    CreatedEntry(ops[i].resource, ids[i])
  }

  /** The version 1 journal of an activation: names only. */
  ghost predicate LegacyJournal(j: Journal, plan: Plan, adapter: Adapter, ops: seq<Op>) {
    && j.version == 1 && j.sessionId == plan.sessionId && j.adapterName == adapter.name
    && |j.actions| == |ops| && forall i :: 0 <= i < |ops| ==> j.actions[i].name == ops[i].name
  }

  /**
   Whatever part of its resources a version 1 process left behind on vacant places: its journal covers
   them, so all theorems about recovery apply, and what succeeds takes all of them away.
   */
  lemma LegacyIsCovered(cfg: Config, plan: Plan, adapter: Adapter, base: set<Entry>, os: set<Entry>, j: Journal,
                        ids: seq<nat>, tape: seq<Event>)
    requires plan.endpoints == []
    requires Vacant(base, Operations(cfg, plan, adapter)) && Apart(Operations(cfg, plan, adapter))
    requires LeftBy(os, base, Operations(cfg, plan, adapter), ids)
    requires LegacyJournal(j, plan, adapter, Operations(cfg, plan, adapter))
    ensures Safe(cfg, World(os, Some(j), tape), base)
    ensures var (w1, v) := Recover(cfg, World(os, Some(j), tape));
            v.Success? ==> w1.disk == None && w1.os == Swept(base)
  {
    var ops := Operations(cfg, plan, adapter);
    forall i | 0 <= i < |ops|
      ensures var legacy := LegacyResource(j, cfg.peer, cfg.dns, ops[i].name);
              && legacy.Some? && UndoMatch(legacy.value, Made(ops, ids, i))
              && forall e :: Rivals(legacy.value, e) <==> Rivals(ops[i].resource, e)
    {
      LegacyStandsFor(cfg, plan, adapter, j, i, ids[i]);
    }
    hide Operations, LegacyResource, UndoMatch, Rivals, CreatedEntry;
    assert Migratable(j, cfg.peer, cfg.dns);
    var m := MigrateV1(j, cfg.peer, cfg.dns).value;
    LegacyCovered(ops, base, os, ids, m.actions);
    var w := World(os, Some(j), tape);
    var base' := RecoverSafe(cfg, w, base);
  }

  lemma LegacyCovered(ops: seq<Op>, base: set<Entry>, os: set<Entry>, ids: seq<nat>, actions: seq<Action>)
    requires Vacant(base, ops) && Apart(ops) && LeftBy(os, base, ops, ids) && |actions| == |ops|
    requires forall i :: 0 <= i < |ops| ==>
               && actions[i].created && UndoMatch(actions[i].resource, Made(ops, ids, i))
               && forall e :: Rivals(actions[i].resource, e) <==> Rivals(ops[i].resource, e)
    ensures Covered(os, base, actions)
  {
    hide UndoMatch, Rivals, CreatedEntry;
    forall e | e in os && e !in base ensures exists a :: a in actions && Owned(a, e) {
      var i :| 0 <= i < |ops| && e == Made(ops, ids, i);
      assert actions[i] in actions && Owned(actions[i], e);
    }
    forall a | a in actions && a.created ensures Private(os, base, a.resource) {
      var i :| 0 <= i < |actions| && actions[i] == a;
      forall e | e in os && Rivals(a.resource, e) ensures e !in base && e == Made(ops, ids, i) {
        assert Rivals(ops[i].resource, e);
        var k :| 0 <= k < |ops| && e == Made(ops, ids, k);
        OnePlace(ops, ids, i, k);
      }
    }
  }

  lemma OnePlace(ops: seq<Op>, ids: seq<nat>, i: nat, k: nat)
    requires |ids| == |ops| && KnownKinds(ops) && Apart(ops) && i < |ops| && k < |ops|
    requires Rivals(ops[i].resource, Made(ops, ids, k))
    ensures i == k
  {
    if k > i {
      assert !Rivals(ops[k].resource, CreatedEntry(ops[i].resource, ids[i]));
      CreatedEntryIsExact(ops[k].resource, ids[k]);
      RivalsShareSlot(ops[i].resource, ops[k].resource, ids[k], CreatedEntry(ops[i].resource, ids[i]));
    }
  }

  // ---- What the sweep takes for an orphan ----

  /** The part of a session id: lower-case letters, digits and hyphens, one to 64 of them. */
  predicate SessionText(s: string) {
    1 <= |s| <= 64 && forall i :: 0 <= i < |s| ==> 'a' <= s[i] <= 'z' || '0' <= s[i] <= '9' || s[i] == '-'
  }

  ghost predicate Begins(text: string, start: string) {
    exists s :: text == start + s
  }

  lemma BeginsIff(text: string, start: string)
    ensures Begins(text, start) <==> start <= text
  {
    if start <= text {
      assert text == start + text[|start|..];
    }
  }

  /** A rule is swept exactly if some session could have made it, and it makes the sweep refuse if it only looks so. */
  lemma SweepJudges(e: Entry)
    ensures Orphan(e) <==>
            && e.FirewallEntry? && e.outbound && e.block
            && exists s :: SessionText(s) && e.displayName == "Navo TUN IPv6 Block " + s
    ensures Suspicious(e) <==>
            && e.FirewallEntry? && Begins(e.displayName, "Navo TUN IPv6 Block ")
            && !(Orphan(e) && e.ipv6Halves)
  {
    if e.FirewallEntry? {
      if FIREWALL_PREFIX <= e.displayName {
        var rest := e.displayName[|FIREWALL_PREFIX|..];
        assert e.displayName == FIREWALL_PREFIX + rest;
        forall s | e.displayName == FIREWALL_PREFIX + s ensures s == rest {
          assert (FIREWALL_PREFIX + s)[|FIREWALL_PREFIX|..] == s;
        }
        assert RecoverableSession(rest) <==> SessionText(rest);
      } else {
        BeginsIff(e.displayName, FIREWALL_PREFIX);
        forall s ensures e.displayName != FIREWALL_PREFIX + s {
          assert FIREWALL_PREFIX <= FIREWALL_PREFIX + s;
        }
      }
    }
    hide RecoverableSession, SessionText;
  }

  /** The gate asks for such a session, a usable adapter name, and resources that Navo could have made. */
  lemma GateAsks(syn: Syntax, j: Journal)
    ensures ValidRecovery(syn, j) <==>
            && j.version == 2 && j.adapterName != "" && syn.adapterName(j.adapterName) && SessionText(j.sessionId)
            && forall a :: a in j.actions ==>
                 match a.resource
                 case Route(_, _, prefix, ifIndex, alias, nextHop, metric) =>
                   syn.cidr(prefix) && syn.ip(nextHop) && metric >= 0 && (ifIndex > 0 || syn.adapterName(alias))
                 case Nrpt(namespace, comment, _) => namespace == "." && Begins(comment, "Navo:TUN:")
                 case Firewall(name) => Begins(name, "Navo TUN IPv6 Block ")
                 case UnknownKind => false
  {
    assert RecoverableSession(j.sessionId) <==> SessionText(j.sessionId);
    forall a | a in j.actions
      ensures a.resource.Nrpt? ==> (Begins(a.resource.comment, NRPT_TAG) <==> NRPT_TAG <= a.resource.comment)
      ensures a.resource.Firewall? ==>
                (Begins(a.resource.displayName, FIREWALL_PREFIX) <==> FIREWALL_PREFIX <= a.resource.displayName)
    {
      if a.resource.Nrpt? { BeginsIff(a.resource.comment, NRPT_TAG); }
      if a.resource.Firewall? { BeginsIff(a.resource.displayName, FIREWALL_PREFIX); }
    }
    forall a | a in j.actions ensures exists i :: 0 <= i < |j.actions| && j.actions[i] == a {
    }
    hide RecoverableSession, SessionText, Begins;
  }

  /** A rule that an activation makes for a session is an orphan for the sweep, and never suspicious. */
  lemma OwnRuleIsSwept(session: string, id: nat)
    requires SessionText(session)
    ensures var e := CreatedEntry(Firewall("Navo TUN IPv6 Block " + session), id);
            Orphan(e) && !Suspicious(e)
  {
    var e := CreatedEntry(Firewall(FIREWALL_PREFIX + session), id);
    assert e.displayName == FIREWALL_PREFIX + session;
    assert e.displayName[|FIREWALL_PREFIX|..] == session;
    assert RecoverableSession(session);
    hide RecoverableSession;
  }

  // ---- What the scripts select ----

  /** The entry that a resource stands for: what the inspection accepts. */
  predicate IsThe(r: Resource, e: Entry) {
    match r
    case Route(_, family, prefix, ifIndex, alias, nextHop, metric) =>
      && e.RouteEntry? && e.family == family && e.prefix == prefix && e.nextHop == nextHop && e.metric == metric
      && (if ifIndex == 0 then e.alias == alias else e.ifIndex == ifIndex)
    case Nrpt(_, comment, server) =>
      e.NrptEntry? && "." in e.namespaces && e.comment == comment && server in e.nameServers
    case Firewall(name) => e.FirewallEntry? && e.displayName == name && e.enabled && e.outbound && e.block
    case UnknownKind => false
  }

  /** What an undo may remove: for an NRPT rule the servers, and for a firewall rule its being enabled, do not matter. */
  predicate MayRemove(r: Resource, e: Entry) {
    match r
    case Route(_, _, _, _, _, _, _) => IsThe(r, e)
    case Nrpt(_, comment, _) => e.NrptEntry? && "." in e.namespaces && e.comment == comment
    case Firewall(name) => e.FirewallEntry? && e.displayName == name && e.outbound && e.block
    case UnknownKind => false
  }

  /** What makes the undo hesitate: the place of a route, the tag of an NRPT rule, the name of a firewall rule. */
  predicate InScope(r: Resource, e: Entry) {
    match r
    case Route(_, family, prefix, _, _, _, _) => e.RouteEntry? && e.family == family && e.prefix == prefix
    case Nrpt(_, comment, _) => e.NrptEntry? && e.comment == comment
    case Firewall(name) => e.FirewallEntry? && e.displayName == name
    case UnknownKind => false
  }

  lemma ScriptsSelect(r: Resource, e: Entry)
    ensures (Exact(r, e) <==> IsThe(r, e)) && (UndoMatch(r, e) <==> MayRemove(r, e)) && (UndoScope(r, e) <==> InScope(r, e))
  {
  }

  ghost predicate Several(os: set<Entry>, r: Resource) {
    exists e, f :: e in os && f in os && e != f && MayRemove(r, e) && MayRemove(r, f)
  }

  /** When an undo refuses, in any system, and otherwise what it removes: everything that it may. */
  lemma UndoDecides(os: set<Entry>, r: Resource)
    ensures UndoTargets(os, r).None? <==>
            match r
            case Route(_, _, _, _, _, _, _) =>
              Several(os, r) || ((exists e :: e in os && InScope(r, e)) && forall e :: e in os ==> !MayRemove(r, e))
            case Nrpt(_, _, _) => exists e :: e in os && InScope(r, e) && !MayRemove(r, e)
            case Firewall(_) => Several(os, r) || exists e :: e in os && InScope(r, e) && !MayRemove(r, e)
            case UnknownKind => true
    ensures UndoTargets(os, r).Some? ==> UndoTargets(os, r).value == set e | e in os && MayRemove(r, e)
  {
    var all := Select(os, e => UndoScope(r, e));
    var some := Select(os, e => UndoMatch(r, e));
    forall e ensures (e in all <==> e in os && InScope(r, e)) && (e in some <==> e in os && MayRemove(r, e)) {
      ScriptsSelect(r, e);
    }
    assert some == set e | e in os && MayRemove(r, e);
    assert some <= all;
    hide UndoScope, UndoMatch, MayRemove, InScope;
    if |all| == |some| {
      EqualCards(some, all);
    }
    MoreThanOne(some);
    assert Several(os, r) <==> exists e, f :: e in some && f in some && e != f;
    assert (exists e :: e in os && InScope(r, e)) <==> all != {};
    assert (forall e :: e in os ==> !MayRemove(r, e)) <==> some == {};
    assert (exists e :: e in os && InScope(r, e) && !MayRemove(r, e)) <==> all != some;
  }

  lemma MoreThanOne<T>(s: set<T>)
    ensures |s| > 1 <==> exists x, y :: x in s && y in s && x != y
  {
    if x, y :| x in s && y in s && x != y {
      assert {x, y} <= s;
      SubsetCard({x, y}, s);
    } else if s != {} {
      var x :| x in s;
      assert s == {x};
    }
  }

  lemma EqualCards<T>(a: set<T>, b: set<T>)
    requires a <= b && |a| == |b|
    ensures a == b
  {
    if x :| x in b && x !in a {
      StrictSubsetSmaller(a, b, x);
    }
  }
}
