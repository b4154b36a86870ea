/**
 The recovery journal of the TUN network manager: what it records about each
 operating-system resource, which resources a recorded action designates, and
 the migration of the version 1 format.
 */
module NetworkJournal {
  import opened Common

  /** The syntax checks of Go's net and regexp packages, which are not modelled. */
  datatype Syntax = Syntax(cidr: string -> bool, ip: string -> bool, adapterName: string -> bool)

  datatype Resource =
    | Route(endpoint: bool, family: string, prefix: string, ifIndex: nat, alias: string,
            nextHop: string, metric: int)
    | Nrpt(namespace: string, comment: string, nameServer: string)
    | Firewall(displayName: string)
    | UnknownKind

  datatype Status = Pending | Applied

  datatype Action = Action(name: string, status: Status, resource: Resource, created: bool)

  datatype Journal = Journal(version: int, adapterName: string, sessionId: string, actions: seq<Action>)

  /** A resource that exists in Windows. Duplicates differ in their instance id. */
  datatype Entry =
    | RouteEntry(id: nat, family: string, prefix: string, ifIndex: nat, alias: string,
                 nextHop: string, metric: int)
    | NrptEntry(id: nat, namespaces: set<string>, comment: string, nameServers: set<string>)
    | FirewallEntry(id: nat, displayName: string, enabled: bool, outbound: bool, block: bool,
                    ipv6Halves: bool)

  const NRPT_ROOT := "."
  const NRPT_TAG := "Navo:TUN:"
  const FIREWALL_PREFIX := "Navo TUN IPv6 Block "

  // ---- What the inspection and removal scripts select ----

  /** routeSelector: the identity of a route beyond its destination prefix. */
  predicate RouteSelected(r: Resource, e: Entry)
    requires r.Route? && e.RouteEntry?
  {
    && e.nextHop == r.nextHop
    && e.metric == r.metric
    && if r.ifIndex > 0 then e.ifIndex == r.ifIndex else e.alias == r.alias
  }

  /** The entries an inspection counts as occupying the place of `r`. */
  predicate Rivals(r: Resource, e: Entry) {
    match r
    case Route(_, family, prefix, _, _, _, _) => e.RouteEntry? && e.family == family && e.prefix == prefix
    case Nrpt(_, _, _) => e.NrptEntry? && NRPT_ROOT in e.namespaces
    case Firewall(name) => e.FirewallEntry? && e.displayName == name
    case UnknownKind => false
  }

  /** The entries an inspection accepts as being exactly `r`. */
  predicate Exact(r: Resource, e: Entry) {
    && Rivals(r, e)
    && match r
       case Route(_, _, _, _, _, _, _) => RouteSelected(r, e)
       case Nrpt(_, comment, server) => e.comment == comment && server in e.nameServers
       case Firewall(_) => e.enabled && e.outbound && e.block
       case UnknownKind => false
  }

  /** The entries an undo script looks at before it removes anything. */
  predicate UndoScope(r: Resource, e: Entry) {
    match r
    case Route(_, _, _, _, _, _, _) => Rivals(r, e)
    case Nrpt(_, comment, _) => e.NrptEntry? && e.comment == comment
    case Firewall(name) => e.FirewallEntry? && e.displayName == name
    case UnknownKind => false
  }

  /** The entries an undo script removes. */
  predicate UndoMatch(r: Resource, e: Entry) {
    && UndoScope(r, e)
    && match r
       case Route(_, _, _, _, _, _, _) => RouteSelected(r, e)
       case Nrpt(_, _, _) => NRPT_ROOT in e.namespaces
       case Firewall(_) => e.outbound && e.block
       case UnknownKind => false
  }

  function Select(os: set<Entry>, p: Entry -> bool): set<Entry> {
    set e | e in os && p(e)
  }

  datatype Inspection = FoundExact | FoundMissing | FoundConflict

  /** The inspection script: EXACT, MISSING, or an exception on any rival. */
  function Inspect(os: set<Entry>, r: Resource): Inspection {
    var all := Select(os, e => Rivals(r, e));
    var exact := Select(os, e => Exact(r, e));
    if |exact| == 1 && |all| == 1 then FoundExact
    else if |all| > 0 then FoundConflict
    else FoundMissing
  }

  /** The entries the undo script removes, or None when it refuses to touch anything. */
  function UndoTargets(os: set<Entry>, r: Resource): Option<set<Entry>> {
    var all := Select(os, e => UndoScope(r, e));
    var exact := Select(os, e => UndoMatch(r, e));
    match r
    case Route(_, _, _, _, _, _, _) =>
      if |exact| > 1 || (|all| > 0 && |exact| == 0) then None else Some(exact)
    case Nrpt(_, _, _) =>
      if |all| != |exact| then None else Some(exact)
    case Firewall(_) =>
      if |all| != |exact| || |exact| > 1 then None else Some(exact)
    case UnknownKind => None
  }

  /** What the apply script of `r` adds to the system. */
  function CreatedEntry(r: Resource, id: nat): Entry
    requires !r.UnknownKind?
  {
    match r
    case Route(_, family, prefix, ifIndex, alias, nextHop, metric) =>
      RouteEntry(id, family, prefix, ifIndex, alias, nextHop, metric)
    case Nrpt(_, comment, server) => NrptEntry(id, {NRPT_ROOT}, comment, {server})
    case Firewall(name) => FirewallEntry(id, name, true, true, true, true)
  }

  /** Removal never reaches beyond what the inspection looks at. */
  lemma UndoMatchIsRival(r: Resource, e: Entry)
    requires UndoMatch(r, e)
    ensures Rivals(r, e)
  {
  }

  lemma CreatedEntryIsExact(r: Resource, id: nat)
    requires !r.UnknownKind?
    ensures Exact(r, CreatedEntry(r, id)) && UndoMatch(r, CreatedEntry(r, id))
  {
  }

  /** Two resources that share one rival share every rival that Navo itself created. */
  lemma RivalsShareSlot(r: Resource, q: Resource, id: nat, e: Entry)
    requires !q.UnknownKind?
    requires Rivals(r, CreatedEntry(q, id)) && Rivals(r, e)
    ensures Rivals(q, e)
  {
  }

  // ---- Validation ----

  predicate SessionChar(c: char) {
    '0' <= c <= '9' || 'a' <= c <= 'z' || c == '-'
  }

  /** The session id test that recovery applies. */
  predicate RecoverableSession(s: string) {
    0 < |s| <= 64 && forall i :: 0 <= i < |s| ==> SessionChar(s[i])
  }

  predicate ValidResource(syn: Syntax, r: Resource) {
    match r
    case Route(_, _, prefix, ifIndex, alias, nextHop, metric) =>
      && syn.cidr(prefix)
      && syn.ip(nextHop) && metric >= 0
      && (ifIndex == 0 ==> syn.adapterName(alias))
    case Nrpt(namespace, comment, _) => namespace == NRPT_ROOT && NRPT_TAG <= comment
    case Firewall(name) => FIREWALL_PREFIX <= name
    case UnknownKind => false
  }

  /** validateRecoveryJournal: the gate in front of every rollback. */
  predicate ValidRecovery(syn: Syntax, j: Journal) {
    && j.version == 2
    && j.adapterName != ""
    && RecoverableSession(j.sessionId)
    && syn.adapterName(j.adapterName)
    && forall i :: 0 <= i < |j.actions| ==> ValidResource(syn, j.actions[i].resource)
  }

  // ---- Version 1 journals ----

  const SPLIT_PREFIXES := ["0.0.0.0/1", "128.0.0.0/1"]
  const SPLIT_NAME := "IPv4 route "
  const NRPT_NAME := "DNS leak protection"
  const FIREWALL_NAME := "IPv6 leak protection"

  /** The resource a version 1 action stood for; None when it cannot be recovered. */
  function LegacyResource(j: Journal, peer: string, dns: string, name: string): Option<Resource> {
    if name == SPLIT_NAME + SPLIT_PREFIXES[0] then
      Some(Route(false, "IPv4", SPLIT_PREFIXES[0], 0, j.adapterName, peer, 1))
    else if name == SPLIT_NAME + SPLIT_PREFIXES[1] then
      Some(Route(false, "IPv4", SPLIT_PREFIXES[1], 0, j.adapterName, peer, 1))
    else if name == NRPT_NAME then
      Some(Nrpt(NRPT_ROOT, NRPT_TAG + j.sessionId, dns))
    else if name == FIREWALL_NAME then
      Some(Firewall(FIREWALL_PREFIX + j.sessionId))
    else
      None
  }

  predicate Migratable(j: Journal, peer: string, dns: string) {
    forall i :: 0 <= i < |j.actions| ==> LegacyResource(j, peer, dns, j.actions[i].name).Some?
  }

  /** migrateV1: every legacy action becomes a resource that Navo owns. */
  function MigrateV1(j: Journal, peer: string, dns: string): (r: Option<Journal>)
    ensures r.Some? <==> Migratable(j, peer, dns)
    ensures r.Some? ==> r.value.version == 2 && |r.value.actions| == |j.actions|
  {
    if Migratable(j, peer, dns) then
      Some(j.(version := 2, actions := seq(|j.actions|, i requires 0 <= i < |j.actions| =>
        j.actions[i].(resource := LegacyResource(j, peer, dns, j.actions[i].name).value, created := true))))
    else
      None
  }

  /** The in-place loop over the legacy actions; a refused journal is not persisted. */
  method MigrateInPlace(j: Journal, peer: string, dns: string, actions: array<Action>)
    returns (ok: bool)
    requires actions[..] == j.actions
    modifies actions
    ensures ok <==> MigrateV1(j, peer, dns).Some?
    ensures ok ==> actions[..] == MigrateV1(j, peer, dns).value.actions
  {
    for i := 0 to actions.Length
      invariant forall k :: 0 <= k < i ==>
        && LegacyResource(j, peer, dns, j.actions[k].name).Some?
        && actions[k] == j.actions[k].(resource := LegacyResource(j, peer, dns, j.actions[k].name).value, created := true)
      invariant forall k :: i <= k < actions.Length ==> actions[k] == j.actions[k]
    {
      var resource := LegacyResource(j, peer, dns, actions[i].name);
      if resource.None? {
        assert j.actions[i].name == actions[i].name;
        return false;
      }
      actions[i] := actions[i].(resource := resource.value, created := true);
    }
    ok := true;
  }

  /**
   A migrated journal passes the recovery gate exactly when its own identity does and
   the configured peer address is usable for the split routes it lists: the migration
   invents nothing that recovery would then refuse.
   */
  lemma MigratedIsRecoverable(syn: Syntax, j: Journal, peer: string, dns: string)
    requires Migratable(j, peer, dns)
    requires syn.cidr(SPLIT_PREFIXES[0]) && syn.cidr(SPLIT_PREFIXES[1])
    ensures ValidRecovery(syn, MigrateV1(j, peer, dns).value) <==>
            && j.adapterName != "" && syn.adapterName(j.adapterName)
            && RecoverableSession(j.sessionId)
            && (syn.ip(peer) || forall i :: 0 <= i < |j.actions| ==> !(SPLIT_NAME <= j.actions[i].name))
  {
    var m := MigrateV1(j, peer, dns).value;
    assert NRPT_TAG <= NRPT_TAG + j.sessionId;
    assert FIREWALL_PREFIX <= FIREWALL_PREFIX + j.sessionId;
    if j.adapterName != "" && syn.adapterName(j.adapterName) && RecoverableSession(j.sessionId) {
      forall i | 0 <= i < |j.actions|
        ensures ValidResource(syn, m.actions[i].resource) <==>
                (syn.ip(peer) || !(SPLIT_NAME <= j.actions[i].name))
      {
        var name := j.actions[i].name;
        assert LegacyResource(j, peer, dns, name).Some?;
        assert SPLIT_NAME <= SPLIT_NAME + SPLIT_PREFIXES[0];
        assert SPLIT_NAME <= SPLIT_NAME + SPLIT_PREFIXES[1];
        assert SPLIT_NAME[0] == 'I' && NRPT_NAME[0] == 'D';
        assert SPLIT_NAME[2] == 'v' && FIREWALL_NAME[3] == '6' && SPLIT_NAME[3] == '4';
      }
    }
  }
}
