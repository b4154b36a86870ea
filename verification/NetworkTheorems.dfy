/**
 Whole-run properties of the TUN network manager: exact restoration after any crashes
 and failures, when recovery can succeed at all, and what a partly failed rollback leaves.
 */
module NetworkTheorems {
  import opened Common
  import opened NetworkJournal
  import opened NetworkManager
  import opened NetworkRecovery

  // ---- Runs ----

  datatype Command =
    | DoActivate(plan: Plan, adapter: Adapter)
    | DoRebind(plan: Plan, adapter: Adapter)
    | DoDeactivate
    | DoRecover

  /** The operating system, the journal file, and the in-memory flag of the manager. */
  datatype Machine = Machine(os: set<Entry>, disk: Option<Journal>, active: bool)

  function At(m: Machine, tape: seq<Event>): World {
    World(m.os, m.disk, tape)
  }

  /** One public call. A crash restarts the process with a manager that is not active. */
  function Call(cfg: Config, m: Machine, c: Command, tape: seq<Event>): (Machine, Verdict) {
    match c
    case DoActivate(plan, adapter) =>
      if m.active then (m, Success)
      else var (w, v) := Activate(cfg, At(m, tape), plan, adapter, true); (Machine(w.os, w.disk, v.Success?), v)
    case DoRebind(plan, adapter) =>
      var (w, v) := Rebind(cfg, At(m, tape), plan, adapter);
      var recovered := Recover(cfg, At(m, tape)).1;
      (Machine(w.os, w.disk, if recovered.Success? then v.Success? else m.active && recovered.Failure?), v)
    case DoDeactivate =>
      var (w, v) := Recover(cfg, At(m, tape)); (Machine(w.os, w.disk, m.active && v.Failure?), v)
    case DoRecover =>
      var (w, v) := Recover(cfg, At(m, tape)); (Machine(w.os, w.disk, m.active && !v.Crash?), v)
  }

  function Run(cfg: Config, m: Machine, calls: seq<(Command, seq<Event>)>): Machine {
    if calls == [] then m
    else
      var before := Run(cfg, m, calls[..|calls| - 1]);
      Call(cfg, before, calls[|calls| - 1].0, calls[|calls| - 1].1).0
  }

  lemma ActivateSafe(cfg: Config, w: World, base: set<Entry>, plan: Plan, adapter: Adapter, recoverFirst: bool)
    returns (base': set<Entry>)
    requires Safe(cfg, w, base)
    requires !recoverFirst ==> w.disk == None
    ensures SweptTowards(base, base')
    ensures var (w1, v) := Activate(cfg, w, plan, adapter, recoverFirst);
            && Safe(cfg, w1, base')
            && (v.Success? ==>
                  Activated(w1, Journal(2, plan.adapterName, plan.sessionId, []), Operations(cfg, plan, adapter)))
  {
    hide Activated, ApplyAll;
    base' := base;
    if plan.sessionId != "" {
      if recoverFirst {
        base' := RecoverSafe(cfg, w, base);
      }
      var (w1, v1) := if recoverFirst then Recover(cfg, w) else (w, Success);
      if v1.Success? {
        assert w1.disk == None;
        assert Covered(w1.os, base', []);
        var (w2, v2) := Ask(w1);
        if v2.Success? {
          var j := Journal(2, plan.adapterName, plan.sessionId, []);
          WriteSafe(cfg, w2, base', j);
          var (w3, v3) := Write(w2, j);
          if v3.Success? {
            ApplyAllSafe(cfg, w3, base', j, Operations(cfg, plan, adapter));
          }
        }
      }
    }
  }

  lemma CallSafe(cfg: Config, m: Machine, base: set<Entry>, c: Command, tape: seq<Event>)
    returns (base': set<Entry>)
    requires Safe(cfg, At(m, tape), base)
    ensures SweptTowards(base, base')
    ensures var (m1, v) := Call(cfg, m, c, tape);
            && Safe(cfg, At(m1, []), base')
            && ((c.DoRecover? || c.DoDeactivate?) && v.Success? ==> m1.disk == None && m1.os == Swept(base))
  {
    hide Recover, Activate;
    match c
    case DoActivate(plan, adapter) =>
      if m.active {
        base' := base;
      } else {
        base' := ActivateSafe(cfg, At(m, tape), base, plan, adapter, true);
      }
    case DoRebind(plan, adapter) =>
      var base1 := RecoverSafe(cfg, At(m, tape), base);
      base' := base1;
      var (w1, v1) := Recover(cfg, At(m, tape));
      if v1.Success? {
        base' := ActivateSafe(cfg, w1, base1, plan, adapter, false);
        SweptTowardsTransitive(base, base1, base');
      }
    case DoDeactivate =>
      base' := RecoverSafe(cfg, At(m, tape), base);
    case DoRecover =>
      base' := RecoverSafe(cfg, At(m, tape), base);
  }

  /** Coverage holds in every state that any sequence of calls and crashes can reach. */
  lemma {:induction false} RunSafe(cfg: Config, m: Machine, base: set<Entry>, calls: seq<(Command, seq<Event>)>)
    returns (base': set<Entry>)
    requires Safe(cfg, At(m, []), base)
    ensures SweptTowards(base, base') && Safe(cfg, At(Run(cfg, m, calls), []), base')
  {
    if calls == [] {
      base' := base;
    } else {
      hide Safe, Call;
      var base1 := RunSafe(cfg, m, base, calls[..|calls| - 1]);
      var last := calls[|calls| - 1];
      var before := Run(cfg, m, calls[..|calls| - 1]);
      TapeIrrelevant(cfg, before, base1, last.1);
      base' := CallSafe(cfg, before, base1, last.0, last.1);
      SweptTowardsTransitive(base, base1, base');
    }
  }

  lemma TapeIrrelevant(cfg: Config, m: Machine, base: set<Entry>, tape: seq<Event>)
    requires Safe(cfg, At(m, []), base)
    ensures Safe(cfg, At(m, tape), base)
  {
  }

  /**
   Exact restoration: however Navo was activated, rebound, deactivated, interrupted and
   restarted, the first recovery that reports success leaves the system as it was found,
   minus the rules the orphan sweep deletes, and leaves no journal.
   */
  lemma ExactRecovery(cfg: Config, os0: set<Entry>, calls: seq<(Command, seq<Event>)>, last: Command, tape: seq<Event>)
    requires last.DoRecover? || last.DoDeactivate?
    ensures var before := Run(cfg, Machine(os0, None, false), calls);
            var (after, v) := Call(cfg, before, last, tape);
            v.Success? ==>
              && after.disk == None
              && after.os == os0 - Orphans(os0)
              && (after.os == os0 <==> forall e :: e in os0 ==> !Orphan(e))
  {
    var m := Machine(os0, None, false);
    var base := RunSafe(cfg, m, os0, calls);
    var before := Run(cfg, m, calls);
    TapeIrrelevant(cfg, before, base, tape);
    var base' := CallSafe(cfg, before, base, last, tape);
    SweptTowardsTransitive(os0, base, base');
    if e :| e in os0 && Orphan(e) {
      assert e in Orphans(os0);
    }
  }

  /**
   Write-ahead coverage in every reachable state: an entry Navo added is listed on disk
   by an action marked as created by Navo whose undo removes it, and no entry that was
   there before, other than an orphaned rule, is ever gone.
   */
  lemma WriteAheadCoverage(cfg: Config, os0: set<Entry>, calls: seq<(Command, seq<Event>)>)
    ensures var m := Run(cfg, Machine(os0, None, false), calls);
            && os0 - Orphans(os0) <= m.os
            && Readable(cfg, m.disk)
            && forall e :: e in m.os && e !in os0 ==>
                 exists a :: a in Recorded(cfg, m.disk) && a.created && UndoMatch(a.resource, e)
  {
    var m0 := Machine(os0, None, false);
    var base := RunSafe(cfg, m0, os0, calls);
    var m := Run(cfg, m0, calls);
    forall e | e in m.os && e !in os0
      ensures exists a :: a in Recorded(cfg, m.disk) && a.created && UndoMatch(a.resource, e)
    {
      assert e !in base;
      var a :| a in Recorded(cfg, m.disk) && Owned(a, e);
    }
  }

  // ---- When recovery can succeed ----

  /** Nothing fails for at least n more effects. */
  ghost predicate Calm(tape: seq<Event>, n: nat) {
    && n <= |tape|
    && forall i :: 0 <= i < |tape| ==> tape[i].verdict.Success?
  }

  /** No entry found before Navo lies in the scope of a journalled undo. */
  ghost predicate NoBystander(base: set<Entry>, actions: seq<Action>) {
    forall a, e :: a in actions && a.created && e in base ==> !UndoScope(a.resource, e)
  }

  /** An undo refuses exactly when an entry found before Navo lies in its scope. */
  lemma UndoRefuses(os: set<Entry>, base: set<Entry>, r: Resource)
    requires base <= os && Private(os, base, r) && !r.UnknownKind?
    requires forall e :: e in os && e !in base && UndoScope(r, e) ==> UndoMatch(r, e)
    ensures UndoTargets(os, r).Some? <==> forall e :: e in base ==> !UndoScope(r, e)
  {
    var all := Select(os, e => UndoScope(r, e));
    var exact := Select(os, e => UndoMatch(r, e));
    assert exact <= all;
    if forall e :: e in base ==> !UndoScope(r, e) {
      assert all == exact;
    } else {
      var e :| e in base && UndoScope(r, e);
      assert e in all;
      if UndoMatch(r, e) {
        UndoMatchIsRival(r, e);
      }
      assert e !in exact;
      StrictSubsetSmaller(exact, all, e);
    }
    if f :| f in exact {
      forall g | g in exact ensures g == f {
        UndoMatchIsRival(r, g);
        UndoMatchIsRival(r, f);
      }
      assert exact == {f};
    }
  }

  lemma StrictSubsetSmaller<T>(a: set<T>, b: set<T>, x: T)
    requires a <= b && x in b && x !in a
    ensures |a| < |b|
  {
    var rest := b - {x};
    assert a <= rest;
    SubsetCard(a, rest);
  }

  /** What an undo does in a calm world. */
  lemma UndoCalm(w: World, base: set<Entry>, actions: seq<Action>, a: Action)
    requires Covered(w.os, base, actions) && a in actions && a.created && !a.resource.UnknownKind?
    requires Calm(w.tape, 1)
    ensures var (w1, v) := Undo(w, a.resource);
            && !v.Crash? && w1.tape == w.tape[1..] && base <= w1.os <= w.os
            && (v.Success? <==> forall e :: e in base ==> !UndoScope(a.resource, e))
            && (v.Success? ==> forall e :: e in w1.os ==> !Owned(a, e))
  {
    assert Private(w.os, base, a.resource);
    ScopedIsMatched(w.os, base, actions, a);
    UndoRefuses(w.os, base, a.resource);
    UndoStaysOutsideBase(w, base, actions, a);
    CoveredContainsBase(w.os, base, actions);
  }

  /** One round of the loop in a calm world: either the undo refuses or the action is dropped. */
  lemma RoundCalm(w: World, base: set<Entry>, j: Journal, n: nat, failed: bool) returns (w1: World, j1: Journal)
    requires 0 < n <= |j.actions|
    requires Covered(w.os, base, j.actions)
    requires forall a :: a in j.actions ==> !a.resource.UnknownKind?
    requires Calm(w.tape, 2 * n + 1)
    ensures var a := j.actions[n - 1];
            var refused := a.created && exists e :: e in base && UndoScope(a.resource, e);
            && Calm(w1.tape, 2 * n - 1) && |w1.tape| >= |w.tape| - 2
            && (refused ==> j1 == j) && (!refused ==> j1 == j.(actions := Without(j.actions, n - 1)))
            && Covered(w1.os, base, j1.actions)
            && RollbackLoop(w, j, n, failed) == RollbackLoop(w1, j1, n - 1, failed || refused)
  {
    var a := j.actions[n - 1];
    if a.created {
      UndoCalm(w, base, j.actions, a);
    } else {
      assert forall e :: e in w.os ==> !Owned(a, e);
    }
    CoveredContainsBase(w.os, base, j.actions);
    hide Undo, Covered, Owned;
    var (w', v) := if a.created then Undo(w, a.resource) else (w, Success);
    CoveredShrinks(w.os, base, j.actions, w'.os);
    if v.Failure? {
      w1, j1 := w', j;
    } else {
      DropCovered(w'.os, base, j.actions, n - 1);
      j1 := j.(actions := Without(j.actions, n - 1));
      w1 := if j1.actions == [] then w' else Write(w', j1).0;
    }
  }

  lemma WithoutMiddle(s: seq<Action>, n: nat, tail: seq<Action>, j: seq<Action>)
    requires 0 < n <= |s| && j == s[..n] + tail
    ensures n <= |j| && j[n - 1] == s[n - 1] && j[n - 1] in j
    ensures Without(j, n - 1) == s[..n - 1] + tail
    ensures forall a :: a in Without(j, n - 1) ==> a in j
    ensures j == s[..n - 1] + ([s[n - 1]] + tail)
  {
  }

  lemma {:induction false} RollbackLoopCalm(w: World, base: set<Entry>, j: Journal, n: nat, failed: bool)
    requires n <= |j.actions| && (!failed ==> n == |j.actions|)
    requires Covered(w.os, base, j.actions)
    requires forall a :: a in j.actions ==> !a.resource.UnknownKind?
    requires Calm(w.tape, 2 * n + 1)
    ensures var r := RollbackLoop(w, j, n, failed);
            && !r.verdict.Crash?
            && (r.verdict.Success? <==> !failed && NoBystander(base, j.actions))
            && (r.verdict.Success? ==> |r.world.tape| >= |w.tape| - 2 * n - 1 && Calm(r.world.tape, 0))
    decreases n
  {
    if n > 0 {
      var w1, j1 := RoundCalm(w, base, j, n, failed);
      var a := j.actions[n - 1];
      var refused := a.created && exists e :: e in base && UndoScope(a.resource, e);
      WithoutMiddle(j.actions, n, j.actions[n..], j.actions);
      BystanderSplit(base, j.actions, n - 1);
      hide RollbackLoop, Covered, NoBystander, Without;
      RollbackLoopCalm(w1, base, j1, n - 1, failed || refused);
    }
  }

  lemma ScopedIsMatched(os: set<Entry>, base: set<Entry>, actions: seq<Action>, a: Action)
    requires Covered(os, base, actions) && a in actions && a.created
    ensures forall e :: e in os && e !in base && UndoScope(a.resource, e) ==> UndoMatch(a.resource, e)
  {
  }

  lemma BystanderSplit(base: set<Entry>, actions: seq<Action>, i: nat)
    requires i < |actions|
    ensures NoBystander(base, actions) <==>
            && NoBystander(base, Without(actions, i))
            && (actions[i].created ==> forall e :: e in base ==> !UndoScope(actions[i].resource, e))
  {
  }

  /** The journal as recovery rolls it back. */
  function Migrated(cfg: Config, j: Journal): Journal {
    if j.version == 1 && Migratable(j, cfg.peer, cfg.dns) then MigrateV1(j, cfg.peer, cfg.dns).value else j
  }

  predicate Gated(cfg: Config, disk: Option<Journal>) {
    disk.Some? ==> ValidRecovery(cfg.syn, Migrated(cfg, disk.value))
  }

  /** The effects of a recovery in which nothing fails. */
  function Effects(cfg: Config, disk: Option<Journal>): nat {
    2 * |Recorded(cfg, disk)| + if disk.Some? && disk.value.version == 1 then 5 else 4
  }

  lemma RollbackAndSweep(cfg: Config, w: World, base: set<Entry>, j: Journal)
    requires j.version == 2 && Covered(w.os, base, j.actions) && Safe(cfg, w, base)
    requires Calm(w.tape, 2 * |j.actions| + 3)
    ensures var r := Rollback(cfg, w, j);
            r.verdict.Success? && Sweep(r.world).1.Success? <==>
            && ValidRecovery(cfg.syn, j)
            && NoBystander(base, j.actions)
            && forall e :: e in base ==> !Suspicious(e)
  {
    if ValidRecovery(cfg.syn, j) {
      RollbackLoopCalm(w, base, j, |j.actions|, false);
      RollbackLoopSafe(cfg, w, base, j, |j.actions|, false);
    }
    hide ValidRecovery, NoBystander, RollbackLoop, Covered;
  }

  /**
   When nothing fails, recovery - from a journal of version 2, of version 1, or without one -
   succeeds if and only if the journal, migrated where it is old, passes the recovery gate, no
   entry found before Navo stands in the scope of an undo, and no rule with a Navo name has a
   foreign identity.
   */
  lemma RecoverySucceedsIff(cfg: Config, w: World, base: set<Entry>)
    requires Safe(cfg, w, base) && Calm(w.tape, Effects(cfg, w.disk))
    ensures Recover(cfg, w).1.Success? <==>
            && Gated(cfg, w.disk)
            && NoBystander(base, Recorded(cfg, w.disk))
            && forall e :: e in base ==> !Suspicious(e)
  {
    var (w1, v1) := Ask(w);
    if w.disk.Some? {
      var j := Migrated(cfg, w.disk.value);
      var w2 := if w.disk.value.version == 1 then Write(w1, j).0 else w1;
      assert Safe(cfg, w2, base) && w2.os == w.os;
      RollbackAndSweep(cfg, w2, base, j);
    }
    hide Rollback, Covered, NoBystander, ValidRecovery, Suspicious;
  }

  /** For a version 1 journal the gate is a condition on its own identity and the configured peer. */
  lemma LegacyRecoverySucceedsIff(cfg: Config, w: World, base: set<Entry>, j: Journal)
    requires w.disk == Some(j) && j.version == 1 && Safe(cfg, w, base) && Calm(w.tape, Effects(cfg, w.disk))
    requires cfg.syn.cidr(SPLIT_PREFIXES[0]) && cfg.syn.cidr(SPLIT_PREFIXES[1])
    ensures Recover(cfg, w).1.Success? <==>
            && j.adapterName != "" && cfg.syn.adapterName(j.adapterName) && RecoverableSession(j.sessionId)
            && (cfg.syn.ip(cfg.peer) || forall i :: 0 <= i < |j.actions| ==> !(SPLIT_NAME <= j.actions[i].name))
            && NoBystander(base, Recorded(cfg, w.disk))
            && forall e :: e in base ==> !Suspicious(e)
  {
    RecoverySucceedsIff(cfg, w, base);
    MigratedIsRecoverable(cfg.syn, j, cfg.peer, cfg.dns);
    hide Recover, NoBystander, Covered, ValidRecovery, Calm, RecoverableSession;
  }

  /**
   A journal that recovery cannot read, or that fails its gate, is never rolled back, on any tape; at
   most it is migrated.
   */
  lemma RefusedJournalIsStuck(cfg: Config, w: World, j: Journal)
    requires w.disk == Some(j) && (!Readable(cfg, w.disk) || !ValidRecovery(cfg.syn, Migrated(cfg, j)))
    ensures var (w1, v) := Recover(cfg, w);
            && !v.Success? && w1.os == w.os
            && (w1.disk == w.disk || w1.disk == Some(Migrated(cfg, j)))
  {
    hide ValidRecovery, MigrateV1, Migratable;
  }

  // ---- Reversibility of a plan ----

  /** What TUNActivationPlan.validate checks of the modelled fields. */
  predicate PlanValidated(syn: Syntax, plan: Plan) {
    && 0 < |plan.sessionId| <= 64
    && syn.adapterName(plan.adapterName)
    && forall i :: 0 <= i < |plan.endpoints| ==>
         syn.ip(plan.endpoints[i].ip) && plan.endpoints[i].ifIndex != 0 && plan.endpoints[i].nextHop != ""
  }

  /** The condition on plan, configuration and adapter under which the gate lets a rollback through. */
  predicate PlanRecoverable(cfg: Config, plan: Plan, adapter: Adapter) {
    && plan.adapterName != "" && cfg.syn.adapterName(plan.adapterName)
    && RecoverableSession(plan.sessionId)
    && cfg.syn.ip(cfg.peer)
    && cfg.syn.cidr(SPLIT_PREFIXES[0]) && cfg.syn.cidr(SPLIT_PREFIXES[1])
    && (adapter.ifIndex == 0 ==> cfg.syn.adapterName(adapter.name))
    && forall i :: 0 <= i < |plan.endpoints| ==>
         ValidResource(cfg.syn, EndpointOp(plan, plan.endpoints[i]).resource)
  }

  /** The activation found no root NRPT rule although some rule already carries its tag. */
  predicate TagTaken(os: set<Entry>, sessionId: string) {
    && (exists e :: e in os && e.NrptEntry? && e.comment == NRPT_TAG + sessionId)
    && (forall e :: e in os && e.NrptEntry? ==> NRPT_ROOT !in e.namespaces)
  }

  lemma PlanRecoverableIff(cfg: Config, plan: Plan, adapter: Adapter, j: Journal)
    requires j.version == 2 && j.adapterName == plan.adapterName && j.sessionId == plan.sessionId
    requires Lists(j, 0, Operations(cfg, plan, adapter))
    ensures ValidRecovery(cfg.syn, j) <==> PlanRecoverable(cfg, plan, adapter)
  {
    var ops := Operations(cfg, plan, adapter);
    var n := |plan.endpoints|;
    assert ops[n] == SplitOp(cfg, adapter, SPLIT_PREFIXES[0]);
    assert ops[n + 1] == SplitOp(cfg, adapter, SPLIT_PREFIXES[1]);
    assert ops[n + 2] == Op(NRPT_NAME, Nrpt(NRPT_ROOT, NRPT_TAG + plan.sessionId, cfg.dns));
    assert NRPT_TAG <= NRPT_TAG + plan.sessionId;
    assert FIREWALL_PREFIX <= FIREWALL_PREFIX + plan.sessionId;
    assert forall i :: 0 <= i < |ops| ==> j.actions[0 + i].resource == ops[i].resource;
    if ValidRecovery(cfg.syn, j) {
      assert ValidResource(cfg.syn, j.actions[n].resource);
      assert ValidResource(cfg.syn, j.actions[n + 1].resource);
      forall i | 0 <= i < n ensures ValidResource(cfg.syn, EndpointOp(plan, plan.endpoints[i]).resource) {
        assert ops[i] == EndpointOp(plan, plan.endpoints[i]);
        assert ValidResource(cfg.syn, j.actions[i].resource);
      }
    }
    if PlanRecoverable(cfg, plan, adapter) {
      forall i | 0 <= i < |ops| ensures ValidResource(cfg.syn, j.actions[i].resource) {
        assert j.actions[0 + i].resource == ops[i].resource;
        if i < n {
          assert ops[i] == EndpointOp(plan, plan.endpoints[i]);
        }
      }
    }
  }

  /** Among the resources of an activation, only the NRPT rule has an undo that looks beyond its own place. */
  lemma OnlyTheTagMatters(cfg: Config, os: set<Entry>, base: set<Entry>, plan: Plan, adapter: Adapter, j: Journal,
                          rule: Action)
    requires Covered(os, base, j.actions)
    requires Lists(j, 0, Operations(cfg, plan, adapter))
    requires rule == j.actions[0 + (|plan.endpoints| + 2)]
    ensures rule in j.actions && rule.resource == Nrpt(NRPT_ROOT, NRPT_TAG + plan.sessionId, cfg.dns)
    ensures NoBystander(base, j.actions) <==>
            (rule.created ==> forall e :: e in base ==> !UndoScope(rule.resource, e))
  {
    hide Inspect;
    var ops := Operations(cfg, plan, adapter);
    var n := |plan.endpoints| + 2;
    assert ops[n] == Op(NRPT_NAME, Nrpt(NRPT_ROOT, NRPT_TAG + plan.sessionId, cfg.dns));
    forall a | a in j.actions && a.resource.Nrpt? ensures a == rule {
      OnlyNrpt(cfg, plan, adapter, j, rule, a);
    }
    forall a, e | a in j.actions && a.created && e in base && !a.resource.Nrpt?
      ensures !UndoScope(a.resource, e)
    {
      assert Private(os, base, a.resource);
    }
  }

  lemma BystandersOfActivation(cfg: Config, os: set<Entry>, base: set<Entry>, plan: Plan, adapter: Adapter, j: Journal)
    requires Covered(os, base, j.actions) && AllExact(os, j.actions)
    requires Lists(j, 0, Operations(cfg, plan, adapter))
    ensures NoBystander(base, j.actions) <==> !TagTaken(base, plan.sessionId)
  {
    hide Inspect, Operations;
    assert |j.actions| >= |plan.endpoints| + 3 by {
      assert |Operations(cfg, plan, adapter)| >= |plan.endpoints| + 3 by { OperationCount(cfg, plan, adapter); }
    }
    var rule := j.actions[0 + (|plan.endpoints| + 2)];
    OnlyTheTagMatters(cfg, os, base, plan, adapter, j, rule);
    if rule.created {
      assert Private(os, base, rule.resource);
      forall e | e in base && e.NrptEntry? ensures NRPT_ROOT !in e.namespaces {
        assert !Rivals(rule.resource, e);
      }
    } else {
      assert Inspect(os, rule.resource) == FoundExact;
      InspectExact(os, rule.resource);
      var e :| e in os && Exact(rule.resource, e);
      if e !in base {
        var b :| b in j.actions && Owned(b, e);
        assert b.resource.Nrpt? && Private(os, base, b.resource);
        OnlyNrpt(cfg, plan, adapter, j, rule, b);
        assert false;
      }
      assert e in base && NRPT_ROOT in e.namespaces;
    }
  }

  lemma OperationCount(cfg: Config, plan: Plan, adapter: Adapter)
    ensures |Operations(cfg, plan, adapter)| >= |plan.endpoints| + 3
  {
  }

  lemma OnlyNrpt(cfg: Config, plan: Plan, adapter: Adapter, j: Journal, rule: Action, a: Action)
    requires Lists(j, 0, Operations(cfg, plan, adapter))
    requires |j.actions| > |plan.endpoints| + 2 && rule == j.actions[|plan.endpoints| + 2]
    requires a in j.actions && a.resource.Nrpt?
    ensures a == rule
  {
    var ops := Operations(cfg, plan, adapter);
    var k :| 0 <= k < |j.actions| && j.actions[k] == a;
    assert j.actions[0 + k].resource == ops[k].resource;
  }

  lemma ActivatedRecoversIff(cfg: Config, w: World, base: set<Entry>, plan: Plan, adapter: Adapter, calm: seq<Event>)
    requires Activated(w, Journal(2, plan.adapterName, plan.sessionId, []), Operations(cfg, plan, adapter))
    requires w.disk.Some? && Covered(w.os, base, w.disk.value.actions)
    requires forall e :: e in base ==> !Suspicious(e)
    requires Calm(calm, 2 * |Operations(cfg, plan, adapter)| + 4)
    ensures Recover(cfg, w.(tape := calm)).1.Success? <==>
            PlanRecoverable(cfg, plan, adapter) && !TagTaken(base, plan.sessionId)
  {
    var j := w.disk.value;
    PlanRecoverableIff(cfg, plan, adapter, j);
    BystandersOfActivation(cfg, w.os, base, plan, adapter, j);
    hide Operations, PlanRecoverable, TagTaken, Covered, ValidRecovery;
    RecoverySucceedsIff(cfg, w.(tape := calm), base);
    hide Recover, NoBystander;
  }

  /** A recovery that succeeds has met no rule with a Navo name and a foreign identity. */
  lemma RecoveredIsClean(cfg: Config, w: World, base: set<Entry>)
    requires Safe(cfg, w, base)
    ensures Recover(cfg, w).1.Success? ==> forall e :: e in base ==> !Suspicious(e)
  {
    RecoverJournalSafe(cfg, w, base);
    hide RecoverJournal, Suspicious, Safe;
  }

  /**
   From any start that coverage holds in - with a journal of an earlier process or without - a
   successful activation can be taken back by a recovery in which nothing fails if and only if
   its plan was recoverable and its NRPT tag was not already in use elsewhere.
   */
  lemma ActivationReversibleIff(cfg: Config, start: World, base: set<Entry>, plan: Plan, adapter: Adapter,
                                calm: seq<Event>)
    requires Safe(cfg, start, base) && Calm(calm, 2 * |Operations(cfg, plan, adapter)| + 4)
    ensures var (w, v) := Activate(cfg, start, plan, adapter, true);
            v.Success? ==>
              (Recover(cfg, w.(tape := calm)).1.Success? <==>
               PlanRecoverable(cfg, plan, adapter) && !TagTaken(base, plan.sessionId))
  {
    var (w, v) := Activate(cfg, start, plan, adapter, true);
    if v.Success? {
      var base' := RecoverSafe(cfg, start, base);
      RecoveredIsClean(cfg, start, base);
      assert Recover(cfg, start).1.Success?;
      ActivateFrom(cfg, start, base', plan, adapter);
      hide Activate, Recover, Activated, Covered, PlanRecoverable, Operations, Safe;
      SweptTag(base, plan.sessionId);
      ActivatedRecoversIff(cfg, w, base', plan, adapter, calm);
    }
  }

  /** The orphan sweep touches no NRPT rule. */
  lemma SweptTag(base: set<Entry>, sessionId: string)
    ensures TagTaken(Swept(base), sessionId) <==> TagTaken(base, sessionId)
  {
    assert forall e :: e in base && e.NrptEntry? ==> e in Swept(base);
  }

  /** Over all runs from a fresh manager, where the tag is judged in the system as it was found. */
  lemma RunReversibleIff(cfg: Config, os0: set<Entry>, calls: seq<(Command, seq<Event>)>, plan: Plan,
                         adapter: Adapter, tape: seq<Event>, calm: seq<Event>)
    requires Calm(calm, 2 * |Operations(cfg, plan, adapter)| + 4)
    ensures var m := Run(cfg, Machine(os0, None, false), calls);
            var (m1, v) := Call(cfg, m, DoActivate(plan, adapter), tape);
            !m.active && v.Success? ==>
              (Call(cfg, m1, DoRecover, calm).1.Success? <==>
               PlanRecoverable(cfg, plan, adapter) && !TagTaken(os0, plan.sessionId))
  {
    var m := Run(cfg, Machine(os0, None, false), calls);
    var base := RunSafe(cfg, Machine(os0, None, false), os0, calls);
    TapeIrrelevant(cfg, m, base, tape);
    ActivationReversibleIff(cfg, At(m, tape), base, plan, adapter, calm);
    SweptTag(base, plan.sessionId);
    SweptTag(os0, plan.sessionId);
    SweptTowardsTransitive(os0, base, base);
    hide Activate, Recover, PlanRecoverable, Operations, TagTaken, Run, Safe;
  }

  lemma ActivateFrom(cfg: Config, start: World, base: set<Entry>, plan: Plan, adapter: Adapter)
    ensures var (w1, _) := Recover(cfg, start);
            var (w, v) := Activate(cfg, start, plan, adapter, true);
            v.Success? && w1.disk == None && w1.os == base ==>
              && Activated(w, Journal(2, plan.adapterName, plan.sessionId, []), Operations(cfg, plan, adapter))
              && w.disk.Some? && Covered(w.os, base, w.disk.value.actions)
  {
    hide Recover, ApplyAll, Activated;
    var (w1, _) := Recover(cfg, start);
    if Activate(cfg, start, plan, adapter, true).1.Success? && w1.disk == None && w1.os == base {
      assert Covered(w1.os, base, []);
      var w2 := Ask(w1).0;
      var j := Journal(2, plan.adapterName, plan.sessionId, []);
      WriteSafe(cfg, w2, base, j);
      var w3 := Write(w2, j).0;
      var ops := Operations(cfg, plan, adapter);
      ApplyAllSafe(cfg, w3, base, j, ops);
      ActivatedIsVersionTwo(cfg, ApplyAll(cfg, w3, j, ops).0, base, j, ops);
    }
  }

  lemma ActivatedIsVersionTwo(cfg: Config, w: World, base: set<Entry>, j: Journal, ops: seq<Op>)
    requires j.version == 2 && Activated(w, j, ops) && Safe(cfg, w, base)
    ensures w.disk.Some? && Covered(w.os, base, w.disk.value.actions)
  {
  }

  // ---- Activation succeeds when nothing is in the way ----

  /** No operation creates an entry that a later one would find in its place. */
  ghost predicate Apart(ops: seq<Op>) {
    forall i, k, id: nat :: 0 <= i < k < |ops| && !ops[i].resource.UnknownKind? ==>
      !Rivals(ops[k].resource, CreatedEntry(ops[i].resource, id))
  }

  ghost predicate Vacant(os: set<Entry>, ops: seq<Op>) {
    forall i, e :: 0 <= i < |ops| && e in os ==> !Rivals(ops[i].resource, e)
  }

  lemma {:induction false} ApplyAllCalm(cfg: Config, w: World, j: Journal, ops: seq<Op>)
    requires KnownKinds(ops) && Apart(ops) && Vacant(w.os, ops)
    requires Calm(w.tape, 5 * |ops| + 1)
    ensures ApplyAll(cfg, w, j, ops).1.Success?
    decreases |ops|
  {
    if ops != [] {
      InspectMissing(w.os, ops[0].resource);
      var (w1, j1, v) := ApplyOne(w, j, ops[0]);
      hide Inspect;
      assert v.Success?;
      var id := Rest(Rest(w)).tape[0].id;
      assert w1.os == w.os + {CreatedEntry(ops[0].resource, id)};
      var rest := ops[1..];
      forall i, e | 0 <= i < |rest| && e in w1.os ensures !Rivals(rest[i].resource, e) {
        assert rest[i] == ops[i + 1];
      }
      ApplyAllCalm(cfg, w1, j1, rest);
    }
  }

  lemma ActivationSucceeds(cfg: Config, os0: set<Entry>, plan: Plan, adapter: Adapter, tape: seq<Event>)
    requires plan.sessionId != "" && forall e :: e in os0 ==> !Suspicious(e)
    requires Apart(Operations(cfg, plan, adapter)) && Vacant(os0, Operations(cfg, plan, adapter))
    requires Calm(tape, 5 * |Operations(cfg, plan, adapter)| + 6)
    ensures Activate(cfg, World(os0, None, tape), plan, adapter, true).1.Success?
  {
    var start := World(os0, None, tape);
    var (w1, v1) := Recover(cfg, start);
    assert v1.Success? && w1.os <= os0 && |w1.tape| >= |tape| - 3 && Calm(w1.tape, 0);
    hide Recover;
    var j := Journal(2, plan.adapterName, plan.sessionId, []);
    ApplyAllCalm(cfg, Write(Ask(w1).0, j).0, j, Operations(cfg, plan, adapter));
  }

  /**
   Plan validation does not imply recoverability: it accepts a session id with a capital
   letter. On an empty system where nothing fails the activation succeeds, and from then
   on no recovery, on any tape, removes anything.
   */
  lemma ValidatedPlanCanBeStuck(cfg: Config, adapter: Adapter, calm: seq<Event>, tape: seq<Event>)
    requires cfg.syn.adapterName("Navo") && Calm(calm, 26)
    ensures var plan := Plan("A", "Navo", [], 40000, true);
            var (w, v) := Activate(cfg, World({}, None, calm), plan, adapter, true);
            var (w1, v1) := Recover(cfg, w.(tape := tape));
            && PlanValidated(cfg.syn, plan)
            && v.Success? && w.os != {}
            && !v1.Success? && w1.os == w.os && w1.disk == w.disk
  {
    var plan := Plan("A", "Navo", [], 40000, true);
    var ops := Operations(cfg, plan, adapter);
    assert SPLIT_PREFIXES[0][0] != SPLIT_PREFIXES[1][0];
    assert |ops| == 4;
    ActivationSucceeds(cfg, {}, plan, adapter, calm);
    var start := World({}, None, calm);
    var base := RecoverSafe(cfg, start, {});
    ActivateFrom(cfg, start, base, plan, adapter);
    var (w, _) := Activate(cfg, start, plan, adapter, true);
    var j := w.disk.value;
    hide Activate, Recover;
    assert j.(actions := []) == Journal(2, "Navo", "A", []);
    assert j.version == j.(actions := []).version && j.sessionId == j.(actions := []).sessionId;
    assert !SessionChar(j.sessionId[0]);
    RefusedJournalIsStuck(cfg, w.(tape := tape), j);
    assert j.actions[0 + 0].resource == ops[0].resource && j.actions[0] in j.actions;
    InspectExact(w.os, ops[0].resource);
  }

  // ---- The in-memory active flag ----

  /**
   A successful Activate call finds or leaves every resource in place, unless the manager
   was already active: then nothing is looked at.
   */
  lemma ActivateEstablishes(cfg: Config, m: Machine, base: set<Entry>, plan: Plan, adapter: Adapter, tape: seq<Event>)
    requires Safe(cfg, At(m, tape), base) && !m.active
    ensures var (m1, v) := Call(cfg, m, DoActivate(plan, adapter), tape);
            v.Success? ==>
              && m1.active && m1.disk.Some?
              && Lists(m1.disk.value, 0, Operations(cfg, plan, adapter))
              && forall op :: op in Operations(cfg, plan, adapter) ==> Inspect(m1.os, op.resource) == FoundExact
  {
    var base' := ActivateSafe(cfg, At(m, tape), base, plan, adapter, true);
    var (w, v) := Activate(cfg, At(m, tape), plan, adapter, true);
    var ops := Operations(cfg, plan, adapter);
    if v.Success? {
      forall op | op in ops ensures Inspect(w.os, op.resource) == FoundExact {
        var i :| 0 <= i < |ops| && ops[i] == op;
        assert w.disk.value.actions[0 + i].resource == op.resource;
        assert w.disk.value.actions[0 + i] in w.disk.value.actions;
      }
    }
  }
}
