/**
 The in-memory active flag of the TUN network manager: an active manager answers Activate
 without looking, so what that answer is worth depends on the calls since the activation.
 */
module NetworkFlag {
  import opened Common
  import opened NetworkJournal
  import opened NetworkManager
  import opened NetworkRecovery
  import opened NetworkTheorems

  /** Every planned resource is exact, and the journal lists all of them as applied. */
  ghost predicate InPlace(m: Machine, ops: seq<Op>) {
    && m.disk.Some?
    && Lists(m.disk.value, 0, ops)
    && forall op :: op in ops ==> Inspect(m.os, op.resource) == FoundExact
  }

  /** The call activated the manager: Activate on an inactive one, or Rebind, with success. */
  predicate Activates(cfg: Config, m: Machine, c: Command, tape: seq<Event>) {
    ((c.DoActivate? && !m.active) || c.DoRebind?) && Call(cfg, m, c, tape).1.Success?
  }

  /** An entry of a planned resource that is gone. */
  ghost predicate Gone(before: set<Entry>, after: set<Entry>, ops: seq<Op>) {
    exists op, e :: op in ops && e in before && Exact(op.resource, e) && e !in after
  }

  /** The call changed the journal, or removed an entry of a planned resource. */
  ghost predicate Removes(cfg: Config, m: Machine, c: Command, tape: seq<Event>, ops: seq<Op>) {
    var m1 := Call(cfg, m, c, tape).0;
    m1.disk != m.disk || Gone(m.os, m1.os, ops)
  }

  type Calls = seq<(Command, seq<Event>)>

  function Fresh(os0: set<Entry>): Machine {
    Machine(os0, None, false)
  }

  /** The resources of the last activation of a run. */
  function PlannedOps(cfg: Config, os0: set<Entry>, calls: Calls): seq<Op> {
    if calls == [] then []
    else
      var (before, last) := (calls[..|calls| - 1], calls[|calls| - 1]);
      if Activates(cfg, Run(cfg, Fresh(os0), before), last.0, last.1)
      then Operations(cfg, last.0.plan, last.0.adapter)
      else PlannedOps(cfg, os0, before)
  }

  /** Some call since that activation removed something of it. */
  ghost predicate RemovedSince(cfg: Config, os0: set<Entry>, calls: Calls) {
    if calls == [] then false
    else
      var (before, last) := (calls[..|calls| - 1], calls[|calls| - 1]);
      var m := Run(cfg, Fresh(os0), before);
      !Activates(cfg, m, last.0, last.1)
      && (RemovedSince(cfg, os0, before) || Removes(cfg, m, last.0, last.1, PlannedOps(cfg, os0, before)))
  }

  // ---- Recovery only takes away ----

  /** The journal is as it was, or shorter, or gone. */
  predicate Shorter(d0: Option<Journal>, d1: Option<Journal>) {
    || d1 == d0 || d1 == None
    || (d0.Some? && d1.Some? && d1.value.version == d0.value.version && |d1.value.actions| < |d0.value.actions|)
  }

  lemma {:induction false} RollbackLoopShrinks(w: World, j: Journal, n: nat, failed: bool)
    requires n <= |j.actions|
    ensures var r := RollbackLoop(w, j, n, failed);
            && r.world.os <= w.os
            && (r.world.disk == w.disk || Shorter(Some(j), r.world.disk))
    decreases n
  {
    if n > 0 {
      var a := j.actions[n - 1];
      var (w1, v) := if a.created then Undo(w, a.resource) else (w, Success);
      var j1 := j.(actions := Without(j.actions, n - 1));
      assert w1.os <= w.os && w1.disk == w.disk;
      hide Undo;
      if v.Failure? {
        RollbackLoopShrinks(w1, j, n - 1, true);
      } else if v.Success? {
        RollbackLoopShrinks(w1, j1, n - 1, failed);
        RollbackLoopShrinks(Write(w1, j1).0, j1, n - 1, failed);
      }
    }
  }

  lemma RecoverShrinks(cfg: Config, w: World)
    requires w.disk.Some? ==> w.disk.value.version == 2
    ensures var (w1, v) := Recover(cfg, w);
            w1.os <= w.os && Shorter(w.disk, w1.disk)
  {
    var (w1, v) := Ask(w);
    if w.disk.Some? {
      RollbackLoopShrinks(w1, w.disk.value, |w.disk.value.actions|, false);
    }
    hide RollbackLoop, ValidRecovery;
  }

  /** Between activations a manager that stays active loses entries and journal records only. */
  lemma ActiveShrinks(cfg: Config, m: Machine, c: Command, tape: seq<Event>)
    requires !Activates(cfg, m, c, tape)
    ensures var m1 := Call(cfg, m, c, tape).0;
            m1.active ==>
              && m.active
              && ((m.disk.Some? ==> m.disk.value.version == 2) ==> m1.os <= m.os && Shorter(m.disk, m1.disk))
  {
    if m.disk.Some? ==> m.disk.value.version == 2 {
      RecoverShrinks(cfg, At(m, tape));
    }
    hide Recover, Activate;
  }

  // ---- When the flag tells the truth ----

  /** What is left of an activation that ended in mk: all of it, or demonstrably not all. */
  ghost predicate Left(mk: Machine, m: Machine, ops: seq<Op>, removed: bool) {
    && InPlace(mk, ops) && mk.disk.value.version == 2
    && m.os <= mk.os && Shorter(mk.disk, m.disk)
    && (removed <==> m.disk != mk.disk || Gone(mk.os, m.os, ops))
  }

  /** Nothing gone and the same journal is exactly what keeps all resources in place. */
  lemma LeftInPlace(mk: Machine, m: Machine, ops: seq<Op>, removed: bool)
    requires Left(mk, m, ops, removed)
    ensures InPlace(m, ops) <==> !removed
  {
    forall op | op in ops
      ensures Inspect(m.os, op.resource) == FoundExact <==> forall e :: e in mk.os && Exact(op.resource, e) ==> e in m.os
    {
      StillExact(mk.os, m.os, op.resource);
    }
    hide Inspect, Exact;
  }

  /** An exact resource stays exact under removals if and only if its entry does. */
  lemma StillExact(before: set<Entry>, after: set<Entry>, r: Resource)
    requires after <= before && Inspect(before, r) == FoundExact
    ensures Inspect(after, r) == FoundExact <==> forall e :: e in before && Exact(r, e) ==> e in after
  {
    InspectExact(before, r);
    InspectExact(after, r);
    var e :| e in before && Exact(r, e) && forall f :: f in before && Rivals(r, f) ==> f == e;
    hide Inspect;
  }

  lemma LeftStep(mk: Machine, m: Machine, m1: Machine, ops: seq<Op>, removed: bool)
    requires Left(mk, m, ops, removed) && m1.os <= m.os && Shorter(m.disk, m1.disk)
    ensures Left(mk, m1, ops, removed || m1.disk != m.disk || Gone(m.os, m1.os, ops))
  {
    hide InPlace, Exact;
  }

  lemma EstablishedInPlace(w: World, sessionId: string, adapterName: string, ops: seq<Op>, active: bool)
    requires Activated(w, Journal(2, adapterName, sessionId, []), ops)
    ensures InPlace(Machine(w.os, w.disk, active), ops) && w.disk.value.version == 2
  {
    assert w.disk.value.(actions := []).version == 2;
    forall op | op in ops ensures Inspect(w.os, op.resource) == FoundExact {
      var i :| 0 <= i < |ops| && ops[i] == op;
      assert w.disk.value.actions[0 + i].resource == op.resource;
      assert w.disk.value.actions[0 + i] in w.disk.value.actions;
    }
    hide Inspect;
  }

  lemma ActivationInPlace(cfg: Config, m: Machine, base: set<Entry>, c: Command, tape: seq<Event>)
    requires Safe(cfg, At(m, tape), base)
    ensures Activates(cfg, m, c, tape) ==>
              var m1 := Call(cfg, m, c, tape).0;
              m1.active && InPlace(m1, Operations(cfg, c.plan, c.adapter)) && m1.disk.value.version == 2
  {
    if Activates(cfg, m, c, tape) {
      var w := At(m, tape);
      var ops := Operations(cfg, c.plan, c.adapter);
      var w1 := w;
      var base1 := base;
      if c.DoRebind? {
        base1 := RecoverSafe(cfg, w, base);
        w1 := Recover(cfg, w).0;
      }
      var _ := ActivateSafe(cfg, w1, base1, c.plan, c.adapter, c.DoActivate?);
      var w2 := Activate(cfg, w1, c.plan, c.adapter, c.DoActivate?).0;
      hide Activate, Recover, Activated, InPlace, Operations;
      EstablishedInPlace(w2, c.plan.sessionId, c.plan.adapterName, ops, true);
    }
  }

  /** The machine right after the last activation of a run. */
  function Established(cfg: Config, os0: set<Entry>, calls: Calls): Machine {
    if calls == [] then Fresh(os0)
    else
      var (before, last) := (calls[..|calls| - 1], calls[|calls| - 1]);
      if Activates(cfg, Run(cfg, Fresh(os0), before), last.0, last.1) then Run(cfg, Fresh(os0), calls)
      else Established(cfg, os0, before)
  }

  lemma {:induction false} RunLeft(cfg: Config, os0: set<Entry>, calls: Calls)
    ensures Run(cfg, Fresh(os0), calls).active ==>
              Left(Established(cfg, os0, calls), Run(cfg, Fresh(os0), calls), PlannedOps(cfg, os0, calls),
                   RemovedSince(cfg, os0, calls))
  {
    if calls != [] {
      var before, last := calls[..|calls| - 1], calls[|calls| - 1];
      var m := Run(cfg, Fresh(os0), before);
      RunLeft(cfg, os0, before);
      var base := RunSafe(cfg, Fresh(os0), os0, before);
      TapeIrrelevant(cfg, m, base, last.1);
      hide Call, Safe, InPlace, Gone, Operations;
      if Activates(cfg, m, last.0, last.1) {
        ActivationInPlace(cfg, m, base, last.0, last.1);
        LeftStart(Run(cfg, Fresh(os0), calls), PlannedOps(cfg, os0, calls));
      } else {
        ActiveShrinks(cfg, m, last.0, last.1);
        var m1 := Run(cfg, Fresh(os0), calls);
        if m1.active {
          LeftStep(Established(cfg, os0, before), m, m1, PlannedOps(cfg, os0, before), RemovedSince(cfg, os0, before));
        }
      }
    }
  }

  lemma LeftStart(m: Machine, ops: seq<Op>)
    requires InPlace(m, ops) && m.disk.value.version == 2
    ensures Left(m, m, ops, false)
  {
  }

  /**
   In every run from a fresh manager: while the flag is up, the resources of the last activation
   are in place, and listed, if and only if no call since has removed anything of them.
   */
  lemma FlagTruthfulIff(cfg: Config, os0: set<Entry>, calls: Calls)
    ensures var m := Run(cfg, Fresh(os0), calls);
            m.active ==> (InPlace(m, PlannedOps(cfg, os0, calls)) <==> !RemovedSince(cfg, os0, calls))
  {
    RunLeft(cfg, os0, calls);
    if Run(cfg, Fresh(os0), calls).active {
      LeftInPlace(Established(cfg, os0, calls), Run(cfg, Fresh(os0), calls), PlannedOps(cfg, os0, calls),
                  RemovedSince(cfg, os0, calls));
    }
    hide *;
  }

  /** Recover, a failed Deactivate and a failed Rebind: what a caller can tell from its own calls. */
  predicate Suspect(c: Command, v: Verdict) {
    c.DoRecover? || ((c.DoDeactivate? || c.DoRebind?) && v.Failure?)
  }

  /** Only Recover, a failed Deactivate and a failed Rebind can remove anything and keep the flag up. */
  lemma WhatRemoves(cfg: Config, m: Machine, c: Command, tape: seq<Event>, ops: seq<Op>)
    requires !Activates(cfg, m, c, tape) && Removes(cfg, m, c, tape, ops)
    ensures var (m1, v) := Call(cfg, m, c, tape);
            m1.active ==> Suspect(c, v)
  {
    hide Recover, Activate, Exact;
  }

  /**
   A successful Activate leaves the resources of the last activation - its own, if it made one -
   in place if and only if the manager was not active, or nothing had been removed since.
   */
  lemma ActivateInPlaceIff(cfg: Config, os0: set<Entry>, calls: Calls, plan: Plan, adapter: Adapter, tape: seq<Event>)
    ensures var before := Run(cfg, Fresh(os0), calls);
            var all := calls + [(DoActivate(plan, adapter), tape)];
            var (m1, v) := Call(cfg, before, DoActivate(plan, adapter), tape);
            v.Success? ==>
              (InPlace(m1, PlannedOps(cfg, os0, all)) <==> !before.active || !RemovedSince(cfg, os0, calls))
  {
    var last := (DoActivate(plan, adapter), tape);
    var all := calls + [last];
    assert all[..|all| - 1] == calls && all[|all| - 1] == last;
    var before := Run(cfg, Fresh(os0), calls);
    FlagTruthfulIff(cfg, os0, calls);
    if !before.active {
      var base := RunSafe(cfg, Fresh(os0), os0, calls);
      TapeIrrelevant(cfg, before, base, tape);
      ActivationInPlace(cfg, before, base, last.0, tape);
    }
    hide InPlace, Activate, Operations, Safe;
  }

  /** Every call since the last activation is free of suspicion. */
  predicate Unsuspicious(cfg: Config, os0: set<Entry>, calls: Calls) {
    if calls == [] then true
    else
      var (before, last) := (calls[..|calls| - 1], calls[|calls| - 1]);
      var m := Run(cfg, Fresh(os0), before);
      Activates(cfg, m, last.0, last.1)
      || (Unsuspicious(cfg, os0, before) && !Suspect(last.0, Call(cfg, m, last.0, last.1).1))
  }

  lemma {:induction false} UnsuspiciousRemovesNothing(cfg: Config, os0: set<Entry>, calls: Calls)
    ensures Run(cfg, Fresh(os0), calls).active && Unsuspicious(cfg, os0, calls) ==> !RemovedSince(cfg, os0, calls)
  {
    if calls != [] {
      var before, last := calls[..|calls| - 1], calls[|calls| - 1];
      var m := Run(cfg, Fresh(os0), before);
      UnsuspiciousRemovesNothing(cfg, os0, before);
      if !Activates(cfg, m, last.0, last.1) {
        ActiveShrinks(cfg, m, last.0, last.1);
        if Removes(cfg, m, last.0, last.1, PlannedOps(cfg, os0, before)) {
          WhatRemoves(cfg, m, last.0, last.1, PlannedOps(cfg, os0, before));
        }
      }
      hide Call, Activates, Removes, Shorter;
    }
  }

  /**
   While the flag is up, the resources of the last activation are in place if since then nobody
   called Recover and no Deactivate and no Rebind failed.
   */
  lemma FlagTruthfulForCaller(cfg: Config, os0: set<Entry>, calls: Calls)
    ensures var m := Run(cfg, Fresh(os0), calls);
            m.active && Unsuspicious(cfg, os0, calls) ==> InPlace(m, PlannedOps(cfg, os0, calls))
  {
    UnsuspiciousRemovesNothing(cfg, os0, calls);
    FlagTruthfulIff(cfg, os0, calls);
    hide *;
  }

  // ---- Two ways to lose the resources and keep the flag ----

  /** Recover on an active manager removes everything, and Activate then succeeds without it. */
  lemma RecoverLeavesStaleActive(cfg: Config, m: Machine, base: set<Entry>, plan: Plan, adapter: Adapter,
                                 tape: seq<Event>, tape2: seq<Event>)
    requires m.active && Safe(cfg, At(m, tape), base)
    requires Call(cfg, m, DoRecover, tape).1.Success?
    ensures var m1 := Call(cfg, m, DoRecover, tape).0;
            && m1.os == Swept(base)
            && Call(cfg, m1, DoActivate(plan, adapter), tape2) == (m1, Success)
  {
    var _ := CallSafe(cfg, m, base, DoRecover, tape);
  }

  /** The journal can be read, then every command fails after removing what it could. */
  function Thwarted(n: nat, touched: set<Entry>): seq<Event> {
    [Event(Success, false, 0, {})] + seq(n, _ => Event(Failure, false, 0, touched))
  }

  lemma {:induction false} ThwartedLoop(w: World, j: Journal, n: nat, failed: bool, touched: set<Entry>)
    requires n <= |j.actions| && |w.tape| > n
    requires forall i :: 0 <= i < |w.tape| ==> w.tape[i] == Event(Failure, false, 0, touched)
    ensures var r := RollbackLoop(w, j, n, failed); r.verdict.Failure? && r.world.os <= w.os
    decreases n
  {
    if n > 0 {
      var a := j.actions[n - 1];
      var (w1, v) := if a.created then Undo(w, a.resource) else (w, Success);
      assert v.Success? ==> w1 == w;
      assert v.Failure? ==> w1.tape == w.tape[1..] && w1.os <= w.os;
      assert !v.Crash?;
      hide Undo;
      if v.Failure? {
        ThwartedLoop(w1, j, n - 1, true, touched);
      } else {
        ThwartedLoop(w1, j.(actions := Without(j.actions, n - 1)), n - 1, failed, touched);
      }
    }
  }

  /**
   A Deactivate in which every undo fails, the last one after removing its entry, leaves the
   manager active without that resource; Activate then succeeds on every tape.
   */
  lemma FailedDeactivateLeavesStaleActive(cfg: Config, m: Machine, j: Journal, e: Entry, plan: Plan, adapter: Adapter,
                                          tape2: seq<Event>)
    requires m.active && m.disk == Some(j) && ValidRecovery(cfg.syn, j) && j.actions != []
    requires var a := j.actions[|j.actions| - 1];
             a.created && UndoTargets(m.os, a.resource).Some? && e in UndoTargets(m.os, a.resource).value
    ensures var (m1, v) := Call(cfg, m, DoDeactivate, Thwarted(|j.actions| + 1, m.os));
            && v.Failure? && m1.active && e in m.os && e !in m1.os
            && Call(cfg, m1, DoActivate(plan, adapter), tape2) == (m1, Success)
  {
    var n := |j.actions|;
    var w := At(m, Thwarted(n + 1, m.os));
    var (w1, v1) := Ask(w);
    assert w1.tape == seq(n + 1, _ => Event(Failure, false, 0, m.os));
    var (w2, v2) := Undo(w1, j.actions[n - 1].resource);
    assert e in m.os;
    assert v2.Failure? && e !in w2.os && w2.tape == w1.tape[1..];
    hide Undo, UndoTargets, ValidRecovery;
    ThwartedLoop(w2, j, n - 1, true, m.os);
  }
}
