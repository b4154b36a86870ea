/**
 Recovery and activation effect by effect: they succeed if and only if every one of a known
 number of effects does, and a single failure of an activation is undone.
 */
module NetworkEffects {
  import opened Common
  import opened NetworkJournal
  import opened NetworkManager
  import opened NetworkRecovery
  import opened NetworkTheorems

  /** The first n effects succeed. */
  ghost predicate Fine(tape: seq<Event>, n: nat) {
    n <= |tape| && forall i :: 0 <= i < n ==> tape[i].verdict.Success?
  }

  lemma FineSplit(tape: seq<Event>, m: nat, n: nat)
    requires m <= |tape|
    ensures Fine(tape, m + n) <==> Fine(tape, m) && Fine(tape[m..], n)
  {
    if Fine(tape, m) && Fine(tape[m..], n) {
      forall i | 0 <= i < m + n ensures tape[i].verdict.Success? {
        assert i >= m ==> tape[i] == tape[m..][i - m];
      }
    }
    if Fine(tape, m + n) {
      forall i | 0 <= i < n ensures tape[m..][i].verdict.Success? {
      }
    }
  }

  lemma Tails(tape: seq<Event>)
    ensures tape[0..] == tape
    ensures forall k :: 0 <= k < |tape| ==> tape[k..][1..] == tape[k + 1..] && tape[k..][0] == tape[k]
  {
  }

  lemma FineFive(tape: seq<Event>)
    ensures Fine(tape, 5) <==>
            && |tape| >= 5 && tape[0].verdict.Success? && tape[1].verdict.Success? && tape[2].verdict.Success?
            && tape[3].verdict.Success? && tape[4].verdict.Success?
  {
  }

  /** A missing resource takes five effects: inspect, pending, apply, applied, and the check between operations. */
  lemma ApplyOneIff(w: World, j: Journal, op: Op)
    requires !op.resource.UnknownKind? && forall e :: e in w.os ==> !Rivals(op.resource, e)
    ensures var (w1, j1, v) := ApplyOne(w, j, op);
            && (v.Success? <==> Fine(w.tape, 5))
            && (v.Success? ==> w1.tape == w.tape[5..])
            && (v.Success? ==> exists id :: w1.os == w.os + {CreatedEntry(op.resource, id)})
  {
    InspectMissing(w.os, op.resource);
    hide Inspect, CreatedEntry, Fine, Rivals;
    FineFive(w.tape);
    Tails(w.tape);
  }

  lemma VacantRest(os: set<Entry>, ops: seq<Op>, id: nat)
    requires ops != [] && KnownKinds(ops) && Apart(ops) && Vacant(os, ops)
    ensures Apart(ops[1..]) && Vacant(os + {CreatedEntry(ops[0].resource, id)}, ops[1..])
  {
    var rest := ops[1..];
    forall i, e | 0 <= i < |rest| && e in os + {CreatedEntry(ops[0].resource, id)} ensures !Rivals(rest[i].resource, e) {
      assert rest[i] == ops[i + 1];
    }
  }

  lemma {:induction false} ApplyAllIff(cfg: Config, w: World, j: Journal, ops: seq<Op>)
    requires KnownKinds(ops) && Apart(ops) && Vacant(w.os, ops)
    ensures ApplyAll(cfg, w, j, ops).1.Success? <==> Fine(w.tape, 5 * |ops| + 1)
    decreases |ops|
  {
    if ops != [] {
      assert forall e :: e in w.os ==> !Rivals(ops[0].resource, e);
      ApplyOneIff(w, j, ops[0]);
      var (w1, j1, v) := ApplyOne(w, j, ops[0]);
      if v.Success? {
        var id :| w1.os == w.os + {CreatedEntry(ops[0].resource, id)};
        VacantRest(w.os, ops, id);
        ApplyAllIff(cfg, w1, j1, ops[1..]);
        FineSplit(w.tape, 5, 5 * |ops[1..]| + 1);
      }
      assert Fine(w.tape, 5 * |ops| + 1) ==> Fine(w.tape, 5);
      hide ApplyOne, Fine, Vacant, Apart, CreatedEntry, Rollback;
    }
  }

  /** The activation proper: the wait for the adapter, the empty journal, the operations and the last check. */
  lemma ActivateProperIff(cfg: Config, w: World, plan: Plan, adapter: Adapter)
    requires plan.sessionId != ""
    requires Apart(Operations(cfg, plan, adapter)) && Vacant(w.os, Operations(cfg, plan, adapter))
    ensures Activate(cfg, w, plan, adapter, false).1.Success? <==> Fine(w.tape, 5 * |Operations(cfg, plan, adapter)| + 3)
  {
    var ops := Operations(cfg, plan, adapter);
    var j := Journal(2, plan.adapterName, plan.sessionId, []);
    var (w1, v1) := Ask(w);
    var (w2, v2) := Write(w1, j);
    assert KnownKinds(ops);
    hide Operations;
    assert v1.Success? && v2.Success? <==> Fine(w.tape, 2);
    assert Fine(w.tape, 5 * |ops| + 3) ==> Fine(w.tape, 2);
    if v1.Success? && v2.Success? {
      assert w2.tape == w.tape[2..];
      ApplyAllIff(cfg, w2, j, ops);
      FineSplit(w.tape, 2, 5 * |ops| + 1);
    }
    hide ApplyAll;
  }

  lemma RecoverFirst(cfg: Config, w: World, plan: Plan, adapter: Adapter)
    requires plan.sessionId != ""
    ensures Activate(cfg, w, plan, adapter, true).1.Success? <==>
            Recover(cfg, w).1.Success? && Activate(cfg, Recover(cfg, w).0, plan, adapter, false).1.Success?
  {
    hide Recover, ApplyAll;
  }

  /** The effects of an activation that finds no journal: the sweep needs one more if there are orphans. */
  function ActivationEffects(cfg: Config, os0: set<Entry>, plan: Plan, adapter: Adapter): nat {
    5 * |Operations(cfg, plan, adapter)| + if exists e :: e in os0 && Orphan(e) then 6 else 5
  }

  /**
   On vacant, separate places and with no rule of a foreign identity, an activation succeeds if
   and only if each of its effects does: no failure on the way is swallowed, that of the final
   control-plane check included.
   */
  lemma ActivationSucceedsIff(cfg: Config, os0: set<Entry>, plan: Plan, adapter: Adapter, tape: seq<Event>)
    requires plan.sessionId != "" && forall e :: e in os0 ==> !Suspicious(e)
    requires Apart(Operations(cfg, plan, adapter)) && Vacant(os0, Operations(cfg, plan, adapter))
    ensures Activate(cfg, World(os0, None, tape), plan, adapter, true).1.Success? <==>
            Fine(tape, ActivationEffects(cfg, os0, plan, adapter))
  {
    var ops := Operations(cfg, plan, adapter);
    var start := World(os0, None, tape);
    var (w1, v1) := Recover(cfg, start);
    var sweep := if exists e :: e in os0 && Orphan(e) then 3 else 2;
    assert Orphans(os0) == {} <==> sweep == 2 by {
      if e :| e in os0 && Orphan(e) { assert e in Orphans(os0); }
    }
    assert v1.Success? <==> Fine(tape, sweep);
    assert v1.Success? ==> w1.tape == tape[sweep..] && w1.os <= os0;
    RecoverFirst(cfg, start, plan, adapter);
    hide Recover, Operations, Activate;
    assert Fine(tape, sweep + (5 * |ops| + 3)) ==> Fine(tape, sweep);
    if v1.Success? {
      ActivateProperIff(cfg, w1, plan, adapter);
      FineSplit(tape, sweep, 5 * |ops| + 3);
    }
  }

  // ---- A single failure ----

  /** Of the events exactly the one at position p fails. */
  ghost predicate OneFailure(tape: seq<Event>, p: nat) {
    && p < |tape| && tape[p].verdict.Failure?
    && forall i :: 0 <= i < |tape| && i != p ==> tape[i].verdict.Success?
  }

  /** No entry stands in the scope of the undo of one of these operations. */
  ghost predicate Unscoped(base: set<Entry>, ops: seq<Op>) {
    forall i, e :: 0 <= i < |ops| && e in base ==> !UndoScope(ops[i].resource, e)
  }

  predicate AllValid(syn: Syntax, ops: seq<Op>) {
    forall i :: 0 <= i < |ops| ==> ValidResource(syn, ops[i].resource)
  }

  /** What a rollback needs to take everything back when nothing fails any more. */
  ghost predicate Undoable(cfg: Config, w: World, base: set<Entry>, j: Journal) {
    ValidRecovery(cfg.syn, j) && Safe(cfg, w, base) && Covered(w.os, base, j.actions) && NoBystander(base, j.actions)
  }

  lemma FailRestores(cfg: Config, w: World, base: set<Entry>, j: Journal)
    requires Undoable(cfg, w, base, j) && Calm(w.tape, 2 * |j.actions| + 1)
    ensures var (w1, v) := Fail(cfg, w, j); v.Failure? && w1.os == base && w1.disk == None
  {
    RollbackLoopCalm(w, base, j, |j.actions|, false);
    RollbackLoopSafe(cfg, w, base, j, |j.actions|, false);
    hide RollbackLoop, Covered, NoBystander, Safe;
  }

  lemma OneFailureLater(tape: seq<Event>, p: nat, n: nat)
    requires OneFailure(tape, p) && n <= |tape|
    ensures n <= p ==> OneFailure(tape[n..], p - n)
    ensures n > p ==> Calm(tape[n..], |tape| - n)
  {
    var rest := tape[n..];
    forall i | 0 <= i < |rest| ensures i + n != p ==> rest[i].verdict.Success? {
      assert rest[i] == tape[n + i];
    }
  }

  /** The journal as it was, or with an action for this operation at its end. */
  ghost predicate AtMostListed(j: Journal, j1: Journal, op: Op) {
    || j1 == j
    || (|j1.actions| == |j.actions| + 1 && j1.actions[..|j.actions|] == j.actions
        && j1.actions[|j.actions|].resource == op.resource && j1 == j.(actions := j1.actions))
  }

  lemma ApplyOneFailsEarly(w: World, j: Journal, op: Op, p: nat)
    requires !op.resource.UnknownKind? && Inspect(w.os, op.resource) == FoundMissing
    requires OneFailure(w.tape, p) && p < 3
    ensures var (w1, j1, v) := ApplyOne(w, j, op);
            v.Failure? && w1.tape == w.tape[p + 1..] && AtMostListed(j, j1, op)
  {
    hide Inspect, CreatedEntry;
    Tails(w.tape);
    assert p == 0 || p == 1 || p == 2;
  }

  lemma ApplyOneFailsLate(w: World, j: Journal, op: Op, p: nat)
    requires !op.resource.UnknownKind? && Inspect(w.os, op.resource) == FoundMissing
    requires OneFailure(w.tape, p) && 3 <= p < 5
    ensures var (w1, j1, v) := ApplyOne(w, j, op);
            v.Failure? && w1.tape == w.tape[p + 1..] && AtMostListed(j, j1, op)
  {
    hide Inspect, CreatedEntry;
    Tails(w.tape);
    assert p == 3 || p == 4;
  }

  /** The operation fails at one of its five effects, and what is left of the tape is calm. */
  lemma ApplyOneFails(w: World, j: Journal, op: Op, p: nat)
    requires !op.resource.UnknownKind? && forall e :: e in w.os ==> !Rivals(op.resource, e)
    requires OneFailure(w.tape, p) && p < 5
    ensures var (w1, j1, v) := ApplyOne(w, j, op);
            v.Failure? && w1.tape == w.tape[p + 1..] && AtMostListed(j, j1, op)
  {
    InspectMissing(w.os, op.resource);
    if p < 3 {
      ApplyOneFailsEarly(w, j, op, p);
    } else {
      ApplyOneFailsLate(w, j, op, p);
    }
    hide ApplyOne, Inspect, OneFailure;
  }

  lemma ListedUndoable(cfg: Config, base: set<Entry>, j: Journal, j1: Journal, ops: seq<Op>)
    requires ops != [] && AllValid(cfg.syn, ops) && Unscoped(base, ops)
    requires ValidRecovery(cfg.syn, j) && NoBystander(base, j.actions)
    requires |j1.actions| == |j.actions| + 1 && j1.actions[..|j.actions|] == j.actions
    requires j1.actions[|j.actions|].resource == ops[0].resource && j1 == j.(actions := j1.actions)
    ensures ValidRecovery(cfg.syn, j1) && NoBystander(base, j1.actions)
    ensures AllValid(cfg.syn, ops[1..]) && Unscoped(base, ops[1..])
  {
    var n := |j.actions|;
    assert j1.actions == j.actions + [j1.actions[n]];
    assert ValidResource(cfg.syn, ops[0].resource);
    forall a, e | a in j1.actions && a.created && e in base ensures !UndoScope(a.resource, e) {
      assert a in j.actions || a == j1.actions[n];
      assert !UndoScope(ops[0].resource, e);
    }
    hide ValidResource, UndoScope;
  }

  /** One operation of ApplyAll, when it succeeds. */
  lemma ApplyOneGoesOn(cfg: Config, w: World, base: set<Entry>, j: Journal, ops: seq<Op>)
    requires ops != [] && KnownKinds(ops) && Apart(ops) && Vacant(w.os, ops) && Fine(w.tape, 5)
    requires w.disk == Some(j) && AllExact(w.os, j.actions) && Undoable(cfg, w, base, j)
    requires AllValid(cfg.syn, ops) && Unscoped(base, ops)
    ensures var (w1, j1, v) := ApplyOne(w, j, ops[0]);
            && v.Success? && w1.tape == w.tape[5..] && |j1.actions| == |j.actions| + 1
            && w1.disk == Some(j1) && AllExact(w1.os, j1.actions) && Undoable(cfg, w1, base, j1)
            && Apart(ops[1..]) && Vacant(w1.os, ops[1..]) && AllValid(cfg.syn, ops[1..]) && Unscoped(base, ops[1..])
  {
    assert forall e :: e in w.os ==> !Rivals(ops[0].resource, e);
    ApplyOneIff(w, j, ops[0]);
    ApplyOneSafe(cfg, w, base, j, ops[0]);
    var (w1, j1, v) := ApplyOne(w, j, ops[0]);
    hide ApplyOne, AllExact, Covered, Safe, NoBystander, ValidRecovery, AllValid, Unscoped;
    assert j1.actions[..|j.actions|] == j.actions;
    ListedUndoable(cfg, base, j, j1, ops);
    var id :| w1.os == w.os + {CreatedEntry(ops[0].resource, id)};
    VacantRest(w.os, ops, id);
  }

  /** One operation of ApplyAll, when it fails. */
  lemma ApplyOneGivesUp(cfg: Config, w: World, base: set<Entry>, j: Journal, ops: seq<Op>, p: nat)
    requires ops != [] && KnownKinds(ops) && Vacant(w.os, ops) && OneFailure(w.tape, p) && p < 5
    requires w.disk == Some(j) && AllExact(w.os, j.actions) && Undoable(cfg, w, base, j)
    requires AllValid(cfg.syn, ops) && Unscoped(base, ops)
    requires |w.tape| >= p + 2 * |j.actions| + 4
    ensures var (w1, v) := ApplyAll(cfg, w, j, ops); v.Failure? && w1.os == base && w1.disk == None
  {
    assert forall e :: e in w.os ==> !Rivals(ops[0].resource, e);
    ApplyOneFails(w, j, ops[0], p);
    ApplyOneSafe(cfg, w, base, j, ops[0]);
    var (w1, j1, v) := ApplyOne(w, j, ops[0]);
    OneFailureLater(w.tape, p, p + 1);
    hide ApplyOne, AllExact, Covered, Safe, NoBystander, ValidRecovery, AllValid, Unscoped, Fail, OneFailure;
    if j1 != j {
      ListedUndoable(cfg, base, j, j1, ops);
    }
    FailRestores(cfg, w1, base, j1);
  }

  lemma {:induction false} ApplyAllRestores(cfg: Config, w: World, base: set<Entry>, j: Journal, ops: seq<Op>, p: nat)
    requires KnownKinds(ops) && Apart(ops) && Vacant(w.os, ops)
    requires w.disk == Some(j) && AllExact(w.os, j.actions) && Undoable(cfg, w, base, j)
    requires AllValid(cfg.syn, ops) && Unscoped(base, ops)
    requires OneFailure(w.tape, p) && p < 5 * |ops| + 1 && |w.tape| >= p + 2 * (|j.actions| + |ops|) + 2
    ensures var (w1, v) := ApplyAll(cfg, w, j, ops); v.Failure? && w1.os == base && w1.disk == None
    decreases |ops|
  {
    hide AllExact, Vacant, Apart, AllValid, Unscoped, Undoable;
    if ops == [] {
      var w1 := Ask(w).0;
      OneFailureLater(w.tape, p, 1);
      StillUndoable(cfg, w, base, j, w1);
      FailRestores(cfg, w1, base, j);
    } else if p < 5 {
      ApplyOneGivesUp(cfg, w, base, j, ops, p);
    } else {
      assert Fine(w.tape, 5);
      ApplyOneGoesOn(cfg, w, base, j, ops);
      var (w1, j1, v) := ApplyOne(w, j, ops[0]);
      OneFailureLater(w.tape, p, 5);
      hide ApplyOne, OneFailure, Fine;
      ApplyAllRestores(cfg, w1, base, j1, ops[1..], p - 5);
    }
  }

  lemma StillUndoable(cfg: Config, w: World, base: set<Entry>, j: Journal, w1: World)
    requires Undoable(cfg, w, base, j) && w1.os == w.os && w1.disk == w.disk
    ensures Undoable(cfg, w1, base, j)
  {
  }

  /** On vacant places only the NRPT tag can put a foreign entry into the scope of an undo. */
  lemma VacantUnscoped(cfg: Config, os0: set<Entry>, plan: Plan, adapter: Adapter)
    requires Vacant(os0, Operations(cfg, plan, adapter)) && !TagTaken(os0, plan.sessionId)
    ensures Unscoped(os0, Operations(cfg, plan, adapter))
  {
    var ops := Operations(cfg, plan, adapter);
    var n := |plan.endpoints| + 2;
    assert ops[n] == Op(NRPT_NAME, Nrpt(NRPT_ROOT, NRPT_TAG + plan.sessionId, cfg.dns));
    forall i, e | 0 <= i < |ops| && e in os0 ensures !UndoScope(ops[i].resource, e) {
      assert !Rivals(ops[i].resource, e) && !Rivals(ops[n].resource, e);
    }
  }

  lemma RecoverableIsValid(cfg: Config, plan: Plan, adapter: Adapter)
    requires PlanRecoverable(cfg, plan, adapter)
    ensures AllValid(cfg.syn, Operations(cfg, plan, adapter))
    ensures ValidRecovery(cfg.syn, Journal(2, plan.adapterName, plan.sessionId, []))
  {
    var ops := Operations(cfg, plan, adapter);
    var actions := seq(|ops|, i requires 0 <= i < |ops| => Action(ops[i].name, Applied, ops[i].resource, true));
    var j := Journal(2, plan.adapterName, plan.sessionId, actions);
    assert forall i :: 0 <= i < |ops| ==> j.actions[0 + i].resource == ops[i].resource;
    PlanRecoverableIff(cfg, plan, adapter, j);
    hide PlanRecoverable, Operations, ValidResource;
    forall i | 0 <= i < |ops| ensures ValidResource(cfg.syn, ops[i].resource) {
      assert ValidResource(cfg.syn, j.actions[i].resource);
    }
  }

  /** The four effects before the operations: read, sweep, wait for the adapter, write an empty journal. */
  lemma FirstFour(cfg: Config, os0: set<Entry>, plan: Plan, adapter: Adapter, tape: seq<Event>)
    requires plan.sessionId != "" && (forall e :: e in os0 ==> !NavoNamed(e)) && Fine(tape, 4)
    ensures var j := Journal(2, plan.adapterName, plan.sessionId, []);
            Activate(cfg, World(os0, None, tape), plan, adapter, true) ==
            ApplyAll(cfg, World(os0, Some(j), tape[4..]), j, Operations(cfg, plan, adapter))
  {
    assert Orphans(os0) == {};
    assert tape[1..][1..][1..][1..] == tape[4..];
    hide ApplyAll, Operations;
  }

  lemma FirstFourFail(cfg: Config, os0: set<Entry>, plan: Plan, adapter: Adapter, tape: seq<Event>, p: nat)
    requires plan.sessionId != "" && (forall e :: e in os0 ==> !NavoNamed(e)) && OneFailure(tape, p) && p < 4
    ensures var (w, v) := Activate(cfg, World(os0, None, tape), plan, adapter, true);
            && v.Failure? && w.os == os0
            && (w.disk == None || (p == 3 && w.disk == Some(Journal(2, plan.adapterName, plan.sessionId, []))))
  {
    assert Orphans(os0) == {};
    Tails(tape);
    assert p == 0 || p == 1 || p == 2 || p == 3;
    hide ApplyAll, Operations, NavoNamed, Suspicious;
  }

  /**
   A single failure, wherever it falls among the effects of an activation, makes the activation
   fail, and is undone: the system is as it was found, and no journal is left unless the very
   first write failed and took effect nevertheless. Position 5n + 4 is the control-plane check.
   */
  lemma SingleFailureIsUndone(cfg: Config, os0: set<Entry>, plan: Plan, adapter: Adapter, tape: seq<Event>, p: nat)
    requires forall e :: e in os0 ==> !NavoNamed(e)
    requires Apart(Operations(cfg, plan, adapter)) && Vacant(os0, Operations(cfg, plan, adapter))
    requires PlanRecoverable(cfg, plan, adapter) && !TagTaken(os0, plan.sessionId)
    requires OneFailure(tape, p) && p < 5 * |Operations(cfg, plan, adapter)| + 5
    requires |tape| >= p + 2 * |Operations(cfg, plan, adapter)| + 2
    ensures var (w, v) := Activate(cfg, World(os0, None, tape), plan, adapter, true);
            && v.Failure? && w.os == os0
            && (w.disk == None || (p == 3 && w.disk == Some(Journal(2, plan.adapterName, plan.sessionId, []))))
  {
    var ops := Operations(cfg, plan, adapter);
    var start := World(os0, None, tape);
    var j := Journal(2, plan.adapterName, plan.sessionId, []);
    assert plan.sessionId != "";
    assert Orphans(os0) == {};
    VacantUnscoped(cfg, os0, plan, adapter);
    RecoverableIsValid(cfg, plan, adapter);
    hide Operations, PlanRecoverable, TagTaken, Vacant, Apart, AllValid, Unscoped, Orphans, NavoNamed;
    if p >= 4 {
      var w3 := World(os0, Some(j), tape[4..]);
      OneFailureLater(tape, p, 4);
      assert Undoable(cfg, w3, os0, j);
      ApplyAllRestores(cfg, w3, os0, j, ops, p - 4);
      FirstFour(cfg, os0, plan, adapter, tape);
    } else {
      FirstFourFail(cfg, os0, plan, adapter, tape, p);
    }
  }

  // ---- Recovery ----

  /** One effect for each created action, a write between two actions, and the removal of the journal. */
  function RollbackEffects(actions: seq<Action>): nat {
    if actions == [] then 1
    else
      var n := |actions| - 1;
      (if actions[n].created then 1 else 0) + (if n > 0 then 1 else 0) + RollbackEffects(actions[..n])
  }

  lemma {:induction false} FailedNeverSucceeds(w: World, j: Journal, n: nat)
    requires n <= |j.actions|
    ensures !RollbackLoop(w, j, n, true).verdict.Success?
    decreases n
  {
    if n > 0 {
      var a := j.actions[n - 1];
      var (w1, v) := if a.created then Undo(w, a.resource) else (w, Success);
      var j1 := j.(actions := Without(j.actions, n - 1));
      hide Undo;
      if v.Failure? {
        FailedNeverSucceeds(w1, j, n - 1);
      } else if v.Success? {
        FailedNeverSucceeds(w1, j1, n - 1);
        FailedNeverSucceeds(Write(w1, j1).0, j1, n - 1);
      }
    }
  }

  /** The undo of a journalled action succeeds if its command does and nothing foreign is in its scope. */
  lemma UndoIff(w: World, base: set<Entry>, actions: seq<Action>, a: Action)
    requires Covered(w.os, base, actions) && a in actions && a.created && !a.resource.UnknownKind?
    ensures var (w1, v) := Undo(w, a.resource);
            && (v.Success? <==> Fine(w.tape, 1) && forall e :: e in base ==> !UndoScope(a.resource, e))
            && (v.Success? ==> w1.tape == w.tape[1..])
            && base <= w1.os <= w.os && (v.Success? ==> forall e :: e in w1.os ==> !Owned(a, e))
  {
    assert Private(w.os, base, a.resource);
    ScopedIsMatched(w.os, base, actions, a);
    UndoRefuses(w.os, base, a.resource);
    UndoStaysOutsideBase(w, base, actions, a);
    CoveredContainsBase(w.os, base, actions);
    hide UndoTargets, UndoScope, Covered, Private;
  }

  /** The last action undone and dropped, and the journal without it written. */
  lemma RoundIff(w: World, base: set<Entry>, j: Journal) returns (w1: World, j1: Journal, fine: bool)
    requires j.actions != [] && Covered(w.os, base, j.actions)
    requires forall a :: a in j.actions ==> !a.resource.UnknownKind?
    ensures var n := |j.actions| - 1;
            var a := j.actions[n];
            var k := (if a.created then 1 else 0) + if n > 0 then 1 else 0;
            && j1 == j.(actions := j.actions[..n]) && Covered(w1.os, base, j1.actions)
            && (fine <==> Fine(w.tape, k) && (a.created ==> forall e :: e in base ==> !UndoScope(a.resource, e)))
            && (fine ==> w1.tape == w.tape[k..]
                         && RollbackLoop(w, j, n + 1, false) == RollbackLoop(w1, j1, n, false))
            && (!fine ==> !RollbackLoop(w, j, n + 1, false).verdict.Success?)
  {
    var n := |j.actions| - 1;
    var a := j.actions[n];
    j1 := j.(actions := Without(j.actions, n));
    assert j1.actions == j.actions[..n];
    if a.created {
      UndoIff(w, base, j.actions, a);
    } else {
      assert forall e :: e in w.os ==> !Owned(a, e);
    }
    CoveredContainsBase(w.os, base, j.actions);
    hide Undo, Covered, Owned, UndoScope;
    var (w', v) := if a.created then Undo(w, a.resource) else (w, Success);
    CoveredShrinks(w.os, base, j.actions, w'.os);
    if v.Success? {
      DropCovered(w'.os, base, j.actions, n);
      var (w2, v2) := if n == 0 then (w', Success) else Write(w', j1);
      w1 := w2;
      fine := v2.Success?;
    } else {
      FailedNeverSucceeds(w', j, n);
      w1 := w.(os := base);
      RoundBase(base, w.os, j.actions, n);
      fine := false;
    }
  }

  lemma RoundBase(base: set<Entry>, os: set<Entry>, actions: seq<Action>, n: nat)
    requires Covered(os, base, actions) && n <= |actions|
    ensures Covered(base, base, actions[..n])
  {
  }

  lemma {:induction false} RollbackIff(w: World, base: set<Entry>, j: Journal)
    requires Covered(w.os, base, j.actions)
    requires forall a :: a in j.actions ==> !a.resource.UnknownKind?
    ensures var r := RollbackLoop(w, j, |j.actions|, false);
            var k := RollbackEffects(j.actions);
            && (r.verdict.Success? <==> NoBystander(base, j.actions) && Fine(w.tape, k))
            && (r.verdict.Success? ==> r.world.tape == w.tape[k..])
    decreases |j.actions|
  {
    hide RollbackLoop, Covered, NoBystander, UndoScope;
    if j.actions == [] {
      NothingToUndo(w, base, j);
    } else {
      var n := |j.actions| - 1;
      var w1, j1, fine := RoundIff(w, base, j);
      BystanderSplit(base, j.actions, n);
      assert Without(j.actions, n) == j.actions[..n];
      var k := (if j.actions[n].created then 1 else 0) + if n > 0 then 1 else 0;
      var rest := RollbackEffects(j1.actions);
      assert RollbackEffects(j.actions) == k + rest;
      assert Fine(w.tape, k + rest) ==> Fine(w.tape, k);
      hide RollbackEffects, Fine, Without;
      if fine {
        RollbackIff(w1, base, j1);
        FineSplit(w.tape, k, rest);
      }
    }
  }

  lemma NothingToUndo(w: World, base: set<Entry>, j: Journal)
    requires j.actions == []
    ensures var r := RollbackLoop(w, j, 0, false);
            && (r.verdict.Success? <==> NoBystander(base, j.actions) && Fine(w.tape, 1))
            && (r.verdict.Success? ==> r.world.tape == w.tape[1..])
  {
  }

  /** The effects of a recovery that runs through: read, migrate, roll back, look for orphans, delete them. */
  function RecoveryEffects(cfg: Config, disk: Option<Journal>, base: set<Entry>): nat {
    (match disk
     case None => 1
     case Some(j) => (if j.version == 1 then 2 else 1) + RollbackEffects(Recorded(cfg, disk)))
    + if exists e :: e in base && Orphan(e) then 2 else 1
  }

  lemma SweepIff(w: World)
    ensures var n := if exists e :: e in w.os && Orphan(e) then 2 else 1;
            Sweep(w).1.Success? <==> (forall e :: e in w.os ==> !Suspicious(e)) && Fine(w.tape, n)
  {
    if e :| e in w.os && Orphan(e) {
      assert e in Orphans(w.os);
    }
    hide Suspicious;
  }

  lemma RollbackSweepIff(cfg: Config, w: World, base: set<Entry>, j: Journal)
    requires j.version == 2 && Covered(w.os, base, j.actions) && Safe(cfg, w, base)
    ensures var r := Rollback(cfg, w, j);
            var n := if exists e :: e in base && Orphan(e) then 2 else 1;
            r.verdict.Success? && Sweep(r.world).1.Success? <==>
            && ValidRecovery(cfg.syn, j) && NoBystander(base, j.actions)
            && (forall e :: e in base ==> !Suspicious(e))
            && Fine(w.tape, RollbackEffects(j.actions) + n)
  {
    var n := if exists e :: e in base && Orphan(e) then 2 else 1;
    if ValidRecovery(cfg.syn, j) {
      RollbackIff(w, base, j);
      RollbackSafe(cfg, w, base, j);
      var r := Rollback(cfg, w, j);
      hide RollbackLoop, Covered, NoBystander, Safe, ValidRecovery, Suspicious, Orphan;
      if r.verdict.Success? {
        SweepIff(r.world);
        FineSplit(w.tape, RollbackEffects(j.actions), n);
      }
      assert Fine(w.tape, RollbackEffects(j.actions) + n) ==> Fine(w.tape, RollbackEffects(j.actions));
    }
  }

  /**
   From every state that coverage holds in, on every tape: recovery succeeds if and only if the
   journal passes the gate, nothing foreign stands in its way, and each of its effects succeeds.
   */
  lemma RecoveryExactIff(cfg: Config, w: World, base: set<Entry>)
    requires Safe(cfg, w, base)
    ensures Recover(cfg, w).1.Success? <==>
            && Gated(cfg, w.disk)
            && NoBystander(base, Recorded(cfg, w.disk))
            && (forall e :: e in base ==> !Suspicious(e))
            && Fine(w.tape, RecoveryEffects(cfg, w.disk, base))
  {
    match w.disk
    case None => NoJournalExactIff(cfg, w, base);
    case Some(j) =>
      if j.version == 1 {
        OldJournalExactIff(cfg, w, base, j);
      } else {
        JournalExactIff(cfg, w, base, j);
      }
  }

  lemma NoJournalExactIff(cfg: Config, w: World, base: set<Entry>)
    requires Safe(cfg, w, base) && w.disk == None
    ensures Recover(cfg, w).1.Success? <==>
            (forall e :: e in base ==> !Suspicious(e)) && Fine(w.tape, RecoveryEffects(cfg, w.disk, base))
    ensures NoBystander(base, Recorded(cfg, w.disk)) && w.os == base
  {
    ReadIff(w, RecoveryEffects(cfg, w.disk, base));
    SweepIff(Ask(w).0);
    hide Sweep, Suspicious, Orphan, Fine;
  }

  lemma JournalExactIff(cfg: Config, w: World, base: set<Entry>, j: Journal)
    requires Safe(cfg, w, base) && w.disk == Some(j) && j.version == 2
    ensures Recover(cfg, w).1.Success? <==>
            && ValidRecovery(cfg.syn, j) && NoBystander(base, j.actions)
            && (forall e :: e in base ==> !Suspicious(e))
            && Fine(w.tape, RecoveryEffects(cfg, w.disk, base))
  {
    ReadIff(w, RecoveryEffects(cfg, w.disk, base));
    RollbackSweepIff(cfg, Ask(w).0, base, j);
    hide Rollback, Sweep, Covered, NoBystander, ValidRecovery, Suspicious, Orphan, RollbackEffects, Fine;
  }

  lemma OldJournalExactIff(cfg: Config, w: World, base: set<Entry>, j: Journal)
    requires Safe(cfg, w, base) && w.disk == Some(j) && j.version == 1
    ensures var m := MigrateV1(j, cfg.peer, cfg.dns).value;
            Recover(cfg, w).1.Success? <==>
            && ValidRecovery(cfg.syn, m) && NoBystander(base, m.actions)
            && (forall e :: e in base ==> !Suspicious(e))
            && Fine(w.tape, RecoveryEffects(cfg, w.disk, base))
  {
    MigratedIsSafe(cfg, w, base, j);
    assert Safe(cfg, Ask(w).0, base) && Ask(w).0.disk == w.disk;
    hide *;
    ReadIff(w, RecoveryEffects(cfg, w.disk, base));
    LegacyIs(cfg, w, j);
    LegacyExactIff(cfg, Ask(w).0, base, j);
    LegacyEffects(cfg, base, j);
  }

  lemma LegacyEffects(cfg: Config, base: set<Entry>, j: Journal)
    requires j.version == 1 && Migratable(j, cfg.peer, cfg.dns)
    ensures var n := if exists e :: e in base && Orphan(e) then 2 else 1;
            RecoveryEffects(cfg, Some(j), base) - 1 ==
            1 + RollbackEffects(MigrateV1(j, cfg.peer, cfg.dns).value.actions) + n
  {
  }

  /** The path of a version 1 journal through recovery. */
  lemma LegacyIs(cfg: Config, w: World, j: Journal)
    requires w.disk == Some(j) && j.version == 1 && Migratable(j, cfg.peer, cfg.dns)
    ensures var m := MigrateV1(j, cfg.peer, cfg.dns).value;
            var (w1, v1) := Write(Ask(w).0, m);
            var r := Rollback(cfg, w1, m);
            Recover(cfg, w).1.Success? <==>
            Ask(w).1.Success? && v1.Success? && r.verdict.Success? && Sweep(r.world).1.Success?
  {
    hide Rollback, Sweep;
  }

  /** The journal is read first. */
  lemma ReadIff(w: World, n: nat)
    requires n >= 1
    ensures Ask(w).1.Success? <==> Fine(w.tape, 1)
    ensures Fine(w.tape, n) <==> Fine(w.tape, 1) && Fine(Ask(w).0.tape, n - 1)
  {
    if w.tape != [] {
      FineSplit(w.tape, 1, n - 1);
    }
  }

  lemma MigratedIsSafe(cfg: Config, w: World, base: set<Entry>, j: Journal)
    requires w.disk == Some(j) && j.version == 1 && Safe(cfg, w, base)
    ensures Migratable(j, cfg.peer, cfg.dns)
    ensures var m := MigrateV1(j, cfg.peer, cfg.dns).value;
            var (w1, v1) := Write(w, m);
            m.version == 2 && Covered(w.os, base, m.actions) && w1.os == w.os && (v1.Success? ==> Safe(cfg, w1, base))
  {
    hide Covered;
  }

  lemma WriteIff(w: World, j: Journal, n: nat)
    requires n >= 1
    ensures Write(w, j).1.Success? <==> Fine(w.tape, 1)
    ensures Fine(w.tape, n) <==> Fine(w.tape, 1) && Fine(Write(w, j).0.tape, n - 1)
  {
    if w.tape != [] {
      FineSplit(w.tape, 1, n - 1);
    }
  }

  /** The journal has been read: it is migrated, written, and rolled back. */
  lemma LegacyExactIff(cfg: Config, w: World, base: set<Entry>, j: Journal)
    requires w.disk == Some(j) && j.version == 1 && Safe(cfg, w, base) && Migratable(j, cfg.peer, cfg.dns)
    ensures var m := MigrateV1(j, cfg.peer, cfg.dns).value;
            var (w1, v1) := Write(w, m);
            var r := Rollback(cfg, w1, m);
            var n := if exists e :: e in base && Orphan(e) then 2 else 1;
            v1.Success? && r.verdict.Success? && Sweep(r.world).1.Success? <==>
            && ValidRecovery(cfg.syn, m) && NoBystander(base, m.actions)
            && (forall e :: e in base ==> !Suspicious(e))
            && Fine(w.tape, 1 + RollbackEffects(m.actions) + n)
  {
    var m := MigrateV1(j, cfg.peer, cfg.dns).value;
    var (w1, v1) := Write(w, m);
    var n := if exists e :: e in base && Orphan(e) then 2 else 1;
    MigratedIsSafe(cfg, w, base, j);
    hide Write, Rollback, Sweep, Safe, Covered, NoBystander, ValidRecovery, Suspicious, Orphan, RollbackEffects, MigrateV1,
         Migratable, Fine;
    WriteIff(w, m, 1 + RollbackEffects(m.actions) + n);
    if v1.Success? {
      RollbackSweepIff(cfg, w1, base, m);
    }
  }

  /**
   A Rebind succeeds if and only if every effect of the recovery does, on the conditions of recovery, and
   every effect of the activation that follows.
   */
  lemma RebindSucceedsIff(cfg: Config, w: World, base: set<Entry>, plan: Plan, adapter: Adapter)
    requires Safe(cfg, w, base) && plan.sessionId != ""
    requires Apart(Operations(cfg, plan, adapter)) && Vacant(Swept(base), Operations(cfg, plan, adapter))
    ensures var n := RecoveryEffects(cfg, w.disk, base);
            Rebind(cfg, w, plan, adapter).1.Success? <==>
            && Gated(cfg, w.disk) && NoBystander(base, Recorded(cfg, w.disk))
            && (forall e :: e in base ==> !Suspicious(e))
            && Fine(w.tape, n + 5 * |Operations(cfg, plan, adapter)| + 3)
  {
    var n := RecoveryEffects(cfg, w.disk, base);
    var ops := Operations(cfg, plan, adapter);
    RecoveryExactIff(cfg, w, base);
    RecoveryTakes(cfg, w, base);
    var base' := RecoverSafe(cfg, w, base);
    var (w1, v1) := Recover(cfg, w);
    hide Recover, Operations, RecoveryEffects, Safe, Activate, Vacant, Apart, NoBystander;
    assert Fine(w.tape, n + 5 * |ops| + 3) ==> Fine(w.tape, n);
    if v1.Success? {
      ActivateProperIff(cfg, w1, plan, adapter);
      FineSplit(w.tape, n, 5 * |ops| + 3);
    }
  }

  lemma SweepTakes(w: World)
    ensures var n := if exists e :: e in w.os && Orphan(e) then 2 else 1;
            Sweep(w).1.Success? ==> n <= |w.tape| && Sweep(w).0.tape == w.tape[n..]
  {
    if e :| e in w.os && Orphan(e) {
      assert e in Orphans(w.os);
    }
    hide Suspicious;
  }

  /** A rollback and a sweep that succeed have consumed exactly their effects. */
  lemma RollbackSweepTakes(cfg: Config, w: World, base: set<Entry>, j: Journal)
    requires j.version == 2 && Covered(w.os, base, j.actions) && Safe(cfg, w, base) && ValidRecovery(cfg.syn, j)
    ensures var r := Rollback(cfg, w, j);
            var n := RollbackEffects(j.actions) + if exists e :: e in base && Orphan(e) then 2 else 1;
            r.verdict.Success? && Sweep(r.world).1.Success? ==> n <= |w.tape| && Sweep(r.world).0.tape == w.tape[n..]
  {
    RollbackIff(w, base, j);
    RollbackSafe(cfg, w, base, j);
    var r := Rollback(cfg, w, j);
    hide RollbackLoop, Covered, NoBystander, Safe, ValidRecovery, Orphan, Sweep, RollbackEffects;
    SweepTakes(r.world);
  }

  lemma RecoveryTakes(cfg: Config, w: World, base: set<Entry>)
    requires Safe(cfg, w, base)
    ensures var n := RecoveryEffects(cfg, w.disk, base);
            Recover(cfg, w).1.Success? ==> n <= |w.tape| && Recover(cfg, w).0.tape == w.tape[n..]
  {
    if Recover(cfg, w).1.Success? {
      RecoveryExactIff(cfg, w, base);
      var w1 := Ask(w).0;
      if w.disk.None? {
        SweepTakes(w1);
      } else if w.disk.value.version == 1 {
        var m := MigrateV1(w.disk.value, cfg.peer, cfg.dns).value;
        MigratedIsSafe(cfg, w1, base, w.disk.value);
        RollbackSweepTakes(cfg, Write(w1, m).0, base, m);
      } else {
        RollbackSweepTakes(cfg, w1, base, w.disk.value);
      }
    }
    hide Rollback, Sweep, Covered, NoBystander, ValidRecovery, Suspicious, Orphan, RollbackEffects, MigrateV1, Migratable;
  }
}
