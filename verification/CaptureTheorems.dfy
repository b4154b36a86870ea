/** What a capture transition, a core switch and whole runs of them leave behind. */
module CaptureTheorems {
  import opened Common
  import opened CaptureTransition

  /** The physical state agrees with a settled snapshot of mode m. */
  ghost predicate Settled(w: World, m: Mode) {
    && AlreadyThere(w.snapshot, m)
    && w.proxy == (m == SystemProxy)
    && w.service == m
    && w.journal == None
  }

  /** A snapshot that claims a settled mode tells the truth. */
  ghost predicate Truthful(w: World) {
    w.snapshot.life.Running? ==> Settled(w, w.snapshot.life.mode)
  }

  ghost predicate TornDown(w: World) {
    !w.proxy && w.service == Off && w.journal == None
  }

  /** The entries that `w1` added to the log of `w` all name this core, and it is still active. */
  ghost predicate OnCore(w: World, w1: World) {
    && w1.core == w.core
    && w.log <= w1.log
    && forall i :: |w.log| <= i < |w1.log| ==> w1.log[i].core == w.core
  }

  lemma OnCoreTransitive(a: World, b: World, c: World)
    requires OnCore(a, b) && OnCore(b, c)
    ensures OnCore(a, c)
  {
  }

  // ---- Tear-down, recovery, abort ----

  lemma TearDownOutcome(w: World)
    ensures var (w1, v) := TearDown(w);
            && w1.snapshot == w.snapshot && w1.log == w.log && w1.core == w.core
            && (v.Success? ==> TornDown(w1))
            && (v.Failure? ==> w1.journal == w.journal)
  {
  }

  /** Recovery ends settled off, or faulted with mode off committed. */
  lemma RecoverOutcome(w: World)
    ensures var (w1, v) := Recover(w);
            && w1.log == w.log && w1.core == w.core
            && (v.Success? ==> Settled(w1, Off))
            && (v.Failure? ==> w1.snapshot.life == Faulted && w1.snapshot.committed == Off && w1.snapshot.faulted)
  {
    var (w1, v1) := Ask(w.(snapshot := Snapshot(Recovering, Off, Off, false, false)));
    var known := v1.Success? && w1.journal.Some?;
    var w2 := if known && !w1.journal.value.committed
              then w1.(snapshot := Snapshot(Recovering, w1.journal.value.to, Off, false, false)) else w1;
    TearDownOutcome(w2);
    hide TearDown;
  }

  /**
   A failed transition ends faulted, and its journal tells how: gone after a complete tear-down,
   with mode off on record; else still there, with the old mode on record.
   */
  ghost predicate FailedSafe(w1: World, target: Mode, from: Mode) {
    && w1.snapshot.life == Faulted && w1.snapshot.desired == target && w1.snapshot.faulted
    && if w1.journal.None? then w1.snapshot.committed == Off && TornDown(w1) else w1.snapshot.committed == from
  }

  /** The world in which the failure path starts its tear-down. */
  function RollbackSaved(w: World, j: Journal): World {
    Save(w.(snapshot := w.snapshot.(life := Recovering, failed := true)), j.(step := RollingBack)).0
  }

  /** Mode off is committed exactly if the tear-down succeeded, else the old mode stays on record. */
  lemma AbortOutcome(w: World, target: Mode, j: Journal)
    ensures var (w1, v) := Abort(w, target, j);
            var torn := TearDown(RollbackSaved(w, j)).1.Success?;
            && !v.Success? && w1.log == w.log && w1.core == w.core
            && (v.Failure? ==>
                  && w1.snapshot == Snapshot(Faulted, target, if torn then Off else j.from, true, true)
                  && (torn ==> TornDown(w1))
                  && (w.journal.Some? ==> (torn <==> w1.journal.None?) && FailedSafe(w1, target, j.from)))
  {
    var w1 := RollbackSaved(w, j);
    TearDownOutcome(w1);
    assert w.journal.Some? ==> w1.journal.Some?;
    hide TearDown;
  }

  // ---- The transition ----

  lemma {:induction false} SetStepsOutcome(w: World, j: Journal, steps: seq<Step>)
    ensures var (w1, j1, v) := SetSteps(w, j, steps);
            && w1.snapshot == w.snapshot && w1.proxy == w.proxy && w1.service == w.service
            && w1.log == w.log && w1.core == w.core
            && j1.from == j.from && j1.to == j.to && j1.committed == j.committed
            && (w.journal.Some? ==> w1.journal.Some?)
    decreases |steps|
  {
    if steps != [] {
      var (w1, v1) := SetStep(w, j, steps[0]);
      if v1.Success? {
        SetStepsOutcome(w1, j.(step := steps[0]), steps[1..]);
      }
    }
  }

  /** The two effects in the middle of a transition. */
  lemma SwitchedOver(w: World, target: Mode)
    ensures var (w1, v1) := Prepare(w, target);
            var (w2, v2) := SwitchProxy(w1, target == SystemProxy);
            && w1.journal == w.journal && w2.journal == w.journal
            && w1.snapshot == w.snapshot && OnCore(w, w1) && (target == Off ==> w1.log == w.log)
            && w2.snapshot == w.snapshot && OnCore(w, w2) && (target == Off ==> w2.log == w.log)
            && (v1.Success? && v2.Success? ==> w2.service == target && w2.proxy == (target == SystemProxy))
  {
  }

  lemma ApplyOutcome(w: World, target: Mode, j: Journal)
    ensures var (w1, j1, v) := Apply(w, target, j);
            && j1.from == j.from && j1.to == j.to
            && w1.snapshot == w.snapshot && OnCore(w, w1)
            && (w.journal.Some? ==> w1.journal.Some?)
            && (target == Off ==> w1.log == w.log)
            && (v.Success? ==> w1.service == target && w1.proxy == (target == SystemProxy))
  {
    SetStepsOutcome(w, j, StepsBefore(target));
    var (w1, j1, v1) := SetSteps(w, j, StepsBefore(target));
    SwitchedOver(w1, target);
    var (w2, v2) := Prepare(w1, target);
    var (w3, v3) := SwitchProxy(w2, target == SystemProxy);
    SetStepsOutcome(w3, j1, StepsAfter(target));
    hide SetSteps, Prepare, SwitchProxy;
  }

  /** After the first journal write: success is a settled target, failure is a safe fault. */
  lemma ExecuteOutcome(w: World, target: Mode, j: Journal)
    requires w.journal.Some?
    ensures var (w1, v) := Execute(w, target, j);
            && OnCore(w, w1) && (target == Off ==> w1.log == w.log)
            && (v.Success? ==> Settled(w1, target))
            && (v.Failure? ==> FailedSafe(w1, target, j.from))
  {
    ApplyOutcome(w, target, j);
    var (w1, j1, v1) := Apply(w, target, j);
    hide Apply;
    var (w2, j2, v2) := if v1.Success? then Commit(w1, j1) else (w1, j1, v1);
    assert OnCore(w, w2);
    if v2.Failure? {
      AbortOutcome(w2, target, j2);
      hide Abort;
      assert OnCore(w2, Abort(w2, target, j2).0);
      OnCoreTransitive(w, w2, Abort(w2, target, j2).0);
    }
  }

  /** A call that failed before its first journal write changed nothing but the tape. */
  ghost predicate Untouched(w: World, w1: World) {
    w1.(tape := []) == w.(tape := [])
  }

  /** After the guards of a transition, from any state. */
  lemma LaunchOutcome(w: World, target: Mode)
    ensures var (w1, v) := Launch(w, target);
            && OnCore(w, w1) && (target == Off ==> w1.log == w.log)
            && (v.Success? ==> Settled(w1, target))
            && (v.Failure? ==> Untouched(w, w1) || FailedSafe(w1, target, w.snapshot.committed))
  {
    var j := Journal(w.snapshot.committed, target, StoppingOld, false);
    var (w1, v1) := Save(w, j);
    var w2 := w1.(snapshot := Snapshot(Starting(target), target, w.snapshot.committed, false, false));
    assert OnCore(w, w1) && OnCore(w, w2) && w1.log == w.log;
    if v1.Success? {
      ExecuteOutcome(w2, target, j);
      OnCoreTransitive(w, w2, Execute(w2, target, j).0);
    }
    hide Execute, FailedSafe, Settled;
  }

  /**
   Success means the target is settled, unless the snapshot already claimed it: then it
   means so if and only if the claim was true.
   */
  lemma SuccessIsSettledIff(w: World, target: Mode, elevated: bool)
    requires Transition(w, target, elevated).1.Success?
    ensures Settled(Transition(w, target, elevated).0, target) <==>
            (!AlreadyThere(w.snapshot, target) || Settled(w, target))
  {
    var (w0, v0) := Ask(w);
    RecoverOutcome(w0);
    LaunchOutcome(Ensure(w0).0, target);
    hide Recover, Launch;
  }

  /** A transition starts with a recovery. */
  predicate Interrupted(w: World) {
    w.snapshot.life.Recovering? || w.snapshot.life.Faulted?
  }

  /** The state in which the transition proper starts, after any recovery. */
  ghost predicate EnsureDone(w: World, w1: World, v: Verdict) {
    && OnCore(w, w1) && w1.log == w.log
    && (v.Success? ==>
          if Interrupted(w) then Settled(w1, Off) else w1.(tape := []) == w.(tape := []))
    && (v.Failure? ==> Interrupted(w) && w1.snapshot.life == Faulted && w1.snapshot.committed == Off)
  }

  lemma EnsureOutcome(w: World)
    ensures EnsureDone(w, Ensure(w).0, Ensure(w).1)
  {
    RecoverOutcome(w);
    hide Recover;
  }

  /** What a failed transition leaves behind. */
  ghost predicate FailureLeaves(w: World, w1: World, target: Mode) {
    || Untouched(w, w1)
    || (Interrupted(w) && Settled(w1, Off))
    || (Interrupted(w) && w1.snapshot.life == Faulted && w1.snapshot.committed == Off)
    || (!Interrupted(w) && FailedSafe(w1, target, w.snapshot.committed))
  }

  lemma LaunchLeaves(w: World, w1: World, w2: World, target: Mode)
    requires if Interrupted(w) then Settled(w1, Off) else w1.(tape := []) == w.(tape := [])
    requires Untouched(w1, w2) || FailedSafe(w2, target, w1.snapshot.committed)
    ensures FailureLeaves(w, w2, target)
  {
  }

  lemma LeavesTruthful(w: World, w1: World, target: Mode)
    requires FailureLeaves(w, w1, target) && Truthful(w)
    ensures Truthful(w1)
  {
  }

  /**
   Every outcome of a transition that starts from a truthful snapshot. A failure leaves the
   world untouched, or leaves the settled-off result of a recovery, or ends in a fault: of
   that recovery, or of the transition itself.
   */
  lemma TransitionOutcome(w: World, target: Mode, elevated: bool)
    requires Truthful(w)
    ensures var (w1, v) := Transition(w, target, elevated);
            && OnCore(w, w1) && (target == Off ==> w1.log == w.log)
            && (v.Success? ==> Settled(w1, target))
            && (!v.Crash? ==> Truthful(w1))
            && (v.Failure? ==> FailureLeaves(w, w1, target))
  {
    if !(target == Tun && !elevated) && Ask(w).1.Success? {
      var w0 := Ask(w).0;
      AskKeeps(w);
      EnsureOutcome(w0);
      var (w1, v1) := Ensure(w0);
      hide Ensure;
      if v1.Success? && !AlreadyThere(w1.snapshot, target) {
        LaunchOutcome(w1, target);
        var (w2, v2) := Launch(w1, target);
        hide Launch;
        OnCoreTransitive(w, w1, w2);
        if v2.Failure? {
          LaunchLeaves(w, w1, w2, target);
          LeavesTruthful(w, w2, target);
        }
        hide FailedSafe, FailureLeaves;
      }
    }
  }

  /** A faulted or interrupted state is left through recovery only; if that fails, nothing is started. */
  lemma NoStartFromFault(w: World, target: Mode, elevated: bool)
    requires w.snapshot.life.Faulted? || w.snapshot.life.Recovering?
    ensures var (w1, v) := Transition(w, target, elevated);
            && (v.Success? ==> Recover(Ask(w).0).1.Success?)
            && (!Recover(Ask(w).0).1.Success? ==> w1.log == w.log && w1.core == w.core)
  {
    RecoverOutcome(Ask(w).0);
    hide Recover, Execute;
  }

  // ---- Core switch ----

  /** Reconciliation succeeds only when the expected core is active, and enables nothing. */
  lemma ReconcileOutcome(w: World, expected: string)
    ensures var (w1, v) := Reconcile(w, expected);
            && w1.(core := w.core, tape := w.tape) == w
            && (v.Success? ==> w1.core == expected)
  {
  }

  lemma RestoreOutcome(w: World, previous: string, mode: Mode, elevated: bool)
    requires Truthful(w)
    ensures var (w1, v) := Restore(w, previous, mode, elevated);
            && w.log <= w1.log
            && (forall i :: |w.log| <= i < |w1.log| ==> w1.log[i].core == previous)
            && (v.Success? ==> w1.core == previous && if mode == Off then w1.snapshot == w.snapshot else Settled(w1, mode))
            && (!v.Crash? ==> Truthful(w1))
  {
    ReconcileOutcome(w, previous);
    var (w1, v1) := Reconcile(w, previous);
    hide Reconcile;
    if v1.Success? && mode != Off {
      TransitionOutcome(w1, mode, elevated);
    }
    hide Transition;
  }

  /** The log grew by `a` entries on the target core, then only by entries on the previous core. */
  ghost predicate SwitchLog(w: World, w1: World, a: nat, target: string) {
    && w.log <= w1.log && |w.log| + a <= |w1.log|
    && (forall i :: |w.log| <= i < |w.log| + a ==> w1.log[i].core == target)
    && (forall i :: |w.log| + a <= i < |w1.log| ==> w1.log[i].core == w.core)
  }

  ghost predicate SwitchOutcome(w: World, w1: World, r: Response, target: string) {
    && w.log <= w1.log
    && (r == Selected ==>
          && w1.core == target
          && w1.snapshot.committed == w.snapshot.committed
          && (w.snapshot.committed != Off && w.core != target ==> Settled(w1, w.snapshot.committed))
          && SwitchLog(w, w1, |w1.log| - |w.log|, target))
    && (r == SwitchRefused ==>
          && w1.core == w.core
          && w1.snapshot.committed == w.snapshot.committed
          && (w.snapshot.committed != Off ==> Settled(w1, w.snapshot.committed)))
    && (r in {SwitchRefused, RollbackFailed} ==> SwitchLog(w, w1, 0, target))
    && (r in {Invalid, StatusFailed, StopFailed} ==> w1.core == w.core && w1.log == w.log)
    && (r != Died ==> Truthful(w1))
    && exists a: nat :: SwitchLog(w, w1, a, target)
  }

  /** The state in which the target core is selected: mode off, nothing enabled yet. */
  ghost predicate ReadyToSelect(w: World, w1: World) {
    && Truthful(w1) && w1.log == w.log && w1.core == w.core
    && (w.snapshot.committed == Off ==> w1.snapshot == w.snapshot)
  }

  lemma RefusedSwitch(w: World, w1: World, target: string, elevated: bool)
    requires ReadyToSelect(w, w1) && SelectCore(w1, target).1.Failure?
    ensures var (w2, _) := SelectCore(w1, target);
            var (w3, v3) := Restore(w2, w.core, w.snapshot.committed, elevated);
            SwitchOutcome(w, w3, if v3.Crash? then Died else if v3.Failure? then RollbackFailed else SwitchRefused, target)
  {
    SelectKeeps(w1, target);
    var (w2, _) := SelectCore(w1, target);
    RestoreOutcome(w2, w.core, w.snapshot.committed, elevated);
    hide Restore, SelectCore, Truthful;
    assert SwitchLog(w, Restore(w2, w.core, w.snapshot.committed, elevated).0, 0, target);
  }

  /** The previous core takes over after the target core was tried. */
  lemma LostSwitch(w: World, w3: World, a: nat, target: string, elevated: bool)
    requires Truthful(w3) && SwitchLog(w, w3, a, target) && a == |w3.log| - |w.log|
    ensures var (w4, v4) := Restore(w3, w.core, w.snapshot.committed, elevated);
            SwitchOutcome(w, w4, if v4.Crash? then Died else VerifyFailed, target)
  {
    RestoreOutcome(w3, w.core, w.snapshot.committed, elevated);
    hide Restore, Truthful, Settled;
    assert SwitchLog(w, Restore(w3, w.core, w.snapshot.committed, elevated).0, a, target);
  }

  lemma ConfirmedSwitch(w: World, w1: World, target: string, elevated: bool)
    requires ReadyToSelect(w, w1) && SelectCore(w1, target).1.Success? && w.snapshot.committed != Off
    ensures var mode := w.snapshot.committed;
            var (w2, _) := SelectCore(w1, target);
            var (w3, v3) := Transition(w2, mode, elevated);
            && (!v3.Failure? ==> SwitchOutcome(w, w3, if v3.Success? then Selected else Died, target))
            && (v3.Failure? ==>
                  var (w4, v4) := Restore(w3, w.core, mode, elevated);
                  SwitchOutcome(w, w4, if v4.Crash? then Died else VerifyFailed, target))
  {
    SelectKeeps(w1, target);
    var mode := w.snapshot.committed;
    var (w2, _) := SelectCore(w1, target);
    TransitionOutcome(w2, mode, elevated);
    var (w3, v3) := Transition(w2, mode, elevated);
    hide Transition, SelectCore, FailureLeaves, AlreadyThere;
    var a: nat := |w3.log| - |w.log|;
    assert SwitchLog(w, w3, a, target);
    if v3.Failure? {
      hide Settled;
      LostSwitch(w, w3, a, target, elevated);
    }
  }

  lemma SelectFromOutcome(w: World, w1: World, target: string, elevated: bool)
    requires ReadyToSelect(w, w1)
    ensures var (w', r) := SelectFrom(w1, target, w.core, w.snapshot.committed, elevated);
            SwitchOutcome(w, w', r, target)
  {
    SelectKeeps(w1, target);
    var (w2, v2) := SelectCore(w1, target);
    hide Transition, Restore, Settled;
    if v2.Failure? {
      RefusedSwitch(w, w1, target, elevated);
    } else if v2.Success? && w.snapshot.committed != Off {
      ConfirmedSwitch(w, w1, target, elevated);
    } else {
      assert SwitchLog(w, w2, 0, target);
    }
  }

  /**
   All or safe. Selected means the target core with the previous mode. The bare switch error
   means the previous core was observed again and the previous mode is committed. Capture is
   attempted on the target core only once its selection was confirmed, and after a failure
   only on the previous core.
   */
  lemma SwitchCoreOutcome(w: World, target: string, elevated: bool)
    requires Truthful(w)
    ensures SwitchOutcome(w, SwitchCore(w, target, elevated).0, SwitchCore(w, target, elevated).1, target)
  {
    var (w', r) := SwitchCore(w, target, elevated);
    var (w0, v0) := Ask(w);
    AskKeeps(w);
    if target == "" || !v0.Success? || w0.core == "" || w0.core == target {
      assert SwitchLog(w, w', 0, target);
    } else {
      var mode := w0.snapshot.committed;
      TransitionOutcome(w0, Off, elevated);
      var (w1, v1) := if mode != Off then Transition(w0, Off, elevated) else (w0, Success);
      hide Transition, Restore, FailureLeaves;
      if !v1.Success? {
        assert SwitchLog(w, w', 0, target);
      } else {
        assert ReadyToSelect(w, w1);
        hide SwitchOutcome, Settled, SelectFrom, ReadyToSelect;
        SelectFromOutcome(w, w1, target, elevated);
      }
    }
  }

  lemma AskKeeps(w: World)
    requires Truthful(w)
    ensures Truthful(Ask(w).0) && Ask(w).0.(tape := []) == w.(tape := [])
  {
  }

  lemma SelectKeeps(w: World, core: string)
    requires Truthful(w)
    ensures var (w1, v) := SelectCore(w, core);
            && Truthful(w1) && w1.log == w.log && w1.snapshot == w.snapshot
            && (v.Success? ==> w1.core == core)
  {
  }

  // ---- The tear-down before core.select ----

  ghost predicate CaptureOff(w: World) {
    !w.proxy && w.service == Off
  }

  /** The world in which a switch sends core.select, if it gets that far. */
  function AtSelect(w: World, target: string, elevated: bool): Option<World> {
    var (w0, v0) := Ask(w);
    if target == "" || !v0.Success? || w0.core == "" || w0.core == target then None
    else if w0.snapshot.committed == Off then Some(w0)
    else
      var (w1, v1) := Transition(w0, Off, elevated);
      if v1.Success? then Some(w1) else None
  }

  lemma TearDownKeepsCore(w: World, elevated: bool)
    requires Truthful(w)
    ensures var (w1, _) := Transition(w, Off, elevated);
            w1.core == w.core && w1.log == w.log
  {
    TransitionOutcome(w, Off, elevated);
    hide Transition, FailureLeaves, Settled, Truthful;
  }

  /** There the switch goes on; otherwise it ends without having selected or enabled anything. */
  lemma SwitchGoesOn(w: World, target: string, elevated: bool)
    requires Truthful(w)
    ensures var (w', r) := SwitchCore(w, target, elevated);
            match AtSelect(w, target, elevated)
            case Some(w1) => (w', r) == SelectFrom(w1, target, w.core, w.snapshot.committed, elevated)
            case None => w'.core == w.core && w'.log == w.log && r !in {SwitchRefused, RollbackFailed, VerifyFailed}
  {
    AskKeeps(w);
    TearDownKeepsCore(Ask(w).0, elevated);
    hide Transition, SelectFrom, Truthful;
  }

  /**
   From a truthful snapshot, the core is selected with capture off if and only if the committed
   mode was not off, which is the guard of the tear-down, or capture was off already.
   */
  lemma SelectWithCaptureOffIff(w: World, target: string, elevated: bool)
    requires Truthful(w)
    ensures var at := AtSelect(w, target, elevated);
            at.Some? ==> (CaptureOff(at.value) <==> w.snapshot.committed != Off || CaptureOff(w))
  {
    AskKeeps(w);
    TransitionOutcome(Ask(w).0, Off, elevated);
    hide Transition, FailureLeaves;
  }

  /** In a settled state the tear-down is never missed. */
  lemma SettledSelectsWithCaptureOff(w: World, target: string, elevated: bool)
    requires Truthful(w) && w.snapshot.life.Running?
    ensures var at := AtSelect(w, target, elevated); at.Some? ==> CaptureOff(at.value)
  {
    SelectWithCaptureOffIff(w, target, elevated);
    hide AtSelect;
  }

  /**
   A failing input: after a failed recovery the committed mode is off although capture may still
   be on, and the core is switched underneath it.
   */
  lemma SwitchUnderFaultSkipsTearDown(w: World, target: string, elevated: bool)
    requires w.snapshot == Snapshot(Faulted, Tun, Off, true, true)
    requires target != "" && w.core != "" && w.core != target
    requires |w.tape| >= 2 && w.tape[0].verdict.Success? && w.tape[1].verdict.Success?
    ensures var (w1, r) := SwitchCore(w, target, elevated);
            r == Selected && w1.core == target && w1.service == w.service && w1.proxy == w.proxy
  {
  }

  /**
   How such a snapshot comes about without any failed recovery: the service reports a fault of a
   settled TUN, and a switch that gets through then selects the core with capture on.
   */
  lemma ReportedFaultSkipsTearDown(w: World, message: bool, target: string, elevated: bool)
    requires Settled(w, Tun)
    ensures var w1 := w.(snapshot := Mirror(w.snapshot, message));
            var at := AtSelect(w1, target, elevated);
            && w1.snapshot.committed == Off
            && (at.Some? ==> !CaptureOff(at.value))
  {
    SelectWithCaptureOffIff(w.(snapshot := Mirror(w.snapshot, message)), target, elevated);
    hide AtSelect;
  }

  // ---- Runs with crashes ----

  /** DoFault: between two transactions the service reports a fault that is not on record yet. */
  datatype Command = DoTransition(mode: Mode) | DoSwitch(target: string) | DoRecover | DoFault(message: bool)

  /**
   recovered: since the process started, a recovery has come to an end. A new process
   starts from the initial snapshot whatever its predecessor left behind.
   */
  datatype Machine = Machine(world: World, recovered: bool)

  function Restarted(w: World): Machine {
    Machine(w.(snapshot := INITIAL), false)
  }

  function Call(m: Machine, c: Command, elevated: bool, tape: seq<Event>): Machine {
    var w := m.world.(tape := tape);
    match c
    case DoTransition(mode) =>
      var (w1, v) := Transition(w, mode, elevated);
      if v.Crash? then Restarted(w1) else Machine(w1, m.recovered)
    case DoSwitch(target) =>
      var (w1, r) := SwitchCore(w, target, elevated);
      if r.Died? then Restarted(w1) else Machine(w1, m.recovered)
    case DoRecover =>
      var (w1, v) := Recover(w);
      if v.Crash? then Restarted(w1) else Machine(w1, true)
    case DoFault(message) => Machine(w.(snapshot := Mirror(w.snapshot, message)), m.recovered)
  }

  function Run(m: Machine, calls: seq<(Command, bool, seq<Event>)>): Machine {
    if calls == [] then m
    else
      var (c, elevated, tape) := calls[|calls| - 1];
      Call(Run(m, calls[..|calls| - 1]), c, elevated, tape)
  }

  /** Once a recovery has ended in this process, the snapshot never lies again until the next crash. */
  lemma {:induction false} RecoveredIsTruthful(m: Machine, calls: seq<(Command, bool, seq<Event>)>)
    requires !m.recovered
    ensures Run(m, calls).recovered ==> Truthful(Run(m, calls).world)
  {
    if calls != [] {
      var before := Run(m, calls[..|calls| - 1]);
      RecoveredIsTruthful(m, calls[..|calls| - 1]);
      var (c, elevated, tape) := calls[|calls| - 1];
      var w := before.world.(tape := tape);
      RecoverOutcome(w);
      hide Recover, Transition, SwitchCore;
      if before.recovered {
        assert Truthful(w);
        match c
        case DoTransition(mode) => TransitionOutcome(w, mode, elevated);
        case DoSwitch(target) => SwitchCoreOutcome(w, target, elevated);
        case DoRecover =>
        case DoFault(_) =>
      }
    }
  }

  /** In every run, a transition that succeeds after recovery leaves the target settled. */
  lemma RunSuccessIsSettled(m: Machine, calls: seq<(Command, bool, seq<Event>)>, target: Mode, elevated: bool,
                            tape: seq<Event>)
    requires !m.recovered
    ensures var (w, v) := Transition(Run(m, calls).world.(tape := tape), target, elevated);
            Run(m, calls).recovered && v.Success? ==> Settled(w, target)
  {
    RecoveredIsTruthful(m, calls);
    if Run(m, calls).recovered {
      TransitionOutcome(Run(m, calls).world.(tape := tape), target, elevated);
    }
    hide Transition, Run;
  }

  /** Before recovery a request for mode off succeeds without looking: a leftover proxy stays on. */
  lemma OffBeforeRecoveryKeepsProxy(w: World, elevated: bool)
    requires w.tape != [] && w.tape[0].verdict.Success? && w.proxy
    ensures var m := Restarted(w);
            Transition(m.world, Off, elevated).1.Success? && Transition(m.world, Off, elevated).0.proxy
  {
  }

  /** Between calls a recovered process rests in a settled or in a faulted state. */
  ghost predicate Resting(w: World) {
    w.snapshot.life.Running? || w.snapshot.life.Faulted?
  }

  lemma TransitionRests(w: World, target: Mode, elevated: bool)
    requires Truthful(w) && Resting(w)
    ensures var (w1, v) := Transition(w, target, elevated); !v.Crash? ==> Resting(w1)
  {
    TransitionOutcome(w, target, elevated);
    var (w1, v) := Transition(w, target, elevated);
    hide Transition, OnCore, TornDown, Truthful, FailureLeaves;
    if v.Failure? {
      LeavesResting(w, w1, target);
    }
  }

  lemma LeavesResting(w: World, w1: World, target: Mode)
    requires FailureLeaves(w, w1, target) && Resting(w)
    ensures Resting(w1)
  {
  }

  lemma RestoreRests(w: World, previous: string, mode: Mode, elevated: bool)
    requires Truthful(w) && Resting(w)
    ensures var (w1, v) := Restore(w, previous, mode, elevated); !v.Crash? ==> Resting(w1)
  {
    ReconcileOutcome(w, previous);
    var (w1, v1) := Reconcile(w, previous);
    hide Reconcile;
    if v1.Success? && mode != Off {
      TransitionRests(w1, mode, elevated);
    }
    hide Transition;
  }

  lemma SelectRests(w: World, target: string, previous: string, mode: Mode, elevated: bool)
    requires Truthful(w) && Resting(w)
    ensures var (w1, r) := SelectFrom(w, target, previous, mode, elevated); r != Died ==> Resting(w1)
  {
    SelectKeeps(w, target);
    var (w2, v2) := SelectCore(w, target);
    hide SelectCore;
    if v2.Failure? {
      RestoreRests(w2, previous, mode, elevated);
    } else if v2.Success? && mode != Off {
      TransitionRests(w2, mode, elevated);
      TransitionOutcome(w2, mode, elevated);
      var (w3, v3) := Transition(w2, mode, elevated);
      hide Transition, OnCore, FailureLeaves;
      if v3.Failure? {
        RestoreRests(w3, previous, mode, elevated);
      }
    }
    hide Restore, Truthful;
  }

  lemma SwitchRests(w: World, target: string, elevated: bool)
    requires Truthful(w) && Resting(w)
    ensures var (w1, r) := SwitchCore(w, target, elevated); r != Died ==> Resting(w1)
  {
    AskKeeps(w);
    var w0 := Ask(w).0;
    TransitionRests(w0, Off, elevated);
    TransitionOutcome(w0, Off, elevated);
    var (w1, v1) := if w0.snapshot.committed != Off then Transition(w0, Off, elevated) else (w0, Success);
    hide Transition, SelectFrom, OnCore, FailureLeaves;
    if v1.Success? {
      SelectRests(w1, target, w0.core, w0.snapshot.committed, elevated);
    }
  }

  lemma {:induction false} RecoveredIsResting(m: Machine, calls: seq<(Command, bool, seq<Event>)>)
    requires !m.recovered
    ensures Run(m, calls).recovered ==> Resting(Run(m, calls).world)
  {
    if calls != [] {
      var before := Run(m, calls[..|calls| - 1]);
      RecoveredIsResting(m, calls[..|calls| - 1]);
      RecoveredIsTruthful(m, calls[..|calls| - 1]);
      var (c, elevated, tape) := calls[|calls| - 1];
      var w := before.world.(tape := tape);
      RecoverOutcome(w);
      hide Recover, Transition, SwitchCore;
      if before.recovered {
        assert Truthful(w);
        match c
        case DoTransition(mode) => TransitionRests(w, mode, elevated);
        case DoSwitch(target) => SwitchRests(w, target, elevated);
        case DoRecover =>
        case DoFault(_) =>
      }
    }
  }

  /** In every run, a switch that finds no fault selects the core with capture off. */
  lemma RunSelectsWithCaptureOff(m: Machine, calls: seq<(Command, bool, seq<Event>)>, target: string, elevated: bool,
                                 tape: seq<Event>)
    requires !m.recovered
    ensures var w := Run(m, calls).world.(tape := tape);
            var at := AtSelect(w, target, elevated);
            Run(m, calls).recovered && w.snapshot.life != Faulted && at.Some? ==> CaptureOff(at.value)
  {
    RecoveredIsResting(m, calls);
    RecoveredIsTruthful(m, calls);
    var w := Run(m, calls).world.(tape := tape);
    if Run(m, calls).recovered && w.snapshot.life != Faulted {
      SettledSelectsWithCaptureOff(w, target, elevated);
    }
    hide AtSelect, Run;
  }
}
