/**
 The agent's capture transactions. A world holds the agent's snapshot, its journal file,
 the system proxy, the service's capture mode and the active core; every effect consumes
 one event of a tape, and a tape that runs out is a crash of the agent.
 */
module CaptureTransition {
  import opened Common

  datatype Mode = Off | SystemProxy | Tun

  /** Running(Off) is the stopped state, Starting(Off) the stopping state. */
  datatype Life = Running(mode: Mode) | Starting(mode: Mode) | Recovering | Faulted

  datatype Snapshot = Snapshot(life: Life, desired: Mode, committed: Mode, faulted: bool, failed: bool)

  datatype Step = StoppingOld | RecoveringAdapter | StartingCore | ConfiguringRoute | Checking | Done | RollingBack

  datatype Journal = Journal(from: Mode, to: Mode, step: Step, committed: bool)

  /**
   took: an interrupted file operation, or a failed or interrupted proxy change, took effect
   nevertheless. A file operation that reports failure has not taken effect.
   mode, core: what a failed or interrupted service command left behind.
   */
  datatype Event = Event(verdict: Verdict, took: bool, mode: Mode, core: string)

  /** One attempt to make traffic flow: the mode and the core that was active at the time. */
  datatype Enabling = Enabling(mode: Mode, core: string)

  datatype World = World(
    snapshot: Snapshot, journal: Option<Journal>, proxy: bool, service: Mode, core: string,
    log: seq<Enabling>, tape: seq<Event>)

  const INITIAL := Snapshot(Running(Off), Off, Off, false, false)

  function Head(w: World): Event {
    if w.tape == [] then Event(Crash, false, w.service, w.core) else w.tape[0]
  }

  function Rest(w: World): World {
    if w.tape == [] then w else w.(tape := w.tape[1..])
  }

  // ---- Effects ----

  /** A check without an effect: context, elevation, proxy status, probe, journal read. */
  function Ask(w: World): (World, Verdict) {
    (Rest(w), Head(w).verdict)
  }

  function Save(w: World, j: Journal): (World, Verdict) {
    var ev := Head(w);
    (if ev.verdict.Success? || (ev.verdict.Crash? && ev.took) then Rest(w).(journal := Some(j)) else Rest(w), ev.verdict)
  }

  function Clear(w: World): (World, Verdict) {
    var ev := Head(w);
    (if ev.verdict.Success? || (ev.verdict.Crash? && ev.took) then Rest(w).(journal := None) else Rest(w), ev.verdict)
  }

  function SetProxy(w: World, on: bool): (World, Verdict) {
    var ev := Head(w);
    var w1 := if on then Rest(w).(log := w.log + [Enabling(SystemProxy, w.core)]) else Rest(w);
    (if ev.verdict.Success? || ev.took then w1.(proxy := on) else w1, ev.verdict)
  }

  /** capture.prepare: a failed or unanswered command leaves the service in any mode. */
  function Prepare(w: World, mode: Mode): (World, Verdict) {
    var ev := Head(w);
    var w1 := if mode != Off then Rest(w).(log := w.log + [Enabling(mode, w.core)]) else Rest(w);
    (w1.(service := if ev.verdict.Success? then mode else ev.mode), ev.verdict)
  }

  /** core.select: a failed or unanswered command leaves any core active. */
  function SelectCore(w: World, core: string): (World, Verdict) {
    var ev := Head(w);
    (Rest(w).(core := if ev.verdict.Success? then core else ev.core), ev.verdict)
  }

  // ---- Recovery ----

  /** Joins the verdicts of two effects that are both attempted. */
  function Both(a: Verdict, b: Verdict): Verdict {
    if a.Crash? || b.Crash? then Crash else if a.Success? then b else a
  }

  /** Proxy off, service off, and only if both worked the journal is cleared. */
  function TearDown(w: World): (World, Verdict) {
    var (w1, v1) := SetProxy(w, false);
    if v1.Crash? then (w1, Crash)
    else
      var (w2, v2) := Prepare(w1, Off);
      var v := Both(v1, v2);
      if v.Success? then Clear(w2) else (w2, v)
  }

  /** recoverCaptureLocked. */
  function Recover(w: World): (World, Verdict) {
    var (w1, v1) := Ask(w.(snapshot := Snapshot(Recovering, Off, Off, false, false)));
    if v1.Crash? then (w1, Crash)
    else
      var known := v1.Success? && w1.journal.Some?;
      var w2 := if known && !w1.journal.value.committed
                then w1.(snapshot := Snapshot(Recovering, w1.journal.value.to, Off, false, false)) else w1;
      var (w3, v) := TearDown(w2);
      if v.Crash? then (w3, Crash)
      else if v.Success? then (w3.(snapshot := INITIAL), Success)
      else
        (w3.(snapshot := Snapshot(Faulted, if known then w1.journal.value.to else Off, Off, true, true)), Failure)
  }

  // ---- The transition ----

  /** captureFailure. */
  function Abort(w: World, target: Mode, j: Journal): (World, Verdict) {
    var (w1, v1) := Save(w.(snapshot := w.snapshot.(life := Recovering, failed := true)), j.(step := RollingBack));
    if v1.Crash? then (w1, Crash)
    else
      var (w2, v2) := TearDown(w1);
      if v2.Crash? then (w2, Crash)
      else (w2.(snapshot := Snapshot(Faulted, target, if v2.Success? then Off else j.from, true, true)), Failure)
  }

  /** The setStep closure: context check, then the journal. */
  function SetStep(w: World, j: Journal, step: Step): (World, Verdict) {
    var (w1, v1) := Ask(w);
    if v1.Success? then Save(w1, j.(step := step)) else (w1, v1)
  }

  /** A list of setStep calls, as far as they succeed; the journal records the last attempt. */
  function SetSteps(w: World, j: Journal, steps: seq<Step>): (World, Journal, Verdict)
    decreases |steps|
  {
    if steps == [] then (w, j, Success)
    else
      var (w1, v1) := SetStep(w, j, steps[0]);
      if v1.Success? then SetSteps(w1, j.(step := steps[0]), steps[1..]) else (w1, j, v1)
  }

  /** Proxy on with its ownership check, or proxy off. */
  function SwitchProxy(w: World, on: bool): (World, Verdict) {
    var (w1, v1) := SetProxy(w, on);
    if on && v1.Success? then Ask(w1) else (w1, v1)
  }

  function StepsBefore(target: Mode): seq<Step> {
    (if target == Tun then [RecoveringAdapter] else []) + (if target != Off then [StartingCore] else [])
  }

  function StepsAfter(target: Mode): seq<Step> {
    (if target == Tun then [ConfiguringRoute] else []) + (if target != Off then [Checking] else [])
  }

  /** Everything between the first journal write and the commit. */
  function Apply(w: World, target: Mode, j: Journal): (World, Journal, Verdict) {
    var (w1, j1, v1) := SetSteps(w, j, StepsBefore(target));
    if !v1.Success? then (w1, j1, v1)
    else
      var (w2, v2) := Prepare(w1, target);
      if !v2.Success? then (w2, j1, v2)
      else
        var (w3, v3) := SwitchProxy(w2, target == SystemProxy);
        if !v3.Success? then (w3, j1, v3)
        else
          var (w4, j4, v4) := SetSteps(w3, j1, StepsAfter(target));
          if !v4.Success? then (w4, j4, v4)
          else
            var (w5, v5) := if target != Off then Ask(w4) else (w4, Success);
            (w5, j4, v5)
  }

  /** The commit: the journal is marked and then removed. */
  function Commit(w: World, j: Journal): (World, Journal, Verdict) {
    var j1 := j.(step := Done, committed := true);
    var (w1, v1) := Save(w, j1);
    if !v1.Success? then (w1, j1, v1)
    else
      var (w2, v2) := Clear(w1); (w2, j1, v2)
  }

  /** Once the first journal write succeeded: apply and commit, or abort. */
  function Execute(w: World, target: Mode, j: Journal): (World, Verdict) {
    var (w1, j1, v1) := Apply(w, target, j);
    var (w2, j2, v2) := if v1.Success? then Commit(w1, j1) else (w1, j1, v1);
    match v2
    case Crash => (w2, Crash)
    case Failure => Abort(w2, target, j2)
    case Success => (w2.(snapshot := Snapshot(Running(target), target, target, false, false)), Success)
  }

  predicate AlreadyThere(s: Snapshot, target: Mode) {
    s == Snapshot(Running(target), target, target, false, false)
  }

  /** A transition is not started on top of an unfinished or failed one. */
  function Ensure(w: World): (World, Verdict) {
    if w.snapshot.life.Recovering? || w.snapshot.life.Faulted? then Recover(w) else (w, Success)
  }

  /** The first journal write, and then everything that can only end settled or aborted. */
  function Launch(w: World, target: Mode): (World, Verdict) {
    var j := Journal(w.snapshot.committed, target, StoppingOld, false);
    var (w1, v1) := Save(w, j);
    if !v1.Success? then (w1, v1)
    else Execute(w1.(snapshot := Snapshot(Starting(target), target, w.snapshot.committed, false, false)), target, j)
  }

  /** transitionCaptureModeLockedWithOptions. */
  function Transition(w: World, target: Mode, elevated: bool): (World, Verdict) {
    if target == Tun && !elevated then (w, Failure)
    else
      var (w0, v0) := Ask(w);
      if !v0.Success? then (w0, v0)
      else
        var (w1, v1) := Ensure(w0);
        if !v1.Success? then (w1, v1)
        else if AlreadyThere(w1.snapshot, target) then (w1, Success)
        else Launch(w1, target)
  }

  // ---- Switching the core ----

  datatype Response = Selected | Invalid | SwitchRefused | StatusFailed | StopFailed | RollbackFailed | VerifyFailed | Died

  /** reconcileActiveCore: success means the expected core was observed. */
  function Reconcile(w: World, expected: string): (World, Verdict) {
    if expected == "" then (w, Failure)
    else
      var (w0, v0) := Ask(w);
      if !v0.Success? then (w0, v0)
      else
        var (w1, v1) := Ask(w0);
        if !v1.Success? then (w1, v1)
        else if w1.core == expected then (w1, Success)
        else if w1.core == "" then (w1, Failure)
        else
          var (w2, v2) := SelectCore(w1, expected);
          if v2.Crash? then (w2, Crash)
          else
            var (w3, v3) := Ask(w2);
            if !v3.Success? then (w3, v3)
            else (w3, if w3.core == expected then Success else Failure)
  }

  /** restoreCoreAndCapture. */
  function Restore(w: World, previous: string, mode: Mode, elevated: bool): (World, Verdict) {
    var (w1, v1) := Reconcile(w, previous);
    if !v1.Success? || mode == Off then (w1, v1) else Transition(w1, mode, elevated)
  }

  /** The part of a core switch from core.select on. */
  function SelectFrom(w1: World, target: string, previous: string, mode: Mode, elevated: bool): (World, Response) {
    var (w2, v2) := SelectCore(w1, target);
    match v2
    case Crash => (w2, Died)
    case Failure =>
      var (w3, v3) := Restore(w2, previous, mode, elevated);
      (w3, if v3.Crash? then Died else if v3.Failure? then RollbackFailed else SwitchRefused)
    case Success =>
      if mode == Off then (w2, Selected)
      else
        var (w3, v3) := Transition(w2, mode, elevated);
        match v3
        case Crash => (w3, Died)
        case Success => (w3, Selected)
        case Failure =>
          var (w4, v4) := Restore(w3, previous, mode, elevated);
          (w4, if v4.Crash? then Died else VerifyFailed)
  }

  /** selectCoreWithCapture, inside its coordinator transaction. */
  function SwitchCore(w: World, target: string, elevated: bool): (World, Response) {
    var (w0, v0) := if target == "" then (w, Success) else Ask(w);
    if target == "" then (w, Invalid)
    else if v0.Crash? then (w0, Died)
    else if v0.Failure? || w0.core == "" then (w0, StatusFailed)
    else if w0.core == target then (w0, Selected)
    else
      var previous, mode := w0.core, w0.snapshot.committed;
      var (w1, v1) := if mode != Off then Transition(w0, Off, elevated) else (w0, Success);
      if v1.Crash? then (w1, Died)
      else if v1.Failure? then (w1, StopFailed)
      else SelectFrom(w1, target, previous, mode, elevated)
  }

  // ---- Faults that the service reports ----

  /**
   refreshCaptureFault, for a fault id that is reported and not yet on record: a fault of TUN puts
   mode off on record without looking at what is on. The id itself is not kept.
   */
  function Mirror(s: Snapshot, message: bool): Snapshot {
    if s.desired != Tun && s.committed != Tun then s else Snapshot(Faulted, Tun, Off, true, message)
  }

  // ---- The agent object ----

  /** The agent's capture methods, acting step by step on the fields that they change. */
  class Agent {
    const elevated: bool
    var snapshot: Snapshot
    var journal: Option<Journal>
    var proxy: bool
    var service: Mode
    var core: string
    var log: seq<Enabling>
    var tape: seq<Event>

    constructor (w: World, elevated: bool)
      ensures State() == w && this.elevated == elevated
    {
      this.elevated := elevated;
      snapshot, journal, proxy, service, core, log, tape :=
        w.snapshot, w.journal, w.proxy, w.service, w.core, w.log, w.tape;
    }

    function State(): World
      reads this
    {
      World(snapshot, journal, proxy, service, core, log, tape)
    }

    method Next() returns (ev: Event)
      modifies this`tape
      ensures ev == Head(old(State())) && State() == Rest(old(State()))
    {
      if tape == [] {
        return Event(Crash, false, service, core);
      }
      ev := tape[0];
      tape := tape[1..];
    }

    method Check() returns (v: Verdict)
      modifies this`tape
      ensures (State(), v) == Ask(old(State()))
    {
      var ev := Next();
      v := ev.verdict;
    }

    method SaveJournal(j: Journal) returns (v: Verdict)
      modifies this`tape, this`journal
      ensures (State(), v) == Save(old(State()), j)
    {
      var ev := Next();
      if ev.verdict.Success? || (ev.verdict.Crash? && ev.took) {
        journal := Some(j);
      }
      v := ev.verdict;
    }

    method ClearJournal() returns (v: Verdict)
      modifies this`tape, this`journal
      ensures (State(), v) == Clear(old(State()))
    {
      var ev := Next();
      if ev.verdict.Success? || (ev.verdict.Crash? && ev.took) {
        journal := None;
      }
      v := ev.verdict;
    }

    method ChangeProxy(on: bool) returns (v: Verdict)
      modifies this`tape, this`proxy, this`log
      ensures (State(), v) == SetProxy(old(State()), on)
    {
      if on {
        log := log + [Enabling(SystemProxy, core)];
      }
      var ev := Next();
      if ev.verdict.Success? || ev.took {
        proxy := on;
      }
      v := ev.verdict;
    }

    method PrepareService(mode: Mode) returns (v: Verdict)
      modifies this`tape, this`service, this`log
      ensures (State(), v) == Prepare(old(State()), mode)
    {
      if mode != Off {
        log := log + [Enabling(mode, core)];
      }
      var ev := Next();
      service := if ev.verdict.Success? then mode else ev.mode;
      v := ev.verdict;
    }

    method SendCoreSelect(target: string) returns (v: Verdict)
      modifies this`tape, this`core
      ensures (State(), v) == SelectCore(old(State()), target)
    {
      var ev := Next();
      core := if ev.verdict.Success? then target else ev.core;
      v := ev.verdict;
    }

    method DisableAll() returns (v: Verdict)
      modifies this`tape, this`proxy, this`service, this`log, this`journal
      ensures (State(), v) == TearDown(old(State()))
    {
      v := ChangeProxy(false);
      if v.Crash? {
        return;
      }
      var v2 := PrepareService(Off);
      v := Both(v, v2);
      if v.Success? {
        v := ClearJournal();
      }
    }

    /** recoverCaptureLocked. */
    method RecoverCapture() returns (v: Verdict)
      modifies this
      ensures (State(), v) == Recover(old(State()))
    {
      snapshot := Snapshot(Recovering, Off, Off, false, false);
      v := Check();
      if v.Crash? {
        return;
      }
      var known := v.Success? && journal.Some?;
      var target := if known then journal.value.to else Off;
      if known && !journal.value.committed {
        snapshot := Snapshot(Recovering, target, Off, false, false);
      }
      v := DisableAll();
      match v {
        case Crash =>
        case Success => snapshot := INITIAL;
        case Failure => snapshot := Snapshot(Faulted, target, Off, true, true);
      }
    }

    /** captureFailure: reports failure even when the rollback succeeds. */
    method AbortTransition(target: Mode, j: Journal) returns (v: Verdict)
      modifies this
      ensures (State(), v) == Abort(old(State()), target, j)
    {
      snapshot := snapshot.(life := Recovering, failed := true);
      v := SaveJournal(j.(step := RollingBack));
      if v.Crash? {
        return;
      }
      v := DisableAll();
      if v.Crash? {
        return;
      }
      snapshot := Snapshot(Faulted, target, if v.Success? then Off else j.from, true, true);
      v := Failure;
    }

    method RecordSteps(j: Journal, steps: seq<Step>) returns (j': Journal, v: Verdict)
      modifies this`tape, this`journal
      ensures (State(), j', v) == SetSteps(old(State()), j, steps)
    {
      j', v := j, Success;
      for i := 0 to |steps|
        invariant v.Success?
        invariant SetSteps(State(), j', steps[i..]) == SetSteps(old(State()), j, steps)
      {
        assert steps[i..][0] == steps[i] && steps[i..][1..] == steps[i + 1..];
        v := Check();
        if v.Success? {
          v := SaveJournal(j'.(step := steps[i]));
        }
        if !v.Success? {
          return;
        }
        j' := j'.(step := steps[i]);
      }
    }

    method ApplyTransition(target: Mode, j: Journal) returns (j': Journal, v: Verdict)
      modifies this
      ensures (State(), j', v) == Apply(old(State()), target, j)
    {
      hide SetSteps, Prepare, SetProxy, Ask;
      var steps: seq<Step> := [];
      if target == Tun {
        steps := steps + [RecoveringAdapter];
      }
      if target != Off {
        steps := steps + [StartingCore];
      }
      assert steps == StepsBefore(target);
      j', v := RecordSteps(j, steps);
      if !v.Success? {
        return;
      }
      v := PrepareService(target);
      if !v.Success? {
        return;
      }
      v := ChangeProxy(target == SystemProxy);
      if v.Success? && target == SystemProxy {
        v := Check();
      }
      if !v.Success? {
        return;
      }
      steps := [];
      if target == Tun {
        steps := steps + [ConfiguringRoute];
      }
      if target != Off {
        steps := steps + [Checking];
      }
      assert steps == StepsAfter(target);
      j', v := RecordSteps(j', steps);
      if v.Success? && target != Off {
        v := Check();
      }
    }

    method EnsureRecovered() returns (v: Verdict)
      modifies this
      ensures (State(), v) == Ensure(old(State()))
    {
      v := Success;
      if snapshot.life.Recovering? || snapshot.life.Faulted? {
        v := RecoverCapture();
      }
    }

    method CommitTransition(j: Journal) returns (j': Journal, v: Verdict)
      modifies this`tape, this`journal
      ensures (State(), j', v) == Commit(old(State()), j)
    {
      j' := j.(step := Done, committed := true);
      v := SaveJournal(j');
      if v.Success? {
        v := ClearJournal();
      }
    }

    method ExecuteTransition(target: Mode, j: Journal) returns (v: Verdict)
      modifies this
      ensures (State(), v) == Execute(old(State()), target, j)
    {
      hide Apply, Commit, Abort;
      var j1;
      j1, v := ApplyTransition(target, j);
      if v.Success? {
        j1, v := CommitTransition(j1);
      }
      match v {
        case Crash =>
        case Failure => v := AbortTransition(target, j1);
        case Success => snapshot := Snapshot(Running(target), target, target, false, false);
      }
    }

    /** transitionCaptureModeLocked. */
    method TransitionMode(target: Mode) returns (v: Verdict)
      modifies this
      ensures (State(), v) == Transition(old(State()), target, elevated)
    {
      hide Ensure, Execute, Save, Ask;
      if target == Tun && !elevated {
        return Failure;
      }
      v := Check();
      if !v.Success? {
        return;
      }
      v := EnsureRecovered();
      if !v.Success? {
        return;
      }
      if AlreadyThere(snapshot, target) {
        return Success;
      }
      var from := snapshot.committed;
      var j := Journal(from, target, StoppingOld, false);
      v := SaveJournal(j);
      if !v.Success? {
        return;
      }
      snapshot := Snapshot(Starting(target), target, from, false, false);
      v := ExecuteTransition(target, j);
    }

    method RefreshCaptureFault(reported: bool, known: bool, message: bool)
      modifies this`snapshot
      ensures snapshot == if reported && !known then Mirror(old(snapshot), message) else old(snapshot)
      ensures reported && !known && (old(snapshot).desired == Tun || old(snapshot).committed == Tun) ==>
                && snapshot.life == Faulted && snapshot.desired == Tun && snapshot.committed == Off
                && snapshot.faulted && snapshot.failed == message
      ensures !reported || known || (old(snapshot).desired != Tun && old(snapshot).committed != Tun) ==>
                snapshot == old(snapshot)
    {
      if !reported {
        return;
      }
      if snapshot.desired != Tun && snapshot.committed != Tun {
        return;
      }
      if known {
        return;
      }
      snapshot := Snapshot(Faulted, Tun, Off, true, message);
    }

    method ReconcileCore(expected: string) returns (v: Verdict)
      modifies this
      ensures (State(), v) == Reconcile(old(State()), expected)
    {
      if expected == "" {
        return Failure;
      }
      v := Check();
      if !v.Success? {
        return;
      }
      v := Check();
      if !v.Success? || core == expected {
        return;
      }
      if core == "" {
        return Failure;
      }
      v := SendCoreSelect(expected);
      if v.Crash? {
        return;
      }
      v := Check();
      if v.Success? && core != expected {
        v := Failure;
      }
    }

    method RestoreCoreAndCapture(previous: string, mode: Mode) returns (v: Verdict)
      modifies this
      ensures (State(), v) == Restore(old(State()), previous, mode, elevated)
    {
      v := ReconcileCore(previous);
      if v.Success? && mode != Off {
        v := TransitionMode(mode);
      }
    }

    /** selectCoreWithCapture. */
    method SelectCoreWithCapture(target: string) returns (r: Response)
      modifies this
      ensures (State(), r) == SwitchCore(old(State()), target, elevated)
    {
      if target == "" {
        return Invalid;
      }
      var v := Check();
      if v.Crash? {
        return Died;
      }
      if v.Failure? || core == "" {
        return StatusFailed;
      }
      if core == target {
        return Selected;
      }
      hide Transition, Restore;
      var previous, mode := core, snapshot.committed;
      if mode != Off {
        v := TransitionMode(Off);
        if !v.Success? {
          return if v.Crash? then Died else StopFailed;
        }
      }
      v := SendCoreSelect(target);
      if v.Crash? {
        return Died;
      }
      if v.Failure? {
        v := RestoreCoreAndCapture(previous, mode);
        return match v case Crash => Died case Failure => RollbackFailed case Success => SwitchRefused;
      }
      if mode == Off {
        return Selected;
      }
      v := TransitionMode(mode);
      if !v.Failure? {
        return if v.Crash? then Died else Selected;
      }
      v := RestoreCoreAndCapture(previous, mode);
      r := if v.Crash? then Died else VerifyFailed;
    }
  }
}
