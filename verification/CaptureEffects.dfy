/**
 Capture transitions and core switches effect by effect: they succeed if and only if every one
 of a known number of effects does, and a single failure ends torn down.
 */
module CaptureEffects {
  import opened Common
  import opened CaptureTransition
  import opened CaptureTheorems

  /** The first n effects succeed. */
  ghost predicate Fine(tape: seq<Event>, n: nat) {
    n <= |tape| && forall i :: 0 <= i < n ==> tape[i].verdict.Success?
  }

  lemma FineSplit(tape: seq<Event>, m: nat, n: nat)
    requires m <= |tape|
    ensures Fine(tape, m + n) <==> Fine(tape, m) && Fine(tape[m..], n)
  {
    if Fine(tape, m) && Fine(tape[m..], n) {
      forall i | 0 <= i < m + n ensures tape[i].verdict.Success? {
        assert i >= m ==> tape[i] == tape[m..][i - m];
      }
    }
    if Fine(tape, m + n) {
      forall i | 0 <= i < n ensures tape[m..][i].verdict.Success? {
      }
    }
  }

  /** An action succeeds exactly when its n effects do, and has then consumed them. */
  ghost predicate Takes(w: World, w1: World, v: Verdict, n: nat) {
    && (v.Success? <==> Fine(w.tape, n))
    && (v.Success? ==> w1.tape == w.tape[n..])
  }

  /** Two actions in a row, the second of which is tried only if the first succeeded. */
  lemma TakesBoth(w: World, w1: World, v1: Verdict, m: nat, w2: World, v2: Verdict, n: nat)
    requires Takes(w, w1, v1, m)
    requires if v1.Success? then Takes(w1, w2, v2, n) else !v2.Success?
    ensures Takes(w, w2, v2, m + n)
  {
    if v1.Success? {
      FineSplit(w.tape, m, n);
    }
    assert Fine(w.tape, m + n) ==> Fine(w.tape, m);
  }

  /** The first effect that does not succeed is the one at position p, and it fails. */
  ghost predicate FailsAt(tape: seq<Event>, p: nat) {
    p < |tape| && tape[p].verdict.Failure? && Fine(tape, p)
  }

  /** Nor does the action go on after a failure. */
  ghost predicate Straight(w: World, w1: World, v: Verdict, n: nat) {
    && Takes(w, w1, v, n)
    && forall p: nat :: p < n && FailsAt(w.tape, p) ==> v.Failure? && w1.tape == w.tape[p + 1..]
  }

  lemma FailsLater(tape: seq<Event>, m: nat, p: nat)
    requires FailsAt(tape, p) && m <= p
    ensures FailsAt(tape[m..], p - m) && Fine(tape, m)
  {
    FineSplit(tape, m, p - m);
  }

  lemma StraightBoth(w: World, w1: World, v1: Verdict, m: nat, w2: World, v2: Verdict, n: nat)
    requires Straight(w, w1, v1, m)
    requires if v1.Success? then Straight(w1, w2, v2, n) else v2 == v1 && w2 == w1
    ensures Straight(w, w2, v2, m + n)
  {
    TakesBoth(w, w1, v1, m, w2, v2, n);
    forall p: nat | p < m + n && FailsAt(w.tape, p) ensures v2.Failure? && w2.tape == w.tape[p + 1..] {
      if p >= m {
        FailsLater(w.tape, m, p);
        assert w.tape[m..][p - m + 1..] == w.tape[p + 1..];
      }
    }
  }

  lemma SetStepStraight(w: World, j: Journal, step: Step)
    ensures Straight(w, SetStep(w, j, step).0, SetStep(w, j, step).1, 2)
  {
  }

  lemma {:induction false} SetStepsStraight(w: World, j: Journal, steps: seq<Step>)
    ensures var (w1, _, v) := SetSteps(w, j, steps); Straight(w, w1, v, 2 * |steps|)
    decreases |steps|
  {
    if steps == [] {
      ProbeStraight(w);
    } else {
      hide SetStep, Straight;
      var (w1, v1) := SetStep(w, j, steps[0]);
      SetStepStraight(w, j, steps[0]);
      if v1.Success? {
        SetStepsStraight(w1, j.(step := steps[0]), steps[1..]);
      }
      var (w2, _, v2) := SetSteps(w, j, steps);
      StraightBoth(w, w1, v1, 2, w2, v2, 2 * |steps[1..]|);
    }
  }

  lemma PrepareStraight(w: World, mode: Mode)
    ensures Straight(w, Prepare(w, mode).0, Prepare(w, mode).1, 1)
  {
  }

  lemma ProxyStraight(w: World, on: bool)
    ensures Straight(w, SwitchProxy(w, on).0, SwitchProxy(w, on).1, if on then 2 else 1)
  {
  }

  lemma ProbeStraight(w: World)
    ensures Straight(w, Ask(w).0, Ask(w).1, 1) && Straight(w, w, Success, 0)
  {
    assert w.tape[0..] == w.tape;
  }

  // ---- Apply, from its end ----

  ghost function AfterProxy(w: World, target: Mode, j: Journal): (World, Journal, Verdict) {
    var (w1, j1, v1) := SetSteps(w, j, StepsAfter(target));
    if !v1.Success? then (w1, j1, v1)
    else var (w2, v2) := if target != Off then Ask(w1) else (w1, Success); (w2, j1, v2)
  }

  ghost function AfterPrepare(w: World, target: Mode, j: Journal): (World, Journal, Verdict) {
    var (w1, v1) := SwitchProxy(w, target == SystemProxy);
    if !v1.Success? then (w1, j, v1) else AfterProxy(w1, target, j)
  }

  ghost function AfterSteps(w: World, target: Mode, j: Journal): (World, Journal, Verdict) {
    var (w1, v1) := Prepare(w, target);
    if !v1.Success? then (w1, j, v1) else AfterPrepare(w1, target, j)
  }

  lemma ApplyIs(w: World, target: Mode, j: Journal)
    ensures var (w1, j1, v1) := SetSteps(w, j, StepsBefore(target));
            Apply(w, target, j) == if !v1.Success? then (w1, j1, v1) else AfterSteps(w1, target, j1)
  {
    hide SetSteps, Prepare, SwitchProxy, Ask, StepsBefore, StepsAfter;
  }

  /** The numbers of setStep effects around the two commands. */
  function StepEffects(target: Mode): nat {
    match target case Tun => 4 case SystemProxy => 2 case Off => 0
  }

  function LateEffects(target: Mode): nat {
    match target case Tun => 5 case SystemProxy => 3 case Off => 0
  }

  lemma AfterProxyStraight(w: World, target: Mode, j: Journal)
    ensures Straight(w, AfterProxy(w, target, j).0, AfterProxy(w, target, j).2, LateEffects(target))
  {
    assert 2 * |StepsAfter(target)| == StepEffects(target);
    SetStepsStraight(w, j, StepsAfter(target));
    var (w1, _, v1) := SetSteps(w, j, StepsAfter(target));
    var (w2, _, v2) := AfterProxy(w, target, j);
    ProbeStraight(w1);
    hide SetSteps, StepsAfter, Straight, Ask;
    StraightBoth(w, w1, v1, StepEffects(target), w2, v2, if target == Off then 0 else 1);
  }

  lemma AfterPrepareStraight(w: World, target: Mode, j: Journal)
    ensures var n := LateEffects(target) + if target == SystemProxy then 2 else 1;
            Straight(w, AfterPrepare(w, target, j).0, AfterPrepare(w, target, j).2, n)
  {
    ProxyStraight(w, target == SystemProxy);
    var (w1, v1) := SwitchProxy(w, target == SystemProxy);
    AfterProxyStraight(w1, target, j);
    var (w2, _, v2) := AfterPrepare(w, target, j);
    hide SwitchProxy, AfterProxy, Straight, LateEffects;
    StraightBoth(w, w1, v1, if target == SystemProxy then 2 else 1, w2, v2, LateEffects(target));
  }

  lemma AfterStepsStraight(w: World, target: Mode, j: Journal)
    ensures var n := 1 + (LateEffects(target) + if target == SystemProxy then 2 else 1);
            Straight(w, AfterSteps(w, target, j).0, AfterSteps(w, target, j).2, n)
  {
    PrepareStraight(w, target);
    var (w1, v1) := Prepare(w, target);
    AfterPrepareStraight(w1, target, j);
    var (w2, _, v2) := AfterSteps(w, target, j);
    hide Prepare, AfterPrepare, Straight, LateEffects;
    StraightBoth(w, w1, v1, 1, w2, v2, LateEffects(target) + if target == SystemProxy then 2 else 1);
  }

  /** The effects of Apply: the probe is the last one unless the target is off. */
  lemma ApplyStraight(w: World, target: Mode, j: Journal)
    ensures var (w1, _, v) := Apply(w, target, j);
            Straight(w, w1, v, match target case Tun => 11 case SystemProxy => 8 case Off => 2)
  {
    assert 2 * |StepsBefore(target)| == StepEffects(target);
    ApplyIs(w, target, j);
    SetStepsStraight(w, j, StepsBefore(target));
    var (w1, j1, v1) := SetSteps(w, j, StepsBefore(target));
    AfterStepsStraight(w1, target, j1);
    var (w2, _, v2) := Apply(w, target, j);
    hide Apply, SetSteps, AfterSteps, StepsBefore, Straight;
    StraightBoth(w, w1, v1, StepEffects(target), w2, v2, 1 + (LateEffects(target) + if target == SystemProxy then 2 else 1));
  }

  lemma CommitStraight(w: World, j: Journal)
    ensures Straight(w, Commit(w, j).0, Commit(w, j).2, 2)
  {
  }

  /** The effects of a transition, from the check of its context to the removal of its journal. */
  function TransitionEffects(target: Mode): nat {
    match target case Tun => 15 case SystemProxy => 12 case Off => 6
  }

  lemma ExecuteTakes(w: World, target: Mode, j: Journal)
    ensures Takes(w, Execute(w, target, j).0, Execute(w, target, j).1, TransitionEffects(target) - 2)
  {
    var (w1, j1, v1) := Apply(w, target, j);
    ApplyStraight(w, target, j);
    var (w2, j2, v2) := if v1.Success? then Commit(w1, j1) else (w1, j1, v1);
    CommitStraight(w1, j1);
    var n := match target case Tun => 11 case SystemProxy => 8 case Off => 2;
    hide Apply, Commit, Straight;
    StraightBoth(w, w1, v1, n, w2, v2, 2);
    StraightTakes(w, w2, v2, n + 2);
    hide Takes;
    assert w2.(snapshot := Snapshot(Running(target), target, target, false, false)).tape == w2.tape;
    var (w3, v3) := Execute(w, target, j);
    assert v2.Success? ==> v3.Success? && w3.tape == w2.tape;
    assert !v2.Success? ==> !v3.Success?;
    hide Execute;
    SameTake(w, w2, v2, w3, v3, n + 2);
  }

  lemma StraightTakes(w: World, w1: World, v: Verdict, n: nat)
    requires Straight(w, w1, v, n)
    ensures Takes(w, w1, v, n)
  {
  }

  lemma SameTake(w: World, w1: World, v1: Verdict, w2: World, v2: Verdict, n: nat)
    requires Takes(w, w1, v1, n) && (v1.Success? <==> v2.Success?) && (v1.Success? ==> w2.tape == w1.tape)
    ensures Takes(w, w2, v2, n)
  {
  }

  lemma LaunchTakes(w: World, target: Mode)
    ensures Takes(w, Launch(w, target).0, Launch(w, target).1, TransitionEffects(target) - 1)
  {
    var j := Journal(w.snapshot.committed, target, StoppingOld, false);
    var (w1, v1) := Save(w, j);
    assert Takes(w, w1, v1, 1);
    var w2 := w1.(snapshot := Snapshot(Starting(target), target, w.snapshot.committed, false, false));
    var (w3, v3) := Launch(w, target);
    ExecuteTakes(w2, target, j);
    SameTake(w, w1, v1, w2, v1, 1);
    hide Execute, Takes, Save;
    TakesBoth(w, w2, v1, 1, w3, v3, TransitionEffects(target) - 2);
  }

  /**
   From every state that is neither there already nor in need of recovery: a transition succeeds
   if and only if it is allowed and each of its 15, 12 or 6 effects succeeds. No failure on the
   way is swallowed, that of the final probe included.
   */
  lemma TransitionSucceedsIff(w: World, target: Mode, elevated: bool)
    requires !w.snapshot.life.Recovering? && !w.snapshot.life.Faulted? && !AlreadyThere(w.snapshot, target)
    ensures Transition(w, target, elevated).1.Success? <==>
            (target == Tun ==> elevated) && Fine(w.tape, TransitionEffects(target))
    ensures Transition(w, target, elevated).1.Success? ==>
              Transition(w, target, elevated).0.tape == w.tape[TransitionEffects(target)..]
  {
    var (w0, v0) := Ask(w);
    assert Takes(w, w0, v0, 1);
    LaunchTakes(w0, target);
    assert AlreadyThere(w0.snapshot, target) == AlreadyThere(w.snapshot, target);
    hide Launch, Takes, Fine, AlreadyThere, Recover;
    if !(target == Tun && !elevated) {
      var (w1, v1) := Transition(w, target, elevated);
      TakesBoth(w, w0, v0, 1, w1, v1, TransitionEffects(target) - 1);
      TakenIff(w, w1, v1, TransitionEffects(target));
    }
  }

  lemma TakenIff(w: World, w1: World, v: Verdict, n: nat)
    requires Takes(w, w1, v, n)
    ensures v.Success? <==> Fine(w.tape, n)
    ensures v.Success? ==> w1.tape == w.tape[n..]
  {
  }

  // ---- From a fault ----

  /** The tear-down, verdict by verdict: both commands are tried, and the journal goes only if both work. */
  lemma TearDownIff(w: World)
    ensures var (w1, v) := TearDown(w);
            && (v.Success? <==> Fine(w.tape, 3))
            && (v.Failure? <==>
                  || (|w.tape| >= 2 && !w.tape[0].verdict.Crash? && !w.tape[1].verdict.Crash? && !Fine(w.tape, 2))
                  || (|w.tape| >= 3 && Fine(w.tape, 2) && w.tape[2].verdict.Failure?))
  {
    FineFew(w.tape);
    hide Fine;
    assert |w.tape| >= 2 ==> w.tape[1..][0] == w.tape[1];
    assert |w.tape| >= 3 ==> w.tape[1..][1..][0] == w.tape[2];
  }

  lemma FineFew(tape: seq<Event>)
    ensures Fine(tape, 2) <==> |tape| >= 2 && tape[0].verdict.Success? && tape[1].verdict.Success?
    ensures Fine(tape, 3) <==>
            |tape| >= 3 && tape[0].verdict.Success? && tape[1].verdict.Success? && tape[2].verdict.Success?
  {
  }

  /** What a recovery that fails puts on record: the mode the journal was going to, if it can be read. */
  lemma FailedRecovery(w: World)
    ensures var (w1, v) := Recover(w);
            v.Failure? ==>
              w1.snapshot == Snapshot(Faulted,
                if w.tape[0].verdict.Success? && w.journal.Some? then w.journal.value.to else Off, Off, true, true)
  {
    hide TearDown;
    var w1 := Ask(w.(snapshot := Snapshot(Recovering, Off, Off, false, false))).0;
    assert w1.journal == w.journal;
  }

  /** Recovery succeeds exactly when the journal is read or unreadable, but the three effects of the tear-down work. */
  lemma RecoverSucceedsIff(w: World)
    ensures var (w1, v) := Recover(w);
            && (v.Success? <==> |w.tape| >= 4 && !w.tape[0].verdict.Crash? && Fine(w.tape[1..], 3))
            && (v.Success? ==> w1.tape == w.tape[4..] && w1.snapshot == Snapshot(Running(Off), Off, Off, false, false))
  {
    if |w.tape| >= 4 {
      assert w.tape[1..][0] == w.tape[1] && w.tape[1..][1] == w.tape[2] && w.tape[1..][2] == w.tape[3];
      assert w.tape[1..][1..][1..][1..] == w.tape[4..];
    }
  }

  /**
   From a faulted or interrupted state: the context check and a recovery come first, and then, for
   a target other than off, all effects but the context check.
   */
  lemma TransitionFromFaultIff(w: World, target: Mode, elevated: bool)
    requires w.snapshot.life.Recovering? || w.snapshot.life.Faulted?
    ensures Transition(w, target, elevated).1.Success? <==>
            && (target == Tun ==> elevated)
            && |w.tape| >= 5 && w.tape[0].verdict.Success? && !w.tape[1].verdict.Crash? && Fine(w.tape[2..], 3)
            && (target != Off ==> Fine(w.tape[5..], TransitionEffects(target) - 1))
  {
    var (w0, v0) := Ask(w);
    RecoverSucceedsIff(w0);
    var (w1, v1) := Recover(w0);
    LaunchTakes(w1, target);
    hide Launch, Recover;
    if |w.tape| >= 5 && v0.Success? {
      assert w0.tape == w.tape[1..] && w0.tape[1..] == w.tape[2..] && w0.tape[4..] == w.tape[5..];
    }
  }

  // ---- A single failure ----

  /** Of the events exactly the one at position p fails. */
  ghost predicate OneFailure(tape: seq<Event>, p: nat) {
    && p < |tape| && tape[p].verdict.Failure?
    && forall i :: 0 <= i < |tape| && i != p ==> tape[i].verdict.Success?
  }

  lemma OneFailureIsFirst(tape: seq<Event>, p: nat)
    requires OneFailure(tape, p)
    ensures FailsAt(tape, p) && Fine(tape[p + 1..], |tape| - p - 1)
    ensures p > 0 ==> tape[0].verdict.Success? && OneFailure(tape[1..], p - 1)
  {
    var rest := tape[p + 1..];
    forall i | 0 <= i < |rest| ensures rest[i].verdict.Success? {
      assert rest[i] == tape[p + 1 + i];
    }
    if p > 0 {
      forall i | 0 <= i < |tape| - 1 && i != p - 1 ensures tape[1..][i].verdict.Success? {
        assert tape[1..][i] == tape[i + 1];
      }
    }
  }

  /** With four more effects that work, the failure path tears everything down. */
  lemma CalmAbort(w: World, target: Mode, j: Journal)
    requires Fine(w.tape, 4)
    ensures var (w1, v) := Abort(w, target, j);
            v.Failure? && TornDown(w1) && w1.snapshot == Snapshot(Faulted, target, Off, true, true)
  {
  }

  lemma ExecuteGivesUp(w: World, target: Mode, j: Journal, p: nat)
    requires OneFailure(w.tape, p) && p < TransitionEffects(target) - 2 && |w.tape| >= p + 5
    ensures var (w1, v) := Execute(w, target, j);
            v.Failure? && TornDown(w1) && w1.snapshot == Snapshot(Faulted, target, Off, true, true)
  {
    var (w1, j1, v1) := Apply(w, target, j);
    ApplyStraight(w, target, j);
    var (w2, j2, v2) := if v1.Success? then Commit(w1, j1) else (w1, j1, v1);
    CommitStraight(w1, j1);
    var n := match target case Tun => 11 case SystemProxy => 8 case Off => 2;
    hide Apply, Commit, Abort;
    StraightBoth(w, w1, v1, n, w2, v2, 2);
    OneFailureIsFirst(w.tape, p);
    assert v2.Failure? && w2.tape == w.tape[p + 1..];
    CalmAbort(w2, target, j2);
    hide *;
  }

  /**
   A single failure among the effects of a transition makes it fail. Once the journal is written -
   from the third effect on, the final probe included - everything is torn down and the fault is on
   record; before that nothing has happened.
   */
  lemma SingleFailureTearsDown(w: World, target: Mode, elevated: bool, p: nat)
    requires !w.snapshot.life.Recovering? && !w.snapshot.life.Faulted? && !AlreadyThere(w.snapshot, target)
    requires (target == Tun ==> elevated)
    requires OneFailure(w.tape, p) && p < TransitionEffects(target) && |w.tape| >= p + 5
    ensures var (w1, v) := Transition(w, target, elevated);
            && v.Failure?
            && (p < 2 ==> w1 == w.(tape := w1.tape))
            && (p >= 2 ==> TornDown(w1) && w1.snapshot == Snapshot(Faulted, target, Off, true, true))
  {
    OneFailureIsFirst(w.tape, p);
    var (w0, v0) := Ask(w);
    if p > 0 {
      var j := Journal(w0.snapshot.committed, target, StoppingOld, false);
      var (w1, v1) := Save(w0, j);
      OneFailureIsFirst(w0.tape, p - 1);
      if p > 1 {
        var w2 := w1.(snapshot := Snapshot(Starting(target), target, w0.snapshot.committed, false, false));
        ExecuteGivesUp(w2, target, j, p - 2);
      }
    }
    hide Execute, Fine;
  }

  // ---- Switching the core ----

  /** The effects of a switch: ask for the core, mode off if it is on, select, and the mode again. */
  function SwitchEffects(mode: Mode): nat {
    match mode case Tun => 23 case SystemProxy => 20 case Off => 2
  }

  /**
   From every settled state a switch to another core selects it, with the mode restored, if and only
   if each of its 23, 20 or 2 effects succeeds.
   */
  lemma SwitchSucceedsIff(w: World, mode: Mode, target: string, elevated: bool)
    requires Settled(w, mode) && target != "" && w.core != "" && w.core != target
    ensures SwitchCore(w, target, elevated).1 == Selected <==>
            (mode == Tun ==> elevated) && Fine(w.tape, SwitchEffects(mode))
  {
    var (w0, v0) := Ask(w);
    assert v0.Success? <==> Fine(w.tape, 1);
    assert Fine(w.tape, SwitchEffects(mode)) ==> Fine(w.tape, 1);
    if v0.Success? {
      AskKeeps(w);
      FineSplit(w.tape, 1, SwitchEffects(mode) - 1);
      if mode == Off {
        SelectFromIff(w0, w0.core, Off, target, elevated);
      } else {
        TransitionSucceedsIff(w0, Off, elevated);
        TransitionOutcome(w0, Off, elevated);
        var (w1, v1) := Transition(w0, Off, elevated);
        assert Fine(w0.tape, SwitchEffects(mode) - 1) ==> Fine(w0.tape, 6);
        if v1.Success? {
          FineSplit(w0.tape, 6, SwitchEffects(mode) - 7);
          SelectFromIff(w1, w0.core, mode, target, elevated);
        }
      }
    }
    hide Transition, SelectFrom, Truthful, FailureLeaves, Fine;
  }

  /** The part from core.select on, with mode off settled. */
  lemma SelectFromIff(w: World, previous: string, mode: Mode, target: string, elevated: bool)
    requires Settled(w, Off)
    ensures SelectFrom(w, target, previous, mode, elevated).1 == Selected <==>
            (mode == Tun ==> elevated) && Fine(w.tape, if mode == Off then 1 else 1 + TransitionEffects(mode))
  {
    var (w1, v1) := SelectCore(w, target);
    assert v1.Success? <==> Fine(w.tape, 1);
    if mode != Off {
      assert Fine(w.tape, 1 + TransitionEffects(mode)) ==> Fine(w.tape, 1);
      if v1.Success? {
        FineSplit(w.tape, 1, TransitionEffects(mode));
        TransitionSucceedsIff(w1, mode, elevated);
      }
    }
    hide Transition, Restore, Fine;
  }

  // ---- What is tried ----

  /** Everything that was tried beyond this point was to make traffic flow in this mode, on this core. */
  ghost predicate Tried(before: seq<Enabling>, after: seq<Enabling>, mode: Mode, core: string) {
    before <= after && forall i :: |before| <= i < |after| ==> after[i] == Enabling(mode, core)
  }

  lemma TriedTwice(a: seq<Enabling>, b: seq<Enabling>, c: seq<Enabling>, mode: Mode, core: string)
    requires Tried(a, b, mode, core) && Tried(b, c, mode, core)
    ensures Tried(a, c, mode, core)
  {
  }

  lemma AfterProxyTries(w: World, target: Mode, j: Journal)
    ensures var w1 := AfterProxy(w, target, j).0; w1.log == w.log && w1.core == w.core
  {
    StepsTryNothing(w, j, StepsAfter(target));
    hide SetSteps, StepsAfter;
  }

  lemma CommandsTry(w: World, target: Mode)
    ensures var w1 := Prepare(w, target).0;
            Tried(w.log, w1.log, target, w.core) && w1.core == w.core && (target == Off ==> w1.log == w.log)
    ensures var w1 := SwitchProxy(w, target == SystemProxy).0;
            Tried(w.log, w1.log, target, w.core) && w1.core == w.core && (target == Off ==> w1.log == w.log)
  {
  }

  lemma AfterStepsTries(w: World, target: Mode, j: Journal)
    ensures var w1 := AfterSteps(w, target, j).0;
            Tried(w.log, w1.log, target, w.core) && w1.core == w.core && (target == Off ==> w1.log == w.log)
  {
    CommandsTry(w, target);
    var (w1, v1) := Prepare(w, target);
    CommandsTry(w1, target);
    var (w2, v2) := SwitchProxy(w1, target == SystemProxy);
    AfterProxyTries(w2, target, j);
    hide Prepare, SwitchProxy, AfterProxy, Tried;
    TriedTwice(w.log, w1.log, w2.log, target, w.core);
  }

  lemma ApplyTries(w: World, target: Mode, j: Journal)
    ensures var w1 := Apply(w, target, j).0;
            Tried(w.log, w1.log, target, w.core) && w1.core == w.core && (target == Off ==> w1.log == w.log)
  {
    ApplyIs(w, target, j);
    StepsTryNothing(w, j, StepsBefore(target));
    var (w1, j1, v1) := SetSteps(w, j, StepsBefore(target));
    AfterStepsTries(w1, target, j1);
    assert Tried(w.log, w.log, target, w.core);
    hide Apply, SetSteps, AfterSteps, StepsBefore, Tried;
  }

  lemma {:induction false} StepsTryNothing(w: World, j: Journal, steps: seq<Step>)
    ensures var w1 := SetSteps(w, j, steps).0; w1.log == w.log && w1.core == w.core
    decreases |steps|
  {
    if steps != [] {
      StepsTryNothing(SetStep(w, j, steps[0]).0, j.(step := steps[0]), steps[1..]);
    }
  }

  /** A transition tries no mode but its target; one to off, and what fails, tries nothing further. */
  lemma TransitionTries(w: World, target: Mode, elevated: bool)
    ensures var (w1, _) := Transition(w, target, elevated);
            Tried(w.log, w1.log, target, w.core) && (target == Off ==> w1.log == w.log)
  {
    var (w0, v0) := Ask(w);
    RecoverTriesNothing(w0);
    var (w1, v1) := Ensure(w0);
    var j := Journal(w1.snapshot.committed, target, StoppingOld, false);
    var w2 := Save(w1, j).0.(snapshot := Snapshot(Starting(target), target, w1.snapshot.committed, false, false));
    ExecuteTries(w2, target, j);
    hide Recover, Execute;
  }

  lemma TearDownTriesNothing(w: World)
    ensures TearDown(w).0.log == w.log && TearDown(w).0.core == w.core
  {
  }

  lemma RecoverTriesNothing(w: World)
    ensures Recover(w).0.log == w.log && Recover(w).0.core == w.core
  {
    hide TearDown;
    forall x: World ensures TearDown(x).0.log == x.log && TearDown(x).0.core == x.core {
      TearDownTriesNothing(x);
    }
  }

  lemma ExecuteTries(w: World, target: Mode, j: Journal)
    ensures var (w1, _) := Execute(w, target, j);
            Tried(w.log, w1.log, target, w.core) && (target == Off ==> w1.log == w.log)
  {
    ApplyTries(w, target, j);
    var (w1, j1, v1) := Apply(w, target, j);
    var (w2, j2, v2) := if v1.Success? then Commit(w1, j1) else (w1, j1, v1);
    assert w2.log == w1.log;
    AbortTriesNothing(w2, target, j2);
    hide Apply, Commit, Abort, Tried;
  }

  lemma AbortTriesNothing(w: World, target: Mode, j: Journal)
    ensures Abort(w, target, j).0.log == w.log
  {
    hide TearDown;
    forall x: World ensures TearDown(x).0.log == x.log {
      TearDownTriesNothing(x);
    }
  }

  // ---- The commit, and the core ----

  /** What a commit that is cut short leaves on disk says that everything before it had worked. */
  lemma CommitLeaves(w: World, j: Journal)
    ensures var (w1, _, v) := Commit(w, j);
            var marked := Some(Journal(j.from, j.to, Done, true));
            && (v.Success? ==> w1.journal == None)
            && (!v.Success? && Fine(w.tape, 1) ==> w1.journal == None || w1.journal == marked)
            && (!Fine(w.tape, 1) ==> w1.journal == w.journal || w1.journal == marked)
  {
  }

  /**
   Reconciliation with the core succeeds if and only if the expected core is observed, at once, or after one
   attempt to select it, whatever that attempt reported.
   */
  lemma ReconcileIff(w: World, expected: string)
    ensures Reconcile(w, expected).1.Success? <==>
            && expected != "" && Fine(w.tape, 2)
            && (|| w.core == expected
                || (&& w.core != "" && |w.tape| >= 4 && !w.tape[2].verdict.Crash? && w.tape[3].verdict.Success?
                    && (w.tape[2].verdict.Success? || w.tape[2].core == expected)))
  {
    assert |w.tape| >= 2 ==> w.tape[1..][1..] == w.tape[2..];
    assert |w.tape| >= 3 ==> w.tape[2..][1..] == w.tape[3..];
  }
}
