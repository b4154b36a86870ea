/**
 The replies of capture commands to the letter: when a core is kept warm, when it is reused, and
 what is left otherwise; and the round trip from one to the other.
 */
module WarmReplies {
  import opened Common
  import opened WarmLease

  /** The healthy core that runs is the one that was remembered: same configuration, same process. */
  predicate SameCore(l: Lease, f: Findings) {
    && l.remembered && f.healthy && l.identity.pid > 0
    && f.identity == Some(l.identity) && f.status == Some(l.identity.pid)
  }

  predicate CanReuse(w: World, mode: Mode, f: Findings) {
    && f.supported && mode == SystemProxy
    && SameCore(w.lease, f) && w.lease.idle && w.clock < w.lease.expiresAt
  }

  predicate CanKeep(w: World, mode: Mode, retain: bool, ttl: int, f: Findings) {
    && f.supported && f.manager && mode == Off && retain && f.cleanedFirst && ttl > 0
    && SameCore(w.lease, f) && !w.lease.idle
  }

  /** The old core is stopped and everything after that works. */
  predicate Replaces(w: World, mode: Mode, retain: bool, ttl: int, f: Findings) {
    && !CanReuse(w, mode, f) && !CanKeep(w, mode, retain, ttl, f)
    && f.supported && f.manager && (mode == Off && retain ==> f.cleanedFirst) && f.stopped && f.cleaned && f.ready
  }

  /** Each reply, as a condition on what the command finds. */
  lemma PrepareReplies(w: World, mode: Mode, retain: bool, ttl: int, f: Findings)
    ensures var (_, r) := Prepare(w, mode, retain, ttl, f);
            && (r == Reused <==> CanReuse(w, mode, f))
            && (r == Warm <==> CanKeep(w, mode, retain, ttl, f))
            && (r == Stopped <==> mode == Off && Replaces(w, mode, retain, ttl, f))
            && (r == Running <==> mode != Off && Replaces(w, mode, retain, ttl, f))
  {
  }

  /** What each reply leaves of the core and of the lease. */
  lemma PrepareLeaves(w: World, mode: Mode, retain: bool, ttl: int, f: Findings)
    ensures var (w1, r) := Prepare(w, mode, retain, ttl, f);
            match r
            case Reused => w1.core == w.core && w1.lease == w.lease.(idle := false, expiresAt := 0)
            case Warm => w1.core == w.core && w1.lease == w.lease.(idle := true, expiresAt := w.clock + ttl)
            case Stopped => w1.core == None && w1.lease == EMPTY
            case Running =>
              && w1.core == f.started
              && w1.lease == if mode == SystemProxy && f.newIdentity.Some?
                             then Lease(f.newIdentity.value, f.verification, true, false, 0) else EMPTY
            case Error =>
              || w1 == w
              || (w1.lease == EMPTY
                  && w1.core == if !f.stopped then w.core else if f.cleaned && mode != Off then f.started else None)
  {
  }

  /** Nothing but callbacks and time. */
  predicate Passive(steps: seq<Step>) {
    forall i :: 0 <= i < |steps| ==>
      steps[i].Lock? || steps[i].Unlock? || steps[i].Fire? || steps[i].DoExpire? || steps[i].Tick?
  }

  function Runs(w: World, steps: seq<Step>): World {
    if steps == [] then w else Do(Runs(w, steps[..|steps| - 1]), steps[|steps| - 1])
  }

  lemma StepStaysWarm(w: World, step: Step)
    requires w.lease.idle && Passive([step]) && Do(w, step).clock < w.lease.expiresAt
    ensures Do(w, step).lease == w.lease && Do(w, step).core == w.core && w.clock <= Do(w, step).clock
  {
    assert step == [step][0];
  }

  /** However timers fire and callbacks run, a warm core stays until its time is over. */
  lemma {:induction false} StaysWarm(w: World, steps: seq<Step>)
    requires w.lease.idle && Passive(steps) && Runs(w, steps).clock < w.lease.expiresAt
    ensures Runs(w, steps).lease == w.lease && Runs(w, steps).core == w.core && w.clock <= Runs(w, steps).clock
  {
    if steps != [] {
      var before, step := steps[..|steps| - 1], steps[|steps| - 1];
      ClockGoesOn(Runs(w, before), step);
      StaysWarm(w, before);
      StepStaysWarm(Runs(w, before), step);
      hide Do;
    }
  }

  lemma ClockGoesOn(w: World, step: Step)
    ensures w.clock <= Do(w, step).clock
  {
  }

  /**
   Off and on again: a core that was started for the system proxy and is still the same healthy
   process is kept warm when capture goes off, and taken up again before its time is over, without a
   stop in between.
   */
  lemma WarmRoundTrip(w: World, started: Findings, ttl: int, off: Findings, steps: seq<Step>, on: Findings)
    requires Prepare(w, SystemProxy, false, ttl, started).1 == Running
    requires started.newIdentity.Some? && started.newIdentity.value.pid > 0 && ttl > 0
    requires off.supported && off.manager && off.cleanedFirst && off.healthy && on.supported && on.healthy
    requires off.identity == on.identity == started.newIdentity
    requires off.status == on.status == Some(started.newIdentity.value.pid)
    requires Passive(steps)
    ensures var w1 := Prepare(w, SystemProxy, false, ttl, started).0;
            var (w2, r2) := Prepare(w1, Off, true, ttl, off);
            var w3 := Runs(w2, steps);
            var (w4, r4) := Prepare(w3, SystemProxy, false, ttl, on);
            && r2 == Warm
            && (w3.clock < w1.clock + ttl ==> r4 == Reused && w4.core == w1.core == started.started && w4.lease == w1.lease)
  {
    PrepareReplies(w, SystemProxy, false, ttl, started);
    PrepareLeaves(w, SystemProxy, false, ttl, started);
    var w1 := Prepare(w, SystemProxy, false, ttl, started).0;
    PrepareReplies(w1, Off, true, ttl, off);
    PrepareLeaves(w1, Off, true, ttl, off);
    var w2 := Prepare(w1, Off, true, ttl, off).0;
    var w3 := Runs(w2, steps);
    hide Prepare;
    if w3.clock < w1.clock + ttl {
      StaysWarm(w2, steps);
      PrepareReplies(w3, SystemProxy, false, ttl, on);
      PrepareLeaves(w3, SystemProxy, false, ttl, on);
    }
  }

  // ---- The timers ----

  /** The callbacks that are left when the timer is stopped: one that has fired runs nevertheless. */
  function Unstopped(w: World): map<nat, Callback> {
    map id | id in w.callbacks && (w.timer != Some(id) || w.callbacks[id].fired) :: w.callbacks[id]
  }

  /** Keeping a core warm stops the old timer and arms one for the end of the period, of a new generation. */
  lemma WarmArms(w: World, mode: Mode, retain: bool, ttl: int, f: Findings)
    ensures var (w1, r) := Prepare(w, mode, retain, ttl, f);
            r == Warm ==>
              && w1.timer == Some(w.next) && w1.next == w.next + 1
              && w1.generation == w.generation + 1 && w1.period == w.period + 1
              && w1.callbacks == Unstopped(w)[w.next := Callback(w1.generation, w1.period, w.clock + ttl, false)]
  {
    assert w.timer.Some? && w.timer.value in w.callbacks && !w.callbacks[w.timer.value].fired ==>
      Unstopped(w) == w.callbacks - {w.timer.value};
    assert !(w.timer.Some? && w.timer.value in w.callbacks && !w.callbacks[w.timer.value].fired) ==>
      Unstopped(w) == w.callbacks;
  }

  /** Every other reply but an early error stops the timer, and is of a new generation. */
  lemma OthersDisarm(w: World, mode: Mode, retain: bool, ttl: int, f: Findings)
    ensures var (w1, r) := Prepare(w, mode, retain, ttl, f);
            r != Warm && w1 != w ==>
              && w1.timer == None && w1.callbacks == Unstopped(w) && w1.period == w.period
              && w1.generation == w.generation + if r == Running && mode == SystemProxy then 2 else 1
  {
    assert w.timer.Some? && w.timer.value in w.callbacks && !w.callbacks[w.timer.value].fired ==>
      Unstopped(w) == w.callbacks - {w.timer.value};
    assert !(w.timer.Some? && w.timer.value in w.callbacks && !w.callbacks[w.timer.value].fired) ==>
      Unstopped(w) == w.callbacks;
  }

  /**
   A callback that runs is used up. If captureMu is taken it comes back 25 milliseconds later; if it is of the
   current generation and too early it comes back at the end of the period, as the timer; if it is late it
   ends the lease and the core; otherwise nothing comes of it.
   */
  lemma CallbackRuns(w: World, id: nat, stopped: bool)
    requires id in w.callbacks
    ensures var w1 := Expire(w, id, stopped);
            var c := w.callbacks[id];
            var left := w.callbacks - {id};
            if w.held then
              && w1 == w.(callbacks := left[w.next := c.(due := w.clock + 25, fired := false)], next := w.next + 1)
            else if c.generation != w.generation || !w.lease.idle then w1 == w.(callbacks := left)
            else if w.clock < w.lease.expiresAt then
              && w1.timer == Some(w.next) && w1.next == w.next + 1 && w1.lease == w.lease && w1.core == w.core
              && w1.generation == w.generation
              && w1.callbacks == Unstopped(w.(callbacks := left))[w.next := c.(due := w.lease.expiresAt, fired := false)]
            else
              && w1.timer == None && w1.lease == EMPTY && w1.core == (if stopped then None else w.core)
              && w1.generation == w.generation + 1 && w1.callbacks == Unstopped(w.(callbacks := left))
  {
    var w0 := w.(callbacks := w.callbacks - {id});
    assert w0.timer.Some? && w0.timer.value in w0.callbacks && !w0.callbacks[w0.timer.value].fired ==>
      Unstopped(w0) == w0.callbacks - {w0.timer.value};
    assert !(w0.timer.Some? && w0.timer.value in w0.callbacks && !w0.callbacks[w0.timer.value].fired) ==>
      Unstopped(w0) == w0.callbacks;
  }
}
