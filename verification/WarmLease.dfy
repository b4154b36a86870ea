/**
 The warm lease on the core of the system proxy. While capture is off the core may stay
 alive for a while; a timer stops it then. A stopped timer may already have fired, so every
 callback carries the generation in which it was armed. The lease changes under captureMu
 only; a callback that finds captureMu taken comes back 25 milliseconds later.
 */
module WarmLease {
  import opened Common

  /** The configuration fields of the identity as one value, and the process id. */
  datatype Identity = Identity(config: string, pid: int)

  datatype Lease = Lease(identity: Identity, verification: string, remembered: bool, idle: bool, expiresAt: int)

  const EMPTY := Lease(Identity("", 0), "", false, false, 0)

  /** A timer that was not stopped in time. The period counts the retentions so far. */
  datatype Callback = Callback(generation: nat, period: nat, due: int, fired: bool)

  /** held: captureMu; core: the process id of the running core. */
  datatype World = World(
    lease: Lease, generation: nat, period: nat, timer: Option<nat>, callbacks: map<nat, Callback>, next: nat,
    held: bool, clock: int, core: Option<int>)

  const RETRY := 25

  // ---- The lease operations ----

  /** stopWarmTimerLocked: a callback that has fired runs nevertheless. */
  function StopTimer(w: World): World {
    if w.timer.None? then w
    else if w.timer.value in w.callbacks && !w.callbacks[w.timer.value].fired then
      w.(timer := None, callbacks := w.callbacks - {w.timer.value})
    else w.(timer := None)
  }

  /** time.AfterFunc, whether or not the timer is kept in warmTimer. */
  function Arm(w: World, c: Callback, kept: bool): World {
    w.(callbacks := w.callbacks[w.next := c], timer := if kept then Some(w.next) else w.timer, next := w.next + 1)
  }

  function Invalidate(w: World): World {
    StopTimer(w.(generation := w.generation + 1)).(lease := EMPTY)
  }

  /** The identity is missing if the runtime is not eligible for a lease. */
  function Remember(w: World, identity: Option<Identity>, verification: string): World {
    if identity.None? then Invalidate(w)
    else StopTimer(w.(generation := w.generation + 1)).(lease := Lease(identity.value, verification, true, false, 0))
  }

  predicate ActiveMatches(l: Lease, identity: Identity, status: Option<int>) {
    && l.remembered && !l.idle
    && status.Some? && status.value > 0 && status.value == l.identity.pid && identity == l.identity
  }

  function Retain(w: World, ttl: int, identity: Option<Identity>, healthy: bool, status: Option<int>): (World, bool) {
    if ttl <= 0 || identity.None? || !healthy || !ActiveMatches(w.lease, identity.value, status) then (w, false)
    else
      var g := w.generation + 1;
      var w1 := StopTimer(w.(generation := g, period := w.period + 1,
                             lease := w.lease.(idle := true, expiresAt := w.clock + ttl)));
      (Arm(w1, Callback(g, w.period + 1, w.clock + ttl, false), true), true)
  }

  predicate Reusable(l: Lease, identity: Identity, status: Option<int>, now: int) {
    && l.remembered && l.idle && now < l.expiresAt
    && status.Some? && status.value > 0 && status.value == l.identity.pid
    && identity == l.identity
  }

  function Resume(w: World, identity: Option<Identity>, healthy: bool, status: Option<int>): (World, bool) {
    if identity.None? || !healthy || !Reusable(w.lease, identity.value, status, w.clock) then (w, false)
    else (StopTimer(w.(generation := w.generation + 1, lease := w.lease.(idle := false, expiresAt := 0))), true)
  }

  /** expireSystemProxyWarm, run by callback id; `stopped` says whether the core could be stopped. */
  function Expire(w: World, id: nat, stopped: bool): World
    requires id in w.callbacks
  {
    var c := w.callbacks[id];
    var w1 := w.(callbacks := w.callbacks - {id});
    if w.held then Arm(w1, Callback(c.generation, c.period, w.clock + RETRY, false), false)
    else if c.generation != w.generation || !w.lease.idle then w1
    else if w.clock < w.lease.expiresAt then
      Arm(StopTimer(w1), Callback(c.generation, c.period, w.lease.expiresAt, false), true)
    else Invalidate(w1).(core := if stopped then None else w.core)
  }

  // ---- The order of the operations in a capture command ----

  datatype Mode = Off | SystemProxy | Tun

  datatype Prepared = Reused | Warm | Stopped | Running | Error

  /**
   What the steps of prepareCaptureLockedWithOptions find. ready covers everything between the
   stop of the old core and the end of the command; started is the process it leaves behind.
   */
  datatype Findings = Findings(
    supported: bool, identity: Option<Identity>, healthy: bool, status: Option<int>,
    manager: bool, cleanedFirst: bool, stopped: bool, cleaned: bool, ready: bool, started: Option<int>,
    newIdentity: Option<Identity>, verification: string)

  function Prepare(w: World, mode: Mode, retain: bool, ttl: int, f: Findings): (World, Prepared) {
    var (resumed, reused) := Resume(w, f.identity, f.healthy, f.status);
    var (retained, warm) := Retain(w, ttl, f.identity, f.healthy, f.status);
    if !f.supported then (w, Error)
    else if mode == SystemProxy && reused then (resumed, Reused)
    else if !f.manager || (mode == Off && retain && !f.cleanedFirst) then (w, Error)
    else if mode == Off && retain && warm then (retained, Warm)
    else
      var w1 := Invalidate(w);
      if !f.stopped then (w1, Error)
      else
        var w2 := w1.(core := None);
        if !f.cleaned then (w2, Error)
        else
          match mode
          case Off => (w2, if f.ready then Stopped else Error)
          case Tun => (w2.(core := f.started), if f.ready then Running else Error)
          case SystemProxy =>
            var w3 := w2.(core := f.started);
            if f.ready then (Remember(w3, f.newIdentity, f.verification), Running) else (w3, Error)
  }

  // ---- The service object ----

  class Service {
    var lease: Lease
    var generation: nat
    var period: nat
    var timer: Option<nat>
    var callbacks: map<nat, Callback>
    var next: nat
    var held: bool
    var clock: int
    var core: Option<int>

    constructor (clock: int)
      ensures State() == World(EMPTY, 0, 0, None, map[], 0, false, clock, None)
    {
      lease, generation, period, timer, callbacks, next := EMPTY, 0, 0, None, map[], 0;
      held, this.clock, core := false, clock, None;
    }

    function State(): World
      reads this
    {
      World(lease, generation, period, timer, callbacks, next, held, clock, core)
    }

    method StopWarmTimer()
      modifies this`timer, this`callbacks
      ensures State() == StopTimer(old(State()))
    {
      if timer.Some? {
        if timer.value in callbacks && !callbacks[timer.value].fired {
          callbacks := callbacks - {timer.value};
        }
        timer := None;
      }
    }

    method InvalidateWarm()
      modifies this
      ensures State() == Invalidate(old(State()))
    {
      generation := generation + 1;
      StopWarmTimer();
      lease := EMPTY;
    }

    method RememberWarm(identity: Option<Identity>, verification: string)
      modifies this
      ensures State() == Remember(old(State()), identity, verification)
    {
      if identity.None? {
        InvalidateWarm();
        return;
      }
      StopWarmTimer();
      generation := generation + 1;
      lease := Lease(identity.value, verification, true, false, 0);
    }

    method RetainWarm(ttl: int, identity: Option<Identity>, healthy: bool, status: Option<int>) returns (ok: bool)
      modifies this
      ensures (State(), ok) == Retain(old(State()), ttl, identity, healthy, status)
    {
      if ttl <= 0 || identity.None? || !healthy || !ActiveMatches(lease, identity.value, status) {
        return false;
      }
      lease := lease.(idle := true, expiresAt := clock + ttl);
      generation := generation + 1;
      period := period + 1;
      StopWarmTimer();
      callbacks := callbacks[next := Callback(generation, period, clock + ttl, false)];
      timer := Some(next);
      next := next + 1;
      ok := true;
    }

    method ResumeWarm(identity: Option<Identity>, healthy: bool, status: Option<int>) returns (ok: bool)
      modifies this
      ensures (State(), ok) == Resume(old(State()), identity, healthy, status)
    {
      if identity.None? || !healthy || !Reusable(lease, identity.value, status, clock) {
        return false;
      }
      lease := lease.(idle := false, expiresAt := 0);
      generation := generation + 1;
      StopWarmTimer();
      ok := true;
    }

    method ExpireWarm(id: nat, stopped: bool)
      requires id in callbacks
      modifies this
      ensures State() == Expire(old(State()), id, stopped)
    {
      var c := callbacks[id];
      callbacks := callbacks - {id};
      if held {
        callbacks := callbacks[next := Callback(c.generation, c.period, clock + RETRY, false)];
        next := next + 1;
        return;
      }
      if c.generation != generation || !lease.idle {
        return;
      }
      if clock < lease.expiresAt {
        StopWarmTimer();
        callbacks := callbacks[next := Callback(c.generation, c.period, lease.expiresAt, false)];
        timer := Some(next);
        next := next + 1;
        return;
      }
      InvalidateWarm();
      if stopped {
        core := None;
      }
    }

    /** prepareCaptureLockedWithOptions, under captureMu. */
    method PrepareCapture(mode: Mode, retain: bool, ttl: int, f: Findings) returns (r: Prepared)
      modifies this
      ensures (State(), r) == Prepare(old(State()), mode, retain, ttl, f)
    {
      hide StopTimer, Reusable, ActiveMatches;
      if !f.supported {
        return Error;
      }
      var ok;
      if mode == SystemProxy {
        ok := ResumeWarm(f.identity, f.healthy, f.status);
        if ok {
          return Reused;
        }
      }
      if !f.manager {
        return Error;
      }
      if mode == Off && retain {
        if !f.cleanedFirst {
          return Error;
        }
        ok := RetainWarm(ttl, f.identity, f.healthy, f.status);
        if ok {
          return Warm;
        }
      }
      InvalidateWarm();
      if !f.stopped {
        return Error;
      }
      core := None;
      if !f.cleaned {
        return Error;
      }
      if mode == Off {
        return if f.ready then Stopped else Error;
      }
      core := f.started;
      if !f.ready {
        return Error;
      }
      if mode == SystemProxy {
        RememberWarm(f.newIdentity, f.verification);
      }
      r := Running;
    }
  }

  // ---- All interleavings ----

  datatype Step =
    | Lock | Unlock
    | DoRemember(identity: Option<Identity>, verification: string)
    | DoRetain(ttl: int, identity: Option<Identity>, healthy: bool, status: Option<int>)
    | DoResume(identity: Option<Identity>, healthy: bool, status: Option<int>)
    | DoInvalidate
    | Fire(id: nat)
    | DoExpire(id: nat, stopped: bool)
    | Tick(ticks: nat)
    | CoreChange(core: Option<int>)

  /** One step; a step whose guard fails changes nothing. */
  function Do(w: World, step: Step): World {
    match step
    case Lock => w.(held := true)
    case Unlock => w.(held := false)
    case DoRemember(identity, verification) => if w.held then Remember(w, identity, verification) else w
    case DoRetain(ttl, identity, healthy, status) => if w.held then Retain(w, ttl, identity, healthy, status).0 else w
    case DoResume(identity, healthy, status) => if w.held then Resume(w, identity, healthy, status).0 else w
    case DoInvalidate => if w.held then Invalidate(w) else w
    case Fire(id) =>
      if id in w.callbacks then w.(callbacks := w.callbacks[id := w.callbacks[id].(fired := true)]) else w
    case DoExpire(id, stopped) => if id in w.callbacks && w.callbacks[id].fired then Expire(w, id, stopped) else w
    case Tick(ticks) => w.(clock := w.clock + ticks)
    case CoreChange(core) => w.(core := core)
  }

  function Run(clock: int, steps: seq<Step>): World {
    if steps == [] then World(EMPTY, 0, 0, None, map[], 0, false, clock, None)
    else Do(Run(clock, steps[..|steps| - 1]), steps[|steps| - 1])
  }

  /** A callback is of the current generation exactly in the idle period that armed it. */
  predicate CallbackFits(w: World, id: nat)
    requires id in w.callbacks
  {
    var c := w.callbacks[id];
    && id < w.next && c.generation <= w.generation && c.period <= w.period
    && (c.generation == w.generation <==> w.lease.idle && c.period == w.period)
  }

  /** A pending callback that will act on this idle period, at its end or within one retry. */
  predicate Reaps(w: World, id: nat) {
    && id in w.callbacks && w.callbacks[id].generation == w.generation
    && (w.callbacks[id].due <= w.lease.expiresAt || w.callbacks[id].due <= w.clock + RETRY)
  }

  ghost predicate Inv(w: World) {
    && (forall id: nat :: id in w.callbacks ==> CallbackFits(w, id))
    && (w.lease.idle ==> w.lease.remembered && exists id: nat :: Reaps(w, id))
  }

  /** Every operation that ends an idle period moves on to a new generation. */
  lemma NewGeneration(w: World, l: Lease)
    requires Inv(w)
    ensures Inv(StopTimer(w.(generation := w.generation + 1)).(lease := l.(idle := false)))
  {
  }

  lemma RetainKeeps(w: World, ttl: int, identity: Option<Identity>, healthy: bool, status: Option<int>)
    requires Inv(w)
    ensures Inv(Retain(w, ttl, identity, healthy, status).0)
  {
    var (w1, ok) := Retain(w, ttl, identity, healthy, status);
    if ok {
      forall id: nat | id in w1.callbacks ensures CallbackFits(w1, id) {
        assert id in w.callbacks ==> CallbackFits(w, id);
      }
      assert Reaps(w1, w.next);
    }
  }

  lemma ExpireKeeps(w: World, id: nat, stopped: bool)
    requires Inv(w) && id in w.callbacks
    ensures Inv(Expire(w, id, stopped))
  {
    var w1 := Expire(w, id, stopped);
    assert CallbackFits(w, id);
    forall k: nat | k in w1.callbacks ensures CallbackFits(w1, k) {
      assert k in w.callbacks ==> CallbackFits(w, k);
    }
    if w1.lease.idle {
      var k: nat :| Reaps(w, k);
      if w.held && k == id {
        assert Reaps(w1, w.next);
      } else if !w.held && w.callbacks[id].generation == w.generation {
        assert Reaps(w1, w.next);
      } else {
        assert Reaps(w1, k);
      }
    }
  }

  lemma QuietKeeps(w: World, step: Step)
    requires Inv(w) && (step.Lock? || step.Unlock? || step.Fire? || step.Tick? || step.CoreChange?)
    ensures Inv(Do(w, step))
  {
    var w1 := Do(w, step);
    forall k: nat | k in w1.callbacks ensures CallbackFits(w1, k) {
      assert CallbackFits(w, k);
    }
    if w1.lease.idle {
      var k: nat :| Reaps(w, k);
      assert Reaps(w1, k);
    }
  }

  lemma DoKeeps(w: World, step: Step)
    requires Inv(w)
    ensures Inv(Do(w, step))
  {
    match step
    case DoRemember(identity, verification) => RememberKeeps(w, identity, verification);
    case DoRetain(ttl, identity, healthy, status) => RetainKeeps(w, ttl, identity, healthy, status);
    case DoResume(identity, healthy, status) => ResumeKeeps(w, identity, healthy, status);
    case DoInvalidate => NewGeneration(w, EMPTY);
    case DoExpire(id, stopped) => if id in w.callbacks { ExpireKeeps(w, id, stopped); }
    case _ => QuietKeeps(w, step);
  }

  lemma {:induction false} RunInv(clock: int, steps: seq<Step>)
    ensures Inv(Run(clock, steps))
  {
    if steps != [] {
      RunInv(clock, steps[..|steps| - 1]);
      DoKeeps(Run(clock, steps[..|steps| - 1]), steps[|steps| - 1]);
      hide Inv, Do;
    }
  }

  // ---- What every run keeps ----

  /** Whenever a core is kept warm, a callback is pending that will act on it in time. */
  lemma IdleHasReaper(clock: int, steps: seq<Step>)
    requires Run(clock, steps).lease.idle
    ensures exists id: nat :: Reaps(Run(clock, steps), id)
  {
    RunInv(clock, steps);
  }

  /**
   A callback changes the lease, or stops the core, if and only if it was armed in the idle
   period that is still going on, that period is over its time, and nobody holds captureMu.
   */
  lemma CallbackActsIff(clock: int, steps: seq<Step>, id: nat, stopped: bool)
    requires id in Run(clock, steps).callbacks
    ensures var w := Run(clock, steps);
            var c := w.callbacks[id];
            var w1 := Expire(w, id, stopped);
            && (w1.lease != w.lease || w1.core != w.core ==> w1.lease == EMPTY)
            && (w1.lease != w.lease <==>
                  w.lease.idle && c.period == w.period && w.clock >= w.lease.expiresAt && !w.held)
  {
    var w := Run(clock, steps);
    RunInv(clock, steps);
    assert CallbackFits(w, id);
    hide Run;
  }

  /** The generation alone tells the callback all this: it is current exactly in that idle period. */
  lemma GenerationIsPeriod(clock: int, steps: seq<Step>, id: nat)
    requires id in Run(clock, steps).callbacks
    ensures var w := Run(clock, steps);
            var c := w.callbacks[id];
            c.generation == w.generation <==> w.lease.idle && c.period == w.period
  {
    RunInv(clock, steps);
    assert CallbackFits(Run(clock, steps), id);
    hide Run;
  }

  /**
   After a lease has expired its core is running without any callback that could still act,
   if and only if it was running and could not be stopped.
   */
  lemma UnreapedCoreIff(clock: int, steps: seq<Step>, id: nat, stopped: bool)
    requires id in Run(clock, steps).callbacks
    requires Expire(Run(clock, steps), id, stopped).lease != Run(clock, steps).lease
    ensures var w := Run(clock, steps);
            var w1 := Expire(w, id, stopped);
            w1.core.Some? && !(exists k: nat :: Reaps(w1, k)) <==> w.core.Some? && !stopped
  {
    var w := Run(clock, steps);
    CallbackActsIff(clock, steps, id, stopped);
    RunInv(clock, steps);
    var w1 := Expire(w, id, stopped);
    forall k: nat ensures !Reaps(w1, k) {
      assert k in w.callbacks ==> CallbackFits(w, k);
    }
    hide Run;
  }

  /**
   A capture command leaves an idle lease behind only if it says so, or if it failed before it
   touched anything. A reuse never restarts the core, and returns to the very identity that was
   remembered, strictly before the expiry.
   */
  lemma PrepareOutcome(w: World, mode: Mode, retain: bool, ttl: int, f: Findings)
    requires Inv(w)
    ensures var (w1, r) := Prepare(w, mode, retain, ttl, f);
            && (w1.lease.idle <==> r == Warm || (w.lease.idle && w1 == w))
            && (r == Warm ==> mode == Off && retain && w1.lease == w.lease.(idle := true, expiresAt := w.clock + ttl))
            && (r == Reused ==>
                  && mode == SystemProxy && w.lease.idle && w.clock < w.lease.expiresAt
                  && f.identity == Some(w.lease.identity) && f.status == Some(w.lease.identity.pid)
                  && w1.core == w.core && w1.lease == w.lease.(idle := false, expiresAt := 0))
            && (r == Error ==> w1 == w || w1.lease == EMPTY)
            && (r == Running && mode == Tun ==> w1.lease == EMPTY)
  {
  }

  lemma PrepareKeeps(w: World, mode: Mode, retain: bool, ttl: int, f: Findings)
    requires Inv(w)
    ensures Inv(Prepare(w, mode, retain, ttl, f).0)
  {
    ResumeKeeps(w, f.identity, f.healthy, f.status);
    RetainKeeps(w, ttl, f.identity, f.healthy, f.status);
    NewGeneration(w, EMPTY);
    var w1 := Invalidate(w);
    CoreIrrelevant(w1, None);
    CoreIrrelevant(w1, f.started);
    RememberKeeps(w1.(core := f.started), f.newIdentity, f.verification);
    hide Inv, Resume, Retain, Remember, Invalidate;
  }

  lemma ResumeKeeps(w: World, identity: Option<Identity>, healthy: bool, status: Option<int>)
    requires Inv(w)
    ensures Inv(Resume(w, identity, healthy, status).0)
  {
  }

  lemma RememberKeeps(w: World, identity: Option<Identity>, verification: string)
    requires Inv(w)
    ensures Inv(Remember(w, identity, verification))
  {
  }

  lemma CoreIrrelevant(w: World, core: Option<int>)
    requires Inv(w)
    ensures Inv(w.(core := core))
  {
    QuietKeeps(w, CoreChange(core));
  }
}
