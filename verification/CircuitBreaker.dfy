/**
 The repair budget of the self-heal engine: a circuit breaker per fault key, used by one
 goroutine that begins an attempt, waits, repairs and completes.
 */
module CircuitBreaker {
  import opened Common

  /** Times are integers on a clock that never goes back; None is the zero time. */
  datatype Record = Record(attempts: nat, windowStart: Option<int>, openUntil: Option<int>, halfOpen: bool)

  datatype Budget = Budget(max: int, window: int, cooldown: int)

  datatype Circuit = Disabled | Open | HalfOpenBusy | HalfOpen | Opened | Closed | PersistFailed

  const FRESH := Record(0, None, None, false)

  function Lookup(records: map<string, Record>, key: string): Record {
    if key in records then records[key] else FRESH
  }

  /** The start of a new window forgets the attempts and closes the circuit. */
  function Rolled(r: Record, b: Budget, now: int): Record {
    if r.windowStart.None? || now - r.windowStart.value >= b.window then Record(0, Some(now), None, false) else r
  }

  /** begin, on the record of its key; the flag says whether the attempt may run. */
  function Begin(r: Record, b: Budget, now: int, persisted: bool): (Record, Circuit, bool) {
    if b.max <= 0 then (r, Disabled, false)
    else
      var w := Rolled(r, b, now);
      if w.openUntil.Some? then
        if now < w.openUntil.value then (r, Open, false)
        else if w.halfOpen then (r, HalfOpenBusy, false)
        else (w.(halfOpen := true), if persisted then HalfOpen else PersistFailed, persisted)
      else if w.attempts >= b.max then
        (w.(openUntil := Some(now + b.cooldown)), if persisted then Opened else PersistFailed, false)
      else (w, Closed, true)
  }

  function Complete(r: Record, b: Budget, now: int, success: bool): Record {
    if success then r.(attempts := 0, openUntil := None, halfOpen := false)
    else if r.attempts + 1 >= b.max then
      r.(attempts := r.attempts + 1, openUntil := Some(now + b.cooldown), halfOpen := false)
    else r.(attempts := r.attempts + 1, halfOpen := false)
  }

  /**
   One event: when it begins, whether the state could be saved then, whether the backoff was
   slept through, and when and how the repair ended.
   */
  datatype Round = Round(at: int, persisted: bool, slept: bool, done: int, success: bool)

  datatype Outcome =
    | Refused(circuit: Circuit) | Interrupted(circuit: Circuit)
    | Failed(circuit: Circuit) | Succeeded(circuit: Circuit)

  /** process, from begin on. */
  function Process(r: Record, b: Budget, e: Round): (Record, Outcome) {
    var (r1, circuit, allowed) := Begin(r, b, e.at, e.persisted);
    if !allowed then (r1, Refused(circuit))
    else if !e.slept then (if circuit == HalfOpen then r1.(halfOpen := false) else r1, Interrupted(circuit))
    else (Complete(r1, b, e.done, e.success), if e.success then Succeeded(circuit) else Failed(circuit))
  }

  class BudgetStore {
    var records: map<string, Record>

    constructor ()
      ensures records == map[]
    {
      records := map[];
    }

    /** Only a refused probe and a disabled budget leave the stored records alone. */
    method BeginAttempt(key: string, b: Budget, now: int, persisted: bool) returns (circuit: Circuit, allowed: bool)
      modifies this
      ensures var (r, c, a) := Begin(Lookup(old(records), key), b, now, persisted);
              && (circuit, allowed) == (c, a)
              && records == if c in {Disabled, Open, HalfOpenBusy} then old(records) else old(records)[key := r]
    {
      if b.max <= 0 {
        return Disabled, false;
      }
      var record := Lookup(records, key);
      if record.windowStart.None? || now - record.windowStart.value >= b.window {
        record := Record(0, Some(now), None, false);
      }
      if record.openUntil.Some? {
        if now < record.openUntil.value {
          return Open, false;
        }
        if record.halfOpen {
          return HalfOpenBusy, false;
        }
        record := record.(halfOpen := true);
        records := records[key := record];
        return if persisted then HalfOpen else PersistFailed, persisted;
      }
      if record.attempts >= b.max {
        record := record.(openUntil := Some(now + b.cooldown));
        records := records[key := record];
        return if persisted then Opened else PersistFailed, false;
      }
      records := records[key := record];
      return Closed, true;
    }

    method CancelHalfOpen(key: string)
      modifies this
      ensures records ==
              if key in old(records) then old(records)[key := old(records)[key].(halfOpen := false)] else old(records)
    {
      if key in records && records[key].halfOpen {
        records := records[key := records[key].(halfOpen := false)];
      }
    }

    method CompleteAttempt(key: string, b: Budget, now: int, success: bool)
      modifies this
      ensures records == old(records)[key := Complete(Lookup(old(records), key), b, now, success)]
    {
      var record := Lookup(records, key);
      if success {
        record := record.(attempts := 0, openUntil := None, halfOpen := false);
      } else {
        record := record.(attempts := record.attempts + 1, halfOpen := false);
        if record.attempts >= b.max {
          record := record.(openUntil := Some(now + b.cooldown));
        }
      }
      records := records[key := record];
    }

    /** One event of the engine touches the record of its own key only. */
    method ProcessEvent(key: string, b: Budget, e: Round) returns (o: Outcome)
      modifies this
      ensures (Lookup(records, key), o) == Process(Lookup(old(records), key), b, e)
      ensures forall k :: k != key ==> Lookup(records, k) == Lookup(old(records), k)
    {
      var circuit, allowed := BeginAttempt(key, b, e.at, e.persisted);
      if !allowed {
        return Refused(circuit);
      }
      if !e.slept {
        if circuit == HalfOpen {
          CancelHalfOpen(key);
        }
        return Interrupted(circuit);
      }
      CompleteAttempt(key, b, e.done, e.success);
      o := if e.success then Succeeded(circuit) else Failed(circuit);
    }
  }

  // ---- The decision of begin ----

  /** Every decision of begin as a condition on the record, and the only thing that it may set beyond the window. */
  lemma BeginDecides(r: Record, b: Budget, now: int, persisted: bool)
    ensures var (r1, circuit, allowed) := Begin(r, b, now, persisted);
            var inWindow := r.windowStart.Some? && now - r.windowStart.value < b.window;
            var open := inWindow && r.openUntil.Some?;
            var probe := open && now >= r.openUntil.value && !r.halfOpen;
            var usedUp := inWindow && !open && r.attempts >= b.max;
            && (circuit == Disabled <==> b.max <= 0)
            && (circuit == Open <==> b.max > 0 && open && now < r.openUntil.value)
            && (circuit == HalfOpenBusy <==> b.max > 0 && open && now >= r.openUntil.value && r.halfOpen)
            && (circuit == HalfOpen <==> b.max > 0 && probe && persisted)
            && (circuit == Opened <==> b.max > 0 && usedUp && persisted)
            && (circuit == PersistFailed <==> b.max > 0 && (probe || usedUp) && !persisted)
            && (circuit == Closed <==> b.max > 0 && (!inWindow || (!open && r.attempts < b.max)))
            && (allowed <==> circuit == HalfOpen || circuit == Closed)
            && (b.max > 0 ==>
                  r1 == if !inWindow then Record(0, Some(now), None, false)
                        else if probe then r.(halfOpen := true)
                        else if usedUp then r.(openUntil := Some(now + b.cooldown))
                        else r)
            && (b.max <= 0 ==> r1 == r)
  {
  }

  // ---- Runs ----

  /** The engine handles events one after the other. */
  predicate Serial(es: seq<Round>) {
    && (forall i :: 0 <= i < |es| ==> es[i].at <= es[i].done)
    && (forall i :: 0 < i < |es| ==> es[i - 1].done <= es[i].at)
  }

  predicate Persisting(es: seq<Round>) {
    forall i :: 0 <= i < |es| ==> es[i].persisted
  }

  function Run(r: Record, b: Budget, es: seq<Round>): Record {
    if es == [] then r else Process(Run(r, b, es[..|es| - 1]), b, es[|es| - 1]).0
  }

  /** What became of event i. */
  function OutcomeOf(r: Record, b: Budget, es: seq<Round>, i: nat): Outcome
    requires i < |es|
  {
    Process(Run(r, b, es[..i]), b, es[i]).1
  }

  /** Between events no probe is in flight, and the circuit is open exactly when the budget is used up. */
  predicate Settled(r: Record, b: Budget) {
    && !r.halfOpen
    && (r.openUntil.Some? <==> r.attempts >= b.max)
    && (r.windowStart.None? ==> r.attempts == 0)
    && (r.openUntil.Some? ==> r.windowStart.Some? && r.openUntil.value >= r.windowStart.value + b.cooldown)
  }

  /** Nothing in the record lies in the future, apart from the cooldown. */
  predicate Past(r: Record, now: int) {
    r.windowStart.Some? ==> r.windowStart.value <= now
  }

  lemma ProcessKeeps(r: Record, b: Budget, e: Round)
    requires b.max > 0 && Settled(r, b) && e.persisted && Past(r, e.at) && e.at <= e.done
    ensures Settled(Process(r, b, e).0, b) && Past(Process(r, b, e).0, e.done)
  {
  }

  lemma {:induction false} RunKeeps(b: Budget, es: seq<Round>)
    requires b.max > 0 && Serial(es) && Persisting(es)
    ensures var r := Run(FRESH, b, es);
            Settled(r, b) && (es == [] ==> r == FRESH) && (es != [] ==> Past(r, es[|es| - 1].done))
  {
    if es != [] {
      var k := |es| - 1;
      RunKeeps(b, es[..k]);
      ProcessKeeps(Run(FRESH, b, es[..k]), b, es[k]);
    }
  }

  /**
   In every serial run with working persistence the budget check of begin never fires: the
   circuit is always opened by the failure that used up the budget.
   */
  lemma NeverOpenedByBegin(b: Budget, es: seq<Round>, i: nat)
    requires b.max > 0 && Serial(es) && Persisting(es) && i < |es|
    ensures OutcomeOf(FRESH, b, es, i) != Refused(Opened) && OutcomeOf(FRESH, b, es, i) != Refused(HalfOpenBusy)
  {
    RunKeeps(b, es[..i]);
  }

  /** An open circuit refuses everything until its time, and remembers everything. */
  lemma OpenRefuses(r: Record, b: Budget, e: Round)
    requires b.max > 0 && r.openUntil.Some? && r.windowStart.Some?
    requires e.at < r.openUntil.value && e.at < r.windowStart.value + b.window
    ensures Process(r, b, e) == (r, Refused(Open))
  {
  }

  lemma {:induction false} OpenRefusesAll(r: Record, b: Budget, es: seq<Round>, i: nat)
    requires b.max > 0 && r.openUntil.Some? && r.windowStart.Some? && i < |es|
    requires forall k :: 0 <= k < |es| ==> es[k].at < r.openUntil.value && es[k].at < r.windowStart.value + b.window
    ensures Run(r, b, es) == r && OutcomeOf(r, b, es, i) == Refused(Open)
  {
    var k := |es| - 1;
    hide Process;
    OpenRefuses(r, b, es[k]);
    assert k == 0 ==> es[..k] == [];
    if k > 0 {
      OpenRefusesAll(r, b, es[..k], if i < k then i else k - 1);
    }
    if i < k {
      assert es[..k][..i] == es[..i];
    }
  }

  // ---- How many attempts are admitted ----

  /** Where the current window starts, by the times of the events alone: with the first event past the last window. */
  function WindowOf(b: Budget, es: seq<Round>): Option<int>
    decreases |es|, 1
  {
    if es == [] then None
    else
      var k := |es| - 1;
      if NewWindow(b, es, k) then Some(es[k].at) else WindowOf(b, es[..k])
  }

  /** Event k opens a window. */
  predicate NewWindow(b: Budget, es: seq<Round>, k: nat)
    requires k < |es|
    decreases k, 2
  {
    var start := WindowOf(b, es[..k]);
    start.None? || es[k].at - start.value >= b.window
  }

  /** A window, once open, is neither prolonged nor restarted by anything that happens in it. */
  lemma {:induction false} WindowIsFixed(b: Budget, es: seq<Round>)
    requires b.max > 0
    ensures var r := Run(FRESH, b, es);
            r.windowStart == WindowOf(b, es) && (r.openUntil.Some? ==> r.windowStart.Some?)
  {
    if es != [] {
      var k := |es| - 1;
      WindowIsFixed(b, es[..k]);
      WindowStep(Run(FRESH, b, es[..k]), b, es[k]);
      hide Process;
    }
  }

  lemma WindowStep(r: Record, b: Budget, e: Round)
    requires b.max > 0 && (r.openUntil.Some? ==> r.windowStart.Some?)
    ensures var r1 := Process(r, b, e).0;
            var past := r.windowStart.None? || e.at - r.windowStart.value >= b.window;
            && r1.windowStart == (if past then Some(e.at) else r.windowStart)
            && (r1.openUntil.Some? ==> r1.windowStart.Some?)
  {
  }

  /** Failures since the last success or the start of the window. */
  function Streak(b: Budget, es: seq<Round>): nat {
    if es == [] then 0
    else
      var k := |es| - 1;
      var carried := if NewWindow(b, es, k) then 0 else Streak(b, es[..k]);
      match OutcomeOf(FRESH, b, es, k)
      case Failed(_) => carried + 1
      case Succeeded(_) => 0
      case _ => carried
  }

  lemma AttemptsStep(r: Record, b: Budget, e: Round)
    requires b.max > 0 && Settled(r, b)
    ensures var carried := if r.windowStart.None? || e.at - r.windowStart.value >= b.window then 0 else r.attempts;
            Process(r, b, e).0.attempts == match Process(r, b, e).1
              case Failed(_) => carried + 1
              case Succeeded(_) => 0
              case _ => carried
  {
  }

  /** The counter in the record is that number. */
  lemma {:induction false} AttemptsAreStreak(b: Budget, es: seq<Round>)
    requires b.max > 0 && Serial(es) && Persisting(es)
    ensures Run(FRESH, b, es).attempts == Streak(b, es)
  {
    if es != [] {
      var k := |es| - 1;
      AttemptsAreStreak(b, es[..k]);
      WindowIsFixed(b, es[..k]);
      RunKeeps(b, es[..k]);
      AttemptsStep(Run(FRESH, b, es[..k]), b, es[k]);
      hide Process, Settled;
    }
  }

  /** When the last attempt that failed ended. */
  function LastFailure(b: Budget, es: seq<Round>): Option<int> {
    if es == [] then None
    else
      var k := |es| - 1;
      if OutcomeOf(FRESH, b, es, k).Failed? then Some(es[k].done) else LastFailure(b, es[..k])
  }

  /** The circuit stays open for the cooldown from there. */
  lemma {:induction false} OpenSinceFailure(b: Budget, es: seq<Round>)
    requires b.max > 0 && Serial(es) && Persisting(es)
    ensures var r := Run(FRESH, b, es);
            r.openUntil.Some? ==> LastFailure(b, es).Some? && r.openUntil.value == LastFailure(b, es).value + b.cooldown
  {
    if es != [] {
      var k := |es| - 1;
      OpenSinceFailure(b, es[..k]);
      RunKeeps(b, es[..k]);
      OpenStep(Run(FRESH, b, es[..k]), b, es[k]);
      hide Process, Settled;
    }
  }

  predicate AdmittedAs(o: Outcome, c: Circuit) {
    !o.Refused? && o.circuit == c
  }

  /**
   Which attempts run. As an ordinary attempt: exactly those in a new window, or after fewer
   than max failures in this one. As a probe: exactly those after that, once the cooldown
   since the last failure is over. There is no third kind.
   */
  lemma AdmissionIff(b: Budget, es: seq<Round>, i: nat)
    requires b.max > 0 && Serial(es) && Persisting(es) && i < |es|
    ensures var o := OutcomeOf(FRESH, b, es, i);
            var used := !NewWindow(b, es, i) && Streak(b, es[..i]) >= b.max;
            && (used ==> LastFailure(b, es[..i]).Some?)
            && (AdmittedAs(o, Closed) <==> !used)
            && (AdmittedAs(o, HalfOpen) <==> used && es[i].at >= LastFailure(b, es[..i]).value + b.cooldown)
            && (o.Refused? <==> used && es[i].at < LastFailure(b, es[..i]).value + b.cooldown)
  {
    RunKeeps(b, es[..i]);
    WindowIsFixed(b, es[..i]);
    AttemptsAreStreak(b, es[..i]);
    OpenSinceFailure(b, es[..i]);
    hide Run, Streak, LastFailure, WindowOf;
  }

  /** Event i failed and set the time until which the circuit is open; no attempt ended after it. */
  ghost predicate OpenedBy(r: Record, b: Budget, es: seq<Round>, i: nat) {
    && i < |es| && OutcomeOf(r, b, es, i).Failed?
    && Run(r, b, es).openUntil == Some(es[i].done + b.cooldown)
    && NoAttemptAfter(r, b, es, i)
  }

  predicate NoAttempt(o: Outcome) {
    o.Refused? || o.Interrupted?
  }

  ghost predicate NoAttemptAfter(r: Record, b: Budget, es: seq<Round>, i: nat) {
    forall j :: i < j < |es| ==> NoAttempt(OutcomeOf(r, b, es, j))
  }

  lemma NoAttemptMore(r: Record, b: Budget, es: seq<Round>, i: nat)
    requires es != [] && i < |es| - 1 && NoAttempt(OutcomeOf(r, b, es, |es| - 1))
    ensures NoAttemptAfter(r, b, es[..|es| - 1], i) ==> NoAttemptAfter(r, b, es, i)
    ensures OutcomeOf(r, b, es[..|es| - 1], i) == OutcomeOf(r, b, es, i)
  {
    hide OutcomeOf, NoAttempt;
    var k := |es| - 1;
    OutcomePrefix(r, b, es, k, i);
    if NoAttemptAfter(r, b, es[..k], i) {
      forall j | i < j < |es| ensures NoAttempt(OutcomeOf(r, b, es, j)) {
        if j < k {
          OutcomePrefix(r, b, es, k, j);
        }
      }
    }
  }

  lemma OutcomePrefix(r: Record, b: Budget, es: seq<Round>, k: nat, i: nat)
    requires i < k <= |es|
    ensures OutcomeOf(r, b, es[..k], i) == OutcomeOf(r, b, es, i)
  {
    assert es[..k][..i] == es[..i];
  }

  /** The cooldown always counts from the end of the last failed attempt. */
  lemma {:induction false} CooldownFromLastFailure(b: Budget, es: seq<Round>)
    requires b.max > 0 && Serial(es) && Persisting(es)
    ensures Run(FRESH, b, es).openUntil.Some? ==> exists i: nat :: OpenedBy(FRESH, b, es, i)
  {
    if es != [] {
      var k := |es| - 1;
      CooldownFromLastFailure(b, es[..k]);
      RunKeeps(b, es[..k]);
      var before, after := Run(FRESH, b, es[..k]), Run(FRESH, b, es);
      assert after == Process(before, b, es[k]).0;
      OpenStep(before, b, es[k]);
      hide Process, Settled, NoAttemptAfter;
      if after.openUntil.Some? {
        if OutcomeOf(FRESH, b, es, k).Failed? {
          assert OpenedBy(FRESH, b, es, k);
        } else {
          var i: nat :| OpenedBy(FRESH, b, es[..k], i);
          NoAttemptMore(FRESH, b, es, i);
          assert OpenedBy(FRESH, b, es, i);
        }
      }
    }
  }

  lemma OpenStep(r: Record, b: Budget, e: Round)
    requires b.max > 0 && Settled(r, b) && e.persisted
    ensures var (r1, o) := Process(r, b, e);
            r1.openUntil.Some? ==>
              if o.Failed? then r1.openUntil == Some(e.done + b.cooldown)
              else !o.Succeeded? && r1.openUntil == r.openUntil
  {
  }

  // ---- When probes exist ----

  function Failing(): Round {
    Round(0, true, true, 0, false)
  }

  lemma {:induction false} FailMany(b: Budget, n: nat)
    requires 0 < n <= b.max && b.window > 0
    ensures Run(FRESH, b, seq(n, _ => Failing())) ==
            Record(n, Some(0), if n >= b.max then Some(b.cooldown) else None, false)
  {
    var es := seq(n, _ => Failing());
    assert es[..n - 1] == seq(n - 1, _ => Failing());
    if n > 1 {
      FailMany(b, n - 1);
    } else {
      assert es[..0] == [];
    }
  }

  /**
   The half-open state can be reached at all if and only if the cooldown is shorter than the
   window. The engine's defaults, 10 and 5 minutes, rule it out: there the start of a new
   window reopens the circuit before any cooldown ends.
   */
  lemma ProbesExistIff(b: Budget)
    requires b.max > 0 && b.window > 0 && b.cooldown > 0
    ensures (exists es, i: nat ::
               i < |es| && Serial(es) && Persisting(es) && AdmittedAs(OutcomeOf(FRESH, b, es, i), HalfOpen))
            <==> b.cooldown < b.window
  {
    if b.cooldown < b.window {
      var n := b.max;
      var fails := seq(n, _ => Failing());
      FailMany(b, n);
      var es := fails + [Round(b.cooldown, true, true, b.cooldown, true)];
      assert es[..n] == fails;
      assert AdmittedAs(OutcomeOf(FRESH, b, es, n), HalfOpen);
      assert Serial(es) && Persisting(es);
    }
    forall es, i: nat | i < |es| && Serial(es) && Persisting(es) && AdmittedAs(OutcomeOf(FRESH, b, es, i), HalfOpen)
      ensures b.cooldown < b.window
    {
      RunKeeps(b, es[..i]);
    }
  }

  lemma DefaultsHaveNoProbes(max: int, es: seq<Round>, i: nat)
    requires max > 0 && i < |es| && Serial(es) && Persisting(es)
    ensures !AdmittedAs(OutcomeOf(FRESH, Budget(max, 300, 600), es, i), HalfOpen)
  {
    ProbesExistIff(Budget(max, 300, 600));
  }

  // ---- A lost probe ----

  /**
   A probe stays marked as in flight after its event if and only if begin could not save it:
   the engine gives up without releasing it.
   */
  lemma ProbeLostIff(r: Record, b: Budget, e: Round)
    requires b.max > 0 && Settled(r, b)
    ensures Process(r, b, e).0.halfOpen <==>
            && !e.persisted && r.openUntil.Some? && e.at >= r.openUntil.value
            && r.windowStart.Some? && e.at - r.windowStart.value < b.window
  {
  }

  /** A lost probe, like one that a restart finds in the saved state, blocks the key for the rest of the window. */
  lemma {:induction false} LostProbeBlocks(r: Record, b: Budget, es: seq<Round>, i: nat)
    requires b.max > 0 && r.halfOpen && r.openUntil.Some? && r.windowStart.Some? && i < |es|
    requires forall k :: 0 <= k < |es| ==> es[k].at < r.windowStart.value + b.window
    ensures Run(r, b, es) == r && OutcomeOf(r, b, es, i).Refused?
  {
    var k := |es| - 1;
    assert Process(r, b, es[k]).0 == r && Process(r, b, es[k]).1.Refused?;
    assert k == 0 ==> es[..k] == [];
    hide Process;
    if k > 0 {
      LostProbeBlocks(r, b, es[..k], if i < k then i else k - 1);
    }
    if i < k {
      assert es[..k][..i] == es[..i];
    }
  }
}
