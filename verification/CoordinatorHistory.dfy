/**
 The history of an interleaving of the coordinator's callers: who queued, who was granted in
 which order, and who was superseded by whom.
 */
module CoordinatorHistory {
  import opened Common
  import opened ConnectionPolicy
  import opened Coordinator
  import opened CoordinatorPriority
  import opened CoordinatorRuns

  /** The waiter that this step appends to the queue. */
  function QueuedBy(t: Text, w: World, step: Step): Option<Waiter> {
    if step.Begin? && !Free(w.state) then Some(NewWaiter(t, w.state, step.request)) else None
  }

  /** The step runs the once-guarded body of Finish. */
  predicate Finishes(w: World, step: Step) {
    match step
    case Finish(tx, _) => tx in w.held && Unfinished(w, tx)
    case Drain(n) =>
      n in w.stages && w.stages[n].Ready? && w.stages[n].m.Granted? && Unfinished(w, w.stages[n].m.tx)
    case _ => false
  }

  /** The waiter that this step grants. */
  function GrantedBy(w: World, step: Step): Option<Waiter> {
    if Finishes(w, step) then Next(w.state) else None
  }

  /** Everybody who ever queued, in order of arrival. */
  function Arrivals(t: Text, steps: seq<Step>): seq<Waiter> {
    if steps == [] then []
    else
      var (before, step) := (steps[..|steps| - 1], steps[|steps| - 1]);
      var q := QueuedBy(t, Run(t, before), step);
      Arrivals(t, before) + if q.Some? then [q.value] else []
  }

  /** Everybody who was ever granted, in order of the grants. */
  function Grants(t: Text, steps: seq<Step>): seq<Waiter> {
    if steps == [] then []
    else
      var (before, step) := (steps[..|steps| - 1], steps[|steps| - 1]);
      var g := GrantedBy(Run(t, before), step);
      Grants(t, before) + if g.Some? then [g.value] else []
  }

  /** A waiter is sent a transaction exactly by the step that grants it. */
  lemma GrantedIff(t: Text, w: World, step: Step, n: nat)
    requires QueueInv(w) && n in w.stages && w.stages[n] == Waiting
    ensures var w1 := Do(t, w, step);
            (n in w1.stages && w1.stages[n].Sending? && w1.stages[n].m.Granted?) <==>
            (GrantedBy(w, step).Some? && GrantedBy(w, step).value.sequence == n)
  {
    NextWaits(w);
    hide QueueInv, Kept, Dropped, Best, Start;
  }

  // ---- First come, first served ----

  /** A grant never overtakes an earlier waiter of its domain. */
  lemma NoOvertaking(w: World, step: Step)
    requires QueueInv(w)
    ensures var g := GrantedBy(w, step);
            g.Some? ==>
              && g.value in w.state.queue
              && forall q :: q in w.state.queue && q != g.value && q.policy.domain == g.value.policy.domain ==>
                   g.value.sequence < q.sequence
  {
    var queue := w.state.queue;
    if queue != [] {
      BestExists(queue, w.state.seqno);
      var b := Best(queue, |queue|);
      forall q | q in queue && q != queue[b] && q.policy.domain == queue[b].policy.domain
        ensures queue[b].sequence < q.sequence
      {
        var k :| 0 <= k < |queue| && queue[k] == q;
        assert Before(queue[b], queue[k]);
      }
    }
  }

  /** Finish takes the granted waiter, if any, out of the queue. */
  lemma FinishQueue(t: Text, w: World, tx: nat, error: Option<string>)
    requires Unfinished(w, tx)
    ensures var s := FinishTx(t, w, tx, error).state;
            && s.seqno >= w.state.seqno
            && (w.state.queue == [] ==> s.queue == [])
            && (w.state.queue != [] ==> s.queue == RemoveAt(w.state.queue, Best(w.state.queue, |w.state.queue|)))
  {
    hide Best;
  }

  lemma Removed(q: seq<Waiter>, issued: nat, b: nat)
    requires Ordered(q, issued) && b < |q|
    ensures forall x :: x in RemoveAt(q, b) ==> x in q && x != q[b]
  {
  }

  /** What a step does to the queue. */
  ghost predicate QueueMoved(w: World, w1: World, q: Option<Waiter>, g: Option<Waiter>) {
    && w1.state.seqno >= w.state.seqno
    && (q.Some? ==> q.value.sequence == w.state.seqno + 1 <= w1.state.seqno)
    && (forall x :: x in w1.state.queue ==> (x in w.state.queue && g != Some(x)) || q == Some(x))
  }

  /** Nobody joins the queue by a Finish, and whoever it grants leaves. */
  lemma FinishLeaves(t: Text, w: World, tx: nat, error: Option<string>)
    requires Unfinished(w, tx) && Ordered(w.state.queue, w.state.seqno)
    ensures var s := FinishTx(t, w, tx, error).state;
            && s.seqno >= w.state.seqno
            && forall x :: x in s.queue ==> x in w.state.queue && Next(w.state) != Some(x)
  {
    var queue := w.state.queue;
    FinishQueue(t, w, tx, error);
    if queue != [] {
      Removed(queue, w.state.seqno, Best(queue, |queue|));
    }
    hide FinishTx, Best, Ordered, RemoveAt;
  }

  lemma QueueStep(t: Text, w: World, step: Step)
    requires Inv(w)
    ensures QueueMoved(w, Do(t, w, step), QueuedBy(t, w, step), GrantedBy(w, step))
  {
    assert Ordered(w.state.queue, w.state.seqno);
    hide Inv, Best, Ordered, RanksFall, RemoveAt, Next;
    match step
    case Begin(r) =>
      if !Free(w.state) {
        EnqueuedFrom(w, NewWaiter(t, w.state, r));
      }
    case TryBegin(r) =>
    case Finish(tx, error) => if Finishes(w, step) { FinishLeaves(t, w, tx, error); }
    case Drain(n) =>
      if Finishes(w, step) {
        FinishLeaves(t, w.(stages := w.stages[n := Returned(Cancelled)]), w.stages[n].m.tx, CANCELLED);
      }
    case Cancel(n) => CancelQueue(w, n);
    case _ =>
  }

  lemma CancelQueue(w: World, n: nat)
    ensures forall x :: x in Remove(w.state, n).0.queue ==> x in w.state.queue
    ensures Remove(w.state, n).0.seqno == w.state.seqno
  {
  }

  lemma EnqueuedFrom(w: World, next: Waiter)
    requires Ordered(w.state.queue, w.state.seqno)
    ensures forall x :: x in Enqueue(w.state, next).queue ==> x in w.state.queue || x == next
  {
    KeptOrdered(w.state.queue, w.state.seqno, next);
  }

  /** Whoever was granted arrived before everybody of its domain who still waits. */
  ghost predicate GrantsFirst(grants: seq<Waiter>, s: State) {
    && (forall g :: g in grants ==> g.sequence <= s.seqno)
    && (forall g, q :: g in grants && q in s.queue && g.policy.domain == q.policy.domain ==> g.sequence < q.sequence)
  }

  lemma GrantsStep(grants: seq<Waiter>, w: World, w1: World, q: Option<Waiter>, g: Option<Waiter>)
    requires GrantsFirst(grants, w.state) && Fifo(grants) && QueueMoved(w, w1, q, g)
    requires Ordered(w.state.queue, w.state.seqno)
    requires g.Some? ==>
               && g.value in w.state.queue && q.None?
               && forall x :: x in w.state.queue && x != g.value && x.policy.domain == g.value.policy.domain ==>
                    g.value.sequence < x.sequence
    ensures var all := grants + if g.Some? then [g.value] else [];
            Fifo(all) && GrantsFirst(all, w1.state)
  {
    var all := grants + if g.Some? then [g.value] else [];
    forall x | x in all ensures x in grants || g == Some(x) {
    }
    forall i, j | 0 <= i < j < |all| && all[i].policy.domain == all[j].policy.domain
      ensures all[i].sequence < all[j].sequence
    {
      assert all[i] in grants;
    }
    hide Ordered, Fifo;
  }

  lemma {:induction false} RunGrants(t: Text, steps: seq<Step>)
    ensures Fifo(Grants(t, steps)) && GrantsFirst(Grants(t, steps), Run(t, steps).state)
  {
    if steps != [] {
      var before, step := steps[..|steps| - 1], steps[|steps| - 1];
      var w := Run(t, before);
      RunGrants(t, before);
      RunInv(t, before);
      assert Ordered(w.state.queue, w.state.seqno);
      QueueStep(t, w, step);
      NoOvertaking(w, step);
      assert QueuedBy(t, w, step).Some? ==> GrantedBy(w, step).None?;
      hide Do, Inv, QueueInv, Fifo, GrantsFirst, QueueMoved, Ordered, QueuedBy, GrantedBy;
      GrantsStep(Grants(t, before), w, Do(t, w, step), QueuedBy(t, w, step), GrantedBy(w, step));
    }
  }

  /** In every interleaving, the grants of one domain come in the order of arrival. */
  lemma DomainFifo(t: Text, steps: seq<Step>)
    ensures Fifo(Grants(t, steps))
  {
    RunGrants(t, steps);
  }

  /** In every interleaving, nobody is granted while an earlier waiter of the domain still waits. */
  lemma NeverOvertaken(t: Text, steps: seq<Step>, step: Step)
    ensures var w := Run(t, steps);
            GrantedBy(w, step).Some? ==>
              forall q :: q in w.state.queue && q.policy.domain == GrantedBy(w, step).value.policy.domain ==>
                GrantedBy(w, step).value.sequence <= q.sequence
  {
    RunInv(t, steps);
    NoOvertaking(Run(t, steps), step);
    hide Run, GrantedBy;
  }

  // ---- Who supersedes whom ----

  predicate Waits(w: World, n: nat) {
    n in w.stages && w.stages[n] == Waiting
  }

  /** The waiter has been told, or is being told, that it was superseded. */
  predicate IsSuperseded(w: World, n: nat) {
    n in w.stages && (w.stages[n] in {Sending(Superseded), Ready(Superseded), Returned(Refused)})
  }

  /** The step queues somebody who supersedes the waiting n. */
  ghost predicate SupersededBy(t: Text, w: World, step: Step, n: nat) {
    && QueuedBy(t, w, step).Some?
    && exists q :: q in w.state.queue && q.sequence == n && Supersedes(QueuedBy(t, w, step).value, q)
  }

  lemma QueueTells(t: Text, w: World, r: Request, n: nat)
    requires Inv(w) && !Free(w.state)
    ensures IsSuperseded(Queue(t, w, r), n) <==> IsSuperseded(w, n) || SupersededBy(t, w, Begin(r), n)
  {
    DroppedTells(t, w, r, n);
    hide SupersededBy, Dropped, Kept, Ordered, RanksFall, OwnerInv, CustodyInv;
  }

  lemma DroppedTells(t: Text, w: World, r: Request, n: nat)
    requires Inv(w) && !Free(w.state)
    ensures Holds(Dropped(w.state.queue, NewWaiter(t, w.state, r)), n) <==> SupersededBy(t, w, Begin(r), n)
    ensures SupersededBy(t, w, Begin(r), n) ==> Holds(w.state.queue, n)
  {
    var next := NewWaiter(t, w.state, r);
    KeptOrdered(w.state.queue, w.state.seqno, next);
    HoldsIff(Dropped(w.state.queue, next), n);
    HoldsIff(w.state.queue, n);
    hide Dropped, Kept, Supersedes, Ordered, RanksFall, OwnerInv, CustodyInv, NewWaiter, Holds, QueueInv;
  }

  lemma HoldsIff(s: seq<Waiter>, n: nat)
    ensures Holds(s, n) <==> exists q :: q in s && q.sequence == n
  {
    if q :| q in s && q.sequence == n {
      var i :| 0 <= i < |s| && s[i] == q;
    }
  }

  lemma FinishTellsNobody(t: Text, w: World, tx: nat, error: Option<string>, n: nat)
    requires tx < |w.txs|
    requires Next(w.state).Some? ==> Waits(w, Next(w.state).value.sequence)
    ensures IsSuperseded(FinishTx(t, w, tx, error), n) <==> IsSuperseded(w, n)
  {
    hide Next, Release;
  }

  /** No other step changes who is superseded. */
  lemma OthersTellNobody(t: Text, w: World, step: Step, n: nat)
    requires QueueInv(w) && !step.Begin?
    ensures IsSuperseded(Do(t, w, step), n) <==> IsSuperseded(w, n)
  {
    NextWaits(w);
    hide QueueInv, Next, Start, Remove, Release, FinishTx;
    match step
    case Finish(tx, error) =>
      if tx < |w.txs| {
        FinishTellsNobody(t, w, tx, error, n);
      }
    case Drain(k) =>
      if k in w.stages && w.stages[k].Ready? && w.stages[k].m.Granted? && w.stages[k].m.tx < |w.txs| {
        FinishTellsNobody(t, w.(stages := w.stages[k := Returned(Cancelled)]), w.stages[k].m.tx, CANCELLED, n);
      }
    case _ =>
  }

  lemma SupersededStep(t: Text, w: World, step: Step, n: nat)
    requires Inv(w)
    ensures IsSuperseded(Do(t, w, step), n) <==> IsSuperseded(w, n) || SupersededBy(t, w, step, n)
  {
    if !step.Begin? {
      OthersTellNobody(t, w, step, n);
      hide Do, Inv, IsSuperseded;
    } else if !Free(w.state) {
      QueueTells(t, w, step.request, n);
      hide Inv, Queue, IsSuperseded, SupersededBy;
    }
  }

  /** The step i of the run supersedes n. */
  ghost predicate SupersededAt(t: Text, steps: seq<Step>, i: nat, n: nat) {
    i < |steps| && SupersededBy(t, Run(t, steps[..i]), steps[i], n)
  }

  lemma SupersededPrefix(t: Text, steps: seq<Step>, n: nat)
    requires steps != []
    ensures var k := |steps| - 1;
            (exists i: nat :: SupersededAt(t, steps, i, n)) <==>
            (exists i: nat :: SupersededAt(t, steps[..k], i, n)) || SupersededBy(t, Run(t, steps[..k]), steps[k], n)
  {
    hide SupersededBy, Run;
    var k := |steps| - 1;
    forall i: nat ensures i < k ==> (SupersededAt(t, steps, i, n) <==> SupersededAt(t, steps[..k], i, n)) {
      if i < k {
        assert steps[..k][..i] == steps[..i];
      }
    }
    assert SupersededAt(t, steps, k, n) <==> SupersededBy(t, Run(t, steps[..k]), steps[k], n);
    if i: nat :| SupersededAt(t, steps, i, n) {
      assert i < k ==> SupersededAt(t, steps[..k], i, n);
    }
    if i: nat :| SupersededAt(t, steps[..k], i, n) {
      assert SupersededAt(t, steps, i, n);
    }
  }

  /** A waiter ends superseded if and only if somebody who supersedes it queued while it waited. */
  lemma {:induction false} SupersededIff(t: Text, steps: seq<Step>, n: nat)
    ensures IsSuperseded(Run(t, steps), n) <==> exists i: nat :: SupersededAt(t, steps, i, n)
  {
    if steps == [] {
      assert Run(t, steps).stages == map[];
    } else {
      hide Do, Inv, IsSuperseded, SupersededBy, SupersededAt;
      var k := |steps| - 1;
      SupersededIff(t, steps[..k], n);
      RunInv(t, steps[..k]);
      SupersededStep(t, Run(t, steps[..k]), steps[k], n);
      SupersededPrefix(t, steps, n);
    }
  }

  // ---- Startup recovery ----

  /** The request of recoverCaptureOnStartup, whose fault domain is the text capture. */
  ghost predicate StartupRecovery(fold: string -> string, r: Request) {
    r.operation == Recovery && r.origin == Startup && Controls(fold, r, Capture)
  }

  /** Any request of the capture domain from the user, the tray, self-healing or a shutdown. */
  ghost predicate OutranksStartup(fold: string -> string, r: Request) {
    Controls(fold, r, Capture) && r.origin in {User, Tray, SelfHealing, Shutdown}
  }

  ghost predicate SameArea(fold: string -> string, a: Request, b: Request) {
    exists d :: Controls(fold, a, d) && Controls(fold, b, d)
  }

  /** A request controls one area. */
  lemma OneArea(fold: string -> string, r: Request, d: Domain, e: Domain)
    requires Controls(fold, r, d) && Controls(fold, r, e)
    ensures d == e
  {
    DomainIsArea(fold, r, d);
    DomainIsArea(fold, r, e);
    hide Controls, PolicyFor;
  }

  lemma OutranksIff(fold: string -> string, recovery: Request, next: Request)
    requires StartupRecovery(fold, recovery)
    ensures MoreUrgent(next.origin, recovery.origin) && SameArea(fold, next, recovery) <==> OutranksStartup(fold, next)
  {
    if d :| Controls(fold, next, d) && Controls(fold, recovery, d) {
      OneArea(fold, recovery, d, Capture);
    }
    hide Controls;
  }

  /** Exactly these requests supersede a queued startup recovery. */
  lemma RecoverySupersededBy(fold: string -> string, recovery: Waiter, next: Waiter)
    requires StartupRecovery(fold, recovery.request) && Judged(fold, recovery) && Judged(fold, next)
    ensures Supersedes(next, recovery) <==> OutranksStartup(fold, next.request)
  {
    SupersedesIff(fold, next, recovery);
    OutranksIff(fold, recovery.request, next.request);
    hide Controls, Supersedes, MoreUrgent, Judged, OutranksStartup;
  }

  lemma NotIn(s: string, part: string, c: char)
    requires c in part && c !in s
    ensures !Occurs(part, s)
  {
    var i :| 0 <= i < |part| && part[i] == c;
    forall before, after ensures s != before + part + after {
      assert (before + part + after)[|before| + i] == c;
      assert c in before + part + after;
    }
  }

  /** The text that the agent passes names the capture domain. */
  lemma CaptureText(fold: string -> string, r: Request)
    requires Repairs(r) && fold(r.faultDomain) == "capture"
    ensures Controls(fold, r, Capture)
  {
    var s := "capture";
    NotIn(s, "core", 'o');
    NotIn(s, "node", 'o');
    NotIn(s, "outbound", 'o');
    NotIn(s, "policy", 'o');
    NotIn(s, "runtime", 'n');
    NotIn(s, "source", 'o');
    NotIn(s, "subscription", 's');
    hide Occurs;
    assert ROUTING_WORDS[0] == "node" && ROUTING_WORDS[1] == "outbound";
    assert ROUTING_WORDS[2] == "policy" && ROUTING_WORDS[3] == "runtime";
    assert SOURCE_WORDS[0] == "source" && SOURCE_WORDS[1] == "subscription";
  }

  /** Arrivals have different numbers, their policies are computed, and the queue consists of them. */
  ghost predicate ArrivalsInv(t: Text, arrivals: seq<Waiter>, s: State) {
    && (forall a, b :: a in arrivals && b in arrivals && a.sequence == b.sequence ==> a == b)
    && (forall a :: a in arrivals ==> a.sequence <= s.seqno && a.policy == PolicyFor(t.fold, a.request))
    && (forall q :: q in s.queue ==> q in arrivals)
  }

  lemma ArrivalsStep(t: Text, arrivals: seq<Waiter>, w: World, w1: World, q: Option<Waiter>, g: Option<Waiter>)
    requires ArrivalsInv(t, arrivals, w.state) && QueueMoved(w, w1, q, g)
    requires q.Some? ==> q.value.policy == PolicyFor(t.fold, q.value.request)
    ensures ArrivalsInv(t, arrivals + if q.Some? then [q.value] else [], w1.state)
  {
    hide PolicyFor;
    var all := arrivals + if q.Some? then [q.value] else [];
    assert forall x :: x in all <==> x in arrivals || q == Some(x);
  }

  lemma {:induction false} RunArrivals(t: Text, steps: seq<Step>)
    ensures ArrivalsInv(t, Arrivals(t, steps), Run(t, steps).state)
  {
    if steps != [] {
      var before, step := steps[..|steps| - 1], steps[|steps| - 1];
      var w := Run(t, before);
      var q := QueuedBy(t, w, step);
      assert q.Some? ==> q.value.policy == PolicyFor(t.fold, q.value.request);
      hide Do, Inv, QueuedBy, GrantedBy, PolicyFor, ArrivalsInv, QueueMoved;
      RunArrivals(t, before);
      RunInv(t, before);
      QueueStep(t, w, step);
      ArrivalsStep(t, Arrivals(t, before), w, Do(t, w, step), q, GrantedBy(w, step));
    }
  }

  lemma {:induction false} ArrivalsPrefix(t: Text, steps: seq<Step>, i: nat)
    requires i <= |steps|
    ensures forall a :: a in Arrivals(t, steps[..i]) ==> a in Arrivals(t, steps)
  {
    if i < |steps| {
      var k := |steps| - 1;
      assert steps[..k][..i] == steps[..i];
      ArrivalsPrefix(t, steps[..k], i);
      hide QueuedBy, Run;
    } else {
      assert steps[..i] == steps;
    }
  }

  /** A more urgent request of the same area is queued at step i, while this waiter waits. */
  ghost predicate OutrankedAt(t: Text, steps: seq<Step>, i: nat, waiter: Waiter) {
    && i < |steps| && Waits(Run(t, steps[..i]), waiter.sequence)
    && QueuedBy(t, Run(t, steps[..i]), steps[i]).Some?
    && MoreUrgent(steps[i].request.origin, waiter.request.origin)
    && SameArea(t.fold, steps[i].request, waiter.request)
  }

  lemma OutrankedIs(t: Text, steps: seq<Step>, i: nat, waiter: Waiter)
    requires waiter in Arrivals(t, steps)
    ensures OutrankedAt(t, steps, i, waiter) <==> SupersededAt(t, steps, i, waiter.sequence)
  {
    if i < |steps| {
      var w := Run(t, steps[..i]);
      var queue := w.state.queue;
      RunInv(t, steps[..i]);
      RunArrivals(t, steps);
      RunArrivals(t, steps[..i]);
      ArrivalsPrefix(t, steps, i);
      HoldsIff(queue, waiter.sequence);
      assert Holds(queue, waiter.sequence) <==> Waits(w, waiter.sequence);
      assert forall q :: q in queue && q.sequence == waiter.sequence ==> q == waiter;
      assert Judged(t.fold, waiter);
      if steps[i].Begin? && !Free(w.state) {
        SupersedesIff(t.fold, NewWaiter(t, w.state, steps[i].request), waiter);
      }
      hide Run, Inv, ArrivalsInv, MoreUrgent, Controls, Supersedes, Arrivals, Holds, PolicyFor;
    }
  }

  /**
   A queued request ends superseded if and only if, while it waits, a more urgent one that
   controls the same area is queued.
   */
  lemma OutrankedIff(t: Text, steps: seq<Step>, waiter: Waiter)
    ensures waiter in Arrivals(t, steps) ==>
              (IsSuperseded(Run(t, steps), waiter.sequence) <==> exists i: nat :: OutrankedAt(t, steps, i, waiter))
  {
    if waiter in Arrivals(t, steps) {
      SupersededIff(t, steps, waiter.sequence);
      forall i: nat ensures OutrankedAt(t, steps, i, waiter) <==> SupersededAt(t, steps, i, waiter.sequence) {
        OutrankedIs(t, steps, i, waiter);
      }
      hide OutrankedAt, SupersededAt, IsSuperseded, Arrivals;
    }
  }

  /** A request of the capture domain by the user, the tray, self-healing or a shutdown is queued at step i. */
  ghost predicate DrivenOutAt(t: Text, steps: seq<Step>, i: nat, n: nat) {
    && i < |steps| && Waits(Run(t, steps[..i]), n)
    && QueuedBy(t, Run(t, steps[..i]), steps[i]).Some? && OutranksStartup(t.fold, steps[i].request)
  }

  /**
   A queued startup recovery ends superseded if and only if, while it waits, a request of the
   capture domain is queued by the user, the tray, self-healing or a shutdown.
   */
  lemma RecoverySupersededIff(t: Text, steps: seq<Step>, recovery: Waiter)
    requires StartupRecovery(t.fold, recovery.request)
    ensures recovery in Arrivals(t, steps) ==>
              (IsSuperseded(Run(t, steps), recovery.sequence) <==>
               exists i: nat :: DrivenOutAt(t, steps, i, recovery.sequence))
  {
    OutrankedIff(t, steps, recovery);
    forall i: nat ensures OutrankedAt(t, steps, i, recovery) <==> DrivenOutAt(t, steps, i, recovery.sequence) {
      if i < |steps| && QueuedBy(t, Run(t, steps[..i]), steps[i]).Some? {
        OutranksIff(t.fold, recovery.request, steps[i].request);
      }
      hide Run, SameArea, OutranksStartup, Waits, QueuedBy;
    }
    hide OutrankedAt, DrivenOutAt, IsSuperseded, Arrivals;
  }

  // ---- Who is granted, and what is published ----

  /** In every interleaving, whoever is granted is more urgent than all who wait on, or as urgent and earlier. */
  lemma GrantIsMostUrgent(t: Text, steps: seq<Step>, step: Step)
    ensures var w := Run(t, steps);
            var g := GrantedBy(w, step);
            g.Some? ==>
              && g.value in w.state.queue
              && forall q :: q in w.state.queue && q != g.value ==>
                   || MoreUrgent(g.value.request.origin, q.request.origin)
                   || (!MoreUrgent(q.request.origin, g.value.request.origin) && g.value.sequence < q.sequence)
  {
    var w := Run(t, steps);
    var queue := w.state.queue;
    RunInv(t, steps);
    RunArrivals(t, steps);
    if queue != [] {
      BestExists(queue, w.state.seqno);
      var b := Best(queue, |queue|);
      forall q | q in queue && q != queue[b]
        ensures || MoreUrgent(queue[b].request.origin, q.request.origin)
                || (!MoreUrgent(q.request.origin, queue[b].request.origin) && queue[b].sequence < q.sequence)
      {
        var k :| 0 <= k < |queue| && queue[k] == q;
        BeforeIff(t.fold, queue[b], queue[k]);
      }
    }
    hide Run, Inv, Finishes, Best, MoreUrgent, PolicyFor;
  }

  /**
   What everybody sees after the owner finished: how it ended, and the request that runs now, with
   the number of those that still wait.
   */
  lemma FinishPublishes(t: Text, steps: seq<Step>, tx: nat, error: Option<string>)
    ensures var w := Run(t, steps);
            var s := Do(t, w, Finish(tx, error)).state.snapshot;
            tx in w.held ==>
              && tx < |w.txs| && w.state.snapshot.Busy? && w.txs[tx].id == w.state.snapshot.id
              && s.last.id == w.txs[tx].id && s.last.operation == Some(w.state.snapshot.request.operation)
              && s.last.phase == Some(if error == None then Completed else Failed)
              && s.last.error == (match error case None => "" case Some(text) => text)
              && (s.Idle? <==> w.state.queue == [])
              && (s.Busy? ==> s.phase == Preparing && s.queued == |w.state.queue| - 1)
              && forall q :: GrantedBy(w, Finish(tx, error)) == Some(q) ==>
                   && s.Busy? && s.policy == q.policy
                   && s.request == q.request.(faultDomain := t.trim(q.request.faultDomain))
                   && s.id == (if t.trim(q.request.id) != "" then t.trim(q.request.id) else t.autoId(w.state.seqno + 1))
  {
    RunInv(t, steps);
    hide Run, Best, QueueInv, Ordered;
  }

  /** What everybody sees after a call to Begin: its own request if nobody runs, or one more in the queue. */
  lemma BeginPublishes(t: Text, steps: seq<Step>, r: Request)
    ensures var w := Run(t, steps);
            var w1 := Do(t, w, Begin(r));
            var s := w1.state.snapshot;
            if w.state.snapshot.Idle? then
              && s.Busy? && s.policy == PolicyFor(t.fold, r) && s.phase == Preparing && s.queued == 0
              && s.request == r.(faultDomain := t.trim(r.faultDomain)) && s.last == w.state.snapshot.last
              && s.id == (if t.trim(r.id) != "" then t.trim(r.id) else t.autoId(w.state.seqno + 1))
              && w1.held == w.held + {|w.txs|} && w1.txs == w.txs + [Tx(s.id, false)]
            else
              && s == w.state.snapshot.(queued := s.queued) && s.queued == |w1.state.queue| > 0
              && w1.state.queue[s.queued - 1] == Waiter(r, PolicyFor(t.fold, r), w.state.seqno + 1)
              && w1.held == w.held && w1.txs == w.txs
  {
    RunInv(t, steps);
    hide Run, PolicyFor, QueueInv, CustodyInv, Kept, Dropped;
  }
}
