/**
 All interleavings of the coordinator's callers. A caller that queues becomes a waiter,
 and the messages that Begin and Finish send after unlocking are separate steps, so a
 cancellation can fall between any two of them.
 */
module CoordinatorRuns {
  import opened Common
  import opened ConnectionPolicy
  import opened Coordinator

  /** What a waiter's channel carries: a transaction or ErrSuperseded. */
  datatype Message = Granted(tx: nat) | Superseded

  datatype Result = Got(tx: nat) | Refused | Cancelled

  /** Queued, then a message on its way, then in the channel, then Begin has returned. */
  datatype Stage = Waiting | Sending(m: Message) | Ready(m: Message) | Returned(r: Result)

  datatype Tx = Tx(id: string, finished: bool)

  /**
   The coordinator with its callers: the stage of every waiter by sequence number, every
   transaction by serial number, and the transactions that a caller holds.
   */
  datatype World = World(state: State, stages: map<nat, Stage>, txs: seq<Tx>, held: set<nat>)

  datatype Step =
    | Begin(request: Request)
    | TryBegin(request: Request)
    | Deliver(waiter: nat)
    | Receive(waiter: nat)
    | Cancel(waiter: nat)
    | Drain(waiter: nat)
    | Finish(tx: nat, error: Option<string>)
    | SetPhase(tx: nat, phase: Phase)

  const CANCELLED := Some("context canceled")

  function Open(s: State): Tx
    requires s.snapshot.Busy?
  {
    Tx(s.snapshot.id, false)
  }

  /** Begin and TryBegin on a free coordinator. */
  function StartTx(t: Text, w: World, r: Request): World {
    var s := Start(t, w.state, r, PolicyFor(t.fold, r));
    World(s, w.stages, w.txs + [Open(s)], w.held + {|w.txs|})
  }

  predicate Holds(q: seq<Waiter>, sequence: nat) {
    exists i :: 0 <= i < |q| && q[i].sequence == sequence
  }

  function Queue(t: Text, w: World, r: Request): World {
    var waiter := NewWaiter(t, w.state, r);
    var dropped := Dropped(w.state.queue, waiter);
    var told := map n | n in w.stages :: if Holds(dropped, n) then Sending(Superseded) else w.stages[n];
    World(Enqueue(w.state, waiter), told[waiter.sequence := Waiting], w.txs, w.held)
  }

  /** Finish with its once guard. */
  function FinishTx(t: Text, w: World, tx: nat, error: Option<string>): World
    requires tx < |w.txs|
  {
    if w.txs[tx].finished then w
    else
      var next := Next(w.state);
      var s := Release(t, w.state, w.txs[tx].id, error);
      var txs := w.txs[tx := w.txs[tx].(finished := true)];
      if next.None? then World(s, w.stages, txs, w.held - {tx})
      else
        World(s, w.stages[next.value.sequence := Sending(Granted(|txs|))],
              if s.snapshot.Busy? then txs + [Open(s)] else txs, w.held - {tx})
  }

  /** One step; a step whose guard fails changes nothing. */
  function Do(t: Text, w: World, step: Step): World {
    match step
    case Begin(r) => if Free(w.state) then StartTx(t, w, r) else Queue(t, w, r)
    case TryBegin(r) => if Free(w.state) then StartTx(t, w, r) else w
    case Deliver(n) =>
      if n in w.stages && w.stages[n].Sending? then w.(stages := w.stages[n := Ready(w.stages[n].m)]) else w
    case Receive(n) =>
      if n in w.stages && w.stages[n].Ready? then
        match w.stages[n].m
        case Granted(tx) => w.(stages := w.stages[n := Returned(Got(tx))], held := w.held + {tx})
        case Superseded => w.(stages := w.stages[n := Returned(Refused)])
      else w
    case Cancel(n) =>
      if n in w.stages && w.stages[n].Waiting? then
        var (s, removed) := Remove(w.state, n);
        if removed then w.(state := s, stages := w.stages[n := Returned(Cancelled)]) else w
      else w
    case Drain(n) =>
      if n in w.stages && w.stages[n].Ready? then
        match w.stages[n].m
        case Granted(tx) =>
          var w1 := w.(stages := w.stages[n := Returned(Cancelled)]);
          if tx < |w.txs| then FinishTx(t, w1, tx, CANCELLED) else w1
        case Superseded => w.(stages := w.stages[n := Returned(Refused)])
      else w
    case Finish(tx, error) => if tx in w.held && tx < |w.txs| then FinishTx(t, w, tx, error) else w
    case SetPhase(tx, p) =>
      if tx < |w.txs| then w.(state := WithPhase(w.state, w.txs[tx].id, p).0) else w
  }

  function Run(t: Text, steps: seq<Step>): World {
    if steps == [] then World(State(Idle(0, Last("", None, None, "")), [], 0), map[], [], {})
    else Do(t, Run(t, steps[..|steps| - 1]), steps[|steps| - 1])
  }

  // ---- The invariant ----

  predicate Unfinished(w: World, tx: nat) {
    tx < |w.txs| && !w.txs[tx].finished
  }

  /** The transaction is still on its way to the waiter. */
  ghost predicate Carries(w: World, n: nat, tx: nat) {
    n in w.stages && (w.stages[n].Sending? || w.stages[n].Ready?) && w.stages[n].m == Granted(tx)
  }

  /** Within a domain, ranks never rise in arrival order. */
  predicate RanksFall(q: seq<Waiter>) {
    forall i, j :: 0 <= i < j < |q| && q[i].policy.domain == q[j].policy.domain ==>
      q[i].policy.rank >= q[j].policy.rank
  }

  /** At most one owner; busy exactly while it exists; an idle coordinator has no queue. */
  ghost predicate OwnerInv(w: World) {
    && (forall a: nat, b: nat :: Unfinished(w, a) && Unfinished(w, b) ==> a == b)
    && (w.state.snapshot.Busy? <==> exists a: nat :: Unfinished(w, a))
    && (forall a: nat :: Unfinished(w, a) ==> w.state.snapshot.Busy? && w.txs[a].id == w.state.snapshot.id)
    && (w.state.snapshot.Idle? ==> w.state.queue == [])
    && w.state.snapshot.queued == |w.state.queue|
  }

  /** The queue holds exactly the waiters that have had no outcome yet. */
  ghost predicate QueueInv(w: World) {
    && Ordered(w.state.queue, w.state.seqno)
    && RanksFall(w.state.queue)
    && (forall n: nat :: Holds(w.state.queue, n) <==> n in w.stages && w.stages[n] == Waiting)
    && (forall n :: n in w.stages ==> n <= w.state.seqno)
  }

  /** An unfinished transaction has exactly one place: a caller's hand or one message. */
  ghost predicate CustodyInv(w: World) {
    && (forall a: nat :: Unfinished(w, a) ==> a in w.held || exists n: nat :: Carries(w, n, a))
    && (forall n: nat, a: nat :: Carries(w, n, a) ==> Unfinished(w, a) && a !in w.held)
    && (forall n: nat, m: nat, a: nat :: Carries(w, n, a) && Carries(w, m, a) ==> n == m)
    && (forall a :: a in w.held ==> a < |w.txs| && Unfinished(w, a))
  }

  ghost predicate Inv(w: World) {
    OwnerInv(w) && QueueInv(w) && CustodyInv(w)
  }

  // ---- Every step keeps the invariant ----

  lemma StartKeeps(t: Text, w: World, r: Request)
    requires Inv(w) && Free(w.state)
    ensures Inv(StartTx(t, w, r))
  {
    var w1 := StartTx(t, w, r);
    var tx := |w.txs|;
    assert Unfinished(w1, tx) && forall a: nat :: Unfinished(w1, a) <==> a == tx;
    assert forall n: nat, a: nat :: Carries(w1, n, a) <==> Carries(w, n, a);
  }

  lemma EnqueueRanks(q: seq<Waiter>, issued: nat, waiter: Waiter)
    requires Ordered(q, issued) && RanksFall(q) && waiter.sequence == issued + 1
    ensures RanksFall(Kept(q, waiter) + [waiter])
  {
    KeptOrdered(q, issued, waiter);
    KeptRanks(q, issued, waiter);
    var kept := Kept(q, waiter);
    forall i | 0 <= i < |kept| ensures !Supersedes(waiter, kept[i]) {
      assert kept[i] in kept;
    }
  }

  lemma {:induction false} KeptRanks(q: seq<Waiter>, issued: nat, waiter: Waiter)
    requires Ordered(q, issued) && RanksFall(q)
    ensures RanksFall(Kept(q, waiter))
  {
    if q != [] {
      var n := |q| - 1;
      KeptRanks(q[..n], issued, waiter);
      KeptOrdered(q[..n], issued, waiter);
      var kept := Kept(q[..n], waiter);
      forall i | 0 <= i < |kept| && kept[i].policy.domain == q[n].policy.domain
        ensures kept[i].policy.rank >= q[n].policy.rank
      {
        assert kept[i] in q[..n];
        var k :| 0 <= k < n && q[k] == kept[i];
      }
    }
  }

  lemma QueueKeeps(t: Text, w: World, r: Request)
    requires Inv(w) && !Free(w.state)
    ensures Inv(Queue(t, w, r))
  {
    var waiter := NewWaiter(t, w.state, r);
    var q := w.state.queue;
    var w1 := Queue(t, w, r);
    EnqueueOrdered(q, w.state.seqno, waiter);
    EnqueueRanks(q, w.state.seqno, waiter);
    KeptSplits(q, w.state.seqno, waiter);
    hide Kept, Dropped, RanksFall, Ordered;
    forall n: nat ensures Holds(w1.state.queue, n) <==> n in w1.stages && w1.stages[n] == Waiting {
      HoldsSnoc(Kept(q, waiter), waiter, n);
    }
    assert forall a: nat :: Unfinished(w1, a) <==> Unfinished(w, a);
    assert forall n: nat, a: nat :: Carries(w1, n, a) <==> Carries(w, n, a);
  }

  lemma HoldsSnoc(q: seq<Waiter>, w: Waiter, n: nat)
    ensures Holds(q + [w], n) <==> Holds(q, n) || n == w.sequence
  {
    if n == w.sequence {
      assert (q + [w])[|q|] == w;
    }
    if Holds(q, n) {
      var i :| 0 <= i < |q| && q[i].sequence == n;
      assert (q + [w])[i].sequence == n;
    }
  }

  /** Every waiter of an ordered queue is either kept or dropped, never both. */
  lemma {:induction false} KeptSplits(q: seq<Waiter>, issued: nat, waiter: Waiter)
    requires Ordered(q, issued)
    ensures forall n: nat :: Holds(q, n) <==> Holds(Kept(q, waiter), n) || Holds(Dropped(q, waiter), n)
    ensures forall n: nat :: !(Holds(Kept(q, waiter), n) && Holds(Dropped(q, waiter), n))
  {
    if q != [] {
      var n := |q| - 1;
      var last := q[n];
      assert q == q[..n] + [last];
      KeptSplits(q[..n], issued, waiter);
      var kept, dropped := Kept(q[..n], waiter), Dropped(q[..n], waiter);
      forall m: nat
        ensures Holds(q, m) <==> Holds(q[..n], m) || m == last.sequence
        ensures Holds(kept + [last], m) <==> Holds(kept, m) || m == last.sequence
        ensures Holds(dropped + [last], m) <==> Holds(dropped, m) || m == last.sequence
      {
        HoldsSnoc(q[..n], last, m);
        HoldsSnoc(kept, last, m);
        HoldsSnoc(dropped, last, m);
      }
      assert !Holds(q[..n], last.sequence);
      assert Kept(q, waiter) == (if Supersedes(waiter, last) then kept else kept + [last]);
      assert Dropped(q, waiter) == (if Supersedes(waiter, last) then dropped + [last] else dropped);
    }
  }

  lemma BestExists(q: seq<Waiter>, issued: nat)
    requires Ordered(q, issued) && q != []
    ensures IsBest(q, Best(q, |q|))
  {
    BestIsBest(q, issued, |q|);
  }

  /** Taking one waiter out leaves an ordered queue of the others. */
  lemma QueueWithout(w: World, b: nat, stage: Stage, w1: World)
    requires QueueInv(w) && b < |w.state.queue| && stage != Waiting
    requires w1.state.queue == RemoveAt(w.state.queue, b) && w1.state.seqno >= w.state.seqno
    requires w1.stages == w.stages[w.state.queue[b].sequence := stage]
    ensures QueueInv(w1)
  {
    var q := w.state.queue;
    RemoveOrdered(q, w.state.seqno, b);
    assert RanksFall(RemoveAt(q, b));
    assert Holds(q, q[b].sequence);
    forall n: nat ensures Holds(RemoveAt(q, b), n) <==> Holds(q, n) && n != q[b].sequence {
      HoldsRemove(q, w.state.seqno, b, n);
    }
    hide RanksFall, Holds;
  }

  lemma HoldsRemove(q: seq<Waiter>, issued: nat, b: nat, n: nat)
    requires Ordered(q, issued) && b < |q|
    ensures Holds(RemoveAt(q, b), n) <==> Holds(q, n) && n != q[b].sequence
  {
    var r := RemoveAt(q, b);
    if Holds(r, n) {
      var i :| 0 <= i < |r| && r[i].sequence == n;
      assert q[if i < b then i else i + 1] == r[i];
    }
    if Holds(q, n) && n != q[b].sequence {
      var i :| 0 <= i < |q| && q[i].sequence == n;
      assert r[if i < b then i else i - 1] == q[i];
    }
  }

  lemma FinishKeeps(t: Text, w: World, tx: nat, error: Option<string>)
    requires OwnerInv(w) && QueueInv(w) && Unfinished(w, tx)
    requires forall a: nat :: Unfinished(w, a) && a != tx ==> a in w.held || exists n: nat :: Carries(w, n, a)
    requires forall n: nat, a: nat :: Carries(w, n, a) ==> Unfinished(w, a) && a !in w.held && a != tx
    requires forall n: nat, m: nat, a: nat :: Carries(w, n, a) && Carries(w, m, a) ==> n == m
    requires forall a :: a in w.held ==> a < |w.txs| && Unfinished(w, a)
    ensures Inv(FinishTx(t, w, tx, error))
  {
    var w1 := FinishTx(t, w, tx, error);
    if Next(w.state).None? {
      forall a: nat ensures !Unfinished(w1, a) {
        assert Unfinished(w, a) ==> a == tx;
      }
      assert forall n: nat, a: nat :: Carries(w1, n, a) <==> Carries(w, n, a);
    } else {
      var q := w.state.queue;
      var b := Best(q, |q|);
      QueueWithout(w, b, Sending(Granted(|w.txs|)), w1);
      hide QueueInv;
      var newTx := |w.txs|;
      forall a: nat ensures Unfinished(w1, a) <==> a == newTx {
        assert Unfinished(w, a) ==> a == tx;
      }
      assert Carries(w1, q[b].sequence, newTx) && Unfinished(w1, newTx);
      assert OwnerInv(w1);
      forall n: nat, a: nat ensures Carries(w1, n, a) <==> n == q[b].sequence && a == newTx {
        assert !Carries(w, n, a) by {
          assert Carries(w, n, a) ==> Unfinished(w, a) && a != tx;
        }
      }
    }
  }

  lemma RemoveKeeps(w: World, n: nat)
    requires Inv(w) && n in w.stages && w.stages[n].Waiting? && Remove(w.state, n).1
    ensures Inv(w.(state := Remove(w.state, n).0, stages := w.stages[n := Returned(Cancelled)]))
  {
    var w1 := w.(state := Remove(w.state, n).0, stages := w.stages[n := Returned(Cancelled)]);
    QueueWithout(w, Position(w.state.queue, n).value, Returned(Cancelled), w1);
    assert forall a: nat :: Unfinished(w1, a) <==> Unfinished(w, a);
    assert forall m: nat, a: nat :: Carries(w1, m, a) <==> Carries(w, m, a);
  }

  lemma DeliverKeeps(t: Text, w: World, n: nat)
    requires Inv(w)
    ensures Inv(Do(t, w, Deliver(n)))
  {
    var w1 := Do(t, w, Deliver(n));
    assert forall a: nat :: Unfinished(w1, a) <==> Unfinished(w, a);
    assert forall m: nat, a: nat :: Carries(w1, m, a) <==> Carries(w, m, a);
    hide Unfinished, Carries, Ordered, RanksFall;
  }

  /** A message that is received leaves the waiter, and its transaction goes to the caller. */
  lemma ReceiveCarries(t: Text, w: World, n: nat)
    requires CustodyInv(w)
    ensures var w1 := Do(t, w, Receive(n));
            && (forall m: nat, a: nat :: m != n ==> (Carries(w1, m, a) <==> Carries(w, m, a)))
            && (w1 == w || forall a: nat :: !Carries(w1, n, a) && (a in w1.held <==> a in w.held || Carries(w, n, a)))
  {
    hide Unfinished;
  }

  lemma ReceiveKeepsCustody(t: Text, w: World, n: nat)
    requires CustodyInv(w)
    ensures CustodyInv(Do(t, w, Receive(n)))
  {
    var w1 := Do(t, w, Receive(n));
    ReceiveCarries(t, w, n);
    assert forall a: nat :: Unfinished(w1, a) <==> Unfinished(w, a);
    assert |w1.txs| == |w.txs|;
    hide Unfinished, Carries, Do;
  }

  lemma ReceiveKeeps(t: Text, w: World, n: nat)
    requires Inv(w)
    ensures Inv(Do(t, w, Receive(n)))
  {
    var w1 := Do(t, w, Receive(n));
    ReceiveKeepsCustody(t, w, n);
    assert forall a: nat :: Unfinished(w1, a) <==> Unfinished(w, a);
    assert w1.state == w.state && w1.txs == w.txs && w1.stages.Keys == w.stages.Keys;
    assert forall m: nat :: (m in w1.stages && w1.stages[m] == Waiting) <==> (m in w.stages && w.stages[m] == Waiting);
    hide Unfinished, CustodyInv, Do, Ordered, RanksFall;
  }

  lemma DrainKeeps(t: Text, w: World, n: nat)
    requires Inv(w)
    ensures Inv(Do(t, w, Drain(n)))
  {
    if n in w.stages && w.stages[n].Ready? {
      match w.stages[n].m
      case Granted(tx) =>
        assert Carries(w, n, tx);
        var w1 := w.(stages := w.stages[n := Returned(Cancelled)]);
        assert forall a: nat :: Unfinished(w1, a) <==> Unfinished(w, a);
        assert forall m: nat, a: nat :: Carries(w1, m, a) <==> Carries(w, m, a) && m != n;
        assert QueueInv(w1);
        FinishKeeps(t, w1, tx, CANCELLED);
      case Superseded =>
        var w1 := w.(stages := w.stages[n := Returned(Refused)]);
        assert forall a: nat :: Unfinished(w1, a) <==> Unfinished(w, a);
        assert forall m: nat, a: nat :: Carries(w1, m, a) <==> Carries(w, m, a);
    }
  }

  lemma StepKeeps(t: Text, w: World, step: Step)
    requires Inv(w)
    ensures Inv(Do(t, w, step))
  {
    hide Inv;
    match step
    case Begin(r) => if Free(w.state) { StartKeeps(t, w, r); } else { QueueKeeps(t, w, r); }
    case TryBegin(r) => if Free(w.state) { StartKeeps(t, w, r); }
    case Deliver(n) => DeliverKeeps(t, w, n);
    case Receive(n) => ReceiveKeeps(t, w, n);
    case Cancel(n) =>
      if n in w.stages && w.stages[n].Waiting? && Remove(w.state, n).1 { RemoveKeeps(w, n); }
    case Drain(n) => DrainKeeps(t, w, n);
    case Finish(tx, error) => FinishHeldKeeps(t, w, tx, error);
    case SetPhase(tx, p) => PhaseKeeps(w, tx, p);
  }

  lemma FinishHeldKeeps(t: Text, w: World, tx: nat, error: Option<string>)
    requires Inv(w)
    ensures Inv(Do(t, w, Finish(tx, error)))
  {
    if tx in w.held && tx < |w.txs| {
      assert forall n: nat :: !Carries(w, n, tx);
      FinishKeeps(t, w, tx, error);
    }
  }

  lemma PhaseKeeps(w: World, tx: nat, p: Phase)
    requires Inv(w)
    ensures tx < |w.txs| ==> Inv(w.(state := WithPhase(w.state, w.txs[tx].id, p).0))
  {
    if tx < |w.txs| {
      var w1 := w.(state := WithPhase(w.state, w.txs[tx].id, p).0);
      assert forall a: nat :: Unfinished(w1, a) <==> Unfinished(w, a);
      assert forall m: nat, a: nat :: Carries(w1, m, a) <==> Carries(w, m, a);
    }
  }

  lemma {:induction false} RunInv(t: Text, steps: seq<Step>)
    ensures Inv(Run(t, steps))
  {
    if steps != [] {
      hide Inv;
      RunInv(t, steps[..|steps| - 1]);
      StepKeeps(t, Run(t, steps[..|steps| - 1]), steps[|steps| - 1]);
    }
  }

  // ---- Safety of all interleavings ----

  /**
   In every reachable state there is at most one unfinished transaction, the coordinator is
   busy exactly while it exists, an idle coordinator has an empty queue, and the published
   queue length is the queue length.
   */
  lemma SingleOwner(t: Text, steps: seq<Step>)
    ensures var w := Run(t, steps);
            && (forall a: nat, b: nat :: Unfinished(w, a) && Unfinished(w, b) ==> a == b)
            && (w.state.snapshot.Busy? <==> exists a: nat :: Unfinished(w, a))
            && (w.state.snapshot.Idle? ==> w.state.queue == [])
            && w.state.snapshot.queued == |w.state.queue|
  {
    RunInv(t, steps);
  }

  /** How a waiter's stage may change: one message at most, and one result for good. */
  predicate Advances(a: Stage, b: Stage) {
    match a
    case Waiting => b == Waiting || b.Sending? || b == Returned(Cancelled)
    case Sending(m) => b == a || b == Ready(m)
    case Ready(m) =>
      || b == a
      || (m == Superseded && b == Returned(Refused))
      || (m.Granted? && (b == Returned(Got(m.tx)) || b == Returned(Cancelled)))
    case Returned(_) => b == a
  }

  /** No step takes an outcome back or gives a waiter a second one. */
  lemma OneOutcome(t: Text, steps: seq<Step>, step: Step, n: nat)
    requires n in Run(t, steps).stages
    ensures var w := Run(t, steps);
            n in Do(t, w, step).stages && Advances(w.stages[n], Do(t, w, step).stages[n])
  {
    RunInv(t, steps);
    var w := Run(t, steps);
    hide Run, Kept, Dropped, Best, Start, OwnerInv, CustodyInv;
    match step
    case Begin(r) =>
      if !Free(w.state) {
        KeptSplits(w.state.queue, w.state.seqno, NewWaiter(t, w.state, r));
      }
    case Drain(m) =>
      if m in w.stages && w.stages[m].Ready? && w.stages[m].m.Granted? && w.stages[m].m.tx < |w.txs| {
        NextWaits(w);
      }
    case Finish(_, _) => NextWaits(w);
    case _ =>
  }

  lemma NextWaits(w: World)
    requires QueueInv(w)
    ensures Next(w.state).Some? ==>
              Next(w.state).value.sequence in w.stages && w.stages[Next(w.state).value.sequence] == Waiting
  {
  }

  /**
   Nothing leaks: when no caller holds a transaction and no message is on its way, the
   coordinator is idle and every Begin has returned.
   */
  lemma NothingLeaks(t: Text, steps: seq<Step>)
    requires var w := Run(t, steps);
             w.held == {} && forall n :: n in w.stages ==> !w.stages[n].Sending? && !w.stages[n].Ready?
    ensures var w := Run(t, steps);
            && w.state.snapshot.Idle? && w.state.queue == []
            && forall n :: n in w.stages ==> w.stages[n].Returned?
  {
    RunInv(t, steps);
    var w := Run(t, steps);
    forall n | n in w.stages ensures w.stages[n].Returned? {
      assert Holds(w.state.queue, n) <==> w.stages[n] == Waiting;
    }
  }

  /** A grant that lost the race against cancellation is finished at once, and the next waiter admitted. */
  lemma LostGrantReleased(t: Text, steps: seq<Step>, n: nat)
    requires var w := Run(t, steps); n in w.stages && w.stages[n].Ready? && w.stages[n].m.Granted?
    ensures var w := Run(t, steps);
            var w1 := Do(t, w, Drain(n));
            var tx := w.stages[n].m.tx;
            && w1.stages[n] == Returned(Cancelled)
            && tx < |w1.txs| && w1.txs[tx].finished
            && (w.state.queue == [] ==> w1.state.snapshot.Idle?)
            && (w.state.queue != [] ==> Carries(w1, Next(w.state).value.sequence, |w.txs|))
  {
    RunInv(t, steps);
    var w := Run(t, steps);
    assert Carries(w, n, w.stages[n].m.tx);
    NextWaits(w);
  }

  // ---- Order of admission ----

  predicate SortedBefore(s: seq<Waiter>) {
    forall i, j :: 0 <= i < j < |s| ==> Before(s[i], s[j])
  }

  /** The waiters admitted by successive Finish calls when nobody else arrives. */
  function Admissions(t: Text, s: State): seq<Waiter>
    decreases |s.queue|
  {
    if s.queue == [] then []
    else
      var s1 := Release(t, s, if s.snapshot.Busy? then s.snapshot.id else "", None);
      [Next(s).value] + Admissions(t, s1)
  }

  lemma RemoveMultiset(q: seq<Waiter>, b: nat)
    requires b < |q|
    ensures multiset(q) == multiset{q[b]} + multiset(RemoveAt(q, b))
  {
    assert q == q[..b] + [q[b]] + q[b + 1..];
  }

  lemma FirstBefore(q: seq<Waiter>, issued: nat, rest: seq<Waiter>)
    requires Ordered(q, issued) && q != []
    requires multiset(rest) == multiset(RemoveAt(q, Best(q, |q|)))
    ensures forall i :: 0 <= i < |rest| ==> Before(q[Best(q, |q|)], rest[i])
  {
    var b := Best(q, |q|);
    BestExists(q, issued);
    var others := RemoveAt(q, b);
    forall i | 0 <= i < |rest| ensures Before(q[b], rest[i]) {
      assert rest[i] in multiset(rest);
      var k :| 0 <= k < |others| && others[k] == rest[i];
      assert q[if k < b then k else k + 1] == rest[i];
    }
  }

  /** The queue in the order in which popNextLocked empties it. */
  function Drained(q: seq<Waiter>): seq<Waiter>
    decreases |q|
  {
    if q == [] then [] else [q[Best(q, |q|)]] + Drained(RemoveAt(q, Best(q, |q|)))
  }

  lemma {:induction false} AdmissionsDrain(t: Text, s: State)
    ensures Admissions(t, s) == Drained(s.queue)
    decreases |s.queue|
  {
    if s.queue != [] {
      AdmissionsDrain(t, Release(t, s, if s.snapshot.Busy? then s.snapshot.id else "", None));
    }
  }

  lemma ConsSorted(x: Waiter, rest: seq<Waiter>)
    requires SortedBefore(rest) && forall i :: 0 <= i < |rest| ==> Before(x, rest[i])
    ensures SortedBefore([x] + rest)
  {
  }

  lemma {:induction false} DrainedSorted(q: seq<Waiter>, issued: nat)
    requires Ordered(q, issued)
    ensures multiset(Drained(q)) == multiset(q) && SortedBefore(Drained(q))
    decreases |q|
  {
    if q != [] {
      var b := Best(q, |q|);
      RemoveOrdered(q, issued, b);
      var others := RemoveAt(q, b);
      DrainedSorted(others, issued);
      RemoveMultiset(q, b);
      FirstBefore(q, issued, Drained(others));
      ConsSorted(q[b], Drained(others));
    }
  }

  /** Successive admissions are the queue sorted by rank, highest first, then by arrival. */
  lemma AdmissionsAreSorted(t: Text, s: State)
    requires Ordered(s.queue, s.seqno)
    ensures multiset(Admissions(t, s)) == multiset(s.queue) && SortedBefore(Admissions(t, s))
  {
    AdmissionsDrain(t, s);
    DrainedSorted(s.queue, s.seqno);
  }

  /** There is only one such order. */
  lemma {:induction false} SortedIsUnique(a: seq<Waiter>, b: seq<Waiter>)
    requires SortedBefore(a) && SortedBefore(b) && multiset(a) == multiset(b)
    ensures a == b
  {
    SameLength(a, b);
    if a != [] {
      SameFirst(a, b);
      TailOf(a);
      TailOf(b);
      hide Before, SortedBefore;
      SortedIsUnique(a[1..], b[1..]);
    }
  }

  lemma TailOf(a: seq<Waiter>)
    requires a != []
    ensures a == [a[0]] + a[1..] && multiset(a[1..]) == multiset(a) - multiset{a[0]}
    ensures SortedBefore(a) ==> SortedBefore(a[1..])
  {
    assert a == [a[0]] + a[1..];
    hide Before;
  }

  lemma SameLength(a: seq<Waiter>, b: seq<Waiter>)
    requires multiset(a) == multiset(b)
    ensures |a| == |b|
  {
    assert |a| == |multiset(a)| && |b| == |multiset(b)|;
  }

  lemma SameFirst(a: seq<Waiter>, b: seq<Waiter>)
    requires SortedBefore(a) && SortedBefore(b) && multiset(a) == multiset(b) && a != [] && b != []
    ensures a[0] == b[0]
  {
    assert a[0] in multiset(b) && b[0] in multiset(a);
    var i :| 0 <= i < |b| && b[i] == a[0];
    var k :| 0 <= k < |a| && a[k] == b[0];
  }

  /** In a queue whose ranks fall within each domain, sorting keeps the arrival order of a domain. */
  lemma SortedIsFifo(q: seq<Waiter>, issued: nat, a: Waiter, b: Waiter)
    requires Ordered(q, issued) && RanksFall(q) && a in q && b in q
    requires Before(a, b) && a.policy.domain == b.policy.domain
    ensures a.sequence < b.sequence
  {
  }

  /** Within a domain, earlier arrivals come first. */
  predicate Fifo(grants: seq<Waiter>) {
    forall i, j :: 0 <= i < j < |grants| && grants[i].policy.domain == grants[j].policy.domain ==>
      grants[i].sequence < grants[j].sequence
  }

  /** Within one domain a reachable queue is drained first come, first served. */
  lemma DrainIsFifo(t: Text, steps: seq<Step>)
    ensures Fifo(Admissions(t, Run(t, steps).state))
  {
    RunInv(t, steps);
    var s := Run(t, steps).state;
    AdmissionsAreSorted(t, s);
    var grants := Admissions(t, s);
    hide Run, Admissions, OwnerInv, CustodyInv, Ordered, RanksFall, Before;
    forall i, j | 0 <= i < j < |grants| && grants[i].policy.domain == grants[j].policy.domain
      ensures grants[i].sequence < grants[j].sequence
    {
      assert grants[i] in multiset(s.queue) && grants[j] in multiset(s.queue);
      SortedIsFifo(s.queue, s.seqno, grants[i], grants[j]);
    }
  }

  // ---- SetPhase and reused ids ----

  /** An unfinished transaction may always set the phase. */
  lemma OwnerSetsPhase(t: Text, steps: seq<Step>, tx: nat, p: Phase)
    requires Unfinished(Run(t, steps), tx)
    ensures WithPhase(Run(t, steps).state, Run(t, steps).txs[tx].id, p).1
  {
    RunInv(t, steps);
  }

  /** A finished transaction is refused if and only if its id is not the current owner's id. */
  lemma StaleSetPhase(t: Text, steps: seq<Step>, tx: nat, p: Phase)
    requires tx < |Run(t, steps).txs| && Run(t, steps).txs[tx].finished
    ensures var w := Run(t, steps);
            WithPhase(w.state, w.txs[tx].id, p).1 <==>
            exists owner: nat :: Unfinished(w, owner) && w.txs[owner].id == w.txs[tx].id
  {
    RunInv(t, steps);
  }

  /** Request ids can repeat, so a finished transaction can overwrite its successor's phase. */
  lemma StaleSetPhaseHappens(t: Text, r: Request, p: Phase)
    requires t.trim(r.id) != ""
    ensures var steps := [TryBegin(r), Finish(0, None), TryBegin(r)];
            var w := Run(t, steps);
            && |w.txs| == 2 && w.txs[0].finished && Unfinished(w, 1) && w.state.snapshot.Busy?
            && Do(t, w, SetPhase(0, p)).state.snapshot == w.state.snapshot.(phase := p)
  {
    var s1, s2, s3 := [TryBegin(r)], [TryBegin(r), Finish(0, None)], [TryBegin(r), Finish(0, None), TryBegin(r)];
    assert s1[..0] == [] && s2[..1] == s1 && s3[..2] == s2;
    var w0, w1, w2 := Run(t, []), Run(t, s1), Run(t, s2);
    assert w0.txs == [] && w0.held == {} && Free(w0.state) && w0.state.queue == [];
    Taken(t, w0, r);
    assert w1 == Do(t, w0, TryBegin(r));
    GivenUp(t, w1, 0);
    assert w2 == Do(t, w1, Finish(0, None));
    Taken(t, w2, r);
    hide Do, Unfinished;
    assert Run(t, s3) == Do(t, w2, TryBegin(r));
    Phased(t, Run(t, s3), p);
  }

  /** A caller with an id of its own takes the free coordinator. */
  lemma Taken(t: Text, w: World, r: Request)
    requires Free(w.state) && w.state.queue == [] && t.trim(r.id) != ""
    ensures var w1 := Do(t, w, TryBegin(r));
            && w1.txs == w.txs + [Tx(t.trim(r.id), false)] && w1.held == w.held + {|w.txs|}
            && w1.state.snapshot.Busy? && w1.state.snapshot.id == t.trim(r.id) && w1.state.queue == []
  {
  }

  lemma GivenUp(t: Text, w: World, tx: nat)
    requires tx < |w.txs| && tx in w.held && !w.txs[tx].finished && w.state.queue == []
    requires w.state.snapshot.Busy? && w.state.snapshot.id == w.txs[tx].id
    ensures var w1 := Do(t, w, Finish(tx, None));
            w1.txs == w.txs[tx := w.txs[tx].(finished := true)] && Free(w1.state) && w1.state.queue == []
  {
  }

  lemma Phased(t: Text, w: World, p: Phase)
    requires |w.txs| > 0 && w.state.snapshot.Busy? && w.txs[0].id == w.state.snapshot.id
    ensures Do(t, w, SetPhase(0, p)).state.snapshot == w.state.snapshot.(phase := p)
  {
  }
}
