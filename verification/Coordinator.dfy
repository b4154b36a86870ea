/**
 The connection coordinator: one owner at a time, a priority queue of waiters, and
 supersession of lower-priority waiters of the same domain. The class keeps its waiters in
 a backing array that it filters and shifts in place; CoordinatorRuns interleaves its calls.
 */
module Coordinator {
  import opened Common
  import opened ConnectionPolicy

  datatype Phase = Queued | Preparing | Applying | Verifying | Committing | RollingBack | Completed | Failed

  /** A queued caller. The sequence number identifies it. */
  datatype Waiter = Waiter(request: Request, policy: Policy, sequence: nat)

  datatype Last = Last(id: string, operation: Option<Operation>, phase: Option<Phase>, error: string)

  datatype Snapshot =
    | Idle(queued: nat, last: Last)
    | Busy(id: string, request: Request, policy: Policy, phase: Phase, queued: nat, last: Last)

  /** What the mutex protects, and the atomic counter. */
  datatype State = State(snapshot: Snapshot, queue: seq<Waiter>, seqno: nat)

  /** String helpers of the Go library, and the generator of missing ids. */
  datatype Text = Text(fold: string -> string, trim: string -> string, autoId: nat -> string)

  // ---- The order of admission ----

  predicate Before(a: Waiter, b: Waiter) {
    a.policy.rank > b.policy.rank || (a.policy.rank == b.policy.rank && a.sequence < b.sequence)
  }

  ghost predicate IsBest(q: seq<Waiter>, b: nat) {
    b < |q| && forall k :: 0 <= k < |q| && k != b ==> Before(q[b], q[k])
  }

  /** Arrival order, with all sequence numbers issued. */
  predicate Ordered(q: seq<Waiter>, issued: nat) {
    && (forall i, j :: 0 <= i < j < |q| ==> q[i].sequence < q[j].sequence)
    && (forall i :: 0 <= i < |q| ==> q[i].sequence <= issued)
  }

  /** The position popNextLocked settles on among the first n waiters. */
  function Best(q: seq<Waiter>, n: nat): (b: nat)
    requires 0 < n <= |q|
    ensures b < n
  {
    if n == 1 then 0
    else
      var b := Best(q, n - 1);
      if Before(q[n - 1], q[b]) then n - 1 else b
  }

  lemma {:induction false} BestIsBest(q: seq<Waiter>, issued: nat, n: nat)
    requires Ordered(q, issued) && 0 < n <= |q|
    ensures forall k :: 0 <= k < n && k != Best(q, n) ==> Before(q[Best(q, n)], q[k])
  {
    if n > 1 {
      BestIsBest(q, issued, n - 1);
    }
  }

  function RemoveAt(q: seq<Waiter>, i: nat): seq<Waiter>
    requires i < |q|
  {
    q[..i] + q[i + 1..]
  }

  // ---- Supersession ----

  predicate Supersedes(next: Waiter, w: Waiter) {
    w.policy.domain == next.policy.domain && w.policy.rank < next.policy.rank
  }

  function Kept(q: seq<Waiter>, next: Waiter): (r: seq<Waiter>)
    ensures |r| <= |q|
  {
    if q == [] then []
    else
      var n := |q| - 1;
      Kept(q[..n], next) + if Supersedes(next, q[n]) then [] else [q[n]]
  }

  function Dropped(q: seq<Waiter>, next: Waiter): seq<Waiter> {
    if q == [] then []
    else
      var n := |q| - 1;
      Dropped(q[..n], next) + if Supersedes(next, q[n]) then [q[n]] else []
  }

  /** One more waiter is looked at. */
  lemma KeptNext(q: seq<Waiter>, i: nat, next: Waiter)
    requires i < |q|
    ensures Kept(q[..i + 1], next) == Kept(q[..i], next) + if Supersedes(next, q[i]) then [] else [q[i]]
    ensures Dropped(q[..i + 1], next) == Dropped(q[..i], next) + if Supersedes(next, q[i]) then [q[i]] else []
  {
    assert q[..i + 1][..i] == q[..i];
    hide Supersedes;
  }

  // ---- The transitions under the mutex ----

  /** startLocked. */
  function Start(t: Text, s: State, r: Request, p: Policy): (s': State)
    ensures s'.snapshot.Busy? && s'.queue == s.queue
  {
    var id := t.trim(r.id);
    var seqno := if id == "" then s.seqno + 1 else s.seqno;
    var name := if id == "" then t.autoId(seqno) else id;
    State(Busy(name, r.(faultDomain := t.trim(r.faultDomain)), p, Preparing, |s.queue|, s.snapshot.last), s.queue, seqno)
  }

  predicate Free(s: State) {
    s.snapshot.Idle? && s.queue == []
  }

  function NewWaiter(t: Text, s: State, r: Request): Waiter {
    Waiter(r, PolicyFor(t.fold, r), s.seqno + 1)
  }

  /** The part of Begin under the mutex when the coordinator is not free. */
  function Enqueue(s: State, w: Waiter): State {
    var queue := Kept(s.queue, w) + [w];
    State(s.snapshot.(queued := |queue|), queue, w.sequence)
  }

  function Position(q: seq<Waiter>, sequence: nat): (r: Option<nat>)
    ensures r.Some? ==> r.value < |q| && q[r.value].sequence == sequence
    ensures r.None? ==> forall i :: 0 <= i < |q| ==> q[i].sequence != sequence
  {
    if q == [] then None
    else
      var r := Position(q[..|q| - 1], sequence);
      if r.Some? then r else if q[|q| - 1].sequence == sequence then Some(|q| - 1) else None
  }

  /** removeWaiter. */
  function Remove(s: State, sequence: nat): (State, bool) {
    var at := Position(s.queue, sequence);
    if at.None? then (s, false)
    else
      var queue := RemoveAt(s.queue, at.value);
      (s.(queue := queue, snapshot := s.snapshot.(queued := |queue|)), true)
  }

  /** The text of an error, if there is one. */
  function Message(error: Option<string>): string {
    if error.Some? then error.value else ""
  }

  /** Finish, run once per transaction: release if the id still owns, then hand over. */
  function Release(t: Text, s: State, id: string, error: Option<string>): State {
    var s1 :=
      if s.snapshot.Busy? && s.snapshot.id == id then
        s.(snapshot := Idle(|s.queue|, Last(id, Some(s.snapshot.request.operation),
                                            Some(if error == None then Completed else Failed), Message(error))))
      else s;
    if s1.queue == [] then s1
    else
      var b := Best(s1.queue, |s1.queue|);
      Start(t, s1.(queue := RemoveAt(s1.queue, b)), s1.queue[b].request, s1.queue[b].policy)
  }

  /** The waiter that Release admits. */
  function Next(s: State): Option<Waiter> {
    if s.queue == [] then None else Some(s.queue[Best(s.queue, |s.queue|)])
  }

  /** SetPhase: refused unless the id owns the coordinator. */
  function WithPhase(s: State, id: string, p: Phase): (State, bool) {
    if s.snapshot.Busy? && s.snapshot.id == id then (s.(snapshot := s.snapshot.(phase := p)), true)
    else (s, false)
  }

  // ---- The coordinator object ----

  class Coordinator {
    const text: Text
    var snapshot: Snapshot
    var seqno: nat
    var waiters: array<Waiter>
    var count: nat

    ghost predicate Valid()
      reads this, waiters
    {
      count <= waiters.Length && Ordered(waiters[..count], seqno)
    }

    function Abs(): State
      reads this, waiters
      requires count <= waiters.Length
    {
      State(snapshot, waiters[..count], seqno)
    }

    constructor (text: Text)
      ensures Valid() && fresh(waiters) && this.text == text
      ensures Abs() == State(Idle(0, Last("", None, None, "")), [], 0)
    {
      this.text := text;
      snapshot, seqno, count := Idle(0, Last("", None, None, "")), 0, 0;
      waiters := new Waiter[0];
    }

    /** startLocked. */
    method StartLocked(r: Request, p: Policy)
      requires Valid()
      modifies this`snapshot, this`seqno
      ensures Valid() && Abs() == Start(text, old(Abs()), r, p)
    {
      var id := text.trim(r.id);
      if id == "" {
        seqno := seqno + 1;
        id := text.autoId(seqno);
      }
      snapshot := Busy(id, r.(faultDomain := text.trim(r.faultDomain)), p, Preparing, count, snapshot.last);
    }

    /** supersedeLowerPriorityLocked: filters the backing array in place. */
    method SupersedeLocked(next: Waiter) returns (superseded: seq<Waiter>)
      requires Valid()
      modifies this`count, waiters
      ensures count <= waiters.Length
      ensures waiters[..count] == Kept(old(waiters[..count]), next)
      ensures superseded == Dropped(old(waiters[..count]), next)
    {
      ghost var q := waiters[..count];
      var kept := 0;
      superseded := [];
      assert Kept(q[..0], next) == [] && Dropped(q[..0], next) == [];
      assert count <= waiters.Length;
      hide *;
      for i := 0 to count
        invariant count == old(count) && kept <= i && |superseded| + kept == i
        invariant waiters[..kept] == Kept(q[..i], next)
        invariant superseded == Dropped(q[..i], next)
        invariant forall k :: i <= k < count ==> waiters[k] == q[k]
      {
        KeptNext(q, i, next);
        var current := waiters[i];
        if Supersedes(next, current) {
          superseded := superseded + [current];
        } else {
          waiters[kept] := current;
          kept := kept + 1;
          assert waiters[..kept] == waiters[..kept - 1] + [current];
        }
      }
      assert q[..count] == q;
      count := kept;
    }

    /** append(c.waiters, w): in place if there is room, else into a larger array. */
    method AppendLocked(w: Waiter)
      requires count <= waiters.Length
      modifies this`waiters, this`count, waiters
      ensures waiters == old(waiters) || fresh(waiters)
      ensures count <= waiters.Length && waiters[..count] == old(waiters[..count]) + [w]
    {
      if count == waiters.Length {
        var larger := new Waiter[2 * count + 1](_ => w);
        for i := 0 to count
          invariant waiters == old(waiters) && count == old(count) && waiters[..] == old(waiters[..])
          invariant forall k :: 0 <= k < i ==> larger[k] == waiters[k]
        {
          larger[i] := waiters[i];
        }
        waiters := larger;
      }
      waiters[count] := w;
      count := count + 1;
    }

    /** append(c.waiters[:i], c.waiters[i+1:]...): shifts the tail left in place. */
    method DeleteLocked(i: nat)
      requires i < count <= waiters.Length
      modifies this`count, waiters
      ensures count <= waiters.Length && waiters[..count] == RemoveAt(old(waiters[..count]), i)
    {
      ghost var q := waiters[..count];
      for k := i to count - 1
        invariant count == old(count)
        invariant forall m :: 0 <= m < i ==> waiters[m] == q[m]
        invariant forall m :: i <= m < k ==> waiters[m] == q[m + 1]
        invariant forall m :: k <= m < count ==> waiters[m] == q[m]
      {
        waiters[k] := waiters[k + 1];
      }
      count := count - 1;
      assert waiters[..count] == RemoveAt(q, i);
    }

    /**
     The part of Begin under the mutex. Without a waiter the transaction was started at
     once; otherwise the caller must await `waiter`, and Begin owes a superseded message
     to each waiter it dropped.
     */
    method Admit(r: Request) returns (waiter: Option<Waiter>, superseded: seq<Waiter>)
      requires Valid()
      modifies this, waiters
      ensures Valid() && (waiters == old(waiters) || fresh(waiters))
      ensures Free(old(Abs())) ==>
                waiter == None && superseded == [] && Abs() == Start(text, old(Abs()), r, PolicyFor(text.fold, r))
      ensures !Free(old(Abs())) ==>
                && waiter == Some(NewWaiter(text, old(Abs()), r))
                && superseded == Dropped(old(Abs()).queue, waiter.value)
                && Abs() == Enqueue(old(Abs()), waiter.value)
    {
      if snapshot.Idle? && count == 0 {
        StartLocked(r, PolicyFor(text.fold, r));
        return None, [];
      }
      ghost var q := waiters[..count];
      assert q == old(Abs()).queue;
      seqno := seqno + 1;
      var w := Waiter(r, PolicyFor(text.fold, r), seqno);
      EnqueueOrdered(q, seqno - 1, w);
      hide Kept, Dropped, Ordered, PolicyFor;
      superseded := SupersedeLocked(w);
      AppendLocked(w);
      snapshot := snapshot.(queued := count);
      waiter := Some(w);
    }

    /** TryBegin: never queues. */
    method TryBegin(r: Request) returns (started: bool)
      requires Valid()
      modifies this`snapshot, this`seqno
      ensures Valid() && started == Free(old(Abs()))
      ensures Abs() == if started then Start(text, old(Abs()), r, PolicyFor(text.fold, r)) else old(Abs())
    {
      if snapshot.Busy? || count > 0 {
        return false;
      }
      StartLocked(r, PolicyFor(text.fold, r));
      started := true;
    }

    method RemoveWaiter(sequence: nat) returns (removed: bool)
      requires Valid()
      modifies this`snapshot, this`count, waiters
      ensures Valid() && (Abs(), removed) == Remove(old(Abs()), sequence)
      ensures removed <==> exists i :: 0 <= i < |old(Abs()).queue| && old(Abs()).queue[i].sequence == sequence
    {
      ghost var q := waiters[..count];
      for i := 0 to count
        invariant count == old(count) && waiters[..count] == q && Valid() && Abs() == old(Abs())
        invariant forall k :: 0 <= k < i ==> waiters[k].sequence != sequence
      {
        if waiters[i].sequence == sequence {
          PositionUnique(q, seqno, sequence, i);
          RemoveOrdered(q, seqno, i);
          DeleteLocked(i);
          snapshot := snapshot.(queued := count);
          return true;
        }
      }
      assert Position(q, sequence).None?;
      removed := false;
    }

    /** popNextLocked. */
    method PopNextLocked() returns (next: Option<Waiter>)
      requires Valid()
      modifies this`count, waiters
      ensures Valid() && next == Next(old(Abs()))
      ensures next.None? ==> Abs() == old(Abs())
      ensures next.Some? ==>
                && IsBest(old(Abs()).queue, Best(old(Abs()).queue, |old(Abs()).queue|))
                && Abs() == old(Abs()).(queue := RemoveAt(old(Abs()).queue, Best(old(Abs()).queue, |old(Abs()).queue|)))
    {
      if count == 0 {
        return None;
      }
      ghost var q := waiters[..count];
      var best := 0;
      for i := 1 to count
        invariant count == old(count) && waiters[..count] == q && best == Best(q, i)
      {
        assert waiters[i] == q[i] && waiters[best] == q[best];
        if Before(waiters[i], waiters[best]) {
          best := i;
        }
      }
      BestIsBest(q, seqno, count);
      hide Best, Before;
      assert waiters[best] == q[best];
      next := Some(waiters[best]);
      DeleteLocked(best);
      RemoveOrdered(q, seqno, best);
    }

    method SetPhase(id: string, p: Phase) returns (ok: bool)
      requires Valid()
      modifies this`snapshot
      ensures Valid() && (Abs(), ok) == WithPhase(old(Abs()), id, p)
    {
      if snapshot.Idle? || snapshot.id != id {
        return false;
      }
      snapshot := snapshot.(phase := p);
      ok := true;
    }

    /** The once-guarded body of Finish; the granted waiter is told after unlocking. */
    method FinishOnce(id: string, error: Option<string>) returns (granted: Option<Waiter>)
      requires Valid()
      modifies this`snapshot, this`seqno, this`count, waiters
      ensures Valid() && Abs() == Release(text, old(Abs()), id, error) && granted == Next(old(Abs()))
    {
      if snapshot.Busy? && snapshot.id == id {
        snapshot := Idle(count, Last(id, Some(snapshot.request.operation),
                                     Some(if error == None then Completed else Failed), Message(error)));
      }
      granted := PopNextLocked();
      if granted.Some? {
        StartLocked(granted.value.request, granted.value.policy);
      }
    }
  }

  lemma PositionUnique(q: seq<Waiter>, issued: nat, sequence: nat, i: nat)
    requires Ordered(q, issued) && i < |q| && q[i].sequence == sequence
    ensures Position(q, sequence) == Some(i)
  {
  }

  lemma RemoveOrdered(q: seq<Waiter>, issued: nat, i: nat)
    requires Ordered(q, issued) && i < |q|
    ensures Ordered(RemoveAt(q, i), issued)
  {
  }

  /** Filtering keeps the arrival order and drops exactly the superseded waiters. */
  lemma {:induction false} KeptOrdered(q: seq<Waiter>, issued: nat, next: Waiter)
    requires Ordered(q, issued)
    ensures Ordered(Kept(q, next), issued)
    ensures forall w :: w in Kept(q, next) <==> w in q && !Supersedes(next, w)
    ensures forall w :: w in Dropped(q, next) <==> w in q && Supersedes(next, w)
  {
    if q != [] {
      var n := |q| - 1;
      assert q == q[..n] + [q[n]];
      KeptOrdered(q[..n], issued, next);
      var kept := Kept(q[..n], next);
      forall i | 0 <= i < |kept| ensures kept[i].sequence < q[n].sequence {
        assert kept[i] in q[..n];
      }
    }
  }

  lemma EnqueueOrdered(q: seq<Waiter>, issued: nat, w: Waiter)
    requires Ordered(q, issued) && w.sequence == issued + 1
    ensures Ordered(Kept(q, w) + [w], issued + 1)
  {
    KeptOrdered(q, issued, w);
  }
}
