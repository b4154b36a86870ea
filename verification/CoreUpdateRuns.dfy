/** What every interleaving of core update calls keeps: serial transactions, one finish, no lost session. */
module CoreUpdateRuns {
  import opened Common
  import opened CoreUpdateSession

  // ---- The invariant ----

  predicate BeginHolds(at: BeginPoint) {
    !at.Checking? && !at.Waiting? && !at.Arming? && !at.BeginDone?
  }

  /** This transaction is unfinished. */
  predicate Holds(w: World, n: nat) {
    || (n in w.actors && w.actors[n].Beginner? && BeginHolds(w.actors[n].begin))
    || (n in w.actors && w.actors[n].Outsider? && w.actors[n].acquired && !w.actors[n].over)
    || (n in w.sessions && !w.sessions[n].released)
  }

  ghost predicate TokenInv(w: World) {
    forall n: nat :: Holds(w, n) <==> w.owner == Some(n)
  }

  /** The lock is held, and the action at this point is due. */
  predicate Inside(at: ClosePoint) {
    !at.Locking? && !at.CloseDone?
  }

  ghost predicate SessionFits(w: World, s: nat)
    requires s in w.sessions
  {
    var session := w.sessions[s];
    && s in w.actors && w.actors[s] in {Beginner(Arming), Beginner(BeginDone)}
    && (session.stopped ==> session.running)
    && (!session.finished ==> !session.released && w.pointer == Some(s))
    && (session.finished && !session.released ==>
          session.lock.Some? && session.lock.value in w.actors && w.actors[session.lock.value].Closer?
          && w.actors[session.lock.value].session == s && w.actors[session.lock.value].close == Releasing)
  }

  ghost predicate ActorFits(w: World, n: nat)
    requires n in w.actors
  {
    match w.actors[n]
    case Beginner(at) =>
      && (at == Arming ==> n in w.sessions)
      && (forall r, st :: at == Registering(r, st) ==> st ==> r)
    case Closer(kind, s, at) =>
      && s in w.sessions
      && (Inside(at) ==> w.sessions[s].lock == Some(n))
      && (at in {Starting, Restoring, Verifying, FailingClosed, Marking} ==> !w.sessions[s].finished)
      && (at == Releasing ==> w.sessions[s].finished && !w.sessions[s].released)
      && (at == Clearing ==> w.sessions[s].released && w.sessions[s].finished)
      && (at == Restoring ==> w.sessions[s].stopped)
      && (at in {Verifying, FailingClosed} ==> kind == Commit && w.sessions[s].running)
      && (at == Verifying ==> !w.sessions[s].stopped)
    case Outsider(_, _) => true
  }

  ghost predicate ShapeInv(w: World) {
    && (forall s: nat :: s in w.sessions ==> SessionFits(w, s))
    && (forall n: nat :: n in w.actors ==> ActorFits(w, n))
    && (w.pointer.Some? ==> w.pointer.value in w.sessions)
  }

  /** An expiry call for session s is under way. */
  predicate ExpiryFor(w: World, n: nat, s: nat) {
    && n in w.actors && w.actors[n].Closer?
    && w.actors[n].kind == Expiry && w.actors[n].session == s && w.actors[n].close != CloseDone
  }

  /** An unfinished session always has a timer, or an expiry call on its way, or one about to be armed. */
  ghost predicate Reaped(w: World, s: nat)
    requires s in w.sessions
  {
    || w.sessions[s].armed
    || (s in w.actors && w.actors[s] == Beginner(Arming))
    || exists n: nat :: ExpiryFor(w, n, s)
  }

  ghost predicate ReaperInv(w: World) {
    forall s: nat :: s in w.sessions && !w.sessions[s].finished ==> Reaped(w, s)
  }

  // ---- The log ----

  predicate Mentions(log: seq<Entry>, n: nat) {
    exists i :: 0 <= i < |log| && log[i].tx == n
  }

  /** The entries of transaction n form the end of the log. */
  predicate Latest(log: seq<Entry>, n: nat) {
    forall i, j :: 0 <= i < j < |log| && log[i].tx == n ==> log[j].tx == n
  }

  /** No transaction's entries are interleaved with another's. */
  predicate Contiguous(log: seq<Entry>) {
    forall i, j, k :: 0 <= i < j < k < |log| && log[i].tx == log[k].tx ==> log[j].tx == log[i].tx
  }

  predicate LastIs(log: seq<Entry>, e: Entry) {
    log != [] && log[|log| - 1] == e
  }

  /** A finished transaction never sends anything again; in particular it is finished once. */
  predicate ClosedLast(log: seq<Entry>) {
    forall i, j :: 0 <= i < j < |log| && log[i].command == Closed ==> log[j].tx != log[i].tx
  }

  /** Capture is switched back on only directly after the same transaction restarted the core. */
  predicate RestoresAfterStart(log: seq<Entry>) {
    forall i :: 0 <= i < |log| && log[i].command == CaptureOn ==> i > 0 && log[i - 1] == Entry(log[i].tx, CoreStart, true)
  }

  /** A commit that fails has directly before tried to stop the core it started. */
  predicate FailsClosed(log: seq<Entry>) {
    forall i :: 0 <= i < |log| && log[i].command == CommitFailed ==>
      i > 0 && log[i - 1].tx == log[i].tx && log[i - 1].command == CoreStop
  }

  predicate SeqInv(log: seq<Entry>, owner: Option<nat>) {
    && Contiguous(log) && ClosedLast(log) && RestoresAfterStart(log) && FailsClosed(log)
    && (owner.Some? ==>
          && Latest(log, owner.value)
          && forall i :: 0 <= i < |log| && log[i].command == Closed ==> log[i].tx != owner.value)
  }

  predicate Pending(a: Actor) {
    a in {Beginner(Checking), Beginner(Waiting), Outsider(false, false)}
  }

  /** Transactions that have not been admitted yet have sent nothing. */
  ghost predicate PendingInv(w: World) {
    && (forall i :: 0 <= i < |w.log| ==> w.log[i].tx in w.actors)
    && (forall n: nat :: n in w.actors && Pending(w.actors[n]) ==> !Mentions(w.log, n))
  }

  /**
   The command whose success the next action of an actor relies on: the restart of the core
   before capture is switched on, and the last check before a commit is marked finished.
   */
  function Awaited(w: World, a: Actor): Option<Command> {
    match a
    case Beginner(at) => if at == Reenabling then Some(CoreStart) else None
    case Closer(kind, s, at) =>
      if at == Restoring then Some(CoreStart)
      else if kind == Commit && at == Marking && s in w.sessions && w.sessions[s].running then
        Some(if w.sessions[s].stopped then CaptureOn else Verify)
      else None
    case Outsider(_, _) => None
  }

  function TxOf(n: nat, a: Actor): nat {
    if a.Closer? then a.session else n
  }

  ghost predicate LastInv(w: World) {
    forall n: nat :: n in w.actors && Awaited(w, w.actors[n]).Some? ==>
      LastIs(w.log, Entry(TxOf(n, w.actors[n]), Awaited(w, w.actors[n]).value, true))
  }

  ghost predicate Inv(w: World) {
    TokenInv(w) && ShapeInv(w) && ReaperInv(w) && SeqInv(w.log, w.owner) && PendingInv(w) && LastInv(w)
  }

  // ---- Preservation ----

  lemma BeginKeepsToken(w: World, n: nat, at: BeginPoint, a: Answer)
    requires TokenInv(w) && ShapeInv(w) && n in w.actors && w.actors[n] == Beginner(at)
    ensures TokenInv(GoBegin(w, n, at, a))
  {
    var w1 := GoBegin(w, n, at, a);
    assert ActorFits(w, n) && (n in w.sessions ==> SessionFits(w, n));
    assert Holds(w, n) <==> w.owner == Some(n);
    hide ShapeInv, SessionFits, ActorFits;
    forall m: nat ensures Holds(w1, m) <==> w1.owner == Some(m) {
      assert Holds(w, m) <==> w.owner == Some(m);
    }
  }

  /** A new session never replaces an unfinished one. */
  lemma RegistrationReplacesFinished(w: World, n: nat)
    requires TokenInv(w) && ShapeInv(w) && n in w.actors && w.actors[n].Beginner? && w.actors[n].begin.Registering?
    ensures n !in w.sessions
    ensures forall s: nat :: s in w.sessions ==> w.sessions[s].finished
  {
    assert n in w.sessions ==> SessionFits(w, n);
    assert Holds(w, n);
    forall s: nat | s in w.sessions ensures w.sessions[s].finished {
      assert SessionFits(w, s);
      assert !w.sessions[s].finished ==> Holds(w, s);
    }
  }

  lemma BeginKeepsSessions(w: World, n: nat, at: BeginPoint, a: Answer)
    requires TokenInv(w) && ShapeInv(w) && n in w.actors && w.actors[n] == Beginner(at)
    ensures var w1 := GoBegin(w, n, at, a);
            && (w1.pointer.Some? ==> w1.pointer.value in w1.sessions)
            && forall s: nat :: s in w1.sessions ==> SessionFits(w1, s)
  {
    assert ActorFits(w, n);
    if at.Registering? {
      RegistrationKeepsSessions(w, n, at, a);
    } else {
      BeginStaysFit(w, n, at, a);
    }
    hide GoBegin, SessionFits, ActorFits, TokenInv;
  }

  lemma RegistrationKeepsSessions(w: World, n: nat, at: BeginPoint, a: Answer)
    requires TokenInv(w) && ShapeInv(w) && n in w.actors && w.actors[n] == Beginner(at) && at.Registering?
    ensures var w1 := GoBegin(w, n, at, a);
            && w1.pointer == Some(n) && n in w1.sessions
            && forall s: nat :: s in w1.sessions ==> SessionFits(w1, s)
  {
    var w1 := GoBegin(w, n, at, a);
    assert ActorFits(w, n);
    RegistrationReplacesFinished(w, n);
    hide TokenInv, ActorFits;
    forall s: nat | s in w1.sessions ensures SessionFits(w1, s) {
      assert s in w.sessions ==> SessionFits(w, s);
    }
  }

  lemma BeginStaysFit(w: World, n: nat, at: BeginPoint, a: Answer)
    requires ShapeInv(w) && n in w.actors && w.actors[n] == Beginner(at) && !at.Registering?
    ensures var w1 := GoBegin(w, n, at, a);
            && w1.pointer == w.pointer && w1.sessions.Keys == w.sessions.Keys
            && forall s: nat :: s in w1.sessions ==> SessionFits(w1, s)
  {
    var w1 := GoBegin(w, n, at, a);
    hide ActorFits;
    forall s: nat | s in w1.sessions ensures SessionFits(w1, s) {
      assert SessionFits(w, s);
    }
  }

  /** No session is lost, and none changes but for its timer. */
  ghost predicate SessionsStay(w: World, w1: World) {
    forall s: nat :: s in w.sessions ==>
      s in w1.sessions && w1.sessions[s].(armed := false) == w.sessions[s].(armed := false)
  }

  lemma ActorStays(w: World, w1: World, m: nat)
    requires SessionsStay(w, w1) && m in w.actors && ActorFits(w, m) && m in w1.actors && w1.actors[m] == w.actors[m]
    ensures ActorFits(w1, m)
  {
  }

  lemma BeginMovesOne(w: World, n: nat, at: BeginPoint, a: Answer)
    requires n in w.actors && w.actors[n] == Beginner(at) && ActorFits(w, n) && (at.Registering? ==> n !in w.sessions)
    ensures var w1 := GoBegin(w, n, at, a);
            && SessionsStay(w, w1)
            && w1.actors.Keys == w.actors.Keys && (forall m :: m in w.actors && m != n ==> w1.actors[m] == w.actors[m])
            && ActorFits(w1, n)
  {
  }

  lemma BeginKeepsActors(w: World, n: nat, at: BeginPoint, a: Answer)
    requires TokenInv(w) && ShapeInv(w) && n in w.actors && w.actors[n] == Beginner(at)
    ensures var w1 := GoBegin(w, n, at, a);
            forall m: nat :: m in w1.actors ==> ActorFits(w1, m)
  {
    var w1 := GoBegin(w, n, at, a);
    assert ActorFits(w, n);
    if at.Registering? {
      RegistrationReplacesFinished(w, n);
    }
    BeginMovesOne(w, n, at, a);
    hide TokenInv, GoBegin, SessionsStay;
    forall m: nat | m in w1.actors ensures ActorFits(w1, m) {
      if m != n {
        assert ActorFits(w, m);
        ActorStays(w, w1, m);
      }
    }
  }

  lemma CloseKeepsToken(w: World, n: nat, kind: Kind, s: nat, at: ClosePoint, a: Answer)
    requires TokenInv(w) && ShapeInv(w) && n in w.actors && w.actors[n] == Closer(kind, s, at) && s in w.sessions
    ensures TokenInv(GoClose(w, n, kind, s, at, a))
  {
    var w1 := GoClose(w, n, kind, s, at, a);
    assert ActorFits(w, n) && SessionFits(w, s);
    assert Holds(w, s) <==> w.owner == Some(s);
    hide ShapeInv, SessionFits, ActorFits;
    forall m: nat ensures Holds(w1, m) <==> w1.owner == Some(m) {
      assert Holds(w, m) <==> w.owner == Some(m);
    }
  }

  /** A closer that holds the lock moves to another point of the same session. */
  lemma MoveKeepsShape(w: World, w1: World, n: nat, kind: Kind, s: nat, at: ClosePoint, next: ClosePoint)
    requires ShapeInv(w) && n in w.actors && w.actors[n] == Closer(kind, s, at) && s in w.sessions
    requires at in {Testing, Starting, Restoring, Verifying} && !w.sessions[s].finished
    requires next in {Starting, Restoring, Verifying, FailingClosed, Marking}
    requires next == Restoring ==> w.sessions[s].stopped
    requires next in {Verifying, FailingClosed} ==> kind == Commit && w.sessions[s].running
    requires next == Verifying ==> !w.sessions[s].stopped
    requires w1.(log := w.log) == At(w, n, Closer(kind, s, next))
    ensures ShapeInv(w1)
  {
    assert ActorFits(w, n);
    forall t: nat | t in w1.sessions ensures SessionFits(w1, t) {
      assert SessionFits(w, t);
    }
    forall m: nat | m in w1.actors ensures ActorFits(w1, m) {
      assert ActorFits(w, m);
    }
  }

  lemma UnlockKeepsShape(w: World, n: nat, kind: Kind, s: nat, at: ClosePoint)
    requires ShapeInv(w) && n in w.actors && w.actors[n] == Closer(kind, s, at) && s in w.sessions
    requires Inside(at) && at != Releasing
    ensures ShapeInv(Unlocked(w, n, kind, s))
  {
    var w1 := Unlocked(w, n, kind, s);
    assert ActorFits(w, n) && SessionFits(w, s);
    forall t: nat | t in w1.sessions ensures SessionFits(w1, t) {
      assert SessionFits(w, t);
    }
    forall m: nat | m in w1.actors ensures ActorFits(w1, m) {
      assert ActorFits(w, m);
    }
  }

  /** The finish section: mark, release, clear. */
  lemma FinishKeepsSessions(w: World, n: nat, kind: Kind, s: nat, at: ClosePoint, a: Answer)
    requires ShapeInv(w) && n in w.actors && w.actors[n] == Closer(kind, s, at) && s in w.sessions
    requires at in {Locking, Marking, Releasing}
    ensures var w1 := GoClose(w, n, kind, s, at, a);
            w1.pointer == w.pointer && forall t: nat :: t in w1.sessions ==> SessionFits(w1, t)
  {
    var w1 := GoClose(w, n, kind, s, at, a);
    assert ActorFits(w, n) && SessionFits(w, s);
    forall t: nat | t in w1.sessions ensures SessionFits(w1, t) {
      assert SessionFits(w, t);
    }
  }

  lemma FinishKeepsActors(w: World, n: nat, kind: Kind, s: nat, at: ClosePoint, a: Answer)
    requires ShapeInv(w) && n in w.actors && w.actors[n] == Closer(kind, s, at) && s in w.sessions
    requires at in {Locking, Marking, Releasing}
    ensures var w1 := GoClose(w, n, kind, s, at, a);
            forall m: nat :: m in w1.actors ==> ActorFits(w1, m)
  {
    var w1 := GoClose(w, n, kind, s, at, a);
    assert ActorFits(w, n) && SessionFits(w, s);
    forall m: nat | m in w1.actors ensures ActorFits(w1, m) {
      assert ActorFits(w, m);
    }
  }

  /** The pointer is cleared only if it still designates this session. */
  lemma ClearKeepsShape(w: World, n: nat, kind: Kind, s: nat)
    requires ShapeInv(w) && n in w.actors && w.actors[n] == Closer(kind, s, Clearing) && s in w.sessions
    ensures ShapeInv(GoClose(w, n, kind, s, Clearing, Answer(true, true, true)))
  {
    assert ActorFits(w, n);
    var w0 := if w.pointer == Some(s) then w.(pointer := None) else w;
    forall t: nat | t in w0.sessions ensures SessionFits(w0, t) {
      assert SessionFits(w, t);
    }
    forall m: nat | m in w0.actors ensures ActorFits(w0, m) {
      assert ActorFits(w, m);
    }
    UnlockKeepsShape(w0, n, kind, s, Clearing);
  }

  lemma SentKeepsShape(w: World, log: seq<Entry>)
    requires ShapeInv(w)
    ensures ShapeInv(w.(log := log))
  {
  }

  lemma CloseKeepsShape(w: World, n: nat, kind: Kind, s: nat, at: ClosePoint, a: Answer)
    requires ShapeInv(w) && n in w.actors && w.actors[n] == Closer(kind, s, at) && s in w.sessions
    ensures ShapeInv(GoClose(w, n, kind, s, at, a))
  {
    var w1 := GoClose(w, n, kind, s, at, a);
    assert ActorFits(w, n) && SessionFits(w, s);
    hide SessionFits, ActorFits;
    match at
    case Locking => FinishKeepsSessions(w, n, kind, s, at, a); FinishKeepsActors(w, n, kind, s, at, a);
    case Testing =>
      if w.sessions[s].finished || (kind == Commit && !a.ok) {
        UnlockKeepsShape(w, n, kind, s, at);
      } else {
        MoveKeepsShape(w, w1, n, kind, s, at, w1.actors[n].close);
      }
    case Starting => MoveKeepsShape(w, w1, n, kind, s, at, w1.actors[n].close);
    case Restoring => MoveKeepsShape(w, w1, n, kind, s, at, w1.actors[n].close);
    case Verifying => MoveKeepsShape(w, w1, n, kind, s, at, w1.actors[n].close);
    case FailingClosed =>
      UnlockKeepsShape(w, n, kind, s, at);
      SentKeepsShape(Unlocked(w, n, kind, s), w1.log);
    case Marking => FinishKeepsSessions(w, n, kind, s, at, a); FinishKeepsActors(w, n, kind, s, at, a);
    case Releasing => FinishKeepsSessions(w, n, kind, s, at, a); FinishKeepsActors(w, n, kind, s, at, a);
    case Clearing => ClearKeepsShape(w, n, kind, s);
    case CloseDone =>
  }

  lemma OtherKeepsShape(w: World, n: nat, acquired: bool, over: bool, a: Answer)
    requires TokenInv(w) && ShapeInv(w) && n in w.actors && w.actors[n] == Outsider(acquired, over)
    ensures TokenInv(GoOther(w, n, acquired, over, a)) && ShapeInv(GoOther(w, n, acquired, over, a))
  {
    var w1 := GoOther(w, n, acquired, over, a);
    assert Holds(w, n) <==> w.owner == Some(n);
    forall s: nat | s in w1.sessions ensures SessionFits(w1, s) {
      assert SessionFits(w, s);
    }
    forall m: nat | m in w1.actors ensures ActorFits(w1, m) {
      assert m in w.actors && ActorFits(w, m);
    }
    forall m: nat ensures Holds(w1, m) <==> w1.owner == Some(m) {
      assert Holds(w, m) <==> w.owner == Some(m);
    }
  }

  lemma CallKeepsToken(w: World, step: Step)
    requires TokenInv(w) && ShapeInv(w) && !step.Go?
    ensures TokenInv(Do(w, step))
  {
  }

  lemma CallKeepsShape(w: World, step: Step)
    requires ShapeInv(w) && !step.Go?
    ensures ShapeInv(Do(w, step))
  {
    var w1 := Do(w, step);
    forall s: nat | s in w1.sessions ensures SessionFits(w1, s) {
      assert SessionFits(w, s);
    }
    forall m: nat | m in w1.actors ensures ActorFits(w1, m) {
      assert m in w.actors ==> ActorFits(w, m);
    }
  }

  // ---- Preservation of the log properties ----

  lemma SendKeepsSeq(log: seq<Entry>, e: Entry)
    requires SeqInv(log, Some(e.tx)) && e.command != Closed
    requires e.command == CaptureOn ==> LastIs(log, Entry(e.tx, CoreStart, true))
    requires e.command == CommitFailed ==> exists ok :: LastIs(log, Entry(e.tx, CoreStop, ok))
    ensures SeqInv(log + [e], Some(e.tx))
  {
  }

  lemma ReleaseKeepsSeq(log: seq<Entry>, tx: nat)
    requires SeqInv(log, Some(tx))
    ensures SeqInv(log + [Entry(tx, Closed, true)], None)
  {
  }

  lemma AcquireKeepsSeq(log: seq<Entry>, tx: nat)
    requires SeqInv(log, None) && !Mentions(log, tx)
    ensures SeqInv(log, Some(tx))
  {
  }

  /** What one action adds to the log: commands of the owner, and at most its release. */
  predicate Extends(w: World, w1: World) {
    || (w1.log == w.log && (w1.owner == w.owner || w.owner.None?))
    || (w.owner.Some? && w.log < w1.log && (forall i :: |w.log| <= i < |w1.log| ==> w1.log[i].tx == w.owner.value))
  }

  /** A beginning call that has been admitted, and may send, is the owner. */
  lemma BeginnerCommands(w: World, n: nat, at: BeginPoint)
    requires TokenInv(w) && n in w.actors && w.actors[n] == Beginner(at) && BeginHolds(at)
    ensures w.owner == Some(n)
  {
    assert Holds(w, n);
  }

  lemma ReenablingFollowsStart(w: World, n: nat)
    requires LastInv(w) && n in w.actors && w.actors[n] == Beginner(Reenabling)
    ensures LastIs(w.log, Entry(n, CoreStart, true))
  {
    assert Awaited(w, w.actors[n]) == Some(CoreStart);
  }

  lemma BeginKeepsSeq(w: World, n: nat, at: BeginPoint, a: Answer)
    requires Inv(w) && n in w.actors && w.actors[n] == Beginner(at)
    ensures var w1 := GoBegin(w, n, at, a);
            SeqInv(w1.log, w1.owner) && Extends(w, w1) && (w1.log != w.log ==> w.owner == Some(n))
  {
    hide TokenInv, ShapeInv, ReaperInv, SeqInv, LastInv, LastIs, Awaited, Mentions;
    var w1 := GoBegin(w, n, at, a);
    if BeginHolds(at) {
      BeginnerCommands(w, n, at);
    }
    match at
    case Waiting => if w1.owner != w.owner { AcquireKeepsSeq(w.log, n); }
    case Abandoning => ReleaseKeepsSeq(w.log, n);
    case StoppingCapture => SendKeepsSeq(w.log, w1.log[|w.log|]);
    case StoppingCore(_) => SendKeepsSeq(w.log, w1.log[|w.log|]);
    case Restarting(_) => SendKeepsSeq(w.log, w1.log[|w.log|]);
    case Reenabling =>
      ReenablingFollowsStart(w, n);
      SendKeepsSeq(w.log, w1.log[|w.log|]);
    case _ =>
  }

  lemma FailClosedKeepsSeq(log: seq<Entry>, tx: nat, ok: bool)
    requires SeqInv(log, Some(tx))
    ensures SeqInv(log + [Entry(tx, CoreStop, ok)] + [Entry(tx, CommitFailed, true)], Some(tx))
  {
    SendKeepsSeq(log, Entry(tx, CoreStop, ok));
    assert LastIs(log + [Entry(tx, CoreStop, ok)], Entry(tx, CoreStop, ok));
    SendKeepsSeq(log + [Entry(tx, CoreStop, ok)], Entry(tx, CommitFailed, true));
  }

  /** A closer that may send acts for the owner, under the lock. */
  lemma CloserCommands(w: World, n: nat, kind: Kind, s: nat, at: ClosePoint)
    requires TokenInv(w) && ShapeInv(w) && n in w.actors && w.actors[n] == Closer(kind, s, at) && s in w.sessions
    requires at in {Starting, Restoring, Verifying, FailingClosed, Releasing}
    ensures w.owner == Some(s) && w.sessions[s].lock == Some(n)
    ensures at == FailingClosed ==> w.sessions[s].running
  {
    assert ActorFits(w, n) && SessionFits(w, s);
    assert Holds(w, s);
  }

  lemma RestoringFollowsStart(w: World, n: nat, kind: Kind, s: nat)
    requires LastInv(w) && n in w.actors && w.actors[n] == Closer(kind, s, Restoring)
    ensures LastIs(w.log, Entry(s, CoreStart, true))
  {
    assert Awaited(w, w.actors[n]) == Some(CoreStart);
  }

  lemma CloseKeepsSeq(w: World, n: nat, kind: Kind, s: nat, at: ClosePoint, a: Answer)
    requires Inv(w) && n in w.actors && w.actors[n] == Closer(kind, s, at) && s in w.sessions
    ensures var w1 := GoClose(w, n, kind, s, at, a);
            && SeqInv(w1.log, w1.owner) && Extends(w, w1)
            && (w1.log != w.log ==> w.owner == Some(s) && w.sessions[s].lock == Some(n))
  {
    hide TokenInv, ShapeInv, ReaperInv, SeqInv, LastInv, PendingInv, LastIs, Awaited;
    var w1 := GoClose(w, n, kind, s, at, a);
    if at in {Starting, Restoring, Verifying, FailingClosed, Releasing} {
      CloserCommands(w, n, kind, s, at);
    }
    match at
    case Starting => if w.sessions[s].running { SendKeepsSeq(w.log, w1.log[|w.log|]); }
    case Restoring =>
      RestoringFollowsStart(w, n, kind, s);
      SendKeepsSeq(w.log, w1.log[|w.log|]);
    case Verifying => SendKeepsSeq(w.log, w1.log[|w.log|]);
    case FailingClosed => FailClosedKeepsSeq(w.log, s, a.ok);
    case Releasing => ReleaseKeepsSeq(w.log, s);
    case _ =>
  }

  lemma OtherKeepsSeq(w: World, n: nat, acquired: bool, over: bool, a: Answer)
    requires Inv(w) && n in w.actors && w.actors[n] == Outsider(acquired, over)
    ensures var w1 := GoOther(w, n, acquired, over, a);
            SeqInv(w1.log, w1.owner) && Extends(w, w1) && (w1.log != w.log ==> w.owner == Some(n))
  {
    var w1 := GoOther(w, n, acquired, over, a);
    assert Holds(w, n) <==> w.owner == Some(n);
    assert !acquired && !over ==> Pending(w.actors[n]);
    hide TokenInv, ShapeInv, ReaperInv, SeqInv, LastInv;
    if !over {
      if acquired {
        if a.ok { SendKeepsSeq(w.log, Entry(n, Foreign, true)); } else { ReleaseKeepsSeq(w.log, n); }
      } else if w.owner.None? {
        AcquireKeepsSeq(w.log, n);
      }
    }
  }

  /** The actor acts for the owner, and under the lock if it acts for a session. */
  predicate Commands(w: World, n: nat)
    requires n in w.actors
  {
    && w.owner == Some(TxOf(n, w.actors[n]))
    && (w.actors[n].Closer? ==> w.actors[n].session in w.sessions && w.sessions[w.actors[n].session].lock == Some(n))
  }

  lemma GoKeepsSeq(w: World, n: nat, a: Answer)
    requires Inv(w)
    ensures var w1 := GoActor(w, n, a);
            && SeqInv(w1.log, w1.owner) && Extends(w, w1)
            && (w1.log != w.log ==> n in w.actors && Commands(w, n))
  {
    if n in w.actors {
      match w.actors[n]
      case Beginner(at) => BeginKeepsSeq(w, n, at, a);
      case Closer(kind, s, at) => if s in w.sessions { CloseKeepsSeq(w, n, kind, s, at, a); }
      case Outsider(acquired, over) => OtherKeepsSeq(w, n, acquired, over, a);
    }
  }

  lemma AwaitingCommands(w: World, n: nat)
    requires TokenInv(w) && ShapeInv(w) && n in w.actors && Awaited(w, w.actors[n]).Some?
    ensures Commands(w, n)
  {
  }

  /** Only one actor at a time can command. */
  lemma OneCommander(w: World, m: nat, n: nat)
    requires ShapeInv(w) && m in w.actors && n in w.actors && Commands(w, m) && Commands(w, n)
    requires Awaited(w, w.actors[m]).Some?
    requires w.actors[n].Closer? || (w.actors[n].Beginner? && BeginHolds(w.actors[n].begin)) || w.actors[n].Outsider?
    ensures m == n
  {
  }

  /** An actor that adds to the log is past its admission. */
  lemma SpeakerFits(w: World, n: nat, a: Answer)
    requires n in w.actors && GoActor(w, n, a).log != w.log
    ensures w.actors[n].Closer? || (w.actors[n].Beginner? && BeginHolds(w.actors[n].begin)) || w.actors[n].Outsider?
    ensures !Pending(w.actors[n])
  {
  }

  lemma PendingIdle(w: World, n: nat)
    requires TokenInv(w) && ShapeInv(w) && n in w.actors && Pending(w.actors[n])
    ensures w.owner != Some(n)
  {
  }

  /** What an action of n does to the actors, and when it makes n about to switch capture on. */
  ghost predicate Moved(w: World, w1: World, n: nat)
    requires n in w.actors
  {
    && w1.actors.Keys == w.actors.Keys
    && (forall m :: m in w.actors && m != n ==> w1.actors[m] == w.actors[m])
    && TxOf(n, w1.actors[n]) == TxOf(n, w.actors[n])
    && (Pending(w1.actors[n]) ==> Pending(w.actors[n]))
    && (forall s :: s in w.sessions ==>
          && s in w1.sessions
          && w1.sessions[s].running == w.sessions[s].running && w1.sessions[s].stopped == w.sessions[s].stopped)
    && (Awaited(w1, w1.actors[n]).Some? ==>
          LastIs(w1.log, Entry(TxOf(n, w.actors[n]), Awaited(w1, w1.actors[n]).value, true)))
  }

  lemma BeginMoved(w: World, n: nat, at: BeginPoint, a: Answer)
    requires n in w.actors && w.actors[n] == Beginner(at) && (at.Registering? ==> n !in w.sessions)
    ensures Moved(w, GoBegin(w, n, at, a), n)
  {
    BeginNext(w, n, at, a);
    BeginRecords(w, n, at, a);
    hide GoBegin, Pending, Awaited, LastIs;
  }

  lemma BeginNext(w: World, n: nat, at: BeginPoint, a: Answer)
    requires n in w.actors && w.actors[n] == Beginner(at)
    ensures var w1 := GoBegin(w, n, at, a);
            && w1.actors.Keys == w.actors.Keys && (forall m :: m in w.actors && m != n ==> w1.actors[m] == w.actors[m])
            && w1.actors[n].Beginner? && (Pending(w1.actors[n]) ==> Pending(w.actors[n]))
            && (Awaited(w1, w1.actors[n]).Some? ==>
                  LastIs(w1.log, Entry(n, Awaited(w1, w1.actors[n]).value, true)))
  {
  }

  lemma BeginRecords(w: World, n: nat, at: BeginPoint, a: Answer)
    requires at.Registering? ==> n !in w.sessions
    ensures SessionsStay(w, GoBegin(w, n, at, a))
  {
  }

  /** A closing action touches its own session and its own actor only. */
  ghost predicate Touched(w: World, w1: World, s: nat)
    requires s in w.sessions
  {
    && w1.sessions.Keys == w.sessions.Keys
    && (forall t :: t in w.sessions && t != s ==> w1.sessions[t] == w.sessions[t])
    && (w.sessions[s].armed ==> w1.sessions[s].armed || w1.sessions[s].finished)
    && (w.sessions[s].finished ==> w1.sessions[s].finished)
    && w1.sessions[s].running == w.sessions[s].running && w1.sessions[s].stopped == w.sessions[s].stopped
  }

  /** Only the lock, the timer and the progress of the finish change in a session that is closed. */
  ghost predicate Edited(w: World, w1: World, s: nat, session: Session)
    requires s in w.sessions
  {
    && w1.sessions == w.sessions[s := session]
    && session.running == w.sessions[s].running && session.stopped == w.sessions[s].stopped
    && (w.sessions[s].finished ==> session.finished)
    && (w.sessions[s].armed ==> session.armed || session.finished)
  }

  lemma EditedIsTouched(w: World, w1: World, s: nat, session: Session)
    requires s in w.sessions && Edited(w, w1, s, session)
    ensures Touched(w, w1, s)
  {
  }

  /** The points that leave the session as it is. */
  lemma ActionEdits(w: World, n: nat, kind: Kind, s: nat, at: ClosePoint, a: Answer)
    requires s in w.sessions && at in {Starting, Restoring, Verifying, CloseDone}
    ensures Edited(w, GoClose(w, n, kind, s, at, a), s, w.sessions[s])
  {
  }

  lemma UnlockEdits(w: World, n: nat, kind: Kind, s: nat, at: ClosePoint, a: Answer)
    requires s in w.sessions && at in {Testing, FailingClosed, Clearing}
    ensures var session := GoClose(w, n, kind, s, at, a).sessions[s];
            Edited(w, GoClose(w, n, kind, s, at, a), s, session)
  {
  }

  lemma MarkEdits(w: World, n: nat, kind: Kind, s: nat, at: ClosePoint, a: Answer)
    requires s in w.sessions && at in {Locking, Marking, Releasing}
    ensures var session := GoClose(w, n, kind, s, at, a).sessions[s];
            Edited(w, GoClose(w, n, kind, s, at, a), s, session)
  {
  }

  lemma CloseTouched(w: World, n: nat, kind: Kind, s: nat, at: ClosePoint, a: Answer)
    requires s in w.sessions
    ensures Touched(w, GoClose(w, n, kind, s, at, a), s)
  {
    var w1 := GoClose(w, n, kind, s, at, a);
    hide GoClose, Edited, Touched;
    if at in {Starting, Restoring, Verifying, CloseDone} {
      ActionEdits(w, n, kind, s, at, a);
      EditedIsTouched(w, w1, s, w.sessions[s]);
    } else if at in {Locking, Marking, Releasing} {
      MarkEdits(w, n, kind, s, at, a);
      EditedIsTouched(w, w1, s, w1.sessions[s]);
    } else {
      UnlockEdits(w, n, kind, s, at, a);
      EditedIsTouched(w, w1, s, w1.sessions[s]);
    }
  }

  lemma CloseActs(w: World, n: nat, kind: Kind, s: nat, at: ClosePoint, a: Answer)
    requires n in w.actors && w.actors[n] == Closer(kind, s, at) && s in w.sessions
    ensures var w1 := GoClose(w, n, kind, s, at, a);
            && w1.actors.Keys == w.actors.Keys
            && (forall m :: m in w.actors && m != n ==> w1.actors[m] == w.actors[m])
            && w1.actors[n].Closer? && w1.actors[n].kind == kind && w1.actors[n].session == s
  {
  }

  lemma CloseNext(w: World, n: nat, kind: Kind, s: nat, at: ClosePoint, a: Answer)
    requires n in w.actors && w.actors[n] == Closer(kind, s, at) && s in w.sessions
    requires w.sessions[s].stopped ==> w.sessions[s].running
    requires at == Clearing ==> w.sessions[s].finished
    requires at == FailingClosed ==> kind == Commit
    requires (at == Restoring ==> w.sessions[s].stopped) && (at == Verifying ==> !w.sessions[s].stopped)
    ensures var w1 := GoClose(w, n, kind, s, at, a);
            && n in w1.actors && w1.actors[n].Closer? && s in w1.sessions
            && (Awaited(w1, w1.actors[n]).Some? ==> LastIs(w1.log, Entry(s, Awaited(w1, w1.actors[n]).value, true)))
            && (w1.actors[n].close == CloseDone ==> at == CloseDone || kind == Commit || w1.sessions[s].finished)
  {
  }

  lemma CloseMoved(w: World, n: nat, kind: Kind, s: nat, at: ClosePoint, a: Answer)
    requires ShapeInv(w) && n in w.actors && w.actors[n] == Closer(kind, s, at) && s in w.sessions
    ensures Moved(w, GoClose(w, n, kind, s, at, a), n)
  {
    assert SessionFits(w, s) && ActorFits(w, n);
    CloseActs(w, n, kind, s, at, a);
    CloseTouched(w, n, kind, s, at, a);
    CloseNext(w, n, kind, s, at, a);
    hide GoClose, ShapeInv, SessionFits, ActorFits;
  }

  lemma OtherMoved(w: World, n: nat, acquired: bool, over: bool, a: Answer)
    requires n in w.actors && w.actors[n] == Outsider(acquired, over)
    ensures Moved(w, GoOther(w, n, acquired, over, a), n)
  {
  }

  lemma GoMoved(w: World, n: nat, a: Answer)
    requires ShapeInv(w) && n in w.actors
    ensures Moved(w, GoActor(w, n, a), n)
  {
    assert ActorFits(w, n) && (n in w.sessions ==> SessionFits(w, n));
    hide Moved, GoBegin, GoClose, GoOther, ShapeInv;
    match w.actors[n]
    case Beginner(at) => BeginMoved(w, n, at, a);
    case Closer(kind, s, at) => CloseMoved(w, n, kind, s, at, a);
    case Outsider(acquired, over) => OtherMoved(w, n, acquired, over, a);
  }

  lemma GoKeepsLast(w: World, n: nat, a: Answer)
    requires Inv(w) && n in w.actors
    ensures LastInv(GoActor(w, n, a))
  {
    var w1 := GoActor(w, n, a);
    GoKeepsSeq(w, n, a);
    GoMoved(w, n, a);
    if w1.log != w.log { SpeakerFits(w, n, a); }
    hide GoActor, ReaperInv, SeqInv, PendingInv, Commands, SessionFits, Holds;
    forall m: nat | m in w1.actors && Awaited(w1, w1.actors[m]).Some?
      ensures LastIs(w1.log, Entry(TxOf(m, w1.actors[m]), Awaited(w1, w1.actors[m]).value, true))
    {
      assert m != n ==> ActorFits(w, m) && Awaited(w1, w1.actors[m]) == Awaited(w, w.actors[m]);
      if m != n && w1.log != w.log {
        AwaitingCommands(w, m);
        OneCommander(w, m, n);
      }
    }
  }

  lemma GoKeepsPending(w: World, n: nat, a: Answer)
    requires Inv(w) && n in w.actors
    ensures PendingInv(GoActor(w, n, a))
  {
    var w1 := GoActor(w, n, a);
    GoKeepsSeq(w, n, a);
    GoMoved(w, n, a);
    assert TxOf(n, w.actors[n]) in w.actors by {
      assert ActorFits(w, n);
      assert TxOf(n, w.actors[n]) in w.sessions ==> SessionFits(w, TxOf(n, w.actors[n]));
    }
    hide GoActor, ReaperInv, SeqInv, ActorFits, SessionFits, Holds, LastInv;
    forall m: nat | m in w1.actors && Pending(w1.actors[m]) ensures !Mentions(w1.log, m) {
      assert Pending(w.actors[m]);
      PendingIdle(w, m);
      assert !Mentions(w.log, m);
    }
  }

  lemma ReapedStays(w: World, w1: World, s: nat)
    requires s in w.sessions && s in w1.sessions && Reaped(w, s)
    requires w.sessions[s].armed ==> Reaped(w1, s)
    requires s in w.actors && w.actors[s] == Beginner(Arming) ==> Reaped(w1, s)
    requires forall n: nat :: ExpiryFor(w, n, s) ==> ExpiryFor(w1, n, s)
    ensures Reaped(w1, s)
  {
  }

  lemma BeginKeepsReaper(w: World, n: nat, at: BeginPoint, a: Answer)
    requires ReaperInv(w) && n in w.actors && w.actors[n] == Beginner(at)
    ensures ReaperInv(GoBegin(w, n, at, a))
  {
    var w1 := GoBegin(w, n, at, a);
    forall s: nat | s in w1.sessions && !w1.sessions[s].finished ensures Reaped(w1, s) {
      if s in w.sessions && !w.sessions[s].finished && !at.Registering? {
        ReapedStays(w, w1, s);
      } else if s != n {
        ReapedStays(w, w1, s);
      }
    }
  }

  lemma CloseKeepsReaper(w: World, n: nat, kind: Kind, s: nat, at: ClosePoint, a: Answer)
    requires ShapeInv(w) && ReaperInv(w) && n in w.actors && w.actors[n] == Closer(kind, s, at) && s in w.sessions
    ensures ReaperInv(GoClose(w, n, kind, s, at, a))
  {
    var w1 := GoClose(w, n, kind, s, at, a);
    assert ActorFits(w, n) && SessionFits(w, s);
    CloseTouched(w, n, kind, s, at, a);
    CloseActs(w, n, kind, s, at, a);
    CloseNext(w, n, kind, s, at, a);
    hide GoClose, ShapeInv, SessionFits, ActorFits;
    assert s in w.actors && w.actors[s].Beginner?;
    forall t: nat | t in w1.sessions && !w1.sessions[t].finished ensures Reaped(w1, t) {
      ReapedStays(w, w1, t);
    }
  }

  lemma GoKeepsReaper(w: World, n: nat, a: Answer)
    requires ShapeInv(w) && ReaperInv(w) && n in w.actors
    ensures ReaperInv(GoActor(w, n, a))
  {
    assert ActorFits(w, n);
    match w.actors[n]
    case Beginner(at) => BeginKeepsReaper(w, n, at, a);
    case Closer(kind, s, at) => CloseKeepsReaper(w, n, kind, s, at, a);
    case Outsider(_, _) =>
      var w1 := GoActor(w, n, a);
      forall s: nat | s in w1.sessions && !w1.sessions[s].finished ensures Reaped(w1, s) {
        assert SessionFits(w, s);
        ReapedStays(w, w1, s);
      }
  }

  lemma CallKeepsReaper(w: World, step: Step)
    requires ShapeInv(w) && ReaperInv(w) && !step.Go?
    ensures ReaperInv(Do(w, step))
  {
    var w1 := Do(w, step);
    forall s: nat | s in w1.sessions && !w1.sessions[s].finished ensures Reaped(w1, s) {
      if step.Fire? && w1 != w && step.session == s {
        assert ExpiryFor(w1, step.n, s);
      } else {
        ReapedStays(w, w1, s);
      }
    }
  }

  /** A call that starts joins the actors with nothing awaited, and sends nothing. */
  ghost predicate Starts(w: World, w1: World, n: nat, actor: Actor) {
    && n !in w.actors && w1.actors == w.actors[n := actor] && Awaited(w1, actor).None?
    && w1.log == w.log && w1.owner == w.owner && w1.sessions.Keys == w.sessions.Keys
    && forall s :: s in w.sessions ==>
         w1.sessions[s].running == w.sessions[s].running && w1.sessions[s].stopped == w.sessions[s].stopped
  }

  lemma CallStarts(w: World, step: Step)
    requires !step.Go?
    ensures Do(w, step) == w || Starts(w, Do(w, step), step.n, Do(w, step).actors[step.n])
  {
    hide LastIs;
  }

  lemma StartsKeepsLog(w: World, w1: World, n: nat, actor: Actor)
    requires PendingInv(w) && LastInv(w) && Starts(w, w1, n, actor)
    ensures PendingInv(w1) && LastInv(w1)
  {
    hide LastIs;
    forall m: nat | m in w.actors ensures Awaited(w1, w.actors[m]) == Awaited(w, w.actors[m]) {
    }
  }

  lemma CallKeepsLog(w: World, step: Step)
    requires PendingInv(w) && LastInv(w) && !step.Go?
    ensures var w1 := Do(w, step);
            w1.log == w.log && w1.owner == w.owner && PendingInv(w1) && LastInv(w1)
  {
    hide Do, PendingInv, LastInv;
    CallStarts(w, step);
    if Do(w, step) != w {
      StartsKeepsLog(w, Do(w, step), step.n, Do(w, step).actors[step.n]);
    }
  }

  lemma DoKeepsInv(w: World, step: Step)
    requires Inv(w)
    ensures Inv(Do(w, step))
  {
    if !step.Go? {
      CallKeepsToken(w, step);
      CallKeepsShape(w, step);
      CallKeepsReaper(w, step);
      CallKeepsLog(w, step);
    } else if step.n in w.actors {
      var n, a := step.n, step.answer;
      GoKeepsSeq(w, n, a);
      GoKeepsLast(w, n, a);
      GoKeepsPending(w, n, a);
      GoKeepsReaper(w, n, a);
      match w.actors[n]
      case Beginner(at) =>
        BeginKeepsToken(w, n, at, a);
        BeginKeepsSessions(w, n, at, a);
        BeginKeepsActors(w, n, at, a);
      case Closer(kind, s, at) =>
        assert ActorFits(w, n);
        CloseKeepsToken(w, n, kind, s, at, a);
        CloseKeepsShape(w, n, kind, s, at, a);
      case Outsider(acquired, over) => OtherKeepsShape(w, n, acquired, over, a);
    }
    hide *;
  }

  lemma {:induction false} RunInv(steps: seq<Step>)
    ensures Inv(Run(steps))
  {
    if steps != [] {
      RunInv(steps[..|steps| - 1]);
      DoKeepsInv(Run(steps[..|steps| - 1]), steps[|steps| - 1]);
      hide Inv, Do;
    }
  }

  // ---- What a begin call did before it registered ----

  /** The commands that a begin call at this point has successfully sent. */
  function Achieved(at: BeginPoint): set<Command> {
    match at
    case StoppingCore(stopped) => if stopped then {CaptureOff} else {}
    case Restarting(stopped) => if stopped then {CaptureOff} else {}
    case Registering(running, stopped) => (if running then {CoreStop} else {}) + (if stopped then {CaptureOff} else {})
    case _ => {}
  }

  function SentFor(s: Session): set<Command> {
    (if s.running then {CoreStop} else {}) + (if s.stopped then {CaptureOff} else {})
  }

  ghost predicate Succeeded(log: seq<Entry>, tx: nat, commands: set<Command>) {
    forall c :: c in commands ==> Entry(tx, c, true) in log
  }

  ghost predicate SentInv(w: World) {
    && (forall n: nat :: n in w.actors && w.actors[n].Beginner? ==> Succeeded(w.log, n, Achieved(w.actors[n].begin)))
    && (forall s: nat :: s in w.sessions ==> Succeeded(w.log, s, SentFor(w.sessions[s])))
  }

  lemma SucceededStays(log: seq<Entry>, more: seq<Entry>, tx: nat, commands: set<Command>)
    requires Succeeded(log, tx, commands) && log <= more
    ensures Succeeded(more, tx, commands)
  {
    forall c | c in commands ensures Entry(tx, c, true) in more {
      var i :| 0 <= i < |log| && log[i] == Entry(tx, c, true);
      assert more[i] == log[i];
    }
  }

  /** What the begin call itself adds. */
  lemma BeginSends(w: World, n: nat, at: BeginPoint, a: Answer)
    requires n in w.actors && w.actors[n] == Beginner(at) && Succeeded(w.log, n, Achieved(at))
    ensures var w1 := GoBegin(w, n, at, a);
            && w.log <= w1.log
            && n in w1.actors && w1.actors[n].Beginner? && Succeeded(w1.log, n, Achieved(w1.actors[n].begin))
            && (at.Registering? ==> n in w1.sessions && SentFor(w1.sessions[n]) == Achieved(at) && w1.log == w.log)
            && (forall s :: s in w1.sessions ==>
                  (s in w.sessions && SentFor(w1.sessions[s]) == SentFor(w.sessions[s])) || (at.Registering? && s == n))
  {
    var w1 := GoBegin(w, n, at, a);
    assert w1.log != w.log ==> w1.log[|w.log|] in w1.log;
    assert forall e :: e in w.log ==> e in w1.log;
  }

  lemma OthersSend(w: World, n: nat, a: Answer)
    requires ShapeInv(w) && n in w.actors && !w.actors[n].Beginner?
    ensures var w1 := GoActor(w, n, a);
            && w.log <= w1.log
            && (forall s :: s in w1.sessions ==> s in w.sessions && SentFor(w1.sessions[s]) == SentFor(w.sessions[s]))
  {
    assert ActorFits(w, n);
    if w.actors[n].Closer? {
      CloseTouched(w, n, w.actors[n].kind, w.actors[n].session, w.actors[n].close, a);
    }
    hide Touched, ShapeInv, ActorFits;
  }

  lemma GoKeepsSent(w: World, n: nat, a: Answer)
    requires SentInv(w) && ShapeInv(w) && n in w.actors
    ensures SentInv(GoActor(w, n, a))
  {
    var w1 := GoActor(w, n, a);
    assert ActorFits(w, n) && (n in w.sessions ==> SessionFits(w, n));
    GoMoved(w, n, a);
    if w.actors[n].Beginner? {
      BeginSends(w, n, w.actors[n].begin, a);
    } else {
      OthersSend(w, n, a);
    }
    hide GoBegin, GoActor, Achieved, SentFor, ShapeInv, ActorFits, SessionFits, Succeeded;
    forall m: nat | m in w1.actors && w1.actors[m].Beginner?
      ensures Succeeded(w1.log, m, Achieved(w1.actors[m].begin))
    {
      if m != n {
        SucceededStays(w.log, w1.log, m, Achieved(w.actors[m].begin));
      }
    }
    forall s: nat | s in w1.sessions ensures Succeeded(w1.log, s, SentFor(w1.sessions[s])) {
      if s in w.sessions {
        SucceededStays(w.log, w1.log, s, SentFor(w.sessions[s]));
      }
    }
  }

  lemma CallKeepsSent(w: World, step: Step)
    requires SentInv(w) && !step.Go?
    ensures SentInv(Do(w, step))
  {
  }

  lemma {:induction false} RunSent(steps: seq<Step>)
    ensures SentInv(Run(steps))
  {
    if steps != [] {
      var before, step := steps[..|steps| - 1], steps[|steps| - 1];
      RunSent(before);
      RunInv(before);
      var w := Run(before);
      hide Run, SentInv;
      if !step.Go? {
        CallKeepsSent(w, step);
      } else if step.n in w.actors {
        GoKeepsSent(w, step.n, step.answer);
      }
    }
  }

  // ---- What every run keeps ----

  /** Each transaction, so each session, is finished and its channel closed at most once. */
  lemma FinishedOnce(steps: seq<Step>, i: nat, j: nat)
    requires var log := Run(steps).log;
             i < |log| && j < |log| && log[i].tx == log[j].tx && log[i].command == Closed && log[j].command == Closed
    ensures i == j
  {
    RunInv(steps);
  }

  /** The commands of one transaction are never interleaved with those of another. */
  lemma TransactionsAreSerial(steps: seq<Step>, i: nat, j: nat, k: nat)
    requires var log := Run(steps).log;
             i < j < k < |log| && log[i].tx == log[k].tx
    ensures Run(steps).log[j].tx == Run(steps).log[i].tx
  {
    RunInv(steps);
  }

  /** Capture is restored only directly after the same session restarted the core. */
  lemma CaptureFollowsCore(steps: seq<Step>, i: nat)
    requires i < |Run(steps).log| && Run(steps).log[i].command == CaptureOn
    ensures i > 0 && Run(steps).log[i - 1] == Entry(Run(steps).log[i].tx, CoreStart, true)
  {
    RunInv(steps);
  }

  /** A commit finishes its session only directly after its last check succeeded. */
  lemma CommitFinishesChecked(steps: seq<Step>, n: nat, s: nat)
    requires n in Run(steps).actors && Run(steps).actors[n] == Closer(Commit, s, Marking)
    ensures var w := Run(steps);
            s in w.sessions && (w.sessions[s].running ==>
              LastIs(w.log, Entry(s, if w.sessions[s].stopped then CaptureOn else Verify, true)))
  {
    RunInv(steps);
    assert ActorFits(Run(steps), n);
    assert Run(steps).sessions[s].running ==> Awaited(Run(steps), Run(steps).actors[n]).Some?;
    hide Run;
  }

  /** A commit that fails first stops the core, and its session stays open for a rollback. */
  lemma FailedCommitStopsCore(steps: seq<Step>, i: nat)
    requires i < |Run(steps).log| && Run(steps).log[i].command == CommitFailed
    ensures i > 0 && Run(steps).log[i - 1].tx == Run(steps).log[i].tx && Run(steps).log[i - 1].command == CoreStop
  {
    RunInv(steps);
  }

  /**
   An unfinished session is the one that the agent points at, its transaction owns the
   coordinator, and a timer or an expiry call will close it if nobody else does. In
   particular a session that was registered between the finish of its predecessor and the
   clearing of the pointer is not lost.
   */
  lemma OpenSessionIsReachable(steps: seq<Step>, s: nat)
    requires s in Run(steps).sessions && !Run(steps).sessions[s].finished
    ensures Run(steps).pointer == Some(s) && Run(steps).owner == Some(s) && Reaped(Run(steps), s)
  {
    var w := Run(steps);
    RunInv(steps);
    assert SessionFits(w, s);
    assert Holds(w, s);
    hide Run;
  }

  /** At most one session is unfinished at a time. */
  lemma OneOpenSession(steps: seq<Step>, s: nat, t: nat)
    requires s in Run(steps).sessions && !Run(steps).sessions[s].finished
    requires t in Run(steps).sessions && !Run(steps).sessions[t].finished
    ensures s == t
  {
    OpenSessionIsReachable(steps, s);
    OpenSessionIsReachable(steps, t);
  }

  /** A session that says so was prepared by a successful stop of the core, and of capture before it. */
  lemma RegisteredAfterStops(steps: seq<Step>, s: nat)
    requires s in Run(steps).sessions
    ensures var w := Run(steps);
            && (w.sessions[s].running ==> Entry(s, CoreStop, true) in w.log)
            && (w.sessions[s].stopped ==> w.sessions[s].running && Entry(s, CaptureOff, true) in w.log)
  {
    RunInv(steps);
    RunSent(steps);
    assert SessionFits(Run(steps), s);
    assert Succeeded(Run(steps).log, s, SentFor(Run(steps).sessions[s]));
    hide Run;
  }

  /** A begin call that registers its session replaces only finished ones. */
  lemma RegistrationIsClean(steps: seq<Step>, n: nat, s: nat)
    requires n in Run(steps).actors && Run(steps).actors[n].Beginner? && Run(steps).actors[n].begin.Registering?
    requires s in Run(steps).sessions
    ensures n !in Run(steps).sessions && Run(steps).sessions[s].finished
  {
    RunInv(steps);
    RegistrationReplacesFinished(Run(steps), n);
    hide Run;
  }
}
