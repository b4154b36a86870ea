/**
 Core update sessions. A begin call acquires the coordinator and leaves behind a registered
 session that keeps it; commit, rollback, expiry and shutdown compete to close the session.
 Every call is a sequence of atomic actions, one per lock section or service command, and
 all calls interleave.
 */
module CoreUpdateSession {
  import opened Common

  datatype Kind = Commit | Rollback | Expiry | Shutdown

  /** The next action of a begin call. */
  datatype BeginPoint =
    | Checking | Waiting | Inspecting | StoppingCapture | StoppingCore(stopped: bool)
    | Restarting(stopped: bool) | Reenabling | Abandoning | Registering(running: bool, stopped: bool)
    | Arming | BeginDone

  /** The next action of a call that closes a session. */
  datatype ClosePoint =
    | Locking | Testing | Starting | Restoring | Verifying | FailingClosed
    | Marking | Releasing | Clearing | CloseDone

  /** A call in progress. An outsider is any other transaction of the coordinator. */
  datatype Actor =
    | Beginner(begin: BeginPoint)
    | Closer(kind: Kind, session: nat, close: ClosePoint)
    | Outsider(acquired: bool, over: bool)

  /**
   running: the core was running and was stopped; stopped: capture was on and was stopped.
   released: the transaction was finished and the done channel closed.
   */
  datatype Session = Session(running: bool, stopped: bool, finished: bool, released: bool, armed: bool, lock: Option<nat>)

  datatype Command = CaptureOff | CaptureOn | CoreStop | CoreStart | Verify | Foreign | CommitFailed | Closed

  /** A command sent on behalf of a transaction, with its success. */
  datatype Entry = Entry(tx: nat, command: Command, ok: bool)

  /**
   Transactions, sessions and begin calls share their numbers. The owner is the unfinished
   transaction of the coordinator, the pointer is the agent's coreUpdateSession.
   */
  datatype World = World(
    owner: Option<nat>, pointer: Option<nat>, sessions: map<nat, Session>, actors: map<nat, Actor>, log: seq<Entry>)

  /** ok: the action worked; running, on: what the status query and the snapshot said. */
  datatype Answer = Answer(ok: bool, running: bool, on: bool)

  datatype Step =
    | CallBegin(n: nat)
    | CallClose(n: nat, kind: Kind)
    | CallOther(n: nat)
    | Fire(n: nat, session: nat)
    | Go(n: nat, answer: Answer)

  function Sent(w: World, tx: nat, c: Command, ok: bool): World {
    w.(log := w.log + [Entry(tx, c, ok)])
  }

  function At(w: World, n: nat, a: Actor): World {
    w.(actors := w.actors[n := a])
  }

  /** transaction.Finish: gives the coordinator up. */
  function Finished(w: World, tx: nat): World {
    Sent(if w.owner == Some(tx) then w.(owner := None) else w, tx, Closed, true)
  }

  /** handleCoreUpdateBegin. */
  function GoBegin(w: World, n: nat, at: BeginPoint, a: Answer): World {
    match at
    case Checking => At(w, n, Beginner(if w.pointer.Some? then BeginDone else Waiting))
    case Waiting =>
      if !a.ok then At(w, n, Beginner(BeginDone))
      else if w.owner.None? then At(w.(owner := Some(n)), n, Beginner(Inspecting))
      else w
    case Inspecting =>
      At(w, n, Beginner(if !a.ok then Abandoning
                        else if !a.running then Registering(false, false)
                        else if a.on then StoppingCapture else StoppingCore(false)))
    case StoppingCapture => At(Sent(w, n, CaptureOff, a.ok), n, Beginner(if a.ok then StoppingCore(true) else Abandoning))
    case StoppingCore(stopped) =>
      At(Sent(w, n, CoreStop, a.ok), n, Beginner(if a.ok then Registering(true, stopped) else Restarting(stopped)))
    case Restarting(stopped) =>
      At(Sent(w, n, CoreStart, a.ok), n, Beginner(if a.ok && stopped then Reenabling else Abandoning))
    case Reenabling => At(Sent(w, n, CaptureOn, a.ok), n, Beginner(Abandoning))
    case Abandoning => At(Finished(w, n), n, Beginner(BeginDone))
    case Registering(running, stopped) =>
      At(w.(sessions := w.sessions[n := Session(running, stopped, false, false, false, None)], pointer := Some(n)),
         n, Beginner(Arming))
    case Arming =>
      if n in w.sessions then
        At(w.(sessions := w.sessions[n := w.sessions[n].(armed := true)]), n, Beginner(BeginDone))
      else w
    case BeginDone => w
  }

  /** What follows a successful start of the core, or the absence of one to start. */
  function Onward(kind: Kind, s: Session): ClosePoint {
    if kind != Shutdown && s.stopped then Restoring
    else if kind == Commit && s.running then Verifying
    else Marking
  }

  /** A failed action ends a commit fail-closed; every other close carries on to the finish. */
  function Setback(kind: Kind): ClosePoint {
    if kind == Commit then FailingClosed else Marking
  }

  function Unlocked(w: World, n: nat, kind: Kind, s: nat): World
    requires s in w.sessions
  {
    At(w.(sessions := w.sessions[s := w.sessions[s].(lock := None)]), n, Closer(kind, s, CloseDone))
  }

  /** The four closing calls share their lock, test and finish sections. */
  function GoClose(w: World, n: nat, kind: Kind, s: nat, at: ClosePoint, a: Answer): World
    requires s in w.sessions
  {
    var session := w.sessions[s];
    match at
    case Locking =>
      if session.lock.Some? then w
      else At(w.(sessions := w.sessions[s := session.(lock := Some(n))]), n, Closer(kind, s, Testing))
    case Testing =>
      if session.finished || (kind == Commit && !a.ok) then Unlocked(w, n, kind, s)
      else At(w, n, Closer(kind, s, Starting))
    case Starting =>
      if !session.running then At(w, n, Closer(kind, s, Onward(kind, session)))
      else At(Sent(w, s, CoreStart, a.ok), n, Closer(kind, s, if a.ok then Onward(kind, session) else Setback(kind)))
    case Restoring => At(Sent(w, s, CaptureOn, a.ok), n, Closer(kind, s, if a.ok then Marking else Setback(kind)))
    case Verifying => At(Sent(w, s, Verify, a.ok), n, Closer(kind, s, if a.ok then Marking else Setback(kind)))
    case FailingClosed =>
      var w1 := if session.running then Sent(w, s, CoreStop, a.ok) else w;
      Unlocked(Sent(w1, s, CommitFailed, true), n, kind, s)
    case Marking =>
      At(w.(sessions := w.sessions[s := session.(finished := true, armed := false)]), n, Closer(kind, s, Releasing))
    case Releasing =>
      At(Finished(w.(sessions := w.sessions[s := session.(released := true)]), s), n, Closer(kind, s, Clearing))
    case Clearing => Unlocked(if w.pointer == Some(s) then w.(pointer := None) else w, n, kind, s)
    case CloseDone => w
  }

  function GoOther(w: World, n: nat, acquired: bool, over: bool, a: Answer): World {
    if over then w
    else if !acquired then
      if w.owner.None? then At(w.(owner := Some(n)), n, Outsider(true, false)) else w
    else if a.ok then Sent(w, n, Foreign, true)
    else At(Finished(w, n), n, Outsider(true, true))
  }

  function GoActor(w: World, n: nat, a: Answer): World {
    if n !in w.actors then w
    else match w.actors[n]
      case Beginner(at) => GoBegin(w, n, at, a)
      case Closer(kind, s, at) => if s in w.sessions then GoClose(w, n, kind, s, at, a) else w
      case Outsider(acquired, over) => GoOther(w, n, acquired, over, a)
  }

  /** One step; a step whose guard fails changes nothing. */
  function Do(w: World, step: Step): World {
    match step
    case CallBegin(n) => if n in w.actors then w else At(w, n, Beginner(Checking))
    case CallClose(n, kind) =>
      if n in w.actors || w.pointer.None? || kind == Expiry then w
      else At(w, n, Closer(kind, w.pointer.value, Locking))
    case CallOther(n) => if n in w.actors then w else At(w, n, Outsider(false, false))
    case Fire(n, s) =>
      if n in w.actors || s !in w.sessions || !w.sessions[s].armed then w
      else At(w.(sessions := w.sessions[s := w.sessions[s].(armed := false)]), n, Closer(Expiry, s, Locking))
    case Go(n, a) => GoActor(w, n, a)
  }

  const START := World(None, None, map[], map[], [])

  function Run(steps: seq<Step>): World {
    if steps == [] then START else Do(Run(steps[..|steps| - 1]), steps[|steps| - 1])
  }

  // ---- What a close sends ----

  /** The commands of a restart that may restore capture: after a failed restart nothing is restored. */
  function RestartScript(s: nat, restore: bool, start: Answer, next: Answer): seq<Entry> {
    if start.ok && restore then [Entry(s, CoreStart, true), Entry(s, CaptureOn, next.ok)]
    else [Entry(s, CoreStart, start.ok)]
  }

  /**
   What an undisturbed close of an open session adds to the log: rollback and expiry restart the core
   and restore capture, a shutdown restarts the core only, and a commit finishes after its last check
   succeeded and stops the core otherwise. A session whose core did not run sends nothing but its end.
   */
  function Script(kind: Kind, s: nat, running: bool, stopped: bool, start: Answer, next: Answer, stop: Answer): seq<Entry> {
    match kind
    case Rollback => (if running then RestartScript(s, stopped, start, next) else []) + [Entry(s, Closed, true)]
    case Expiry => (if running then RestartScript(s, stopped, start, next) else []) + [Entry(s, Closed, true)]
    case Shutdown => (if running then [Entry(s, CoreStart, start.ok)] else []) + [Entry(s, Closed, true)]
    case Commit =>
      if !running then [Entry(s, Closed, true)]
      else
        var check := Entry(s, if stopped then CaptureOn else Verify, next.ok);
        if start.ok && next.ok then [Entry(s, CoreStart, true), check, Entry(s, Closed, true)]
        else
          (if start.ok then [Entry(s, CoreStart, true), check] else [Entry(s, CoreStart, false)])
          + [Entry(s, CoreStop, stop.ok), Entry(s, CommitFailed, true)]
  }

  // ---- The agent object ----

  /** Consecutive actions of one actor. */
  function Advance(w: World, n: nat, answers: seq<Answer>): World {
    if answers == [] then w
    else GoActor(Advance(w, n, answers[..|answers| - 1]), n, answers[|answers| - 1])
  }

  lemma AdvanceOne(w: World, n: nat, answers: seq<Answer>, k: nat)
    requires k < |answers|
    ensures Advance(w, n, answers[..k + 1]) == GoActor(Advance(w, n, answers[..k]), n, answers[k])
  {
    assert answers[..k + 1][..k] == answers[..k];
  }

  function Goes(n: nat, answers: seq<Answer>): seq<Step> {
    seq(|answers|, i requires 0 <= i < |answers| => Go(n, answers[i]))
  }

  /** Undisturbed actions are one particular interleaving. */
  lemma {:induction false} AdvanceIsRun(steps: seq<Step>, n: nat, answers: seq<Answer>)
    ensures Advance(Run(steps), n, answers) == Run(steps + Goes(n, answers))
    decreases |answers|
  {
    hide GoActor;
    var all := steps + Goes(n, answers);
    if answers == [] {
      assert all == steps;
    } else {
      var k := |answers| - 1;
      AdvanceIsRun(steps, n, answers[..k]);
      assert all[..|all| - 1] == steps + Goes(n, answers[..k]);
      assert all[|all| - 1] == Go(n, answers[k]);
    }
  }

  /** The agent's fields, and the closing calls as they act when nothing comes between their actions. */
  class Agent {
    var owner: Option<nat>
    var pointer: Option<nat>
    var sessions: map<nat, Session>
    var actors: map<nat, Actor>
    var log: seq<Entry>

    constructor (w: World)
      ensures State() == w
    {
      owner, pointer, sessions, actors, log := w.owner, w.pointer, w.sessions, w.actors, w.log;
    }

    function State(): World
      reads this
    {
      World(owner, pointer, sessions, actors, log)
    }

    predicate Stands(n: nat, kind: Kind, s: nat, at: ClosePoint)
      reads this
    {
      n in actors && actors[n] == Closer(kind, s, at) && s in sessions
    }

    /** stepMu.Lock, when the lock is free. */
    method LockStep(n: nat, kind: Kind, s: nat, a: Answer)
      requires Stands(n, kind, s, Locking) && sessions[s].lock.None?
      modifies this`sessions, this`actors
      ensures State() == GoActor(old(State()), n, a) && Stands(n, kind, s, Testing)
    {
      sessions := sessions[s := sessions[s].(lock := Some(n))];
      actors := actors[n := Closer(kind, s, Testing)];
    }

    /** Sends one command of the session and moves on. */
    method Send(n: nat, kind: Kind, s: nat, at: ClosePoint, a: Answer)
      requires Stands(n, kind, s, at)
      requires at in {Restoring, Verifying} || (at == Starting && sessions[s].running)
      modifies this`log, this`actors
      ensures State() == GoActor(old(State()), n, a)
      ensures Stands(n, kind, s, if !a.ok then Setback(kind)
                                 else if at == Starting then Onward(kind, sessions[s]) else Marking)
      ensures at == Starting ==> log == old(log) + [Entry(s, CoreStart, a.ok)]
      ensures at == Restoring ==> log == old(log) + [Entry(s, CaptureOn, a.ok)]
      ensures at == Verifying ==> log == old(log) + [Entry(s, Verify, a.ok)]
    {
      var command := if at == Starting then CoreStart else if at == Restoring then CaptureOn else Verify;
      log := log + [Entry(s, command, a.ok)];
      actors := actors[n := Closer(kind, s, if !a.ok then Setback(kind)
                                            else if at == Starting then Onward(kind, sessions[s]) else Marking)];
    }

    method Move(n: nat, kind: Kind, s: nat, at: ClosePoint, a: Answer)
      requires Stands(n, kind, s, at)
      requires || (at == Testing && !sessions[s].finished && (kind == Commit ==> a.ok))
               || (at == Starting && !sessions[s].running)
      modifies this`actors
      ensures State() == GoActor(old(State()), n, a)
      ensures Stands(n, kind, s, if at == Testing then Starting else Onward(kind, sessions[s]))
    {
      actors := actors[n := Closer(kind, s, if at == Testing then Starting else Onward(kind, sessions[s]))];
    }

    /** The deferred unlock of a call that found the session closed, or whose context is over. */
    method GiveUp(n: nat, kind: Kind, s: nat, a: Answer)
      requires Stands(n, kind, s, Testing) && (sessions[s].finished || (kind == Commit && !a.ok))
      modifies this`sessions, this`actors
      ensures State() == GoActor(old(State()), n, a) && Stands(n, kind, s, CloseDone)
      ensures sessions[s].finished == old(sessions)[s].finished
    {
      sessions := sessions[s := sessions[s].(lock := None)];
      actors := actors[n := Closer(kind, s, CloseDone)];
    }

    /** failCoreUpdateCommitLocked. */
    method FailCommitLocked(n: nat, kind: Kind, s: nat, a: Answer)
      requires Stands(n, kind, s, FailingClosed)
      modifies this`sessions, this`actors, this`log
      ensures State() == GoActor(old(State()), n, a) && Stands(n, kind, s, CloseDone)
      ensures log == old(log) + (if old(sessions)[s].running then [Entry(s, CoreStop, a.ok)] else [])
                     + [Entry(s, CommitFailed, true)]
    {
      if sessions[s].running {
        log := log + [Entry(s, CoreStop, a.ok)];
      }
      log := log + [Entry(s, CommitFailed, true)];
      sessions := sessions[s := sessions[s].(lock := None)];
      actors := actors[n := Closer(kind, s, CloseDone)];
    }

    method MarkFinished(n: nat, kind: Kind, s: nat, a: Answer)
      requires Stands(n, kind, s, Marking)
      modifies this`sessions, this`actors
      ensures State() == GoActor(old(State()), n, a) && Stands(n, kind, s, Releasing)
      ensures sessions[s].finished && !sessions[s].armed && pointer == old(pointer)
    {
      sessions := sessions[s := sessions[s].(finished := true, armed := false)];
      actors := actors[n := Closer(kind, s, Releasing)];
    }

    method FinishTransaction(n: nat, kind: Kind, s: nat, a: Answer)
      requires Stands(n, kind, s, Releasing)
      modifies this`sessions, this`actors, this`owner, this`log
      ensures State() == GoActor(old(State()), n, a) && Stands(n, kind, s, Clearing)
      ensures owner != Some(s) && sessions[s].finished == old(sessions)[s].finished && pointer == old(pointer)
      ensures log == old(log) + [Entry(s, Closed, true)]
    {
      sessions := sessions[s := sessions[s].(released := true)];
      if owner == Some(s) {
        owner := None;
      }
      log := log + [Entry(s, Closed, true)];
      actors := actors[n := Closer(kind, s, Clearing)];
    }

    method ClearPointer(n: nat, kind: Kind, s: nat, a: Answer)
      requires Stands(n, kind, s, Clearing)
      modifies this`sessions, this`actors, this`pointer
      ensures State() == GoActor(old(State()), n, a) && Stands(n, kind, s, CloseDone)
      ensures pointer == if old(pointer) == Some(s) then None else old(pointer)
      ensures sessions[s].finished == old(sessions)[s].finished
    {
      if pointer == Some(s) {
        pointer := None;
      }
      sessions := sessions[s := sessions[s].(lock := None)];
      actors := actors[n := Closer(kind, s, CloseDone)];
    }

    /** finishCoreUpdateSessionLocked, and the deferred unlock. */
    method FinishLocked(n: nat, kind: Kind, s: nat, answers: seq<Answer>, ghost w: World, k: nat)
      requires Stands(n, kind, s, Marking)
      requires k + 3 <= |answers| && State() == Advance(w, n, answers[..k])
      modifies this
      ensures State() == Advance(w, n, answers[..k + 3])
      ensures Stands(n, kind, s, CloseDone) && sessions[s].finished && owner != Some(s) && pointer != Some(s)
      ensures log == old(log) + [Entry(s, Closed, true)]
    {
      hide GoActor, Advance;
      MarkFinished(n, kind, s, answers[k]);
      AdvanceOne(w, n, answers, k);
      FinishTransaction(n, kind, s, answers[k + 1]);
      AdvanceOne(w, n, answers, k + 1);
      ClearPointer(n, kind, s, answers[k + 2]);
      AdvanceOne(w, n, answers, k + 2);
    }

    /** The service commands of a close: restart, then restore capture or verify. */
    method RecoverLocked(n: nat, kind: Kind, s: nat, answers: seq<Answer>, ghost w: World) returns (k: nat, next: ClosePoint)
      requires Stands(n, kind, s, Starting) && |answers| >= 4 && State() == Advance(w, n, answers[..2])
      modifies this`actors, this`log
      ensures k in {3, 4} && State() == Advance(w, n, answers[..k]) && Stands(n, kind, s, next)
      ensures next == Marking || (kind == Commit && next == FailingClosed)
      ensures !sessions[s].running && !sessions[s].stopped ==> next == Marking && log == old(log)
      ensures sessions[s].running && kind in {Rollback, Expiry} ==>
                log == old(log) + RestartScript(s, sessions[s].stopped, answers[2], answers[3])
      ensures sessions[s].running && kind == Shutdown ==> log == old(log) + [Entry(s, CoreStart, answers[2].ok)]
      ensures sessions[s].running && kind == Commit ==>
                && (next == Marking <==> answers[2].ok && answers[3].ok)
                && (next == FailingClosed ==> k == if answers[2].ok then 4 else 3)
                && log == old(log) + [Entry(s, CoreStart, answers[2].ok)]
                          + (if !answers[2].ok then []
                             else [Entry(s, if sessions[s].stopped then CaptureOn else Verify, answers[3].ok)])
    {
      hide GoActor, Advance;
      if sessions[s].running {
        Send(n, kind, s, Starting, answers[2]);
        next := if answers[2].ok then Onward(kind, sessions[s]) else Setback(kind);
      } else {
        Move(n, kind, s, Starting, answers[2]);
        next := Onward(kind, sessions[s]);
      }
      AdvanceOne(w, n, answers, 2);
      k := 3;
      if next in {Restoring, Verifying} {
        Send(n, kind, s, next, answers[3]);
        AdvanceOne(w, n, answers, 3);
        next := if answers[3].ok then Marking else Setback(kind);
        k := 4;
      }
    }

    /** The lock and the test for an open session at the start of every close. */
    method EnterLocked(n: nat, kind: Kind, s: nat, answers: seq<Answer>, ghost w: World) returns (open: bool)
      requires Stands(n, kind, s, Locking) && sessions[s].lock.None? && |answers| >= 4 && w == State()
      modifies this`sessions, this`actors
      ensures State() == Advance(w, n, answers[..2])
      ensures Stands(n, kind, s, if open then Starting else CloseDone)
      ensures !open && kind != Commit ==> sessions[s].finished
      ensures open <==> !old(sessions)[s].finished && (kind == Commit ==> answers[1].ok)
      ensures sessions[s].running == old(sessions)[s].running && sessions[s].stopped == old(sessions)[s].stopped
    {
      assert Advance(w, n, answers[..0]) == w;
      hide GoActor, Advance;
      LockStep(n, kind, s, answers[0]);
      AdvanceOne(w, n, answers, 0);
      open := !sessions[s].finished && (kind == Commit ==> answers[1].ok);
      if open {
        Move(n, kind, s, Testing, answers[1]);
      } else {
        GiveUp(n, kind, s, answers[1]);
      }
      AdvanceOne(w, n, answers, 1);
    }

    /**
     Commit, rollback, expiry and shutdown from the lock to the end. The session is closed,
     unless a commit failed or came too late.
     */
    method Close(n: nat, kind: Kind, s: nat, answers: seq<Answer>) returns (k: nat)
      requires Stands(n, kind, s, Locking) && sessions[s].lock.None? && |answers| >= 7
      modifies this
      ensures k <= |answers| && State() == Advance(old(State()), n, answers[..k])
      ensures Stands(n, kind, s, CloseDone)
      ensures kind != Commit ==> sessions[s].finished
      ensures (old(sessions)[s].stopped ==> old(sessions)[s].running) && !old(sessions)[s].finished
              && (kind == Commit ==> answers[1].ok) ==>
                log == old(log) + Script(kind, s, old(sessions)[s].running, old(sessions)[s].stopped, answers[2], answers[3],
                                         if answers[2].ok then answers[4] else answers[3])
      ensures old(sessions)[s].finished || (kind == Commit && !answers[1].ok) ==> log == old(log)
    {
      hide GoActor, Advance, Onward, Setback;
      ghost var w := State();
      var open := EnterLocked(n, kind, s, answers, w);
      if !open {
        return 2;
      }
      var next;
      k, next := RecoverLocked(n, kind, s, answers, w);
      if next == FailingClosed {
        FailCommitLocked(n, kind, s, answers[k]);
        AdvanceOne(w, n, answers, k);
        k := k + 1;
      } else {
        FinishLocked(n, kind, s, answers, w, k);
        k := k + 3;
      }
    }
  }
}
