/** How core update sessions end: what every interleaving has sent before a session is finished. */
module CoreUpdateClosing {
  import opened Common
  import opened CoreUpdateSession
  import opened CoreUpdateRuns

  /**
   The last thing sent for a session whose core had been stopped, before it is finished. Rollback and
   expiry have restored capture where it had been stopped, or have failed to, or have failed to restart
   the core; a shutdown has only tried to restart the core; a commit has passed its last check.
   */
  ghost predicate EndsWith(log: seq<Entry>, kind: Kind, s: nat, stopped: bool) {
    && log != []
    && var last := log[|log| - 1];
       && last.tx == s
       && match kind
          case Rollback => if stopped then last.command == CaptureOn || last == Entry(s, CoreStart, false)
                           else last.command == CoreStart
          case Expiry => if stopped then last.command == CaptureOn || last == Entry(s, CoreStart, false)
                         else last.command == CoreStart
          case Shutdown => last.command == CoreStart
          case Commit => last == Entry(s, if stopped then CaptureOn else Verify, true)
  }

  /** The call is about to mark the session finished, or to release its transaction. */
  predicate Ending(w: World, n: nat) {
    && n in w.actors && w.actors[n].Closer? && w.actors[n].session in w.sessions
    && w.actors[n].close in {Marking, Releasing}
  }

  /** A shutdown never restores capture. */
  predicate ShutdownPlain(w: World, n: nat) {
    n in w.actors && w.actors[n].Closer? && w.actors[n].kind == Shutdown ==> w.actors[n].close != Restoring
  }

  ghost predicate EndInv(w: World) {
    && (forall n: nat :: ShutdownPlain(w, n))
    && forall n: nat :: Ending(w, n) && w.sessions[w.actors[n].session].running ==>
         EndsWith(w.log, w.actors[n].kind, w.actors[n].session, w.sessions[w.actors[n].session].stopped)
  }

  /** The action that reaches the end has just sent what it should have. */
  lemma CloseEnds(w: World, n: nat, kind: Kind, s: nat, at: ClosePoint, a: Answer)
    requires n in w.actors && w.actors[n] == Closer(kind, s, at) && s in w.sessions
    requires at == Marking && w.sessions[s].running ==> EndsWith(w.log, kind, s, w.sessions[s].stopped)
    requires at == Restoring ==> w.sessions[s].stopped && kind != Shutdown
    requires at == Verifying ==> kind == Commit && !w.sessions[s].stopped
    requires at == Releasing ==> w.sessions[s].finished
    ensures var w1 := GoClose(w, n, kind, s, at, a);
            && w1.actors[n].Closer? && w1.actors[n].kind == kind && w1.actors[n].session == s && s in w1.sessions
            && ShutdownPlain(w1, n)
            && (w1.actors[n].close in {Marking, Releasing} && w1.sessions[s].running ==>
                  EndsWith(w1.log, kind, s, w1.sessions[s].stopped))
  {
  }

  /** While a call ends a session nobody else can send. */
  lemma OnlyEnderSends(w: World, m: nat, n: nat)
    requires TokenInv(w) && ShapeInv(w) && Ending(w, n) && m in w.actors && Commands(w, m)
    requires w.actors[m].Closer? || (w.actors[m].Beginner? && BeginHolds(w.actors[m].begin)) || w.actors[m].Outsider?
    ensures m == n
  {
    var s := w.actors[n].session;
    assert ActorFits(w, n) && SessionFits(w, s);
    assert Holds(w, s);
  }

  lemma GoKeepsEnd(w: World, m: nat, a: Answer)
    requires Inv(w) && EndInv(w) && m in w.actors
    ensures EndInv(GoActor(w, m, a))
  {
    var w1 := GoActor(w, m, a);
    GoKeepsSeq(w, m, a);
    GoMoved(w, m, a);
    if w1.log != w.log { SpeakerFits(w, m, a); }
    assert ActorFits(w, m);
    if w.actors[m].Closer? {
      var Closer(kind, s, at) := w.actors[m];
      assert ShutdownPlain(w, m) && (at == Marking ==> Ending(w, m));
      CloseEnds(w, m, kind, s, at, a);
    } else {
      OthersStay(w, m, a);
    }
    hide GoActor, ReaperInv, SeqInv, PendingInv, Commands, SessionFits, Holds, EndsWith, LastInv, ActorFits;
    forall n: nat ensures ShutdownPlain(w1, n) {
      assert ShutdownPlain(w, n);
    }
    forall n: nat | Ending(w1, n) && w1.sessions[w1.actors[n].session].running
      ensures EndsWith(w1.log, w1.actors[n].kind, w1.actors[n].session, w1.sessions[w1.actors[n].session].stopped)
    {
      if n != m {
        SameSession(w, n);
        assert Ending(w, n);
        if w1.log != w.log {
          OnlyEnderSends(w, m, n);
        }
      }
    }
  }

  lemma SameSession(w: World, n: nat)
    requires ShapeInv(w) && n in w.actors && w.actors[n].Closer?
    ensures w.actors[n].session in w.sessions
  {
    assert ActorFits(w, n);
  }

  lemma OthersStay(w: World, m: nat, a: Answer)
    requires m in w.actors && !w.actors[m].Closer?
    ensures var w1 := GoActor(w, m, a); m in w1.actors && !w1.actors[m].Closer?
  {
  }

  lemma CallKeepsEnd(w: World, step: Step)
    requires EndInv(w) && ShapeInv(w) && !step.Go?
    ensures EndInv(Do(w, step))
  {
    var w1 := Do(w, step);
    hide EndsWith;
    forall n: nat ensures ShutdownPlain(w1, n) {
      assert ShutdownPlain(w, n);
    }
    forall n: nat | Ending(w1, n) && w1.sessions[w1.actors[n].session].running
      ensures EndsWith(w1.log, w1.actors[n].kind, w1.actors[n].session, w1.sessions[w1.actors[n].session].stopped)
    {
      assert Ending(w, n);
    }
  }

  lemma {:induction false} RunEnds(steps: seq<Step>)
    ensures EndInv(Run(steps))
  {
    if steps != [] {
      var w, step := Run(steps[..|steps| - 1]), steps[|steps| - 1];
      RunEnds(steps[..|steps| - 1]);
      RunInv(steps[..|steps| - 1]);
      if !step.Go? {
        CallKeepsEnd(w, step);
      } else if step.n in w.actors {
        GoKeepsEnd(w, step.n, step.answer);
      }
      hide EndInv, Inv, Run, GoBegin, GoClose, GoOther;
    }
  }

  /**
   In every interleaving: a rollback or an expiry that finishes a session whose core and capture had
   been stopped has directly before switched capture on or tried to, or failed to restart the core.
   */
  lemma CaptureIsRestored(steps: seq<Step>, n: nat, kind: Kind, s: nat)
    requires n in Run(steps).actors && Run(steps).actors[n] == Closer(kind, s, Marking) && kind in {Rollback, Expiry}
    ensures var w := Run(steps);
            s in w.sessions && (w.sessions[s].running && w.sessions[s].stopped ==>
              || LastIs(w.log, Entry(s, CaptureOn, true)) || LastIs(w.log, Entry(s, CaptureOn, false))
              || LastIs(w.log, Entry(s, CoreStart, false)))
  {
    EndingEnds(steps, n);
    hide Run;
  }

  /** In every interleaving: where capture had been on all the time, the core has been restarted, or was tried to. */
  lemma CoreIsRestarted(steps: seq<Step>, n: nat, kind: Kind, s: nat)
    requires n in Run(steps).actors && Run(steps).actors[n] == Closer(kind, s, Marking)
    ensures var w := Run(steps);
            s in w.sessions && (w.sessions[s].running && kind != Commit && (!w.sessions[s].stopped || kind == Shutdown) ==>
              LastIs(w.log, Entry(s, CoreStart, true)) || LastIs(w.log, Entry(s, CoreStart, false)))
  {
    EndingEnds(steps, n);
    hide Run;
  }

  lemma EndingEnds(steps: seq<Step>, n: nat)
    requires n in Run(steps).actors && Run(steps).actors[n].Closer? && Run(steps).actors[n].close == Marking
    ensures var w := Run(steps);
            var s := w.actors[n].session;
            s in w.sessions && (w.sessions[s].running ==> EndsWith(w.log, w.actors[n].kind, s, w.sessions[s].stopped))
  {
    RunEnds(steps);
    RunInv(steps);
    SameSession(Run(steps), n);
    assert Ending(Run(steps), n);
    hide Run, EndsWith, Inv;
  }
}
