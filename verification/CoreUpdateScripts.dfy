/** Whole calls of a core update, undisturbed: what they send, what they register, and how a session goes. */
module CoreUpdateScripts {
  import opened Common
  import opened CoreUpdateSession

  lemma {:induction false} AdvanceFrom(w: World, n: nat, a: Answer, rest: seq<Answer>)
    ensures Advance(w, n, [a] + rest) == Advance(GoActor(w, n, a), n, rest)
  {
    hide GoActor;
    var all := [a] + rest;
    if rest == [] {
      assert all[..0] == [];
      assert Advance(w, n, all[..0]) == w;
    } else {
      var k := |rest| - 1;
      assert all[..|all| - 1] == [a] + rest[..k];
      AdvanceFrom(w, n, a, rest[..k]);
    }
  }

  lemma AdvanceOn(w: World, n: nat, answers: seq<Answer>)
    requires answers != []
    ensures Advance(w, n, answers) == Advance(GoActor(w, n, answers[0]), n, answers[1..])
  {
    assert answers == [answers[0]] + answers[1..];
    AdvanceFrom(w, n, answers[0], answers[1..]);
    hide GoActor;
  }

  // ---- The begin call ----

  /** What a begin call that has been admitted sends, and with which marks it registers its session if it does. */
  function BeginScript(n: nat, a: seq<Answer>): (seq<Entry>, Option<(bool, bool)>)
    requires |a| == 7
  {
    var gone := Entry(n, Closed, true);
    if !a[0].ok then ([gone], None)
    else if !a[0].running then ([], Some((false, false)))
    else if !a[0].on then
      if a[1].ok then ([Entry(n, CoreStop, true)], Some((true, false)))
      else ([Entry(n, CoreStop, false), Entry(n, CoreStart, a[2].ok), gone], None)
    else if !a[1].ok then ([Entry(n, CaptureOff, false), gone], None)
    else if a[2].ok then ([Entry(n, CaptureOff, true), Entry(n, CoreStop, true)], Some((true, true)))
    else if !a[3].ok then
      ([Entry(n, CaptureOff, true), Entry(n, CoreStop, false), Entry(n, CoreStart, false), gone], None)
    else
      ([Entry(n, CaptureOff, true), Entry(n, CoreStop, false), Entry(n, CoreStart, true),
        Entry(n, CaptureOn, a[4].ok), gone], None)
  }

  ghost predicate Began(w: World, w1: World, n: nat, sent: seq<Entry>, marks: Option<(bool, bool)>) {
    && w1.log == w.log + sent && w1.actors == w.actors[n := Beginner(BeginDone)]
    && match marks
       case None => w1.sessions == w.sessions && w1.pointer == w.pointer && w1.owner == None
       case Some((running, stopped)) =>
         && w1.sessions == w.sessions[n := Session(running, stopped, false, false, true, None)]
         && w1.pointer == Some(n) && w1.owner == w.owner
  }

  /** A call that is done stays so. */
  lemma {:induction false} DoneStays(w: World, n: nat, answers: seq<Answer>)
    requires n in w.actors && w.actors[n] == Beginner(BeginDone)
    ensures Advance(w, n, answers) == w
  {
    if answers != [] {
      DoneStays(w, n, answers[..|answers| - 1]);
    }
  }

  lemma AfterAbandoning(w: World, n: nat, answers: seq<Answer>)
    requires n in w.actors && w.actors[n] == Beginner(Abandoning) && w.owner == Some(n) && answers != []
    ensures Began(w, Advance(w, n, answers), n, [Entry(n, Closed, true)], None)
  {
    AdvanceOn(w, n, answers);
    DoneStays(GoActor(w, n, answers[0]), n, answers[1..]);
  }

  lemma AfterRegistering(w: World, n: nat, running: bool, stopped: bool, answers: seq<Answer>)
    requires n in w.actors && w.actors[n] == Beginner(Registering(running, stopped)) && |answers| >= 2
    ensures Began(w, Advance(w, n, answers), n, [], Some((running, stopped)))
  {
    AdvanceOn(w, n, answers);
    var w1 := GoActor(w, n, answers[0]);
    AdvanceOn(w1, n, answers[1..]);
    var w2 := GoActor(w1, n, answers[1]);
    RegisterSteps(w, n, running, stopped, answers[0], answers[1]);
    hide GoActor, Advance;
    DoneStays(w2, n, answers[1..][1..]);
  }

  lemma RegisterSteps(w: World, n: nat, running: bool, stopped: bool, a: Answer, b: Answer)
    requires n in w.actors && w.actors[n] == Beginner(Registering(running, stopped))
    ensures var w2 := GoActor(GoActor(w, n, a), n, b);
            Began(w, w2, n, [], Some((running, stopped))) && n in w2.actors && w2.actors[n] == Beginner(BeginDone)
  {
  }

  lemma Then(w: World, w1: World, w2: World, n: nat, e: Entry, sent: seq<Entry>, marks: Option<(bool, bool)>)
    requires w1.(log := w.log, actors := w.actors) == w && w1.log == w.log + [e]
    requires n in w.actors && n in w1.actors && w1.actors == w.actors[n := w1.actors[n]]
    requires Began(w1, w2, n, sent, marks)
    ensures Began(w, w2, n, [e] + sent, marks)
  {
  }

  lemma AfterRestarting(w: World, n: nat, stopped: bool, answers: seq<Answer>)
    requires n in w.actors && w.actors[n] == Beginner(Restarting(stopped)) && w.owner == Some(n) && |answers| >= 3
    ensures Began(w, Advance(w, n, answers), n,
                  if answers[0].ok && stopped then
                    [Entry(n, CoreStart, true), Entry(n, CaptureOn, answers[1].ok), Entry(n, Closed, true)]
                  else [Entry(n, CoreStart, answers[0].ok), Entry(n, Closed, true)], None)
  {
    AdvanceOn(w, n, answers);
    var w1 := GoActor(w, n, answers[0]);
    var rest := answers[1..];
    if answers[0].ok && stopped {
      AdvanceOn(w1, n, rest);
      var w2 := GoActor(w1, n, rest[0]);
      AfterAbandoning(w2, n, rest[1..]);
      Then(w1, w2, Advance(w2, n, rest[1..]), n, Entry(n, CaptureOn, rest[0].ok), [Entry(n, Closed, true)], None);
      Then(w, w1, Advance(w2, n, rest[1..]), n, Entry(n, CoreStart, true),
           [Entry(n, CaptureOn, rest[0].ok), Entry(n, Closed, true)], None);
    } else {
      AfterAbandoning(w1, n, rest);
      Then(w, w1, Advance(w1, n, rest), n, Entry(n, CoreStart, answers[0].ok), [Entry(n, Closed, true)], None);
    }
    hide GoActor, Advance, Began;
  }

  lemma AfterStopping(w: World, n: nat, stopped: bool, answers: seq<Answer>)
    requires n in w.actors && w.actors[n] == Beginner(StoppingCore(stopped)) && w.owner == Some(n) && |answers| >= 4
    ensures var restart := if answers[1].ok && stopped then
                             [Entry(n, CoreStart, true), Entry(n, CaptureOn, answers[2].ok), Entry(n, Closed, true)]
                           else [Entry(n, CoreStart, answers[1].ok), Entry(n, Closed, true)];
            Began(w, Advance(w, n, answers), n,
                  [Entry(n, CoreStop, answers[0].ok)] + (if answers[0].ok then [] else restart),
                  if answers[0].ok then Some((true, stopped)) else None)
  {
    AdvanceOn(w, n, answers);
    var w1 := GoActor(w, n, answers[0]);
    var rest := answers[1..];
    if answers[0].ok {
      AfterRegistering(w1, n, true, stopped, rest);
      Then(w, w1, Advance(w1, n, rest), n, Entry(n, CoreStop, true), [], Some((true, stopped)));
    } else {
      AfterRestarting(w1, n, stopped, rest);
      Then(w, w1, Advance(w1, n, rest), n, Entry(n, CoreStop, false),
           if rest[0].ok && stopped then [Entry(n, CoreStart, true), Entry(n, CaptureOn, rest[1].ok), Entry(n, Closed, true)]
           else [Entry(n, CoreStart, rest[0].ok), Entry(n, Closed, true)], None);
    }
    hide GoActor, Advance, Began;
  }

  lemma AfterStoppingCapture(w: World, n: nat, answers: seq<Answer>)
    requires n in w.actors && w.actors[n] == Beginner(StoppingCapture) && w.owner == Some(n) && |answers| >= 5
    ensures var restart := if answers[2].ok then
                             [Entry(n, CoreStart, true), Entry(n, CaptureOn, answers[3].ok), Entry(n, Closed, true)]
                           else [Entry(n, CoreStart, answers[2].ok), Entry(n, Closed, true)];
            var stop := [Entry(n, CoreStop, answers[1].ok)] + (if answers[1].ok then [] else restart);
            Began(w, Advance(w, n, answers), n,
                  [Entry(n, CaptureOff, answers[0].ok)] + (if answers[0].ok then stop else [Entry(n, Closed, true)]),
                  if answers[0].ok && answers[1].ok then Some((true, true)) else None)
  {
    AdvanceOn(w, n, answers);
    var w1 := GoActor(w, n, answers[0]);
    var rest := answers[1..];
    if answers[0].ok {
      AfterStopping(w1, n, true, rest);
      var restart := if rest[1].ok then
                       [Entry(n, CoreStart, true), Entry(n, CaptureOn, rest[2].ok), Entry(n, Closed, true)]
                     else [Entry(n, CoreStart, rest[1].ok), Entry(n, Closed, true)];
      Then(w, w1, Advance(w1, n, rest), n, Entry(n, CaptureOff, true),
           [Entry(n, CoreStop, rest[0].ok)] + (if rest[0].ok then [] else restart),
           if rest[0].ok then Some((true, true)) else None);
    } else {
      AfterAbandoning(w1, n, rest);
      Then(w, w1, Advance(w1, n, rest), n, Entry(n, CaptureOff, false), [Entry(n, Closed, true)], None);
    }
    hide GoActor, Advance, Began;
  }

  /** From its admission to its end a begin call that is not disturbed sends and registers exactly this. */
  lemma BeginFollowsScript(w: World, n: nat, answers: seq<Answer>)
    requires n in w.actors && w.actors[n] == Beginner(Inspecting) && w.owner == Some(n) && |answers| == 7
    ensures var (sent, marks) := BeginScript(n, answers); Began(w, Advance(w, n, answers), n, sent, marks)
  {
    AdvanceOn(w, n, answers);
    var w1 := GoActor(w, n, answers[0]);
    var rest := answers[1..];
    if !answers[0].ok {
      AfterAbandoning(w1, n, rest);
    } else if !answers[0].running {
      AfterRegistering(w1, n, false, false, rest);
    } else if !answers[0].on {
      AfterStopping(w1, n, false, rest);
    } else {
      AfterStoppingCapture(w1, n, rest);
    }
    BeginMoves(w, n, answers[0]);
    hide Advance, GoActor;
  }

  /** The first step of an admitted begin call only moves it. */
  lemma BeginMoves(w: World, n: nat, a: Answer)
    requires n in w.actors && w.actors[n] == Beginner(Inspecting)
    ensures GoActor(w, n, a) == w.(actors := w.actors[n := GoActor(w, n, a).actors[n]])
  {
  }

  // ---- The closing calls ----

  predicate At(w: World, n: nat, kind: Kind, s: nat, at: ClosePoint) {
    n in w.actors && w.actors[n] == Closer(kind, s, at) && s in w.sessions
  }

  /** The session was closed, or left open, after this was sent. */
  ghost predicate Ended(w: World, w1: World, n: nat, s: nat, sent: seq<Entry>, closed: bool)
    requires s in w.sessions
  {
    && w1.log == w.log + sent && s in w1.sessions && w1.sessions[s].lock == None
    && (closed ==> w1.sessions[s].finished && !w1.sessions[s].armed && w1.owner != Some(s) && w1.pointer != Some(s))
    && (!closed ==> w1.sessions[s] == w.sessions[s].(lock := None) && w1.owner == w.owner && w1.pointer == w.pointer)
  }

  lemma {:induction false} ClosedStays(w: World, n: nat, kind: Kind, s: nat, answers: seq<Answer>)
    requires At(w, n, kind, s, CloseDone)
    ensures Advance(w, n, answers) == w
  {
    if answers != [] {
      ClosedStays(w, n, kind, s, answers[..|answers| - 1]);
    }
  }

  lemma AfterMarking(w: World, n: nat, kind: Kind, s: nat, answers: seq<Answer>)
    requires At(w, n, kind, s, Marking) && |answers| >= 3
    ensures Ended(w, Advance(w, n, answers), n, s, [Entry(s, Closed, true)], true)
  {
    AdvanceOn(w, n, answers);
    var w1 := GoActor(w, n, answers[0]);
    AdvanceOn(w1, n, answers[1..]);
    var w2 := GoActor(w1, n, answers[1]);
    AdvanceOn(w2, n, answers[1..][1..]);
    var w3 := GoActor(w2, n, answers[2]);
    ClosedStays(w3, n, kind, s, answers[1..][1..][1..]);
    FinishSteps(w, n, kind, s, answers[0], answers[1], answers[2]);
    hide GoActor, Advance;
  }

  lemma FinishSteps(w: World, n: nat, kind: Kind, s: nat, a: Answer, b: Answer, c: Answer)
    requires At(w, n, kind, s, Marking)
    ensures Ended(w, GoActor(GoActor(GoActor(w, n, a), n, b), n, c), n, s, [Entry(s, Closed, true)], true)
  {
  }

  lemma AfterFailingClosed(w: World, n: nat, kind: Kind, s: nat, answers: seq<Answer>)
    requires At(w, n, kind, s, FailingClosed) && w.sessions[s].running && answers != []
    ensures Ended(w, Advance(w, n, answers), n, s, [Entry(s, CoreStop, answers[0].ok), Entry(s, CommitFailed, true)], false)
  {
    AdvanceOn(w, n, answers);
    ClosedStays(GoActor(w, n, answers[0]), n, kind, s, answers[1..]);
  }

  lemma ThenEnds(w: World, w1: World, w2: World, n: nat, s: nat, first: seq<Entry>, sent: seq<Entry>, closed: bool)
    requires s in w.sessions && w1.sessions == w.sessions && w1.pointer == w.pointer && w1.owner == w.owner
    requires w1.log == w.log + first && Ended(w1, w2, n, s, sent, closed)
    ensures Ended(w, w2, n, s, first + sent, closed)
  {
  }

  /** From the second command on: restored or verified, and then finished or failed. */
  lemma AfterCheck(w: World, n: nat, kind: Kind, s: nat, at: ClosePoint, answers: seq<Answer>)
    requires At(w, n, kind, s, at) && at in {Restoring, Verifying} && w.sessions[s].running && |answers| >= 4
    ensures var check := Entry(s, if at == Restoring then CaptureOn else Verify, answers[0].ok);
            var closed := answers[0].ok || kind != Commit;
            Ended(w, Advance(w, n, answers), n, s,
                  [check] + (if closed then [Entry(s, Closed, true)]
                             else [Entry(s, CoreStop, answers[1].ok), Entry(s, CommitFailed, true)]), closed)
  {
    AdvanceOn(w, n, answers);
    var w1 := GoActor(w, n, answers[0]);
    var rest := answers[1..];
    var check := Entry(s, if at == Restoring then CaptureOn else Verify, answers[0].ok);
    if answers[0].ok || kind != Commit {
      AfterMarking(w1, n, kind, s, rest);
      ThenEnds(w, w1, Advance(w1, n, rest), n, s, [check], [Entry(s, Closed, true)], true);
    } else {
      AfterFailingClosed(w1, n, kind, s, rest);
      ThenEnds(w, w1, Advance(w1, n, rest), n, s, [check],
               [Entry(s, CoreStop, rest[0].ok), Entry(s, CommitFailed, true)], false);
    }
    hide GoActor, Advance, Ended;
  }

  lemma AfterStart(w: World, n: nat, kind: Kind, s: nat, answers: seq<Answer>)
    requires At(w, n, kind, s, Starting) && |answers| >= 5 && (w.sessions[s].stopped ==> w.sessions[s].running)
    ensures var session := w.sessions[s];
            var script := Script(kind, s, session.running, session.stopped, answers[0], answers[1],
                                 if answers[0].ok then answers[2] else answers[1]);
            var closed := kind != Commit || !session.running || (answers[0].ok && answers[1].ok);
            Ended(w, Advance(w, n, answers), n, s, script, closed)
  {
    AdvanceOn(w, n, answers);
    var session := w.sessions[s];
    var w1 := GoActor(w, n, answers[0]);
    var rest := answers[1..];
    var start := Entry(s, CoreStart, answers[0].ok);
    if !session.running {
      AfterMarking(w1, n, kind, s, rest);
      ThenEnds(w, w1, Advance(w1, n, rest), n, s, [], [Entry(s, Closed, true)], true);
    } else if !answers[0].ok && kind == Commit {
      AfterFailingClosed(w1, n, kind, s, rest);
      ThenEnds(w, w1, Advance(w1, n, rest), n, s, [start],
               [Entry(s, CoreStop, rest[0].ok), Entry(s, CommitFailed, true)], false);
    } else if answers[0].ok && kind != Shutdown && session.stopped {
      AfterCheck(w1, n, kind, s, Restoring, rest);
      hide GoActor, Advance, Ended;
      ThenEnds(w, w1, Advance(w1, n, rest), n, s, [start],
               [Entry(s, CaptureOn, rest[0].ok)]
               + (if rest[0].ok || kind != Commit then [Entry(s, Closed, true)]
                  else [Entry(s, CoreStop, rest[1].ok), Entry(s, CommitFailed, true)]), rest[0].ok || kind != Commit);
    } else if answers[0].ok && kind == Commit {
      AfterCheck(w1, n, kind, s, Verifying, rest);
      hide GoActor, Advance, Ended;
      ThenEnds(w, w1, Advance(w1, n, rest), n, s, [start],
               [Entry(s, Verify, rest[0].ok)]
               + (if rest[0].ok then [Entry(s, Closed, true)]
                  else [Entry(s, CoreStop, rest[1].ok), Entry(s, CommitFailed, true)]), rest[0].ok);
    } else {
      AfterMarking(w1, n, kind, s, rest);
      ThenEnds(w, w1, Advance(w1, n, rest), n, s, [start], [Entry(s, Closed, true)], true);
    }
    hide GoActor, Advance, Ended;
  }

  /** A closing call that finds the session open and unlocked, and is not disturbed, sends exactly its script. */
  lemma CloseFollowsScript(w: World, n: nat, kind: Kind, s: nat, answers: seq<Answer>)
    requires At(w, n, kind, s, Locking) && w.sessions[s].lock == None && !w.sessions[s].finished && |answers| >= 7
    requires (w.sessions[s].stopped ==> w.sessions[s].running) && (kind == Commit ==> answers[1].ok)
    ensures var session := w.sessions[s];
            var script := Script(kind, s, session.running, session.stopped, answers[2], answers[3],
                                 if answers[2].ok then answers[4] else answers[3]);
            var closed := kind != Commit || !session.running || (answers[2].ok && answers[3].ok);
            Ended(w, Advance(w, n, answers), n, s, script, closed)
  {
    AdvanceOn(w, n, answers);
    var w1 := GoActor(w, n, answers[0]);
    AdvanceOn(w1, n, answers[1..]);
    var w2 := GoActor(w1, n, answers[1]);
    AfterStart(w2, n, kind, s, answers[1..][1..]);
    hide Advance, Script;
  }

  // ---- A whole update ----

  function Fine(k: nat): seq<Answer> {
    seq(k, _ => Answer(true, true, true))
  }

  lemma RunOne(steps: seq<Step>, step: Step)
    ensures Run(steps + [step]) == Do(Run(steps), step)
  {
    assert (steps + [step])[..|steps|] == steps;
    hide Do;
  }

  /** A begin call on an idle agent, in which everything works and core and capture are on. */
  lemma BeginWorks(steps: seq<Step>)
    requires steps == [CallBegin(0)] + Goes(0, Fine(9))
    ensures var w := Run(steps);
            && w.log == [Entry(0, CaptureOff, true), Entry(0, CoreStop, true)]
            && w.actors == map[0 := Beginner(BeginDone)] && w.pointer == Some(0) && w.owner == Some(0)
            && w.sessions == map[0 := Session(true, true, false, false, true, None)]
  {
    assert [CallBegin(0)][..0] == [];
    AdvanceIsRun([CallBegin(0)], 0, Fine(9));
    var w0 := Run([CallBegin(0)]);
    assert w0 == World(None, None, map[], map[0 := Beginner(Checking)], []) by {
      assert Run([]) == START;
    }
    AdvanceOn(w0, 0, Fine(9));
    var w1 := GoActor(w0, 0, Fine(9)[0]);
    AdvanceOn(w1, 0, Fine(9)[1..]);
    var w2 := GoActor(w1, 0, Fine(9)[1..][0]);
    var rest := Fine(9)[1..][1..];
    assert w2 == World(Some(0), None, map[], map[0 := Beginner(Inspecting)], []);
    BeginFollowsScript(w2, 0, rest);
    assert BeginScript(0, rest) == ([Entry(0, CaptureOff, true), Entry(0, CoreStop, true)], Some((true, true)));
    hide Run, Advance, GoActor, BeginScript;
  }

  /** The call that closes it: by the user, at the shutdown of the agent, or by the timer. */
  function Closing(kind: Kind): Step {
    if kind == Expiry then Fire(1, 0) else CallClose(1, kind)
  }

  /**
   A whole update from an idle agent, when everything works: core and capture go off, and come back in the
   reverse order however the session is closed - but for a shutdown, which leaves capture off - and nothing
   is left of the session.
   */
  lemma WholeUpdate(kind: Kind)
    ensures var steps := [CallBegin(0)] + Goes(0, Fine(9)) + [Closing(kind)] + Goes(1, Fine(7));
            var w := Run(steps);
            && w.log == [Entry(0, CaptureOff, true), Entry(0, CoreStop, true), Entry(0, CoreStart, true)]
                        + (if kind == Shutdown then [] else [Entry(0, CaptureOn, true)]) + [Entry(0, Closed, true)]
            && w.owner == None && w.pointer == None && w.sessions.Keys == {0} && w.sessions[0].finished
  {
    var begun := [CallBegin(0)] + Goes(0, Fine(9));
    BeginWorks(begun);
    RunOne(begun, Closing(kind));
    var w1 := Run(begun + [Closing(kind)]);
    AdvanceIsRun(begun + [Closing(kind)], 1, Fine(7));
    var w2 := Advance(w1, 1, Fine(7));
    hide Run, Advance, Goes;
    assert At(w1, 1, kind, 0, Locking);
    CloseFollowsScript(w1, 1, kind, 0, Fine(7));
    OnlySession(w1, 1, Fine(7));
  }

  /** What a closing call leaves alone: it neither adds nor loses sessions, and gives the coordinator to nobody. */
  ghost predicate SameSessions(w: World, w1: World, n: nat)
    requires n in w.actors && w.actors[n].Closer?
  {
    && w1.sessions.Keys == w.sessions.Keys && n in w1.actors && w1.actors[n].Closer?
    && w1.actors[n].session == w.actors[n].session
    && (w1.owner == w.owner || w1.owner == None) && (w1.pointer == w.pointer || w1.pointer == None)
  }

  lemma CloseKeepsSessions(w: World, n: nat, a: Answer)
    requires n in w.actors && w.actors[n].Closer? && w.actors[n].session in w.sessions
    requires w.actors[n].close in {Starting, Restoring, Verifying, CloseDone, Marking, Releasing}
    ensures SameSessions(w, GoActor(w, n, a), n)
  {
  }

  lemma UnlockKeepsSessions(w: World, n: nat, a: Answer)
    requires n in w.actors && w.actors[n].Closer? && w.actors[n].session in w.sessions
    requires w.actors[n].close in {Locking, Testing, FailingClosed, Clearing}
    ensures SameSessions(w, GoActor(w, n, a), n)
  {
  }

  lemma {:induction false} OnlySession(w: World, n: nat, answers: seq<Answer>)
    requires n in w.actors && w.actors[n].Closer? && w.actors[n].session in w.sessions
    ensures SameSessions(w, Advance(w, n, answers), n)
  {
    if answers != [] {
      var before := answers[..|answers| - 1];
      OnlySession(w, n, before);
      var w1 := Advance(w, n, before);
      hide GoActor;
      if w1.actors[n].close in {Starting, Restoring, Verifying, CloseDone, Marking, Releasing} {
        CloseKeepsSessions(w1, n, answers[|answers| - 1]);
      } else {
        UnlockKeepsSessions(w1, n, answers[|answers| - 1]);
      }
    }
  }
}
