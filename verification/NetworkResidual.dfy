/**
 What a partly failed rollback leaves behind: on every tape on which nothing but undos fails,
 the journal keeps exactly the actions whose undos failed.
 */
module NetworkResidual {
  import opened Common
  import opened NetworkJournal
  import opened NetworkManager
  import opened NetworkRecovery
  import opened NetworkTheorems

  /** The actions at these positions, in journal order. */
  function Residual(actions: seq<Action>, kept: set<nat>): seq<Action> {
    if actions == [] then []
    else
      var n := |actions| - 1;
      Residual(actions[..n], kept) + if n in kept then [actions[n]] else []
  }

  // ---- Along the loop ----

  /** The undo of the n-th action as the loop runs it. */
  function UndoAt(w: World, j: Journal, n: nat): (World, Verdict)
    requires 0 < n <= |j.actions|
  {
    if j.actions[n - 1].created then Undo(w, j.actions[n - 1].resource) else (w, Success)
  }

  /** The journal without the n-th action. */
  function Dropped(j: Journal, n: nat): Journal
    requires 0 < n <= |j.actions|
  {
    j.(actions := Without(j.actions, n - 1))
  }

  /** The world after the n-th action was undone and the journal without it written, if it is not empty. */
  function AfterDrop(w: World, j: Journal, n: nat): (World, Verdict)
    requires 0 < n <= |j.actions|
  {
    var w1 := UndoAt(w, j, n).0;
    if Dropped(j, n).actions == [] then (w1, Success) else Write(w1, Dropped(j, n))
  }

  /**
   Nothing but undos fails, by refusing or by failing with or without an effect: no crash,
   and every write of the journal and its final removal succeed.
   */
  predicate OnlyUndosFail(w: World, j: Journal, n: nat, failed: bool)
    requires n <= |j.actions|
    decreases n
  {
    if n == 0 then failed || RemoveFile(w).1.Success?
    else
      var (w1, v) := UndoAt(w, j, n);
      && !v.Crash?
      && if v.Failure? then OnlyUndosFail(w1, j, n - 1, true)
         else AfterDrop(w, j, n).1.Success? && OnlyUndosFail(AfterDrop(w, j, n).0, Dropped(j, n), n - 1, failed)
  }

  /** The positions below n whose undos fail. */
  function Failing(w: World, j: Journal, n: nat): set<nat>
    requires n <= |j.actions|
    decreases n
  {
    if n == 0 then {}
    else
      var (w1, v) := UndoAt(w, j, n);
      if v.Failure? then Failing(w1, j, n - 1) + {n - 1} else Failing(AfterDrop(w, j, n).0, Dropped(j, n), n - 1)
  }

  lemma {:induction false} FailingIsOwned(w: World, j: Journal, n: nat)
    requires n <= |j.actions|
    ensures forall k :: k in Failing(w, j, n) ==> k < n && j.actions[k].created
    decreases n
  {
    if n > 0 {
      var (w1, v) := UndoAt(w, j, n);
      if v.Failure? {
        FailingIsOwned(w1, j, n - 1);
      } else {
        FailingIsOwned(AfterDrop(w, j, n).0, Dropped(j, n), n - 1);
      }
    }
  }

  /** The residual looks at positions within the sequence only. */
  lemma {:induction false} ResidualWithin(actions: seq<Action>, kept: set<nat>, n: nat)
    requires n >= |actions|
    ensures Residual(actions, kept + {n}) == Residual(actions, kept)
  {
    if actions != [] {
      ResidualWithin(actions[..|actions| - 1], kept, n);
    }
  }

  lemma {:induction false} ResidualEmpty(actions: seq<Action>, kept: set<nat>)
    requires forall k :: k in kept ==> k < |actions|
    ensures Residual(actions, kept) == [] <==> kept == {}
  {
    if actions != [] {
      var n := |actions| - 1;
      if n !in kept {
        ResidualEmpty(actions[..n], kept);
      }
    }
  }

  lemma {:induction false} ResidualFits(actions: seq<Action>, kept: set<nat>)
    ensures |Residual(actions, kept)| <= |actions|
    ensures |Residual(actions, kept)| == |actions| ==> Residual(actions, kept) == actions
  {
    if actions != [] {
      var n := |actions| - 1;
      ResidualFits(actions[..n], kept);
      assert actions == actions[..n] + [actions[n]];
    }
  }

  /** Memory holds what is left; so does the disk, if anything was dropped; all gone is success. */
  ghost predicate ResidueIs(r: Residue, w: World, j: Journal, left: seq<Action>) {
    && r.actions == left
    && (r.verdict.Success? <==> left == [])
    && (left == [] ==> r.world.disk == None)
    && (left != [] ==>
          && r.verdict.Failure?
          && r.world.disk == if |left| == |j.actions| then w.disk else Some(j.(actions := left)))
  }

  lemma LoopStep(w: World, j: Journal, n: nat, failed: bool)
    requires 0 < n <= |j.actions| && OnlyUndosFail(w, j, n, failed)
    ensures RollbackLoop(w, j, n, failed) ==
            if UndoAt(w, j, n).1.Failure? then RollbackLoop(UndoAt(w, j, n).0, j, n - 1, true)
            else RollbackLoop(AfterDrop(w, j, n).0, Dropped(j, n), n - 1, failed)
  {
  }

  lemma UndoKeepsDisk(w: World, j: Journal, n: nat)
    requires 0 < n <= |j.actions|
    ensures UndoAt(w, j, n).0.disk == w.disk
  {
  }

  /** An action whose undo failed stays where it is. */
  lemma KeepStep(r: Residue, w: World, w1: World, j: Journal, n: nat, kept: set<nat>)
    requires 0 < n <= |j.actions| && w1.disk == w.disk
    requires ResidueIs(r, w1, j, Residual(j.actions[..n - 1], kept) + j.actions[n - 1..])
    ensures ResidueIs(r, w, j, Residual(j.actions[..n], kept + {n - 1}) + j.actions[n..])
  {
    var s := j.actions;
    ResidualWithin(s[..n - 1], kept, n - 1);
    assert s[..n][..n - 1] == s[..n - 1] && s[n - 1..] == [s[n - 1]] + s[n..];
    assert Residual(s[..n], kept + {n - 1}) + s[n..] == Residual(s[..n - 1], kept) + s[n - 1..];
    hide ResidueIs;
  }

  /** An action that was undone is gone from memory and, unless it was the last one, from disk. */
  lemma DropStep(r: Residue, w: World, w2: World, j: Journal, n: nat, kept: set<nat>)
    requires 0 < n <= |j.actions| && (Dropped(j, n).actions != [] ==> w2.disk == Some(Dropped(j, n)))
    requires forall k :: k in kept ==> k < n - 1
    requires ResidueIs(r, w2, Dropped(j, n), Residual(Dropped(j, n).actions[..n - 1], kept) + Dropped(j, n).actions[n - 1..])
    ensures ResidueIs(r, w, j, Residual(j.actions[..n], kept) + j.actions[n..])
  {
    var s, d := j.actions, Dropped(j, n).actions;
    assert d[..n - 1] == s[..n - 1] && d[n - 1..] == s[n..] && s[..n][..n - 1] == s[..n - 1];
    var left := Residual(s[..n], kept) + s[n..];
    assert left == Residual(s[..n - 1], kept) + s[n..];
    ResidualFits(s[..n - 1], kept);
    assert d == s[..n - 1] + s[n..];
    hide Residual;
  }

  /**
   On any world, journal and tape on which nothing but undos fails: with n actions to go, the
   loop ends with exactly those of them whose undos fail, in order, before what it kept already.
   */
  lemma {:induction false} RollbackLoopResidual(w: World, j: Journal, n: nat)
    requires n <= |j.actions| && OnlyUndosFail(w, j, n, n < |j.actions|)
    ensures ResidueIs(RollbackLoop(w, j, n, n < |j.actions|), w, j,
                      Residual(j.actions[..n], Failing(w, j, n)) + j.actions[n..])
    decreases n
  {
    if n == 0 {
      assert j.actions[..0] == [] && j.actions[0..] == j.actions;
    } else {
      LoopStep(w, j, n, n < |j.actions|);
      UndoKeepsDisk(w, j, n);
      FailingIsOwned(w, j, n);
      var (w1, v) := UndoAt(w, j, n);
      var (w2, d) := (AfterDrop(w, j, n).0, Dropped(j, n));
      hide RollbackLoop, UndoAt, ResidueIs, Residual;
      var r := RollbackLoop(w, j, n, n < |j.actions|);
      if v.Failure? {
        RollbackLoopResidual(w1, j, n - 1);
        KeepStep(r, w, w1, j, n, Failing(w1, j, n - 1));
      } else {
        RollbackLoopResidual(w2, d, n - 1);
        FailingIsOwned(w2, d, n - 1);
        DropStep(r, w, w2, j, n, Failing(w2, d, n - 1));
      }
    }
  }

  /**
   Whenever nothing but undos fails, a gated rollback keeps exactly the actions whose undos
   failed, in their original order, in memory and on disk, and it succeeds, removing the
   journal, if and only if no undo failed.
   */
  lemma RollbackResidual(cfg: Config, w: World, j: Journal)
    requires ValidRecovery(cfg.syn, j) && w.disk == Some(j) && OnlyUndosFail(w, j, |j.actions|, false)
    ensures var r := Rollback(cfg, w, j);
            var failing := Failing(w, j, |j.actions|);
            && r.actions == Residual(j.actions, failing)
            && (r.verdict.Success? <==> failing == {})
            && (r.verdict.Failure? <==> failing != {})
            && r.world.disk == if failing == {} then None else Some(j.(actions := r.actions))
  {
    var n := |j.actions|;
    assert j.actions[..n] == j.actions && j.actions[n..] == [];
    RollbackLoopResidual(w, j, n);
    FailingIsOwned(w, j, n);
    ResidualEmpty(j.actions, Failing(w, j, n));
    ResidualFits(j.actions, Failing(w, j, n));
    hide Residual, Failing, OnlyUndosFail, RollbackLoop;
  }

  // ---- Every set of owned actions can be the one that fails ----

  /** A rollback in which the undos at `fails` fail, after removing some of `touched`, and nothing else does. */
  function FailingTape(actions: seq<Action>, fails: set<nat>, touched: nat -> set<Entry>, kept: bool): seq<Event> {
    var ok := Event(Success, true, 0, {});
    if actions == [] then [ok]
    else
      var n := |actions| - 1;
      var a := actions[n];
      if a.created && n in fails then
        [Event(Failure, false, 0, touched(n))] + FailingTape(actions[..n], fails, touched, true)
      else
        (if a.created then [ok] else [])
        + (if n > 0 || kept then [ok] else [])
        + FailingTape(actions[..n], fails, touched, kept)
  }

  /** Without bystanders an owned undo does what its event says. */
  lemma UndoFollowsTape(w: World, base: set<Entry>, actions: seq<Action>, a: Action)
    requires Covered(w.os, base, actions) && NoBystander(base, actions)
    requires a in actions && !a.resource.UnknownKind?
    ensures a.created ==>
              var (w1, v) := Undo(w, a.resource);
              && v == Head(w).verdict && w1.tape == Rest(w).tape
              && base <= w1.os <= w.os
              && (v.Success? ==> forall e :: e in w1.os ==> !Owned(a, e))
    ensures !a.created ==> forall e :: e in w.os ==> !Owned(a, e)
  {
    if a.created {
      assert Private(w.os, base, a.resource);
      ScopedIsMatched(w.os, base, actions, a);
      UndoRefuses(w.os, base, a.resource);
      UndoStaysOutsideBase(w, base, actions, a);
    }
  }

  /** What the loop needs in front of the n-th action for its undo to follow the tape. */
  ghost predicate Follows(w: World, base: set<Entry>, j: Journal, n: nat, fails: set<nat>, touched: nat -> set<Entry>) {
    && n <= |j.actions|
    && Covered(w.os, base, j.actions) && NoBystander(base, j.actions)
    && (forall a :: a in j.actions ==> !a.resource.UnknownKind?)
    && w.tape == FailingTape(j.actions[..n], fails, touched, n < |j.actions|)
  }

  lemma FollowKeep(w: World, base: set<Entry>, j: Journal, n: nat, fails: set<nat>, touched: nat -> set<Entry>)
    requires Follows(w, base, j, n, fails, touched)
    requires n > 0 && j.actions[n - 1].created && n - 1 in fails
    ensures UndoAt(w, j, n).1.Failure? && Follows(UndoAt(w, j, n).0, base, j, n - 1, fails, touched)
  {
    assert j.actions[..n][..n - 1] == j.actions[..n - 1];
    UndoFollowsTape(w, base, j.actions, j.actions[n - 1]);
    hide NoBystander, Covered, Undo;
    CoveredShrinks(w.os, base, j.actions, UndoAt(w, j, n).0.os);
  }

  lemma FollowTape(w: World, j: Journal, n: nat, fails: set<nat>, touched: nat -> set<Entry>)
    requires 0 < n <= |j.actions| && !(j.actions[n - 1].created && n - 1 in fails)
    requires w.tape == FailingTape(j.actions[..n], fails, touched, n < |j.actions|)
    requires j.actions[n - 1].created ==>
               UndoAt(w, j, n).1 == Head(w).verdict && UndoAt(w, j, n).0.tape == Rest(w).tape
    ensures UndoAt(w, j, n).1.Success? && AfterDrop(w, j, n).1.Success?
    ensures AfterDrop(w, j, n).0.tape == FailingTape(Dropped(j, n).actions[..n - 1], fails, touched, n < |j.actions|)
    ensures AfterDrop(w, j, n).0.os == UndoAt(w, j, n).0.os
  {
    assert j.actions[..n][..n - 1] == j.actions[..n - 1] == Dropped(j, n).actions[..n - 1];
    hide Undo;
  }

  lemma FollowDrop(w: World, base: set<Entry>, j: Journal, n: nat, fails: set<nat>, touched: nat -> set<Entry>)
    requires Follows(w, base, j, n, fails, touched)
    requires n > 0 && !(j.actions[n - 1].created && n - 1 in fails)
    ensures UndoAt(w, j, n).1.Success? && AfterDrop(w, j, n).1.Success?
    ensures Follows(AfterDrop(w, j, n).0, base, Dropped(j, n), n - 1, fails, touched)
  {
    UndoFollowsTape(w, base, j.actions, j.actions[n - 1]);
    FollowTape(w, j, n, fails, touched);
    hide NoBystander, Covered, Undo, FailingTape, AfterDrop;
    var os := UndoAt(w, j, n).0.os;
    CoveredContainsBase(w.os, base, j.actions);
    CoveredShrinks(w.os, base, j.actions, os);
    DropCovered(os, base, j.actions, n - 1);
    BystanderSplit(base, j.actions, n - 1);
  }

  /** The owned actions at `fails` below n. */
  function OwnedAt(actions: seq<Action>, n: nat, fails: set<nat>): set<nat>
    requires n <= |actions|
  {
    set k: nat | k < n && actions[k].created && k in fails
  }

  /**
   Where no foreign entry stands in the scope of an undo, any set of owned actions can be the
   set that fails, with any partial removals on the way.
   */
  lemma {:induction false} AnySetCanFail(w: World, base: set<Entry>, j: Journal, n: nat, fails: set<nat>,
                                         touched: nat -> set<Entry>)
    requires Follows(w, base, j, n, fails, touched)
    ensures OnlyUndosFail(w, j, n, n < |j.actions|) && Failing(w, j, n) == OwnedAt(j.actions, n, fails)
    decreases n
  {
    hide Follows, UndoAt, AfterDrop, FailingTape;
    assert n <= |j.actions| by { FollowsBound(w, base, j, n, fails, touched); }
    if n == 0 {
      FollowsEnd(w, base, j, fails, touched);
    } else if j.actions[n - 1].created && n - 1 in fails {
      FollowKeep(w, base, j, n, fails, touched);
      AnySetCanFail(UndoAt(w, j, n).0, base, j, n - 1, fails, touched);
      assert OwnedAt(j.actions, n, fails) == OwnedAt(j.actions, n - 1, fails) + {n - 1};
    } else {
      FollowDrop(w, base, j, n, fails, touched);
      AnySetCanFail(AfterDrop(w, j, n).0, base, Dropped(j, n), n - 1, fails, touched);
      assert OwnedAt(j.actions, n, fails) == OwnedAt(Dropped(j, n).actions, n - 1, fails);
    }
  }

  lemma FollowsBound(w: World, base: set<Entry>, j: Journal, n: nat, fails: set<nat>, touched: nat -> set<Entry>)
    requires Follows(w, base, j, n, fails, touched)
    ensures n <= |j.actions|
  {
  }

  lemma FollowsEnd(w: World, base: set<Entry>, j: Journal, fails: set<nat>, touched: nat -> set<Entry>)
    requires Follows(w, base, j, 0, fails, touched)
    ensures RemoveFile(w).1.Success?
  {
  }

  /** Hence for any such set the rollback keeps exactly these actions. */
  lemma AnyResidual(cfg: Config, os: set<Entry>, base: set<Entry>, j: Journal, fails: set<nat>,
                    touched: nat -> set<Entry>)
    requires ValidRecovery(cfg.syn, j)
    requires Covered(os, base, j.actions) && NoBystander(base, j.actions)
    ensures var r := Rollback(cfg, World(os, Some(j), FailingTape(j.actions, fails, touched, false)), j);
            var left := OwnedAt(j.actions, |j.actions|, fails);
            && r.actions == Residual(j.actions, left)
            && (r.verdict.Success? <==> left == {})
            && r.world.disk == if left == {} then None else Some(j.(actions := r.actions))
  {
    var w := World(os, Some(j), FailingTape(j.actions, fails, touched, false));
    assert j.actions[..|j.actions|] == j.actions;
    assert Follows(w, base, j, |j.actions|, fails, touched);
    hide FailingTape, Follows, Covered, NoBystander, ValidRecovery, OnlyUndosFail, Failing, Residual, Rollback;
    AnySetCanFail(w, base, j, |j.actions|, fails, touched);
    RollbackResidual(cfg, w, j);
  }
}
