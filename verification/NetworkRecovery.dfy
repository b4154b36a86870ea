/**
 Crash safety of the TUN network manager. `base` is the set of entries that were there
 before Navo; Covered says that everything beyond it is owned by a journalled action and
 that no journalled action can reach into it.
 */
module NetworkRecovery {
  import opened Common
  import opened NetworkJournal
  import opened NetworkManager

  ghost predicate Owned(a: Action, e: Entry) {
    a.created && UndoMatch(a.resource, e)
  }

  /** The place of `r` holds at most one entry, which Navo made. */
  ghost predicate Private(os: set<Entry>, base: set<Entry>, r: Resource) {
    && (forall e :: e in os && Rivals(r, e) ==> e !in base && UndoMatch(r, e))
    && (forall e, f :: e in os && f in os && Rivals(r, e) && Rivals(r, f) ==> e == f)
  }

  ghost predicate Covered(os: set<Entry>, base: set<Entry>, actions: seq<Action>) {
    && base <= os
    && (forall e :: e in os && e !in base ==> exists a :: a in actions && Owned(a, e))
    && (forall a :: a in actions && a.created ==> Private(os, base, a.resource))
  }

  /** The actions that recovery would take from the disk. */
  function Recorded(cfg: Config, disk: Option<Journal>): seq<Action> {
    if disk.None? then []
    else if disk.value.version == 1 && Migratable(disk.value, cfg.peer, cfg.dns) then
      MigrateV1(disk.value, cfg.peer, cfg.dns).value.actions
    else disk.value.actions
  }

  /** A journal that recovery can read: version 2, or version 1 with known actions. */
  predicate Readable(cfg: Config, disk: Option<Journal>) {
    disk.None? || disk.value.version == 2
    || (disk.value.version == 1 && Migratable(disk.value, cfg.peer, cfg.dns))
  }

  /** Write-ahead coverage: the journal on disk accounts for every entry beyond `base`. */
  ghost predicate Safe(cfg: Config, w: World, base: set<Entry>) {
    Readable(cfg, w.disk) && Covered(w.os, base, Recorded(cfg, w.disk))
  }

  // ---- Rollback ----

  lemma CoveredContainsBase(os: set<Entry>, base: set<Entry>, actions: seq<Action>)
    requires Covered(os, base, actions)
    ensures base <= os
  {
  }

  lemma CoveredShrinks(os: set<Entry>, base: set<Entry>, actions: seq<Action>, less: set<Entry>)
    requires Covered(os, base, actions)
    requires base <= less <= os
    ensures Covered(less, base, actions)
  {
  }

  lemma SafeShrinks(cfg: Config, w: World, base: set<Entry>, w1: World)
    requires Safe(cfg, w, base)
    requires w1.disk == w.disk && base <= w1.os <= w.os
    ensures Safe(cfg, w1, base)
  {
  }

  lemma UndoStaysOutsideBase(w: World, base: set<Entry>, actions: seq<Action>, a: Action)
    requires Covered(w.os, base, actions) && a in actions && a.created
    ensures var (w1, v) := Undo(w, a.resource);
            && w1.disk == w.disk && base <= w1.os <= w.os
            && (v.Success? ==> forall e :: e in w1.os ==> !Owned(a, e))
  {
  }

  lemma DropCovered(os: set<Entry>, base: set<Entry>, actions: seq<Action>, i: nat)
    requires Covered(os, base, actions) && i < |actions|
    requires forall e :: e in os ==> !Owned(actions[i], e)
    ensures Covered(os, base, Without(actions, i))
  {
  }

  /** Whether or not it succeeds, writing a covering journal keeps the disk covering. */
  lemma WriteSafe(cfg: Config, w: World, base: set<Entry>, j: Journal)
    requires j.version == 2 && Covered(w.os, base, j.actions) && Safe(cfg, w, base)
    ensures var (w1, v) := Write(w, j);
            w1.os == w.os && Safe(cfg, w1, base) && (v.Success? ==> w1.disk == Some(j))
  {
  }

  lemma DiskSafe(cfg: Config, w: World, base: set<Entry>, j: Journal)
    requires j.version == 2 && w.disk == Some(j) && Covered(w.os, base, j.actions)
    ensures Safe(cfg, w, base)
  {
  }

  lemma FinishCovered(cfg: Config, w: World, base: set<Entry>)
    requires Covered(w.os, base, []) && Safe(cfg, w, base)
    ensures var (w1, v) := RemoveFile(w);
            && Safe(cfg, w1, base) && w1.os == w.os == base
            && (v.Success? ==> w1.disk == None)
  {
  }

  lemma {:induction false} RollbackLoopSafe(cfg: Config, w: World, base: set<Entry>, j: Journal, n: nat, failed: bool)
    requires j.version == 2 && n <= |j.actions|
    requires !failed ==> n == |j.actions|
    requires Covered(w.os, base, j.actions) && Safe(cfg, w, base)
    ensures var r := RollbackLoop(w, j, n, failed);
            && Safe(cfg, r.world, base)
            && Covered(r.world.os, base, r.actions)
            && (r.verdict.Success? ==> r.world.disk == None && r.world.os == base)
    decreases n
  {
    hide Covered, Safe;
    if n == 0 {
      if !failed {
        FinishCovered(cfg, w, base);
      }
    } else {
      var a := j.actions[n - 1];
      var (w1, v) := if a.created then Undo(w, a.resource) else (w, Success);
      if a.created {
        UndoStaysOutsideBase(w, base, j.actions, a);
      }
      CoveredContainsBase(w.os, base, j.actions);
      CoveredShrinks(w.os, base, j.actions, w1.os);
      SafeShrinks(cfg, w, base, w1);
      if v.Crash? {
      } else if v.Failure? {
        RollbackLoopSafe(cfg, w1, base, j, n - 1, true);
      } else {
        var j1 := j.(actions := Without(j.actions, n - 1));
        DropCovered(w1.os, base, j.actions, n - 1);
        WriteSafe(cfg, w1, base, j1);
        if j1.actions == [] {
          RollbackLoopSafe(cfg, w1, base, j1, n - 1, failed);
        } else {
          var (w2, v2) := Write(w1, j1);
          if v2.Success? {
            RollbackLoopSafe(cfg, w2, base, j1, n - 1, failed);
          }
        }
      }
    }
  }

  lemma RollbackSafe(cfg: Config, w: World, base: set<Entry>, j: Journal)
    requires Covered(w.os, base, j.actions) && Safe(cfg, w, base)
    ensures var r := Rollback(cfg, w, j);
            && Safe(cfg, r.world, base)
            && (r.verdict.Success? ==> r.world.disk == None && r.world.os == base)
  {
    if ValidRecovery(cfg.syn, j) {
      RollbackLoopSafe(cfg, w, base, j, |j.actions|, false);
    }
  }

  lemma RecoverJournalSafe(cfg: Config, w: World, base: set<Entry>)
    requires Safe(cfg, w, base)
    ensures var (w1, v) := RecoverJournal(cfg, w);
            && Safe(cfg, w1, base)
            && (v.Success? ==> w1.disk == None && w1.os == base)
  {
    var (w1, v) := Ask(w);
    if v.Success? && w1.disk.Some? {
      var j := w1.disk.value;
      if j.version == 1 && Migratable(j, cfg.peer, cfg.dns) {
        var m := MigrateV1(j, cfg.peer, cfg.dns).value;
        var (w2, v2) := Write(w1, m);
        if v2.Success? {
          RollbackSafe(cfg, w2, base, m);
        }
      } else if j.version == 2 {
        RollbackSafe(cfg, w1, base, j);
      }
    }
  }

  // ---- The sweep ----

  /** What is left of a base once the orphan sweep has succeeded on it. */
  ghost function Swept(base: set<Entry>): set<Entry> {
    base - Orphans(base)
  }

  /** `less` is `base` after some, possibly interrupted, orphan sweeps. */
  ghost predicate SweptTowards(base: set<Entry>, less: set<Entry>) {
    Swept(base) <= less <= base
  }

  lemma SweptTowardsTransitive(a: set<Entry>, b: set<Entry>, c: set<Entry>)
    requires SweptTowards(a, b) && SweptTowards(b, c)
    ensures SweptTowards(a, c) && Swept(c) == Swept(a)
  {
  }

  lemma RecoverSafe(cfg: Config, w: World, base: set<Entry>) returns (base': set<Entry>)
    requires Safe(cfg, w, base)
    ensures SweptTowards(base, base')
    ensures var (w1, v) := Recover(cfg, w);
            && Safe(cfg, w1, base')
            && (v.Success? ==> w1.disk == None && w1.os == base' == Swept(base))
  {
    RecoverJournalSafe(cfg, w, base);
    var (w1, v) := RecoverJournal(cfg, w);
    base' := base;
    if v.Success? {
      var (w2, v2) := Sweep(w1);
      base' := w2.os;
    }
  }

  // ---- Activation ----

  /** Every listed resource is present, once, and with nothing in its way. */
  ghost predicate AllExact(os: set<Entry>, actions: seq<Action>) {
    forall a :: a in actions ==> Inspect(os, a.resource) == FoundExact
  }

  lemma InspectMissing(os: set<Entry>, r: Resource)
    ensures Inspect(os, r) == FoundMissing <==> forall e :: e in os ==> !Rivals(r, e)
  {
    var all := Select(os, e => Rivals(r, e));
    var exact := Select(os, e => Exact(r, e));
    assert exact <= all;
    if all == {} {
      assert exact == {};
      forall e | e in os ensures !Rivals(r, e) { assert e !in all; }
    } else {
      var e :| e in all;
      if |exact| == 1 && |all| == 1 {
      }
    }
  }

  lemma SingletonSet<T>(s: set<T>, x: T)
    requires |s| == 1 && x in s
    ensures s == {x}
  {
    assert |s - {x}| == 0;
  }

  /** EXACT means: one rival, and it is the resource itself. */
  lemma InspectExact(os: set<Entry>, r: Resource)
    ensures Inspect(os, r) == FoundExact <==>
            exists e :: e in os && Exact(r, e) && forall f :: f in os && Rivals(r, f) ==> f == e
  {
    var all := Select(os, e => Rivals(r, e));
    var exact := Select(os, e => Exact(r, e));
    assert exact <= all;
    if Inspect(os, r) == FoundExact {
      var e :| e in exact;
      SingletonSet(exact, e);
      SingletonSet(all, e);
      forall f | f in os && Rivals(r, f) ensures f == e { assert f in all; }
    }
    if e :| e in os && Exact(r, e) && forall f :: f in os && Rivals(r, f) ==> f == e {
      assert all == {e} && exact == {e};
    }
  }

  /** Creating a missing resource keeps coverage, once the action is listed. */
  lemma CreateCovered(os: set<Entry>, base: set<Entry>, actions: seq<Action>, r: Resource, id: nat, a: Action)
    requires Covered(os, base, actions) && AllExact(os, actions)
    requires !r.UnknownKind? && Inspect(os, r) == FoundMissing
    requires a.created && a.resource == r
    ensures Covered(os, base, actions + [a])
    ensures Covered(os + {CreatedEntry(r, id)}, base, actions + [a])
    ensures AllExact(os + {CreatedEntry(r, id)}, actions + [a])
  {
    InspectMissing(os, r);
    var e := CreatedEntry(r, id);
    var os' := os + {e};
    CreateKeepsOthers(os, actions, r, id);
    hide Inspect;
    forall f | f in os' && f !in base
      ensures exists b :: b in actions + [a] && Owned(b, f)
    {
      if f in os {
        var b :| b in actions && Owned(b, f);
        assert b in actions + [a];
      } else {
        assert a in actions + [a] && Owned(a, f);
      }
    }
    forall b | b in actions + [a] && b.created
      ensures Private(os', base, b.resource)
    {
      if b in actions {
        assert Private(os, base, b.resource);
      }
    }
    assert Covered(os', base, actions + [a]);
    assert base <= os;
    hide Covered, Private;
    CoveredShrinks(os', base, actions + [a], os);
    assert Exact(r, e);
    InspectExact(os', r);
  }

  /** The new entry is not in the way of any resource that is already in place. */
  lemma CreateKeepsOthers(os: set<Entry>, actions: seq<Action>, r: Resource, id: nat)
    requires AllExact(os, actions)
    requires !r.UnknownKind? && forall e :: e in os ==> !Rivals(r, e)
    ensures forall b :: b in actions ==>
              !Rivals(b.resource, CreatedEntry(r, id)) && Inspect(os + {CreatedEntry(r, id)}, b.resource) == FoundExact
  {
    var e := CreatedEntry(r, id);
    hide Inspect;
    forall b | b in actions
      ensures !Rivals(b.resource, e) && Inspect(os + {e}, b.resource) == FoundExact
    {
      InspectExact(os, b.resource);
      var f :| f in os && Exact(b.resource, f) && forall g :: g in os && Rivals(b.resource, g) ==> g == f;
      if Rivals(b.resource, e) {
        RivalsShareSlot(b.resource, r, id, f);
        assert false;
      }
      InspectExact(os + {e}, b.resource);
    }
  }

  lemma ListCovered(os: set<Entry>, base: set<Entry>, actions: seq<Action>, a: Action)
    requires Covered(os, base, actions) && !a.created
    ensures Covered(os, base, actions + [a])
  {
  }

  lemma MarkAppliedCovered(os: set<Entry>, base: set<Entry>, j: Journal)
    requires j.actions != [] && Covered(os, base, j.actions)
    ensures Covered(os, base, MarkApplied(j).actions)
    ensures AllExact(os, j.actions) ==> AllExact(os, MarkApplied(j).actions)
  {
    var m := MarkApplied(j);
    forall f | f in os && f !in base
      ensures exists b :: b in m.actions && Owned(b, f)
    {
      var b :| b in j.actions && Owned(b, f);
      var k :| 0 <= k < |j.actions| && j.actions[k] == b;
      assert Owned(m.actions[k], f);
    }
    forall b | b in m.actions
      ensures exists c :: c in j.actions && c.created == b.created && c.resource == b.resource
    {
      var k :| 0 <= k < |m.actions| && m.actions[k] == b;
      assert j.actions[k] in j.actions;
    }
  }

  /** The journal lists `ops` from position `from` on, all of them applied. */
  ghost predicate Lists(j: Journal, from: nat, ops: seq<Op>) {
    && |j.actions| == from + |ops|
    && forall i {:trigger ops[i]} :: 0 <= i < |ops| ==> Listed(j.actions[from + i], ops[i])
  }

  predicate Listed(a: Action, op: Op) {
    a.status == Applied && a.name == op.name && a.resource == op.resource
  }

  /** A complete activation that started from journal `j`. */
  ghost predicate Activated(w: World, j: Journal, ops: seq<Op>) {
    && w.disk.Some?
    && w.disk.value.(actions := []) == j.(actions := [])
    && j.actions <= w.disk.value.actions
    && Lists(w.disk.value, |j.actions|, ops)
    && AllExact(w.os, w.disk.value.actions)
  }

  lemma ActivatedStep(w: World, j: Journal, j1: Journal, ops: seq<Op>)
    requires ops != [] && Activated(w, j1, ops[1..])
    requires j1.(actions := []) == j.(actions := [])
    requires |j1.actions| == |j.actions| + 1 && j.actions <= j1.actions
    requires Listed(j1.actions[|j.actions|], ops[0])
    ensures Activated(w, j, ops)
  {
  }

  lemma ApplyOneSafe(cfg: Config, w: World, base: set<Entry>, j: Journal, op: Op)
    requires !op.resource.UnknownKind? && j.version == 2
    requires w.disk == Some(j) && Covered(w.os, base, j.actions) && AllExact(w.os, j.actions)
    ensures var (w1, j1, v) := ApplyOne(w, j, op);
            && j1.(actions := []) == j.(actions := [])
            && Safe(cfg, w1, base) && Covered(w1.os, base, j1.actions)
            && (v.Success? ==>
                  && w1.disk == Some(j1) && AllExact(w1.os, j1.actions)
                  && |j1.actions| == |j.actions| + 1 && j.actions <= j1.actions
                  && j1.actions[|j.actions|] ==
                     Action(op.name, Applied, op.resource, Inspect(w.os, op.resource) == FoundMissing))
  {
    hide Covered, Safe, Inspect;
    DiskSafe(cfg, w, base, j);
    var (w1, v) := Ask(w);
    DiskSafe(cfg, w1, base, j);
    if v.Success? {
      var inspection := Inspect(w1.os, op.resource);
      if inspection == FoundExact {
        var a := Action(op.name, Applied, op.resource, false);
        ListCovered(w.os, base, j.actions, a);
        WriteSafe(cfg, w1, base, Append(j, a));
        var (w2, v2) := Write(w1, Append(j, a));
        if v2.Success? {
          DiskSafe(cfg, Rest(w2), base, Append(j, a));
        }
      } else if inspection == FoundMissing {
        var a := Action(op.name, Pending, op.resource, true);
        var j1 := Append(j, a);
        var (w2, v2) := Write(w1, j1);
        CreateCovered(w.os, base, j.actions, op.resource, Head(w2).id, a);
        WriteSafe(cfg, w1, base, j1);
        if v2.Success? {
          var (w3, v3) := Apply(w2, op.resource);
          DiskSafe(cfg, w3, base, j1);
          if v3.Success? {
            MarkAppliedCovered(w3.os, base, j1);
            WriteSafe(cfg, w3, base, MarkApplied(j1));
            var (w4, v4) := Write(w3, MarkApplied(j1));
            if v4.Success? {
              DiskSafe(cfg, Rest(w4), base, MarkApplied(j1));
            }
          }
        }
      }
    }
  }

  lemma FailSafe(cfg: Config, w: World, base: set<Entry>, j: Journal)
    requires Covered(w.os, base, j.actions) && Safe(cfg, w, base)
    ensures var (w1, v) := Fail(cfg, w, j); Safe(cfg, w1, base) && !v.Success?
  {
    RollbackSafe(cfg, w, base, j);
  }

  lemma {:induction false} ApplyAllSafe(cfg: Config, w: World, base: set<Entry>, j: Journal, ops: seq<Op>)
    requires KnownKinds(ops) && j.version == 2
    requires w.disk == Some(j) && Covered(w.os, base, j.actions) && AllExact(w.os, j.actions)
    ensures var (w1, v) := ApplyAll(cfg, w, j, ops);
            && Safe(cfg, w1, base)
            && (v.Success? ==> Activated(w1, j, ops))
    decreases |ops|
  {
    hide Covered, Safe;
    DiskSafe(cfg, w, base, j);
    if ops == [] {
      var (w1, v) := Ask(w);
      DiskSafe(cfg, w1, base, j);
      if v.Failure? {
        FailSafe(cfg, w1, base, j);
      }
    } else {
      ApplyOneSafe(cfg, w, base, j, ops[0]);
      var (w1, j1, v) := ApplyOne(w, j, ops[0]);
      match v
      case Crash =>
      case Failure => FailSafe(cfg, w1, base, j1);
      case Success =>
        ApplyAllSafe(cfg, w1, base, j1, ops[1..]);
        var (w2, v2) := ApplyAll(cfg, w1, j1, ops[1..]);
        if v2.Success? {
          ActivatedStep(w2, j, j1, ops);
        }
    }
  }
}
