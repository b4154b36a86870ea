/**
 The TUN network manager as a crash-prone machine: every command of the operating
 system and every journal write consumes one event of a tape, which says whether it
 succeeded, failed (with or without taking effect) or whether the process died around
 it. A tape that runs out is a crash, so the states reached on all tapes are exactly
 the states reached between any two effects.
 */
module NetworkManager {
  import opened Common
  import opened NetworkJournal

  /**
   took: a failed or interrupted write or apply took effect nevertheless.
   touched: what a failed or interrupted removal removed nevertheless.
   */
  datatype Event = Event(verdict: Verdict, took: bool, id: nat, touched: set<Entry>)

  const DEAD := Event(Crash, false, 0, {})

  datatype World = World(os: set<Entry>, disk: Option<Journal>, tape: seq<Event>)

  datatype Config = Config(syn: Syntax, peer: string, dns: string)

  function Head(w: World): Event {
    if w.tape == [] then DEAD else w.tape[0]
  }

  function Rest(w: World): World {
    if w.tape == [] then w else w.(tape := w.tape[1..])
  }

  // ---- Effects ----

  /** An effect-free oracle: adapter wait, control-plane check, file read, failure injection. */
  function Ask(w: World): (World, Verdict) {
    (Rest(w), Head(w).verdict)
  }

  function Write(w: World, j: Journal): (World, Verdict) {
    var ev := Head(w);
    var w1 := Rest(w);
    (if ev.verdict.Success? || ev.took then w1.(disk := Some(j)) else w1, ev.verdict)
  }

  function RemoveFile(w: World): (World, Verdict) {
    var ev := Head(w);
    var w1 := Rest(w);
    (if ev.verdict.Success? || ev.took then w1.(disk := None) else w1, ev.verdict)
  }

  function Apply(w: World, r: Resource): (World, Verdict)
    requires !r.UnknownKind?
  {
    var ev := Head(w);
    var w1 := Rest(w);
    (if ev.verdict.Success? || ev.took then w1.(os := w1.os + {CreatedEntry(r, ev.id)}) else w1, ev.verdict)
  }

  function RemoveEntries(w: World, targets: set<Entry>): (World, Verdict) {
    var ev := Head(w);
    var w1 := Rest(w);
    (w1.(os := w1.os - (if ev.verdict.Success? then targets else targets * ev.touched)), ev.verdict)
  }

  /** The undo script: a refusal is a failure that touches nothing. */
  function Undo(w: World, r: Resource): (World, Verdict) {
    var targets := UndoTargets(w.os, r);
    if targets.Some? then RemoveEntries(w, targets.value)
    else (Rest(w), if Head(w).verdict.Crash? then Crash else Failure)
  }

  // ---- Rollback and recovery ----

  function Without(s: seq<Action>, i: nat): seq<Action>
    requires i < |s|
  {
    s[..i] + s[i + 1..]
  }

  /** What the backward loop leaves: the world, the actions still in memory, the outcome. */
  datatype Residue = Residue(world: World, actions: seq<Action>, verdict: Verdict)

  /**
   The rollback loop with the first n actions still to visit. `failed` says that an
   earlier undo failed; a failed journal write ends the loop at once.
   */
  function RollbackLoop(w: World, j: Journal, n: nat, failed: bool): Residue
    requires n <= |j.actions|
    decreases n
  {
    if n == 0 then
      if failed then Residue(w, j.actions, Failure)
      else var (w1, v) := RemoveFile(w); Residue(w1, j.actions, v)
    else
      var a := j.actions[n - 1];
      var (w1, v) := if a.created then Undo(w, a.resource) else (w, Success);
      if v.Crash? then Residue(w1, j.actions, Crash)
      else if v.Failure? then RollbackLoop(w1, j, n - 1, true)
      else
        var j1 := j.(actions := Without(j.actions, n - 1));
        if j1.actions == [] then RollbackLoop(w1, j1, n - 1, failed)
        else
          var (w2, v2) := Write(w1, j1);
          if v2.Success? then RollbackLoop(w2, j1, n - 1, failed)
          else Residue(w2, j1.actions, v2)
  }

  function Rollback(cfg: Config, w: World, j: Journal): Residue {
    if ValidRecovery(cfg.syn, j) then RollbackLoop(w, j, |j.actions|, false)
    else Residue(w, j.actions, Failure)
  }

  /** recoverLocked: read, migrate a version 1 journal, roll back. */
  function RecoverJournal(cfg: Config, w: World): (World, Verdict) {
    var (w1, v) := Ask(w);
    if !v.Success? then (w1, v)
    else if w1.disk.None? then (w1, Success)
    else
      var j := w1.disk.value;
      if j.version == 1 then
        var m := MigrateV1(j, cfg.peer, cfg.dns);
        if m.None? then (w1, Failure)
        else
          var (w2, v2) := Write(w1, m.value);
          if !v2.Success? then (w2, v2)
          else var r := Rollback(cfg, w2, m.value); (r.world, r.verdict)
      else if j.version == 2 then
        var r := Rollback(cfg, w1, j); (r.world, r.verdict)
      else (w1, Failure)
  }

  // ---- The sweep of orphaned firewall rules ----

  /** A rule name that belongs to Navo by its prefix. */
  predicate NavoNamed(e: Entry) {
    e.FirewallEntry? && FIREWALL_PREFIX <= e.displayName
  }

  /** A rule whose name is one that some session could have produced. */
  predicate SessionNamed(e: Entry) {
    NavoNamed(e) && RecoverableSession(e.displayName[|FIREWALL_PREFIX|..])
  }

  /** The rules the sweep deletes. */
  predicate Orphan(e: Entry) {
    SessionNamed(e) && e.outbound && e.block
  }

  /** The identity check that makes the sweep refuse. */
  predicate Suspicious(e: Entry) {
    NavoNamed(e) && !(Orphan(e) && e.ipv6Halves)
  }

  function Orphans(os: set<Entry>): set<Entry> {
    Select(os, e => Orphan(e))
  }

  function Sweep(w: World): (World, Verdict) {
    var (w1, v) := Ask(w);
    if !v.Success? then (w1, v)
    else if exists e :: e in w.os && Suspicious(e) then (w1, Failure)
    else if Orphans(w1.os) == {} then (w1, Success)
    else RemoveEntries(w1, Orphans(w1.os))
  }

  /** recoverNetworkState, which Recover and Deactivate run. */
  function Recover(cfg: Config, w: World): (World, Verdict) {
    var (w1, v) := RecoverJournal(cfg, w);
    if v.Success? then Sweep(w1) else (w1, v)
  }

  // ---- Activation ----

  datatype Op = Op(name: string, resource: Resource)

  datatype Endpoint = Endpoint(ip: string, ifIndex: nat, alias: string, nextHop: string)

  datatype Plan = Plan(sessionId: string, adapterName: string, endpoints: seq<Endpoint>,
                       endpointMetric: nat, blockIPv6: bool)

  datatype Adapter = Adapter(name: string, ifIndex: nat)

  function EndpointOp(plan: Plan, e: Endpoint): Op {
    var v6 := ':' in e.ip;
    Op("proxy endpoint bypass " + e.ip,
       Route(true, if v6 then "IPv6" else "IPv4", e.ip + (if v6 then "/128" else "/32"),
             e.ifIndex, e.alias, e.nextHop, plan.endpointMetric))
  }

  function SplitOp(cfg: Config, adapter: Adapter, prefix: string): Op {
    Op(SPLIT_NAME + prefix, Route(false, "IPv4", prefix, adapter.ifIndex, adapter.name, cfg.peer, 1))
  }

  /** The resources of one activation, in the order they are applied. */
  function Operations(cfg: Config, plan: Plan, adapter: Adapter): (ops: seq<Op>) {
    seq(|plan.endpoints|, i requires 0 <= i < |plan.endpoints| => EndpointOp(plan, plan.endpoints[i]))
    + [SplitOp(cfg, adapter, SPLIT_PREFIXES[0]), SplitOp(cfg, adapter, SPLIT_PREFIXES[1]),
       Op(NRPT_NAME, Nrpt(NRPT_ROOT, NRPT_TAG + plan.sessionId, cfg.dns))]
    + if plan.blockIPv6 then [Op(FIREWALL_NAME, Firewall(FIREWALL_PREFIX + plan.sessionId))] else []
  }

  predicate KnownKinds(ops: seq<Op>) {
    forall i :: 0 <= i < |ops| ==> !ops[i].resource.UnknownKind?
  }

  /** activationFailure: roll back; the call itself fails whatever the rollback does. */
  function Fail(cfg: Config, w: World, j: Journal): (World, Verdict) {
    var r := Rollback(cfg, w, j);
    (r.world, if r.verdict.Crash? then Crash else Failure)
  }

  function Append(j: Journal, a: Action): Journal {
    j.(actions := j.actions + [a])
  }

  function MarkApplied(j: Journal): Journal
    requires j.actions != []
  {
    j.(actions := j.actions[|j.actions| - 1 := j.actions[|j.actions| - 1].(status := Applied)])
  }

  /** One operation: inspect, and unless it is already there, pending, apply, applied. */
  function ApplyOne(w: World, j: Journal, op: Op): (World, Journal, Verdict)
    requires !op.resource.UnknownKind?
  {
    var (w1, v) := Ask(w);
    if !v.Success? then (w1, j, v)
    else
      match Inspect(w1.os, op.resource)
      case FoundConflict => (w1, j, Failure)
      case FoundExact =>
        var j1 := Append(j, Action(op.name, Applied, op.resource, false));
        var (w2, v2) := Write(w1, j1);
        if !v2.Success? then (w2, j1, v2)
        else var (w3, v3) := Ask(w2); (w3, j1, v3)
      case FoundMissing =>
        var j1 := Append(j, Action(op.name, Pending, op.resource, true));
        var (w2, v2) := Write(w1, j1);
        if !v2.Success? then (w2, j1, v2)
        else
          var (w3, v3) := Apply(w2, op.resource);
          if !v3.Success? then (w3, j1, v3)
          else
            var j2 := MarkApplied(j1);
            var (w4, v4) := Write(w3, j2);
            if !v4.Success? then (w4, j2, v4)
            else var (w5, v5) := Ask(w4); (w5, j2, v5)
  }

  function ApplyAll(cfg: Config, w: World, j: Journal, ops: seq<Op>): (World, Verdict)
    requires KnownKinds(ops)
    decreases |ops|
  {
    if ops == [] then
      var (w1, v) := Ask(w);
      if v.Failure? then Fail(cfg, w1, j) else (w1, v)
    else
      var (w1, j1, v) := ApplyOne(w, j, ops[0]);
      match v
      case Crash => (w1, Crash)
      case Failure => Fail(cfg, w1, j1)
      case Success => ApplyAll(cfg, w1, j1, ops[1..])
  }

  /** activateLocked of a manager that is not active yet. */
  function Activate(cfg: Config, w: World, plan: Plan, adapter: Adapter, recoverFirst: bool): (World, Verdict)
  {
    if plan.sessionId == "" then (w, Failure)
    else
      var (w1, v1) := if recoverFirst then Recover(cfg, w) else (w, Success);
      if !v1.Success? then (w1, v1)
      else
        var (w2, v2) := Ask(w1);
        if !v2.Success? then (w2, v2)
        else
          var j := Journal(2, plan.adapterName, plan.sessionId, []);
          var (w3, v3) := Write(w2, j);
          if !v3.Success? then (w3, v3)
          else ApplyAll(cfg, w3, j, Operations(cfg, plan, adapter))
  }

  /** Rebind: recover, forget the old binding, activate without a second recovery. */
  function Rebind(cfg: Config, w: World, plan: Plan, adapter: Adapter): (World, Verdict) {
    var (w1, v1) := Recover(cfg, w);
    if v1.Success? then Activate(cfg, w1, plan, adapter, false) else (w1, v1)
  }

  // ---- The manager object ----

  /** The manager with its loops; the operating system and the disk are fields it acts on. */
  class Manager {
    const cfg: Config
    var os: set<Entry>
    var disk: Option<Journal>
    var tape: seq<Event>
    var active: bool

    constructor (cfg: Config, w: World)
      ensures this.cfg == cfg && this.State() == w && !active
    {
      this.cfg := cfg;
      os, disk, tape, active := w.os, w.disk, w.tape, false;
    }

    function State(): World
      reads this
    {
      World(os, disk, tape)
    }

    method Next() returns (ev: Event)
      modifies this`tape
      ensures ev == Head(old(State())) && State() == Rest(old(State()))
    {
      if tape == [] {
        return DEAD;
      }
      ev := tape[0];
      tape := tape[1..];
    }

    method AskOracle() returns (v: Verdict)
      modifies this`tape
      ensures (State(), v) == Ask(old(State()))
    {
      var ev := Next();
      v := ev.verdict;
    }

    method WriteJournal(j: Journal) returns (v: Verdict)
      modifies this`tape, this`disk
      ensures (State(), v) == Write(old(State()), j)
    {
      var ev := Next();
      if ev.verdict.Success? || ev.took {
        disk := Some(j);
      }
      v := ev.verdict;
    }

    method RemoveJournal() returns (v: Verdict)
      modifies this`tape, this`disk
      ensures (State(), v) == RemoveFile(old(State()))
    {
      var ev := Next();
      if ev.verdict.Success? || ev.took {
        disk := None;
      }
      v := ev.verdict;
    }

    method RunUndo(r: Resource) returns (v: Verdict)
      modifies this`tape, this`os
      ensures (State(), v) == Undo(old(State()), r)
    {
      var targets := UndoTargets(os, r);
      var ev := Next();
      if targets.None? {
        return if ev.verdict.Crash? then Crash else Failure;
      }
      os := os - (if ev.verdict.Success? then targets.value else targets.value * ev.touched);
      v := ev.verdict;
    }

    method RunApply(r: Resource) returns (v: Verdict)
      requires !r.UnknownKind?
      modifies this`tape, this`os
      ensures (State(), v) == Apply(old(State()), r)
    {
      var ev := Next();
      if ev.verdict.Success? || ev.took {
        os := os + {CreatedEntry(r, ev.id)};
      }
      v := ev.verdict;
    }

    /** rollbackLocked: undo in reverse, shrinking the journal in memory and on disk. */
    method RollbackLocked(journal: Journal) returns (actions: seq<Action>, v: Verdict)
      modifies this`tape, this`os, this`disk
      ensures Residue(State(), actions, v) == Rollback(cfg, old(State()), journal)
    {
      actions := journal.actions;
      if !ValidRecovery(cfg.syn, journal) {
        return actions, Failure;
      }
      var index := |actions|;
      var failed := false;
      while index > 0
        invariant 0 <= index <= |actions|
        invariant RollbackLoop(State(), journal.(actions := actions), index, failed)
               == Rollback(cfg, old(State()), journal)
      {
        index := index - 1;
        v := Success;
        if actions[index].created {
          v := RunUndo(actions[index].resource);
        }
        if v.Crash? {
          return;
        }
        if v.Failure? {
          failed := true;
          continue;
        }
        actions := Without(actions, index);
        if |actions| > 0 {
          v := WriteJournal(journal.(actions := actions));
          if !v.Success? {
            return;
          }
        }
      }
      if failed {
        v := Failure;
      } else {
        v := RemoveJournal();
      }
    }

    method RecoverLocked() returns (v: Verdict)
      modifies this`tape, this`os, this`disk
      ensures (State(), v) == RecoverJournal(cfg, old(State()))
    {
      v := AskOracle();
      if !v.Success? || disk.None? {
        return;
      }
      var j := disk.value;
      if j.version == 1 {
        var migrated := MigrateV1(j, cfg.peer, cfg.dns);
        if migrated.None? {
          return Failure;
        }
        v := WriteJournal(migrated.value);
        if !v.Success? {
          return;
        }
        j := migrated.value;
      } else if j.version != 2 {
        return Failure;
      }
      var _, outcome := RollbackLocked(j);
      v := outcome;
    }

    method CleanupOrphans() returns (v: Verdict)
      modifies this`tape, this`os
      ensures (State(), v) == Sweep(old(State()))
    {
      v := AskOracle();
      if !v.Success? {
        return;
      }
      if exists e :: e in os && Suspicious(e) {
        return Failure;
      }
      var orphans := Orphans(os);
      if orphans != {} {
        var ev := Next();
        os := os - (if ev.verdict.Success? then orphans else orphans * ev.touched);
        v := ev.verdict;
      }
    }

    method RecoverNetworkState() returns (v: Verdict)
      modifies this`tape, this`os, this`disk
      ensures (State(), v) == Recover(cfg, old(State()))
    {
      v := RecoverLocked();
      if v.Success? {
        v := CleanupOrphans();
      }
    }

    method Deactivate() returns (v: Verdict)
      modifies this
      ensures (State(), v) == Recover(cfg, old(State()))
      ensures active == (old(active) && !v.Success?)
    {
      v := RecoverNetworkState();
      if v.Success? {
        active := false;
      }
    }

    /** activationFailure. */
    method FailActivation(j: Journal) returns (v: Verdict)
      modifies this`tape, this`os, this`disk
      ensures (State(), v) == Fail(cfg, old(State()), j)
    {
      var _, outcome := RollbackLocked(j);
      v := if outcome.Crash? then Crash else Failure;
    }

    /** The body of the activation loop for one operation. */
    method ApplyOperation(j: Journal, op: Op) returns (j': Journal, v: Verdict)
      requires !op.resource.UnknownKind?
      modifies this`tape, this`os, this`disk
      ensures (State(), j', v) == ApplyOne(old(State()), j, op)
    {
      j' := j;
      v := AskOracle();
      if !v.Success? {
        return;
      }
      var inspection := Inspect(os, op.resource);
      if inspection == FoundConflict {
        return j, Failure;
      }
      if inspection == FoundExact {
        j' := Append(j, Action(op.name, Applied, op.resource, false));
        v := WriteJournal(j');
      } else {
        j' := Append(j, Action(op.name, Pending, op.resource, true));
        v := WriteJournal(j');
        if !v.Success? {
          return;
        }
        v := RunApply(op.resource);
        if !v.Success? {
          return;
        }
        j' := MarkApplied(j');
        v := WriteJournal(j');
      }
      if v.Success? {
        v := AskOracle();
      }
    }

    method ApplyOperations(journal: Journal, ops: seq<Op>) returns (v: Verdict)
      requires KnownKinds(ops)
      modifies this`tape, this`os, this`disk
      ensures (State(), v) == ApplyAll(cfg, old(State()), journal, ops)
    {
      var j := journal;
      for i := 0 to |ops|
        invariant ApplyAll(cfg, State(), j, ops[i..]) == ApplyAll(cfg, old(State()), journal, ops)
      {
        assert ops[i..][0] == ops[i] && ops[i..][1..] == ops[i + 1..];
        j, v := ApplyOperation(j, ops[i]);
        match v {
          case Crash => return;
          case Failure => v := FailActivation(j); return;
          case Success =>
        }
      }
      v := AskOracle();
      if v.Failure? {
        v := FailActivation(j);
      }
    }

    /** activateLocked. */
    method ActivateLocked(plan: Plan, adapter: Adapter, recoverFirst: bool) returns (v: Verdict)
      modifies this
      ensures old(active) ==> v.Success? && State() == old(State()) && active
      ensures !old(active) ==>
                (State(), v) == Activate(cfg, old(State()), plan, adapter, recoverFirst) && active == v.Success?
    {
      if active {
        return Success;
      }
      if plan.sessionId == "" {
        return Failure;
      }
      if recoverFirst {
        v := RecoverNetworkState();
        if !v.Success? {
          return;
        }
      }
      v := AskOracle();
      if !v.Success? {
        return;
      }
      var j := Journal(2, plan.adapterName, plan.sessionId, []);
      v := WriteJournal(j);
      if !v.Success? {
        return;
      }
      v := ApplyOperations(j, Operations(cfg, plan, adapter));
      active := v.Success?;
    }

    method RebindAdapter(plan: Plan, adapter: Adapter) returns (v: Verdict)
      modifies this
      ensures (State(), v) == Rebind(cfg, old(State()), plan, adapter)
      ensures active == if Recover(cfg, old(State())).1.Success? then v.Success? else old(active)
    {
      v := RecoverNetworkState();
      if v.Success? {
        active := false;
        v := ActivateLocked(plan, adapter, false);
      }
    }
  }
}
