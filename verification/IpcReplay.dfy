/**
 The service's replay cache and the agent's retries over it. A request id is executed once,
 repeated requests with it wait for the first response, and the 256 most recently
 completed ids are remembered.
 */
module IpcReplay {
  import opened Common

  const LIMIT := 256

  /** An entry object: waiting calls keep a reference to it even when the cache forgets it. */
  datatype Entry = Entry(id: string, fingerprint: string, response: Option<string>)

  /** The cache: entry objects by serial number, the entries map, and the completed list. */
  datatype Cache = Cache(objects: seq<Entry>, entries: map<string, nat>, completed: seq<string>)

  datatype Admission = Uncached | IdReuse | Attached(serial: nat) | Started(serial: nat)

  /** The first lock section of execute, behind the test for an id in dispatch. */
  function Admit(c: Cache, id: string, fingerprint: string): (Cache, Admission) {
    if id == "" then (c, Uncached)
    else if id in c.entries && c.entries[id] < |c.objects| then
      if c.objects[c.entries[id]].fingerprint != fingerprint then (c, IdReuse) else (c, Attached(c.entries[id]))
    else
      (Cache(c.objects + [Entry(id, fingerprint, None)], c.entries[id := |c.objects|], c.completed), Started(|c.objects|))
  }

  /** The eviction loop. */
  function Trim(entries: map<string, nat>, completed: seq<string>): (map<string, nat>, seq<string>)
    decreases |completed|
  {
    if |completed| <= LIMIT then (entries, completed) else Trim(entries - {completed[0]}, completed[1..])
  }

  /** The second lock section: publish the response, then forget the oldest ids. */
  function Settle(c: Cache, serial: nat, response: string): Cache
    requires serial < |c.objects|
  {
    var e := c.objects[serial];
    var (entries, completed) := Trim(c.entries, c.completed + [e.id]);
    Cache(c.objects[serial := e.(response := Some(response))], entries, completed)
  }

  class ReplayCache {
    var objects: seq<Entry>
    var entries: map<string, nat>
    var completed: seq<string>

    constructor ()
      ensures State() == Cache([], map[], [])
    {
      objects, entries, completed := [], map[], [];
    }

    function State(): Cache
      reads this
    {
      Cache(objects, entries, completed)
    }

    method Enter(id: string, fingerprint: string) returns (a: Admission)
      modifies this`objects, this`entries
      ensures (State(), a) == Admit(old(State()), id, fingerprint)
    {
      if id == "" {
        return Uncached;
      }
      if id in entries && entries[id] < |objects| {
        return if objects[entries[id]].fingerprint != fingerprint then IdReuse else Attached(entries[id]);
      }
      objects := objects + [Entry(id, fingerprint, None)];
      entries := entries[id := |objects| - 1];
      a := Started(|objects| - 1);
    }

    method Publish(serial: nat, response: string)
      requires serial < |objects|
      modifies this
      ensures State() == Settle(old(State()), serial, response)
    {
      var id := objects[serial].id;
      objects := objects[serial := objects[serial].(response := Some(response))];
      completed := completed + [id];
      while |completed| > LIMIT
        invariant objects == old(objects)[serial := old(objects)[serial].(response := Some(response))]
        invariant Trim(entries, completed) == Trim(old(entries), old(completed) + [id])
        decreases |completed|
      {
        var expired := completed[0];
        completed := completed[1..];
        entries := entries - {expired};
      }
    }
  }

  // ---- What the cache remembers ----

  function Recent(history: seq<string>): seq<string> {
    if |history| <= LIMIT then history else history[|history| - LIMIT..]
  }

  predicate InFlight(c: Cache, id: string) {
    exists k :: 0 <= k < |c.objects| && c.objects[k].id == id && c.objects[k].response == None
  }

  predicate NoRepeats(s: seq<string>) {
    forall i, j :: 0 <= i < j < |s| ==> s[i] != s[j]
  }

  /** The entries map holds exactly the running requests and the completed list. */
  ghost predicate Indexed(c: Cache) {
    && NoRepeats(c.completed)
    && (forall id :: id in c.entries ==> c.entries[id] < |c.objects| && c.objects[c.entries[id]].id == id && id != "")
    && (forall id :: id in c.completed ==> id in c.entries && c.objects[c.entries[id]].response.Some?)
    && (forall id :: id in c.entries && id !in c.completed ==> c.objects[c.entries[id]].response.None?)
    && (forall k :: 0 <= k < |c.objects| && c.objects[k].response.None? ==>
          c.objects[k].id in c.entries && c.entries[c.objects[k].id] == k)
  }

  /** The cache remembers the running requests and the most recent completions, nothing else. */
  ghost predicate CacheInv(c: Cache, history: seq<string>) {
    Indexed(c) && c.completed == Recent(history)
  }

  /** The remembered ids: the running ones and the recent ones, disjoint and without repetition. */
  lemma KeysAreExact(c: Cache, history: seq<string>)
    requires CacheInv(c, history)
    ensures forall id :: id in c.entries <==> id in c.completed || InFlight(c, id)
    ensures forall id :: !(id in c.completed && InFlight(c, id))
    ensures NoRepeats(c.completed) && |c.completed| <= LIMIT
  {
  }

  /** A request is executed if and only if its id is neither running nor recently completed. */
  lemma StartsIff(c: Cache, history: seq<string>, id: string, fingerprint: string)
    requires CacheInv(c, history) && id != ""
    ensures Admit(c, id, fingerprint).1.Started? <==> !InFlight(c, id) && id !in Recent(history)
  {
  }

  /** A request joins the object with its id and fingerprint, or gets a new one, or is refused. */
  ghost predicate Joined(c: Cache, c1: Cache, a: Admission, id: string, fingerprint: string) {
    match a
    case Uncached => c1 == c && id == ""
    case IdReuse => c1 == c
    case Attached(k) =>
      c1 == c && k < |c.objects| && c.objects[k].id == id && c.objects[k].fingerprint == fingerprint
    case Started(k) =>
      k == |c.objects| && c1.objects == c.objects + [Entry(id, fingerprint, None)] && c1.completed == c.completed
  }

  lemma AdmitJoins(c: Cache, id: string, fingerprint: string)
    requires Indexed(c)
    ensures Joined(c, Admit(c, id, fingerprint).0, Admit(c, id, fingerprint).1, id, fingerprint)
  {
  }

  lemma AdmitKeeps(c: Cache, history: seq<string>, id: string, fingerprint: string)
    requires CacheInv(c, history)
    ensures CacheInv(Admit(c, id, fingerprint).0, history)
  {
  }

  lemma PublishKeepsIndex(c: Cache, serial: nat, response: string)
    requires Indexed(c) && serial < |c.objects| && c.objects[serial].response.None?
    ensures var e := c.objects[serial];
            e.id !in c.completed
            && Indexed(Cache(c.objects[serial := e.(response := Some(response))], c.entries, c.completed + [e.id]))
  {
  }

  lemma ForgetKeepsIndex(c: Cache)
    requires Indexed(c) && c.completed != []
    ensures Indexed(Cache(c.objects, c.entries - {c.completed[0]}, c.completed[1..]))
  {
  }

  lemma RecentStep(history: seq<string>, id: string)
    ensures Recent(history + [id]) ==
            if |Recent(history)| < LIMIT then Recent(history) + [id] else (Recent(history) + [id])[1..]
  {
  }

  /** One completion evicts at most one id, and never a running one. */
  lemma SettleKeeps(c: Cache, history: seq<string>, serial: nat, response: string)
    requires CacheInv(c, history) && serial < |c.objects| && c.objects[serial].response.None?
    ensures CacheInv(Settle(c, serial, response), history + [c.objects[serial].id])
  {
    var e := c.objects[serial];
    RecentStep(history, e.id);
    PublishKeepsIndex(c, serial, response);
    var c1 := Cache(c.objects[serial := e.(response := Some(response))], c.entries, c.completed + [e.id]);
    ForgetKeepsIndex(c1);
    if |c1.completed| > LIMIT {
      assert Trim(c1.entries, c1.completed) == Trim(c1.entries - {c1.completed[0]}, c1.completed[1..]);
    }
    hide Indexed, Recent;
  }

  // ---- All interleavings of calls ----

  /** What became of a call: it executes the handler, waits on an entry object, or has returned. */
  datatype Stage = Executing(serial: nat) | Waiting(serial: nat) | Answered(serial: nat, response: string) | Rejected

  datatype Call = Call(id: string, fingerprint: string, stage: Stage)

  /** The history lists the completed ids since the service started. */
  datatype World = World(cache: Cache, calls: map<nat, Call>, history: seq<string>)

  datatype Step =
    | Arrive(call: nat, id: string, fingerprint: string)
    | Complete(call: nat, response: string)
    | Wake(call: nat)
    | GiveUp(call: nat)

  /** One step; a step whose guard fails changes nothing. */
  function Do(w: World, step: Step): World {
    match step
    case Arrive(n, id, fingerprint) =>
      if n in w.calls || id == "" then w
      else
        var (cache, a) := Admit(w.cache, id, fingerprint);
        var stage := match a
          case Attached(serial) => Waiting(serial)
          case Started(serial) => Executing(serial)
          case _ => Rejected;
        World(cache, w.calls[n := Call(id, fingerprint, stage)], w.history)
    case Complete(n, response) =>
      if n in w.calls && w.calls[n].stage.Executing? && w.calls[n].stage.serial < |w.cache.objects| then
        var serial := w.calls[n].stage.serial;
        World(Settle(w.cache, serial, response),
              w.calls[n := w.calls[n].(stage := Answered(serial, response))],
              w.history + [w.cache.objects[serial].id])
      else w
    case Wake(n) =>
      if n in w.calls && w.calls[n].stage.Waiting? && w.calls[n].stage.serial < |w.cache.objects|
         && w.cache.objects[w.calls[n].stage.serial].response.Some? then
        var serial := w.calls[n].stage.serial;
        w.(calls := w.calls[n := w.calls[n].(stage := Answered(serial, w.cache.objects[serial].response.value))])
      else w
    case GiveUp(n) =>
      if n in w.calls && w.calls[n].stage.Waiting? then w.(calls := w.calls[n := w.calls[n].(stage := Rejected)]) else w
  }

  const START := World(Cache([], map[], []), map[], [])

  function Runs(w: World, steps: seq<Step>): World {
    if steps == [] then w else Do(Runs(w, steps[..|steps| - 1]), steps[|steps| - 1])
  }

  predicate CallFits(w: World, n: nat)
    requires n in w.calls
  {
    var call := w.calls[n];
    var objects := w.cache.objects;
    match call.stage
    case Rejected => true
    case Executing(k) => k < |objects| && objects[k] == Entry(call.id, call.fingerprint, None)
    case Waiting(k) => k < |objects| && objects[k].id == call.id && objects[k].fingerprint == call.fingerprint
    case Answered(k, r) => k < |objects| && objects[k] == Entry(call.id, call.fingerprint, Some(r))
  }

  predicate Executes(w: World, n: nat, serial: nat) {
    n in w.calls && w.calls[n].stage == Executing(serial)
  }

  /** Every running request is executed by exactly one call. */
  ghost predicate OneExecutor(w: World) {
    && (forall m: nat, n: nat, k: nat :: Executes(w, m, k) && Executes(w, n, k) ==> m == n)
    && (forall k: nat :: k < |w.cache.objects| && w.cache.objects[k].response.None? ==> exists n: nat :: Executes(w, n, k))
  }

  ghost predicate Inv(w: World) {
    && CacheInv(w.cache, w.history)
    && (forall n: nat :: n in w.calls ==> CallFits(w, n))
    && OneExecutor(w)
  }

  lemma ArriveKeepsCalls(w: World, n: nat, id: string, fingerprint: string)
    requires Inv(w)
    ensures var w1 := Do(w, Arrive(n, id, fingerprint));
            CacheInv(w1.cache, w1.history) && forall m: nat :: m in w1.calls ==> CallFits(w1, m)
  {
    AdmitKeeps(w.cache, w.history, id, fingerprint);
    AdmitJoins(w.cache, id, fingerprint);
    hide Admit, CacheInv, OneExecutor;
    var w1 := Do(w, Arrive(n, id, fingerprint));
    forall m: nat | m in w1.calls ensures CallFits(w1, m) {
      assert m in w.calls ==> CallFits(w, m);
    }
  }

  lemma ArriveKeepsExecutors(w: World, n: nat, id: string, fingerprint: string)
    requires Inv(w)
    ensures OneExecutor(Do(w, Arrive(n, id, fingerprint)))
  {
    AdmitJoins(w.cache, id, fingerprint);
    hide Admit, CacheInv;
    var w1 := Do(w, Arrive(n, id, fingerprint));
    forall m: nat, k: nat
      ensures Executes(w, m, k) ==> k < |w.cache.objects| && Executes(w1, m, k)
      ensures Executes(w1, m, k) ==> Executes(w, m, k) || (m == n && k == |w.cache.objects|)
    {
      assert m in w.calls ==> CallFits(w, m);
    }
    forall k: nat | k < |w1.cache.objects| && w1.cache.objects[k].response.None?
      ensures exists m: nat :: Executes(w1, m, k)
    {
      if k < |w.cache.objects| {
        var m: nat :| Executes(w, m, k);
        assert Executes(w1, m, k);
      } else {
        assert Executes(w1, n, k);
      }
    }
  }

  predicate Completes(w: World, n: nat) {
    n in w.calls && w.calls[n].stage.Executing? && w.calls[n].stage.serial < |w.cache.objects|
  }

  lemma CompleteKeepsCalls(w: World, n: nat, response: string)
    requires Inv(w) && Completes(w, n)
    ensures var w1 := Do(w, Complete(n, response));
            CacheInv(w1.cache, w1.history) && forall m: nat :: m in w1.calls ==> CallFits(w1, m)
  {
    var w1 := Do(w, Complete(n, response));
    var serial := w.calls[n].stage.serial;
    assert CallFits(w, n);
    SettleKeeps(w.cache, w.history, serial, response);
    hide CacheInv, Trim;
    forall m: nat | m in w1.calls ensures CallFits(w1, m) {
      assert CallFits(w, m);
      assert Executes(w, m, serial) && Executes(w, n, serial) ==> m == n;
    }
  }

  lemma CompleteKeepsExecutors(w: World, n: nat, response: string)
    requires Inv(w) && Completes(w, n)
    ensures OneExecutor(Do(w, Complete(n, response)))
  {
    var w1 := Do(w, Complete(n, response));
    var serial := w.calls[n].stage.serial;
    hide CacheInv, Trim, CallFits;
    forall m: nat, k: nat | Executes(w1, m, k) ensures Executes(w, m, k) {
    }
    forall k: nat | k < |w1.cache.objects| && w1.cache.objects[k].response.None?
      ensures exists m: nat :: Executes(w1, m, k)
    {
      assert k != serial;
      var m: nat :| Executes(w, m, k);
      assert Executes(w1, m, k);
    }
  }

  lemma QuietKeeps(w: World, step: Step)
    requires Inv(w) && (step.Wake? || step.GiveUp?)
    ensures Inv(Do(w, step))
  {
    var w1 := Do(w, step);
    hide CacheInv;
    forall m: nat | m in w1.calls ensures CallFits(w1, m) {
      assert CallFits(w, m);
    }
    forall m: nat, k: nat ensures Executes(w1, m, k) <==> Executes(w, m, k) {
    }
    forall k: nat | k < |w1.cache.objects| && w1.cache.objects[k].response.None?
      ensures exists m: nat :: Executes(w1, m, k)
    {
      var m: nat :| Executes(w, m, k);
      assert Executes(w1, m, k);
    }
  }

  lemma DoKeeps(w: World, step: Step)
    requires Inv(w)
    ensures Inv(Do(w, step))
  {
    match step
    case Arrive(n, id, fingerprint) =>
      ArriveKeepsCalls(w, n, id, fingerprint);
      ArriveKeepsExecutors(w, n, id, fingerprint);
      hide *;
    case Complete(n, response) =>
      if Completes(w, n) {
        CompleteKeepsCalls(w, n, response);
        CompleteKeepsExecutors(w, n, response);
      }
      hide CacheInv, OneExecutor, CallFits;
    case _ => QuietKeeps(w, step);
  }

  lemma {:induction false} RunsKeep(w: World, steps: seq<Step>)
    requires Inv(w)
    ensures Inv(Runs(w, steps))
  {
    if steps != [] {
      RunsKeep(w, steps[..|steps| - 1]);
      DoKeeps(Runs(w, steps[..|steps| - 1]), steps[|steps| - 1]);
      hide Inv, Do;
    }
  }

  lemma ReachableInv(steps: seq<Step>)
    ensures Inv(Runs(START, steps))
  {
    RunsKeep(START, steps);
  }

  // ---- One agent call with its retries ----

  /** The arrivals of requests with another id; running requests may complete at any time. */
  function Others(steps: seq<Step>, id: string): nat {
    if steps == [] then 0
    else
      var last := steps[|steps| - 1];
      Others(steps[..|steps| - 1], id) + Stranger(last, id)
  }

  function Stranger(step: Step, id: string): nat {
    if step.Arrive? && step.id != id then 1 else 0
  }

  /** Only this request arrives. */
  predicate OnlyRetries(steps: seq<Step>, id: string) {
    forall i :: 0 <= i < |steps| && steps[i].Arrive? ==> steps[i].id == id
  }

  lemma {:induction false} NoStrangers(steps: seq<Step>, id: string)
    requires OnlyRetries(steps, id)
    ensures Others(steps, id) == 0
  {
    if steps != [] {
      NoStrangers(steps[..|steps| - 1], id);
    }
  }

  predicate Unused(w: World, id: string) {
    id != "" && forall k :: 0 <= k < |w.cache.objects| ==> w.cache.objects[k].id != id
  }

  predicate RunTwice(w: World, id: string) {
    exists i, j :: 0 <= i < j < |w.cache.objects| && w.cache.objects[i].id == id && w.cache.objects[j].id == id
  }

  /** The requests still running among the first n. */
  function Open(w: World, n: nat): set<nat>
    requires n <= |w.cache.objects|
  {
    set k: nat | k < n && w.cache.objects[k].response.None?
  }

  function OpenOthers(w: World, id: string): set<nat> {
    set k: nat | k < |w.cache.objects| && w.cache.objects[k].response.None? && w.cache.objects[k].id != id
  }

  /** The id completed at position p; later completions used up other requests, of which `limit` existed. */
  predicate CountedAt(w: World, id: string, limit: nat, p: nat) {
    p < |w.history| && w.history[p] == id && |w.history| - p - 1 + |OpenOthers(w, id)| <= limit
  }

  predicate Done(w: World, id: string) {
    exists k :: 0 <= k < |w.cache.objects| && w.cache.objects[k].id == id && w.cache.objects[k].response.Some?
  }

  /**
   What a run preserves: at most one run of the id, and after its completion no more
   completions than other requests were running at the first attempt or arrived since.
   */
  ghost predicate Retried(w: World, id: string, limit: nat) {
    && !RunTwice(w, id)
    && |OpenOthers(w, id)| <= limit
    && (Done(w, id) ==> exists p: nat :: CountedAt(w, id, limit, p))
  }

  lemma RetriedStart(w: World, id: string)
    requires Unused(w, id)
    ensures Retried(w, id, |Open(w, |w.cache.objects|)|)
  {
    assert OpenOthers(w, id) == Open(w, |w.cache.objects|);
  }

  /** A completed run stays remembered while fewer than 256 requests can complete after it. */
  lemma StillRemembered(w: World, id: string, limit: nat, k: nat)
    requires Retried(w, id, limit) && limit < LIMIT
    requires k < |w.cache.objects| && w.cache.objects[k].id == id
    ensures InFlight(w.cache, id) || id in Recent(w.history)
  {
    hide RunTwice, OpenOthers;
    if w.cache.objects[k].response.Some? {
      assert Done(w, id);
      var p: nat :| CountedAt(w, id, limit, p);
    }
  }

  /** A step that completes nothing, and adds at most one running request. */
  lemma RetriedSame(w1: World, w2: World, id: string, limit: nat)
    requires Retried(w1, id, limit) && w2.history == w1.history
    requires w2.cache.objects == w1.cache.objects
    ensures Retried(w2, id, limit)
  {
    assert OpenOthers(w2, id) == OpenOthers(w1, id);
    hide OpenOthers;
    if Done(w2, id) {
      var p: nat :| CountedAt(w1, id, limit, p);
      assert CountedAt(w2, id, limit, p);
    }
  }

  lemma OthersGrow(w1: World, w2: World, id: string, e: Entry)
    requires w2.cache.objects == w1.cache.objects + [e] && e.response.None?
    requires e.id == id ==> forall k :: 0 <= k < |w1.cache.objects| ==> w1.cache.objects[k].id != id
    ensures |OpenOthers(w2, id)| == |OpenOthers(w1, id)| + if e.id == id then 0 else 1
    ensures (RunTwice(w2, id) <==> RunTwice(w1, id)) && (Done(w2, id) <==> Done(w1, id))
  {
    var n := |w1.cache.objects|;
    assert OpenOthers(w2, id) == OpenOthers(w1, id) + if e.id == id then {} else {n};
    hide OpenOthers;
    assert forall k :: 0 <= k < n ==> w2.cache.objects[k] == w1.cache.objects[k];
    assert w2.cache.objects[n] == e;
  }

  lemma RetriedMore(w1: World, w2: World, id: string, limit: nat, e: Entry)
    requires Retried(w1, id, limit) && w2.history == w1.history && e.response.None?
    requires w2.cache.objects == w1.cache.objects + [e]
    requires e.id == id ==> forall k :: 0 <= k < |w1.cache.objects| ==> w1.cache.objects[k].id != id
    ensures Retried(w2, id, if e.id == id then limit else limit + 1)
  {
    OthersGrow(w1, w2, id, e);
    assert Done(w1, id) ==> e.id != id;
    hide OpenOthers, RunTwice, Done;
    if Done(w1, id) && e.id != id {
      var p: nat :| CountedAt(w1, id, limit, p);
      assert CountedAt(w2, id, limit + 1, p);
    }
  }

  lemma RetriedWeaker(w: World, id: string, limit: nat)
    requires Retried(w, id, limit)
    ensures Retried(w, id, limit + 1)
  {
    if Done(w, id) {
      var p: nat :| CountedAt(w, id, limit, p);
      assert CountedAt(w, id, limit + 1, p);
    }
  }

  lemma RetriedArrive(w: World, id: string, limit: nat, step: Step)
    requires Inv(w) && id != "" && Retried(w, id, limit) && (step.Arrive? && step.id == id ==> limit < LIMIT)
    requires step.Arrive?
    ensures Retried(Do(w, step), id, if step.id == id then limit else limit + 1)
  {
    var w1 := Do(w, step);
    AdmitJoins(w.cache, step.id, step.fingerprint);
    if step.id == id {
      StartsIff(w.cache, w.history, id, step.fingerprint);
      forall k | 0 <= k < |w.cache.objects| && w.cache.objects[k].id == id
        ensures w1.cache.objects == w.cache.objects
      {
        StillRemembered(w, id, limit, k);
      }
    }
    hide Admit, CacheInv, OneExecutor, Retried, InFlight, Recent;
    if w1.cache.objects == w.cache.objects {
      RetriedSame(w, w1, id, limit);
      if step.id != id { RetriedWeaker(w1, id, limit); }
    } else {
      RetriedMore(w, w1, id, limit, Entry(step.id, step.fingerprint, None));
    }
  }

  /** What a completion changes besides the cache's index. */
  lemma CompleteEffect(w: World, call: nat, response: string)
    requires Completes(w, call)
    ensures var w1 := Do(w, Complete(call, response));
            var k := w.calls[call].stage.serial;
            && w1.cache.objects == w.cache.objects[k := w.cache.objects[k].(response := Some(response))]
            && w1.history == w.history + [w.cache.objects[k].id]
            && w1.calls.Keys == w.calls.Keys
  {
  }

  /** The requests still running after one of them completed. */
  lemma OpenShrinks(w: World, w1: World, n: nat, k: nat, response: string)
    requires n <= |w.cache.objects| && k < |w.cache.objects| && w.cache.objects[k].response.None?
    requires w1.cache.objects == w.cache.objects[k := w.cache.objects[k].(response := Some(response))]
    ensures k < n ==> Open(w1, n) == Open(w, n) - {k} && |Open(w1, n)| == |Open(w, n)| - 1
    ensures k >= n ==> Open(w1, n) == Open(w, n)
  {
  }

  lemma OthersShrink(w: World, w1: World, id: string, k: nat, response: string)
    requires k < |w.cache.objects| && w.cache.objects[k].response.None?
    requires w1.cache.objects == w.cache.objects[k := w.cache.objects[k].(response := Some(response))]
    ensures w.cache.objects[k].id == id ==> OpenOthers(w1, id) == OpenOthers(w, id)
    ensures w.cache.objects[k].id != id ==> |OpenOthers(w1, id)| == |OpenOthers(w, id)| - 1
    ensures RunTwice(w1, id) <==> RunTwice(w, id)
    ensures Done(w1, id) <==> Done(w, id) || w.cache.objects[k].id == id
  {
    if w.cache.objects[k].id == id {
      assert OpenOthers(w1, id) == OpenOthers(w, id);
      assert w1.cache.objects[k].response.Some?;
    } else {
      assert k in OpenOthers(w, id);
      assert OpenOthers(w1, id) == OpenOthers(w, id) - {k};
    }
    assert |w1.cache.objects| == |w.cache.objects|;
    forall i | 0 <= i < |w.cache.objects|
      ensures w1.cache.objects[i].id == w.cache.objects[i].id
      ensures i != k ==> w1.cache.objects[i] == w.cache.objects[i]
    {
    }
    hide OpenOthers;
  }

  lemma RetriedComplete(w: World, id: string, limit: nat, call: nat, response: string)
    requires Inv(w) && Retried(w, id, limit) && Completes(w, call)
    ensures Retried(Do(w, Complete(call, response)), id, limit)
  {
    var w1 := Do(w, Complete(call, response));
    var k := w.calls[call].stage.serial;
    assert CallFits(w, call);
    CompleteEffect(w, call, response);
    OthersShrink(w, w1, id, k, response);
    hide Do, Inv, CallFits, OpenOthers, RunTwice, Done;
    if w.cache.objects[k].id == id {
      assert CountedAt(w1, id, limit, |w.history|);
    } else if Done(w, id) {
      var p: nat :| CountedAt(w, id, limit, p);
      assert CountedAt(w1, id, limit, p);
    }
  }

  lemma RetriedStep(w: World, id: string, limit: nat, step: Step)
    requires Inv(w) && id != "" && Retried(w, id, limit) && limit < LIMIT
    ensures Retried(Do(w, step), id, limit + Stranger(step, id))
  {
    hide Retried, Inv;
    match step
    case Arrive(_, _, _) => RetriedArrive(w, id, limit, step);
    case Complete(n, response) =>
      if Completes(w, n) {
        RetriedComplete(w, id, limit, n, response);
      }
    case _ => RetriedSame(w, Do(w, step), id, limit);
  }

  lemma {:induction false} RetriesKeep(w: World, id: string, steps: seq<Step>)
    requires Inv(w) && Unused(w, id) && |Open(w, |w.cache.objects|)| + Others(steps, id) < LIMIT
    ensures Retried(Runs(w, steps), id, |Open(w, |w.cache.objects|)| + Others(steps, id))
  {
    hide Retried, Inv, Open, Do;
    if steps == [] {
      RetriedStart(w, id);
    } else {
      var before := steps[..|steps| - 1];
      RetriesKeep(w, id, before);
      RunsKeep(w, before);
      RetriedStep(Runs(w, before), id, |Open(w, |w.cache.objects|)| + Others(before, id), steps[|steps| - 1]);
    }
  }

  lemma CompletionAdvances(w: World, id: string, n: nat, call: nat, k: nat, response: string)
    requires n <= |w.cache.objects| && k in Open(w, n) && Executes(w, call, k) && w.cache.objects[k].id != id
    ensures Advanced(w, Do(w, Complete(call, response)), id, n, 1)
  {
    CompleteEffect(w, call, response);
    OpenShrinks(w, Do(w, Complete(call, response)), n, k, response);
    hide Do, Open;
  }

  lemma SomeOpenCall(w: World, n: nat) returns (call: nat, k: nat)
    requires OneExecutor(w) && n <= |w.cache.objects| && Open(w, n) != {}
    ensures k in Open(w, n) && Executes(w, call, k)
  {
    k :| k in Open(w, n);
    assert w.cache.objects[k].response.None?;
    call :| Executes(w, call, k);
  }

  /** m of the first n requests completed between w and w1, none of them with this id. */
  ghost predicate Advanced(w: World, w1: World, id: string, n: nat, m: nat) {
    && w1.calls.Keys == w.calls.Keys
    && |w1.cache.objects| == |w.cache.objects| && n <= |w.cache.objects|
    && (forall k :: 0 <= k < |w.cache.objects| ==>
          && w1.cache.objects[k].id == w.cache.objects[k].id
          && (w.cache.objects[k].response.Some? ==> w1.cache.objects[k].response.Some?))
    && w.history <= w1.history && |w1.history| == |w.history| + m
    && (forall i :: |w.history| <= i < |w1.history| ==> w1.history[i] != id)
    && |Open(w1, n)| == |Open(w, n)| - m
  }

  lemma AdvancedTwice(w: World, w1: World, w2: World, id: string, n: nat, m: nat)
    requires Advanced(w, w1, id, n, m) && Advanced(w1, w2, id, n, 1)
    ensures Advanced(w, w2, id, n, m + 1)
  {
  }

  lemma AdvancedNone(w: World, id: string, n: nat)
    requires n <= |w.cache.objects|
    ensures Advanced(w, w, id, n, 0)
  {
  }

  lemma CompleteNext(w: World, w1: World, id: string, n: nat, m: nat, response: string) returns (step: Step)
    requires Inv(w1) && Advanced(w, w1, id, n, m) && m < |Open(w, n)|
    requires forall k :: 0 <= k < n ==> w.cache.objects[k].id != id
    ensures step.Complete? && Inv(Do(w1, step)) && Advanced(w, Do(w1, step), id, n, m + 1)
  {
    var call, k := SomeOpenCall(w1, n);
    step := Complete(call, response);
    assert w1.cache.objects[k].id != id;
    DoKeeps(w1, step);
    CompletionAdvances(w1, id, n, call, k, response);
    hide *;
    AdvancedTwice(w, w1, Do(w1, step), id, n, m);
  }

  lemma {:induction false} CompleteMany(w: World, id: string, n: nat, m: nat, response: string) returns (steps: seq<Step>)
    requires Inv(w) && n <= |w.cache.objects| && m <= |Open(w, n)|
    requires forall k :: 0 <= k < n ==> w.cache.objects[k].id != id
    ensures forall i :: 0 <= i < |steps| ==> steps[i].Complete?
    ensures Inv(Runs(w, steps)) && Advanced(w, Runs(w, steps), id, n, m)
  {
    hide Inv, Advanced, Do, Open;
    if m == 0 {
      steps := [];
      AdvancedNone(w, id, n);
      assert Runs(w, steps) == w;
    } else {
      var before := CompleteMany(w, id, n, m - 1, response);
      var step := CompleteNext(w, Runs(w, before), id, n, m - 1, response);
      steps := before + [step];
      assert steps[..|steps| - 1] == before;
    }
  }

  lemma {:induction false} RunsConcat(w: World, a: seq<Step>, b: seq<Step>)
    ensures Runs(w, a + b) == Runs(Runs(w, a), b)
  {
    hide Do;
    if b == [] {
      assert a + b == a;
    } else {
      RunsConcat(w, a, b[..|b| - 1]);
      assert (a + b)[..|a + b| - 1] == a + b[..|b| - 1];
    }
  }

  lemma {:induction false} FreeNumber(used: set<nat>) returns (n: nat)
    ensures forall x :: x in used ==> x < n
  {
    if used == {} {
      n := 0;
    } else {
      var x :| x in used;
      var m := FreeNumber(used - {x});
      n := if x < m then m else x + 1;
      forall y | y in used ensures y < n {
        assert y == x || y in used - {x};
      }
    }
  }

  /** The call is executed and answered once. */
  lemma AnswerOnce(w: World, id: string, call: nat) returns (steps: seq<Step>)
    requires Inv(w) && Unused(w, id) && call !in w.calls
    ensures OnlyRetries(steps, id)
    ensures var w1 := Runs(w, steps);
            var n := |w.cache.objects|;
            && Inv(w1) && w1.calls.Keys == w.calls.Keys + {call}
            && |w1.cache.objects| == n + 1 && w1.cache.objects[n].id == id && w1.cache.objects[n].response.Some?
            && w1.cache.objects[..n] == w.cache.objects
  {
    var arrive, complete := Arrive(call, id, id), Complete(call, id);
    var w1 := Do(w, arrive);
    StartsIff(w.cache, w.history, id, id);
    AdmitJoins(w.cache, id, id);
    DoKeeps(w, arrive);
    DoKeeps(w1, complete);
    assert w1.calls[call].stage == Executing(|w.cache.objects|);
    CompleteEffect(w1, call, id);
    hide Do, Inv, Admit;
    steps := [arrive, complete];
    assert steps[..1] == [arrive] && [arrive][..0] == [];
    assert Runs(w, []) == w && Runs(w, [arrive]) == w1;
  }

  /** The answered call is pushed out by later completions, and its id starts a second run. */
  lemma PushedOut(w: World, id: string, n: nat, call: nat) returns (steps: seq<Step>)
    requires Inv(w) && id != "" && |w.cache.objects| == n + 1
    requires w.cache.objects[n].id == id && w.cache.objects[n].response.Some?
    requires forall k :: 0 <= k < n ==> w.cache.objects[k].id != id
    requires call !in w.calls
    ensures |Open(w, n)| >= LIMIT ==> OnlyRetries(steps, id) && RunTwice(Runs(w, steps), id)
  {
    hide Inv, Open, Recent, InFlight, Runs, Do;
    if |Open(w, n)| < LIMIT {
      return [];
    }
    var many := CompleteMany(w, id, n, LIMIT, id);
    var w1 := Runs(w, many);
    Forgotten(w, w1, id, n);
    assert call !in w1.calls.Keys && w1.cache.objects[n].id == id;
    hide Advanced;
    RunsAgain(w1, id, n, call);
    steps := many + [Arrive(call, id, id)];
    RunsLast(w, many, Arrive(call, id, id));
  }

  lemma RunsAgain(w: World, id: string, n: nat, call: nat)
    requires Inv(w) && id != "" && call !in w.calls
    requires |w.cache.objects| == n + 1 && w.cache.objects[n].id == id
    requires !InFlight(w.cache, id) && id !in Recent(w.history)
    ensures RunTwice(Do(w, Arrive(call, id, id)), id)
  {
    StartsIff(w.cache, w.history, id, id);
    AdmitJoins(w.cache, id, id);
    hide Admit, CacheInv, InFlight, Recent;
    var w1 := Do(w, Arrive(call, id, id));
    assert w1.cache.objects[n].id == id && w1.cache.objects[n + 1].id == id;
  }

  lemma {:induction false} OthersConcat(a: seq<Step>, b: seq<Step>, id: string)
    ensures Others(a + b, id) == Others(a, id) + Others(b, id)
  {
    if b == [] {
      assert a + b == a;
    } else {
      OthersConcat(a, b[..|b| - 1], id);
      assert (a + b)[..|a + b| - 1] == a + b[..|b| - 1];
    }
  }

  lemma RunsLast(w: World, steps: seq<Step>, step: Step)
    ensures Runs(w, steps + [step]) == Do(Runs(w, steps), step)
  {
  }

  lemma OpenSame(w: World, w1: World, n: nat)
    requires n == |w.cache.objects| <= |w1.cache.objects| && w1.cache.objects[..n] == w.cache.objects
    ensures Open(w1, n) == Open(w, n)
    ensures forall k :: 0 <= k < n ==> w1.cache.objects[k] == w.cache.objects[k]
  {
  }

  lemma RetryRunsAgain(w: World, id: string) returns (steps: seq<Step>)
    requires Inv(w) && Unused(w, id)
    ensures |Open(w, |w.cache.objects|)| >= LIMIT ==> OnlyRetries(steps, id) && RunTwice(Runs(w, steps), id)
  {
    hide Inv, Runs, Open, RunTwice;
    var n := |w.cache.objects|;
    var call := FreeNumber(w.calls.Keys);
    var first := AnswerOnce(w, id, call);
    var w1 := Runs(w, first);
    OpenSame(w, w1, n);
    assert call + 1 !in w1.calls.Keys;
    var second := PushedOut(w1, id, n, call + 1);
    RunsConcat(w, first, second);
    steps := first + second;
  }

  lemma Forgotten(w1: World, w2: World, id: string, n: nat)
    requires |w1.cache.objects| == n + 1 && w1.cache.objects[n].response.Some?
    requires forall k :: 0 <= k < n ==> w1.cache.objects[k].id != id
    requires Advanced(w1, w2, id, n, LIMIT)
    ensures !InFlight(w2.cache, id) && id !in Recent(w2.history)
  {
  }

  /** Any number of new requests with other ids can be running when the call arrives. */
  lemma {:induction false} OthersArrive(w: World, id: string, others: nat) returns (steps: seq<Step>)
    requires Inv(w) && Unused(w, id)
    ensures Others(steps, id) == others && Inv(Runs(w, steps)) && Unused(Runs(w, steps), id)
    ensures var w1 := Runs(w, steps);
            |Open(w1, |w1.cache.objects|)| == |Open(w, |w.cache.objects|)| + others
  {
    hide Inv, Unused, Do, Open;
    if others == 0 {
      steps := [];
      assert Runs(w, steps) == w;
    } else {
      var before := OthersArrive(w, id, others - 1);
      var step := OtherArrives(Runs(w, before), id);
      steps := before + [step];
      assert steps[..|steps| - 1] == before;
    }
  }

  /** A text that no request has carried. */
  lemma {:induction false} FreshText(objects: seq<Entry>) returns (length: nat)
    ensures forall k :: 0 <= k < |objects| ==> |objects[k].id| < length
  {
    if objects == [] {
      length := 0;
    } else {
      var last := |objects| - 1;
      var l := FreshText(objects[..last]);
      length := if |objects[last].id| < l then l else |objects[last].id| + 1;
      forall k | 0 <= k < |objects| ensures |objects[k].id| < length {
        assert k < last ==> objects[k] == objects[..last][k];
      }
    }
  }

  lemma FreshId(w: World, id: string) returns (other: string)
    ensures Unused(w, other) && other != id
  {
    var entries := w.cache.objects + [Entry(id, "", None)];
    var length := FreshText(entries);
    other := seq(length, _ => 'x');
    assert entries[|w.cache.objects|].id == id;
    forall k | 0 <= k < |w.cache.objects| ensures w.cache.objects[k].id != other {
      assert entries[k] == w.cache.objects[k];
    }
  }

  lemma OtherArrives(w: World, id: string) returns (step: Step)
    requires Inv(w) && Unused(w, id)
    ensures step.Arrive? && step.id != id && Inv(Do(w, step)) && Unused(Do(w, step), id)
    ensures var w1 := Do(w, step);
            |Open(w1, |w1.cache.objects|)| == |Open(w, |w.cache.objects|)| + 1
  {
    hide Do, Inv;
    var other := FreshId(w, id);
    var call := FreeNumber(w.calls.Keys);
    step := Arrive(call, other, other);
    DoKeeps(w, step);
    var w1 := Do(w, step);
    NewRequest(w, call, other);
    assert Open(w1, |w1.cache.objects|) == Open(w, |w.cache.objects|) + {|w.cache.objects|};
  }

  lemma NewRequest(w: World, call: nat, id: string)
    requires Inv(w) && Unused(w, id) && call !in w.calls
    ensures var w1 := Do(w, Arrive(call, id, id));
            && w1.cache.objects == w.cache.objects + [Entry(id, id, None)]
            && w1.calls == w.calls[call := Call(id, id, Executing(|w.cache.objects|))]
  {
  }

  lemma OnceSoFar(w: World, id: string, limit: nat)
    requires Retried(w, id, limit)
    ensures !RunTwice(w, id)
  {
  }

  lemma AtMostOnce(w: World, id: string, steps: seq<Step>)
    requires Inv(w) && Unused(w, id) && |Open(w, |w.cache.objects|)| + Others(steps, id) < LIMIT
    ensures !RunTwice(Runs(w, steps), id)
  {
    hide *;
    RetriesKeep(w, id, steps);
    OnceSoFar(Runs(w, steps), id, |Open(w, |w.cache.objects|)| + Others(steps, id));
  }

  lemma TwiceIsPossible(w: World, id: string, others: nat) returns (steps: seq<Step>)
    requires Inv(w) && Unused(w, id)
    ensures |Open(w, |w.cache.objects|)| + others >= LIMIT ==>
              Others(steps, id) == others && RunTwice(Runs(w, steps), id)
  {
    hide Inv, Unused, Runs, RunTwice, Open, Others, OnlyRetries;
    var first := OthersArrive(w, id, others);
    var second := RetryRunsAgain(Runs(w, first), id);
    RunsConcat(w, first, second);
    if |Open(w, |w.cache.objects|)| + others >= LIMIT {
      NoStrangers(second, id);
    }
    OthersConcat(first, second, id);
    steps := first + second;
  }

  /**
   At most once, end to end. However often a call is retried, and whatever completes in
   between, its handler runs at most once - if and only if fewer than 256 other requests
   were running when the call was first sent or arrive before its last attempt.
   */
  lemma RetriesRunOnceIff(w: World, id: string, others: nat)
    requires Inv(w) && Unused(w, id)
    ensures (forall steps :: Others(steps, id) <= others ==> !RunTwice(Runs(w, steps), id))
            <==> |Open(w, |w.cache.objects|)| + others < LIMIT
  {
    hide Inv, Unused, Runs, RunTwice, Open, Others;
    if |Open(w, |w.cache.objects|)| + others < LIMIT {
      forall steps | Others(steps, id) <= others ensures !RunTwice(Runs(w, steps), id) {
        AtMostOnce(w, id, steps);
      }
    } else {
      var steps := TwiceIsPossible(w, id, others);
    }
  }

  /** Then every answered attempt got the first response, and no other request was mistaken for it. */
  lemma RetriesAgree(w: World, id: string, steps: seq<Step>, m: nat, n: nat)
    requires Inv(w) && Unused(w, id) && |Open(w, |w.cache.objects|)| + Others(steps, id) < LIMIT
    requires AnsweredFor(Runs(w, steps), id, m) && AnsweredFor(Runs(w, steps), id, n)
    ensures Runs(w, steps).calls[m] == Runs(w, steps).calls[n]
  {
    hide Inv, Unused, Runs, RunTwice, Open, Others;
    RunsKeep(w, steps);
    AtMostOnce(w, id, steps);
    AnswersAgree(Runs(w, steps), id, m, n);
  }

  lemma AnswersAgree(w: World, id: string, m: nat, n: nat)
    requires Inv(w) && !RunTwice(w, id) && AnsweredFor(w, id, m) && AnsweredFor(w, id, n)
    ensures w.calls[m] == w.calls[n]
  {
    assert CallFits(w, m) && CallFits(w, n);
    hide CacheInv, OneExecutor;
  }

  predicate AnsweredFor(w: World, id: string, call: nat) {
    call in w.calls && w.calls[call].id == id && w.calls[call].stage.Answered?
  }

  // ---- Reuse of an id for another request ----

  /** An id designates the last request that was executed under it. */
  ghost predicate Newest(c: Cache) {
    forall id, k :: id in c.entries && c.entries[id] < k < |c.objects| ==> c.objects[k].id != id
  }

  lemma {:induction false} TrimKeeps(entries: map<string, nat>, completed: seq<string>)
    ensures var (e, _) := Trim(entries, completed);
            forall id :: id in e ==> id in entries && e[id] == entries[id]
    decreases |completed|
  {
    if |completed| > LIMIT {
      var rest := entries - {completed[0]};
      TrimKeeps(rest, completed[1..]);
      assert forall id :: id in rest ==> id in entries && rest[id] == entries[id];
      assert Trim(entries, completed) == Trim(rest, completed[1..]);
    }
  }

  lemma NewestStep(w: World, step: Step)
    requires Newest(w.cache)
    ensures Newest(Do(w, step).cache)
  {
    var c, c1 := w.cache, Do(w, step).cache;
    if step.Complete? && Completes(w, step.call) {
      TrimKeeps(c.entries, c.completed + [c.objects[w.calls[step.call].stage.serial].id]);
    }
    hide Trim;
    forall id, k | id in c1.entries && c1.entries[id] < k < |c1.objects| ensures c1.objects[k].id != id {
      assert id in c.entries && c.entries[id] < k < |c.objects| ==> c.objects[k].id != id;
    }
  }

  lemma {:induction false} RunsNewest(steps: seq<Step>)
    ensures Newest(Runs(START, steps).cache)
  {
    if steps != [] {
      RunsNewest(steps[..|steps| - 1]);
      NewestStep(Runs(START, steps[..|steps| - 1]), steps[|steps| - 1]);
      hide Do, Newest;
    }
  }

  /** Object k is the last request that was executed under this id. */
  predicate LastRun(c: Cache, id: string, k: nat) {
    k < |c.objects| && c.objects[k].id == id && forall j :: k < j < |c.objects| ==> c.objects[j].id != id
  }

  /**
   In every run: a request is refused as a reuse if and only if its id is running or recently
   completed and its fingerprint is not that of the last request executed under the id; the
   refusal has no effect on the cache.
   */
  lemma DifferentNeverRuns(steps: seq<Step>, id: string, fingerprint: string, k: nat)
    requires id != "" && LastRun(Runs(START, steps).cache, id, k)
    ensures var w := Runs(START, steps);
            var (c, a) := Admit(w.cache, id, fingerprint);
            && (a.IdReuse? <==>
                  (InFlight(w.cache, id) || id in Recent(w.history)) && fingerprint != w.cache.objects[k].fingerprint)
            && (a.IdReuse? ==> c == w.cache)
  {
    ReachableInv(steps);
    RunsNewest(steps);
    hide Runs;
    var w := Runs(START, steps);
    KeysAreExact(w.cache, w.history);
    assert id in w.cache.entries ==> w.cache.entries[id] == k;
    hide InFlight, Recent, OneExecutor, CallFits;
  }
}
