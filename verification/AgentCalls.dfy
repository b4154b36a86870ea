/**
 The agent's calls to the service: fresh request ids, at most three deliveries of each, and
 what the service's replay cache makes of them.
 */
module AgentCalls {
  import opened Common
  import opened Text
  import opened IpcReplay

  // ---- Request ids ----

  /** The decimal form of a number, as %d prints it. */
  function Decimal(n: nat): (s: string)
    ensures Digits(s) && Value(s) == n
  {
    var last := [(n % 10 + '0' as int) as char];
    if n < 10 then
      assert last[..0] == "" && Value(last) == 10 * Value(last[..0]) + (last[0] as int - '0' as int);
      last
    else
      var s := Decimal(n / 10) + last;
      assert s[..|s| - 1] == Decimal(n / 10);
      s
  }

  const AGENT := "agent"

  /** prepareServiceRequest: the id of call number n of a session. */
  function Name(session: string, n: nat): string {
    AGENT + ['-'] + session + ['-'] + Decimal(n)
  }

  lemma LastDash(a: string, m: string, b: string, n: string)
    requires a + ['-'] + m == b + ['-'] + n && '-' !in m && '-' !in n
    ensures a == b && m == n
  {
    var s, t := a + ['-'] + m, b + ['-'] + n;
    assert s[|a|] == '-' && t[|b|] == '-';
    assert forall k :: |a| < k < |s| ==> s[k] == m[k - |a| - 1];
    assert forall k :: |b| < k < |t| ==> t[k] == n[k - |b| - 1];
    assert |a| == |b|;
    assert a == s[..|a|] && b == t[..|b|];
    assert m == s[|a| + 1..] && n == t[|b| + 1..];
  }

  /** Two calls never share an id, whichever session they belong to. */
  lemma NamesAreDistinct(s: string, m: nat, t: string, n: nat)
    ensures Name(s, m) == Name(t, n) <==> s == t && m == n
  {
    if Name(s, m) == Name(t, n) {
      var a, b := AGENT + ['-'] + s, AGENT + ['-'] + t;
      assert forall d: string :: Digits(d) ==> '-' !in d;
      LastDash(a, Decimal(m), b, Decimal(n));
      assert a[6..] == s && b[6..] == t;
      assert Value(Decimal(m)) == Value(Decimal(n));
    }
  }

  // ---- The agent's retry loop ----

  /** What happens to one attempt; a send that reports failure may have delivered the request. */
  datatype Attempt = Attempt(
    over: bool, connects: bool, deadline: bool, sends: bool, delivered: bool, reply: Option<string>, waits: bool)

  datatype Outcome = Response(reply: string) | ContextOver | GaveUp

  /** The channel is open at attempt i: only the first attempt can find one from an earlier call. */
  predicate Linked(attempts: seq<Attempt>, connected: bool, i: nat)
    requires i < |attempts|
  {
    (connected && i == 0) || attempts[i].connects
  }

  /** Attempt i reaches the service, or may have. */
  predicate Delivers(attempts: seq<Attempt>, connected: bool, i: nat)
    requires i < |attempts|
  {
    var a := attempts[i];
    !a.over && Linked(attempts, connected, i) && a.deadline && (a.sends || a.delivered)
  }

  predicate Succeeds(attempts: seq<Attempt>, connected: bool, i: nat)
    requires i < |attempts|
  {
    var a := attempts[i];
    !a.over && Linked(attempts, connected, i) && a.deadline && a.sends && a.reply.Some?
  }

  /** Attempt i fails while the caller still waits; a refused deadline is followed by no pause. */
  predicate Fails(attempts: seq<Attempt>, connected: bool, i: nat)
    requires i < |attempts|
  {
    var a := attempts[i];
    !a.over && !Succeeds(attempts, connected, i) && (a.waits || (Linked(attempts, connected, i) && !a.deadline))
  }

  /** The caller's context ends during attempt i. */
  predicate Ends(attempts: seq<Attempt>, connected: bool, i: nat)
    requires i < |attempts|
  {
    !Succeeds(attempts, connected, i) && !Fails(attempts, connected, i)
  }

  /** The first k attempts fail. */
  predicate FailsBefore(attempts: seq<Attempt>, connected: bool, k: nat)
    requires k <= |attempts|
  {
    forall i :: 0 <= i < k ==> Fails(attempts, connected, i)
  }

  /** Attempt k is the one that is answered. */
  predicate AnsweredAt(attempts: seq<Attempt>, connected: bool, k: nat)
    requires k < |attempts|
  {
    FailsBefore(attempts, connected, k) && Succeeds(attempts, connected, k)
  }

  lemma FailsNone(attempts: seq<Attempt>, connected: bool)
    ensures FailsBefore(attempts, connected, 0)
  {
  }

  lemma FailsNext(attempts: seq<Attempt>, connected: bool, k: nat)
    requires k < |attempts| && FailsBefore(attempts, connected, k)
    ensures Fails(attempts, connected, k) ==> FailsBefore(attempts, connected, k + 1)
  {
  }

  /** At most one attempt is answered, and the attempts made tell which. */
  lemma AnsweredAtLast(attempts: seq<Attempt>, connected: bool, last: nat, k: nat)
    requires last <= |attempts| && FailsBefore(attempts, connected, last)
    requires last < |attempts| ==> !Fails(attempts, connected, last)
    requires k < |attempts|
    ensures AnsweredAt(attempts, connected, k) <==> k == last && Succeeds(attempts, connected, k)
  {
    assert k < last ==> Fails(attempts, connected, k);
  }

  function Deliveries(attempts: seq<Attempt>, connected: bool, k: nat): nat
    requires k <= |attempts|
  {
    if k == 0 then 0
    else Deliveries(attempts, connected, k - 1) + if Delivers(attempts, connected, k - 1) then 1 else 0
  }

  class Agent {
    const session: string
    var connected: bool
    var sequence: nat

    constructor (session: string)
      ensures this.session == session && sequence == 0 && !connected
    {
      this.session := session;
      connected, sequence := false, 0;
    }

    /**
     SendToServiceContext: a fresh id, and at most three attempts that all carry it. The call
     is answered exactly when one of them succeeds and those before it fail in time; an answer
     keeps the channel, a lost one drops it.
     */
    method SendToService(attempts: seq<Attempt>) returns (sent: seq<string>, o: Outcome, ghost last: nat)
      requires |attempts| == 3
      modifies this
      ensures sequence == old(sequence) + 1
      ensures forall i :: 0 <= i < |sent| ==> sent[i] == Name(session, sequence)
      ensures last <= 3 && FailsBefore(attempts, old(connected), last)
      ensures |sent| == Deliveries(attempts, old(connected), if last < 3 then last + 1 else 3)
      ensures o.Response? <==> last < 3 && Succeeds(attempts, old(connected), last)
      ensures o.Response? ==> Some(o.reply) == attempts[last].reply && sent != [] && connected
      ensures o.ContextOver? <==> last < 3 && Ends(attempts, old(connected), last)
      ensures o.GaveUp? <==> last == 3
      ensures !o.Response? && connected ==> last == 0 && old(connected) && attempts[0].over
    {
      ghost var c := connected;
      hide Name, FailsBefore;
      FailsNone(attempts, c);
      sequence := sequence + 1;
      var id := Name(session, sequence);
      sent, last := [], 0;
      for attempt := 0 to 3
        invariant last == attempt && FailsBefore(attempts, c, attempt)
        invariant sequence == old(sequence) + 1
        invariant connected <==> attempt == 0 && c
        invariant forall i :: 0 <= i < |sent| ==> sent[i] == id
        invariant |sent| == Deliveries(attempts, c, attempt)
      {
        var a := attempts[attempt];
        FailsNext(attempts, c, attempt);
        if a.over {
          return sent, ContextOver, last;
        }
        if !connected {
          if !a.connects {
            if !a.waits {
              return sent, ContextOver, last;
            }
            last := last + 1;
            continue;
          }
          connected := true;
        }
        if !a.deadline {
          connected := false;
          last := last + 1;
          continue;
        }
        if a.sends || a.delivered {
          sent := sent + [id];
        }
        if !a.sends || a.reply.None? {
          connected := false;
          if !a.waits {
            return sent, ContextOver, last;
          }
          last := last + 1;
          continue;
        }
        return sent, Response(a.reply.value), last;
      }
      o := GaveUp;
    }
  }

  // ---- One call, from the agent to the service ----

  predicate NoArrival(steps: seq<Step>, id: string) {
    forall i :: 0 <= i < |steps| && steps[i].Arrive? ==> steps[i].id != id
  }

  /** A request is executed only after it arrived. */
  lemma {:induction false} NeverArrived(w: World, steps: seq<Step>, id: string)
    requires NoArrival(steps, id)
    ensures RunTwice(Runs(w, steps), id) ==> RunTwice(w, id)
    ensures Unused(w, id) ==> Unused(Runs(w, steps), id)
  {
    if steps != [] {
      NeverArrived(w, steps[..|steps| - 1], id);
      StepStartsNothing(Runs(w, steps[..|steps| - 1]), steps[|steps| - 1], id);
      hide Do, RunTwice, Unused;
    }
  }

  lemma StepStartsNothing(w: World, step: Step, id: string)
    requires step.Arrive? ==> step.id != id
    ensures RunTwice(Do(w, step), id) ==> RunTwice(w, id)
    ensures Unused(w, id) ==> Unused(Do(w, step), id)
  {
    var w1 := Do(w, step);
    hide Trim;
    var n := |w.cache.objects|;
    assert n <= |w1.cache.objects| <= n + 1;
    assert forall k :: 0 <= k < n ==> w1.cache.objects[k].id == w.cache.objects[k].id;
    assert |w1.cache.objects| == n + 1 ==> w1.cache.objects[n].id != id;
    hide Do;
  }

  function Running(w: World): nat {
    |Open(w, |w.cache.objects|)|
  }

  lemma NewIsUnused(before: seq<Step>, id: string)
    requires id != "" && NoArrival(before, id)
    ensures Inv(Runs(START, before)) && Unused(Runs(START, before), id)
  {
    ReachableInv(before);
    NeverArrived(START, before, id);
    hide Inv, Runs;
  }

  /**
   The handler of an agent's call runs at most once, however its deliveries, the other requests
   and the completions interleave - if and only if the requests running when its first delivery
   arrives and the others that arrive until its last one are fewer than 256 together. Requests
   with a later number may well arrive first: the number is taken before the lock.
   */
  lemma CallRunsOnceIff(before: seq<Step>, session: string, number: nat, others: nat)
    requires NoArrival(before, Name(session, number))
    ensures var id := Name(session, number);
            (forall during :: Others(during, id) <= others ==> !RunTwice(Runs(START, before + during), id))
            <==> Running(Runs(START, before)) + others < LIMIT
  {
    var id := Name(session, number);
    NewIsUnused(before, id);
    RetriesRunOnceIff(Runs(START, before), id, others);
    forall during ensures Runs(START, before + during) == Runs(Runs(START, before), during) {
      RunsConcat(START, before, during);
    }
    hide Inv, Unused, Runs, Open, Others, RunTwice, Name, NoArrival;
  }

  /** All deliveries of a request fall between p and q. */
  predicate Within(steps: seq<Step>, id: string, p: nat, q: nat) {
    p <= q <= |steps| && NoArrival(steps[..p], id) && NoArrival(steps[q..], id)
  }

  /** What happens after the last delivery, however much it is, does not matter. */
  lemma RunsOnceWithin(steps: seq<Step>, id: string, p: nat, q: nat)
    requires id != "" && Within(steps, id, p, q)
    requires Running(Runs(START, steps[..p])) + Others(steps[p..q], id) < LIMIT
    ensures !RunTwice(Runs(START, steps), id)
  {
    hide Runs, Open, Others, RunTwice, Do;
    var w := Runs(START, steps[..p]);
    ReachableInv(steps[..p]);
    NeverArrived(START, steps[..p], id);
    AtMostOnce(w, id, steps[p..q]);
    RunsConcat(START, steps[..p], steps[p..q]);
    assert steps[..p] + steps[p..q] == steps[..q];
    NeverArrived(Runs(START, steps[..q]), steps[q..], id);
    RunsConcat(START, steps[..q], steps[q..]);
    assert steps[..q] + steps[q..] == steps;
  }

  /** The id was executed once, with this response. */
  ghost predicate OnlyRun(w: World, id: string, response: string) {
    exists k :: 0 <= k < |w.cache.objects| && OnlyRunAt(w, id, response, k)
  }

  predicate OnlyRunAt(w: World, id: string, response: string, k: nat)
    requires k < |w.cache.objects|
  {
    && w.cache.objects[k].id == id && w.cache.objects[k].response == Some(response)
    && forall j :: 0 <= j < |w.cache.objects| && j != k ==> w.cache.objects[j].id != id
  }

  /** Each reply that an attempt receives is what the service answered to a delivery of this id. */
  ghost predicate Honest(w: World, id: string, attempts: seq<Attempt>) {
    forall i :: 0 <= i < |attempts| && attempts[i].reply.Some? ==>
      exists m: nat :: AnsweredFor(w, id, m) && w.calls[m].stage.response == attempts[i].reply.value
  }

  lemma AnswerIsTheRun(w: World, id: string, m: nat)
    requires Inv(w) && !RunTwice(w, id) && AnsweredFor(w, id, m)
    ensures OnlyRun(w, id, w.calls[m].stage.response)
  {
    assert CallFits(w, m);
    hide CacheInv, OneExecutor;
    assert OnlyRunAt(w, id, w.calls[m].stage.response, w.calls[m].stage.serial);
  }

  /**
   One agent call: the response it returns is that of the only execution of its request,
   whichever of its attempts is answered.
   */
  lemma CallGetsItsRun(steps: seq<Step>, session: string, number: nat, p: nat, q: nat,
                       attempts: seq<Attempt>, connected: bool, k: nat)
    requires Within(steps, Name(session, number), p, q)
    requires Running(Runs(START, steps[..p])) + Others(steps[p..q], Name(session, number)) < LIMIT
    requires Honest(Runs(START, steps), Name(session, number), attempts)
    requires k < |attempts| && AnsweredAt(attempts, connected, k)
    ensures OnlyRun(Runs(START, steps), Name(session, number), attempts[k].reply.value)
  {
    var id, w := Name(session, number), Runs(START, steps);
    RunsOnceWithin(steps, id, p, q);
    ReachableInv(steps);
    hide Inv, Runs, Others, Open, RunTwice, OnlyRun, AnsweredFor, Name;
    var m: nat :| AnsweredFor(w, id, m) && w.calls[m].stage.response == attempts[k].reply.value;
    AnswerIsTheRun(w, id, m);
  }
}
