/**
 Who comes before whom at the coordinator, written out on requests: the urgency of their
 origins, and the area that their operations or fault texts name.
 */
module CoordinatorPriority {
  import opened ConnectionPolicy
  import opened Coordinator

  /** Shutdown, then user and tray alike, then self-healing, then startup, then the scheduler. */
  predicate MoreUrgent(a: Origin, b: Origin) {
    match a
    case Shutdown => b != Shutdown
    case User => b in {SelfHealing, Startup, Scheduler}
    case Tray => b in {SelfHealing, Startup, Scheduler}
    case SelfHealing => b in {Startup, Scheduler}
    case Startup => b == Scheduler
    case Scheduler => false
  }

  ghost predicate Occurs(part: string, text: string) {
    exists before, after :: text == before + part + after
  }

  lemma OccursIsContains(part: string, text: string)
    ensures Occurs(part, text) <==> Contains(text, part)
  {
    if before, after :| text == before + part + after {
      assert text[|before|..] == part + after;
      assert part <= text[|before|..];
    }
    if i :| 0 <= i <= |text| && part <= text[i..] {
      assert text == text[..i] + part + text[i..][|part|..];
    }
  }

  const ROUTING_WORDS := ["node", "outbound", "policy", "runtime"]
  const SOURCE_WORDS := ["source", "subscription"]

  ghost predicate OccursOne(words: seq<string>, text: string) {
    exists i :: 0 <= i < |words| && Occurs(words[i], text)
  }

  /** Recovery and self-healing name their area in the text of the fault. */
  predicate Repairs(r: Request) {
    r.operation in {Recovery, SelfHeal}
  }

  /** The area that a request controls; core words come before routing words before source words. */
  ghost predicate Controls(fold: string -> string, r: Request, d: Domain) {
    var text := fold(r.faultDomain);
    match d
    case Core => r.operation in {CoreSwitch, CoreUpdate} || (Repairs(r) && Occurs("core", text))
    case Routing =>
      || r.operation in {NodeSwitch, PolicyChange}
      || (Repairs(r) && !Occurs("core", text) && OccursOne(ROUTING_WORDS, text))
    case Source =>
      || r.operation == SourceMutation
      || (Repairs(r) && !Occurs("core", text) && !OccursOne(ROUTING_WORDS, text) && OccursOne(SOURCE_WORDS, text))
    case Capture =>
      || r.operation == CaptureSwitch
      || (Repairs(r) && !Occurs("core", text) && !OccursOne(ROUTING_WORDS, text) && !OccursOne(SOURCE_WORDS, text))
  }

  lemma WordsAreContained(text: string)
    ensures Occurs("core", text) <==> Contains(text, "core")
    ensures OccursOne(ROUTING_WORDS, text) <==>
            Contains(text, "node") || Contains(text, "outbound") || Contains(text, "policy") || Contains(text, "runtime")
    ensures OccursOne(SOURCE_WORDS, text) <==> Contains(text, "source") || Contains(text, "subscription")
  {
    OccursIsContains("core", text);
    forall i | 0 <= i < |ROUTING_WORDS| ensures Occurs(ROUTING_WORDS[i], text) <==> Contains(text, ROUTING_WORDS[i]) {
      OccursIsContains(ROUTING_WORDS[i], text);
    }
    forall i | 0 <= i < |SOURCE_WORDS| ensures Occurs(SOURCE_WORDS[i], text) <==> Contains(text, SOURCE_WORDS[i]) {
      OccursIsContains(SOURCE_WORDS[i], text);
    }
    hide Occurs, Contains;
    assert ROUTING_WORDS[0] == "node" && ROUTING_WORDS[1] == "outbound";
    assert ROUTING_WORDS[2] == "policy" && ROUTING_WORDS[3] == "runtime";
    assert SOURCE_WORDS[0] == "source" && SOURCE_WORDS[1] == "subscription";
  }

  /** The policy puts every request into exactly the area that it controls. */
  lemma DomainIsArea(fold: string -> string, r: Request, d: Domain)
    ensures PolicyFor(fold, r).domain == d <==> Controls(fold, r, d)
  {
    WordsAreContained(fold(r.faultDomain));
    hide Occurs, OccursOne, Contains;
  }

  /** The policy ranks requests by the urgency of their origin, whatever they do. */
  lemma RankIsUrgency(fold: string -> string, a: Request, b: Request)
    ensures PolicyFor(fold, a).rank > PolicyFor(fold, b).rank <==> MoreUrgent(a.origin, b.origin)
    ensures PolicyFor(fold, a).rank == PolicyFor(fold, b).rank <==>
            !MoreUrgent(a.origin, b.origin) && !MoreUrgent(b.origin, a.origin)
  {
    hide DomainFor;
  }

  /** The intent and the priority that everybody sees. */
  lemma PublishedPolicy(fold: string -> string, r: Request)
    ensures var p := PolicyFor(fold, r);
            && (r.origin == Shutdown ==> p.intent == Safety && p.rank == 500)
            && (r.origin in {User, Tray} ==> p.intent == Interactive && p.rank == 400)
            && (r.origin == SelfHealing ==> p.intent == Recovering && p.rank == 300)
            && (r.origin == Startup ==> p.intent == StartingUp && p.rank == 200)
            && (r.origin == Scheduler ==> p.intent == Background && p.rank == 100)
  {
    hide DomainFor;
  }

  /** A waiter as Begin makes it. */
  predicate Judged(fold: string -> string, w: Waiter) {
    w.policy == PolicyFor(fold, w.request)
  }

  /** Of two waiters the more urgent comes first, and of equally urgent ones the earlier. */
  lemma BeforeIff(fold: string -> string, a: Waiter, b: Waiter)
    requires Judged(fold, a) && Judged(fold, b)
    ensures Before(a, b) <==>
            || MoreUrgent(a.request.origin, b.request.origin)
            || (!MoreUrgent(b.request.origin, a.request.origin) && a.sequence < b.sequence)
  {
    RankIsUrgency(fold, a.request, b.request);
    hide PolicyFor;
  }

  /** A request drives a waiter out if and only if it is more urgent and controls the same area. */
  lemma SupersedesIff(fold: string -> string, next: Waiter, w: Waiter)
    requires Judged(fold, next) && Judged(fold, w)
    ensures Supersedes(next, w) <==>
            && MoreUrgent(next.request.origin, w.request.origin)
            && exists d :: Controls(fold, next.request, d) && Controls(fold, w.request, d)
  {
    RankIsUrgency(fold, next.request, w.request);
    forall d ensures Controls(fold, next.request, d) <==> next.policy.domain == d {
      DomainIsArea(fold, next.request, d);
    }
    forall d ensures Controls(fold, w.request, d) <==> w.policy.domain == d {
      DomainIsArea(fold, w.request, d);
    }
    assert Controls(fold, next.request, next.policy.domain) && Controls(fold, w.request, w.policy.domain);
    hide PolicyFor, Controls, MoreUrgent;
  }

  /** A shutdown drives a waiting click of its area out, and is never driven out itself. */
  lemma ShutdownWins(fold: string -> string, shutdown: Waiter, other: Waiter)
    requires Judged(fold, shutdown) && Judged(fold, other) && shutdown.request.origin == Shutdown
    ensures !Supersedes(other, shutdown)
    ensures other.request.origin != Shutdown ==> Before(shutdown, other)
    ensures other.request.origin != Shutdown && shutdown.policy.domain == other.policy.domain ==> Supersedes(shutdown, other)
  {
    RankIsUrgency(fold, shutdown.request, other.request);
    RankIsUrgency(fold, other.request, shutdown.request);
    hide PolicyFor;
  }
}
