/**
 Read-only observation of the journalled resources: decoding the batched inspection
 answer, and the counters derived from it.
 */
module NetworkObservation {
  import opened Common
  import opened NetworkJournal

  // ---- The batch decoder ----

  datatype Item = Item(index: int, state: string, error: string)

  datatype DecodeError = WrongCount | BadIndex | DuplicateIndex | BadState

  datatype Decoded = Ordered(items: seq<Item>) | Rejected(error: DecodeError)

  const STATES := ["EXACT", "MISSING", "CONFLICT"]

  function Clean(trim: string -> string, item: Item): Item {
    item.(state := trim(item.state), error := trim(item.error))
  }

  predicate ValidState(trim: string -> string, item: Item) {
    trim(item.error) == "" ==> trim(item.state) in STATES
  }

  /** What makes the loop reject the answer at position p, if it gets that far. */
  function Flaw(trim: string -> string, results: seq<Item>, p: nat): Option<DecodeError>
    requires p < |results|
  {
    if results[p].index < 0 || results[p].index >= |results| then Some(BadIndex)
    else if exists q :: 0 <= q < p && results[q].index == results[p].index then Some(DuplicateIndex)
    else if !ValidState(trim, results[p]) then Some(BadState)
    else None
  }

  /** Every result sits, trimmed, in the slot its index names. */
  ghost predicate Sorted(trim: string -> string, results: seq<Item>, items: seq<Item>) {
    && |items| == |results|
    && forall p :: 0 <= p < |results| ==>
         0 <= results[p].index < |items| && items[results[p].index] == Clean(trim, results[p])
  }

  predicate Readable(trim: string -> string, item: Item) {
    trim(item.error) != "" || trim(item.state) in {"EXACT", "MISSING", "CONFLICT"}
  }

  /** An answer has no flaw at all if its indices are those of the actions, each once, and each result can be read. */
  lemma FlawlessIff(trim: string -> string, results: seq<Item>)
    ensures (forall p :: 0 <= p < |results| ==> Flaw(trim, results, p) == None) <==>
            && (forall p :: 0 <= p < |results| ==> 0 <= results[p].index < |results| && Readable(trim, results[p]))
            && (forall p, q :: 0 <= p < q < |results| ==> results[p].index != results[q].index)
  {
    assert forall s :: s in STATES <==> s == STATES[0] || s == STATES[1] || s == STATES[2];
    if forall p :: 0 <= p < |results| ==> Flaw(trim, results, p) == None {
      forall p, q | 0 <= p < q < |results| ensures results[p].index != results[q].index {
        assert Flaw(trim, results, q) == None;
      }
      forall p | 0 <= p < |results| ensures 0 <= results[p].index < |results| && Readable(trim, results[p]) {
        assert Flaw(trim, results, p) == None;
      }
    }
  }

  /** The errors by name, in the order of the tests. */
  lemma FlawIs(trim: string -> string, results: seq<Item>, p: nat)
    requires p < |results|
    ensures var inRange := 0 <= results[p].index < |results|;
            var again := exists q :: 0 <= q < p && results[q].index == results[p].index;
            && (Flaw(trim, results, p) == Some(BadIndex) <==> !inRange)
            && (Flaw(trim, results, p) == Some(DuplicateIndex) <==> inRange && again)
            && (Flaw(trim, results, p) == Some(BadState) <==> inRange && !again && !Readable(trim, results[p]))
  {
    assert forall s :: s in STATES <==> s == STATES[0] || s == STATES[1] || s == STATES[2];
  }

  method DecodeBatch(trim: string -> string, results: seq<Item>, expected: nat) returns (r: Decoded)
    ensures r.Ordered? <==> |results| == expected && forall p :: 0 <= p < expected ==> Flaw(trim, results, p) == None
    ensures r.Ordered? ==> Sorted(trim, results, r.items)
    ensures r.Rejected? && |results| != expected ==> r.error == WrongCount
    ensures r.Rejected? && |results| == expected ==>
              exists p :: 0 <= p < expected && Flaw(trim, results, p) == Some(r.error)
                          && forall q :: 0 <= q < p ==> Flaw(trim, results, q) == None
  {
    if |results| != expected {
      return Rejected(WrongCount);
    }
    hide Clean, ValidState;
    var ordered := new Item[expected](_ => Item(0, "", ""));
    var seen := new bool[expected](_ => false);
    for p := 0 to expected
      invariant forall q :: 0 <= q < p ==> Flaw(trim, results, q) == None
      invariant forall k :: 0 <= k < expected ==> (seen[k] <==> exists q :: 0 <= q < p && results[q].index == k)
      invariant forall q :: 0 <= q < p ==>
        0 <= results[q].index < expected && ordered[results[q].index] == Clean(trim, results[q])
    {
      var item := results[p];
      ghost var flaw := Flaw(trim, results, p);
      if item.index < 0 || item.index >= expected {
        return Rejected(BadIndex);
      }
      if seen[item.index] {
        return Rejected(DuplicateIndex);
      }
      if !ValidState(trim, item) {
        return Rejected(BadState);
      }
      seen[item.index] := true;
      ordered[item.index] := Clean(trim, item);
    }
    r := Ordered(ordered[..]);
  }

  /** The slots of an answer of length n. */
  ghost function Slots(n: nat): (s: set<int>)
    ensures |s| == n && forall i :: i in s <==> 0 <= i < n
  {
    if n == 0 then {} else Slots(n - 1) + {n - 1}
  }

  /** n distinct indices below n hit every index: an accepted answer leaves no slot empty. */
  lemma EverySlotFilled(trim: string -> string, results: seq<Item>, k: nat)
    requires forall p :: 0 <= p < |results| ==> Flaw(trim, results, p) == None
    requires k < |results|
    ensures exists p :: (0 <= p < |results| && results[p].index == k
                         && forall q :: 0 <= q < |results| && results[q].index == k ==> q == p)
  {
    var n := |results|;
    var hit := set p | 0 <= p < n :: results[p].index;
    var slots := Slots(n);
    IndicesCount(trim, results, n);
    forall p | 0 <= p < n ensures results[p].index in slots {
      assert Flaw(trim, results, p) == None;
    }
    if k !in hit {
      assert hit <= slots - {k};
      SubsetCard(hit, slots - {k});
    }
    var p :| 0 <= p < n && results[p].index == k;
    forall q | 0 <= q < n && results[q].index == k ensures q == p {
      assert Flaw(trim, results, p) == None && Flaw(trim, results, q) == None;
    }
  }

  lemma {:induction false} IndicesCount(trim: string -> string, results: seq<Item>, m: nat)
    requires forall p :: 0 <= p < |results| ==> Flaw(trim, results, p) == None
    requires m <= |results|
    ensures |set p | 0 <= p < m :: results[p].index| == m
  {
    var now := set p | 0 <= p < m :: results[p].index;
    if m == 0 {
      assert now == {};
    } else {
      var before := set p | 0 <= p < m - 1 :: results[p].index;
      IndicesCount(trim, results, m - 1);
      assert now == before + {results[m - 1].index};
      assert Flaw(trim, results, m - 1) == None;
      assert results[m - 1].index !in before;
    }
  }

  // ---- The counters ----

  datatype Group = Routes | NrptRules | FirewallRules

  datatype Finding = Existing | Missing | Conflicting

  datatype Counts = Counts(owned: nat, existing: nat, missing: nat, conflict: nat) {
    function Seen(): nat {
      existing + missing + conflict
    }
  }

  datatype Totals = Totals(owned: nat, preexisting: nat, pending: nat, missing: nat, conflicting: nat)

  function GroupOf(r: Resource): Group {
    match r
    case Route(_, _, _, _, _, _, _) => Routes
    case Nrpt(_, _, _) => NrptRules
    case _ => FirewallRules
  }

  /** What can be counted over the actions of a journal. */
  datatype Query = Created | Unfinished | InGroup(group: Group) | CreatedIn(group: Group)

  predicate Holds(q: Query, a: Action) {
    match q
    case Created => a.created
    case Unfinished => a.status != Applied
    case InGroup(g) => GroupOf(a.resource) == g
    case CreatedIn(g) => a.created && GroupOf(a.resource) == g
  }

  /** How many of the first n actions satisfy q. */
  function Tally(actions: seq<Action>, q: Query, n: nat): nat
    requires n <= |actions|
  {
    if n == 0 then 0
    else Tally(actions, q, n - 1) + if Holds(q, actions[n - 1]) then 1 else 0
  }

  function All(actions: seq<Action>, q: Query): nat {
    Tally(actions, q, |actions|)
  }

  lemma {:induction false} TallyPrefix(actions: seq<Action>, more: seq<Action>, q: Query, n: nat)
    requires n <= |actions| <= |more| && more[..|actions|] == actions
    ensures Tally(actions, q, n) == Tally(more, q, n)
  {
    if n > 0 {
      TallyPrefix(actions, more, q, n - 1);
      assert actions[n - 1] == more[..|actions|][n - 1];
    }
  }

  lemma AllSnoc(actions: seq<Action>, a: Action, q: Query)
    ensures All(actions + [a], q) == All(actions, q) + if Holds(q, a) then 1 else 0
  {
    TallyPrefix(actions, actions + [a], q, |actions|);
  }

  lemma {:induction false} TallyTail(actions: seq<Action>, q: Query, n: nat)
    requires 0 < n <= |actions|
    ensures Tally(actions, q, n) == Tally(actions[1..], q, n - 1) + if Holds(q, actions[0]) then 1 else 0
  {
    if n > 1 {
      TallyTail(actions, q, n - 1);
    }
  }

  /** Every action lies in exactly one group. */
  lemma {:induction false} GroupsPartition(actions: seq<Action>, n: nat)
    requires n <= |actions|
    ensures Tally(actions, InGroup(Routes), n) + Tally(actions, InGroup(NrptRules), n)
            + Tally(actions, InGroup(FirewallRules), n) == n
  {
    if n > 0 {
      GroupsPartition(actions, n - 1);
    }
  }

  /** applyObservationState: a missing resource that Navo did not create is a conflict. */
  function Judge(state: string, created: bool): Finding {
    if state == "EXACT" then Existing
    else if state == "MISSING" && created then Missing
    else Conflicting
  }

  /** The finding for the i-th inspected action: no answer and an item error are conflicts. */
  function FindingOf(prepared: seq<Action>, decoded: Decoded, i: nat): (Group, Finding)
    requires i < |prepared| && (decoded.Ordered? ==> |decoded.items| == |prepared|)
  {
    (GroupOf(prepared[i].resource),
     if decoded.Rejected? || decoded.items[i].error != "" then Conflicting
     else Judge(decoded.items[i].state, prepared[i].created))
  }

  /** The findings for the first n inspected actions, with multiplicity. */
  function Findings(prepared: seq<Action>, decoded: Decoded, n: nat): multiset<(Group, Finding)>
    requires n <= |prepared| && (decoded.Ordered? ==> |decoded.items| == |prepared|)
  {
    if n == 0 then multiset{} else Findings(prepared, decoded, n - 1) + multiset{FindingOf(prepared, decoded, n - 1)}
  }

  function Scriptable(actions: seq<Action>, scriptable: Resource -> bool): seq<Action> {
    if actions == [] then []
    else
      var n := |actions| - 1;
      Scriptable(actions[..n], scriptable) + if scriptable(actions[n].resource) then [actions[n]] else []
  }

  lemma ScriptableStep(actions: seq<Action>, a: Action, scriptable: Resource -> bool)
    ensures Scriptable(actions + [a], scriptable) ==
            Scriptable(actions, scriptable) + if scriptable(a.resource) then [a] else []
  {
  }

  /** The answer to the one batched inspection command. */
  datatype Answer = Unreachable | Reply(results: seq<Item>)

  /** The inspection is run for at least one action, and answers each of them once and readably. */
  predicate Accepted(prepared: seq<Action>, trim: string -> string, answer: Answer) {
    && prepared != [] && answer.Reply? && |answer.results| == |prepared|
    && forall p :: 0 <= p < |prepared| ==> Flaw(trim, answer.results, p) == None
  }

  /** The counters of the three resource groups. */
  datatype Board = Board(routes: Counts, nrpt: Counts, firewall: Counts) {
    function At(g: Group): Counts {
      match g
      case Routes => routes
      case NrptRules => nrpt
      case FirewallRules => firewall
    }

    function With(g: Group, c: Counts): (b: Board)
      ensures b.At(g) == c && forall h :: h != g ==> b.At(h) == At(h)
    {
      match g
      case Routes => this.(routes := c)
      case NrptRules => this.(nrpt := c)
      case FirewallRules => this.(firewall := c)
    }
  }

  /** The journal totals are the sums over the resource groups. */
  ghost predicate Balanced(b: Board, t: Totals) {
    && t.owned == b.routes.owned + b.nrpt.owned + b.firewall.owned
    && t.missing == b.routes.missing + b.nrpt.missing + b.firewall.missing
    && t.conflicting == b.routes.conflict + b.nrpt.conflict + b.firewall.conflict
  }

  /** Since `t0`, each action seen was counted as owned or pre-existing, and as pending or not. */
  ghost predicate Ledger(t0: Totals, t: Totals, seen: seq<Action>) {
    && t.owned + t.preexisting == t0.owned + t0.preexisting + |seen|
    && t.owned == t0.owned + All(seen, Created)
    && t.pending == t0.pending + All(seen, Unfinished)
  }

  /** Since `b0`, each action of the group was either counted once or is still waiting. */
  ghost predicate GroupAccounted(b0: Board, b: Board, g: Group, seen: seq<Action>, waiting: seq<Action>) {
    && b.At(g).owned == b0.At(g).owned + All(seen, CreatedIn(g))
    && b.At(g).Seen() + All(waiting, InGroup(g)) == b0.At(g).Seen() + All(seen, InGroup(g))
  }

  ghost predicate Grouped(b0: Board, b: Board, seen: seq<Action>, waiting: seq<Action>) {
    && GroupAccounted(b0, b, Routes, seen, waiting)
    && GroupAccounted(b0, b, NrptRules, seen, waiting)
    && GroupAccounted(b0, b, FirewallRules, seen, waiting)
  }

  /** The state between two rounds of either loop. */
  ghost predicate Accounted(b0: Board, t0: Totals, b: Board, t: Totals, seen: seq<Action>, waiting: seq<Action>) {
    Ledger(t0, t, seen) && Grouped(b0, b, seen, waiting) && Balanced(b, t)
  }

  /** How the finding counters moved from `from` to `to` by the findings `f`. */
  ghost predicate GroupMoved(g: Group, from: Board, to: Board, f: multiset<(Group, Finding)>) {
    && to.At(g).existing == from.At(g).existing + f[(g, Existing)]
    && to.At(g).missing == from.At(g).missing + f[(g, Missing)]
    && to.At(g).conflict == from.At(g).conflict + f[(g, Conflicting)]
  }

  ghost predicate Moved(from: Board, to: Board, f: multiset<(Group, Finding)>) {
    GroupMoved(Routes, from, to, f) && GroupMoved(NrptRules, from, to, f) && GroupMoved(FirewallRules, from, to, f)
  }

  /** Nothing but conflicts was found on the way from `from` to `to`. */
  ghost predicate OnlyConflicts(from: Board, to: Board) {
    forall g :: to.At(g).existing == from.At(g).existing && to.At(g).missing == from.At(g).missing
  }

  lemma MovedStep(from: Board, mid: Board, to: Board, prepared: seq<Action>, decoded: Decoded, i: nat)
    requires i < |prepared| && (decoded.Ordered? ==> |decoded.items| == |prepared|)
    requires Moved(from, mid, Findings(prepared, decoded, i))
    requires Moved(mid, to, multiset{FindingOf(prepared, decoded, i)})
    ensures Moved(from, to, Findings(prepared, decoded, i + 1))
  {
  }

  /** The counters of a group after one more finding. */
  function Bump(c: Counts, f: Finding): Counts {
    match f
    case Existing => c.(existing := c.existing + 1)
    case Missing => c.(missing := c.missing + 1)
    case Conflicting => c.(conflict := c.conflict + 1)
  }

  function Owning(c: Counts): Counts {
    c.(owned := c.owned + 1)
  }

  /** One more action: owned or not, and waiting for its inspection. */
  lemma GroupPrepares(b0: Board, b: Board, h: Group, seen: seq<Action>, a: Action, waiting: seq<Action>)
    requires GroupAccounted(b0, b, h, seen, waiting)
    ensures var g := GroupOf(a.resource);
            GroupAccounted(b0, if a.created then b.With(g, Owning(b.At(g))) else b, h, seen + [a], waiting + [a])
  {
    AllSnoc(seen, a, CreatedIn(h));
    AllSnoc(seen, a, InGroup(h));
    AllSnoc(waiting, a, InGroup(h));
    hide All;
  }

  /** One finding takes the first action off the waiting list. */
  lemma GroupSettles(b0: Board, b: Board, h: Group, seen: seq<Action>, waiting: seq<Action>, f: Finding)
    requires GroupAccounted(b0, b, h, seen, waiting) && waiting != []
    ensures var g := GroupOf(waiting[0].resource);
            GroupAccounted(b0, b.With(g, Bump(b.At(g), f)), h, seen, waiting[1..])
  {
    TallyTail(waiting, InGroup(h), |waiting|);
    hide Tally;
  }

  /** An action that cannot be inspected is settled at once. */
  lemma GroupRefuses(b0: Board, b: Board, h: Group, seen: seq<Action>, waiting: seq<Action>, a: Action, f: Finding)
    requires GroupAccounted(b0, b, h, seen, waiting + [a])
    ensures var g := GroupOf(a.resource);
            GroupAccounted(b0, b.With(g, Bump(b.At(g), f)), h, seen, waiting)
  {
    AllSnoc(waiting, a, InGroup(h));
    hide All;
  }

  lemma LedgerStep(t0: Totals, t: Totals, seen: seq<Action>, a: Action)
    requires Ledger(t0, t, seen)
    ensures Ledger(t0, t.(owned := t.owned + (if a.created then 1 else 0),
                      preexisting := t.preexisting + (if a.created then 0 else 1),
                      pending := t.pending + (if a.status == Applied then 0 else 1)), seen + [a])
  {
    AllSnoc(seen, a, Created);
    AllSnoc(seen, a, Unfinished);
    hide All;
  }

  lemma AccountSettles(b0: Board, t0: Totals, b: Board, t: Totals, seen: seq<Action>, waiting: seq<Action>, f: Finding)
    requires Accounted(b0, t0, b, t, seen, waiting) && waiting != []
    ensures var g := GroupOf(waiting[0].resource);
            var b1 := b.With(g, Bump(b.At(g), f));
            forall m, c :: Balanced(b1, t.(missing := m, conflicting := c)) ==>
              Accounted(b0, t0, b1, t.(missing := m, conflicting := c), seen, waiting[1..])
  {
    GroupSettles(b0, b, Routes, seen, waiting, f);
    GroupSettles(b0, b, NrptRules, seen, waiting, f);
    GroupSettles(b0, b, FirewallRules, seen, waiting, f);
    LedgerIgnoresFindings(t0, t, seen);
    hide GroupAccounted, Ledger, Balanced;
  }

  lemma OneMove(b: Board, g: Group, f: Finding)
    ensures Moved(b, b.With(g, Bump(b.At(g), f)), multiset{(g, f)})
  {
  }

  lemma LedgerIgnoresFindings(t0: Totals, t: Totals, seen: seq<Action>)
    requires Ledger(t0, t, seen)
    ensures forall m, c :: Ledger(t0, t.(missing := m, conflicting := c), seen)
  {
  }

  lemma NothingScriptable(scriptable: Resource -> bool)
    ensures Scriptable([], scriptable) == []
  {
  }

  lemma NothingSeen(b: Board, t: Totals)
    requires Balanced(b, t)
    ensures Accounted(b, t, b, t, [], [])
  {
  }

  /** The findings of all groups add up to the actions. */
  lemma SumUp(b0: Board, b: Board, seen: seq<Action>)
    requires Grouped(b0, b, seen, [])
    ensures b.routes.Seen() + b.nrpt.Seen() + b.firewall.Seen() ==
            b0.routes.Seen() + b0.nrpt.Seen() + b0.firewall.Seen() + |seen|
  {
    GroupsPartition(seen, |seen|);
    assert b.At(Routes) == b.routes && b.At(NrptRules) == b.nrpt && b.At(FirewallRules) == b.firewall;
  }

  lemma FoundSince(b0: Board, mid: Board, b: Board, f: multiset<(Group, Finding)>)
    requires OnlyConflicts(b0, mid) && Moved(mid, b, f)
    ensures forall g :: b.At(g).existing == b0.At(g).existing + f[(g, Existing)]
                        && b.At(g).missing == b0.At(g).missing + f[(g, Missing)]
  {
  }

  class Observation {
    var board: Board
    var totals: Totals
    var errors: nat
    var dirty: bool

    constructor ()
      ensures forall g :: board.At(g) == Counts(0, 0, 0, 0)
      ensures totals == Totals(0, 0, 0, 0, 0) && errors == 0 && !dirty
    {
      board := Board(Counts(0, 0, 0, 0), Counts(0, 0, 0, 0), Counts(0, 0, 0, 0));
      totals, errors, dirty := Totals(0, 0, 0, 0, 0), 0, false;
    }

    method CountFinding(g: Group, f: Finding, isError: bool)
      requires Balanced(board, totals) && (isError ==> f == Conflicting)
      modifies this
      ensures Balanced(board, totals)
      ensures board == old(board).With(g, Bump(old(board).At(g), f))
      ensures totals == old(totals).(missing := totals.missing, conflicting := totals.conflicting)
      ensures errors == old(errors) + if isError then 1 else 0
    {
      board := board.With(g, Bump(board.At(g), f));
      match f {
        case Existing =>
        case Missing =>
          totals := totals.(missing := totals.missing + 1);
        case Conflicting =>
          totals := totals.(conflicting := totals.conflicting + 1);
          if isError {
            errors := errors + 1;
          }
      }
    }

    /** Ownership and pending counters of one action. */
    method CountAction(ghost b0: Board, ghost t0: Totals, ghost seen: seq<Action>, action: Action,
                       ghost waiting: seq<Action>)
      requires Accounted(b0, t0, board, totals, seen, waiting)
      modifies this
      ensures Accounted(b0, t0, board, totals, seen + [action], waiting + [action])
      ensures OnlyConflicts(old(board), board)
    {
      LedgerStep(t0, totals, seen, action);
      GroupPrepares(b0, board, Routes, seen, action, waiting);
      GroupPrepares(b0, board, NrptRules, seen, action, waiting);
      GroupPrepares(b0, board, FirewallRules, seen, action, waiting);
      hide GroupAccounted, Ledger;
      var g := GroupOf(action.resource);
      if action.created {
        board := board.With(g, Owning(board.At(g)));
        totals := totals.(owned := totals.owned + 1);
      } else {
        totals := totals.(preexisting := totals.preexisting + 1);
      }
      if action.status != Applied {
        totals := totals.(pending := totals.pending + 1);
      }
    }

    /** One round of the first loop. */
    method PrepareOne(ghost b0: Board, ghost t0: Totals, ghost seen: seq<Action>, action: Action,
                      scriptable: Resource -> bool, waiting: seq<Action>)
      returns (waiting': seq<Action>)
      requires Accounted(b0, t0, board, totals, seen, waiting)
      requires waiting == Scriptable(seen, scriptable) && OnlyConflicts(b0, board)
      modifies this
      ensures Accounted(b0, t0, board, totals, seen + [action], waiting')
      ensures waiting' == Scriptable(seen + [action], scriptable) && OnlyConflicts(b0, board)
    {
      ScriptableStep(seen, action, scriptable);
      hide Accounted, Scriptable;
      CountAction(b0, t0, seen, action, waiting);
      waiting' := waiting;
      if scriptable(action.resource) {
        waiting' := waiting + [action];
      } else {
        Refuse(b0, t0, seen + [action], action, waiting);
      }
    }

    /** An action without an inspection script is a conflict. */
    method Refuse(ghost b0: Board, ghost t0: Totals, ghost seen: seq<Action>, action: Action,
                  ghost waiting: seq<Action>)
      requires Accounted(b0, t0, board, totals, seen, waiting + [action])
      modifies this
      ensures Accounted(b0, t0, board, totals, seen, waiting)
      ensures OnlyConflicts(old(board), board)
    {
      GroupRefuses(b0, board, Routes, seen, waiting, action, Conflicting);
      GroupRefuses(b0, board, NrptRules, seen, waiting, action, Conflicting);
      GroupRefuses(b0, board, FirewallRules, seen, waiting, action, Conflicting);
      LedgerIgnoresFindings(t0, totals, seen);
      hide GroupAccounted, Ledger;
      CountFinding(GroupOf(action.resource), Conflicting, true);
    }

    /** The first loop of Observe. */
    method Prepare(actions: seq<Action>, scriptable: Resource -> bool) returns (prepared: seq<Action>)
      requires Balanced(board, totals)
      modifies this
      ensures Accounted(old(board), old(totals), board, totals, actions, prepared)
      ensures prepared == Scriptable(actions, scriptable)
      ensures OnlyConflicts(old(board), board)
    {
      NothingSeen(board, totals);
      NothingScriptable(scriptable);
      assert OnlyConflicts(board, board);
      hide *;
      prepared := [];
      ghost var seen: seq<Action> := [];
      for i := 0 to |actions|
        invariant seen == actions[..i]
        invariant Accounted(old(board), old(totals), board, totals, seen, prepared)
        invariant prepared == Scriptable(seen, scriptable)
        invariant OnlyConflicts(old(board), board)
      {
        prepared := PrepareOne(old(board), old(totals), seen, actions[i], scriptable, prepared);
        seen := seen + [actions[i]];
      }
      assert seen == actions;
    }

    method SettleOne(ghost b0: Board, ghost t0: Totals, ghost seen: seq<Action>, prepared: seq<Action>,
                     decoded: Decoded, i: nat)
      requires decoded.Ordered? ==> |decoded.items| == |prepared|
      requires i < |prepared| && Accounted(b0, t0, board, totals, seen, prepared[i..])
      modifies this
      ensures Accounted(b0, t0, board, totals, seen, prepared[i + 1..])
      ensures Moved(old(board), board, multiset{FindingOf(prepared, decoded, i)})
    {
      var (g, f) := FindingOf(prepared, decoded, i);
      ghost var waiting := prepared[i..];
      assert waiting[1..] == prepared[i + 1..] && waiting[0] == prepared[i];
      AccountSettles(b0, t0, board, totals, seen, waiting, f);
      OneMove(board, g, f);
      hide Accounted, Moved;
      CountFinding(g, f, decoded.Rejected? || decoded.items[i].error != "");
    }

    /** The second loop of Observe: one finding for each inspected action. */
    method Settle(ghost b0: Board, ghost t0: Totals, ghost seen: seq<Action>, prepared: seq<Action>, decoded: Decoded)
      requires Accounted(b0, t0, board, totals, seen, prepared)
      requires decoded.Ordered? ==> |decoded.items| == |prepared|
      modifies this
      ensures Accounted(b0, t0, board, totals, seen, [])
      ensures Moved(old(board), board, Findings(prepared, decoded, |prepared|))
    {
      assert prepared[0..] == prepared && prepared[|prepared|..] == [];
      assert Moved(board, board, Findings(prepared, decoded, 0));
      hide *;
      for i := 0 to |prepared|
        invariant Accounted(b0, t0, board, totals, seen, prepared[i..])
        invariant Moved(old(board), board, Findings(prepared, decoded, i))
      {
        ghost var mid := board;
        SettleOne(b0, t0, seen, prepared, decoded, i);
        MovedStep(old(board), mid, board, prepared, decoded, i);
      }
    }

    /**
     Observe on a valid journal: every action is counted once as owned or pre-existing and
     once as existing, missing or conflicting, whatever the inspection answers. The counters
     of a new object start at zero, so the differences below are then the counters.
     */
    method Observe(actions: seq<Action>, scriptable: Resource -> bool, trim: string -> string, answer: Answer)
      returns (ghost decoded: Decoded)
      requires Balanced(board, totals)
      modifies this
      ensures Balanced(board, totals)
      ensures Ledger(old(totals), totals, actions)
      ensures Grouped(old(board), board, actions, [])
      ensures board.routes.Seen() + board.nrpt.Seen() + board.firewall.Seen() ==
              old(board).routes.Seen() + old(board).nrpt.Seen() + old(board).firewall.Seen() + |actions|
      ensures decoded.Ordered? <==> Accepted(Scriptable(actions, scriptable), trim, answer)
      ensures decoded.Ordered? ==> Sorted(trim, answer.results, decoded.items)
      ensures decoded.Ordered? ==> |decoded.items| == |Scriptable(actions, scriptable)|
      ensures var prepared := Scriptable(actions, scriptable);
              var found := Findings(prepared, decoded, |prepared|);
              forall g ::
                && board.At(g).existing == old(board).At(g).existing + found[(g, Existing)]
                && board.At(g).missing == old(board).At(g).missing + found[(g, Missing)]
      ensures dirty <==> totals.pending > 0 || totals.missing > 0 || totals.conflicting > 0 || errors > 0
    {
      var prepared := Prepare(actions, scriptable);
      decoded := Rejected(WrongCount);
      ghost var before := board;
      assert prepared == [] ==> Moved(board, board, Findings(prepared, decoded, |prepared|));
      hide Grouped, Ledger, Moved, OnlyConflicts, Findings, Scriptable;
      if |prepared| > 0 {
        var states := Rejected(WrongCount);
        if answer.Reply? {
          states := DecodeBatch(trim, answer.results, |prepared|);
        }
        Settle(old(board), old(totals), actions, prepared, states);
        decoded := states;
      }
      SumUp(old(board), board, actions);
      FoundSince(old(board), before, board, Findings(prepared, decoded, |prepared|));
      dirty := totals.pending > 0 || totals.missing > 0 || totals.conflicting > 0 || errors > 0;
    }
  }

  /** Nothing missing and nothing conflicting means that everything recorded was seen existing. */
  lemma CleanMeansAllExist(b: Board, t: Totals, n: nat)
    requires Balanced(b, t) && b.routes.Seen() + b.nrpt.Seen() + b.firewall.Seen() == n
    ensures t.missing == 0 && t.conflicting == 0 <==>
            b.routes.existing + b.nrpt.existing + b.firewall.existing == n
  {
  }

  // ---- What the counters count ----

  predicate OfGroup(r: Resource, g: Group) {
    match g
    case Routes => r.Route?
    case NrptRules => r.Nrpt?
    case FirewallRules => !r.Route? && !r.Nrpt?
  }

  /** The answer to an inspected action without an error. */
  predicate Answers(decoded: Decoded, i: nat, state: string) {
    decoded.Ordered? && i < |decoded.items| && decoded.items[i].error == "" && decoded.items[i].state == state
  }

  /** Existing: reported as exact. Missing: reported as missing, and made by Navo. Anything else is a conflict. */
  predicate Found(prepared: seq<Action>, decoded: Decoded, i: nat, f: Finding)
    requires i < |prepared|
  {
    match f
    case Existing => Answers(decoded, i, "EXACT")
    case Missing => Answers(decoded, i, "MISSING") && prepared[i].created
    case Conflicting => !Answers(decoded, i, "EXACT") && !(Answers(decoded, i, "MISSING") && prepared[i].created)
  }

  /** The inspected actions of a group, among the first n, with this finding. */
  function Those(prepared: seq<Action>, decoded: Decoded, n: nat, g: Group, f: Finding): set<nat>
    requires n <= |prepared|
  {
    set i: nat | i < n && OfGroup(prepared[i].resource, g) && Found(prepared, decoded, i, f)
  }

  /** Each counter grows by the number of the actions of its group that were found so. */
  lemma {:induction false} FindingsCount(prepared: seq<Action>, decoded: Decoded, n: nat, g: Group, f: Finding)
    requires n <= |prepared| && (decoded.Ordered? ==> |decoded.items| == |prepared|)
    ensures Findings(prepared, decoded, n)[(g, f)] == |Those(prepared, decoded, n, g, f)|
  {
    if n > 0 {
      FindingsCount(prepared, decoded, n - 1, g, f);
      ThoseStep(prepared, decoded, n, g, f);
      FindingIs(prepared, decoded, n - 1, g, f);
      hide FindingOf, Found, OfGroup, Those;
      var one := multiset{FindingOf(prepared, decoded, n - 1)};
      assert Findings(prepared, decoded, n)[(g, f)] == Findings(prepared, decoded, n - 1)[(g, f)] + one[(g, f)];
    }
  }

  lemma ThoseStep(prepared: seq<Action>, decoded: Decoded, n: nat, g: Group, f: Finding)
    requires 0 < n <= |prepared|
    ensures |Those(prepared, decoded, n, g, f)| ==
            |Those(prepared, decoded, n - 1, g, f)|
            + if OfGroup(prepared[n - 1].resource, g) && Found(prepared, decoded, n - 1, f) then 1 else 0
  {
    hide OfGroup, Found;
    var before, after := Those(prepared, decoded, n - 1, g, f), Those(prepared, decoded, n, g, f);
    assert forall i :: i in before <==> i in after && i < n - 1;
    assert n - 1 in after <==> OfGroup(prepared[n - 1].resource, g) && Found(prepared, decoded, n - 1, f);
    assert forall i :: i in after ==> i < n;
    hide Those;
    assert after == if n - 1 in after then before + {n - 1} else before;
  }

  lemma FindingIs(prepared: seq<Action>, decoded: Decoded, i: nat, g: Group, f: Finding)
    requires i < |prepared| && (decoded.Ordered? ==> |decoded.items| == |prepared|)
    ensures FindingOf(prepared, decoded, i) == (g, f) <==> OfGroup(prepared[i].resource, g) && Found(prepared, decoded, i, f)
  {
  }
}
