# Navo: verified models of its stateful protocols

Navo is a Windows proxy client: an agent switches traffic capture (system proxy or TUN), a
service runs one of three proxy cores, and both must survive failures and crashes. This
project models the protocols and pure cores that make this safe, and proves what they keep.
`dafny verify dfyconfig.toml` checks everything.

Commands of the operating system, file writes, service requests and crashes are oracles: each
model consumes a tape of answers, or takes a list of interleaved steps, and its theorems hold
for every tape and every list. A tape that ends is a crash, so the states over all tapes are
the states between any two effects.

| files | component |
|---|---|
| NetworkJournal, NetworkManager, NetworkRecovery, NetworkTheorems | the write-ahead journal of the TUN network manager |
| NetworkEffects, NetworkLegacy | the same effect by effect, and what names and addresses stand for |
| NetworkResidual, NetworkFlag | what a partly failed rollback leaves, and what the active flag of the network manager is worth |
| NetworkObservation | decoding and counting an observation of the journalled resources |
| ConnectionPolicy, Coordinator, CoordinatorPriority, CoordinatorRuns | the admission queue for connection transactions |
| CoordinatorHistory | order of grants and supersession over whole runs |
| CaptureTransition, CaptureTheorems, CaptureEffects | capture transitions and core switches of the agent |
| CoreUpdateSession, CoreUpdateRuns, CoreUpdateClosing, CoreUpdateScripts | core update sessions |
| RoutingRules, RoutingPolicy, Backends | the routing policy and its three back ends |
| IpcReplay, AgentCalls | the replay cache of the service, and the calls of the agent with their retries |
| WarmLease, WarmReplies | the lease that keeps an idle core alive |
| CircuitBreaker | the repair budget of the self-heal engine |
| SemanticVersion, VersionText, VersionPrecedence | the version order of the update check, and section 11 of Semantic Versioning 2.0.0 |
| RingBuffer, Text, Common | the log buffer, and shared helpers |

Each class acts on fields or arrays as the program does, and each of its methods is proved
equal to a function of the old state; the theorems are about these functions over whole runs.

## Where the code does not do what one would expect

Each of these is a lemma with the exact condition or a concrete case.

- Plan validation (`internal/network/types.go:105`) accepts session ids that the recovery gate
  refuses, so an activation can succeed that nothing can undo (`ValidatedPlanCanBeStuck`,
  `ActivationReversibleIff`). The only producer of session ids in the program,
  `NewTUNSessionID` (`internal/network/activation_plan.go:35`), writes lower-case base 36, so
  it never makes such an id; only a plan from elsewhere meets the gap.
- The orphan sweep deletes matching Navo-named firewall rules that existed before
  (`ExactRecovery`).
- A manager that stays active answers Activate without looking, although Recover, a failed
  Deactivate or a failed Rebind may have removed its resources (`ActivateInPlaceIff` gives the
  condition, `FlagTruthfulForCaller` one that a caller can check, `RecoverLeavesStaleActive`
  and `FailedDeactivateLeavesStaleActive` two inputs).
  The program builds a new, inactive manager before each Activate
  (`internal/service/capture_transition.go:327-357`) and Rebind recovers first
  (`internal/service/runtime.go:1133`), so its callers meet the good half of the condition.
- A finished transaction can set the phase of a successor with the same id (`StaleSetPhase`).
- A request for mode off before startup recovery succeeds without looking
  (`OffBeforeRecoveryKeepsProxy`). A queued startup recovery is lost if and only if, while it
  waits, a capture request of the user, the tray, self-healing or a shutdown is queued
  (`RecoverySupersededIff`).
- A core switch skips the tear-down when mode off is on record, which after a failed recovery
  or a reported TUN fault does not mean that capture is off (`SelectWithCaptureOffIff`, with
  `SwitchUnderFaultSkipsTearDown` and `ReportedFaultSkipsTearDown` as the inputs; without a
  fault it cannot happen, `RunSelectsWithCaptureOff`).
- A request id runs again after 256 later completions (`RetriesRunOnceIff`,
  `CallRunsOnceIff`), where the comment in the source promises at-most-once execution without
  a bound.
- A warm core that cannot be stopped at expiry is left without any timer (`UnreapedCoreIff`).
- With the default budgets the half-open state does not exist (`ProbesExistIff`), and a probe
  whose state cannot be saved blocks its key (`ProbeLostIff`).
- sing-box alone does not fall back from an empty tag to the outbound id (`BackendsAgreeIff`).
  The runtime calls the generators directly (`internal/coreadapter/adapters.go:88-127`) with
  tags that its routingRule sets (`internal/service/runtime.go:1263`), so only other callers of
  the generators can meet the difference.
- An outbound called DIRECT or NAVO gets lost under Mihomo (`RuntimePolicyPreservedIff`, and
  `DirectModePreservedIff` for direct mode).
- The version comparison departs from section 11 of Semantic Versioning 2.0.0 on identifiers
  that are digits with a minus sign, out of the 64-bit range, or written with leading zeros
  (`PrecedenceAgreesIff`, `VersionIsMisplaced`).
- Incomparability of versions is not transitive through strings that do not parse
  (`StrictWeakOrderIff`).

## Model

| member | source | states |
|---|---|---|
| NetworkJournal.MigrateV1 | internal/network/manager.go:408-427 | A version 1 journal migrates if and only if every action has a known legacy name; the result is version 2 with as many actions |
| NetworkJournal.MigrateInPlace | internal/network/manager.go:408-427 | The loop over the legacy actions in place accepts exactly the migratable journals and leaves the migrated actions |
| NetworkJournal.MigratedIsRecoverable | internal/network/manager.go:359-427 | A migrated journal passes the recovery gate if and only if its own identity does and the configured peer is usable for the split routes it lists |
| NetworkJournal.UndoMatchIsRival | internal/network/manager.go:429-450 | An undo removes only what the inspection of the same resource looks at |
| NetworkJournal.CreatedEntryIsExact | internal/network/manager.go:464-490 | What an apply creates is what its inspection calls exact and what its undo removes |
| NetworkJournal.RivalsShareSlot | internal/network/manager.go:464-501 | Two resources of which one inspects what the other created compete for one place in the system |
| NetworkManager.Manager.WriteJournal | internal/network/journal.go:109-127 | A write replaces the stored journal, or fails with or without taking effect |
| NetworkManager.Manager.RunUndo | internal/network/manager.go:429-450 | An undo refuses, or removes its targets, or fails after removing some of them |
| NetworkManager.Manager.RunApply | internal/network/manager.go:464-490 | An apply adds the entry of its resource, or fails with or without taking effect |
| NetworkManager.Manager.RollbackLocked | internal/network/manager.go:324-357 | The backward loop with its in-memory deletion and its writes refines the rollback specification, on every tape of failures and crashes |
| NetworkManager.Manager.RecoverLocked | internal/network/manager.go:299-313 | Read, migrate and roll back, with every early return |
| NetworkManager.Manager.CleanupOrphans | internal/network/manager.go:274-297 | The sweep refuses on any suspicious Navo-named rule, and otherwise deletes exactly the orphaned ones |
| NetworkManager.Manager.RecoverNetworkState | internal/network/manager.go:261-272 | The sweep runs only after a successful rollback |
| NetworkManager.Manager.Deactivate | internal/network/manager.go:238-250 | Deactivation is recovery; the active flag falls only on success |
| NetworkManager.Manager.FailActivation | internal/network/manager.go:210-227 | A failed activation is rolled back and still reported as failed |
| NetworkManager.Manager.ApplyOperation | internal/network/manager.go:117-150 | Inspect; journal an exact resource as not created; otherwise pending, apply, applied |
| NetworkManager.Manager.ApplyOperations | internal/network/manager.go:116-159 | The loop over the operations and the final control-plane check refine their specification |
| NetworkManager.Manager.ActivateLocked | internal/network/manager.go:87-160 | An active manager does nothing; otherwise the activation specification holds and the flag rises only on success |
| NetworkManager.Manager.RebindAdapter | internal/network/manager.go:73-85 | Recovery comes first and clears the flag; activation follows without a second recovery |
| NetworkRecovery.RollbackLoopSafe | internal/network/manager.go:324-357 | Every prefix of a rollback, on every tape, keeps the coverage of live resources by the journal; success leaves the base state |
| NetworkRecovery.RollbackSafe | internal/network/manager.go:324-357 | A gated rollback keeps coverage on every tape; success leaves the base state and no journal |
| NetworkRecovery.RecoverJournalSafe | internal/network/manager.go:299-313 | Reading, migrating and rolling back keeps coverage, the rewritten version 1 journal included |
| NetworkRecovery.RecoverSafe | internal/network/manager.go:261-297 | Recovery keeps coverage, removes nothing foreign except orphaned rules, and on success restores the base state without them |
| NetworkRecovery.InspectMissing | internal/network/manager.go:464-490 | MISSING means that no rival exists |
| NetworkRecovery.InspectExact | internal/network/manager.go:464-490 | EXACT means that exactly one rival exists and it is exact |
| NetworkRecovery.CreateCovered | internal/network/manager.go:134-146 | Creating a missing resource whose pending action is on disk keeps coverage |
| NetworkRecovery.ApplyOneSafe | internal/network/manager.go:117-150 | One operation keeps coverage after every effect, and success leaves its resource in place and listed |
| NetworkRecovery.ApplyAllSafe | internal/network/manager.go:116-159 | All operations in turn keep coverage, including the rollback after a failure; success leaves every resource exact and listed |
| NetworkTheorems.ActivateSafe | internal/network/manager.go:87-160 | An activation keeps coverage at every crash point; success leaves all its resources in place |
| NetworkTheorems.CallSafe | internal/network/manager.go:64-85 | Every public call keeps coverage; a successful Recover or Deactivate restores the base state |
| NetworkTheorems.RunSafe | internal/network/manager.go:64-357 | Coverage holds after any sequence of calls, failures and crashes |
| NetworkTheorems.ExactRecovery | internal/network/manager.go:87-357 | After any run from a clean start, the first recovery that succeeds leaves the system as found minus orphaned Navo rules, and no journal; the system is unchanged if and only if there were none |
| NetworkTheorems.WriteAheadCoverage | internal/network/manager.go:75-151 | In every reachable state each entry that Navo added is listed on disk as created by Navo under an undo that removes it, and nothing foreign but orphaned rules is gone |
| NetworkTheorems.UndoRefuses | internal/network/manager.go:429-450 | An undo refuses if and only if a foreign entry lies in its scope |
| NetworkTheorems.RollbackLoopCalm | internal/network/manager.go:324-357 | When nothing fails, a rollback succeeds if and only if no foreign entry lies in the scope of an undo |
| NetworkTheorems.RecoverySucceedsIff | internal/network/manager.go:261-427 | When nothing fails, recovery from a journal of version 2 or 1 or without one succeeds if and only if the journal, migrated where it is old, passes the gate, no foreign entry lies in an undo scope, and no Navo-named rule is suspicious |
| NetworkTheorems.LegacyRecoverySucceedsIff | internal/network/manager.go:299-427 | For a version 1 journal the gate is a condition on its identity and the configured peer |
| NetworkTheorems.RefusedJournalIsStuck | internal/network/manager.go:299-380 | A journal that recovery cannot read, or that fails the gate, is never rolled back, on any tape |
| NetworkTheorems.PlanRecoverableIff | internal/network/manager.go:359-406 | The journal of a completed activation passes the gate if and only if its plan meets the stated syntax conditions |
| NetworkTheorems.ActivationReversibleIff | internal/network/manager.go:87-160 | From every start that coverage holds in, a crash before it included, a successful activation can be taken back when nothing fails if and only if its plan is recoverable and its NRPT tag was not in use |
| NetworkTheorems.RunReversibleIff | internal/network/manager.go:64-160 | The same after any run of a fresh manager, with the tag judged in the system as it was found |
| NetworkTheorems.ApplyAllCalm | internal/network/manager.go:116-159 | Operations on vacant, separate places succeed when nothing fails |
| NetworkTheorems.ActivationSucceeds | internal/network/manager.go:87-160 | A whole activation succeeds when its places are vacant and separate, no rule is suspicious, and nothing fails |
| NetworkTheorems.ValidatedPlanCanBeStuck | internal/network/types.go:105-108 | Plan validation accepts the session id A: the activation succeeds and no recovery on any tape ever removes its resources |
| NetworkTheorems.ActivateEstablishes | internal/network/manager.go:87-160 | A successful activation of an inactive manager leaves every planned resource exact and listed |
| NetworkEffects.ApplyOneIff | internal/network/manager.go:117-150 | On a vacant place one operation succeeds if and only if its five effects do, and creates its entry |
| NetworkEffects.ApplyAllIff | internal/network/manager.go:116-159 | n operations on vacant, separate places succeed if and only if all 5n + 1 effects do, the final control-plane check included |
| NetworkEffects.ActivationSucceedsIff | internal/network/manager.go:87-160 | A whole activation succeeds if and only if each of its 5n + 5 effects does (5n + 6 when there are orphans to delete): no failure on the way is swallowed |
| NetworkEffects.FailRestores | internal/network/manager.go:210-227 | A failed activation whose rollback is allowed and meets no further failure leaves the base state and no journal |
| NetworkEffects.SingleFailureIsUndone | internal/network/manager.go:87-227 | A single failure at any of the 5n + 5 positions makes the activation fail and leaves the system as it was found; position 5n + 4 is the control-plane check |
| NetworkEffects.RollbackIff | internal/network/manager.go:324-357 | On every tape a rollback succeeds if and only if nothing foreign is in an undo scope and each of its effects succeeds, whose number is given |
| NetworkEffects.RecoveryExactIff | internal/network/manager.go:261-357 | From every covered state and on every tape, recovery succeeds if and only if the gate lets the journal through, nothing foreign is in its way, and each of its effects succeeds |
| NetworkEffects.RebindSucceedsIff | internal/network/manager.go:73-85 | The same for a Rebind: the effects of the recovery and 5n + 3 more |
| NetworkLegacy.FamilyFollowsAddress | internal/network/manager.go:464-490 | Every route of an activation has the family of its addresses; an endpoint route is one host by the gateway of its endpoint, the other two are the halves of the IPv4 space by the peer |
| NetworkLegacy.WhatIsInstalled | internal/network/manager.go:464-501 | An activation installs the endpoint routes, both halves, one NRPT rule and the firewall rule if asked to, under these names |
| NetworkLegacy.LegacyStandsFor | internal/network/manager.go:408-427 | A migrated version 1 action designates and undoes exactly the entry that an activation creates under the same name |
| NetworkLegacy.LegacyIsCovered | internal/network/manager.go:299-357 | Whatever part of its resources a version 1 process left on vacant places, recovery covers it, and takes all of it away when it succeeds |
| NetworkLegacy.SweepJudges | internal/network/manager.go:274-297 | A rule is swept if and only if some session could have made it, and makes the sweep refuse if and only if it has the name but not the rest |
| NetworkLegacy.GateAsks | internal/network/manager.go:359-406 | The gate, condition by condition, on the journal and on each resource |
| NetworkLegacy.OwnRuleIsSwept | internal/network/manager.go:274-297 | A rule that an activation makes is an orphan for the sweep and never suspicious |
| NetworkLegacy.ScriptsSelect | internal/network/manager.go:429-490 | What the inspection accepts, what an undo may remove and what makes it hesitate, field by field |
| NetworkLegacy.UndoDecides | internal/network/manager.go:429-450 | In any system, when an undo refuses, and otherwise that it removes all that it may |
| NetworkResidual.RollbackLoopResidual | internal/network/manager.go:324-357 | On any world, journal and tape on which nothing but undos fails, the loop with n actions to go keeps exactly those whose undos fail, in order, before what it kept already |
| NetworkResidual.RollbackResidual | internal/network/manager.go:324-357 | Whenever nothing but undos fails - refused, or failed with or without an effect - a gated rollback keeps exactly the actions whose undos failed, in their order, in memory and on disk; it succeeds and removes the journal if and only if none failed |
| NetworkResidual.FailingIsOwned | internal/network/manager.go:331-342 | Only actions that Navo created can be kept |
| NetworkResidual.AnySetCanFail | internal/network/manager.go:331-342 | Where no foreign entry stands in an undo scope, any set of owned actions can be the one that fails, with any partial removals |
| NetworkResidual.AnyResidual | internal/network/manager.go:324-357 | Hence for any set of failing undos the rollback keeps exactly these actions |
| NetworkFlag.RollbackLoopShrinks | internal/network/manager.go:324-357 | A rollback, on every tape, only removes entries and leaves a journal on disk that is unchanged or shorter, or none |
| NetworkFlag.ActiveShrinks | internal/network/manager.go:64-85 | A call that leaves the manager active without activating it found it active, and only takes entries and journal records away |
| NetworkFlag.ActivationInPlace | internal/network/manager.go:64-160 | A successful Activate of an inactive manager, and a successful Rebind, leave the manager active with every planned resource exact and listed |
| NetworkFlag.FlagTruthfulIff | internal/network/manager.go:64-85 | Over all runs: while the flag is up, the resources of the last activation are in place and listed if and only if no call since has changed the journal or removed an entry of them |
| NetworkFlag.WhatRemoves | internal/network/manager.go:236-259 | Of the calls that leave the flag up, only Recover, a failed Deactivate and a failed Rebind can have removed anything |
| NetworkFlag.FlagTruthfulForCaller | internal/network/manager.go:64-259 | Over all runs: while the flag is up, the resources are in place if since the last activation nobody called Recover and no Deactivate and no Rebind failed |
| NetworkFlag.ActivateInPlaceIff | internal/network/manager.go:64-95 | Over all runs: a successful Activate leaves the resources in place if and only if the manager was not active or nothing had been removed since the last activation |
| NetworkFlag.RecoverLeavesStaleActive | internal/network/manager.go:252-259 | First failing input: Recover on an active manager removes everything but not the flag, and the next Activate succeeds without doing anything |
| NetworkFlag.FailedDeactivateLeavesStaleActive | internal/network/manager.go:238-250 | Second failing input: a Deactivate in which every undo fails, one of them after taking effect, keeps the flag, and the next Activate succeeds on every tape |
| NetworkObservation.DecodeBatch | internal/network/observation.go:209-237 | An answer is accepted if and only if it has the right count and no flaw; each result then sits in its slot; a rejection names the first flaw |
| NetworkObservation.EverySlotFilled | internal/network/observation.go:209-237 | An accepted answer fills every slot exactly once (pigeonhole) |
| NetworkObservation.FlawlessIff | internal/network/observation.go:209-237 | An answer has no flaw if and only if its indices are those of the actions, each once, and each result can be read |
| NetworkObservation.FlawIs | internal/network/observation.go:216-232 | Which error a position gives, in the order of the tests |
| NetworkObservation.GroupsPartition | internal/network/observation.go:157-166 | Every action belongs to exactly one resource group |
| NetworkObservation.Observation.CountFinding | internal/network/observation.go:168-174 | One finding moves one counter of its group and the matching journal total |
| NetworkObservation.Observation.CountAction | internal/network/observation.go:96-105 | One action is counted as owned or pre-existing, and as pending or not |
| NetworkObservation.Observation.PrepareOne | internal/network/observation.go:95-112 | One round of the first loop keeps the account of seen and waiting actions |
| NetworkObservation.Observation.Refuse | internal/network/observation.go:106-110 | An action without a script is settled as a conflict |
| NetworkObservation.Observation.Prepare | internal/network/observation.go:94-112 | The first loop keeps the account |
| NetworkObservation.Observation.SettleOne | internal/network/observation.go:126-133 | One round of the second loop settles one waiting action by its finding |
| NetworkObservation.Observation.Settle | internal/network/observation.go:113-136 | The second loop leaves nothing waiting, and the counters moved by the multiset of findings |
| NetworkObservation.Observation.Observe | internal/network/observation.go:94-146 | The answer is accepted if and only if something was scriptable and the reply has the right count and no flaw; owned plus pre-existing and existing plus missing plus conflict each count every action once, whatever the inspection answers; totals are the sums of the groups; dirty exactly as documented |
| NetworkObservation.SumUp | internal/network/observation.go:137-142 | The findings of all groups add up to the actions |
| NetworkObservation.FindingsCount | internal/network/observation.go:126-174 | Each counter grows by the number of inspected actions of its group that were reported exact, missing though made by Navo, or anything else |
| NetworkObservation.CleanMeansAllExist | internal/network/observation.go:137-142 | No missing and no conflicting resource if and only if every recorded one exists |
| Coordinator.BestIsBest | internal/connection/coordinator.go:291-298 | The search settles on a waiter that precedes all others by rank and arrival |
| Coordinator.KeptOrdered | internal/connection/coordinator.go:256-271 | Filtering keeps arrival order and drops exactly the waiters of lower rank in the same domain |
| Coordinator.EnqueueOrdered | internal/connection/coordinator.go:181-187 | Appending the new waiter to the kept ones gives an ordered queue |
| Coordinator.RemoveOrdered | internal/connection/coordinator.go:273-302 | Taking a waiter out keeps arrival order |
| Coordinator.Coordinator.StartLocked | internal/connection/coordinator.go:233-254 | A start publishes the request, its policy and the current queue length, with a generated id if there is none |
| Coordinator.Coordinator.SupersedeLocked | internal/connection/coordinator.go:256-271 | The filter over the shared backing array leaves the kept waiters as its prefix and returns the dropped ones, both in order |
| Coordinator.Coordinator.AppendLocked | internal/connection/coordinator.go:186 | Appending in place or into a larger array |
| Coordinator.Coordinator.DeleteLocked | internal/connection/coordinator.go:280 | Shifting the tail left deletes one waiter |
| Coordinator.Coordinator.Admit | internal/connection/coordinator.go:174-189 | Begin under the mutex: start at once if and only if idle with an empty queue, else supersede and enqueue |
| Coordinator.Coordinator.TryBegin | internal/connection/coordinator.go:215-225 | Starts if and only if idle with an empty queue, and never queues |
| Coordinator.Coordinator.RemoveWaiter | internal/connection/coordinator.go:273-285 | Removes exactly the waiter with this sequence number, if it still waits |
| Coordinator.Coordinator.PopNextLocked | internal/connection/coordinator.go:287-302 | Takes out the best waiter and keeps the others in order |
| Coordinator.Coordinator.SetPhase | internal/connection/coordinator.go:317-331 | Sets the phase if and only if the id is the owner id |
| Coordinator.Coordinator.FinishOnce | internal/connection/coordinator.go:333-364 | Releases the owner, records the outcome and starts the best waiter |
| CoordinatorRuns.EnqueueRanks | internal/connection/coordinator.go:256-271 | Enqueueing keeps ranks from rising within a domain |
| CoordinatorRuns.QueueKeeps | internal/connection/coordinator.go:180-195 | The queueing half of Begin keeps the invariant of all interleavings |
| CoordinatorRuns.FinishKeeps | internal/connection/coordinator.go:333-364 | Finish with the grant of the next waiter keeps the invariant |
| CoordinatorRuns.RemoveKeeps | internal/connection/coordinator.go:198-201 | A cancellation that finds its waiter keeps the invariant |
| CoordinatorRuns.DrainKeeps | internal/connection/coordinator.go:202-209 | A cancellation that lost against a message on its way keeps the invariant |
| CoordinatorRuns.StepKeeps | internal/connection/coordinator.go:167-364 | Every step of every caller keeps the invariant |
| CoordinatorRuns.RunInv | internal/connection/coordinator.go:167-364 | The invariant holds in every reachable state |
| CoordinatorRuns.SingleOwner | internal/connection/coordinator.go:167-302 | At most one unfinished transaction; busy exactly while it exists; idle means an empty queue; the published length is right |
| CoordinatorRuns.OneOutcome | internal/connection/coordinator.go:188-212 | No step takes a waiter outcome back or gives a second one |
| CoordinatorRuns.NothingLeaks | internal/connection/coordinator.go:197-213 | With no transaction held and no message on its way, the coordinator is idle and every Begin has returned |
| CoordinatorRuns.LostGrantReleased | internal/connection/coordinator.go:202-209 | A grant that lost against cancellation is finished at once and the next waiter is granted |
| CoordinatorPriority.DomainIsArea | internal/connection/policy.go:78-103 | A request has the domain that its operation, or the first word of the table that occurs in its fault text, names |
| CoordinatorPriority.RankIsUrgency | internal/connection/policy.go:44-76 | Ranks are the urgency of origins: shutdown above user and tray, these equal, above self-healing, above startup, above the scheduler |
| CoordinatorPriority.PublishedPolicy | internal/connection/policy.go:44-76 | The intent and the priority number that are published for each origin |
| CoordinatorPriority.BeforeIff | internal/connection/coordinator.go:287-298 | One waiter is taken before another if and only if its origin is more urgent, or as urgent and it came earlier |
| CoordinatorPriority.SupersedesIff | internal/connection/coordinator.go:256-271 | A request drives a waiter out if and only if its origin is more urgent and both control the same area |
| CoordinatorPriority.ShutdownWins | internal/connection/coordinator.go:256-298 | A shutdown goes before everything else, drives out all others of its domain, and is never driven out |
| CoordinatorRuns.AdmissionsAreSorted | internal/connection/coordinator.go:287-302 | Without new arrivals, successive Finish calls grant the queue sorted by rank and arrival, as a permutation of it |
| CoordinatorRuns.SortedIsUnique | internal/connection/coordinator.go:287-302 | There is only one such order |
| CoordinatorRuns.DrainIsFifo | internal/connection/coordinator.go:256-302 | In every reachable state, successive Finish calls without new arrivals grant each domain in order of arrival |
| CoordinatorHistory.GrantedIff | internal/connection/coordinator.go:287-302 | A waiter is sent a transaction exactly by the step whose Finish takes it from the queue |
| CoordinatorHistory.NoOvertaking | internal/connection/coordinator.go:291-298 | The waiter that is granted arrived before all others of its domain that still wait |
| CoordinatorHistory.DomainFifo | internal/connection/coordinator.go:167-302 | In every interleaving with arrivals, cancellations and lost grants, the grants of one domain come in the order of arrival |
| CoordinatorHistory.NeverOvertaken | internal/connection/coordinator.go:287-302 | In every interleaving, nobody is granted while an earlier waiter of the same domain still waits |
| CoordinatorHistory.SupersededIff | internal/connection/coordinator.go:180-213 | In every interleaving, a waiter ends superseded if and only if a request that supersedes it was queued while it waited |
| CoordinatorHistory.OutrankedIff | internal/connection/coordinator.go:180-213 | In every interleaving, a waiter ends superseded if and only if a more urgent request for the same area was queued while it waited |
| CoordinatorHistory.GrantIsMostUrgent | internal/connection/coordinator.go:287-302 | In every interleaving, whoever is granted is more urgent than all who wait on, or as urgent and earlier |
| CoordinatorHistory.FinishPublishes | internal/connection/coordinator.go:333-364 | What is published after a Finish: how the owner ended, and the request that runs now with the number of those that wait |
| CoordinatorHistory.BeginPublishes | internal/connection/coordinator.go:174-195 | What is published after a Begin: its own request if nobody runs, and one more that waits otherwise |
| CoordinatorHistory.RecoverySupersededBy | internal/connection/policy.go:44-103 | A queued startup recovery is superseded by exactly the requests of the capture domain from the user, the tray, self-healing or a shutdown |
| CoordinatorHistory.CaptureText | internal/agent/capture_transition.go:1174-1183 | The fault domain that startup recovery names is the capture domain |
| CoordinatorHistory.RecoverySupersededIff | internal/agent/capture_transition.go:1174-1183 | In every interleaving, a queued startup recovery ends superseded if and only if such a request is queued before it is granted or cancelled |
| CoordinatorRuns.OwnerSetsPhase | internal/connection/coordinator.go:317-331 | An unfinished transaction can always set the phase |
| CoordinatorRuns.StaleSetPhase | internal/connection/coordinator.go:317-331 | A finished transaction can set the phase if and only if the current owner has the same id |
| CoordinatorRuns.StaleSetPhaseHappens | internal/connection/coordinator.go:233-254 | Request ids are used as given, so a finished transaction can overwrite the phase of its successor |
| CaptureTransition.Agent.RecoverCapture | internal/agent/capture_transition.go:1185-1235 | Recovery step by step on the fields, with every failure and crash |
| CaptureTransition.Agent.AbortTransition | internal/agent/capture_transition.go:859-907 | The failure path step by step; it reports failure even after a complete rollback |
| CaptureTransition.Agent.RecordSteps | internal/agent/capture_transition.go:169-197 | A list of journalled steps, up to the first that fails |
| CaptureTransition.Agent.ApplyTransition | internal/agent/capture_transition.go:188-245 | Everything between the first journal write and the commit |
| CaptureTransition.Agent.CommitTransition | internal/agent/capture_transition.go:247-254 | The journal is marked committed and then removed |
| CaptureTransition.Agent.EnsureRecovered | internal/agent/capture_transition.go:130-136 | Recovery runs first exactly in the states Recovering and Faulted |
| CaptureTransition.Agent.ExecuteTransition | internal/agent/capture_transition.go:188-270 | Apply and commit, or the failure path |
| CaptureTransition.Agent.TransitionMode | internal/agent/capture_transition.go:119-270 | The whole transition |
| CaptureTransition.Agent.ReconcileCore | internal/agent/capture_transition.go:571-610 | Observe, select again if needed, and observe again |
| CaptureTransition.Agent.RestoreCoreAndCapture | internal/agent/capture_transition.go:551-566 | Capture is restored only after the core was observed |
| CaptureTransition.Agent.SelectCoreWithCapture | internal/agent/capture_transition.go:272-342 | The whole core switch with each of its replies |
| CaptureTheorems.TearDownOutcome | internal/agent/capture_transition.go:877-885 | Success of the tear-down means proxy off, service off and no journal |
| CaptureTheorems.RecoverOutcome | internal/agent/capture_transition.go:1185-1235 | Recovery ends settled off, or faulted with mode off on record |
| CaptureTheorems.AbortOutcome | internal/agent/capture_transition.go:859-907 | The failure path ends faulted; mode off is on record exactly if the tear-down succeeded, which then left capture off and no journal, and otherwise the old mode is |
| CaptureTheorems.ApplyOutcome | internal/agent/capture_transition.go:188-245 | Apply succeeds only with the service in the target mode and the proxy on exactly for system_proxy |
| CaptureTheorems.ExecuteOutcome | internal/agent/capture_transition.go:188-270 | Success is a settled target; after a failure, mode off is on record with capture torn down if the journal is gone, and the old mode if it is not |
| CaptureTheorems.LaunchOutcome | internal/agent/capture_transition.go:146-270 | A started transition is settled, or faulted in that sense, or was never begun because its journal could not be written |
| CaptureTheorems.SuccessIsSettledIff | internal/agent/capture_transition.go:137-144 | A successful call leaves the target settled if and only if the snapshot did not claim it already or claimed it truthfully |
| CaptureTheorems.TransitionOutcome | internal/agent/capture_transition.go:119-270 | Every outcome of a transition from a truthful snapshot, including what each kind of failure leaves |
| CaptureTheorems.NoStartFromFault | internal/agent/capture_transition.go:130-136 | From a faulted or interrupted state nothing is started unless recovery succeeds |
| CaptureTheorems.ReconcileOutcome | internal/agent/capture_transition.go:571-610 | Reconciliation succeeds only with the expected core active, and enables nothing |
| CaptureTheorems.RestoreOutcome | internal/agent/capture_transition.go:551-566 | Restoring enables capture on the previous core only |
| CaptureTheorems.RefusedSwitch | internal/agent/capture_transition.go:311-324 | A refused or unanswered core.select leads back to the observed previous core with the previous mode, or to an error |
| CaptureTheorems.ConfirmedSwitch | internal/agent/capture_transition.go:328-341 | After a confirmed selection the mode is restored on the target core, or the previous core takes over |
| CaptureTheorems.SwitchCoreOutcome | internal/agent/capture_transition.go:272-342 | All or safe: Selected means the target core with the previous mode; the bare switch error means the previous core was observed and the previous mode committed; after a failure capture is attempted on the previous core only |
| CaptureEffects.ApplyStraight | internal/agent/capture_transition.go:188-245 | Between the first journal write and the commit there are 11, 8 or 2 effects, the probe last; the first that fails ends it |
| CaptureEffects.TransitionSucceedsIff | internal/agent/capture_transition.go:119-270 | A transition that is neither there already nor in need of recovery succeeds if and only if it is allowed and each of its 15, 12 or 6 effects does: no failure is swallowed |
| CaptureEffects.TransitionFromFaultIff | internal/agent/capture_transition.go:130-270 | From a fault the same, after a recovery of four effects of which only the reading of the journal may fail |
| CaptureEffects.SingleFailureTearsDown | internal/agent/capture_transition.go:188-270 | A single failure at any position makes a transition fail; once the journal is written, everything is torn down and the fault is on record |
| CaptureEffects.TearDownIff | internal/agent/capture_transition.go:877-885 | The tear-down verdict by verdict |
| CaptureEffects.RecoverSucceedsIff | internal/agent/capture_transition.go:1185-1235 | Recovery succeeds if and only if the three effects of the tear-down do, whether or not the journal could be read |
| CaptureEffects.FailedRecovery | internal/agent/capture_transition.go:1185-1235 | What a recovery that fails puts on record |
| CaptureEffects.TransitionTries | internal/agent/capture_transition.go:119-270 | A transition tries to make traffic flow in its target mode only, on the core that is active |
| CaptureEffects.CommitLeaves | internal/agent/capture_transition.go:246-254 | What a commit that is cut short leaves on disk says that everything before it had worked |
| CaptureEffects.ReconcileIff | internal/agent/capture_transition.go:571-610 | Reconciliation succeeds if and only if the expected core is observed, at once or after one attempt to select it |
| CaptureEffects.SwitchSucceedsIff | internal/agent/capture_transition.go:272-342 | From a settled state a switch to another core selects it with the mode restored if and only if each of its 23, 20 or 2 effects succeeds |
| CaptureTheorems.SwitchGoesOn | internal/agent/capture_transition.go:298-311 | A switch that reaches core.select goes on from the stated world; one that does not has selected and enabled nothing |
| CaptureTheorems.SelectWithCaptureOffIff | internal/agent/capture_transition.go:304-311 | From a truthful snapshot, the core is selected with capture off if and only if the committed mode was not off, which is the guard of the tear-down, or capture was off already |
| CaptureTheorems.SettledSelectsWithCaptureOff | internal/agent/capture_transition.go:304-311 | From a settled state the core is always selected with capture off |
| CaptureTheorems.RecoveredIsResting | internal/agent/capture_transition.go:1185-1220 | In every run, a process whose recovery came to an end is settled or faulted between calls |
| CaptureTheorems.RunSelectsWithCaptureOff | internal/agent/capture_transition.go:304-311 | In every run after recovery, a switch that finds no fault selects the core with capture off |
| CaptureTransition.Agent.RefreshCaptureFault | internal/agent/capture_transition.go:1126-1152 | A newly reported TUN fault puts a fault and mode off on record, and nothing else |
| CaptureTheorems.SwitchUnderFaultSkipsTearDown | internal/agent/capture_transition.go:304-311 | The failing input: after a failed recovery the committed mode is off, and the core is switched with capture still on |
| CaptureTheorems.ReportedFaultSkipsTearDown | internal/agent/capture_transition.go:1126-1152 | The same from a settled TUN: a fault that the service reports puts mode off on record, and a switch that gets through selects the core with capture on |
| CaptureTheorems.RecoveredIsTruthful | internal/agent/capture_transition.go:119-342 | Once a recovery has ended in a process, its snapshot never claims a mode that does not hold |
| CaptureTheorems.RunSuccessIsSettled | internal/agent/capture_transition.go:119-270 | In every such run a successful transition leaves the target settled |
| CaptureTheorems.OffBeforeRecoveryKeepsProxy | internal/agent/capture_transition.go:137-144 | Before recovery a request for mode off succeeds and leaves a leftover proxy on |
| CoreUpdateSession.AdvanceIsRun | internal/agent/core_update_session.go:129-229 | Undisturbed actions of one call are one of the interleavings |
| CoreUpdateSession.Agent.EnterLocked | internal/agent/core_update_session.go:138-145 | The lock and the test for an open session |
| CoreUpdateSession.Agent.RecoverLocked | internal/agent/core_update_session.go:321-343 | The restart of a core that ran, and then, unless it failed, for rollback and expiry the restored capture, for a commit its check, for a shutdown nothing: command by command |
| CoreUpdateSession.Agent.FailCommitLocked | internal/agent/core_update_session.go:175-197 | A failed commit stops a core that ran and leaves the session open |
| CoreUpdateSession.Agent.MarkFinished | internal/agent/core_update_session.go:352-355 | The finished flag and the timer |
| CoreUpdateSession.Agent.FinishTransaction | internal/agent/core_update_session.go:356-357 | The transaction is given up and the channel closed |
| CoreUpdateSession.Agent.ClearPointer | internal/agent/core_update_session.go:358-362 | The pointer is cleared only if it still designates this session |
| CoreUpdateSession.Agent.FinishLocked | internal/agent/core_update_session.go:345-363 | The three finish actions in their order |
| CoreUpdateSession.Agent.Close | internal/agent/core_update_session.go:138-228 | A closing call from lock to unlock is a sequence of the atomic actions, sends exactly the script of its kind, and closes the session unless a commit failed or came too late |
| CoreUpdateRuns.RegistrationReplacesFinished | internal/agent/core_update_session.go:110-112 | A begin call that registers its session finds only finished ones |
| CoreUpdateRuns.DoKeepsInv | internal/agent/core_update_session.go:30-127 | Every action of every call keeps the invariant |
| CoreUpdateRuns.RunInv | internal/agent/core_update_session.go:30-401 | The invariant holds in every interleaving of begin, commit, rollback, expiry, shutdown and other transactions |
| CoreUpdateRuns.FinishedOnce | internal/agent/core_update_session.go:345-363 | Each session is finished, and its channel closed, at most once |
| CoreUpdateRuns.TransactionsAreSerial | internal/agent/core_update_session.go:51-63 | The commands of one transaction are never interleaved with those of another |
| CoreUpdateRuns.CaptureFollowsCore | internal/agent/core_update_session.go:321-343 | Capture is switched back on only directly after the same session restarted the core |
| CoreUpdateRuns.FailedCommitStopsCore | internal/agent/core_update_session.go:175-197 | A failed commit has directly before tried to stop the core |
| CoreUpdateRuns.CommitFinishesChecked | internal/agent/core_update_session.go:149-169 | A commit finishes its session only directly after its last check succeeded: the restored capture, or the verification |
| CoreUpdateRuns.RegisteredAfterStops | internal/agent/core_update_session.go:75-112 | A session marked running or stopped was registered after a successful stop of the core, and of capture |
| CoreUpdateRuns.OpenSessionIsReachable | internal/agent/core_update_session.go:110-120 | An unfinished session is the registered one, owns the coordinator, and has a timer or an expiry call; so none is lost between the finish of a predecessor and the clearing of the pointer |
| CoreUpdateRuns.OneOpenSession | internal/agent/core_update_session.go:40-49 | At most one session is unfinished |
| CoreUpdateRuns.RegistrationIsClean | internal/agent/core_update_session.go:110-112 | In every run a registration replaces finished sessions only |
| CoreUpdateClosing.RunEnds | internal/agent/core_update_session.go:138-401 | In every interleaving a call that is about to finish a session has just sent what its kind asks for |
| CoreUpdateClosing.CaptureIsRestored | internal/agent/core_update_session.go:321-343 | In every interleaving a rollback or expiry finishes a session whose core and capture had been stopped only directly after its CaptureOn, whatever came of it, or its failed CoreStart |
| CoreUpdateClosing.CoreIsRestarted | internal/agent/core_update_session.go:321-343 | In every interleaving a shutdown, or a rollback or expiry of a session whose capture stayed on, finishes it directly after its CoreStart |
| CoreUpdateScripts.BeginFollowsScript | internal/agent/core_update_session.go:30-127 | An admitted begin call sends exactly its script, which undoes what it stopped when a later step fails, and registers its session with the marks of the script or not at all |
| CoreUpdateScripts.CloseFollowsScript | internal/agent/core_update_session.go:138-401 | An undisturbed closing call of an open session sends exactly its script, and closes the session unless a commit failed |
| CoreUpdateScripts.WholeUpdate | internal/agent/core_update_session.go:30-401 | A whole update in which everything works: capture and core go off and come back in the reverse order, however the session is closed - but for a shutdown, which leaves capture off |
| RoutingRules.DecideConcat | internal/service/runtime.go:1215-1235 | Of two rule lists in a row the first that matches decides |
| RoutingPolicy.AppendListRules | internal/service/runtime.go:1239-1261 | The loop splits a list into at most one domain rule and one network rule |
| RoutingPolicy.RuntimeRoutingPolicy | internal/service/runtime.go:1207-1237 | The built rule list is the policy specification |
| RoutingPolicy.ListRulesDecide | internal/service/runtime.go:1239-1261 | Splitting a list by kind does not change what it decides |
| RoutingPolicy.PolicyIsDecision | internal/service/runtime.go:1207-1237 | For every mode, list mode and list the rules decide as the closed form says |
| RoutingPolicy.NormalizeEntries | internal/service/runtime.go:406-436 | The loop with its seen set refines the normalisation specification, errors included |
| RoutingPolicy.DistinctIsOrdered | internal/service/runtime.go:412-434 | The result has no duplicates and takes each value from its first occurrence, in input order, leaving none out |
| RoutingPolicy.NormalizeFailsIff | internal/service/runtime.go:406-436 | A list is rejected if and only if it has more than 256 entries or one of them cannot be read |
| RoutingPolicy.SuffixIsPlain | internal/service/runtime.go:438-453 | A valid domain suffix is not empty, contains no slash and has nothing left to trim |
| RoutingPolicy.WrittenSuffix | internal/service/runtime.go:418-428 | An entry stands for a domain suffix if and only if it is the suffix, with a dot, as a wildcard, or as a wildcard with a dot |
| RoutingPolicy.SuffixIsLabels | internal/service/runtime.go:438-453 | A domain suffix is two or more labels of up to 63 lower-case letters, digits and inner hyphens, joined by dots, 253 characters at most |
| RoutingPolicy.NormalizeIdempotent | internal/service/runtime.go:406-436 | Normalising twice is normalising once |
| Backends.GenerateMihomo | internal/compiler/multi_core.go:127-173 | The nested loops emit one line per value and the final match on the group |
| Backends.GenerateXray | internal/compiler/multi_core.go:273-291 | One rule per enabled rule and a catch-all; TUN is refused |
| Backends.GenerateSingBox | internal/compiler/generator.go:222-292 | The preamble, then one rule per enabled rule with its tag |
| Backends.MihomoFollows | internal/compiler/multi_core.go:135-182 | One line per value decides like one rule with all values |
| Backends.EmptyMeansDirect | internal/compiler/multi_core.go:127-173 | For Mihomo an empty final outbound means direct |
| Backends.XrayFollows | internal/compiler/multi_core.go:273-291 | The Xray rules decide by the tag, or the id where there is none |
| Backends.PreambleSettles | internal/compiler/generator.go:227-255 | Under TUN sing-box takes DNS queries and sends ICMP out directly before any rule |
| Backends.PreambleHas | internal/compiler/generator.go:222-256 | sing-box sniffs first exactly if it is told to, and answers DNS itself exactly under TUN |
| Backends.SingBoxFollows | internal/compiler/generator.go:222-292 | The sing-box rules decide by the tag alone |
| Backends.IcmpGoesDirect | internal/compiler/generator.go:310-317 | Under TUN, sing-box sends ICMP out by the first enabled outbound of type direct |
| Backends.IcmpFollowsRules | internal/compiler/generator.go:222-317 | Without such an outbound, or without TUN, ICMP follows the rules |
| Backends.BackendsAgreeIff | internal/compiler/multi_core.go:135-182 | The three back ends agree on every connection if and only if every enabled rule has a tag, shadowed rules aside |
| Backends.PolicyTargets | internal/service/runtime.go:1207-1269 | The runtime policy gives every rule a tag equal to its id, direct or the selected outbound |
| Backends.PreservedAtIff | internal/service/runtime.go:1018-1066 | Under a runtime policy every core sends a connection where the closed form says if and only if that name is not DIRECT or NAVO |
| Backends.RuntimePolicyPreservedIff | internal/service/runtime.go:1018-1066 | End to end, in every mode: every core sends every connection where the closed form says if and only if the selected outbound is not called DIRECT or NAVO, or it decides no connection |
| Backends.DirectModePreservedIff | internal/service/runtime.go:1225-1227 | In direct mode: if and only if there is no blacklist, or the name is not reserved, or every blacklist entry is one of the private networks |
| IpcReplay.ReplayCache.Enter | internal/service/ipc_replay.go:41-65 | Reuse with another fingerprint is refused, a known id is attached, a new id is started |
| IpcReplay.ReplayCache.Publish | internal/service/ipc_replay.go:80-89 | The response is published and the eviction loop run |
| IpcReplay.KeysAreExact | internal/service/ipc_replay.go:21-25 | The remembered ids are the running and the completed ones, disjoint, without repetition, at most 256 completed |
| IpcReplay.StartsIff | internal/service/ipc_replay.go:45-64 | A request is executed if and only if its id is neither running nor among the last 256 completions |
| IpcReplay.SettleKeeps | internal/service/ipc_replay.go:80-89 | A completion evicts at most one id and never a running one |
| IpcReplay.RunsNewest | internal/service/ipc_replay.go:45-89 | In every run an id designates the last request that was executed under it, evictions included |
| IpcReplay.DifferentNeverRuns | internal/service/ipc_replay.go:45-50 | In every run a request is refused as a reuse, without effect, if and only if its id is running or recent and its fingerprint is not that of the last request executed under it |
| IpcReplay.RunsKeep | internal/service/ipc_replay.go:35-92 | The cache invariant and one executor per running request hold in all interleavings |
| IpcReplay.ReachableInv | internal/service/ipc_replay.go:35-92 | Every state reachable from the empty cache satisfies the invariant |
| IpcReplay.RetriesRunOnceIff | internal/service/ipc_replay.go:35-92 | However retries, completions and other requests interleave, a handler runs at most once if and only if the other requests running when it was first sent and those that arrive during the retries are fewer than 256 together |
| IpcReplay.RetriesAgree | internal/service/ipc_replay.go:45-58 | Under that bound every answered attempt of the call has the same response and fingerprint |
| AgentCalls.NamesAreDistinct | internal/agent/agent.go:382-394 | Two calls never carry the same id, whichever session they belong to |
| AgentCalls.Agent.SendToService | internal/agent/agent.go:311-377 | A response is returned if and only if one of three attempts succeeds and all before it fail while the caller waits, and it is the reply of that attempt; every delivery carries the fresh id of the call, and their number is exact |
| AgentCalls.AnsweredAtLast | internal/agent/agent.go:335-376 | At most one attempt is answered, and it is the last one made |
| AgentCalls.NeverArrived | internal/service/ipc_replay.go:35-64 | A request whose id does not arrive is not executed |
| AgentCalls.CallRunsOnceIff | internal/agent/agent.go:307-394 | The handler of an agent call runs at most once, over all interleavings from the start of the service, if and only if the requests running at its first delivery and the others that arrive until its last are fewer than 256 together |
| AgentCalls.RunsOnceWithin | internal/service/ipc_replay.go:35-92 | Only the others that arrive between the first and the last delivery count; what comes later does not matter |
| AgentCalls.CallGetsItsRun | internal/agent/agent.go:307-377 | Under that bound the response that one agent call returns is that of the only execution of its request, whichever attempt is answered |
| WarmLease.Service.StopWarmTimer | internal/service/warm_lease.go:204-209 | A timer that has fired still runs |
| WarmLease.Service.InvalidateWarm | internal/service/warm_lease.go:193-202 | A new generation and an empty lease |
| WarmLease.Service.RememberWarm | internal/service/warm_lease.go:125-136 | A new generation and an active lease, or an invalidation without an identity |
| WarmLease.Service.RetainWarm | internal/service/warm_lease.go:138-167 | An idle lease with a timer of the new generation, if the lease matches |
| WarmLease.Service.ResumeWarm | internal/service/warm_lease.go:169-191 | An active lease of a new generation, if the idle one is reusable |
| WarmLease.Service.ExpireWarm | internal/service/warm_lease.go:211-251 | The callback: retry, ignore, wait on, or expire and stop |
| WarmLease.Service.PrepareCapture | internal/service/capture_transition.go:144-230 | The order of the lease operations in a capture command |
| WarmLease.RunInv | internal/service/warm_lease.go:31-251 | The invariant holds in all interleavings of operations, timers and retries |
| WarmLease.IdleHasReaper | internal/service/warm_lease.go:156-163 | Whenever the lease is idle a callback of the current generation is pending, due in time |
| WarmLease.CallbackActsIff | internal/service/warm_lease.go:211-237 | A callback changes the lease if and only if it was armed in the idle period that is still on, that period is over its time, and captureMu is free |
| WarmLease.GenerationIsPeriod | internal/service/warm_lease.go:222 | A callback is of the current generation if and only if the idle period that armed it is still on, so the idle test of the callback is implied |
| WarmLease.UnreapedCoreIff | internal/service/warm_lease.go:235-250 | After an expiry the core runs on without a callback if and only if it ran and could not be stopped |
| WarmLease.PrepareOutcome | internal/service/capture_transition.go:144-230 | What each reply of a capture command says about the lease; a reuse is of the remembered identity and process, before the expiry, without a restart |
| WarmLease.PrepareKeeps | internal/service/capture_transition.go:144-230 | A capture command keeps the invariant |
| WarmReplies.PrepareReplies | internal/service/capture_transition.go:144-230 | Each reply of a capture command, as a condition on the fields that it finds: warm and reused if and only if the healthy core is the remembered one, in the right state and time |
| WarmReplies.PrepareLeaves | internal/service/capture_transition.go:144-230 | What each reply leaves of the core and of the lease |
| WarmReplies.StaysWarm | internal/service/warm_lease.go:211-251 | However timers fire and callbacks run, a warm core stays until its time is over |
| WarmReplies.WarmRoundTrip | internal/service/capture_transition.go:144-230 | Remembered, kept warm and taken up again before the expiry: reused without a stop in between |
| WarmReplies.WarmArms | internal/service/warm_lease.go:138-167 | Keeping a core warm stops the old timer and arms one of a new generation for the end of the period |
| WarmReplies.OthersDisarm | internal/service/warm_lease.go:193-209 | Every other reply but an early error stops the timer and is of a new generation |
| WarmReplies.CallbackRuns | internal/service/warm_lease.go:211-251 | What a callback does, case by case: back in 25 milliseconds, ignored, back at the end of the period, or the end of lease and core |
| CircuitBreaker.BudgetStore.BeginAttempt | internal/selfheal/state.go:56-99 | begin on the stored records, with the branches that do not store |
| CircuitBreaker.BeginDecides | internal/selfheal/state.go:56-99 | Each decision of begin as a condition on the record and the times, and all that it may set |
| CircuitBreaker.BudgetStore.CancelHalfOpen | internal/selfheal/state.go:101-112 | Clears the probe mark of one key |
| CircuitBreaker.BudgetStore.CompleteAttempt | internal/selfheal/state.go:114-141 | complete on the stored records |
| CircuitBreaker.BudgetStore.ProcessEvent | internal/selfheal/engine.go:210-255 | One event touches the record of its key only |
| CircuitBreaker.RunKeeps | internal/selfheal/state.go:56-141 | Between events no probe is in flight and the circuit is open exactly when the budget is used up |
| CircuitBreaker.NeverOpenedByBegin | internal/selfheal/state.go:87-94 | In serial runs the budget check of begin never fires |
| CircuitBreaker.OpenRefusesAll | internal/selfheal/state.go:73-76 | An open circuit refuses every event before its time in the window and remembers everything |
| CircuitBreaker.AttemptsAreStreak | internal/selfheal/state.go:114-141 | The counter is the number of failures since the last success or window |
| CircuitBreaker.WindowIsFixed | internal/selfheal/state.go:67-72 | A window starts with the first event past the last one, and nothing that happens in it prolongs or restarts it |
| CircuitBreaker.OpenSinceFailure | internal/selfheal/state.go:131-138 | An open circuit is open until the cooldown after the last attempt that failed |
| CircuitBreaker.CooldownFromLastFailure | internal/selfheal/state.go:131-138 | An open circuit stays open for the cooldown from the end of the last failed attempt, and no attempt ended since |
| CircuitBreaker.AdmissionIff | internal/selfheal/state.go:67-98 | Exactly when an event is admitted as an ordinary attempt, as a probe, or refused, by the times and outcomes of the events before it |
| CircuitBreaker.ProbesExistIff | internal/selfheal/state.go:67-86 | A half-open probe can ever happen if and only if the cooldown is shorter than the window |
| CircuitBreaker.DefaultsHaveNoProbes | internal/selfheal/engine.go:204-209 | The default window and cooldown rule probes out |
| CircuitBreaker.ProbeLostIff | internal/selfheal/state.go:80-84 | A probe stays marked after its event if and only if begin could not save it |
| CircuitBreaker.LostProbeBlocks | internal/selfheal/state.go:77-79 | A lost probe refuses everything for the rest of the window |
| SemanticVersion.ComparePrerelease | navo_app/diagnostics.go:817-846 | The loop over identifiers, with its early returns, decides by the order of the identifier lists that the rows below relate to section 11 |
| SemanticVersion.CompareCores | navo_app/diagnostics.go:755-770 | The padded loop decides by the first difference |
| SemanticVersion.MissingIsZero | navo_app/diagnostics.go:755-770 | One more component matters exactly if it is not zero |
| SemanticVersion.VersionGreater | navo_app/diagnostics.go:749-783 | Greater if and only if both parse and the first is above in the code's precedence, which does not mention lengths; PrecedenceAgreesIff says when that is section 11 |
| SemanticVersion.PrereleaseTotal | navo_app/diagnostics.go:817-846 | comparePrerelease is antisymmetric and 0 only on equal strings |
| SemanticVersion.PrereleaseTransitive | navo_app/diagnostics.go:817-846 | comparePrerelease is transitive, so with the row above a total order |
| SemanticVersion.VersionTrichotomy | navo_app/diagnostics.go:749-783 | Of two versions one is above the other or they have equal precedence, never two of these |
| SemanticVersion.VersionTransitive | navo_app/diagnostics.go:749-783 | Precedence is transitive despite the padding |
| SemanticVersion.StrictWeakOrderIff | navo_app/diagnostics.go:749-754 | Incomparability passes through a string if and only if it parses |
| VersionText.RenderedParses | navo_app/diagnostics.go:785-815 | Every text of an optional v, two to four numbers, an optional prerelease and an optional build is a version, with these numbers and this prerelease |
| VersionText.MatchedIsRendered | navo_app/diagnostics.go:785 | The pattern matches nothing else |
| VersionText.ParsesIff | navo_app/diagnostics.go:787-805 | A text is read as a version if and only if, without outer white space, it is such a text whose numbers fit |
| VersionText.SameVersion | navo_app/diagnostics.go:749-815 | The leading v and the build change nothing in the order |
| VersionPrecedence.NumeralOrderIsValue | navo_app/diagnostics.go:826-833 | Without leading zeros numerals order by length and then as text, for numbers of any size |
| VersionPrecedence.AtoiOf | navo_app/diagnostics.go:826-827 | What the code reads as a number: digits in range, and digits with a minus sign in range |
| VersionPrecedence.PartAgreesIff | navo_app/diagnostics.go:826-843 | One identifier pair is ordered as in section 11 of Semantic Versioning 2.0.0 if and only if its syntax avoids leading zeros, signed digits and out-of-range digits in the stated places |
| VersionPrecedence.ListAgreesIff | navo_app/diagnostics.go:817-846 | Identifier lists are ordered as in section 11 if and only if their first differing identifiers agree, or are one number with different leading zeros and the rest is ordered like their texts |
| VersionPrecedence.CanonicalAgreesIff | navo_app/diagnostics.go:817-846 | Without leading zeros the first differing identifiers alone decide the agreement |
| VersionPrecedence.PrereleaseHasNoPlus | navo_app/diagnostics.go:807-815 | A prerelease contains no plus sign, so the sign of an identifier can only be a minus |
| VersionPrecedence.PrecedenceAgreesIff | navo_app/diagnostics.go:749-846 | Two versions are ordered as in section 11, both ways round, if and only if the prereleases do not decide or their lists agree in that sense |
| VersionPrecedence.SignedIsMisplaced | navo_app/diagnostics.go:826-833 | Every signed numeral ranks below every number in the code and above it in section 11 |
| VersionPrecedence.OutOfRangeIsMisplaced | navo_app/diagnostics.go:826-843 | Numbers of twenty and more digits compare as text: a shorter one with a larger first digit comes out above |
| VersionPrecedence.MinusFiveBelowZero | navo_app/diagnostics.go:826-833 | Failing input: -5 and 0 |
| VersionPrecedence.ZeroOneBelowOne | navo_app/diagnostics.go:838-842 | Failing input: 01 and 1 |
| VersionPrecedence.NinesAboveTenToTheTwentieth | navo_app/diagnostics.go:838-842 | Failing input: twenty nines and a one with twenty zeros |
| VersionPrecedence.OneZeroParses | navo_app/diagnostics.go:785-815 | Every text that the pattern allows is the prerelease of a version that parses |
| VersionPrecedence.VersionIsMisplaced | navo_app/diagnostics.go:749-846 | Failing input: 1.0--5 and 1.0-0 parse, and are ordered against section 11 |
| Text.SplitJoin | internal/host/singbox.go:70 | Splitting loses nothing and no part contains the separator |
| Text.SplitInjective | navo_app/diagnostics.go:818 | The parts determine the text |
| Text.SplitOfJoin | navo_app/diagnostics.go:818 | Joining parts without the separator and splitting gives them back |
| RingBuffer.Buffer.Put | internal/host/singbox.go:74-78 | One line overwrites the oldest slot; the circle is the end of everything written |
| RingBuffer.Buffer.Write | internal/host/singbox.go:65-81 | A write contributes its non-empty lines |
| RingBuffer.Buffer.Lines | internal/host/singbox.go:83-109 | The last min(n, size) lines ever written, oldest first |
| RingBuffer.Buffer.LinesOfCircle | internal/host/singbox.go:97-108 | The wrapped read with a truncating remainder |
| RingBuffer.LinesConcat | internal/host/singbox.go:65-81 | The lines of two writes in a row are those of the first and then those of the second |
| RingBuffer.LinesAreParts | internal/host/singbox.go:70-73 | A write contributes exactly its parts that are not empty |
| RingBuffer.LinesOfOne | internal/host/singbox.go:70-78 | Each part that is not empty comes last in its turn |
| RingBuffer.Session | internal/host/singbox.go:49-109 | After any sequence of writes to an empty buffer, the last min(n, size) non-empty lines, however they were grouped |

## Left out

- The text of PowerShell scripts: a script is its selection of entries, compared exactly rather than without regard to case; the address filter of a firewall rule is one flag of the entry.
- JSON, regular expressions for adapter names, CIDR and IP parsing, case folding and Unicode: parameters of the models. Domain and version syntax is modelled.
- The address parts of `TUNActivationPlan.validate`: PlanValidated checks the session id, the adapter name and the endpoints only.
- Other programs that change routes, NRPT rules or firewall rules while Navo runs.
- Disabled network managers, whose calls return at once; timestamps, log output, error texts and the adapter snapshot that Activate returns.
- Wrap-around of 64-bit counters: sequence numbers, generations and request numbers are unbounded.
- Text.Split: works on characters where Go works on bytes, which differ on no accepted input.
- Time: an integer clock that does not go back; a backward step of the wall clock is not modelled.
- Validation of requests at the door of Begin and TryBegin, and requests with an invalid origin or operation.
- The fields CorePID, CreatedAdapterID and SystemProxyBackup of the capture journal; the readiness evidence and adapter status of a snapshot.
- selectOutboundWithCapture, mutateSourcesWithCapture and the self-heal failover, which repeat the shape of the core switch.
- A core.select that takes effect after its error reply was processed; the model lets it take effect before the reply.
- CaptureTransition.Agent.SaveJournal: a journal write or removal that reports failure has not taken effect; an interrupted one may have.
- One pair of peer and DNS addresses stands for those of the activation plan, which the operations use, and those of the configuration, which the migration of old journals uses.
- One active flag stands for all network managers of a process, while the program keeps one in each manager object; a manager that is built anew starts inactive.
- AgentCalls.CallGetsItsRun: a reply is taken to be the answer to a delivery of this call; replies in which the cache reports that it could not wait, and the exchange of the caller's own request id in the reply, are not modelled.
- Backends.RuntimePolicyPreservedIff: reserves the names DIRECT and NAVO only; an outbound named like another built-in policy of Mihomo, such as REJECT or PASS, would be taken for that policy, which is not modelled.
- The health monitor, which writes the snapshot outside the coordinator; all capture theorems are about transitions serialized by it. A fault that refreshCaptureFault (`internal/agent/capture_transition.go:1126`) takes over from the service, on every dashboard snapshot too, is a step between two transactions here; in the program it can also fall into one.
- ResolveOutboundTags: the compiler's own fill-in of tags, which can turn an outbound id that is another outbound's name into the slug of that name; the runtime does not use it.
- Backends.BackendsAgreeIff: the targets block and bypass, which the validator admits, count as names like any other; neither Mihomo nor sing-box defines them.
- The retention of a warm core inside the capture transition: CaptureTransition treats every capture.prepare as complete, WarmLease models the retention.
- Panics in handlers, and the service requests without a request id.
- The select of the timer goroutine between timer and done channel in a core update session: a fired timer always calls expire, which finds the session finished.
- Rules by port, protocol and process, for which the three back ends are not meant to be equal; the DNS sections, transports and credentials of their configurations.
- How each core matches one value of one kind: the three are taken to agree on that. Lines of Mihomo are kept as fields, so a comma inside a regular expression is not modelled.
- The list of mainland suffixes is a parameter of the policy.
- Event deduplication and counts in the self-heal engine, and its policies, which are oracles.
- RingBuffer.Buffer.Lines: a negative count is not modelled; the program is never asked for one.
