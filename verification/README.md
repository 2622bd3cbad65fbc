# LLM-RIO residency scheduler: a verified model

LLM-RIO keeps large language models resident on GPUs. This project models the five parts of it where
the logic is hard, and proves what they promise, in Dafny 4.11. `dafny verify dfyconfig.toml` checks
everything.

**Prism planner** (`PrismFit`, `PrismLaws`, `PrismSearch`, `Selections`, `PrismChoices`, `CopyCounts`,
`PrismPlan`, `PrismRuns`, `PrismRoom`, `PrismProfiles`). The admission test is proved to be a predicate
over memory charges, population limits and every tenant's utilization bound. The wake, start, sleep and
eviction searches are proved optimal and complete, and a round is proved to answer the most urgent
demand it can do something for. `CopyCounts` fixes how many copies a backlog wants. `PrismRuns` puts
rounds, late launches, late wakes and everything workers do by themselves into one run and proves that
no GPU is ever overcommitted; `PrismRoom` proves the converse, that an engine with room is admitted;
`PrismProfiles` shows which profiles safety needs. `ExclusivePlan` is the planner without kvcached:
packing free GPUs, and draining a whole GPU set.

**Worker lifecycle** (`Lifecycle`, `LifecycleLaws`, `Ownership`, `Supervisor`, `Leases`, `Validation`,
`Scheduler`). One step per section under the supervisor's state lock; tasks queue for a worker's
transition lock, which serves them in order, and interleave with every other section; engine calls
succeed or fail freely. The section
functions are the specification of the class methods in `Supervisor` and `Scheduler`. `LifecycleLaws`
also proves that every section is a move that the planner's host model in `PrismRuns` allows.

**Admission queue** (`DrrState`, `DrrRuns`, `DrrQueue`). The deficit round-robin queue as a class, its
atomic effects as functions, and waiting, fairness and conservation over all interleavings.

**Quota ledger and usage summaries** (`Ledger`, `LedgerRuns`, `Usage`, `UsageFacts`, `Database`).
Transactions over tables. The *drift* of an account is balance + outstanding + used - limit; every
transaction's effect on it is exact. `UsageFacts` says what summaries and dashboards report by counting
on the two raw tables, without the join or its rows.

**Packed KV layout** (`PackedKv`). The strided view over one buffer is a bijection.

`Collections`, `Ordering` and `Domain` hold what the parts share.

## Where the code does less than one would expect

Each of these is stated with the exact condition under which the code does what is wanted.

- Draining a worker does not always stop it. `drain` ignores a DRAINING worker, and an offload that
  waits for the transition lock marks a busy drained worker for sleep again; the worker ends SLEEPING,
  so maintenance, which waits for all workers to be COLD, can wait forever. Drained while idle, a worker
  with an offload and then a wake in line wakes up first; a request admitted before the stop runs
  turns the stop away, and the worker stays in service (`LifecycleLaws.DrainEndsColdExactlyWhen`,
  `LifecycleLaws.DrainedButAsleep`, `LifecycleLaws.DrainedByOffload`, `LifecycleLaws.DrainedButReady`).
- A wake is approved under the scheduler's state lock but begins only once it has the transition lock.
  One approved before validation took the GPUs can still begin after they were granted
  (`Validation.SleeperStaysOffExactlyWhen`, `Validation.GrantIsSafeExactlyWhen`,
  `Validation.UnsafeGrantIsReachable`).
- A client chooses its request ids and may send one again while its first request runs. No tokens are
  stranded, but the failed second admission takes the id off the worker, which then lists no request:
  to an offload, a polite stop or a drain it looks idle while it still serves one
  (`Leases.RequestsAreExactExactlyWhen`, `Leases.RetryLooksIdle`).
- Nothing checks that an engine costs a GPU no more asleep than active. One whose sleeping residue, or
  the configured sleep reserve, exceeds its footprint overcommits a GPU that it fits tightly
  (`PrismProfiles.SafeOnAllGpusExactlyWhen`).
- A blocker is judged beside all the others, so several copies of a model with waiting requests, up to all
  of them, may be put to sleep together (`PrismChoices.SleepKeepsACopyExactlyWhen`,
  `PrismChoices.BothCopiesMaySleep`).
- A starvation override may take a model's last resident copy: overridden victims are not counted
  against the copies that must stay (`ExclusivePlan.VictimsKeepACopyExactlyWhen`).
- A quota change or usage reset ignores outstanding reservations (`Ledger.QuotaIsExactExactlyWhen`).
- Packing free GPUs ends exactly when all candidate profiles of the smallest GPU count need a GPU
  (`ExclusivePlan.PackingEndsExactlyWhen`).

## Reading the model

- Memory safety counts a worker from launch until it is STOPPING or COLD, because the planner drops
  STOPPING workers before it checks fit. A failed worker turns COLD before its process is gone, so what
  it still holds is not counted either. A worker drained while asleep really still holds only its
  sleeping residue; the planner charges its full footprint, which is safe.
- A task joins the line for the transition lock in the section that decides on it, because nothing is
  awaited in between; only `drain` writes records first, and the stop it owes joins later.
- The lease model lets each recorded lease be released once. The scheduler's dictionary, keyed by
  request id, may refuse more releases than that, never fewer.
- Durations and instants are integer ticks; utilization and throughput are reals, and a budget is the
  floor of a real product. Worker ids are integers that stand for the order of their strings.
- A service run remembers the reservation that each successful call was answered. A request row is
  created only with its request's own answer, but anything may happen in between.
- A planner's `live` workers are those neither COLD nor STOPPING. One planning decision is carried out
  before the next is made, as in the reconcile loop, but anything the workers do may come in between.

## Model

| member | source | states |
|---|---|---|
| PrismFit.CachedPrismFits | src/llm_rio/planner.py:610-715 | the test accepts exactly when on every GPU of the set the engine stays within memory, population limits and the bounds of all tenants, and no copy already runs on the same set |
| PrismFit.CheckLoad | src/llm_rio/planner.py:661-713 | comparing with the strictest utilization bound is comparing with every tenant's own bound |
| PrismRoom.StartIsAdmittedExactlyWhen | src/llm_rio/planner.py:610-715 | on a safe host whose measured kvcached engines are off their GPUs just when they sleep, a new engine is accepted exactly when no live copy runs on that set and the host is still safe with it |
| PrismRoom.WakeIsAdmittedExactlyWhen | src/llm_rio/planner.py:610-715 | with any wakes under way, a cached copy is accepted exactly when it has no twin on its set and the host is still safe once it is resident too |
| PrismRoom.AcceptedNeighbours | src/llm_rio/planner.py:643-672 | on any host, an accepted engine shares its GPUs only with kvcached engines, the active ones measured there |
| PrismLaws.FitsIgnoresOrder | src/llm_rio/planner.py:610-715 | admission does not depend on the order in which workers are listed |
| PrismLaws.FitsSurvivesRemoval | src/llm_rio/planner.py:800-848 | an engine that fits still fits after any workers leave |
| PrismLaws.ProspectiveSleepIsSleep | src/llm_rio/planner.py:654-692 | fitting if some workers slept is the same as fitting once they do sleep |
| PrismSearch.FirstCachedWake | src/llm_rio/planner.py:468-491 | the chosen copy fits and wakes soonest among all that fit; none is chosen only when none fits |
| PrismSearch.CachedWakes | src/llm_rio/planner.py:438-466 | the chosen copies fit jointly, each is the soonest of those that fit beside the ones before it, and there are fewer than wanted only when no further copy fits |
| PrismSearch.SmallestCachedPrismFitting | src/llm_rio/planner.py:493-512 | the chosen placement fits and no fitting profile is smaller; none is chosen only when nothing fits anywhere |
| Selections.SmallestSelections | src/llm_rio/planner.py:771-796 | stopping at the first size with a feasible subset misses no feasible subset of that size or below |
| PrismChoices.ChoosePrismSleep | src/llm_rio/planner.py:717-798 | the sleepers are a least set by size, lost throughput and summed last demand over all placements and all sets of eligible blockers; none exactly when no set makes room |
| PrismChoices.SlowerThenOlderSleeps | src/llm_rio/planner.py:784-798 | of two engines that would each do alone the slower one sleeps, and of equally fast ones the one unwanted for longer |
| PrismChoices.MaySleepExactlyWhen | src/llm_rio/planner.py:757-770 | a blocker is an idle ready engine of another model on the GPUs, past its residency, and not the only ready copy of a model with waiting requests unless the demand is starved |
| PrismChoices.SleepKeepsACopyExactlyWhen | src/llm_rio/planner.py:757-770 | every choice of blockers leaves a model a ready copy exactly when one of its ready copies is no blocker |
| PrismChoices.BothCopiesMaySleep | src/llm_rio/planner.py:757-770 | two idle copies of a model with waiting requests may both be chosen |
| PrismChoices.SleepThenStart | src/llm_rio/planner.py:739-798 | once the chosen blockers sleep, the start search is certain to find a placement |
| PrismChoices.SleepThenWake | src/llm_rio/planner.py:739-798 | once the blockers chosen for cached copies sleep, the wake search is certain to find one |
| PrismChoices.ChooseCacheEviction | src/llm_rio/planner.py:800-848 | the evicted copies are a smallest set that makes room, least recently wanted first, ties by sorted ids; none exactly when no set makes room |
| PrismChoices.MayEvictExactlyWhen | src/llm_rio/planner.py:800-848 | only sleeping copies of other models that no request wants, on GPUs of the placement, may leave |
| PrismChoices.LongestUnwantedLeave | src/llm_rio/planner.py:800-848 | no smaller set would do, and no set of the same size has been unwanted for longer by its most recent demand |
| PrismChoices.LowerIdLeaves | src/llm_rio/planner.py:800-848 | between two copies that would each do alone and were last wanted together, the lower id decides |
| PrismChoices.EvictionIgnoresOrder | src/llm_rio/planner.py:800-848 | the evicted ids are the same for every order of the worker list |
| PrismPlan.PlanPreload | src/llm_rio/planner.py:274-306 | a preload acts only while copies are missing and none is in transition: it starts the smallest profile that fits or, when none fits, sleeps the cheapest blockers that make room; it waits only when neither works |
| PrismPlan.PlanCached | src/llm_rio/planner.py:308-355 | cached copies wake jointly, the soonest first: no more than the requests, each one but the last leaving tokens over at the speed of the fastest, and fewer only when those cover the tokens or no further copy fits; when none fits, the cheapest blockers that make room sleep; nothing is done only when that fails too |
| PrismPlan.PlanCold | src/llm_rio/planner.py:357-388 | the smallest profile that fits starts; only when none fits, the cheapest blockers that make room sleep; only when none do, the cached copies longest unwanted leave; nothing is done only when nothing helps |
| PrismPlan.PlanReplica | src/llm_rio/planner.py:390-435 | a replica comes only while the ready copies neither match the requests nor cover the tokens: the soonest cached one-GPU copy wakes, else the smallest one-GPU profile starts if it adds enough throughput, else the cheapest blockers sleep; nothing is done only when none of these works |
| PrismPlan.PlanPrismWeightCache | src/llm_rio/planner.py:201-436 | idle engines go to sleep first and exactly; otherwise a round answers a demand before which no more urgent one can be helped, requests before preloads and then the longest waiting; an empty round leaves every demand served or stuck; without real demand nothing is woken or evicted |
| CopyCounts.Wanted | src/llm_rio/planner.py:315-324 | the number of copies is the least, at least one, that covers the tokens at the given capacity, and never above the requests |
| CopyCounts.WantedIsUnique | src/llm_rio/planner.py:398-402 | only one number of copies is that |
| PrismPlan.EnoughCopiesExactlyWhen | src/llm_rio/planner.py:394-404 | no further copy is wanted exactly when the ready ones match the requests or their throughput covers the tokens |
| PrismPlan.UsefulMarginExactlyWhen | src/llm_rio/planner.py:994-1001 | a replica is worth starting exactly when it adds at least the asked share of the throughput already there |
| PrismPlan.AnsweredSleepMakesRoom | src/llm_rio/planner.py:739-798 | once all asked to sleep do, one of the candidates can start or one of the cached copies can wake |
| PrismPlan.AnsweredEvictionMakesRoom | src/llm_rio/planner.py:800-848 | once all cached copies asked to leave are gone, one of the candidates can start |
| PrismPlan.AnsweredSleepersAreDispensable | src/llm_rio/planner.py:757-770 | whoever is asked to sleep serves nobody and is of another model; before the demand is starved, one of a model with waiting requests is not its only ready copy |
| PrismPlan.AnsweredEvictionsAreUnwanted | src/llm_rio/planner.py:800-848 | an evicted copy sleeps and no request waits for its model |
| PrismRuns.Decide | src/llm_rio/runtime.py:445-454 | the planner's round on a host is a planning step of the run model |
| PrismRuns.StartIsSafe | src/llm_rio/planner.py:610-715 | carrying out a planned start keeps every GPU within its budgets |
| PrismRuns.WakesAreSafe | src/llm_rio/planner.py:438-466 | carrying out a jointly planned set of wakes keeps every GPU within its budgets |
| PrismRuns.StepKeepsInv | src/llm_rio/runtime.py:445-468 | every planning, launching, waking, dropping or worker step keeps what is promised safe |
| PrismRuns.MemorySafety | src/llm_rio/planner.py:201-511 | along every run from an empty host that chooses from kvcached profiles costing no more asleep than active, footprints plus sleeping residues on each GPU stay within the reserve and every tenant's utilization bound, and the resident and cached counts within their limits |
| PrismProfiles.SafeOnAllGpusExactlyWhen | src/llm_rio/planner.py:661-692 | runs that choose from given profiles stay within the budgets on GPUs of every size exactly when no kvcached profile costs a GPU more asleep than active |
| PrismProfiles.SleepOvercommits | src/llm_rio/planner.py:661-692 | for a kvcached profile that does cost more asleep there are GPUs on which the planned start, the launch and the sleep of one engine overcommit a GPU |
| ExclusivePlan.SmallestFitting | src/llm_rio/planner.py:981-992 | the chosen profile fits the free GPUs and is smallest, then fastest; none only when nothing fits |
| ExclusivePlan.MaximumSmallestPlacements | src/llm_rio/planner.py:963-979 | the packing is greedy step by step and maximal: nothing of the smallest size fits what is left |
| ExclusivePlan.PackedApart | src/llm_rio/planner.py:963-979 | packed placements are pairwise disjoint and use only free GPUs |
| ExclusivePlan.PackingEndsExactlyWhen | src/llm_rio/planner.py:963-979 | the packing loop can end exactly when every candidate of the smallest GPU count needs a GPU |
| ExclusivePlan.CanDrain | src/llm_rio/planner.py:1059-1082 | the counting loop decides whether every protected blocker is past its residency and leaves its model a resident copy |
| ExclusivePlan.ChoosePreemption | src/llm_rio/planner.py:1010-1094 | idle blockers go first, all of them; otherwise all running workers on a set that may be freed, for a profile with as few GPUs as any with such a set; none only when no set may be freed; slowest first |
| ExclusivePlan.PreemptibleExactlyWhen | src/llm_rio/planner.py:1046-1084 | a set may be freed exactly when engines are on it, all of other demanded models and none draining, and each had its fair share or has served its minimum while its model has a copy to spare |
| ExclusivePlan.IdleVictimsAreUnwanted | src/llm_rio/planner.py:1019-1034 | an idle blocker serves nothing, is wanted by no request, has served its minimum and is on a GPU that a smallest candidate could use |
| ExclusivePlan.PreemptionFreesTheWholeSet | src/llm_rio/planner.py:1046-1094 | no worker outside the drained ones is on the GPU set |
| ExclusivePlan.VictimsKeepACopyExactlyWhen | src/llm_rio/planner.py:1059-1094 | a victim model keeps a resident copy exactly when its overridden victims are fewer than the copies the protected ones leave |
| ExclusivePlan.OverrideMayTakeTheLastCopy | src/llm_rio/planner.py:1059-1094 | two copies of a model, one overridden, are both drained |
| ExclusivePlan.PlanExclusive | src/llm_rio/planner.py:109-199 | idle engines are drained first and exactly; otherwise a round answers a demand before which no older one can be helped: a model without copies takes all free GPUs, one with too few the useful ones of the replicas wanted, and others are drained only when nothing fits; nothing is done only when each demand is served or stuck |
| ExclusivePlan.ReplicaStartsAreNeeded | src/llm_rio/planner.py:166-183 | replicas never bring a model above its requests, and all copies but the last would leave tokens over at the ready copies' speed |
| ExclusivePlan.RoundKeepsGpusExclusive | src/llm_rio/planner.py:109-199 | after a round's starts, GPU sets of loading, ready and draining engines are pairwise disjoint |
| Lifecycle.RunKeepsLifeInv | src/llm_rio/workers.py:379-698 | every interleaving of sections keeps admission, transition-lock and remembered-task invariants |
| LifecycleLaws.LifecycleSafety | src/llm_rio/workers.py:379-698 | from launch on, requests are admitted only on ready, draining or stopping workers, a cold worker carries nothing, transitional states are owned by the lock holder, and a drained worker has a task that will move it on |
| LifecycleLaws.StateChanges | src/llm_rio/workers.py:379-698 | offloading starts only from ready or draining with nothing admitted, sleeping only from offloading, ready only from loading or waking, and cold is final |
| LifecycleLaws.StepIsAHostMove | src/llm_rio/workers.py:514-598 | every section is a worker move or a wake of the planner's host model |
| LifecycleLaws.FailedForGood | src/llm_rio/workers.py:419-431 | from its failure on, over every interleaving, a worker is cold and empty, admits nothing and never calls its engine again |
| LifecycleLaws.FailedCallForGood | src/llm_rio/workers.py:536-598 | the same from a failed offload or wake call and from every stop on |
| LifecycleLaws.SuccessMovesOn | src/llm_rio/workers.py:541-598 | a launched engine that answers turns ready, one put to sleep sleeps off its GPUs, one woken serves again, one stopped is gone |
| LifecycleLaws.AdmitsExactlyWhenReady | src/llm_rio/workers.py:451-459 | a request is taken exactly in the ready state, with its tokens |
| LifecycleLaws.SleepEndsWithOffload | src/llm_rio/workers.py:480-512 | a worker put to sleep while it serves drains and asks for its offload with its last release |
| LifecycleLaws.IdleSleepOffloads | src/llm_rio/workers.py:480-512 | a worker put to sleep while idle asks for its offload at once and is marked for it |
| LifecycleLaws.ServedUntilReleased | src/llm_rio/workers.py:461-478 | over every interleaving without failure or forced stop, an admitted request stays admitted, and the engine is not called, until that request is released |
| LifecycleLaws.DrainEndsColdExactlyWhen | src/llm_rio/workers.py:617-634 | for every worker and line of waiting tasks, a drain ends in cold for every interleaving exactly when no sleep request or offload overrules it while busy and, while idle, no offload with a wake behind it stands ahead of every stop |
| LifecycleLaws.DrainedButAsleep | src/llm_rio/workers.py:480-535 | a busy worker put to sleep and then drained ends asleep |
| LifecycleLaws.DrainedByOffload | src/llm_rio/workers.py:514-531 | an idle worker put to sleep that admits a request before the offload begins ends asleep although it was drained |
| LifecycleLaws.DrainedButReady | src/llm_rio/workers.py:555-567 | from launch a sleeping worker can have an offload and a wake in line, and then a drain does not settle it cold |
| Supervisor.WorkerSupervisor.AllocatePort | src/llm_rio/workers.py:222-229 | the lowest port of the range that no live worker uses, or none when all are used |
| Supervisor.WorkerSupervisor.CanShareGpus | src/llm_rio/workers.py:231-257 | sharing is allowed exactly for kvcached engines below both population limits on every GPU |
| Supervisor.WorkerSupervisor.Launch | src/llm_rio/workers.py:127-220 | a launch is refused for the source's reasons in its order, or adds exactly one loading worker with the allocated port |
| Supervisor.WorkerSupervisor.Fail | src/llm_rio/workers.py:419-431 | whatever its state was, a failed worker ends cold; its requests, work and sleep mark are cleared, unless it was cold and is left alone |
| Supervisor.WorkerSupervisor.Admit | src/llm_rio/workers.py:451-459 | only a ready worker admits, and counts the request and its tokens |
| Supervisor.WorkerSupervisor.Release | src/llm_rio/workers.py:461-478 | the request leaves, and the last one of a draining worker asks for an offload or a stop |
| Supervisor.WorkerSupervisor.Sleep | src/llm_rio/workers.py:480-512 | a busy worker drains towards memory, an idle one asks for an offload; without the weight cache it drains |
| Supervisor.WorkerSupervisor.Drain | src/llm_rio/workers.py:617-634 | the worker drains and asks for a stop when idle; draining, stopping and cold workers are left alone |
| Supervisor.WorkerSupervisor.BeginOffload | src/llm_rio/workers.py:514-531 | the offload goes on only for an idle worker, and a busy one drains towards memory |
| Supervisor.WorkerSupervisor.BeginWake | src/llm_rio/workers.py:557-567 | only a sleeping worker starts to wake |
| Supervisor.WorkerSupervisor.BeginStop | src/llm_rio/workers.py:651-663 | a busy worker stops only by force |
| Supervisor.WorkerSupervisor.FinishStop | src/llm_rio/workers.py:683-691 | a stopped worker is cold and carries nothing |
| Ownership.LaunchKeepsOwnership | src/llm_rio/workers.py:127-257 | an accepted launch keeps ports distinct and GPUs exclusive or bounded |
| Ownership.OwnershipSafety | src/llm_rio/workers.py:127-257 | along all runs live workers hold distinct ports in range; GPU sets are disjoint without kvcached, and no GPU carries more live workers than the cached limit with it |
| Ownership.LaunchSucceedsExactlyWhen | src/llm_rio/workers.py:127-257 | a launch is accepted exactly for a validated set, an allowed engine, a free port, and GPUs that are free or stay within both population limits with the new engine |
| Leases.TokenWorkIsExact | src/llm_rio/workers.py:451-478 | along all runs, whatever ids clients choose, every live worker counts exactly the tokens of the requests in flight on it and lists no request that is not |
| Leases.ClampNeverBites | src/llm_rio/workers.py:470-470 | a release never takes more tokens than are counted, so the clamp at zero loses nothing |
| Leases.EveryLeaseEndsOnce | src/llm_rio/runtime.py:212-234 | admissions of an id equal its endings plus its leases in flight, however often it is sent |
| Leases.ReleasedOnce | src/llm_rio/runtime.py:212-216 | a recorded lease whose release has begun can be finished but neither begun again nor forgotten |
| Leases.RequestsAreExactExactlyWhen | src/llm_rio/runtime.py:542-596 | along a run the workers list exactly the requests in flight on them just as long as no release takes an id that another request on the same worker still carries |
| Leases.RetryLooksIdle | src/llm_rio/runtime.py:558-576 | a retry sent while the first request runs strands no tokens but leaves the worker listing no request, so that an offload and a polite stop go on and a drain asks for a stop at once |
| Leases.AdmissionKeepsGap | src/llm_rio/runtime.py:542-556 | a least-loaded admission keeps the load gap within the previous gap and the admitted cost |
| Leases.RouteReadyWork | src/llm_rio/runtime.py:542-596 | routing a queue over a fixed set keeps the gap within the previous gap and the largest cost, and adds exactly the costs of the admissions that stand; failed and cancelled ones leave the loads as they were |
| Validation.MoveKeepsInv | src/llm_rio/runtime.py:236-333 | every move keeps concurrent acquisitions disjoint and live tenants of taken GPUs known and past loading |
| Validation.AcquisitionsAreDisjoint | src/llm_rio/runtime.py:241-263 | along all runs concurrent acquisitions hold disjoint GPU sets |
| Validation.TakesExactlyWhen | src/llm_rio/runtime.py:241-263 | GPUs are taken exactly when the service is quiet, nobody waits, none of them is lent, and every live worker on them serves nothing and is ready or asleep |
| Validation.GrantsExactlyWhen | src/llm_rio/runtime.py:282-299 | the second check passes exactly when no transition failed, nobody waits and every worker found at the first is cold or asleep; it changes no other acquisition |
| Validation.GrantMeansIdle | src/llm_rio/runtime.py:282-299 | at a grant every live worker on the GPUs sleeps, also those that came after the first check, and no demand is queued |
| Validation.GivesBackWhatItTook | src/llm_rio/runtime.py:295-333 | a failed or finished acquisition gives back exactly its own GPUs |
| Validation.TenantsStayOffThroughout | src/llm_rio/runtime.py:507-540 | until the GPUs are given back no launch touches them and tenants out of a wake's reach stay off them |
| Validation.SleeperStaysOffExactlyWhen | src/llm_rio/runtime.py:530-540 | a sleeping worker stays off its GPUs, with no new wake, exactly when no wake stands in line for its transition lock ahead of every stop |
| Validation.GrantIsSafeExactlyWhen | src/llm_rio/runtime.py:282-325 | after a grant, whatever is done until the GPUs are given back, every live tenant stays off them exactly when no tenant has a wake in line ahead of every stop at the grant |
| Validation.UnsafeGrantIsReachable | src/llm_rio/runtime.py:236-333 | whatever engine an empty host accepts, a run leads to a grant that is not safe |
| Scheduler.ResidencyScheduler.PopLease | src/llm_rio/runtime.py:212-216 | only the first caller gets the lease and it leaves the record |
| Scheduler.ResidencyScheduler.TakeGpus | src/llm_rio/runtime.py:241-263 | the first check takes the GPUs exactly when the service is active and quiet for the window, no maintenance is asked for, no demand waits, and the GPUs are free and carry only idle ready or sleeping workers |
| Scheduler.ResidencyScheduler.SettleGpus | src/llm_rio/runtime.py:282-299 | the second check keeps them exactly when no transition failed, all found workers are cold or asleep and no demand waits |
| DrrQueue.DeficitRoundRobinQueue.Put | src/llm_rio/queueing.py:57-67 | a request is appended to its tenant's list, or refused at capacity with contents and tenant order untouched |
| DrrQueue.DeficitRoundRobinQueue.Pop | src/llm_rio/queueing.py:69-87 | the loop ends, returns a request exactly when the queue is not empty, and leaves the state the visits lead to |
| DrrQueue.DeficitRoundRobinQueue.Remove | src/llm_rio/queueing.py:89-100 | exactly one queued request with the id leaves, or none has that id |
| DrrQueue.DeficitRoundRobinQueue.DrainAll | src/llm_rio/queueing.py:102-107 | all requests are returned tenant by tenant and the queue is empty |
| DrrRuns.PopReturnsAHead | src/llm_rio/queueing.py:69-87 | a non-empty queue yields the oldest request of some tenant |
| DrrRuns.PopIsARunOfVisits | src/llm_rio/queueing.py:73-87 | a pop is a run of at most as many visits as all waiting heads need together |
| DrrRuns.PopServesOnlyThatRequest | src/llm_rio/queueing.py:73-87 | the returned request is the only one that leaves during a pop |
| DrrRuns.VisitsNeededIsCeiling | src/llm_rio/queueing.py:72-77 | the visits a head needs are its cost above the deficit in quanta, rounded up, and at least one |
| DrrRuns.VisitsInterleave | src/llm_rio/queueing.py:69-87 | between visits to a backlogged tenant any other is visited at most once more, under every interleaving |
| DrrRuns.VisitsAlternate | src/llm_rio/queueing.py:69-87 | the visits of two backlogged tenants differ exactly by who is ahead in the order before and after |
| DrrRuns.VisitsAreFair | src/llm_rio/queueing.py:69-87 | two backlogged tenants' visit counts differ by at most one over any interval |
| DrrRuns.WaitingBound | src/llm_rio/queueing.py:69-100 | a waiting head has seen fewer visits than it needs, and no other tenant has seen more than that number |
| DrrRuns.LastNeededVisitServes | src/llm_rio/queueing.py:73-85 | the last visit a waiting head needs serves it |
| DrrRuns.DeficitBalance | src/llm_rio/queueing.py:69-87 | a backlogged tenant's deficit is a quantum per visit minus the tokens served, and never negative |
| DrrRuns.ServiceIsFair | src/llm_rio/queueing.py:69-87 | when no request is cheaper than a quantum, tokens served to two backlogged tenants differ by less than a quantum plus twice the largest cost |
| DrrRuns.ServedInArrivalOrder | src/llm_rio/queueing.py:57-107 | a tenant's served requests are a subsequence of its arrivals |
| DrrRuns.EveryRequestLeavesOnce | src/llm_rio/queueing.py:57-107 | queued plus arrived equals served plus cancelled plus still queued, as multisets |
| DrrRuns.CapacityIsNeverExceeded | src/llm_rio/queueing.py:57-67 | total and per-tenant capacities hold along every run |
| DrrRuns.QueuedExactlyWhenRoom | src/llm_rio/queueing.py:57-67 | a request is queued, last in its tenant's list, exactly when the requests held, in all and of its tenant, are below the capacities |
| DrrRuns.DrainedTenantByTenant | src/llm_rio/queueing.py:102-107 | a drain returns each tenant's requests together and in arrival order, the tenants in rotation order |
| Ledger.ReserveDrift | src/llm_rio/storage.py:963-1040 | reserving conserves a limited account; an unlimited one drifts by exactly the reserved tokens |
| Ledger.SettleDrift | src/llm_rio/storage.py:1101-1158 | settling conserves a limited account; an unlimited one drifts back by exactly the refund it is not given |
| Ledger.UpdateQuotaDrift | src/llm_rio/storage.py:579-616 | a quota change leaves a drift of the outstanding tokens plus the use beyond the new limit |
| Ledger.QuotaIsExactExactlyWhen | src/llm_rio/storage.py:579-657 | a quota change and a reset balance the account exactly when nothing is outstanding and, for the change, the limit covers the use |
| Ledger.RetryIsHarmless | src/llm_rio/storage.py:973-990 | retrying a successful reservation returns the same one and changes nothing |
| Ledger.ReserveAnswersItsCaller | src/llm_rio/storage.py:973-1040 | a successful call names a reservation of the caller's own request, key and idempotency key |
| Ledger.ConflictExactlyWhen | src/llm_rio/storage.py:982-990 | a call is refused as a conflict exactly when its idempotency key already serves another request of that API key |
| Ledger.FirstReserveSucceedsExactlyWhen | src/llm_rio/storage.py:991-1040 | a first call succeeds exactly when the account exists and can pay or is unlimited, the size is not negative and the request is new |
| Ledger.ReservationIsRecorded | src/llm_rio/storage.py:1001-1040 | a new reservation is an open row with the caller's data; its size leaves the balance and enters the ledger unless the account is unlimited; nothing else changes |
| Ledger.SettlementIsRecorded | src/llm_rio/storage.py:1101-1158 | a settlement writes the clamped charge and the instant on its reservation, the outcome, token counts and instant on its requests, and nothing on other rows |
| Ledger.CreatedThenAdmitted | src/llm_rio/storage.py:1051-1095 | a new request gets one queued row, which is marked admitted once |
| Ledger.SettlingAgainIsHarmless | src/llm_rio/storage.py:1111-1118 | settling or releasing a settled reservation again changes nothing |
| LedgerRuns.QuotaIsConserved | src/llm_rio/storage.py:963-1163 | over any service run from the opening of a limited account on, balance, outstanding reservations and use add up to the limit |
| LedgerRuns.LedgerExplainsCharges | src/llm_rio/storage.py:963-1158 | over any service run of a limited account, the ledger entries of each of its reservations add up to what the reservation holds or was charged |
| LedgerRuns.ExactlyOnce | src/llm_rio/storage.py:963-1163 | over any service run, in which request rows are created only with the reservation the caller was answered, a reservation has at most one request row, charges at most what it reserved, has at most one refund entry, and requests are accepted and completed at most once; balances stay non-negative |
| LedgerRuns.RequestsHaveTheirReservation | src/llm_rio/api/routes_inference.py:301-318 | over any service run, every request row belongs to the reservation made for that very request |
| LedgerRuns.SettledIsFinal | src/llm_rio/storage.py:1111-1118 | a settled reservation is never changed again |
| LedgerRuns.AtMostOneRequest | src/llm_rio/storage.py:1051-1080 | each reservation has at most one request row |
| Database.Database.ReserveQuota | src/llm_rio/storage.py:963-1040 | the transaction's answer and tables; a successful answer names a stored reservation of the caller's request, key and idempotency key |
| Database.Database.SettleQuota | src/llm_rio/storage.py:1101-1158 | an open reservation is charged at most its size and refunded; any other is left alone |
| Database.Database.RecoverOrphanedState | src/llm_rio/storage.py:1262-1271 | a restart releases every open reservation |
| Database.RecoveryRefundsEverything | src/llm_rio/storage.py:1262-1271 | after a restart the balance of a limited account is exactly the limit minus what was used |
| Database.Database.UpdateQuota | src/llm_rio/storage.py:579-616 | the balance becomes what the new limit leaves beyond the use, never below zero |
| Database.Database.MarkRequestAdmitted | src/llm_rio/storage.py:1082-1095 | only a queued request is marked, once |
| Database.Database.SummarizeUsage | src/llm_rio/usage_summary.py:32-234 | totals, period, and deletions are those of one summary; it is refused, and changes nothing, exactly when the cutoff is not later than the last one |
| Usage.GroupRowsAreSums | src/llm_rio/usage_summary.py:59-106 | grouped rows are one per account, key and model and hold that group's sums |
| UsageFacts.BatchIsTally | src/llm_rio/usage_summary.py:59-106 | the batch counts the reservations settled by the cutoff, those with a completed request as successful and the rest as failed, sums what they reserved and were charged, and sums tokens, timed output and timed requests over exactly their requests |
| UsageFacts.TotalsGrowByTally | src/llm_rio/usage_summary.py:108-194 | for every account, key, model or group, a summary adds to the stored totals just the tally of its settled reservations |
| UsageFacts.DashboardIsTally | src/llm_rio/usage_summary.py:281-344 | every dashboard total is the tally of the settled reservations it is about plus what was summarised |
| UsageFacts.SummaryDeletesExactly | src/llm_rio/usage_summary.py:196-218 | a summary deletes the reservations settled by the cutoff with all their requests and ledger entries, and nothing else |
| LedgerRuns.SummariesTellTheFacts | src/llm_rio/usage_summary.py:59-106 | over any service run a summary reports that tally |
| LedgerRuns.DashboardTellsTheFacts | src/llm_rio/usage_summary.py:281-344 | and the dashboard, for every selection |
| Usage.SummariseIsInvisible | src/llm_rio/usage_summary.py:281-344 | summarising changes no integer dashboard total, overall or by account, key, model or group |
| Usage.LifetimeIsUnchanged | src/llm_rio/storage.py:197-220 | summarising changes no account's or key's lifetime charges or settled counts |
| Usage.LifetimeIsKeptExactlyWhen | src/llm_rio/usage_summary.py:59-106 | summarising keeps all-time charges exactly when no summarised reservation has two request rows and a charge |
| Usage.TwoRequestsChargeTwice | src/llm_rio/usage_summary.py:59-106 | two request rows on one reservation, which no run produces, would add its charge once too often |
| LedgerRuns.PeriodIsTheSum | src/llm_rio/usage_summary.py:108-194 | over any run the 'total' period row is the sum of the 'total' summary rows, metric by metric |
| Usage.StepsGiveTheSameTotals | src/llm_rio/usage_summary.py:32-234 | summarising at one cutoff and then a later one gives the totals of the later one alone |
| Usage.StepsLeaveTheSameTables | src/llm_rio/usage_summary.py:196-214 | and the same remaining rows |
| PackedKv.ValidatePackedShape | src/llm_rio/kvcached_vllm_compat.py:314-327 | accepts exactly NHD shapes with the expected block size and an even head |
| PackedKv.ViewIsABijection | src/llm_rio/kvcached_vllm_compat.py:329-355 | indices of the view and element offsets of the buffer correspond one to one |
| PackedKv.SplittingKeepsOffsets | src/llm_rio/kvcached_vllm_compat.py:339-352 | for every kernel size that divides the block, a token has the same offset as in the unsplit view |
| PackedKv.BlockIsOnePage | src/llm_rio/kvcached_vllm_compat.py:346-352 | an offset belongs to a block exactly when it lies in that block's contiguous page |
| PackedKv.ExplicitShapeMatchesView | src/llm_rio/kvcached_vllm_compat.py:401-410 | the explicit key/value shape has as many elements as the view |
| PackedKv.CellsRebuildThePage | src/llm_rio/kvcached_vllm_compat.py:357-366 | the cell size derived from a page loses nothing to rounding |

## Left out

- Floating point rounding: utilization, throughput and margins are real numbers.
- Subprocesses, signals, HTTP, logs and environment: an engine call succeeds or fails.
- Cancellation of a task in the middle of a section, and failures to write worker rows: sections always finish.
- SQL, WAL and migrations: a transaction is an atomic update of tables, and a violated constraint changes nothing.
- API keys, roles, grants and the admin check in `update_quota`: transactions name the account directly.
- Dates and float metrics of summaries (`first_completed_at`, `active_output_seconds`, elapsed rates) and popularity ranks: no integer total depends on them.
- `ModelQueues`, the tenant count, token-work and oldest-arrival views of the queue: folds over the same lists.
- The older kvcached path without the weight cache (`_plan_prism`, `_prism_fits`, `_choose_prism_eviction`): a simpler variant of the modelled path.
- kvcached and vLLM patches other than the layout arithmetic: their guarantees rest on library code.
- That every sleep leads to a start: a replica that fits without a useful margin still puts blockers to sleep.
- A bound on deficits of tenants whose requests are cheaper than a quantum: a visit serves one request, so there is none.
- That maintenance is linearizable with `resume`: the mode is read and later written without the state lock.
- PrismRuns.MemorySafety: does not count STOPPING workers or what a failed, COLD worker's dying process still holds, because the planner does not either.
- Leases.RouteReadyWork: keeps the set of ready workers and their other work fixed while it routes.
