/** One planning round of the Prism weight cache: starts, wakes, sleeps and evictions. */
module PrismPlan {
  import opened Collections
  import opened CopyCounts
  import opened Domain
  import opened Ordering
  import opened PrismFit
  import opened PrismLaws
  import opened PrismSearch
  import opened PrismChoices
  import opened Selections

  datatype Planner = Planner(limits: Limits, minimumResidency: Time, fairShare: Time,
                             scaleWindow: real, minimumMarginalEfficiency: real, idleSleep: Time)

  datatype Pressure = Pressure(modelId: ModelId, requests: int, estimatedTokens: int,
                               oldestEnqueuedAt: Time, preload: bool, desiredWorkers: int)

  datatype Action =
    | Start(profile: Profile, gpus: seq<Gpu>, reason: string)
    | Drain(workerId: WorkerId, reason: string)
    | Sleep(workerId: WorkerId, reason: string)
    | Wake(workerId: WorkerId, reason: string)

  /** What one round looks at: `live` are the workers that are neither cold nor stopping. */
  datatype Round = Round(planner: Planner, now: Time, all: set<Gpu>, live: seq<Worker>,
                         pressures: seq<Pressure>, profiles: map<ModelId, seq<Profile>>)

  function PressuredModels(pressures: seq<Pressure>): set<ModelId> {
    set p | p in pressures && !p.preload :: p.modelId
  }

  function IsKvcached(): Profile -> bool {
    (p: Profile) => Kvcached(p)
  }

  function CandidatesFor(r: Round, m: ModelId): (candidates: seq<Profile>)
    ensures forall p :: p in candidates <==>
              m in r.profiles && p in r.profiles[m] && p.engine == Vllm && p.memoryBackend == "kvcached"
  {
    if m in r.profiles then Filter(r.profiles[m], IsKvcached()) else []
  }

  /** On its way from one of the settled states to another. */
  predicate Transitioning(w: Worker)
    ensures !w.state.Cold? && !w.state.Stopping? ==> (Transitioning(w) <==> !w.state.Ready? && !w.state.Sleeping?)
  {
    w.state in {Loading, Draining, Offloading, Waking}
  }

  function OfModel(m: ModelId): Worker -> bool {
    (w: Worker) => w.profile.modelId == m
  }

  function ReadyOf(m: ModelId): Worker -> bool {
    (w: Worker) => w.profile.modelId == m && w.state.Ready?
  }

  function CachedOf(m: ModelId, profileIds: set<string>): Worker -> bool {
    (w: Worker) => w.profile.modelId == m && w.state.Sleeping? && w.profile.id in profileIds
  }

  function ReadyCopies(r: Round, m: ModelId): (ready: seq<Worker>)
    ensures forall w :: w in ready <==> w in r.live && w.profile.modelId == m && w.state == Ready
  {
    Filter(r.live, ReadyOf(m))
  }

  /** The sleeping copies whose profiles are still among the candidates. */
  function CachedCopies(r: Round, m: ModelId): (cached: seq<Worker>)
    ensures forall w :: w in cached <==>
              && w in r.live && w.profile.modelId == m && w.state == Sleeping
              && exists p :: p in CandidatesFor(r, m) && p.id == w.profile.id
  {
    Filter(r.live, CachedOf(m, set p | p in CandidatesFor(r, m) :: p.id))
  }

  function OneGpu(): Profile -> bool {
    (p: Profile) => p.gpuCount == 1
  }

  function OneGpuWorker(): Worker -> bool {
    (w: Worker) => w.profile.gpuCount == 1
  }

  // ---------- how many copies are wanted ----------

  function DesiredCopies(pr: Pressure, capacity: real): int {
    Wanted(pr.requests, pr.estimatedTokens, capacity)
  }

  function CapacityOf(w: Worker, scaleWindow: real): real {
    w.profile.predictedTokensPerSecond * scaleWindow
  }

  /** What the fastest of these workers does within the scaling window. */
  function LargestCapacity(ws: seq<Worker>, scaleWindow: real): (capacity: real)
    requires ws != []
    ensures forall w :: w in ws ==> CapacityOf(w, scaleWindow) <= capacity
    ensures exists w :: w in ws && CapacityOf(w, scaleWindow) == capacity
  {
    var first := CapacityOf(ws[0], scaleWindow);
    assert ws == [ws[0]] + ws[1..];
    if |ws| == 1 then first else RealMax(first, LargestCapacity(ws[1..], scaleWindow))
  }

  /** What these workers do together within the scaling window. */
  function TotalCapacity(ws: seq<Worker>, scaleWindow: real): real {
    if ws == [] then 0.0 else CapacityOf(ws[0], scaleWindow) + TotalCapacity(ws[1..], scaleWindow)
  }

  lemma {:induction false} TotalCapacityIsThroughput(ws: seq<Worker>, scaleWindow: real)
    ensures TotalCapacity(ws, scaleWindow) == TotalThroughput(ws) * scaleWindow
  {
    if ws != [] {
      TotalCapacityIsThroughput(ws[1..], scaleWindow);
      AddScaled(ws[0].profile.predictedTokensPerSecond, TotalThroughput(ws[1..]), scaleWindow);
    }
  }

  lemma AddScaled(a: real, b: real, c: real)
    ensures (a + b) * c == a * c + b * c
  {
  }

  /** The backlog needs no more copies than these: they match the requests, or their throughput covers the tokens. */
  predicate EnoughCopies(pr: Pressure, copies: int, throughput: real, scaleWindow: real) {
    && copies >= 1
    && (copies >= pr.requests
        || pr.estimatedTokens as real <= copies as real * RealMax(throughput * scaleWindow, 1.0))
  }

  lemma EnoughCopiesIsEnough(pr: Pressure, copies: int, throughput: real, scaleWindow: real, capacity: real)
    requires capacity == throughput * scaleWindow
    ensures Enough(copies, pr.requests, pr.estimatedTokens, capacity)
            <==> EnoughCopies(pr, copies, throughput, scaleWindow)
  {
  }

  lemma {:induction false} EnoughCopiesExactlyWhen(pr: Pressure, copies: int, ws: seq<Worker>, scaleWindow: real)
    ensures DesiredCopies(pr, TotalCapacity(ws, scaleWindow)) <= copies
            <==> EnoughCopies(pr, copies, TotalThroughput(ws), scaleWindow)
  {
    var capacity := TotalCapacity(ws, scaleWindow);
    EnoughExactlyWhen(copies, pr.requests, pr.estimatedTokens, capacity);
    TotalCapacityIsThroughput(ws, scaleWindow);
    EnoughCopiesIsEnough(pr, copies, TotalThroughput(ws), scaleWindow, capacity);
  }

  predicate UsefulMargin(planner: Planner, p: Profile, ready: seq<Worker>) {
    var current := TotalThroughput(ready);
    current <= 0.0 || p.predictedTokensPerSecond / current >= planner.minimumMarginalEfficiency
  }

  lemma QuotientAtLeast(a: real, b: real, least: real)
    requires b > 0.0
    ensures a / b >= least <==> a >= least * b
  {
    QuotientTimes(a, b);
    Scaled(least, a / b, b);
  }

  /** The replica adds at least the asked share of the throughput that is already there, if there is any. */
  lemma {:induction false} UsefulMarginExactlyWhen(planner: Planner, p: Profile, ready: seq<Worker>)
    ensures UsefulMargin(planner, p, ready)
            <==> (TotalThroughput(ready) > 0.0 ==>
                    p.predictedTokensPerSecond >= planner.minimumMarginalEfficiency * TotalThroughput(ready))
  {
    if TotalThroughput(ready) > 0.0 {
      QuotientAtLeast(p.predictedTokensPerSecond, TotalThroughput(ready), planner.minimumMarginalEfficiency);
    }
  }

  /** A demand starves once its oldest request has waited for the fair share of time. */
  function DemandOf(r: Round, pr: Pressure): (d: Demand)
    ensures d.starved <==> pr.oldestEnqueuedAt + r.planner.fairShare <= r.now
  {
    Demand(pr.modelId, r.now, r.planner.minimumResidency, PressuredModels(r.pressures),
           r.now - pr.oldestEnqueuedAt >= r.planner.fairShare)
  }

  // ---------- what a round may decide ----------

  ghost predicate SoundStart(r: Round, actions: seq<Action>) {
    && |actions| == 1 && actions[0].Start?
    && (exists pr :: pr in r.pressures && actions[0].profile in CandidatesFor(r, pr.modelId))
    && CanStart(r.planner.limits, r.all, r.live, actions[0].profile, actions[0].gpus)
  }

  ghost predicate WakesThese(actions: seq<Action>, wakes: seq<Worker>) {
    |actions| == |wakes|
    && forall k :: 0 <= k < |wakes| ==> actions[k].Wake? && actions[k].workerId == wakes[k].id
  }

  ghost predicate SoundWakes(r: Round, actions: seq<Action>, wakes: seq<Worker>) {
    && WakesThese(actions, wakes)
    && DistinctIds(wakes)
    && (exists pr :: pr in r.pressures && !pr.preload
                     && forall w :: w in wakes ==> w in CachedCopies(r, pr.modelId))
    && WakesFit(r.planner.limits, r.all, r.live, wakes)
  }

  /** An idle resident engine: ready, without admitted requests, past its minimum residency. */
  predicate IdleResident(r: Round, w: Worker) {
    && w in r.live && w.state.Ready? && w.admitted == {}
    && ResidencySatisfied(r.planner.minimumResidency, w, r.now)
  }

  ghost predicate SleepsIdle(r: Round, a: Action) {
    a.Sleep? && exists w: Worker :: w.id == a.workerId && IdleResident(r, w)
  }

  ghost predicate SoundSleeps(r: Round, actions: seq<Action>) {
    forall k :: 0 <= k < |actions| ==> SleepsIdle(r, actions[k])
  }

  ghost predicate EvictsCached(r: Round, a: Action) {
    a.Drain? && exists w: Worker :: w.id == a.workerId && w in r.live && w.state.Sleeping?
                                    && w.profile.modelId !in PressuredModels(r.pressures)
  }

  ghost predicate SoundEvictions(r: Round, actions: seq<Action>) {
    && (exists pr :: pr in r.pressures && !pr.preload)
    && forall k :: 0 <= k < |actions| ==> EvictsCached(r, actions[k])
  }

  ghost predicate SoundActions(r: Round, actions: seq<Action>) {
    || actions == []
    || SoundStart(r, actions)
    || (exists wakes :: SoundWakes(r, actions, wakes))
    || SoundSleeps(r, actions)
    || SoundEvictions(r, actions)
  }

  // ---------- when a round may give up ----------

  /** None of the candidates fits on any of its GPU sets. */
  ghost predicate NoStart(r: Round, candidates: seq<Profile>) {
    forall p, s :: p in candidates && s in p.eligibleGpuSets ==> !CanStart(r.planner.limits, r.all, r.live, p, s)
  }

  /** No set of idle blockers makes room for one of the candidates by going to sleep. */
  ghost predicate NoSleepHelps(r: Round, pr: Pressure, candidates: seq<Profile>) {
    forall p, s, ids :: p in candidates && s in p.eligibleGpuSets ==>
      !SleepEnables(r.planner.limits, r.all, DemandOf(r, pr), r.live, Placement(p, s, None), ids)
  }

  /** No set of cached copies makes room for one of the candidates by leaving. */
  ghost predicate NoEvictionHelps(r: Round, candidates: seq<Profile>) {
    forall p, s, ids :: p in candidates && s in p.eligibleGpuSets ==>
      !EvictEnables(r.planner.limits, r.all, PressuredModels(r.pressures), r.live, Placement(p, s, None), ids)
  }

  /** Nothing can be done for a model without any live copy: no start, no sleep, no eviction. */
  ghost predicate ColdIsStuck(r: Round, pr: Pressure) {
    && NoStart(r, CandidatesFor(r, pr.modelId))
    && NoSleepHelps(r, pr, CandidatesFor(r, pr.modelId))
    && NoEvictionHelps(r, CandidatesFor(r, pr.modelId))
  }

  /** Nothing can be done for a model whose copies all sleep: no wake and no sleep of others. */
  ghost predicate CachedIsStuck(r: Round, pr: Pressure) {
    && (forall w :: w in CachedCopies(r, pr.modelId) ==> !CanWake(r.planner.limits, r.all, r.live, w))
    && (forall w, ids :: w in CachedCopies(r, pr.modelId) ==>
          !SleepEnables(r.planner.limits, r.all, DemandOf(r, pr), r.live,
                        Placement(w.profile, w.gpus, Some(w.id)), ids))
  }

  predicate NoTransition(r: Round, m: ModelId) {
    forall w :: w in r.live && w.profile.modelId == m ==> !Transitioning(w)
  }

  /** Several copies take one GPU each. */
  function PreloadCandidates(r: Round, pr: Pressure): (candidates: seq<Profile>)
    ensures forall p :: p in candidates <==>
              p in CandidatesFor(r, pr.modelId) && (pr.desiredWorkers > 1 ==> p.gpuCount == 1)
  {
    if pr.desiredWorkers > 1 then Filter(CandidatesFor(r, pr.modelId), OneGpu()) else CandidatesFor(r, pr.modelId)
  }

  /** A preload has its copies or one on the way, or no start fits and no sleep makes one fit. */
  ghost predicate PreloadMayWait(r: Round, pr: Pressure) {
    || |Filter(r.live, OfModel(pr.modelId))| >= pr.desiredWorkers
    || !NoTransition(r, pr.modelId)
    || (NoStart(r, PreloadCandidates(r, pr)) && NoSleepHelps(r, pr, PreloadCandidates(r, pr)))
  }

  function ReplicaCandidates(r: Round, m: ModelId): (candidates: seq<Profile>)
    ensures forall p :: p in candidates <==> p in CandidatesFor(r, m) && p.gpuCount == 1
  {
    Filter(CandidatesFor(r, m), OneGpu())
  }

  /** The smallest replica that fits would add too little throughput. */
  ghost predicate SmallestIsUseless(r: Round, m: ModelId) {
    exists p, s :: p in ReplicaCandidates(r, m) && s in p.eligibleGpuSets
                   && IsSmallestStart(r, ReplicaCandidates(r, m), p, s)
                   && !UsefulMargin(r.planner, p, ReadyCopies(r, m))
  }

  ghost predicate StartsSmallest(r: Round, candidates: seq<Profile>, actions: seq<Action>, reason: string) {
    && |actions| == 1 && actions[0].Start? && actions[0].reason == reason && actions[0].profile in candidates
    && IsSmallestStart(r, candidates, actions[0].profile, actions[0].gpus)
  }

  /** The cheapest set of idle blockers is put to sleep whose sleep makes room for one of the candidates. */
  ghost predicate SleepsForRoom(r: Round, pr: Pressure, candidates: seq<Profile>, existing: Option<seq<Worker>>,
                                actions: seq<Action>, reason: string)
  {
    exists placements, chosen ::
      && ArePlacements(candidates, existing, placements)
      && OptimalSleep(r.planner.limits, r.all, DemandOf(r, pr), r.live, placements, Some(chosen))
      && actions == SleepActions(chosen, reason)
  }

  /** The smallest, least recently wanted set of cached copies is evicted that makes room for a candidate. */
  ghost predicate EvictsForRoom(r: Round, candidates: seq<Profile>, actions: seq<Action>, reason: string) {
    exists placements, chosen ::
      && ArePlacements(candidates, None, placements)
      && OptimalEviction(r.planner.limits, r.all, PressuredModels(r.pressures), r.live, placements, Some(chosen))
      && actions == DrainActions(chosen, reason)
  }

  ghost predicate IsSmallestStart(r: Round, candidates: seq<Profile>, p: Profile, s: seq<Gpu>) {
    && CanStart(r.planner.limits, r.all, r.live, p, s)
    && forall q, u :: q in candidates && u in q.eligibleGpuSets && CanStart(r.planner.limits, r.all, r.live, q, u) ==>
         SmallerProfile(p, q)
  }

  /** The ready copies suffice, no profile takes one GPU, or no replica wakes, usefully starts or gets room. */
  ghost predicate ReplicaMayWait(r: Round, pr: Pressure) {
    var ready := ReadyCopies(r, pr.modelId);
    || EnoughCopies(pr, |ready|, TotalThroughput(ready), r.planner.scaleWindow)
    || ReplicaCandidates(r, pr.modelId) == []
    || (&& (forall w :: w in CachedCopies(r, pr.modelId) && w.profile.gpuCount == 1 ==>
              !CanWake(r.planner.limits, r.all, r.live, w))
        && (NoStart(r, ReplicaCandidates(r, pr.modelId)) || SmallestIsUseless(r, pr.modelId))
        && NoSleepHelps(r, pr, ReplicaCandidates(r, pr.modelId)))
  }

  /** Demand the planner may leave unanswered: it is being served already, or it is stuck. */
  ghost predicate MayWait(r: Round, pr: Pressure) {
    if pr.preload then PreloadMayWait(r, pr)
    else if !NoTransition(r, pr.modelId) then true
    else if ReadyCopies(r, pr.modelId) != [] then ReplicaMayWait(r, pr)
    else if CachedCopies(r, pr.modelId) == [] then ColdIsStuck(r, pr)
    else CachedIsStuck(r, pr)
  }

  // ---------- the cases of one pressure ----------

  function SleepActions(ws: seq<Worker>, reason: string): (actions: seq<Action>)
    ensures |actions| == |ws|
    ensures forall k :: 0 <= k < |ws| ==> actions[k] == Sleep(ws[k].id, reason)
  {
    seq(|ws|, k requires 0 <= k < |ws| => Sleep(ws[k].id, reason))
  }

  function DrainActions(ws: seq<Worker>, reason: string): (actions: seq<Action>)
    ensures |actions| == |ws|
    ensures forall k :: 0 <= k < |ws| ==> actions[k] == Drain(ws[k].id, reason)
  {
    seq(|ws|, k requires 0 <= k < |ws| => Drain(ws[k].id, reason))
  }

  function WakeActions(ws: seq<Worker>, first: string, others: string): (actions: seq<Action>)
    ensures |actions| == |ws|
    ensures forall k :: 0 <= k < |ws| ==>
              actions[k] == Wake(ws[k].id, if k == 0 then first else others)
  {
    seq(|ws|, k requires 0 <= k < |ws| => Wake(ws[k].id, if k == 0 then first else others))
  }

  lemma {:induction false} BlockersAreIdle(r: Round, d: Demand, pl: Placement, ids: set<WorkerId>, chosen: seq<Worker>,
                        reason: string)
    requires DistinctIds(r.live) && d.now == r.now && d.minimumResidency == r.planner.minimumResidency
    requires ids != {} && ids <= Ids(SleepBlockers(d, r.live, pl.gpus)) && chosen == Pick(r.live, ids)
    ensures chosen != [] && SoundSleeps(r, SleepActions(chosen, reason))
  {
    PickedAreKept(r.live, MaySleepOn(d, r.live, pl.gpus), ids);
    forall k | 0 <= k < |chosen| ensures SleepsIdle(r, Sleep(chosen[k].id, reason)) {
      assert chosen[k] in chosen && MaySleep(d, r.live, pl.gpus, chosen[k]);
      assert IdleResident(r, chosen[k]);
    }
  }

  lemma ChosenSleepersAreIdle(r: Round, pr: Pressure, placements: seq<Placement>, chosen: seq<Worker>,
                              reason: string)
    requires DistinctIds(r.live)
    requires OptimalSleep(r.planner.limits, r.all, DemandOf(r, pr), r.live, placements, Some(chosen))
    ensures chosen != [] && SoundSleeps(r, SleepActions(chosen, reason))
  {
    var pl :| pl in placements
              && SleepEnables(r.planner.limits, r.all, DemandOf(r, pr), r.live, pl, Ids(chosen));
    BlockersAreIdle(r, DemandOf(r, pr), pl, Ids(chosen), chosen, reason);
  }

  /** Ask for the cheapest set of idle blockers whose sleep makes room for one of the candidates. */
  method SleepForRoom(r: Round, pr: Pressure, candidates: seq<Profile>, existing: Option<seq<Worker>>,
                      reason: string)
    returns (actions: seq<Action>)
    requires DistinctIds(r.live)
    ensures actions != [] ==> SoundSleeps(r, actions) && SleepsForRoom(r, pr, candidates, existing, actions, reason)
    ensures actions == [] && existing.None? ==> NoSleepHelps(r, pr, candidates)
    ensures actions == [] && existing.Some? ==>
              forall w, ids :: w in existing.value && w.profile in candidates ==>
                !SleepEnables(r.planner.limits, r.all, DemandOf(r, pr), r.live,
                              Placement(w.profile, w.gpus, Some(w.id)), ids)
  {
    var placements := SleepPlacements(candidates, existing);
    var choice := ChoosePrismSleep(r.planner.limits, r.all, DemandOf(r, pr), r.live, placements);
    if choice.None? {
      return [];
    }
    ChosenSleepersAreIdle(r, pr, placements, choice.value, reason);
    actions := SleepActions(choice.value, reason);
  }

  /** A missing copy is started as small as possible, or room is made for one that does not fit. */
  ghost predicate AnswersPreload(r: Round, pr: Pressure, actions: seq<Action>) {
    var candidates := PreloadCandidates(r, pr);
    && |Filter(r.live, OfModel(pr.modelId))| < pr.desiredWorkers && NoTransition(r, pr.modelId)
    && (|| StartsSmallest(r, candidates, actions, "prism_preload")
        || (NoStart(r, candidates)
            && SleepsForRoom(r, pr, candidates, None, actions, "prism_weight_capacity")))
  }

  method StartSmallest(r: Round, pr: Pressure, candidates: seq<Profile>, reason: string) returns (actions: seq<Action>)
    requires pr in r.pressures && forall p :: p in candidates ==> p in CandidatesFor(r, pr.modelId)
    ensures actions == [] ==> NoStart(r, candidates)
    ensures actions != [] ==> SoundStart(r, actions) && StartsSmallest(r, candidates, actions, reason)
  {
    var start := SmallestCachedPrismFitting(r.planner.limits, candidates, r.all, r.live);
    if start.None? {
      return [];
    }
    actions := [Start(start.value.0, start.value.1, reason)];
  }

  method PlanPreload(r: Round, pr: Pressure) returns (actions: seq<Action>)
    requires DistinctIds(r.live) && pr in r.pressures && pr.preload
    ensures actions != [] ==> SoundStart(r, actions) || SoundSleeps(r, actions)
    ensures actions != [] ==> AnswersPreload(r, pr, actions)
    ensures actions == [] ==> PreloadMayWait(r, pr)
  {
    var copies := Filter(r.live, OfModel(pr.modelId));
    if |copies| >= pr.desiredWorkers || exists w :: w in copies && Transitioning(w) {
      return [];
    }
    var candidates := CandidatesFor(r, pr.modelId);
    if pr.desiredWorkers > 1 {
      candidates := Filter(candidates, OneGpu());
    }
    if candidates == [] {
      return [];
    }
    actions := StartSmallest(r, pr, candidates, "prism_preload");
    if actions != [] {
      return;
    }
    actions := SleepForRoom(r, pr, candidates, None, "prism_weight_capacity");
  }

  /**
   * Joint wakes of cached copies: no more than the requests; all but the last, at the speed of the
   * fastest, would leave tokens over; and the backlog is covered unless no further copy fits.
   */
  ghost predicate WakesAsManyAsWanted(r: Round, pr: Pressure, actions: seq<Action>, wakes: seq<Worker>) {
    var cached := CachedCopies(r, pr.modelId);
    && cached != [] && WakesThese(actions, wakes) && DistinctIds(wakes)
    && (forall w :: w in wakes ==> w in cached)
    && WakesFit(r.planner.limits, r.all, r.live, wakes)
    && SoonestFirst(r.planner.limits, r.all, r.live, cached, wakes)
    && WakesForBacklog(r, pr, cached, wakes, LargestCapacity(cached, r.planner.scaleWindow))
  }

  ghost predicate NoFurtherWake(r: Round, cached: seq<Worker>, wakes: seq<Worker>) {
    forall w :: w in cached && w.id !in Ids(wakes) ==> !CanWake(r.planner.limits, r.all, Projected(r.live, wakes), w)
  }

  ghost predicate WakesForBacklog(r: Round, pr: Pressure, cached: seq<Worker>, wakes: seq<Worker>, capacity: real) {
    var (n, tokens, each) := (|wakes|, pr.estimatedTokens as real, RealMax(capacity, 1.0));
    && n <= Max(pr.requests, 1)
    && (n > 1 ==> tokens > (n - 1) as real * each)
    && (n < Max(pr.requests, 1) && tokens > n as real * each ==> NoFurtherWake(r, cached, wakes))
  }

  lemma WantedWakesSuitBacklog(r: Round, pr: Pressure, cached: seq<Worker>, wakes: seq<Worker>, desired: int,
                               capacity: real)
    requires |wakes| <= desired && IsWanted(desired, pr.requests, pr.estimatedTokens, capacity)
    requires |wakes| < desired ==> NoFurtherWake(r, cached, wakes)
    ensures WakesForBacklog(r, pr, cached, wakes, capacity)
  {
    FewerThanWanted(|wakes|, desired, pr.requests, pr.estimatedTokens, capacity);
  }

  function ProfilesOf(ws: seq<Worker>): (profiles: seq<Profile>)
    ensures forall w :: w in ws ==> w.profile in profiles
  {
    if ws == [] then [] else [ws[0].profile] + ProfilesOf(ws[1..])
  }

  ghost predicate NoWake(r: Round, cached: seq<Worker>) {
    forall w :: w in cached ==> !CanWake(r.planner.limits, r.all, r.live, w)
  }

  /** The copies to wake together, as many as the backlog wants. */
  method WantedWakes(r: Round, pr: Pressure, cached: seq<Worker>) returns (wakes: seq<Worker>)
    requires cached != [] && DistinctIds(cached)
    ensures DistinctIds(wakes) && forall w :: w in wakes ==> w in cached
    ensures WakesFit(r.planner.limits, r.all, r.live, wakes)
    ensures SoonestFirst(r.planner.limits, r.all, r.live, cached, wakes)
    ensures WakesForBacklog(r, pr, cached, wakes, LargestCapacity(cached, r.planner.scaleWindow))
    ensures wakes == [] ==> NoWake(r, cached)
  {
    var capacity := LargestCapacity(cached, r.planner.scaleWindow);
    var desired := DesiredCopies(pr, capacity);
    wakes := CachedWakes(r.planner.limits, cached, r.all, r.live, desired);
    WantedWakesSuitBacklog(r, pr, cached, wakes, desired, capacity);
    if wakes == [] {
      assert Projected(r.live, wakes) == r.live && Ids(wakes) == {};
    }
  }

  method WakeCached(r: Round, pr: Pressure) returns (actions: seq<Action>)
    requires DistinctIds(r.live) && pr in r.pressures && !pr.preload
    requires CachedCopies(r, pr.modelId) != []
    ensures actions == [] ==> NoWake(r, CachedCopies(r, pr.modelId))
    ensures actions != [] ==>
              exists wakes :: wakes != [] && SoundWakes(r, actions, wakes) && WakesAsManyAsWanted(r, pr, actions, wakes)
  {
    FilteredIds(r.live, CachedOf(pr.modelId, set p | p in CandidatesFor(r, pr.modelId) :: p.id));
    var wakes := WantedWakes(r, pr, CachedCopies(r, pr.modelId));
    actions := WakeActions(wakes, "prism_ram_cache_hit", "prism_replica_ram_cache_hit");
    if wakes != [] {
      assert SoundWakes(r, actions, wakes) && WakesAsManyAsWanted(r, pr, actions, wakes);
    }
  }

  /** Cached copies are woken, or room is made for one when none of them fits. */
  ghost predicate AnswersCached(r: Round, pr: Pressure, actions: seq<Action>) {
    var cached := CachedCopies(r, pr.modelId);
    || (exists wakes :: wakes != [] && WakesAsManyAsWanted(r, pr, actions, wakes))
    || (NoWake(r, cached)
        && SleepsForRoom(r, pr, ProfilesOf(cached), Some(cached), actions, "prism_weight_capacity"))
  }

  method PlanCached(r: Round, pr: Pressure) returns (actions: seq<Action>)
    requires DistinctIds(r.live) && pr in r.pressures && !pr.preload
    requires CachedCopies(r, pr.modelId) != []
    ensures SoundActions(r, actions)
    ensures actions == [] ==> CachedIsStuck(r, pr)
    ensures actions != [] ==> AnswersCached(r, pr, actions)
  {
    actions := WakeCached(r, pr);
    if actions != [] {
      return;
    }
    var cached := CachedCopies(r, pr.modelId);
    actions := SleepForRoom(r, pr, ProfilesOf(cached), Some(cached), "prism_weight_capacity");
  }

  lemma {:induction false} EvictionsAreCached(r: Round, pr: Pressure, pl: Placement, ids: set<WorkerId>,
                           chosen: seq<Worker>, reason: string)
    requires DistinctIds(r.live) && pr in r.pressures && !pr.preload
    requires ids != {} && ids <= Ids(Evictable(PressuredModels(r.pressures), r.live, pl))
    requires chosen == Pick(r.live, ids)
    ensures chosen != [] && SoundEvictions(r, DrainActions(chosen, reason))
  {
    var pressured := PressuredModels(r.pressures);
    PickedAreKept(r.live, KeepFor(EvictKeep(pressured), pl), ids);
    forall k | 0 <= k < |chosen| ensures EvictsCached(r, Drain(chosen[k].id, reason)) {
      assert chosen[k] in chosen && MayEvict(pressured, pl, chosen[k]);
    }
  }

  lemma ChosenEvictionsAreCached(r: Round, pr: Pressure, placements: seq<Placement>,
                                 chosen: seq<Worker>, reason: string)
    requires DistinctIds(r.live) && pr in r.pressures && !pr.preload
    requires OptimalEviction(r.planner.limits, r.all, PressuredModels(r.pressures), r.live, placements,
                             Some(chosen))
    ensures chosen != [] && SoundEvictions(r, DrainActions(chosen, reason))
  {
    var pl :| pl in placements
              && EvictEnables(r.planner.limits, r.all, PressuredModels(r.pressures), r.live, pl,
                              Ids(chosen));
    EvictionsAreCached(r, pr, pl, Ids(chosen), chosen, reason);
  }

  method EvictForRoom(r: Round, pr: Pressure, candidates: seq<Profile>, reason: string) returns (actions: seq<Action>)
    requires DistinctIds(r.live) && pr in r.pressures && !pr.preload
    ensures actions != [] ==> SoundEvictions(r, actions) && EvictsForRoom(r, candidates, actions, reason)
    ensures actions == [] ==> NoEvictionHelps(r, candidates)
  {
    var placements := SleepPlacements(candidates, None);
    var choice := ChooseCacheEviction(r.planner.limits, r.all, PressuredModels(r.pressures), r.live, placements);
    if choice.None? {
      return [];
    }
    ChosenEvictionsAreCached(r, pr, placements, choice.value, reason);
    actions := DrainActions(choice.value, reason);
  }

  /** The smallest profile is started; only when none fits others sleep; only when that is no help, copies go. */
  ghost predicate AnswersCold(r: Round, pr: Pressure, actions: seq<Action>) {
    var candidates := CandidatesFor(r, pr.modelId);
    || StartsSmallest(r, candidates, actions, "prism_cold_backlog")
    || (NoStart(r, candidates) && SleepsForRoom(r, pr, candidates, None, actions, "prism_weight_capacity"))
    || (NoStart(r, candidates) && NoSleepHelps(r, pr, candidates)
        && EvictsForRoom(r, candidates, actions, "prism_ram_cache_lru"))
  }

  method PlanCold(r: Round, pr: Pressure) returns (actions: seq<Action>)
    requires DistinctIds(r.live) && pr in r.pressures && !pr.preload
    ensures SoundActions(r, actions)
    ensures actions == [] ==> ColdIsStuck(r, pr)
    ensures actions != [] ==> AnswersCold(r, pr, actions)
  {
    var candidates := CandidatesFor(r, pr.modelId);
    actions := StartSmallest(r, pr, candidates, "prism_cold_backlog");
    if actions != [] {
      return;
    }
    actions := SleepForRoom(r, pr, candidates, None, "prism_weight_capacity");
    if actions != [] {
      return;
    }
    actions := EvictForRoom(r, pr, candidates, "prism_ram_cache_lru");
  }

  lemma OneWakeIsSound(r: Round, pr: Pressure, w: Worker, reason: string)
    requires pr in r.pressures && !pr.preload && w in CachedCopies(r, pr.modelId)
    requires CanWake(r.planner.limits, r.all, r.live, w)
    ensures SoundWakes(r, [Wake(w.id, reason)], [w])
  {
    assert [w][..0] == [] && Projected(r.live, []) == r.live;
  }

  function OneGpuCached(r: Round, m: ModelId): (cached: seq<Worker>)
    ensures forall w :: w in cached <==> w in CachedCopies(r, m) && w.profile.gpuCount == 1
  {
    Filter(CachedCopies(r, m), OneGpuWorker())
  }

  ghost predicate WakesSoonest(r: Round, cached: seq<Worker>, actions: seq<Action>, reason: string) {
    exists w ::
      && w in cached && CanWake(r.planner.limits, r.all, r.live, w) && actions == [Wake(w.id, reason)]
      && forall v :: v in cached && CanWake(r.planner.limits, r.all, r.live, v) ==> WakesSooner(w, v)
  }

  /**
   * The ready copies do not suffice, and one replica on one GPU comes: the soonest cached copy wakes;
   * else the smallest profile starts if it adds enough throughput; else room is made for one.
   */
  ghost predicate AnswersReplica(r: Round, pr: Pressure, actions: seq<Action>) {
    var (ready, candidates) := (ReadyCopies(r, pr.modelId), ReplicaCandidates(r, pr.modelId));
    && !EnoughCopies(pr, |ready|, TotalThroughput(ready), r.planner.scaleWindow)
    && (|| WakesSoonest(r, OneGpuCached(r, pr.modelId), actions, "prism_replica_ram_cache_hit")
        || (NoWake(r, OneGpuCached(r, pr.modelId)) && StartsSmallest(r, candidates, actions, "prism_replica_backlog")
            && UsefulMargin(r.planner, actions[0].profile, ready))
        || (NoWake(r, OneGpuCached(r, pr.modelId))
            && (NoStart(r, candidates) || SmallestIsUseless(r, pr.modelId))
            && SleepsForRoom(r, pr, candidates, None, actions, "prism_replica_capacity")))
  }

  method WakeReplica(r: Round, pr: Pressure) returns (actions: seq<Action>)
    requires pr in r.pressures && !pr.preload
    ensures actions == [] ==> NoWake(r, OneGpuCached(r, pr.modelId))
    ensures actions != [] ==>
              && (exists wakes :: SoundWakes(r, actions, wakes))
              && WakesSoonest(r, OneGpuCached(r, pr.modelId), actions, "prism_replica_ram_cache_hit")
  {
    var wake := FirstCachedWake(r.planner.limits, OneGpuCached(r, pr.modelId), r.all, r.live);
    if wake.None? {
      return [];
    }
    actions := [Wake(wake.value.id, "prism_replica_ram_cache_hit")];
    OneWakeIsSound(r, pr, wake.value, "prism_replica_ram_cache_hit");
  }

  method StartReplica(r: Round, pr: Pressure) returns (actions: seq<Action>)
    requires pr in r.pressures
    ensures var (ready, candidates) := (ReadyCopies(r, pr.modelId), ReplicaCandidates(r, pr.modelId));
            && (actions == [] ==> NoStart(r, candidates) || SmallestIsUseless(r, pr.modelId))
            && (actions != [] ==> SoundStart(r, actions) && UsefulMargin(r.planner, actions[0].profile, ready)
                                  && StartsSmallest(r, candidates, actions, "prism_replica_backlog"))
  {
    actions := StartSmallest(r, pr, ReplicaCandidates(r, pr.modelId), "prism_replica_backlog");
    if actions != [] && !UsefulMargin(r.planner, actions[0].profile, ReadyCopies(r, pr.modelId)) {
      return [];
    }
  }

  method PlanReplica(r: Round, pr: Pressure) returns (actions: seq<Action>)
    requires DistinctIds(r.live) && pr in r.pressures && !pr.preload
    ensures SoundActions(r, actions)
    ensures actions != [] ==> AnswersReplica(r, pr, actions)
    ensures actions == [] ==> ReplicaMayWait(r, pr)
  {
    var ready := ReadyCopies(r, pr.modelId);
    EnoughCopiesExactlyWhen(pr, |ready|, ready, r.planner.scaleWindow);
    if DesiredCopies(pr, TotalCapacity(ready, r.planner.scaleWindow)) <= |ready| {
      return [];
    }
    if ReplicaCandidates(r, pr.modelId) == [] {
      return [];
    }
    actions := WakeReplica(r, pr);
    if actions != [] {
      return;
    }
    actions := StartReplica(r, pr);
    if actions != [] {
      return;
    }
    actions := SleepForRoom(r, pr, ReplicaCandidates(r, pr.modelId), None, "prism_replica_capacity");
  }

  /** How a round answers demand it does not leave waiting. */
  ghost predicate Answers(r: Round, pr: Pressure, actions: seq<Action>) {
    if pr.preload then AnswersPreload(r, pr, actions)
    else
      && NoTransition(r, pr.modelId)
      && (if ReadyCopies(r, pr.modelId) != [] then AnswersReplica(r, pr, actions)
          else if CachedCopies(r, pr.modelId) != [] then AnswersCached(r, pr, actions)
          else AnswersCold(r, pr, actions))
  }

  // ---------- an answer leads on ----------

  function AskedIds(actions: seq<Action>): set<WorkerId> {
    set a | a in actions && (a.Sleep? || a.Drain?) :: a.workerId
  }

  lemma AskedToSleep(ws: seq<Worker>, reason: string)
    ensures AskedIds(SleepActions(ws, reason)) == Ids(ws)
  {
    forall w | w in ws ensures w.id in AskedIds(SleepActions(ws, reason)) {
      var k :| 0 <= k < |ws| && ws[k] == w;
      assert SleepActions(ws, reason)[k] in SleepActions(ws, reason);
    }
  }

  lemma AskedToLeave(ws: seq<Worker>, reason: string)
    ensures AskedIds(DrainActions(ws, reason)) == Ids(ws)
  {
    forall w | w in ws ensures w.id in AskedIds(DrainActions(ws, reason)) {
      var k :| 0 <= k < |ws| && ws[k] == w;
      assert DrainActions(ws, reason)[k] in DrainActions(ws, reason);
    }
  }

  /** Once all those asked to sleep do, a candidate can start, or a cached copy can wake where it is. */
  lemma AnsweredSleepMakesRoom(r: Round, pr: Pressure, candidates: seq<Profile>, existing: Option<seq<Worker>>,
                               actions: seq<Action>, reason: string)
    requires DistinctIds(r.live) && SleepsForRoom(r, pr, candidates, existing, actions, reason)
    ensures var asleep := SleepAll(r.live, AskedIds(actions));
            if existing.Some? then exists w :: w in existing.value && CanWake(r.planner.limits, r.all, asleep, w)
            else exists p, s :: p in candidates && s in p.eligibleGpuSets
                                && CanStart(r.planner.limits, r.all, asleep, p, s)
  {
    var placements, chosen :|
      && ArePlacements(candidates, existing, placements)
      && OptimalSleep(r.planner.limits, r.all, DemandOf(r, pr), r.live, placements, Some(chosen))
      && actions == SleepActions(chosen, reason);
    AskedToSleep(chosen, reason);
    if existing.Some? {
      SleepThenWake(r.planner.limits, r.all, DemandOf(r, pr), r.live, existing.value, placements, chosen);
    } else {
      SleepThenStart(r.planner.limits, r.all, DemandOf(r, pr), r.live, candidates, placements, chosen);
    }
  }

  /** Once all the copies asked to leave are gone, a candidate can start. */
  lemma AnsweredEvictionMakesRoom(r: Round, candidates: seq<Profile>, actions: seq<Action>, reason: string)
    requires EvictsForRoom(r, candidates, actions, reason)
    ensures exists p, s :: p in candidates && s in p.eligibleGpuSets
                           && CanStart(r.planner.limits, r.all, Drop(r.live, AskedIds(actions)), p, s)
  {
    var placements, chosen :|
      && ArePlacements(candidates, None, placements)
      && OptimalEviction(r.planner.limits, r.all, PressuredModels(r.pressures), r.live, placements, Some(chosen))
      && actions == DrainActions(chosen, reason);
    AskedToLeave(chosen, reason);
    var pl :| pl in placements && EvictEnables(r.planner.limits, r.all, PressuredModels(r.pressures), r.live, pl,
                                               Ids(chosen));
    assert CanStart(r.planner.limits, r.all, Drop(r.live, AskedIds(actions)), pl.profile, pl.gpus);
  }

  /** A worker asked to sleep serves nobody; one of a model with waiting requests is not its only ready copy. */
  lemma AnsweredSleepersAreDispensable(r: Round, pr: Pressure, candidates: seq<Profile>,
                                       existing: Option<seq<Worker>>, actions: seq<Action>, reason: string, w: Worker)
    requires DistinctIds(r.live) && SleepsForRoom(r, pr, candidates, existing, actions, reason)
    requires w in r.live && w.id in AskedIds(actions)
    ensures w.state.Ready? && w.admitted == {} && w.profile.modelId != pr.modelId
    ensures r.now < pr.oldestEnqueuedAt + r.planner.fairShare
            && (exists other :: other in r.pressures && !other.preload && other.modelId == w.profile.modelId) ==>
              exists v :: v in r.live && v != w && v.state.Ready? && v.profile.modelId == w.profile.modelId
  {
    var placements, chosen :|
      && ArePlacements(candidates, existing, placements)
      && OptimalSleep(r.planner.limits, r.all, DemandOf(r, pr), r.live, placements, Some(chosen))
      && actions == SleepActions(chosen, reason);
    AskedToSleep(chosen, reason);
    PickMembers(r.live, Ids(chosen));
    assert w in chosen;
    SleepersAreDispensable(r.planner.limits, r.all, DemandOf(r, pr), r.live, placements, chosen, w);
  }

  /** An evicted copy is asleep, and no request waits for its model. */
  lemma AnsweredEvictionsAreUnwanted(r: Round, pr: Pressure, candidates: seq<Profile>, actions: seq<Action>,
                                     reason: string, w: Worker)
    requires DistinctIds(r.live) && EvictsForRoom(r, candidates, actions, reason)
    requires w in r.live && w.id in AskedIds(actions)
    ensures w.state.Sleeping?
    ensures forall other :: other in r.pressures && other.modelId == w.profile.modelId ==> other.preload
  {
    var placements, chosen :|
      && ArePlacements(candidates, None, placements)
      && OptimalEviction(r.planner.limits, r.all, PressuredModels(r.pressures), r.live, placements, Some(chosen))
      && actions == DrainActions(chosen, reason);
    AskedToLeave(chosen, reason);
    var pl :| pl in placements && EvictEnables(r.planner.limits, r.all, PressuredModels(r.pressures), r.live, pl,
                                               Ids(chosen));
    var keep := KeepFor(EvictKeep(PressuredModels(r.pressures)), pl);
    PickedAreKept(r.live, keep, Ids(chosen));
    PickMembers(r.live, Ids(chosen));
    assert w in chosen && keep(w);
  }

  method PlanPressure(r: Round, pr: Pressure) returns (actions: seq<Action>)
    requires DistinctIds(r.live) && pr in r.pressures
    ensures SoundActions(r, actions)
    ensures actions == [] ==> MayWait(r, pr)
    ensures actions != [] ==> Answers(r, pr, actions)
    ensures pr.preload && actions != [] ==> SoundStart(r, actions) || SoundSleeps(r, actions)
  {
    if CandidatesFor(r, pr.modelId) == [] {
      NoCandidatesMayWait(r, pr);
      return [];
    }
    if pr.preload {
      actions := PlanPreload(r, pr);
    } else if !NoTransition(r, pr.modelId) {
      actions := [];
    } else if ReadyCopies(r, pr.modelId) != [] {
      actions := PlanReplica(r, pr);
    } else if CachedCopies(r, pr.modelId) != [] {
      actions := PlanCached(r, pr);
    } else {
      actions := PlanCold(r, pr);
    }
  }

  lemma NoCandidatesMayWait(r: Round, pr: Pressure)
    requires CandidatesFor(r, pr.modelId) == []
    ensures MayWait(r, pr)
  {
    FilterNone(r.live, CachedOf(pr.modelId, set p | p in CandidatesFor(r, pr.modelId) :: p.id));
    assert ReplicaCandidates(r, pr.modelId) == [] && PreloadCandidates(r, pr) == [];
  }

  // ---------- the round ----------

  /** Ready, serving nothing, wanted by no waiting request, unused for the idle time, and past its residency. */
  predicate IdleTooLong(r: Round, w: Worker)
    ensures IdleTooLong(r, w)
            <==> && w.state == Ready && w.admitted == {} && w.lastDemandAt + r.planner.idleSleep <= r.now
                 && (r.planner.minimumResidency != 0 ==>
                       w.readyAt.Some? && w.readyAt.value + r.planner.minimumResidency <= r.now)
                 && forall pr :: pr in r.pressures && pr.modelId == w.profile.modelId ==> pr.preload
  {
    && w.state.Ready?
    && w.profile.modelId !in PressuredModels(r.pressures)
    && w.admitted == {}
    && r.now - w.lastDemandAt >= r.planner.idleSleep
    && ResidencySatisfied(r.planner.minimumResidency, w, r.now)
  }

  function IsIdleTooLong(r: Round): Worker -> bool {
    (w: Worker) => IdleTooLong(r, w)
  }

  predicate PressureFirst(a: Pressure, b: Pressure) {
    (!a.preload && b.preload) || (a.preload == b.preload && a.oldestEnqueuedAt <= b.oldestEnqueuedAt)
  }

  /** Waiting requests before preloads, and among either the longest waiting first. */
  predicate MoreUrgent(a: Pressure, b: Pressure) {
    if a.preload == b.preload then a.oldestEnqueuedAt < b.oldestEnqueuedAt else b.preload
  }

  /** One pressure is answered, and all more urgent ones may wait. */
  ghost predicate AnswersMostUrgent(r: Round, actions: seq<Action>) {
    exists pr :: pr in r.pressures && Answers(r, pr, actions)
                 && forall other :: other in r.pressures && MoreUrgent(other, pr) ==> MayWait(r, other)
  }

  lemma EarlierAreMoreUrgent(r: Round, ordered: seq<Pressure>, k: nat, other: Pressure)
    requires k < |ordered| && Sorted(ordered, PressureFirst) && other in ordered && MoreUrgent(other, ordered[k])
    ensures other in ordered[..k]
  {
    var j :| 0 <= j < |ordered| && ordered[j] == other;
    assert !PressureFirst(ordered[k], other);
    assert j < k && ordered[..k][j] == other;
  }

  ghost predicate AllMayWait(r: Round, pressures: seq<Pressure>) {
    forall pr :: pr in pressures ==> MayWait(r, pr)
  }

  lemma MoreUrgentMayWait(r: Round, ordered: seq<Pressure>, k: nat)
    requires k < |ordered| && Sorted(ordered, PressureFirst) && AllMayWait(r, ordered[..k])
    ensures forall other :: other in ordered && MoreUrgent(other, ordered[k]) ==> MayWait(r, other)
  {
    forall other | other in ordered && MoreUrgent(other, ordered[k]) ensures other in ordered[..k] {
      EarlierAreMoreUrgent(r, ordered, k, other);
    }
  }

  lemma OneMoreMayWait(r: Round, ordered: seq<Pressure>, k: nat)
    requires k < |ordered| && AllMayWait(r, ordered[..k]) && MayWait(r, ordered[k])
    ensures AllMayWait(r, ordered[..k + 1])
  {
    assert ordered[..k + 1] == ordered[..k] + [ordered[k]];
  }

  /** The first pressure, in planning order, for which something can be done. */
  method PlanPressures(r: Round, ordered: seq<Pressure>) returns (actions: seq<Action>)
    requires DistinctIds(r.live) && forall pr :: pr in ordered <==> pr in r.pressures
    requires Sorted(ordered, PressureFirst)
    ensures SoundActions(r, actions)
    ensures actions != [] ==> AnswersMostUrgent(r, actions)
    ensures actions == [] ==> forall pr :: pr in ordered ==> MayWait(r, pr)
    ensures (forall pr :: pr in ordered ==> pr.preload) && actions != [] ==>
              SoundStart(r, actions) || SoundSleeps(r, actions)
  {
    for k := 0 to |ordered|
      invariant AllMayWait(r, ordered[..k])
    {
      assert ordered[k] in ordered;
      actions := PlanPressure(r, ordered[k]);
      if actions != [] {
        MoreUrgentMayWait(r, ordered, k);
        return;
      }
      OneMoreMayWait(r, ordered, k);
    }
    assert ordered[..|ordered|] == ordered;
    actions := [];
  }

  method PlanPrismWeightCache(r: Round) returns (actions: seq<Action>)
    requires DistinctIds(r.live)
    ensures SoundActions(r, actions)
    ensures actions == [] ==> forall pr :: pr in r.pressures ==> MayWait(r, pr)
    ensures PressuredModels(r.pressures) == {} && actions != [] ==>
              SoundStart(r, actions) || SoundSleeps(r, actions)
    ensures var idle := Filter(r.live, IsIdleTooLong(r));
            && (idle != [] ==> actions == SleepActions(idle, "prism_idle_weight_cache"))
            && (idle == [] && actions != [] ==> AnswersMostUrgent(r, actions))
  {
    var idle := Filter(r.live, IsIdleTooLong(r));
    if idle != [] {
      actions := SleepActions(idle, "prism_idle_weight_cache");
      forall k | 0 <= k < |idle| ensures SleepsIdle(r, actions[k]) {
        assert idle[k] in idle && IdleResident(r, idle[k]);
      }
      assert SoundSleeps(r, actions);
      return;
    }
    var ordered := SortBy(r.pressures, PressureFirst);
    forall pr ensures pr in ordered <==> pr in r.pressures {
      SortByMembers(r.pressures, PressureFirst, pr);
    }
    SortByIsSorted(r.pressures, PressureFirst);
    assert forall pr :: pr in ordered && !pr.preload ==> pr.modelId in PressuredModels(r.pressures);
    actions := PlanPressures(r, ordered);
  }
}
