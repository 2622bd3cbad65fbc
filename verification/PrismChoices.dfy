/** Whom the Prism planner puts to sleep under pressure, and whom it evicts from the RAM cache. */
module PrismChoices {
  import opened Collections
  import opened Domain
  import opened Ordering
  import opened PrismFit
  import opened PrismLaws
  import opened PrismSearch
  import opened Selections

  /** A profile on a GPU set; `existing` is the cached copy to wake there, if there is one. */
  datatype Placement = Placement(profile: Profile, gpus: seq<Gpu>, existing: Option<WorkerId>)

  predicate ResidencySatisfied(minimumResidency: Time, w: Worker, now: Time) {
    minimumResidency == 0 || (w.readyAt.Some? && now - w.readyAt.value >= minimumResidency)
  }

  // ---------- sleeping idle blockers ----------

  /** The demand being placed, and what protects the engines already resident. */
  datatype Demand = Demand(modelId: ModelId, now: Time, minimumResidency: Time,
                           pressured: set<ModelId>, starved: bool)

  function IsReadyCopy(m: ModelId): Worker -> bool {
    (w: Worker) => w.state.Ready? && w.profile.modelId == m
  }

  function CountReady(ws: seq<Worker>, m: ModelId): int {
    SumOf(ws, OneIf(IsReadyCopy(m)))
  }

  predicate MaySleep(d: Demand, ws: seq<Worker>, gpus: seq<Gpu>, w: Worker) {
    && w.profile.modelId != d.modelId
    && w.state.Ready?
    && Overlaps(w.gpus, gpus)
    && w.admitted == {}
    && ResidencySatisfied(d.minimumResidency, w, d.now)
    && (w.profile.modelId !in d.pressured || CountReady(ws, w.profile.modelId) > 1 || d.starved)
  }

  /** Whether an element beside this one passes a test, told by counting. */
  lemma {:induction false} SomeExactlyWhenCounted(ws: seq<Worker>, p: Worker -> bool)
    ensures SumOf(ws, OneIf(p)) >= 1 <==> exists w :: w in ws && p(w)
    ensures SumOf(ws, OneIf(p)) >= 0
  {
    if ws != [] {
      SomeExactlyWhenCounted(ws[1..], p);
      assert ws == [ws[0]] + ws[1..];
      assert forall w :: w in ws <==> w == ws[0] || w in ws[1..];
    }
  }

  lemma DistinctWorkers(ws: seq<Worker>)
    requires DistinctIds(ws)
    ensures NoDuplicates(ws)
  {
    forall i, j | 0 <= i < j < |ws| ensures ws[i] != ws[j] {
      assert ws[i].id != ws[j].id;
    }
  }

  /** A model has more than one ready copy exactly when there is one beside this ready copy. */
  lemma AnotherReadyExactlyWhen(ws: seq<Worker>, w: Worker)
    requires DistinctIds(ws) && w in ws && w.state.Ready?
    ensures CountReady(ws, w.profile.modelId) > 1
            <==> exists v :: v in ws && v != w && v.state.Ready? && v.profile.modelId == w.profile.modelId
  {
    var p := IsReadyCopy(w.profile.modelId);
    DistinctWorkers(ws);
    WithoutElements(ws, w);
    SumOfWithout(ws, w, OneIf(p));
    SomeExactlyWhenCounted(Without(ws, w), p);
    assert (exists v :: v in Without(ws, w) && p(v))
           <==> exists v :: v in ws && v != w && v.state.Ready? && v.profile.modelId == w.profile.modelId;
  }

  /**
   * Who may be put to sleep for a demand: idle ready engines of other models on its GPUs, past their
   * minimum residency; and the only ready copy of a model with requests waiting just for a starved demand.
   */
  lemma MaySleepExactlyWhen(d: Demand, ws: seq<Worker>, gpus: seq<Gpu>, w: Worker)
    requires DistinctIds(ws) && w in ws
    ensures MaySleep(d, ws, gpus, w)
            <==> && w.state.Ready? && w.admitted == {} && w.profile.modelId != d.modelId
                 && (exists g :: g in w.gpus && g in gpus)
                 && (d.minimumResidency != 0 ==>
                       w.readyAt.Some? && w.readyAt.value + d.minimumResidency <= d.now)
                 && (w.profile.modelId in d.pressured && !d.starved ==>
                       exists v :: v in ws && v != w && v.state.Ready? && v.profile.modelId == w.profile.modelId)
  {
    if w.state.Ready? {
      AnotherReadyExactlyWhen(ws, w);
    }
  }

  function MaySleepOn(d: Demand, ws: seq<Worker>, gpus: seq<Gpu>): Worker -> bool {
    (w: Worker) => MaySleep(d, ws, gpus, w)
  }

  function SleepBlockers(d: Demand, ws: seq<Worker>, gpus: seq<Gpu>): seq<Worker> {
    Filter(ws, MaySleepOn(d, ws, gpus))
  }

  /** Sleeping exactly these idle blockers, and at least one, makes room for the placement. */
  ghost predicate SleepEnables(limits: Limits, all: set<Gpu>, d: Demand, ws: seq<Worker>,
                               pl: Placement, ids: set<WorkerId>) {
    && Available(pl.gpus, all)
    && ids != {} && ids <= Ids(SleepBlockers(d, ws, pl.gpus))
    && Fits(limits, pl.profile, pl.gpus, ws, View(pl.existing, ids))
  }

  function TotalThroughput(ws: seq<Worker>): real {
    if ws == [] then 0.0 else ws[0].profile.predictedTokensPerSecond + TotalThroughput(ws[1..])
  }

  function DemandSum(ws: seq<Worker>): int {
    if ws == [] then 0 else ws[0].lastDemandAt + DemandSum(ws[1..])
  }

  /** Fewer workers first, then less lost throughput, then older demand. */
  predicate CheaperSleep(a: seq<Worker>, b: seq<Worker>)
    ensures CheaperSleep(a, b) ==> |a| <= |b|
    ensures CheaperSleep(a, b) && |a| == |b| ==> TotalThroughput(a) <= TotalThroughput(b)
    ensures CheaperSleep(a, b) && |a| == |b| && TotalThroughput(a) == TotalThroughput(b) ==>
              DemandSum(a) <= DemandSum(b)
  {
    || |a| < |b|
    || (|a| == |b|
        && (TotalThroughput(a) < TotalThroughput(b)
            || (TotalThroughput(a) == TotalThroughput(b) && DemandSum(a) <= DemandSum(b))))
  }

  /** Of two engines that would each do alone, the slower one goes; of equally fast ones the one longer unwanted. */
  lemma SlowerThenOlderSleeps(limits: Limits, all: set<Gpu>, d: Demand, ws: seq<Worker>,
                              placements: seq<Placement>, chosen: Worker, other: Worker, pl: Placement)
    requires DistinctIds(ws) && OptimalSleep(limits, all, d, ws, placements, Some([chosen]))
    requires other in ws && pl in placements && SleepEnables(limits, all, d, ws, pl, {other.id})
    ensures chosen.profile.predictedTokensPerSecond <= other.profile.predictedTokensPerSecond
    ensures chosen.profile.predictedTokensPerSecond == other.profile.predictedTokensPerSecond ==>
              chosen.lastDemandAt <= other.lastDemandAt
  {
    PickOne(ws, other);
    assert CheaperSleep([chosen], Pick(ws, {other.id}));
    CheaperOfTwo(chosen, other);
  }

  lemma CheaperOfTwo(a: Worker, b: Worker)
    requires CheaperSleep([a], [b])
    ensures a.profile.predictedTokensPerSecond <= b.profile.predictedTokensPerSecond
    ensures a.profile.predictedTokensPerSecond == b.profile.predictedTokensPerSecond ==>
              a.lastDemandAt <= b.lastDemandAt
  {
    assert [a][1..] == [] && [b][1..] == [];
  }

  lemma {:induction false} PickOne(ws: seq<Worker>, w: Worker)
    requires DistinctIds(ws) && w in ws
    ensures Pick(ws, {w.id}) == [w]
  {
    TailIds(ws);
    if ws[0] == w {
      PickAbsent(ws[1..], w.id);
    } else {
      PickOne(ws[1..], w);
    }
  }

  lemma {:induction false} PickAbsent(ws: seq<Worker>, id: WorkerId)
    requires forall w :: w in ws ==> w.id != id
    ensures Pick(ws, {id}) == []
  {
    if ws != [] {
      PickAbsent(ws[1..], id);
    }
  }

  /** None of the chosen sleepers serves, belongs to the demanded model, or is a waiting model's only ready copy. */
  lemma SleepersAreDispensable(limits: Limits, all: set<Gpu>, d: Demand, ws: seq<Worker>,
                               placements: seq<Placement>, chosen: seq<Worker>, w: Worker)
    requires DistinctIds(ws) && OptimalSleep(limits, all, d, ws, placements, Some(chosen)) && w in chosen
    ensures w in ws && w.state.Ready? && w.admitted == {} && w.profile.modelId != d.modelId
    ensures w.profile.modelId in d.pressured && !d.starved ==>
              exists v :: v in ws && v != w && v.state.Ready? && v.profile.modelId == w.profile.modelId
  {
    var pl :| pl in placements && SleepEnables(limits, all, d, ws, pl, Ids(chosen));
    PickedAreKept(ws, MaySleepOn(d, ws, pl.gpus), Ids(chosen));
    MaySleepExactlyWhen(d, ws, pl.gpus, w);
  }

  /** Every candidate on each of its GPU sets; or every cached copy of a candidate where it is. */
  ghost predicate ArePlacements(candidates: seq<Profile>, existing: Option<seq<Worker>>, placements: seq<Placement>) {
    if existing.None? then
      && (forall p, s :: p in candidates && s in p.eligibleGpuSets ==> Placement(p, s, None) in placements)
      && (forall pl :: pl in placements ==>
            pl.existing.None? && pl.profile in candidates && pl.gpus in pl.profile.eligibleGpuSets)
    else
      && (forall w :: w in existing.value && w.profile in candidates ==>
            Placement(w.profile, w.gpus, Some(w.id)) in placements)
      && (forall pl :: pl in placements ==>
            exists w :: w in existing.value && pl == Placement(w.profile, w.gpus, Some(w.id)))
  }

  method SleepPlacements(candidates: seq<Profile>, existing: Option<seq<Worker>>)
    returns (placements: seq<Placement>)
    ensures ArePlacements(candidates, existing, placements)
  {
    placements := [];
    if existing.None? {
      for c := 0 to |candidates|
        invariant forall j, s :: 0 <= j < c && s in candidates[j].eligibleGpuSets ==>
                    Placement(candidates[j], s, None) in placements
        invariant forall pl :: pl in placements ==>
                    pl.existing.None? && pl.profile in candidates && pl.gpus in pl.profile.eligibleGpuSets
      {
        var p := candidates[c];
        var here := seq(|p.eligibleGpuSets|, k requires 0 <= k < |p.eligibleGpuSets| =>
          Placement(p, p.eligibleGpuSets[k], None));
        forall s | s in p.eligibleGpuSets ensures Placement(p, s, None) in here {
          var k :| 0 <= k < |p.eligibleGpuSets| && p.eligibleGpuSets[k] == s;
          assert here[k] == Placement(p, s, None);
        }
        placements := placements + here;
      }
    } else {
      var copies := existing.value;
      var profileIds := set p | p in candidates :: p.id;
      for c := 0 to |copies|
        invariant forall j :: 0 <= j < c && copies[j].profile in candidates ==>
                    Placement(copies[j].profile, copies[j].gpus, Some(copies[j].id)) in placements
        invariant forall pl :: pl in placements ==>
                    exists w :: w in copies && pl == Placement(w.profile, w.gpus, Some(w.id))
      {
        if copies[c].profile.id in profileIds {
          placements := placements + [Placement(copies[c].profile, copies[c].gpus, Some(copies[c].id))];
        }
      }
    }
  }

  /** What an optimal choice of sleepers is, over all allowed placements and all sets of blockers. */
  ghost predicate OptimalSleep(limits: Limits, all: set<Gpu>, d: Demand, ws: seq<Worker>,
                               placements: seq<Placement>, choice: Option<seq<Worker>>) {
    && (choice.None? <==>
          forall pl, ids :: pl in placements ==> !SleepEnables(limits, all, d, ws, pl, ids))
    && (choice.Some? ==>
          && choice.value == Pick(ws, Ids(choice.value))
          && (exists pl :: pl in placements && SleepEnables(limits, all, d, ws, pl, Ids(choice.value)))
          && (forall pl, ids :: pl in placements && SleepEnables(limits, all, d, ws, pl, ids) ==>
                CheaperSleep(choice.value, Pick(ws, ids))))
  }

  function SleepKeep(d: Demand, ws: seq<Worker>): (Placement, Worker) -> bool {
    (pl: Placement, w: Worker) => MaySleep(d, ws, pl.gpus, w)
  }

  function SleepTest(limits: Limits, all: set<Gpu>, ws: seq<Worker>): (Placement, set<WorkerId>) -> bool {
    (pl: Placement, ids: set<WorkerId>) =>
      Available(pl.gpus, all) && Fits(limits, pl.profile, pl.gpus, ws, View(pl.existing, ids))
  }

  lemma SleepEnablesMeans(limits: Limits, all: set<Gpu>, d: Demand, ws: seq<Worker>, pl: Placement,
                          ids: set<WorkerId>)
    ensures Enables(ws, SleepKeep(d, ws), SleepTest(limits, all, ws), pl, ids)
            <==> SleepEnables(limits, all, d, ws, pl, ids)
  {
    FilterCongruent(ws, KeepFor(SleepKeep(d, ws), pl), MaySleepOn(d, ws, pl.gpus));
  }

  method ChoosePrismSleep(limits: Limits, all: set<Gpu>, d: Demand, ws: seq<Worker>,
                          placements: seq<Placement>)
    returns (choice: Option<seq<Worker>>)
    requires DistinctIds(ws)
    ensures OptimalSleep(limits, all, d, ws, placements, choice)
  {
    choice := BestSelection(ws, placements, SleepKeep(d, ws), SleepTest(limits, all, ws), CheaperSleep);
    forall pl, ids
      ensures Enables(ws, SleepKeep(d, ws), SleepTest(limits, all, ws), pl, ids)
              <==> SleepEnables(limits, all, d, ws, pl, ids)
    {
      SleepEnablesMeans(limits, all, d, ws, pl, ids);
    }
  }

  // ---------- the last ready copy ----------

  /** A ready copy of the model that these sleepers leave. */
  predicate KeepsACopy(ws: seq<Worker>, m: ModelId, ids: set<WorkerId>) {
    exists v :: v in ws && v.state.Ready? && v.profile.modelId == m && v.id !in ids
  }

  /**
   * Each blocker is judged beside all the others, so that several copies of a model may go together. Every
   * set of blockers leaves a ready copy exactly when some ready copy is no blocker itself.
   */
  lemma SleepKeepsACopyExactlyWhen(d: Demand, ws: seq<Worker>, gpus: seq<Gpu>, m: ModelId)
    requires DistinctIds(ws)
    ensures (forall ids :: ids <= Ids(SleepBlockers(d, ws, gpus)) ==> KeepsACopy(ws, m, ids))
            <==> exists v :: v in ws && v.state.Ready? && v.profile.modelId == m && !MaySleep(d, ws, gpus, v)
  {
    var everyone := Ids(SleepBlockers(d, ws, gpus));
    FilteredIds(ws, MaySleepOn(d, ws, gpus));
    if KeepsACopy(ws, m, everyone) {
      var v :| v in ws && v.state.Ready? && v.profile.modelId == m && v.id !in everyone;
      assert v !in SleepBlockers(d, ws, gpus);
    }
    if v :| v in ws && v.state.Ready? && v.profile.modelId == m && !MaySleep(d, ws, gpus, v) {
      forall ids | ids <= everyone ensures KeepsACopy(ws, m, ids) {
        if v.id in everyone {
          var b :| b in SleepBlockers(d, ws, gpus) && b.id == v.id;
          SameIdSameWorker(ws, v, b);
        }
      }
    }
  }

  /** Two idle copies of a model whose requests wait may both be put to sleep for one newcomer. */
  lemma BothCopiesMaySleep(d: Demand, a: Worker, b: Worker, gpus: seq<Gpu>)
    requires a.id != b.id && a.state.Ready? && b.state.Ready? && a.admitted == {} && b.admitted == {}
    requires a.profile.modelId == b.profile.modelId && a.profile.modelId != d.modelId
    requires a.profile.modelId in d.pressured && d.minimumResidency == 0
    requires Overlaps(a.gpus, gpus) && Overlaps(b.gpus, gpus)
    ensures {a.id, b.id} <= Ids(SleepBlockers(d, [a, b], gpus)) && !KeepsACopy([a, b], a.profile.modelId, {a.id, b.id})
  {
    assert a in [a, b] && b in [a, b];
    AnotherReadyExactlyWhen([a, b], a);
    AnotherReadyExactlyWhen([a, b], b);
    assert a in SleepBlockers(d, [a, b], gpus) && b in SleepBlockers(d, [a, b], gpus);
  }

  // ---------- progress after sleeping ----------

  lemma BlockersAreAlive(d: Demand, ws: seq<Worker>, gpus: seq<Gpu>, ids: set<WorkerId>)
    requires DistinctIds(ws) && ids <= Ids(SleepBlockers(d, ws, gpus))
    ensures AliveWhere(ws, ids)
  {
    forall w | w in ws && w.id in ids ensures !w.state.Cold? {
      var b :| b in SleepBlockers(d, ws, gpus) && b.id == w.id;
      SameIdSameWorker(ws, w, b);
    }
  }

  lemma SameIdSameWorker(ws: seq<Worker>, a: Worker, b: Worker)
    requires DistinctIds(ws) && a in ws && b in ws && a.id == b.id
    ensures a == b
  {
    var i :| 0 <= i < |ws| && ws[i] == a;
    var j :| 0 <= j < |ws| && ws[j] == b;
    assert i == j;
  }

  /** Workers picked by ids of kept workers are kept workers. */
  lemma {:induction false} PickedAreKept(ws: seq<Worker>, keep: Worker -> bool, ids: set<WorkerId>)
    requires DistinctIds(ws) && ids <= Ids(Filter(ws, keep))
    ensures forall w :: w in Pick(ws, ids) ==> w in ws && keep(w)
    ensures ids != {} ==> Pick(ws, ids) != []
  {
    PickMembers(ws, ids);
    FilteredIds(ws, keep);
    PickHasItsIds(ws, ids);
    forall w | w in Pick(ws, ids) ensures keep(w) {
      var b :| b in Filter(ws, keep) && b.id == w.id;
      SameIdSameWorker(ws, w, b);
    }
  }

  /** Once the chosen blockers sleep, one of the placements they were chosen for fits. */
  lemma SleepMakesRoom(limits: Limits, all: set<Gpu>, d: Demand, ws: seq<Worker>,
                       placements: seq<Placement>, chosen: seq<Worker>) returns (pl: Placement)
    requires DistinctIds(ws) && OptimalSleep(limits, all, d, ws, placements, Some(chosen))
    ensures pl in placements && Available(pl.gpus, all)
    ensures Fits(limits, pl.profile, pl.gpus, SleepAll(ws, Ids(chosen)), View(pl.existing, {}))
  {
    pl :| pl in placements && SleepEnables(limits, all, d, ws, pl, Ids(chosen));
    BlockersAreAlive(d, ws, pl.gpus, Ids(chosen));
    ProspectiveSleepIsSleep(limits, pl.profile, pl.gpus, ws, pl.existing, Ids(chosen));
  }

  /** After the blockers chosen for a cold start sleep, the start search is certain to succeed. */
  lemma SleepThenStart(limits: Limits, all: set<Gpu>, d: Demand, ws: seq<Worker>,
                       candidates: seq<Profile>, placements: seq<Placement>, chosen: seq<Worker>)
    requires DistinctIds(ws) && OptimalSleep(limits, all, d, ws, placements, Some(chosen))
    requires forall pl :: pl in placements ==>
               pl.existing.None? && pl.profile in candidates && pl.gpus in pl.profile.eligibleGpuSets
    ensures exists p, s :: p in candidates && s in p.eligibleGpuSets
                           && CanStart(limits, all, SleepAll(ws, Ids(chosen)), p, s)
  {
    var pl := SleepMakesRoom(limits, all, d, ws, placements, chosen);
    assert CanStart(limits, all, SleepAll(ws, Ids(chosen)), pl.profile, pl.gpus);
  }

  /** After the blockers chosen for a cached copy sleep, the wake search is certain to succeed. */
  lemma SleepThenWake(limits: Limits, all: set<Gpu>, d: Demand, ws: seq<Worker>,
                      sleeping: seq<Worker>, placements: seq<Placement>, chosen: seq<Worker>)
    requires DistinctIds(ws) && OptimalSleep(limits, all, d, ws, placements, Some(chosen))
    requires forall pl :: pl in placements ==>
               exists w :: w in sleeping && pl == Placement(w.profile, w.gpus, Some(w.id))
    ensures exists w :: w in sleeping && CanWake(limits, all, SleepAll(ws, Ids(chosen)), w)
  {
    var pl := SleepMakesRoom(limits, all, d, ws, placements, chosen);
    var w :| w in sleeping && pl == Placement(w.profile, w.gpus, Some(w.id));
    assert CanWake(limits, all, SleepAll(ws, Ids(chosen)), w);
  }

  // ---------- evicting cached copies ----------

  predicate MayEvict(pressured: set<ModelId>, pl: Placement, w: Worker) {
    && w.state.Sleeping?
    && w.profile.modelId !in pressured
    && w.profile.modelId != pl.profile.modelId
    && Overlaps(w.gpus, pl.gpus)
  }

  /** Who may leave the cache: sleeping copies of other models, wanted by no request, on GPUs of the placement. */
  lemma MayEvictExactlyWhen(pressured: set<ModelId>, pl: Placement, w: Worker)
    ensures MayEvict(pressured, pl, w)
            <==> && w.state == Sleeping && w.profile.modelId !in pressured + {pl.profile.modelId}
                 && exists g :: g in w.gpus && g in pl.gpus
  {
  }

  function EvictKeep(pressured: set<ModelId>): (Placement, Worker) -> bool {
    (pl: Placement, w: Worker) => MayEvict(pressured, pl, w)
  }

  function EvictTest(limits: Limits, all: set<Gpu>, ws: seq<Worker>): (Placement, set<WorkerId>) -> bool {
    (pl: Placement, ids: set<WorkerId>) =>
      Available(pl.gpus, all) && Fits(limits, pl.profile, pl.gpus, Drop(ws, ids), Plain)
  }

  /** The sleeping copies that may be evicted for a placement. */
  function Evictable(pressured: set<ModelId>, ws: seq<Worker>, pl: Placement): seq<Worker> {
    Filter(ws, KeepFor(EvictKeep(pressured), pl))
  }

  /** Removing exactly these cached copies, and at least one, makes room for the placement. */
  ghost predicate EvictEnables(limits: Limits, all: set<Gpu>, pressured: set<ModelId>,
                               ws: seq<Worker>, pl: Placement, ids: set<WorkerId>) {
    && Available(pl.gpus, all)
    && ids != {} && ids <= Ids(Evictable(pressured, ws, pl))
    && Fits(limits, pl.profile, pl.gpus, Drop(ws, ids), Plain)
  }

  function LatestDemand(ws: seq<Worker>): int {
    if ws == [] then 0
    else if |ws| == 1 then ws[0].lastDemandAt
    else Max(ws[0].lastDemandAt, LatestDemand(ws[1..]))
  }

  function IdList(ws: seq<Worker>): (ids: seq<WorkerId>)
    ensures |ids| == |ws| && forall k :: 0 <= k < |ws| ==> ids[k] == ws[k].id
  {
    seq(|ws|, k requires 0 <= k < |ws| => ws[k].id)
  }

  /** How evictions are ranked: size, then most recent demand, then the sorted tuple of ids. */
  datatype EvictionKey = EvictionKey(count: nat, latest: int, ids: seq<WorkerId>)

  function KeyOf(ws: seq<Worker>): EvictionKey {
    EvictionKey(|ws|, LatestDemand(ws), SortBy(IdList(ws), IntLe))
  }

  predicate KeyLe(a: EvictionKey, b: EvictionKey) {
    || a.count < b.count
    || (a.count == b.count
        && (a.latest < b.latest || (a.latest == b.latest && LexLe(a.ids, b.ids))))
  }

  predicate SoonerEvicted(a: seq<Worker>, b: seq<Worker>) {
    KeyLe(KeyOf(a), KeyOf(b))
  }

  lemma KeyLeIsTotal(a: EvictionKey, b: EvictionKey)
    ensures KeyLe(a, b) || KeyLe(b, a)
    ensures KeyLe(a, b) && KeyLe(b, a) ==> a == b
  {
    LexLeIsTotal(a.ids, b.ids);
  }

  lemma KeyLeTransitive(a: EvictionKey, b: EvictionKey, c: EvictionKey)
    requires KeyLe(a, b) && KeyLe(b, c)
    ensures KeyLe(a, c)
  {
    if LexLe(a.ids, b.ids) && LexLe(b.ids, c.ids) {
      LexLeTransitive(a.ids, b.ids, c.ids);
    }
  }

  lemma SoonerEvictedIsFewerFirst()
    ensures FewerFirst(SoonerEvicted)
  {
    forall a, b ensures SoonerEvicted(a, b) || SoonerEvicted(b, a) {
      KeyLeIsTotal(KeyOf(a), KeyOf(b));
    }
    forall a, b, c | SoonerEvicted(a, b) && SoonerEvicted(b, c) ensures SoonerEvicted(a, c) {
      KeyLeTransitive(KeyOf(a), KeyOf(b), KeyOf(c));
    }
  }

  /** The smallest eviction that makes room, least recently wanted first. */
  ghost predicate OptimalEviction(limits: Limits, all: set<Gpu>, pressured: set<ModelId>,
                                  ws: seq<Worker>, placements: seq<Placement>,
                                  choice: Option<seq<Worker>>) {
    && (choice.None? <==>
          forall pl, ids :: pl in placements ==> !EvictEnables(limits, all, pressured, ws, pl, ids))
    && (choice.Some? ==>
          && choice.value == Pick(ws, Ids(choice.value))
          && (exists pl :: pl in placements
                           && EvictEnables(limits, all, pressured, ws, pl, Ids(choice.value)))
          && (forall pl, ids :: pl in placements && EvictEnables(limits, all, pressured, ws, pl, ids) ==>
                SoonerEvicted(choice.value, Pick(ws, ids))))
  }

  method ChooseCacheEviction(limits: Limits, all: set<Gpu>, pressured: set<ModelId>, ws: seq<Worker>,
                             placements: seq<Placement>)
    returns (choice: Option<seq<Worker>>)
    requires DistinctIds(ws)
    ensures OptimalEviction(limits, all, pressured, ws, placements, choice)
  {
    SoonerEvictedIsFewerFirst();
    choice := BestSelection(ws, placements, EvictKeep(pressured), EvictTest(limits, all, ws),
                            SoonerEvicted);
    forall pl, ids
      ensures Enables(ws, EvictKeep(pressured), EvictTest(limits, all, ws), pl, ids)
              <==> EvictEnables(limits, all, pressured, ws, pl, ids)
    {
    }
  }

  // ---------- the eviction does not depend on the order of the worker list ----------

  lemma {:induction false} FilterIgnoresOrder<T(!new)>(xs: seq<T>, ys: seq<T>, p: T -> bool)
    requires multiset(xs) == multiset(ys)
    ensures multiset(Filter(xs, p)) == multiset(Filter(ys, p))
  {
    var a, b := multiset(Filter(xs, p)), multiset(Filter(ys, p));
    forall x ensures a[x] == b[x] {
      FilterCounts(xs, p, x);
      FilterCounts(ys, p, x);
    }
    assert a == b;
  }

  lemma IdsIgnoreOrder(ws: seq<Worker>, other: seq<Worker>)
    requires multiset(ws) == multiset(other)
    ensures Ids(ws) == Ids(other)
  {
    forall w ensures w in ws <==> w in other {
      SameMembers(ws, other, w);
    }
  }

  lemma EnablingIgnoresOrder(limits: Limits, all: set<Gpu>, pressured: set<ModelId>, ws: seq<Worker>,
                             other: seq<Worker>, pl: Placement, ids: set<WorkerId>)
    requires multiset(ws) == multiset(other)
    ensures EvictEnables(limits, all, pressured, ws, pl, ids)
            <==> EvictEnables(limits, all, pressured, other, pl, ids)
  {
    FilterIgnoresOrder(ws, other, KeepFor(EvictKeep(pressured), pl));
    IdsIgnoreOrder(Evictable(pressured, ws, pl), Evictable(pressured, other, pl));
    FilterIgnoresOrder(ws, other, IdNotIn(ids));
    FitsIgnoresOrder(limits, pl.profile, pl.gpus, Drop(ws, ids), Drop(other, ids), Plain);
  }

  lemma {:induction false} LatestDemandIsMaximum(ws: seq<Worker>)
    requires ws != []
    ensures forall w :: w in ws ==> w.lastDemandAt <= LatestDemand(ws)
    ensures exists w :: w in ws && w.lastDemandAt == LatestDemand(ws)
  {
    assert ws[0] in ws;
    if |ws| > 1 {
      LatestDemandIsMaximum(ws[1..]);
      assert ws == [ws[0]] + ws[1..];
      var w :| w in ws[1..] && w.lastDemandAt == LatestDemand(ws[1..]);
      assert w in ws;
    } else {
      assert ws == [ws[0]];
    }
  }

  /** No fewer copies would have done; of as many, none all of whom have been unwanted for longer. */
  lemma LongestUnwantedLeave(limits: Limits, all: set<Gpu>, pressured: set<ModelId>, ws: seq<Worker>,
                             placements: seq<Placement>, chosen: seq<Worker>, pl: Placement, ids: set<WorkerId>)
    requires DistinctIds(ws) && OptimalEviction(limits, all, pressured, ws, placements, Some(chosen))
    requires pl in placements && EvictEnables(limits, all, pressured, ws, pl, ids)
    ensures |chosen| <= |ids|
    ensures |chosen| == |ids| ==>
              exists w :: w in ws && w.id in ids && forall v :: v in chosen ==> v.lastDemandAt <= w.lastDemandAt
  {
    var other := Pick(ws, ids);
    FilteredIds(ws, KeepFor(EvictKeep(pressured), pl));
    PickHasItsIds(ws, ids);
    PickMembers(ws, ids);
    assert SoonerEvicted(chosen, other);
    if |chosen| == |ids| {
      LatestDemandIsMaximum(chosen);
      LatestDemandIsMaximum(other);
      var w :| w in other && w.lastDemandAt == LatestDemand(other);
      assert w in ws && w.id in ids;
    }
  }

  /** Of two copies that would each do alone and were last wanted at the same time, the lower id leaves. */
  lemma LowerIdLeaves(limits: Limits, all: set<Gpu>, pressured: set<ModelId>, ws: seq<Worker>,
                      placements: seq<Placement>, chosen: Worker, pl: Placement, other: Worker)
    requires DistinctIds(ws) && OptimalEviction(limits, all, pressured, ws, placements, Some([chosen]))
    requires other in ws && pl in placements && EvictEnables(limits, all, pressured, ws, pl, {other.id})
    requires chosen.lastDemandAt == other.lastDemandAt
    ensures chosen.id <= other.id
  {
    PickOne(ws, other);
    assert SoonerEvicted([chosen], Pick(ws, {other.id}));
    SoonerOfTwo(chosen, other);
  }

  lemma SoonerOfTwo(a: Worker, b: Worker)
    requires SoonerEvicted([a], [b]) && a.lastDemandAt == b.lastDemandAt
    ensures a.id <= b.id
  {
    KeyOfOne(a);
    KeyOfOne(b);
  }

  lemma KeyOfOne(w: Worker)
    ensures KeyOf([w]) == EvictionKey(1, w.lastDemandAt, [w.id])
  {
    assert IdList([w]) == [w.id] && SortBy([w.id][1..], IntLe) == [];
  }

  function HasId(id: WorkerId): Worker -> bool {
    (w: Worker) => w.id == id
  }

  lemma {:induction false} IdListCounts(ws: seq<Worker>, id: WorkerId)
    ensures multiset(IdList(ws))[id] == SumOf(ws, OneIf(HasId(id)))
  {
    if ws == [] {
      assert IdList(ws) == [];
    } else {
      IdListCounts(ws[1..], id);
      assert IdList(ws) == [ws[0].id] + IdList(ws[1..]);
    }
  }

  lemma IdListPermutes(ws: seq<Worker>, other: seq<Worker>)
    requires multiset(ws) == multiset(other)
    ensures multiset(IdList(ws)) == multiset(IdList(other))
  {
    var a, b := multiset(IdList(ws)), multiset(IdList(other));
    forall id ensures a[id] == b[id] {
      IdListCounts(ws, id);
      IdListCounts(other, id);
      SumOfPermutation(ws, other, OneIf(HasId(id)));
    }
    assert a == b;
  }

  lemma KeyIgnoresOrder(ws: seq<Worker>, other: seq<Worker>)
    requires multiset(ws) == multiset(other)
    ensures KeyOf(ws) == KeyOf(other)
  {
    assert |ws| == |multiset(ws)| == |multiset(other)| == |other|;
    IdListPermutes(ws, other);
    SortByElements(IdList(ws), IntLe);
    SortByElements(IdList(other), IntLe);
    SortByIsSorted(IdList(ws), IntLe);
    SortByIsSorted(IdList(other), IntLe);
    SortedTuplesAreEqual(SortBy(IdList(ws), IntLe), SortBy(IdList(other), IntLe));
    if ws != [] {
      LatestDemandIsMaximum(ws);
      LatestDemandIsMaximum(other);
      forall w ensures w in ws <==> w in other {
        SameMembers(ws, other, w);
      }
    }
  }

  function IdIn(ids: set<WorkerId>): Worker -> bool {
    (w: Worker) => w.id in ids
  }

  lemma {:induction false} PickIsAFilter(ws: seq<Worker>, ids: set<WorkerId>)
    ensures Pick(ws, ids) == Filter(ws, IdIn(ids))
  {
    if ws != [] {
      PickIsAFilter(ws[1..], ids);
    }
  }

  lemma {:induction false} PickedKeyIgnoresOrder(ws: seq<Worker>, other: seq<Worker>, ids: set<WorkerId>)
    requires multiset(ws) == multiset(other)
    ensures KeyOf(Pick(ws, ids)) == KeyOf(Pick(other, ids))
  {
    PickIsAFilter(ws, ids);
    PickIsAFilter(other, ids);
    FilterIgnoresOrder(ws, other, IdIn(ids));
    KeyIgnoresOrder(Pick(ws, ids), Pick(other, ids));
  }

  lemma KeyTellsIds(a: seq<Worker>, b: seq<Worker>)
    requires KeyOf(a) == KeyOf(b)
    ensures Ids(a) == Ids(b)
  {
    SortByElements(IdList(a), IntLe);
    SortByElements(IdList(b), IntLe);
    IdListMembers(a);
    IdListMembers(b);
    forall id ensures id in IdList(a) <==> id in IdList(b) {
      SameMembers(IdList(a), IdList(b), id);
    }
  }

  lemma IdListMembers(ws: seq<Worker>)
    ensures forall id :: id in IdList(ws) <==> id in Ids(ws)
  {
    forall id | id in Ids(ws) ensures id in IdList(ws) {
      var w :| w in ws && w.id == id;
      var k :| 0 <= k < |ws| && ws[k] == w;
      assert IdList(ws)[k] == id;
    }
  }

  /** Whatever order the workers are listed in, the same copies are evicted. */
  lemma EvictionIgnoresOrder(limits: Limits, all: set<Gpu>, pressured: set<ModelId>,
                             ws: seq<Worker>, other: seq<Worker>, placements: seq<Placement>,
                             choice: Option<seq<Worker>>, otherChoice: Option<seq<Worker>>)
    requires multiset(ws) == multiset(other)
    requires OptimalEviction(limits, all, pressured, ws, placements, choice)
    requires OptimalEviction(limits, all, pressured, other, placements, otherChoice)
    ensures choice.Some? <==> otherChoice.Some?
    ensures choice.Some? ==> Ids(choice.value) == Ids(otherChoice.value)
  {
    forall pl, ids
      ensures EvictEnables(limits, all, pressured, ws, pl, ids)
              <==> EvictEnables(limits, all, pressured, other, pl, ids)
    {
      EnablingIgnoresOrder(limits, all, pressured, ws, other, pl, ids);
    }
    if choice.Some? && otherChoice.Some? {
      var mine, theirs := Ids(choice.value), Ids(otherChoice.value);
      PickedKeyIgnoresOrder(ws, other, mine);
      PickedKeyIgnoresOrder(ws, other, theirs);
      assert SoonerEvicted(choice.value, Pick(ws, theirs));
      assert SoonerEvicted(otherChoice.value, Pick(other, mine));
      KeyLeIsTotal(KeyOf(choice.value), KeyOf(otherChoice.value));
      KeyTellsIds(choice.value, otherChoice.value);
    }
  }
}
