/** Planning without kvcached: every GPU belongs to one engine, so starts pack and drains free sets. */
module ExclusivePlan {
  import opened Collections
  import opened CopyCounts
  import opened Domain
  import opened Ordering
  import opened PrismChoices
  import opened PrismFit
  import opened PrismLaws
  import opened PrismPlan

  type StartPair = (Profile, seq<Gpu>)

  // ---------- packing free GPUs ----------

  predicate Within(gpus: seq<Gpu>, free: set<Gpu>) {
    forall g :: g in gpus ==> g in free
  }

  predicate CanPlace(profiles: seq<Profile>, free: set<Gpu>, p: Profile, gpus: seq<Gpu>) {
    p in profiles && gpus in p.eligibleGpuSets && Within(gpus, free)
  }

  ghost predicate NothingFits(profiles: seq<Profile>, free: set<Gpu>) {
    forall p, s :: !CanPlace(profiles, free, p, s)
  }

  predicate SmallerThenFaster(a: Profile, b: Profile)
    ensures SmallerThenFaster(a, b) ==> a.gpuCount <= b.gpuCount
    ensures SmallerThenFaster(a, b) && a.gpuCount == b.gpuCount ==>
              a.predictedTokensPerSecond >= b.predictedTokensPerSecond
  {
    a.gpuCount < b.gpuCount
    || (a.gpuCount == b.gpuCount && a.predictedTokensPerSecond >= b.predictedTokensPerSecond)
  }

  method FirstFreeSet(p: Profile, free: set<Gpu>) returns (gpus: Option<seq<Gpu>>)
    ensures gpus.None? <==> forall s :: s in p.eligibleGpuSets ==> !Within(s, free)
    ensures gpus.Some? ==> gpus.value in p.eligibleGpuSets && Within(gpus.value, free)
  {
    for i := 0 to |p.eligibleGpuSets|
      invariant forall j :: 0 <= j < i ==> !Within(p.eligibleGpuSets[j], free)
    {
      if Within(p.eligibleGpuSets[i], free) {
        return Some(p.eligibleGpuSets[i]);
      }
    }
    return None;
  }

  lemma LaterElement<T>(xs: seq<T>, k: nat, x: T)
    requires k <= |xs| && x in xs && x !in xs[..k]
    ensures exists j :: k <= j < |xs| && xs[j] == x
  {
    assert xs == xs[..k] + xs[k..];
  }

  /** The smallest, then fastest profile that fits the free GPUs; none only when nothing fits. */
  method SmallestFitting(profiles: seq<Profile>, free: set<Gpu>) returns (start: Option<StartPair>)
    ensures start.None? <==> NothingFits(profiles, free)
    ensures start.Some? ==>
              && CanPlace(profiles, free, start.value.0, start.value.1)
              && forall p, s :: CanPlace(profiles, free, p, s) ==> SmallerThenFaster(start.value.0, p)
  {
    var ordered := SortBy(profiles, SmallerThenFaster);
    SortByIsSorted(profiles, SmallerThenFaster);
    forall p ensures p in ordered <==> p in profiles {
      SortByMembers(profiles, SmallerThenFaster, p);
    }
    for k := 0 to |ordered|
      invariant forall p, s :: p in ordered[..k] && s in p.eligibleGpuSets ==> !Within(s, free)
    {
      var gpus := FirstFreeSet(ordered[k], free);
      if gpus.Some? {
        forall p, s | CanPlace(profiles, free, p, s) ensures SmallerThenFaster(ordered[k], p) {
          LaterElement(ordered, k, p);
        }
        assert ordered[k] in profiles && CanPlace(profiles, free, ordered[k], gpus.value);
        return Some((ordered[k], gpus.value));
      }
      assert ordered[..k + 1] == ordered[..k] + [ordered[k]];
    }
    assert ordered[..|ordered|] == ordered;
    return None;
  }

  function LeastGpuCount(profiles: seq<Profile>): (n: nat)
    requires profiles != []
    ensures forall p :: p in profiles ==> n <= p.gpuCount
    ensures exists p :: p in profiles && p.gpuCount == n
  {
    var first := profiles[0].gpuCount;
    assert profiles == [profiles[0]] + profiles[1..];
    if |profiles| == 1 then first
    else
      var rest := LeastGpuCount(profiles[1..]);
      if first <= rest then first else rest
  }

  function HasGpuCount(n: nat): Profile -> bool {
    (p: Profile) => p.gpuCount == n
  }

  function SmallestCandidates(profiles: seq<Profile>): (smallest: seq<Profile>)
    ensures forall p :: p in smallest <==> p in profiles && forall q :: q in profiles ==> p.gpuCount <= q.gpuCount
  {
    if profiles == [] then [] else Filter(profiles, HasGpuCount(LeastGpuCount(profiles)))
  }

  /** The free GPUs that these starts leave. */
  function Remaining(free: set<Gpu>, starts: seq<StartPair>): set<Gpu> {
    if starts == [] then free
    else Remaining(free, starts[..|starts| - 1]) - ToSet(starts[|starts| - 1].1)
  }

  /** Each start is the smallest-then-fastest placement on what the earlier ones leave. */
  ghost predicate Packs(candidates: seq<Profile>, free: set<Gpu>, starts: seq<StartPair>) {
    starts != [] ==>
      var init, last := starts[..|starts| - 1], starts[|starts| - 1];
      && Packs(candidates, free, init)
      && CanPlace(candidates, Remaining(free, init), last.0, last.1)
      && forall p, s :: CanPlace(candidates, Remaining(free, init), p, s) ==> SmallerThenFaster(last.0, p)
  }

  /** A profile that claims to run on no GPU at all would be placed forever. */
  predicate NeedsGpus(p: Profile) {
    [] !in p.eligibleGpuSets
  }

  /** The packing of these profiles cannot go on forever. */
  predicate PacksFinitely(profiles: seq<Profile>) {
    forall p :: p in SmallestCandidates(profiles) ==> NeedsGpus(p)
  }

  method MaximumSmallestPlacements(profiles: seq<Profile>, free: set<Gpu>) returns (starts: seq<StartPair>)
    requires PacksFinitely(profiles)
    ensures Packs(SmallestCandidates(profiles), free, starts)
    ensures NothingFits(SmallestCandidates(profiles), Remaining(free, starts))
  {
    starts := [];
    if profiles == [] {
      return;
    }
    var candidates := SmallestCandidates(profiles);
    var remaining := free;
    while true
      invariant remaining == Remaining(free, starts) && Packs(candidates, free, starts)
      decreases |remaining|
    {
      var start := SmallestFitting(candidates, remaining);
      if start.None? {
        return;
      }
      PlacementTakesGpus(candidates, remaining, start.value.0, start.value.1);
      PackOneMore(candidates, free, starts, start.value);
      starts, remaining := starts + [start.value], remaining - ToSet(start.value.1);
    }
  }

  lemma {:induction false} PackOneMore(candidates: seq<Profile>, free: set<Gpu>, starts: seq<StartPair>,
                                       last: StartPair)
    requires Packs(candidates, free, starts) && CanPlace(candidates, Remaining(free, starts), last.0, last.1)
    requires forall p, s :: CanPlace(candidates, Remaining(free, starts), p, s) ==> SmallerThenFaster(last.0, p)
    ensures Packs(candidates, free, starts + [last])
    ensures Remaining(free, starts + [last]) == Remaining(free, starts) - ToSet(last.1)
  {
    assert (starts + [last])[..|starts|] == starts;
  }

  lemma PlacementTakesGpus(candidates: seq<Profile>, remaining: set<Gpu>, p: Profile, gpus: seq<Gpu>)
    requires CanPlace(candidates, remaining, p, gpus) && NeedsGpus(p)
    ensures |remaining - ToSet(gpus)| < |remaining|
  {
    assert gpus != [] && gpus[0] in gpus;
    FewerRemain(remaining, ToSet(gpus), gpus[0]);
  }

  lemma FewerRemain(remaining: set<Gpu>, taken: set<Gpu>, g: Gpu)
    requires g in remaining && g in taken
    ensures |remaining - taken| < |remaining|
  {
    assert remaining - taken <= remaining - {g};
    SubsetSize(remaining - taken, remaining - {g});
  }

  /** The packing can end exactly when all smallest candidates need GPUs: otherwise something always fits. */
  lemma PackingEndsExactlyWhen(profiles: seq<Profile>)
    ensures PacksFinitely(profiles) <==> exists free :: NothingFits(SmallestCandidates(profiles), free)
  {
    var candidates := SmallestCandidates(profiles);
    if PacksFinitely(profiles) {
      forall p, s ensures !CanPlace(candidates, {}, p, s) {
        if p in candidates && s in p.eligibleGpuSets {
          assert s != [] && s[0] in s;
        }
      }
      assert NothingFits(candidates, {});
    } else {
      var p :| p in candidates && !NeedsGpus(p);
      forall free ensures !NothingFits(candidates, free) {
        assert CanPlace(candidates, free, p, []);
      }
    }
  }

  // ---------- exclusive GPUs ----------

  predicate Apart(a: seq<Gpu>, b: seq<Gpu>) {
    !Overlaps(a, b)
  }

  ghost predicate PairwiseApart(sets: seq<seq<Gpu>>) {
    forall i, j :: 0 <= i < j < |sets| ==> Apart(sets[i], sets[j])
  }

  function StartedSets(starts: seq<StartPair>): (sets: seq<seq<Gpu>>)
    ensures |sets| == |starts| && forall k :: 0 <= k < |starts| ==> sets[k] == starts[k].1
  {
    seq(|starts|, k requires 0 <= k < |starts| => starts[k].1)
  }

  function WorkerSets(ws: seq<Worker>): (sets: seq<seq<Gpu>>)
    ensures |sets| == |ws| && forall k :: 0 <= k < |ws| ==> sets[k] == ws[k].gpus
  {
    seq(|ws|, k requires 0 <= k < |ws| => ws[k].gpus)
  }

  ghost predicate PlacedApart(free: set<Gpu>, starts: seq<StartPair>) {
    PairwiseApart(StartedSets(starts)) && forall x :: x in starts ==> Within(x.1, free)
  }

  lemma {:induction false} RemainingIsFree(free: set<Gpu>, starts: seq<StartPair>)
    ensures Remaining(free, starts) <= free
    ensures forall k :: 0 <= k < |starts| ==> forall g :: g in starts[k].1 ==> g !in Remaining(free, starts)
  {
    if starts != [] {
      var init, last := starts[..|starts| - 1], starts[|starts| - 1];
      RemainingIsFree(free, init);
      forall k, g | 0 <= k < |starts| && g in starts[k].1 ensures g !in Remaining(free, starts) {
        if k < |init| {
          assert init[k] == starts[k];
        }
      }
    }
  }

  lemma {:induction false} PackedApart(candidates: seq<Profile>, free: set<Gpu>, starts: seq<StartPair>)
    requires Packs(candidates, free, starts)
    ensures PlacedApart(free, starts)
  {
    if starts != [] {
      var init, last := starts[..|starts| - 1], starts[|starts| - 1];
      PackedApart(candidates, free, init);
      RemainingIsFree(free, init);
      assert starts == init + [last];
      forall i, j | 0 <= i < j < |starts| ensures Apart(StartedSets(starts)[i], StartedSets(starts)[j]) {
        if j < |init| {
          assert Apart(StartedSets(init)[i], StartedSets(init)[j]);
        } else {
          assert init[i] == starts[i];
        }
      }
    }
  }

  lemma {:induction false} KeptApart(free: set<Gpu>, starts: seq<StartPair>, keep: StartPair -> bool)
    requires PlacedApart(free, starts)
    ensures PlacedApart(free, Filter(starts, keep))
  {
    if starts != [] {
      var rest, kept := starts[1..], Filter(starts[1..], keep);
      forall i, j | 0 <= i < j < |rest| ensures Apart(StartedSets(rest)[i], StartedSets(rest)[j]) {
        assert Apart(StartedSets(starts)[i + 1], StartedSets(starts)[j + 1]);
      }
      KeptApart(free, rest, keep);
      if keep(starts[0]) {
        FirstApart(starts, kept);
      }
    }
  }

  lemma FirstApart(starts: seq<StartPair>, kept: seq<StartPair>)
    requires starts != [] && PairwiseApart(StartedSets(starts)) && PairwiseApart(StartedSets(kept))
    requires forall x :: x in kept ==> x in starts[1..]
    ensures PairwiseApart(StartedSets([starts[0]] + kept))
  {
    var sets := StartedSets([starts[0]] + kept);
    forall i, j | 0 <= i < j < |sets| ensures Apart(sets[i], sets[j]) {
      if i == 0 {
        assert kept[j - 1] in starts[1..];
        var k :| 0 <= k < |starts[1..]| && starts[1..][k] == kept[j - 1];
        assert Apart(StartedSets(starts)[0], StartedSets(starts)[k + 1]);
      } else {
        assert Apart(StartedSets(kept)[i - 1], StartedSets(kept)[j - 1]);
      }
    }
  }

  lemma PrefixApart(free: set<Gpu>, starts: seq<StartPair>, n: nat)
    requires PlacedApart(free, starts) && n <= |starts|
    ensures PlacedApart(free, starts[..n])
  {
    forall i, j | 0 <= i < j < n ensures Apart(StartedSets(starts[..n])[i], StartedSets(starts[..n])[j]) {
      assert Apart(StartedSets(starts)[i], StartedSets(starts)[j]);
    }
  }

  function UsedGpus(active: seq<Worker>): set<Gpu> {
    set w, g | w in active && g in w.gpus :: g
  }

  /** Whatever is started on free GPUs, engines that run, load or drain never share a GPU. */
  lemma StartsKeepGpusExclusive(active: seq<Worker>, all: set<Gpu>, starts: seq<StartPair>)
    requires PairwiseApart(WorkerSets(active)) && PlacedApart(all - UsedGpus(active), starts)
    ensures PairwiseApart(WorkerSets(active) + StartedSets(starts))
  {
    var sets := WorkerSets(active) + StartedSets(starts);
    forall i, j | 0 <= i < j < |sets| ensures Apart(sets[i], sets[j]) {
      if j < |active| {
        assert Apart(WorkerSets(active)[i], WorkerSets(active)[j]);
      } else if i >= |active| {
        assert Apart(StartedSets(starts)[i - |active|], StartedSets(starts)[j - |active|]);
      } else {
        assert active[i] in active && starts[j - |active|] in starts;
      }
    }
  }

  // ---------- preemption ----------

  datatype Preemption = Preemption(now: Time, minimumResidency: Time, fairShare: Time, modelId: ModelId,
                                   oldestEnqueuedAt: Time, pressured: set<ModelId>)

  function CompatibleGpus(candidates: seq<Profile>): set<Gpu> {
    set p, s, g | p in SmallestCandidates(candidates) && s in p.eligibleGpuSets && g in s :: g
  }

  predicate IdleBlocker(d: Preemption, compatible: set<Gpu>, w: Worker) {
    && w.profile.modelId !in d.pressured
    && w.admitted == {}
    && ResidencySatisfied(d.minimumResidency, w, d.now)
    && exists g :: g in w.gpus && g in compatible
  }

  function IsIdleBlocker(d: Preemption, compatible: set<Gpu>): Worker -> bool {
    (w: Worker) => IdleBlocker(d, compatible, w)
  }

  function IsBlocker(gpus: seq<Gpu>): Worker -> bool {
    (w: Worker) => Overlaps(w.gpus, gpus)
  }

  predicate Overridden(d: Preemption, w: Worker) {
    var readyAt := if w.readyAt.Some? then w.readyAt.value else d.now;
    d.now - Max(d.oldestEnqueuedAt, readyAt) >= d.fairShare
  }

  function IsResident(m: ModelId): Worker -> bool {
    (w: Worker) => w.profile.modelId == m && w.state in {Loading, Ready}
  }

  function IsProtected(d: Preemption, m: ModelId): Worker -> bool {
    (w: Worker) => w.profile.modelId == m && !Overridden(d, w)
  }

  function Residents(ws: seq<Worker>, m: ModelId): int {
    SumOf(ws, OneIf(IsResident(m)))
  }

  /** Blockers of a model that no starvation override applies to. */
  function Protected(d: Preemption, blockers: seq<Worker>, m: ModelId): int {
    SumOf(blockers, OneIf(IsProtected(d, m)))
  }

  /** The whole GPU set may be freed: every protected blocker's model keeps a resident copy. */
  predicate Drainable(d: Preemption, ws: seq<Worker>, blockers: seq<Worker>) {
    forall w :: w in blockers && !Overridden(d, w) ==>
      && ResidencySatisfied(d.minimumResidency, w, d.now)
      && Residents(ws, w.profile.modelId) - Protected(d, blockers, w.profile.modelId) >= 1
  }

  predicate Preemptible(d: Preemption, ws: seq<Worker>, gpus: seq<Gpu>) {
    var blockers := Filter(ws, IsBlocker(gpus));
    && blockers != []
    && (forall w :: w in blockers ==>
          w.profile.modelId != d.modelId && w.profile.modelId in d.pressured && !w.state.Draining?)
    && Drainable(d, ws, blockers)
  }

  lemma {:induction false} CountPositive(ws: seq<Worker>, p: Worker -> bool, w: Worker)
    requires w in ws && p(w)
    ensures SumOf(ws, OneIf(p)) >= 1
  {
    if ws[0] != w {
      assert ws == [ws[0]] + ws[1..];
      CountPositive(ws[1..], p, w);
    } else {
      SumOfNonNegative(ws[1..], OneIf(p));
    }
  }

  lemma {:induction false} CountOfPrefix(ws: seq<Worker>, k: nat, p: Worker -> bool)
    requires k < |ws|
    ensures SumOf(ws[..k + 1], OneIf(p)) == SumOf(ws[..k], OneIf(p)) + (if p(ws[k]) then 1 else 0)
    ensures SumOf(ws[..k + 1], OneIf(p)) <= SumOf(ws, OneIf(p))
  {
    assert ws[..k + 1] == ws[..k] + [ws[k]];
    SumOfAppend(ws[..k], [ws[k]], OneIf(p));
    assert ws == ws[..k + 1] + ws[k + 1..];
    SumOfAppend(ws[..k + 1], ws[k + 1..], OneIf(p));
    SumOfNonNegative(ws[k + 1..], OneIf(p));
  }

  function CountAt(counts: map<ModelId, int>, m: ModelId): int {
    if m in counts then counts[m] else 0
  }

  /** The prefix of the blockers that the loop has accepted so far. */
  ghost predicate Accepted(d: Preemption, ws: seq<Worker>, blockers: seq<Worker>, k: nat)
    requires k <= |blockers|
  {
    forall j :: 0 <= j < k && !Overridden(d, blockers[j]) ==>
      && ResidencySatisfied(d.minimumResidency, blockers[j], d.now)
      && Residents(ws, blockers[j].profile.modelId) - Protected(d, blockers[..k], blockers[j].profile.modelId) >= 1
  }

  lemma AcceptOneMore(d: Preemption, ws: seq<Worker>, blockers: seq<Worker>, k: nat)
    requires k < |blockers| && Accepted(d, ws, blockers, k)
    requires !Overridden(d, blockers[k]) ==>
               && ResidencySatisfied(d.minimumResidency, blockers[k], d.now)
               && Residents(ws, blockers[k].profile.modelId)
                  - Protected(d, blockers[..k], blockers[k].profile.modelId) - 1 >= 1
    ensures Accepted(d, ws, blockers, k + 1)
  {
    forall j | 0 <= j < k + 1 && !Overridden(d, blockers[j])
      ensures ResidencySatisfied(d.minimumResidency, blockers[j], d.now)
      ensures Residents(ws, blockers[j].profile.modelId)
              - Protected(d, blockers[..k + 1], blockers[j].profile.modelId) >= 1
    {
      CountOfPrefix(blockers, k, IsProtected(d, blockers[j].profile.modelId));
    }
  }

  /** The source's loop over the blockers, counting how many of each model it has selected. */
  method CanDrain(d: Preemption, ws: seq<Worker>, blockers: seq<Worker>) returns (drainable: bool)
    requires forall w :: w in blockers ==> w.profile.modelId in d.pressured
    ensures drainable == Drainable(d, ws, blockers)
  {
    var selected: map<ModelId, int> := map[];
    for k := 0 to |blockers|
      invariant forall m :: CountAt(selected, m) == Protected(d, blockers[..k], m)
      invariant Accepted(d, ws, blockers, k)
    {
      ghost var before := selected;
      var w := blockers[k];
      var m := w.profile.modelId;
      CountOfPrefix(blockers, k, IsProtected(d, m));
      assert w in blockers;
      if !Overridden(d, w) {
        if !ResidencySatisfied(d.minimumResidency, w, d.now) {
          return false;
        }
        if Residents(ws, m) - CountAt(selected, m) - 1 < 1 {
          return false;
        }
        selected := selected[m := CountAt(selected, m) + 1];
      }
      AcceptOneMore(d, ws, blockers, k);
      forall n ensures CountAt(selected, n) == Protected(d, blockers[..k + 1], n) {
        CountOfPrefix(blockers, k, IsProtected(d, n));
        assert CountAt(before, n) == Protected(d, blockers[..k], n);
      }
    }
    assert blockers[..|blockers|] == blockers;
    forall w | w in blockers && !Overridden(d, w)
      ensures ResidencySatisfied(d.minimumResidency, w, d.now)
      ensures Residents(ws, w.profile.modelId) - Protected(d, blockers, w.profile.modelId) >= 1
    {
      var j :| 0 <= j < |blockers| && blockers[j] == w;
    }
    return true;
  }

  function SlowerFirst(a: Worker, b: Worker): bool {
    a.profile.predictedTokensPerSecond <= b.profile.predictedTokensPerSecond
  }

  function FewerGpusFirst(a: Profile, b: Profile): bool {
    a.gpuCount <= b.gpuCount
  }

  ghost predicate SlowestFirst(ws: seq<Worker>) {
    forall i, j :: 0 <= i < j < |ws| ==>
      ws[i].profile.predictedTokensPerSecond <= ws[j].profile.predictedTokensPerSecond
  }

  lemma {:induction false} SortedSlowestFirst(ws: seq<Worker>)
    ensures SlowestFirst(SortBy(ws, SlowerFirst)) && multiset(SortBy(ws, SlowerFirst)) == multiset(ws)
  {
    SortByIsSorted(ws, SlowerFirst);
    SortByElements(ws, SlowerFirst);
    forall i, j | 0 <= i < j < |SortBy(ws, SlowerFirst)|
      ensures SlowerFirst(SortBy(ws, SlowerFirst)[i], SortBy(ws, SlowerFirst)[j])
    {
    }
  }

  /** One of the sets to free is freed whole, or idle engines go first; none only when none may. */
  ghost predicate SoundPreemption(d: Preemption, candidates: seq<Profile>, ws: seq<Worker>,
                                  drain: Option<seq<Worker>>)
    requires candidates != []
  {
    var idle := Filter(ws, IsIdleBlocker(d, CompatibleGpus(candidates)));
    if idle != [] then
      drain.Some? && multiset(drain.value) == multiset(idle) && SlowestFirst(drain.value)
    else
      && (drain.None? <==> forall p, s :: p in candidates && s in p.eligibleGpuSets ==> !Preemptible(d, ws, s))
      && (drain.Some? ==> exists p, s :: SmallestPreemptible(d, candidates, ws, p, s)
                                         && multiset(drain.value) == multiset(Filter(ws, IsBlocker(s)))
                                         && SlowestFirst(drain.value))
  }

  /** A set that may be freed, for a profile with as few GPUs as any that has such a set. */
  ghost predicate SmallestPreemptible(d: Preemption, candidates: seq<Profile>, ws: seq<Worker>, p: Profile,
                                      s: seq<Gpu>) {
    && p in candidates && s in p.eligibleGpuSets && Preemptible(d, ws, s)
    && forall q, u :: q in candidates && u in q.eligibleGpuSets && Preemptible(d, ws, u) ==> p.gpuCount <= q.gpuCount
  }

  method MayFree(d: Preemption, ws: seq<Worker>, gpus: seq<Gpu>) returns (ok: bool)
    ensures ok == Preemptible(d, ws, gpus)
  {
    var blockers := Filter(ws, IsBlocker(gpus));
    if exists w :: w in blockers && w.profile.modelId == d.modelId {
      return false;
    }
    if exists w :: w in blockers && w.profile.modelId !in d.pressured {
      return false;
    }
    if blockers == [] || exists w :: w in blockers && w.state.Draining? {
      return false;
    }
    ok := CanDrain(d, ws, blockers);
  }

  method FreeableSet(d: Preemption, ws: seq<Worker>, p: Profile) returns (gpus: Option<seq<Gpu>>)
    ensures gpus.None? <==> forall s :: s in p.eligibleGpuSets ==> !Preemptible(d, ws, s)
    ensures gpus.Some? ==> gpus.value in p.eligibleGpuSets && Preemptible(d, ws, gpus.value)
  {
    for k := 0 to |p.eligibleGpuSets|
      invariant forall j :: 0 <= j < k ==> !Preemptible(d, ws, p.eligibleGpuSets[j])
    {
      var free := MayFree(d, ws, p.eligibleGpuSets[k]);
      if free {
        return Some(p.eligibleGpuSets[k]);
      }
    }
    return None;
  }

  lemma FirstIsSmallestPreemptible(d: Preemption, candidates: seq<Profile>, ws: seq<Worker>, ordered: seq<Profile>,
                                   k: nat, s: seq<Gpu>)
    requires k < |ordered| && Sorted(ordered, FewerGpusFirst) && forall p :: p in ordered <==> p in candidates
    requires forall j, u :: 0 <= j < k && u in ordered[j].eligibleGpuSets ==> !Preemptible(d, ws, u)
    requires s in ordered[k].eligibleGpuSets && Preemptible(d, ws, s)
    ensures SmallestPreemptible(d, candidates, ws, ordered[k], s)
  {
    assert ordered[k] in ordered;
    forall q, u | q in candidates && u in q.eligibleGpuSets && Preemptible(d, ws, u)
      ensures ordered[k].gpuCount <= q.gpuCount
    {
      assert q in ordered;
      var j :| 0 <= j < |ordered| && ordered[j] == q;
      assert FewerGpusFirst(ordered[k], ordered[j]);
    }
  }

  method ChoosePreemption(d: Preemption, candidates: seq<Profile>, ws: seq<Worker>)
    returns (drain: Option<seq<Worker>>)
    requires candidates != []
    ensures SoundPreemption(d, candidates, ws, drain)
  {
    var idle := Filter(ws, IsIdleBlocker(d, CompatibleGpus(candidates)));
    if idle != [] {
      SortedSlowestFirst(idle);
      return Some(SortBy(idle, SlowerFirst));
    }
    var ordered := SortBy(candidates, FewerGpusFirst);
    SortByIsSorted(candidates, FewerGpusFirst);
    forall p ensures p in ordered <==> p in candidates {
      SortByMembers(candidates, FewerGpusFirst, p);
    }
    for k := 0 to |ordered|
      invariant forall j, s :: 0 <= j < k && s in ordered[j].eligibleGpuSets ==> !Preemptible(d, ws, s)
    {
      var gpus := FreeableSet(d, ws, ordered[k]);
      if gpus.Some? {
        var blockers := Filter(ws, IsBlocker(gpus.value));
        SortedSlowestFirst(blockers);
        FirstIsSmallestPreemptible(d, candidates, ws, ordered, k, gpus.value);
        return Some(SortBy(blockers, SlowerFirst));
      }
    }
    return None;
  }

  // ---------- whom a preemption may hit ----------

  /** Both the demand has waited and the worker has served for the fair share of time. */
  predicate HadItsShare(d: Preemption, w: Worker) {
    && d.oldestEnqueuedAt + d.fairShare <= d.now
    && (if w.readyAt.Some? then w.readyAt.value + d.fairShare <= d.now else d.fairShare <= 0)
  }

  predicate ServedItsMinimum(d: Preemption, w: Worker) {
    d.minimumResidency == 0 || (w.readyAt.Some? && w.readyAt.value + d.minimumResidency <= d.now)
  }

  /**
   * A set may be freed exactly when engines of other demanded models are on it, none of them drains, and
   * each had its share, or has served its minimum while its model has a copy beyond those without a share.
   */
  lemma {:induction false} PreemptibleExactlyWhen(d: Preemption, ws: seq<Worker>, gpus: seq<Gpu>)
    ensures Preemptible(d, ws, gpus)
            <==> && (exists w :: w in ws && Overlaps(w.gpus, gpus))
                 && forall w :: w in ws && Overlaps(w.gpus, gpus) ==>
                      && w.profile.modelId != d.modelId && w.profile.modelId in d.pressured
                      && w.state != RuntimeState.Draining
                      && (HadItsShare(d, w)
                          || (ServedItsMinimum(d, w)
                              && Protected(d, Filter(ws, IsBlocker(gpus)), w.profile.modelId)
                                 < Residents(ws, w.profile.modelId)))
  {
    var blockers := Filter(ws, IsBlocker(gpus));
    forall w ensures w in blockers <==> w in ws && Overlaps(w.gpus, gpus) {
    }
    forall w ensures (HadItsShare(d, w) <==> Overridden(d, w))
                     && (ServedItsMinimum(d, w) <==> ResidencySatisfied(d.minimumResidency, w, d.now)) {
      ShareIsOverride(d, w);
    }
    if blockers != [] {
      assert blockers[0] in blockers;
    }
  }

  lemma ShareIsOverride(d: Preemption, w: Worker)
    ensures HadItsShare(d, w) <==> Overridden(d, w)
    ensures ServedItsMinimum(d, w) <==> ResidencySatisfied(d.minimumResidency, w, d.now)
  {
  }

  /** Engines drained as idle serve nothing, are wanted by no request, and are in the way of a smallest candidate. */
  lemma IdleVictimsAreUnwanted(d: Preemption, candidates: seq<Profile>, w: Worker)
    ensures IdleBlocker(d, CompatibleGpus(candidates), w)
            <==> && w.admitted == {} && w.profile.modelId !in d.pressured && ServedItsMinimum(d, w)
                 && exists p, s :: p in SmallestCandidates(candidates) && s in p.eligibleGpuSets && Overlaps(w.gpus, s)
  {
    if p, s :| p in SmallestCandidates(candidates) && s in p.eligibleGpuSets && Overlaps(w.gpus, s) {
      var g :| g in w.gpus && g in s;
      assert g in CompatibleGpus(candidates);
    }
    if g :| g in w.gpus && g in CompatibleGpus(candidates) {
      var p, s :| p in SmallestCandidates(candidates) && s in p.eligibleGpuSets && g in s;
      assert Overlaps(w.gpus, s);
    }
  }

  // ---------- what a preemption leaves ----------

  /** Draining exactly the blockers of a GPU set leaves nobody on it. */
  lemma {:induction false} PreemptionFreesTheWholeSet(ws: seq<Worker>, gpus: seq<Gpu>, drain: seq<Worker>, w: Worker)
    requires multiset(drain) == multiset(Filter(ws, IsBlocker(gpus)))
    requires w in ws && w !in drain
    ensures Apart(w.gpus, gpus)
  {
    SameMembers(drain, Filter(ws, IsBlocker(gpus)), w);
    assert !Overlaps(w.gpus, gpus);
  }

  function OfBlockedModel(gpus: seq<Gpu>, m: ModelId): Worker -> bool {
    (w: Worker) => w.profile.modelId == m && w.state in {Loading, Ready} && !Overlaps(w.gpus, gpus)
  }

  /** The resident copies of a model that a preemption of this set leaves. */
  function CopiesLeft(ws: seq<Worker>, gpus: seq<Gpu>, m: ModelId): int {
    SumOf(ws, OneIf(OfBlockedModel(gpus, m)))
  }

  function IsOverriding(d: Preemption, m: ModelId): Worker -> bool {
    (w: Worker) => w.profile.modelId == m && Overridden(d, w)
  }

  /** Blockers of a model that a starvation override applies to. */
  function Overriding(d: Preemption, blockers: seq<Worker>, m: ModelId): int {
    SumOf(blockers, OneIf(IsOverriding(d, m)))
  }

  lemma {:induction false} CopiesLeftCount(d: Preemption, ws: seq<Worker>, gpus: seq<Gpu>, m: ModelId)
    requires forall w :: w in Filter(ws, IsBlocker(gpus)) && w.profile.modelId == m ==> w.state in {Loading, Ready}
    ensures var blockers := Filter(ws, IsBlocker(gpus));
            CopiesLeft(ws, gpus, m) == Residents(ws, m) - Protected(d, blockers, m) - Overriding(d, blockers, m)
  {
    if ws != [] {
      var rest := Filter(ws[1..], IsBlocker(gpus));
      assert forall w :: w in rest ==> w in Filter(ws, IsBlocker(gpus));
      CopiesLeftCount(d, ws[1..], gpus, m);
      if Overlaps(ws[0].gpus, gpus) {
        assert Filter(ws, IsBlocker(gpus)) == [ws[0]] + rest;
        assert ws[0] in Filter(ws, IsBlocker(gpus));
      }
    }
  }

  /**
   * A victim model keeps a resident copy exactly when its starvation-overridden victims are fewer
   * than the copies the protected ones leave; always when no override applies.
   */
  lemma {:induction false} VictimsKeepACopyExactlyWhen(d: Preemption, ws: seq<Worker>, gpus: seq<Gpu>, m: ModelId)
    requires Preemptible(d, ws, gpus)
    requires forall w :: w in ws ==> w.state in {Loading, Ready, Draining}
    ensures var blockers := Filter(ws, IsBlocker(gpus));
            && (CopiesLeft(ws, gpus, m) >= 1
                <==> Overriding(d, blockers, m) < Residents(ws, m) - Protected(d, blockers, m))
            && (Overriding(d, blockers, m) == 0 && (exists w :: w in blockers && w.profile.modelId == m) ==>
                  CopiesLeft(ws, gpus, m) >= 1)
  {
    var blockers := Filter(ws, IsBlocker(gpus));
    CopiesLeftCount(d, ws, gpus, m);
    if w :| w in blockers && w.profile.modelId == m {
      if Overridden(d, w) {
        CountPositive(blockers, IsOverriding(d, m), w);
      }
    }
  }

  // ---------- the round ----------

  datatype ExclusiveRound = ExclusiveRound(planner: Planner, waitDuration: Time, now: Time, all: set<Gpu>,
                                           workers: seq<Worker>, pressures: seq<Pressure>,
                                           profiles: map<ModelId, seq<Profile>>)

  function IsRunning(): Worker -> bool {
    (w: Worker) => w.state in {Loading, Ready, Draining}
  }

  function Running(r: ExclusiveRound): (running: seq<Worker>)
    ensures forall w :: w in running <==>
              w in r.workers && (w.state.Loading? || w.state.Ready? || w.state.Draining?)
  {
    Filter(r.workers, IsRunning())
  }

  function FreeGpus(r: ExclusiveRound): (free: set<Gpu>)
    ensures forall g :: g in free <==> g in r.all && forall w :: w in Running(r) ==> g !in w.gpus
  {
    r.all - UsedGpus(Running(r))
  }

  function Pressured(r: ExclusiveRound): set<ModelId> {
    set p | p in r.pressures :: p.modelId
  }

  /** Ready, serving nothing, wanted by no request, unused for the waiting time, and past its residency. */
  predicate IdleTimeout(r: ExclusiveRound, w: Worker)
    ensures IdleTimeout(r, w)
            <==> && w.state == RuntimeState.Ready && w.admitted == {} && w.lastDemandAt + r.waitDuration <= r.now
                 && (r.planner.minimumResidency != 0 ==>
                       w.readyAt.Some? && w.readyAt.value + r.planner.minimumResidency <= r.now)
                 && forall pr :: pr in r.pressures ==> pr.modelId != w.profile.modelId
  {
    && w.state.Ready? && w.profile.modelId !in Pressured(r) && w.admitted == {}
    && r.now - w.lastDemandAt >= r.waitDuration
    && ResidencySatisfied(r.planner.minimumResidency, w, r.now)
  }

  function IsIdleTimeout(r: ExclusiveRound): Worker -> bool {
    (w: Worker) => IdleTimeout(r, w)
  }

  function PreemptionFor(r: ExclusiveRound, pr: Pressure): Preemption {
    Preemption(r.now, r.planner.minimumResidency, r.planner.fairShare, pr.modelId, pr.oldestEnqueuedAt,
               Pressured(r))
  }

  function ProfilesOf(r: ExclusiveRound, m: ModelId): seq<Profile> {
    if m in r.profiles then r.profiles[m] else []
  }

  function StartActions(starts: seq<StartPair>, reason: string): (actions: seq<Action>)
    ensures |actions| == |starts|
    ensures forall k :: 0 <= k < |starts| ==> actions[k] == Start(starts[k].0, starts[k].1, reason)
  {
    seq(|starts|, k requires 0 <= k < |starts| => Start(starts[k].0, starts[k].1, reason))
  }

  ghost predicate StartsOnFree(r: ExclusiveRound, actions: seq<Action>) {
    exists pr, starts, reason ::
      && pr in r.pressures && actions == StartActions(starts, reason) && PlacedApart(FreeGpus(r), starts)
      && Offered(ProfilesOf(r, pr.modelId), starts) && AsManyAsWanted(r, pr, starts)
  }

  /** The free GPUs are packed with the smallest of these profiles until none fits. */
  ghost predicate FullPacking(r: ExclusiveRound, profiles: seq<Profile>, starts: seq<StartPair>) {
    && Packs(SmallestCandidates(profiles), FreeGpus(r), starts)
    && NothingFits(SmallestCandidates(profiles), Remaining(FreeGpus(r), starts))
  }

  /** The backlog calls for so many copies in all, at the speed of the ready ones together. */
  predicate CopiesWanted(r: ExclusiveRound, pr: Pressure, wanted: int) {
    IsWanted(wanted, pr.requests, pr.estimatedTokens, ReadyCapacity(r, pr.modelId))
  }

  /** A model without copies takes all free GPUs; else the useful ones of the replicas wanted are started. */
  ghost predicate AsManyAsWanted(r: ExclusiveRound, pr: Pressure, starts: seq<StartPair>) {
    if Copies(r, pr.modelId) == [] then FullPacking(r, ProfilesOf(r, pr.modelId), starts)
    else exists all, wanted: nat :: UsefulOfWanted(r, pr, all, wanted, starts)
  }

  ghost predicate UsefulOfWanted(r: ExclusiveRound, pr: Pressure, all: seq<StartPair>, wanted: nat,
                                 starts: seq<StartPair>) {
    var more := wanted - |Copies(r, pr.modelId)|;
    && CopiesWanted(r, pr, wanted) && more >= 0 && FullPacking(r, OneGpuProfiles(r, pr.modelId), all)
    && starts == Filter(all[..Min(|all|, more)], UsefulStart(r.planner, ReadyOnes(r, pr.modelId)))
  }

  lemma StartsAreAmongWanted(r: ExclusiveRound, pr: Pressure, starts: seq<StartPair>) returns (wanted: nat)
    requires AsManyAsWanted(r, pr, starts) && Copies(r, pr.modelId) != []
    ensures CopiesWanted(r, pr, wanted) && |Copies(r, pr.modelId)| + |starts| <= wanted
  {
    var all, n: nat :| UsefulOfWanted(r, pr, all, n, starts);
    wanted := n;
  }

  /** Replicas never outnumber the requests, and all copies but the last would leave tokens over. */
  lemma ReplicaStartsAreNeeded(r: ExclusiveRound, pr: Pressure, starts: seq<StartPair>)
    requires AsManyAsWanted(r, pr, starts) && Copies(r, pr.modelId) != []
    ensures AllNeeded(|Copies(r, pr.modelId)| + |starts|, pr.requests, pr.estimatedTokens, ReadyCapacity(r, pr.modelId))
  {
    var wanted := StartsAreAmongWanted(r, pr, starts);
    FewerAreNeeded(|Copies(r, pr.modelId)| + |starts|, wanted, pr.requests, pr.estimatedTokens,
                   ReadyCapacity(r, pr.modelId));
  }

  ghost predicate DrainsIdle(r: ExclusiveRound, actions: seq<Action>) {
    actions == DrainActions(Filter(Running(r), IsIdleTimeout(r)), "idle_timeout")
  }

  /** Engines are drained for this model: the idle ones, or all those on one of the sets it could use. */
  ghost predicate PreemptsFor(r: ExclusiveRound, pr: Pressure, actions: seq<Action>, reason: string) {
    && ProfilesOf(r, pr.modelId) != []
    && exists drain ::
         && SoundPreemption(PreemptionFor(r, pr), ProfilesOf(r, pr.modelId), Running(r), Some(drain))
         && actions == DrainActions(drain, reason)
  }

  ghost predicate Preempts(r: ExclusiveRound, actions: seq<Action>) {
    exists pr, reason :: pr in r.pressures && PreemptsFor(r, pr, actions, reason)
  }

  ghost predicate SoundExclusive(r: ExclusiveRound, actions: seq<Action>) {
    actions == [] || StartsOnFree(r, actions) || DrainsIdle(r, actions) || Preempts(r, actions)
  }

  // ---------- when a round may give up ----------

  /** No engine may be drained for this model, neither an idle one nor a whole GPU set of them. */
  ghost predicate NothingToPreempt(r: ExclusiveRound, pr: Pressure) {
    var d, candidates := PreemptionFor(r, pr), ProfilesOf(r, pr.modelId);
    && Filter(Running(r), IsIdleBlocker(d, CompatibleGpus(candidates))) == []
    && forall p, s :: p in candidates && s in p.eligibleGpuSets ==> !Preemptible(d, Running(r), s)
  }

  function Copies(r: ExclusiveRound, m: ModelId): (copies: seq<Worker>)
    ensures forall w :: w in copies <==>
              w in r.workers && w.profile.modelId == m && (w.state.Loading? || w.state.Ready?)
  {
    Filter(Running(r), IsResident(m))
  }

  function ReadyOnes(r: ExclusiveRound, m: ModelId): (ready: seq<Worker>)
    ensures forall w :: w in ready <==> w in r.workers && w.profile.modelId == m && w.state.Ready?
  {
    Filter(Copies(r, m), ReadyOf(m))
  }

  function OneGpuProfiles(r: ExclusiveRound, m: ModelId): (profiles: seq<Profile>)
    ensures forall p :: p in profiles <==> p in ProfilesOf(r, m) && p.gpuCount == 1
  {
    Filter(ProfilesOf(r, m), OneGpu())
  }

  /** What the ready copies do together within the scaling window. */
  function ReadyCapacity(r: ExclusiveRound, m: ModelId): real {
    TotalCapacity(ReadyOnes(r, m), r.planner.scaleWindow)
  }

  function WantedCopies(r: ExclusiveRound, pr: Pressure): (n: int)
    ensures IsWanted(n, pr.requests, pr.estimatedTokens, ReadyCapacity(r, pr.modelId))
  {
    DesiredCopies(pr, ReadyCapacity(r, pr.modelId))
  }

  /** The free GPUs take further replicas, but none of those wanted adds enough throughput. */
  ghost predicate ReplicasAreUseless(r: ExclusiveRound, pr: Pressure) {
    exists all, wanted: nat :: all != [] && UsefulOfWanted(r, pr, all, wanted, [])
  }

  /** Demand that a round may leave unanswered: it is served, on its way, or nothing can be done. */
  ghost predicate MayWaitExclusive(r: ExclusiveRound, pr: Pressure) {
    var m := pr.modelId;
    if ProfilesOf(r, m) == [] then true
    else if Copies(r, m) == [] then
      NothingFits(SmallestCandidates(ProfilesOf(r, m)), FreeGpus(r)) && NothingToPreempt(r, pr)
    else
      || ReadyOnes(r, m) == [] || OneGpuProfiles(r, m) == []
      || EnoughCopies(pr, |Copies(r, m)|, TotalThroughput(ReadyOnes(r, m)), r.planner.scaleWindow)
      || ReplicasAreUseless(r, pr)
      || (NothingFits(SmallestCandidates(OneGpuProfiles(r, m)), FreeGpus(r)) && NothingToPreempt(r, pr))
  }

  function UsefulStart(planner: Planner, ready: seq<Worker>): StartPair -> bool {
    (start: StartPair) => UsefulMargin(planner, start.0, ready)
  }

  /** All free GPUs are taken for a model without copies; only when none serves it others are drained. */
  ghost predicate AnswersExclusiveCold(r: ExclusiveRound, pr: Pressure, actions: seq<Action>) {
    || (exists starts ::
          starts != [] && FullPacking(r, ProfilesOf(r, pr.modelId), starts)
          && actions == StartActions(starts, "cold_backlog"))
    || (NothingFits(SmallestCandidates(ProfilesOf(r, pr.modelId)), FreeGpus(r))
        && PreemptsFor(r, pr, actions, "incompatible_backlog"))
  }

  /** Too few copies: the useful ones of the replicas wanted start; only when none fits others are drained. */
  ghost predicate AnswersExclusiveReplica(r: ExclusiveRound, pr: Pressure, actions: seq<Action>) {
    var m := pr.modelId;
    && ReadyOnes(r, m) != [] && OneGpuProfiles(r, m) != []
    && !EnoughCopies(pr, |Copies(r, m)|, TotalThroughput(ReadyOnes(r, m)), r.planner.scaleWindow)
    && (|| (exists starts, all, wanted: nat ::
              starts != [] && UsefulOfWanted(r, pr, all, wanted, starts)
              && actions == StartActions(starts, "replica_backlog"))
        || (NothingFits(SmallestCandidates(OneGpuProfiles(r, m)), FreeGpus(r))
            && PreemptsFor(r, pr, actions, "replica_capacity")))
  }

  ghost predicate AnswersExclusive(r: ExclusiveRound, pr: Pressure, actions: seq<Action>) {
    if Copies(r, pr.modelId) == [] then AnswersExclusiveCold(r, pr, actions)
    else AnswersExclusiveReplica(r, pr, actions)
  }

  /** One pressure is answered, and all that wait longer may go on waiting. */
  ghost predicate AnswersOldest(r: ExclusiveRound, actions: seq<Action>) {
    exists pr :: pr in r.pressures && AnswersExclusive(r, pr, actions)
                 && forall other :: other in r.pressures && other.oldestEnqueuedAt < pr.oldestEnqueuedAt ==>
                      MayWaitExclusive(r, other)
  }

  method Preempt(r: ExclusiveRound, pr: Pressure, reason: string) returns (actions: seq<Action>)
    requires pr in r.pressures && ProfilesOf(r, pr.modelId) != []
    ensures SoundExclusive(r, actions)
    ensures actions == [] ==> NothingToPreempt(r, pr)
    ensures actions != [] ==> PreemptsFor(r, pr, actions, reason)
  {
    var d, candidates := PreemptionFor(r, pr), ProfilesOf(r, pr.modelId);
    var drain := ChoosePreemption(d, candidates, Running(r));
    if drain.None? {
      return [];
    }
    actions := DrainActions(drain.value, reason);
    PreemptionIsNotEmpty(d, candidates, Running(r), drain.value);
    assert PreemptsFor(r, pr, actions, reason) && Preempts(r, actions);
  }

  lemma PreemptionIsNotEmpty(d: Preemption, candidates: seq<Profile>, ws: seq<Worker>, drain: seq<Worker>)
    requires candidates != [] && SoundPreemption(d, candidates, ws, Some(drain))
    ensures drain != []
  {
    var idle := Filter(ws, IsIdleBlocker(d, CompatibleGpus(candidates)));
    if idle != [] {
      assert idle[0] in multiset(idle);
    } else {
      var p, s :| SmallestPreemptible(d, candidates, ws, p, s)
                  && multiset(drain) == multiset(Filter(ws, IsBlocker(s)));
      assert Filter(ws, IsBlocker(s))[0] in multiset(Filter(ws, IsBlocker(s)));
    }
  }

  /** The profiles whose packing a round may try. */
  predicate RoundPacksFinitely(r: ExclusiveRound) {
    forall m :: m in r.profiles ==> PacksFinitely(ProfilesOf(r, m)) && PacksFinitely(OneGpuProfiles(r, m))
  }

  method PlanExclusivePressure(r: ExclusiveRound, pr: Pressure) returns (actions: seq<Action>)
    requires pr in r.pressures && RoundPacksFinitely(r)
    ensures SoundExclusive(r, actions)
    ensures actions == [] ==> MayWaitExclusive(r, pr)
    ensures actions != [] ==> AnswersExclusive(r, pr, actions)
  {
    if ProfilesOf(r, pr.modelId) == [] {
      return [];
    }
    if Copies(r, pr.modelId) == [] {
      actions := PlanExclusiveCold(r, pr);
    } else {
      actions := PlanExclusiveReplica(r, pr);
    }
  }

  method PlanExclusiveCold(r: ExclusiveRound, pr: Pressure) returns (actions: seq<Action>)
    requires pr in r.pressures && ProfilesOf(r, pr.modelId) != [] && RoundPacksFinitely(r)
    requires Copies(r, pr.modelId) == []
    ensures SoundExclusive(r, actions)
    ensures actions == [] ==>
              NothingFits(SmallestCandidates(ProfilesOf(r, pr.modelId)), FreeGpus(r)) && NothingToPreempt(r, pr)
    ensures actions != [] ==> AnswersExclusiveCold(r, pr, actions)
  {
    var candidates := ProfilesOf(r, pr.modelId);
    var starts := MaximumSmallestPlacements(candidates, FreeGpus(r));
    if starts != [] {
      PackedApart(SmallestCandidates(candidates), FreeGpus(r), starts);
      PackedAreOffered(candidates, FreeGpus(r), starts);
      assert AsManyAsWanted(r, pr, starts);
      actions := StartActions(starts, "cold_backlog");
      assert StartsOnFree(r, actions);
      return;
    }
    actions := Preempt(r, pr, "incompatible_backlog");
  }

  /** The replicas to start among those wanted; `fits` when the free GPUs take any at all. */
  method UsefulReplicas(r: ExclusiveRound, pr: Pressure) returns (useful: seq<StartPair>, fits: bool)
    requires pr in r.pressures && pr.modelId in r.profiles && RoundPacksFinitely(r)
    requires Copies(r, pr.modelId) != [] && WantedCopies(r, pr) > |Copies(r, pr.modelId)|
    ensures useful != [] ==> StartsOnFree(r, StartActions(useful, "replica_backlog"))
    ensures exists all, wanted: nat :: UsefulOfWanted(r, pr, all, wanted, useful)
    ensures useful == [] && fits ==> ReplicasAreUseless(r, pr)
    ensures !fits ==> NothingFits(SmallestCandidates(OneGpuProfiles(r, pr.modelId)), FreeGpus(r))
  {
    var wanted: nat := WantedCopies(r, pr);
    var all := MaximumSmallestPlacements(OneGpuProfiles(r, pr.modelId), FreeGpus(r));
    var first := all[..Min(|all|, wanted - |Copies(r, pr.modelId)|)];
    useful, fits := Filter(first, UsefulStart(r.planner, ReadyOnes(r, pr.modelId))), all != [];
    assert UsefulOfWanted(r, pr, all, wanted, useful);
    if useful != [] {
      UsefulStartsAreSound(r, pr, all, wanted, useful, "replica_backlog");
    }
  }

  method PlanExclusiveReplica(r: ExclusiveRound, pr: Pressure) returns (actions: seq<Action>)
    requires pr in r.pressures && ProfilesOf(r, pr.modelId) != [] && RoundPacksFinitely(r)
    requires Copies(r, pr.modelId) != []
    ensures SoundExclusive(r, actions)
    ensures actions == [] ==> MayWaitExclusive(r, pr)
    ensures actions != [] ==> AnswersExclusiveReplica(r, pr, actions)
  {
    if ReadyOnes(r, pr.modelId) == [] || OneGpuProfiles(r, pr.modelId) == [] {
      return [];
    }
    EnoughCopiesExactlyWhen(pr, |Copies(r, pr.modelId)|, ReadyOnes(r, pr.modelId), r.planner.scaleWindow);
    if WantedCopies(r, pr) <= |Copies(r, pr.modelId)| {
      return [];
    }
    var useful, fits := UsefulReplicas(r, pr);
    if useful != [] {
      actions := StartActions(useful, "replica_backlog");
    } else if !fits {
      actions := Preempt(r, pr, "replica_capacity");
    } else {
      actions := [];
    }
  }

  /** Packed placements are eligible sets of the profiles they were packed from. */
  ghost predicate Offered(profiles: seq<Profile>, starts: seq<StartPair>) {
    forall x :: x in starts ==> x.0 in profiles && x.1 in x.0.eligibleGpuSets
  }

  lemma {:induction false} PackedFrom(candidates: seq<Profile>, free: set<Gpu>, starts: seq<StartPair>)
    requires Packs(candidates, free, starts)
    ensures Offered(candidates, starts)
  {
    if starts != [] {
      var init, last := starts[..|starts| - 1], starts[|starts| - 1];
      PackedFrom(candidates, free, init);
      assert starts == init + [last];
    }
  }

  lemma {:induction false} PackedAreOffered(profiles: seq<Profile>, free: set<Gpu>, starts: seq<StartPair>)
    requires Packs(SmallestCandidates(profiles), free, starts)
    ensures Offered(profiles, starts)
  {
    PackedFrom(SmallestCandidates(profiles), free, starts);
    assert forall p :: p in SmallestCandidates(profiles) ==> p in profiles;
  }

  lemma {:induction false} UsefulStartsAreApart(candidates: seq<Profile>, free: set<Gpu>, starts: seq<StartPair>,
                                                n: nat,
                             keep: StartPair -> bool)
    requires Packs(candidates, free, starts) && n <= |starts|
    ensures PlacedApart(free, Filter(starts[..n], keep))
  {
    PackedApart(candidates, free, starts);
    PrefixApart(free, starts, n);
    KeptApart(free, starts[..n], keep);
  }

  lemma FirstAreOffered(profiles: seq<Profile>, starts: seq<StartPair>, n: nat, keep: StartPair -> bool)
    requires Offered(profiles, starts) && n <= |starts|
    ensures Offered(profiles, Filter(starts[..n], keep))
  {
    forall x | x in starts[..n] ensures x in starts {
    }
  }

  lemma UsefulStartsAreSound(r: ExclusiveRound, pr: Pressure, all: seq<StartPair>, wanted: nat,
                             starts: seq<StartPair>, reason: string)
    requires pr in r.pressures && Copies(r, pr.modelId) != [] && UsefulOfWanted(r, pr, all, wanted, starts)
    ensures StartsOnFree(r, StartActions(starts, reason))
  {
    var oneGpu, keep := OneGpuProfiles(r, pr.modelId), UsefulStart(r.planner, ReadyOnes(r, pr.modelId));
    var n := Min(|all|, wanted - |Copies(r, pr.modelId)|);
    UsefulStartsAreApart(SmallestCandidates(oneGpu), FreeGpus(r), all, n, keep);
    PackedAreOffered(oneGpu, FreeGpus(r), all);
    FirstAreOffered(oneGpu, all, n, keep);
    assert Offered(ProfilesOf(r, pr.modelId), starts);
    assert AsManyAsWanted(r, pr, starts);
  }

  function OldestFirst(a: Pressure, b: Pressure): bool {
    a.oldestEnqueuedAt <= b.oldestEnqueuedAt
  }

  /** The first pressure, in the given order, for which something can be done. */
  method PlanExclusivePressures(r: ExclusiveRound, ordered: seq<Pressure>) returns (actions: seq<Action>)
    requires RoundPacksFinitely(r) && forall pr :: pr in ordered <==> pr in r.pressures
    requires Sorted(ordered, OldestFirst)
    ensures SoundExclusive(r, actions)
    ensures actions != [] ==> AnswersOldest(r, actions)
    ensures actions == [] ==> AllMayWait(r, ordered)
  {
    for k := 0 to |ordered|
      invariant AllMayWait(r, ordered[..k])
    {
      assert ordered[k] in ordered;
      actions := PlanExclusivePressure(r, ordered[k]);
      if actions != [] {
        OlderMayWait(r, ordered, k);
        return;
      }
      OneMoreMayWait(r, ordered, k);
    }
    assert ordered[..|ordered|] == ordered;
    actions := [];
  }

  ghost predicate AllMayWait(r: ExclusiveRound, pressures: seq<Pressure>) {
    forall pr :: pr in pressures ==> MayWaitExclusive(r, pr)
  }

  lemma OneMoreMayWait(r: ExclusiveRound, ordered: seq<Pressure>, k: nat)
    requires k < |ordered| && AllMayWait(r, ordered[..k]) && MayWaitExclusive(r, ordered[k])
    ensures AllMayWait(r, ordered[..k + 1])
  {
    assert ordered[..k + 1] == ordered[..k] + [ordered[k]];
  }

  lemma OlderMayWait(r: ExclusiveRound, ordered: seq<Pressure>, k: nat)
    requires k < |ordered| && Sorted(ordered, OldestFirst) && AllMayWait(r, ordered[..k])
    ensures forall other :: other in ordered && other.oldestEnqueuedAt < ordered[k].oldestEnqueuedAt ==>
              MayWaitExclusive(r, other)
  {
    forall other | other in ordered && other.oldestEnqueuedAt < ordered[k].oldestEnqueuedAt
      ensures other in ordered[..k]
    {
      var j :| 0 <= j < |ordered| && ordered[j] == other;
      assert !OldestFirst(ordered[k], other);
      assert j < k && ordered[..k][j] == other;
    }
  }

  method PlanExclusive(r: ExclusiveRound) returns (actions: seq<Action>)
    requires RoundPacksFinitely(r)
    ensures SoundExclusive(r, actions)
    ensures if Filter(Running(r), IsIdleTimeout(r)) != [] then DrainsIdle(r, actions)
            else actions != [] ==> AnswersOldest(r, actions)
    ensures actions == [] ==> AllMayWait(r, r.pressures)
  {
    var idle := Filter(Running(r), IsIdleTimeout(r));
    if idle != [] {
      return DrainActions(idle, "idle_timeout");
    }
    var ordered := SortBy(r.pressures, OldestFirst);
    forall pr ensures pr in ordered <==> pr in r.pressures {
      SortByMembers(r.pressures, OldestFirst, pr);
    }
    SortByIsSorted(r.pressures, OldestFirst);
    actions := PlanExclusivePressures(r, ordered);
  }

  /** The GPU sets a round starts engines on. */
  function StartSets(actions: seq<Action>): seq<seq<Gpu>> {
    if actions == [] then []
    else (if actions[0].Start? then [actions[0].gpus] else []) + StartSets(actions[1..])
  }

  lemma {:induction false} StartSetsOfStarts(starts: seq<StartPair>, reason: string)
    ensures StartSets(StartActions(starts, reason)) == StartedSets(starts)
  {
    if starts != [] {
      StartSetsOfStarts(starts[1..], reason);
      assert StartActions(starts, reason)[1..] == StartActions(starts[1..], reason);
      assert StartedSets(starts) == [starts[0].1] + StartedSets(starts[1..]);
    }
  }

  lemma {:induction false} DrainsStartNothing(actions: seq<Action>)
    requires forall a :: a in actions ==> a.Drain?
    ensures StartSets(actions) == []
  {
    if actions != [] {
      assert actions[0] in actions && forall a :: a in actions[1..] ==> a in actions;
      DrainsStartNothing(actions[1..]);
    }
  }

  /** However a round decides, carrying out its starts leaves the engines' GPU sets pairwise disjoint. */
  lemma {:induction false} RoundKeepsGpusExclusive(r: ExclusiveRound, actions: seq<Action>)
    requires PairwiseApart(WorkerSets(Running(r))) && SoundExclusive(r, actions)
    ensures PairwiseApart(WorkerSets(Running(r)) + StartSets(actions))
  {
    var sets := WorkerSets(Running(r));
    if StartsOnFree(r, actions) {
      var pr, starts, reason :|
        pr in r.pressures && actions == StartActions(starts, reason) && PlacedApart(FreeGpus(r), starts);
      StartSetsOfStarts(starts, reason);
      StartsKeepGpusExclusive(Running(r), r.all, starts);
    } else {
      DrainsStartNothing(actions);
      assert sets + [] == sets;
    }
  }

  /** With an override in play the last copies of a model may go: both are drained for one newcomer. */
  lemma OverrideMayTakeTheLastCopy(d: Preemption, a: Worker, b: Worker, gpus: seq<Gpu>)
    requires a.profile.modelId == b.profile.modelId && a.state.Ready? && b.state.Ready?
    requires a.profile.modelId != d.modelId && a.profile.modelId in d.pressured
    requires Overlaps(a.gpus, gpus) && Overlaps(b.gpus, gpus)
    requires Overridden(d, a) && !Overridden(d, b) && ResidencySatisfied(d.minimumResidency, b, d.now)
    ensures Preemptible(d, [a, b], gpus) && CopiesLeft([a, b], gpus, a.profile.modelId) == 0
  {
    var m := a.profile.modelId;
    FilterAll([a, b], IsBlocker(gpus));
    SumOfPair(a, b, OneIf(IsResident(m)));
    SumOfPair(a, b, OneIf(IsProtected(d, m)));
    SumOfPair(a, b, OneIf(OfBlockedModel(gpus, m)));
    forall w | w in [a, b] ensures w == a || w == b {
    }
  }
}
