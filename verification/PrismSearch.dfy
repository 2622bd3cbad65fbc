/** The searches of the Prism planner: which copy to wake, where to start, whom to sleep or evict. */
module PrismSearch {
  import opened Collections
  import opened Domain
  import opened Ordering
  import opened PrismFit
  import opened PrismLaws
  import opened Selections

  predicate Available(gpus: seq<Gpu>, all: set<Gpu>) {
    forall g :: g in gpus ==> g in all
  }

  // ---------- waking cached copies ----------

  predicate CanWake(limits: Limits, all: set<Gpu>, live: seq<Worker>, w: Worker) {
    Available(w.gpus, all) && Fits(limits, w.profile, w.gpus, live, View(Some(w.id), {}))
  }

  /** What the last wake-up took, or what loading takes as long as there was none. */
  function ActivationSeconds(w: Worker): (seconds: real)
    ensures w.lastActivationSeconds == Some(seconds)
            || (w.lastActivationSeconds.None? && seconds == w.profile.loadAndWarmupSeconds)
  {
    if w.lastActivationSeconds.Some? then w.lastActivationSeconds.value
    else w.profile.loadAndWarmupSeconds
  }

  predicate WakesSooner(a: Worker, b: Worker)
    ensures WakesSooner(a, b) ==> ActivationSeconds(a) <= ActivationSeconds(b)
    ensures WakesSooner(a, b) && ActivationSeconds(a) == ActivationSeconds(b) ==> a.lastDemandAt <= b.lastDemandAt
  {
    ActivationSeconds(a) < ActivationSeconds(b)
    || (ActivationSeconds(a) == ActivationSeconds(b) && a.lastDemandAt <= b.lastDemandAt)
  }

  /** The sleeping copy that wakes fastest among those that fit; none only when none fits. */
  method FirstCachedWake(limits: Limits, sleeping: seq<Worker>, all: set<Gpu>, live: seq<Worker>)
    returns (wake: Option<Worker>)
    ensures wake.None? <==> forall w :: w in sleeping ==> !CanWake(limits, all, live, w)
    ensures wake.Some? ==>
              && wake.value in sleeping && CanWake(limits, all, live, wake.value)
              && forall w :: w in sleeping && CanWake(limits, all, live, w) ==> WakesSooner(wake.value, w)
  {
    var ordered := SortBy(sleeping, WakesSooner);
    SortByIsSorted(sleeping, WakesSooner);
    forall w ensures w in ordered <==> w in sleeping {
      SortByMembers(sleeping, WakesSooner, w);
    }
    for k := 0 to |ordered|
      invariant forall j :: 0 <= j < k ==> !CanWake(limits, all, live, ordered[j])
    {
      var fits := CachedPrismFits(limits, ordered[k].profile, ordered[k].gpus, live,
                                  View(Some(ordered[k].id), {}));
      if Available(ordered[k].gpus, all) && fits {
        FirstIsLeast(ordered, WakesSooner, k);
        assert ordered[k] in sleeping;
        return Some(ordered[k]);
      }
    }
    return None;
  }

  /** In a sorted list nothing at or after a position precedes it in the order. */
  lemma FirstIsLeast<T(!new)>(xs: seq<T>, le: (T, T) -> bool, k: nat)
    requires TotalOrder(le) && Sorted(xs, le) && k < |xs|
    ensures forall j :: k <= j < |xs| ==> le(xs[k], xs[j])
  {
  }

  function Woken(w: Worker, id: WorkerId): Worker {
    if w.id == id then w.(state := Waking) else w
  }

  function WakeOne(ws: seq<Worker>, id: WorkerId): (after: seq<Worker>)
    ensures |after| == |ws|
    ensures forall k :: 0 <= k < |ws| ==> after[k] == Woken(ws[k], id)
  {
    seq(|ws|, k requires 0 <= k < |ws| => Woken(ws[k], id))
  }

  /** The workers once these wakes have begun. */
  function Projected(live: seq<Worker>, wakes: seq<Worker>): seq<Worker> {
    if wakes == [] then live
    else WakeOne(Projected(live, wakes[..|wakes| - 1]), wakes[|wakes| - 1].id)
  }

  /** Each wake fits once all the wakes before it are under way. */
  ghost predicate WakesFit(limits: Limits, all: set<Gpu>, live: seq<Worker>, wakes: seq<Worker>) {
    wakes != [] ==>
      && WakesFit(limits, all, live, wakes[..|wakes| - 1])
      && CanWake(limits, all, Projected(live, wakes[..|wakes| - 1]), wakes[|wakes| - 1])
  }

  /** Each wake is the soonest of the copies that fit beside the wakes before it. */
  ghost predicate SoonestFirst(limits: Limits, all: set<Gpu>, live: seq<Worker>, sleeping: seq<Worker>,
                               wakes: seq<Worker>)
  {
    wakes != [] ==>
      var init, last := wakes[..|wakes| - 1], wakes[|wakes| - 1];
      && SoonestFirst(limits, all, live, sleeping, init)
      && forall w :: w in sleeping && w.id !in Ids(init) && CanWake(limits, all, Projected(live, init), w) ==>
           WakesSooner(last, w)
  }

  /** Wakes that fit jointly: as many as asked for, unless no further copy fits beside them. */
  method CachedWakes(limits: Limits, sleeping: seq<Worker>, all: set<Gpu>, live: seq<Worker>, limit: int)
    returns (selected: seq<Worker>)
    requires DistinctIds(sleeping)
    ensures WakesFit(limits, all, live, selected) && SoonestFirst(limits, all, live, sleeping, selected)
    ensures DistinctIds(selected) && forall w :: w in selected ==> w in sleeping
    ensures |selected| < limit ==>
              forall w :: w in sleeping && w.id !in Ids(selected) ==>
                !CanWake(limits, all, Projected(live, selected), w)
    ensures limit > 0 ==> |selected| <= limit
  {
    selected := [];
    var remaining, projected := sleeping, live;
    while remaining != [] && |selected| < limit
      invariant WakesFit(limits, all, live, selected) && SoonestFirst(limits, all, live, sleeping, selected)
      invariant projected == Projected(live, selected)
      invariant DistinctIds(selected)
      invariant limit > 0 ==> |selected| <= limit
      invariant forall w :: w in selected ==> w in sleeping
      invariant forall w :: w in remaining <==> w in sleeping && w.id !in Ids(selected)
      decreases |remaining|
    {
      var wake := FirstCachedWake(limits, remaining, all, projected);
      if wake.None? {
        return;
      }
      ghost var before := selected;
      FilterShrinks(remaining, IdNotIn({wake.value.id}), wake.value);
      selected := selected + [wake.value];
      assert selected[..|selected| - 1] == before;
      AppendKeepsDistinctIds(before, wake.value);
      remaining := Drop(remaining, {wake.value.id});
      projected := WakeOne(projected, wake.value.id);
    }
  }

  lemma AppendKeepsDistinctIds(ws: seq<Worker>, w: Worker)
    requires DistinctIds(ws) && w.id !in Ids(ws)
    ensures DistinctIds(ws + [w]) && Ids(ws + [w]) == Ids(ws) + {w.id}
  {
    forall i, j | 0 <= i < j < |ws + [w]| ensures (ws + [w])[i].id != (ws + [w])[j].id {
      if j == |ws| {
        assert ws[i] in ws;
      }
    }
  }

  lemma {:induction false} FilterShrinks<T>(xs: seq<T>, keep: T -> bool, x: T)
    requires x in xs && !keep(x)
    ensures |Filter(xs, keep)| < |xs|
  {
    if xs[0] != x {
      assert xs == [xs[0]] + xs[1..];
      FilterShrinks(xs[1..], keep, x);
    }
  }

  // ---------- starting a new engine ----------

  function {:induction false} SumNat(xs: seq<nat>): nat {
    if xs == [] then 0 else xs[0] + SumNat(xs[1..])
  }

  /** Fewer GPUs first, then less memory when idle, then more throughput. */
  predicate SmallerProfile(a: Profile, b: Profile)
    ensures SmallerProfile(a, b) ==> a.gpuCount <= b.gpuCount
    ensures SmallerProfile(a, b) && a.gpuCount == b.gpuCount ==> SumNat(a.idleVram) <= SumNat(b.idleVram)
    ensures SmallerProfile(a, b) && a.gpuCount == b.gpuCount && SumNat(a.idleVram) == SumNat(b.idleVram) ==>
              a.predictedTokensPerSecond >= b.predictedTokensPerSecond
  {
    var (idleA, idleB) := (SumNat(a.idleVram), SumNat(b.idleVram));
    a.gpuCount < b.gpuCount
    || (a.gpuCount == b.gpuCount
        && (idleA < idleB
            || (idleA == idleB && a.predictedTokensPerSecond >= b.predictedTokensPerSecond)))
  }

  predicate CanStart(limits: Limits, all: set<Gpu>, ws: seq<Worker>, p: Profile, gpus: seq<Gpu>) {
    gpus in p.eligibleGpuSets && Available(gpus, all) && Fits(limits, p, gpus, ws, Plain)
  }

  /** The first eligible GPU set on which the profile fits. */
  method FirstFittingSet(limits: Limits, p: Profile, all: set<Gpu>, ws: seq<Worker>)
    returns (gpus: Option<seq<Gpu>>)
    ensures gpus.None? <==> forall s :: s in p.eligibleGpuSets ==> !CanStart(limits, all, ws, p, s)
    ensures gpus.Some? ==> CanStart(limits, all, ws, p, gpus.value)
  {
    for k := 0 to |p.eligibleGpuSets|
      invariant forall j :: 0 <= j < k ==> !CanStart(limits, all, ws, p, p.eligibleGpuSets[j])
    {
      var fits := CachedPrismFits(limits, p, p.eligibleGpuSets[k], ws, Plain);
      if Available(p.eligibleGpuSets[k], all) && fits {
        assert CanStart(limits, all, ws, p, p.eligibleGpuSets[k]);
        return Some(p.eligibleGpuSets[k]);
      }
    }
    return None;
  }

  /** The smallest profile that fits somewhere; none only when no profile fits anywhere. */
  method SmallestCachedPrismFitting(limits: Limits, profiles: seq<Profile>, all: set<Gpu>, ws: seq<Worker>)
    returns (start: Option<(Profile, seq<Gpu>)>)
    ensures start.None? <==>
              forall p, s :: p in profiles && s in p.eligibleGpuSets ==> !CanStart(limits, all, ws, p, s)
    ensures start.Some? ==>
              && start.value.0 in profiles
              && CanStart(limits, all, ws, start.value.0, start.value.1)
              && forall p, s :: p in profiles && s in p.eligibleGpuSets && CanStart(limits, all, ws, p, s) ==>
                   SmallerProfile(start.value.0, p)
  {
    var ordered := SortBy(profiles, SmallerProfile);
    SortByIsSorted(profiles, SmallerProfile);
    forall p ensures p in ordered <==> p in profiles {
      SortByMembers(profiles, SmallerProfile, p);
    }
    for k := 0 to |ordered|
      invariant forall j, s :: 0 <= j < k && s in ordered[j].eligibleGpuSets ==>
                  !CanStart(limits, all, ws, ordered[j], s)
    {
      var gpus := FirstFittingSet(limits, ordered[k], all, ws);
      if gpus.Some? {
        FirstIsLeast(ordered, SmallerProfile, k);
        return Some((ordered[k], gpus.value));
      }
    }
    return None;
  }
}
