/** Laws of Prism admission: order does not matter, removal helps, and sleeping is what it predicts. */
module PrismLaws {
  import opened Collections
  import opened Domain
  import opened PrismFit

  // ---------- order of the worker list ----------

  lemma SameMembers<T>(xs: seq<T>, ys: seq<T>, x: T)
    requires multiset(xs) == multiset(ys)
    ensures x in xs <==> x in ys
  {
    assert x in multiset(xs) <==> x in xs;
    assert x in multiset(ys) <==> x in ys;
  }

  lemma FitsOnIgnoresOrder(limits: Limits, p: Profile, i: nat, g: Gpu, ws: seq<Worker>,
                           other: seq<Worker>, v: View)
    requires Measures(p, i) && multiset(ws) == multiset(other)
    ensures FitsOn(limits, p, i, g, ws, v) ==> FitsOn(limits, p, i, g, other, v)
  {
    SumOfPermutation(ws, other, ChargeOn(limits, g, v));
    SumOfPermutation(ws, other, OneIf(IsColocated(g)));
    SumOfPermutation(ws, other, OneIf(IsActive(g, v)));
    forall w ensures w in other <==> w in ws {
      SameMembers(ws, other, w);
    }
  }

  lemma FitsOneWay(limits: Limits, p: Profile, gpuSet: seq<Gpu>, ws: seq<Worker>,
                   other: seq<Worker>, v: View)
    requires multiset(ws) == multiset(other) && Fits(limits, p, gpuSet, ws, v)
    ensures Fits(limits, p, gpuSet, other, v)
  {
    forall w | w in other ensures !Duplicate(p, gpuSet, w, v) {
      SameMembers(ws, other, w);
    }
    forall i | 0 <= i < |gpuSet| ensures FitsOn(limits, p, i, gpuSet[i], other, v) {
      FitsOnIgnoresOrder(limits, p, i, gpuSet[i], ws, other, v);
    }
  }

  /** Admission does not depend on the order in which workers are listed. */
  lemma FitsIgnoresOrder(limits: Limits, p: Profile, gpuSet: seq<Gpu>, ws: seq<Worker>,
                         other: seq<Worker>, v: View)
    requires multiset(ws) == multiset(other)
    ensures Fits(limits, p, gpuSet, ws, v) <==> Fits(limits, p, gpuSet, other, v)
  {
    if Fits(limits, p, gpuSet, ws, v) {
      FitsOneWay(limits, p, gpuSet, ws, other, v);
    }
    if Fits(limits, p, gpuSet, other, v) {
      FitsOneWay(limits, p, gpuSet, other, ws, v);
    }
  }

  // ---------- removing workers ----------

  lemma {:induction false} SumOfKeptAtMost<T>(xs: seq<T>, keep: T -> bool, f: T -> int)
    requires forall x :: x in xs ==> f(x) >= 0
    ensures SumOf(Filter(xs, keep), f) <= SumOf(xs, f)
  {
    if xs != [] {
      SumOfKeptAtMost(xs[1..], keep, f);
    }
  }

  lemma {:induction false} FitsOnSurvivesRemoval(limits: Limits, p: Profile, i: nat, g: Gpu, ws: seq<Worker>, v: View,
                              keep: Worker -> bool)
    requires Measures(p, i) && FitsOn(limits, p, i, g, ws, v)
    ensures FitsOn(limits, p, i, g, Filter(ws, keep), v)
  {
    SumOfKeptAtMost(ws, keep, ChargeOn(limits, g, v));
    SumOfKeptAtMost(ws, keep, OneIf(IsColocated(g)));
    SumOfKeptAtMost(ws, keep, OneIf(IsActive(g, v)));
    var kept, total := Filter(ws, keep), TotalMib(limits, g);
    var load, less := Used(limits, ws, g, v) + Footprint(p, i), Used(limits, kept, g, v) + Footprint(p, i);
    LighterLoadAllowed(kept, g, total, load, less);
    LighterLoadUnder(total, p.gpuMemoryUtilization, load, less);
  }

  lemma LighterLoadUnder(total: nat, utilization: real, load: int, less: int)
    requires less <= load && UnderUtilization(total, utilization, load)
    ensures UnderUtilization(total, utilization, less)
  {
  }

  lemma LighterLoadAllowed(ws: seq<Worker>, g: Gpu, total: nat, load: int, less: int)
    requires less <= load && NeighboursAllow(ws, g, total, load)
    ensures NeighboursAllow(ws, g, total, less)
  {
    forall w | w in ws && Colocated(w, g)
      ensures UnderUtilization(total, w.profile.gpuMemoryUtilization, less)
    {
      LighterLoadUnder(total, w.profile.gpuMemoryUtilization, load, less);
    }
  }

  /** An engine that fits still fits after any workers leave. */
  lemma {:induction false} FitsSurvivesRemoval(limits: Limits, p: Profile, gpuSet: seq<Gpu>, ws: seq<Worker>, v: View,
                            keep: Worker -> bool)
    requires Fits(limits, p, gpuSet, ws, v)
    ensures Fits(limits, p, gpuSet, Filter(ws, keep), v)
  {
    forall i | 0 <= i < |gpuSet| ensures FitsOn(limits, p, i, gpuSet[i], Filter(ws, keep), v) {
      FitsOnSurvivesRemoval(limits, p, i, gpuSet[i], ws, v, keep);
    }
  }

  // ---------- prospective sleep ----------

  function AfterSleep(w: Worker, ids: set<WorkerId>): Worker {
    if w.id in ids then w.(state := Sleeping) else w
  }

  function SleepAll(ws: seq<Worker>, ids: set<WorkerId>): (slept: seq<Worker>)
    ensures |slept| == |ws|
    ensures forall k :: 0 <= k < |ws| ==> slept[k] == AfterSleep(ws[k], ids)
  {
    seq(|ws|, k requires 0 <= k < |ws| => AfterSleep(ws[k], ids))
  }

  lemma {:induction false} SumOfPointwise<T>(xs: seq<T>, ys: seq<T>, f: T -> int, h: T -> int)
    requires |xs| == |ys| && forall k :: 0 <= k < |xs| ==> f(xs[k]) == h(ys[k])
    ensures SumOf(xs, f) == SumOf(ys, h)
  {
    if xs != [] {
      SumOfPointwise(xs[1..], ys[1..], f, h);
    }
  }

  ghost predicate AliveWhere(ws: seq<Worker>, ids: set<WorkerId>) {
    forall w :: w in ws && w.id in ids ==> !w.state.Cold?
  }

  /** Sleeping one worker for real changes no test or charge that its prospective sleep did not. */
  lemma OneWorkerSleeps(limits: Limits, w: Worker, g: Gpu, existing: Option<WorkerId>, ids: set<WorkerId>)
    requires w.id in ids ==> !w.state.Cold?
    ensures var slept, v := AfterSleep(w, ids), View(existing, ids);
            var plain := View(existing, {});
            && Colocated(w, g) == Colocated(slept, g)
            && Active(w, g, v) == Active(slept, g, plain)
            && Charge(limits, w, g, v) == Charge(limits, slept, g, plain)
            && w.profile == slept.profile && w.gpus == slept.gpus && w.id == slept.id
            && (w.state.Cold? <==> slept.state.Cold?)
  {
  }

  lemma SleptMembers(ws: seq<Worker>, ids: set<WorkerId>)
    ensures forall s :: s in SleepAll(ws, ids) ==> exists w :: w in ws && s == AfterSleep(w, ids)
    ensures forall w :: w in ws ==> AfterSleep(w, ids) in SleepAll(ws, ids)
  {
    var slept := SleepAll(ws, ids);
    forall s | s in slept ensures exists w :: w in ws && s == AfterSleep(w, ids) {
      var k :| 0 <= k < |slept| && slept[k] == s;
      assert ws[k] in ws;
    }
    forall w | w in ws ensures AfterSleep(w, ids) in slept {
      var k :| 0 <= k < |ws| && ws[k] == w;
      assert slept[k] == AfterSleep(w, ids);
    }
  }

  lemma SumsAfterSleep(limits: Limits, g: Gpu, ws: seq<Worker>, existing: Option<WorkerId>,
                       ids: set<WorkerId>)
    requires AliveWhere(ws, ids)
    ensures Used(limits, ws, g, View(existing, ids))
            == Used(limits, SleepAll(ws, ids), g, View(existing, {}))
    ensures CountColocated(ws, g) == CountColocated(SleepAll(ws, ids), g)
    ensures CountActive(ws, g, View(existing, ids))
            == CountActive(SleepAll(ws, ids), g, View(existing, {}))
  {
    var slept, v, plain := SleepAll(ws, ids), View(existing, ids), View(existing, {});
    forall k | 0 <= k < |ws|
      ensures ChargeOn(limits, g, v)(ws[k]) == ChargeOn(limits, g, plain)(slept[k])
      ensures OneIf(IsColocated(g))(ws[k]) == OneIf(IsColocated(g))(slept[k])
      ensures OneIf(IsActive(g, v))(ws[k]) == OneIf(IsActive(g, plain))(slept[k])
    {
      assert ws[k] in ws;
      OneWorkerSleeps(limits, ws[k], g, existing, ids);
    }
    SumOfPointwise(ws, slept, ChargeOn(limits, g, v), ChargeOn(limits, g, plain));
    SumOfPointwise(ws, slept, OneIf(IsColocated(g)), OneIf(IsColocated(g)));
    SumOfPointwise(ws, slept, OneIf(IsActive(g, v)), OneIf(IsActive(g, plain)));
  }

  lemma MembersAfterSleep(limits: Limits, g: Gpu, ws: seq<Worker>, existing: Option<WorkerId>,
                          ids: set<WorkerId>, total: nat, load: int)
    requires AliveWhere(ws, ids)
    ensures AllKvcached(ws, g) <==> AllKvcached(SleepAll(ws, ids), g)
    ensures AllMeasured(ws, g, View(existing, ids))
            <==> AllMeasured(SleepAll(ws, ids), g, View(existing, {}))
    ensures NeighboursAllow(ws, g, total, load) <==> NeighboursAllow(SleepAll(ws, ids), g, total, load)
  {
    SleptMembers(ws, ids);
    forall w | w in ws
      ensures var slept, v := AfterSleep(w, ids), View(existing, ids);
              && Colocated(w, g) == Colocated(slept, g)
              && Active(w, g, v) == Active(slept, g, View(existing, {}))
    {
      OneWorkerSleeps(limits, w, g, existing, ids);
    }
  }

  lemma FitsOnAfterSleep(limits: Limits, p: Profile, i: nat, g: Gpu, ws: seq<Worker>,
                         existing: Option<WorkerId>, ids: set<WorkerId>)
    requires AliveWhere(ws, ids) && Measures(p, i)
    ensures FitsOn(limits, p, i, g, ws, View(existing, ids))
            <==> FitsOn(limits, p, i, g, SleepAll(ws, ids), View(existing, {}))
  {
    SumsAfterSleep(limits, g, ws, existing, ids);
    MembersAfterSleep(limits, g, ws, existing, ids, TotalMib(limits, g),
                      Used(limits, ws, g, View(existing, ids)) + Footprint(p, i));
  }

  /**
   * Asking whether an engine would fit if some workers slept is asking whether it fits once they do.
   */
  lemma ProspectiveSleepIsSleep(limits: Limits, p: Profile, gpuSet: seq<Gpu>, ws: seq<Worker>,
                                existing: Option<WorkerId>, ids: set<WorkerId>)
    requires AliveWhere(ws, ids)
    ensures Fits(limits, p, gpuSet, ws, View(existing, ids))
            <==> Fits(limits, p, gpuSet, SleepAll(ws, ids), View(existing, {}))
  {
    NoDuplicateAfterSleep(p, gpuSet, ws, existing, ids);
    if Shaped(p, gpuSet) {
      forall i | 0 <= i < |gpuSet|
        ensures FitsOn(limits, p, i, gpuSet[i], ws, View(existing, ids))
                <==> FitsOn(limits, p, i, gpuSet[i], SleepAll(ws, ids), View(existing, {}))
      {
        FitsOnAfterSleep(limits, p, i, gpuSet[i], ws, existing, ids);
      }
    }
  }

  lemma NoDuplicateAfterSleep(p: Profile, gpuSet: seq<Gpu>, ws: seq<Worker>,
                              existing: Option<WorkerId>, ids: set<WorkerId>)
    requires AliveWhere(ws, ids)
    ensures (forall w :: w in ws ==> !Duplicate(p, gpuSet, w, View(existing, ids)))
            <==> (forall w :: w in SleepAll(ws, ids) ==> !Duplicate(p, gpuSet, w, View(existing, {})))
  {
    SleptMembers(ws, ids);
    forall w | w in ws
      ensures Duplicate(p, gpuSet, w, View(existing, ids))
              <==> Duplicate(p, gpuSet, AfterSleep(w, ids), View(existing, {}))
    {
    }
  }
}
