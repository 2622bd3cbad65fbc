/**
 * Admission misses no room: an engine that would leave every GPU within its budgets is accepted.
 * Together with the safety of accepted engines, the admission test decides safety exactly.
 */
module PrismRoom {
  import opened Collections
  import opened Domain
  import opened PrismFit
  import opened PrismLaws
  import opened PrismProfiles
  import opened PrismRuns

  /** A measured kvcached engine whose weights are off its GPUs exactly when it sleeps. */
  predicate Exact(s: Slot) {
    Live(s) ==>
      && (s.offGpu <==> s.worker.state.Sleeping?)
      && Kvcached(s.worker.profile) && Shaped(s.worker.profile, s.worker.gpus)
  }

  ghost predicate AllExact(slots: seq<Slot>) {
    forall s :: s in slots ==> Exact(s)
  }

  /** No other live copy of the profile's model runs on this very GPU set. */
  ghost predicate NoTwin(slots: seq<Slot>, p: Profile, gpus: seq<Gpu>, skip: Option<WorkerId>) {
    forall s :: s in slots && Live(s) && skip != Some(s.worker.id) ==>
      !(s.worker.profile.modelId == p.modelId && s.worker.gpus == gpus)
  }

  // ---------- the planner charges exactly what is held ----------

  lemma SlotMatched(limits: Limits, s: Slot, waking: set<WorkerId>, skip: Option<WorkerId>, g: Gpu)
    requires Exact(s) && Live(s)
    ensures var t, w, v := TenancyOf(s, waking, skip), Seen(s.worker, waking), View(skip, {});
            && TenancyMib(limits, t, g) == Charge(limits, w, g, v)
            && (skip.None? ==> PresentOn(g)(t) == OneIf(IsColocated(g))(w))
            && ResidentOn(g)(t) == OneIf(IsActive(g, v))(w)
  {
  }

  lemma {:induction false} SeenMatches(slots: seq<Slot>, waking: set<WorkerId>, skip: Option<WorkerId>,
                    held: Tenancy -> int, code: Worker -> int)
    requires forall s :: s in slots && Live(s) ==>
               held(TenancyOf(s, waking, skip)) == code(Seen(s.worker, waking))
    requires forall s :: s in slots && !Live(s) ==> held(TenancyOf(s, waking, skip)) == 0
    ensures SumOf(Tenancies(slots, waking, skip), held) == SumOf(SeenAll(LiveWorkers(slots), waking), code)
  {
    var ts := Tenancies(slots, waking, skip);
    forall k | 0 <= k < |ts| ensures held(ts[k]) == PerSlot(waking, code)(slots[k]) {
      assert slots[k] in slots;
    }
    SumOfDominated(ts, slots, held, PerSlot(waking, code));
    SumOfDominated(slots, ts, PerSlot(waking, code), held);
    SumPerSlot(slots, waking, code);
  }

  lemma {:induction false} ChargesMatch(limits: Limits, slots: seq<Slot>, waking: set<WorkerId>,
                                        skip: Option<WorkerId>, g: Gpu)
    requires AllExact(slots)
    ensures Load(limits, Tenancies(slots, waking, skip), g)
            == Used(limits, SeenAll(LiveWorkers(slots), waking), g, View(skip, {}))
  {
    forall s | s in slots && Live(s)
      ensures MibOn(limits, g)(TenancyOf(s, waking, skip))
              == ChargeOn(limits, g, View(skip, {}))(Seen(s.worker, waking))
    {
      SlotMatched(limits, s, waking, skip, g);
    }
    SeenMatches(slots, waking, skip, MibOn(limits, g), ChargeOn(limits, g, View(skip, {})));
  }

  lemma {:induction false} ActiveMatch(limits: Limits, slots: seq<Slot>, waking: set<WorkerId>,
                                       skip: Option<WorkerId>, g: Gpu)
    requires AllExact(slots)
    ensures SumOf(Tenancies(slots, waking, skip), ResidentOn(g))
            == CountActive(SeenAll(LiveWorkers(slots), waking), g, View(skip, {}))
  {
    forall s | s in slots && Live(s)
      ensures ResidentOn(g)(TenancyOf(s, waking, skip)) == OneIf(IsActive(g, View(skip, {})))(Seen(s.worker, waking))
    {
      SlotMatched(limits, s, waking, skip, g);
    }
    SeenMatches(slots, waking, skip, ResidentOn(g), OneIf(IsActive(g, View(skip, {}))));
  }

  lemma {:induction false} PresentMatch(limits: Limits, slots: seq<Slot>, waking: set<WorkerId>, g: Gpu)
    requires AllExact(slots)
    ensures SumOf(Tenancies(slots, waking, None), PresentOn(g))
            == CountColocated(SeenAll(LiveWorkers(slots), waking), g)
  {
    forall s | s in slots && Live(s)
      ensures PresentOn(g)(TenancyOf(s, waking, None)) == OneIf(IsColocated(g))(Seen(s.worker, waking))
    {
      SlotMatched(limits, s, waking, None, g);
    }
    SeenMatches(slots, waking, None, PresentOn(g), OneIf(IsColocated(g)));
  }

  /** Each worker the planner sees stems from a live slot, with its profile, GPUs and id. */
  lemma SeenComesFrom(slots: seq<Slot>, waking: set<WorkerId>, w: Worker) returns (s: Slot)
    requires w in SeenAll(LiveWorkers(slots), waking)
    ensures s in slots && Live(s) && w == Seen(s.worker, waking)
  {
    var live := LiveWorkers(slots);
    var j :| 0 <= j < |live| && SeenAll(live, waking)[j] == w;
    LiveWorkersMembers(slots);
    assert live[j] in live;
    s :| s in slots && Live(s) && s.worker == live[j];
  }

  lemma {:induction false} SeenAreMeasured(slots: seq<Slot>, waking: set<WorkerId>, skip: Option<WorkerId>, g: Gpu)
    requires AllExact(slots)
    ensures AllKvcached(SeenAll(LiveWorkers(slots), waking), g)
    ensures AllMeasured(SeenAll(LiveWorkers(slots), waking), g, View(skip, {}))
  {
    forall w | w in SeenAll(LiveWorkers(slots), waking)
      ensures Kvcached(w.profile) && (g in w.gpus ==> Measures(w.profile, IndexOf(w.gpus, g)))
    {
      var s := SeenComesFrom(slots, waking, w);
    }
  }

  /** Every engine on the GPU, asleep or not, has its utilization bound heeded in a safe host. */
  lemma {:induction false} SeenNeighboursAllow(slots: seq<Slot>, waking: set<WorkerId>, g: Gpu, total: nat, load: int)
    requires forall t :: t in Tenancies(slots, waking, None) && Hosts(t, g) ==>
               UnderUtilization(total, t.profile.gpuMemoryUtilization, load)
    ensures NeighboursAllow(SeenAll(LiveWorkers(slots), waking), g, total, load)
  {
    forall w | w in SeenAll(LiveWorkers(slots), waking) && Colocated(w, g)
      ensures UnderUtilization(total, w.profile.gpuMemoryUtilization, load)
    {
      var s := SeenComesFrom(slots, waking, w);
      var k :| 0 <= k < |slots| && slots[k] == s;
      assert Tenancies(slots, waking, None)[k] == TenancyOf(s, waking, None);
    }
  }

  lemma {:induction false} NoTwinIsNoDuplicate(slots: seq<Slot>, waking: set<WorkerId>, p: Profile, gpus: seq<Gpu>,
                            skip: Option<WorkerId>)
    requires NoTwin(slots, p, gpus, skip)
    ensures forall w :: w in SeenAll(LiveWorkers(slots), waking) ==> !Duplicate(p, gpus, w, View(skip, {}))
  {
    forall w | w in SeenAll(LiveWorkers(slots), waking) ensures !Duplicate(p, gpus, w, View(skip, {})) {
      var s := SeenComesFrom(slots, waking, w);
    }
  }

  // ---------- what is never admitted ----------

  /** Whatever the host looks like, an accepted engine has only kvcached neighbours, the active ones measured. */
  lemma AcceptedNeighbours(limits: Limits, p: Profile, gpus: seq<Gpu>, ws: seq<Worker>, v: View, w: Worker, g: Gpu)
    requires Fits(limits, p, gpus, ws, v) && g in gpus && w in ws && g in w.gpus && w.state != Cold
    ensures w.profile.engine == Vllm && w.profile.memoryBackend == "kvcached"
    ensures w.state != Sleeping && w.id !in v.prospectiveSleep && v.existing != Some(w.id) ==>
              exists i :: 0 <= i < |w.gpus| && w.gpus[i] == g && i < |w.profile.idleVram|
                          && i < |w.profile.peakVram| && i < |w.profile.gpuHeadroom|
  {
    var i :| 0 <= i < |gpus| && gpus[i] == g;
    assert FitsOn(limits, p, i, gpus[i], ws, v);
    if w.state != Sleeping && w.id !in v.prospectiveSleep && v.existing != Some(w.id) {
      assert Active(w, g, v) && Measures(w.profile, IndexOf(w.gpus, g));
      assert w.gpus[IndexOf(w.gpus, g)] == g;
    }
  }

  // ---------- starting ----------

  lemma {:induction false} StartFitsOn(limits: Limits, slots: seq<Slot>, p: Profile, gpus: seq<Gpu>, i: nat)
    requires AllExact(slots) && Shaped(p, gpus) && NoDuplicates(gpus) && i < |gpus|
    requires Safe(limits, Tenancies(slots, {}, None) + [Planned(p, gpus)])
    ensures FitsOn(limits, p, i, gpus[i], SeenAll(LiveWorkers(slots), {}), Plain)
  {
    var g, ts, t := gpus[i], Tenancies(slots, {}, None), Planned(p, gpus);
    OwnIndex(gpus, i);
    assert t in ts + [t] && Hosts(t, g);
    assert SafeOn(limits, ts + [t], g);
    AppendedSums(limits, ts, t, g);
    ChargesMatch(limits, slots, {}, None, g);
    ActiveMatch(limits, slots, {}, None, g);
    PresentMatch(limits, slots, {}, g);
    SeenAreMeasured(slots, {}, None, g);
    var load := Load(limits, ts, g) + Footprint(p, i);
    forall u | u in ts && Hosts(u, g)
      ensures UnderUtilization(TotalMib(limits, g), u.profile.gpuMemoryUtilization, load)
    {
      assert u in ts + [t];
    }
    SeenNeighboursAllow(slots, {}, g, TotalMib(limits, g), load);
  }

  /** An engine that would leave every GPU within its budgets is accepted. */
  lemma {:induction false} SafeStartIsAdmitted(limits: Limits, slots: seq<Slot>, p: Profile, gpus: seq<Gpu>)
    requires AllExact(slots) && Shaped(p, gpus) && NoDuplicates(gpus) && NoTwin(slots, p, gpus, None)
    requires Safe(limits, Tenancies(slots, {}, None) + [Planned(p, gpus)])
    ensures Fits(limits, p, gpus, LiveWorkers(slots), Plain)
  {
    assert SeenAll(LiveWorkers(slots), {}) == LiveWorkers(slots);
    NoTwinIsNoDuplicate(slots, {}, p, gpus, None);
    forall i | 0 <= i < |gpus| ensures FitsOn(limits, p, i, gpus[i], LiveWorkers(slots), Plain) {
      StartFitsOn(limits, slots, p, gpus, i);
    }
  }

  /** On a safe host the planner accepts an engine exactly when the host stays safe with it. */
  lemma {:induction false} StartIsAdmittedExactlyWhen(limits: Limits, slots: seq<Slot>, p: Profile, gpus: seq<Gpu>)
    requires AllExact(slots) && AllCoherent(limits, slots) && NoDuplicates(gpus)
    requires Safe(limits, Tenancies(slots, {}, None))
    ensures Fits(limits, p, gpus, LiveWorkers(slots), Plain)
            <==> && |p.idleVram| == |gpus| && |p.peakVram| == |gpus| && |p.gpuHeadroom| == |gpus|
                 && NoTwin(slots, p, gpus, None) && Safe(limits, Tenancies(slots, {}, None) + [Planned(p, gpus)])
  {
    if Fits(limits, p, gpus, LiveWorkers(slots), Plain) {
      StartIsSafe(limits, slots, p, gpus);
      AcceptedHasNoTwin(limits, slots, {}, p, gpus, None);
    } else if Shaped(p, gpus) && NoTwin(slots, p, gpus, None)
              && Safe(limits, Tenancies(slots, {}, None) + [Planned(p, gpus)]) {
      SafeStartIsAdmitted(limits, slots, p, gpus);
    }
  }

  lemma {:induction false} AcceptedHasNoTwin(limits: Limits, slots: seq<Slot>, waking: set<WorkerId>, p: Profile,
                                             gpus: seq<Gpu>,
                          skip: Option<WorkerId>)
    requires Fits(limits, p, gpus, SeenAll(LiveWorkers(slots), waking), View(skip, {}))
             || (waking == {} && Fits(limits, p, gpus, LiveWorkers(slots), View(skip, {})))
    ensures NoTwin(slots, p, gpus, skip)
  {
    var live := LiveWorkers(slots);
    assert waking == {} ==> SeenAll(live, waking) == live;
    LiveWorkersMembers(slots);
    forall s | s in slots && Live(s) && skip != Some(s.worker.id)
      ensures !(s.worker.profile.modelId == p.modelId && s.worker.gpus == gpus)
    {
      assert s.worker in live;
      var j :| 0 <= j < |live| && live[j] == s.worker;
      assert SeenAll(live, waking)[j] == Seen(s.worker, waking);
      assert !Duplicate(p, gpus, SeenAll(live, waking)[j], View(skip, {}));
    }
  }

  // ---------- waking ----------

  lemma {:induction false} WakeFitsOn(limits: Limits, slots: seq<Slot>, waking: set<WorkerId>, k: nat, i: nat)
    requires AllExact(slots) && DistinctSlots(slots) && k < |slots| && Live(slots[k])
    requires NoDuplicates(slots[k].worker.gpus) && i < |slots[k].worker.gpus|
    requires Shaped(slots[k].worker.profile, slots[k].worker.gpus)
    requires Safe(limits, Tenancies(slots, waking + {slots[k].worker.id}, None))
    ensures var w := slots[k].worker;
            FitsOn(limits, w.profile, i, w.gpus[i], SeenAll(LiveWorkers(slots), waking), View(Some(w.id), {}))
  {
    var w := slots[k].worker;
    var g, t, skip, total := w.gpus[i], Planned(w.profile, w.gpus), Some(w.id), TotalMib(limits, w.gpus[i]);
    var without, now := Tenancies(slots, waking, skip), Tenancies(slots, waking, None);
    var raised := Tenancies(slots, waking + {w.id}, None);
    OwnIndex(w.gpus, i);
    OneMoreWake(slots, waking, k, skip);
    OneMoreWake(slots, waking, k, None);
    assert raised[k] == t && raised[k] in raised;
    assert SafeOn(limits, raised, g);
    UpdatedSums(limits, without, k, t, g);
    UpdatedSums(limits, now, k, t, g);
    ChargesMatch(limits, slots, waking, skip, g);
    ActiveMatch(limits, slots, waking, skip, g);
    PresentMatch(limits, slots, waking, g);
    SeenAreMeasured(slots, waking, skip, g);
    RaisedBoundsHold(limits, slots, waking, k, g);
    SeenNeighboursAllow(slots, waking, g, total, Load(limits, raised, g));
  }

  lemma RaisedBoundsHold(limits: Limits, slots: seq<Slot>, waking: set<WorkerId>, k: nat, g: Gpu)
    requires DistinctSlots(slots) && k < |slots| && Live(slots[k]) && g in slots[k].worker.gpus
    requires SafeOn(limits, Tenancies(slots, waking + {slots[k].worker.id}, None), g)
    ensures var load := Load(limits, Tenancies(slots, waking + {slots[k].worker.id}, None), g);
            forall u :: u in Tenancies(slots, waking, None) && Hosts(u, g) ==>
              UnderUtilization(TotalMib(limits, g), u.profile.gpuMemoryUtilization, load)
  {
    var now, raised := Tenancies(slots, waking, None), Tenancies(slots, waking + {slots[k].worker.id}, None);
    forall u | u in now && Hosts(u, g)
      ensures UnderUtilization(TotalMib(limits, g), u.profile.gpuMemoryUtilization, Load(limits, raised, g))
    {
      var j :| 0 <= j < |now| && now[j] == u;
      assert raised[j] in raised && Hosts(raised[j], g) && raised[j].profile == u.profile;
    }
  }

  /** A sleeping copy whose wake would leave every GPU within its budgets is accepted. */
  lemma {:induction false} SafeWakeIsAdmitted(limits: Limits, slots: seq<Slot>, waking: set<WorkerId>, k: nat)
    requires AllExact(slots) && DistinctSlots(slots) && k < |slots| && Live(slots[k])
    requires NoDuplicates(slots[k].worker.gpus)
    requires NoTwin(slots, slots[k].worker.profile, slots[k].worker.gpus, Some(slots[k].worker.id))
    requires Safe(limits, Tenancies(slots, waking + {slots[k].worker.id}, None))
    ensures var w := slots[k].worker;
            Fits(limits, w.profile, w.gpus, SeenAll(LiveWorkers(slots), waking), View(Some(w.id), {}))
  {
    var w := slots[k].worker;
    assert slots[k] in slots;
    NoTwinIsNoDuplicate(slots, waking, w.profile, w.gpus, Some(w.id));
    forall i | 0 <= i < |w.gpus|
      ensures FitsOn(limits, w.profile, i, w.gpus[i], SeenAll(LiveWorkers(slots), waking), View(Some(w.id), {}))
    {
      WakeFitsOn(limits, slots, waking, k, i);
    }
  }

  /** With these wakes under way, one more copy is accepted exactly when the host stays safe with it. */
  lemma {:induction false} WakeIsAdmittedExactlyWhen(limits: Limits, slots: seq<Slot>, waking: set<WorkerId>, k: nat)
    requires AllExact(slots) && AllCoherent(limits, slots) && DistinctSlots(slots)
    requires k < |slots| && Live(slots[k]) && NoDuplicates(slots[k].worker.gpus)
    requires Safe(limits, Tenancies(slots, waking, None))
    ensures var w := slots[k].worker;
            Fits(limits, w.profile, w.gpus, SeenAll(LiveWorkers(slots), waking), View(Some(w.id), {}))
            <==> && NoTwin(slots, w.profile, w.gpus, Some(w.id))
                 && Safe(limits, Tenancies(slots, waking + {w.id}, None))
  {
    var w := slots[k].worker;
    if Fits(limits, w.profile, w.gpus, SeenAll(LiveWorkers(slots), waking), View(Some(w.id), {})) {
      OneWakeIsSafe(limits, slots, waking, k);
      AcceptedHasNoTwin(limits, slots, waking, w.profile, w.gpus, Some(w.id));
    } else if NoTwin(slots, w.profile, w.gpus, Some(w.id)) && Safe(limits, Tenancies(slots, waking + {w.id}, None)) {
      SafeWakeIsAdmitted(limits, slots, waking, k);
    }
  }
}
