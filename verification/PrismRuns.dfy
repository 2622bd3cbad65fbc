/**
 * Memory safety of whole runs: planned starts and joint wakes, carried out late and interleaved
 * with everything the workers do on their own, never overcommit a GPU.
 */
module PrismRuns {
  import opened Collections
  import opened Domain
  import opened PrismFit
  import opened PrismLaws
  import opened PrismSearch
  import opened PrismPlan
  import opened Selections

  /** A worker and where its weights really are: a drained sleeper still has them off the GPU. */
  datatype Slot = Slot(worker: Worker, offGpu: bool)

  /** What a slot really holds on its GPUs: 0 nothing, 1 its sleeping residue, 2 its full footprint. */
  datatype Tenancy = Tenancy(profile: Profile, gpus: seq<Gpu>, level: nat)

  predicate Live(s: Slot) {
    !s.worker.state.Cold? && !s.worker.state.Stopping?
  }

  /** A sleeping worker has its weights off the GPU, and no worker charges more once it sleeps. */
  predicate Coherent(limits: Limits, s: Slot) {
    && (s.worker.state.Sleeping? ==> s.offGpu)
    && SleepShrinks(limits, s.worker.profile, s.worker.gpus)
  }

  /** `waking` are the sleepers promised a wake, `skip` a slot to leave out of account. */
  function Level(s: Slot, waking: set<WorkerId>, skip: Option<WorkerId>): nat {
    if !Live(s) || skip == Some(s.worker.id) then 0
    else if s.offGpu && s.worker.id !in waking then 1
    else 2
  }

  function TenancyOf(s: Slot, waking: set<WorkerId>, skip: Option<WorkerId>): Tenancy {
    Tenancy(s.worker.profile, s.worker.gpus, Level(s, waking, skip))
  }

  function Tenancies(slots: seq<Slot>, waking: set<WorkerId>, skip: Option<WorkerId>): (ts: seq<Tenancy>)
    ensures |ts| == |slots|
    ensures forall k :: 0 <= k < |slots| ==> ts[k] == TenancyOf(slots[k], waking, skip)
  {
    seq(|slots|, k requires 0 <= k < |slots| => TenancyOf(slots[k], waking, skip))
  }

  // ---------- what safety means ----------

  predicate Hosts(t: Tenancy, g: Gpu) {
    t.level > 0 && g in t.gpus
  }

  function TenancyMib(limits: Limits, t: Tenancy, g: Gpu): nat {
    var i := IndexOf(t.gpus, g);
    if !Hosts(t, g) then 0
    else if t.level == 1 then SleepResidual(limits, t.profile, i)
    else if Measures(t.profile, i) then Footprint(t.profile, i)
    else 0
  }

  function MibOn(limits: Limits, g: Gpu): Tenancy -> int {
    (t: Tenancy) => TenancyMib(limits, t, g)
  }

  function PresentOn(g: Gpu): Tenancy -> int {
    (t: Tenancy) => if Hosts(t, g) then 1 else 0
  }

  function ResidentOn(g: Gpu): Tenancy -> int {
    (t: Tenancy) => if Hosts(t, g) && t.level == 2 then 1 else 0
  }

  /** Everything really held on a GPU, active footprints and sleeping residues together. */
  function Load(limits: Limits, ts: seq<Tenancy>, g: Gpu): int {
    SumOf(ts, MibOn(limits, g))
  }

  ghost predicate SafeOn(limits: Limits, ts: seq<Tenancy>, g: Gpu) {
    var total := TotalMib(limits, g);
    && SumOf(ts, PresentOn(g)) <= limits.maxCachedWorkersPerGpu
    && SumOf(ts, ResidentOn(g)) <= limits.maxWorkersPerGpu
    && Load(limits, ts, g) <= total - limits.reservedVramMib
    && forall t :: t in ts && Hosts(t, g) ==>
         UnderUtilization(total, t.profile.gpuMemoryUtilization, Load(limits, ts, g))
  }

  ghost predicate Hosted(ts: seq<Tenancy>, g: Gpu) {
    exists t :: t in ts && Hosts(t, g)
  }

  /** No GPU that hosts anything is over its memory, utilization or population limits. */
  ghost predicate Safe(limits: Limits, ts: seq<Tenancy>) {
    forall g :: Hosted(ts, g) ==> SafeOn(limits, ts, g)
  }

  /** A profile for which sleeping never raises the charge of a GPU. */
  predicate SleepShrinks(limits: Limits, p: Profile, gpus: seq<Gpu>) {
    && Shaped(p, gpus)
    && forall i :: 0 <= i < |gpus| ==> SleepResidual(limits, p, i) <= Footprint(p, i)
  }

  ghost predicate WellFormed(limits: Limits, ts: seq<Tenancy>) {
    forall t :: t in ts ==> SleepShrinks(limits, t.profile, t.gpus)
  }

  // ---------- safety survives shrinking ----------

  ghost predicate Shrunk(later: seq<Tenancy>, before: seq<Tenancy>) {
    && |later| == |before|
    && forall k :: 0 <= k < |before| ==>
         && later[k].profile == before[k].profile && later[k].gpus == before[k].gpus
         && later[k].level <= before[k].level <= 2
  }

  lemma {:induction false} SumOfDominated<S, T>(xs: seq<S>, ys: seq<T>, f: S -> int, h: T -> int)
    requires |xs| == |ys| && forall k :: 0 <= k < |xs| ==> f(xs[k]) <= h(ys[k])
    ensures SumOf(xs, f) <= SumOf(ys, h)
  {
    if xs != [] {
      SumOfDominated(xs[1..], ys[1..], f, h);
    }
  }

  lemma ShrunkCharges(limits: Limits, later: Tenancy, before: Tenancy, g: Gpu)
    requires later.profile == before.profile && later.gpus == before.gpus
    requires later.level <= before.level <= 2 && SleepShrinks(limits, before.profile, before.gpus)
    ensures TenancyMib(limits, later, g) <= TenancyMib(limits, before, g)
    ensures PresentOn(g)(later) <= PresentOn(g)(before)
    ensures ResidentOn(g)(later) <= ResidentOn(g)(before)
  {
  }

  lemma {:induction false} ShrunkSums(limits: Limits, later: seq<Tenancy>, before: seq<Tenancy>, g: Gpu)
    requires Shrunk(later, before) && WellFormed(limits, before)
    ensures Load(limits, later, g) <= Load(limits, before, g)
    ensures SumOf(later, PresentOn(g)) <= SumOf(before, PresentOn(g))
    ensures SumOf(later, ResidentOn(g)) <= SumOf(before, ResidentOn(g))
  {
    forall k | 0 <= k < |before|
      ensures MibOn(limits, g)(later[k]) <= MibOn(limits, g)(before[k])
      ensures PresentOn(g)(later[k]) <= PresentOn(g)(before[k])
      ensures ResidentOn(g)(later[k]) <= ResidentOn(g)(before[k])
    {
      assert before[k] in before;
      ShrunkCharges(limits, later[k], before[k], g);
    }
    SumOfDominated(later, before, MibOn(limits, g), MibOn(limits, g));
    SumOfDominated(later, before, PresentOn(g), PresentOn(g));
    SumOfDominated(later, before, ResidentOn(g), ResidentOn(g));
  }

  /** Engines that stop, sleep or drain never make a safe host unsafe. */
  lemma SafetySurvivesShrinking(limits: Limits, later: seq<Tenancy>, before: seq<Tenancy>)
    requires Shrunk(later, before) && WellFormed(limits, before) && Safe(limits, before)
    ensures Safe(limits, later)
  {
    forall g | Hosted(later, g) ensures SafeOn(limits, later, g) {
      ShrunkSums(limits, later, before, g);
      var t :| t in later && Hosts(t, g);
      var k :| 0 <= k < |later| && later[k] == t;
      assert before[k] in before && Hosts(before[k], g);
      assert SafeOn(limits, before, g);
      ShrunkUtilization(limits, later, before, g);
    }
  }

  lemma ShrunkUtilization(limits: Limits, later: seq<Tenancy>, before: seq<Tenancy>, g: Gpu)
    requires Shrunk(later, before) && Load(limits, later, g) <= Load(limits, before, g)
    requires SafeOn(limits, before, g)
    ensures forall t :: t in later && Hosts(t, g) ==>
              UnderUtilization(TotalMib(limits, g), t.profile.gpuMemoryUtilization, Load(limits, later, g))
  {
    forall t | t in later && Hosts(t, g)
      ensures UnderUtilization(TotalMib(limits, g), t.profile.gpuMemoryUtilization,
                               Load(limits, later, g))
    {
      var k :| 0 <= k < |later| && later[k] == t;
      assert before[k] in before && Hosts(before[k], g);
      LighterLoadUnder(TotalMib(limits, g), t.profile.gpuMemoryUtilization,
                       Load(limits, before, g), Load(limits, later, g));
    }
  }

  lemma {:induction false} AppendedSums(limits: Limits, ts: seq<Tenancy>, t: Tenancy, g: Gpu)
    ensures Load(limits, ts + [t], g) == Load(limits, ts, g) + TenancyMib(limits, t, g)
    ensures SumOf(ts + [t], PresentOn(g)) == SumOf(ts, PresentOn(g)) + PresentOn(g)(t)
    ensures SumOf(ts + [t], ResidentOn(g)) == SumOf(ts, ResidentOn(g)) + ResidentOn(g)(t)
  {
    SumOfAppend(ts, [t], MibOn(limits, g));
    SumOfAppend(ts, [t], PresentOn(g));
    SumOfAppend(ts, [t], ResidentOn(g));
  }

  lemma SafetyOfPrefix(limits: Limits, ts: seq<Tenancy>, t: Tenancy)
    requires Safe(limits, ts + [t])
    ensures Safe(limits, ts)
  {
    forall g | Hosted(ts, g) ensures SafeOn(limits, ts, g) {
      var u :| u in ts && Hosts(u, g);
      assert u in ts + [t];
      assert SafeOn(limits, ts + [t], g);
      AppendedSums(limits, ts, t, g);
      forall v | v in ts && Hosts(v, g)
        ensures UnderUtilization(TotalMib(limits, g), v.profile.gpuMemoryUtilization, Load(limits, ts, g))
      {
        assert v in ts + [t];
        LighterLoadUnder(TotalMib(limits, g), v.profile.gpuMemoryUtilization,
                         Load(limits, ts + [t], g), Load(limits, ts, g));
      }
    }
  }

  // ---------- the planner's charges dominate the real ones ----------

  /** The workers the planner sees: it drops cold and stopping ones. */
  function LiveWorkers(slots: seq<Slot>): seq<Worker> {
    if slots == [] then []
    else (if Live(slots[0]) then [slots[0].worker] else []) + LiveWorkers(slots[1..])
  }

  lemma {:induction false} LiveWorkersMembers(slots: seq<Slot>)
    ensures forall w :: w in LiveWorkers(slots) <==> exists s :: s in slots && Live(s) && s.worker == w
  {
    if slots != [] {
      var rest := slots[1..];
      LiveWorkersMembers(rest);
      assert slots == [slots[0]] + rest;
      forall w ensures w in LiveWorkers(slots) <==> exists s :: s in slots && Live(s) && s.worker == w {
        if exists s :: s in rest && Live(s) && s.worker == w {
          assert w in LiveWorkers(rest);
        }
      }
    }
  }

  /** A worker as the planner projects it once these wakes are under way. */
  function Seen(w: Worker, waking: set<WorkerId>): Worker {
    if w.id in waking then w.(state := Waking) else w
  }

  function SeenAll(ws: seq<Worker>, waking: set<WorkerId>): (seen: seq<Worker>)
    ensures |seen| == |ws| && forall k :: 0 <= k < |ws| ==> seen[k] == Seen(ws[k], waking)
  {
    seq(|ws|, k requires 0 <= k < |ws| => Seen(ws[k], waking))
  }

  lemma {:induction false} ProjectedIsSeen(live: seq<Worker>, wakes: seq<Worker>)
    ensures Projected(live, wakes) == SeenAll(live, Ids(wakes))
  {
    if wakes == [] {
      assert SeenAll(live, {}) == live;
    } else {
      var init, last := wakes[..|wakes| - 1], wakes[|wakes| - 1];
      ProjectedIsSeen(live, init);
      assert wakes == init + [last];
      assert Ids(wakes) == Ids(init) + {last.id};
    }
  }

  function PerSlot(waking: set<WorkerId>, code: Worker -> int): Slot -> int {
    (s: Slot) => if Live(s) then code(Seen(s.worker, waking)) else 0
  }

  lemma {:induction false} SumPerSlot(slots: seq<Slot>, waking: set<WorkerId>, code: Worker -> int)
    ensures SumOf(SeenAll(LiveWorkers(slots), waking), code) == SumOf(slots, PerSlot(waking, code))
  {
    if slots != [] {
      var live, rest := LiveWorkers(slots), LiveWorkers(slots[1..]);
      SumPerSlot(slots[1..], waking, code);
      if Live(slots[0]) {
        assert live[1..] == rest;
        assert SeenAll(live, waking)[1..] == SeenAll(rest, waking);
      } else {
        assert live == rest;
      }
    }
  }

  lemma {:induction false} SeenDominates(slots: seq<Slot>, waking: set<WorkerId>, skip: Option<WorkerId>,
                      held: Tenancy -> int, code: Worker -> int)
    requires forall s :: s in slots && Live(s) ==>
               held(TenancyOf(s, waking, skip)) <= code(Seen(s.worker, waking))
    requires forall s :: s in slots && !Live(s) ==> held(TenancyOf(s, waking, skip)) <= 0
    ensures SumOf(Tenancies(slots, waking, skip), held) <= SumOf(SeenAll(LiveWorkers(slots), waking), code)
  {
    var ts := Tenancies(slots, waking, skip);
    forall k | 0 <= k < |ts| ensures held(ts[k]) <= PerSlot(waking, code)(slots[k]) {
      assert slots[k] in slots;
    }
    SumOfDominated(ts, slots, held, PerSlot(waking, code));
    SumPerSlot(slots, waking, code);
  }

  lemma SlotDominated(limits: Limits, s: Slot, waking: set<WorkerId>, skip: Option<WorkerId>, g: Gpu)
    requires Coherent(limits, s) && Live(s)
    ensures var t, w, v := TenancyOf(s, waking, skip), Seen(s.worker, waking), View(skip, {});
            && TenancyMib(limits, t, g) <= Charge(limits, w, g, v)
            && PresentOn(g)(t) <= OneIf(IsColocated(g))(w)
            && ResidentOn(g)(t) <= OneIf(IsActive(g, v))(w)
  {
  }

  ghost predicate AllCoherent(limits: Limits, slots: seq<Slot>) {
    forall s :: s in slots ==> Coherent(limits, s)
  }

  lemma {:induction false} PlannerOvercharges(limits: Limits, slots: seq<Slot>, waking: set<WorkerId>,
                           skip: Option<WorkerId>, g: Gpu)
    requires AllCoherent(limits, slots)
    ensures var ts, ws := Tenancies(slots, waking, skip), SeenAll(LiveWorkers(slots), waking);
            && Load(limits, ts, g) <= Used(limits, ws, g, View(skip, {}))
            && SumOf(ts, PresentOn(g)) <= CountColocated(ws, g)
            && SumOf(ts, ResidentOn(g)) <= CountActive(ws, g, View(skip, {}))
  {
    var v := View(skip, {});
    forall s | s in slots && Live(s)
      ensures MibOn(limits, g)(TenancyOf(s, waking, skip)) <= ChargeOn(limits, g, v)(Seen(s.worker, waking))
      ensures PresentOn(g)(TenancyOf(s, waking, skip)) <= OneIf(IsColocated(g))(Seen(s.worker, waking))
      ensures ResidentOn(g)(TenancyOf(s, waking, skip)) <= OneIf(IsActive(g, v))(Seen(s.worker, waking))
    {
      SlotDominated(limits, s, waking, skip, g);
    }
    SeenDominates(slots, waking, skip, MibOn(limits, g), ChargeOn(limits, g, v));
    SeenDominates(slots, waking, skip, PresentOn(g), OneIf(IsColocated(g)));
    SeenDominates(slots, waking, skip, ResidentOn(g), OneIf(IsActive(g, v)));
  }

  // ---------- a planned engine keeps the host safe ----------

  function Planned(p: Profile, gpus: seq<Gpu>): Tenancy {
    Tenancy(p, gpus, 2)
  }

  /** On a GPU the admission test accepted, the newcomer and everything else really stay in budget. */
  lemma {:induction false} RoomOn(limits: Limits, slots: seq<Slot>, waking: set<WorkerId>, skip: Option<WorkerId>,
               p: Profile, gpus: seq<Gpu>, g: Gpu)
    requires AllCoherent(limits, slots) && g in gpus
    requires Fits(limits, p, gpus, SeenAll(LiveWorkers(slots), waking), View(skip, {}))
    ensures var ts, t := Tenancies(slots, waking, skip), Planned(p, gpus);
            var load := Load(limits, ts, g) + TenancyMib(limits, t, g);
            && load <= TotalMib(limits, g) - limits.reservedVramMib
            && SumOf(ts, ResidentOn(g)) + 1 <= limits.maxWorkersPerGpu
            && SumOf(ts, PresentOn(g)) + (if skip.Some? then 0 else 1) <= limits.maxCachedWorkersPerGpu
            && UnderUtilization(TotalMib(limits, g), p.gpuMemoryUtilization, load)
            && NeighboursAllow(SeenAll(LiveWorkers(slots), waking), g, TotalMib(limits, g), load)
  {
    var i, ws := IndexOf(gpus, g), SeenAll(LiveWorkers(slots), waking);
    assert FitsOn(limits, p, i, gpus[i], ws, View(skip, {}));
    PlannerOvercharges(limits, slots, waking, skip, g);
    LighterFits(limits, p, i, g, ws, View(skip, {}),
                Load(limits, Tenancies(slots, waking, skip), g) + Footprint(p, i));
  }

  lemma LighterFits(limits: Limits, p: Profile, i: nat, g: Gpu, ws: seq<Worker>, v: View, load: int)
    requires Measures(p, i) && FitsOn(limits, p, i, g, ws, v)
    requires load <= Used(limits, ws, g, v) + Footprint(p, i)
    ensures load <= TotalMib(limits, g) - limits.reservedVramMib
    ensures UnderUtilization(TotalMib(limits, g), p.gpuMemoryUtilization, load)
    ensures NeighboursAllow(ws, g, TotalMib(limits, g), load)
  {
    var code, total := Used(limits, ws, g, v) + Footprint(p, i), TotalMib(limits, g);
    LighterLoadUnder(total, p.gpuMemoryUtilization, code, load);
    LighterLoadAllowed(ws, g, total, code, load);
  }

  /** What the neighbours' utilization bounds allow, read on the tenancies. */
  lemma {:induction false} NeighbourTenanciesAllow(slots: seq<Slot>, waking: set<WorkerId>, skip: Option<WorkerId>,
                                                   g: Gpu,
                                total: nat, load: int)
    requires NeighboursAllow(SeenAll(LiveWorkers(slots), waking), g, total, load)
    ensures forall t :: t in Tenancies(slots, waking, skip) && Hosts(t, g) ==>
              UnderUtilization(total, t.profile.gpuMemoryUtilization, load)
  {
    var ts, live := Tenancies(slots, waking, skip), LiveWorkers(slots);
    forall t | t in ts && Hosts(t, g)
      ensures UnderUtilization(total, t.profile.gpuMemoryUtilization, load)
    {
      var k :| 0 <= k < |ts| && ts[k] == t;
      var s := slots[k];
      LiveWorkersMembers(slots);
      assert s in slots && Live(s);
      assert s.worker in live;
      var j :| 0 <= j < |live| && live[j] == s.worker;
      assert SeenAll(live, waking)[j] == Seen(s.worker, waking);
      assert Colocated(Seen(s.worker, waking), g);
    }
  }

  lemma NobodyWaking(live: seq<Worker>)
    ensures SeenAll(live, {}) == live
  {
  }

  lemma {:induction false} StartIsSafeOn(limits: Limits, slots: seq<Slot>, p: Profile, gpus: seq<Gpu>, g: Gpu)
    requires AllCoherent(limits, slots) && g in gpus
    requires Fits(limits, p, gpus, LiveWorkers(slots), Plain)
    ensures SafeOn(limits, Tenancies(slots, {}, None) + [Planned(p, gpus)], g)
  {
    var ts, t := Tenancies(slots, {}, None), Planned(p, gpus);
    NobodyWaking(LiveWorkers(slots));
    RoomOn(limits, slots, {}, None, p, gpus, g);
    var load := Load(limits, ts, g) + TenancyMib(limits, t, g);
    NeighbourTenanciesAllow(slots, {}, None, g, TotalMib(limits, g), load);
    OneMoreTenancy(limits, ts, t, g, load);
  }

  /** Adding one resident tenancy within all budgets. */
  lemma {:induction false} OneMoreTenancy(limits: Limits, ts: seq<Tenancy>, t: Tenancy, g: Gpu, load: int)
    requires t.level == 2 && g in t.gpus && load == Load(limits, ts, g) + TenancyMib(limits, t, g)
    requires load <= TotalMib(limits, g) - limits.reservedVramMib
    requires SumOf(ts, ResidentOn(g)) + 1 <= limits.maxWorkersPerGpu
    requires SumOf(ts, PresentOn(g)) + 1 <= limits.maxCachedWorkersPerGpu
    requires UnderUtilization(TotalMib(limits, g), t.profile.gpuMemoryUtilization, load)
    requires forall u :: u in ts && Hosts(u, g) ==>
               UnderUtilization(TotalMib(limits, g), u.profile.gpuMemoryUtilization, load)
    ensures SafeOn(limits, ts + [t], g)
  {
    AppendedSums(limits, ts, t, g);
  }

  /** Starting an engine where the planner says it fits keeps every GPU in budget. */
  lemma {:induction false} StartIsSafe(limits: Limits, slots: seq<Slot>, p: Profile, gpus: seq<Gpu>)
    requires AllCoherent(limits, slots) && Safe(limits, Tenancies(slots, {}, None))
    requires Fits(limits, p, gpus, LiveWorkers(slots), Plain)
    ensures Safe(limits, Tenancies(slots, {}, None) + [Planned(p, gpus)])
  {
    var ts, t := Tenancies(slots, {}, None), Planned(p, gpus);
    forall g | Hosted(ts + [t], g) ensures SafeOn(limits, ts + [t], g) {
      if g in gpus {
        StartIsSafeOn(limits, slots, p, gpus, g);
      } else {
        var u :| u in ts + [t] && Hosts(u, g);
        assert u in ts;
        AppendedSums(limits, ts, t, g);
        assert SafeOn(limits, ts, g);
      }
    }
  }

  ghost predicate DistinctSlots(slots: seq<Slot>) {
    forall i, j :: 0 <= i < j < |slots| ==> slots[i].worker.id != slots[j].worker.id
  }

  lemma UpdatedSums(limits: Limits, ts: seq<Tenancy>, k: nat, t: Tenancy, g: Gpu)
    requires k < |ts|
    ensures Load(limits, ts[k := t], g)
            == Load(limits, ts, g) - TenancyMib(limits, ts[k], g) + TenancyMib(limits, t, g)
    ensures SumOf(ts[k := t], PresentOn(g)) == SumOf(ts, PresentOn(g)) - PresentOn(g)(ts[k]) + PresentOn(g)(t)
    ensures SumOf(ts[k := t], ResidentOn(g)) == SumOf(ts, ResidentOn(g)) - ResidentOn(g)(ts[k]) + ResidentOn(g)(t)
  {
    SumOfUpdate(ts, k, t, MibOn(limits, g));
    SumOfUpdate(ts, k, t, PresentOn(g));
    SumOfUpdate(ts, k, t, ResidentOn(g));
  }

  /** Promising one more wake changes one tenancy. */
  lemma OneMoreWake(slots: seq<Slot>, waking: set<WorkerId>, k: nat, skip: Option<WorkerId>)
    requires DistinctSlots(slots) && k < |slots| && Live(slots[k])
    requires skip == None || skip == Some(slots[k].worker.id)
    ensures Tenancies(slots, waking + {slots[k].worker.id}, None)
            == Tenancies(slots, waking, skip)[k := Planned(slots[k].worker.profile, slots[k].worker.gpus)]
  {
  }

  lemma {:induction false} WakeIsSafeOn(limits: Limits, slots: seq<Slot>, waking: set<WorkerId>, k: nat, g: Gpu)
    requires AllCoherent(limits, slots) && DistinctSlots(slots)
    requires k < |slots| && Live(slots[k]) && g in slots[k].worker.gpus
    requires var w := slots[k].worker;
             Fits(limits, w.profile, w.gpus, SeenAll(LiveWorkers(slots), waking), View(Some(w.id), {}))
    ensures SafeOn(limits, Tenancies(slots, waking + {slots[k].worker.id}, None), g)
  {
    var w := slots[k].worker;
    var skip, t, total := Some(w.id), Planned(w.profile, w.gpus), TotalMib(limits, g);
    var ts := Tenancies(slots, waking, skip);
    RoomOn(limits, slots, waking, skip, w.profile, w.gpus, g);
    OneMoreWake(slots, waking, k, skip);
    UpdatedSums(limits, ts, k, t, g);
    NeighbourTenanciesAllow(slots, waking, skip, g, total, Load(limits, ts[k := t], g));
    PresenceIgnoresSkip(limits, slots, waking, k, g);
    forall u | u in ts[k := t] && Hosts(u, g)
      ensures UnderUtilization(total, u.profile.gpuMemoryUtilization, Load(limits, ts[k := t], g))
    {
      assert u == t || u in ts;
    }
  }

  /** A woken sleeper was already counted among the processes present on its GPUs. */
  lemma {:induction false} PresenceIgnoresSkip(limits: Limits, slots: seq<Slot>, waking: set<WorkerId>, k: nat, g: Gpu)
    requires AllCoherent(limits, slots) && DistinctSlots(slots)
    requires k < |slots| && Live(slots[k]) && g in slots[k].worker.gpus
    requires var w := slots[k].worker;
             Fits(limits, w.profile, w.gpus, SeenAll(LiveWorkers(slots), waking), View(Some(w.id), {}))
    ensures SumOf(Tenancies(slots, waking + {slots[k].worker.id}, None), PresentOn(g))
            <= limits.maxCachedWorkersPerGpu
  {
    var w := slots[k].worker;
    var t, ts, ws := Planned(w.profile, w.gpus), Tenancies(slots, waking, None), SeenAll(LiveWorkers(slots), waking);
    var i := IndexOf(w.gpus, g);
    assert FitsOn(limits, w.profile, i, w.gpus[i], ws, View(Some(w.id), {}));
    PlannerOvercharges(limits, slots, waking, None, g);
    OneMoreWake(slots, waking, k, None);
    UpdatedSums(limits, ts, k, t, g);
  }

  lemma {:induction false} OneWakeIsSafe(limits: Limits, slots: seq<Slot>, waking: set<WorkerId>, k: nat)
    requires AllCoherent(limits, slots) && DistinctSlots(slots) && k < |slots| && Live(slots[k])
    requires Safe(limits, Tenancies(slots, waking, None))
    requires var w := slots[k].worker;
             Fits(limits, w.profile, w.gpus, SeenAll(LiveWorkers(slots), waking), View(Some(w.id), {}))
    ensures Safe(limits, Tenancies(slots, waking + {slots[k].worker.id}, None))
  {
    var w := slots[k].worker;
    var t, ts := Planned(w.profile, w.gpus), Tenancies(slots, waking, None);
    OneMoreWake(slots, waking, k, None);
    var after := ts[k := t];
    forall g | Hosted(after, g) ensures SafeOn(limits, after, g) {
      if g in w.gpus {
        WakeIsSafeOn(limits, slots, waking, k, g);
      } else {
        WakeElsewhere(limits, ts, k, t, g);
      }
    }
  }

  lemma WakeElsewhere(limits: Limits, ts: seq<Tenancy>, k: nat, t: Tenancy, g: Gpu)
    requires k < |ts| && t.gpus == ts[k].gpus && g !in t.gpus
    requires Safe(limits, ts) && Hosted(ts[k := t], g)
    ensures SafeOn(limits, ts[k := t], g)
  {
    UpdatedSums(limits, ts, k, t, g);
    var u :| u in ts[k := t] && Hosts(u, g);
    forall u | u in ts[k := t] && Hosts(u, g) ensures u in ts {
      var j :| 0 <= j < |ts| && ts[k := t][j] == u;
      assert j != k && ts[j] == u;
    }
    assert Hosted(ts, g) && SafeOn(limits, ts, g);
  }

  lemma SlotOfLive(slots: seq<Slot>, w: Worker) returns (k: nat)
    requires w in LiveWorkers(slots)
    ensures k < |slots| && Live(slots[k]) && slots[k].worker == w
  {
    LiveWorkersMembers(slots);
    var s :| s in slots && Live(s) && s.worker == w;
    k :| 0 <= k < |slots| && slots[k] == s;
  }

  lemma {:induction false} LastWakeFits(limits: Limits, all: set<Gpu>, slots: seq<Slot>, wakes: seq<Worker>,
                                        init: seq<Worker>,
                     last: Worker)
    requires wakes != [] && WakesFit(limits, all, LiveWorkers(slots), wakes)
    requires init == wakes[..|wakes| - 1] && last == wakes[|wakes| - 1]
    ensures WakesFit(limits, all, LiveWorkers(slots), init)
    ensures Fits(limits, last.profile, last.gpus, SeenAll(LiveWorkers(slots), Ids(init)), View(Some(last.id), {}))
  {
    ProjectedIsSeen(LiveWorkers(slots), init);
    assert CanWake(limits, all, Projected(LiveWorkers(slots), init), last);
  }

  lemma IdsWithLast(init: seq<Worker>, last: Worker)
    ensures Ids(init + [last]) == Ids(init) + {last.id}
  {
  }

  /** Waking a jointly planned set of copies keeps every GPU in budget. */
  lemma {:induction false} WakesAreSafe(limits: Limits, all: set<Gpu>, slots: seq<Slot>, wakes: seq<Worker>)
    requires AllCoherent(limits, slots) && DistinctSlots(slots)
    requires Safe(limits, Tenancies(slots, {}, None))
    requires WakesFit(limits, all, LiveWorkers(slots), wakes)
    requires forall w :: w in wakes ==> w in LiveWorkers(slots)
    ensures Safe(limits, Tenancies(slots, Ids(wakes), None))
  {
    if wakes != [] {
      var init, last := wakes[..|wakes| - 1], wakes[|wakes| - 1];
      LastWakeFits(limits, all, slots, wakes, init, last);
      assert wakes == init + [last];
      IdsWithLast(init, last);
      WakesAreSafe(limits, all, slots, init);
      var k := SlotOfLive(slots, last);
      OneWakeIsSafe(limits, slots, Ids(init), k);
    } else {
      assert Ids(wakes) == {};
    }
  }

  // ---------- hosts and runs ----------

  /** What the planner decided and the scheduler has not carried out yet. */
  datatype Pending =
    | Nothing
    | Starting(profile: Profile, gpus: seq<Gpu>)
    | Wakes(ids: set<WorkerId>)

  datatype Host = Host(slots: seq<Slot>, pending: Pending)

  /** The tenancies once everything pending has happened. */
  function Promised(h: Host): seq<Tenancy> {
    match h.pending
    case Nothing => Tenancies(h.slots, {}, None)
    case Starting(p, gpus) => Tenancies(h.slots, {}, None) + [Planned(p, gpus)]
    case Wakes(ids) => Tenancies(h.slots, ids, None)
  }

  ghost predicate HostSafe(limits: Limits, h: Host) {
    Safe(limits, Tenancies(h.slots, {}, None))
  }

  ghost predicate Inv(limits: Limits, h: Host) {
    && DistinctSlots(h.slots) && AllCoherent(limits, h.slots)
    && WellFormed(limits, Promised(h)) && Safe(limits, Promised(h))
  }

  /** The state changes a worker can make without the planner's leave. */
  predicate Edge(a: RuntimeState, b: RuntimeState) {
    || a == b
    || match b
       case Cold => true
       case Stopping => !a.Cold?
       case Draining => !a.Cold? && !a.Stopping?
       case Offloading => a.Ready? || a.Draining?
       case Sleeping => a.Offloading?
       case Ready => a.Loading? || a.Waking?
       case _ => false
  }

  /** One worker moves on by itself: weights may leave its GPUs but only a wake brings them back. */
  predicate Moves(before: Slot, after: Slot) {
    && after.worker.id == before.worker.id && after.worker.gpus == before.worker.gpus
    && after.worker.profile == before.worker.profile
    && Edge(before.worker.state, after.worker.state)
    && (before.offGpu ==> after.offGpu)
    && (after.worker.state.Sleeping? ==> after.offGpu)
  }

  predicate WorkerStep(h: Host, after: Host, k: nat) {
    && k < |h.slots| == |after.slots| && after.pending == h.pending
    && Moves(h.slots[k], after.slots[k]) && after.slots == h.slots[k := after.slots[k]]
  }

  /** Measured so that a sleeping copy never costs a GPU more than an active one; others are never started. */
  ghost predicate Shrinks(limits: Limits, p: Profile) {
    Kvcached(p) ==> forall gpus :: gpus in p.eligibleGpuSets && Shaped(p, gpus) ==> SleepShrinks(limits, p, gpus)
  }

  ghost predicate AllShrink(limits: Limits, offered: set<Profile>) {
    forall p :: p in offered ==> Shrinks(limits, p)
  }

  /** The profiles a round may choose from are among the offered ones. */
  ghost predicate ChoosesFrom(r: Round, offered: set<Profile>) {
    forall m, p :: m in r.profiles && p in r.profiles[m] ==> p in offered
  }

  function WakeIds(actions: seq<Action>): set<WorkerId> {
    set a | a in actions && a.Wake? :: a.workerId
  }

  function PendingOf(actions: seq<Action>): Pending {
    if actions == [] then Nothing
    else match actions[0]
         case Start(p, gpus, _) => Starting(p, gpus)
         case Wake(_, _) => Wakes(WakeIds(actions))
         case _ => Nothing
  }

  /** A planning round over the workers that are neither cold nor stopping. */
  ghost predicate PlanStep(limits: Limits, offered: set<Profile>, h: Host, after: Host, r: Round,
                           actions: seq<Action>)
  {
    && h.pending.Nothing?
    && r.planner.limits == limits && r.live == LiveWorkers(h.slots)
    && ChoosesFrom(r, offered) && SoundActions(r, actions)
    && after == Host(h.slots, PendingOf(actions))
  }

  /** The planned engine is launched under a fresh id. */
  predicate LaunchStep(h: Host, after: Host, w: Worker) {
    && h.pending.Starting?
    && w.profile == h.pending.profile && w.gpus == h.pending.gpus && w.state.Loading?
    && (forall s :: s in h.slots ==> s.worker.id != w.id)
    && after == Host(h.slots + [Slot(w, false)], Nothing)
  }

  /** One of the planned wakes begins: the weights return to the GPUs. */
  predicate WakeStep(h: Host, after: Host, k: nat) {
    && h.pending.Wakes? && k < |h.slots| && h.slots[k].worker.id in h.pending.ids
    && h.slots[k].worker.state.Sleeping?
    && after == Host(h.slots[k := Slot(h.slots[k].worker.(state := Waking), false)], h.pending)
  }

  /** The rest of the decision is dropped: finished, refused or overtaken. */
  predicate DropStep(h: Host, after: Host) {
    after == Host(h.slots, Nothing)
  }

  ghost predicate Step(limits: Limits, offered: set<Profile>, h: Host, after: Host) {
    || (exists k :: WorkerStep(h, after, k))
    || (exists r, actions :: PlanStep(limits, offered, h, after, r, actions))
    || (exists w :: LaunchStep(h, after, w))
    || (exists k :: WakeStep(h, after, k))
    || DropStep(h, after)
  }

  ghost predicate Run(limits: Limits, offered: set<Profile>, hosts: seq<Host>) {
    && hosts != [] && hosts[0] == Host([], Nothing)
    && forall i :: 0 <= i < |hosts| - 1 ==> Step(limits, offered, hosts[i], hosts[i + 1])
  }

  lemma {:induction false} LiveWorkersAreDistinct(slots: seq<Slot>)
    requires DistinctSlots(slots)
    ensures DistinctIds(LiveWorkers(slots))
  {
    if slots != [] {
      var rest, live := slots[1..], LiveWorkers(slots[1..]);
      LiveWorkersAreDistinct(rest);
      LiveWorkersMembers(rest);
      forall w | w in live ensures w.id != slots[0].worker.id {
        var s :| s in rest && Live(s) && s.worker == w;
        var k :| 0 <= k < |rest| && rest[k] == s;
        assert slots[k + 1] == s;
      }
      assert Live(slots[0]) ==> LiveWorkers(slots) == [slots[0].worker] + live;
    }
  }

  /** A round of the planner over a host is one of the run's planning steps. */
  method Decide(limits: Limits, ghost offered: set<Profile>, h: Host, r: Round)
    returns (after: Host, ghost actions: seq<Action>)
    requires h.pending.Nothing? && DistinctSlots(h.slots) && ChoosesFrom(r, offered)
    requires r.planner.limits == limits && r.live == LiveWorkers(h.slots)
    ensures PlanStep(limits, offered, h, after, r, actions)
    ensures after.slots == h.slots
  {
    LiveWorkersAreDistinct(h.slots);
    var decided := PlanPrismWeightCache(r);
    after := Host(h.slots, PendingOf(decided));
    actions := decided;
  }

  // ---------- every step keeps the invariant ----------

  lemma PromisedShrinks(limits: Limits, h: Host, after: Host)
    requires Inv(limits, h) && Shrunk(Promised(after), Promised(h))
    requires DistinctSlots(after.slots) && AllCoherent(limits, after.slots)
    ensures Inv(limits, after)
  {
    var later, before := Promised(after), Promised(h);
    SafetySurvivesShrinking(limits, later, before);
    forall t | t in later ensures SleepShrinks(limits, t.profile, t.gpus) {
      var k :| 0 <= k < |later| && later[k] == t;
      assert before[k] in before;
    }
  }

  lemma UpdatedSlots(limits: Limits, slots: seq<Slot>, k: nat, s: Slot)
    requires k < |slots| && s.worker.id == slots[k].worker.id
    requires DistinctSlots(slots) && AllCoherent(limits, slots) && Coherent(limits, s)
    ensures DistinctSlots(slots[k := s]) && AllCoherent(limits, slots[k := s])
  {
    forall u | u in slots[k := s] ensures Coherent(limits, u) {
      assert u == s || u in slots;
    }
  }

  lemma WorkerStepKeepsInv(limits: Limits, h: Host, after: Host, k: nat)
    requires Inv(limits, h) && WorkerStep(h, after, k)
    ensures Inv(limits, after)
  {
    assert h.slots[k] in h.slots;
    UpdatedSlots(limits, h.slots, k, after.slots[k]);
    WorkerStepShrinks(h, after, k);
    PromisedShrinks(limits, h, after);
  }

  lemma WorkerStepShrinks(h: Host, after: Host, k: nat)
    requires WorkerStep(h, after, k)
    ensures Shrunk(Promised(after), Promised(h))
  {
    var later, before := Promised(after), Promised(h);
    var waking := if h.pending.Wakes? then h.pending.ids else {};
    assert Level(after.slots[k], waking, None) <= Level(h.slots[k], waking, None);
    forall i | 0 <= i < |before|
      ensures later[i].profile == before[i].profile && later[i].gpus == before[i].gpus
      ensures later[i].level <= before[i].level <= 2
    {
      if i < |h.slots| {
        assert before[i] == TenancyOf(h.slots[i], waking, None);
        assert later[i] == TenancyOf(after.slots[i], waking, None);
      }
    }
  }

  lemma WakeStepKeepsInv(limits: Limits, h: Host, after: Host, k: nat)
    requires Inv(limits, h) && WakeStep(h, after, k)
    ensures Inv(limits, after)
  {
    assert h.slots[k] in h.slots;
    UpdatedSlots(limits, h.slots, k, after.slots[k]);
    PromisedShrinks(limits, h, after);
  }

  lemma CurrentIsSafe(limits: Limits, h: Host)
    requires Inv(limits, h)
    ensures HostSafe(limits, h) && Inv(limits, Host(h.slots, Nothing))
  {
    var now := Tenancies(h.slots, {}, None);
    match h.pending
    case Nothing =>
    case Starting(p, gpus) =>
      SafetyOfPrefix(limits, now, Planned(p, gpus));
      assert forall t :: t in now ==> t in Promised(h);
    case Wakes(ids) =>
      PromisedShrinks(limits, h, Host(h.slots, Nothing));
  }

  lemma LaunchStepKeepsInv(limits: Limits, h: Host, after: Host, w: Worker)
    requires Inv(limits, h) && LaunchStep(h, after, w)
    ensures Inv(limits, after)
  {
    var s := Slot(w, false);
    var t := Planned(w.profile, w.gpus);
    assert Promised(h)[|h.slots|] == t;
    assert t in Promised(h);
    forall u | u in after.slots ensures Coherent(limits, u) {
      assert u == s || u in h.slots;
    }
    assert Promised(after) == Promised(h);
    forall i, j | 0 <= i < j < |after.slots| ensures after.slots[i].worker.id != after.slots[j].worker.id {
      assert after.slots[i] in h.slots;
    }
  }

  lemma PlanStepKeepsInv(limits: Limits, offered: set<Profile>, h: Host, after: Host, r: Round,
                         actions: seq<Action>)
    requires Inv(limits, h) && AllShrink(limits, offered) && PlanStep(limits, offered, h, after, r, actions)
    ensures Inv(limits, after)
  {
    match after.pending
    case Nothing =>
    case Starting(p, gpus) => PlannedStart(limits, offered, h, after, r, actions);
    case Wakes(ids) => PlannedWakes(limits, offered, h, after, r, actions);
  }

  lemma PlannedStart(limits: Limits, offered: set<Profile>, h: Host, after: Host, r: Round,
                     actions: seq<Action>)
    requires Inv(limits, h) && AllShrink(limits, offered)
    requires PlanStep(limits, offered, h, after, r, actions) && after.pending.Starting?
    ensures Inv(limits, after)
  {
    assert actions[0].Start?;
    StartComesAlone(offered, r, actions);
    var p, gpus := actions[0].profile, actions[0].gpus;
    StartIsSafe(limits, h.slots, p, gpus);
    var now := Tenancies(h.slots, {}, None);
    forall t | t in now + [Planned(p, gpus)] ensures SleepShrinks(limits, t.profile, t.gpus) {
      assert t in now || t == Planned(p, gpus);
    }
  }

  lemma StartComesAlone(offered: set<Profile>, r: Round, actions: seq<Action>)
    requires SoundActions(r, actions) && actions != [] && actions[0].Start?
    requires ChoosesFrom(r, offered) && AllShrink(r.planner.limits, offered)
    ensures SoundStart(r, actions)
    ensures SleepShrinks(r.planner.limits, actions[0].profile, actions[0].gpus)
  {
    FirstActionTells(r, actions);
    assert Shrinks(r.planner.limits, actions[0].profile);
  }

  lemma FirstActionTells(r: Round, actions: seq<Action>)
    requires actions != []
    ensures SoundSleeps(r, actions) ==> actions[0].Sleep?
    ensures SoundEvictions(r, actions) ==> actions[0].Drain?
  {
    if SoundSleeps(r, actions) {
      assert SleepsIdle(r, actions[0]);
    }
    if SoundEvictions(r, actions) {
      assert EvictsCached(r, actions[0]);
    }
  }

  lemma PlannedWakes(limits: Limits, offered: set<Profile>, h: Host, after: Host, r: Round,
                     actions: seq<Action>)
    requires Inv(limits, h) && AllShrink(limits, offered)
    requires PlanStep(limits, offered, h, after, r, actions) && after.pending.Wakes?
    ensures Inv(limits, after)
  {
    assert actions[0].Wake?;
    var wakes := WakesOf(r, actions);
    WakesAreSafe(limits, r.all, h.slots, wakes);
    var now, later := Tenancies(h.slots, {}, None), Promised(after);
    forall t | t in later ensures SleepShrinks(limits, t.profile, t.gpus) {
      var k :| 0 <= k < |later| && later[k] == t;
      assert now[k] in now;
    }
  }

  lemma WakesOf(r: Round, actions: seq<Action>) returns (wakes: seq<Worker>)
    requires SoundActions(r, actions) && actions != [] && actions[0].Wake?
    ensures SoundWakes(r, actions, wakes) && Ids(wakes) == WakeIds(actions)
    ensures forall w :: w in wakes ==> w in r.live
  {
    FirstActionTells(r, actions);
    wakes :| SoundWakes(r, actions, wakes);
    forall id ensures id in Ids(wakes) <==> id in WakeIds(actions) {
      if id in Ids(wakes) {
        var w :| w in wakes && w.id == id;
        var k :| 0 <= k < |wakes| && wakes[k] == w;
        assert actions[k] in actions;
      }
      if id in WakeIds(actions) {
        var a :| a in actions && a.Wake? && a.workerId == id;
        var k :| 0 <= k < |actions| && actions[k] == a;
        assert wakes[k] in wakes;
      }
    }
  }

  lemma StepKeepsInv(limits: Limits, offered: set<Profile>, h: Host, after: Host)
    requires Inv(limits, h) && Step(limits, offered, h, after) && AllShrink(limits, offered)
    ensures Inv(limits, after)
  {
    if k :| WorkerStep(h, after, k) {
      WorkerStepKeepsInv(limits, h, after, k);
    } else if r, actions :| PlanStep(limits, offered, h, after, r, actions) {
      PlanStepKeepsInv(limits, offered, h, after, r, actions);
    } else if w :| LaunchStep(h, after, w) {
      LaunchStepKeepsInv(limits, h, after, w);
    } else if k :| WakeStep(h, after, k) {
      WakeStepKeepsInv(limits, h, after, k);
    } else {
      CurrentIsSafe(limits, h);
    }
  }

  lemma {:induction false} RunKeepsInv(limits: Limits, offered: set<Profile>, hosts: seq<Host>, i: nat)
    requires Run(limits, offered, hosts) && AllShrink(limits, offered) && i < |hosts|
    ensures Inv(limits, hosts[i])
  {
    if i > 0 {
      RunKeepsInv(limits, offered, hosts, i - 1);
      assert Step(limits, offered, hosts[i - 1], hosts[i - 1 + 1]);
      StepKeepsInv(limits, offered, hosts[i - 1], hosts[i]);
    }
  }

  /** The budgets a safe host keeps on one GPU, written out. */
  ghost predicate WithinBudgets(limits: Limits, ts: seq<Tenancy>, g: Gpu) {
    var load := Load(limits, ts, g);
    && load <= TotalMib(limits, g) - limits.reservedVramMib
    && (forall t :: t in ts && Hosts(t, g) ==>
          load <= (TotalMib(limits, g) as real * t.profile.gpuMemoryUtilization).Floor)
    && SumOf(ts, ResidentOn(g)) <= limits.maxWorkersPerGpu
    && SumOf(ts, PresentOn(g)) <= limits.maxCachedWorkersPerGpu
  }

  lemma {:induction false} SafetyIsWithinBudgets(limits: Limits, ts: seq<Tenancy>, g: Gpu)
    requires SafeOn(limits, ts, g)
    ensures WithinBudgets(limits, ts, g)
  {
  }

  /**
   * From an empty host, along every run, no GPU ever holds more than its reserve and every
   * tenant's utilization bound leave, nor more engines than its limits admit.
   */
  lemma {:induction false} MemorySafety(limits: Limits, offered: set<Profile>, hosts: seq<Host>, i: nat, g: Gpu)
    requires Run(limits, offered, hosts) && AllShrink(limits, offered) && i < |hosts|
    requires Hosted(Tenancies(hosts[i].slots, {}, None), g)
    ensures WithinBudgets(limits, Tenancies(hosts[i].slots, {}, None), g)
  {
    RunKeepsInv(limits, offered, hosts, i);
    CurrentIsSafe(limits, hosts[i]);
    assert SafeOn(limits, Tenancies(hosts[i].slots, {}, None), g);
    SafetyIsWithinBudgets(limits, Tenancies(hosts[i].slots, {}, None), g);
  }
}
