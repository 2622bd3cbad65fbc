/** Admission arithmetic of the Prism planner: does one more engine fit on its GPUs? */
module PrismFit {
  import opened Collections
  import opened Domain

  datatype Limits = Limits(
    gpuVramMib: map<Gpu, nat>,
    reservedVramMib: nat,
    maxWorkersPerGpu: nat,
    maxCachedWorkersPerGpu: nat,
    sleepGpuReserveMib: nat)

  // ---------- charges ----------

  /** The first position of a GPU in a worker's GPU list. */
  function IndexOf(gpus: seq<Gpu>, g: Gpu): (i: nat)
    ensures i <= |gpus|
    ensures g in gpus ==> i < |gpus| && gpus[i] == g
  {
    if gpus == [] || gpus[0] == g then 0 else 1 + IndexOf(gpus[1..], g)
  }

  predicate Measures(p: Profile, i: nat) {
    i < |p.idleVram| && i < |p.peakVram| && i < |p.gpuHeadroom|
  }

  /** The larger of the two measured peaks, with the headroom on top. */
  function Footprint(p: Profile, i: nat): (mib: nat)
    requires Measures(p, i)
    ensures mib >= p.idleVram[i] + p.gpuHeadroom[i] && mib >= p.peakVram[i] + p.gpuHeadroom[i]
    ensures mib == p.idleVram[i] + p.gpuHeadroom[i] || mib == p.peakVram[i] + p.gpuHeadroom[i]
  {
    Max(p.idleVram[i], p.peakVram[i]) + p.gpuHeadroom[i]
  }

  /** What was measured asleep, but never less than the configured reserve. */
  function SleepResidual(limits: Limits, p: Profile, i: nat): (mib: nat)
    ensures mib >= limits.sleepGpuReserveMib
    ensures p.sleepVram.Some? && i < |p.sleepVram.value| ==> mib >= p.sleepVram.value[i]
    ensures mib == limits.sleepGpuReserveMib
            || (p.sleepVram.Some? && i < |p.sleepVram.value| && mib == p.sleepVram.value[i])
  {
    if p.sleepVram.Some? && i < |p.sleepVram.value|
    then Max(limits.sleepGpuReserveMib, p.sleepVram.value[i])
    else limits.sleepGpuReserveMib
  }

  predicate Colocated(w: Worker, g: Gpu) {
    !w.state.Cold? && g in w.gpus
  }

  /** The view of the other workers: which one is being woken, and which are about to sleep. */
  datatype View = View(existing: Option<WorkerId>, prospectiveSleep: set<WorkerId>)

  const Plain := View(None, {})

  predicate Active(w: Worker, g: Gpu, v: View) {
    && Colocated(w, g) && v.existing != Some(w.id)
    && w.id !in v.prospectiveSleep && GpuResident(w.state)
  }

  predicate Asleep(w: Worker, g: Gpu, v: View) {
    && Colocated(w, g) && v.existing != Some(w.id)
    && (w.state.Sleeping? || w.id in v.prospectiveSleep)
  }

  function ActiveMib(w: Worker, g: Gpu): nat {
    var i := IndexOf(w.gpus, g);
    if Measures(w.profile, i) then Footprint(w.profile, i) else 0
  }

  function AsleepMib(limits: Limits, w: Worker, g: Gpu): nat {
    SleepResidual(limits, w.profile, IndexOf(w.gpus, g))
  }

  /** What one worker costs a GPU. */
  function Charge(limits: Limits, w: Worker, g: Gpu, v: View): nat {
    if Active(w, g, v) then ActiveMib(w, g)
    else if Asleep(w, g, v) then AsleepMib(limits, w, g)
    else 0
  }

  // The same tests and charges as function values, for sums and filters over the workers.

  function IsColocated(g: Gpu): Worker -> bool {
    (w: Worker) => Colocated(w, g)
  }

  function IsActive(g: Gpu, v: View): Worker -> bool {
    (w: Worker) => Active(w, g, v)
  }

  function IsAsleep(g: Gpu, v: View): Worker -> bool {
    (w: Worker) => Asleep(w, g, v)
  }

  function ActiveCharge(g: Gpu): Worker -> int {
    (w: Worker) => ActiveMib(w, g)
  }

  function AsleepCharge(limits: Limits, g: Gpu): Worker -> int {
    (w: Worker) => AsleepMib(limits, w, g)
  }

  function ChargeOn(limits: Limits, g: Gpu, v: View): Worker -> int {
    (w: Worker) => Charge(limits, w, g, v)
  }

  function OneIf(p: Worker -> bool): Worker -> int {
    (w: Worker) => if p(w) then 1 else 0
  }

  function Used(limits: Limits, ws: seq<Worker>, g: Gpu, v: View): int {
    SumOf(ws, ChargeOn(limits, g, v))
  }

  function CountColocated(ws: seq<Worker>, g: Gpu): int {
    SumOf(ws, OneIf(IsColocated(g)))
  }

  function CountActive(ws: seq<Worker>, g: Gpu, v: View): int {
    SumOf(ws, OneIf(IsActive(g, v)))
  }

  function TotalMib(limits: Limits, g: Gpu): nat {
    if g in limits.gpuVramMib then limits.gpuVramMib[g] else 0
  }

  /** `load` is allowed on a GPU of `total` MiB for an engine with this utilization bound. */
  predicate UnderUtilization(total: nat, utilization: real, load: int) {
    load <= (total as real * utilization).Floor
  }

  // ---------- the admission predicate ----------

  predicate Duplicate(p: Profile, gpuSet: seq<Gpu>, w: Worker, v: View) {
    !w.state.Cold? && v.existing != Some(w.id) && w.profile.modelId == p.modelId && w.gpus == gpuSet
  }

  predicate AllKvcached(ws: seq<Worker>, g: Gpu) {
    forall w :: w in ws && Colocated(w, g) ==> Kvcached(w.profile)
  }

  predicate AllMeasured(ws: seq<Worker>, g: Gpu, v: View) {
    forall w :: w in ws && Active(w, g, v) ==> Measures(w.profile, IndexOf(w.gpus, g))
  }

  predicate NeighboursAllow(ws: seq<Worker>, g: Gpu, total: nat, load: int) {
    forall w :: w in ws && Colocated(w, g) ==>
      UnderUtilization(total, w.profile.gpuMemoryUtilization, load)
  }

  predicate FitsOn(limits: Limits, p: Profile, i: nat, g: Gpu, ws: seq<Worker>, v: View)
    requires Measures(p, i)
  {
    var total := TotalMib(limits, g);
    var load := Used(limits, ws, g, v) + Footprint(p, i);
    && AllKvcached(ws, g)
    && CountColocated(ws, g) + (if v.existing.Some? then 0 else 1) <= limits.maxCachedWorkersPerGpu
    && CountActive(ws, g, v) + 1 <= limits.maxWorkersPerGpu
    && AllMeasured(ws, g, v)
    && load <= total - limits.reservedVramMib
    && UnderUtilization(total, p.gpuMemoryUtilization, load)
    && NeighboursAllow(ws, g, total, load)
  }

  predicate Shaped(p: Profile, gpuSet: seq<Gpu>) {
    |p.idleVram| == |gpuSet| && |p.peakVram| == |gpuSet| && |p.gpuHeadroom| == |gpuSet|
  }

  /** The engine fits on every GPU of the set beside the given workers. */
  predicate Fits(limits: Limits, p: Profile, gpuSet: seq<Gpu>, ws: seq<Worker>, v: View) {
    && Shaped(p, gpuSet)
    && (forall w :: w in ws ==> !Duplicate(p, gpuSet, w, v))
    && (forall i :: 0 <= i < |gpuSet| ==> FitsOn(limits, p, i, gpuSet[i], ws, v))
  }

  // ---------- the source's loops meet the predicate ----------

  lemma {:induction false} LengthIsCount(ws: seq<Worker>, p: Worker -> bool)
    ensures |Filter(ws, p)| == SumOf(ws, OneIf(p))
  {
    if ws != [] {
      LengthIsCount(ws[1..], p);
    }
  }

  /** A looser utilization bound allows at least the same load. */
  lemma LooserBoundAllowsMore(total: nat, u: real, v: real, load: int)
    requires u <= v && UnderUtilization(total, u, load)
    ensures UnderUtilization(total, v, load)
  {
    assert total as real * (v - u) >= 0.0;
    assert total as real * v == total as real * u + total as real * (v - u);
  }

  /** The strictest utilization bound among the engine and its neighbours. */
  method StrictestUtilization(p: Profile, colocated: seq<Worker>) returns (utilization: real)
    ensures utilization <= p.gpuMemoryUtilization
    ensures forall w :: w in colocated ==> utilization <= w.profile.gpuMemoryUtilization
    ensures utilization == p.gpuMemoryUtilization
            || exists w :: w in colocated && utilization == w.profile.gpuMemoryUtilization
  {
    utilization := p.gpuMemoryUtilization;
    for k := 0 to |colocated|
      invariant utilization <= p.gpuMemoryUtilization
      invariant forall w :: w in colocated[..k] ==> utilization <= w.profile.gpuMemoryUtilization
      invariant utilization == p.gpuMemoryUtilization
                || exists w :: w in colocated && utilization == w.profile.gpuMemoryUtilization
    {
      if colocated[k].profile.gpuMemoryUtilization < utilization {
        utilization := colocated[k].profile.gpuMemoryUtilization;
      }
      assert colocated[..k + 1] == colocated[..k] + [colocated[k]];
    }
    assert colocated[..|colocated|] == colocated;
  }

  function Budget(limits: Limits, total: nat, utilization: real): (budget: int)
    ensures forall load :: load <= budget <==>
              load <= total - limits.reservedVramMib && UnderUtilization(total, utilization, load)
  {
    Min(total - limits.reservedVramMib, (total as real * utilization).Floor)
  }

  /** Meeting the strictest utilization bound is meeting all of them. */
  lemma StrictestDecides(ws: seq<Worker>, g: Gpu, total: nat, utilization: real, own: real, load: int)
    requires utilization <= own
    requires forall w :: w in ws && Colocated(w, g) ==> utilization <= w.profile.gpuMemoryUtilization
    requires utilization == own
             || exists w :: w in ws && Colocated(w, g) && utilization == w.profile.gpuMemoryUtilization
    ensures UnderUtilization(total, utilization, load)
            <==> UnderUtilization(total, own, load) && NeighboursAllow(ws, g, total, load)
  {
    if UnderUtilization(total, utilization, load) {
      LooserBoundAllowsMore(total, utilization, own, load);
      forall w | w in ws && Colocated(w, g)
        ensures UnderUtilization(total, w.profile.gpuMemoryUtilization, load)
      {
        LooserBoundAllowsMore(total, utilization, w.profile.gpuMemoryUtilization, load);
      }
    }
  }

  /** The measured load of the active neighbours, or `None` when one of them lacks a measurement. */
  method ActiveLoad(active: seq<Worker>, g: Gpu) returns (mib: Option<int>)
    ensures mib.Some? <==> forall w :: w in active ==> Measures(w.profile, IndexOf(w.gpus, g))
    ensures mib.Some? ==> mib.value == SumOf(active, ActiveCharge(g))
  {
    var usedMib := 0;
    for k := 0 to |active|
      invariant forall w :: w in active[..k] ==> Measures(w.profile, IndexOf(w.gpus, g))
      invariant usedMib == SumOf(active[..k], ActiveCharge(g))
    {
      assert active[..k + 1] == active[..k] + [active[k]];
      SumOfAppend(active[..k], [active[k]], ActiveCharge(g));
      var index := IndexOf(active[k].gpus, g);
      if !Measures(active[k].profile, index) {
        return None;
      }
      usedMib := usedMib + Footprint(active[k].profile, index);
    }
    assert active[..|active|] == active;
    return Some(usedMib);
  }

  method SleepingLoad(limits: Limits, sleeping: seq<Worker>, g: Gpu) returns (mib: int)
    ensures mib == SumOf(sleeping, AsleepCharge(limits, g))
  {
    mib := 0;
    for k := 0 to |sleeping|
      invariant mib == SumOf(sleeping[..k], AsleepCharge(limits, g))
    {
      assert sleeping[..k + 1] == sleeping[..k] + [sleeping[k]];
      SumOfAppend(sleeping[..k], [sleeping[k]], AsleepCharge(limits, g));
      mib := mib + AsleepMib(limits, sleeping[k], g);
    }
    assert sleeping[..|sleeping|] == sleeping;
  }

  lemma {:induction false} UsedIsActivePlusAsleep(limits: Limits, ws: seq<Worker>, g: Gpu, v: View)
    ensures Used(limits, ws, g, v)
            == SumOf(Filter(ws, IsActive(g, v)), ActiveCharge(g))
               + SumOf(Filter(ws, IsAsleep(g, v)), AsleepCharge(limits, g))
  {
    var active := (w: Worker) => if Active(w, g, v) then ActiveMib(w, g) else 0;
    var asleep := (w: Worker) => if Asleep(w, g, v) then AsleepMib(limits, w, g) else 0;
    SumOfKept(ws, IsActive(g, v), ActiveCharge(g), active);
    SumOfKept(ws, IsAsleep(g, v), AsleepCharge(limits, g), asleep);
    SumOfAdded(ws, active, asleep, ChargeOn(limits, g, v));
  }

  /** The memory checks of one GPU: budget under the strictest utilization bound on it. */
  method CheckLoad(limits: Limits, p: Profile, i: nat, g: Gpu, ws: seq<Worker>, v: View, activeMib: int)
    returns (ok: bool)
    requires Measures(p, i) && activeMib == SumOf(Filter(ws, IsActive(g, v)), ActiveCharge(g))
    ensures var total, load := TotalMib(limits, g), Used(limits, ws, g, v) + Footprint(p, i);
            ok <==> load <= total - limits.reservedVramMib
                    && UnderUtilization(total, p.gpuMemoryUtilization, load)
                    && NeighboursAllow(ws, g, total, load)
  {
    var sleepingMib := SleepingLoad(limits, Filter(ws, IsAsleep(g, v)), g);
    UsedIsActivePlusAsleep(limits, ws, g, v);
    var utilization := StrictestUtilization(p, Filter(ws, IsColocated(g)));
    var total, load := TotalMib(limits, g), activeMib + sleepingMib + Footprint(p, i);
    StrictestDecides(ws, g, total, utilization, p.gpuMemoryUtilization, load);
    ok := load <= Budget(limits, total, utilization);
  }

  /** One GPU's checks, in the order the source makes them. */
  method CheckGpu(limits: Limits, p: Profile, i: nat, g: Gpu, ws: seq<Worker>, v: View)
    returns (ok: bool)
    requires Measures(p, i)
    ensures ok == FitsOn(limits, p, i, g, ws, v)
  {
    var colocated := Filter(ws, IsColocated(g));
    LengthIsCount(ws, IsColocated(g));
    if exists w :: w in colocated && !Kvcached(w.profile) {
      return false;
    }
    var newProcesses := if v.existing.Some? then 0 else 1;
    if |colocated| + newProcesses > limits.maxCachedWorkersPerGpu {
      return false;
    }
    var active := Filter(ws, IsActive(g, v));
    LengthIsCount(ws, IsActive(g, v));
    if |active| + 1 > limits.maxWorkersPerGpu {
      return false;
    }
    var activeMib := ActiveLoad(active, g);
    if activeMib.None? {
      return false;
    }
    ok := CheckLoad(limits, p, i, g, ws, v, activeMib.value);
  }

  method CachedPrismFits(limits: Limits, p: Profile, gpuSet: seq<Gpu>, ws: seq<Worker>, v: View)
    returns (ok: bool)
    ensures ok == Fits(limits, p, gpuSet, ws, v)
  {
    if !Shaped(p, gpuSet) || exists w :: w in ws && Duplicate(p, gpuSet, w, v) {
      return false;
    }
    for i := 0 to |gpuSet|
      invariant forall k :: 0 <= k < i ==> FitsOn(limits, p, k, gpuSet[k], ws, v)
    {
      var fitsHere := CheckGpu(limits, p, i, gpuSet[i], ws, v);
      if !fitsHere {
        return false;
      }
    }
    return true;
  }
}
