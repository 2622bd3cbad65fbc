/**
 * Which profiles memory safety needs: for every profile that may cost a GPU more asleep than active
 * there are GPUs on which the planner starts it and its sleep breaks the budgets.
 */
module PrismProfiles {
  import opened Collections
  import opened CopyCounts
  import opened Domain
  import opened PrismFit
  import opened PrismSearch
  import opened PrismPlan
  import opened PrismRuns

  /** The same limits on GPUs of other sizes. */
  function Sized(limits: Limits, sizes: map<Gpu, nat>): Limits {
    limits.(gpuVramMib := sizes)
  }

  /** Whatever the sizes of the GPUs, no run that chooses from these profiles leaves the budgets. */
  ghost predicate AlwaysWithinBudgets(limits: Limits, offered: set<Profile>) {
    forall sizes, hosts: seq<Host>, i: nat, g ::
      Run(Sized(limits, sizes), offered, hosts) && i < |hosts| && Hosted(Tenancies(hosts[i].slots, {}, None), g) ==>
        WithinBudgets(Sized(limits, sizes), Tenancies(hosts[i].slots, {}, None), g)
  }

  /** A utilization bound as the settings allow it, and GPU sets without repetition. */
  ghost predicate Proper(p: Profile) {
    && 0.0 < p.gpuMemoryUtilization <= 1.0
    && forall gpus :: gpus in p.eligibleGpuSets ==> NoDuplicates(gpus)
  }

  // ---------- a GPU just large enough ----------

  /** The smallest GPU on which this load is within the reserve and the utilization bound. */
  function JustEnough(reserved: nat, load: nat, utilization: real): (total: nat)
    requires 0.0 < utilization <= 1.0
  {
    Max(reserved + load, Ceiling(load as real / utilization))
  }

  lemma ScaledBack(load: nat, utilization: real, c: int)
    requires 0.0 < utilization <= 1.0
    requires load as real / utilization <= c as real < load as real / utilization + 1.0
    ensures load as real <= c as real * utilization < load as real + 1.0
  {
    var q := load as real / utilization;
    assert q * utilization == load as real;
    assert (c as real - q) * utilization >= 0.0;
    assert (q + 1.0 - c as real) * utilization > 0.0;
  }

  lemma JustEnoughIsTight(reserved: nat, load: nat, utilization: real, more: int)
    requires 0.0 < utilization <= 1.0 && more > load
    ensures var total := JustEnough(reserved, load, utilization);
            && load <= total - reserved && UnderUtilization(total, utilization, load)
            && !(more <= total - reserved && UnderUtilization(total, utilization, more))
  {
    var c := Ceiling(load as real / utilization);
    CeilingBounds(load as real / utilization);
    ScaledBack(load, utilization, c);
    var total := JustEnough(reserved, load, utilization);
    if total != c {
      assert (total as real - c as real) * utilization >= 0.0;
    }
  }

  /** GPUs on which one engine of the profile fits with nothing to spare. */
  function TightSizes(limits: Limits, p: Profile, gpus: seq<Gpu>): map<Gpu, nat>
    requires Shaped(p, gpus) && 0.0 < p.gpuMemoryUtilization <= 1.0
  {
    map g | g in gpus :: JustEnough(limits.reservedVramMib, Footprint(p, IndexOf(gpus, g)), p.gpuMemoryUtilization)
  }

  lemma {:induction false} OwnIndex(gpus: seq<Gpu>, i: nat)
    requires NoDuplicates(gpus) && i < |gpus|
    ensures IndexOf(gpus, gpus[i]) == i
  {
    assert gpus[IndexOf(gpus, gpus[i])] == gpus[i];
  }

  // ---------- the run ----------

  lemma FitsTightly(limits: Limits, p: Profile, gpus: seq<Gpu>)
    requires Proper(p) && Kvcached(p) && gpus in p.eligibleGpuSets && Shaped(p, gpus)
    requires limits.maxWorkersPerGpu >= 1 && limits.maxCachedWorkersPerGpu >= 1
    ensures Fits(Sized(limits, TightSizes(limits, p, gpus)), p, gpus, [], Plain)
  {
    forall i | 0 <= i < |gpus| ensures FitsOn(Sized(limits, TightSizes(limits, p, gpus)), p, i, gpus[i], [], Plain) {
      OwnIndex(gpus, i);
      JustEnoughIsTight(limits.reservedVramMib, Footprint(p, i), p.gpuMemoryUtilization, Footprint(p, i) + 1);
    }
  }

  /** One request waits for this profile's model on an empty host. */
  function FirstRound(limits: Limits, p: Profile, gpus: seq<Gpu>): Round {
    Round(Planner(limits, 0, 0, 1.0, 0.0, 0), 0, ToSet(gpus), [], [Pressure(p.modelId, 1, 1, 0, false, 0)],
          map[p.modelId := [p]])
  }

  function Engine(p: Profile, gpus: seq<Gpu>, state: RuntimeState): Worker {
    Worker(0, p, gpus, state, {}, None, 0, None)
  }

  function Alone(p: Profile, gpus: seq<Gpu>, state: RuntimeState): Host {
    Host([Slot(Engine(p, gpus, state), state.Sleeping?)], Nothing)
  }

  /** An engine is planned, launched, turns ready, is offloaded and sleeps. */
  function StartThenSleep(p: Profile, gpus: seq<Gpu>): seq<Host> {
    [Host([], Nothing), Host([], Starting(p, gpus)), Alone(p, gpus, Loading), Alone(p, gpus, Ready),
     Alone(p, gpus, Offloading), Alone(p, gpus, Sleeping)]
  }

  lemma FirstRoundStarts(limits: Limits, offered: set<Profile>, p: Profile, gpus: seq<Gpu>)
    requires p in offered && Kvcached(p) && gpus in p.eligibleGpuSets && Fits(limits, p, gpus, [], Plain)
    ensures Step(limits, offered, Host([], Nothing), Host([], Starting(p, gpus)))
  {
    var r := FirstRound(limits, p, gpus);
    var actions := [Start(p, gpus, "prism_cold_backlog")];
    assert SoundStart(r, actions) by {
      assert r.pressures[0] in r.pressures && p in CandidatesFor(r, p.modelId);
      assert CanStart(limits, r.all, [], p, gpus);
    }
    assert PlanStep(limits, offered, Host([], Nothing), Host([], Starting(p, gpus)), r, actions);
  }

  lemma StartThenSleepRuns(limits: Limits, offered: set<Profile>, p: Profile, gpus: seq<Gpu>)
    requires p in offered && Kvcached(p) && gpus in p.eligibleGpuSets && Fits(limits, p, gpus, [], Plain)
    ensures Run(limits, offered, StartThenSleep(p, gpus))
  {
    var hosts := StartThenSleep(p, gpus);
    FirstRoundStarts(limits, offered, p, gpus);
    assert LaunchStep(hosts[1], hosts[2], Engine(p, gpus, Loading));
    forall i | 2 <= i < 5 ensures WorkerStep(hosts[i], hosts[i + 1], 0) {
    }
    forall i | 0 <= i < |hosts| - 1 ensures Step(limits, offered, hosts[i], hosts[i + 1]) {
      if i >= 2 {
        assert WorkerStep(hosts[i], hosts[i + 1], 0);
      }
    }
  }

  /** Asleep, the engine holds its residue, and nothing else is on the GPU. */
  lemma SleeperAlone(limits: Limits, p: Profile, gpus: seq<Gpu>, i: nat)
    requires NoDuplicates(gpus) && i < |gpus|
    ensures var ts := Tenancies(Alone(p, gpus, Sleeping).slots, {}, None);
            Hosted(ts, gpus[i]) && Load(limits, ts, gpus[i]) == SleepResidual(limits, p, i)
  {
    OwnIndex(gpus, i);
    var ts := Tenancies(Alone(p, gpus, Sleeping).slots, {}, None);
    assert ts == [Tenancy(p, gpus, 1)];
    SumOfOne(ts[0], MibOn(limits, gpus[i]));
    assert ts[0] in ts && Hosts(ts[0], gpus[i]);
  }

  lemma OneTenantOver(limits: Limits, ts: seq<Tenancy>, t: Tenancy, g: Gpu)
    requires t in ts && Hosts(t, g)
    requires var (load, total) := (Load(limits, ts, g), TotalMib(limits, g));
             !(load <= total - limits.reservedVramMib
               && UnderUtilization(total, t.profile.gpuMemoryUtilization, load))
    ensures !WithinBudgets(limits, ts, g)
  {
  }

  lemma TightTotal(limits: Limits, p: Profile, gpus: seq<Gpu>, i: nat)
    requires Proper(p) && gpus in p.eligibleGpuSets && Shaped(p, gpus) && i < |gpus|
    ensures TotalMib(Sized(limits, TightSizes(limits, p, gpus)), gpus[i])
            == JustEnough(limits.reservedVramMib, Footprint(p, i), p.gpuMemoryUtilization)
  {
    OwnIndex(gpus, i);
  }

  lemma SleeperIsOver(limits: Limits, p: Profile, gpus: seq<Gpu>, i: nat)
    requires Proper(p) && gpus in p.eligibleGpuSets && Shaped(p, gpus) && i < |gpus|
    requires SleepResidual(limits, p, i) > Footprint(p, i)
    ensures var tight := Sized(limits, TightSizes(limits, p, gpus));
            !WithinBudgets(tight, Tenancies(Alone(p, gpus, Sleeping).slots, {}, None), gpus[i])
  {
    var tight, ts := Sized(limits, TightSizes(limits, p, gpus)), Tenancies(Alone(p, gpus, Sleeping).slots, {}, None);
    SleeperAlone(tight, p, gpus, i);
    assert SleepResidual(tight, p, i) == SleepResidual(limits, p, i);
    TightTotal(limits, p, gpus, i);
    JustEnoughIsTight(limits.reservedVramMib, Footprint(p, i), p.gpuMemoryUtilization, SleepResidual(limits, p, i));
    OneTenantOver(tight, ts, ts[0], gpus[i]);
  }

  /** On GPUs just large enough for it, an engine that costs one of them more asleep overcommits it. */
  lemma SleepOvercommits(limits: Limits, offered: set<Profile>, p: Profile, gpus: seq<Gpu>, i: nat)
    requires p in offered && Proper(p) && Kvcached(p) && gpus in p.eligibleGpuSets && Shaped(p, gpus) && i < |gpus|
    requires limits.maxWorkersPerGpu >= 1 && limits.maxCachedWorkersPerGpu >= 1
    requires SleepResidual(limits, p, i) > Footprint(p, i)
    ensures !AlwaysWithinBudgets(limits, offered)
  {
    var sizes, hosts := TightSizes(limits, p, gpus), StartThenSleep(p, gpus);
    FitsTightly(limits, p, gpus);
    StartThenSleepRuns(Sized(limits, sizes), offered, p, gpus);
    SleeperIsOver(limits, p, gpus, i);
    SleeperAlone(Sized(limits, sizes), p, gpus, i);
    assert hosts[5] == Alone(p, gpus, Sleeping);
  }

  // ---------- the exact condition ----------

  /**
   * Runs that choose from these profiles stay within the budgets on GPUs of every size exactly when
   * no profile costs a GPU more asleep than active.
   */
  lemma SafeOnAllGpusExactlyWhen(limits: Limits, offered: set<Profile>)
    requires forall p :: p in offered ==> Proper(p)
    requires limits.maxWorkersPerGpu >= 1 && limits.maxCachedWorkersPerGpu >= 1
    ensures AlwaysWithinBudgets(limits, offered) <==> AllShrink(limits, offered)
  {
    if AllShrink(limits, offered) {
      forall sizes, hosts: seq<Host>, i: nat, g |
        Run(Sized(limits, sizes), offered, hosts) && i < |hosts| && Hosted(Tenancies(hosts[i].slots, {}, None), g)
        ensures WithinBudgets(Sized(limits, sizes), Tenancies(hosts[i].slots, {}, None), g)
      {
        ShrinkingIgnoresSizes(limits, sizes, offered);
        MemorySafety(Sized(limits, sizes), offered, hosts, i, g);
      }
    } else {
      var p :| p in offered && !Shrinks(limits, p);
      var gpus :| gpus in p.eligibleGpuSets && Shaped(p, gpus) && !SleepShrinks(limits, p, gpus);
      var i: nat :| i < |gpus| && SleepResidual(limits, p, i) > Footprint(p, i);
      SleepOvercommits(limits, offered, p, gpus, i);
    }
  }

  lemma ShrinkingIgnoresSizes(limits: Limits, sizes: map<Gpu, nat>, offered: set<Profile>)
    requires AllShrink(limits, offered)
    ensures AllShrink(Sized(limits, sizes), offered)
  {
    forall p, gpus | p in offered && Kvcached(p) && gpus in p.eligibleGpuSets && Shaped(p, gpus)
      ensures SleepShrinks(Sized(limits, sizes), p, gpus)
    {
      assert Shrinks(limits, p);
      forall i | 0 <= i < |gpus| ensures SleepResidual(Sized(limits, sizes), p, i) <= Footprint(p, i) {
        assert SleepResidual(limits, p, i) <= Footprint(p, i);
      }
    }
  }
}
