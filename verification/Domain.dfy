/** Workers, placement profiles and runtime states, as the planner and the supervisor see them. */
module Domain {
  import opened Collections

  type Gpu = string
  type ModelId = string
  /** Worker ids are opaque ordered tokens; integers stand for the order of their strings. */
  type WorkerId = int
  /** Instants and durations are integer ticks. */
  type Time = int

  datatype Engine = Vllm | LlamaCpp

  datatype RuntimeState = Cold | Loading | Ready | Draining | Offloading | Sleeping | Waking | Stopping

  /** A measured placement: memory figures are in MiB, one per GPU of the set. */
  datatype Profile = Profile(
    id: string,
    modelId: ModelId,
    engine: Engine,
    memoryBackend: string,
    gpuCount: nat,
    eligibleGpuSets: seq<seq<Gpu>>,
    predictedTokensPerSecond: real,
    loadAndWarmupSeconds: real,
    idleVram: seq<nat>,
    peakVram: seq<nat>,
    gpuHeadroom: seq<nat>,
    sleepVram: Option<seq<nat>>,
    gpuMemoryUtilization: real)

  datatype Worker = Worker(
    id: WorkerId,
    profile: Profile,
    gpus: seq<Gpu>,
    state: RuntimeState,
    admitted: set<string>,
    readyAt: Option<Time>,
    lastDemandAt: Time,
    lastActivationSeconds: Option<real>)

  /** States in which an engine's weights count as occupying its GPUs. */
  predicate GpuResident(state: RuntimeState)
    ensures GpuResident(state) <==> !state.Cold? && !state.Sleeping?
  {
    state in {Loading, Ready, Draining, Offloading, Waking, Stopping}
  }

  predicate Kvcached(profile: Profile) {
    profile.engine.Vllm? && profile.memoryBackend == "kvcached"
  }

  predicate Overlaps(a: seq<Gpu>, b: seq<Gpu>) {
    exists g :: g in a && g in b
  }

  function Ids(workers: seq<Worker>): (ids: set<WorkerId>)
  {
    set w | w in workers :: w.id
  }

  ghost predicate DistinctIds(workers: seq<Worker>) {
    forall i, j :: 0 <= i < j < |workers| ==> workers[i].id != workers[j].id
  }
}
