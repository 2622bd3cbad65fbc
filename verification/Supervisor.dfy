/**
 * The worker supervisor as the source keeps it: worker objects changed in place, one method per
 * section that runs under the state lock. Each method is tied to the section's function.
 */
module Supervisor {
  import opened Collections
  import opened Domain
  import opened Lifecycle
  import opened Ownership

  class WorkerPlacement {
    const id: WorkerId
    const profile: Profile
    const gpus: seq<Gpu>
    const port: int
    var state: RuntimeState
    var admitted: set<RequestId>
    var work: int

    constructor (id: WorkerId, profile: Profile, gpus: seq<Gpu>, port: int)
      ensures this.id == id && this.profile == profile && this.gpus == gpus && this.port == port
      ensures state == Loading && admitted == {} && work == 0
    {
      this.id, this.profile, this.gpus, this.port := id, profile, gpus, port;
      state, admitted, work := Loading, {}, 0;
    }

    ghost function AsOwner(): Owner
      reads this
    {
      Owner(profile, gpus, port, state)
    }
  }

  class WorkerSupervisor {
    const settings: Settings
    const ramWeightCacheEnabled: bool
    var workers: map<WorkerId, WorkerPlacement>
    var drainToSleep: set<WorkerId>

    constructor (settings: Settings, ramWeightCacheEnabled: bool)
      ensures this.settings == settings && this.ramWeightCacheEnabled == ramWeightCacheEnabled
      ensures workers == map[] && drainToSleep == {}
    {
      this.settings, this.ramWeightCacheEnabled := settings, ramWeightCacheEnabled;
      workers, drainToSleep := map[], {};
    }

    ghost function DataOf(id: WorkerId): Data
      requires id in workers
      reads this, workers[id]
    {
      Data(workers[id].state, workers[id].admitted, workers[id].work, id in drainToSleep)
    }

    ghost function Owners(): (owners: map<WorkerId, Owner>)
      reads this, workers.Values
    {
      map id | id in workers :: workers[id].AsOwner()
    }

    /** The one object a section about this worker may change. */
    ghost function Placement(id: WorkerId): set<object>
      reads this
    {
      if id in workers then {workers[id]} else {}
    }

    /** No other worker's sleep mark changes. */
    twostate predicate OnlyMarks(id: WorkerId)
      reads this
    {
      drainToSleep - {id} == old(drainToSleep) - {id}
    }

    /** A cold worker carries nothing, as the lifecycle keeps it. */
    ghost predicate ColdIsEmpty(id: WorkerId)
      requires id in workers
      reads this, workers[id]
    {
      workers[id].state == Cold ==> workers[id].admitted == {} && workers[id].work == 0 && id !in drainToSleep
    }

    lemma AliveWorkers()
      ensures forall id :: id in workers ==> (Alive(Owners(), id) <==> !workers[id].state.Cold?)
    {
    }

    // ---------- launching ----------

    method AllocatePort() returns (port: Option<int>)
      ensures port == FirstFreePort(UsedPorts(Owners()), settings.portStart, settings.portEnd)
    {
      var used := set id | id in workers && !workers[id].state.Cold? :: workers[id].port;
      AliveWorkers();
      assert used == UsedPorts(Owners());
      var candidate := settings.portStart;
      while candidate <= settings.portEnd
        invariant FirstFreePort(used, candidate, settings.portEnd)
                  == FirstFreePort(used, settings.portStart, settings.portEnd)
        decreases settings.portEnd - candidate
      {
        if candidate !in used {
          return Some(candidate);
        }
        candidate := candidate + 1;
      }
      return None;
    }

    method CanShareGpus(p: Profile, gpus: seq<Gpu>, overlapping: set<WorkerId>) returns (ok: bool)
      requires overlapping == Overlapping(Owners(), gpus)
      ensures ok == CanShare(settings, Owners(), p, gpus)
    {
      if !settings.kvcached || !Kvcached(p) {
        return false;
      }
      if exists id :: id in overlapping && !Kvcached(workers[id].profile) {
        return false;
      }
      for k := 0 to |gpus|
        invariant forall j :: 0 <= j < k ==>
                    |ResidentHolders(Owners(), gpus[j])| < settings.maxWorkersPerGpu
                    && |Holders(Owners(), gpus[j])| < settings.maxCachedWorkersPerGpu
      {
        var colocated := set id | id in overlapping && gpus[k] in workers[id].gpus;
        assert colocated == Holders(Owners(), gpus[k]) by { ColocatedAreHolders(Owners(), gpus, k); }
        var active := set id | id in colocated && GpuResident(workers[id].state);
        assert active == ResidentHolders(Owners(), gpus[k]);
        if |active| >= settings.maxWorkersPerGpu || |colocated| >= settings.maxCachedWorkersPerGpu {
          return false;
        }
      }
      return true;
    }

    /** The GPUs are unowned, or their owners can share them. */
    method GpusAvailable(p: Profile, gpus: seq<Gpu>) returns (ok: bool)
      ensures ok <==> Overlapping(Owners(), gpus) == {} || CanShare(settings, Owners(), p, gpus)
    {
      var overlapping := set id | id in workers && !workers[id].state.Cold? && Overlaps(workers[id].gpus, gpus);
      AliveWorkers();
      forall other ensures other in overlapping <==> other in Overlapping(Owners(), gpus) {
        assert other in workers ==> (Alive(Owners(), other) <==> !workers[other].state.Cold?);
      }
      if overlapping == {} {
        return true;
      }
      ok := CanShareGpus(p, gpus, overlapping);
    }

    /** The whole launch section; `id` is the fresh identifier the source draws. */
    method Launch(p: Profile, gpus: seq<Gpu>, id: WorkerId) returns (r: Result<WorkerPlacement, LaunchError>)
      requires id !in workers
      modifies this`workers
      ensures match LaunchOutcome(settings, old(Owners()), p, gpus)
              case Err(e) => r == Err(e) && workers == old(workers)
              case Ok(port) =>
                && r.Ok? && fresh(r.value) && workers == old(workers)[id := r.value]
                && r.value.id == id && r.value.state == Loading && r.value.admitted == {} && r.value.work == 0
                && Owners() == AfterLaunch(old(Owners()), id, p, gpus, port)
    {
      if |gpus| != p.gpuCount || gpus !in p.eligibleGpuSets {
        return Err(NotValidated);
      }
      if settings.kvcached && !Kvcached(p) {
        return Err(KvcachedOnly);
      }
      var available := GpusAvailable(p, gpus);
      if !available {
        return Err(GpusOwned);
      }
      var port := AllocatePort();
      if port.None? {
        return Err(PortsExhausted);
      }
      var worker := new WorkerPlacement(id, p, gpus, port.value);
      workers := workers[id := worker];
      return Ok(worker);
    }

    // ---------- the sections of one worker ----------

    method BecomeReady(id: WorkerId)
      requires id in workers
      modifies workers[id]
      ensures DataOf(id) == AfterReady(old(DataOf(id)))
    {
      if workers[id].state == Loading {
        workers[id].state := Ready;
      }
    }

    method Fail(id: WorkerId)
      requires id in workers
      modifies workers[id], this`drainToSleep
      ensures DataOf(id) == AfterFail(old(DataOf(id))) && OnlyMarks(id)
      ensures workers[id].state == Cold
      ensures old(ColdIsEmpty(id)) ==> workers[id].admitted == {} && workers[id].work == 0 && id !in drainToSleep
    {
      var worker := workers[id];
      if worker.state == Cold {
        return;
      }
      worker.admitted, worker.work, worker.state := {}, 0, Cold;
      drainToSleep := drainToSleep - {id};
    }

    method Admit(id: WorkerId, r: RequestId, tokens: nat) returns (routable: bool)
      requires id in workers
      modifies workers[id]
      ensures routable <==> AfterAdmit(old(DataOf(id)), r, tokens).Ok?
      ensures DataOf(id) == if routable then AfterAdmit(old(DataOf(id)), r, tokens).value else old(DataOf(id))
    {
      var worker := workers[id];
      if worker.state != Ready {
        return false;
      }
      worker.admitted := worker.admitted + {r};
      worker.work := worker.work + tokens;
      return true;
    }

    method Release(id: WorkerId, r: RequestId, tokens: nat) returns (task: Option<Task>)
      modifies Placement(id)
      ensures id in workers ==>
                DataOf(id) == AfterRelease(old(DataOf(id)), r, tokens) && task == ReleaseTask(DataOf(id))
      ensures id !in workers ==> task == None
    {
      if id !in workers {
        return None;
      }
      var worker := workers[id];
      worker.admitted := worker.admitted - {r};
      worker.work := Max(0, worker.work - tokens);
      var drained := worker.state == Draining && worker.admitted == {};
      if !drained {
        return None;
      }
      task := Some(if id in drainToSleep then Offload else Stop(false));
    }

    /** Without the weight cache, sleeping is draining. */
    method Sleep(id: WorkerId) returns (task: Option<Task>)
      modifies Placement(id), this`drainToSleep
      ensures OnlyMarks(id)
      ensures id in workers && ramWeightCacheEnabled ==>
                DataOf(id) == AfterSleep(old(DataOf(id))) && task == SleepTask(old(DataOf(id)))
      ensures id in workers && !ramWeightCacheEnabled ==>
                DataOf(id) == AfterDrain(old(DataOf(id))) && task == DrainTask(old(DataOf(id)))
      ensures id !in workers ==> task == None && drainToSleep == old(drainToSleep)
    {
      if !ramWeightCacheEnabled {
        task := Drain(id);
        return;
      }
      if id !in workers || workers[id].state in {Cold, Offloading, Sleeping, Waking, Stopping, Loading} {
        return None;
      }
      var worker := workers[id];
      drainToSleep := drainToSleep + {id};
      if worker.admitted != {} {
        worker.state := Draining;
        return None;
      }
      return Some(Offload);
    }

    method Drain(id: WorkerId) returns (task: Option<Task>)
      modifies Placement(id), this`drainToSleep
      ensures OnlyMarks(id)
      ensures id in workers ==>
                DataOf(id) == AfterDrain(old(DataOf(id))) && task == DrainTask(old(DataOf(id)))
      ensures id !in workers ==> task == None && drainToSleep == old(drainToSleep)
    {
      if id !in workers || workers[id].state in {Draining, Stopping, Cold} {
        return None;
      }
      var worker := workers[id];
      drainToSleep := drainToSleep - {id};
      worker.state := Draining;
      task := if worker.admitted == {} then Some(Stop(false)) else None;
    }

    method BeginOffload(id: WorkerId) returns (goesOn: bool)
      modifies Placement(id), this`drainToSleep
      ensures OnlyMarks(id)
      ensures id in workers ==> (DataOf(id), goesOn) == AfterOffloadBegins(old(DataOf(id)))
      ensures id !in workers ==> !goesOn && drainToSleep == old(drainToSleep)
    {
      if id !in workers || workers[id].state in {Cold, Sleeping, Stopping} {
        return false;
      }
      var worker := workers[id];
      if worker.admitted != {} {
        drainToSleep := drainToSleep + {id};
        worker.state := Draining;
        return false;
      }
      worker.state := Offloading;
      drainToSleep := drainToSleep - {id};
      return true;
    }

    method FinishOffload(id: WorkerId)
      requires id in workers
      modifies workers[id]
      ensures DataOf(id) == AfterOffloadDone(old(DataOf(id)))
    {
      if workers[id].state == Offloading {
        workers[id].state := Sleeping;
      }
    }

    method BeginWake(id: WorkerId) returns (goesOn: bool)
      modifies Placement(id)
      ensures id in workers ==> (DataOf(id), goesOn) == AfterWakeBegins(old(DataOf(id)))
      ensures id !in workers ==> !goesOn
    {
      if id !in workers || workers[id].state != Sleeping {
        return false;
      }
      workers[id].state := Waking;
      return true;
    }

    method FinishWake(id: WorkerId)
      requires id in workers
      modifies workers[id]
      ensures DataOf(id) == AfterWakeDone(old(DataOf(id)))
    {
      if workers[id].state == Waking {
        workers[id].state := Ready;
      }
    }

    method BeginStop(id: WorkerId, force: bool) returns (goesOn: bool)
      modifies Placement(id)
      ensures id in workers ==> (DataOf(id), goesOn) == AfterStopBegins(old(DataOf(id)), force)
      ensures id !in workers ==> !goesOn
    {
      if id !in workers || workers[id].state == Cold {
        return false;
      }
      var worker := workers[id];
      if worker.admitted != {} && !force {
        return false;
      }
      worker.state := Stopping;
      return true;
    }

    method FinishStop(id: WorkerId)
      requires id in workers
      modifies workers[id], this`drainToSleep
      ensures DataOf(id) == AfterStopDone(old(DataOf(id))) && OnlyMarks(id)
      ensures workers[id].state == Cold && workers[id].admitted == {} && workers[id].work == 0
      ensures id !in drainToSleep
    {
      var worker := workers[id];
      worker.state, worker.admitted, worker.work := Cold, {}, 0;
      drainToSleep := drainToSleep - {id};
    }
  }

  /** A worker on a GPU of the set overlaps the set. */
  lemma ColocatedAreHolders(owners: map<WorkerId, Owner>, gpus: seq<Gpu>, k: nat)
    requires k < |gpus|
    ensures (set id | id in Overlapping(owners, gpus) && gpus[k] in owners[id].gpus) == Holders(owners, gpus[k])
  {
    forall id | id in Holders(owners, gpus[k]) ensures id in Overlapping(owners, gpus) {
      assert gpus[k] in owners[id].gpus && gpus[k] in gpus;
    }
  }
}
