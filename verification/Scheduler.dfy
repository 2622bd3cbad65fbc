/** The scheduler's own records, changed in place: leases by request id and GPUs lent to validation. */
module Scheduler {
  import opened Collections
  import opened Domain
  import opened Lifecycle
  import opened Ownership
  import opened Validation

  datatype Lease = Lease(worker: WorkerId, tokens: nat)

  datatype ServiceMode = Active | Draining | MaintenanceReady

  class ResidencyScheduler {
    const validationIdleWindow: Time
    var maintenanceRequested: bool
    var requestLeases: map<RequestId, Lease>
    var validationGpus: set<Gpu>
    /** Which acquisition holds which GPUs; the source only keeps their union. */
    ghost var taken: map<int, Acquisition>

    ghost predicate Valid()
      reads this
    {
      validationGpus == UnionOf(taken)
    }

    ghost function State(world: World, demand: bool): Handoff
      reads this
    {
      Handoff(world, taken, demand)
    }

    constructor (validationIdleWindow: Time)
      ensures Valid() && requestLeases == map[] && taken == map[]
      ensures this.validationIdleWindow == validationIdleWindow && !maintenanceRequested
    {
      this.validationIdleWindow, maintenanceRequested := validationIdleWindow, false;
      requestLeases, validationGpus, taken := map[], {}, map[];
    }

    /** The service runs, no maintenance is asked for, and the last arrival is long enough ago. */
    predicate QuietEnough(mode: ServiceMode, idleFor: Time)
      reads this
    {
      mode.Active? && !maintenanceRequested && idleFor >= validationIdleWindow
    }

    /** Take a lease off the record; only the first caller gets it and goes on to the supervisor. */
    method PopLease(id: RequestId) returns (lease: Option<Lease>)
      modifies this`requestLeases
      ensures lease == if id in old(requestLeases) then Some(old(requestLeases)[id]) else None
      ensures requestLeases == old(requestLeases) - {id}
    {
      if id !in requestLeases {
        return None;
      }
      lease := Some(requestLeases[id]);
      requestLeases := requestLeases - {id};
    }

    /** The first locked check of an acquisition: the workers to free, or a refusal. */
    method TakeGpus(world: World, mode: ServiceMode, demand: bool, idleFor: Time, gpus: seq<Gpu>, ghost a: int)
      returns (workerIds: Option<set<WorkerId>>)
      requires Valid() && a !in taken
      modifies this`validationGpus, this`taken
      ensures Valid()
      ensures State(world, demand)
              == if MayTake(old(State(world, demand)), gpus, QuietEnough(mode, idleFor))
                 then old(State(world, demand))
                      .(taken := old(taken)[a := Acquisition(gpus, OverlappingIds(world, gpus), false)])
                 else old(State(world, demand))
      ensures workerIds.Some? <==> MayTake(old(State(world, demand)), gpus, QuietEnough(mode, idleFor))
      ensures workerIds.Some? ==> workerIds.value == OverlappingIds(world, gpus)
      ensures workerIds.Some? ==> mode == Active && !maintenanceRequested && idleFor >= validationIdleWindow && !demand
    {
      var overlapping := OverlappingIds(world, gpus);
      if mode != Active || maintenanceRequested || demand || idleFor < validationIdleWindow
         || (exists g :: g in gpus && g in validationGpus)
         || (exists id :: id in overlapping && world[id].life.data.admitted != {})
         || (exists id :: id in overlapping && world[id].life.data.state !in {Ready, Sleeping})
      {
        return None;
      }
      ghost var before := taken;
      validationGpus := validationGpus + (set g | g in gpus);
      taken := taken[a := Acquisition(gpus, overlapping, false)];
      UnionAfterTaking(before, a, taken[a]);
      return Some(overlapping);
    }

    /** The second locked check: keep the GPUs, or give back exactly what was taken. */
    method SettleGpus(world: World, demand: bool, failures: bool, gpus: seq<Gpu>,
                      workerIds: set<WorkerId>, ghost a: int)
      returns (granted: bool)
      requires Valid() && DisjointHolds(State(world, demand))
      requires a in taken && taken[a] == Acquisition(gpus, workerIds, false)
      modifies this`validationGpus, this`taken
      ensures Valid()
      ensures granted <==> MayGrant(old(State(world, demand)), a, failures)
      ensures taken == if granted then old(taken)[a := old(taken)[a].(granted := true)] else old(taken) - {a}
    {
      var unresolved := exists id :: id in workerIds && id in world
                                     && world[id].life.data.state !in {Cold, Sleeping};
      granted := !failures && !unresolved && !demand;
      ghost var before := State(world, demand);
      if granted {
        taken := taken[a := taken[a].(granted := true)];
        UnionAfterGranting(before.taken, a);
      } else {
        validationGpus := validationGpus - (set g | g in gpus);
        taken := taken - {a};
        UnionAfterGivingBack(before, a);
      }
    }

    method GiveBackGpus(gpus: seq<Gpu>, ghost a: int)
      requires Valid() && DisjointHolds(State(map[], false)) && a in taken && taken[a].gpus == gpus
      modifies this`validationGpus, this`taken
      ensures Valid() && taken == old(taken) - {a}
    {
      UnionAfterGivingBack(State(map[], false), a);
      validationGpus := validationGpus - (set g | g in gpus);
      taken := taken - {a};
    }
  }

  lemma UnionAfterTaking(taken: map<int, Acquisition>, a: int, acquisition: Acquisition)
    requires a !in taken
    ensures UnionOf(taken[a := acquisition]) == UnionOf(taken) + (set g | g in acquisition.gpus)
  {
    var after := taken[a := acquisition];
    forall g ensures g in UnionOf(after) <==> g in UnionOf(taken) || g in acquisition.gpus {
      if g in UnionOf(taken) {
        var b :| b in taken && g in taken[b].gpus;
        assert b in after && g in after[b].gpus;
      }
      if g in acquisition.gpus {
        assert a in after && g in after[a].gpus;
      }
    }
  }

  lemma UnionAfterGranting(taken: map<int, Acquisition>, a: int)
    requires a in taken
    ensures UnionOf(taken[a := taken[a].(granted := true)]) == UnionOf(taken)
  {
    var after := taken[a := taken[a].(granted := true)];
    forall g ensures g in UnionOf(after) <==> g in UnionOf(taken) {
      if g in UnionOf(taken) {
        var b :| b in taken && g in taken[b].gpus;
        assert b in after && g in after[b].gpus;
      }
      if g in UnionOf(after) {
        var b :| b in after && g in after[b].gpus;
        assert b in taken && g in taken[b].gpus;
      }
    }
  }

  /** With disjoint holds, taking the acquisition's GPUs out of the union leaves the others' union. */
  lemma UnionAfterGivingBack(h: Handoff, a: int)
    requires DisjointHolds(h) && a in h.taken
    ensures UnionOf(h.taken - {a}) == UnionOf(h.taken) - (set g | g in h.taken[a].gpus)
  {
    var after := h.taken - {a};
    forall g ensures g in UnionOf(after) <==> g in UnionOf(h.taken) && g !in h.taken[a].gpus {
      if g in UnionOf(h.taken) {
        var b :| b in h.taken && g in h.taken[b].gpus;
        assert HeldBy(h, b, g);
        assert b != a ==> b in after && g in after[b].gpus;
        assert g in h.taken[a].gpus ==> HeldBy(h, a, g);
      }
      if g in UnionOf(after) {
        var b :| b in after && g in after[b].gpus;
        assert HeldBy(h, b, g);
        assert g in h.taken[a].gpus ==> HeldBy(h, a, g);
      }
    }
  }
}
