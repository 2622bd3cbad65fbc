/** Who owns which GPUs and ports, over every launch and every section of every worker. */
module Ownership {
  import opened Collections
  import opened Domain
  import Lifecycle
  import LifecycleLaws

  datatype Settings = Settings(portStart: int, portEnd: int, kvcached: bool,
                               maxWorkersPerGpu: nat, maxCachedWorkersPerGpu: nat)

  datatype Owner = Owner(profile: Profile, gpus: seq<Gpu>, port: int, state: RuntimeState)

  predicate Alive(owners: map<WorkerId, Owner>, id: WorkerId) {
    id in owners && !owners[id].state.Cold?
  }

  /** The workers on a GPU that are not cold. */
  function Holders(owners: map<WorkerId, Owner>, g: Gpu): set<WorkerId> {
    set id | id in owners && Alive(owners, id) && g in owners[id].gpus
  }

  function ResidentHolders(owners: map<WorkerId, Owner>, g: Gpu): set<WorkerId> {
    set id | id in owners && GpuResident(owners[id].state) && g in owners[id].gpus
  }

  function Overlapping(owners: map<WorkerId, Owner>, gpus: seq<Gpu>): set<WorkerId> {
    set id | id in owners && Alive(owners, id) && Overlaps(owners[id].gpus, gpus)
  }

  function UsedPorts(owners: map<WorkerId, Owner>): set<int> {
    set id | id in owners && Alive(owners, id) :: owners[id].port
  }

  /** The lowest port of the range that no worker uses. */
  function FirstFreePort(used: set<int>, port: int, last: int): (free: Option<int>)
    ensures free.Some? ==>
              port <= free.value <= last && free.value !in used && forall p :: port <= p < free.value ==> p in used
    ensures free.None? ==> forall p :: port <= p <= last ==> p in used
    decreases last - port
  {
    if port > last then None
    else if port !in used then Some(port)
    else FirstFreePort(used, port + 1, last)
  }

  predicate CanShare(c: Settings, owners: map<WorkerId, Owner>, p: Profile, gpus: seq<Gpu>) {
    && c.kvcached && Kvcached(p)
    && (forall id :: id in Overlapping(owners, gpus) ==> Kvcached(owners[id].profile))
    && (forall g :: g in gpus ==>
          |ResidentHolders(owners, g)| < c.maxWorkersPerGpu && |Holders(owners, g)| < c.maxCachedWorkersPerGpu)
  }

  datatype LaunchError = NotValidated | KvcachedOnly | GpusOwned | PortsExhausted

  /** The port a launch gets, or why it is refused; checks in the source's order. */
  function LaunchOutcome(c: Settings, owners: map<WorkerId, Owner>, p: Profile, gpus: seq<Gpu>)
    : Result<int, LaunchError>
  {
    if |gpus| != p.gpuCount || gpus !in p.eligibleGpuSets then Err(NotValidated)
    else if c.kvcached && !Kvcached(p) then Err(KvcachedOnly)
    else if Overlapping(owners, gpus) != {} && !CanShare(c, owners, p, gpus) then Err(GpusOwned)
    else
      match FirstFreePort(UsedPorts(owners), c.portStart, c.portEnd)
      case Some(port) => Ok(port)
      case None => Err(PortsExhausted)
  }

  // ---------- the invariant ----------

  ghost predicate DistinctPorts(c: Settings, owners: map<WorkerId, Owner>) {
    && (forall a :: Alive(owners, a) ==> c.portStart <= owners[a].port <= c.portEnd)
    && (forall a, b :: Alive(owners, a) && Alive(owners, b) && a != b ==> owners[a].port != owners[b].port)
  }

  ghost predicate ExclusiveGpus(owners: map<WorkerId, Owner>) {
    forall a, b :: Alive(owners, a) && Alive(owners, b) && a != b ==>
      !Overlaps(owners[a].gpus, owners[b].gpus)
  }

  ghost predicate BoundedGpus(c: Settings, owners: map<WorkerId, Owner>) {
    forall g :: |Holders(owners, g)| <= c.maxCachedWorkersPerGpu
  }

  /** Distinct ports in range; GPUs exclusive without kvcached and bounded with it. */
  ghost predicate OwnershipInv(c: Settings, owners: map<WorkerId, Owner>) {
    && DistinctPorts(c, owners)
    && (if c.kvcached then BoundedGpus(c, owners) else ExclusiveGpus(owners))
  }

  function AfterLaunch(owners: map<WorkerId, Owner>, id: WorkerId, p: Profile, gpus: seq<Gpu>, port: int)
    : map<WorkerId, Owner>
  {
    owners[id := Owner(p, gpus, port, Loading)]
  }

  lemma LaunchKeepsPorts(c: Settings, owners: map<WorkerId, Owner>, id: WorkerId, p: Profile,
                         gpus: seq<Gpu>)
    requires DistinctPorts(c, owners) && id !in owners && LaunchOutcome(c, owners, p, gpus).Ok?
    ensures DistinctPorts(c, AfterLaunch(owners, id, p, gpus, LaunchOutcome(c, owners, p, gpus).value))
  {
    var port := LaunchOutcome(c, owners, p, gpus).value;
    assert FirstFreePort(UsedPorts(owners), c.portStart, c.portEnd) == Some(port);
    forall a | Alive(owners, a) ensures owners[a].port != port {
      assert owners[a].port in UsedPorts(owners);
    }
  }

  lemma LaunchKeepsExclusive(c: Settings, owners: map<WorkerId, Owner>, id: WorkerId, p: Profile,
                             gpus: seq<Gpu>, port: int)
    requires ExclusiveGpus(owners) && !c.kvcached && id !in owners
    requires LaunchOutcome(c, owners, p, gpus).Ok?
    ensures ExclusiveGpus(AfterLaunch(owners, id, p, gpus, port))
  {
    assert Overlapping(owners, gpus) == {};
    forall a | Alive(owners, a)
      ensures !Overlaps(owners[a].gpus, gpus) && !Overlaps(gpus, owners[a].gpus)
    {
      assert a !in Overlapping(owners, gpus);
    }
  }

  lemma LaunchKeepsBounded(c: Settings, owners: map<WorkerId, Owner>, id: WorkerId, p: Profile,
                           gpus: seq<Gpu>, port: int, g: Gpu)
    requires BoundedGpus(c, owners) && c.kvcached && c.maxCachedWorkersPerGpu >= 1 && id !in owners
    requires LaunchOutcome(c, owners, p, gpus).Ok?
    ensures |Holders(AfterLaunch(owners, id, p, gpus, port), g)| <= c.maxCachedWorkersPerGpu
  {
    var before, after := Holders(owners, g), Holders(AfterLaunch(owners, id, p, gpus, port), g);
    if g in gpus {
      assert after == before + {id};
      if Overlapping(owners, gpus) == {} {
        forall a ensures a !in before {
          assert a in before ==> a in Overlapping(owners, gpus);
        }
        assert before == {};
      }
    } else {
      assert after == before;
    }
  }

  /** A launch that is not refused keeps ports distinct and GPUs within their owners' limits. */
  lemma LaunchKeepsOwnership(c: Settings, owners: map<WorkerId, Owner>, id: WorkerId, p: Profile,
                             gpus: seq<Gpu>)
    requires OwnershipInv(c, owners) && c.maxCachedWorkersPerGpu >= 1 && id !in owners
    requires LaunchOutcome(c, owners, p, gpus).Ok?
    ensures OwnershipInv(c, AfterLaunch(owners, id, p, gpus, LaunchOutcome(c, owners, p, gpus).value))
  {
    var port := LaunchOutcome(c, owners, p, gpus).value;
    LaunchKeepsPorts(c, owners, id, p, gpus);
    if c.kvcached {
      forall g ensures |Holders(AfterLaunch(owners, id, p, gpus, port), g)| <= c.maxCachedWorkersPerGpu {
        LaunchKeepsBounded(c, owners, id, p, gpus, port, g);
      }
    } else {
      LaunchKeepsExclusive(c, owners, id, p, gpus, port);
    }
  }

  // ---------- when a launch is accepted ----------

  ghost predicate PortIsFree(c: Settings, owners: map<WorkerId, Owner>, port: int) {
    c.portStart <= port <= c.portEnd && forall a :: Alive(owners, a) ==> owners[a].port != port
  }

  lemma PortFoundExactlyWhen(c: Settings, owners: map<WorkerId, Owner>)
    ensures FirstFreePort(UsedPorts(owners), c.portStart, c.portEnd).Some?
            <==> exists port :: PortIsFree(c, owners, port)
  {
    var found := FirstFreePort(UsedPorts(owners), c.portStart, c.portEnd);
    if found.Some? {
      forall a | Alive(owners, a) ensures owners[a].port != found.value {
        assert owners[a].port in UsedPorts(owners);
      }
      assert PortIsFree(c, owners, found.value);
    } else {
      forall port ensures !PortIsFree(c, owners, port) {
        if c.portStart <= port <= c.portEnd {
          assert port in UsedPorts(owners);
          var a :| a in owners && Alive(owners, a) && owners[a].port == port;
        }
      }
    }
  }

  /** No live worker is on the GPUs. */
  ghost predicate GpusAreFree(owners: map<WorkerId, Owner>, gpus: seq<Gpu>) {
    forall a, g :: Alive(owners, a) && g in owners[a].gpus ==> g !in gpus
  }

  /** All engines on the GPUs are kvcached, the new one too, and both population limits hold with it. */
  ghost predicate SharingIsBounded(c: Settings, owners: map<WorkerId, Owner>, id: WorkerId, p: Profile,
                                   gpus: seq<Gpu>)
  {
    && c.kvcached && Kvcached(p)
    && (forall a, g :: Alive(owners, a) && g in owners[a].gpus && g in gpus ==> Kvcached(owners[a].profile))
    && forall g :: g in gpus ==>
         && |ResidentHolders(AfterLaunch(owners, id, p, gpus, 0), g)| <= c.maxWorkersPerGpu
         && |Holders(AfterLaunch(owners, id, p, gpus, 0), g)| <= c.maxCachedWorkersPerGpu
  }

  lemma OneMoreElement<T>(before: set<T>, after: set<T>, x: T)
    requires after == before + {x} && x !in before
    ensures |after| == |before| + 1
  {
  }

  lemma OneMoreHolder(owners: map<WorkerId, Owner>, id: WorkerId, p: Profile, gpus: seq<Gpu>, g: Gpu)
    requires id !in owners && g in gpus
    ensures |Holders(AfterLaunch(owners, id, p, gpus, 0), g)| == |Holders(owners, g)| + 1
  {
    OneMoreElement(Holders(owners, g), Holders(AfterLaunch(owners, id, p, gpus, 0), g), id);
  }

  lemma OneMoreResident(owners: map<WorkerId, Owner>, id: WorkerId, p: Profile, gpus: seq<Gpu>, g: Gpu)
    requires id !in owners && g in gpus
    ensures |ResidentHolders(AfterLaunch(owners, id, p, gpus, 0), g)| == |ResidentHolders(owners, g)| + 1
  {
    OneMoreElement(ResidentHolders(owners, g), ResidentHolders(AfterLaunch(owners, id, p, gpus, 0), g), id);
  }

  lemma FreeExactlyWhenNoOverlap(owners: map<WorkerId, Owner>, gpus: seq<Gpu>)
    ensures Overlapping(owners, gpus) == {} <==> GpusAreFree(owners, gpus)
  {
    if GpusAreFree(owners, gpus) {
      forall a ensures a !in Overlapping(owners, gpus) {
      }
    } else {
      var a, g :| Alive(owners, a) && g in owners[a].gpus && g in gpus;
      assert a in Overlapping(owners, gpus);
    }
  }

  lemma SharesExactlyWhen(c: Settings, owners: map<WorkerId, Owner>, id: WorkerId, p: Profile, gpus: seq<Gpu>)
    requires id !in owners
    ensures CanShare(c, owners, p, gpus) <==> SharingIsBounded(c, owners, id, p, gpus)
  {
    forall g | g in gpus
      ensures |ResidentHolders(AfterLaunch(owners, id, p, gpus, 0), g)| == |ResidentHolders(owners, g)| + 1
      ensures |Holders(AfterLaunch(owners, id, p, gpus, 0), g)| == |Holders(owners, g)| + 1
    {
      OneMoreHolder(owners, id, p, gpus, g);
      OneMoreResident(owners, id, p, gpus, g);
    }
    assert (forall a :: a in Overlapping(owners, gpus) ==> Kvcached(owners[a].profile))
           <==> forall a, g :: Alive(owners, a) && g in owners[a].gpus && g in gpus ==> Kvcached(owners[a].profile);
  }

  /**
   * A launch is accepted exactly for a validated placement of an engine the runtime can run, on GPUs
   * that are free or stay within both population limits, while a port of the range is free.
   */
  lemma LaunchSucceedsExactlyWhen(c: Settings, owners: map<WorkerId, Owner>, id: WorkerId, p: Profile, gpus: seq<Gpu>)
    requires id !in owners
    ensures LaunchOutcome(c, owners, p, gpus).Ok?
            <==> && gpus in p.eligibleGpuSets && |gpus| == p.gpuCount && (c.kvcached ==> Kvcached(p))
                 && (GpusAreFree(owners, gpus) || SharingIsBounded(c, owners, id, p, gpus))
                 && exists port :: PortIsFree(c, owners, port)
  {
    PortFoundExactlyWhen(c, owners);
    FreeExactlyWhenNoOverlap(owners, gpus);
    SharesExactlyWhen(c, owners, id, p, gpus);
  }

  // ---------- runs ----------

  /** A launched worker with its whole lifecycle state. */
  datatype Resident = Resident(profile: Profile, gpus: seq<Gpu>, port: int, life: Lifecycle.Life)

  type World = map<WorkerId, Resident>

  function Owners(w: World): (owners: map<WorkerId, Owner>)
    ensures owners.Keys == w.Keys
  {
    map id | id in w :: Owner(w[id].profile, w[id].gpus, w[id].port, w[id].life.data.state)
  }

  ghost predicate LaunchStep(c: Settings, w: World, after: World, id: WorkerId, p: Profile, gpus: seq<Gpu>) {
    && id !in w && LaunchOutcome(c, Owners(w), p, gpus).Ok?
    && after == w[id := Resident(p, gpus, LaunchOutcome(c, Owners(w), p, gpus).value, Lifecycle.Launched)]
  }

  ghost predicate SectionStep(w: World, after: World, id: WorkerId, section: Lifecycle.Section) {
    && id in w && Lifecycle.Enabled(w[id].life, section)
    && after == w[id := w[id].(life := Lifecycle.Apply(w[id].life, section))]
  }

  ghost predicate Step(c: Settings, w: World, after: World) {
    || (exists id, p, gpus :: LaunchStep(c, w, after, id, p, gpus))
    || (exists id, section :: SectionStep(w, after, id, section))
  }

  ghost predicate Run(c: Settings, worlds: seq<World>) {
    && worlds != [] && worlds[0] == map[]
    && forall i :: 0 <= i < |worlds| - 1 ==> Step(c, worlds[i], worlds[i + 1])
  }

  ghost predicate WorldInv(c: Settings, w: World) {
    OwnershipInv(c, Owners(w)) && forall id :: id in w ==> Lifecycle.LifeInv(w[id].life)
  }

  /** A worker that stays cold if it was cold leaves no GPU with more holders than before. */
  lemma FewerHolders(owners: map<WorkerId, Owner>, id: WorkerId, state: RuntimeState, g: Gpu)
    requires id in owners && (owners[id].state.Cold? ==> state.Cold?)
    ensures |Holders(owners[id := owners[id].(state := state)], g)| <= |Holders(owners, g)|
  {
    var after := owners[id := owners[id].(state := state)];
    SubsetSize(Holders(after, g), Holders(owners, g));
  }

  lemma ColderKeepsOwnership(c: Settings, owners: map<WorkerId, Owner>, id: WorkerId, state: RuntimeState)
    requires OwnershipInv(c, owners) && id in owners && (owners[id].state.Cold? ==> state.Cold?)
    ensures OwnershipInv(c, owners[id := owners[id].(state := state)])
  {
    var after := owners[id := owners[id].(state := state)];
    forall a | Alive(after, a)
      ensures Alive(owners, a) && after[a].port == owners[a].port && after[a].gpus == owners[a].gpus
    {
    }
    if c.kvcached {
      forall g ensures |Holders(after, g)| <= c.maxCachedWorkersPerGpu {
        FewerHolders(owners, id, state, g);
      }
    }
  }

  lemma LaunchKeepsWorldInv(c: Settings, w: World, after: World, id: WorkerId, p: Profile, gpus: seq<Gpu>)
    requires WorldInv(c, w) && c.maxCachedWorkersPerGpu >= 1 && LaunchStep(c, w, after, id, p, gpus)
    ensures WorldInv(c, after)
  {
    LaunchKeepsOwnership(c, Owners(w), id, p, gpus);
    assert Owners(after) == AfterLaunch(Owners(w), id, p, gpus, LaunchOutcome(c, Owners(w), p, gpus).value);
  }

  lemma SectionKeepsWorldInv(c: Settings, w: World, after: World, id: WorkerId, section: Lifecycle.Section)
    requires WorldInv(c, w) && SectionStep(w, after, id, section)
    ensures WorldInv(c, after)
  {
    Lifecycle.StepKeepsLifeInv(w[id].life, section);
    LifecycleLaws.StateChanges(w[id].life, section);
    var state := after[id].life.data.state;
    ColderKeepsOwnership(c, Owners(w), id, state);
    assert Owners(after) == Owners(w)[id := Owners(w)[id].(state := state)];
  }

  lemma StepKeepsWorldInv(c: Settings, w: World, after: World)
    requires WorldInv(c, w) && c.maxCachedWorkersPerGpu >= 1 && Step(c, w, after)
    ensures WorldInv(c, after)
  {
    if id, p, gpus :| LaunchStep(c, w, after, id, p, gpus) {
      LaunchKeepsWorldInv(c, w, after, id, p, gpus);
    } else {
      var id, section :| SectionStep(w, after, id, section);
      SectionKeepsWorldInv(c, w, after, id, section);
    }
  }

  /** From no workers at all, every run keeps every worker's lifecycle and the ownership of ports and GPUs. */
  lemma {:induction false} OwnershipSafety(c: Settings, worlds: seq<World>, i: nat)
    requires Run(c, worlds) && i < |worlds| && c.maxCachedWorkersPerGpu >= 1
    ensures WorldInv(c, worlds[i])
  {
    if i == 0 {
      assert forall g :: Holders(map[], g) == {};
      assert Owners(worlds[0]) == map[];
    } else {
      OwnershipSafety(c, worlds, i - 1);
      assert Step(c, worlds[i - 1], worlds[i - 1 + 1]);
      StepKeepsWorldInv(c, worlds[i - 1], worlds[i]);
    }
  }
}
