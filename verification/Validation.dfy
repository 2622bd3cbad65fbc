/**
 * Lending GPUs to model validation: acquisitions are decided in two sections under the scheduler's
 * state lock, while launches, wake approvals and every worker's own sections go on around them.
 */
module Validation {
  import opened Collections
  import opened Domain
  import opened Lifecycle
  import opened LifecycleLaws
  import opened Ownership

  // ---------- when a sleeping worker is certain to stay off its GPUs ----------

  /** Sections during which nobody asks for the worker to be woken. */
  ghost predicate Unwoken(steps: seq<Section>) {
    forall step :: step in steps ==> step != Ask(WakeUp)
  }

  predicate OffItsGpus(l: Life) {
    l.data.state.Cold? || l.offGpu
  }

  ghost predicate StaysOff(l: Life) {
    forall steps :: Unwoken(steps) && LifeAfter(l, steps).Some? ==> OffItsGpus(LifeAfter(l, steps).value)
  }

  /** A wake already asked for is next in line for the transition lock, or behind offloads only. */
  predicate CanStillWake(l: Life) {
    l.data.state.Sleeping? && WakeAhead(Line(l))
  }

  /** Out of a wake's reach: cold or stopping, or off the GPUs with no wake ahead of every stop. */
  predicate OutOfReach(l: Life) {
    || l.data.state.Cold?
    || (l.offGpu && l.data.state.Stopping?)
    || (l.offGpu && l.data.admitted == {} && l.data.state in {Sleeping, Draining, Offloading} && !WakeAhead(Line(l)))
  }

  lemma StaysOutOfReach(l: Life, step: Section)
    requires LifeInv(l) && Enabled(l, step) && step != Ask(WakeUp) && OutOfReach(l)
    ensures OutOfReach(Apply(l, step))
  {
    LineAfter(l, step);
    if !step.Begin? {
      AppendedBringsNoWake(l, step);
    }
  }

  lemma {:induction false} OutOfReachStaysOff(l: Life, steps: seq<Section>)
    requires LifeInv(l) && OutOfReach(l) && Unwoken(steps) && LifeAfter(l, steps).Some?
    ensures OffItsGpus(LifeAfter(l, steps).value)
    decreases |steps|
  {
    if steps != [] {
      assert steps[0] in steps && forall step :: step in steps[1..] ==> step in steps;
      StaysOutOfReach(l, steps[0]);
      StepKeepsLifeInv(l, steps[0]);
      OutOfReachStaysOff(Apply(l, steps[0]), steps[1..]);
    }
  }

  /** A sleeping worker passes over the offloads in line and begins the wake behind them. */
  lemma TowardsTheWake(l: Life)
    requires LifeInv(l) && CanStillWake(l)
    ensures !LockIdle(l)
    ensures var after := Apply(l, NextLockStep(l)); CanStillWake(after) || !OffItsGpus(after)
  {
    LineAfter(l, NextLockStep(l));
    assert Line(l) + [] == Line(l);
  }

  /** The lock's own sections bring the worker back to its GPUs. */
  lemma {:induction false} CanStillWakeReturns(l: Life) returns (steps: seq<Section>)
    requires LifeInv(l) && CanStillWake(l)
    ensures Unwoken(steps) && LifeAfter(l, steps).Some? && !OffItsGpus(LifeAfter(l, steps).value)
    decreases Backlog(l)
  {
    TowardsTheWake(l);
    var step, rest := NextLockStep(l), [];
    StepKeepsLifeInv(l, step);
    if CanStillWake(Apply(l, step)) {
      rest := CanStillWakeReturns(Apply(l, step));
    }
    LifeAfterOne(l, step, rest);
    steps := [step] + rest;
  }

  /**
   * A sleeping worker stays off its GPUs while no wake is asked for exactly when no wake asked for
   * earlier can still get its transition lock.
   */
  lemma SleeperStaysOffExactlyWhen(l: Life)
    requires LifeInv(l) && l.data.state.Sleeping?
    ensures StaysOff(l) <==> !CanStillWake(l)
  {
    if CanStillWake(l) {
      var steps := CanStillWakeReturns(l);
    } else {
      forall steps | Unwoken(steps) && LifeAfter(l, steps).Some?
        ensures OffItsGpus(LifeAfter(l, steps).value)
      {
        OutOfReachStaysOff(l, steps);
      }
    }
  }

  // ---------- the scheduler's side ----------

  /** GPUs taken by one acquisition, and the workers it found there; `granted` after both checks. */
  datatype Acquisition = Acquisition(gpus: seq<Gpu>, workerIds: set<WorkerId>, granted: bool)

  datatype Handoff = Handoff(world: World, taken: map<int, Acquisition>, demand: bool)

  predicate HeldBy(h: Handoff, a: int, g: Gpu) {
    a in h.taken && g in h.taken[a].gpus
  }

  /** The source's `_validation_gpu_uuids`: the union of everything taken. */
  function HeldGpus(h: Handoff): set<Gpu> {
    UnionOf(h.taken)
  }

  function UnionOf(taken: map<int, Acquisition>): set<Gpu> {
    set a, g | a in taken && g in taken[a].gpus :: g
  }

  predicate AvoidsHeld(h: Handoff, gpus: seq<Gpu>) {
    forall g :: g in gpus ==> g !in HeldGpus(h)
  }

  function OverlappingIds(w: World, gpus: seq<Gpu>): set<WorkerId> {
    set id | id in w && !w[id].life.data.state.Cold? && Overlaps(w[id].gpus, gpus)
  }

  /** The first check: `quiet` stands for the service mode, the maintenance flag and the idle window. */
  predicate MayTake(h: Handoff, gpus: seq<Gpu>, quiet: bool) {
    && quiet && !h.demand && AvoidsHeld(h, gpus)
    && forall id :: id in OverlappingIds(h.world, gpus) ==>
         h.world[id].life.data.admitted == {} && h.world[id].life.data.state in {Ready, Sleeping}
  }

  /** The second check, over the workers found at the first. */
  predicate MayGrant(h: Handoff, a: int, failures: bool)
    requires a in h.taken
  {
    && !failures && !h.demand
    && forall id :: id in h.taken[a].workerIds && id in h.world ==>
         h.world[id].life.data.state in {Cold, Sleeping}
  }

  datatype Move =
    | Take(a: int, gpus: seq<Gpu>, quiet: bool)
    | Settle(a: int, failures: bool)
    | GiveBack(a: int)
    | Launch(id: WorkerId, profile: Profile, gpus: seq<Gpu>)
    | Work(id: WorkerId, section: Section)
    | DemandIs(demand: bool)

  predicate Possible(c: Settings, h: Handoff, m: Move) {
    match m
    case Take(a, _, _) => a !in h.taken
    case Settle(a, _) => a in h.taken && !h.taken[a].granted
    case GiveBack(a) => a in h.taken && h.taken[a].granted
    case Launch(id, p, gpus) => id !in h.world && LaunchOutcome(c, Owners(h.world), p, gpus).Ok?
    case Work(id, section) =>
      id in h.world && Enabled(h.world[id].life, section)
      && (section == Ask(WakeUp) ==> AvoidsHeld(h, h.world[id].gpus))
    case DemandIs(_) => true
  }

  /** A refused acquisition, grant or launch leaves everything else as it was. */
  function AfterMove(c: Settings, h: Handoff, m: Move): Handoff
    requires Possible(c, h, m)
  {
    match m
    case Take(a, gpus, quiet) =>
      if MayTake(h, gpus, quiet)
      then h.(taken := h.taken[a := Acquisition(gpus, OverlappingIds(h.world, gpus), false)])
      else h
    case Settle(a, failures) =>
      if MayGrant(h, a, failures) then h.(taken := h.taken[a := h.taken[a].(granted := true)])
      else h.(taken := h.taken - {a})
    case GiveBack(a) => h.(taken := h.taken - {a})
    case Launch(id, p, gpus) =>
      if AvoidsHeld(h, gpus)
      then h.(world := h.world[id := Resident(p, gpus, LaunchOutcome(c, Owners(h.world), p, gpus).value, Launched)])
      else h
    case Work(id, section) =>
      h.(world := h.world[id := h.world[id].(life := Apply(h.world[id].life, section))])
    case DemandIs(demand) => h.(demand := demand)
  }

  // ---------- invariants ----------

  ghost predicate DisjointHolds(h: Handoff) {
    forall a, b, g :: HeldBy(h, a, g) && HeldBy(h, b, g) ==> a == b
  }

  /** A live worker on GPUs that this acquisition holds. */
  predicate Tenant(h: Handoff, a: int, id: WorkerId) {
    a in h.taken && id in OverlappingIds(h.world, h.taken[a].gpus)
  }

  /** Whoever is alive on taken GPUs was found there when they were taken, and is not loading. */
  ghost predicate KnownTenants(h: Handoff) {
    forall a, id :: Tenant(h, a, id) ==>
      id in h.taken[a].workerIds && !h.world[id].life.data.state.Loading?
  }

  ghost predicate AllLives(w: World) {
    forall id :: id in w ==> LifeInv(w[id].life)
  }

  ghost predicate HandoffInv(h: Handoff) {
    DisjointHolds(h) && KnownTenants(h) && AllLives(h.world)
  }

  lemma HeldIsUnion(h: Handoff, g: Gpu)
    ensures g in HeldGpus(h) <==> exists a :: HeldBy(h, a, g)
  {
    if g in HeldGpus(h) {
      var a :| a in h.taken && g in h.taken[a].gpus;
      assert HeldBy(h, a, g);
    }
  }

  lemma AvoidingIsDisjoint(h: Handoff, gpus: seq<Gpu>, a: int)
    requires AvoidsHeld(h, gpus) && a in h.taken
    ensures !Overlaps(gpus, h.taken[a].gpus)
  {
    forall g | g in gpus ensures g !in h.taken[a].gpus {
      assert g !in HeldGpus(h);
    }
  }

  lemma TakeKeepsInv(c: Settings, h: Handoff, m: Move)
    requires HandoffInv(h) && m.Take? && Possible(c, h, m)
    ensures HandoffInv(AfterMove(c, h, m))
  {
    var after := AfterMove(c, h, m);
    if MayTake(h, m.gpus, m.quiet) {
      forall a, b, g | HeldBy(after, a, g) && HeldBy(after, b, g) ensures a == b {
        HeldIsUnion(h, g);
        assert a != m.a ==> HeldBy(h, a, g);
        assert b != m.a ==> HeldBy(h, b, g);
      }
    }
  }

  lemma LaunchKeepsInv(c: Settings, h: Handoff, m: Move)
    requires HandoffInv(h) && m.Launch? && Possible(c, h, m)
    ensures HandoffInv(AfterMove(c, h, m))
  {
    var after := AfterMove(c, h, m);
    forall a, b, g | HeldBy(after, a, g) && HeldBy(after, b, g) ensures a == b {
      assert HeldBy(h, a, g) && HeldBy(h, b, g);
    }
    forall a, id | Tenant(after, a, id)
      ensures id in after.taken[a].workerIds && !after.world[id].life.data.state.Loading?
    {
      if AvoidsHeld(h, m.gpus) {
        AvoidingIsDisjoint(h, m.gpus, a);
      }
      assert Tenant(h, a, id);
    }
  }

  lemma WorkKeepsInv(c: Settings, h: Handoff, m: Move)
    requires HandoffInv(h) && m.Work? && Possible(c, h, m)
    ensures HandoffInv(AfterMove(c, h, m))
  {
    var after := AfterMove(c, h, m);
    StepKeepsLifeInv(h.world[m.id].life, m.section);
    StateChanges(h.world[m.id].life, m.section);
    forall a, b, g | HeldBy(after, a, g) && HeldBy(after, b, g) ensures a == b {
      assert HeldBy(h, a, g) && HeldBy(h, b, g);
    }
    forall a, id | Tenant(after, a, id)
      ensures id in after.taken[a].workerIds && !after.world[id].life.data.state.Loading?
    {
      assert Tenant(h, a, id);
    }
  }

  /** Forgetting or granting acquisitions keeps what is known about the others. */
  lemma FewerHolds(h: Handoff, after: Handoff)
    requires HandoffInv(h) && after.world == h.world
    requires forall a :: a in after.taken ==>
               a in h.taken && after.taken[a].gpus == h.taken[a].gpus
               && after.taken[a].workerIds == h.taken[a].workerIds
    ensures HandoffInv(after)
  {
    forall a, b, g | HeldBy(after, a, g) && HeldBy(after, b, g) ensures a == b {
      assert HeldBy(h, a, g) && HeldBy(h, b, g);
    }
    forall a, id | Tenant(after, a, id)
      ensures id in after.taken[a].workerIds && !after.world[id].life.data.state.Loading?
    {
      assert Tenant(h, a, id);
    }
  }

  /** Every move keeps concurrent acquisitions disjoint and their tenants known. */
  lemma MoveKeepsInv(c: Settings, h: Handoff, m: Move)
    requires HandoffInv(h) && Possible(c, h, m)
    ensures HandoffInv(AfterMove(c, h, m))
  {
    match m
    case Take(_, _, _) => TakeKeepsInv(c, h, m);
    case Launch(_, _, _) => LaunchKeepsInv(c, h, m);
    case Work(_, _) => WorkKeepsInv(c, h, m);
    case _ => FewerHolds(h, AfterMove(c, h, m));
  }

  /** The state after these moves, or `None` when one of them is not possible. */
  function AfterMoves(c: Settings, h: Handoff, moves: seq<Move>): Option<Handoff>
    decreases |moves|
  {
    if moves == [] then Some(h)
    else if !Possible(c, h, moves[0]) then None
    else AfterMoves(c, AfterMove(c, h, moves[0]), moves[1..])
  }

  const Idle := Handoff(map[], map[], false)

  lemma {:induction false} MovesKeepInv(c: Settings, h: Handoff, moves: seq<Move>)
    requires HandoffInv(h) && AfterMoves(c, h, moves).Some?
    ensures HandoffInv(AfterMoves(c, h, moves).value)
    decreases |moves|
  {
    if moves != [] {
      MoveKeepsInv(c, h, moves[0]);
      MovesKeepInv(c, AfterMove(c, h, moves[0]), moves[1..]);
    }
  }

  /** From a host without workers or acquisitions, no GPU is ever taken twice at the same time. */
  lemma {:induction false} AcquisitionsAreDisjoint(c: Settings, moves: seq<Move>, a: int, b: int)
    requires AfterMoves(c, Idle, moves).Some?
    requires var h := AfterMoves(c, Idle, moves).value; a in h.taken && b in h.taken && a != b
    ensures var h := AfterMoves(c, Idle, moves).value; !Overlaps(h.taken[a].gpus, h.taken[b].gpus)
  {
    MovesKeepInv(c, Idle, moves);
    var h := AfterMoves(c, Idle, moves).value;
    forall g | g in h.taken[a].gpus ensures g !in h.taken[b].gpus {
      assert HeldBy(h, a, g) && (g in h.taken[b].gpus ==> HeldBy(h, b, g));
    }
  }

  // ---------- when GPUs can be taken ----------

  /** A live worker on these GPUs. */
  ghost predicate OnGpus(h: Handoff, id: WorkerId, gpus: seq<Gpu>) {
    id in h.world && !h.world[id].life.data.state.Cold? && exists g :: g in h.world[id].gpus && g in gpus
  }

  /**
   * An acquisition gets its GPUs exactly when the service is quiet and nobody waits for a model, no other
   * acquisition holds one of them, and every live worker on them is ready or asleep and serves nothing.
   */
  lemma TakesExactlyWhen(c: Settings, h: Handoff, m: Move)
    requires Possible(c, h, m) && m.Take?
    ensures m.a in AfterMove(c, h, m).taken
            <==> && m.quiet && !h.demand
                 && (forall b, g :: HeldBy(h, b, g) ==> g !in m.gpus)
                 && forall id :: OnGpus(h, id, m.gpus) ==>
                      h.world[id].life.data.admitted == {}
                      && (h.world[id].life.data.state.Ready? || h.world[id].life.data.state.Sleeping?)
    ensures m.a !in AfterMove(c, h, m).taken ==> AfterMove(c, h, m) == h
  {
    forall g ensures g in HeldGpus(h) <==> exists b :: HeldBy(h, b, g) {
      HeldIsUnion(h, g);
    }
    forall id ensures id in OverlappingIds(h.world, m.gpus) <==> OnGpus(h, id, m.gpus) {
    }
  }

  /** The second check passes exactly when freeing went well, nobody waits, and all found there sleep or are cold. */
  lemma GrantsExactlyWhen(c: Settings, h: Handoff, m: Move)
    requires Possible(c, h, m) && m.Settle?
    ensures var after := AfterMove(c, h, m);
            && (m.a in after.taken
                <==> && !m.failures && !h.demand
                     && forall id :: id in h.taken[m.a].workerIds && id in h.world ==>
                          h.world[id].life.data.state.Cold? || h.world[id].life.data.state.Sleeping?)
            && (m.a in after.taken ==>
                  after.taken[m.a].granted && after.taken[m.a].gpus == h.taken[m.a].gpus)
            && after.world == h.world && after.taken - {m.a} == h.taken - {m.a}
  {
  }

  // ---------- the hand-off ----------

  /** At the moment of a grant, all live tenants of the GPUs sleep and nobody waits for a model. */
  lemma GrantMeansIdle(c: Settings, h: Handoff, a: int, failures: bool)
    requires HandoffInv(h) && Possible(c, h, Settle(a, failures))
    ensures var after := AfterMove(c, h, Settle(a, failures));
            a in after.taken ==>
              && after.taken[a].granted && !after.demand
              && forall id :: id in OverlappingIds(after.world, after.taken[a].gpus) ==>
                   after.world[id].life.data.state.Sleeping?
  {
    forall id | MayGrant(h, a, failures) && id in OverlappingIds(h.world, h.taken[a].gpus)
      ensures h.world[id].life.data.state.Sleeping?
    {
      assert Tenant(h, a, id);
    }
  }

  /** A refused or finished acquisition gives back exactly its own GPUs. */
  lemma GivesBackWhatItTook(c: Settings, h: Handoff, m: Move, g: Gpu)
    requires HandoffInv(h) && Possible(c, h, m)
    requires (m.Settle? && !MayGrant(h, m.a, m.failures)) || m.GiveBack?
    ensures g in HeldGpus(AfterMove(c, h, m)) <==> g in HeldGpus(h) && g !in h.taken[m.a].gpus
  {
    var after := AfterMove(c, h, m);
    HeldIsUnion(h, g);
    HeldIsUnion(after, g);
    forall b ensures HeldBy(after, b, g) <==> HeldBy(h, b, g) && b != m.a {
    }
    assert g in h.taken[m.a].gpus <==> HeldBy(h, m.a, g);
  }

  /** All live tenants of the acquisition are out of a wake's reach. */
  ghost predicate TenantsOff(h: Handoff, a: int) {
    a in h.taken ==>
      forall id :: id in OverlappingIds(h.world, h.taken[a].gpus) ==> OutOfReach(h.world[id].life)
  }

  /** Until the GPUs are given back, tenants that are out of reach stay off them and none arrives. */
  lemma TenantsStayOff(c: Settings, h: Handoff, a: int, m: Move)
    requires HandoffInv(h) && Possible(c, h, m) && a in h.taken && h.taken[a].granted && TenantsOff(h, a)
    requires m != GiveBack(a)
    ensures var after := AfterMove(c, h, m);
            a in after.taken && after.taken[a] == h.taken[a] && TenantsOff(after, a)
  {
    var after := AfterMove(c, h, m);
    forall id | id in OverlappingIds(after.world, h.taken[a].gpus) ensures OutOfReach(after.world[id].life) {
      if m.Launch? && AvoidsHeld(h, m.gpus) {
        AvoidingIsDisjoint(h, m.gpus, a);
      }
      if m.Work? && m.id == id {
        StateChanges(h.world[id].life, m.section);
        TenantIsNotWoken(c, h, a, m);
        StaysOutOfReach(h.world[id].life, m.section);
      } else {
        assert id in OverlappingIds(h.world, h.taken[a].gpus);
      }
    }
  }

  /** The same over any run in which the GPUs are not given back. */
  lemma {:induction false} TenantsStayOffThroughout(c: Settings, h: Handoff, a: int, moves: seq<Move>)
    requires HandoffInv(h) && a in h.taken && h.taken[a].granted && TenantsOff(h, a)
    requires AfterMoves(c, h, moves).Some? && GiveBack(a) !in moves
    ensures var after := AfterMoves(c, h, moves).value;
            && a in after.taken && after.taken[a] == h.taken[a]
            && forall id :: id in OverlappingIds(after.world, h.taken[a].gpus) ==> after.world[id].life.offGpu
    decreases |moves|
  {
    if moves != [] {
      TenantsStayOff(c, h, a, moves[0]);
      MoveKeepsInv(c, h, moves[0]);
      TenantsStayOffThroughout(c, AfterMove(c, h, moves[0]), a, moves[1..]);
    }
  }

  /** While GPUs are taken, no wake is asked for a worker on them. */
  lemma TenantIsNotWoken(c: Settings, h: Handoff, a: int, m: Move)
    requires Possible(c, h, m) && m.Work? && a in h.taken && Overlaps(h.world[m.id].gpus, h.taken[a].gpus)
    ensures m.section != Ask(WakeUp)
  {
    if AvoidsHeld(h, h.world[m.id].gpus) {
      AvoidingIsDisjoint(h, h.world[m.id].gpus, a);
    }
  }

  // ---------- when a grant is safe ----------

  /** Whoever is alive on the acquisition's GPUs has its weights off them. */
  ghost predicate TenantsAreOff(h: Handoff, a: int) {
    forall id :: Tenant(h, a, id) ==> h.world[id].life.offGpu
  }

  /** Until the GPUs are given back, whatever moves are made, no tenant returns to them. */
  ghost predicate SafeUntilGivenBack(c: Settings, h: Handoff, a: int) {
    forall moves :: AfterMoves(c, h, moves).Some? && GiveBack(a) !in moves ==>
      TenantsAreOff(AfterMoves(c, h, moves).value, a)
  }

  /** A worker's sections as moves of the host. */
  function WorkOf(id: WorkerId, steps: seq<Section>): seq<Move> {
    seq(|steps|, k requires 0 <= k < |steps| => Work(id, steps[k]))
  }

  lemma WorkOfOne(id: WorkerId, steps: seq<Section>)
    requires steps != []
    ensures WorkOf(id, steps) == [Work(id, steps[0])] + WorkOf(id, steps[1..])
  {
  }

  /** What a worker can do by itself without asking for a wake, it can do as part of the host. */
  lemma {:induction false} WorkLifts(c: Settings, h: Handoff, id: WorkerId, steps: seq<Section>)
    requires id in h.world && LifeAfter(h.world[id].life, steps).Some? && Unwoken(steps)
    ensures var after := AfterMoves(c, h, WorkOf(id, steps));
            && after.Some? && after.value.taken == h.taken && after.value.demand == h.demand
            && after.value.world == h.world[id := h.world[id].(life := LifeAfter(h.world[id].life, steps).value)]
    decreases |steps|
  {
    if steps == [] {
      assert h.world[id := h.world[id].(life := h.world[id].life)] == h.world;
    } else {
      assert steps[0] in steps && forall step :: step in steps[1..] ==> step in steps;
      WorkOfOne(id, steps);
      var m := Work(id, steps[0]);
      WorkLifts(c, AfterMove(c, h, m), id, steps[1..]);
      assert ([m] + WorkOf(id, steps[1..]))[1..] == WorkOf(id, steps[1..]);
    }
  }

  lemma WakeableTenantReturns(c: Settings, h: Handoff, a: int, id: WorkerId) returns (moves: seq<Move>)
    requires HandoffInv(h) && Tenant(h, a, id) && CanStillWake(h.world[id].life)
    ensures AfterMoves(c, h, moves).Some? && GiveBack(a) !in moves
    ensures !TenantsAreOff(AfterMoves(c, h, moves).value, a)
  {
    var steps := CanStillWakeReturns(h.world[id].life);
    moves := WorkOf(id, steps);
    WorkLifts(c, h, id, steps);
    assert Tenant(AfterMoves(c, h, moves).value, a, id);
  }

  /**
   * A grant is safe, in that no tenant returns to the GPUs before they are given back, exactly when
   * no tenant has a wake in line ahead of every stop at the moment of the grant.
   */
  lemma GrantIsSafeExactlyWhen(c: Settings, h: Handoff, a: int, failures: bool)
    requires HandoffInv(h) && Possible(c, h, Settle(a, failures)) && MayGrant(h, a, failures)
    ensures SafeUntilGivenBack(c, AfterMove(c, h, Settle(a, failures)), a)
            <==> forall id :: Tenant(h, a, id) ==> !CanStillWake(h.world[id].life)
  {
    var after := AfterMove(c, h, Settle(a, failures));
    MoveKeepsInv(c, h, Settle(a, failures));
    if id :| Tenant(h, a, id) && CanStillWake(h.world[id].life) {
      assert Tenant(after, a, id);
      var moves := WakeableTenantReturns(c, after, a, id);
    } else {
      GrantMeansIdle(c, h, a, failures);
      UnwakeableTenantsAreOff(c, h, a, failures);
      forall moves | AfterMoves(c, after, moves).Some? && GiveBack(a) !in moves
        ensures TenantsAreOff(AfterMoves(c, after, moves).value, a)
      {
        TenantsStayOffThroughout(c, after, a, moves);
      }
    }
  }

  lemma UnwakeableTenantsAreOff(c: Settings, h: Handoff, a: int, failures: bool)
    requires HandoffInv(h) && Possible(c, h, Settle(a, failures)) && MayGrant(h, a, failures)
    requires forall id :: Tenant(h, a, id) ==> !CanStillWake(h.world[id].life)
    ensures TenantsOff(AfterMove(c, h, Settle(a, failures)), a)
  {
    forall id | id in OverlappingIds(h.world, h.taken[a].gpus) ensures OutOfReach(h.world[id].life) {
      assert Tenant(h, a, id) && LifeInv(h.world[id].life);
    }
  }

  // ---------- an unsafe grant can be reached ----------

  const Asleep := Life(Data(Sleeping, {}, 0, false), true, Free, [], 0)

  function FallAsleep(): seq<Section> {
    [BecomeReady] + ([Section.Sleep] + ([TakeLock] + ([Begin] + ([End(true)] + []))))
  }

  lemma FallsAsleep()
    ensures LifeAfter(Launched, FallAsleep()) == Some(Asleep) && Unwoken(FallAsleep())
  {
    var ready := Apply(Launched, BecomeReady);
    var asked := Apply(ready, Section.Sleep);
    var entered := Apply(asked, TakeLock);
    var begun := Apply(entered, Begin);
    LifeAfterOne(begun, End(true), []);
    LifeAfterOne(entered, Begin, [End(true)] + []);
    LifeAfterOne(asked, TakeLock, [Begin] + ([End(true)] + []));
    LifeAfterOne(ready, Section.Sleep, [TakeLock] + ([Begin] + ([End(true)] + [])));
    LifeAfterOne(Launched, BecomeReady, [Section.Sleep] + ([TakeLock] + ([Begin] + ([End(true)] + []))));
  }

  /** The host once a worker sleeps, its wake is approved, and then its GPUs are granted. */
  function GrantedTooSoon(id: WorkerId, p: Profile, gpus: seq<Gpu>, port: int): Handoff {
    Handoff(map[id := Resident(p, gpus, port, Asleep.(queue := [WakeUp]))],
            map[0 := Acquisition(gpus, {id}, true)], false)
  }

  lemma {:induction false} AfterMovesAppend(c: Settings, h: Handoff, first: seq<Move>, onward: seq<Move>)
    requires AfterMoves(c, h, first).Some?
    ensures AfterMoves(c, h, first + onward) == AfterMoves(c, AfterMoves(c, h, first).value, onward)
    decreases |first|
  {
    if first == [] {
      assert first + onward == onward;
    } else {
      assert (first + onward)[1..] == first[1..] + onward;
      AfterMovesAppend(c, AfterMove(c, h, first[0]), first[1..], onward);
    }
  }

  lemma {:induction false} MoveThen(c: Settings, h: Handoff, m: Move, rest: seq<Move>)
    requires Possible(c, h, m)
    ensures AfterMoves(c, h, [m] + rest) == AfterMoves(c, AfterMove(c, h, m), rest)
  {
    assert ([m] + rest)[1..] == rest;
  }

  lemma WakeIsApproved(c: Settings, h: Handoff, id: WorkerId, life: Life)
    requires id in h.world && h.world[id].life == life && h.taken == map[]
    ensures Possible(c, h, Work(id, Ask(WakeUp)))
    ensures AfterMove(c, h, Work(id, Ask(WakeUp)))
            == h.(world := h.world[id := h.world[id].(life := life.(queue := life.queue + [WakeUp]))])
  {
    assert HeldGpus(h) == {};
  }

  /** The GPUs of a lone sleeping worker are taken and granted, whatever waits for its lock. */
  lemma {:induction false} TakeThenGrant(c: Settings, h: Handoff, id: WorkerId, gpus: seq<Gpu>)
    requires gpus != [] && h.world.Keys == {id} && h.taken == map[] && !h.demand
    requires h.world[id].gpus == gpus
    requires h.world[id].life.data.state.Sleeping? && h.world[id].life.data.admitted == {}
    ensures AfterMoves(c, h, [Take(0, gpus, true)] + ([Settle(0, false)] + []))
            == Some(h.(taken := map[0 := Acquisition(gpus, {id}, true)]))
  {
    assert gpus[0] in gpus;
    assert OverlappingIds(h.world, gpus) == {id};
    assert HeldGpus(h) == {};
    var taken := AfterMove(c, h, Take(0, gpus, true));
    assert taken == h.(taken := map[0 := Acquisition(gpus, {id}, false)]);
    var granted := h.(taken := map[0 := Acquisition(gpus, {id}, true)]);
    assert AfterMove(c, taken, Settle(0, false)) == granted by {
      assert MayGrant(taken, 0, false);
      assert taken.taken[0 := taken.taken[0].(granted := true)] == granted.taken;
    }
    MoveThen(c, taken, Settle(0, false), []);
    MoveThen(c, h, Take(0, gpus, true), [Settle(0, false)] + []);
  }

  function AskTakeSettle(id: WorkerId, gpus: seq<Gpu>): seq<Move> {
    [Work(id, Ask(WakeUp))] + ([Take(0, gpus, true)] + ([Settle(0, false)] + []))
  }

  lemma {:induction false} WakeThenGrant(c: Settings, h: Handoff, id: WorkerId, p: Profile, gpus: seq<Gpu>, port: int)
    requires gpus != [] && h == Handoff(map[id := Resident(p, gpus, port, Asleep)], map[], false)
    ensures AfterMoves(c, h, AskTakeSettle(id, gpus)) == Some(GrantedTooSoon(id, p, gpus, port))
  {
    WakeIsApproved(c, h, id, Asleep);
    var asked := AfterMove(c, h, Work(id, Ask(WakeUp)));
    assert [] + [WakeUp] == [WakeUp];
    assert asked.world == map[id := Resident(p, gpus, port, Asleep.(queue := [WakeUp]))];
    TakeThenGrant(c, asked, id, gpus);
    MoveThen(c, h, Work(id, Ask(WakeUp)), [Take(0, gpus, true)] + ([Settle(0, false)] + []));
  }

  /** Whatever engine is accepted on an empty host, some run grants its GPUs and then loses them to it. */
  lemma UnsafeGrantIsReachable(c: Settings, id: WorkerId, p: Profile, gpus: seq<Gpu>) returns (moves: seq<Move>)
    requires gpus != [] && LaunchOutcome(c, map[], p, gpus).Ok?
    ensures AfterMoves(c, Idle, moves) == Some(GrantedTooSoon(id, p, gpus, LaunchOutcome(c, map[], p, gpus).value))
    ensures !SafeUntilGivenBack(c, AfterMoves(c, Idle, moves).value, 0)
  {
    var port := LaunchOutcome(c, map[], p, gpus).value;
    var h := GrantedTooSoon(id, p, gpus, port);
    moves := ReachGrant(c, id, p, gpus, port);
    MovesKeepInv(c, Idle, moves);
    assert gpus[0] in gpus;
    assert Tenant(h, 0, id) && CanStillWake(h.world[id].life);
    var onwards := WakeableTenantReturns(c, h, 0, id);
  }

  lemma ReachGrant(c: Settings, id: WorkerId, p: Profile, gpus: seq<Gpu>, port: int) returns (moves: seq<Move>)
    requires gpus != [] && LaunchOutcome(c, map[], p, gpus) == Ok(port)
    ensures AfterMoves(c, Idle, moves) == Some(GrantedTooSoon(id, p, gpus, port))
  {
    assert Owners(Idle.world) == map[];
    var launched := AfterMove(c, Idle, Launch(id, p, gpus));
    assert launched == Handoff(map[id := Resident(p, gpus, port, Launched)], map[], false);
    FallsAsleep();
    WorkLifts(c, launched, id, FallAsleep());
    var asleep := AfterMoves(c, launched, WorkOf(id, FallAsleep())).value;
    assert asleep.world == map[id := Resident(p, gpus, port, Asleep)];
    WakeThenGrant(c, asleep, id, p, gpus, port);
    AfterMovesAppend(c, launched, WorkOf(id, FallAsleep()), AskTakeSettle(id, gpus));
    moves := [Launch(id, p, gpus)] + (WorkOf(id, FallAsleep()) + AskTakeSettle(id, gpus));
    MoveThen(c, Idle, Launch(id, p, gpus), WorkOf(id, FallAsleep()) + AskTakeSettle(id, gpus));
  }
}
