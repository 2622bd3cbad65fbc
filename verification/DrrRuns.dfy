/** Runs of the admission queue: arrivals, visits, cancellations and drains in any interleaving. */
module DrrRuns {
  import opened Collections
  import opened DrrState

  /** `pop` is a series of visits, so an interleaving of visits is more than callers can produce. */
  datatype Event = Put(request: Request) | Visit | Remove(id: string) | Drain

  function Apply(c: Config, s: State, e: Event): (after: State)
    requires Valid(s) && c.quantum > 0
    ensures Valid(after)
  {
    match e
    case Put(r) => PutKeepsValid(c, s, r); AfterPut(c, s, r)
    case Visit => if s.order == [] then s else (VisitKeepsValid(c, s); AfterVisit(c, s))
    case Remove(id) => RemoveKeepsValid(s, id); AfterRemove(s, id).1
    case Drain => Empty
  }

  function Run(c: Config, s: State, es: seq<Event>): (after: State)
    requires Valid(s) && c.quantum > 0
    ensures Valid(after)
    decreases |es|
  {
    if es == [] then s else Run(c, Apply(c, s, es[0]), es[1..])
  }

  predicate VisitsTenant(s: State, e: Event, t: Tenant) {
    e.Visit? && s.order != [] && s.order[0] == t
  }

  /** How often tenant `t` is visited during the run. */
  function Visits(c: Config, s: State, es: seq<Event>, t: Tenant): nat
    requires Valid(s) && c.quantum > 0
    decreases |es|
  {
    if es == [] then 0
    else (if VisitsTenant(s, es[0], t) then 1 else 0) + Visits(c, Apply(c, s, es[0]), es[1..], t)
  }

  function PoppedNow(c: Config, s: State, e: Event, t: Tenant): seq<Request>
    requires Valid(s)
  {
    if VisitsTenant(s, e, t) && VisitServes(c, s) then [Head(s, t)] else []
  }

  function ArrivedNow(c: Config, s: State, e: Event, t: Tenant): seq<Request> {
    if e.Put? && e.request.tenant == t && Accepts(c, s, e.request) then [e.request] else []
  }

  function CancelledNow(s: State, e: Event, t: Tenant): seq<Request> {
    match e
    case Remove(id) =>
      (match AfterRemove(s, id).0
       case Some(r) => if r.tenant == t then [r] else []
       case None => [])
    case Drain => QueueOf(s, t)
    case _ => []
  }

  /** The requests of tenant `t` that visits hand out during the run, in order. */
  function Popped(c: Config, s: State, es: seq<Event>, t: Tenant): seq<Request>
    requires Valid(s) && c.quantum > 0
    decreases |es|
  {
    if es == [] then []
    else PoppedNow(c, s, es[0], t) + Popped(c, Apply(c, s, es[0]), es[1..], t)
  }

  function Served(c: Config, s: State, es: seq<Event>, t: Tenant): int
    requires Valid(s) && c.quantum > 0
  {
    SumOf(Popped(c, s, es, t), (r: Request) => r.estimatedTokens)
  }

  /** The requests of tenant `t` the queue accepts during the run, in order. */
  function Arrived(c: Config, s: State, es: seq<Event>, t: Tenant): seq<Request>
    requires Valid(s) && c.quantum > 0
    decreases |es|
  {
    if es == [] then []
    else ArrivedNow(c, s, es[0], t) + Arrived(c, Apply(c, s, es[0]), es[1..], t)
  }

  /** The requests of tenant `t` taken back by cancellation or drain during the run. */
  function Cancelled(c: Config, s: State, es: seq<Event>, t: Tenant): seq<Request>
    requires Valid(s) && c.quantum > 0
    decreases |es|
  {
    if es == [] then []
    else CancelledNow(s, es[0], t) + Cancelled(c, Apply(c, s, es[0]), es[1..], t)
  }

  /** Tenant `t` has queued work in every state of the run. */
  predicate Backlogged(c: Config, s: State, es: seq<Event>, t: Tenant)
    requires Valid(s) && c.quantum > 0
    decreases |es|
  {
    t in s.order && (es != [] ==> Backlogged(c, Apply(c, s, es[0]), es[1..], t))
  }

  /** Request `r` stays the oldest queued request of tenant `t`, unserved, through the run. */
  predicate HeadWaits(c: Config, s: State, es: seq<Event>, t: Tenant, r: Request)
    requires Valid(s) && c.quantum > 0
    decreases |es|
  {
    && t in s.queues
    && Head(s, t) == r
    && (es != [] ==>
          && !(VisitsTenant(s, es[0], t) && VisitServes(c, s))
          && HeadWaits(c, Apply(c, s, es[0]), es[1..], t, r))
  }

  // ---------- rotation order ----------

  ghost predicate Ahead<T>(order: seq<T>, u: T, t: T) {
    exists i, j :: 0 <= i < j < |order| && order[i] == u && order[j] == t
  }

  lemma {:induction false} AheadWithout<T>(order: seq<T>, x: T, u: T, t: T)
    requires NoDuplicates(order) && x != u && x != t
    ensures Ahead(Without(order, x), u, t) <==> Ahead(order, u, t)
  {
    if order != [] {
      NoDuplicatesTail(order);
      if order[0] == x {
        AheadTail(order, u, t);
      } else {
        AheadWithout(order[1..], x, u, t);
        WithoutElements(order[1..], x);
        AheadCons(order[0], order[1..], u, t);
        AheadCons(order[0], Without(order[1..], x), u, t);
        assert order == [order[0]] + order[1..];
      }
    }
  }

  lemma AheadCons<T>(x: T, rest: seq<T>, u: T, t: T)
    ensures Ahead([x] + rest, u, t) <==> Ahead(rest, u, t) || (x == u && t in rest)
  {
    var order := [x] + rest;
    if Ahead(rest, u, t) {
      var i, j :| 0 <= i < j < |rest| && rest[i] == u && rest[j] == t;
      assert order[i + 1] == u && order[j + 1] == t;
    }
    if x == u && t in rest {
      var j :| 0 <= j < |rest| && rest[j] == t;
      assert order[0] == u && order[j + 1] == t;
    }
    if Ahead(order, u, t) {
      var i, j :| 0 <= i < j < |order| && order[i] == u && order[j] == t;
      assert rest[j - 1] == t;
      if i > 0 {
        assert rest[i - 1] == u;
      }
    }
  }

  lemma AheadTail<T>(order: seq<T>, u: T, t: T)
    requires order != []
    ensures order[0] != u ==> (Ahead(order[1..], u, t) <==> Ahead(order, u, t))
    ensures order[0] == u && t in order[1..] ==> Ahead(order, u, t)
  {
    assert order == [order[0]] + order[1..];
    AheadCons(order[0], order[1..], u, t);
  }

  lemma AheadAppend<T>(order: seq<T>, x: T, u: T, t: T)
    ensures x != t ==> (Ahead(order + [x], u, t) <==> Ahead(order, u, t))
    ensures x == t && u in order ==> Ahead(order + [x], u, t)
  {
    var longer := order + [x];
    if x != t && Ahead(longer, u, t) {
      var i, j :| 0 <= i < j < |longer| && longer[i] == u && longer[j] == t;
      assert j < |order| && order[i] == u && order[j] == t;
    }
    if Ahead(order, u, t) {
      var i, j :| 0 <= i < j < |order| && order[i] == u && order[j] == t;
      assert longer[i] == u && longer[j] == t;
    }
    if x == t && u in order {
      var i :| 0 <= i < |order| && order[i] == u;
      assert longer[i] == u && longer[|order|] == t;
    }
  }

  lemma NotAheadOfAbsent<T>(order: seq<T>, u: T, t: T)
    requires u !in order || t !in order
    ensures !Ahead(order, u, t)
  {
  }

  lemma FirstIsNotBehind<T>(order: seq<T>, u: T)
    requires NoDuplicates(order) && order != []
    ensures !Ahead(order, u, order[0])
  {
  }

  /** Taking the first tenant out of the order, or sending it to the end. */
  lemma FirstLeaves<T>(order: seq<T>, t: T, u: T)
    requires NoDuplicates(order) && order != [] && u != t
    ensures t in order[1..] ==>
              (Ahead(order[1..], u, t) <==> u != order[0] && Ahead(order, u, t))
              && (Ahead(Rotated(order), u, t) <==> u != order[0] && Ahead(order, u, t))
              && (u == order[0] ==> Ahead(order, u, t))
    ensures t == order[0] ==>
              !Ahead(order, u, t) && (u in order ==> Ahead(Rotated(order), u, t))
  {
    var x := order[0];
    NoDuplicatesTail(order);
    AheadTail(order, u, t);
    AheadAppend(order[1..], x, u, t);
    assert order == [x] + order[1..];
    if x == t {
      FirstIsNotBehind(order, u);
    } else if x == u {
      NotAheadOfAbsent(order[1..], u, t);
    }
  }

  lemma VisitMovesBehind(c: Config, s: State, t: Tenant, u: Tenant)
    requires Valid(s) && c.quantum > 0 && s.order != [] && u != t
    requires t in s.order && t in AfterVisit(c, s).order
    ensures VisitStep(s, AfterVisit(c, s), Visit, t, u)
  {
    FirstLeaves(s.order, t, u);
    assert s.order == [s.order[0]] + s.order[1..];
  }

  /** How one event moves `u` past `t`: being visited sends a tenant behind all the others. */
  ghost predicate VisitStep(s: State, after: State, e: Event, t: Tenant, u: Tenant) {
    var before := if Ahead(s.order, u, t) then 1 else 0;
    var later := if Ahead(after.order, u, t) then 1 else 0;
    var visitsT := if VisitsTenant(s, e, t) then 1 else 0;
    var visitsU := if VisitsTenant(s, e, u) then 1 else 0;
    && visitsU + later <= visitsT + before
    && (u in s.order && u in after.order ==> visitsU + later == visitsT + before)
  }

  lemma EveryEventIsAVisitStep(c: Config, s: State, e: Event, t: Tenant, u: Tenant)
    requires Valid(s) && c.quantum > 0 && u != t
    requires t in s.order && t in Apply(c, s, e).order
    ensures VisitStep(s, Apply(c, s, e), e, t, u)
  {
    match e
    case Put(r) =>
      if Accepts(c, s, r) && r.tenant !in s.queues {
        AheadAppend(s.order, r.tenant, u, t);
      }
    case Visit => VisitMovesBehind(c, s, t, u);
    case Remove(id) => RemovalIsAVisitStep(s, id, t, u);
    case Drain =>
  }

  lemma RemovalIsAVisitStep(s: State, id: string, t: Tenant, u: Tenant)
    requires Valid(s) && u != t && t in s.order && t in AfterRemove(s, id).1.order
    ensures VisitStep(s, AfterRemove(s, id).1, Remove(id), t, u)
  {
    var holder := HolderIndex(s, s.order, id);
    if holder < |s.order| && |QueueOf(s, s.order[holder])| == 1 {
      var x := s.order[holder];
      WithoutElements(s.order, x);
      if x != u {
        AheadWithout(s.order, x, u, t);
      }
    }
  }

  function Is(b: bool): nat {
    if b then 1 else 0
  }

  lemma {:induction false} BackloggedTail(c: Config, s: State, es: seq<Event>, t: Tenant)
    requires Valid(s) && c.quantum > 0 && es != [] && Backlogged(c, s, es, t)
    ensures t in s.order && t in Apply(c, s, es[0]).order && Backlogged(c, Apply(c, s, es[0]), es[1..], t)
  {
  }

  /** Between visits to a backlogged tenant, every other tenant is visited at most once more. */
  lemma {:induction false} VisitsInterleave(c: Config, s: State, es: seq<Event>, t: Tenant, u: Tenant)
    requires Valid(s) && c.quantum > 0 && u != t && Backlogged(c, s, es, t)
    ensures Visits(c, s, es, u) + Is(Ahead(Run(c, s, es).order, u, t))
            <= Visits(c, s, es, t) + Is(Ahead(s.order, u, t))
    decreases |es|
  {
    if es != [] {
      BackloggedTail(c, s, es, t);
      EveryEventIsAVisitStep(c, s, es[0], t, u);
      VisitsInterleave(c, Apply(c, s, es[0]), es[1..], t, u);
    }
  }

  /** When the other tenant is backlogged too, its visits are known exactly. */
  lemma {:induction false} VisitsAlternate(c: Config, s: State, es: seq<Event>, t: Tenant, u: Tenant)
    requires Valid(s) && c.quantum > 0 && u != t && Backlogged(c, s, es, t) && Backlogged(c, s, es, u)
    ensures Visits(c, s, es, u) + Is(Ahead(Run(c, s, es).order, u, t))
            == Visits(c, s, es, t) + Is(Ahead(s.order, u, t))
    decreases |es|
  {
    if es != [] {
      BackloggedTail(c, s, es, t);
      BackloggedTail(c, s, es, u);
      EveryEventIsAVisitStep(c, s, es[0], t, u);
      VisitsAlternate(c, Apply(c, s, es[0]), es[1..], t, u);
    }
  }

  /** Over any interval, two backlogged tenants are visited equally often, give or take one. */
  lemma {:induction false} VisitsAreFair(c: Config, s: State, es: seq<Event>, t: Tenant, u: Tenant)
    requires Valid(s) && c.quantum > 0
    requires Backlogged(c, s, es, t) && Backlogged(c, s, es, u)
    ensures -1 <= Visits(c, s, es, t) - Visits(c, s, es, u) <= 1
  {
    if t != u {
      VisitsAlternate(c, s, es, t, u);
    }
  }

  // ---------- waiting ----------

  /** The recursive count of visits is the usual rounded-up quotient, and never below one. */
  lemma {:induction false} VisitsNeededIsCeiling(gap: int, quantum: int)
    requires quantum > 0
    ensures gap <= 0 ==> VisitsNeeded(gap, quantum) == 1
    ensures gap > 0 ==> (VisitsNeeded(gap, quantum) - 1) * quantum < gap
    ensures gap > 0 ==> gap <= VisitsNeeded(gap, quantum) * quantum
    decreases if gap > 0 then gap else 0
  {
    if gap > quantum {
      VisitsNeededIsCeiling(gap - quantum, quantum);
      var n := VisitsNeeded(gap - quantum, quantum);
      assert (n - 1) * quantum + quantum == n * quantum;
      assert n * quantum + quantum == (n + 1) * quantum;
    }
  }

  lemma OneEventUsesUpNeed(c: Config, s: State, e: Event, t: Tenant)
    requires Valid(s) && c.quantum > 0 && t in s.queues && t in Apply(c, s, e).queues
    requires !(VisitsTenant(s, e, t) && VisitServes(c, s))
    requires Head(s, t) == Head(Apply(c, s, e), t)
    ensures Need(c, Apply(c, s, e), t) == Need(c, s, t) - (if VisitsTenant(s, e, t) then 1 else 0)
  {
    if VisitsTenant(s, e, t) {
      FailedVisitOnNeed(c, s, t);
    } else {
      OtherEventOnDeficit(c, s, e, t);
      SameGapSameNeed(c, s, Apply(c, s, e), t);
    }
  }

  lemma SameGapSameNeed(c: Config, s: State, after: State, t: Tenant)
    requires c.quantum > 0 && t in s.queues && t in after.queues && t in s.deficits && t in after.deficits
    requires s.queues[t] != [] && after.queues[t] != [] && Head(s, t) == Head(after, t)
    requires s.deficits[t] == after.deficits[t]
    ensures Need(c, after, t) == Need(c, s, t)
  {
  }

  /** While a head request waits, each visit to its tenant uses up one of the visits it needs. */
  lemma {:induction false} WaitingUsesUpNeed(c: Config, s: State, es: seq<Event>, t: Tenant, r: Request)
    requires Valid(s) && c.quantum > 0 && HeadWaits(c, s, es, t, r)
    ensures Backlogged(c, s, es, t)
    ensures Need(c, Run(c, s, es), t) == Need(c, s, t) - Visits(c, s, es, t)
    decreases |es|
  {
    if es != [] {
      OneEventUsesUpNeed(c, s, es[0], t);
      WaitingUsesUpNeed(c, Apply(c, s, es[0]), es[1..], t, r);
    }
  }

  /**
   * The waiting bound. However arrivals, visits and cancellations interleave, a head request that
   * is still waiting has seen fewer visits to its tenant than it needs, and no other tenant has
   * been visited more often than that number.
   */
  lemma {:induction false} WaitingBound(c: Config, s: State, es: seq<Event>, t: Tenant, u: Tenant, r: Request)
    requires Valid(s) && c.quantum > 0 && HeadWaits(c, s, es, t, r)
    ensures Visits(c, s, es, t) < Need(c, s, t)
    ensures Visits(c, s, es, u) <= Need(c, s, t)
  {
    WaitingUsesUpNeed(c, s, es, t, r);
    HeadAtTheEnd(c, s, es, t, r);
    NeedOfHead(c, Run(c, s, es), t);
    if u != t {
      VisitsInterleave(c, s, es, t, u);
    }
  }

  /** A waiting head request is served by the last visit it needs. */
  lemma {:induction false} LastNeededVisitServes(c: Config, s: State, es: seq<Event>, t: Tenant, r: Request)
    requires Valid(s) && c.quantum > 0 && HeadWaits(c, s, es, t, r)
    requires Visits(c, s, es, t) + 1 == Need(c, s, t)
    requires VisitsTenant(Run(c, s, es), Visit, t)
    ensures PoppedNow(c, Run(c, s, es), Visit, t) == [r]
  {
    WaitingUsesUpNeed(c, s, es, t, r);
    HeadAtTheEnd(c, s, es, t, r);
    NeedOfHead(c, Run(c, s, es), t);
  }

  /** The visits a head request needs are its cost above the deficit, in quanta, rounded up. */
  lemma NeedOfHead(c: Config, s: State, t: Tenant)
    requires Valid(s) && c.quantum > 0 && t in s.queues
    ensures t in s.deficits
    ensures Need(c, s, t) == VisitsNeeded(Head(s, t).estimatedTokens - s.deficits[t], c.quantum)
    ensures Need(c, s, t) >= 1
    ensures Need(c, s, t) == 1 && s.order != [] && s.order[0] == t ==> VisitServes(c, s)
  {
  }

  lemma {:induction false} HeadAtTheEnd(c: Config, s: State, es: seq<Event>, t: Tenant, r: Request)
    requires Valid(s) && c.quantum > 0 && HeadWaits(c, s, es, t, r)
    ensures var now := Run(c, s, es); t in now.queues && Head(now, t) == r
    decreases |es|
  {
    if es != [] {
      HeadAtTheEnd(c, Apply(c, s, es[0]), es[1..], t, r);
    }
  }

  // ---------- deficits and fairness of service ----------

  /** The quanta a tenant earns over the run. */
  function Earned(c: Config, s: State, es: seq<Event>, t: Tenant): int
    requires Valid(s) && c.quantum > 0
    decreases |es|
  {
    if es == [] then 0
    else (if VisitsTenant(s, es[0], t) then c.quantum else 0)
         + Earned(c, Apply(c, s, es[0]), es[1..], t)
  }

  lemma {:induction false} EarnedPerVisit(c: Config, s: State, es: seq<Event>, t: Tenant)
    requires Valid(s) && c.quantum > 0
    ensures Earned(c, s, es, t) == c.quantum * Visits(c, s, es, t)
    decreases |es|
  {
    if es != [] {
      var after, rest := Apply(c, s, es[0]), es[1..];
      EarnedPerVisit(c, after, rest, t);
      QuantaAdd(c.quantum, Visits(c, after, rest, t), Visits(c, s, es, t),
                VisitsTenant(s, es[0], t), Earned(c, after, rest, t), Earned(c, s, es, t));
    }
  }

  lemma QuantaAdd(quantum: int, later: int, visits: int, visited: bool, earnedLater: int, earned: int)
    requires visits == later + (if visited then 1 else 0)
    requires earned == earnedLater + (if visited then quantum else 0)
    requires earnedLater == quantum * later
    ensures earned == quantum * visits
  {
  }

  lemma ServedAdds(c: Config, s: State, es: seq<Event>, t: Tenant)
    requires Valid(s) && c.quantum > 0 && es != []
    ensures Served(c, s, es, t)
            == SumOf(PoppedNow(c, s, es[0], t), (r: Request) => r.estimatedTokens)
               + Served(c, Apply(c, s, es[0]), es[1..], t)
  {
    SumOfAppend(PoppedNow(c, s, es[0], t), Popped(c, Apply(c, s, es[0]), es[1..], t),
                (r: Request) => r.estimatedTokens);
  }

  lemma {:induction false} EarnedMinusServed(c: Config, s: State, es: seq<Event>, t: Tenant)
    requires Valid(s) && c.quantum > 0 && Backlogged(c, s, es, t)
    ensures t in s.deficits && t in Run(c, s, es).deficits
    ensures Run(c, s, es).deficits[t]
            == s.deficits[t] + Earned(c, s, es, t) - Served(c, s, es, t)
    decreases |es|
  {
    BackloggedHasDeficit(c, s, es, t);
    if es != [] {
      EarnedMinusServed(c, Apply(c, s, es[0]), es[1..], t);
      OneEventOnDeficit(c, s, es[0], t);
      ServedAdds(c, s, es, t);
    }
  }

  /** A backlogged tenant's deficit is a quantum per visit minus the tokens it was served. */
  lemma {:induction false} DeficitBalance(c: Config, s: State, es: seq<Event>, t: Tenant)
    requires Valid(s) && c.quantum > 0 && Backlogged(c, s, es, t)
    ensures t in s.deficits && t in Run(c, s, es).deficits
    ensures 0 <= Run(c, s, es).deficits[t]
    ensures Run(c, s, es).deficits[t]
            == s.deficits[t] + c.quantum * Visits(c, s, es, t) - Served(c, s, es, t)
  {
    EarnedMinusServed(c, s, es, t);
    EarnedPerVisit(c, s, es, t);
  }

  lemma VisitOnDeficit(c: Config, s: State, t: Tenant)
    requires s.order != [] && t == s.order[0] && t in s.queues && s.queues[t] != [] && t in s.deficits
    requires t in AfterVisit(c, s).deficits
    ensures var credit := s.deficits[t] + c.quantum;
            AfterVisit(c, s).deficits[t]
            == if VisitServes(c, s) then credit - Head(s, t).estimatedTokens else credit
  {
  }

  /** Only a visit to a tenant changes its deficit; a tenant that arrives starts from nothing. */
  lemma OtherEventOnDeficit(c: Config, s: State, e: Event, t: Tenant)
    requires Valid(s) && c.quantum > 0 && t in Apply(c, s, e).deficits && !VisitsTenant(s, e, t)
    ensures Apply(c, s, e).deficits[t] == if t in s.deficits then s.deficits[t] else 0
  {
  }

  lemma OneEventOnDeficit(c: Config, s: State, e: Event, t: Tenant)
    requires Valid(s) && c.quantum > 0 && t in s.deficits && t in Apply(c, s, e).deficits
    ensures Apply(c, s, e).deficits[t]
            == s.deficits[t] + (if VisitsTenant(s, e, t) then c.quantum else 0)
               - SumOf(PoppedNow(c, s, e, t), (r: Request) => r.estimatedTokens)
  {
    if VisitsTenant(s, e, t) {
      VisitOnDeficit(c, s, t);
    } else {
      OtherEventOnDeficit(c, s, e, t);
    }
  }

  lemma {:induction false} BackloggedHasDeficit(c: Config, s: State, es: seq<Event>, t: Tenant)
    requires Valid(s) && c.quantum > 0 && Backlogged(c, s, es, t)
    ensures t in s.deficits
  {
  }

  /** Every queued request costs at least a quantum and at most `most`; deficits stay below `most`. */
  ghost predicate CostsWithin(c: Config, s: State, most: int) {
    && (forall t, r :: t in s.queues && r in s.queues[t] ==> c.quantum <= r.estimatedTokens <= most)
    && (forall t :: t in s.deficits ==> s.deficits[t] < most)
  }

  ghost predicate ArrivalsWithin(c: Config, es: seq<Event>, most: int) {
    forall e :: e in es && e.Put? ==> c.quantum <= e.request.estimatedTokens <= most
  }

  lemma QueueAfterEvent(c: Config, s: State, e: Event, t: Tenant)
    requires Valid(s) && c.quantum > 0
    ensures forall r :: r in QueueOf(Apply(c, s, e), t) ==>
              r in QueueOf(s, t) || (e.Put? && r == e.request)
  {
    OneEventOnQueue(c, s, e, t);
    var before, after := QueueOf(s, t), QueueOf(Apply(c, s, e), t);
    QueueStepLeavesOnce(before, ArrivedNow(c, s, e, t), PoppedNow(c, s, e, t),
                        CancelledNow(s, e, t), after);
    forall r | r in after ensures r in before || r in ArrivedNow(c, s, e, t) {
      assert r in multiset(after);
      assert r in multiset(before) + multiset(ArrivedNow(c, s, e, t));
    }
  }

  lemma DeficitAfterEvent(c: Config, s: State, e: Event, t: Tenant)
    requires Valid(s) && c.quantum > 0 && t in Apply(c, s, e).deficits
    ensures t !in s.deficits ==> Apply(c, s, e).deficits[t] == 0
    ensures t in s.deficits && !VisitsTenant(s, e, t) ==> Apply(c, s, e).deficits[t] == s.deficits[t]
    ensures VisitsTenant(s, e, t) ==>
              var credit := s.deficits[t] + c.quantum;
              Apply(c, s, e).deficits[t]
              == if VisitServes(c, s) then credit - Head(s, t).estimatedTokens else credit
  {
    if VisitsTenant(s, e, t) {
      VisitOnDeficit(c, s, t);
    } else {
      OtherEventOnDeficit(c, s, e, t);
    }
  }

  lemma EventKeepsCostsWithin(c: Config, s: State, e: Event, most: int)
    requires Valid(s) && 0 < c.quantum <= most && CostsWithin(c, s, most)
    requires e.Put? ==> c.quantum <= e.request.estimatedTokens <= most
    ensures CostsWithin(c, Apply(c, s, e), most)
  {
    var after := Apply(c, s, e);
    forall t, r | t in after.queues && r in after.queues[t]
      ensures c.quantum <= r.estimatedTokens <= most
    {
      QueueAfterEvent(c, s, e, t);
      assert r in QueueOf(after, t);
    }
    forall t | t in after.deficits ensures after.deficits[t] < most {
      DeficitAfterEvent(c, s, e, t);
      if VisitsTenant(s, e, t) {
        assert Head(s, t) in s.queues[t];
      }
    }
  }

  lemma {:induction false} RunKeepsCostsWithin(c: Config, s: State, es: seq<Event>, most: int)
    requires Valid(s) && 0 < c.quantum <= most
    requires CostsWithin(c, s, most) && ArrivalsWithin(c, es, most)
    ensures CostsWithin(c, Run(c, s, es), most)
    decreases |es|
  {
    if es != [] {
      EventKeepsCostsWithin(c, s, es[0], most);
      RunKeepsCostsWithin(c, Apply(c, s, es[0]), es[1..], most);
    }
  }

  /**
   * The fairness bound: over any interval in which two tenants stay backlogged, when no request is
   * cheaper than a quantum, the tokens served to them differ by less than a quantum plus twice the
   * largest request.
   */
  lemma {:induction false} ServiceIsFair(c: Config, s: State, es: seq<Event>, t: Tenant, u: Tenant, most: int)
    requires Valid(s) && 0 < c.quantum <= most
    requires CostsWithin(c, s, most) && ArrivalsWithin(c, es, most)
    requires Backlogged(c, s, es, t) && Backlogged(c, s, es, u)
    ensures -(c.quantum + 2 * most) < Served(c, s, es, t) - Served(c, s, es, u) < c.quantum + 2 * most
  {
    DeficitBalance(c, s, es, t);
    DeficitBalance(c, s, es, u);
    VisitsAreFair(c, s, es, t, u);
    RunKeepsCostsWithin(c, s, es, most);
    QuantaApart(c.quantum, Visits(c, s, es, t), Visits(c, s, es, u));
    DeficitsWithin(c, s, es, t, most);
    DeficitsWithin(c, s, es, u, most);
  }

  lemma QuantaApart(quantum: int, v: int, w: int)
    requires quantum > 0 && -1 <= v - w <= 1
    ensures -quantum <= quantum * v - quantum * w <= quantum
  {
    assert quantum * v - quantum * w == quantum * (v - w);
  }

  lemma {:induction false} DeficitsWithin(c: Config, s: State, es: seq<Event>, t: Tenant, most: int)
    requires Valid(s) && 0 < c.quantum <= most && t in s.deficits && t in Run(c, s, es).deficits
    requires CostsWithin(c, s, most) && CostsWithin(c, Run(c, s, es), most)
    ensures 0 <= s.deficits[t] < most && 0 <= Run(c, s, es).deficits[t] < most
  {
  }

  // ---------- exactly once, in arrival order ----------

  /** One event on a tenant's list: the head is served, the tail grows, or some requests leave. */
  ghost predicate QueueStep<T>(before: seq<T>, arrived: seq<T>, popped: seq<T>, cancelled: seq<T>,
                               after: seq<T>) {
    || (cancelled == [] && before + arrived == popped + after && |popped| <= 1)
    || (popped == [] && arrived == [] && cancelled == before && after == [])
    || (popped == [] && arrived == [] && |cancelled| == 1
        && exists i :: 0 <= i < |before| && before[i] == cancelled[0]
                       && after == before[..i] + before[i + 1..])
  }

  lemma VisitOnQueue(c: Config, s: State, t: Tenant)
    requires Valid(s) && c.quantum > 0 && s.order != []
    ensures QueueOf(s, t) == PoppedNow(c, s, Visit, t) + QueueOf(AfterVisit(c, s), t)
  {
    if t == s.order[0] && VisitServes(c, s) {
      assert s.queues[t] == [Head(s, t)] + s.queues[t][1..];
    }
  }

  lemma RemoveOnQueue(c: Config, s: State, id: string, t: Tenant)
    requires Valid(s) && c.quantum > 0
    ensures QueueStep(QueueOf(s, t), [], [], CancelledNow(s, Remove(id), t),
                      QueueOf(AfterRemove(s, id).1, t))
  {
    var holder := HolderIndex(s, s.order, id);
    if holder < |s.order| {
      var u := s.order[holder];
      var queue := QueueOf(s, u);
      var i := IndexOfId(queue, id);
      assert queue[i] in queue && queue[i].tenant == u;
      if |queue| == 1 {
        assert queue[..i] + queue[i + 1..] == [];
      }
    }
  }

  lemma PutOnQueue(c: Config, s: State, r: Request, t: Tenant)
    requires Valid(s) && c.quantum > 0
    ensures QueueStep(QueueOf(s, t), ArrivedNow(c, s, Put(r), t), PoppedNow(c, s, Put(r), t),
                      CancelledNow(s, Put(r), t), QueueOf(Apply(c, s, Put(r)), t))
  {
    PutAppends(c, s, r, t);
  }

  lemma PutAppends(c: Config, s: State, r: Request, t: Tenant)
    requires Valid(s)
    ensures QueueOf(AfterPut(c, s, r), t)
            == QueueOf(s, t) + (if r.tenant == t && Accepts(c, s, r) then [r] else [])
  {
  }

  lemma DrainOnQueue(c: Config, s: State, t: Tenant)
    requires Valid(s) && c.quantum > 0
    ensures QueueStep(QueueOf(s, t), ArrivedNow(c, s, Drain, t), PoppedNow(c, s, Drain, t),
                      CancelledNow(s, Drain, t), QueueOf(Apply(c, s, Drain), t))
  {
  }

  lemma OneEventOnQueue(c: Config, s: State, e: Event, t: Tenant)
    requires Valid(s) && c.quantum > 0
    ensures QueueStep(QueueOf(s, t), ArrivedNow(c, s, e, t), PoppedNow(c, s, e, t),
                      CancelledNow(s, e, t), QueueOf(Apply(c, s, e), t))
  {
    match e
    case Put(r) => PutOnQueue(c, s, r, t);
    case Visit =>
      if s.order != [] {
        VisitOnQueue(c, s, t);
      }
    case Remove(id) => RemoveOnQueue(c, s, id, t);
    case Drain => DrainOnQueue(c, s, t);
  }

  lemma {:induction false} ServingKeepsOrder<T>(before: seq<T>, arrived: seq<T>, popped: seq<T>, after: seq<T>,
                             served: seq<T>, later: seq<T>)
    requires before + arrived == popped + after && |popped| <= 1
    requires Subsequence(served, after + later)
    ensures Subsequence(popped + served, before + (arrived + later))
  {
    Associative(before, arrived, later);
    Associative(popped, after, later);
    SubsequenceAfter(popped, served, after + later);
  }

  lemma {:induction false} SubsequenceAfter<T>(popped: seq<T>, served: seq<T>, later: seq<T>)
    requires |popped| <= 1 && Subsequence(served, later)
    ensures Subsequence(popped + served, popped + later)
  {
    if popped == [] {
      assert popped + served == served && popped + later == later;
    } else {
      assert (popped + served)[1..] == served && (popped + later)[1..] == later;
    }
  }

  lemma {:induction false} CancellingKeepsOrder<T>(before: seq<T>, i: nat, served: seq<T>, later: seq<T>)
    requires i < |before| && Subsequence(served, (before[..i] + before[i + 1..]) + later)
    ensures Subsequence(served, before + later)
  {
    assert (before[..i] + before[i + 1..]) + later == before[..i] + (before[i + 1..] + later);
    SubsequenceInsert(served, before[..i], before[i], before[i + 1..] + later);
    assert before[..i] + [before[i]] + (before[i + 1..] + later) == before + later;
  }

  lemma {:induction false} QueueStepKeepsOrder<T>(before: seq<T>, arrived: seq<T>, popped: seq<T>, cancelled: seq<T>,
                               after: seq<T>, served: seq<T>, later: seq<T>)
    requires QueueStep(before, arrived, popped, cancelled, after)
    requires Subsequence(served, after + later)
    ensures Subsequence(popped + served, before + (arrived + later))
  {
    if cancelled == [] && before + arrived == popped + after && |popped| <= 1 {
      ServingKeepsOrder(before, arrived, popped, after, served, later);
    } else {
      assert popped + served == served && arrived + later == later;
      if cancelled == before && after == [] {
        assert after + later == later;
        SubsequencePrefix(served, before, later);
      } else {
        var i :| 0 <= i < |before| && after == before[..i] + before[i + 1..];
        CancellingKeepsOrder(before, i, served, later);
      }
    }
  }

  /** What a tenant was served, followed by what it still has queued, is in arrival order. */
  lemma {:induction false} ServedInArrivalOrder(c: Config, s: State, es: seq<Event>, t: Tenant)
    requires Valid(s) && c.quantum > 0
    ensures Subsequence(Popped(c, s, es, t) + QueueOf(Run(c, s, es), t),
                        QueueOf(s, t) + Arrived(c, s, es, t))
    decreases |es|
  {
    if es == [] {
      assert [] + QueueOf(s, t) == QueueOf(s, t) == QueueOf(s, t) + [];
      SubsequenceReflexive(QueueOf(s, t));
    } else {
      var after := Apply(c, s, es[0]);
      ServedInArrivalOrder(c, after, es[1..], t);
      var rest := Popped(c, after, es[1..], t);
      var queue := QueueOf(Run(c, after, es[1..]), t);
      OneEventOnQueue(c, s, es[0], t);
      QueueStepKeepsOrder(QueueOf(s, t), ArrivedNow(c, s, es[0], t), PoppedNow(c, s, es[0], t),
                          CancelledNow(s, es[0], t), QueueOf(after, t), rest + queue,
                          Arrived(c, after, es[1..], t));
      Associative(PoppedNow(c, s, es[0], t), rest, queue);
    }
  }

  lemma ServedCounts<T>(before: seq<T>, arrived: seq<T>, popped: seq<T>, after: seq<T>)
    requires before + arrived == popped + after
    ensures multiset(before) + multiset(arrived) == multiset(popped) + multiset(after)
  {
    assert multiset(before + arrived) == multiset(popped + after);
  }

  lemma RemovedCounts<T>(before: seq<T>, i: nat)
    requires i < |before|
    ensures multiset(before) == multiset([before[i]]) + multiset(before[..i] + before[i + 1..])
  {
    assert before == before[..i] + [before[i]] + before[i + 1..];
  }

  lemma QueueStepLeavesOnce<T>(before: seq<T>, arrived: seq<T>, popped: seq<T>,
                               cancelled: seq<T>, after: seq<T>)
    requires QueueStep(before, arrived, popped, cancelled, after)
    ensures multiset(before) + multiset(arrived)
            == multiset(popped) + multiset(cancelled) + multiset(after)
  {
    if cancelled == [] && before + arrived == popped + after {
      ServedCounts(before, arrived, popped, after);
    } else {
      if popped == [] && arrived == [] && cancelled == before && after == [] {
        assert multiset(before) == multiset(cancelled) + multiset(after);
      } else {
        var i :| 0 <= i < |before| && before[i] == cancelled[0]
                 && after == before[..i] + before[i + 1..];
        RemovedCounts(before, i);
        assert cancelled == [before[i]];
      }
      NothingServed(multiset(before), multiset(cancelled), multiset(after));
    }
  }

  lemma NothingServed<T>(before: multiset<T>, cancelled: multiset<T>, after: multiset<T>)
    requires before == cancelled + after
    ensures before + multiset([]) == multiset([]) + cancelled + after
  {
  }

  /** Every accepted request is queued, or left exactly once: served, cancelled or drained. */
  lemma {:induction false} EveryRequestLeavesOnce(c: Config, s: State, es: seq<Event>, t: Tenant)
    requires Valid(s) && c.quantum > 0
    ensures multiset(QueueOf(s, t)) + multiset(Arrived(c, s, es, t))
            == multiset(Popped(c, s, es, t)) + multiset(Cancelled(c, s, es, t))
               + multiset(QueueOf(Run(c, s, es), t))
    decreases |es|
  {
    if es != [] {
      var e, after, rest := es[0], Apply(c, s, es[0]), es[1..];
      OneEventOnQueue(c, s, e, t);
      QueueStepLeavesOnce(QueueOf(s, t), ArrivedNow(c, s, e, t), PoppedNow(c, s, e, t),
                          CancelledNow(s, e, t), QueueOf(after, t));
      EveryRequestLeavesOnce(c, after, rest, t);
      ChainCounts(multiset(QueueOf(s, t)), multiset(ArrivedNow(c, s, e, t)),
                  multiset(PoppedNow(c, s, e, t)), multiset(CancelledNow(s, e, t)),
                  multiset(QueueOf(after, t)), multiset(Arrived(c, after, rest, t)),
                  multiset(Popped(c, after, rest, t)), multiset(Cancelled(c, after, rest, t)),
                  multiset(QueueOf(Run(c, s, es), t)));
    }
  }

  lemma ChainCounts<T>(before: multiset<T>, arrivedNow: multiset<T>, poppedNow: multiset<T>,
                       cancelledNow: multiset<T>, between: multiset<T>, arrived: multiset<T>,
                       popped: multiset<T>, cancelled: multiset<T>, after: multiset<T>)
    requires before + arrivedNow == poppedNow + cancelledNow + between
    requires between + arrived == popped + cancelled + after
    ensures before + (arrivedNow + arrived)
            == (poppedNow + popped) + (cancelledNow + cancelled) + after
  {
    forall x
      ensures (before + (arrivedNow + arrived))[x]
              == ((poppedNow + popped) + (cancelledNow + cancelled) + after)[x]
    {
      assert (before + arrivedNow)[x] == (poppedNow + cancelledNow + between)[x];
      assert (between + arrived)[x] == (popped + cancelled + after)[x];
    }
  }

  /** Neither capacity is ever exceeded. */
  ghost predicate WithinCapacity(c: Config, s: State) {
    && (c.totalCapacity.Some? && c.totalCapacity.value >= 0 ==> Size(s) <= c.totalCapacity.value)
    && (c.tenantCapacity.Some? && c.tenantCapacity.value >= 0 ==>
          forall t :: |QueueOf(s, t)| <= c.tenantCapacity.value)
  }

  lemma EventShrinksQueues(c: Config, s: State, e: Event, t: Tenant)
    requires Valid(s) && c.quantum > 0 && !e.Put?
    ensures Size(Apply(c, s, e)) <= Size(s)
    ensures |QueueOf(Apply(c, s, e), t)| <= |QueueOf(s, t)|
  {
    match e {
      case Visit => if s.order != [] { VisitSize(c, s); VisitOnQueue(c, s, t); }
      case Remove(id) => RemoveSize(s, id); RemoveOnQueue(c, s, id, t);
      case Drain => SizeIsPositive(s);
    }
  }

  lemma PutKeepsCapacity(c: Config, s: State, r: Request)
    requires Valid(s) && WithinCapacity(c, s)
    ensures WithinCapacity(c, AfterPut(c, s, r))
  {
    var after := AfterPut(c, s, r);
    PutSize(c, s, r);
    if c.tenantCapacity.Some? && c.tenantCapacity.value >= 0 {
      forall t ensures |QueueOf(after, t)| <= c.tenantCapacity.value {
        assert |QueueOf(s, t)| <= c.tenantCapacity.value;
      }
    }
  }

  lemma EventKeepsCapacity(c: Config, s: State, e: Event)
    requires Valid(s) && c.quantum > 0 && WithinCapacity(c, s)
    ensures WithinCapacity(c, Apply(c, s, e))
  {
    if e.Put? {
      PutKeepsCapacity(c, s, e.request);
    } else {
      ShrinkingKeepsCapacity(c, s, e);
    }
  }

  lemma ShrinkingKeepsCapacity(c: Config, s: State, e: Event)
    requires Valid(s) && c.quantum > 0 && WithinCapacity(c, s) && !e.Put?
    ensures WithinCapacity(c, Apply(c, s, e))
  {
    var after := Apply(c, s, e);
    EventShrinksQueues(c, s, e, "");
    if c.tenantCapacity.Some? && c.tenantCapacity.value >= 0 {
      forall t ensures |QueueOf(after, t)| <= c.tenantCapacity.value {
        EventShrinksQueues(c, s, e, t);
        assert |QueueOf(s, t)| <= c.tenantCapacity.value;
      }
    }
  }

  /** Along every run the queue stays within its total and per-tenant capacities. */
  lemma {:induction false} CapacityIsNeverExceeded(c: Config, s: State, es: seq<Event>)
    requires Valid(s) && c.quantum > 0 && WithinCapacity(c, s)
    ensures WithinCapacity(c, Run(c, s, es))
    decreases |es|
  {
    if es != [] {
      EventKeepsCapacity(c, s, es[0]);
      CapacityIsNeverExceeded(c, Apply(c, s, es[0]), es[1..]);
    }
  }

  /** Draining returns every tenant's requests together and in arrival order, the tenants in rotation order. */
  lemma {:induction false} DrainedTenantByTenant(s: State, order: seq<Tenant>, k: nat)
    requires k < |order|
    ensures var before := SumOf(order[..k], LengthIn(s));
            && 0 <= before <= before + |QueueOf(s, order[k])| <= |Contents(s, order)|
            && Contents(s, order)[before..before + |QueueOf(s, order[k])|] == QueueOf(s, order[k])
  {
    var first := QueueOf(s, order[0]);
    if k > 0 {
      DrainedTenantByTenant(s, order[1..], k - 1);
      assert order[..k] == [order[0]] + order[1..][..k - 1];
    }
    assert Contents(s, order) == first + Contents(s, order[1..]);
  }

  lemma {:induction false} SizeIsContents(s: State, order: seq<Tenant>)
    ensures SumOf(order, LengthIn(s)) == |Contents(s, order)|
  {
    if order != [] {
      SizeIsContents(s, order[1..]);
    }
  }

  /** One more request would exceed neither the total nor the tenant's capacity. */
  predicate HasRoom(c: Config, s: State, t: Tenant) {
    && (c.totalCapacity.Some? ==> |Contents(s, s.order)| + 1 <= c.totalCapacity.value)
    && (c.tenantCapacity.Some? ==> |QueueOf(s, t)| + 1 <= c.tenantCapacity.value)
  }

  /** A request is queued exactly when there is room for it, last among its tenant's; else nothing changes. */
  lemma QueuedExactlyWhenRoom(c: Config, s: State, r: Request)
    ensures HasRoom(c, s, r.tenant) ==> QueueOf(AfterPut(c, s, r), r.tenant) == QueueOf(s, r.tenant) + [r]
    ensures !HasRoom(c, s, r.tenant) ==> AfterPut(c, s, r) == s
  {
    SizeIsContents(s, s.order);
  }

  // ---------- pop as a run ----------

  /** The visits one `pop` makes. */
  function PopVisits(c: Config, s: State): (n: nat)
    requires Valid(s) && c.quantum > 0
    decreases if s.order == [] then 0 else TotalNeed(c, s)
  {
    if s.order == [] then 0
    else if VisitServes(c, s) then 1
    else
      FailedVisitLowersNeed(c, s);
      TotalNeedIsNatural(c, AfterVisit(c, s));
      1 + PopVisits(c, Apply(c, s, Visit))
  }

  function Repeat(n: nat): seq<Event> {
    if n == 0 then [] else [Visit] + Repeat(n - 1)
  }

  lemma {:induction false} PopGoesOn(c: Config, s: State)
    requires Valid(s) && c.quantum > 0 && s.order != [] && !VisitServes(c, s)
    ensures PopVisits(c, s) == PopVisits(c, Apply(c, s, Visit)) + 1
    ensures AfterPop(c, s) == AfterPop(c, Apply(c, s, Visit))
    ensures 0 <= TotalNeed(c, Apply(c, s, Visit)) < TotalNeed(c, s)
    ensures Apply(c, s, Visit).order != []
  {
    FailedVisitLowersNeed(c, s);
    TotalNeedIsNatural(c, Apply(c, s, Visit));
  }

  lemma OneMoreVisit(c: Config, s: State, n: nat)
    requires Valid(s) && c.quantum > 0
    ensures Run(c, s, Repeat(n + 1)) == Run(c, Apply(c, s, Visit), Repeat(n))
  {
    assert Repeat(n + 1)[0] == Visit && Repeat(n + 1)[1..] == Repeat(n);
  }

  /** `pop` makes a run of visits, at most as many as all waiting heads need together. */
  lemma {:induction false} PopIsARunOfVisits(c: Config, s: State)
    requires Valid(s) && c.quantum > 0
    ensures AfterPop(c, s).1 == Run(c, s, Repeat(PopVisits(c, s)))
    ensures s.order != [] ==> PopVisits(c, s) <= TotalNeed(c, s)
    decreases if s.order == [] then 0 else TotalNeed(c, s)
  {
    if s.order != [] {
      if VisitServes(c, s) {
        OneMoreVisit(c, s, 0);
        TotalNeedIsPositive(c, s);
      } else {
        PopGoesOn(c, s);
        OneMoreVisit(c, s, PopVisits(c, s) - 1);
        PopIsARunOfVisits(c, Apply(c, s, Visit));
      }
    }
  }

  /** A non-empty queue always yields a request: the head of its tenant's list. */
  lemma {:induction false} PopReturnsAHead(c: Config, s: State)
    requires Valid(s) && c.quantum > 0
    ensures AfterPop(c, s).0.Some? <==> s.order != []
    ensures AfterPop(c, s).0.Some? ==>
              var r := AfterPop(c, s).0.value;
              r.tenant in s.queues && Head(s, r.tenant) == r
    decreases if s.order == [] then 0 else TotalNeed(c, s)
  {
    if s.order != [] {
      if VisitServes(c, s) {
        assert Head(s, s.order[0]) in s.queues[s.order[0]];
      } else {
        FailedVisitLowersNeed(c, s);
        TotalNeedIsNatural(c, AfterVisit(c, s));
        VisitKeepsValid(c, s);
        PopReturnsAHead(c, AfterVisit(c, s));
      }
    }
  }

  function OwnedBy(r: Option<Request>, t: Tenant): seq<Request> {
    if r.Some? && r.value.tenant == t then [r.value] else []
  }

  lemma {:induction false} ServingVisitPops(c: Config, s: State, t: Tenant)
    requires Valid(s) && c.quantum > 0 && s.order != [] && VisitServes(c, s)
    ensures Popped(c, s, Repeat(PopVisits(c, s)), t) == OwnedBy(AfterPop(c, s).0, t)
  {
    PoppedAfterVisit(c, s, 0, t);
    assert Head(s, s.order[0]) in s.queues[s.order[0]];
  }

  lemma {:induction false} PassingVisitPopsNothing(c: Config, s: State, t: Tenant)
    requires Valid(s) && c.quantum > 0 && s.order != [] && !VisitServes(c, s)
    ensures Popped(c, s, Repeat(PopVisits(c, s)), t)
            == Popped(c, Apply(c, s, Visit), Repeat(PopVisits(c, Apply(c, s, Visit))), t)
  {
    PopGoesOn(c, s);
    PoppedAfterVisit(c, s, PopVisits(c, Apply(c, s, Visit)), t);
  }

  /** The request `pop` returns is the only one any tenant loses while it runs. */
  lemma {:induction false} PopServesOnlyThatRequest(c: Config, s: State, t: Tenant)
    requires Valid(s) && c.quantum > 0
    ensures Popped(c, s, Repeat(PopVisits(c, s)), t) == OwnedBy(AfterPop(c, s).0, t)
    decreases if s.order == [] then 0 else TotalNeed(c, s)
  {
    if s.order != [] {
      if VisitServes(c, s) {
        ServingVisitPops(c, s, t);
      } else {
        PopGoesOn(c, s);
        PassingVisitPopsNothing(c, s, t);
        PopServesOnlyThatRequest(c, Apply(c, s, Visit), t);
      }
    }
  }

  lemma PoppedAfterVisit(c: Config, s: State, n: nat, t: Tenant)
    requires Valid(s) && c.quantum > 0
    ensures PoppedNow(c, s, Visit, t) == [] ==>
              Popped(c, s, Repeat(n + 1), t) == Popped(c, Apply(c, s, Visit), Repeat(n), t)
    ensures n == 0 ==> Popped(c, s, Repeat(n + 1), t) == PoppedNow(c, s, Visit, t)
  {
    assert Repeat(n + 1)[0] == Visit && Repeat(n + 1)[1..] == Repeat(n);
  }

  lemma TotalNeedIsPositive(c: Config, s: State)
    requires Valid(s) && c.quantum > 0 && s.order != []
    ensures TotalNeed(c, s) >= 1
  {
    SumOfNonNegative(s.order[1..], NeedIn(c, s));
    NeedOfHead(c, s, s.order[0]);
  }
}
