/** The per-model deficit round-robin admission queue, as values: one function per atomic effect. */
module DrrState {
  import opened Collections

  type Tenant = string

  datatype Request = Request(id: string, tenant: Tenant, estimatedTokens: int, enqueuedAt: int)

  /** `None` capacities are unbounded, as in the source. */
  datatype Config = Config(totalCapacity: Option<int>, tenantCapacity: Option<int>, quantum: int)

  /** `order` is the rotation order of the ordered dictionary whose values are `queues`. */
  datatype State = State(order: seq<Tenant>,
                         queues: map<Tenant, seq<Request>>,
                         deficits: map<Tenant, int>)

  const Empty := State([], map[], map[])

  ghost predicate Valid(s: State) {
    && NoDuplicates(s.order)
    && (forall t :: t in s.order <==> t in s.queues)
    && s.queues.Keys == s.deficits.Keys
    && (forall t :: t in s.queues ==> s.queues[t] != [])
    && (forall t :: t in s.queues ==> forall r :: r in s.queues[t] ==> r.tenant == t)
    && (forall t :: t in s.deficits ==> s.deficits[t] >= 0)
  }

  function QueueOf(s: State, t: Tenant): seq<Request> {
    if t in s.queues then s.queues[t] else []
  }

  function LengthIn(s: State): Tenant -> int {
    (t: Tenant) => |QueueOf(s, t)|
  }

  function Size(s: State): int {
    SumOf(s.order, LengthIn(s))
  }

  // ---------- put ----------

  predicate AtCapacity(capacity: Option<int>, used: int) {
    capacity.Some? && used >= capacity.value
  }

  predicate Accepts(c: Config, s: State, r: Request) {
    !AtCapacity(c.totalCapacity, Size(s)) && !AtCapacity(c.tenantCapacity, |QueueOf(s, r.tenant)|)
  }

  function AfterPut(c: Config, s: State, r: Request): State {
    if !Accepts(c, s, r) then s
    else State(if r.tenant in s.queues then s.order else s.order + [r.tenant],
               s.queues[r.tenant := QueueOf(s, r.tenant) + [r]],
               if r.tenant in s.deficits then s.deficits else s.deficits[r.tenant := 0])
  }

  // ---------- pop: a sequence of visits ending with the first one that serves ----------

  function Head(s: State, t: Tenant): Request
    requires t in s.queues && s.queues[t] != []
  {
    s.queues[t][0]
  }

  predicate VisitServes(c: Config, s: State)
    requires s.order != [] && s.order[0] in s.queues && s.queues[s.order[0]] != []
    requires s.order[0] in s.deficits
  {
    Head(s, s.order[0]).estimatedTokens <= s.deficits[s.order[0]] + c.quantum
  }

  function AfterVisit(c: Config, s: State): State
    requires s.order != [] && s.order[0] in s.queues && s.queues[s.order[0]] != []
    requires s.order[0] in s.deficits
  {
    var t := s.order[0];
    var credit := s.deficits[t] + c.quantum;
    if !VisitServes(c, s) then
      State(Rotated(s.order), s.queues, s.deficits[t := credit])
    else if |s.queues[t]| == 1 then
      State(s.order[1..], s.queues - {t}, s.deficits - {t})
    else
      State(Rotated(s.order), s.queues[t := s.queues[t][1..]],
            s.deficits[t := credit - Head(s, t).estimatedTokens])
  }

  lemma VisitKeepsOrderValid(c: Config, s: State)
    requires Valid(s) && s.order != []
    ensures NoDuplicates(AfterVisit(c, s).order)
    ensures forall u :: u in AfterVisit(c, s).order <==> u in AfterVisit(c, s).queues
  {
    var t, after := s.order[0], AfterVisit(c, s);
    NoDuplicatesTail(s.order);
    RotatedElements(s.order);
    forall u ensures u in after.order <==> u in after.queues {
      TailElements(s.order, u);
    }
  }

  lemma VisitKeepsValid(c: Config, s: State)
    requires Valid(s) && s.order != [] && c.quantum > 0
    ensures Valid(AfterVisit(c, s))
  {
    var t, after := s.order[0], AfterVisit(c, s);
    VisitKeepsOrderValid(c, s);
    forall u | u in after.queues
      ensures after.queues[u] != [] && forall r :: r in after.queues[u] ==> r.tenant == u
    {
      assert forall r :: r in after.queues[u] ==> r in s.queues[u];
    }
  }

  /** How many visits a tenant still needs when its head request exceeds its deficit by `gap`. */
  function VisitsNeeded(gap: int, quantum: int): (n: nat)
    requires quantum > 0
    ensures n >= 1
    decreases if gap > 0 then gap else 0
  {
    if gap <= quantum then 1 else 1 + VisitsNeeded(gap - quantum, quantum)
  }

  function Need(c: Config, s: State, t: Tenant): (n: nat)
    requires c.quantum > 0
  {
    if t in s.queues && s.queues[t] != [] && t in s.deficits
    then VisitsNeeded(Head(s, t).estimatedTokens - s.deficits[t], c.quantum)
    else 0
  }

  function NeedIn(c: Config, s: State): Tenant -> int {
    (t: Tenant) => if c.quantum > 0 then Need(c, s, t) else 0
  }

  function TotalNeed(c: Config, s: State): int
    requires c.quantum > 0
  {
    SumOf(s.order, NeedIn(c, s))
  }

  lemma TotalNeedIsNatural(c: Config, s: State)
    requires c.quantum > 0
    ensures TotalNeed(c, s) >= 0
  {
    SumOfNonNegative(s.order, NeedIn(c, s));
  }

  lemma FailedVisitOnNeed(c: Config, s: State, t: Tenant)
    requires Valid(s) && s.order != [] && c.quantum > 0 && !VisitServes(c, s)
    ensures Need(c, AfterVisit(c, s), t) == Need(c, s, t) - (if t == s.order[0] then 1 else 0)
  {
  }

  /** Every visit that serves nobody uses up one of the visits its tenant still needs. */
  lemma FailedVisitLowersNeed(c: Config, s: State)
    requires Valid(s) && s.order != [] && c.quantum > 0 && !VisitServes(c, s)
    ensures TotalNeed(c, AfterVisit(c, s)) == TotalNeed(c, s) - 1
    ensures Need(c, AfterVisit(c, s), s.order[0]) == Need(c, s, s.order[0]) - 1
  {
    var after := AfterVisit(c, s);
    forall t ensures NeedIn(c, after)(t) == NeedIn(c, s)(t) - (if t == s.order[0] then 1 else 0) {
      FailedVisitOnNeed(c, s, t);
    }
    SumOfRotatedUpdate(s.order, NeedIn(c, s), NeedIn(c, after));
  }

  /** The request `pop` returns and the queue it leaves behind. */
  function AfterPop(c: Config, s: State): (Option<Request>, State)
    requires Valid(s) && c.quantum > 0
    decreases if s.order == [] then 0 else TotalNeed(c, s)
  {
    if s.order == [] then (None, s)
    else if VisitServes(c, s) then (Some(Head(s, s.order[0])), AfterVisit(c, s))
    else
      VisitKeepsValid(c, s);
      FailedVisitLowersNeed(c, s);
      TotalNeedIsNatural(c, AfterVisit(c, s));
      AfterPop(c, AfterVisit(c, s))
  }

  // ---------- remove and drain ----------

  function IndexOfId(queue: seq<Request>, id: string): (i: nat)
    ensures i <= |queue|
    ensures i < |queue| ==> queue[i].id == id
    ensures forall k :: 0 <= k < i ==> queue[k].id != id
  {
    if queue == [] || queue[0].id == id then 0 else 1 + IndexOfId(queue[1..], id)
  }

  /** The first tenant in rotation order that holds a request with this id. */
  function HolderIndex(s: State, order: seq<Tenant>, id: string): (i: nat)
    ensures i <= |order|
    ensures i < |order| ==> IndexOfId(QueueOf(s, order[i]), id) < |QueueOf(s, order[i])|
    ensures forall k :: 0 <= k < i ==> IndexOfId(QueueOf(s, order[k]), id) == |QueueOf(s, order[k])|
  {
    if order == [] then 0
    else if IndexOfId(QueueOf(s, order[0]), id) < |QueueOf(s, order[0])| then 0
    else 1 + HolderIndex(s, order[1..], id)
  }

  function DropAt(queue: seq<Request>, i: nat): seq<Request>
    requires i < |queue|
  {
    queue[..i] + queue[i + 1..]
  }

  function AfterRemove(s: State, id: string): (Option<Request>, State) {
    var holder := HolderIndex(s, s.order, id);
    if holder == |s.order| then (None, s)
    else
      var t := s.order[holder];
      var queue := QueueOf(s, t);
      var i := IndexOfId(queue, id);
      (Some(queue[i]),
       if |queue| == 1 then State(Without(s.order, t), s.queues - {t}, s.deficits - {t})
       else s.(queues := s.queues[t := DropAt(queue, i)]))
  }

  /** Every queued request, tenant by tenant in rotation order. */
  function Contents(s: State, order: seq<Tenant>): seq<Request> {
    if order == [] then [] else QueueOf(s, order[0]) + Contents(s, order[1..])
  }

  lemma PutKeepsValid(c: Config, s: State, r: Request)
    requires Valid(s)
    ensures Valid(AfterPut(c, s, r))
  {
    if Accepts(c, s, r) && r.tenant !in s.queues {
      NoDuplicatesAppend(s.order, r.tenant);
    }
    PutKeepsQueuesValid(c, s, r);
  }

  lemma PutKeepsQueuesValid(c: Config, s: State, r: Request)
    requires Valid(s)
    ensures forall t :: t in AfterPut(c, s, r).queues ==>
              AfterPut(c, s, r).queues[t] != []
              && forall q :: q in AfterPut(c, s, r).queues[t] ==> q.tenant == t
  {
  }

  lemma RemoveKeepsOrderValid(s: State, id: string)
    requires Valid(s)
    ensures NoDuplicates(AfterRemove(s, id).1.order)
    ensures forall t :: t in AfterRemove(s, id).1.order <==> t in AfterRemove(s, id).1.queues
  {
    var holder := HolderIndex(s, s.order, id);
    if holder < |s.order| {
      WithoutElements(s.order, s.order[holder]);
    }
  }

  lemma RemoveKeepsQueuesValid(s: State, id: string, t: Tenant)
    requires Valid(s) && t in AfterRemove(s, id).1.queues
    ensures t in s.queues && AfterRemove(s, id).1.queues[t] != []
    ensures forall r :: r in AfterRemove(s, id).1.queues[t] ==> r in s.queues[t]
  {
    var holder := HolderIndex(s, s.order, id);
    if holder < |s.order| && t == s.order[holder] {
      var queue := QueueOf(s, t);
      assert forall r :: r in DropAt(queue, IndexOfId(queue, id)) ==> r in queue;
    }
  }

  lemma RemoveKeepsValid(s: State, id: string)
    requires Valid(s)
    ensures Valid(AfterRemove(s, id).1)
  {
    var after := AfterRemove(s, id).1;
    RemoveKeepsOrderValid(s, id);
    forall t | t in after.queues
      ensures after.queues[t] != [] && forall r :: r in after.queues[t] ==> r.tenant == t
    {
      RemoveKeepsQueuesValid(s, id, t);
    }
  }

  // ---------- sizes ----------

  lemma PutSize(c: Config, s: State, r: Request)
    requires Valid(s)
    ensures Size(AfterPut(c, s, r)) == Size(s) + (if Accepts(c, s, r) then 1 else 0)
  {
    if Accepts(c, s, r) {
      SizeAfterOneQueueChanges(s, AfterPut(c, s, r), r.tenant);
    }
  }

  /** Replacing one tenant's list changes the size by the change in that list's length. */
  lemma SizeAfterOneQueueChanges(s: State, after: State, t: Tenant)
    requires Valid(s) && t in after.order
    requires after.order == s.order || (t !in s.order && after.order == s.order + [t])
    requires forall u :: u != t ==> QueueOf(after, u) == QueueOf(s, u)
    ensures Size(after) == Size(s) + |QueueOf(after, t)| - |QueueOf(s, t)|
  {
    var lengths, later := LengthIn(s), LengthIn(after);
    if after.order == s.order {
      SumOfWithout(s.order, t, lengths);
      SumOfWithout(s.order, t, later);
      WithoutElements(s.order, t);
      SumOfCongruent(Without(s.order, t), lengths, later);
    } else {
      SumOfAppend(s.order, [t], later);
      SumOfCongruent(s.order, lengths, later);
    }
  }

  /** Dropping a tenant lowers the size by the length of its list. */
  lemma {:induction false} SizeAfterTenantLeaves(s: State, after: State, t: Tenant)
    requires Valid(s) && t in s.order && after.order == Without(s.order, t)
    requires forall u :: u != t ==> QueueOf(after, u) == QueueOf(s, u)
    ensures Size(after) == Size(s) - |QueueOf(s, t)|
  {
    var lengths, later := LengthIn(s), LengthIn(after);
    SumOfWithout(s.order, t, lengths);
    WithoutElements(s.order, t);
    SumOfCongruent(after.order, lengths, later);
  }

  lemma VisitSize(c: Config, s: State)
    requires Valid(s) && s.order != []
    ensures Size(AfterVisit(c, s)) == Size(s) - (if VisitServes(c, s) then 1 else 0)
  {
    var t, after := s.order[0], AfterVisit(c, s);
    if VisitServes(c, s) && |s.queues[t]| == 1 {
      SizeAfterTenantLeaves(s, after, t);
    } else {
      SumOfRotatedUpdate(s.order, LengthIn(s), LengthIn(after));
    }
  }

  lemma RemoveSize(s: State, id: string)
    requires Valid(s)
    ensures Size(AfterRemove(s, id).1) == Size(s) - (if AfterRemove(s, id).0.Some? then 1 else 0)
  {
    var holder := HolderIndex(s, s.order, id);
    if holder < |s.order| {
      var t := s.order[holder];
      if |QueueOf(s, t)| == 1 {
        SizeAfterTenantLeaves(s, AfterRemove(s, id).1, t);
      } else {
        SizeAfterOneQueueChanges(s, AfterRemove(s, id).1, t);
      }
    }
  }

  /** Only the empty queue has size zero. */
  lemma SizeIsPositive(s: State)
    requires Valid(s)
    ensures Size(s) >= 0
    ensures s.order != [] ==> Size(s) > 0
  {
    SumOfNonNegative(s.order, LengthIn(s));
    if s.order != [] {
      SumOfNonNegative(s.order[1..], LengthIn(s));
      assert s.order[0] in s.queues;
    }
  }
}
