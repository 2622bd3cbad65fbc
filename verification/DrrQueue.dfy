/** The admission queue of one model as the source keeps it: fields changed in place. */
module DrrQueue {
  import opened Collections
  import opened DrrState

  datatype PutResult = Accepted | QueueFull

  class DeficitRoundRobinQueue {
    const totalCapacity: Option<int>
    const tenantCapacity: Option<int>
    const quantum: int
    var order: seq<Tenant>
    var queues: map<Tenant, seq<Request>>
    var deficits: map<Tenant, int>
    var size: int

    ghost function Settings(): Config {
      Config(totalCapacity, tenantCapacity, quantum)
    }

    ghost function Abstract(): State
      reads this
    {
      State(order, queues, deficits)
    }

    ghost predicate Good()
      reads this
    {
      quantum > 0 && Valid(Abstract()) && size == Size(Abstract())
    }

    constructor (totalCapacity: Option<int>, tenantCapacity: Option<int>, quantum: int := 4096)
      requires quantum > 0
      ensures Good() && Abstract() == Empty
      ensures Settings() == Config(totalCapacity, tenantCapacity, quantum)
    {
      this.totalCapacity, this.tenantCapacity, this.quantum := totalCapacity, tenantCapacity, quantum;
      order, queues, deficits, size := [], map[], map[], 0;
    }

    method Put(request: Request) returns (result: PutResult)
      requires Good()
      modifies this
      ensures Good() && Abstract() == AfterPut(Settings(), old(Abstract()), request)
      ensures result.Accepted? <==> Accepts(Settings(), old(Abstract()), request)
      ensures result.QueueFull? ==> Abstract() == old(Abstract())
    {
      PutKeepsValid(Settings(), Abstract(), request);
      PutSize(Settings(), Abstract(), request);
      result := Enqueue(request);
    }

    /** The body of `Put`, which only relies on the tenant's own entry being in order. */
    method Enqueue(request: Request) returns (result: PutResult)
      requires request.tenant in queues <==> request.tenant in order
      requires request.tenant in queues ==> queues[request.tenant] != []
      requires size == Size(Abstract())
      modifies this
      ensures Abstract() == AfterPut(Settings(), old(Abstract()), request)
      ensures result.Accepted? <==> Accepts(Settings(), old(Abstract()), request)
      ensures size == old(size) + (if result.Accepted? then 1 else 0)
    {
      ghost var before := Abstract();
      var t := request.tenant;
      MapUpdates(queues, t, [], QueueOf(before, t) + [request]);
      if t !in queues {
        queues, order := queues[t := []], order + [t];
      }
      assert queues[t] == QueueOf(before, t);
      if (totalCapacity.Some? && size >= totalCapacity.value)
         || (tenantCapacity.Some? && |queues[t]| >= tenantCapacity.value) {
        if queues[t] == [] {
          WithoutLast(before.order, t);
          queues, order := queues - {t}, Without(order, t);
        }
        return QueueFull;
      }
      queues := queues[t := queues[t] + [request]];
      if t !in deficits {
        deficits := deficits[t := 0];
      }
      size := size + 1;
      return Accepted;
    }

    /** One pass of the loop in `Pop`: credit the first tenant, then serve it or rotate it. */
    method VisitFirst() returns (request: Option<Request>)
      requires order != [] && order[0] in queues && queues[order[0]] != [] && order[0] in deficits
      modifies this
      ensures Abstract() == AfterVisit(Settings(), old(Abstract()))
      ensures request == if VisitServes(Settings(), old(Abstract()))
                         then Some(Head(old(Abstract()), old(order)[0])) else None
      ensures size == old(size) - (if request.Some? then 1 else 0)
    {
      ghost var before := Abstract();
      var t := order[0];
      var tenantQueue := queues[t];
      MapUpdates(queues, t, tenantQueue, tenantQueue);
      MapUpdates(queues, t, tenantQueue[1..], tenantQueue);
      order, queues := order[1..], queues - {t};
      var first, credit := tenantQueue[0], deficits[t] + quantum;
      if first.estimatedTokens <= credit {
        tenantQueue, size := tenantQueue[1..], size - 1;
        if tenantQueue != [] {
          order, queues := order + [t], queues[t := tenantQueue];
          deficits := deficits[t := credit - first.estimatedTokens];
        } else {
          deficits := deficits - {t};
        }
        return Some(first);
      }
      order, queues, deficits := order + [t], queues[t := tenantQueue], deficits[t := credit];
      return None;
    }

    method Pop() returns (request: Option<Request>)
      requires Good()
      modifies this
      ensures Good() && (request, Abstract()) == AfterPop(Settings(), old(Abstract()))
      ensures request.Some? <==> old(order) != []
    {
      SizeIsPositive(Abstract());
      if size == 0 {
        return None;
      }
      while order != []
        invariant Good() && order != []
        invariant AfterPop(Settings(), Abstract()) == AfterPop(Settings(), old(Abstract()))
        decreases TotalNeed(Settings(), Abstract())
      {
        ghost var before := Abstract();
        TotalNeedIsNatural(Settings(), before);
        VisitKeepsValid(Settings(), before);
        VisitSize(Settings(), before);
        request := VisitFirst();
        if request.Some? {
          return;
        }
        FailedVisitLowersNeed(Settings(), before);
      }
    }

    /** Where the request with this id is queued, if anywhere. */
    method Locate(id: string) returns (holder: nat, index: nat)
      requires forall t :: t in order ==> t in queues
      ensures holder == HolderIndex(Abstract(), order, id)
      ensures holder < |order| ==> index == IndexOfId(QueueOf(Abstract(), order[holder]), id)
    {
      index := 0;
      for k := 0 to |order|
        invariant k <= HolderIndex(Abstract(), order, id)
      {
        var tenantQueue := queues[order[k]];
        for i := 0 to |tenantQueue|
          invariant i <= IndexOfId(tenantQueue, id)
        {
          if tenantQueue[i].id == id {
            assert IndexOfId(tenantQueue, id) == i;
            return k, i;
          }
        }
      }
      holder := |order|;
    }

    method Remove(id: string) returns (request: Option<Request>)
      requires Good()
      modifies this
      ensures Good() && (request, Abstract()) == AfterRemove(old(Abstract()), id)
      ensures request.Some? ==> request.value.id == id
      ensures request.None? <==> forall t, r :: t in old(queues) && r in old(queues)[t] ==> r.id != id
    {
      RemoveOutcome(Abstract(), id);
      request := TakeOut(id);
    }

    /** The body of `Remove`, which only relies on every tenant in the order having a list. */
    method TakeOut(id: string) returns (request: Option<Request>)
      requires forall t :: t in order ==> t in queues
      modifies this
      ensures (request, Abstract()) == AfterRemove(old(Abstract()), id)
      ensures request.Some? ==> request.value.id == id
      ensures size == old(size) - (if request.Some? then 1 else 0)
    {
      var holder, i := Locate(id);
      if holder == |order| {
        return None;
      }
      var t := order[holder];
      var tenantQueue := queues[t];
      var rest := tenantQueue[..i] + tenantQueue[i + 1..];
      size := size - 1;
      if rest == [] {
        order, queues, deficits := Without(order, t), queues - {t}, deficits - {t};
      } else {
        queues := queues[t := rest];
      }
      return Some(tenantQueue[i]);
    }

    method DrainAll() returns (requests: seq<Request>)
      requires Good()
      modifies this
      ensures Good() && Abstract() == Empty
      ensures requests == Contents(old(Abstract()), old(order))
    {
      requests := AllRequests();
      order, queues, deficits, size := [], map[], map[], 0;
    }

    /** The queued requests, tenant by tenant. */
    method AllRequests() returns (requests: seq<Request>)
      requires forall t :: t in order ==> t in queues
      ensures requests == Contents(Abstract(), order)
    {
      requests := [];
      for k := 0 to |order|
        invariant requests == Contents(Abstract(), order[..k])
      {
        ContentsAppend(Abstract(), order[..k], order[k]);
        assert order[..k + 1] == order[..k] + [order[k]];
        requests := requests + queues[order[k]];
      }
      assert order[..|order|] == order;
    }
  }

  lemma {:induction false} ContentsAppend(s: State, order: seq<Tenant>, t: Tenant)
    ensures Contents(s, order + [t]) == Contents(s, order) + QueueOf(s, t)
  {
    if order == [] {
      assert [t][1..] == [];
    } else {
      assert (order + [t])[1..] == order[1..] + [t];
      ContentsAppend(s, order[1..], t);
    }
  }

  lemma {:induction false} WithoutLast<T>(xs: seq<T>, x: T)
    requires x !in xs
    ensures Without(xs + [x], x) == xs
  {
    if xs != [] {
      assert (xs + [x])[1..] == xs[1..] + [x];
      WithoutLast(xs[1..], x);
    }
  }

  lemma RemoveOutcome(s: State, id: string)
    requires Valid(s)
    ensures Valid(AfterRemove(s, id).1)
    ensures Size(AfterRemove(s, id).1) == Size(s) - (if AfterRemove(s, id).0.Some? then 1 else 0)
    ensures AfterRemove(s, id).0.None? <==> forall t, r :: t in s.queues && r in s.queues[t] ==> r.id != id
  {
    RemoveSize(s, id);
    assert Valid(AfterRemove(s, id).1) by { RemoveKeepsValid(s, id); }
    var holder := HolderIndex(s, s.order, id);
    if holder < |s.order| {
      var queue := QueueOf(s, s.order[holder]);
      assert queue[IndexOfId(queue, id)] in queue;
    } else {
      forall t, r | t in s.queues && r in s.queues[t] ensures r.id != id {
        assert t in s.order;
        var k :| 0 <= k < |s.order| && s.order[k] == t;
        assert IndexOfId(QueueOf(s, t), id) == |QueueOf(s, t)|;
      }
    }
  }
}
