/**
 * Request leases and token work: what the scheduler hands out, what the workers count, and how the
 * least-loaded choice keeps the ready workers of a model balanced.
 */
module Leases {
  import opened Collections
  import opened Domain
  import opened Lifecycle

  /** A lease is first admitted, then recorded, and taken off the record before it is released. */
  datatype Stage = Admitting | Recorded | Releasing

  datatype Ticket = Ticket(request: RequestId, worker: WorkerId, tokens: nat, stage: Stage)

  datatype Desk = Desk(workers: map<WorkerId, Data>, tickets: seq<Ticket>)

  datatype Event =
    | Hire(worker: WorkerId)
    | Admitted(request: RequestId, worker: WorkerId, tokens: nat)
    | Record(k: nat)
    | Abort(k: nat)
    | BeginRelease(k: nat)
    | FinishRelease(k: nat)
    | Forget(k: nat)
    | Other(worker: WorkerId, after: Data)

  /** What sections other than admission and release do to a worker's requests and work. */
  predicate OtherSection(d: Data, after: Data) {
    || (after.admitted == d.admitted && after.work == d.work && (d.state.Cold? ==> after.state.Cold?))
    || after == Data(Cold, {}, 0, false)
  }

  /** Every remaining lifecycle section is of that kind. */
  lemma OtherSectionsCoverTheLifecycle(l: Life, step: Section)
    requires LifeInv(l) && Enabled(l, step) && !step.Admit? && !step.Release?
    ensures OtherSection(l.data, Apply(l, step).data)
  {
    match step
    case Begin =>
    case End(ok) =>
    case _ =>
  }

  function RequestsOn(tickets: seq<Ticket>, w: WorkerId): set<RequestId> {
    set t | t in tickets && t.worker == w :: t.request
  }

  function TokensOn(w: WorkerId): Ticket -> int {
    (t: Ticket) => if t.worker == w then t.tokens else 0
  }

  function Dropped(tickets: seq<Ticket>, k: nat): seq<Ticket>
    requires k < |tickets|
  {
    tickets[..k] + tickets[k + 1..]
  }

  /**
   * A client may send an id again while its first request is still in flight. A lost worker's leases
   * are forgotten.
   */
  predicate Possible(s: Desk, e: Event) {
    match e
    case Hire(w) => w !in s.workers
    case Admitted(r, w, _) => w in s.workers && s.workers[w].state.Ready?
    case Record(k) => k < |s.tickets| && s.tickets[k].stage.Admitting?
    case Abort(k) => k < |s.tickets| && s.tickets[k].stage.Admitting?
    case BeginRelease(k) => k < |s.tickets| && s.tickets[k].stage.Recorded?
    case FinishRelease(k) => k < |s.tickets| && s.tickets[k].stage.Releasing? && s.tickets[k].worker in s.workers
    case Forget(k) =>
      k < |s.tickets| && s.tickets[k].stage.Recorded? && s.tickets[k].worker in s.workers
      && s.workers[s.tickets[k].worker].state.Cold?
    case Other(w, after) => w in s.workers && OtherSection(s.workers[w], after)
  }

  function AfterEvent(s: Desk, e: Event): Desk
    requires Possible(s, e)
  {
    match e
    case Hire(w) => s.(workers := s.workers[w := Launched.data])
    case Admitted(r, w, tokens) =>
      Desk(s.workers[w := AfterAdmit(s.workers[w], r, tokens).value],
           s.tickets + [Ticket(r, w, tokens, Admitting)])
    case Record(k) => s.(tickets := s.tickets[k := s.tickets[k].(stage := Recorded)])
    case Abort(k) => s.(tickets := s.tickets[k := s.tickets[k].(stage := Releasing)])
    case BeginRelease(k) => s.(tickets := s.tickets[k := s.tickets[k].(stage := Releasing)])
    case FinishRelease(k) =>
      var t := s.tickets[k];
      Desk(s.workers[t.worker := AfterRelease(s.workers[t.worker], t.request, t.tokens)], Dropped(s.tickets, k))
    case Forget(k) => s.(tickets := Dropped(s.tickets, k))
    case Other(w, after) => s.(workers := s.workers[w := after])
  }

  // ---------- the accounting invariant ----------

  /** A worker counts the tokens of its tickets, and no request that has no ticket there. */
  predicate Counted(tickets: seq<Ticket>, w: WorkerId, d: Data) {
    d.work == SumOf(tickets, TokensOn(w)) && d.admitted <= RequestsOn(tickets, w)
  }

  ghost predicate DeskInv(s: Desk) {
    && (forall t :: t in s.tickets ==> t.worker in s.workers)
    && forall w :: w in s.workers && !s.workers[w].state.Cold? ==> Counted(s.tickets, w, s.workers[w])
  }

  lemma RestagedRequests(tickets: seq<Ticket>, k: nat, stage: Stage, w: WorkerId)
    requires k < |tickets|
    ensures RequestsOn(tickets[k := tickets[k].(stage := stage)], w) == RequestsOn(tickets, w)
  {
    var after := tickets[k := tickets[k].(stage := stage)];
    forall t | t in tickets && t.worker == w ensures t.request in RequestsOn(after, w) {
      var i :| 0 <= i < |tickets| && tickets[i] == t;
      assert after[i] in after;
    }
    forall t | t in after && t.worker == w ensures t.request in RequestsOn(tickets, w) {
      var i :| 0 <= i < |after| && after[i] == t;
      assert tickets[i] in tickets;
    }
  }

  lemma RestageKeepsInv(s: Desk, k: nat, stage: Stage)
    requires DeskInv(s) && k < |s.tickets|
    ensures DeskInv(s.(tickets := s.tickets[k := s.tickets[k].(stage := stage)]))
  {
    var after := s.tickets[k := s.tickets[k].(stage := stage)];
    forall t | t in after ensures t.worker in s.workers {
      var i :| 0 <= i < |after| && after[i] == t;
      assert s.tickets[i] in s.tickets;
    }
    forall w | w in s.workers && !s.workers[w].state.Cold? ensures Counted(after, w, s.workers[w]) {
      RestagedRequests(s.tickets, k, stage, w);
      SumOfUpdate(s.tickets, k, s.tickets[k].(stage := stage), TokensOn(w));
    }
  }

  lemma {:induction false} SumOfDropped(tickets: seq<Ticket>, k: nat, f: Ticket -> int)
    requires k < |tickets|
    ensures SumOf(Dropped(tickets, k), f) == SumOf(tickets, f) - f(tickets[k])
  {
    assert tickets == tickets[..k] + [tickets[k]] + tickets[k + 1..];
    SumOfAppend(tickets[..k] + [tickets[k]], tickets[k + 1..], f);
    SumOfAppend(tickets[..k], [tickets[k]], f);
    SumOfOne(tickets[k], f);
    SumOfAppend(tickets[..k], tickets[k + 1..], f);
  }

  /** Another ticket on the same worker carries the id of this one. */
  predicate Shared(tickets: seq<Ticket>, k: nat)
    requires k < |tickets|
  {
    exists j :: 0 <= j < |tickets| && j != k
                && tickets[j].worker == tickets[k].worker && tickets[j].request == tickets[k].request
  }

  lemma DroppedTicket(tickets: seq<Ticket>, k: nat, j: nat)
    requires k < |tickets| && j < |tickets| && j != k
    ensures tickets[j] in Dropped(tickets, k)
  {
    assert Dropped(tickets, k)[if j < k then j else j - 1] == tickets[j];
  }

  lemma DroppedWasThere(tickets: seq<Ticket>, k: nat, t: Ticket) returns (j: nat)
    requires k < |tickets| && t in Dropped(tickets, k)
    ensures j < |tickets| && j != k && tickets[j] == t
  {
    var i :| 0 <= i < |Dropped(tickets, k)| && Dropped(tickets, k)[i] == t;
    j := if i < k then i else i + 1;
  }

  lemma IdLosesOneTicket(tickets: seq<Ticket>, k: nat, w: WorkerId, r: RequestId)
    requires k < |tickets|
    ensures r in RequestsOn(Dropped(tickets, k), w) ==> r in RequestsOn(tickets, w)
    ensures r in RequestsOn(tickets, w) && !(w == tickets[k].worker && r == tickets[k].request) ==>
              r in RequestsOn(Dropped(tickets, k), w)
    ensures w == tickets[k].worker && r == tickets[k].request ==>
              (r in RequestsOn(Dropped(tickets, k), w) <==> Shared(tickets, k))
  {
    if r in RequestsOn(Dropped(tickets, k), w) {
      var t :| t in Dropped(tickets, k) && t.worker == w && t.request == r;
      var j := DroppedWasThere(tickets, k, t);
      assert tickets[j] in tickets;
    }
    if r in RequestsOn(tickets, w) {
      var t :| t in tickets && t.worker == w && t.request == r;
      var j :| 0 <= j < |tickets| && tickets[j] == t;
      if j != k {
        DroppedTicket(tickets, k, j);
      }
    }
    if w == tickets[k].worker && r == tickets[k].request && Shared(tickets, k) {
      var j :| 0 <= j < |tickets| && j != k && tickets[j].worker == w && tickets[j].request == r;
      DroppedTicket(tickets, k, j);
    }
  }

  /** Only the dropped ticket's id may be gone, and it is gone unless another ticket carries it. */
  lemma DroppedRequests(tickets: seq<Ticket>, k: nat, w: WorkerId)
    requires k < |tickets|
    ensures RequestsOn(Dropped(tickets, k), w)
            == if w == tickets[k].worker && !Shared(tickets, k) then RequestsOn(tickets, w) - {tickets[k].request}
               else RequestsOn(tickets, w)
  {
    assert tickets[k] in tickets;
    forall r
      ensures r in RequestsOn(Dropped(tickets, k), w)
              <==> r in RequestsOn(tickets, w)
                   && !(w == tickets[k].worker && !Shared(tickets, k) && r == tickets[k].request)
    {
      IdLosesOneTicket(tickets, k, w, r);
    }
  }

  /** The clamp at zero in `release` never bites: the tokens given back are always counted. */
  lemma ClampNeverBites(s: Desk, k: nat)
    requires DeskInv(s) && Possible(s, FinishRelease(k)) && !s.workers[s.tickets[k].worker].state.Cold?
    ensures var t := s.tickets[k];
            var d := s.workers[t.worker];
            t.tokens <= d.work && AfterRelease(d, t.request, t.tokens).work == d.work - t.tokens
  {
    var w := s.tickets[k].worker;
    SumOfDropped(s.tickets, k, TokensOn(w));
    SumOfNonNegative(Dropped(s.tickets, k), TokensOn(w));
  }

  lemma DropKeepsInv(s: Desk, k: nat, workers: map<WorkerId, Data>)
    requires DeskInv(s) && k < |s.tickets| && workers.Keys == s.workers.Keys
    requires forall w :: w in workers && w != s.tickets[k].worker ==> workers[w] == s.workers[w]
    requires var w := s.tickets[k].worker;
             w in workers && !workers[w].state.Cold? ==> Counted(Dropped(s.tickets, k), w, workers[w])
    ensures DeskInv(Desk(workers, Dropped(s.tickets, k)))
  {
    forall t | t in Dropped(s.tickets, k) ensures t.worker in workers {
      var j := DroppedWasThere(s.tickets, k, t);
      assert s.tickets[j] in s.tickets;
    }
    forall w | w in workers && !workers[w].state.Cold? ensures Counted(Dropped(s.tickets, k), w, workers[w]) {
      DroppedRequests(s.tickets, k, w);
      SumOfDropped(s.tickets, k, TokensOn(w));
    }
  }

  lemma ReleaseKeepsInv(s: Desk, k: nat)
    requires DeskInv(s) && Possible(s, FinishRelease(k))
    ensures DeskInv(AfterEvent(s, FinishRelease(k)))
  {
    var after, w := AfterEvent(s, FinishRelease(k)), s.tickets[k].worker;
    if !after.workers[w].state.Cold? {
      DroppedRequests(s.tickets, k, w);
      SumOfDropped(s.tickets, k, TokensOn(w));
      ClampNeverBites(s, k);
    }
    DropKeepsInv(s, k, after.workers);
  }

  lemma RequestsWithTicket(tickets: seq<Ticket>, t: Ticket, w: WorkerId)
    ensures RequestsOn(tickets + [t], w) == RequestsOn(tickets, w) + (if t.worker == w then {t.request} else {})
  {
    assert forall u :: u in tickets + [t] <==> u in tickets || u == t;
  }

  lemma AdmitKeepsInv(s: Desk, r: RequestId, w: WorkerId, tokens: nat)
    requires DeskInv(s) && Possible(s, Admitted(r, w, tokens))
    ensures DeskInv(AfterEvent(s, Admitted(r, w, tokens)))
  {
    var after, ticket := AfterEvent(s, Admitted(r, w, tokens)), Ticket(r, w, tokens, Admitting);
    forall v | v in after.workers && !after.workers[v].state.Cold?
      ensures Counted(after.tickets, v, after.workers[v])
    {
      SumOfAppend(s.tickets, [ticket], TokensOn(v));
      RequestsWithTicket(s.tickets, ticket, v);
    }
  }

  lemma OtherKeepsInv(s: Desk, e: Event)
    requires DeskInv(s) && Possible(s, e) && (e.Hire? || e.Other?)
    ensures DeskInv(AfterEvent(s, e))
  {
    if e.Hire? {
      forall t | t in s.tickets ensures t.worker != e.worker {
        assert t.worker in s.workers;
      }
      NoTokensElsewhere(s.tickets, e.worker);
    }
  }

  lemma {:induction false} NoTokensElsewhere(tickets: seq<Ticket>, w: WorkerId)
    requires forall t :: t in tickets ==> t.worker != w
    ensures SumOf(tickets, TokensOn(w)) == 0 && RequestsOn(tickets, w) == {}
  {
    if tickets != [] {
      assert tickets == [tickets[0]] + tickets[1..];
      NoTokensElsewhere(tickets[1..], w);
    }
  }

  lemma EventKeepsInv(s: Desk, e: Event)
    requires DeskInv(s) && Possible(s, e)
    ensures DeskInv(AfterEvent(s, e))
  {
    match e
    case Hire(_) => OtherKeepsInv(s, e);
    case Admitted(r, w, tokens) => AdmitKeepsInv(s, r, w, tokens);
    case Record(k) => RestageKeepsInv(s, k, Recorded);
    case Abort(k) => RestageKeepsInv(s, k, Releasing);
    case BeginRelease(k) => RestageKeepsInv(s, k, Releasing);
    case FinishRelease(k) => ReleaseKeepsInv(s, k);
    case Forget(k) => DropKeepsInv(s, k, s.workers);
    case Other(_, _) => OtherKeepsInv(s, e);
  }

  /** A recorded lease is released once: taken off the record, it can be finished but not begun again. */
  lemma ReleasedOnce(s: Desk, k: nat)
    requires DeskInv(s) && Possible(s, BeginRelease(k))
    ensures var begun := AfterEvent(s, BeginRelease(k));
            && Possible(begun, FinishRelease(k)) && !Possible(begun, BeginRelease(k)) && !Possible(begun, Forget(k))
  {
    assert s.tickets[k] in s.tickets;
  }

  // ---------- runs ----------

  const Open := Desk(map[], [])

  function After(s: Desk, es: seq<Event>): Option<Desk>
    decreases |es|
  {
    if es == [] then Some(s)
    else if !Possible(s, es[0]) then None
    else After(AfterEvent(s, es[0]), es[1..])
  }

  lemma {:induction false} RunKeepsInv(s: Desk, es: seq<Event>)
    requires DeskInv(s) && After(s, es).Some?
    ensures DeskInv(After(s, es).value)
    decreases |es|
  {
    if es != [] {
      EventKeepsInv(s, es[0]);
      RunKeepsInv(AfterEvent(s, es[0]), es[1..]);
    }
  }

  /**
   * Over every run, whatever ids clients choose, a worker that is not cold counts exactly the tokens
   * of the requests in flight on it, and no request that is not in flight there.
   */
  lemma {:induction false} TokenWorkIsExact(es: seq<Event>, w: WorkerId)
    requires After(Open, es).Some? && w in After(Open, es).value.workers
    ensures var s := After(Open, es).value;
            !s.workers[w].state.Cold? ==>
              s.workers[w].work == SumOf(s.tickets, TokensOn(w)) && s.workers[w].admitted <= RequestsOn(s.tickets, w)
  {
    RunKeepsInv(Open, es);
  }

  // ---------- when the requests are exact as well ----------

  /** Every worker that is not cold lists all the requests in flight on it. */
  ghost predicate Listed(s: Desk) {
    forall w :: w in s.workers && !s.workers[w].state.Cold? ==> s.workers[w].admitted == RequestsOn(s.tickets, w)
  }

  /** A release takes an id off a worker on which another ticket still carries it. */
  predicate TakesShared(s: Desk, e: Event)
    requires Possible(s, e)
  {
    e.FinishRelease? && !s.workers[s.tickets[e.k].worker].state.Cold? && Shared(s.tickets, e.k)
  }

  lemma ReleaseKeepsListed(s: Desk, k: nat)
    requires DeskInv(s) && Listed(s) && Possible(s, FinishRelease(k))
    ensures Listed(AfterEvent(s, FinishRelease(k))) <==> !TakesShared(s, FinishRelease(k))
  {
    var after, t := AfterEvent(s, FinishRelease(k)), s.tickets[k];
    assert t in s.tickets;
    forall w | w in after.workers && !after.workers[w].state.Cold?
      ensures after.workers[w].admitted == RequestsOn(after.tickets, w)
              <==> !(w == t.worker && Shared(s.tickets, k))
    {
      DroppedRequests(s.tickets, k, w);
      assert w == t.worker ==> t.request in RequestsOn(s.tickets, w);
    }
    assert after.workers[t.worker].state == s.workers[t.worker].state;
  }

  lemma ForgetKeepsListed(s: Desk, k: nat)
    requires Listed(s) && Possible(s, Forget(k))
    ensures Listed(AfterEvent(s, Forget(k)))
  {
    forall w | w in s.workers && !s.workers[w].state.Cold?
      ensures s.workers[w].admitted == RequestsOn(Dropped(s.tickets, k), w)
    {
      DroppedRequests(s.tickets, k, w);
    }
  }

  lemma RestageKeepsListed(s: Desk, k: nat, stage: Stage)
    requires Listed(s) && k < |s.tickets|
    ensures Listed(s.(tickets := s.tickets[k := s.tickets[k].(stage := stage)]))
  {
    forall w ensures RequestsOn(s.tickets[k := s.tickets[k].(stage := stage)], w) == RequestsOn(s.tickets, w) {
      RestagedRequests(s.tickets, k, stage, w);
    }
  }

  lemma AdmitKeepsListed(s: Desk, r: RequestId, w: WorkerId, tokens: nat)
    requires Listed(s) && Possible(s, Admitted(r, w, tokens))
    ensures Listed(AfterEvent(s, Admitted(r, w, tokens)))
  {
    forall v ensures RequestsOn(s.tickets + [Ticket(r, w, tokens, Admitting)], v)
                     == RequestsOn(s.tickets, v) + (if w == v then {r} else {}) {
      RequestsWithTicket(s.tickets, Ticket(r, w, tokens, Admitting), v);
    }
  }

  lemma OtherKeepsListed(s: Desk, e: Event)
    requires DeskInv(s) && Listed(s) && Possible(s, e) && (e.Hire? || e.Other?)
    ensures Listed(AfterEvent(s, e))
  {
    if e.Hire? {
      forall t | t in s.tickets ensures t.worker != e.worker {
        assert t.worker in s.workers;
      }
      NoTokensElsewhere(s.tickets, e.worker);
    }
  }

  lemma EventKeepsListed(s: Desk, e: Event)
    requires DeskInv(s) && Listed(s) && Possible(s, e)
    ensures Listed(AfterEvent(s, e)) <==> !TakesShared(s, e)
  {
    match e
    case Hire(_) => OtherKeepsListed(s, e);
    case Admitted(r, w, tokens) => AdmitKeepsListed(s, r, w, tokens);
    case Record(k) => RestageKeepsListed(s, k, Recorded);
    case Abort(k) => RestageKeepsListed(s, k, Releasing);
    case BeginRelease(k) => RestageKeepsListed(s, k, Releasing);
    case FinishRelease(k) => ReleaseKeepsListed(s, k);
    case Forget(k) => ForgetKeepsListed(s, k);
    case Other(_, _) => OtherKeepsListed(s, e);
  }

  /** The workers' lists are right at the start and after every event. */
  ghost predicate AlwaysListed(s: Desk, es: seq<Event>)
    requires After(s, es).Some?
    decreases |es|
  {
    Listed(s) && (es != [] ==> AlwaysListed(AfterEvent(s, es[0]), es[1..]))
  }

  /** No release of the run takes an id that another ticket on the same worker still carries. */
  predicate NothingSharedTaken(s: Desk, es: seq<Event>)
    requires After(s, es).Some?
    decreases |es|
  {
    es != [] ==> !TakesShared(s, es[0]) && NothingSharedTaken(AfterEvent(s, es[0]), es[1..])
  }

  lemma {:induction false} AlwaysListedExactlyWhen(s: Desk, es: seq<Event>)
    requires DeskInv(s) && Listed(s) && After(s, es).Some?
    ensures AlwaysListed(s, es) <==> NothingSharedTaken(s, es)
    decreases |es|
  {
    if es != [] {
      EventKeepsListed(s, es[0]);
      EventKeepsInv(s, es[0]);
      if !TakesShared(s, es[0]) {
        AlwaysListedExactlyWhen(AfterEvent(s, es[0]), es[1..]);
      }
    }
  }

  /**
   * Along a run, the workers list exactly the requests in flight on them for as long as no release,
   * of a finished request or of a failed admission, takes an id that another request in flight on the
   * same worker still carries; at the first such release the list is wrong.
   */
  lemma {:induction false} RequestsAreExactExactlyWhen(es: seq<Event>)
    requires After(Open, es).Some?
    ensures AlwaysListed(Open, es) <==> NothingSharedTaken(Open, es)
  {
    AlwaysListedExactlyWhen(Open, es);
  }

  lemma {:induction false} EventThen(s: Desk, e: Event, rest: seq<Event>)
    requires Possible(s, e)
    ensures After(s, [e] + rest) == After(AfterEvent(s, e), rest)
  {
    assert ([e] + rest)[1..] == rest;
  }

  /** A worker that serves one request with so many tokens. */
  function Serving(r: RequestId, w: WorkerId, tokens: nat): Desk {
    Desk(map[w := Data(Ready, {r}, tokens, false)], [Ticket(r, w, tokens, Recorded)])
  }

  function FirstRequest(r: RequestId, w: WorkerId, tokens: nat): seq<Event> {
    [Hire(w)] + ([Other(w, Data(Ready, {}, 0, false))] + ([Admitted(r, w, tokens)] + ([Record(0)] + [])))
  }

  /** Admitted a second time, it is found to be admitted already, and that admission is taken back. */
  function Retry(r: RequestId, w: WorkerId, tokens: nat): seq<Event> {
    [Admitted(r, w, tokens)] + ([Abort(1)] + ([FinishRelease(1)] + []))
  }

  lemma FirstRequestServed(r: RequestId, w: WorkerId, tokens: nat)
    ensures After(Open, FirstRequest(r, w, tokens)) == Some(Serving(r, w, tokens))
  {
    var hired := AfterEvent(Open, Hire(w));
    var ready := AfterEvent(hired, Other(w, Data(Ready, {}, 0, false)));
    assert ready == Desk(map[w := Data(Ready, {}, 0, false)], []);
    var admitted := AfterEvent(ready, Admitted(r, w, tokens));
    assert {} + {r} == {r};
    assert admitted == Desk(map[w := Data(Ready, {r}, tokens, false)], [Ticket(r, w, tokens, Admitting)]);
    assert AfterEvent(admitted, Record(0)) == Serving(r, w, tokens) by {
      assert admitted.tickets[0 := Ticket(r, w, tokens, Recorded)] == [Ticket(r, w, tokens, Recorded)];
    }
    EventThen(admitted, Record(0), []);
    EventThen(ready, Admitted(r, w, tokens), [Record(0)] + []);
    EventThen(hired, Other(w, Data(Ready, {}, 0, false)), [Admitted(r, w, tokens)] + ([Record(0)] + []));
    EventThen(Open, Hire(w), [Other(w, Data(Ready, {}, 0, false))] + ([Admitted(r, w, tokens)] + ([Record(0)] + [])));
  }

  /**
   * A client sends a request again while it runs. No tokens are stranded: the retry's are taken back
   * and the first request's stay counted. But the worker now lists no request, so that an offload and
   * a polite stop go on, and a drain asks for a stop at once, although the first request still runs.
   */
  lemma RetryLooksIdle(r: RequestId, w: WorkerId, first: nat, second: nat)
    ensures After(Open, FirstRequest(r, w, first)) == Some(Serving(r, w, first))
    ensures After(Serving(r, w, first), Retry(r, w, second))
            == Some(Desk(map[w := Data(Ready, {}, first, false)], Serving(r, w, first).tickets))
    ensures AfterOffloadBegins(Data(Ready, {}, first, false)).1
    ensures AfterStopBegins(Data(Ready, {}, first, false), false).1
    ensures DrainTask(Data(Ready, {}, first, false)) == Some(Stop(false))
  {
    FirstRequestServed(r, w, first);
    var serving := Serving(r, w, first);
    var twice := AfterEvent(serving, Admitted(r, w, second));
    assert {r} + {r} == {r};
    assert twice == Desk(map[w := Data(Ready, {r}, first + second, false)],
                         [Ticket(r, w, first, Recorded), Ticket(r, w, second, Admitting)]);
    var failed := AfterEvent(twice, Abort(1));
    assert failed == twice.(tickets := [Ticket(r, w, first, Recorded), Ticket(r, w, second, Releasing)]);
    assert Dropped(failed.tickets, 1) == serving.tickets && {r} - {r} == {};
    assert AfterEvent(failed, FinishRelease(1)) == Desk(map[w := Data(Ready, {}, first, false)], serving.tickets);
    EventThen(failed, FinishRelease(1), []);
    EventThen(twice, Abort(1), [FinishRelease(1)] + []);
    EventThen(serving, Admitted(r, w, second), [Abort(1)] + ([FinishRelease(1)] + []));
  }

  // ---------- conservation ----------

  function Is(b: bool): nat {
    if b then 1 else 0
  }

  function Carries(r: RequestId): Ticket -> int {
    (t: Ticket) => Is(t.request == r)
  }

  predicate Concerns(s: Desk, e: Event, r: RequestId) {
    (e.FinishRelease? || e.Forget?) && e.k < |s.tickets| && s.tickets[e.k].request == r
  }

  function Admissions(es: seq<Event>, r: RequestId): nat {
    if es == [] then 0 else Is(es[0].Admitted? && es[0].request == r) + Admissions(es[1..], r)
  }

  /** How often a lease of this request ends, by release or because its worker is lost. */
  function Endings(s: Desk, es: seq<Event>, r: RequestId): nat
    requires After(s, es).Some?
    decreases |es|
  {
    if es == [] then 0
    else Is(Concerns(s, es[0], r)) + Endings(AfterEvent(s, es[0]), es[1..], r)
  }

  lemma InFlightAfterEvent(s: Desk, e: Event, r: RequestId)
    requires Possible(s, e)
    ensures SumOf(AfterEvent(s, e).tickets, Carries(r)) + Is(Concerns(s, e, r))
            == SumOf(s.tickets, Carries(r)) + Is(e.Admitted? && e.request == r)
  {
    match e
    case Admitted(q, w, tokens) =>
      SumOfAppend(s.tickets, [Ticket(q, w, tokens, Admitting)], Carries(r));
      SumOfOne(Ticket(q, w, tokens, Admitting), Carries(r));
    case Record(k) => SumOfUpdate(s.tickets, k, s.tickets[k].(stage := Recorded), Carries(r));
    case Abort(k) => SumOfUpdate(s.tickets, k, s.tickets[k].(stage := Releasing), Carries(r));
    case BeginRelease(k) => SumOfUpdate(s.tickets, k, s.tickets[k].(stage := Releasing), Carries(r));
    case FinishRelease(k) => SumOfDropped(s.tickets, k, Carries(r));
    case Forget(k) => SumOfDropped(s.tickets, k, Carries(r));
    case _ =>
  }

  /** Leases are conserved: every admission of an id ends exactly once or is still in flight. */
  lemma {:induction false} EveryLeaseEndsOnce(s: Desk, es: seq<Event>, r: RequestId)
    requires After(s, es).Some?
    ensures Endings(s, es, r) + SumOf(After(s, es).value.tickets, Carries(r))
            == Admissions(es, r) + SumOf(s.tickets, Carries(r))
    decreases |es|
  {
    if es != [] {
      InFlightAfterEvent(s, es[0], r);
      EveryLeaseEndsOnce(AfterEvent(s, es[0]), es[1..], r);
    }
  }

  // ---------- balance ----------

  ghost predicate WithinGap(loads: seq<int>, gap: int) {
    forall i, j :: 0 <= i < |loads| && 0 <= j < |loads| ==> loads[i] - loads[j] <= gap
  }

  predicate Least(loads: seq<int>, i: nat) {
    i < |loads| && forall j :: 0 <= j < |loads| ==> loads[i] <= loads[j]
  }

  /** Giving work to a least loaded worker widens the gap to the cost of that work at most. */
  lemma AdmissionKeepsGap(loads: seq<int>, i: nat, cost: nat, gap: int)
    requires Least(loads, i) && WithinGap(loads, gap)
    ensures WithinGap(loads[i := loads[i] + cost], Max(gap, cost))
  {
  }

  /** The first least loaded of the ready workers. */
  method LeastLoaded(loads: seq<int>) returns (least: nat)
    requires loads != []
    ensures Least(loads, least) && forall j :: 0 <= j < least ==> loads[j] > loads[least]
  {
    least := 0;
    for k := 1 to |loads|
      invariant least < k
      invariant forall j :: 0 <= j < k ==> loads[least] <= loads[j]
      invariant forall j :: 0 <= j < least ==> loads[j] > loads[least]
    {
      if loads[k] < loads[least] {
        least := k;
      }
    }
  }

  function Identity(): int -> int {
    (x: int) => x
  }

  /** One admission: the first least loaded worker takes the request's tokens. */
  method RouteOne(loads: array<int>, cost: nat) returns (worker: nat)
    requires loads.Length > 0
    modifies loads
    ensures Least(old(loads[..]), worker) && loads[..] == old(loads[..])[worker := old(loads[..])[worker] + cost]
  {
    worker := LeastLoaded(loads[..]);
    loads[worker] := loads[worker] + cost;
  }

  lemma RoutedOne(loads: seq<int>, worker: nat, cost: nat, gap: int, most: nat)
    requires Least(loads, worker) && WithinGap(loads, Max(gap, most)) && cost <= most
    ensures var after := loads[worker := loads[worker] + cost];
            && WithinGap(after, Max(gap, most))
            && SumOf(after, Identity()) == SumOf(loads, Identity()) + cost
  {
    AdmissionKeepsGap(loads, worker, cost, Max(gap, most));
    SumOfUpdate(loads, worker, loads[worker] + cost, Identity());
  }

  /** A queued request and whether its admission stands, or is failed or cancelled and taken back. */
  datatype Arrival = Arrival(tokens: nat, stands: bool)

  function StandingTokens(): Arrival -> int {
    (x: Arrival) => if x.stands then x.tokens else 0
  }

  lemma SumOfNext(arrivals: seq<Arrival>, k: nat)
    requires k < |arrivals|
    ensures SumOf(arrivals[..k + 1], StandingTokens())
            == SumOf(arrivals[..k], StandingTokens()) + StandingTokens()(arrivals[k])
  {
    assert arrivals[..k + 1] == arrivals[..k] + [arrivals[k]];
    SumOfAppend(arrivals[..k], [arrivals[k]], StandingTokens());
    SumOfOne(arrivals[k], StandingTokens());
  }

  /** One request of the queue: admitted to a least loaded worker, and taken back unless that stands. */
  method RouteArrival(loads: array<int>, arrival: Arrival, ghost gap: int, ghost most: nat)
    requires loads.Length > 0 && WithinGap(loads[..], Max(gap, most)) && arrival.tokens <= most
    requires forall j :: 0 <= j < loads.Length ==> loads[j] >= 0
    modifies loads
    ensures forall j :: 0 <= j < loads.Length ==> loads[j] >= 0
    ensures WithinGap(loads[..], Max(gap, most))
    ensures SumOf(loads[..], Identity()) == SumOf(old(loads[..]), Identity()) + StandingTokens()(arrival)
    ensures !arrival.stands ==> loads[..] == old(loads[..])
  {
    ghost var before := loads[..];
    var worker := RouteOne(loads, arrival.tokens);
    if arrival.stands {
      RoutedOne(before, worker, arrival.tokens, gap, most);
    } else {
      loads[worker] := Max(0, loads[worker] - arrival.tokens);
      assert loads[..] == before;
    }
  }

  /** Routing queued work over a fixed set of ready workers, counted in place. */
  method RouteReadyWork(loads: array<int>, arrivals: seq<Arrival>, ghost gap: int, ghost most: nat)
    requires loads.Length > 0 && WithinGap(loads[..], gap) && forall x :: x in arrivals ==> x.tokens <= most
    requires forall j :: 0 <= j < loads.Length ==> loads[j] >= 0
    modifies loads
    ensures WithinGap(loads[..], Max(gap, most))
    ensures SumOf(loads[..], Identity()) == SumOf(old(loads[..]), Identity()) + SumOf(arrivals, StandingTokens())
  {
    for k := 0 to |arrivals|
      invariant forall j :: 0 <= j < loads.Length ==> loads[j] >= 0
      invariant WithinGap(loads[..], Max(gap, most))
      invariant SumOf(loads[..], Identity())
                == SumOf(old(loads[..]), Identity()) + SumOf(arrivals[..k], StandingTokens())
    {
      assert arrivals[k] in arrivals;
      RouteArrival(loads, arrivals[k], gap, most);
      SumOfNext(arrivals, k);
    }
    assert arrivals[..|arrivals|] == arrivals;
  }
}
