/** Every run of the ledger's transactions: conservation of quota and exactly-once accounting. */
module LedgerRuns {
  import opened Collections
  import opened Domain
  import opened Ledger
  import opened Usage
  import opened UsageFacts

  datatype Event =
    | Open(account: AccountId, opening: nat, unlimited: bool)
    | Reserve(id: ReservationId, call: ReserveCall)
    | Create(requestId: string, id: ReservationId)
    | Admit(requestId: string, now: Time)
    | Settle(id: ReservationId, outcome: Outcome, now: Time)
    | UpdateQuota(account: AccountId, limit: int, unlimited: bool)
    | Reset(account: AccountId)
    | Summarise(cutoff: Time)

  /** New ids are fresh, and a request row is created for the reservation made for that request. */
  predicate Possible(t: Tables, e: Event) {
    match e
    case Reserve(id, _) =>
      (forall q :: q in t.reservations ==> q.id != id) && (forall f :: f in t.ledger ==> f.reservation != id)
    case Create(requestId, id) => forall q :: q in t.reservations && q.id == id ==> q.requestId == requestId
    case _ => true
  }

  function AfterEvent(t: Tables, e: Event): Tables {
    match e
    case Open(account, opening, unlimited) => AfterOpen(t, account, opening, unlimited)
    case Reserve(id, call) => AfterReserve(t, id, call)
    case Create(requestId, id) => AfterCreateRequest(t, requestId, id)
    case Admit(requestId, now) => AfterAdmitted(t, requestId, now)
    case Settle(id, outcome, now) => AfterSettle(t, id, outcome, now)
    case UpdateQuota(account, limit, unlimited) => AfterUpdateQuota(t, account, limit, unlimited)
    case Reset(account) => AfterReset(t, account)
    case Summarise(cutoff) => AfterSummarise(t, cutoff)
  }

  // ---------- reservations ----------

  predicate SoundReservation(q: Reservation) {
    q.reserved >= 0 && (q.state.Settled? ==> 0 <= q.actual <= q.reserved && q.settledAt.Some?)
  }

  /** The table's uniqueness constraints, between two rows. */
  predicate Distinguished(a: Reservation, b: Reservation) {
    a.id != b.id && a.requestId != b.requestId && !(a.key == b.key && a.idempotency == b.idempotency)
  }

  ghost predicate ReservationsInv(reservations: seq<Reservation>) {
    && Pairwise(reservations, Distinguished)
    && (forall q :: q in reservations ==> SoundReservation(q))
  }

  lemma ReplaceReservation(reservations: seq<Reservation>, i: nat, q: Reservation)
    requires ReservationsInv(reservations) && i < |reservations| && SoundReservation(q)
    requires q.id == reservations[i].id && q.requestId == reservations[i].requestId
    requires q.key == reservations[i].key && q.idempotency == reservations[i].idempotency
    ensures ReservationsInv(reservations[i := q])
  {
    var after := reservations[i := q];
    forall a, b | 0 <= a < b < |after| ensures Distinguished(after[a], after[b]) {
      assert Distinguished(reservations[a], reservations[b]);
    }
    forall x | x in after ensures SoundReservation(x) {
      assert x == q || x in reservations;
    }
  }

  lemma SettleKeepsReservations(t: Tables, id: ReservationId, o: Outcome, now: Time)
    requires ReservationsInv(t.reservations)
    ensures ReservationsInv(AfterSettle(t, id, o, now).reservations)
  {
    if SettlesNow(t, id) {
      var i := Find(t.reservations, HasReservationId(id));
      var q := t.reservations[i];
      assert q in t.reservations;
      ReplaceReservation(t.reservations, i,
                         q.(actual := ClampedCharge(q, o.actual), state := Settled, settledAt := Some(now)));
    }
  }

  lemma ReserveKeepsReservations(t: Tables, id: ReservationId, c: ReserveCall)
    requires ReservationsInv(t.reservations) && Possible(t, Reserve(id, c))
    ensures ReservationsInv(AfterReserve(t, id, c).reservations)
  {
    if ReservesNow(t, id, c) {
      var q := NewReservation(id, c);
      forall other | other in t.reservations ensures Distinguished(other, q) {
        var k :| 0 <= k < |t.reservations| && t.reservations[k] == other;
        assert !HasIdempotency(c.key, c.idempotency)(t.reservations[k]);
      }
      PairwiseAppend(t.reservations, q, Distinguished);
    }
  }

  lemma EventKeepsReservations(t: Tables, e: Event)
    requires ReservationsInv(t.reservations) && Possible(t, e)
    ensures ReservationsInv(AfterEvent(t, e).reservations)
  {
    match e
    case Reserve(id, c) => ReserveKeepsReservations(t, id, c);
    case Settle(id, o, now) => SettleKeepsReservations(t, id, o, now);
    case Summarise(cutoff) => PairwiseFilter(t.reservations, IsKept(cutoff), Distinguished);
    case _ =>
  }

  // ---------- requests ----------

  /** A request is accepted and completed at most once, in step with its state. */
  predicate SoundRequest(r: Request) {
    match r.state
    case Queued => r.accepted == 0 && r.completions == 0
    case Admitted => r.accepted == 1 && r.completions == 0
    case _ => 0 <= r.accepted <= 1 && r.completions == 1
  }

  predicate Done(r: Request) {
    r.state.Completed? || r.state.Failed?
  }

  /** The reservation a request row belongs to; it is settled before the row is done. */
  predicate Backs(q: Reservation, r: Request) {
    q.id == r.reservation && q.requestId == r.id && (Done(r) ==> q.state.Settled?)
  }

  ghost predicate Backed(reservations: seq<Reservation>, r: Request) {
    exists q :: q in reservations && Backs(q, r)
  }

  predicate DifferentIds(a: Request, b: Request) {
    a.id != b.id
  }

  ghost predicate RequestsInv(reservations: seq<Reservation>, requests: seq<Request>) {
    && Pairwise(requests, DifferentIds)
    && (forall r :: r in requests ==> SoundRequest(r) && Backed(reservations, r))
  }

  lemma ReserveKeepsRequests(t: Tables, id: ReservationId, c: ReserveCall)
    requires RequestsInv(t.reservations, t.requests)
    ensures RequestsInv(AfterReserve(t, id, c).reservations, t.requests)
  {
    forall r | r in t.requests ensures Backed(AfterReserve(t, id, c).reservations, r) {
      var q :| q in t.reservations && Backs(q, r);
      assert q in AfterReserve(t, id, c).reservations;
    }
  }

  lemma CreateKeepsRequests(t: Tables, requestId: string, id: ReservationId)
    requires RequestsInv(t.reservations, t.requests) && Possible(t, Create(requestId, id))
    ensures RequestsInv(t.reservations, AfterCreateRequest(t, requestId, id).requests)
  {
    var after := AfterCreateRequest(t, requestId, id).requests;
    if after != t.requests {
      var q := t.reservations[Find(t.reservations, HasReservationId(id))];
      assert q in t.reservations && Backs(q, after[|t.requests|]);
      forall r | r in t.requests ensures DifferentIds(r, after[|t.requests|]) {
        var k :| 0 <= k < |t.requests| && t.requests[k] == r;
        assert !HasRequestId(requestId)(t.requests[k]);
      }
      PairwiseAppend(t.requests, after[|t.requests|], DifferentIds);
    }
  }

  lemma AdmitKeepsRequests(t: Tables, requestId: string, now: Time)
    requires RequestsInv(t.reservations, t.requests)
    ensures RequestsInv(t.reservations, AfterAdmitted(t, requestId, now).requests)
  {
    if Admits(t, requestId) {
      var i := Find(t.requests, HasRequestId(requestId));
      var after := AfterAdmitted(t, requestId, now).requests;
      assert t.requests[i] in t.requests;
      var q :| q in t.reservations && Backs(q, t.requests[i]);
      forall r | r in after ensures SoundRequest(r) && Backed(t.reservations, r) {
        if r == after[i] {
          assert Backs(q, r);
        } else {
          assert r in t.requests;
        }
      }
    }
  }

  /** Settling finishes the request of an open reservation, which was not done before. */
  lemma SettleKeepsRequest(t: Tables, id: ReservationId, o: Outcome, now: Time, k: nat)
    requires ReservationsInv(t.reservations) && RequestsInv(t.reservations, t.requests)
    requires SettlesNow(t, id) && k < |t.requests|
    ensures var after := AfterSettle(t, id, o, now);
            SoundRequest(after.requests[k]) && Backed(after.reservations, after.requests[k])
  {
    var after, r := AfterSettle(t, id, o, now), t.requests[k];
    var i := Find(t.reservations, HasReservationId(id));
    assert r in t.requests;
    var q :| q in t.reservations && Backs(q, r);
    var j :| 0 <= j < |t.reservations| && t.reservations[j] == q;
    assert after.reservations[j] in after.reservations;
    IdsTellRows(t.reservations, i, j);
    assert Backs(after.reservations[j], after.requests[k]);
  }

  lemma SettleKeepsRequests(t: Tables, id: ReservationId, o: Outcome, now: Time)
    requires ReservationsInv(t.reservations) && RequestsInv(t.reservations, t.requests)
    ensures RequestsInv(AfterSettle(t, id, o, now).reservations, AfterSettle(t, id, o, now).requests)
  {
    if SettlesNow(t, id) {
      var after := AfterSettle(t, id, o, now);
      forall r | r in after.requests ensures SoundRequest(r) && Backed(after.reservations, r) {
        var k :| 0 <= k < |after.requests| && after.requests[k] == r;
        SettleKeepsRequest(t, id, o, now, k);
      }
    }
  }

  /** The reservation of a request that stays is not eligible and stays too. */
  lemma BackingStays(t: Tables, cutoff: Time, r: Request, q: Reservation)
    requires q in t.reservations && q.id == r.reservation && r.reservation !in EligibleIds(t, cutoff)
    ensures q in Filter(t.reservations, IsKept(cutoff))
  {
    assert Eligible(q, cutoff) ==> q in EligibleRows(t, cutoff);
  }

  lemma SummariseKeepsRequests(t: Tables, cutoff: Time)
    requires RequestsInv(t.reservations, t.requests)
    ensures var kept := Filter(t.requests, KeepsRequest(EligibleIds(t, cutoff)));
            RequestsInv(Filter(t.reservations, IsKept(cutoff)), kept)
  {
    var kept := Filter(t.requests, KeepsRequest(EligibleIds(t, cutoff)));
    PairwiseFilter(t.requests, KeepsRequest(EligibleIds(t, cutoff)), DifferentIds);
    forall r | r in kept ensures Backed(Filter(t.reservations, IsKept(cutoff)), r) {
      assert Backed(t.reservations, r);
      var q :| q in t.reservations && Backs(q, r);
      BackingStays(t, cutoff, r, q);
    }
  }

  lemma EventKeepsRequests(t: Tables, e: Event)
    requires ReservationsInv(t.reservations) && RequestsInv(t.reservations, t.requests) && Possible(t, e)
    ensures RequestsInv(AfterEvent(t, e).reservations, AfterEvent(t, e).requests)
  {
    match e
    case Reserve(id, c) => ReserveKeepsRequests(t, id, c);
    case Create(requestId, id) => CreateKeepsRequests(t, requestId, id);
    case Admit(requestId, now) => AdmitKeepsRequests(t, requestId, now);
    case Settle(id, o, now) => SettleKeepsRequests(t, id, o, now);
    case Summarise(cutoff) => SummariseKeepsRequests(t, cutoff);
    case _ =>
  }

  // ---------- accounts ----------

  predicate SoundAccount(t: Tables, account: AccountId)
    requires account in t.accounts
  {
    t.accounts[account].balance >= 0 && t.accounts[account].limit >= 0 && Used(t, account) >= 0
  }

  /** Balances never go negative, use never falls below the baseline, and rows name known accounts. */
  ghost predicate AccountsInv(t: Tables) {
    && (forall account :: account in t.accounts ==> SoundAccount(t, account))
    && (forall q :: q in t.reservations ==> q.account in t.accounts)
    && (forall s :: s in t.totals ==> s.account in t.accounts)
  }

  /** The account view is the selection of that account's settled charges. */
  lemma LifetimeIsAView(t: Tables, account: AccountId)
    ensures LifetimeCharged(t, account) == Lifetime(t, Usage.Account(account), ChargedTokens)
  {
    SumOfCongruent(t.reservations, ChargedOn(account), Settlement(Usage.Account(account), ChargedTokens));
    SumOfCongruent(t.totals, SummarisedOn(account), Value(Usage.Account(account), ChargedTokens));
  }

  lemma {:induction false} OneMatch(requests: seq<Request>, id: ReservationId, requestId: string)
    requires Pairwise(requests, DifferentIds)
    requires forall r :: r in requests && r.reservation == id ==> r.id == requestId
    ensures |Filter(requests, OfReservation(id))| <= 1
  {
    if requests != [] {
      var rest := requests[1..];
      PairwiseTail(requests, DifferentIds);
      assert requests[0] in requests && forall r :: r in rest ==> r in requests;
      OneMatch(rest, id, requestId);
      if requests[0].reservation == id {
        forall r | r in rest ensures !OfReservation(id)(r) {
          assert DifferentIds(requests[0], r);
        }
        FilterNone(rest, OfReservation(id));
      }
    }
  }

  /** Each reservation has at most one request row. */
  lemma AtMostOneRequest(t: Tables)
    requires ReservationsInv(t.reservations) && RequestsInv(t.reservations, t.requests)
    ensures OneRequestEach(t)
  {
    forall q | q in t.reservations ensures |Filter(t.requests, OfReservation(q.id))| <= 1 {
      forall r | r in t.requests && r.reservation == q.id ensures r.id == q.requestId {
        var other :| other in t.reservations && Backs(other, r);
        SameReservation(t.reservations, q, other);
      }
      OneMatch(t.requests, q.id, q.requestId);
    }
  }

  lemma IdsTellRows(reservations: seq<Reservation>, i: nat, j: nat)
    requires ReservationsInv(reservations) && i < |reservations| && j < |reservations|
    ensures i != j ==> reservations[i].id != reservations[j].id
  {
    if i < j {
      assert Distinguished(reservations[i], reservations[j]);
    } else if j < i {
      assert Distinguished(reservations[j], reservations[i]);
    }
  }

  lemma SameReservation(reservations: seq<Reservation>, a: Reservation, b: Reservation)
    requires ReservationsInv(reservations) && a in reservations && b in reservations && a.id == b.id
    ensures a == b
  {
    var i :| 0 <= i < |reservations| && reservations[i] == a;
    var j :| 0 <= j < |reservations| && reservations[j] == b;
    IdsTellRows(reservations, i, j);
  }

  lemma SummariseKeepsUse(t: Tables, cutoff: Time, account: AccountId)
    requires ReservationsInv(t.reservations) && RequestsInv(t.reservations, t.requests)
    ensures LifetimeCharged(AfterSummarise(t, cutoff), account) == LifetimeCharged(t, account)
    ensures Outstanding(AfterSummarise(t, cutoff), account) == Outstanding(t, account)
  {
    AtMostOneRequest(t);
    LifetimeIsAView(t, account);
    LifetimeIsAView(AfterSummarise(t, cutoff), account);
    LifetimeIsUnchanged(t, cutoff, Usage.Account(account), ChargedTokens);
    SumOfSplitFilter(t.reservations, IsEligible(cutoff), IsKept(cutoff), OutstandingOn(account));
    NothingOutstanding(EligibleRows(t, cutoff), account);
  }

  lemma {:induction false} NothingOutstanding(reservations: seq<Reservation>, account: AccountId)
    requires forall q :: q in reservations ==> q.state.Settled?
    ensures SumOf(reservations, OutstandingOn(account)) == 0
  {
    if reservations != [] {
      NothingOutstanding(reservations[1..], account);
    }
  }

  /** Lifetime use never goes down. */
  lemma UseAfterEvent(t: Tables, e: Event, account: AccountId)
    requires ReservationsInv(t.reservations) && RequestsInv(t.reservations, t.requests)
    ensures LifetimeCharged(AfterEvent(t, e), account) >= LifetimeCharged(t, account)
  {
    match e
    case Reserve(id, c) => SumOfAppend(t.reservations, [NewReservation(id, c)], ChargedOn(account));
    case Settle(id, o, now) =>
      if SettlesNow(t, id) {
        var i := Find(t.reservations, HasReservationId(id));
        var q := t.reservations[i];
        assert q in t.reservations;
        var settled := q.(actual := ClampedCharge(q, o.actual), state := Settled, settledAt := Some(now));
        SumOfUpdate(t.reservations, i, settled, ChargedOn(account));
      }
    case Summarise(cutoff) => SummariseKeepsUse(t, cutoff, account);
    case _ =>
  }

  /** Nothing was ever charged or reserved on an account that is not open. */
  lemma UnknownAccountIsUnused(t: Tables, account: AccountId)
    requires AccountsInv(t) && account !in t.accounts
    ensures LifetimeCharged(t, account) == 0 && Outstanding(t, account) == 0
  {
    ZeroSum(t.reservations, ChargedOn(account));
    ZeroSum(t.reservations, OutstandingOn(account));
    ZeroSum(t.totals, SummarisedOn(account));
  }

  lemma {:induction false} UpsertedAccounts(rows: seq<Summary>, more: seq<Summary>, known: set<AccountId>)
    requires forall s :: s in rows ==> s.account in known
    requires forall s :: s in more ==> s.account in known
    ensures forall s :: s in UpsertAll(rows, more) ==> s.account in known
    decreases |more|
  {
    if more != [] {
      forall s | s in Upsert(rows, more[0]) ensures s.account in known {
        var i := Find(rows, InGroup(more[0]));
        if i < |rows| && s == Upsert(rows, more[0])[i] {
          assert rows[i] in rows;
        }
      }
      UpsertedAccounts(Upsert(rows, more[0]), more[1..], known);
    }
  }

  lemma {:induction false} JoinedAccounts(reservations: seq<Reservation>, requests: seq<Request>, known: set<AccountId>)
    requires forall q :: q in reservations ==> q.account in known
    ensures forall s :: s in Joined(reservations, requests) ==> s.account in known
  {
    if reservations != [] {
      JoinedAccounts(reservations[1..], requests, known);
      RowAccounts(reservations[0], Filter(requests, OfReservation(reservations[0].id)));
    }
  }

  lemma {:induction false} RowAccounts(q: Reservation, matches: seq<Request>)
    ensures forall s :: s in RowsFor(q, matches) ==> s.account == q.account
  {
    if matches != [] {
      RowAccounts(q, matches[1..]);
    }
  }

  lemma SummarisedAccounts(t: Tables, cutoff: Time)
    requires AccountsInv(t)
    ensures forall s :: s in AfterSummarise(t, cutoff).totals ==> s.account in t.accounts
  {
    if CutoffAdvances(t, cutoff) {
      var raw := Joined(EligibleRows(t, cutoff), t.requests);
      JoinedAccounts(EligibleRows(t, cutoff), t.requests, t.accounts.Keys);
      UpsertedAccounts([], raw, t.accounts.Keys);
      UpsertedAccounts(t.totals, NewRows(t, cutoff), t.accounts.Keys);
    }
  }

  lemma BalanceAfterSettle(t: Tables, id: ReservationId, o: Outcome, now: Time, account: AccountId)
    requires ReservationsInv(t.reservations) && account in t.accounts && t.accounts[account].balance >= 0
    ensures var after := AfterSettle(t, id, o, now);
            && account in after.accounts && after.accounts[account].balance >= 0
            && after.accounts[account].limit == t.accounts[account].limit
  {
    if SettlesNow(t, id) {
      assert t.reservations[Find(t.reservations, HasReservationId(id))] in t.reservations;
    }
  }

  /** How the balance of an account stays sound. */
  lemma BalanceAfterEvent(t: Tables, e: Event, account: AccountId)
    requires AccountsInv(t) && ReservationsInv(t.reservations) && account in t.accounts
    ensures account in AfterEvent(t, e).accounts
    ensures AfterEvent(t, e).accounts[account].balance >= 0 && AfterEvent(t, e).accounts[account].limit >= 0
  {
    assert SoundAccount(t, account);
    match e
    case Settle(id, o, now) => BalanceAfterSettle(t, id, o, now, account);
    case _ =>
  }

  lemma BaselineAfterEvent(t: Tables, e: Event, account: AccountId)
    requires account in t.accounts && !e.Reset?
    ensures account in AfterEvent(t, e).accounts
    ensures AfterEvent(t, e).accounts[account].baseline == t.accounts[account].baseline
  {
  }

  lemma EventKeepsAccount(t: Tables, e: Event, account: AccountId)
    requires AccountsInv(t) && ReservationsInv(t.reservations) && RequestsInv(t.reservations, t.requests)
    requires account in AfterEvent(t, e).accounts
    ensures SoundAccount(AfterEvent(t, e), account)
  {
    UseAfterEvent(t, e, account);
    if account in t.accounts {
      assert SoundAccount(t, account);
      BalanceAfterEvent(t, e, account);
      if e.Reset? {
        assert LifetimeCharged(AfterEvent(t, e), account) == LifetimeCharged(t, account);
      } else {
        BaselineAfterEvent(t, e, account);
      }
    } else {
      UnknownAccountIsUnused(t, account);
    }
  }

  lemma EventKeepsForeignKeys(t: Tables, e: Event)
    requires AccountsInv(t)
    ensures forall account :: account in t.accounts ==> account in AfterEvent(t, e).accounts
    ensures forall s :: s in AfterEvent(t, e).totals ==> s.account in t.accounts
  {
    match e
    case Summarise(cutoff) => SummarisedAccounts(t, cutoff);
    case _ =>
  }

  lemma EventKeepsReservationAccounts(t: Tables, e: Event)
    requires AccountsInv(t)
    ensures forall q :: q in AfterEvent(t, e).reservations ==> q.account in t.accounts
  {
    if e.Settle? && SettlesNow(t, e.id) {
      var i := Find(t.reservations, HasReservationId(e.id));
      assert t.reservations[i] in t.reservations;
    }
  }

  lemma EventKeepsAccounts(t: Tables, e: Event)
    requires AccountsInv(t) && ReservationsInv(t.reservations) && RequestsInv(t.reservations, t.requests)
    ensures AccountsInv(AfterEvent(t, e))
  {
    var after := AfterEvent(t, e);
    EventKeepsForeignKeys(t, e);
    EventKeepsReservationAccounts(t, e);
    forall account | account in after.accounts ensures SoundAccount(after, account) {
      EventKeepsAccount(t, e, account);
    }
  }

  // ---------- ledger entries ----------

  predicate DifferentEntries(a: Entry, b: Entry) {
    a.reservation != b.reservation || a.reason != b.reason
  }

  /** A refund entry belongs to a settled reservation. */
  predicate RefundSettled(f: Entry, q: Reservation) {
    f.reservation == q.id && f.reason.SettlementRefund? ==> q.state.Settled?
  }

  /** One entry per reservation and reason, and no refund before settlement. */
  ghost predicate LedgerInv(ledger: seq<Entry>, reservations: seq<Reservation>) {
    && Pairwise(ledger, DifferentEntries)
    && (forall f, q :: f in ledger && q in reservations ==> RefundSettled(f, q))
  }

  /** A reservation that is still open has no refund yet, so settling never drops one. */
  lemma RefundIsNew(t: Tables, q: Reservation, refund: int)
    requires LedgerInv(t.ledger, t.reservations) && q in t.reservations && q.state.Reserved?
    ensures var e := Entry(q.account, q.id, refund, SettlementRefund);
            (forall f :: f in t.ledger ==> DifferentEntries(f, e)) && WithEntry(t.ledger, e) == t.ledger + [e]
  {
    var e := Entry(q.account, q.id, refund, SettlementRefund);
    forall f | f in t.ledger ensures DifferentEntries(f, e) {
      assert RefundSettled(f, q);
    }
  }

  lemma ReserveKeepsLedger(t: Tables, id: ReservationId, c: ReserveCall)
    requires LedgerInv(t.ledger, t.reservations) && Possible(t, Reserve(id, c))
    ensures LedgerInv(AfterReserve(t, id, c).ledger, AfterReserve(t, id, c).reservations)
  {
    if ReservesNow(t, id, c) && !t.accounts[c.account].unlimited {
      PairwiseAppend(t.ledger, Entry(c.account, id, -c.estimate, QuotaHold), DifferentEntries);
    }
  }

  lemma SettledRow(reservations: seq<Reservation>, i: nat, settled: Reservation, x: Reservation)
    requires ReservationsInv(reservations) && i < |reservations| && settled.id == reservations[i].id
    requires x in reservations[i := settled] && x.id == settled.id
    ensures x == settled
  {
    var k :| 0 <= k < |reservations| && reservations[i := settled][k] == x;
    IdsTellRows(reservations, i, k);
  }

  lemma SettleKeepsLedger(t: Tables, id: ReservationId, o: Outcome, now: Time)
    requires LedgerInv(t.ledger, t.reservations) && ReservationsInv(t.reservations)
    ensures LedgerInv(AfterSettle(t, id, o, now).ledger, AfterSettle(t, id, o, now).reservations)
  {
    if SettlesNow(t, id) {
      var after, i := AfterSettle(t, id, o, now), Find(t.reservations, HasReservationId(id));
      var q := t.reservations[i];
      assert q in t.reservations;
      var refund := Refund(t, q, ClampedCharge(q, o.actual));
      RefundIsNew(t, q, refund);
      if refund != 0 {
        PairwiseAppend(t.ledger, Entry(q.account, id, refund, SettlementRefund), DifferentEntries);
      }
      forall f, x | f in after.ledger && x in after.reservations ensures RefundSettled(f, x) {
        if x.id == id {
          SettledRow(t.reservations, i, after.reservations[i], x);
        } else {
          assert x in t.reservations;
          assert f in t.ledger ==> RefundSettled(f, x);
        }
      }
    }
  }

  lemma SummariseKeepsLedger(t: Tables, cutoff: Time)
    requires LedgerInv(t.ledger, t.reservations)
    ensures LedgerInv(Filter(t.ledger, KeepsEntry(EligibleIds(t, cutoff))), Filter(t.reservations, IsKept(cutoff)))
  {
    PairwiseFilter(t.ledger, KeepsEntry(EligibleIds(t, cutoff)), DifferentEntries);
  }

  lemma EventKeepsLedger(t: Tables, e: Event)
    requires LedgerInv(t.ledger, t.reservations) && ReservationsInv(t.reservations) && Possible(t, e)
    ensures LedgerInv(AfterEvent(t, e).ledger, AfterEvent(t, e).reservations)
  {
    match e
    case Reserve(id, c) => ReserveKeepsLedger(t, id, c);
    case Settle(id, o, now) => SettleKeepsLedger(t, id, o, now);
    case Summarise(cutoff) => SummariseKeepsLedger(t, cutoff);
    case _ =>
  }

  // ---------- runs ----------

  ghost predicate TablesInv(t: Tables) {
    && ReservationsInv(t.reservations) && RequestsInv(t.reservations, t.requests)
    && AccountsInv(t) && LedgerInv(t.ledger, t.reservations)
  }

  function Run(t: Tables, es: seq<Event>): Option<Tables>
    decreases |es|
  {
    if es == [] then Some(t)
    else if !Possible(t, es[0]) then None
    else Run(AfterEvent(t, es[0]), es[1..])
  }

  lemma EventKeepsTables(t: Tables, e: Event)
    requires TablesInv(t) && Possible(t, e)
    ensures TablesInv(AfterEvent(t, e))
  {
    EventKeepsReservations(t, e);
    EventKeepsRequests(t, e);
    EventKeepsAccounts(t, e);
    EventKeepsLedger(t, e);
  }

  /** Every run from empty tables keeps every table sound. */
  lemma {:induction false} RunKeepsTables(t: Tables, es: seq<Event>)
    requires TablesInv(t) && Run(t, es).Some?
    ensures TablesInv(Run(t, es).value)
    decreases |es|
  {
    if es != [] {
      EventKeepsTables(t, es[0]);
      RunKeepsTables(AfterEvent(t, es[0]), es[1..]);
    }
  }

  lemma EventKeepsPeriod(t: Tables, e: Event)
    requires PeriodMatches(t)
    ensures PeriodMatches(AfterEvent(t, e))
  {
    match e
    case Summarise(cutoff) => PeriodStaysTheSum(t, cutoff);
    case _ => assert AfterEvent(t, e).totals == t.totals && AfterEvent(t, e).totalPeriod == t.totalPeriod;
  }

  lemma {:induction false} RunKeepsPeriod(t: Tables, es: seq<Event>)
    requires PeriodMatches(t) && Run(t, es).Some?
    ensures PeriodMatches(Run(t, es).value)
    decreases |es|
  {
    if es != [] {
      EventKeepsPeriod(t, es[0]);
      RunKeepsPeriod(AfterEvent(t, es[0]), es[1..]);
    }
  }

  // ---------- the service: requests are created with the ids that reserving answered ----------

  /** `answered` are the answers to reserve calls: for which request, and which reservation. */
  datatype Service = Service(tables: Tables, answered: set<(string, ReservationId)>)

  const Start := Service(Empty, {})

  /**
   * Reserving draws a fresh id. A request row is created by a caller whose reserve call was answered,
   * with the reservation it was given; anything may happen in between.
   */
  predicate Happens(s: Service, e: Event) {
    match e
    case Reserve(id, c) =>
      && (forall q :: q in s.tables.reservations ==> q.id != id)
      && (forall f :: f in s.tables.ledger ==> f.reservation != id)
      && (forall answer :: answer in s.answered ==> answer.1 != id)
    case Create(requestId, id) => (requestId, id) in s.answered
    case _ => true
  }

  function Answers(s: Service, e: Event): set<(string, ReservationId)> {
    if e.Reserve? && ReserveOutcome(s.tables, e.id, e.call).Ok?
    then {(e.call.requestId, ReserveOutcome(s.tables, e.id, e.call).value)} else {}
  }

  function AfterCall(s: Service, e: Event): Service {
    Service(AfterEvent(s.tables, e), s.answered + Answers(s, e))
  }

  function Serve(s: Service, es: seq<Event>): Option<Service>
    decreases |es|
  {
    if es == [] then Some(s)
    else if !Happens(s, es[0]) then None
    else Serve(AfterCall(s, es[0]), es[1..])
  }

  /** As long as an answered reservation is in its table, it is that of the request it was answered to. */
  ghost predicate AnswersHold(s: Service) {
    forall answer, q :: answer in s.answered && q in s.tables.reservations && q.id == answer.1 ==>
      q.requestId == answer.0
  }

  ghost predicate ServiceInv(s: Service) {
    TablesInv(s.tables) && AnswersHold(s)
  }

  /** What the tables' own runs assume of created requests is what reserving answered. */
  lemma HappensIsPossible(s: Service, e: Event)
    requires ServiceInv(s) && Happens(s, e)
    ensures Possible(s.tables, e)
  {
  }

  /** No transaction changes a reservation's id or request, or brings one in but for a reserve call. */
  lemma ReservationComesFrom(t: Tables, e: Event, q: Reservation)
    requires q in AfterEvent(t, e).reservations
    ensures (exists p :: p in t.reservations && p.id == q.id && p.requestId == q.requestId)
            || (e.Reserve? && q == NewReservation(e.id, e.call))
  {
    match e
    case Settle(id, o, now) =>
      var k :| 0 <= k < |AfterEvent(t, e).reservations| && AfterEvent(t, e).reservations[k] == q;
      assert t.reservations[k] in t.reservations;
    case Reserve(id, c) => assert q in t.reservations || q == NewReservation(id, c);
    case _ => assert q in t.reservations;
  }

  lemma NewAnswerHolds(s: Service, e: Event, q: Reservation)
    requires ServiceInv(s) && Happens(s, e) && e.Reserve? && ReserveOutcome(s.tables, e.id, e.call).Ok?
    requires q in AfterEvent(s.tables, e).reservations && q.id == ReserveOutcome(s.tables, e.id, e.call).value
    ensures q.requestId == e.call.requestId
  {
    ReserveAnswersItsCaller(s.tables, e.id, e.call);
    var own :| own in AfterEvent(s.tables, e).reservations
               && IsAnswer(own, ReserveOutcome(s.tables, e.id, e.call).value, e.call);
    HappensIsPossible(s, e);
    EventKeepsTables(s.tables, e);
    SameReservation(AfterEvent(s.tables, e).reservations, own, q);
  }

  lemma CallKeepsAnswers(s: Service, e: Event)
    requires ServiceInv(s) && Happens(s, e)
    ensures AnswersHold(AfterCall(s, e))
  {
    var after := AfterCall(s, e);
    forall answer, q | answer in after.answered && q in after.tables.reservations && q.id == answer.1
      ensures q.requestId == answer.0
    {
      if answer in s.answered {
        ReservationComesFrom(s.tables, e, q);
      } else {
        NewAnswerHolds(s, e, q);
      }
    }
  }

  lemma {:induction false} ServeIsARun(s: Service, es: seq<Event>)
    requires ServiceInv(s) && Serve(s, es).Some?
    ensures Run(s.tables, es) == Some(Serve(s, es).value.tables) && ServiceInv(Serve(s, es).value)
    decreases |es|
  {
    if es != [] {
      HappensIsPossible(s, es[0]);
      EventKeepsTables(s.tables, es[0]);
      CallKeepsAnswers(s, es[0]);
      ServeIsARun(AfterCall(s, es[0]), es[1..]);
    }
  }

  /** Over every run, the 'total' period row is the sum of the 'total' summary rows, metric by metric. */
  lemma {:induction false} PeriodIsTheSum(es: seq<Event>, name: Metric)
    requires Serve(Start, es).Some?
    ensures var t := Serve(Start, es).value.tables; Get(TotalPeriod(t), name) == SumOf(t.totals, Value(All, name))
  {
    ServeIsARun(Start, es);
    RunKeepsPeriod(Empty, es);
  }

  /** A request row belongs to the reservation that was made for this very request. */
  lemma {:induction false} RequestsHaveTheirReservation(es: seq<Event>, r: Request)
    requires Serve(Start, es).Some? && r in Serve(Start, es).value.tables.requests
    ensures exists q :: q in Serve(Start, es).value.tables.reservations && q.id == r.reservation && q.requestId == r.id
  {
    ServeIsARun(Start, es);
    assert Backed(Serve(Start, es).value.tables.reservations, r);
    var q :| q in Serve(Start, es).value.tables.reservations && Backs(q, r);
  }

  /**
   * Exactly-once accounting over every run: one request row per reservation, accepted and completed
   * at most once, charges within the reserved amount, at most one refund entry.
   */
  lemma {:induction false} ExactlyOnce(es: seq<Event>)
    requires Serve(Start, es).Some?
    ensures var t := Serve(Start, es).value.tables;
            && OneRequestEach(t)
            && (forall r :: r in t.requests ==> 0 <= r.accepted <= 1 && 0 <= r.completions <= 1)
            && (forall q :: q in t.reservations && q.state.Settled? ==> 0 <= q.actual <= q.reserved)
            && Pairwise(t.ledger, DifferentEntries)
            && (forall account :: account in t.accounts ==> t.accounts[account].balance >= 0)
  {
    var t := Serve(Start, es).value.tables;
    ServeIsARun(Start, es);
    AtMostOneRequest(t);
    forall r | r in t.requests ensures 0 <= r.accepted <= 1 && 0 <= r.completions <= 1 {
      assert SoundRequest(r);
    }
    forall account | account in t.accounts ensures t.accounts[account].balance >= 0 {
      assert SoundAccount(t, account);
    }
  }

  lemma IdsAreDistinct(reservations: seq<Reservation>)
    requires ReservationsInv(reservations)
    ensures DistinctReservations(reservations)
  {
    forall i, j | 0 <= i < j < |reservations| ensures reservations[i].id != reservations[j].id {
      assert Distinguished(reservations[i], reservations[j]);
    }
  }

  /** After any run, a summary returns the tally of the settled reservations and of their requests. */
  lemma {:induction false} SummariesTellTheFacts(es: seq<Event>, cutoff: Time)
    requires Serve(Start, es).Some?
    ensures var t := Serve(Start, es).value.tables;
            Batch(NewRows(t, cutoff)) == Tally(Filter(t.reservations, IsSettledBy(cutoff)), t.requests)
  {
    var t := Serve(Start, es).value.tables;
    ServeIsARun(Start, es);
    AtMostOneRequest(t);
    IdsAreDistinct(t.reservations);
    BatchIsTally(t, cutoff);
  }

  /** And so does the dashboard, for every selection, on top of what was summarised before. */
  lemma {:induction false} DashboardTellsTheFacts(es: seq<Event>, sel: Selection, name: Metric)
    requires Serve(Start, es).Some?
    ensures var t := Serve(Start, es).value.tables;
            Dashboard(t, sel, name)
            == Get(Tally(Filter(Filter(t.reservations, IsClosed()), IsAbout(sel)), t.requests), name)
               + SumOf(t.totals, Value(sel, name))
  {
    var t := Serve(Start, es).value.tables;
    ServeIsARun(Start, es);
    AtMostOneRequest(t);
    IdsAreDistinct(t.reservations);
    DashboardIsTally(t, sel, name);
  }

  /** A settled reservation is final: later transactions leave it alone until it is summarised away. */
  lemma SettledIsFinal(t: Tables, e: Event, q: Reservation)
    requires q in t.reservations && q.state.Settled?
    ensures q in AfterEvent(t, e).reservations || (e.Summarise? && Eligible(q, e.cutoff))
  {
    match e
    case Settle(id, o, now) =>
      if SettlesNow(t, id) {
        var k :| 0 <= k < |t.reservations| && t.reservations[k] == q;
        assert AfterEvent(t, e).reservations[k] == q;
      }
    case _ =>
  }

  // ---------- conservation ----------

  predicate ChangesQuota(e: Event, account: AccountId) {
    (e.UpdateQuota? && e.account == account) || (e.Reset? && e.account == account)
  }

  lemma LimitedStays(t: Tables, e: Event, account: AccountId)
    requires account in t.accounts && !ChangesQuota(e, account)
    ensures var after := AfterEvent(t, e);
            && account in after.accounts
            && after.accounts[account].unlimited == t.accounts[account].unlimited
            && after.accounts[account].limit == t.accounts[account].limit
  {
  }

  /** While an account stays limited, no transaction but a quota change moves its drift. */
  lemma LimitedDrift(t: Tables, e: Event, account: AccountId)
    requires TablesInv(t) && account in t.accounts && !t.accounts[account].unlimited && !ChangesQuota(e, account)
    ensures account in AfterEvent(t, e).accounts && Drift(AfterEvent(t, e), account) == Drift(t, account)
  {
    match e
    case Reserve(id, c) => ReserveDrift(t, id, c, account);
    case Settle(id, o, now) => SettleDrift(t, id, o, now, account);
    case Summarise(cutoff) => SummariseKeepsUse(t, cutoff, account);
    case _ => OtherDrift(t, e, account);
  }

  lemma OtherDrift(t: Tables, e: Event, account: AccountId)
    requires account in t.accounts && !ChangesQuota(e, account)
    requires e.Open? || e.Create? || e.Admit? || e.UpdateQuota? || e.Reset?
    ensures account in AfterEvent(t, e).accounts && Drift(AfterEvent(t, e), account) == Drift(t, account)
  {
    assert AfterEvent(t, e).reservations == t.reservations && AfterEvent(t, e).totals == t.totals;
    assert AfterEvent(t, e).accounts[account] == t.accounts[account];
  }

  lemma {:induction false} LimitedRunDrift(t: Tables, es: seq<Event>, account: AccountId)
    requires TablesInv(t) && Run(t, es).Some? && account in t.accounts && !t.accounts[account].unlimited
    requires forall e :: e in es ==> !ChangesQuota(e, account)
    ensures account in Run(t, es).value.accounts
    ensures Run(t, es).value.accounts[account].limit == t.accounts[account].limit
    ensures Drift(Run(t, es).value, account) == Drift(t, account)
    decreases |es|
  {
    if es != [] {
      assert es[0] in es && forall e :: e in es[1..] ==> e in es;
      LimitedDrift(t, es[0], account);
      LimitedStays(t, es[0], account);
      EventKeepsTables(t, es[0]);
      LimitedRunDrift(AfterEvent(t, es[0]), es[1..], account);
    }
  }

  /** The service once this account is opened with a limit. */
  function Opened(before: seq<Event>, account: AccountId, limit: nat): Service
    requires Serve(Start, before).Some?
  {
    AfterCall(Serve(Start, before).value, Open(account, limit, false))
  }

  lemma {:induction false} OpenedIsSound(before: seq<Event>, account: AccountId, limit: nat)
    requires Serve(Start, before).Some?
    ensures ServiceInv(Opened(before, account, limit))
  {
    var s := Serve(Start, before).value;
    ServeIsARun(Start, before);
    EventKeepsTables(s.tables, Open(account, limit, false));
    CallKeepsAnswers(s, Open(account, limit, false));
  }

  /**
   * Quota conservation: over any run after a limited account is opened, without quota changes on it,
   * its balance, outstanding reservations and lifetime charges add up to its limit.
   */
  lemma {:induction false} QuotaIsConserved(before: seq<Event>, account: AccountId, limit: nat, es: seq<Event>)
    requires Serve(Start, before).Some? && account !in Serve(Start, before).value.tables.accounts
    requires Serve(Opened(before, account, limit), es).Some?
    requires forall e :: e in es ==> !ChangesQuota(e, account)
    ensures var t := Serve(Opened(before, account, limit), es).value.tables;
            && account in t.accounts
            && t.accounts[account].balance + Outstanding(t, account) + Used(t, account) == limit
  {
    var s := Serve(Start, before).value;
    ServeIsARun(Start, before);
    UnknownAccountIsUnused(s.tables, account);
    OpenedIsSound(before, account, limit);
    ServeIsARun(Opened(before, account, limit), es);
    LimitedRunDrift(AfterOpen(s.tables, account, limit, false), es, account);
  }

  // ---------- the ledger explains the charges ----------

  function DeltaOf(id: ReservationId): Entry -> int {
    (f: Entry) => if f.reservation == id then f.delta else 0
  }

  /** What a reservation takes from its account: its size while open, its charge once settled. */
  function Cost(q: Reservation): int {
    if q.state.Reserved? then q.reserved else q.actual
  }

  predicate ExplainedRow(ledger: seq<Entry>, q: Reservation) {
    SumOf(ledger, DeltaOf(q.id)) == -Cost(q)
  }

  /** The ledger entries of each of the account's reservations add up to what the reservation costs. */
  ghost predicate Explained(t: Tables, account: AccountId) {
    forall q :: q in t.reservations && q.account == account ==> ExplainedRow(t.ledger, q)
  }

  lemma ReserveExplains(t: Tables, id: ReservationId, c: ReserveCall, account: AccountId)
    requires Possible(t, Reserve(id, c)) && Explained(t, account)
    requires account in t.accounts && !t.accounts[account].unlimited
    ensures Explained(AfterReserve(t, id, c), account)
  {
    var after := AfterReserve(t, id, c);
    if ReservesNow(t, id, c) {
      var entry := Entry(c.account, id, -c.estimate, QuotaHold);
      forall q | q in after.reservations && q.account == account ensures ExplainedRow(after.ledger, q) {
        SumOfAppend(t.ledger, [entry], DeltaOf(q.id));
        SumOfOne(entry, DeltaOf(q.id));
        if q.id == id {
          ZeroSum(t.ledger, DeltaOf(id));
        } else {
          assert q in t.reservations && ExplainedRow(t.ledger, q);
        }
      }
    }
  }

  lemma SettleExplains(t: Tables, id: ReservationId, o: Outcome, now: Time, account: AccountId)
    requires TablesInv(t) && Explained(t, account) && SettlesNow(t, id)
    requires account in t.accounts && !t.accounts[account].unlimited
    ensures Explained(AfterSettle(t, id, o, now), account)
  {
    var after, i := AfterSettle(t, id, o, now), Find(t.reservations, HasReservationId(id));
    var open := t.reservations[i];
    assert open in t.reservations;
    var refund := Refund(t, open, ClampedCharge(open, o.actual));
    var entry := Entry(open.account, id, refund, SettlementRefund);
    RefundIsNew(t, open, refund);
    forall q | q in after.reservations && q.account == account ensures ExplainedRow(after.ledger, q) {
      SumOfAppend(t.ledger, [entry], DeltaOf(q.id));
      SumOfOne(entry, DeltaOf(q.id));
      if q.id == id {
        SettledRow(t.reservations, i, after.reservations[i], q);
        assert ExplainedRow(t.ledger, open);
      } else {
        assert q in t.reservations && ExplainedRow(t.ledger, q);
      }
    }
  }

  lemma {:induction false} KeptEntriesSum(ledger: seq<Entry>, ids: set<ReservationId>, id: ReservationId)
    requires id !in ids
    ensures SumOf(Filter(ledger, KeepsEntry(ids)), DeltaOf(id)) == SumOf(ledger, DeltaOf(id))
  {
    if ledger != [] {
      KeptEntriesSum(ledger[1..], ids, id);
    }
  }

  lemma SummariseExplains(t: Tables, cutoff: Time, account: AccountId)
    requires ReservationsInv(t.reservations) && Explained(t, account)
    ensures Explained(AfterSummarise(t, cutoff), account)
  {
    var after := AfterSummarise(t, cutoff);
    if CutoffAdvances(t, cutoff) {
      forall q | q in after.reservations && q.account == account ensures ExplainedRow(after.ledger, q) {
        assert ExplainedRow(t.ledger, q);
        NotEligibleId(t, cutoff, q);
        KeptEntriesSum(t.ledger, EligibleIds(t, cutoff), q.id);
      }
    }
  }

  lemma NotEligibleId(t: Tables, cutoff: Time, q: Reservation)
    requires ReservationsInv(t.reservations) && q in t.reservations && !Eligible(q, cutoff)
    ensures q.id !in EligibleIds(t, cutoff)
  {
    IdsAreDistinct(t.reservations);
    KeptIsNotEligible(t, cutoff, q);
  }

  lemma EventExplains(t: Tables, e: Event, account: AccountId)
    requires TablesInv(t) && Possible(t, e) && Explained(t, account)
    requires account in t.accounts && !t.accounts[account].unlimited
    ensures Explained(AfterEvent(t, e), account)
  {
    match e
    case Reserve(id, c) => ReserveExplains(t, id, c, account);
    case Settle(id, o, now) => if SettlesNow(t, id) { SettleExplains(t, id, o, now, account); }
    case Summarise(cutoff) => SummariseExplains(t, cutoff, account);
    case _ => assert AfterEvent(t, e).reservations == t.reservations && AfterEvent(t, e).ledger == t.ledger;
  }

  lemma {:induction false} LimitedRunExplains(t: Tables, es: seq<Event>, account: AccountId)
    requires TablesInv(t) && Run(t, es).Some? && Explained(t, account)
    requires account in t.accounts && !t.accounts[account].unlimited
    requires forall e :: e in es ==> !ChangesQuota(e, account)
    ensures Explained(Run(t, es).value, account)
    decreases |es|
  {
    if es != [] {
      assert es[0] in es && forall e :: e in es[1..] ==> e in es;
      EventExplains(t, es[0], account);
      LimitedStays(t, es[0], account);
      EventKeepsTables(t, es[0]);
      LimitedRunExplains(AfterEvent(t, es[0]), es[1..], account);
    }
  }

  /** Over any run of a limited account, each of its reservations is explained by its ledger entries. */
  lemma {:induction false} LedgerExplainsCharges(before: seq<Event>, account: AccountId, limit: nat, es: seq<Event>)
    requires Serve(Start, before).Some? && account !in Serve(Start, before).value.tables.accounts
    requires Serve(Opened(before, account, limit), es).Some?
    requires forall e :: e in es ==> !ChangesQuota(e, account)
    ensures Explained(Serve(Opened(before, account, limit), es).value.tables, account)
  {
    var s := Serve(Start, before).value;
    ServeIsARun(Start, before);
    OpenedIsSound(before, account, limit);
    ServeIsARun(Opened(before, account, limit), es);
    LimitedRunExplains(AfterOpen(s.tables, account, limit, false), es, account);
  }
}
