/**
 * The quota ledger: accounts, reservations, request rows and ledger entries as tables, and one
 * function per transaction. The drift of an account measures how far its balance is from what its
 * limit, its charges and its outstanding reservations call for.
 */
module Ledger {
  import opened Collections
  import opened Domain

  type AccountId = string
  type KeyId = string
  type ReservationId = string

  datatype Account = Account(balance: int, limit: int, unlimited: bool, baseline: int)

  datatype ReservationState = Reserved | Settled

  /** `actual` and `settledAt` are null until settlement. */
  datatype Reservation = Reservation(id: ReservationId, requestId: string, idempotency: string,
                                     account: AccountId, key: KeyId, model: ModelId, reserved: int,
                                     state: ReservationState, actual: int, settledAt: Option<Time>)

  datatype RequestState = Queued | Admitted | Completed | Failed

  datatype Request = Request(id: string, reservation: ReservationId, state: RequestState,
                             prompt: Option<int>, completion: Option<int>, admittedAt: Option<Time>,
                             completedAt: Option<Time>, accepted: int, completions: int)

  datatype Reason = QuotaHold | SettlementRefund

  datatype Entry = Entry(account: AccountId, reservation: ReservationId, delta: int, reason: Reason)

  datatype Metrics = Metrics(requests: int, successful: int, failed: int, reserved: int, charged: int,
                             prompt: int, completion: int, outputForRate: int, timed: int)

  /** One row of the lifetime summaries, keyed by account, key and model. */
  datatype Summary = Summary(account: AccountId, key: KeyId, model: ModelId, metrics: Metrics)

  datatype Tables = Tables(accounts: map<AccountId, Account>, reservations: seq<Reservation>,
                           requests: seq<Request>, ledger: seq<Entry>, totals: seq<Summary>,
                           totalPeriod: Option<Metrics>, currentEnd: Option<Time>)

  const Empty := Tables(map[], [], [], [], [], None, None)

  /** The first row that satisfies a test, or the number of rows. */
  function Find<T>(rows: seq<T>, p: T -> bool): (i: nat)
    ensures i <= |rows|
    ensures i < |rows| ==> p(rows[i])
    ensures forall j :: 0 <= j < i ==> !p(rows[j])
  {
    if rows == [] || p(rows[0]) then 0 else 1 + Find(rows[1..], p)
  }

  function HasReservationId(id: ReservationId): Reservation -> bool {
    (q: Reservation) => q.id == id
  }

  function HasIdempotency(key: KeyId, idempotency: string): Reservation -> bool {
    (q: Reservation) => q.key == key && q.idempotency == idempotency
  }

  function HasRequestId(id: string): Request -> bool {
    (r: Request) => r.id == id
  }

  // ---------- reserving ----------

  datatype ReserveCall = ReserveCall(requestId: string, idempotency: string, account: AccountId, key: KeyId,
                                     model: ModelId, estimate: int)

  datatype ReserveError =
    | IdempotencyConflict
    | AccountMissing
    | QuotaExceeded(balance: int, needed: int)
    | ConstraintFailed

  function Existing(t: Tables, c: ReserveCall): (i: nat)
    ensures i <= |t.reservations|
  {
    Find(t.reservations, HasIdempotency(c.key, c.idempotency))
  }

  /** A new row must have a fresh request id and a non-negative size, or the insert fails. */
  predicate Insertable(t: Tables, c: ReserveCall) {
    c.estimate >= 0 && forall q :: q in t.reservations ==> q.requestId != c.requestId
  }

  /** `id` is the fresh identifier drawn for a new reservation. */
  function ReserveOutcome(t: Tables, id: ReservationId, c: ReserveCall): Result<ReservationId, ReserveError> {
    var i := Existing(t, c);
    if i < |t.reservations| then
      if t.reservations[i].requestId != c.requestId then Err(IdempotencyConflict) else Ok(t.reservations[i].id)
    else if c.account !in t.accounts then Err(AccountMissing)
    else
      var account := t.accounts[c.account];
      if !account.unlimited && account.balance < c.estimate then Err(QuotaExceeded(account.balance, c.estimate))
      else if !Insertable(t, c) then Err(ConstraintFailed)
      else Ok(id)
  }

  predicate ReservesNow(t: Tables, id: ReservationId, c: ReserveCall) {
    Existing(t, c) == |t.reservations| && ReserveOutcome(t, id, c).Ok?
  }

  function NewReservation(id: ReservationId, c: ReserveCall): Reservation {
    Reservation(id, c.requestId, c.idempotency, c.account, c.key, c.model, c.estimate, Reserved, 0, None)
  }

  function AfterReserve(t: Tables, id: ReservationId, c: ReserveCall): Tables {
    if !ReservesNow(t, id, c) then t
    else
      var inserted := t.(reservations := t.reservations + [NewReservation(id, c)]);
      var account := t.accounts[c.account];
      if account.unlimited then inserted
      else inserted.(accounts := t.accounts[c.account := account.(balance := account.balance - c.estimate)],
                     ledger := t.ledger + [Entry(c.account, id, -c.estimate, QuotaHold)])
  }

  lemma {:induction false} FoundOrAbsent<T>(rows: seq<T>, p: T -> bool)
    ensures Find(rows, p) < |rows| <==> exists x :: x in rows && p(x)
  {
    if Find(rows, p) < |rows| {
      assert rows[Find(rows, p)] in rows;
    } else {
      forall x | x in rows ensures !p(x) {
        var j :| 0 <= j < |rows| && rows[j] == x;
      }
    }
  }

  /** The reservation a successful call names is the caller's own: its request, key and idempotency key. */
  lemma ReserveAnswersItsCaller(t: Tables, id: ReservationId, c: ReserveCall)
    requires ReserveOutcome(t, id, c).Ok?
    ensures exists q :: q in AfterReserve(t, id, c).reservations && IsAnswer(q, ReserveOutcome(t, id, c).value, c)
  {
    var i, after := Existing(t, c), AfterReserve(t, id, c);
    if i < |t.reservations| {
      assert t.reservations[i] in after.reservations && IsAnswer(t.reservations[i], t.reservations[i].id, c);
    } else {
      assert after.reservations[|t.reservations|] == NewReservation(id, c);
      assert IsAnswer(NewReservation(id, c), id, c);
    }
  }

  predicate IsAnswer(q: Reservation, id: ReservationId, c: ReserveCall) {
    q.id == id && q.requestId == c.requestId && q.key == c.key && q.idempotency == c.idempotency
  }

  /** An idempotency key that serves another request already is refused, and only such a one is. */
  lemma ConflictExactlyWhen(t: Tables, id: ReservationId, c: ReserveCall)
    requires forall a, b :: a in t.reservations && b in t.reservations
                            && HasIdempotency(c.key, c.idempotency)(a) && HasIdempotency(c.key, c.idempotency)(b) ==>
                              a == b
    ensures ReserveOutcome(t, id, c) == Err(IdempotencyConflict)
            <==> exists q :: q in t.reservations && q.key == c.key && q.idempotency == c.idempotency
                             && q.requestId != c.requestId
  {
    FoundOrAbsent(t.reservations, HasIdempotency(c.key, c.idempotency));
    if Existing(t, c) < |t.reservations| {
      assert t.reservations[Existing(t, c)] in t.reservations;
    }
  }

  /** A first call succeeds exactly when the account is there and can pay, and the request is new. */
  lemma FirstReserveSucceedsExactlyWhen(t: Tables, id: ReservationId, c: ReserveCall)
    requires forall q :: q in t.reservations ==> !(q.key == c.key && q.idempotency == c.idempotency)
    ensures ReserveOutcome(t, id, c).Ok?
            <==> && c.account in t.accounts && c.estimate >= 0
                 && (t.accounts[c.account].unlimited || c.estimate <= t.accounts[c.account].balance)
                 && forall q :: q in t.reservations ==> q.requestId != c.requestId
  {
    FoundOrAbsent(t.reservations, HasIdempotency(c.key, c.idempotency));
  }

  /**
   * What a new reservation writes: an open row with the caller's data, and, unless the account is
   * unlimited, its size off the balance and into the ledger. Nothing else changes.
   */
  lemma ReservationIsRecorded(t: Tables, id: ReservationId, c: ReserveCall)
    requires ReserveOutcome(t, id, c).Ok? && forall q :: q in t.reservations ==> !IsAnswer(q, q.id, c)
    ensures var after := AfterReserve(t, id, c);
            && |after.reservations| == |t.reservations| + 1 && after.reservations[..|t.reservations|] == t.reservations
            && var q := after.reservations[|t.reservations|];
               && IsAnswer(q, id, c) && q.account == c.account && q.model == c.model && q.reserved == c.estimate
               && q.state.Reserved? && q.settledAt.None?
    ensures var after := AfterReserve(t, id, c);
            && c.account in t.accounts && after.accounts.Keys == t.accounts.Keys
            && (forall a :: a in t.accounts && a != c.account ==> after.accounts[a] == t.accounts[a])
            && (if t.accounts[c.account].unlimited then
                  after.accounts[c.account] == t.accounts[c.account] && after.ledger == t.ledger
                else
                  && after.accounts[c.account].balance + c.estimate == t.accounts[c.account].balance
                  && after.ledger == t.ledger + [Entry(c.account, id, -c.estimate, QuotaHold)])
            && after.requests == t.requests
  {
    FoundOrAbsent(t.reservations, HasIdempotency(c.key, c.idempotency));
    if Existing(t, c) < |t.reservations| {
      assert IsAnswer(t.reservations[Existing(t, c)], t.reservations[Existing(t, c)].id, c);
    }
  }

  // ---------- settling ----------

  datatype Outcome = Outcome(actual: int, prompt: Option<int>, completion: Option<int>, failed: bool)

  /** What was used, but nothing negative and no more than was reserved. */
  function ClampedCharge(q: Reservation, actual: int): (charged: int)
    ensures q.reserved >= 0 ==> 0 <= charged <= q.reserved
    ensures 0 <= actual <= q.reserved ==> charged == actual
    ensures actual > q.reserved >= 0 ==> charged == q.reserved
  {
    Min(Max(0, actual), q.reserved)
  }

  function FinishedRequest(r: Request, o: Outcome, now: Time): Request {
    r.(state := if o.failed then Failed else Completed, prompt := o.prompt, completion := o.completion,
       completedAt := Some(now), completions := r.completions + 1)
  }

  function FinishRequests(requests: seq<Request>, id: ReservationId, o: Outcome, now: Time): (after: seq<Request>)
    ensures |after| == |requests|
    ensures forall k :: 0 <= k < |requests| ==>
              after[k] == if requests[k].reservation == id then FinishedRequest(requests[k], o, now)
                          else requests[k]
  {
    seq(|requests|, k requires 0 <= k < |requests| =>
      if requests[k].reservation == id then FinishedRequest(requests[k], o, now) else requests[k])
  }

  predicate SettlesNow(t: Tables, id: ReservationId) {
    var i := Find(t.reservations, HasReservationId(id));
    i < |t.reservations| && t.reservations[i].state.Reserved?
  }

  /** The unused part of a reservation flows back unless the account is unlimited right now. */
  function Refund(t: Tables, q: Reservation, charged: int): int {
    if q.account in t.accounts && !t.accounts[q.account].unlimited then q.reserved - charged else 0
  }

  /** `INSERT OR IGNORE` under the uniqueness of (reservation, reason). */
  function WithEntry(ledger: seq<Entry>, e: Entry): seq<Entry> {
    if exists f :: f in ledger && f.reservation == e.reservation && f.reason == e.reason then ledger
    else ledger + [e]
  }

  function AfterSettle(t: Tables, id: ReservationId, o: Outcome, now: Time): Tables {
    if !SettlesNow(t, id) then t
    else
      var i := Find(t.reservations, HasReservationId(id));
      var q := t.reservations[i];
      var charged := ClampedCharge(q, o.actual);
      var refund := Refund(t, q, charged);
      var row := q.(actual := charged, state := Settled, settledAt := Some(now));
      var settled := t.(reservations := t.reservations[i := row],
                        requests := FinishRequests(t.requests, id, o, now));
      if refund == 0 then settled
      else settled.(accounts := t.accounts[q.account := t.accounts[q.account]
                                             .(balance := t.accounts[q.account].balance + refund)],
                    ledger := WithEntry(t.ledger, Entry(q.account, id, refund, SettlementRefund)))
  }

  /**
   * What a settlement writes: the charge and the instant on its reservation; the error or completion,
   * the token counts and the instant on that reservation's requests; nothing on any other row.
   */
  lemma SettlementIsRecorded(t: Tables, id: ReservationId, o: Outcome, now: Time, i: nat)
    requires i < |t.reservations| && t.reservations[i].id == id && t.reservations[i].state.Reserved?
    requires t.reservations[i].reserved >= 0 && forall j :: 0 <= j < i ==> t.reservations[j].id != id
    ensures var (before, after) := (t.reservations[i], AfterSettle(t, id, o, now).reservations[i]);
            && after.state.Settled? && after.settledAt == Some(now)
            && after.actual == (if o.actual < 0 then 0 else if o.actual < before.reserved then o.actual
                                else before.reserved)
            && after.(state := before.state, settledAt := before.settledAt, actual := before.actual) == before
    ensures var after := AfterSettle(t, id, o, now);
            && |after.reservations| == |t.reservations| && |after.requests| == |t.requests|
            && (forall j :: 0 <= j < |t.reservations| && j != i ==> after.reservations[j] == t.reservations[j])
            && forall k :: 0 <= k < |t.requests| ==> RequestIsRecorded(t.requests[k], after.requests[k], id, o, now)
  {
    FindIsFirst(t.reservations, HasReservationId(id), i);
  }

  predicate RequestIsRecorded(before: Request, after: Request, id: ReservationId, o: Outcome, now: Time) {
    if before.reservation != id then after == before
    else
      && after.id == before.id && after.reservation == id && after.accepted == before.accepted
      && after.admittedAt == before.admittedAt
      && (if o.failed then after.state == Failed else after.state == Completed)
      && after.prompt == o.prompt && after.completion == o.completion
      && after.completedAt == Some(now) && after.completions == before.completions + 1
  }

  /** Releasing is settling for nothing, with an error code. */
  const Nothing := Outcome(0, None, None, true)

  // ---------- requests ----------

  /** `INSERT OR IGNORE` by request id; the reservation must exist. */
  function AfterCreateRequest(t: Tables, requestId: string, id: ReservationId): Tables {
    if Find(t.reservations, HasReservationId(id)) == |t.reservations|
       || Find(t.requests, HasRequestId(requestId)) < |t.requests| then t
    else t.(requests := t.requests + [Request(requestId, id, Queued, None, None, None, None, 0, 0)])
  }

  predicate Admits(t: Tables, requestId: string) {
    var i := Find(t.requests, HasRequestId(requestId));
    i < |t.requests| && t.requests[i].state.Queued?
  }

  function AfterAdmitted(t: Tables, requestId: string, now: Time): Tables {
    if !Admits(t, requestId) then t
    else
      var i := Find(t.requests, HasRequestId(requestId));
      var r := t.requests[i];
      t.(requests := t.requests[i := r.(state := Admitted, admittedAt := Some(now), accepted := r.accepted + 1)])
  }

  /** A request gets one queued row for its reservation, and being admitted is marked on it once. */
  lemma CreatedThenAdmitted(t: Tables, requestId: string, id: ReservationId, now: Time)
    requires exists q :: q in t.reservations && q.id == id
    requires forall r :: r in t.requests ==> r.id != requestId
    ensures var created := AfterCreateRequest(t, requestId, id);
            && created.requests == t.requests + [Request(requestId, id, Queued, None, None, None, None, 0, 0)]
            && Admits(created, requestId)
            && var admitted := AfterAdmitted(created, requestId, now);
               && admitted.requests
                  == t.requests + [Request(requestId, id, Admitted, None, None, Some(now), None, 1, 0)]
               && !Admits(admitted, requestId)
  {
    FoundOrAbsent(t.reservations, HasReservationId(id));
    FoundOrAbsent(t.requests, HasRequestId(requestId));
    var created := AfterCreateRequest(t, requestId, id);
    FindIsFirst(created.requests, HasRequestId(requestId), |t.requests|);
    var admitted := AfterAdmitted(created, requestId, now);
    FindIsFirst(admitted.requests, HasRequestId(requestId), |t.requests|);
  }

  // ---------- accounts ----------

  function AfterOpen(t: Tables, account: AccountId, limit: nat, unlimited: bool): Tables {
    if account in t.accounts then t
    else t.(accounts := t.accounts[account := Account(limit, limit, unlimited, 0)])
  }

  function ChargedOn(account: AccountId): Reservation -> int {
    (q: Reservation) => if q.account == account && q.state.Settled? then q.actual else 0
  }

  function OutstandingOn(account: AccountId): Reservation -> int {
    (q: Reservation) => if q.account == account && q.state.Reserved? then q.reserved else 0
  }

  function SummarisedOn(account: AccountId): Summary -> int {
    (s: Summary) => if s.account == account then s.metrics.charged else 0
  }

  /** The lifetime view: settled reservations still in the table plus everything summarised. */
  function LifetimeCharged(t: Tables, account: AccountId): int {
    SumOf(t.reservations, ChargedOn(account)) + SumOf(t.totals, SummarisedOn(account))
  }

  function Outstanding(t: Tables, account: AccountId): int {
    SumOf(t.reservations, OutstandingOn(account))
  }

  function Used(t: Tables, account: AccountId): int
    requires account in t.accounts
  {
    LifetimeCharged(t, account) - t.accounts[account].baseline
  }

  /** A negative limit violates the table's constraint and changes nothing. */
  function AfterUpdateQuota(t: Tables, account: AccountId, limit: int, unlimited: bool): Tables {
    if account !in t.accounts || limit < 0 then t
    else t.(accounts := t.accounts[account := t.accounts[account].(
                                     balance := Max(0, limit - Max(0, Used(t, account))),
                                     limit := limit, unlimited := unlimited)])
  }

  function AfterReset(t: Tables, account: AccountId): Tables {
    if account !in t.accounts then t
    else t.(accounts := t.accounts[account := t.accounts[account].(
                                     balance := t.accounts[account].limit,
                                     baseline := LifetimeCharged(t, account))])
  }

  // ---------- the drift ----------

  /** Zero exactly when balance, outstanding reservations and recorded use add up to the limit. */
  function Drift(t: Tables, account: AccountId): int
    requires account in t.accounts
  {
    t.accounts[account].balance + Outstanding(t, account) + Used(t, account) - t.accounts[account].limit
  }

  /** Reserving conserves a limited account; an unlimited one drifts by what it reserves. */
  lemma ReserveDrift(t: Tables, id: ReservationId, c: ReserveCall, account: AccountId)
    requires account in t.accounts
    ensures var after := AfterReserve(t, id, c);
            && account in after.accounts
            && Drift(after, account)
               == Drift(t, account)
                  + (if ReservesNow(t, id, c) && c.account == account && t.accounts[account].unlimited
                     then c.estimate else 0)
  {
    if ReservesNow(t, id, c) {
      var q := NewReservation(id, c);
      SumOfAppend(t.reservations, [q], ChargedOn(account));
      SumOfAppend(t.reservations, [q], OutstandingOn(account));
    }
  }

  /** Settling conserves a limited account; an unlimited one keeps no refund and drifts back by it. */
  lemma SettleDrift(t: Tables, id: ReservationId, o: Outcome, now: Time, account: AccountId)
    requires account in t.accounts
    ensures var (after, i) := (AfterSettle(t, id, o, now), Find(t.reservations, HasReservationId(id)));
            && account in after.accounts
            && Drift(after, account)
               == Drift(t, account)
                  - (if SettlesNow(t, id) && t.reservations[i].account == account && t.accounts[account].unlimited
                     then t.reservations[i].reserved - ClampedCharge(t.reservations[i], o.actual) else 0)
  {
    if SettlesNow(t, id) {
      var i := Find(t.reservations, HasReservationId(id));
      var q := t.reservations[i];
      var settled := q.(actual := ClampedCharge(q, o.actual), state := Settled, settledAt := Some(now));
      SumOfUpdate(t.reservations, i, settled, ChargedOn(account));
      SumOfUpdate(t.reservations, i, settled, OutstandingOn(account));
    }
  }

  /** A quota change forgets outstanding reservations, and use beyond the new limit. */
  lemma UpdateQuotaDrift(t: Tables, account: AccountId, limit: int, unlimited: bool)
    requires account in t.accounts && limit >= 0 && Used(t, account) >= 0
    ensures var after := AfterUpdateQuota(t, account, limit, unlimited);
            && Drift(after, account) == Outstanding(t, account) + Max(0, Used(t, account) - limit)
            && after.accounts[account].limit == limit && after.accounts[account].unlimited == unlimited
  {
  }

  /** A usage reset forgets outstanding reservations. */
  lemma ResetDrift(t: Tables, account: AccountId)
    requires account in t.accounts
    ensures Drift(AfterReset(t, account), account) == Outstanding(t, account)
  {
  }

  /** Both re-establish the balance equation exactly when nothing is outstanding (and the limit covers the use). */
  lemma QuotaIsExactExactlyWhen(t: Tables, account: AccountId, limit: int, unlimited: bool)
    requires account in t.accounts && limit >= 0 && Used(t, account) >= 0 && Outstanding(t, account) >= 0
    ensures Drift(AfterUpdateQuota(t, account, limit, unlimited), account) == 0
            <==> Outstanding(t, account) == 0 && Used(t, account) <= limit
    ensures Drift(AfterReset(t, account), account) == 0 <==> Outstanding(t, account) == 0
  {
    UpdateQuotaDrift(t, account, limit, unlimited);
    ResetDrift(t, account);
  }

  // ---------- retries ----------

  lemma {:induction false} FindIsFirst<T>(rows: seq<T>, p: T -> bool, k: nat)
    requires k < |rows| && p(rows[k]) && forall j :: 0 <= j < k ==> !p(rows[j])
    ensures Find(rows, p) == k
  {
    if k > 0 {
      assert !p(rows[0]);
      assert forall j :: 0 <= j < k - 1 ==> rows[1..][j] == rows[j + 1];
      FindIsFirst(rows[1..], p, k - 1);
    }
  }

  /** Retrying a successful reservation returns the same reservation and changes nothing. */
  lemma RetryIsHarmless(t: Tables, id: ReservationId, c: ReserveCall, other: ReservationId)
    requires ReserveOutcome(t, id, c).Ok?
    ensures var once := AfterReserve(t, id, c);
            ReserveOutcome(once, other, c) == ReserveOutcome(t, id, c) && AfterReserve(once, other, c) == once
  {
    if ReservesNow(t, id, c) {
      FindIsFirst(AfterReserve(t, id, c).reservations, HasIdempotency(c.key, c.idempotency), |t.reservations|);
    }
  }

  /** Settling again, with whatever outcome, changes nothing. */
  lemma SettlingAgainIsHarmless(t: Tables, id: ReservationId, o: Outcome, now: Time, again: Outcome, later: Time)
    ensures AfterSettle(AfterSettle(t, id, o, now), id, again, later) == AfterSettle(t, id, o, now)
  {
    if SettlesNow(t, id) {
      FindIsFirst(AfterSettle(t, id, o, now).reservations, HasReservationId(id),
                  Find(t.reservations, HasReservationId(id)));
    }
  }
}
