/** The database's transactions as the source runs them: table fields changed in place. */
module Database {
  import opened Collections
  import opened Domain
  import opened Ledger
  import opened LedgerRuns
  import opened Usage

  datatype SummaryError = CutoffNotAdvanced

  class Database {
    var accounts: map<AccountId, Account>
    var reservations: seq<Reservation>
    var requests: seq<Request>
    var ledger: seq<Entry>
    var totals: seq<Summary>
    var totalPeriod: Option<Metrics>
    var currentEnd: Option<Time>

    function Contents(): Tables
      reads this
    {
      Tables(accounts, reservations, requests, ledger, totals, totalPeriod, currentEnd)
    }

    constructor ()
      ensures Contents() == Empty
    {
      accounts, reservations, requests, ledger, totals := map[], [], [], [], [];
      totalPeriod, currentEnd := None, None;
    }

    /** `id` is the fresh identifier the source draws when it inserts. */
    method ReserveQuota(id: ReservationId, c: ReserveCall) returns (r: Result<ReservationId, ReserveError>)
      modifies this
      ensures r == ReserveOutcome(old(Contents()), id, c)
      ensures Contents() == AfterReserve(old(Contents()), id, c)
      ensures r.Ok? ==> exists q :: q in reservations && IsAnswer(q, r.value, c)
    {
      if ReserveOutcome(Contents(), id, c).Ok? {
        ReserveAnswersItsCaller(Contents(), id, c);
      }
      var i := Find(reservations, HasIdempotency(c.key, c.idempotency));
      if i < |reservations| {
        if reservations[i].requestId != c.requestId {
          return Err(IdempotencyConflict);
        }
        return Ok(reservations[i].id);
      }
      if c.account !in accounts {
        return Err(AccountMissing);
      }
      var account := accounts[c.account];
      if !account.unlimited && account.balance < c.estimate {
        return Err(QuotaExceeded(account.balance, c.estimate));
      }
      if c.estimate < 0 || exists q :: q in reservations && q.requestId == c.requestId {
        return Err(ConstraintFailed);
      }
      reservations := reservations + [NewReservation(id, c)];
      if !account.unlimited {
        accounts := accounts[c.account := account.(balance := account.balance - c.estimate)];
        ledger := ledger + [Entry(c.account, id, -c.estimate, QuotaHold)];
      }
      return Ok(id);
    }

    method SettleQuota(id: ReservationId, o: Outcome, now: Time)
      modifies this
      ensures Contents() == AfterSettle(old(Contents()), id, o, now)
    {
      var i := Find(reservations, HasReservationId(id));
      if i == |reservations| || reservations[i].state != Reserved {
        return;
      }
      var q := reservations[i];
      var charged := ClampedCharge(q, o.actual);
      var refund := q.reserved - charged;
      if q.account in accounts && !accounts[q.account].unlimited && refund != 0 {
        var account := accounts[q.account];
        accounts := accounts[q.account := account.(balance := account.balance + refund)];
        ledger := WithEntry(ledger, Entry(q.account, id, refund, SettlementRefund));
      }
      reservations := reservations[i := q.(actual := charged, state := Settled, settledAt := Some(now))];
      requests := FinishRequests(requests, id, o, now);
    }

    method ReleaseReservation(id: ReservationId, now: Time)
      modifies this
      ensures Contents() == AfterSettle(old(Contents()), id, Nothing, now)
    {
      SettleQuota(id, Nothing, now);
    }

    /** Restart: every reservation left open is released, one transaction each. */
    method RecoverOrphanedState(now: Time)
      requires ReservationsInv(reservations)
      modifies this
      ensures Contents() == AfterReleases(old(Contents()), OpenIds(old(reservations)), now)
      ensures forall q :: q in reservations ==> q.state.Settled?
    {
      var ids := OpenIds(reservations);
      for k := 0 to |ids|
        invariant AfterReleases(old(Contents()), ids, now) == AfterReleases(Contents(), ids[k..], now)
      {
        ReleaseReservation(ids[k], now);
        assert ids[k..][0] == ids[k] && ids[k..][1..] == ids[k + 1..];
      }
      assert ids[|ids|..] == [];
      RecoveryLeavesNothingOpen(old(Contents()), now);
    }

    method CreateInferenceRequest(requestId: string, id: ReservationId)
      modifies this`requests
      ensures Contents() == AfterCreateRequest(old(Contents()), requestId, id)
    {
      if Find(reservations, HasReservationId(id)) < |reservations|
         && Find(requests, HasRequestId(requestId)) == |requests|
      {
        requests := requests + [Request(requestId, id, Queued, None, None, None, None, 0, 0)];
      }
    }

    method MarkRequestAdmitted(requestId: string, now: Time) returns (marked: bool)
      modifies this`requests
      ensures marked <==> Admits(old(Contents()), requestId)
      ensures Contents() == AfterAdmitted(old(Contents()), requestId, now)
    {
      var i := Find(requests, HasRequestId(requestId));
      if i == |requests| || requests[i].state != Queued {
        return false;
      }
      var r := requests[i];
      requests := requests[i := r.(state := Admitted, admittedAt := Some(now), accepted := r.accepted + 1)];
      return true;
    }

    /** The lifetime view the source queries. */
    function Charged(account: AccountId): int
      reads this
    {
      SumOf(reservations, ChargedOn(account)) + SumOf(totals, SummarisedOn(account))
    }

    method UpdateQuota(account: AccountId, limit: int, unlimited: bool) returns (found: bool)
      modifies this`accounts
      ensures Contents() == AfterUpdateQuota(old(Contents()), account, limit, unlimited)
      ensures found <==> account in old(accounts) && limit >= 0
      ensures found ==> account in accounts && accounts[account].limit == limit
                        && accounts[account].unlimited == unlimited
    {
      if account !in accounts || limit < 0 {
        return false;
      }
      var used := Max(0, Charged(account) - accounts[account].baseline);
      accounts := accounts[account := accounts[account].(balance := Max(0, limit - used), limit := limit,
                                                         unlimited := unlimited)];
      return true;
    }

    method ResetUsage(account: AccountId) returns (found: bool)
      modifies this`accounts
      ensures Contents() == AfterReset(old(Contents()), account)
      ensures found <==> account in old(accounts)
    {
      if account !in accounts {
        return false;
      }
      accounts := accounts[account := accounts[account].(balance := accounts[account].limit,
                                                         baseline := Charged(account))];
      return true;
    }

    /** The metrics of the whole batch, added up row by row. */
    static method AddUp(rows: seq<Summary>, start: Metrics) returns (sum: Metrics)
      ensures sum == Plus(start, Batch(rows))
    {
      sum := start;
      for k := 0 to |rows|
        invariant Plus(start, Batch(rows)) == Plus(sum, Batch(rows[k..]))
      {
        assert rows[k..][1..] == rows[k + 1..];
        sum := Plus(sum, rows[k].metrics);
      }
      assert rows[|rows|..] == [];
    }

    /** Write every table back. */
    method Store(t: Tables)
      modifies this
      ensures Contents() == t
    {
      accounts, reservations, requests, ledger := t.accounts, t.reservations, t.requests, t.ledger;
      totals, totalPeriod, currentEnd := t.totals, t.totalPeriod, t.currentEnd;
    }

    /** The rows a summary writes and deletes, worked out before any table changes. */
    static method Summarise(before: Tables, cutoff: Time) returns (after: Tables, batch: Metrics)
      requires CutoffAdvances(before, cutoff)
      ensures after == AfterSummarise(before, cutoff) && batch == Batch(NewRows(before, cutoff))
    {
      var rows, ids := NewRows(before, cutoff), EligibleIds(before, cutoff);
      batch := AddUp(rows, Zero);
      PlusZero(Batch(rows));
      var lifetime := AddUp(rows, TotalPeriod(before));
      SummariseTables(before, cutoff, rows, ids);
      after := Tables(before.accounts, Filter(before.reservations, IsKept(cutoff)),
                      Filter(before.requests, KeepsRequest(ids)), Filter(before.ledger, KeepsEntry(ids)),
                      UpsertAll(before.totals, rows), Some(lifetime), Some(cutoff));
    }

    method SummarizeUsage(cutoff: Time) returns (r: Result<Metrics, SummaryError>)
      modifies this
      ensures Contents() == AfterSummarise(old(Contents()), cutoff)
      ensures r == if CutoffAdvances(old(Contents()), cutoff) then Ok(Batch(NewRows(old(Contents()), cutoff)))
                   else Err(CutoffNotAdvanced)
      ensures r.Err? <==> old(currentEnd).Some? && cutoff <= old(currentEnd).value
      ensures r.Err? ==> Contents() == old(Contents())
      ensures r.Ok? ==> currentEnd == Some(cutoff)
    {
      if currentEnd.Some? && cutoff <= currentEnd.value {
        return Err(CutoffNotAdvanced);
      }
      var after, batch := Summarise(Contents(), cutoff);
      Store(after);
      return Ok(batch);
    }
  }

  lemma {:induction false} SummariseTables(t: Tables, cutoff: Time, rows: seq<Summary>, ids: set<ReservationId>)
    requires CutoffAdvances(t, cutoff) && rows == NewRows(t, cutoff) && ids == EligibleIds(t, cutoff)
    ensures AfterSummarise(t, cutoff)
            == Tables(t.accounts, Filter(t.reservations, IsKept(cutoff)), Filter(t.requests, KeepsRequest(ids)),
                      Filter(t.ledger, KeepsEntry(ids)), UpsertAll(t.totals, rows),
                      Some(Plus(TotalPeriod(t), Batch(rows))), Some(cutoff))
  {
  }

  lemma PlusZero(m: Metrics)
    ensures Plus(Zero, m) == m
  {
  }

  // ---------- recovery ----------

  function OpenIds(reservations: seq<Reservation>): seq<ReservationId> {
    if reservations == [] then []
    else (if reservations[0].state.Reserved? then [reservations[0].id] else []) + OpenIds(reservations[1..])
  }

  function AfterReleases(t: Tables, ids: seq<ReservationId>, now: Time): Tables
    decreases |ids|
  {
    if ids == [] then t else AfterReleases(AfterSettle(t, ids[0], Nothing, now), ids[1..], now)
  }

  lemma {:induction false} OpenIdsAreAll(reservations: seq<Reservation>)
    ensures forall q :: q in reservations && q.state.Reserved? ==> q.id in OpenIds(reservations)
  {
    if reservations != [] {
      OpenIdsAreAll(reservations[1..]);
      assert reservations == [reservations[0]] + reservations[1..];
    }
  }

  /** What is still open after one release was open before, under another id. */
  lemma ReleaseCloses(t: Tables, id: ReservationId, now: Time)
    requires ReservationsInv(t.reservations)
    ensures forall q :: q in AfterSettle(t, id, Nothing, now).reservations && q.state.Reserved? ==>
              q in t.reservations && q.id != id
  {
    var after, i := AfterSettle(t, id, Nothing, now), Find(t.reservations, HasReservationId(id));
    forall q | q in after.reservations && q.state.Reserved? ensures q in t.reservations && q.id != id {
      var k :| 0 <= k < |after.reservations| && after.reservations[k] == q;
      if i < |t.reservations| {
        IdsTellRows(t.reservations, i, k);
      }
    }
  }

  lemma {:induction false} ReleasesClose(t: Tables, ids: seq<ReservationId>, now: Time)
    requires ReservationsInv(t.reservations)
    ensures forall q :: q in AfterReleases(t, ids, now).reservations && q.state.Reserved? ==>
              q in t.reservations && q.id !in ids
    decreases |ids|
  {
    if ids != [] {
      ReleaseCloses(t, ids[0], now);
      SettleKeepsReservations(t, ids[0], Nothing, now);
      ReleasesClose(AfterSettle(t, ids[0], Nothing, now), ids[1..], now);
      assert ids == [ids[0]] + ids[1..];
    }
  }

  /** After a restart no reservation is open. */
  lemma {:induction false} RecoveryLeavesNothingOpen(t: Tables, now: Time)
    requires ReservationsInv(t.reservations)
    ensures forall q :: q in AfterReleases(t, OpenIds(t.reservations), now).reservations ==> q.state.Settled?
  {
    OpenIdsAreAll(t.reservations);
    ReleasesClose(t, OpenIds(t.reservations), now);
  }

  lemma {:induction false} ReleasesKeepDrift(t: Tables, ids: seq<ReservationId>, now: Time, account: AccountId)
    requires account in t.accounts && !t.accounts[account].unlimited
    ensures var after := AfterReleases(t, ids, now);
            && account in after.accounts && Drift(after, account) == Drift(t, account)
            && after.accounts[account].limit == t.accounts[account].limit
    decreases |ids|
  {
    if ids != [] {
      SettleDrift(t, ids[0], Nothing, now, account);
      LimitedStays(t, Settle(ids[0], Nothing, now), account);
      ReleasesKeepDrift(AfterSettle(t, ids[0], Nothing, now), ids[1..], now, account);
    }
  }

  /** A restart refunds everything outstanding: what is left of the limit is exactly what was not used. */
  lemma {:induction false} RecoveryRefundsEverything(t: Tables, now: Time, account: AccountId)
    requires ReservationsInv(t.reservations) && account in t.accounts && !t.accounts[account].unlimited
    requires Drift(t, account) == 0
    ensures var after := AfterReleases(t, OpenIds(t.reservations), now);
            && account in after.accounts
            && after.accounts[account].balance + Used(after, account) == after.accounts[account].limit
  {
    RecoveryLeavesNothingOpen(t, now);
    ReleasesKeepDrift(t, OpenIds(t.reservations), now, account);
    NothingOutstanding(AfterReleases(t, OpenIds(t.reservations), now).reservations, account);
  }
}
