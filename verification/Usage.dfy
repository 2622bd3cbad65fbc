/** Compacting settled usage into lifetime summaries, and the views that must not notice. */
module Usage {
  import opened Collections
  import opened Domain
  import opened Ledger

  datatype Metric = RequestCount | Successful | Unsuccessful | ReservedTokens | ChargedTokens
                  | PromptTokens | CompletionTokens | OutputTokensForRate | TimedRequests

  function Get(m: Metrics, name: Metric): int {
    match name
    case RequestCount => m.requests
    case Successful => m.successful
    case Unsuccessful => m.failed
    case ReservedTokens => m.reserved
    case ChargedTokens => m.charged
    case PromptTokens => m.prompt
    case CompletionTokens => m.completion
    case OutputTokensForRate => m.outputForRate
    case TimedRequests => m.timed
  }

  const Zero := Metrics(0, 0, 0, 0, 0, 0, 0, 0, 0)

  function Plus(a: Metrics, b: Metrics): (sum: Metrics)
    ensures forall name :: Get(sum, name) == Get(a, name) + Get(b, name)
  {
    Metrics(a.requests + b.requests, a.successful + b.successful, a.failed + b.failed,
            a.reserved + b.reserved, a.charged + b.charged, a.prompt + b.prompt,
            a.completion + b.completion, a.outputForRate + b.outputForRate, a.timed + b.timed)
  }

  // ---------- the join ----------

  function OfReservation(id: ReservationId): Request -> bool {
    (r: Request) => r.reservation == id
  }

  function OrZero(x: Option<int>): int {
    if x.Some? then x.value else 0
  }

  predicate Timed(r: Request) {
    && OrZero(r.completion) > 0 && r.admittedAt.Some? && r.completedAt.Some?
    && r.completedAt.value > r.admittedAt.value
  }

  /** The metrics of one row of the left join; a reservation without a request counts as failed. */
  function RowMetrics(q: Reservation, r: Option<Request>): Metrics {
    var completed := r.Some? && r.value.state.Completed?;
    var timed := r.Some? && Timed(r.value);
    Metrics(1, if completed then 1 else 0, if completed then 0 else 1, q.reserved, q.actual,
            if r.Some? then OrZero(r.value.prompt) else 0,
            if r.Some? then OrZero(r.value.completion) else 0,
            if timed then OrZero(r.value.completion) else 0,
            if timed then 1 else 0)
  }

  function RowFor(q: Reservation, r: Option<Request>): Summary {
    Summary(q.account, q.key, q.model, RowMetrics(q, r))
  }

  function RowsFor(q: Reservation, matches: seq<Request>): seq<Summary> {
    if matches == [] then [] else [RowFor(q, Some(matches[0]))] + RowsFor(q, matches[1..])
  }

  /** `LEFT JOIN`: every matching request gives a row, and a reservation without one gives one too. */
  function JoinOne(q: Reservation, requests: seq<Request>): seq<Summary> {
    var matches := Filter(requests, OfReservation(q.id));
    if matches == [] then [RowFor(q, None)] else RowsFor(q, matches)
  }

  function Joined(reservations: seq<Reservation>, requests: seq<Request>): seq<Summary> {
    if reservations == [] then []
    else JoinOne(reservations[0], requests) + Joined(reservations[1..], requests)
  }

  // ---------- grouping ----------

  predicate SameGroup(a: Summary, b: Summary) {
    a.account == b.account && a.key == b.key && a.model == b.model
  }

  function InGroup(s: Summary): Summary -> bool {
    (other: Summary) => SameGroup(other, s)
  }

  /** `INSERT ... ON CONFLICT DO UPDATE`: add to the group's row, or start one. */
  function Upsert(rows: seq<Summary>, s: Summary): seq<Summary> {
    var i := Find(rows, InGroup(s));
    if i == |rows| then rows + [s] else rows[i := rows[i].(metrics := Plus(rows[i].metrics, s.metrics))]
  }

  function UpsertAll(rows: seq<Summary>, more: seq<Summary>): seq<Summary>
    decreases |more|
  {
    if more == [] then rows else UpsertAll(Upsert(rows, more[0]), more[1..])
  }

  /** `GROUP BY` account, key and model. */
  function GroupRows(rows: seq<Summary>): seq<Summary> {
    UpsertAll([], rows)
  }

  /** A selection of groups, by account, by key, by model or all of them. */
  datatype Selection = All | Account(account: AccountId) | Key(key: KeyId) | Model(model: ModelId)
                     | Group(row: Summary)

  predicate Selects(sel: Selection, s: Summary) {
    match sel
    case All => true
    case Account(a) => s.account == a
    case Key(k) => s.key == k
    case Model(m) => s.model == m
    case Group(row) => SameGroup(s, row)
  }

  function Value(sel: Selection, name: Metric): Summary -> int {
    (s: Summary) => if Selects(sel, s) then Get(s.metrics, name) else 0
  }

  lemma {:induction false} UpsertAdds(rows: seq<Summary>, s: Summary, sel: Selection, name: Metric)
    ensures SumOf(Upsert(rows, s), Value(sel, name)) == SumOf(rows, Value(sel, name)) + Value(sel, name)(s)
  {
    var i := Find(rows, InGroup(s));
    if i == |rows| {
      SumOfAppend(rows, [s], Value(sel, name));
    } else {
      SumOfUpdate(rows, i, rows[i].(metrics := Plus(rows[i].metrics, s.metrics)), Value(sel, name));
    }
  }

  /** Grouping and accumulating neither lose nor invent anything, whatever is selected. */
  lemma {:induction false} UpsertAllAdds(rows: seq<Summary>, more: seq<Summary>, sel: Selection, name: Metric)
    ensures SumOf(UpsertAll(rows, more), Value(sel, name))
            == SumOf(rows, Value(sel, name)) + SumOf(more, Value(sel, name))
    decreases |more|
  {
    if more != [] {
      UpsertAdds(rows, more[0], sel, name);
      UpsertAllAdds(Upsert(rows, more[0]), more[1..], sel, name);
    }
  }

  ghost predicate OneRowPerGroup(rows: seq<Summary>) {
    forall i, j :: 0 <= i < j < |rows| ==> !SameGroup(rows[i], rows[j])
  }

  lemma UpsertKeepsGroups(rows: seq<Summary>, s: Summary)
    requires OneRowPerGroup(rows)
    ensures OneRowPerGroup(Upsert(rows, s))
  {
  }

  lemma {:induction false} UpsertAllKeepsGroups(rows: seq<Summary>, more: seq<Summary>)
    requires OneRowPerGroup(rows)
    ensures OneRowPerGroup(UpsertAll(rows, more))
    decreases |more|
  {
    if more != [] {
      UpsertKeepsGroups(rows, more[0]);
      UpsertAllKeepsGroups(Upsert(rows, more[0]), more[1..]);
    }
  }

  lemma {:induction false} SumOfOtherGroups(rows: seq<Summary>, s: Summary, name: Metric)
    requires forall other :: other in rows ==> !SameGroup(other, s)
    ensures SumOf(rows, Value(Group(s), name)) == 0
  {
    if rows != [] {
      assert rows == [rows[0]] + rows[1..];
      SumOfOtherGroups(rows[1..], s, name);
    }
  }

  lemma OtherGroupsAround(rows: seq<Summary>, k: nat)
    requires k < |rows| && OneRowPerGroup(rows)
    ensures forall other :: other in rows[..k] ==> !SameGroup(other, rows[k])
    ensures forall other :: other in rows[k + 1..] ==> !SameGroup(other, rows[k])
  {
  }

  lemma {:induction false} SumAroundGroup(before: seq<Summary>, s: Summary, after: seq<Summary>, name: Metric)
    requires forall other :: other in before ==> !SameGroup(other, s)
    requires forall other :: other in after ==> !SameGroup(other, s)
    ensures SumOf(before + [s] + after, Value(Group(s), name)) == Get(s.metrics, name)
  {
    SumOfAppend(before + [s], after, Value(Group(s), name));
    SumOfAppend(before, [s], Value(Group(s), name));
    SumOfOne(s, Value(Group(s), name));
    SumOfOtherGroups(before, s, name);
    SumOfOtherGroups(after, s, name);
  }

  lemma {:induction false} SumOfOneGroup(rows: seq<Summary>, k: nat, name: Metric)
    requires k < |rows| && OneRowPerGroup(rows)
    ensures SumOf(rows, Value(Group(rows[k]), name)) == Get(rows[k].metrics, name)
  {
    OtherGroupsAround(rows, k);
    SumAroundGroup(rows[..k], rows[k], rows[k + 1..], name);
    assert rows == rows[..k] + [rows[k]] + rows[k + 1..];
  }

  /** The grouped rows are what `GROUP BY` promises: one per group, holding the group's sums. */
  lemma {:induction false} GroupRowsAreSums(rows: seq<Summary>, k: nat, name: Metric)
    requires k < |GroupRows(rows)|
    ensures OneRowPerGroup(GroupRows(rows))
    ensures Get(GroupRows(rows)[k].metrics, name) == SumOf(rows, Value(Group(GroupRows(rows)[k]), name))
  {
    UpsertAllKeepsGroups([], rows);
    SumOfOneGroup(GroupRows(rows), k, name);
    UpsertAllAdds([], rows, Group(GroupRows(rows)[k]), name);
  }

  // ---------- summarising ----------

  predicate Eligible(q: Reservation, cutoff: Time) {
    q.state.Settled? && q.settledAt.Some? && q.settledAt.value <= cutoff
  }

  function IsEligible(cutoff: Time): Reservation -> bool {
    (q: Reservation) => Eligible(q, cutoff)
  }

  function IsKept(cutoff: Time): Reservation -> bool {
    (q: Reservation) => !Eligible(q, cutoff)
  }

  function EligibleRows(t: Tables, cutoff: Time): seq<Reservation> {
    Filter(t.reservations, IsEligible(cutoff))
  }

  function EligibleIds(t: Tables, cutoff: Time): set<ReservationId> {
    set q | q in EligibleRows(t, cutoff) :: q.id
  }

  function KeepsRequest(ids: set<ReservationId>): Request -> bool {
    (r: Request) => r.reservation !in ids
  }

  function KeepsEntry(ids: set<ReservationId>): Entry -> bool {
    (e: Entry) => e.reservation !in ids
  }

  /** The total over grouped rows, as the source accumulates it row by row. */
  function Batch(rows: seq<Summary>): Metrics {
    if rows == [] then Zero else Plus(rows[0].metrics, Batch(rows[1..]))
  }

  function TotalPeriod(t: Tables): Metrics {
    if t.totalPeriod.Some? then t.totalPeriod.value else Zero
  }

  predicate CutoffAdvances(t: Tables, cutoff: Time) {
    t.currentEnd.Some? ==> cutoff > t.currentEnd.value
  }

  function NewRows(t: Tables, cutoff: Time): seq<Summary> {
    GroupRows(Joined(EligibleRows(t, cutoff), t.requests))
  }

  /** One summarising transaction; a cutoff that does not advance is refused and changes nothing. */
  function AfterSummarise(t: Tables, cutoff: Time): Tables {
    if !CutoffAdvances(t, cutoff) then t
    else
      var ids := EligibleIds(t, cutoff);
      var rows := NewRows(t, cutoff);
      t.(totals := UpsertAll(t.totals, rows),
         totalPeriod := Some(Plus(TotalPeriod(t), Batch(rows))),
         currentEnd := Some(cutoff),
         ledger := Filter(t.ledger, KeepsEntry(ids)),
         requests := Filter(t.requests, KeepsRequest(ids)),
         reservations := Filter(t.reservations, IsKept(cutoff)))
  }

  // ---------- the dashboard does not notice ----------

  function IsSettled(): Reservation -> bool {
    (q: Reservation) => q.state.Settled?
  }

  /** A dashboard total: settled rows still joined from the tables plus the lifetime summaries. */
  function Dashboard(t: Tables, sel: Selection, name: Metric): int {
    SumOf(Joined(Filter(t.reservations, IsSettled()), t.requests), Value(sel, name))
    + SumOf(t.totals, Value(sel, name))
  }

  /** What one reservation contributes to a selected metric. */
  function Contribution(requests: seq<Request>, sel: Selection, name: Metric): Reservation -> int {
    (q: Reservation) => SumOf(JoinOne(q, requests), Value(sel, name))
  }

  lemma {:induction false} JoinedSum(reservations: seq<Reservation>, requests: seq<Request>,
                                     sel: Selection, name: Metric)
    ensures SumOf(Joined(reservations, requests), Value(sel, name))
            == SumOf(reservations, Contribution(requests, sel, name))
  {
    if reservations != [] {
      JoinedSum(reservations[1..], requests, sel, name);
      SumOfAppend(JoinOne(reservations[0], requests), Joined(reservations[1..], requests), Value(sel, name));
    }
  }

  /** Deleting the requests of other reservations does not change a reservation's rows. */
  lemma {:induction false} KeptMatches(requests: seq<Request>, ids: set<ReservationId>, id: ReservationId)
    requires id !in ids
    ensures Filter(Filter(requests, KeepsRequest(ids)), OfReservation(id)) == Filter(requests, OfReservation(id))
  {
    if requests != [] {
      KeptMatches(requests[1..], ids, id);
    }
  }

  lemma {:induction false} FilterSwap<T>(xs: seq<T>, p: T -> bool, q: T -> bool)
    ensures Filter(Filter(xs, p), q) == Filter(Filter(xs, q), p)
  {
    if xs != [] {
      FilterSwap(xs[1..], p, q);
    }
  }

  ghost predicate DistinctReservations(reservations: seq<Reservation>) {
    forall i, j :: 0 <= i < j < |reservations| ==> reservations[i].id != reservations[j].id
  }

  lemma DifferentRows(reservations: seq<Reservation>, a: Reservation, b: Reservation)
    requires DistinctReservations(reservations) && a in reservations && b in reservations && a != b
    ensures a.id != b.id
  {
    var i :| 0 <= i < |reservations| && reservations[i] == a;
    var j :| 0 <= j < |reservations| && reservations[j] == b;
    assert i < j || j < i;
  }

  lemma KeptIsNotEligible(t: Tables, cutoff: Time, q: Reservation)
    requires DistinctReservations(t.reservations) && q in t.reservations && !Eligible(q, cutoff)
    ensures q.id !in EligibleIds(t, cutoff)
  {
    forall other | other in EligibleRows(t, cutoff) ensures other.id != q.id {
      DifferentRows(t.reservations, other, q);
    }
  }

  lemma EligibleIsSettled(t: Tables, cutoff: Time)
    ensures Filter(Filter(t.reservations, IsSettled()), IsEligible(cutoff)) == EligibleRows(t, cutoff)
  {
    FilterSwap(t.reservations, IsSettled(), IsEligible(cutoff));
    FilterAll(EligibleRows(t, cutoff), IsSettled());
  }

  lemma {:induction false} ContributionsKept(reservations: seq<Reservation>, requests: seq<Request>,
                                             kept: seq<Request>, sel: Selection, name: Metric)
    requires forall q :: q in reservations ==>
               Filter(kept, OfReservation(q.id)) == Filter(requests, OfReservation(q.id))
    ensures SumOf(reservations, Contribution(kept, sel, name))
            == SumOf(reservations, Contribution(requests, sel, name))
  {
    SumOfCongruent(reservations, Contribution(kept, sel, name), Contribution(requests, sel, name));
  }

  lemma RawRowsAfter(t: Tables, cutoff: Time, sel: Selection, name: Metric)
    requires DistinctReservations(t.reservations) && CutoffAdvances(t, cutoff)
    ensures var after := AfterSummarise(t, cutoff);
            SumOf(Joined(Filter(after.reservations, IsSettled()), after.requests), Value(sel, name))
            == SumOf(Joined(Filter(t.reservations, IsSettled()), t.requests), Value(sel, name))
               - SumOf(Joined(EligibleRows(t, cutoff), t.requests), Value(sel, name))
  {
    var after, settled := AfterSummarise(t, cutoff), Filter(t.reservations, IsSettled());
    var ids := EligibleIds(t, cutoff);
    FilterSwap(t.reservations, IsKept(cutoff), IsSettled());
    var remaining := Filter(settled, IsKept(cutoff));
    forall q | q in remaining
      ensures Filter(after.requests, OfReservation(q.id)) == Filter(t.requests, OfReservation(q.id))
    {
      KeptIsNotEligible(t, cutoff, q);
      KeptMatches(t.requests, ids, q.id);
    }
    ContributionsKept(remaining, t.requests, after.requests, sel, name);
    JoinedSum(remaining, after.requests, sel, name);
    JoinedSum(settled, t.requests, sel, name);
    EligibleIsSettled(t, cutoff);
    JoinedSum(EligibleRows(t, cutoff), t.requests, sel, name);
    SumOfSplitFilter(settled, IsEligible(cutoff), IsKept(cutoff), Contribution(t.requests, sel, name));
  }

  lemma TotalsAfter(t: Tables, cutoff: Time, sel: Selection, name: Metric)
    requires CutoffAdvances(t, cutoff)
    ensures SumOf(AfterSummarise(t, cutoff).totals, Value(sel, name))
            == SumOf(t.totals, Value(sel, name))
               + SumOf(Joined(EligibleRows(t, cutoff), t.requests), Value(sel, name))
  {
    var raw := Joined(EligibleRows(t, cutoff), t.requests);
    UpsertAllAdds(t.totals, GroupRows(raw), sel, name);
    UpsertAllAdds([], raw, sel, name);
  }

  /** Summarising changes no dashboard total: overall, or by account, key, model or group. */
  lemma SummariseIsInvisible(t: Tables, cutoff: Time, sel: Selection, name: Metric)
    requires DistinctReservations(t.reservations)
    ensures Dashboard(AfterSummarise(t, cutoff), sel, name) == Dashboard(t, sel, name)
  {
    if CutoffAdvances(t, cutoff) {
      RawRowsAfter(t, cutoff, sel, name);
      TotalsAfter(t, cutoff, sel, name);
    }
  }

  // ---------- the lifetime views rest on one request per reservation ----------

  ghost predicate OneRequestEach(t: Tables) {
    forall q :: q in t.reservations ==> |Filter(t.requests, OfReservation(q.id))| <= 1
  }

  lemma JoinOneOfOne(q: Reservation, requests: seq<Request>) returns (r: Option<Request>)
    requires |Filter(requests, OfReservation(q.id))| <= 1
    ensures JoinOne(q, requests) == [RowFor(q, r)]
    ensures Filter(requests, OfReservation(q.id)) == if r.Some? then [r.value] else []
  {
    var matches := Filter(requests, OfReservation(q.id));
    if matches == [] {
      return None;
    }
    r := Some(matches[0]);
    assert matches == [matches[0]] && matches[1..] == [];
    assert RowsFor(q, []) == [];
  }

  /** What a settled reservation counts for in the lifetime views. */
  function Settlement(sel: Selection, name: Metric): Reservation -> int {
    (q: Reservation) =>
      if q.state.Settled? && Selects(sel, RowFor(q, None)) then Get(RowMetrics(q, None), name) else 0
  }

  predicate CountsReservations(name: Metric) {
    name.RequestCount? || name.ChargedTokens? || name.ReservedTokens?
  }

  /** The lifetime views: `account_lifetime_usage` and `key_lifetime_usage`, charges and counts. */
  function Lifetime(t: Tables, sel: Selection, name: Metric): int {
    SumOf(t.reservations, Settlement(sel, name)) + SumOf(t.totals, Value(sel, name))
  }

  lemma {:induction false} EligibleSettlements(reservations: seq<Reservation>, requests: seq<Request>,
                                               sel: Selection, name: Metric)
    requires CountsReservations(name)
    requires forall q :: q in reservations ==>
               q.state.Settled? && |Filter(requests, OfReservation(q.id))| <= 1
    ensures SumOf(Joined(reservations, requests), Value(sel, name)) == SumOf(reservations, Settlement(sel, name))
  {
    JoinedSum(reservations, requests, sel, name);
    forall q | q in reservations ensures Contribution(requests, sel, name)(q) == Settlement(sel, name)(q) {
      var r := JoinOneOfOne(q, requests);
      SumOfOne(RowFor(q, r), Value(sel, name));
    }
    SumOfCongruent(reservations, Contribution(requests, sel, name), Settlement(sel, name));
  }

  lemma EligibleAreSettledOnce(t: Tables, cutoff: Time, sel: Selection, name: Metric)
    requires OneRequestEach(t) && CountsReservations(name)
    ensures SumOf(Joined(EligibleRows(t, cutoff), t.requests), Value(sel, name))
            == SumOf(EligibleRows(t, cutoff), Settlement(sel, name))
  {
    EligibleSettlements(EligibleRows(t, cutoff), t.requests, sel, name);
  }

  /** What summarising does to a lifetime view: joined rows replace the reservations they came from. */
  lemma LifetimeAfter(t: Tables, cutoff: Time, sel: Selection, name: Metric)
    requires CutoffAdvances(t, cutoff)
    ensures Lifetime(AfterSummarise(t, cutoff), sel, name)
            == Lifetime(t, sel, name)
               - SumOf(EligibleRows(t, cutoff), Settlement(sel, name))
               + SumOf(Joined(EligibleRows(t, cutoff), t.requests), Value(sel, name))
  {
    TotalsAfter(t, cutoff, sel, name);
    SumOfSplitFilter(t.reservations, IsEligible(cutoff), IsKept(cutoff), Settlement(sel, name));
  }

  /** Summarising changes no account's and no key's lifetime charges or settled counts. */
  lemma LifetimeIsUnchanged(t: Tables, cutoff: Time, sel: Selection, name: Metric)
    requires OneRequestEach(t) && CountsReservations(name)
    ensures Lifetime(AfterSummarise(t, cutoff), sel, name) == Lifetime(t, sel, name)
  {
    if CutoffAdvances(t, cutoff) {
      EligibleAreSettledOnce(t, cutoff, sel, name);
      LifetimeAfter(t, cutoff, sel, name);
    }
  }

  /** Every row of a reservation carries its charge. */
  lemma {:induction false} RowsCharge(q: Reservation, matches: seq<Request>)
    ensures SumOf(RowsFor(q, matches), Value(All, ChargedTokens)) == |matches| * q.actual
  {
    if matches != [] {
      RowsCharge(q, matches[1..]);
      assert (|matches| - 1) * q.actual + q.actual == |matches| * q.actual;
    }
  }

  /** How much more than its charge a reservation adds to the summaries. */
  function Excess(requests: seq<Request>): Reservation -> int {
    (q: Reservation) => Max(0, |Filter(requests, OfReservation(q.id))| - 1) * q.actual
  }

  lemma ExcessOfRow(requests: seq<Request>, q: Reservation)
    requires q.state.Settled?
    ensures Contribution(requests, All, ChargedTokens)(q)
            == Settlement(All, ChargedTokens)(q) + Excess(requests)(q)
  {
    var matches := Filter(requests, OfReservation(q.id));
    if matches == [] {
      SumOfOne(RowFor(q, None), Value(All, ChargedTokens));
    } else {
      RowsCharge(q, matches);
      assert |matches| * q.actual == q.actual + (|matches| - 1) * q.actual;
    }
  }

  lemma {:induction false} ExcessOfAll(reservations: seq<Reservation>, requests: seq<Request>)
    requires forall q :: q in reservations ==> q.state.Settled?
    ensures SumOf(reservations, Contribution(requests, All, ChargedTokens))
            == SumOf(reservations, Settlement(All, ChargedTokens)) + SumOf(reservations, Excess(requests))
  {
    if reservations != [] {
      ExcessOfRow(requests, reservations[0]);
      ExcessOfAll(reservations[1..], requests);
    }
  }

  lemma {:induction false} NothingInExcess<T>(xs: seq<T>, f: T -> int)
    requires forall x :: x in xs ==> f(x) >= 0
    ensures SumOf(xs, f) == 0 <==> forall x :: x in xs ==> f(x) == 0
  {
    if xs != [] {
      NothingInExcess(xs[1..], f);
      SumOfNonNegative(xs[1..], f);
    }
  }

  predicate CountedOnce(requests: seq<Request>, q: Reservation) {
    |Filter(requests, OfReservation(q.id))| <= 1 || q.actual == 0
  }

  lemma ExcessSign(requests: seq<Request>, q: Reservation)
    requires q.actual >= 0
    ensures Excess(requests)(q) >= 0 && (Excess(requests)(q) == 0 <==> CountedOnce(requests, q))
  {
    var more := |Filter(requests, OfReservation(q.id))| - 1;
    if more > 0 && q.actual > 0 {
      assert more * q.actual >= 1 * q.actual;
    }
  }

  lemma {:induction false} NothingInExcessExactlyWhen(rows: seq<Reservation>, requests: seq<Request>)
    requires forall q :: q in rows ==> q.actual >= 0
    ensures SumOf(rows, Excess(requests)) == 0 <==> forall q :: q in rows ==> CountedOnce(requests, q)
  {
    forall q | q in rows
      ensures Excess(requests)(q) >= 0 && (Excess(requests)(q) == 0 <==> CountedOnce(requests, q))
    {
      ExcessSign(requests, q);
    }
    NothingInExcess(rows, Excess(requests));
  }

  /**
   * Summarising keeps the charges of all time exactly when no reservation it takes in has two
   * request rows and a charge; every run of the ledger has one row at most.
   */
  lemma {:induction false} LifetimeIsKeptExactlyWhen(t: Tables, cutoff: Time)
    requires CutoffAdvances(t, cutoff) && forall q :: q in EligibleRows(t, cutoff) ==> q.actual >= 0
    ensures Lifetime(AfterSummarise(t, cutoff), All, ChargedTokens) == Lifetime(t, All, ChargedTokens)
            <==> forall q :: q in EligibleRows(t, cutoff) ==> CountedOnce(t.requests, q)
  {
    var rows := EligibleRows(t, cutoff);
    LifetimeAfter(t, cutoff, All, ChargedTokens);
    JoinedSum(rows, t.requests, All, ChargedTokens);
    ExcessOfAll(rows, t.requests);
    NothingInExcessExactlyWhen(rows, t.requests);
  }

  lemma JoinOfTwo(q: Reservation, a: Request, b: Request)
    requires a.reservation == q.id && b.reservation == q.id
    ensures Joined([q], [a, b]) == [RowFor(q, Some(a)), RowFor(q, Some(b))]
  {
    FilterAll([a, b], OfReservation(q.id));
    assert [a, b][1..] == [b] && [b][1..] == [] && [q][1..] == [];
    assert RowsFor(q, []) == [];
    assert RowsFor(q, [b]) == [RowFor(q, Some(b))];
    assert Joined([], [a, b]) == [];
  }

  /** With two request rows on one reservation the same charge would enter the summaries twice. */
  lemma {:induction false} TwoRequestsChargeTwice(t: Tables, q: Reservation, a: Request, b: Request, cutoff: Time)
    requires t.reservations == [q] && t.requests == [a, b] && CutoffAdvances(t, cutoff)
    requires Eligible(q, cutoff) && a.reservation == q.id && b.reservation == q.id
    ensures Lifetime(AfterSummarise(t, cutoff), All, ChargedTokens) == Lifetime(t, All, ChargedTokens) + q.actual
  {
    LifetimeAfter(t, cutoff, All, ChargedTokens);
    FilterAll([q], IsEligible(cutoff));
    SumOfOne(q, Settlement(All, ChargedTokens));
    JoinOfTwo(q, a, b);
    SumOfPair(RowFor(q, Some(a)), RowFor(q, Some(b)), Value(All, ChargedTokens));
  }

  // ---------- the total period ----------

  lemma {:induction false} BatchIsSum(rows: seq<Summary>, name: Metric)
    ensures Get(Batch(rows), name) == SumOf(rows, Value(All, name))
  {
    if rows != [] {
      BatchIsSum(rows[1..], name);
    }
  }

  ghost predicate PeriodMatches(t: Tables) {
    forall name :: Get(TotalPeriod(t), name) == SumOf(t.totals, Value(All, name))
  }

  /** The 'total' period row stays the sum of the 'total' summary rows. */
  lemma PeriodStaysTheSum(t: Tables, cutoff: Time)
    requires PeriodMatches(t)
    ensures PeriodMatches(AfterSummarise(t, cutoff))
  {
    if CutoffAdvances(t, cutoff) {
      var after, rows := AfterSummarise(t, cutoff), NewRows(t, cutoff);
      forall name ensures Get(TotalPeriod(after), name) == SumOf(after.totals, Value(All, name)) {
        BatchIsSum(rows, name);
        UpsertAllAdds(t.totals, rows, All, name);
      }
    }
  }

  // ---------- summarising in steps ----------

  lemma {:induction false} FilterTwice<T>(xs: seq<T>, p: T -> bool, q: T -> bool, both: T -> bool)
    requires forall x :: x in xs ==> both(x) == (p(x) && q(x))
    ensures Filter(Filter(xs, p), q) == Filter(xs, both)
  {
    if xs != [] {
      FilterTwice(xs[1..], p, q, both);
    }
  }

  lemma LaterIds(t: Tables, c1: Time, c2: Time)
    requires c1 < c2 && CutoffAdvances(t, c1)
    ensures EligibleIds(t, c2) == EligibleIds(t, c1) + EligibleIds(AfterSummarise(t, c1), c2)
  {
    var mid := AfterSummarise(t, c1);
    forall id ensures id in EligibleIds(t, c2)
                      <==> id in EligibleIds(t, c1) || id in EligibleIds(mid, c2)
    {
      if id in EligibleIds(t, c2) {
        var q :| q in EligibleRows(t, c2) && q.id == id;
        if Eligible(q, c1) {
          assert q in EligibleRows(t, c1);
        } else {
          assert q in mid.reservations && q in EligibleRows(mid, c2);
        }
      }
      if id in EligibleIds(t, c1) {
        var q :| q in EligibleRows(t, c1) && q.id == id;
        assert q in EligibleRows(t, c2);
      }
      if id in EligibleIds(mid, c2) {
        var q :| q in EligibleRows(mid, c2) && q.id == id;
        assert q in EligibleRows(t, c2);
      }
    }
  }

  lemma StepsKeepTheSameReservations(t: Tables, c1: Time, c2: Time)
    requires c1 < c2 && CutoffAdvances(t, c1)
    ensures AfterSummarise(AfterSummarise(t, c1), c2).reservations == AfterSummarise(t, c2).reservations
  {
    FilterTwice(t.reservations, IsKept(c1), IsKept(c2), IsKept(c2));
  }

  lemma {:induction false} RequestsKeptTwice(requests: seq<Request>, a: set<string>, b: set<string>)
    ensures Filter(Filter(requests, KeepsRequest(a)), KeepsRequest(b)) == Filter(requests, KeepsRequest(a + b))
  {
    FilterTwice(requests, KeepsRequest(a), KeepsRequest(b), KeepsRequest(a + b));
  }

  lemma {:induction false} EntriesKeptTwice(ledger: seq<Entry>, a: set<string>, b: set<string>)
    ensures Filter(Filter(ledger, KeepsEntry(a)), KeepsEntry(b)) == Filter(ledger, KeepsEntry(a + b))
  {
    FilterTwice(ledger, KeepsEntry(a), KeepsEntry(b), KeepsEntry(a + b));
  }

  lemma StepsKeepTheSameRequests(t: Tables, c1: Time, c2: Time)
    requires c1 < c2 && CutoffAdvances(t, c1)
    ensures AfterSummarise(AfterSummarise(t, c1), c2).requests == AfterSummarise(t, c2).requests
  {
    LaterIds(t, c1, c2);
    RequestsKeptTwice(t.requests, EligibleIds(t, c1), EligibleIds(AfterSummarise(t, c1), c2));
  }

  lemma StepsKeepTheSameEntries(t: Tables, c1: Time, c2: Time)
    requires c1 < c2 && CutoffAdvances(t, c1)
    ensures AfterSummarise(AfterSummarise(t, c1), c2).ledger == AfterSummarise(t, c2).ledger
  {
    LaterIds(t, c1, c2);
    EntriesKeptTwice(t.ledger, EligibleIds(t, c1), EligibleIds(AfterSummarise(t, c1), c2));
  }

  /** Summarising at an earlier cutoff first leaves the same raw tables as summarising once. */
  lemma StepsLeaveTheSameTables(t: Tables, c1: Time, c2: Time)
    requires c1 < c2 && CutoffAdvances(t, c1)
    ensures var (twice, once) := (AfterSummarise(AfterSummarise(t, c1), c2), AfterSummarise(t, c2));
            && twice.reservations == once.reservations && twice.requests == once.requests
            && twice.ledger == once.ledger && twice.accounts == once.accounts
            && twice.currentEnd == once.currentEnd
  {
    StepsKeepTheSameReservations(t, c1, c2);
    StepsKeepTheSameRequests(t, c1, c2);
    StepsKeepTheSameEntries(t, c1, c2);
  }

  lemma {:induction false} FilterKeepsDistinct(reservations: seq<Reservation>, keep: Reservation -> bool)
    requires DistinctReservations(reservations)
    ensures DistinctReservations(Filter(reservations, keep))
    decreases |reservations|
  {
    if reservations != [] {
      var rest, kept := reservations[1..], Filter(reservations[1..], keep);
      forall i, j | 0 <= i < j < |rest| ensures rest[i].id != rest[j].id {
        assert reservations[i + 1].id != reservations[j + 1].id;
      }
      FilterKeepsDistinct(rest, keep);
      forall q | q in kept ensures q.id != reservations[0].id {
        var k :| 0 <= k < |rest| && rest[k] == q;
        assert reservations[k + 1] == q;
      }
    }
  }

  /** Summarising at one cutoff and then at a later one gives the totals of the later one alone. */
  lemma StepsGiveTheSameTotals(t: Tables, c1: Time, c2: Time, sel: Selection, name: Metric)
    requires DistinctReservations(t.reservations) && c1 < c2 && CutoffAdvances(t, c1)
    ensures SumOf(AfterSummarise(AfterSummarise(t, c1), c2).totals, Value(sel, name))
            == SumOf(AfterSummarise(t, c2).totals, Value(sel, name))
  {
    var mid := AfterSummarise(t, c1);
    StepsLeaveTheSameTables(t, c1, c2);
    FilterKeepsDistinct(t.reservations, IsKept(c1));
    SummariseIsInvisible(t, c1, sel, name);
    SummariseIsInvisible(mid, c2, sel, name);
    SummariseIsInvisible(t, c2, sel, name);
  }
}
