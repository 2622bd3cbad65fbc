/**
 * What a summary says about the reservations and requests it takes in, counted directly on those two
 * tables: without the join, its rows or the grouping.
 */
module UsageFacts {
  import opened Collections
  import opened Domain
  import opened Ledger
  import opened Usage

  // ---------- what a summary removes ----------

  /** The row belongs to a reservation that the cutoff takes in. */
  predicate BelongsToSettled(t: Tables, id: ReservationId, cutoff: Time) {
    exists q :: q in t.reservations && q.id == id && IsSettledBy(cutoff)(q)
  }

  lemma EligibleIdsAreSettled(t: Tables, cutoff: Time, id: ReservationId)
    ensures id in EligibleIds(t, cutoff) <==> BelongsToSettled(t, id, cutoff)
  {
    if q :| q in t.reservations && q.id == id && IsSettledBy(cutoff)(q) {
      assert q in EligibleRows(t, cutoff);
    }
  }

  /**
   * A summary deletes the reservations settled by the cutoff with their requests and ledger entries, every
   * copy of them and nothing else, and no account changes.
   */
  lemma SummaryDeletesExactly(t: Tables, cutoff: Time, q: Reservation, r: Request, e: Entry)
    requires CutoffAdvances(t, cutoff)
    ensures var after := AfterSummarise(t, cutoff);
            && multiset(after.reservations)[q] == (if IsSettledBy(cutoff)(q) then 0 else multiset(t.reservations)[q])
            && multiset(after.requests)[r]
               == (if BelongsToSettled(t, r.reservation, cutoff) then 0 else multiset(t.requests)[r])
            && multiset(after.ledger)[e]
               == (if BelongsToSettled(t, e.reservation, cutoff) then 0 else multiset(t.ledger)[e])
            && after.accounts == t.accounts && after.currentEnd == Some(cutoff)
  {
    FilterCounts(t.reservations, IsKept(cutoff), q);
    FilterCounts(t.requests, KeepsRequest(EligibleIds(t, cutoff)), r);
    FilterCounts(t.ledger, KeepsEntry(EligibleIds(t, cutoff)), e);
    EligibleIdsAreSettled(t, cutoff, r.reservation);
    EligibleIdsAreSettled(t, cutoff, e.reservation);
  }

  // ---------- counting on the tables ----------

  function IsSettledBy(cutoff: Time): Reservation -> bool {
    (q: Reservation) => q.state.Settled? && q.settledAt.Some? && q.settledAt.value <= cutoff
  }

  function IsClosed(): Reservation -> bool {
    (q: Reservation) => q.state == ReservationState.Settled
  }

  /** The reservations a selection is about. */
  function IsAbout(sel: Selection): Reservation -> bool {
    (q: Reservation) =>
      match sel
      case All => true
      case Account(account) => q.account == account
      case Key(key) => q.key == key
      case Model(model) => q.model == model
      case Group(row) => q.account == row.account && q.key == row.key && q.model == row.model
  }

  predicate HasCompleted(requests: seq<Request>, id: ReservationId) {
    exists r :: r in requests && r.reservation == id && r.state == Completed
  }

  function CompletedOf(requests: seq<Request>): Reservation -> int {
    (q: Reservation) => if HasCompleted(requests, q.id) then 1 else 0
  }

  function ReservedOf(): Reservation -> int {
    (q: Reservation) => q.reserved
  }

  function ChargeOf(): Reservation -> int {
    (q: Reservation) => q.actual
  }

  /** A value of the requests that belong to these reservations. */
  function Within(rows: seq<Reservation>, f: Request -> int): Request -> int {
    (r: Request) => if exists q :: q in rows && q.id == r.reservation then f(r) else 0
  }

  function PromptOf(): Request -> int {
    (r: Request) => if r.prompt.Some? then r.prompt.value else 0
  }

  function CompletionOf(): Request -> int {
    (r: Request) => if r.completion.Some? then r.completion.value else 0
  }

  /** Output was produced between two known instants, one after the other. */
  predicate Measured(r: Request) {
    && r.completion.Some? && r.completion.value > 0
    && r.admittedAt.Some? && r.completedAt.Some? && r.admittedAt.value < r.completedAt.value
  }

  function MeasuredOutputOf(): Request -> int {
    (r: Request) => if Measured(r) then r.completion.value else 0
  }

  function MeasuredOf(): Request -> int {
    (r: Request) => if Measured(r) then 1 else 0
  }

  /** The metrics of these reservations and their requests. */
  function Tally(rows: seq<Reservation>, requests: seq<Request>): Metrics {
    var successful := SumOf(rows, CompletedOf(requests));
    Metrics(|rows|, successful, |rows| - successful, SumOf(rows, ReservedOf()), SumOf(rows, ChargeOf()),
            SumOf(requests, Within(rows, PromptOf())), SumOf(requests, Within(rows, CompletionOf())),
            SumOf(requests, Within(rows, MeasuredOutputOf())), SumOf(requests, Within(rows, MeasuredOf())))
  }

  // ---------- one reservation's rows ----------

  ghost predicate OneEach(rows: seq<Reservation>, requests: seq<Request>) {
    forall q :: q in rows ==> |Filter(requests, OfReservation(q.id))| <= 1
  }

  function Base(requests: seq<Request>, name: Metric): Reservation -> int {
    (q: Reservation) => SumOf(JoinOne(q, requests), Value(All, name))
  }

  lemma OneRow(q: Reservation, requests: seq<Request>, name: Metric) returns (r: Option<Request>)
    requires |Filter(requests, OfReservation(q.id))| <= 1
    ensures Filter(requests, OfReservation(q.id)) == if r.Some? then [r.value] else []
    ensures Base(requests, name)(q) == Get(RowMetrics(q, r), name)
  {
    r := JoinOneOfOne(q, requests);
    SumOfOne(RowFor(q, r), Value(All, name));
  }

  lemma {:induction false} RowCounts(q: Reservation, requests: seq<Request>)
    requires |Filter(requests, OfReservation(q.id))| <= 1
    ensures Base(requests, RequestCount)(q) == 1
    ensures Base(requests, Successful)(q) == CompletedOf(requests)(q)
    ensures Base(requests, Unsuccessful)(q) == 1 - CompletedOf(requests)(q)
    ensures Base(requests, ReservedTokens)(q) == q.reserved && Base(requests, ChargedTokens)(q) == q.actual
  {
    var matches := Filter(requests, OfReservation(q.id));
    assert HasCompleted(requests, q.id) <==> exists r :: r in matches && r.state == Completed;
    var a := OneRow(q, requests, RequestCount);
    var b := OneRow(q, requests, Successful);
    var c := OneRow(q, requests, Unsuccessful);
    var d := OneRow(q, requests, ReservedTokens);
    var e := OneRow(q, requests, ChargedTokens);
  }

  /** What the requests of one reservation add up to. */
  function MatchSum(requests: seq<Request>, f: Request -> int): Reservation -> int {
    (q: Reservation) => SumOf(Filter(requests, OfReservation(q.id)), f)
  }

  lemma {:induction false} RowSums(q: Reservation, requests: seq<Request>)
    requires |Filter(requests, OfReservation(q.id))| <= 1
    ensures Base(requests, PromptTokens)(q) == MatchSum(requests, PromptOf())(q)
    ensures Base(requests, CompletionTokens)(q) == MatchSum(requests, CompletionOf())(q)
    ensures Base(requests, OutputTokensForRate)(q) == MatchSum(requests, MeasuredOutputOf())(q)
    ensures Base(requests, TimedRequests)(q) == MatchSum(requests, MeasuredOf())(q)
  {
    var a := OneRow(q, requests, PromptTokens);
    var b := OneRow(q, requests, CompletionTokens);
    var c := OneRow(q, requests, OutputTokensForRate);
    var d := OneRow(q, requests, TimedRequests);
    if a.Some? {
      SumOfOne(a.value, PromptOf());
      SumOfOne(a.value, CompletionOf());
      SumOfOne(a.value, MeasuredOutputOf());
      SumOfOne(a.value, MeasuredOf());
    }
  }

  // ---------- all the rows ----------

  lemma {:induction false} SumOfMatches(rows: seq<Reservation>, requests: seq<Request>, f: Request -> int)
    requires DistinctReservations(rows)
    ensures SumOf(rows, MatchSum(requests, f)) == SumOf(requests, Within(rows, f))
  {
    if rows == [] {
      ZeroSum(requests, Within(rows, f));
    } else {
      var first, rest := rows[0], rows[1..];
      RestIsDistinct(rows);
      SumOfMatches(rest, requests, f);
      assert rows == [first] + rest;
      SumOfKept(requests, OfReservation(first.id), f, Within([first], f));
      SumOfAdded(requests, Within([first], f), Within(rest, f), Within(rows, f));
    }
  }

  lemma RestIsDistinct(rows: seq<Reservation>)
    requires DistinctReservations(rows) && rows != []
    ensures DistinctReservations(rows[1..]) && forall q :: q in rows[1..] ==> q.id != rows[0].id
  {
    forall i, j | 0 <= i < j < |rows[1..]| ensures rows[1..][i].id != rows[1..][j].id {
      assert rows[i + 1].id != rows[j + 1].id;
    }
    forall q | q in rows[1..] ensures q.id != rows[0].id {
      var k :| 0 <= k < |rows[1..]| && rows[1..][k] == q;
      assert rows[k + 1] == q;
    }
  }

  lemma {:induction false} CountOfRows(rows: seq<Reservation>, requests: seq<Request>)
    requires OneEach(rows, requests)
    ensures SumOf(rows, Base(requests, RequestCount)) == |rows|
    ensures SumOf(rows, Base(requests, Successful)) == SumOf(rows, CompletedOf(requests))
    ensures SumOf(rows, Base(requests, Unsuccessful)) == |rows| - SumOf(rows, CompletedOf(requests))
  {
    if rows != [] {
      RowCounts(rows[0], requests);
      CountOfRows(rows[1..], requests);
    }
  }

  lemma {:induction false} TokensOfRows(rows: seq<Reservation>, requests: seq<Request>)
    requires OneEach(rows, requests)
    ensures SumOf(rows, Base(requests, ReservedTokens)) == SumOf(rows, ReservedOf())
    ensures SumOf(rows, Base(requests, ChargedTokens)) == SumOf(rows, ChargeOf())
  {
    forall q | q in rows
      ensures Base(requests, ReservedTokens)(q) == ReservedOf()(q) && Base(requests, ChargedTokens)(q) == ChargeOf()(q)
    {
      RowCounts(q, requests);
    }
    SumOfCongruent(rows, Base(requests, ReservedTokens), ReservedOf());
    SumOfCongruent(rows, Base(requests, ChargedTokens), ChargeOf());
  }

  lemma {:induction false} RequestsOfRows(rows: seq<Reservation>, requests: seq<Request>, name: Metric,
                                          f: Request -> int)
    requires DistinctReservations(rows)
    requires forall q :: q in rows ==> Base(requests, name)(q) == MatchSum(requests, f)(q)
    ensures SumOf(rows, Base(requests, name)) == SumOf(requests, Within(rows, f))
  {
    SumOfCongruent(rows, Base(requests, name), MatchSum(requests, f));
    SumOfMatches(rows, requests, f);
  }

  /** The joined rows of these reservations add up to their tally, metric by metric. */
  lemma {:induction false} BaseIsTally(rows: seq<Reservation>, requests: seq<Request>, name: Metric)
    requires DistinctReservations(rows) && OneEach(rows, requests)
    ensures SumOf(rows, Base(requests, name)) == Get(Tally(rows, requests), name)
  {
    CountOfRows(rows, requests);
    TokensOfRows(rows, requests);
    forall q | q in rows
      ensures Base(requests, PromptTokens)(q) == MatchSum(requests, PromptOf())(q)
      ensures Base(requests, CompletionTokens)(q) == MatchSum(requests, CompletionOf())(q)
      ensures Base(requests, OutputTokensForRate)(q) == MatchSum(requests, MeasuredOutputOf())(q)
      ensures Base(requests, TimedRequests)(q) == MatchSum(requests, MeasuredOf())(q)
    {
      RowSums(q, requests);
    }
    match name
    case PromptTokens => RequestsOfRows(rows, requests, name, PromptOf());
    case CompletionTokens => RequestsOfRows(rows, requests, name, CompletionOf());
    case OutputTokensForRate => RequestsOfRows(rows, requests, name, MeasuredOutputOf());
    case TimedRequests => RequestsOfRows(rows, requests, name, MeasuredOf());
    case _ =>
  }

  lemma {:induction false} SelectedRow(q: Reservation, requests: seq<Request>, sel: Selection, name: Metric)
    requires |Filter(requests, OfReservation(q.id))| <= 1
    ensures Contribution(requests, sel, name)(q) == if IsAbout(sel)(q) then Base(requests, name)(q) else 0
  {
    var r := OneRow(q, requests, name);
    var s := JoinOneOfOne(q, requests);
    SumOfOne(RowFor(q, s), Value(sel, name));
    SumOfOne(RowFor(q, s), Value(All, name));
  }

  lemma {:induction false} JoinedIsTally(rows: seq<Reservation>, requests: seq<Request>, sel: Selection, name: Metric)
    requires DistinctReservations(rows) && OneEach(rows, requests)
    ensures SumOf(Joined(rows, requests), Value(sel, name)) == Get(Tally(Filter(rows, IsAbout(sel)), requests), name)
  {
    JoinedSum(rows, requests, sel, name);
    forall q | q in rows
      ensures Contribution(requests, sel, name)(q) == if IsAbout(sel)(q) then Base(requests, name)(q) else 0
    {
      SelectedRow(q, requests, sel, name);
    }
    SumOfKept(rows, IsAbout(sel), Base(requests, name), Contribution(requests, sel, name));
    FilterKeepsDistinct(rows, IsAbout(sel));
    BaseIsTally(Filter(rows, IsAbout(sel)), requests, name);
  }

  // ---------- the facts ----------

  lemma EligibleAreSettledBy(t: Tables, cutoff: Time)
    ensures EligibleRows(t, cutoff) == Filter(t.reservations, IsSettledBy(cutoff))
  {
    FilterCongruent(t.reservations, IsEligible(cutoff), IsSettledBy(cutoff));
  }

  lemma BatchMetric(t: Tables, cutoff: Time, name: Metric)
    requires DistinctReservations(t.reservations) && OneRequestEach(t)
    ensures Get(Batch(NewRows(t, cutoff)), name)
            == Get(Tally(Filter(t.reservations, IsSettledBy(cutoff)), t.requests), name)
  {
    var rows := EligibleRows(t, cutoff);
    EligibleAreSettledBy(t, cutoff);
    BatchIsSum(NewRows(t, cutoff), name);
    UpsertAllAdds([], Joined(rows, t.requests), All, name);
    FilterKeepsDistinct(t.reservations, IsEligible(cutoff));
    FilterAll(rows, IsAbout(All));
    JoinedIsTally(rows, t.requests, All, name);
  }

  /**
   * What a summary returns: the reservations settled by the cutoff, how many of them have a completed
   * request and how many have not, what they reserved and were charged, and the token and timing sums
   * of exactly their requests.
   */
  lemma BatchIsTally(t: Tables, cutoff: Time)
    requires DistinctReservations(t.reservations) && OneRequestEach(t)
    ensures Batch(NewRows(t, cutoff)) == Tally(Filter(t.reservations, IsSettledBy(cutoff)), t.requests)
  {
    forall name ensures Get(Batch(NewRows(t, cutoff)), name)
                        == Get(Tally(Filter(t.reservations, IsSettledBy(cutoff)), t.requests), name)
    {
      BatchMetric(t, cutoff, name);
    }
    SameMetrics(Batch(NewRows(t, cutoff)), Tally(Filter(t.reservations, IsSettledBy(cutoff)), t.requests));
  }

  lemma SameMetrics(a: Metrics, b: Metrics)
    requires forall name :: Get(a, name) == Get(b, name)
    ensures a == b
  {
    assert Get(a, RequestCount) == Get(b, RequestCount) && Get(a, Successful) == Get(b, Successful);
    assert Get(a, Unsuccessful) == Get(b, Unsuccessful) && Get(a, ReservedTokens) == Get(b, ReservedTokens);
    assert Get(a, ChargedTokens) == Get(b, ChargedTokens) && Get(a, PromptTokens) == Get(b, PromptTokens);
    assert Get(a, CompletionTokens) == Get(b, CompletionTokens) && Get(a, TimedRequests) == Get(b, TimedRequests);
    assert Get(a, OutputTokensForRate) == Get(b, OutputTokensForRate);
  }

  /** A dashboard total, for every selection: the tally of the settled reservations plus what was summarised. */
  lemma DashboardIsTally(t: Tables, sel: Selection, name: Metric)
    requires DistinctReservations(t.reservations) && OneRequestEach(t)
    ensures var settled := Filter(t.reservations, IsClosed());
            Dashboard(t, sel, name)
            == Get(Tally(Filter(settled, IsAbout(sel)), t.requests), name) + SumOf(t.totals, Value(sel, name))
  {
    FilterCongruent(t.reservations, IsSettled(), IsClosed());
    FilterKeepsDistinct(t.reservations, IsSettled());
    JoinedIsTally(Filter(t.reservations, IsSettled()), t.requests, sel, name);
  }

  /** A summary adds to the stored totals of every selection just that tally. */
  lemma TotalsGrowByTally(t: Tables, cutoff: Time, sel: Selection, name: Metric)
    requires DistinctReservations(t.reservations) && OneRequestEach(t) && CutoffAdvances(t, cutoff)
    ensures var settled := Filter(t.reservations, IsSettledBy(cutoff));
            SumOf(AfterSummarise(t, cutoff).totals, Value(sel, name))
            == SumOf(t.totals, Value(sel, name)) + Get(Tally(Filter(settled, IsAbout(sel)), t.requests), name)
  {
    EligibleAreSettledBy(t, cutoff);
    TotalsAfter(t, cutoff, sel, name);
    FilterKeepsDistinct(t.reservations, IsEligible(cutoff));
    JoinedIsTally(EligibleRows(t, cutoff), t.requests, sel, name);
  }
}
