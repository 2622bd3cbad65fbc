/** How many copies of a model a backlog calls for, from its requests, its tokens and the copies' throughput. */
module CopyCounts {
  import opened Collections

  function Ceiling(x: real): int {
    -((-x).Floor)
  }

  function RealMax(a: real, b: real): real {
    if a >= b then a else b
  }

  /** So many copies work off the tokens within the scaling window; a copy does at least one token. */
  predicate Covers(n: int, tokens: int, capacity: real) {
    tokens as real <= n as real * RealMax(capacity, 1.0)
  }

  /** The least number of copies, one at least, that cover the tokens or match the requests. */
  predicate IsWanted(n: int, requests: int, tokens: int, capacity: real) {
    && 1 <= n <= Max(requests, 1)
    && (n > 1 ==> !Covers(n - 1, tokens, capacity))
    && (n < Max(requests, 1) ==> Covers(n, tokens, capacity))
  }

  /** No more copies than requests, and all but the last would leave tokens over. */
  predicate AllNeeded(n: int, requests: int, tokens: int, capacity: real) {
    n <= Max(requests, 1) && (n > 1 ==> tokens as real > (n - 1) as real * RealMax(capacity, 1.0))
  }

  /** So many copies need no further one. */
  predicate Enough(n: int, requests: int, tokens: int, capacity: real) {
    n >= 1 && (n >= requests || Covers(n, tokens, capacity))
  }

  lemma CeilingBounds(x: real)
    ensures x <= Ceiling(x) as real < x + 1.0
  {
  }

  lemma Scaled(a: real, b: real, c: real)
    requires c > 0.0
    ensures a <= b <==> a * c <= b * c
  {
    if a <= b {
      assert (b - a) * c >= 0.0;
    } else {
      assert (a - b) * c > 0.0;
    }
  }

  /** The rounded-up quotient is the least number of copies that covers the tokens. */
  lemma RoundsUp(tokens: int, capacity: real, cover: int, fewer: int)
    requires capacity >= 1.0 && cover == Ceiling(tokens as real / capacity) && fewer == cover - 1
    ensures tokens as real <= cover as real * capacity && !(tokens as real <= fewer as real * capacity)
  {
    var q := tokens as real / capacity;
    CeilingBounds(q);
    QuotientTimes(tokens as real, capacity);
    CoveredExactly(tokens as real, q, capacity, cover as real, fewer as real);
  }

  lemma CoveredExactly(tokens: real, q: real, capacity: real, cover: real, fewer: real)
    requires capacity > 0.0 && q * capacity == tokens && fewer < q <= cover
    ensures tokens <= cover * capacity && !(tokens <= fewer * capacity)
  {
    Scaled(q, cover, capacity);
    Scaled(q, fewer, capacity);
  }

  lemma QuotientTimes(x: real, c: real)
    requires c > 0.0
    ensures x / c * c == x
  {
  }

  lemma MoreCover(n: int, m: int, tokens: int, capacity: real)
    requires n <= m
    ensures Covers(n, tokens, capacity) ==> Covers(m, tokens, capacity)
  {
    Scaled(n as real, m as real, RealMax(capacity, 1.0));
  }

  lemma LeastCover(requests: int, tokens: int, capacity: real, cover: int)
    requires cover == Ceiling(tokens as real / RealMax(capacity, 1.0))
    ensures IsWanted(Min(Max(requests, 1), Max(1, cover)), requests, tokens, capacity)
  {
    var n := Min(Max(requests, 1), Max(1, cover));
    RoundsUp(tokens, RealMax(capacity, 1.0), cover, cover - 1);
    assert Covers(cover, tokens, capacity) && !Covers(cover - 1, tokens, capacity);
    if n > 1 {
      MoreCover(n - 1, cover - 1, tokens, capacity);
    }
    if n < Max(requests, 1) {
      MoreCover(cover, n, tokens, capacity);
    }
  }

  function Wanted(requests: int, tokens: int, capacity: real): (n: int)
    ensures IsWanted(n, requests, tokens, capacity)
  {
    var cover := Ceiling(tokens as real / RealMax(capacity, 1.0));
    LeastCover(requests, tokens, capacity, cover);
    Min(Max(requests, 1), Max(1, cover))
  }

  /** Up to the number wanted, all copies but the last leave tokens over. */
  lemma FewerAreNeeded(n: nat, wanted: int, requests: int, tokens: int, capacity: real)
    requires n <= wanted && IsWanted(wanted, requests, tokens, capacity)
    ensures AllNeeded(n, requests, tokens, capacity)
  {
    if n > 1 {
      MoreCover(n - 1, wanted - 1, tokens, capacity);
      assert !Covers(n - 1, tokens, capacity);
    }
  }

  /** And only fewer than wanted leave tokens over themselves. */
  lemma FewerThanWanted(n: nat, wanted: int, requests: int, tokens: int, capacity: real)
    requires n <= wanted && IsWanted(wanted, requests, tokens, capacity)
    ensures AllNeeded(n, requests, tokens, capacity)
    ensures n < Max(requests, 1) && tokens as real > n as real * RealMax(capacity, 1.0) ==> n < wanted
  {
    FewerAreNeeded(n, wanted, requests, tokens, capacity);
  }

  /** The number wanted is determined: no two numbers meet its description. */
  lemma WantedIsUnique(n: int, m: int, requests: int, tokens: int, capacity: real)
    requires IsWanted(n, requests, tokens, capacity) && IsWanted(m, requests, tokens, capacity)
    ensures n == m
  {
    if n < m {
      MoreCover(n, m - 1, tokens, capacity);
    } else if m < n {
      MoreCover(m, n - 1, tokens, capacity);
    }
  }

  /** A number of copies reaches what is wanted exactly when it is enough for the backlog. */
  lemma EnoughExactlyWhen(n: int, requests: int, tokens: int, capacity: real)
    ensures Wanted(requests, tokens, capacity) <= n <==> Enough(n, requests, tokens, capacity)
  {
    var wanted := Wanted(requests, tokens, capacity);
    if wanted <= n {
      MoreCover(wanted, n, tokens, capacity);
    } else if n >= 1 {
      MoreCover(n, wanted - 1, tokens, capacity);
    }
  }
}
