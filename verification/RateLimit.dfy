/**
 * The gateway's bounded rate limiter: a map of token buckets with a recency list, against an unbounded map of
 * token buckets. Times and tokens are real numbers.
 */
module RateLimit {
  import opened Recency

  datatype Bucket = Bucket(tokens: real, updated: real)

  /** The configuration; `newBoundedRemoteRateLimiter` builds no limiter outside these bounds. */
  datatype Limits = Limits(rate: real, burst: int, maxIdentities: int, idleTTL: real)

  predicate Sane(c: Limits) { c.rate > 0.0 && c.burst >= 1 && c.maxIdentities >= 1 && c.idleTTL > 0.0 }

  const DEFAULT_MAX_IDENTITIES := 4096
  const DEFAULT_IDLE_TTL := 600.0
  const MAX_CLEANUP := 32

  datatype Index = Index(buckets: map<string, Bucket>, order: seq<string>)

  function Min(a: real, b: real): real { if a < b then a else b }

  /** The tokens that accrue over a time. */
  function Accrued(c: Limits, elapsed: real): real { elapsed * c.rate }

  lemma AccruedAdds(c: Limits, a: real, b: real)
    ensures Accrued(c, a + b) == Accrued(c, a) + Accrued(c, b)
    ensures Accrued(c, 0.0) == 0.0
  {
  }

  lemma AccruedGrows(c: Limits, a: real, b: real)
    requires Sane(c) && a <= b
    ensures Accrued(c, a) <= Accrued(c, b)
    ensures a >= 0.0 ==> Accrued(c, a) >= 0.0
  {
    assert (b - a) * c.rate >= 0.0;
    AccruedAdds(c, a, b - a);
    assert a >= 0.0 ==> a * c.rate >= 0.0;
  }

  /** The tokens of a bucket at a time: they accrue at the rate, up to the burst. */
  function Refill(c: Limits, b: Bucket, now: real): real {
    Min(c.burst as real, b.tokens + Accrued(c, now - b.updated))
  }

  /** The idle TTL is long enough to fill an empty bucket. */
  predicate FillsWhenIdle(c: Limits) { Accrued(c, c.idleTTL) >= c.burst as real }

  // ---- the bounded limiter as a function

  function RemoveOldest(x: Index): Index {
    if x.order == [] then x else Index(x.buckets - {x.order[0]}, x.order[1..])
  }

  predicate FrontIsIdle(c: Limits, x: Index, now: real) {
    x.order != [] && x.order[0] in x.buckets && now - x.buckets[x.order[0]].updated >= c.idleTTL
  }

  function RemoveIdle(c: Limits, x: Index, now: real, limit: nat): Index
    decreases limit
  {
    if limit == 0 || !FrontIsIdle(c, x, now) then x else RemoveIdle(c, RemoveOldest(x), now, limit - 1)
  }

  /** `evicted` tells that an identity was dropped to make room. */
  datatype Answer = Answer(index: Index, allowed: bool, evicted: bool)

  function Allow(c: Limits, x0: Index, key: string, now: real): Answer {
    var x := RemoveIdle(c, x0, now, MAX_CLEANUP);
    if key !in x.buckets then
      var full := |x.buckets| >= c.maxIdentities;
      var y := if full then RemoveOldest(x) else x;
      Answer(Index(y.buckets[key := Bucket(c.burst as real - 1.0, now)], y.order + [key]), true, full)
    else
      var tokens := Refill(c, x.buckets[key], now);
      var left := if tokens < 1.0 then tokens else tokens - 1.0;
      Answer(Index(x.buckets[key := Bucket(left, now)], MoveToBack(x.order, key)), tokens >= 1.0, false)
  }

  // ---- what the index keeps

  function UsedAt(buckets: map<string, Bucket>): string -> real {
    (k: string) => if k in buckets then buckets[k].updated else 0.0
  }

  /** Keys listed once, by last use; no more than the maximum; tokens within the burst; nothing used after `clock`. */
  ghost predicate Valid(c: Limits, x: Index, clock: real) {
    && Sane(c)
    && Lists(x.order, x.buckets.Keys) && |x.buckets| <= c.maxIdentities
    && Ascending(x.order, UsedAt(x.buckets))
    && forall k :: k in x.buckets ==> 0.0 <= x.buckets[k].tokens <= c.burst as real && x.buckets[k].updated <= clock
  }

  lemma RemoveOldestKeepsValid(c: Limits, x: Index, clock: real)
    requires Valid(c, x, clock)
    ensures Valid(c, RemoveOldest(x), clock)
    ensures |x.order| == |x.buckets|
    ensures x.order != [] ==> x.order[0] in x.buckets && |RemoveOldest(x).buckets| == |x.buckets| - 1
  {
    hide Lists, Ascending;
    FrontIsListed(x.order, x.buckets.Keys);
    if x.order != [] {
      var y := RemoveOldest(x);
      assert y.buckets.Keys == x.buckets.Keys - {x.order[0]};
      TailAscending(x.order, x.buckets, y.buckets);
    }
  }

  lemma TailAscending(order: seq<string>, buckets: map<string, Bucket>, rest: map<string, Bucket>)
    requires order != [] && Ascending(order, UsedAt(buckets)) && Lists(order[1..], rest.Keys)
    requires forall k :: k in rest ==> k in buckets && rest[k] == buckets[k]
    ensures Ascending(order[1..], UsedAt(rest))
  {
    forall i, j | 0 <= i < j < |order[1..]|
      ensures UsedAt(rest)(order[1..][i]) <= UsedAt(rest)(order[1..][j])
    {
      assert UsedAt(buckets)(order[i + 1]) <= UsedAt(buckets)(order[j + 1]);
      assert order[1..][i] in order[1..] && order[1..][j] in order[1..];
    }
  }

  lemma {:induction false} RemoveIdleKeepsValid(c: Limits, x: Index, now: real, clock: real, limit: nat)
    requires Valid(c, x, clock)
    ensures Valid(c, RemoveIdle(c, x, now, limit), clock)
    decreases limit
  {
    hide Valid, RemoveOldest;
    if limit > 0 && FrontIsIdle(c, x, now) {
      RemoveOldestKeepsValid(c, x, clock);
      RemoveIdleKeepsValid(c, RemoveOldest(x), now, clock, limit - 1);
    }
  }

  /** Appending the key just used keeps the list in order of last use. */
  lemma UsedLast(order: seq<string>, buckets: map<string, Bucket>, key: string, b: Bucket)
    requires Ascending(order, UsedAt(buckets)) && key !in order
    requires forall k :: k in order ==> k in buckets && buckets[k].updated <= b.updated
    ensures Ascending(order + [key], UsedAt(buckets[key := b]))
  {
    var all, more := order + [key], buckets[key := b];
    forall i, j | 0 <= i < j < |all|
      ensures UsedAt(more)(all[i]) <= UsedAt(more)(all[j])
    {
      assert all[i] == order[i] && order[i] in order;
      if j < |order| { assert UsedAt(buckets)(order[i]) <= UsedAt(buckets)(order[j]) && order[j] in order; }
    }
  }

  lemma RefillBounds(c: Limits, b: Bucket, now: real)
    requires Sane(c) && 0.0 <= b.tokens <= c.burst as real && b.updated <= now
    ensures b.tokens <= Refill(c, b, now) <= c.burst as real
  {
    hide Accrued;
    AccruedGrows(c, 0.0, now - b.updated);
    AccruedAdds(c, 0.0, 0.0);
  }

  /** Every call keeps the index valid, with any clock that does not go back. */
  lemma AllowKeepsValid(c: Limits, x0: Index, key: string, now: real, clock: real)
    requires Valid(c, x0, clock) && clock <= now
    ensures Valid(c, Allow(c, x0, key, now).index, now)
  {
    hide Lists, Ascending, RemoveIdle, Refill;
    var x := RemoveIdle(c, x0, now, MAX_CLEANUP);
    RemoveIdleKeepsValid(c, x0, now, clock, MAX_CLEANUP);
    if key !in x.buckets {
      RemoveOldestKeepsValid(c, x, clock);
      var y := if |x.buckets| >= c.maxIdentities then RemoveOldest(x) else x;
      InsertKeepsValid(c, y, key, Bucket(c.burst as real - 1.0, now), clock);
    } else {
      RefillBounds(c, x.buckets[key], now);
      var tokens := Refill(c, x.buckets[key], now);
      TouchKeepsValid(c, x, key, Bucket(if tokens < 1.0 then tokens else tokens - 1.0, now), clock);
    }
  }

  lemma InsertKeepsValid(c: Limits, x: Index, key: string, b: Bucket, clock: real)
    requires Valid(c, x, clock) && key !in x.buckets && |x.buckets| < c.maxIdentities
    requires 0.0 <= b.tokens <= c.burst as real && clock <= b.updated
    ensures Valid(c, Index(x.buckets[key := b], x.order + [key]), b.updated)
  {
    hide Lists, Ascending;
    assert x.buckets[key := b].Keys == x.buckets.Keys + {key};
    PushedBack(x.order, x.buckets.Keys, key);
    UsedLast(x.order, x.buckets, key, b);
  }

  lemma TouchKeepsValid(c: Limits, x: Index, key: string, b: Bucket, clock: real)
    requires Valid(c, x, clock) && key in x.buckets
    requires 0.0 <= b.tokens <= c.burst as real && clock <= b.updated
    ensures Valid(c, Index(x.buckets[key := b], MoveToBack(x.order, key)), b.updated)
  {
    hide Lists, Ascending, MoveToBack, Without;
    assert x.buckets[key := b].Keys == x.buckets.Keys;
    MovedToBack(x.order, x.buckets.Keys, key);
    TouchAscends(x.order, x.buckets, key, b);
  }

  lemma TouchAscends(order: seq<string>, buckets: map<string, Bucket>, key: string, b: Bucket)
    requires Lists(order, buckets.Keys) && Ascending(order, UsedAt(buckets))
    requires forall k :: k in buckets ==> buckets[k].updated <= b.updated
    ensures Ascending(MoveToBack(order, key), UsedAt(buckets[key := b]))
  {
    hide Lists, Ascending, Without;
    RemovedFromList(order, buckets.Keys, key);
    WithoutAscending(order, key, UsedAt(buckets));
    UsedLast(Without(order, key), buckets, key, b);
  }

  // ---- the unbounded specification

  datatype SpecAnswer = SpecAnswer(buckets: map<string, Bucket>, allowed: bool)

  /** A key that was never seen has a full bucket. */
  function Tokens(c: Limits, u: map<string, Bucket>, key: string, now: real): real {
    if key in u then Refill(c, u[key], now) else c.burst as real
  }

  function SpecAllow(c: Limits, u: map<string, Bucket>, key: string, now: real): SpecAnswer {
    var tokens := Tokens(c, u, key, now);
    SpecAnswer(u[key := Bucket(if tokens < 1.0 then tokens else tokens - 1.0, now)], tokens >= 1.0)
  }

  /** The bounded buckets are the unbounded ones, except that buckets idle for the whole TTL may be missing. */
  ghost predicate Agrees(c: Limits, buckets: map<string, Bucket>, u: map<string, Bucket>, clock: real) {
    && (forall k :: k in buckets ==> k in u && u[k] == buckets[k])
    && (forall k :: k in u ==> u[k].updated <= clock && 0.0 <= u[k].tokens <= c.burst as real)
    && (forall k :: k in u && k !in buckets ==> u[k].updated + c.idleTTL <= clock)
  }

  lemma {:induction false} RemoveIdleAgrees(c: Limits, x: Index, u: map<string, Bucket>, now: real, clock: real,
                                            limit: nat)
    requires Valid(c, x, clock) && Agrees(c, x.buckets, u, now)
    ensures Agrees(c, RemoveIdle(c, x, now, limit).buckets, u, now)
    decreases limit
  {
    hide Lists, Ascending;
    if limit > 0 && FrontIsIdle(c, x, now) {
      RemoveOldestKeepsValid(c, x, clock);
      assert x.buckets[x.order[0]].updated + c.idleTTL <= now;
      RemoveIdleAgrees(c, RemoveOldest(x), u, now, clock, limit - 1);
    }
  }

  /** After the idle TTL a bucket is full again, provided the TTL is long enough to fill it. */
  lemma IdleIsFull(c: Limits, b: Bucket, now: real)
    requires Sane(c) && FillsWhenIdle(c) && b.tokens >= 0.0 && b.updated + c.idleTTL <= now
    ensures Refill(c, b, now) == c.burst as real
  {
    hide Accrued;
    AccruedGrows(c, c.idleTTL, now - b.updated);
  }

  lemma PutAgrees(c: Limits, buckets: map<string, Bucket>, u: map<string, Bucket>, key: string, b: Bucket)
    requires Agrees(c, buckets, u, b.updated) && 0.0 <= b.tokens <= c.burst as real
    ensures Agrees(c, buckets[key := b], u[key := b], b.updated)
  {
  }

  lemma AgreesOnTokens(c: Limits, buckets: map<string, Bucket>, u: map<string, Bucket>, key: string, now: real)
    requires Sane(c) && FillsWhenIdle(c) && Agrees(c, buckets, u, now)
    ensures Tokens(c, u, key, now) == if key in buckets then Refill(c, buckets[key], now) else c.burst as real
    ensures 0.0 <= Tokens(c, u, key, now) <= c.burst as real
  {
    hide Refill;
    if key in u {
      RefillBounds(c, u[key], now);
      if key !in buckets { IdleIsFull(c, u[key], now); }
    }
  }

  /** One call: the bounded limiter answers as the unbounded one and stays in agreement with it. */
  lemma AllowAgrees(c: Limits, x: Index, u: map<string, Bucket>, key: string, now: real, clock: real)
    requires Valid(c, x, clock) && clock <= now && Agrees(c, x.buckets, u, clock)
    requires FillsWhenIdle(c) && !Allow(c, x, key, now).evicted
    ensures Allow(c, x, key, now).allowed == SpecAllow(c, u, key, now).allowed
    ensures Agrees(c, Allow(c, x, key, now).index.buckets, SpecAllow(c, u, key, now).buckets, now)
  {
    hide RemoveIdle, Refill, Lists, Ascending, Agrees;
    var y := RemoveIdle(c, x, now, MAX_CLEANUP);
    LaterAgrees(c, x.buckets, u, clock, now);
    RemoveIdleAgrees(c, x, u, now, clock, MAX_CLEANUP);
    AgreesOnTokens(c, y.buckets, u, key, now);
    PutAgrees(c, y.buckets, u, key, SpecAllow(c, u, key, now).buckets[key]);
  }

  lemma LaterAgrees(c: Limits, buckets: map<string, Bucket>, u: map<string, Bucket>, clock: real, now: real)
    requires Agrees(c, buckets, u, clock) && clock <= now
    ensures Agrees(c, buckets, u, now)
  {
  }

  // ---- whole runs

  datatype Call = Call(key: string, now: real)

  /** The clock does not go back. */
  ghost predicate Timely(calls: seq<Call>, clock: real) {
    && (forall i :: 0 <= i < |calls| ==> clock <= calls[i].now)
    && (forall i, j :: 0 <= i < j < |calls| ==> calls[i].now <= calls[j].now)
  }

  ghost function Clock(calls: seq<Call>, start: real): real { if calls == [] then start else calls[|calls| - 1].now }

  function After(c: Limits, x: Index, calls: seq<Call>): Index {
    if calls == [] then x else
      var last := calls[|calls| - 1];
      Allow(c, After(c, x, calls[..|calls| - 1]), last.key, last.now).index
  }

  function SpecAfter(c: Limits, u: map<string, Bucket>, calls: seq<Call>): map<string, Bucket> {
    if calls == [] then u else
      var last := calls[|calls| - 1];
      SpecAllow(c, SpecAfter(c, u, calls[..|calls| - 1]), last.key, last.now).buckets
  }

  /** The answer of the bounded and of the unbounded limiter to the i-th call of a run. */
  function Answered(c: Limits, x: Index, calls: seq<Call>, i: nat): Answer
    requires i < |calls|
  {
    Allow(c, After(c, x, calls[..i]), calls[i].key, calls[i].now)
  }

  function SpecAnswered(c: Limits, u: map<string, Bucket>, calls: seq<Call>, i: nat): SpecAnswer
    requires i < |calls|
  {
    SpecAllow(c, SpecAfter(c, u, calls[..i]), calls[i].key, calls[i].now)
  }

  /**
   * In every run the list holds exactly the keys of the map, each once, in order of last use, and at most the maximum.
   */
  lemma {:induction false} RunsKeepValid(c: Limits, x: Index, calls: seq<Call>, start: real)
    requires Valid(c, x, start) && Timely(calls, start)
    ensures Valid(c, After(c, x, calls), Clock(calls, start))
    decreases |calls|
  {
    hide Valid, Allow;
    if calls != [] {
      var front := calls[..|calls| - 1];
      RunsKeepValid(c, x, front, start);
      AllowKeepsValid(c, After(c, x, front), calls[|calls| - 1].key, calls[|calls| - 1].now, Clock(front, start));
    }
  }

  lemma {:induction false} RunsAgree(c: Limits, x: Index, u: map<string, Bucket>, calls: seq<Call>, start: real)
    requires Valid(c, x, start) && Timely(calls, start) && Agrees(c, x.buckets, u, start) && FillsWhenIdle(c)
    requires forall i :: 0 <= i < |calls| ==> !Answered(c, x, calls, i).evicted
    ensures Agrees(c, After(c, x, calls).buckets, SpecAfter(c, u, calls), Clock(calls, start))
    decreases |calls|
  {
    hide Valid, Allow, SpecAllow, Agrees;
    if calls != [] {
      var n := |calls| - 1;
      var front := calls[..n];
      forall i | 0 <= i < n ensures !Answered(c, x, front, i).evicted {
        assert front[..i] == calls[..i];
        assert !Answered(c, x, calls, i).evicted;
      }
      RunsAgree(c, x, u, front, start);
      RunsKeepValid(c, x, front, start);
      assert !Answered(c, x, calls, n).evicted;
      AllowAgrees(c, After(c, x, front), SpecAfter(c, u, front), calls[n].key, calls[n].now, Clock(front, start));
    }
  }

  /**
   * Idle eviction cannot be observed: when the TTL is long enough to fill a bucket and no identity is dropped for lack
   * of room, every call of every run is answered as by an unbounded map of token buckets.
   */
  lemma IdleEvictionIsUnobservable(c: Limits, x: Index, u: map<string, Bucket>, calls: seq<Call>, start: real, i: nat)
    requires Valid(c, x, start) && Timely(calls, start) && Agrees(c, x.buckets, u, start) && FillsWhenIdle(c)
    requires forall k :: 0 <= k < |calls| ==> !Answered(c, x, calls, k).evicted
    requires i < |calls|
    ensures Answered(c, x, calls, i).allowed == SpecAnswered(c, u, calls, i).allowed
  {
    hide Valid, Allow, SpecAllow, Agrees;
    var front := calls[..i];
    forall k | 0 <= k < i ensures !Answered(c, x, front, k).evicted {
      assert front[..k] == calls[..k];
      assert !Answered(c, x, calls, k).evicted;
    }
    RunsAgree(c, x, u, front, start);
    RunsKeepValid(c, x, front, start);
    assert !Answered(c, x, calls, i).evicted;
    AllowAgrees(c, After(c, x, front), SpecAfter(c, u, front), calls[i].key, calls[i].now, Clock(front, start));
  }

  // ---- the rate bound

  /** How many of the calls i..j of a run were for the key and allowed. */
  function Admitted(c: Limits, x: Index, calls: seq<Call>, key: string, i: nat, j: nat): nat
    requires i <= j <= |calls|
    decreases j
  {
    if i == j then 0 else
      Admitted(c, x, calls, key, i, j - 1)
        + (if calls[j - 1].key == key && Answered(c, x, calls, j - 1).allowed then 1 else 0)
  }

  function SpecAdmitted(c: Limits, u: map<string, Bucket>, calls: seq<Call>, key: string, i: nat, j: nat): nat
    requires i <= j <= |calls|
    decreases j
  {
    if i == j then 0 else
      SpecAdmitted(c, u, calls, key, i, j - 1)
        + (if calls[j - 1].key == key && SpecAnswered(c, u, calls, j - 1).allowed then 1 else 0)
  }

  /** Tokens accrue no faster than the rate. */
  lemma TokensAccrue(c: Limits, u: map<string, Bucket>, key: string, t: real, now: real)
    requires Sane(c) && t <= now
    ensures Tokens(c, u, key, now) <= Tokens(c, u, key, t) + Accrued(c, now - t)
    ensures Tokens(c, u, key, now) <= c.burst as real
  {
    hide Accrued;
    AccruedGrows(c, 0.0, now - t);
    AccruedAdds(c, 0.0, 0.0);
    if key in u {
      AccruedAdds(c, t - u[key].updated, now - t);
      assert (t - u[key].updated) + (now - t) == now - u[key].updated;
    }
  }

  /** A call takes one token from its key if it is allowed, and none from other keys. */
  lemma CallTakesToken(c: Limits, u: map<string, Bucket>, call: Call, key: string)
    requires Sane(c)
    ensures var r := SpecAllow(c, u, call.key, call.now);
            Tokens(c, r.buckets, key, call.now) ==
            Tokens(c, u, key, call.now) - (if call.key == key && r.allowed then 1.0 else 0.0)
  {
    hide Accrued;
    AccruedAdds(c, 0.0, 0.0);
    assert call.now - call.now == 0.0;
    assert Tokens(c, u, call.key, call.now) <= c.burst as real;
  }

  lemma {:induction false} SpecBudget(c: Limits, u: map<string, Bucket>, calls: seq<Call>, key: string, i: nat, j: nat,
                                      start: real, t: real)
    requires Sane(c) && Timely(calls, start) && i <= j <= |calls| && i < |calls| && calls[i].now <= t
    requires j > 0 ==> calls[j - 1].now <= t
    ensures SpecAdmitted(c, u, calls, key, i, j) as real + Tokens(c, SpecAfter(c, u, calls[..j]), key, t)
            <= c.burst as real + Accrued(c, t - calls[i].now)
    decreases j
  {
    hide SpecAllow, Tokens, Accrued;
    AccruedAdds(c, 0.0, 0.0);
    AccruedGrows(c, 0.0, t - calls[i].now);
    if i == j {
      TokensAccrue(c, SpecAfter(c, u, calls[..j]), key, calls[i].now, t);
    } else {
      var last := calls[j - 1];
      var before, after := SpecAfter(c, u, calls[..j - 1]), SpecAfter(c, u, calls[..j]);
      assert calls[..j][..j - 1] == calls[..j - 1];
      SpecBudget(c, u, calls, key, i, j - 1, start, last.now);
      CallTakesToken(c, before, last, key);
      TokensAccrue(c, after, key, last.now, t);
      AccruedAdds(c, last.now - calls[i].now, t - last.now);
      assert (last.now - calls[i].now) + (t - last.now) == t - calls[i].now;
    }
  }

  lemma SpecTokensNonNegative(c: Limits, u: map<string, Bucket>, key: string, now: real)
    requires Sane(c) && forall k :: k in u ==> 0.0 <= u[k].tokens && u[k].updated <= now
    ensures 0.0 <= Tokens(c, u, key, now)
  {
    hide Accrued;
    if key in u {
      AccruedGrows(c, 0.0, now - u[key].updated);
      AccruedAdds(c, 0.0, 0.0);
    }
  }

  lemma {:induction false} SameAdmissions(c: Limits, x: Index, u: map<string, Bucket>, calls: seq<Call>, start: real,
                                          key: string, i: nat, j: nat)
    requires Valid(c, x, start) && Timely(calls, start) && Agrees(c, x.buckets, u, start) && FillsWhenIdle(c)
    requires forall k :: 0 <= k < |calls| ==> !Answered(c, x, calls, k).evicted
    requires i <= j <= |calls|
    ensures Admitted(c, x, calls, key, i, j) == SpecAdmitted(c, u, calls, key, i, j)
    decreases j
  {
    hide Valid, Agrees, Answered, SpecAnswered;
    if i < j {
      SameAdmissions(c, x, u, calls, start, key, i, j - 1);
      IdleEvictionIsUnobservable(c, x, u, calls, start, j - 1);
    }
  }

  /**
   * The rate bound: in any stretch i..j of a run, the calls allowed for a key number at most the burst plus the rate
   * times the time between the first and the last call of the stretch.
   */
  lemma RateBound(c: Limits, x: Index, calls: seq<Call>, start: real, key: string, i: nat, j: nat)
    requires Valid(c, x, start) && Timely(calls, start) && FillsWhenIdle(c)
    requires forall k :: 0 <= k < |calls| ==> !Answered(c, x, calls, k).evicted
    requires i < j <= |calls|
    ensures Admitted(c, x, calls, key, i, j) as real <= c.burst as real + Accrued(c, calls[j - 1].now - calls[i].now)
  {
    hide Valid, Agrees, Answered, Admitted, SpecAdmitted, Tokens, SpecAfter, Accrued;
    var u, t := x.buckets, calls[j - 1].now;
    AgreesWithItself(c, x, start);
    SameAdmissions(c, x, u, calls, start, key, i, j);
    SpecBudget(c, u, calls, key, i, j, start, t);
    SpecRunBounds(c, u, calls[..j], start);
    SpecTokensNonNegative(c, SpecAfter(c, u, calls[..j]), key, t);
  }

  lemma AgreesWithItself(c: Limits, x: Index, clock: real)
    requires Valid(c, x, clock)
    ensures Sane(c) && Agrees(c, x.buckets, x.buckets, clock)
    ensures forall k :: k in x.buckets ==> 0.0 <= x.buckets[k].tokens && x.buckets[k].updated <= clock
  {
  }

  lemma {:induction false} SpecRunBounds(c: Limits, u: map<string, Bucket>, calls: seq<Call>, start: real)
    requires Sane(c) && Timely(calls, start) && forall k :: k in u ==> 0.0 <= u[k].tokens && u[k].updated <= start
    ensures forall k :: k in SpecAfter(c, u, calls) ==>
              0.0 <= SpecAfter(c, u, calls)[k].tokens && SpecAfter(c, u, calls)[k].updated <= Clock(calls, start)
    decreases |calls|
  {
    hide Tokens;
    if calls != [] {
      var front, last := calls[..|calls| - 1], calls[|calls| - 1];
      SpecRunBounds(c, u, front, start);
      SpecTokensNonNegative(c, SpecAfter(c, u, front), last.key, last.now);
    }
  }

  // ---- when the TTL is too short

  /** A burst of calls for one key at time zero, and another when its bucket has just become idle. */
  function TwoBursts(c: Limits, key: string): seq<Call>
    requires c.burst >= 0
  {
    seq(2 * c.burst, i => Call(key, if i < c.burst then 0.0 else c.idleTTL))
  }

  /** The index after the first `n` of those calls. */
  function AfterBursts(c: Limits, key: string, n: nat): Index {
    if n == 0 then Index(map[], [])
    else if n <= c.burst then Index(map[key := Bucket((c.burst - n) as real, 0.0)], [key])
    else Index(map[key := Bucket((2 * c.burst - n) as real, c.idleTTL)], [key])
  }

  lemma CallAtOnce(c: Limits, key: string, tokens: real, now: real)
    requires Sane(c) && 1.0 <= tokens <= c.burst as real
    ensures Allow(c, Index(map[key := Bucket(tokens, now)], [key]), key, now) ==
            Answer(Index(map[key := Bucket(tokens - 1.0, now)], [key]), true, false)
  {
    hide Accrued;
    var x := Index(map[key := Bucket(tokens, now)], [key]);
    assert RemoveIdle(c, x, now, MAX_CLEANUP) == x;
    AccruedAdds(c, 0.0, 0.0);
    assert now - now == 0.0;
    assert Refill(c, x.buckets[key], now) == tokens;
    assert MoveToBack([key], key) == [key];
    assert x.buckets[key := Bucket(tokens - 1.0, now)] == map[key := Bucket(tokens - 1.0, now)];
  }

  lemma CallWhenIdle(c: Limits, key: string, b: Bucket, now: real)
    requires Sane(c) && now - b.updated >= c.idleTTL
    ensures Allow(c, Index(map[key := b], [key]), key, now) ==
            Answer(Index(map[key := Bucket(c.burst as real - 1.0, now)], [key]), true, false)
  {
    var x := Index(map[key := b], [key]);
    assert RemoveOldest(x) == Index(map[], []);
    assert RemoveIdle(c, x, now, MAX_CLEANUP) == RemoveIdle(c, Index(map[], []), now, MAX_CLEANUP - 1);
  }

  /** The bounded limiter forgets the key between the bursts and allows all calls of both. */
  lemma BurstCall(c: Limits, key: string, n: nat)
    requires Sane(c) && n < 2 * c.burst
    ensures Allow(c, AfterBursts(c, key, n), key, if n < c.burst then 0.0 else c.idleTTL) ==
            Answer(AfterBursts(c, key, n + 1), true, false)
  {
    hide Allow;
    if n == 0 {
      FirstCall(c, key, 0.0);
    } else if n == c.burst {
      CallWhenIdle(c, key, Bucket(0.0, 0.0), c.idleTTL);
    } else if n < c.burst {
      CallAtOnce(c, key, (c.burst - n) as real, 0.0);
    } else {
      CallAtOnce(c, key, (2 * c.burst - n) as real, c.idleTTL);
    }
  }

  lemma FirstCall(c: Limits, key: string, now: real)
    requires Sane(c)
    ensures Allow(c, Index(map[], []), key, now) ==
            Answer(Index(map[key := Bucket(c.burst as real - 1.0, now)], [key]), true, false)
  {
  }

  lemma {:induction false} BothBurstsPass(c: Limits, key: string, n: nat)
    requires Sane(c) && n <= 2 * c.burst
    ensures After(c, Index(map[], []), TwoBursts(c, key)[..n]) == AfterBursts(c, key, n)
    ensures n < 2 * c.burst ==> Answered(c, Index(map[], []), TwoBursts(c, key), n) ==
                                Answer(AfterBursts(c, key, n + 1), true, false)
  {
    hide Allow, AfterBursts;
    var calls := TwoBursts(c, key);
    if n == 0 {
      assert calls[..0] == [];
      assert AfterBursts(c, key, 0) == Index(map[], []) by { NoBursts(c, key); }
    } else {
      BothBurstsPass(c, key, n - 1);
      assert calls[..n][..n - 1] == calls[..n - 1];
      BurstCall(c, key, n - 1);
    }
    if n < 2 * c.burst { BurstCall(c, key, n); }
  }

  lemma NoBursts(c: Limits, key: string)
    ensures AfterBursts(c, key, 0) == Index(map[], [])
  {
  }

  lemma {:induction false} AllAdmitted(c: Limits, u: map<string, Bucket>, calls: seq<Call>, key: string, j: nat)
    requires j <= |calls| && forall k :: 0 <= k < |calls| ==>
               calls[k].key == key && SpecAnswered(c, u, calls, k).allowed
    ensures SpecAdmitted(c, u, calls, key, 0, j) == j
    decreases j
  {
    if j > 0 { AllAdmitted(c, u, calls, key, j - 1); }
  }

  /** The condition on the TTL is needed: below it, two bursts to one key tell the two limiters apart. */
  lemma ShortTtlIsObserved(c: Limits, key: string)
    requires Sane(c) && !FillsWhenIdle(c)
    ensures var calls, none := TwoBursts(c, key), Index(map[], []);
            && Timely(calls, 0.0) && (forall i :: 0 <= i < |calls| ==> !Answered(c, none, calls, i).evicted)
            && exists i :: 0 <= i < |calls|
                           && Answered(c, none, calls, i).allowed != SpecAnswered(c, map[], calls, i).allowed
  {
    hide Answered, SpecAnswered, SpecAdmitted, Tokens, SpecAfter, After;
    var calls, none, u: map<string, Bucket> := TwoBursts(c, key), Index(map[], []), map[];
    var n := |calls|;
    forall i | 0 <= i < n ensures Answered(c, none, calls, i).allowed && !Answered(c, none, calls, i).evicted {
      BothBurstsPass(c, key, i);
    }
    SpecDeniesSome(c, key);
  }

  /** The unbounded limiter cannot allow all the calls of both bursts. */
  lemma SpecDeniesSome(c: Limits, key: string)
    requires Sane(c) && !FillsWhenIdle(c)
    ensures var calls := TwoBursts(c, key); exists i :: 0 <= i < |calls| && !SpecAnswered(c, map[], calls, i).allowed
  {
    hide SpecAnswered, SpecAdmitted, Tokens, SpecAfter, Accrued;
    var calls, u: map<string, Bucket> := TwoBursts(c, key), map[];
    var n := |calls|;
    SpecBudget(c, u, calls, key, 0, n, 0.0, c.idleTTL);
    SpecRunBounds(c, u, calls, 0.0);
    assert calls[..n] == calls && c.idleTTL - 0.0 == c.idleTTL;
    SpecTokensNonNegative(c, SpecAfter(c, u, calls), key, c.idleTTL);
    if forall i :: 0 <= i < n ==> SpecAnswered(c, u, calls, i).allowed {
      AllAdmitted(c, u, calls, key, n);
      assert false;
    }
  }

  // ---- the limiter object

  class Limiter {
    const limits: Limits
    var buckets: map<string, Bucket>
    var order: seq<string>

    ghost function Contents(): Index
      reads this
    {
      Index(buckets, order)
    }

    constructor (limits: Limits)
      ensures this.limits == limits && Contents() == Index(map[], [])
    {
      this.limits := limits;
      buckets, order := map[], [];
    }

    /** newBoundedRemoteRateLimiter: no limiter without a positive rate and burst, defaults for the other bounds. */
    static method Create(rate: real, burst: int, maxIdentities: int, idleTTL: real) returns (l: Limiter?)
      ensures l == null <==> rate <= 0.0 || burst <= 0
      ensures l != null ==> fresh(l) && Valid(l.limits, l.Contents(), 0.0)
      ensures l != null ==> l.limits ==
                            Limits(rate, burst, if maxIdentities <= 0 then DEFAULT_MAX_IDENTITIES else maxIdentities,
                                               if idleTTL <= 0.0 then DEFAULT_IDLE_TTL else idleTTL)
    {
      if rate <= 0.0 || burst <= 0 { return null; }
      var identities := if maxIdentities <= 0 then DEFAULT_MAX_IDENTITIES else maxIdentities;
      var ttl := if idleTTL <= 0.0 then DEFAULT_IDLE_TTL else idleTTL;
      l := new Limiter(Limits(rate, burst, identities, ttl));
    }

    method DropOldest()
      modifies this
      ensures Contents() == RemoveOldest(old(Contents()))
    {
      if order == [] { return; }
      buckets, order := buckets - {order[0]}, order[1..];
    }

    method DropIdle(now: real, limit: nat, ghost clock: real)
      requires Valid(limits, Contents(), clock)
      modifies this
      ensures Contents() == RemoveIdle(limits, old(Contents()), now, limit) && Valid(limits, Contents(), clock)
    {
      hide Valid;
      var removed := 0;
      while removed < limit
        invariant removed <= limit && Valid(limits, Contents(), clock)
        invariant RemoveIdle(limits, Contents(), now, limit - removed) ==
                  RemoveIdle(limits, old(Contents()), now, limit)
      {
        RemoveOldestKeepsValid(limits, Contents(), clock);
        if order == [] { return; }
        if now - buckets[order[0]].updated < limits.idleTTL { return; }
        DropOldest();
        removed := removed + 1;
      }
    }

    method AllowCall(key: string, now: real, ghost clock: real) returns (allowed: bool)
      requires Valid(limits, Contents(), clock) && clock <= now
      modifies this
      ensures Valid(limits, Contents(), now)
      ensures Contents() == Allow(limits, old(Contents()), key, now).index
      ensures allowed == Allow(limits, old(Contents()), key, now).allowed
    {
      hide Valid, RemoveIdle, RemoveOldest, Refill;
      AllowKeepsValid(limits, Contents(), key, now, clock);
      DropIdle(now, MAX_CLEANUP, clock);
      if key !in buckets {
        if |buckets| >= limits.maxIdentities { DropOldest(); }
        buckets, order := buckets[key := Bucket(limits.burst as real - 1.0, now)], order + [key];
        return true;
      }
      var bucket := buckets[key];
      order := MoveToBack(order, key);
      var tokens := Refill(limits, bucket, now);
      if tokens < 1.0 {
        buckets := buckets[key := Bucket(tokens, now)];
        return false;
      }
      buckets := buckets[key := Bucket(tokens - 1.0, now)];
      return true;
    }
  }
}
