/**
 * The gateway's bounded replay cache: a map of interactions with a recency list, against a plain map of
 * unexpired interactions. Fingerprints are kept as the payloads they hash.
 */
module ReplayCache {
  import opened Recency

  /** An empty response is a missing one. */
  datatype Entry = Entry(fingerprint: string, response: string, expiresAt: int)

  datatype Config = Config(ttl: int, maxEntries: int)

  predicate Sane(c: Config) { c.ttl > 0 && c.maxEntries > 0 }

  const DEFAULT_MAX_ENTRIES := 4096
  const DEFAULT_TTL := 600_000_000_000
  const MAX_CLEANUP := 64

  datatype Cache = Cache(seen: map<string, Entry>, order: seq<string>)

  datatype Disposition = New | InFlight | Cached(response: string) | Conflict | Overflow

  // ---- the bounded cache as a function

  function Remove(x: Cache, id: string): Cache { Cache(x.seen - {id}, Without(x.order, id)) }

  predicate FrontIsExpired(x: Cache, now: int) {
    x.order != [] && x.order[0] in x.seen && x.seen[x.order[0]].expiresAt <= now
  }

  function RemoveExpired(x: Cache, now: int, limit: nat): Cache
    decreases limit
  {
    if limit == 0 || !FrontIsExpired(x, now) then x else RemoveExpired(Remove(x, x.order[0]), now, limit - 1)
  }

  datatype Begun = Begun(cache: Cache, answer: Disposition)

  /** What the holder of a live entry answers. */
  function Reply(e: Entry, fingerprint: string): (d: Disposition)
    ensures !d.New? && !d.Overflow?
  {
    if e.fingerprint != fingerprint then Conflict else if e.response == "" then InFlight else Cached(e.response)
  }

  predicate IsLive(m: map<string, Entry>, id: string, now: int) { id in m && m[id].expiresAt > now }

  function Begin(c: Config, x0: Cache, id: string, fingerprint: string, now: int): Begun {
    var x := RemoveExpired(x0, now, MAX_CLEANUP);
    if IsLive(x.seen, id, now) then Begun(x.(order := MoveToBack(x.order, id)), Reply(x.seen[id], fingerprint)) else
      var y := if id in x.seen then Remove(x, id) else x;
      if |y.seen| >= c.maxEntries then Begun(y, Overflow)
      else Begun(Cache(y.seen[id := Entry(fingerprint, "", now + c.ttl)], y.order + [id]), New)
  }

  function Complete(c: Config, x: Cache, id: string, fingerprint: string, response: string, now: int): Cache {
    if id !in x.seen || x.seen[id].fingerprint != fingerprint then x
    else Cache(x.seen[id := Entry(fingerprint, response, now + c.ttl)], MoveToBack(x.order, id))
  }

  function Release(x: Cache, id: string, fingerprint: string): Cache {
    if id in x.seen && x.seen[id].fingerprint == fingerprint then Remove(x, id) else x
  }

  // ---- what the cache keeps

  /** The list holds exactly the keys of the map, each once, and no more than the maximum. */
  ghost predicate Valid(c: Config, x: Cache) {
    Sane(c) && Lists(x.order, x.seen.Keys) && |x.seen| <= c.maxEntries
  }

  lemma RemoveKeepsValid(c: Config, x: Cache, id: string)
    requires Valid(c, x)
    ensures Valid(c, Remove(x, id)) && |x.seen| <= c.maxEntries && id !in Remove(x, id).seen
    ensures id in x.seen ==> |Remove(x, id).seen| == |x.seen| - 1
  {
    hide Lists;
    assert (x.seen - {id}).Keys == x.seen.Keys - {id};
    RemovedFromList(x.order, x.seen.Keys, id);
    assert |x.seen.Keys - {id}| <= |x.seen.Keys| by { if id !in x.seen { assert x.seen.Keys - {id} == x.seen.Keys; } }
  }

  lemma {:induction false} RemoveExpiredKeepsValid(c: Config, x: Cache, now: int, limit: nat)
    requires Valid(c, x)
    ensures Valid(c, RemoveExpired(x, now, limit))
    decreases limit
  {
    hide Valid, Remove;
    if limit > 0 && FrontIsExpired(x, now) {
      RemoveKeepsValid(c, x, x.order[0]);
      RemoveExpiredKeepsValid(c, Remove(x, x.order[0]), now, limit - 1);
    }
  }

  lemma FrontIsHeld(c: Config, x: Cache)
    requires Valid(c, x)
    ensures x.order != [] ==> x.order[0] in x.seen
  {
    hide Lists;
    FrontIsListed(x.order, x.seen.Keys);
  }

  lemma InsertKeepsValid(c: Config, x: Cache, id: string, e: Entry)
    requires Valid(c, x) && id !in x.seen && |x.seen| < c.maxEntries
    ensures Valid(c, Cache(x.seen[id := e], x.order + [id]))
  {
    hide Lists;
    assert x.seen[id := e].Keys == x.seen.Keys + {id};
    PushedBack(x.order, x.seen.Keys, id);
  }

  lemma TouchKeepsValid(c: Config, x: Cache, id: string, e: Entry)
    requires Valid(c, x) && id in x.seen
    ensures Valid(c, Cache(x.seen[id := e], MoveToBack(x.order, id)))
  {
    hide Lists;
    assert x.seen[id := e].Keys == x.seen.Keys;
    MovedToBack(x.order, x.seen.Keys, id);
  }

  /** Overflow is answered only when the cache is full after clean-up, and only for an interaction that is not live. */
  lemma BeginKeepsValid(c: Config, x: Cache, id: string, fingerprint: string, now: int)
    requires Valid(c, x)
    ensures var r := Begin(c, x, id, fingerprint, now);
            && Valid(c, r.cache)
            && (r.answer.Overflow? ==> |r.cache.seen| == c.maxEntries && id !in r.cache.seen)
  {
    hide RemoveExpired, Valid, Remove, Reply;
    var y := RemoveExpired(x, now, MAX_CLEANUP);
    RemoveExpiredKeepsValid(c, x, now, MAX_CLEANUP);
    RemoveKeepsValid(c, y, id);
    if IsLive(y.seen, id, now) {
      TouchKeepsValid(c, y, id, y.seen[id]);
      assert y.seen[id := y.seen[id]] == y.seen;
    } else {
      var z := if id in y.seen then Remove(y, id) else y;
      if |z.seen| < c.maxEntries { InsertKeepsValid(c, z, id, Entry(fingerprint, "", now + c.ttl)); }
    }
  }

  lemma UpdatesKeepValid(c: Config, x: Cache, id: string, fingerprint: string, response: string, now: int)
    requires Valid(c, x)
    ensures Valid(c, Complete(c, x, id, fingerprint, response, now)) && Valid(c, Release(x, id, fingerprint))
  {
    hide Valid, Remove;
    RemoveKeepsValid(c, x, id);
    if id in x.seen { TouchKeepsValid(c, x, id, Entry(fingerprint, response, now + c.ttl)); }
  }

  // ---- the plain map of unexpired interactions

  datatype SpecBegun = SpecBegun(live: map<string, Entry>, answer: Disposition)

  function SpecBegin(c: Config, m: map<string, Entry>, id: string, fingerprint: string, now: int): SpecBegun {
    if IsLive(m, id, now) then SpecBegun(m, Reply(m[id], fingerprint))
    else SpecBegun(m[id := Entry(fingerprint, "", now + c.ttl)], New)
  }

  function SpecComplete(c: Config, m: map<string, Entry>, id: string, fingerprint: string, response: string,
                        now: int): map<string, Entry> {
    if IsLive(m, id, now) && m[id].fingerprint == fingerprint then m[id := Entry(fingerprint, response, now + c.ttl)]
      else m
  }

  function SpecRelease(m: map<string, Entry>, id: string, fingerprint: string, now: int): map<string, Entry> {
    if IsLive(m, id, now) && m[id].fingerprint == fingerprint then m - {id} else m
  }

  /** Both maps hold the same unexpired interactions. */
  ghost predicate SameLive(a: map<string, Entry>, b: map<string, Entry>, now: int) {
    forall id :: (IsLive(a, id, now) <==> IsLive(b, id, now)) && (IsLive(a, id, now) ==> a[id] == b[id])
  }

  lemma {:induction false} CleanupKeepsLive(x: Cache, now: int, limit: nat)
    ensures SameLive(RemoveExpired(x, now, limit).seen, x.seen, now)
    decreases limit
  {
    if limit > 0 && FrontIsExpired(x, now) { CleanupKeepsLive(Remove(x, x.order[0]), now, limit - 1); }
  }

  /** `begin` answers as the plain map unless it overflows, and then it changes nothing that is live. */
  lemma BeginRefines(c: Config, x: Cache, m: map<string, Entry>, id: string, fingerprint: string, now: int)
    requires SameLive(x.seen, m, now)
    ensures var r, spec := Begin(c, x, id, fingerprint, now), SpecBegin(c, m, id, fingerprint, now);
            if r.answer.Overflow? then spec.answer == New && SameLive(r.cache.seen, m, now)
            else r.answer == spec.answer && SameLive(r.cache.seen, spec.live, now)
  {
    hide RemoveExpired, SameLive, Without;
    var y := RemoveExpired(x, now, MAX_CLEANUP);
    CleanupKeepsLive(x, now, MAX_CLEANUP);
    SameLiveThrough(y.seen, x.seen, m, now, id);
    if !IsLive(y.seen, id, now) {
      DeadRemoved(y.seen, m, id, now);
      var z := if id in y.seen then Remove(y, id) else y;
      PutLive(z.seen, m, id, Entry(fingerprint, "", now + c.ttl), now);
    }
  }

  lemma SameLiveThrough(a: map<string, Entry>, b: map<string, Entry>, m: map<string, Entry>, now: int, id: string)
    requires SameLive(a, b, now) && SameLive(b, m, now)
    ensures SameLive(a, m, now)
    ensures (IsLive(a, id, now) <==> IsLive(m, id, now)) && (IsLive(a, id, now) ==> a[id] == m[id])
  {
    forall i ensures (IsLive(a, i, now) <==> IsLive(m, i, now)) && (IsLive(a, i, now) ==> a[i] == m[i]) {
      assert IsLive(a, i, now) <==> IsLive(b, i, now);
      assert IsLive(b, i, now) <==> IsLive(m, i, now);
    }
  }

  lemma DeadRemoved(a: map<string, Entry>, m: map<string, Entry>, id: string, now: int)
    requires SameLive(a, m, now) && !IsLive(a, id, now)
    ensures SameLive(a - {id}, m, now)
  {
    var rest := a - {id};
    forall i ensures (IsLive(rest, i, now) <==> IsLive(m, i, now)) && (IsLive(rest, i, now) ==> rest[i] == m[i]) {
      assert IsLive(a, i, now) <==> IsLive(m, i, now);
    }
  }

  lemma PutLive(a: map<string, Entry>, m: map<string, Entry>, id: string, e: Entry, now: int)
    requires SameLive(a, m, now)
    ensures SameLive(a[id := e], m[id := e], now)
  {
    var a1, m1 := a[id := e], m[id := e];
    forall i ensures (IsLive(a1, i, now) <==> IsLive(m1, i, now)) && (IsLive(a1, i, now) ==> a1[i] == m1[i]) {
      assert IsLive(a, i, now) <==> IsLive(m, i, now);
    }
  }

  /** The entry a completion would write to has expired but has not been cleaned up. */
  predicate TooLate(x: Cache, id: string, fingerprint: string, now: int) {
    id in x.seen && x.seen[id].fingerprint == fingerprint && x.seen[id].expiresAt <= now
  }

  /**
   * `complete` agrees with the plain map exactly when it does not come too late: then it would revive an expired entry.
   */
  lemma CompleteRefines(c: Config, x: Cache, m: map<string, Entry>, id: string, fingerprint: string, response: string,
                        now: int)
    requires Sane(c) && SameLive(x.seen, m, now)
    ensures SameLive(Complete(c, x, id, fingerprint, response, now).seen,
                     SpecComplete(c, m, id, fingerprint, response, now), now)
            <==> !TooLate(x, id, fingerprint, now)
  {
    var y, spec := Complete(c, x, id, fingerprint, response, now).seen,
      SpecComplete(c, m, id, fingerprint, response, now);
    assert IsLive(x.seen, id, now) <==> IsLive(m, id, now);
    if TooLate(x, id, fingerprint, now) { assert IsLive(y, id, now) && !IsLive(spec, id, now); }
  }

  lemma ReleaseRefines(x: Cache, m: map<string, Entry>, id: string, fingerprint: string, now: int)
    requires SameLive(x.seen, m, now)
    ensures SameLive(Release(x, id, fingerprint).seen, SpecRelease(m, id, fingerprint, now), now)
  {
    assert IsLive(x.seen, id, now) <==> IsLive(m, id, now);
  }

  lemma LaterLive(a: map<string, Entry>, b: map<string, Entry>, now: int, later: int)
    requires SameLive(a, b, now) && now <= later
    ensures SameLive(a, b, later)
  {
    forall id ensures (IsLive(a, id, later) <==> IsLive(b, id, later)) && (IsLive(a, id, later) ==> a[id] == b[id]) {
      assert IsLive(a, id, now) <==> IsLive(b, id, now);
    }
  }

  // ---- whole runs

  datatype Event =
    | BeginEvent(id: string, fingerprint: string, now: int)
    | CompleteEvent(id: string, fingerprint: string, response: string, now: int)
    | ReleaseEvent(id: string, fingerprint: string, now: int)

  ghost predicate Timely(events: seq<Event>) {
    forall i, j :: 0 <= i < j < |events| ==> events[i].now <= events[j].now
  }

  function Step(c: Config, x: Cache, e: Event): Cache {
    match e
    case BeginEvent(id, fingerprint, now) => Begin(c, x, id, fingerprint, now).cache
    case CompleteEvent(id, fingerprint, response, now) => Complete(c, x, id, fingerprint, response, now)
    case ReleaseEvent(id, fingerprint, now) => Release(x, id, fingerprint)
  }

  function After(c: Config, x: Cache, events: seq<Event>): Cache {
    if events == [] then x else Step(c, After(c, x, events[..|events| - 1]), events[|events| - 1])
  }

  /** The answer to the i-th event of a run, if it is a `begin`. */
  function AnswerAt(c: Config, x: Cache, events: seq<Event>, i: nat): (d: Disposition)
    requires i < |events| && events[i].BeginEvent?
  {
    Begin(c, After(c, x, events[..i]), events[i].id, events[i].fingerprint, events[i].now).answer
  }

  lemma AfterOneMore(c: Config, x: Cache, events: seq<Event>, n: nat)
    requires n < |events|
    ensures After(c, x, events[..n + 1]) == Step(c, After(c, x, events[..n]), events[n])
  {
    assert events[..n + 1][..n] == events[..n];
  }

  /** In every run the list and the map hold the same keys and the cap is respected. */
  lemma {:induction false} RunsKeepValid(c: Config, x: Cache, events: seq<Event>)
    requires Valid(c, x)
    ensures Valid(c, After(c, x, events))
    decreases |events|
  {
    hide Valid, Begin, Complete, Release;
    if events != [] {
      var before, e := After(c, x, events[..|events| - 1]), events[|events| - 1];
      RunsKeepValid(c, x, events[..|events| - 1]);
      BeginKeepsValid(c, before, e.id, e.fingerprint, e.now);
      UpdatesKeepValid(c, before, e.id, e.fingerprint, if e.CompleteEvent? then e.response else "", e.now);
    }
  }

  // ---- lifetimes

  /** An interaction, if it is held at all, is held until `until`. */
  predicate HeldUntil(x: Cache, id: string, until: int) { id in x.seen ==> x.seen[id].expiresAt >= until }

  lemma {:induction false} CleanupDropsExpired(x: Cache, now: int, limit: nat, id: string)
    ensures var y := RemoveExpired(x, now, limit);
            && (id in y.seen ==> id in x.seen && y.seen[id] == x.seen[id])
            && (id in x.seen && id !in y.seen ==> x.seen[id].expiresAt <= now)
    decreases limit
  {
    if limit > 0 && FrontIsExpired(x, now) { CleanupDropsExpired(Remove(x, x.order[0]), now, limit - 1, id); }
  }

  /** No step shortens a lifetime that ends after it, except by removing the entry. */
  lemma StepKeepsHeld(c: Config, x: Cache, e: Event, id: string, until: int)
    requires HeldUntil(x, id, until) && until <= e.now + c.ttl
    ensures HeldUntil(Step(c, x, e), id, until)
  {
    hide RemoveExpired, Without;
    CleanupDropsExpired(x, e.now, MAX_CLEANUP, id);
  }

  /** The entry of an interaction carries the fingerprint. */
  predicate Holds(x: Cache, id: string, fingerprint: string) { id in x.seen && x.seen[id].fingerprint == fingerprint }

  /**
   * A step at a time before the end of an entry removes it only if it is a release of that interaction with its
   * fingerprint.
   */
  lemma StepKeepsEntry(c: Config, x: Cache, e: Event, id: string, fingerprint: string, until: int)
    requires Holds(x, id, fingerprint) && HeldUntil(x, id, until) && e.now < until
    requires !(e.ReleaseEvent? && e.id == id && e.fingerprint == fingerprint)
    ensures Holds(Step(c, x, e), id, fingerprint)
  {
    hide RemoveExpired, Without;
    CleanupDropsExpired(x, e.now, MAX_CLEANUP, id);
  }

  /** A `begin` answered New leaves an entry that lasts for the TTL. */
  lemma NewIsHeld(c: Config, x: Cache, events: seq<Event>, i: nat)
    requires i < |events| && events[i].BeginEvent? && AnswerAt(c, x, events, i).New?
    ensures var y := After(c, x, events[..i + 1]);
            events[i].id in y.seen && y.seen[events[i].id] == Entry(events[i].fingerprint, "", events[i].now + c.ttl)
  {
    hide RemoveExpired, Without, After;
    AfterOneMore(c, x, events, i);
  }

  lemma {:induction false} HeldSince(c: Config, x: Cache, events: seq<Event>, i: nat, n: nat)
    requires Timely(events) && i < n <= |events| && events[i].BeginEvent? && AnswerAt(c, x, events, i).New?
    ensures HeldUntil(After(c, x, events[..n]), events[i].id, events[i].now + c.ttl)
    decreases n
  {
    hide Step;
    if n == i + 1 {
      NewIsHeld(c, x, events, i);
    } else {
      HeldSince(c, x, events, i, n - 1);
      AfterOneMore(c, x, events, n - 1);
      StepKeepsHeld(c, After(c, x, events[..n - 1]), events[n - 1], events[i].id, events[i].now + c.ttl);
    }
  }

  /** The event releases the interaction with the fingerprint. */
  predicate Releases(e: Event, id: string, fingerprint: string) {
    e.ReleaseEvent? && e.id == id && e.fingerprint == fingerprint
  }

  lemma {:induction false} EntrySince(c: Config, x: Cache, events: seq<Event>, i: nat, n: nat)
    requires Timely(events) && i < n <= |events| && events[i].BeginEvent? && AnswerAt(c, x, events, i).New?
    requires forall k :: i < k < n ==>
               events[k].now < events[i].now + c.ttl && !Releases(events[k], events[i].id, events[i].fingerprint)
    ensures Holds(After(c, x, events[..n]), events[i].id, events[i].fingerprint)
    decreases n
  {
    hide Step;
    if n == i + 1 {
      NewIsHeld(c, x, events, i);
    } else {
      EntrySince(c, x, events, i, n - 1);
      HeldSince(c, x, events, i, n - 1);
      AfterOneMore(c, x, events, n - 1);
      StepKeepsEntry(c, After(c, x, events[..n - 1]), events[n - 1], events[i].id, events[i].fingerprint,
                     events[i].now + c.ttl);
    }
  }

  /**
   * A second New for an interaction within its lifetime needs a release of it, with the first fingerprint, in between.
   */
  lemma NewNeedsRelease(c: Config, x: Cache, events: seq<Event>, i: nat, j: nat)
    requires Timely(events) && i < j < |events| && events[i].BeginEvent? && events[j].BeginEvent?
    requires events[j].id == events[i].id
    requires AnswerAt(c, x, events, i).New? && AnswerAt(c, x, events, j).New? && events[j].now < events[i].now + c.ttl
    ensures exists k :: i < k < j && Releases(events[k], events[i].id, events[i].fingerprint)
  {
    hide After;
    if forall k :: i < k < j ==> !Releases(events[k], events[i].id, events[i].fingerprint) {
      EntrySince(c, x, events, i, j);
      HeldSince(c, x, events, i, j);
      var y := After(c, x, events[..j]);
      CleanupDropsExpired(y, events[j].now, MAX_CLEANUP, events[i].id);
      assert false;
    }
  }

  // ---- where cached replies come from

  ghost predicate Completed(events: seq<Event>, n: nat, id: string, fingerprint: string, response: string)
    requires n <= |events|
  {
    exists k :: 0 <= k < n && events[k].CompleteEvent? && events[k].id == id && events[k].fingerprint == fingerprint
                && events[k].response == response
  }

  /** A response held for an interaction was given by a completion with the same interaction and fingerprint. */
  lemma {:induction false} ResponsesAreCompletions(c: Config, events: seq<Event>, n: nat, id: string)
    requires n <= |events|
    ensures var seen := After(c, Cache(map[], []), events[..n]).seen;
            id in seen && seen[id].response != "" ==> Completed(events, n, id, seen[id].fingerprint, seen[id].response)
    decreases n
  {
    hide After, RemoveExpired, Without;
    if n == 0 {
      assert After(c, Cache(map[], []), events[..0]) == Cache(map[], []) by { NothingYet(c, events); }
    } else {
      ResponsesAreCompletions(c, events, n - 1, id);
      AfterOneMore(c, Cache(map[], []), events, n - 1);
      var before, after := After(c, Cache(map[], []), events[..n - 1]), After(c, Cache(map[], []), events[..n]);
      CleanupDropsExpired(before, events[n - 1].now, MAX_CLEANUP, id);
      if id in after.seen && after.seen[id].response != ""
        && !(id in before.seen && after.seen[id] == before.seen[id]) {
        assert events[n - 1].CompleteEvent? && events[n - 1].id == id;
      }
    }
  }

  lemma NothingYet(c: Config, events: seq<Event>)
    ensures After(c, Cache(map[], []), events[..0]) == Cache(map[], [])
  {
  }

  /** A cached reply to (interaction, fingerprint) was produced by a request with that interaction and fingerprint. */
  lemma CachedRepliesAreGenuine(c: Config, events: seq<Event>, j: nat)
    requires j < |events| && events[j].BeginEvent? && AnswerAt(c, Cache(map[], []), events, j).Cached?
    ensures Completed(events, j, events[j].id, events[j].fingerprint, AnswerAt(c, Cache(map[], []), events, j).response)
  {
    hide After, RemoveExpired, Completed;
    ResponsesAreCompletions(c, events, j, events[j].id);
    CleanupDropsExpired(After(c, Cache(map[], []), events[..j]), events[j].now, MAX_CLEANUP, events[j].id);
  }

  // ---- refinement over runs

  function SpecStep(c: Config, m: map<string, Entry>, e: Event, overflow: bool): map<string, Entry> {
    match e
    case BeginEvent(id, fingerprint, now) => if overflow then m else SpecBegin(c, m, id, fingerprint, now).live
    case CompleteEvent(id, fingerprint, response, now) => SpecComplete(c, m, id, fingerprint, response, now)
    case ReleaseEvent(id, fingerprint, now) => SpecRelease(m, id, fingerprint, now)
  }

  function Overflowed(c: Config, x: Cache, events: seq<Event>, i: nat): bool
    requires i < |events|
  {
    events[i].BeginEvent? && AnswerAt(c, x, events, i).Overflow?
  }

  /** The plain map after a run; the requests the bounded cache turned away are left out. */
  function SpecAfter(c: Config, m: map<string, Entry>, x: Cache, events: seq<Event>, n: nat): map<string, Entry>
    requires n <= |events|
  {
    if n == 0 then m else SpecStep(c, SpecAfter(c, m, x, events, n - 1), events[n - 1], Overflowed(c, x, events, n - 1))
  }

  /** The event is no completion of an entry that has expired but is still held. */
  predicate OnTime(c: Config, x: Cache, events: seq<Event>, j: nat)
    requires j < |events|
  {
    events[j].CompleteEvent? ==> !TooLate(After(c, x, events[..j]), events[j].id, events[j].fingerprint, events[j].now)
  }

  /** The completion `j` answers the `begin` `i`, which was New, within the lifetime that `begin` gave. */
  predicate Owns(c: Config, x: Cache, events: seq<Event>, i: nat, j: nat)
    requires i < j < |events|
  {
    && events[i].BeginEvent? && events[i].id == events[j].id
    && AnswerAt(c, x, events, i).New? && events[j].now < events[i].now + c.ttl
  }

  /**
   * A request that completes within the lifetime of the entry it was given is on time, whatever happened to the entry
   * since.
   */
  lemma OwnersAreOnTime(c: Config, x: Cache, events: seq<Event>, i: nat, j: nat)
    requires Timely(events) && i < j < |events| && Owns(c, x, events, i, j)
    ensures OnTime(c, x, events, j)
  {
    hide After, AnswerAt;
    HeldSince(c, x, events, i, j);
  }

  lemma StepRefines(c: Config, x: Cache, m: map<string, Entry>, e: Event, overflow: bool)
    requires Sane(c) && SameLive(x.seen, m, e.now)
    requires e.BeginEvent? ==> (overflow <==> Begin(c, x, e.id, e.fingerprint, e.now).answer.Overflow?)
    requires e.CompleteEvent? ==> !TooLate(x, e.id, e.fingerprint, e.now)
    ensures SameLive(Step(c, x, e).seen, SpecStep(c, m, e, overflow), e.now)
  {
    hide Begin, Complete, Release, SpecBegin, SpecComplete, SpecRelease, SameLive, TooLate;
    match e
    case BeginEvent(id, fingerprint, now) => BeginRefines(c, x, m, id, fingerprint, now);
    case CompleteEvent(id, fingerprint, response, now) => CompleteRefines(c, x, m, id, fingerprint, response, now);
    case ReleaseEvent(id, fingerprint, now) => ReleaseRefines(x, m, id, fingerprint, now);
  }

  lemma {:induction false} RunsRefine(c: Config, x: Cache, m: map<string, Entry>, events: seq<Event>, n: nat, now: int)
    requires Sane(c) && Timely(events) && n <= |events| && (forall k :: SameLive(x.seen, m, k))
    requires (forall j :: 0 <= j < n ==> OnTime(c, x, events, j)) && (n > 0 ==> events[n - 1].now <= now)
    ensures SameLive(After(c, x, events[..n]).seen, SpecAfter(c, m, x, events, n), now)
    decreases n
  {
    hide SameLive, Step, SpecStep, AnswerAt;
    if n > 0 {
      var e := events[n - 1];
      RunsRefine(c, x, m, events, n - 1, e.now);
      AfterOneMore(c, x, events, n - 1);
      assert OnTime(c, x, events, n - 1);
      AnswerDefined(c, x, events, n - 1);
      StepRefines(c, After(c, x, events[..n - 1]), SpecAfter(c, m, x, events, n - 1), e,
                  Overflowed(c, x, events, n - 1));
      LaterLive(After(c, x, events[..n]).seen, SpecAfter(c, m, x, events, n), e.now, now);
    }
  }

  lemma AnswerDefined(c: Config, x: Cache, events: seq<Event>, i: nat)
    requires i < |events|
    ensures events[i].BeginEvent? ==>
              AnswerAt(c, x, events, i) ==
                Begin(c, After(c, x, events[..i]), events[i].id, events[i].fingerprint, events[i].now).answer
  {
  }

  /**
   * The bounded cache answers every `begin` of a run as a plain map of unexpired interactions, except that it may turn
   * away an interaction the plain map would call new, and that only when it is full; provided no completion before it
   * came too late.
   */
  lemma CacheRefinesPlainMap(c: Config, x: Cache, m: map<string, Entry>, events: seq<Event>, i: nat)
    requires Valid(c, x) && Timely(events) && (forall k :: SameLive(x.seen, m, k)) && i < |events|
    requires events[i].BeginEvent?
    requires forall j :: 0 <= j < i ==> OnTime(c, x, events, j)
    ensures var e := events[i];
            var spec := SpecBegin(c, SpecAfter(c, m, x, events, i), e.id, e.fingerprint, e.now).answer;
            if AnswerAt(c, x, events, i).Overflow? then spec.New? && |After(c, x, events[..i + 1]).seen| == c.maxEntries
            else AnswerAt(c, x, events, i) == spec
  {
    hide OnTime, SameLive, Begin, SpecBegin, After, SpecAfter, Lists;
    var e := events[i];
    RunsRefine(c, x, m, events, i, e.now);
    BeginRefines(c, After(c, x, events[..i]), SpecAfter(c, m, x, events, i), e.id, e.fingerprint, e.now);
    RunsKeepValid(c, x, events[..i]);
    BeginKeepsValid(c, After(c, x, events[..i]), e.id, e.fingerprint, e.now);
    AfterOneMore(c, x, events, i);
  }

  /** The cache and the plain map hold the same live interactions after the first `n` events. */
  ghost predicate AgreeAfter(c: Config, x: Cache, m: map<string, Entry>, events: seq<Event>, n: nat)
    requires 0 < n <= |events|
  {
    SameLive(After(c, x, events[..n]).seen, SpecAfter(c, m, x, events, n), events[n - 1].now)
  }

  /**
   * Over a whole run the cache agrees with the plain map at every point if and only if no completion comes too late.
   */
  lemma AgreesIffOnTime(c: Config, x: Cache, m: map<string, Entry>, events: seq<Event>)
    requires Sane(c) && Timely(events) && (forall k :: SameLive(x.seen, m, k))
    ensures (forall n :: 0 < n <= |events| ==> AgreeAfter(c, x, m, events, n))
            <==> (forall j :: 0 <= j < |events| ==> OnTime(c, x, events, j))
  {
    hide SameLive, After, SpecAfter, OnTime;
    if forall j :: 0 <= j < |events| ==> OnTime(c, x, events, j) {
      forall n | 0 < n <= |events| ensures AgreeAfter(c, x, m, events, n) {
        RunsRefine(c, x, m, events, n, events[n - 1].now);
      }
    }
    if forall n :: 0 < n <= |events| ==> AgreeAfter(c, x, m, events, n) {
      forall j | 0 <= j < |events| ensures OnTime(c, x, events, j) {
        if j > 0 { assert AgreeAfter(c, x, m, events, j); }
        assert AgreeAfter(c, x, m, events, j + 1);
        AgreementNeedsOnTime(c, x, m, events, j);
      }
    }
  }

  lemma AgreementNeedsOnTime(c: Config, x: Cache, m: map<string, Entry>, events: seq<Event>, j: nat)
    requires Sane(c) && Timely(events) && (forall k :: SameLive(x.seen, m, k)) && j < |events|
    requires (j > 0 ==> AgreeAfter(c, x, m, events, j)) && AgreeAfter(c, x, m, events, j + 1)
    ensures OnTime(c, x, events, j)
  {
    hide SameLive, TooLate, Complete, SpecComplete, AnswerAt;
    var e, before, spec := events[j], After(c, x, events[..j]), SpecAfter(c, m, x, events, j);
    if e.CompleteEvent? {
      if j == 0 {
        assert before == x && spec == m;
      } else {
        LaterLive(before.seen, spec, events[j - 1].now, e.now);
      }
      AfterOneMore(c, x, events, j);
      CompleteRefines(c, before, spec, e.id, e.fingerprint, e.response, e.now);
    }
  }

  /** A begin, a completion exactly when its entry has expired, and the same begin again. */
  function LateRun(c: Config, id: string, fingerprint: string, response: string): seq<Event> {
    [BeginEvent(id, fingerprint, 0), CompleteEvent(id, fingerprint, response, c.ttl),
     BeginEvent(id, fingerprint, c.ttl)]
  }

  /**
   * The condition is needed: for every configuration that run is answered from the cache, where the plain map would
   * call it new.
   */
  lemma LateCompletionIsObserved(c: Config, id: string, fingerprint: string, response: string)
    requires Sane(c) && response != ""
    ensures var events, x, m: map<string, Entry> := LateRun(c, id, fingerprint, response), Cache(map[], []), map[];
            && Timely(events) && !OnTime(c, x, events, 1)
            && AnswerAt(c, x, events, 2) == Cached(response)
            && SpecBegin(c, SpecAfter(c, m, x, events, 2), id, fingerprint, c.ttl).answer == New
  {
    var events, x, m: map<string, Entry> := LateRun(c, id, fingerprint, response), Cache(map[], []), map[];
    assert events[..0] == [];
    AfterOneMore(c, x, events, 0);
    AfterOneMore(c, x, events, 1);
    var x1, x2 := After(c, x, events[..1]), After(c, x, events[..2]);
    assert RemoveExpired(x, 0, MAX_CLEANUP) == x;
    assert x1 == Cache(map[id := Entry(fingerprint, "", c.ttl)], [id]);
    assert MoveToBack([id], id) == [id];
    assert x2 == Cache(map[id := Entry(fingerprint, response, c.ttl + c.ttl)], [id]);
    assert RemoveExpired(x2, c.ttl, MAX_CLEANUP) == x2;
    assert SpecAfter(c, m, x, events, 1) == map[id := Entry(fingerprint, "", c.ttl)];
  }

  // ---- the cache object

  class InteractionCache {
    const config: Config
    var seen: map<string, Entry>
    var order: seq<string>

    ghost function Contents(): Cache
      reads this
    {
      Cache(seen, order)
    }

    /** newInteractionReplayCache: defaults replace bounds that are not positive. */
    constructor (ttl: int, maxEntries: int)
      ensures Valid(config, Contents()) && Contents() == Cache(map[], [])
      ensures config == Config(if ttl <= 0 then DEFAULT_TTL else ttl,
                               if maxEntries > 0 then maxEntries else DEFAULT_MAX_ENTRIES)
    {
      config := Config(if ttl <= 0 then DEFAULT_TTL else ttl,
                       if maxEntries > 0 then maxEntries else DEFAULT_MAX_ENTRIES);
      seen, order := map[], [];
    }

    method Drop(id: string)
      modifies this
      ensures Contents() == Remove(old(Contents()), id)
    {
      seen, order := seen - {id}, Without(order, id);
    }

    method DropExpired(now: int, limit: nat)
      requires Valid(config, Contents())
      modifies this
      ensures Contents() == RemoveExpired(old(Contents()), now, limit) && Valid(config, Contents())
    {
      hide Remove, Valid;
      var removed := 0;
      while removed < limit
        invariant removed <= limit && Valid(config, Contents())
        invariant RemoveExpired(Contents(), now, limit - removed) == RemoveExpired(old(Contents()), now, limit)
      {
        FrontIsHeld(config, Contents());
        if order == [] { return; }
        var id := order[0];
        if seen[id].expiresAt > now { return; }
        RemoveKeepsValid(config, Contents(), id);
        Drop(id);
        removed := removed + 1;
      }
    }

    method BeginCall(id: string, fingerprint: string, now: int) returns (answer: Disposition)
      requires Valid(config, Contents())
      modifies this
      ensures Valid(config, Contents())
      ensures Begun(Contents(), answer) == Begin(config, old(Contents()), id, fingerprint, now)
    {
      hide Valid, RemoveExpired, Without;
      BeginKeepsValid(config, Contents(), id, fingerprint, now);
      DropExpired(now, MAX_CLEANUP);
      if id in seen {
        var entry := seen[id];
        if entry.expiresAt <= now {
          Drop(id);
        } else {
          order := MoveToBack(order, id);
          if entry.fingerprint != fingerprint { return Conflict; }
          if entry.response == "" { return InFlight; }
          return Cached(entry.response);
        }
      }
      if |seen| >= config.maxEntries { return Overflow; }
      seen, order := seen[id := Entry(fingerprint, "", now + config.ttl)], order + [id];
      return New;
    }

    method CompleteCall(id: string, fingerprint: string, response: string, now: int)
      requires Valid(config, Contents())
      modifies this
      ensures Valid(config, Contents())
      ensures Contents() == Complete(config, old(Contents()), id, fingerprint, response, now)
    {
      hide Valid;
      UpdatesKeepValid(config, Contents(), id, fingerprint, response, now);
      if id !in seen || seen[id].fingerprint != fingerprint { return; }
      seen := seen[id := Entry(fingerprint, response, now + config.ttl)];
      order := MoveToBack(order, id);
    }

    method ReleaseCall(id: string, fingerprint: string)
      requires Valid(config, Contents())
      modifies this
      ensures Valid(config, Contents()) && Contents() == Release(old(Contents()), id, fingerprint)
    {
      hide Valid;
      UpdatesKeepValid(config, Contents(), id, fingerprint, "", 0);
      if id in seen && seen[id].fingerprint == fingerprint { Drop(id); }
    }
  }
}
