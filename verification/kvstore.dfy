/**
 * The Redis key–value store as the middleware uses it: integer counters and
 * set-if-absent flags, each with an optional expiry instant on an explicit
 * clock (unix seconds). `INCR`, `EXPIRE` and `SET NX` are taken as atomic.
 */
module KvStore {
  import opened Wrappers

  datatype Entry = Entry(count: int, expiresAt: Option<int>)

  type Store = map<string, Entry>

  /** The key exists and has not yet reached its expiry instant. */
  predicate Live(st: Store, key: string, now: int) {
    key in st && (st[key].expiresAt.None? || now < st[key].expiresAt.value)
  }

  /** The counter value `GET`/`INCR` would start from: 0 for a missing or expired key. */
  function Count(st: Store, key: string, now: int): int {
    if Live(st, key, now) then st[key].count else 0
  }

  /** The entry of `key` is the same in both stores. */
  predicate Same(st: Store, st': Store, key: string) {
    (key in st <==> key in st') && (key in st ==> st[key] == st'[key])
  }

  lemma SameTrans(a: Store, b: Store, c: Store, key: string)
    requires Same(a, b, key) && Same(b, c, key)
    ensures Same(a, c, key)
  {
  }

  /** A store call either completes with a new store and a reply, or fails. */
  datatype Outcome<T> = Done(store: Store, value: T) | StoreError

  /** `INCR key`: a missing or expired key restarts from 0 without expiry; a live key keeps its expiry. */
  function Incr(st: Store, key: string, now: int): (r: Store)
    ensures Live(r, key, now)
    ensures Count(r, key, now) == Count(st, key, now) + 1
    ensures Live(st, key, now) ==> r[key].expiresAt == st[key].expiresAt
    ensures !Live(st, key, now) ==> r[key].expiresAt.None?
    ensures forall k :: k != key ==> Same(st, r, k)
  {
    if Live(st, key, now) then st[key := st[key].(count := st[key].count + 1)]
    else st[key := Entry(1, None)]
  }

  /** `EXPIRE key seconds`: only a live key gets an expiry instant. */
  function Expire(st: Store, key: string, now: int, seconds: int): (r: Store)
    ensures Live(st, key, now) ==> key in r && r[key] == st[key].(expiresAt := Some(now + seconds))
    ensures !Live(st, key, now) ==> r == st
    ensures forall k :: k != key ==> Same(st, r, k)
  {
    if Live(st, key, now) then st[key := st[key].(expiresAt := Some(now + seconds))] else st
  }

  /**
   * The idiom `val := INCR key; if val == 1 { EXPIRE key ttl }`: a counter
   * whose window opens at its first increment. `up` is false when the store
   * cannot be reached, in which case nothing changes.
   */
  function Bump(st: Store, key: string, now: int, ttl: int, up: bool): (r: Outcome<int>)
    requires ttl > 0
    ensures r.StoreError? <==> !up
    ensures up ==> r.value == Count(st, key, now) + 1
    ensures up ==> Count(r.store, key, now) == r.value
    ensures up ==> key in r.store
    ensures up && r.value == 1 ==> r.store[key].expiresAt == Some(now + ttl)
    ensures up && Live(st, key, now) && r.value != 1 ==> r.store[key].expiresAt == st[key].expiresAt
    ensures up ==> forall k :: k != key ==> Same(st, r.store, k)
  {
    if !up then StoreError
    else
      var s1 := Incr(st, key, now);
      var v := s1[key].count;
      if v == 1 then Done(Expire(s1, key, now, ttl), v) else Done(s1, v)
  }

  /**
   * `SET key 1 NX` with a TTL in seconds, as the Redis client issues it: a
   * positive TTL sets an expiry, zero means none, and a negative TTL is
   * rejected by the server. The reply is true when the key was absent and is
   * now set.
   */
  function SetNx(st: Store, key: string, now: int, ttl: int, up: bool): (r: Outcome<bool>)
    ensures r.StoreError? <==> !up || ttl < 0
    ensures r.Done? ==> (r.value <==> !Live(st, key, now))
    ensures r.Done? && !r.value ==> r.store == st
    ensures r.Done? && r.value ==> key in r.store && Live(r.store, key, now)
    ensures r.Done? && r.value ==> r.store[key].expiresAt == (if ttl > 0 then Some(now + ttl) else None)
    ensures r.Done? ==> forall k :: k != key ==> Same(st, r.store, k)
  {
    if !up || ttl < 0 then StoreError
    else if Live(st, key, now) then Done(st, false)
    else Done(st[key := Entry(1, if ttl > 0 then Some(now + ttl) else None)], true)
  }

  /** Replies of successive `Bump`s of one key at the given instants. */
  function BumpSeries(st: Store, key: string, times: seq<int>, ttl: int): (Store, seq<int>)
    requires ttl > 0
    decreases |times|
  {
    if |times| == 0 then (st, [])
    else
      var o := Bump(st, key, times[0], ttl, true);
      var rest := BumpSeries(o.store, key, times[1..], ttl);
      (rest.0, [o.value] + rest.1)
  }

  lemma {:induction false} BumpSeriesContinues(st: Store, key: string, times: seq<int>, ttl: int, c: int, e: int)
    requires ttl > 0 && c >= 1
    requires key in st && st[key] == Entry(c, Some(e))
    requires forall i :: 0 <= i < |times| ==> times[i] < e
    ensures BumpSeries(st, key, times, ttl).1 == seq(|times|, i => c + 1 + i)
    ensures key in BumpSeries(st, key, times, ttl).0
    ensures BumpSeries(st, key, times, ttl).0[key] == Entry(c + |times|, Some(e))
    decreases |times|
  {
    if |times| > 0 {
      var o := Bump(st, key, times[0], ttl, true);
      assert Live(st, key, times[0]);
      assert o.store[key] == Entry(c + 1, Some(e));
      BumpSeriesContinues(o.store, key, times[1..], ttl, c + 1, e);
    }
  }

  /**
   * Calls that all fall before the expiry set by the first one see the
   * counter go 1, 2, 3, ...; the window opens at the first call.
   */
  lemma BumpSeriesCounts(st: Store, key: string, times: seq<int>, ttl: int)
    requires ttl > 0 && |times| > 0
    requires !Live(st, key, times[0])
    requires forall i :: 0 <= i < |times| ==> times[i] < times[0] + ttl
    ensures BumpSeries(st, key, times, ttl).1 == seq(|times|, i => i + 1)
    ensures Count(BumpSeries(st, key, times, ttl).0, key, times[|times| - 1]) == |times|
  {
    var o := Bump(st, key, times[0], ttl, true);
    assert o.store[key] == Entry(1, Some(times[0] + ttl));
    BumpSeriesContinues(o.store, key, times[1..], ttl, 1, times[0] + ttl);
  }
}
