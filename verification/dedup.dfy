/** Click de-duplication: one click per tracker, channel and visitor within a TTL. */
module Dedup {
  import opened Wrappers
  import opened Text
  import opened KvStore
  import opened Config

  function DedupKey(trackerId: string, channelId: string, visitorId: string): string {
    "dedup:click:" + trackerId + ":" + channelId + ":" + visitorId
  }

  datatype DedupResult = DedupResult(store: Store, duplicate: bool)

  /**
   * Remembers the triple for the configured number of seconds; a click is a
   * duplicate when the triple is already remembered. A store failure (or a
   * negative TTL, which the store refuses) reports "not a duplicate".
   */
  function CheckClickDedup(cfg: SecurityConfig, st: Store, now: int,
                           trackerId: string, channelId: string, visitorId: string, up: bool): (r: DedupResult)
    ensures var key := DedupKey(trackerId, channelId, visitorId);
      && (r.duplicate <==> up && cfg.dedupSeconds >= 0 && Live(st, key, now))
      && (r.duplicate || !up || cfg.dedupSeconds < 0 ==> r.store == st)
      && (up && cfg.dedupSeconds >= 0 ==> Live(r.store, key, now))
      && (forall k :: k != key ==> Same(st, r.store, k))
  {
    match SetNx(st, DedupKey(trackerId, channelId, visitorId), now, cfg.dedupSeconds, up)
    case StoreError => DedupResult(st, false)
    case Done(s, wasSet) => DedupResult(s, !wasSet)
  }

  /** The first click of a triple is not a duplicate. */
  lemma FirstClickNotDuplicate(cfg: SecurityConfig, st: Store, now: int, t: string, c: string, v: string, up: bool)
    requires !Live(st, DedupKey(t, c, v), now)
    ensures !CheckClickDedup(cfg, st, now, t, c, v, up).duplicate
  {
  }

  /** A repeat of the triple before the TTL runs out is a duplicate. */
  lemma RepeatWithinTtlIsDuplicate(cfg: SecurityConfig, st: Store, now1: int, now2: int, t: string, c: string, v: string)
    requires cfg.dedupSeconds == 0 || (cfg.dedupSeconds > 0 && now2 < now1 + cfg.dedupSeconds)
    requires !Live(st, DedupKey(t, c, v), now1)
    ensures var r1 := CheckClickDedup(cfg, st, now1, t, c, v, true);
      CheckClickDedup(cfg, r1.store, now2, t, c, v, true).duplicate
  {
    var r1 := CheckClickDedup(cfg, st, now1, t, c, v, true);
    assert r1.store[DedupKey(t, c, v)].expiresAt
      == (if cfg.dedupSeconds > 0 then Some(now1 + cfg.dedupSeconds) else None);
  }

  /** Once the TTL set by a first click has passed, the triple is new again. */
  lemma AfterTtlNotDuplicate(cfg: SecurityConfig, st: Store, now1: int, now2: int, t: string, c: string, v: string, up2: bool)
    requires cfg.dedupSeconds > 0 && now2 >= now1 + cfg.dedupSeconds
    requires !Live(st, DedupKey(t, c, v), now1)
    ensures var r1 := CheckClickDedup(cfg, st, now1, t, c, v, true);
      !CheckClickDedup(cfg, r1.store, now2, t, c, v, up2).duplicate
  {
    var r1 := CheckClickDedup(cfg, st, now1, t, c, v, true);
    assert r1.store[DedupKey(t, c, v)].expiresAt == Some(now1 + cfg.dedupSeconds);
  }

  /** With the store unreachable, no click is a duplicate and nothing is remembered. */
  lemma StoreErrorNotDuplicate(cfg: SecurityConfig, st: Store, now: int, t: string, c: string, v: string)
    ensures CheckClickDedup(cfg, st, now, t, c, v, false) == DedupResult(st, false)
  {
  }

  /** Keys of triples whose tracker and channel ids contain no colon determine the triple. */
  lemma DedupKeyInjective(t1: string, c1: string, v1: string, t2: string, c2: string, v2: string)
    requires ':' !in t1 && ':' !in c1 && ':' !in t2 && ':' !in c2
    requires DedupKey(t1, c1, v1) == DedupKey(t2, c2, v2)
    ensures t1 == t2 && c1 == c2 && v1 == v2
  {
    var p := "dedup:click:";
    assert DedupKey(t1, c1, v1) == p + (t1 + [':'] + (c1 + [':'] + v1));
    assert DedupKey(t2, c2, v2) == p + (t2 + [':'] + (c2 + [':'] + v2));
    PrefixCancel(p, t1 + [':'] + (c1 + [':'] + v1), t2 + [':'] + (c2 + [':'] + v2));
    SplitAtFirstSeparator(t1, c1 + [':'] + v1, t2, c2 + [':'] + v2, ':');
    SplitAtFirstSeparator(c1, v1, c2, v2, ':');
  }

  /** Without that condition, two different triples can share a key. */
  lemma ColonsMakeKeysCollide()
    ensures DedupKey("a:b", "c", "v") == DedupKey("a", "b:c", "v")
  {
  }

  /** Checking one triple leaves every other (colon-free) triple as it was. */
  lemma TriplesIndependent(cfg: SecurityConfig, st: Store, now: int, t1: string, c1: string, v1: string,
                           t2: string, c2: string, v2: string, up: bool)
    requires ':' !in t1 && ':' !in c1 && ':' !in t2 && ':' !in c2
    requires (t1, c1, v1) != (t2, c2, v2)
    ensures Same(st, CheckClickDedup(cfg, st, now, t1, c1, v1, up).store, DedupKey(t2, c2, v2))
  {
    if DedupKey(t1, c1, v1) == DedupKey(t2, c2, v2) {
      DedupKeyInjective(t1, c1, v1, t2, c2, v2);
    }
  }
}
