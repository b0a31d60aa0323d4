/**
 * Replay protection for encrypted tracking requests: the client timestamp
 * must be within a window of the server clock, and each nonce is accepted
 * once while it is remembered.
 */
module AntiReplay {
  import opened Wrappers
  import opened GoInt
  import opened KvStore
  import opened Config

  datatype ReplayError = ExpiredTimestamp | ReplayDetected

  /** The error text callers compare against. */
  function ErrorText(e: ReplayError): (s: string)
    ensures s == "replay_detected" <==> e == ReplayDetected
  {
    match e
    case ExpiredTimestamp => "expired_timestamp"
    case ReplayDetected => "replay_detected"
  }

  function NonceKey(nonce: string): string {
    "nonce:" + nonce
  }

  /** The store after the check, and the refusal, if any. */
  datatype Admission = Admission(store: Store, error: Option<ReplayError>)

  function Abs(x: int): (r: int)
    ensures r >= 0 && (r == x || r == -x)
  {
    if x < 0 then -x else x
  }

  /**
   * The nonce part: remember the nonce for the configured TTL unless it is
   * already remembered. A store failure lets the request through.
   */
  function RecordNonce(cfg: SecurityConfig, st: Store, now: int, nonce: string, up: bool): (r: Admission)
    ensures r.error.None? || r.error == Some(ReplayDetected)
    ensures r.error == Some(ReplayDetected) <==> up && cfg.nonceTtlSeconds >= 0 && Live(st, NonceKey(nonce), now)
    ensures r.error.Some? ==> r.store == st
    ensures up && cfg.nonceTtlSeconds >= 0 ==> Live(r.store, NonceKey(nonce), now)
    ensures !up || cfg.nonceTtlSeconds < 0 ==> r.store == st
    ensures forall k :: k != NonceKey(nonce) ==> Same(st, r.store, k)
  {
    match SetNx(st, NonceKey(nonce), now, cfg.nonceTtlSeconds, up)
    case StoreError => Admission(st, None)
    case Done(s, wasSet) => if wasSet then Admission(s, None) else Admission(st, Some(ReplayDetected))
  }

  /** The timestamp check as the server runs it, on wrapping 64-bit integers. */
  function SkewAsWritten(now: int, ts: int): (r: int)
    requires IsInt64(now) && IsInt64(ts)
    ensures IsInt64(r)
    ensures IsInt64(now - ts) && now - ts != Int64Min ==> r == Abs(now - ts)
  {
    var diff := Wrap64(now - ts);
    if diff < 0 then Wrap64(-diff) else diff
  }

  /** The check as written: the skew is computed with 64-bit wrap-around. */
  function CheckAntiReplayAsWritten(cfg: SecurityConfig, st: Store, now: int, ts: int, nonce: string, up: bool): (r: Admission)
    requires IsInt64(now) && IsInt64(ts)
    ensures SkewAsWritten(now, ts) > cfg.tsWindowSeconds ==> r == Admission(st, Some(ExpiredTimestamp))
    ensures SkewAsWritten(now, ts) <= cfg.tsWindowSeconds ==> r.error != Some(ExpiredTimestamp)
  {
    if SkewAsWritten(now, ts) > cfg.tsWindowSeconds then Admission(st, Some(ExpiredTimestamp))
    else RecordNonce(cfg, st, now, nonce, up)
  }

  /** The check as intended: the exact distance between the two clocks. */
  function CheckAntiReplay(cfg: SecurityConfig, st: Store, now: int, ts: int, nonce: string, up: bool): (r: Admission)
    ensures r.error == Some(ExpiredTimestamp) <==> Abs(now - ts) > cfg.tsWindowSeconds
    ensures r.error == Some(ExpiredTimestamp) ==> r.store == st
    ensures Abs(now - ts) <= cfg.tsWindowSeconds ==>
      (r.error == Some(ReplayDetected) <==> up && cfg.nonceTtlSeconds >= 0 && Live(st, NonceKey(nonce), now))
    ensures forall k :: k != NonceKey(nonce) ==> Same(st, r.store, k)
  {
    if Abs(now - ts) > cfg.tsWindowSeconds then Admission(st, Some(ExpiredTimestamp))
    else RecordNonce(cfg, st, now, nonce, up)
  }

  /** Wherever the 64-bit arithmetic does not overflow, the two checks agree. */
  lemma AsWrittenAgreesWithoutOverflow(cfg: SecurityConfig, st: Store, now: int, ts: int, nonce: string, up: bool)
    requires IsInt64(now) && IsInt64(ts) && IsInt64(now - ts) && now - ts != Int64Min
    ensures CheckAntiReplayAsWritten(cfg, st, now, ts, nonce, up) == CheckAntiReplay(cfg, st, now, ts, nonce, up)
  {
  }

  /**
   * A timestamp exactly 2^63 seconds in the past: the difference wraps to
   * the most negative int64, its negation wraps to itself, and the stale
   * timestamp passes the window check.
   */
  lemma StaleTimestampPassesAsWritten()
    ensures var cfg := SecurityConfig("", 30, 60, 3600, "", "", "");
      var now := 1700000000;
      var ts := now - 0x8000_0000_0000_0000;
      && IsInt64(ts)
      && CheckAntiReplayAsWritten(cfg, map[], now, ts, "n", true).error.None?
      && CheckAntiReplay(cfg, map[], now, ts, "n", true).error == Some(ExpiredTimestamp)
  {
    var now := 1700000000;
    var ts := now - 0x8000_0000_0000_0000;
    assert Wrap64(now - ts) == Int64Min;
    assert Wrap64(-Int64Min) == Int64Min;
    assert SkewAsWritten(now, ts) == Int64Min;
  }

  /** A timestamp in the past and one equally far in the future get the same treatment. */
  lemma SkewSymmetric(cfg: SecurityConfig, st: Store, now: int, d: int, nonce: string, up: bool)
    ensures CheckAntiReplay(cfg, st, now, now - d, nonce, up) == CheckAntiReplay(cfg, st, now, now + d, nonce, up)
  {
  }

  /** A skew equal to the window is still accepted, given a fresh nonce. */
  lemma WindowEdgeAccepted(cfg: SecurityConfig, st: Store, now: int, ts: int, nonce: string, up: bool)
    requires Abs(now - ts) == cfg.tsWindowSeconds
    requires !Live(st, NonceKey(nonce), now)
    ensures CheckAntiReplay(cfg, st, now, ts, nonce, up).error.None?
  {
  }

  /** The first use of a nonce is accepted, and from then on the nonce is remembered. */
  lemma FirstUseAccepted(cfg: SecurityConfig, st: Store, now: int, ts: int, nonce: string)
    requires Abs(now - ts) <= cfg.tsWindowSeconds && cfg.nonceTtlSeconds >= 0
    requires !Live(st, NonceKey(nonce), now)
    ensures var r := CheckAntiReplay(cfg, st, now, ts, nonce, true);
      r.error.None? && Live(r.store, NonceKey(nonce), now)
  {
  }

  /** Using an accepted nonce again before its TTL runs out is detected as a replay. */
  lemma ReuseDetected(cfg: SecurityConfig, st: Store, now1: int, ts1: int, now2: int, ts2: int, nonce: string)
    requires Abs(now1 - ts1) <= cfg.tsWindowSeconds && Abs(now2 - ts2) <= cfg.tsWindowSeconds
    requires cfg.nonceTtlSeconds == 0 || (cfg.nonceTtlSeconds > 0 && now2 < now1 + cfg.nonceTtlSeconds)
    requires !Live(st, NonceKey(nonce), now1)
    ensures var r1 := CheckAntiReplay(cfg, st, now1, ts1, nonce, true);
      && r1.error.None?
      && CheckAntiReplay(cfg, r1.store, now2, ts2, nonce, true).error == Some(ReplayDetected)
  {
    var r1 := CheckAntiReplay(cfg, st, now1, ts1, nonce, true);
    assert r1.store[NonceKey(nonce)].expiresAt
      == (if cfg.nonceTtlSeconds > 0 then Some(now1 + cfg.nonceTtlSeconds) else None);
  }

  /** With the store unreachable, a timely request is accepted and nothing is remembered. */
  lemma StoreErrorFailsOpen(cfg: SecurityConfig, st: Store, now: int, ts: int, nonce: string)
    requires Abs(now - ts) <= cfg.tsWindowSeconds
    ensures CheckAntiReplay(cfg, st, now, ts, nonce, false) == Admission(st, None)
  {
  }
}
