/**
 * Per-minute request limits: one counter per client IP, per IP and user
 * agent, and per tracker and IP, each keyed by the minute window.
 */
module RateLimit {
  import opened Wrappers
  import opened Text
  import opened GoInt
  import opened KvStore
  import opened Config

  const WindowSeconds: int := 60

  /** The lower-case hex SHA-256 of a string: always 64 characters. */
  type HexDigest = s: string | |s| == 64
    witness "0000000000000000000000000000000000000000000000000000000000000000"

  /** The minute window of a unix time, with Go's truncating division. */
  function Window(now: int): int {
    Quot(now, WindowSeconds)
  }

  function IpKey(ip: string, window: int): string {
    "rl:ip:" + ip + ":" + IntToString(window)
  }

  function IpUaKey(ip: string, uaHash: string, window: int): string {
    "rl:ipua:" + ip + ":" + uaHash + ":" + IntToString(window)
  }

  function TrackerIpKey(trackerId: string, ip: string, window: int): string {
    "rl:tracker_ip:" + trackerId + ":" + ip + ":" + IntToString(window)
  }

  const TrackerIpPrefix: string := "rl:tracker_ip:"

  /** The three kinds of key never collide, whatever IPs, hashes and windows they are built from. */
  lemma KeyKindsDiffer(ip1: string, ip2: string, ip3: string, h: string, t: string, w1: int, w2: int, w3: int)
    ensures IpKey(ip1, w1) != IpUaKey(ip2, h, w2)
    ensures !IsPrefix(TrackerIpPrefix, IpKey(ip1, w1))
    ensures !IsPrefix(TrackerIpPrefix, IpUaKey(ip2, h, w2))
    ensures IsPrefix(TrackerIpPrefix, TrackerIpKey(t, ip3, w3))
  {
    var k1 := IpKey(ip1, w1);
    var k2 := IpUaKey(ip2, h, w2);
    assert k1[..6] == "rl:ip:" && k2[..6] == "rl:ipu";
    assert k1[5] != k2[5];
    assert k1[3] == 'i' && k2[3] == 'i';
    assert TrackerIpKey(t, ip3, w3)[..|TrackerIpPrefix|] == TrackerIpPrefix;
  }

  /** Per-IP keys of different IPs or different windows are different keys. */
  lemma IpKeyInjective(ip1: string, w1: int, ip2: string, w2: int)
    requires IpKey(ip1, w1) == IpKey(ip2, w2)
    ensures ip1 == ip2 && w1 == w2
  {
    assert IpKey(ip1, w1) == ("rl:ip:" + ip1) + ":" + IntToString(w1);
    assert IpKey(ip2, w2) == ("rl:ip:" + ip2) + ":" + IntToString(w2);
    ColonIntInjective("rl:ip:" + ip1, w1, "rl:ip:" + ip2, w2);
    PrefixCancel("rl:ip:", ip1, ip2);
  }

  /** Times in different minute windows use different per-IP counters. */
  lemma WindowsIndependent(ip: string, now1: int, now2: int)
    requires Window(now1) != Window(now2)
    ensures IpKey(ip, Window(now1)) != IpKey(ip, Window(now2))
  {
    if IpKey(ip, Window(now1)) == IpKey(ip, Window(now2)) {
      IpKeyInjective(ip, Window(now1), ip, Window(now2));
    }
  }

  /** The three counters of one request are three different keys. */
  lemma KeysApart(ip: string, h: string, t: string, w: int)
    ensures IpKey(ip, w) != IpUaKey(ip, h, w)
    ensures IpKey(ip, w) != TrackerIpKey(t, ip, w)
    ensures IpUaKey(ip, h, w) != TrackerIpKey(t, ip, w)
  {
    KeyKindsDiffer(ip, ip, ip, h, t, w, w, w);
  }

  datatype Check = Check(store: Store, allowed: bool)

  /**
   * One counter check: the counter is incremented first, its 60-second
   * window opens on the first increment, and the call is refused when the
   * new value exceeds the limit. A store failure lets the call through.
   */
  function CheckLimit(st: Store, key: string, limit: int, now: int, up: bool): (r: Check)
    ensures !up ==> r.allowed && r.store == st
    ensures up ==> Count(r.store, key, now) == Count(st, key, now) + 1
    ensures up ==> (r.allowed <==> Count(r.store, key, now) <= limit)
    ensures forall k :: k != key ==> Same(st, r.store, k)
  {
    match Bump(st, key, now, WindowSeconds, up)
    case StoreError => Check(st, true)
    case Done(s, v) => Check(s, v <= limit)
  }

  /** A check of one counter leaves another counter's value alone. */
  lemma OtherCountKept(st: Store, key: string, limit: int, now: int, up: bool, other: string)
    requires other != key
    ensures Count(CheckLimit(st, key, limit, now, up).store, other, now) == Count(st, other, now)
    ensures Same(st, CheckLimit(st, key, limit, now, up).store, other)
  {
  }

  /** The IP's three limits, in order, stopping at the first refusal. */
  function CheckRateLimit(cfg: RateLimitConfig, st: Store, now: int, ip: string, ua: string,
                          trackerId: string, sha256Hex: string -> HexDigest, up: bool): (r: Check)
    ensures !up ==> r == Check(st, true)
    ensures forall k ::
      && k != IpKey(ip, Window(now))
      && k != IpUaKey(ip, sha256Hex(ua)[..16], Window(now))
      && k != TrackerIpKey(trackerId, ip, Window(now))
      ==> Same(st, r.store, k)
    ensures trackerId == "" ==> Same(st, r.store, TrackerIpKey(trackerId, ip, Window(now)))
  {
    var w := Window(now);
    var k1 := IpKey(ip, w);
    var k2 := IpUaKey(ip, sha256Hex(ua)[..16], w);
    var k3 := TrackerIpKey(trackerId, ip, w);
    KeysApart(ip, sha256Hex(ua)[..16], trackerId, w);
    var c1 := CheckLimit(st, k1, cfg.perIpPerMinute, now, up);
    if !c1.allowed then c1
    else
      var c2 := CheckLimit(c1.store, k2, cfg.perIpUaPerMinute, now, up);
      assert forall k :: k != k1 && k != k2 ==> Same(st, c2.store, k) by {
        forall k | k != k1 && k != k2 ensures Same(st, c2.store, k) {
          SameTrans(st, c1.store, c2.store, k);
        }
      }
      if !c2.allowed then c2
      else if trackerId != "" then
        var c3 := CheckLimit(c2.store, k3, cfg.perTrackerIpPerMinute, now, up);
        assert forall k :: k != k1 && k != k2 && k != k3 ==> Same(st, c3.store, k) by {
          forall k | k != k1 && k != k2 && k != k3 ensures Same(st, c3.store, k) {
            SameTrans(st, c2.store, c3.store, k);
          }
        }
        c3
      else c2
  }

  /** The per-IP counter is checked first, and a refusal there stops the other two. */
  lemma IpLimitFirst(cfg: RateLimitConfig, st: Store, now: int, ip: string, ua: string,
                     trackerId: string, sha256Hex: string -> HexDigest)
    ensures var r := CheckRateLimit(cfg, st, now, ip, ua, trackerId, sha256Hex, true);
      var w := Window(now);
      && Count(r.store, IpKey(ip, w), now) == Count(st, IpKey(ip, w), now) + 1
      && (Count(st, IpKey(ip, w), now) + 1 > cfg.perIpPerMinute ==>
            && !r.allowed
            && Same(st, r.store, IpUaKey(ip, sha256Hex(ua)[..16], w))
            && Same(st, r.store, TrackerIpKey(trackerId, ip, w)))
  {
    var w := Window(now);
    var k1 := IpKey(ip, w);
    var k2 := IpUaKey(ip, sha256Hex(ua)[..16], w);
    var k3 := TrackerIpKey(trackerId, ip, w);
    KeysApart(ip, sha256Hex(ua)[..16], trackerId, w);
    var r := CheckRateLimit(cfg, st, now, ip, ua, trackerId, sha256Hex, true);
    var c1 := CheckLimit(st, k1, cfg.perIpPerMinute, now, true);
    if c1.allowed {
      var c2 := CheckLimit(c1.store, k2, cfg.perIpUaPerMinute, now, true);
      OtherCountKept(c1.store, k2, cfg.perIpUaPerMinute, now, true, k1);
      if c2.allowed && trackerId != "" {
        OtherCountKept(c2.store, k3, cfg.perTrackerIpPerMinute, now, true, k1);
        assert r == CheckLimit(c2.store, k3, cfg.perTrackerIpPerMinute, now, true);
      } else {
        assert r == c2;
      }
    } else {
      assert r == c1;
      OtherCountKept(st, k1, cfg.perIpPerMinute, now, true, k2);
      OtherCountKept(st, k1, cfg.perIpPerMinute, now, true, k3);
    }
  }

  /** Once the per-IP check passes, the IP+UA counter is checked, and a refusal there stops the tracker check. */
  lemma IpUaLimitSecond(cfg: RateLimitConfig, st: Store, now: int, ip: string, ua: string,
                        trackerId: string, sha256Hex: string -> HexDigest)
    requires Count(st, IpKey(ip, Window(now)), now) + 1 <= cfg.perIpPerMinute
    ensures var r := CheckRateLimit(cfg, st, now, ip, ua, trackerId, sha256Hex, true);
      var w := Window(now);
      var k2 := IpUaKey(ip, sha256Hex(ua)[..16], w);
      && Count(r.store, k2, now) == Count(st, k2, now) + 1
      && (Count(st, k2, now) + 1 > cfg.perIpUaPerMinute ==>
            !r.allowed && Same(st, r.store, TrackerIpKey(trackerId, ip, w)))
      && (Count(st, k2, now) + 1 <= cfg.perIpUaPerMinute && trackerId == "" ==> r.allowed)
  {
    var w := Window(now);
    var k1 := IpKey(ip, w);
    var k2 := IpUaKey(ip, sha256Hex(ua)[..16], w);
    var k3 := TrackerIpKey(trackerId, ip, w);
    KeysApart(ip, sha256Hex(ua)[..16], trackerId, w);
    var r := CheckRateLimit(cfg, st, now, ip, ua, trackerId, sha256Hex, true);
    var c1 := CheckLimit(st, k1, cfg.perIpPerMinute, now, true);
    assert c1.allowed;
    OtherCountKept(st, k1, cfg.perIpPerMinute, now, true, k2);
    OtherCountKept(st, k1, cfg.perIpPerMinute, now, true, k3);
    var c2 := CheckLimit(c1.store, k2, cfg.perIpUaPerMinute, now, true);
    if c2.allowed && trackerId != "" {
      OtherCountKept(c2.store, k3, cfg.perTrackerIpPerMinute, now, true, k2);
      assert r == CheckLimit(c2.store, k3, cfg.perTrackerIpPerMinute, now, true);
    } else {
      assert r == c2;
      OtherCountKept(c1.store, k2, cfg.perIpUaPerMinute, now, true, k3);
    }
  }

  /** With a tracker given and both earlier checks passed, the tracker+IP counter decides. */
  lemma TrackerLimitLast(cfg: RateLimitConfig, st: Store, now: int, ip: string, ua: string,
                         trackerId: string, sha256Hex: string -> HexDigest)
    requires trackerId != ""
    requires Count(st, IpKey(ip, Window(now)), now) + 1 <= cfg.perIpPerMinute
    requires Count(st, IpUaKey(ip, sha256Hex(ua)[..16], Window(now)), now) + 1 <= cfg.perIpUaPerMinute
    ensures var r := CheckRateLimit(cfg, st, now, ip, ua, trackerId, sha256Hex, true);
      var k3 := TrackerIpKey(trackerId, ip, Window(now));
      && Count(r.store, k3, now) == Count(st, k3, now) + 1
      && (r.allowed <==> Count(st, k3, now) + 1 <= cfg.perTrackerIpPerMinute)
  {
    var w := Window(now);
    var k1 := IpKey(ip, w);
    var k2 := IpUaKey(ip, sha256Hex(ua)[..16], w);
    var k3 := TrackerIpKey(trackerId, ip, w);
    KeysApart(ip, sha256Hex(ua)[..16], trackerId, w);
    var c1 := CheckLimit(st, k1, cfg.perIpPerMinute, now, true);
    OtherCountKept(st, k1, cfg.perIpPerMinute, now, true, k2);
    OtherCountKept(st, k1, cfg.perIpPerMinute, now, true, k3);
    var c2 := CheckLimit(c1.store, k2, cfg.perIpUaPerMinute, now, true);
    OtherCountKept(c1.store, k2, cfg.perIpUaPerMinute, now, true, k3);
    assert c1.allowed && c2.allowed;
    assert CheckRateLimit(cfg, st, now, ip, ua, trackerId, sha256Hex, true)
      == CheckLimit(c2.store, k3, cfg.perTrackerIpPerMinute, now, true);
  }

  /** Without a tracker id, no tracker+IP counter of any tracker is touched. */
  lemma NoTrackerNoTrackerKeys(cfg: RateLimitConfig, st: Store, now: int, ip: string, ua: string,
                               sha256Hex: string -> HexDigest, up: bool, k: string)
    requires IsPrefix(TrackerIpPrefix, k)
    ensures Same(st, CheckRateLimit(cfg, st, now, ip, ua, "", sha256Hex, up).store, k)
  {
    KeysApart(ip, sha256Hex(ua)[..16], "", Window(now));
    KeyKindsDiffer(ip, ip, ip, sha256Hex(ua)[..16], "", Window(now), Window(now), Window(now));
  }

  /** Verdicts of successive checks of one counter at the given instants. */
  function CheckSeries(st: Store, key: string, limit: int, times: seq<int>): (Store, seq<bool>)
    decreases |times|
  {
    if |times| == 0 then (st, [])
    else
      var c := CheckLimit(st, key, limit, times[0], true);
      var rest := CheckSeries(c.store, key, limit, times[1..]);
      (rest.0, [c.allowed] + rest.1)
  }

  lemma {:induction false} CheckSeriesFollowsCounts(st: Store, key: string, limit: int, times: seq<int>)
    ensures CheckSeries(st, key, limit, times).0 == BumpSeries(st, key, times, WindowSeconds).0
    ensures |CheckSeries(st, key, limit, times).1| == |times|
    ensures |BumpSeries(st, key, times, WindowSeconds).1| == |times|
    ensures forall i :: 0 <= i < |times| ==>
      CheckSeries(st, key, limit, times).1[i] == (BumpSeries(st, key, times, WindowSeconds).1[i] <= limit)
    decreases |times|
  {
    if |times| > 0 {
      var c := CheckLimit(st, key, limit, times[0], true);
      CheckSeriesFollowsCounts(c.store, key, limit, times[1..]);
    }
  }

  /**
   * Within one window, the n-th call on a counter (counting from 1) is refused
   * exactly when n exceeds the limit, and every call, refused or not, counts.
   */
  lemma NthCallRefusedIffOverLimit(st: Store, key: string, limit: int, times: seq<int>)
    requires |times| > 0 && !Live(st, key, times[0])
    requires forall i :: 0 <= i < |times| ==> times[i] < times[0] + WindowSeconds
    ensures |CheckSeries(st, key, limit, times).1| == |times|
    ensures forall i :: 0 <= i < |times| ==> (CheckSeries(st, key, limit, times).1[i] <==> i + 1 <= limit)
    ensures Count(CheckSeries(st, key, limit, times).0, key, times[|times| - 1]) == |times|
  {
    CheckSeriesFollowsCounts(st, key, limit, times);
    BumpSeriesCounts(st, key, times, WindowSeconds);
  }
}
