/** Bot scoring from request headers and a per-IP request counter. */
module Bot {
  import opened Wrappers
  import opened Text
  import opened KvStore
  import opened Config

  /** User-agent fragments that mark automated clients. */
  const Patterns: seq<string> := [
    "bot", "spider", "crawler", "headless", "phantom",
    "selenium", "puppeteer", "scrapy", "wget", "curl"]

  /** Some pattern occurs in the lower-cased user agent. */
  predicate IsBotUserAgent(ua: string) {
    exists i :: 0 <= i < |Patterns| && Contains(ToLower(ua), Patterns[i])
  }

  /** The user-agent penalty: 50 on the first matching pattern from index `i` on, then stop. */
  function UaPenalty(uaLower: string, i: nat): (r: int)
    requires i <= |Patterns|
    ensures r == 0 || r == 50
    ensures r == 50 <==> exists j :: i <= j < |Patterns| && Contains(uaLower, Patterns[j])
    decreases |Patterns| - i
  {
    if i == |Patterns| then 0
    else if Contains(uaLower, Patterns[i]) then 50
    else UaPenalty(uaLower, i + 1)
  }

  function Min(a: int, b: int): int {
    if a <= b then a else b
  }

  /** Many requests from the IP in the last few seconds, none of them with a referer. */
  predicate SuspiciousFrequency(referer: string, recentHits: int) {
    referer == "" && recentHits > 10
  }

  /** The bot score of one request, from 0 (human-looking) to 100. */
  function Score(ua: string, acceptLang: string, secFetch: string, referer: string, recentHits: int): (r: int)
    ensures 0 <= r <= 100
    ensures r == 0 <==>
      !IsBotUserAgent(ua) && acceptLang != "" && secFetch != "" && !SuspiciousFrequency(referer, recentHits)
    ensures r == 100 <==>
      IsBotUserAgent(ua) && SuspiciousFrequency(referer, recentHits) && (acceptLang == "" || secFetch == "")
  {
    var score := UaPenalty(ToLower(ua), 0)
      + (if acceptLang == "" then 20 else 0)
      + (if secFetch == "" then 20 else 0)
      + (if referer == "" && recentHits > 10 then 30 else 0);
    if score > 100 then 100 else score
  }

  /** A missing Accept-Language header adds 20, whatever else the request carries. */
  lemma MissingLanguagePenalty(ua: string, lang: string, secFetch: string, referer: string, hits: int)
    requires lang != ""
    ensures Score(ua, "", secFetch, referer, hits) == Min(100, Score(ua, lang, secFetch, referer, hits) + 20)
  {
  }

  /** A missing Sec-Fetch-Mode header adds 20, whatever else the request carries. */
  lemma MissingSecFetchPenalty(ua: string, lang: string, secFetch: string, referer: string, hits: int)
    requires secFetch != ""
    ensures Score(ua, lang, "", referer, hits) == Min(100, Score(ua, lang, secFetch, referer, hits) + 20)
  {
  }

  /** The frequency penalty is 30, applied only with an empty referer and more than 10 hits. */
  lemma FrequencyPenalty(ua: string, lang: string, secFetch: string, referer: string, hits: int)
    ensures SuspiciousFrequency(referer, hits) ==>
      Score(ua, lang, secFetch, referer, hits) == Min(100, Score(ua, lang, secFetch, referer, 0) + 30)
    ensures !SuspiciousFrequency(referer, hits) ==>
      Score(ua, lang, secFetch, referer, hits) == Score(ua, lang, secFetch, referer, 0)
  {
  }

  /** A matching user agent adds 50 once, however many patterns it matches. */
  lemma BotUserAgentPenalty(ua: string, lang: string, secFetch: string, referer: string, hits: int)
    requires IsBotUserAgent(ua)
    ensures Score(ua, lang, secFetch, referer, hits) == Min(100, Score("", lang, secFetch, referer, hits) + 50)
  {
    assert !Contains(ToLower(""), Patterns[0]);
    assert forall j :: 0 <= j < |Patterns| ==> !Contains(ToLower(""), Patterns[j]);
  }

  lemma LowerIdempotent(s: string)
    ensures ToLower(ToLower(s)) == ToLower(s)
  {
    assert forall i :: 0 <= i < |s| ==> Lower(Lower(s[i])) == Lower(s[i]);
  }

  /** User-agent matching ignores letter case. */
  lemma ScoreIgnoresCase(ua: string, lang: string, secFetch: string, referer: string, hits: int)
    ensures Score(ToLower(ua), lang, secFetch, referer, hits) == Score(ua, lang, secFetch, referer, hits)
  {
    LowerIdempotent(ua);
  }

  datatype Verdict = Verdict(blocked: bool, suspected: bool)

  /** Classifies a score against the configured thresholds. */
  function IsBot(score: int, cfg: BotConfig): (v: Verdict)
    ensures v.blocked <==> score >= cfg.blockThreshold
    ensures v.blocked ==> v.suspected
    ensures v.suspected <==> score >= cfg.blockThreshold || score >= cfg.markThreshold
  {
    if score >= cfg.blockThreshold then Verdict(true, true)
    else if score >= cfg.markThreshold then Verdict(false, true)
    else Verdict(false, false)
  }

  /** Raising the score never clears either flag. */
  lemma IsBotMonotone(s1: int, s2: int, cfg: BotConfig)
    requires s1 <= s2
    ensures IsBot(s1, cfg).blocked ==> IsBot(s2, cfg).blocked
    ensures IsBot(s1, cfg).suspected ==> IsBot(s2, cfg).suspected
  {
  }

  const FreqTtl: int := 10

  function FreqKey(ip: string): string {
    "bot:freq:" + ip
  }

  datatype Hits = Hits(store: Store, hits: int)

  /**
   * Counts the IP's requests in a 10-second window that opens at its first
   * request. A store failure counts as 0 and changes nothing.
   */
  function CountRecentHits(st: Store, ip: string, now: int, up: bool): (r: Hits)
    ensures !up ==> r.hits == 0 && r.store == st
    ensures up ==> r.hits == Count(st, FreqKey(ip), now) + 1 && Count(r.store, FreqKey(ip), now) == r.hits
    ensures forall k :: k != FreqKey(ip) ==> Same(st, r.store, k)
  {
    match Bump(st, FreqKey(ip), now, FreqTtl, up)
    case StoreError => Hits(st, 0)
    case Done(s, v) => Hits(s, v)
  }

  /** The counts reported by successive requests from one IP at the given instants. */
  function HitSeries(st: Store, ip: string, times: seq<int>): (Store, seq<int>)
    decreases |times|
  {
    if |times| == 0 then (st, [])
    else
      var h := CountRecentHits(st, ip, times[0], true);
      var rest := HitSeries(h.store, ip, times[1..]);
      (rest.0, [h.hits] + rest.1)
  }

  lemma {:induction false} HitSeriesIsBumpSeries(st: Store, ip: string, times: seq<int>)
    ensures HitSeries(st, ip, times) == BumpSeries(st, FreqKey(ip), times, FreqTtl)
    decreases |times|
  {
    if |times| > 0 {
      HitSeriesIsBumpSeries(CountRecentHits(st, ip, times[0], true).store, ip, times[1..]);
    }
  }

  /** Requests within 10 seconds of the first one see the counts 1, 2, 3, ... */
  lemma RecentHitsCountUp(st: Store, ip: string, times: seq<int>)
    requires |times| > 0 && !Live(st, FreqKey(ip), times[0])
    requires forall i :: 0 <= i < |times| ==> times[i] < times[0] + FreqTtl
    ensures HitSeries(st, ip, times).1 == seq(|times|, i => i + 1)
  {
    HitSeriesIsBumpSeries(st, ip, times);
    BumpSeriesCounts(st, FreqKey(ip), times, FreqTtl);
  }

  /** Counting one IP leaves every other IP's counter as it was. */
  lemma RecentHitsIndependent(st: Store, ip: string, other: string, now: int, up: bool)
    requires ip != other
    ensures Same(st, CountRecentHits(st, ip, now, up).store, FreqKey(other))
  {
    if FreqKey(ip) == FreqKey(other) {
      PrefixCancel("bot:freq:", ip, other);
    }
  }
}
