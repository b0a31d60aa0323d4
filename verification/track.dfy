/**
 * The two tracking endpoints, `track.collectClick` and `track.collectEvents`:
 * the order in which they apply their checks, the error each failing check
 * produces, and what they record. Decoding, decryption, database lookups
 * and geolocation are functions of the `World`.
 */
module Track {
  import opened Wrappers
  import opened Text
  import opened Json
  import opened KvStore
  import opened Config
  import opened RpcErrors
  import opened Models
  import opened Dispatcher
  import Bot
  import RateLimit
  import AntiReplay
  import Dedup

  /** The encrypted request envelope; `ts` is the client's unix time. */
  datatype Envelope = Envelope(ek: string, nonce: string, ct: string, ts: int, nonce2: string, kid: string)

  /** Client address and headers of the HTTP request. */
  datatype ClientInfo = ClientInfo(ip: string, ua: string, lang: string, referer: string, secFetch: string)

  datatype ClickPayload = ClickPayload(token: string, visitorId: string, env: JsonObject)

  datatype EventItem = EventItem(kind: string, url: string, title: string, referrer: string, props: JsonObject)

  datatype EventsPayload = EventsPayload(siteKey: string, visitorId: string, sessionId: string, events: seq<EventItem>)

  /** Everything outside the modelled logic that a tracking request consults. */
  datatype World = World(
    decodeEnvelope: Bytes -> Decoded<Envelope>,
    decrypt: Envelope -> Option<Bytes>,
    decodeClick: Bytes -> Option<ClickPayload>,
    decodeEvents: Bytes -> Option<EventsPayload>,
    tokenByShortCode: string -> Option<Token>,
    siteByKey: string -> Option<Site>,
    country: string -> string,
    sha256Hex: string -> RateLimit.HexDigest,
    writeOk: bool,
    newClickId: string)

  datatype Stage =
    | EnvelopeStage | RateLimitStage | AntiReplayStage | DecryptStage | PayloadStage
    | TokenStage | SiteStage | BotStage | DedupStage | WriteStage

  /**
   * A click runs envelope, rate limit, anti-replay, decrypt, payload, token,
   * bot, dedup, write; an events request has the site-key check where the
   * click has the token lookup, and no dedup. A request runs every stage of
   * its endpoint up to the one it stops at.
   */

  /** The four checks both endpoints share, before the payload is read. */
  predicate GateStage(s: Stage) {
    s.EnvelopeStage? || s.RateLimitStage? || s.AntiReplayStage? || s.DecryptStage?
  }

  /** The request got as far as the bot check. */
  predicate BotChecked(s: Stage) {
    s.BotStage? || s.DedupStage? || s.WriteStage?
  }

  /** The error codes a stage can end a request with. */
  predicate StageCode(s: Stage, code: int) {
    match s
    case EnvelopeStage => code == InvalidParams
    case RateLimitStage => code == RateLimited
    case AntiReplayStage => code == ReplayDetected || code == ExpiredToken
    case DecryptStage => code == DecryptFailed
    case PayloadStage => code == InvalidParams
    case TokenStage => code == InvalidToken
    case SiteStage => code == InvalidParams
    case BotStage => code == BotBlocked
    case DedupStage => false
    case WriteStage => code == DbError
  }

  /** A replayed nonce is reported as a replay; a stale timestamp as an expired token. */
  function ReplayCode(e: AntiReplay.ReplayError): (code: int)
    ensures code == ReplayDetected <==> e == AntiReplay.ReplayDetected
    ensures code == ReplayDetected || code == ExpiredToken
  {
    if AntiReplay.ErrorText(e) == "replay_detected" then ReplayDetected else ExpiredToken
  }

  /** No key the tracking path writes has the tracker+IP rate-limit prefix. */
  lemma TrackerKeysApart(k: string)
    requires IsPrefix(RateLimit.TrackerIpPrefix, k)
    ensures forall n :: k != AntiReplay.NonceKey(n)
    ensures forall ip :: k != Bot.FreqKey(ip)
    ensures forall t, c, v :: k != Dedup.DedupKey(t, c, v)
  {
    assert k[0] == 'r';
    forall n ensures k != AntiReplay.NonceKey(n) {
      assert AntiReplay.NonceKey(n)[0] == 'n';
    }
    forall ip ensures k != Bot.FreqKey(ip) {
      assert Bot.FreqKey(ip)[0] == 'b';
    }
    forall t, c, v ensures k != Dedup.DedupKey(t, c, v) {
      assert Dedup.DedupKey(t, c, v)[0] == 'd';
    }
  }

  /** The result of the stages both endpoints share. */
  datatype Gate = Refused(error: RpcError, store: Store, last: Stage) | Admitted(store: Store, plaintext: Bytes)

  /**
   * Envelope decoding, rate limiting (with no tracker id), anti-replay and
   * decryption, in that order; the first failure ends the request.
   */
  function Admit(w: World, cfg: AppConfig, st: Store, now: int, info: ClientInfo, params: Bytes, up: bool): (g: Gate)
    ensures g.Refused? ==> GateStage(g.last) && StageCode(g.last, g.error.code)
    ensures g.Admitted? ==> (w.decodeEnvelope(params).Decoded?
      && w.decrypt(w.decodeEnvelope(params).value) == Some(g.plaintext))
  {
    match w.decodeEnvelope(params)
    case DecodeError(m) => Refused(NewRpcError(InvalidParams, Text(m)), st, EnvelopeStage)
    case Decoded(e) =>
      var rl := RateLimit.CheckRateLimit(cfg.rateLimit, st, now, info.ip, info.ua, "", w.sha256Hex, up);
      if !rl.allowed then Refused(NewRpcError(RateLimited, NoData), rl.store, RateLimitStage)
      else
        var ar := AntiReplay.CheckAntiReplay(cfg.security, rl.store, now, e.ts, e.nonce2, up);
        if ar.error.Some? then Refused(NewRpcError(ReplayCode(ar.error.value), NoData), ar.store, AntiReplayStage)
        else match w.decrypt(e)
          case None => Refused(NewRpcError(DecryptFailed, NoData), ar.store, DecryptStage)
          case Some(pt) => Admitted(ar.store, pt)
  }

  /**
   * Where the shared stages stop and which store they leave: a refusal by
   * the rate limit or the anti-replay check ends the request at that stage
   * with that check's store, and otherwise the anti-replay store is kept.
   */
  lemma AdmitSteps(w: World, cfg: AppConfig, st: Store, now: int, info: ClientInfo, params: Bytes, up: bool)
    ensures w.decodeEnvelope(params).DecodeError? ==> Admit(w, cfg, st, now, info, params, up).store == st
    ensures w.decodeEnvelope(params).Decoded? ==>
      var g := Admit(w, cfg, st, now, info, params, up);
      var e := w.decodeEnvelope(params).value;
      var rl := RateLimit.CheckRateLimit(cfg.rateLimit, st, now, info.ip, info.ua, "", w.sha256Hex, up);
      var ar := AntiReplay.CheckAntiReplay(cfg.security, rl.store, now, e.ts, e.nonce2, up);
      && (!rl.allowed ==> g.Refused? && g.last == RateLimitStage && g.store == rl.store)
      && (rl.allowed && ar.error.Some? ==> g.Refused? && g.last == AntiReplayStage && g.store == ar.store)
      && (rl.allowed && ar.error.None? ==> g.store == ar.store)
  {
    match w.decodeEnvelope(params)
    case DecodeError(_) =>
    case Decoded(e) =>
      var rl := RateLimit.CheckRateLimit(cfg.rateLimit, st, now, info.ip, info.ua, "", w.sha256Hex, up);
      if rl.allowed {
        var ar := AntiReplay.CheckAntiReplay(cfg.security, rl.store, now, e.ts, e.nonce2, up);
        if ar.error.None? {
          match w.decrypt(e)
          case None =>
          case Some(pt) =>
        }
      }
  }

  /** The shared stages never touch a tracker+IP rate-limit counter. */
  lemma AdmitKeepsTrackerCounters(w: World, cfg: AppConfig, st: Store, now: int, info: ClientInfo, params: Bytes, up: bool, k: string)
    requires IsPrefix(RateLimit.TrackerIpPrefix, k)
    ensures Same(st, Admit(w, cfg, st, now, info, params, up).store, k)
  {
    match w.decodeEnvelope(params)
    case DecodeError(_) =>
    case Decoded(e) =>
      var rl := RateLimit.CheckRateLimit(cfg.rateLimit, st, now, info.ip, info.ua, "", w.sha256Hex, up);
      RateLimit.NoTrackerNoTrackerKeys(cfg.rateLimit, st, now, info.ip, info.ua, w.sha256Hex, up, k);
      AdmitSteps(w, cfg, st, now, info, params, up);
      if rl.allowed {
        var ar := AntiReplay.CheckAntiReplay(cfg.security, rl.store, now, e.ts, e.nonce2, up);
        assert k != AntiReplay.NonceKey(e.nonce2) by {
          assert k[0] == 'r' && AntiReplay.NonceKey(e.nonce2)[0] == 'n';
        }
        SameTrans(st, rl.store, ar.store, k);
      }
  }

  /** Every rate-limit counter key starts with "rl:", so none is a nonce key. */
  lemma NonceKeyNotRateKey(nonce: string, ip: string, ua: string, t: string, win: int)
    ensures AntiReplay.NonceKey(nonce) != RateLimit.IpKey(ip, win)
    ensures AntiReplay.NonceKey(nonce) != RateLimit.IpUaKey(ip, ua, win)
    ensures AntiReplay.NonceKey(nonce) != RateLimit.TrackerIpKey(t, ip, win)
  {
    assert AntiReplay.NonceKey(nonce)[0] == 'n';
    assert RateLimit.IpKey(ip, win)[0] == 'r';
    assert RateLimit.IpUaKey(ip, ua, win)[0] == 'r';
    assert RateLimit.TrackerIpKey(t, ip, win)[0] == 'r';
  }

  /**
   * Sending an admitted envelope again while its nonce is remembered never
   * gets past the shared stages: it is refused by the rate limit or by the
   * anti-replay check, before anything is decrypted.
   */
  lemma ReplayedEnvelopeRefused(w: World, cfg: AppConfig, st: Store, now: int, now2: int,
                                info: ClientInfo, params: Bytes)
    requires Admit(w, cfg, st, now, info, params, true).Admitted?
    requires cfg.security.nonceTtlSeconds == 0
      || (cfg.security.nonceTtlSeconds > 0 && now2 < now + cfg.security.nonceTtlSeconds)
    ensures var g := Admit(w, cfg, Admit(w, cfg, st, now, info, params, true).store, now2, info, params, true);
      g.Refused? && (g.last == RateLimitStage || g.last == AntiReplayStage)
  {
    var e := w.decodeEnvelope(params).value;
    var rl := RateLimit.CheckRateLimit(cfg.rateLimit, st, now, info.ip, info.ua, "", w.sha256Hex, true);
    var ar := AntiReplay.CheckAntiReplay(cfg.security, rl.store, now, e.ts, e.nonce2, true);
    var key := AntiReplay.NonceKey(e.nonce2);
    AdmitSteps(w, cfg, st, now, info, params, true);
    assert rl.allowed && ar.error.None?;
    assert ar == AntiReplay.RecordNonce(cfg.security, rl.store, now, e.nonce2, true);
    assert ar.store[key].expiresAt
      == (if cfg.security.nonceTtlSeconds > 0 then Some(now + cfg.security.nonceTtlSeconds) else None);
    assert Live(ar.store, key, now2);
    var st2 := Admit(w, cfg, st, now, info, params, true).store;
    assert st2 == ar.store;
    var rl2 := RateLimit.CheckRateLimit(cfg.rateLimit, st2, now2, info.ip, info.ua, "", w.sha256Hex, true);
    NonceKeyNotRateKey(e.nonce2, info.ip, w.sha256Hex(info.ua)[..16], "", RateLimit.Window(now2));
    assert Same(st2, rl2.store, key);
    assert Live(rl2.store, key, now2);
    AdmitSteps(w, cfg, st2, now2, info, params, true);
  }

  /** The click payload inside the request, when the envelope decodes and decrypts. */
  function DecryptedClick(w: World, params: Bytes): Option<ClickPayload> {
    match w.decodeEnvelope(params)
    case DecodeError(_) => None
    case Decoded(e) =>
      match w.decrypt(e)
      case None => None
      case Some(pt) => w.decodeClick(pt)
  }

  datatype ClickResult = DedupHit | Recorded(clickId: string, targetId: string)

  /**
   * The reply, the store afterwards, the click written (if any), the
   * per-IP hit count the bot check saw (if it ran), and the stage the
   * request stopped at.
   */
  datatype ClickOutcome = ClickOutcome(
    reply: Reply<ClickResult>, store: Store, stored: Option<Click>, hits: Option<int>, last: Stage)

  /** The bot verdict for a request with the given hit count. */
  function VerdictFor(cfg: AppConfig, info: ClientInfo, referer: string, hits: int): Bot.Verdict {
    Bot.IsBot(Bot.Score(info.ua, info.lang, info.secFetch, referer, hits), cfg.bot)
  }

  /** The bot check refuses the request. */
  predicate Rejects(cfg: AppConfig, v: Bot.Verdict) {
    v.blocked && cfg.bot.blockMode == "reject"
  }

  /** The click a request records for a resolved token and bot verdict. */
  function ClickRecord(w: World, now: int, info: ClientInfo, p: ClickPayload, tok: Token, v: Bot.Verdict): Click {
    Click(now, tok.trackerId, tok.campaignId, tok.channelId, tok.targetId,
          p.visitorId, info.ip, w.country(info.ip), info.ua, info.lang, info.referer, p.env,
          v.suspected, v.blocked)
  }

  /** The click stages once the token is known: bot check, dedup, write. */
  function ClickForToken(w: World, cfg: AppConfig, st: Store, now: int, info: ClientInfo,
                         p: ClickPayload, tok: Token, up: bool): (o: ClickOutcome)
    ensures BotChecked(o.last) && o.hits.Some?
    ensures o.hits.value == Bot.CountRecentHits(st, info.ip, now, up).hits
    ensures o.reply.Failure? ==> StageCode(o.last, o.reply.error.code)
    ensures o.last == BotStage <==> Rejects(cfg, VerdictFor(cfg, info, info.referer, o.hits.value))
    ensures o.reply == Success(DedupHit) <==> o.last == DedupStage
    ensures o.stored.Some? <==> o.last == WriteStage && w.writeOk
    ensures o.reply.Success? <==> o.last == DedupStage || o.stored.Some?
    ensures o.stored.Some? ==>
      && o.stored.value == ClickRecord(w, now, info, p, tok, VerdictFor(cfg, info, info.referer, o.hits.value))
      && o.reply == Success(Recorded(w.newClickId, tok.targetId))
  {
    var h := Bot.CountRecentHits(st, info.ip, now, up);
    var v := VerdictFor(cfg, info, info.referer, h.hits);
    if Rejects(cfg, v) then
      ClickOutcome(Failure(NewRpcError(BotBlocked, NoData)), h.store, None, Some(h.hits), BotStage)
    else
      var d := Dedup.CheckClickDedup(cfg.security, h.store, now, tok.trackerId, tok.channelId, p.visitorId, up);
      if d.duplicate then ClickOutcome(Success(DedupHit), d.store, None, Some(h.hits), DedupStage)
      else if !w.writeOk then ClickOutcome(Failure(NewRpcError(DbError, NoData)), d.store, None, Some(h.hits), WriteStage)
      else ClickOutcome(Success(Recorded(w.newClickId, tok.targetId)), d.store,
                        Some(ClickRecord(w, now, info, p, tok, v)), Some(h.hits), WriteStage)
  }

  /** The click stages after the shared ones: payload, token, then the rest. */
  function ClickAfterAdmit(w: World, cfg: AppConfig, st: Store, now: int, info: ClientInfo, pt: Bytes, up: bool): (o: ClickOutcome)
    ensures o.last.PayloadStage? || o.last.TokenStage? || BotChecked(o.last)
    ensures o.reply.Failure? ==> StageCode(o.last, o.reply.error.code)
    ensures o.hits.Some? <==> BotChecked(o.last)
    ensures !BotChecked(o.last) ==> o.store == st && o.stored.None?
    ensures o.last != PayloadStage ==> w.decodeClick(pt).Some?
    ensures BotChecked(o.last) ==>
      && w.tokenByShortCode(w.decodeClick(pt).value.token).Some?
      && o == ClickForToken(w, cfg, st, now, info, w.decodeClick(pt).value,
                            w.tokenByShortCode(w.decodeClick(pt).value.token).value, up)
  {
    match w.decodeClick(pt)
    case None =>
      ClickOutcome(Failure(NewRpcError(InvalidParams, Text("invalid decrypted payload"))), st, None, None, PayloadStage)
    case Some(p) =>
      match w.tokenByShortCode(p.token)
      case None => ClickOutcome(Failure(NewRpcError(InvalidToken, NoData)), st, None, None, TokenStage)
      case Some(tok) => ClickForToken(w, cfg, st, now, info, p, tok, up)
  }

  /** What a gate result says about a request refused by the shared stages. */
  predicate GateReported(g: Gate) {
    g.Refused? ==> GateStage(g.last) && StageCode(g.last, g.error.code)
  }

  /**
   * What any click reply tells about the request: a failure carries the
   * code of the stage that refused it, success comes only from dedup or
   * write, a hit count is present exactly when the bot check ran (and the
   * request stopped there exactly when that count made it a bot), and a
   * click is stored exactly when the reply says "recorded".
   */
  predicate ClickReported(cfg: AppConfig, info: ClientInfo, o: ClickOutcome) {
    && o.last != SiteStage
    && (o.reply.Failure? ==> StageCode(o.last, o.reply.error.code))
    && (o.reply.Success? ==> o.last == DedupStage || o.last == WriteStage)
    && (o.hits.Some? <==> BotChecked(o.last))
    && (o.hits.Some? ==>
          (o.last == BotStage <==> Rejects(cfg, VerdictFor(cfg, info, info.referer, o.hits.value))))
    && (o.reply == Success(DedupHit) ==> o.stored.None? && o.last == DedupStage)
    && (o.stored.Some? <==> o.reply.Success? && o.reply.result.Recorded?)
  }

  /** The click reply once the shared stages have let the request through or refused it. */
  function ClickAfterGate(w: World, cfg: AppConfig, g: Gate, now: int, info: ClientInfo, up: bool): (o: ClickOutcome)
    requires GateReported(g)
    ensures ClickReported(cfg, info, o)
    ensures g.Refused? ==> o == ClickOutcome(Failure(g.error), g.store, None, None, g.last)
    ensures g.Admitted? ==> o == ClickAfterAdmit(w, cfg, g.store, now, info, g.plaintext, up)
  {
    match g
    case Refused(e, s, last) => ClickOutcome(Failure(e), s, None, None, last)
    case Admitted(s, pt) => ClickAfterAdmit(w, cfg, s, now, info, pt, up)
  }

  /** `track.collectClick`. */
  function CollectClick(w: World, cfg: AppConfig, st: Store, now: int, info: ClientInfo, params: Bytes, up: bool): (o: ClickOutcome)
    ensures ClickReported(cfg, info, o)
    ensures o.reply.Success? || o.hits.Some? ==> Admit(w, cfg, st, now, info, params, up).Admitted?
    ensures Admit(w, cfg, st, now, info, params, up).Refused? ==>
      var g := Admit(w, cfg, st, now, info, params, up);
      o == ClickOutcome(Failure(g.error), g.store, None, None, g.last)
    ensures Admit(w, cfg, st, now, info, params, up).Admitted? ==>
      o == ClickAfterAdmit(w, cfg, Admit(w, cfg, st, now, info, params, up).store, now, info,
                           Admit(w, cfg, st, now, info, params, up).plaintext, up)
  {
    ClickAfterGate(w, cfg, Admit(w, cfg, st, now, info, params, up), now, info, up)
  }

  /**
   * A stored click carries the ids of the token its payload names and the
   * bot verdict of the request, and the reply points at the token's target.
   */
  lemma StoredClickCarriesToken(w: World, cfg: AppConfig, st: Store, now: int, info: ClientInfo, params: Bytes, up: bool)
    requires CollectClick(w, cfg, st, now, info, params, up).stored.Some?
    ensures
      var o := CollectClick(w, cfg, st, now, info, params, up);
      && DecryptedClick(w, params).Some?
      && w.tokenByShortCode(DecryptedClick(w, params).value.token).Some?
      && var tok := w.tokenByShortCode(DecryptedClick(w, params).value.token).value;
      var v := VerdictFor(cfg, info, info.referer, o.hits.value);
      && o.stored.value.trackerId == tok.trackerId
      && o.stored.value.campaignId == tok.campaignId
      && o.stored.value.channelId == tok.channelId
      && o.stored.value.targetId == tok.targetId
      && o.stored.value.isBot == v.blocked
      && o.stored.value.suspectedBot == v.suspected
      && o.reply.result.targetId == tok.targetId
  {
    var g := Admit(w, cfg, st, now, info, params, up);
    assert g.Admitted?;
    var e := w.decodeEnvelope(params).value;
    assert w.decrypt(e) == Some(g.plaintext);
    assert DecryptedClick(w, params) == w.decodeClick(g.plaintext);
  }

  /** The events payload inside the request, when the envelope decodes and decrypts. */
  function DecryptedEvents(w: World, params: Bytes): Option<EventsPayload> {
    match w.decodeEnvelope(params)
    case DecodeError(_) => None
    case Decoded(e) =>
      match w.decrypt(e)
      case None => None
      case Some(pt) => w.decodeEvents(pt)
  }

  /**
   * One event per submitted item, in order: the item's own fields, and the
   * request's time, site, visitor, session, client and bot verdict shared by all.
   */
  function BuildEvents(now: int, site: Site, p: EventsPayload, info: ClientInfo, country: string,
                       v: Bot.Verdict, items: seq<EventItem>): (r: seq<Event>)
    ensures |r| == |items|
    ensures forall i :: 0 <= i < |r| ==>
      && r[i].kind == items[i].kind && r[i].url == items[i].url && r[i].title == items[i].title
      && r[i].referrer == items[i].referrer && r[i].props == items[i].props
    ensures forall i :: 0 <= i < |r| ==>
      && r[i].ts == now && r[i].siteId == site.id && r[i].visitorId == p.visitorId
      && r[i].sessionId == p.sessionId && r[i].ip == info.ip && r[i].country == country
      && r[i].ua == info.ua && r[i].lang == info.lang
      && r[i].suspectedBot == v.suspected && r[i].isBot == v.blocked
    decreases |items|
  {
    if |items| == 0 then []
    else
      var e := items[|items| - 1];
      BuildEvents(now, site, p, info, country, v, items[..|items| - 1])
        + [Event(now, site.id, e.kind, p.visitorId, p.sessionId, e.url, e.title, e.referrer,
                 info.ip, country, info.ua, info.lang, e.props, v.suspected, v.blocked)]
  }

  datatype EventsResult = EventsAccepted(serverTime: int)

  datatype EventsOutcome = EventsOutcome(
    reply: Reply<EventsResult>, store: Store, written: seq<Event>, hits: Option<int>, last: Stage)

  /** The events stages once the site is known: bot check, write. */
  function EventsForSite(w: World, cfg: AppConfig, st: Store, now: int, info: ClientInfo,
                         p: EventsPayload, site: Site, up: bool): (o: EventsOutcome)
    ensures (o.last.BotStage? || o.last.WriteStage?) && o.hits.Some?
    ensures o.hits.value == Bot.CountRecentHits(st, info.ip, now, up).hits
    ensures o.reply.Failure? ==> StageCode(o.last, o.reply.error.code) && o.written == []
    ensures o.last == BotStage <==> Rejects(cfg, VerdictFor(cfg, info, "", o.hits.value))
    ensures o.reply.Success? <==> o.last == WriteStage && w.writeOk
    ensures o.reply.Success? ==>
      && o.reply.result.serverTime == now
      && o.written == BuildEvents(now, site, p, info, w.country(info.ip),
                                  VerdictFor(cfg, info, "", o.hits.value), p.events)
  {
    var h := Bot.CountRecentHits(st, info.ip, now, up);
    var v := VerdictFor(cfg, info, "", h.hits);
    if Rejects(cfg, v) then
      EventsOutcome(Failure(NewRpcError(BotBlocked, NoData)), h.store, [], Some(h.hits), BotStage)
    else if !w.writeOk then
      EventsOutcome(Failure(NewRpcError(DbError, NoData)), h.store, [], Some(h.hits), WriteStage)
    else
      EventsOutcome(Success(EventsAccepted(now)), h.store,
        BuildEvents(now, site, p, info, w.country(info.ip), v, p.events), Some(h.hits), WriteStage)
  }

  /** The events stages after the shared ones: payload, site key, then the rest. */
  function EventsAfterAdmit(w: World, cfg: AppConfig, st: Store, now: int, info: ClientInfo, pt: Bytes, up: bool): (o: EventsOutcome)
    ensures o.last.PayloadStage? || o.last.SiteStage? || o.last.BotStage? || o.last.WriteStage?
    ensures o.reply.Failure? ==> StageCode(o.last, o.reply.error.code) && o.written == []
    ensures o.last == SiteStage ==> o.reply == Failure(NewRpcErrorWithMessage(InvalidParams, "invalid site_key"))
    ensures o.hits.Some? <==> BotChecked(o.last)
    ensures !BotChecked(o.last) ==> o.store == st
    ensures o.reply.Success? ==> o.last == WriteStage
    ensures o.last != PayloadStage ==> w.decodeEvents(pt).Some?
    ensures BotChecked(o.last) ==>
      && w.siteByKey(w.decodeEvents(pt).value.siteKey).Some?
      && o == EventsForSite(w, cfg, st, now, info, w.decodeEvents(pt).value,
                            w.siteByKey(w.decodeEvents(pt).value.siteKey).value, up)
  {
    match w.decodeEvents(pt)
    case None =>
      EventsOutcome(Failure(NewRpcError(InvalidParams, Text("invalid decrypted payload"))), st, [], None, PayloadStage)
    case Some(p) =>
      match w.siteByKey(p.siteKey)
      case None =>
        EventsOutcome(Failure(NewRpcErrorWithMessage(InvalidParams, "invalid site_key")), st, [], None, SiteStage)
      case Some(site) => EventsForSite(w, cfg, st, now, info, p, site, up)
  }

  /** The events reply once the shared stages have let the request through or refused it. */
  function EventsAfterGate(w: World, cfg: AppConfig, g: Gate, now: int, info: ClientInfo, up: bool): (o: EventsOutcome)
    requires GateReported(g)
    ensures o.reply.Failure? ==> StageCode(o.last, o.reply.error.code) && o.written == []
    ensures g.Refused? ==> o == EventsOutcome(Failure(g.error), g.store, [], None, g.last)
    ensures o.reply.Success? ==> g.Admitted? && o == EventsAfterAdmit(w, cfg, g.store, now, info, g.plaintext, up)
  {
    match g
    case Refused(e, s, last) => EventsOutcome(Failure(e), s, [], None, last)
    case Admitted(s, pt) => EventsAfterAdmit(w, cfg, s, now, info, pt, up)
  }

  /** `track.collectEvents`. */
  function CollectEvents(w: World, cfg: AppConfig, st: Store, now: int, info: ClientInfo, params: Bytes, up: bool): (o: EventsOutcome)
    ensures o.reply.Failure? ==> StageCode(o.last, o.reply.error.code) && o.written == []
    ensures Admit(w, cfg, st, now, info, params, up).Refused? ==>
      var g := Admit(w, cfg, st, now, info, params, up);
      o == EventsOutcome(Failure(g.error), g.store, [], None, g.last)
    ensures o.reply.Success? ==>
      && o.hits.Some?
      && DecryptedEvents(w, params).Some?
      && w.siteByKey(DecryptedEvents(w, params).value.siteKey).Some?
      && var p := DecryptedEvents(w, params).value;
      o.written == BuildEvents(now, w.siteByKey(p.siteKey).value, p, info, w.country(info.ip),
                               VerdictFor(cfg, info, "", o.hits.value), p.events)
  {
    var g := Admit(w, cfg, st, now, info, params, up);
    var o := EventsAfterGate(w, cfg, g, now, info, up);
    if o.reply.Success? then
      var e := w.decodeEnvelope(params).value;
      assert w.decrypt(e) == Some(g.plaintext);
      assert DecryptedEvents(w, params) == w.decodeEvents(g.plaintext);
      o
    else o
  }
}
