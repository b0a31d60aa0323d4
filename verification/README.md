# TrackingAnalysis core, modelled in Dafny

TrackingAnalysis is an ad and web tracking service: a Go backend behind one JSON-RPC 2.0
endpoint, and a React admin console that calls it. This project models the logic of the
request path and of the console:

- **Backend.**
  - The dispatcher routes `method` to a registered handler and builds the error table.
  - The two tracking endpoints (`track.collectClick`, `track.collectEvents`) run a gate
    of checks: Redis rate limits per IP, per IP+UA and per tracker+IP; the timestamp
    window and single-use nonce; the heuristic bot score with its hit counter; the click
    de-duplication key.
  - The signed-token codec.
  - The admin handlers: HMAC session tokens, `requireAuth`, login, tracker and campaign
    creation, the tracker update merge, short-code tracking tokens and their URLs.
  - The Postgres DSN builder.
  - The statistics regrouping: UA strings into browser and OS buckets, referrers into
    host buckets, sorted by count and cut to a limit.
- **Console.**
  - The RPC client: token injection, request ids, and session expiry on codes 4001/4002.
  - The two RPC hooks: `useRpcCall` throws, `useRpcList` swallows.
  - The toast queue.
  - The hour-of-day bar chart and the mini pie chart.
  - The `truncate` and `classNames` helpers.
  - The channels page: tag rows, filters, display names.
  - The token generator page: cascading selections and the generate request.

Redis is a map from key to `(count, expiry)` with an explicit clock (`KvStore`).
- Every request sees one `now` in unix seconds.
- Every request sees one `up` flag for Redis availability.

Everything the code gets from outside is a parameter of the model. This covers:
- JSON decoding of raw parameters;
- RSA/AES decryption;
- HMAC and SHA-256;
- base64;
- user-agent parsing and URL parsing;
- database lookups and writes;
- GeoIP;
- random short codes;
- the HTTP round trip of the console.

The model states what the code does with their results.

Module layout: one module per source file or component, plus shared helpers:
- `Wrappers` (`Option`);
- `Text` (lower-casing, substring search, decimal formatting);
- `GoInt` (truncating division, int64 wrap-around);
- `Json` (`JsonValue`, `Decoded`);
- `Js` (`slice` index rules, `filter`);
- `Assoc` (a left fold into a map, where the last write wins);
- `KvStore`;
- `StatsTypes` (`NameCount`, `HourlyCount`);
- `Models` (the stored records).

## Model

| member | source | states |
|---|---|---|
| RpcErrors.NewRpcError | internal/rpc/errors.go:49-55 | The error keeps the code and data; its message is the table's entry for a known code and "unknown_error" otherwise |
| RpcErrors.NewRpcErrorWithMessage | internal/rpc/errors.go:57-59 | The error carries exactly the given code and message and no data |
| RpcErrors.ErrorString | internal/rpc/errors.go:45-47 | `Error()` is the message |
| RpcErrors.UnknownMessageIffUnknownCode | internal/rpc/errors.go:24-55 | "unknown_error" is produced exactly for codes outside the table |
| RpcErrors.MessagesInjective | internal/rpc/errors.go:24-37 | No two codes of the table share a message, so the message identifies the code |
| Dispatcher.Register | internal/rpc/dispatcher.go:37-39 | Registration adds the method, binds it to the handler, and leaves every other method's handler unchanged |
| Dispatcher.Handle | internal/rpc/dispatcher.go:41-87 | Every response is version 2.0 and has a result exactly when it has no error. An unparsable body gives -32700 with a null id. A wrong version gives -32600. An unknown method gives -32601 naming it. Otherwise the method's handler runs on the params, and its error or result is returned under the request's id |
| Dispatcher.RegisteredHandlerRuns | internal/rpc/dispatcher.go:37-87 | A valid request for a just-registered method invokes that handler with the request's params |
| Dispatcher.LaterRegistrationWins | internal/rpc/dispatcher.go:37-39 | Registering a method twice keeps only the second handler |
| Dispatcher.VersionCheckedFirst | internal/rpc/dispatcher.go:53-60 | A request with the wrong version gets the same response whatever is registered |
| Bot.UaPenalty | internal/bot/detector.go:22-28 | The user-agent penalty is 50 exactly when some bot pattern occurs in the lower-cased UA, else 0, and it is counted once |
| Bot.Score | internal/bot/detector.go:18-49 | The score lies in 0..100. It is 0 exactly when no signal fires. It is 100 exactly when the penalties reach 100 |
| Bot.MissingLanguagePenalty | internal/bot/detector.go:30-33 | Dropping Accept-Language adds 20, capped at 100 |
| Bot.MissingSecFetchPenalty | internal/bot/detector.go:35-38 | Dropping the Sec-Fetch headers adds 20, capped at 100 |
| Bot.FrequencyPenalty | internal/bot/detector.go:40-43 | More than 10 recent hits with no referer adds 30, and otherwise nothing |
| Bot.BotUserAgentPenalty | internal/bot/detector.go:22-28 | A bot-like UA scores 50 more than an empty UA, capped at 100 |
| Bot.ScoreIgnoresCase | internal/bot/detector.go:20-24 | The score does not depend on the UA's letter case |
| Bot.IsBot | internal/bot/detector.go:51-59 | Blocked exactly when the score reaches the block threshold. Suspected exactly when it reaches either threshold. Blocked implies suspected |
| Bot.IsBotMonotone | internal/bot/detector.go:51-59 | A higher score is never judged less of a bot |
| Bot.CountRecentHits | internal/bot/detector.go:61-71 | With Redis up, the count is one more than the live counter, and the counter now holds it. With Redis down, the count is 0 and the store is unchanged. No other key changes |
| Bot.HitSeriesIsBumpSeries | internal/bot/detector.go:61-71 | Successive hit counts are the store's increment-with-expiry series on the `bot:freq:` key with a 10-second TTL |
| Bot.RecentHitsCountUp | internal/bot/detector.go:61-71 | Within 10 seconds of a first hit on an idle key, the successive counts are 1, 2, 3, … |
| Bot.RecentHitsIndependent | internal/bot/detector.go:62 | Counting hits for one IP leaves every other IP's counter alone |
| KvStore.Incr | internal/middleware/ratelimit.go:42 | INCR makes the key live with its count one higher. It keeps a live key's expiry, starts a dead key without expiry, and leaves other keys unchanged |
| KvStore.Expire | internal/middleware/ratelimit.go:47 | EXPIRE sets a live key's expiry to now plus the seconds, ignores a dead key, and leaves other keys unchanged |
| KvStore.Bump | internal/middleware/ratelimit.go:42-48 | INCR then EXPIRE-on-1 fails exactly when Redis is down. Otherwise it returns the new count, which the store holds. The expiry starts with the first increment and is kept afterwards. Other keys are unchanged |
| KvStore.SetNx | internal/middleware/antireplay.go:25 | SET NX succeeds exactly when the key is not live. Success stores a live key that expires after a positive TTL and never for TTL 0. Failure changes nothing. A negative TTL or Redis down is a store error |
| KvStore.BumpSeriesContinues | internal/middleware/ratelimit.go:41-52 | Increments before a live counter expires continue its count and keep its expiry |
| KvStore.BumpSeriesCounts | internal/middleware/ratelimit.go:41-52 | Increments within one TTL of the first, on an idle key, count 1, 2, …, n |
| RateLimit.KeyKindsDiffer | internal/middleware/ratelimit.go:18-32 | A per-IP key never equals a per-IP+UA key, whatever IPs, hash and windows they are built from. Only tracker+IP keys carry the tracker prefix |
| RateLimit.IpKeyInjective | internal/middleware/ratelimit.go:18 | Equal per-IP keys mean the same IP and the same window |
| RateLimit.WindowsIndependent | internal/middleware/ratelimit.go:14-18 | Different minute windows use different per-IP counters |
| RateLimit.CheckLimit | internal/middleware/ratelimit.go:41-52 | With Redis down, the request is allowed and nothing changes. Otherwise the counter goes up by one, and the request is allowed exactly when the new count is within the limit. Other keys are unchanged |
| RateLimit.CheckRateLimit | internal/middleware/ratelimit.go:13-39 | With Redis down, the request is allowed and nothing changes. Only the three counters of this request can change. Without a tracker, no tracker counter changes |
| RateLimit.IpLimitFirst | internal/middleware/ratelimit.go:17-21 | The per-IP counter is checked first. Its refusal refuses the request and leaves the other two counters untouched |
| RateLimit.IpUaLimitSecond | internal/middleware/ratelimit.go:23-28 | After the per-IP check passes, the IP+UA counter decides or passes the request on, keyed by the first 16 hex digits of the UA's SHA-256 |
| RateLimit.TrackerLimitLast | internal/middleware/ratelimit.go:30-36 | With a tracker and both earlier checks passed, the tracker+IP counter decides |
| RateLimit.NoTrackerNoTrackerKeys | internal/middleware/ratelimit.go:31 | Without a tracker id, no tracker+IP counter of any tracker is touched |
| RateLimit.CheckSeriesFollowsCounts | internal/middleware/ratelimit.go:41-52 | Each verdict in a series of checks on one key is "new count within limit", over the increment-with-expiry series |
| RateLimit.NthCallRefusedIffOverLimit | internal/middleware/ratelimit.go:41-52 | Within one window from an idle key, the n-th call is refused exactly when n exceeds the limit |
| AntiReplay.ErrorText | internal/middleware/antireplay.go:18-31 | Only a reused nonce produces the text "replay_detected" |
| AntiReplay.RecordNonce | internal/middleware/antireplay.go:22-33 | A nonce already live is a replay, and nothing changes. A fresh nonce is stored live. A store error, including a negative TTL, fails open without change. No other key changes |
| AntiReplay.SkewAsWritten | internal/middleware/antireplay.go:14-17 | The int64 skew is the exact absolute difference whenever the difference neither overflows nor is the most negative int64 |
| AntiReplay.CheckAntiReplayAsWritten | internal/middleware/antireplay.go:12-34 | With the skew computed in wrapping int64 arithmetic: a skew over the window is refused as expired before the nonce is touched, and a skew within it is never refused as expired |
| AntiReplay.CheckAntiReplay | internal/middleware/antireplay.go:12-34 | With the exact skew, a request is expired exactly when the skew exceeds the window, and then nothing changes. Otherwise the nonce check decides. Only the nonce key can change |
| AntiReplay.AsWrittenAgreesWithoutOverflow | internal/middleware/antireplay.go:14-18 | Where the int64 subtraction does not wrap, the code as written and the exact check agree |
| AntiReplay.StaleTimestampPassesAsWritten | internal/middleware/antireplay.go:14-18 | A timestamp 2^63 seconds old passes the code as written and is refused by the exact check |
| AntiReplay.SkewSymmetric | internal/middleware/antireplay.go:14-18 | A timestamp d seconds early and one d seconds late are treated alike |
| AntiReplay.WindowEdgeAccepted | internal/middleware/antireplay.go:18 | A skew of exactly the window is accepted when the nonce is fresh |
| AntiReplay.FirstUseAccepted | internal/middleware/antireplay.go:12-34 | A fresh nonce in the window is accepted and then recorded as live |
| AntiReplay.ReuseDetected | internal/middleware/antireplay.go:25-31 | The same nonce used again before its TTL runs out is refused as a replay |
| AntiReplay.StoreErrorFailsOpen | internal/middleware/antireplay.go:26-28 | With Redis down, an in-window request is accepted and nothing changes |
| Dedup.CheckClickDedup | internal/dedup/dedup.go:12-20 | A click is a duplicate exactly when its `dedup:click:tracker:channel:visitor` key is live. A first click stores the key with the dedup TTL. A store error is never a duplicate. Other keys are unchanged |
| Dedup.FirstClickNotDuplicate | internal/dedup/dedup.go:12-20 | The first click of a triple is not a duplicate |
| Dedup.RepeatWithinTtlIsDuplicate | internal/dedup/dedup.go:12-20 | A repeat of the same triple within the TTL is a duplicate |
| Dedup.AfterTtlNotDuplicate | internal/dedup/dedup.go:14-15 | A repeat after the TTL is not a duplicate |
| Dedup.StoreErrorNotDuplicate | internal/dedup/dedup.go:16-18 | With Redis down, every click counts as new and nothing changes |
| Dedup.DedupKeyInjective | internal/dedup/dedup.go:13 | For colon-free tracker and channel ids, equal keys mean equal triples |
| Dedup.ColonsMakeKeysCollide | internal/dedup/dedup.go:13 | Ids containing ':' can make different triples share a key |
| Dedup.TriplesIndependent | internal/dedup/dedup.go:12-20 | Checking one triple leaves every other colon-free triple's key alone |
| SignedToken.GenerateToken | internal/security/token.go:22-32 | The token is the encoded payload, a dot, and the signature of the encoded part |
| SignedToken.GeneratedParts | internal/security/token.go:22-38 | Splitting a generated token at its first dot gives back the encoded payload and its signature |
| SignedToken.VerifyToken | internal/security/token.go:34-63 | A token without a dot is badly formatted. A wrong signature is refused as such. An accepted token's payload decodes from the part before the dot and is not expired |
| SignedToken.RoundTrip | internal/security/token.go:22-63 | A generated, unexpired token verifies under the same secret to the payload it was made from |
| SignedToken.ExpiryDecides | internal/security/token.go:58-60 | A generated token verifies exactly when it has not expired, and is otherwise refused as expired |
| SignedToken.WrongSecretRefused | internal/security/token.go:41-46 | Verifying under a secret with a different signature refuses the token for its signature |
| Config.Dsn | internal/config/config.go:39-49 | The DSN starts with the host/user/password/dbname/port part. It has the time-zone part exactly when a zone is set, and ends in " sslmode=disable" exactly when SSL is off |
| Config.DsnMinimal | internal/config/config.go:39-41 | With no zone and SSL on, the DSN is the base part alone |
| Config.DsnSslModeToggle | internal/config/config.go:45-47 | Turning SSL off appends exactly " sslmode=disable" |
| Config.DsnTimeZoneInsert | internal/config/config.go:42-44 | Setting a zone inserts " TimeZone=zone" right after the base part |
| Admin.StringField | internal/rpc/admin.go:144-152 | A string field decodes when it is absent, a string or null, and fails for any other JSON type |
| Admin.Fields | internal/rpc/admin.go:144-152 | A parameter struct decodes exactly when the params parse and every listed field decodes, and then holds each field's string |
| Admin.SessionMessageDetermines | internal/rpc/admin.go:34-38 | Two signed `user:hour` messages are equal exactly when the users are equal and the instants fall in the same hour |
| Admin.SessionBoundToUserAndHour | internal/rpc/admin.go:34-43 | A session token issued to a user verifies exactly when that user is the configured admin and the token was issued in the current hour. This assumes the HMAC does not collide on the two messages |
| Admin.RequireAuth | internal/rpc/admin.go:45-56 | A request passes exactly when the params decode and carry a non-empty token that equals the admin's token for this hour. Failures are code 4001 with "admin_token required" for a missing token and "invalid admin_token" otherwise |
| Admin.Login | internal/rpc/admin.go:81-94 | Login succeeds exactly when the credentials match. Its token then passes verification. A well-formed login with wrong credentials gets 4001 "invalid credentials" |
| Admin.LoginTokenAuthorizes | internal/rpc/admin.go:81-94 | The token a login returns authorises requests for the rest of that hour |
| Admin.TrackerCreate | internal/rpc/admin.go:97-121 | Authentication comes first. A params decoding error gets -32602 with the decoder's text. Any type other than "ad" or "web" gets -32602 "type must be 'ad' or 'web'". For a valid request, a successful write returns the tracker with the given name and type and status "active", and a failed write gets 5001 with the driver's text |
| Admin.MergeTracker | internal/rpc/admin.go:157-162 | An update replaces the name and status only with non-empty values and keeps id, type and mode |
| Admin.MergeIdempotent | internal/rpc/admin.go:157-162 | Applying the same update twice equals applying it once |
| Admin.EmptyUpdateKeepsTracker | internal/rpc/admin.go:157-162 | An update with neither name nor status changes nothing |
| Admin.TrackerUpdate | internal/rpc/admin.go:140-167 | Authentication comes first. A params decoding error gets -32602. An unknown id gives 5001 "tracker not found". For a known id, a successful write returns the merged tracker, and a failed write gets 5001 with the driver's text |
| Admin.CampaignCreate | internal/rpc/admin.go:187-216 | Authentication comes first. A params decoding error gets -32602. An unknown tracker and a non-"ad" tracker get -32602 with their messages. Under an "ad" tracker, a successful write returns the campaign, "active" under the given tracker and name, and a failed write gets 5001 with the driver's text |
| Admin.CampaignUnderCreatedTracker | internal/rpc/admin.go:200-215 | A tracker that `admin.tracker.create` returned, once stored under its id, takes a campaign exactly when it was created with type "ad", and the campaign is filed under that tracker's id |
| Admin.ModePrefix | internal/rpc/admin.go:423-426 | The URL prefix is "t" exactly for mode "js", and "r" otherwise |
| Admin.TrackingUrl | internal/rpc/admin.go:423-427 | The tracking URL is the export URL, "/", the prefix, "/", then the short code |
| Admin.TrackingUrlInjective | internal/rpc/admin.go:423-427 | Equal tracking URLs under one export URL have the same short code and prefix |
| Admin.View | internal/rpc/admin.go:457-471 | A listed token is shown with its own tracking URL |
| Admin.PickShortCode | internal/rpc/admin.go:395-409 | The first of at most 10 candidates not in use is picked. A lookup error stops the search. Exhaustion happens exactly when all 10 are taken |
| Admin.EffectiveMode | internal/rpc/admin.go:390-392 | An empty mode becomes "302", and any other mode is kept |
| Admin.NewToken | internal/rpc/admin.go:411-418 | The stored token carries the assigned id, the short code, the four ids from the request and the effective mode |
| Admin.IssueToken | internal/rpc/admin.go:390-439 | The reply is fixed by the first of the ten candidates not reported taken. If that code is free and non-empty, a successful write returns the token built from it and the request, with its tracking URL, and a failed write gets 5001 with the driver's text. If the code is empty, or all ten are taken, the reply is -32603 "failed to generate unique short code". If the uniqueness query fails first, the reply is 5001 with the driver's text. A returned token always comes from that first free code |
| Admin.FirstAttemptUnique | internal/rpc/admin.go:395-406 | The search stops at exactly one attempt: there is only one first free code or first failed query, never both, and then not all ten were taken |
| Admin.TokenGenerate | internal/rpc/admin.go:375-440 | Authentication comes first. A params decoding error gets -32602 with the decoder's text. A decoded request gets the reply described for Admin.IssueToken. A returned token's short code was free |
| Admin.TokenList | internal/rpc/admin.go:443-475 | Authentication comes first. An authorised request succeeds exactly when the repository query does, and a failed query gets 5001 with the driver's text. On success, each of the tracker's tokens is listed in order with its tracking URL |
| Admin.ListedTokenKeepsUrl | internal/rpc/admin.go:457-471 | A token `admin.token.generate` returned is listed by `admin.token.list` exactly as it was returned, with the same tracking URL |
| Track.ReplayCode | internal/rpc/track.go:45-50 | A reused nonce maps to 4004 and an expired timestamp to 4002 |
| Track.Admit | internal/rpc/track.go:31-56 | The gate refuses only at the envelope, rate-limit, anti-replay or decryption stage, with that stage's error code. Admission means every stage passed |
| Track.AdmitSteps | internal/rpc/track.go:39-56 | A rate-limit refusal ends the request at that stage with the rate-limit store. An anti-replay refusal ends it at that stage with the anti-replay store. Otherwise the anti-replay store is kept |
| Track.AdmitKeepsTrackerCounters | internal/rpc/track.go:40 | The tracking gate never touches a tracker+IP rate counter, because it passes no tracker id |
| Track.NonceKeyNotRateKey | internal/middleware/antireplay.go:23 | Nonce keys never collide with rate-limit keys |
| Track.ReplayedEnvelopeRefused | internal/rpc/track.go:44-50 | While its nonce is remembered, resending an admitted envelope is refused by the rate limit or the anti-replay check, before decryption |
| Track.ClickForToken | internal/rpc/track.go:74-108 | After the token lookup: bot rejection happens exactly when the verdict blocks in reject mode. A dedup hit replies `dedup: true` without writing. A stored click exists exactly when the write succeeds |
| Track.ClickAfterAdmit | internal/rpc/track.go:58-108 | After decryption, the stages come in order: payload, token, bot, dedup, write. The hit counter moves only from the bot stage on |
| Track.ClickAfterGate | internal/rpc/track.go:31-108 | Given a gate that reports its refusals correctly, every reply satisfies the click facts listed for Track.CollectClick. A refused request fails with the gate's error and store, stores nothing and has no hit count. An admitted request continues as after admission |
| Track.CollectClick | internal/rpc/track.go:31-108 | Every failure carries its stage's code, and success comes only from dedup or write. A hit count is present exactly when the bot check ran, and the request stopped there exactly when that count made it a rejected bot. A dedup hit stores nothing. A click is stored exactly when the reply is "recorded". A request the gate refuses fails with the gate's error and stores nothing. A success or a hit count means the gate admitted the request, which then continues as after admission |
| Track.StoredClickCarriesToken | internal/rpc/track.go:88-108 | A stored click's tracker, campaign, channel and target ids come from the decrypted token's record. Its bot flags are the verdict's. The reply names the token's target |
| Track.BuildEvents | internal/rpc/track.go:170-192 | One event per submitted item, in order, each with the site, the visitor, the session, the client data and the verdict's flags |
| Track.EventsForSite | internal/rpc/track.go:162-198 | After the site lookup: bot rejection happens exactly when the verdict blocks in reject mode, scored without a referer. Success happens exactly when the batch write succeeds |
| Track.EventsAfterAdmit | internal/rpc/track.go:139-198 | After decryption, the stages come in order: payload, site, bot, write. An unknown site key gives -32602 "invalid site_key" |
| Track.EventsAfterGate | internal/rpc/track.go:112-199 | A failure carries its stage's code and writes nothing. A refused request fails with the gate's error and store. Success comes only from an admitted request, continued as after admission |
| Track.CollectEvents | internal/rpc/track.go:112-199 | Every failure carries its stage's code and writes nothing. A request the gate refuses fails with the gate's error and store. Success means the batch was written |
| UaHelper.OrUnknown | internal/repo/ua_helper.go:18-25 | An empty parsed name becomes "Unknown", and a non-empty one is kept |
| UaHelper.NormalizeReferrerHost | internal/repo/ua_helper.go:36-45 | An empty referrer is "(direct)". A parsable URL with a host gives the host. Anything else gives the referrer itself |
| UaHelper.TallyBuckets | internal/repo/ua_helper.go:15-28 | Each bucket holds the sum of the counts of the rows whose label it is |
| UaHelper.TallyTotal | internal/repo/ua_helper.go:15-28 | The buckets together hold the total of all rows |
| UaHelper.SumValuesPermutation | internal/repo/ua_helper.go:47-51 | The sum of the buckets does not depend on the order of map iteration |
| UaHelper.SortBuckets | internal/repo/ua_helper.go:47-54 | Every bucket appears exactly once with its count, sorted by descending count |
| UaHelper.MapToSortedNameCounts | internal/repo/ua_helper.go:47-59 | The result is the buckets sorted by descending count and cut to `limit` when it is positive and smaller. No bucket left out beats one kept |
| UaHelper.Regroup | internal/repo/ua_helper.go:11-33 | Each row is a distinct non-empty label of some input row, with its bucket's sum, sorted. No bucket left out by the limit has a larger sum than a kept one. Without a limit the total is preserved |
| UaHelper.ParseUADistribution | internal/repo/ua_helper.go:11-33 | Browser and OS distributions each list distinct names, sorted, with each bucket's sum. Each keeps the largest buckets: no omitted browser or OS outweighs a listed one. Without a limit each preserves the total |
| UaHelper.TopReferrerHosts | internal/repo/click_repo.go:115-131 | Referrers are regrouped by normalised host, with distinct hosts, sorted. The listed hosts are the top ones: no omitted host outweighs a listed one. Without a limit the total is preserved |
| RpcClient.StoredToken | frontend/src/lib/rpc-client.ts:22 | The stored token is present exactly when local storage holds `admin_token` |
| RpcClient.WithToken | frontend/src/lib/rpc-client.ts:24-26 | A non-empty stored token is added as `admin_token` to every call except `admin.login`. Otherwise the params are sent as given. Other keys are never changed |
| RpcClient.Send | frontend/src/lib/rpc-client.ts:28-37 | Each request takes the next id, carries the params with the token, and leaves storage and location alone |
| RpcClient.Receive | frontend/src/lib/rpc-client.ts:39-49 | A transport failure throws. A response without error returns its result. An error response throws an error with the same code, message and data. Codes 4001 and 4002 also drop the stored token and go to "/login" |
| RpcClient.Call | frontend/src/lib/rpc-client.ts:18-50 | A call is the request it sends, followed by the handling of the server's reply to that request |
| RpcClient.NoTokenAfterSessionEnds | frontend/src/lib/rpc-client.ts:22-45 | After a call fails with 4001 or 4002, the next call sends only the params its caller gave |
| RpcClient.SessionIds | frontend/src/lib/rpc-client.ts:4-35 | The calls of a session carry consecutive ids after the last one used |
| RpcClient.IdsFromOne | frontend/src/lib/rpc-client.ts:4-35 | From a fresh page, ids count 1, 2, 3, … and never repeat |
| RpcHooks.Execute | frontend/src/hooks/useRpc.ts:9-25 | `execute` enters loading with the error cleared, and leaves loading. An error is recorded, with the thrown message, exactly when the call throws |
| RpcHooks.Fetch | frontend/src/hooks/useRpc.ts:34-47 | `fetch` enters loading with the old data. It leaves loading with the result, with [] for a null result, and with [] when the call throws |
| RpcHooks.ThrowVersusSwallow | frontend/src/hooks/useRpc.ts:9-47 | The same failing call leaves `useRpcCall` with an error and `useRpcList` with empty data |
| RpcHooks.ExecuteAll | frontend/src/hooks/useRpc.ts:9-25 | After a sequence of calls, loading is off |
| RpcHooks.FetchAll | frontend/src/hooks/useRpc.ts:34-47 | After a sequence of fetches, loading is off |
| RpcHooks.ExecuteAllSnoc | frontend/src/hooks/useRpc.ts:9-25 | One more call continues from the state the earlier calls left |
| RpcHooks.FetchAllSnoc | frontend/src/hooks/useRpc.ts:34-47 | One more fetch continues from the state the earlier fetches left |
| RpcHooks.LastExecutionDecidesError | frontend/src/hooks/useRpc.ts:9-25 | After several calls, the error shown is that of the last call alone |
| RpcHooks.LastFetchDecidesData | frontend/src/hooks/useRpc.ts:34-47 | After several fetches, the data shown is that of the last fetch alone |
| Toasts.Add | frontend/src/context/ToastContext.tsx:28-32 | A toast with the message and kind is appended with an id above every earlier one, and the queue stays valid |
| Toasts.Without | frontend/src/context/ToastContext.tsx:25 | Exactly the toasts with other ids remain |
| Toasts.WithoutKeepsOrder | frontend/src/context/ToastContext.tsx:25 | Filtering keeps the ids increasing |
| Toasts.WithoutAbsent | frontend/src/context/ToastContext.tsx:25 | Filtering out an absent id changes nothing |
| Toasts.Remove | frontend/src/context/ToastContext.tsx:24-26 | Exactly the toasts with other ids remain, the id counter is kept, and the queue stays valid |
| Toasts.RemoveAbsent | frontend/src/context/ToastContext.tsx:24-26 | Removing an id that is not shown changes nothing |
| Toasts.RemoveIdempotent | frontend/src/context/ToastContext.tsx:24-26 | Removing twice is removing once, as when the timer fires after a manual close |
| Toasts.RemoveUndoesAdd | frontend/src/context/ToastContext.tsx:24-32 | Removing the toast just added restores the earlier list |
| HourlyChart.Latest | frontend/src/components/dashboard/HourlyChart.tsx:13-14 | The value for an hour is 0 without a sample, and otherwise the count of the last sample for it |
| HourlyChart.Pairs | frontend/src/components/dashboard/HourlyChart.tsx:13-14 | Each sample becomes its `(hour, count)` pair, in order |
| HourlyChart.LastPair | frontend/src/components/dashboard/HourlyChart.tsx:13-14 | The last pair for an hour exists exactly when some sample has that hour, and then holds the latest count |
| HourlyChart.SeriesIsLatest | frontend/src/components/dashboard/HourlyChart.tsx:11-18 | Reading any hour back from the map gives the latest sample's count, or 0 |
| HourlyChart.Chart | frontend/src/components/dashboard/HourlyChart.tsx:11-20 | There are 24 bars labelled "h:00", each with the latest click and event counts for its hour, and a missing series counts as empty |
| HourlyChart.HasData | frontend/src/components/dashboard/HourlyChart.tsx:22 | There is data exactly when some bar has a positive click or event count |
| HourlyChart.DrawnIffSomePositiveHour | frontend/src/components/dashboard/HourlyChart.tsx:16-27 | The chart is drawn exactly when some hour 0..23 has a positive latest count |
| HourlyChart.OutOfRangeIgnored | frontend/src/components/dashboard/HourlyChart.tsx:13-20 | A sample for an hour outside 0..23 changes no bar, in either series |
| HourlyChart.LaterSampleWins | frontend/src/components/dashboard/HourlyChart.tsx:13-18 | A later sample for an hour overrides all earlier ones |
| MiniPie.Reduce | frontend/src/components/dashboard/MiniPieChart.tsx:21 | The left `reduce` is the sum of the counts |
| MiniPie.Render | frontend/src/components/dashboard/MiniPieChart.tsx:11-23 | A missing or empty list gives the placeholder. Otherwise the slices are the first `maxItems` rows, plus an "Other" slice carrying the rest's sum exactly when that sum is positive. The total is the sum of the slices |
| MiniPie.RenderDefault | frontend/src/components/dashboard/MiniPieChart.tsx:6 | Without a `maxItems` prop, the first six rows (or all, if fewer) are the named slices, followed by at most one "Other" slice |
| MiniPie.TopIsPrefix | frontend/src/components/dashboard/MiniPieChart.tsx:20 | The named slices are the first min(length, maxItems) rows |
| MiniPie.SliceCountBound | frontend/src/components/dashboard/MiniPieChart.tsx:20-22 | There are at most maxItems + 1 slices |
| MiniPie.TotalIsWholeSum | frontend/src/components/dashboard/MiniPieChart.tsx:20-23 | When the rest does not sum to a negative number, the total is the sum of the whole list |
| MiniPie.NonNegativeTotal | frontend/src/components/dashboard/MiniPieChart.tsx:20-23 | With non-negative counts, nothing is lost by folding the tail into "Other" |
| Utils.Truncate | frontend/src/lib/utils.ts:11-14 | A string that fits is kept. Otherwise it is cut to `n` characters by `slice` and "..." is appended, so it has length n+3 for non-negative n |
| Utils.TruncateDefault | frontend/src/lib/utils.ts:11 | The default limit is 40 |
| Utils.TruncateIdempotent | frontend/src/lib/utils.ts:11-14 | Truncating twice with the same non-negative limit is truncating once |
| Utils.Kept | frontend/src/lib/utils.ts:21 | At most one string per argument is kept, each non-empty, and none exactly when all arguments are falsy |
| Utils.ClassNames | frontend/src/lib/utils.ts:20-22 | The result is empty exactly when every argument is falsy |
| Utils.KeptOne | frontend/src/lib/utils.ts:21 | A single argument keeps its own string exactly when it is truthy, and nothing otherwise |
| Utils.KeptAllTruthy | frontend/src/lib/utils.ts:21 | When every argument is truthy, every argument's string is kept, in argument order |
| Utils.ClassNamesOne | frontend/src/lib/utils.ts:20-22 | A single non-empty class name comes out as itself |
| Utils.ClassNamesOfNames | frontend/src/lib/utils.ts:20-22 | Non-empty class names come out joined by single spaces, in their order |
| Utils.JoinNonEmpty | frontend/src/lib/utils.ts:21 | Joining non-empty parts is empty exactly when there are none |
| Utils.KeptAppend | frontend/src/lib/utils.ts:21 | Filtering distributes over concatenation |
| Utils.JoinAppend | frontend/src/lib/utils.ts:21 | Joining two non-empty lists puts one space between their joins |
| Utils.ClassNamesAppend | frontend/src/lib/utils.ts:20-22 | Splitting the arguments splits the result at one space, and an all-falsy side adds nothing |
| Utils.ClassNamesSkipsFalsy | frontend/src/lib/utils.ts:20-22 | A falsy argument anywhere leaves no trace |
| ChannelsPage.AddTagRow | frontend/src/pages/ChannelsPage.tsx:52 | One blank row is appended and the others are kept |
| ChannelsPage.RemoveTagRow | frontend/src/pages/ChannelsPage.tsx:53 | Row i is removed and the others keep their order; an index naming no row changes nothing |
| ChannelsPage.UpdateTagRow | frontend/src/pages/ChannelsPage.tsx:54-58 | Exactly the chosen field of row i changes; an index past the end fails |
| ChannelsPage.Tags | frontend/src/pages/ChannelsPage.tsx:71-72 | The submitted tags never contain the empty key |
| ChannelsPage.TagsKeys | frontend/src/pages/ChannelsPage.tsx:71-72 | The tag keys are exactly the non-empty row keys |
| ChannelsPage.TagsLastRowWins | frontend/src/pages/ChannelsPage.tsx:71-72 | A key's value is that of the last row with that key |
| ChannelsPage.TagsExtend | frontend/src/pages/ChannelsPage.tsx:71-72 | Rows appended to two lists with equal tags keep the tags equal |
| ChannelsPage.EmptyKeyRowIgnored | frontend/src/pages/ChannelsPage.tsx:72 | A row with an empty key, anywhere, does not change the tags |
| ChannelsPage.AddedRowSubmitsNothing | frontend/src/pages/ChannelsPage.tsx:72 | A freshly added blank row does not change what is submitted |
| ChannelsPage.CampaignsFor | frontend/src/pages/ChannelsPage.tsx:49-50 | With no tracker chosen, every campaign is offered. Otherwise every offered campaign is the chosen tracker's, and every campaign of that tracker is offered |
| ChannelsPage.CampaignsForOne | frontend/src/pages/ChannelsPage.tsx:49-50 | A single campaign is offered exactly when no tracker is chosen or it belongs to the chosen one |
| ChannelsPage.CampaignsForAppend | frontend/src/pages/ChannelsPage.tsx:49-50 | The choices from two lists run together are the choices from each, in order, so the list keeps the campaigns' order |
| ChannelsPage.SelectTrackerFilter | frontend/src/pages/ChannelsPage.tsx:139 | Choosing a tracker filter sets it and clears the campaign filter |
| ChannelsPage.SelectCampaignFilter | frontend/src/pages/ChannelsPage.tsx:146 | Choosing a campaign filter keeps the tracker filter |
| ChannelsPage.ListParams | frontend/src/pages/ChannelsPage.tsx:42-47 | The list request names exactly the filters that are set, and nothing else |
| ChannelsPage.TrackerChangeDropsCampaign | frontend/src/pages/ChannelsPage.tsx:139 | After a tracker filter change, the request never names a campaign |
| ChannelsPage.DisplayName | frontend/src/pages/ChannelsPage.tsx:98-99 | The first entity with the id gives its name; otherwise the id's first eight characters are shown |
| ChannelsPage.NamePairs | frontend/src/pages/ChannelsPage.tsx:98-99 | Each tracker or campaign becomes its `(id, name)` pair, in list order |
| ChannelsPage.TrackerDisplayName | frontend/src/pages/ChannelsPage.tsx:98 | A tracker id is shown as the name of the first tracker with that id |
| ChannelsPage.FallbackIsShortPrefix | frontend/src/pages/ChannelsPage.tsx:98-99 | An unnamed id is shown as a prefix of at most eight characters |
| TokenGenerator.SelectTracker | frontend/src/pages/TokenGeneratorPage.tsx:35-50 | Re-selecting the same tracker does nothing. A new non-empty tracker loads its campaigns and targets and clears campaign, channel and target. A set campaign also reloads its channels for the new tracker and clears the channel, even when the tracker is cleared. No other list is loaded: the loads are exactly campaigns and targets (for a non-empty tracker), then channels (for a set campaign) |
| TokenGenerator.SelectCampaign | frontend/src/pages/TokenGeneratorPage.tsx:45-50 | A new non-empty campaign loads its channels and clears the channel; otherwise only the campaign changes |
| TokenGenerator.SelectPlain | frontend/src/pages/TokenGeneratorPage.tsx:98-113 | Choosing a channel, a target or a mode sets that field only and loads nothing |
| TokenGenerator.NewTrackerClearsDependents | frontend/src/pages/TokenGeneratorPage.tsx:35-43 | After a new tracker is chosen, no campaign, channel or target remains selected |
| TokenGenerator.CampaignOptions | frontend/src/pages/TokenGeneratorPage.tsx:52 | Exactly the chosen tracker's campaigns are offered |
| TokenGenerator.ChannelOptions | frontend/src/pages/TokenGeneratorPage.tsx:53 | Exactly the chosen campaign's channels are offered |
| TokenGenerator.TargetOptions | frontend/src/pages/TokenGeneratorPage.tsx:54 | Exactly the chosen tracker's targets are offered |
| TokenGenerator.NothingWithoutTracker | frontend/src/pages/TokenGeneratorPage.tsx:52-54 | With no tracker chosen, no campaign or target is offered |
| TokenGenerator.GenerateParams | frontend/src/pages/TokenGeneratorPage.tsx:59-65 | The generate request carries exactly the five selections |
| TokenGenerator.GenerateRequestDecodes | frontend/src/pages/TokenGeneratorPage.tsx:59-65 | Once the client adds the session token, the request decodes in the server's handler to that token and the form's five selections |

## Left out

- Cryptography and encodings are parameters: RSA-OAEP/AES-GCM decryption, HMAC-SHA-256, SHA-256, hex and base64. Only their use is modelled.
- JSON parsing of raw parameters is a parameter. `Admin.StringField` approximates Go's `json.Unmarshal` into string fields: keys match exactly, although Go also accepts a case-insensitive match. The text of Go's type-mismatch error is not reproduced.
- Database lookups and writes, GeoIP and `GenerateShortCode` randomness are parameters; the repository SQL queries are not modelled.
- The read-only admin handlers (list/delete of trackers, campaigns, channels, targets and sites; channel batch import; the statistics queries) are not modelled; `safeDivide` and the rates in the statistics replies are floating point.
- Redis runs one command at a time in this model; concurrent requests interleaving their INCR/EXPIRE pairs are not modelled.
- KvStore.Incr: the 64-bit overflow of a Redis counter is not modelled.
- AntiReplay.CheckAntiReplay: `time.Duration(seconds) * time.Second` overflow for absurd TTLs is not modelled.
- Text.ToLower (used by `Bot.Score`) folds ASCII letters only; Go's `strings.ToLower` also folds other Unicode letters.
- UaHelper.MapToSortedNameCounts: Go's `sort.Slice` is not stable and map iteration order is random, so the order of equal counts is unspecified; the contract states only what every order shares.
- Track.ClickRecord takes the click's country from the geolocation parameter; the `Click` model's other database-filled fields (id, created time) are not modelled.
- React rendering, effects that only fetch on mount, timers (the 4-second toast expiry is the `Toasts.Remove` it eventually calls), and the module-level counters' persistence across page loads are not modelled.
- Concurrent `rpcCall`s whose responses arrive out of order are not modelled; calls are sequential.
- RpcHooks.Execute: the `common.unknownError` branch is not modelled, because `rpcCall` only throws `Error`s.
- ChannelsPage.UpdateTagRow: an index past the end makes the browser throw; the model returns `None`.
- TokenGenerator.SelectTracker: clearing the tracker while a campaign is selected reloads channels for the empty tracker and the old campaign, as the page does; the model keeps this.
- MiniPie.Render: `maxItems` is an integer; a fractional `maxItems` (JavaScript truncates it in `slice`) is not modelled. Percentages are floating point and are left out.
- JavaScript's special object keys such as `__proto__` in tag rows are not modelled; tags are a plain map.
- Track.Admit: the gate calls the corrected anti-replay check `AntiReplay.CheckAntiReplay` (see Findings), not the wrapping check that internal/rpc/track.go:45 and :126 call. The two differ only when `now - ts` wraps in int64, for example `ts = now - 2^63`: the source admits that request and the model refuses it with 4002. `AntiReplay.AsWrittenAgreesWithoutOverflow` proves they agree on every other input. Track.AdmitSteps, Track.CollectClick and Track.CollectEvents inherit this.
- Utils.Truncate: JavaScript measures and slices strings in UTF-16 code units, but the model counts characters (Unicode scalar values). For text outside the Basic Multilingual Plane the page cuts earlier than the model does, and it can split a surrogate pair. Utils.TruncateDefault and Utils.TruncateIdempotent share this.

## Findings

| source | as written | input that shows it | evidently intended | confidence | as-written member | corrected member |
|---|---|---|---|---|---|---|
| internal/middleware/antireplay.go:14-18 | `diff := now - ts; if diff < 0 { diff = -diff }` in int64: for diff = -2^63, the negation wraps back to -2^63, so `diff > window` is false | `ts = now - 2^63` (e.g. now = 1700000000): the stale timestamp passes the window check (`AntiReplay.StaleTimestampPassesAsWritten`) | a timestamp is accepted only when its distance from now is at most the window | not executed | AntiReplay.CheckAntiReplayAsWritten | AntiReplay.CheckAntiReplay |
