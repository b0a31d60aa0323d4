/**
 * The admin JSON-RPC handlers: hour-bound session tokens, the `admin_token`
 * check every handler but `admin.login` starts with, and the validation and
 * merge rules of the tracker, campaign and token handlers. HMAC, the short
 * code generator and the database are parameters.
 */
module Admin {
  import opened Wrappers
  import opened Text
  import opened GoInt
  import opened Json
  import opened Config
  import opened RpcErrors
  import opened Models
  import opened Dispatcher

  // ---- parameters ----

  /**
   * A handler's `params` as decoded from JSON: an object (JSON `null`
   * decodes as the empty object), or the decoder's error. A request without
   * `params` hands the handler an empty raw message, whose decoding fails.
   */
  type Params = Decoded<JsonObject>

  /**
   * One string member of a struct the params are decoded into: missing or
   * null leaves the empty string, a string is taken as is, and any other
   * value is a decoding error.
   */
  function StringField(o: JsonObject, key: string): (r: Decoded<string>)
    ensures r.Decoded? <==> key !in o || o[key].JString? || o[key].JNull?
  {
    if key !in o then Decoded("")
    else match o[key]
      case JString(s) => Decoded(s)
      case JNull => Decoded("")
      case _ => DecodeError("json: cannot unmarshal into Go struct field " + key + " of type string")
  }

  /** Decoding the params into a struct of string fields: all fields, or the first field's error. */
  function Fields(params: Params, keys: seq<string>): (r: Decoded<seq<string>>)
    ensures r.Decoded? ==> |r.value| == |keys|
    ensures r.Decoded? <==> params.Decoded? && forall i :: 0 <= i < |keys| ==> StringField(params.value, keys[i]).Decoded?
    ensures r.Decoded? ==> forall i :: 0 <= i < |keys| ==> r.value[i] == StringField(params.value, keys[i]).value
    decreases |keys|
  {
    match params
    case DecodeError(m) => DecodeError(m)
    case Decoded(o) =>
      if |keys| == 0 then Decoded([])
      else match StringField(o, keys[0])
        case DecodeError(m) => DecodeError(m)
        case Decoded(s) =>
          match Fields(params, keys[1..])
          case DecodeError(m) => DecodeError(m)
          case Decoded(rest) => Decoded([s] + rest)
  }

  /** A failed decode, reported the way the handlers report it. */
  function BadParams<T>(message: string): Reply<T> {
    Failure(NewRpcError(InvalidParams, Text(message)))
  }

  // ---- sessions ----

  const SessionSeconds: int := 3600

  /** What the handlers consult: configuration, HMAC-SHA256 as hex text, the clock. */
  datatype Env = Env(cfg: AppConfig, hmacHex: (string, string) -> string, now: int)

  /** The MAC input of a session: the user name and the hour bucket, `"<user>:<unix/3600>"`. */
  function SessionMessage(username: string, now: int): string {
    username + ":" + IntToString(Quot(now, SessionSeconds))
  }

  function SessionToken(e: Env, username: string): string {
    e.hmacHex(e.cfg.security.tokenSecret, SessionMessage(username, e.now))
  }

  /** The token is the one the configured admin would be issued in the current hour. */
  predicate VerifySession(e: Env, token: string) {
    token == SessionToken(e, e.cfg.admin.username)
  }

  /** Two session messages agree exactly when the user and the hour bucket agree. */
  lemma SessionMessageDetermines(u1: string, n1: int, u2: string, n2: int)
    ensures SessionMessage(u1, n1) == SessionMessage(u2, n2)
      <==> u1 == u2 && Quot(n1, SessionSeconds) == Quot(n2, SessionSeconds)
  {
    if SessionMessage(u1, n1) == SessionMessage(u2, n2) {
      ColonIntInjective(u1, Quot(n1, SessionSeconds), u2, Quot(n2, SessionSeconds));
    }
  }

  /**
   * A token issued to `u` at one instant verifies at another exactly when
   * `u` is the configured admin and both instants fall in the same hour,
   * for an HMAC that does not collide on the two messages.
   */
  lemma SessionBoundToUserAndHour(e: Env, u: string, issuedAt: int)
    requires var k := e.cfg.security.tokenSecret;
      var m1 := SessionMessage(u, issuedAt);
      var m2 := SessionMessage(e.cfg.admin.username, e.now);
      e.hmacHex(k, m1) == e.hmacHex(k, m2) ==> m1 == m2
    ensures VerifySession(e, SessionToken(e.(now := issuedAt), u))
      <==> u == e.cfg.admin.username && Quot(issuedAt, SessionSeconds) == Quot(e.now, SessionSeconds)
  {
    SessionMessageDetermines(u, issuedAt, e.cfg.admin.username, e.now);
  }

  /** `requireAuth`: `None` lets the handler proceed. */
  function RequireAuth(e: Env, params: Params): (r: Option<RpcError>)
    ensures r.None? <==>
      && Fields(params, ["admin_token"]).Decoded?
      && Fields(params, ["admin_token"]).value[0] != ""
      && VerifySession(e, Fields(params, ["admin_token"]).value[0])
    ensures r.Some? ==> r.value.code == InvalidToken && r.value.data.NoData?
    ensures r.Some? ==> (r.value.message == "admin_token required" <==>
      Fields(params, ["admin_token"]).DecodeError? || Fields(params, ["admin_token"]).value[0] == "")
  {
    match Fields(params, ["admin_token"])
    case DecodeError(_) => Some(NewRpcErrorWithMessage(InvalidToken, "admin_token required"))
    case Decoded(f) =>
      if f[0] == "" then Some(NewRpcErrorWithMessage(InvalidToken, "admin_token required"))
      else if !VerifySession(e, f[0]) then Some(NewRpcErrorWithMessage(InvalidToken, "invalid admin_token"))
      else None
  }

  /** `admin.login`: the configured credentials buy the current session token. */
  function Login(e: Env, params: Params): (r: Reply<string>)
    ensures r.Success? <==>
      && Fields(params, ["username", "password"]).Decoded?
      && Fields(params, ["username", "password"]).value == [e.cfg.admin.username, e.cfg.admin.password]
    ensures r.Success? ==> VerifySession(e, r.result)
    ensures r.Failure? && Fields(params, ["username", "password"]).Decoded? ==>
      r.error == NewRpcErrorWithMessage(InvalidToken, "invalid credentials")
  {
    match Fields(params, ["username", "password"])
    case DecodeError(m) => BadParams(m)
    case Decoded(f) =>
      if f[0] != e.cfg.admin.username || f[1] != e.cfg.admin.password then
        Failure(NewRpcErrorWithMessage(InvalidToken, "invalid credentials"))
      else Success(SessionToken(e, f[0]))
  }

  /** The token a login returns, sent back as `admin_token` in the same hour, passes `requireAuth`. */
  lemma LoginTokenAuthorizes(e: Env, params: Params, later: int)
    requires Login(e, params).Success?
    requires Quot(later, SessionSeconds) == Quot(e.now, SessionSeconds)
    requires Login(e, params).result != ""
    ensures RequireAuth(e.(now := later), Decoded(map["admin_token" := JString(Login(e, params).result)])).None?
  {
    var t := Login(e, params).result;
    var p: Params := Decoded(map["admin_token" := JString(t)]);
    assert Fields(p, ["admin_token"]).value[0] == t;
    SessionMessageDetermines(e.cfg.admin.username, e.now, e.cfg.admin.username, later);
  }

  // ---- trackers and campaigns ----

  /** What a write to the database does: the id it assigns, or the driver's error. */
  type Write = Decoded<string>

  /** `admin.tracker.create`. */
  function TrackerCreate(e: Env, params: Params, write: Write): (r: Reply<Tracker>)
    ensures RequireAuth(e, params).Some? ==> r == Failure(RequireAuth(e, params).value)
    ensures r.Success? ==>
      && RequireAuth(e, params).None?
      && write.Decoded?
      && var f := Fields(params, ["admin_token", "name", "type"]);
      && f.Decoded?
      && r.result == Tracker(write.value, f.value[2], f.value[1], "302", "active")
    ensures r.Success? ==> r.result.kind == "ad" || r.result.kind == "web"
    ensures RequireAuth(e, params).None? && Fields(params, ["admin_token", "name", "type"]).Decoded? ==>
      var kind := Fields(params, ["admin_token", "name", "type"]).value[2];
      (r == Failure(NewRpcErrorWithMessage(InvalidParams, "type must be 'ad' or 'web'")) <==> kind != "ad" && kind != "web")
    ensures RequireAuth(e, params).None? && Fields(params, ["admin_token", "name", "type"]).DecodeError? ==>
      r == Failure(NewRpcError(InvalidParams, Text(Fields(params, ["admin_token", "name", "type"]).message)))
    ensures RequireAuth(e, params).None? && Fields(params, ["admin_token", "name", "type"]).Decoded? ==>
      var f := Fields(params, ["admin_token", "name", "type"]).value;
      (f[2] == "ad" || f[2] == "web") ==>
        && (write.Decoded? ==> r == Success(Tracker(write.value, f[2], f[1], "302", "active")))
        && (write.DecodeError? ==> r == Failure(NewRpcError(DbError, Text(write.message))))
  {
    match RequireAuth(e, params)
    case Some(err) => Failure(err)
    case None =>
      match Fields(params, ["admin_token", "name", "type"])
      case DecodeError(m) => BadParams(m)
      case Decoded(f) =>
        if f[2] != "ad" && f[2] != "web" then
          Failure(NewRpcErrorWithMessage(InvalidParams, "type must be 'ad' or 'web'"))
        else match write
          case DecodeError(m) => Failure(NewRpcError(DbError, Text(m)))
          case Decoded(id) => Success(Tracker(id, f[2], f[1], "302", "active"))
  }

  /** The partial update of `admin.tracker.update`: empty values keep the stored ones. */
  function MergeTracker(t: Tracker, name: string, status: string): (r: Tracker)
    ensures r.id == t.id && r.kind == t.kind && r.mode == t.mode
    ensures r.name == (if name == "" then t.name else name)
    ensures r.status == (if status == "" then t.status else status)
  {
    t.(name := if name != "" then name else t.name, status := if status != "" then status else t.status)
  }

  /** Applying the same update twice is applying it once. */
  lemma MergeIdempotent(t: Tracker, name: string, status: string)
    ensures MergeTracker(MergeTracker(t, name, status), name, status) == MergeTracker(t, name, status)
  {
  }

  /** An update with neither a name nor a status changes nothing. */
  lemma EmptyUpdateKeepsTracker(t: Tracker)
    ensures MergeTracker(t, "", "") == t
  {
  }

  /** `admin.tracker.update`; `lookup` is the tracker table. */
  function TrackerUpdate(e: Env, params: Params, lookup: string -> Option<Tracker>, writeOk: Decoded<()>): (r: Reply<Tracker>)
    ensures RequireAuth(e, params).Some? ==> r == Failure(RequireAuth(e, params).value)
    ensures r.Success? ==>
      && RequireAuth(e, params).None?
      && writeOk.Decoded?
      && var f := Fields(params, ["admin_token", "id", "name", "status"]);
      && f.Decoded? && lookup(f.value[1]).Some?
      && r.result == MergeTracker(lookup(f.value[1]).value, f.value[2], f.value[3])
    ensures RequireAuth(e, params).None? && Fields(params, ["admin_token", "id", "name", "status"]).Decoded? ==>
      lookup(Fields(params, ["admin_token", "id", "name", "status"]).value[1]).None? ==>
        r == Failure(NewRpcError(DbError, Text("tracker not found")))
    ensures RequireAuth(e, params).None? && Fields(params, ["admin_token", "id", "name", "status"]).Decoded? ==>
      var f := Fields(params, ["admin_token", "id", "name", "status"]).value;
      lookup(f[1]).Some? ==>
        && (writeOk.Decoded? ==> r == Success(MergeTracker(lookup(f[1]).value, f[2], f[3])))
        && (writeOk.DecodeError? ==> r == Failure(NewRpcError(DbError, Text(writeOk.message))))
    ensures RequireAuth(e, params).None? && Fields(params, ["admin_token", "id", "name", "status"]).DecodeError? ==>
      r == Failure(NewRpcError(InvalidParams, Text(Fields(params, ["admin_token", "id", "name", "status"]).message)))
  {
    match RequireAuth(e, params)
    case Some(err) => Failure(err)
    case None =>
      match Fields(params, ["admin_token", "id", "name", "status"])
      case DecodeError(m) => BadParams(m)
      case Decoded(f) =>
        match lookup(f[1])
        case None => Failure(NewRpcError(DbError, Text("tracker not found")))
        case Some(t) =>
          var merged := MergeTracker(t, f[2], f[3]);
          match writeOk
          case DecodeError(m) => Failure(NewRpcError(DbError, Text(m)))
          case Decoded(_) => Success(merged)
  }

  /** `admin.campaign.create`: only an existing tracker of type "ad" takes campaigns. */
  function CampaignCreate(e: Env, params: Params, lookup: string -> Option<Tracker>, write: Write): (r: Reply<Campaign>)
    ensures RequireAuth(e, params).Some? ==> r == Failure(RequireAuth(e, params).value)
    ensures r.Success? ==>
      && RequireAuth(e, params).None?
      && write.Decoded?
      && var f := Fields(params, ["admin_token", "tracker_id", "name"]);
      && f.Decoded?
      && lookup(f.value[1]).Some? && lookup(f.value[1]).value.kind == "ad"
      && r.result == Campaign(write.value, f.value[1], f.value[2], "active")
    ensures RequireAuth(e, params).None? && Fields(params, ["admin_token", "tracker_id", "name"]).Decoded? ==>
      var f := Fields(params, ["admin_token", "tracker_id", "name"]).value;
      var t := lookup(f[1]);
      && (t.None? <==> r == Failure(NewRpcErrorWithMessage(InvalidParams, "tracker not found")))
      && (t.Some? && t.value.kind != "ad" <==>
            r == Failure(NewRpcErrorWithMessage(InvalidParams, "campaigns require tracker type 'ad'")))
      && (t.Some? && t.value.kind == "ad" && write.Decoded? ==> r == Success(Campaign(write.value, f[1], f[2], "active")))
      && (t.Some? && t.value.kind == "ad" && write.DecodeError? ==> r == Failure(NewRpcError(DbError, Text(write.message))))
    ensures RequireAuth(e, params).None? && Fields(params, ["admin_token", "tracker_id", "name"]).DecodeError? ==>
      r == Failure(NewRpcError(InvalidParams, Text(Fields(params, ["admin_token", "tracker_id", "name"]).message)))
  {
    match RequireAuth(e, params)
    case Some(err) => Failure(err)
    case None =>
      match Fields(params, ["admin_token", "tracker_id", "name"])
      case DecodeError(m) => BadParams(m)
      case Decoded(f) =>
        match lookup(f[1])
        case None => Failure(NewRpcErrorWithMessage(InvalidParams, "tracker not found"))
        case Some(t) =>
          if t.kind != "ad" then Failure(NewRpcErrorWithMessage(InvalidParams, "campaigns require tracker type 'ad'"))
          else match write
            case DecodeError(m) => Failure(NewRpcError(DbError, Text(m)))
            case Decoded(id) => Success(Campaign(id, f[1], f[2], "active"))
  }

  /**
   * A tracker created by `admin.tracker.create` and found again by its id
   * takes campaigns exactly when it was created with type "ad"; the campaign
   * is filed under that id.
   */
  lemma CampaignUnderCreatedTracker(e: Env, created: Params, w1: Write, params: Params,
                                    lookup: string -> Option<Tracker>, w2: Write)
    requires TrackerCreate(e, created, w1).Success?
    requires lookup(TrackerCreate(e, created, w1).result.id) == Some(TrackerCreate(e, created, w1).result)
    requires RequireAuth(e, params).None? && Fields(params, ["admin_token", "tracker_id", "name"]).Decoded?
    requires Fields(params, ["admin_token", "tracker_id", "name"]).value[1] == TrackerCreate(e, created, w1).result.id
    requires w2.Decoded?
    ensures CampaignCreate(e, params, lookup, w2).Success?
      <==> Fields(created, ["admin_token", "name", "type"]).value[2] == "ad"
    ensures CampaignCreate(e, params, lookup, w2).Success? ==>
      CampaignCreate(e, params, lookup, w2).result.trackerId == TrackerCreate(e, created, w1).result.id
  {
    var t := TrackerCreate(e, created, w1).result;
    assert t.kind == Fields(created, ["admin_token", "name", "type"]).value[2];
  }

  // ---- tokens ----

  const DefaultMode: string := "302"
  const MaxShortCodeAttempts: nat := 10

  /** The redirect path letter: "t" for the JS mode, "r" otherwise. */
  function ModePrefix(mode: string): (p: string)
    ensures p == "t" <==> mode == "js"
    ensures p == "t" || p == "r"
  {
    if mode == "js" then "t" else "r"
  }

  /** `<ExportURL>/<t|r>/<short code>`. */
  function TrackingUrl(exportUrl: string, mode: string, shortCode: string): (u: string)
    ensures |u| == |exportUrl| + |shortCode| + 3
    ensures IsPrefix(exportUrl, u)
    ensures u[|exportUrl|..|exportUrl| + 3] == "/" + ModePrefix(mode) + "/"
    ensures u[|exportUrl| + 3..] == shortCode
  {
    exportUrl + "/" + ModePrefix(mode) + "/" + shortCode
  }

  /**
   * Tracking URLs under one export URL tell their tokens apart: the short
   * code and the redirect kind can be read back.
   */
  lemma TrackingUrlInjective(exportUrl: string, m1: string, c1: string, m2: string, c2: string)
    requires TrackingUrl(exportUrl, m1, c1) == TrackingUrl(exportUrl, m2, c2)
    ensures c1 == c2 && ModePrefix(m1) == ModePrefix(m2)
  {
    var u := TrackingUrl(exportUrl, m1, c1);
    assert u[|exportUrl| + 1] == ModePrefix(m1)[0] == ModePrefix(m2)[0];
  }

  /** A token as `admin.token.generate` and `admin.token.list` return it. */
  datatype TokenView = TokenView(token: Token, trackingUrl: string)

  function View(exportUrl: string, t: Token): (v: TokenView)
    ensures v.token == t
    ensures v.trackingUrl == TrackingUrl(exportUrl, t.mode, t.shortCode)
  {
    TokenView(t, exportUrl + "/" + ModePrefix(t.mode) + "/" + t.shortCode)
  }

  /** The outcome of the short-code search. */
  datatype Pick = Picked(code: string, attempt: nat) | LookupFailed(message: string, attempt: nat) | Exhausted

  /**
   * The retry loop of `admin.token.generate`: try the generator's codes in
   * turn, at most ten, and take the first one not already in use. `inUse`
   * answers the uniqueness query, or fails with the driver's error.
   */
  method PickShortCode(candidate: nat -> string, inUse: string -> Decoded<bool>) returns (r: Pick)
    ensures r.Picked? ==>
      && r.attempt < MaxShortCodeAttempts
      && r.code == candidate(r.attempt)
      && inUse(r.code) == Decoded(false)
    ensures r.LookupFailed? ==>
      && r.attempt < MaxShortCodeAttempts
      && inUse(candidate(r.attempt)) == DecodeError(r.message)
    ensures !r.Exhausted? ==> forall j :: 0 <= j < r.attempt ==> inUse(candidate(j)) == Decoded(true)
    ensures r.Exhausted? <==> forall j :: 0 <= j < MaxShortCodeAttempts ==> inUse(candidate(j)) == Decoded(true)
  {
    var i: nat := 0;
    while i < MaxShortCodeAttempts
      invariant i <= MaxShortCodeAttempts
      invariant forall j :: 0 <= j < i ==> inUse(candidate(j)) == Decoded(true)
    {
      var c := candidate(i);
      match inUse(c)
      case DecodeError(m) =>
        return LookupFailed(m, i);
      case Decoded(taken) =>
        if !taken {
          return Picked(c, i);
        }
      i := i + 1;
    }
    return Exhausted;
  }

  /** The token fields of `admin.token.generate`, in decoding order after `admin_token`. */
  const GenerateKeys: seq<string> := ["admin_token", "tracker_id", "campaign_id", "channel_id", "target_id", "mode"]

  /** An empty mode means the default "302". */
  function EffectiveMode(mode: string): (m: string)
    ensures m != ""
    ensures mode != "" ==> m == mode
  {
    if mode == "" then DefaultMode else mode
  }

  /** Attempt `i` is the first of the ten whose code the uniqueness query reports free. */
  predicate FirstFree(candidate: nat -> string, inUse: string -> Decoded<bool>, i: nat) {
    && i < MaxShortCodeAttempts
    && inUse(candidate(i)) == Decoded(false)
    && forall j :: 0 <= j < i ==> inUse(candidate(j)) == Decoded(true)
  }

  /** Attempt `i` is the first of the ten whose uniqueness query fails. */
  predicate FirstLookupError(candidate: nat -> string, inUse: string -> Decoded<bool>, i: nat) {
    && i < MaxShortCodeAttempts
    && inUse(candidate(i)).DecodeError?
    && forall j :: 0 <= j < i ==> inUse(candidate(j)) == Decoded(true)
  }

  /** The token stored for short code `code` and the decoded fields `f`. */
  function NewToken(id: string, code: string, f: seq<string>): (t: Token)
    requires |f| == |GenerateKeys|
    ensures t.id == id && t.shortCode == code
    ensures t.trackerId == f[1] && t.campaignId == f[2] && t.channelId == f[3] && t.targetId == f[4]
    ensures t.mode == EffectiveMode(f[5])
  {
    Token(id, code, f[1], f[2], f[3], f[4], EffectiveMode(f[5]))
  }

  /**
   * `v` is what `admin.token.generate` returns for a stored token: the one
   * built from the first free, non-empty candidate code and the decoded fields.
   */
  ghost predicate Issued(exportUrl: string, f: seq<string>, candidate: nat -> string,
                         inUse: string -> Decoded<bool>, write: Write, v: TokenView)
    requires |f| == |GenerateKeys|
  {
    && write.Decoded?
    && exists i :: FirstFree(candidate, inUse, i) && candidate(i) != ""
         && v == View(exportUrl, NewToken(write.value, candidate(i), f))
  }

  /**
   * The reply of `admin.token.generate` once the request is decoded, by how
   * the ten attempts went: the first free code is stored, or the write's
   * error is reported as 5001; an empty code, or ten taken codes, give
   * -32603; a failed uniqueness query before any free code gives 5001 with
   * the driver's text.
   */
  ghost predicate IssueReply(exportUrl: string, f: seq<string>, candidate: nat -> string,
                       inUse: string -> Decoded<bool>, write: Write, r: Reply<TokenView>)
    requires |f| == |GenerateKeys|
  {
    && (r.Success? ==> Issued(exportUrl, f, candidate, inUse, write, r.result))
    && (forall i :: FirstFree(candidate, inUse, i) && candidate(i) != "" ==>
          && (write.Decoded? ==> r == Success(View(exportUrl, NewToken(write.value, candidate(i), f))))
          && (write.DecodeError? ==> r == Failure(NewRpcError(DbError, Text(write.message)))))
    && (forall i :: FirstFree(candidate, inUse, i) && candidate(i) == "" ==>
          r == Failure(NewRpcErrorWithMessage(InternalError, "failed to generate unique short code")))
    && (forall i :: FirstLookupError(candidate, inUse, i) ==>
          r == Failure(NewRpcError(DbError, Text(inUse(candidate(i)).message))))
    && ((forall j :: 0 <= j < MaxShortCodeAttempts ==> inUse(candidate(j)) == Decoded(true)) ==>
          r == Failure(NewRpcErrorWithMessage(InternalError, "failed to generate unique short code")))
  }

  /**
   * The part of `admin.token.generate` after decoding: search for an unused
   * short code, then store the token with the decoded fields.
   */
  method IssueToken(exportUrl: string, f: seq<string>, candidate: nat -> string, inUse: string -> Decoded<bool>, write: Write)
    returns (r: Reply<TokenView>)
    requires |f| == |GenerateKeys|
    ensures IssueReply(exportUrl, f, candidate, inUse, write, r)
    ensures r.Success? ==> inUse(r.result.token.shortCode) == Decoded(false)
  {
    var mode := EffectiveMode(f[5]);
    var pick := PickShortCode(candidate, inUse);
    match pick
    case LookupFailed(m, i) =>
      assert FirstLookupError(candidate, inUse, i);
      FirstAttemptUnique(candidate, inUse, i);
      return Failure(NewRpcError(DbError, Text(m)));
    case Exhausted =>
      return Failure(NewRpcErrorWithMessage(InternalError, "failed to generate unique short code"));
    case Picked(code, i) =>
      assert FirstFree(candidate, inUse, i);
      FirstAttemptUnique(candidate, inUse, i);
      if code == "" {
        return Failure(NewRpcErrorWithMessage(InternalError, "failed to generate unique short code"));
      }
      match write
      case DecodeError(m) =>
        return Failure(NewRpcError(DbError, Text(m)));
      case Decoded(id) =>
        assert NewToken(id, code, f) == Token(id, code, f[1], f[2], f[3], f[4], mode);
        return Success(View(exportUrl, NewToken(id, code, f)));
  }

  /**
   * The search stops at one attempt: the first attempt not reported taken
   * is either free or failed, never both, and no other attempt is first.
   */
  lemma FirstAttemptUnique(candidate: nat -> string, inUse: string -> Decoded<bool>, i: nat)
    requires FirstFree(candidate, inUse, i) || FirstLookupError(candidate, inUse, i)
    ensures forall k :: FirstFree(candidate, inUse, k) ==> k == i
    ensures forall k :: FirstLookupError(candidate, inUse, k) ==> k == i
    ensures !forall j :: 0 <= j < MaxShortCodeAttempts ==> inUse(candidate(j)) == Decoded(true)
  {
    assert inUse(candidate(i)) != Decoded(true);
  }

  /**
   * `admin.token.generate`. The short code search only runs for a request
   * that passed authentication and decoding; `write` stores the token.
   */
  method TokenGenerate(e: Env, params: Params, candidate: nat -> string, inUse: string -> Decoded<bool>, write: Write)
    returns (r: Reply<TokenView>)
    ensures RequireAuth(e, params).Some? ==> r == Failure(RequireAuth(e, params).value)
    ensures RequireAuth(e, params).None? && Fields(params, GenerateKeys).DecodeError? ==>
      r == Failure(NewRpcError(InvalidParams, Text(Fields(params, GenerateKeys).message)))
    ensures RequireAuth(e, params).None? && Fields(params, GenerateKeys).Decoded? ==>
      IssueReply(e.cfg.service.exportUrl, Fields(params, GenerateKeys).value, candidate, inUse, write, r)
    ensures r.Success? ==>
      && RequireAuth(e, params).None?
      && Fields(params, GenerateKeys).Decoded?
      && inUse(r.result.token.shortCode) == Decoded(false)
  {
    var auth := RequireAuth(e, params);
    if auth.Some? {
      return Failure(auth.value);
    }
    var fields := Fields(params, GenerateKeys);
    if fields.DecodeError? {
      return BadParams(fields.message);
    }
    r := IssueToken(e.cfg.service.exportUrl, fields.value, candidate, inUse, write);
  }

  /**
   * `admin.token.list`. A params decoding error is ignored and lists with
   * an empty tracker filter; `tokensFor` is the repository query.
   */
  function TokenList(e: Env, params: Params, tokensFor: string -> Decoded<seq<Token>>): (r: Reply<seq<TokenView>>)
    ensures RequireAuth(e, params).Some? ==> r == Failure(RequireAuth(e, params).value)
    ensures r.Success? ==>
      var filter := if Fields(params, ["tracker_id"]).Decoded? then Fields(params, ["tracker_id"]).value[0] else "";
      && tokensFor(filter).Decoded?
      && |r.result| == |tokensFor(filter).value|
      && forall i :: 0 <= i < |r.result| ==> r.result[i] == View(e.cfg.service.exportUrl, tokensFor(filter).value[i])
    ensures RequireAuth(e, params).None? ==>
      var filter := if Fields(params, ["tracker_id"]).Decoded? then Fields(params, ["tracker_id"]).value[0] else "";
      && (tokensFor(filter).Decoded? ==> r.Success?)
      && (tokensFor(filter).DecodeError? ==> r == Failure(NewRpcError(DbError, Text(tokensFor(filter).message))))
  {
    match RequireAuth(e, params)
    case Some(err) => Failure(err)
    case None =>
      var filter := match Fields(params, ["tracker_id"]) case Decoded(f) => f[0] case DecodeError(_) => "";
      match tokensFor(filter)
      case DecodeError(m) => Failure(NewRpcError(DbError, Text(m)))
      case Decoded(ts) => Success(seq(|ts|, i requires 0 <= i < |ts| => View(e.cfg.service.exportUrl, ts[i])))
  }

  /**
   * A token `admin.token.generate` returned shows up in `admin.token.list`
   * as it was returned: same fields and the same tracking URL.
   */
  lemma ListedTokenKeepsUrl(e: Env, f: seq<string>, candidate: nat -> string, inUse: string -> Decoded<bool>,
                            write: Write, generated: TokenView,
                            params: Params, tokensFor: string -> Decoded<seq<Token>>, k: nat)
    requires |f| == |GenerateKeys|
    requires Issued(e.cfg.service.exportUrl, f, candidate, inUse, write, generated)
    requires TokenList(e, params, tokensFor).Success?
    requires k < |TokenList(e, params, tokensFor).result|
    requires TokenList(e, params, tokensFor).result[k].token == generated.token
    ensures TokenList(e, params, tokensFor).result[k] == generated
    ensures TokenList(e, params, tokensFor).result[k].trackingUrl
      == TrackingUrl(e.cfg.service.exportUrl, EffectiveMode(f[5]), generated.token.shortCode)
  {
    var i :| FirstFree(candidate, inUse, i) && candidate(i) != ""
      && generated == View(e.cfg.service.exportUrl, NewToken(write.value, candidate(i), f));
    var listed := TokenList(e, params, tokensFor).result[k];
    assert listed == View(e.cfg.service.exportUrl, listed.token);
  }
}
