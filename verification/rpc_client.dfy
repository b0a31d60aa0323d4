/**
 * The admin console's JSON-RPC client (`rpcCall`): it attaches the stored
 * session token to every call except the login call, numbers requests, and
 * turns an error envelope into a thrown error, logging the user out on the
 * two authentication error codes.
 *
 * The browser is a value: its local storage, its location and the module's
 * request counter. The server is a function from request to delivery.
 */
module RpcClient {
  import opened Wrappers
  import opened Json

  /** The local-storage key that holds the session token. */
  const TokenStorageKey := "admin_token"
  /** The request parameter that carries the session token. */
  const TokenParam := "admin_token"
  const LoginMethod := "admin.login"
  const LoginPath := "/login"

  /** The two error codes after which the client forgets its session. */
  const TokenMissingCode := 4001
  const TokenInvalidCode := 4002

  /** What `rpcCall` reads and writes outside its arguments. */
  datatype Browser = Browser(storage: map<string, string>, location: string, lastId: int)

  /** A freshly loaded page: no request has been numbered yet. */
  function Loaded(storage: map<string, string>, location: string): Browser {
    Browser(storage, location, 0)
  }

  /** The request body that goes over the wire (`jsonrpc` is always "2.0"). */
  datatype Request = Request(name: string, params: JsonObject, id: int)

  /** The `error` member of a response envelope; `data` is optional. */
  datatype WireError = WireError(code: int, message: string, data: Option<JsonValue>)

  /** A response envelope; an absent or null `result` is `None`. */
  datatype Response<T> = Response(result: Option<T>, error: Option<WireError>)

  /** What the transport yields: a parsed envelope, or the error `fetch`/`json()` raised. */
  datatype Delivery<T> = Delivered(response: Response<T>) | Undelivered(reason: string)

  /** What the caller can catch: an `RPCCallError`, or the transport's own error. */
  datatype Failure =
    | CallError(code: int, message: string, data: Option<JsonValue>)
    | TransportError(message: string)

  /** How the returned promise settles. */
  datatype Outcome<T> = Returned(result: Option<T>) | Thrown(failure: Failure)

  /** One completed call: the request that was sent, how it settled, and the browser afterwards. */
  datatype Step<T> = Step(request: Request, outcome: Outcome<T>, browser: Browser)

  /** The stored token, as `localStorage.getItem` returns it. */
  function StoredToken(b: Browser): (t: Option<string>)
    ensures t.Some? <==> TokenStorageKey in b.storage
    ensures t.Some? ==> t.value == b.storage[TokenStorageKey]
  {
    if TokenStorageKey in b.storage then Some(b.storage[TokenStorageKey]) else None
  }

  /** JavaScript truthiness of a nullable string: present and non-empty. */
  predicate Truthy(s: Option<string>) {
    s.Some? && s.value != ""
  }

  /** Whether the stored token is attached to a call of `name`. */
  predicate Attaches(token: Option<string>, name: string) {
    Truthy(token) && name != LoginMethod
  }

  /**
   * The parameters actually sent: the caller's, with the stored token
   * written over any `admin_token` the caller supplied.
   */
  function WithToken(token: Option<string>, name: string, params: JsonObject): (p: JsonObject)
    ensures TokenParam in p <==> Attaches(token, name) || TokenParam in params
    ensures Attaches(token, name) ==> p[TokenParam] == JString(token.value)
    ensures !Attaches(token, name) ==> p == params
    ensures forall k :: k in params && k != TokenParam ==> k in p && p[k] == params[k]
    ensures forall k :: k in p && k != TokenParam ==> k in params
  {
    if Attaches(token, name) then params[TokenParam := JString(token.value)] else params
  }

  /** Builds the request: reads the token, then takes the next id. */
  function Send(b: Browser, name: string, params: JsonObject): (s: (Request, Browser))
    ensures s.0.id == b.lastId + 1 && s.1.lastId == s.0.id
    ensures s.0.name == name
    ensures s.0.params == WithToken(StoredToken(b), name, params)
    ensures s.1.storage == b.storage && s.1.location == b.location
  {
    var id := b.lastId + 1;
    (Request(name, WithToken(StoredToken(b), name, params), id), b.(lastId := id))
  }

  /** Whether an error code ends the session. */
  predicate EndsSession(code: int) {
    code == TokenMissingCode || code == TokenInvalidCode
  }

  /** Settles the call from what the transport delivered. */
  function Receive<T>(b: Browser, d: Delivery<T>): (s: (Outcome<T>, Browser))
    ensures s.1.lastId == b.lastId
    ensures d.Undelivered? ==> s == (Thrown(TransportError(d.reason)), b)
    ensures d.Delivered? && d.response.error.None? ==> s == (Returned(d.response.result), b)
    ensures d.Delivered? && d.response.error.Some? ==>
      && var e := d.response.error.value;
      && s.0 == Thrown(CallError(e.code, e.message, e.data))
      && (EndsSession(e.code) ==> s.1.storage == b.storage - {TokenStorageKey} && s.1.location == LoginPath)
      && (!EndsSession(e.code) ==> s.1 == b)
  {
    match d
    case Undelivered(reason) => (Thrown(TransportError(reason)), b)
    case Delivered(resp) =>
      match resp.error
      case None => (Returned(resp.result), b)
      case Some(e) =>
        var after := if EndsSession(e.code)
          then b.(storage := b.storage - {TokenStorageKey}, location := LoginPath)
          else b;
        (Thrown(CallError(e.code, e.message, e.data)), after)
  }

  /** `rpcCall(name, params)` against a server. */
  function Call<T>(b: Browser, name: string, params: JsonObject, server: Request -> Delivery<T>): (s: Step<T>)
    ensures s.request == Send(b, name, params).0
    ensures (s.outcome, s.browser) == Receive(Send(b, name, params).1, server(s.request))
  {
    var (req, sent) := Send(b, name, params);
    var (outcome, after) := Receive(sent, server(req));
    Step(req, outcome, after)
  }

  /**
   * After a call ends the session, the next call carries no token of its own:
   * its parameters are exactly what its caller passed.
   */
  lemma {:induction false} NoTokenAfterSessionEnds<T, U>(
    b: Browser, name: string, params: JsonObject, server: Request -> Delivery<T>,
    name2: string, params2: JsonObject, server2: Request -> Delivery<U>)
    requires Call(b, name, params, server).outcome.Thrown?
    requires Call(b, name, params, server).outcome.failure.CallError?
    requires EndsSession(Call(b, name, params, server).outcome.failure.code)
    ensures Call(Call(b, name, params, server).browser, name2, params2, server2).request.params == params2
  {
    var s := Call(b, name, params, server);
    var d := server(s.request);
    assert d.Delivered? && d.response.error.Some?;
    assert TokenStorageKey !in s.browser.storage;
  }

  /** The requests of calls made one after another against the same server, and the browser afterwards. */
  function Session<T>(b: Browser, calls: seq<(string, JsonObject)>, server: Request -> Delivery<T>): (r: (seq<Request>, Browser))
    ensures |r.0| == |calls|
    decreases |calls|
  {
    if |calls| == 0 then ([], b)
    else
      var s := Call(b, calls[0].0, calls[0].1, server);
      var rest := Session(s.browser, calls[1..], server);
      ([s.request] + rest.0, rest.1)
  }

  /** Calls made in sequence are numbered consecutively after the counter's value. */
  lemma {:induction false} SessionIds<T>(b: Browser, calls: seq<(string, JsonObject)>, server: Request -> Delivery<T>)
    ensures forall i :: 0 <= i < |calls| ==> Session(b, calls, server).0[i].id == b.lastId + i + 1
    ensures Session(b, calls, server).1.lastId == b.lastId + |calls|
    decreases |calls|
  {
    if |calls| > 0 {
      var s := Call(b, calls[0].0, calls[0].1, server);
      SessionIds(s.browser, calls[1..], server);
      var reqs := Session(b, calls, server).0;
      forall i | 0 <= i < |calls|
        ensures reqs[i].id == b.lastId + i + 1
      {
        if i > 0 {
          assert reqs[i] == Session(s.browser, calls[1..], server).0[i - 1];
        }
      }
    }
  }

  /** On a freshly loaded page the ids are 1, 2, 3, ..., so they strictly increase. */
  lemma IdsFromOne<T>(storage: map<string, string>, location: string, calls: seq<(string, JsonObject)>, server: Request -> Delivery<T>)
    ensures forall i :: 0 <= i < |calls| ==> Session(Loaded(storage, location), calls, server).0[i].id == i + 1
    ensures forall i, j :: 0 <= i < j < |calls| ==>
      Session(Loaded(storage, location), calls, server).0[i].id < Session(Loaded(storage, location), calls, server).0[j].id
  {
    SessionIds(Loaded(storage, location), calls, server);
  }
}
