/**
 * The JSON-RPC 2.0 dispatcher: method registration and the fixed order of
 * checks (parse, version, lookup) before a handler runs. Handlers are
 * identified by values of `H` and run through `run`; parameters, ids and
 * results are opaque.
 */
module Dispatcher {
  import opened Wrappers
  import opened RpcErrors

  /** A decoded request; an `id` of `None` is JSON null or a missing id. */
  datatype Request<P, I> = Request(jsonrpc: string, name: string, params: P, id: Option<I>)

  /** The request body: either not decodable (with the decoder's error text) or a request. */
  datatype Body<P, I> = Malformed(reason: string) | Parsed(req: Request<P, I>)

  /** What a handler returns: a result, or an error. */
  datatype Reply<R> = Success(result: R) | Failure(error: RpcError)

  datatype Response<R, I> = Response(jsonrpc: string, result: Option<R>, error: Option<RpcError>, id: Option<I>)

  type Registry<H> = map<string, H>

  /** The response, and the handler run with its parameters, if one ran. */
  datatype Dispatch<H, P, R, I> = Dispatch(response: Response<R, I>, invoked: Option<(H, P)>)

  const Version: string := "2.0"

  function Register<H>(d: Registry<H>, name: string, handler: H): (r: Registry<H>)
    ensures r.Keys == d.Keys + {name}
    ensures r[name] == handler
    ensures forall m :: m in d && m != name ==> r[m] == d[m]
  {
    d[name := handler]
  }

  /** Handles one request body. */
  function Handle<H, P, I, R>(d: Registry<H>, body: Body<P, I>, run: (H, P) -> Reply<R>): (o: Dispatch<H, P, R, I>)
    ensures o.response.jsonrpc == Version
    ensures o.response.result.Some? <==> o.response.error.None?
    ensures body.Malformed? ==>
      o.response.error == Some(NewRpcError(ParseError, Text(body.reason))) && o.response.id.None?
    ensures body.Parsed? ==> o.response.id == body.req.id
    ensures body.Parsed? && body.req.jsonrpc != Version ==>
      o.response.error == Some(NewRpcError(InvalidRequest, Text("jsonrpc must be 2.0")))
    ensures body.Parsed? && body.req.jsonrpc == Version && body.req.name !in d ==>
      o.response.error == Some(NewRpcError(MethodNotFound, Text(body.req.name)))
    ensures o.invoked.Some? <==> body.Parsed? && body.req.jsonrpc == Version && body.req.name in d
    ensures o.invoked.Some? ==> o.invoked.value == (d[body.req.name], body.req.params)
    ensures o.invoked.Some? ==> match run(o.invoked.value.0, o.invoked.value.1)
      case Success(v) => o.response.result == Some(v)
      case Failure(e) => o.response.error == Some(e)
  {
    match body
    case Malformed(reason) =>
      Dispatch(Response(Version, None, Some(NewRpcError(ParseError, Text(reason))), None), None)
    case Parsed(req) =>
      if req.jsonrpc != Version then
        Dispatch(Response(Version, None, Some(NewRpcError(InvalidRequest, Text("jsonrpc must be 2.0"))), req.id), None)
      else if req.name !in d then
        Dispatch(Response(Version, None, Some(NewRpcError(MethodNotFound, Text(req.name))), req.id), None)
      else
        var h := d[req.name];
        match run(h, req.params)
        case Success(v) => Dispatch(Response(Version, Some(v), None, req.id), Some((h, req.params)))
        case Failure(e) => Dispatch(Response(Version, None, Some(e), req.id), Some((h, req.params)))
  }

  /** A registered method runs its handler on the request's parameters. */
  lemma RegisteredHandlerRuns<H, P, I, R>(d: Registry<H>, m: string, h: H, p: P, id: Option<I>, run: (H, P) -> Reply<R>)
    ensures Handle(Register(d, m, h), Parsed(Request(Version, m, p, id)), run).invoked == Some((h, p))
  {
  }

  /** Registering a method again replaces the earlier handler. */
  lemma LaterRegistrationWins<H>(d: Registry<H>, m: string, h1: H, h2: H)
    ensures Register(Register(d, m, h1), m, h2) == Register(d, m, h2)
  {
  }

  /**
   * The version check comes before the method lookup: a wrong version gets
   * the same response whatever is registered.
   */
  lemma VersionCheckedFirst<H, P, I, R>(d1: Registry<H>, d2: Registry<H>, req: Request<P, I>, run: (H, P) -> Reply<R>)
    requires req.jsonrpc != Version
    ensures Handle(d1, Parsed(req), run) == Handle(d2, Parsed(req), run)
  {
  }
}
