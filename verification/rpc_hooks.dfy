/**
 * The two React hooks over `rpcCall`. `useRpcCall().execute` records the
 * error message and re-throws it; `useRpcList().fetch` swallows every
 * failure and shows an empty list instead. Both end with `loading` false.
 *
 * A hook's state is a value, and one invocation is modelled by the state it
 * sets on entry, the state it leaves when the call settles, and the call
 * itself.
 */
module RpcHooks {
  import opened Wrappers
  import opened Json
  import opened RpcClient

  /** `useRpcCall`'s state. */
  datatype CallState = CallState(loading: bool, error: Option<string>)

  /** `useRpcList`'s state. */
  datatype ListState<T> = ListState(data: seq<T>, loading: bool)

  /** One `execute(params)`: the state while the call runs, the state after it, the call. */
  datatype Execution<T> = Execution(entered: CallState, settled: CallState, step: Step<T>)

  /** One `fetch(params)`: the state while the call runs, the state after it, the call. */
  datatype Fetching<T> = Fetching(entered: ListState<T>, settled: ListState<T>, step: Step<seq<T>>)

  /**
   * The message `execute` records. Every error `rpcCall` can raise is an
   * `Error`, so the message is always the error's own.
   */
  function Message(f: Failure): string {
    match f
    case CallError(_, message, _) => message
    case TransportError(message) => message
  }

  /** `useRpcCall(name).execute(params)`; the promise settles as `step.outcome` does. */
  function Execute<T>(b: Browser, name: string, params: JsonObject, server: Request -> Delivery<T>): (x: Execution<T>)
    ensures x.entered == CallState(true, None)
    ensures !x.settled.loading
    ensures x.step == Call(b, name, params, server)
    ensures x.settled.error.Some? <==> x.step.outcome.Thrown?
    ensures x.step.outcome.Thrown? ==> x.settled.error.value == Message(x.step.outcome.failure)
  {
    var step := Call(b, name, params, server);
    var error := if step.outcome.Thrown? then Some(Message(step.outcome.failure)) else None;
    Execution(CallState(true, None), CallState(false, error), step)
  }

  /** `useRpcList(name).fetch(params)`; its promise always resolves. */
  function Fetch<T>(s: ListState<T>, b: Browser, name: string, params: JsonObject, server: Request -> Delivery<seq<T>>): (x: Fetching<T>)
    ensures x.entered == ListState(s.data, true)
    ensures !x.settled.loading
    ensures x.step == Call(b, name, params, server)
    ensures x.step.outcome.Returned? && x.step.outcome.result.Some? ==> x.settled.data == x.step.outcome.result.value
    ensures x.step.outcome.Returned? && x.step.outcome.result.None? ==> x.settled.data == []
    ensures x.step.outcome.Thrown? ==> x.settled.data == []
  {
    var step := Call(b, name, params, server);
    var data := match step.outcome
      case Returned(result) => result.GetOr([])
      case Thrown(_) => [];
    Fetching(ListState(s.data, true), ListState(data, false), step)
  }

  /**
   * The two hooks differ only in what they surface: for the same call,
   * `execute` re-throws exactly the failures after which `fetch` shows an
   * empty list, and both leave the browser in the same state.
   */
  lemma ThrowVersusSwallow<T>(s: ListState<T>, b: Browser, name: string, params: JsonObject, server: Request -> Delivery<seq<T>>)
    ensures Execute(b, name, params, server).step == Fetch(s, b, name, params, server).step
    ensures Execute(b, name, params, server).settled.error.Some? ==> Fetch(s, b, name, params, server).settled == ListState([], false)
    ensures Fetch(s, b, name, params, server).settled.data != [] ==>
      && Execute(b, name, params, server).settled == CallState(false, None)
      && Execute(b, name, params, server).step.outcome == Returned(Some(Fetch(s, b, name, params, server).settled.data))
  {
  }

  /** `execute` called once per entry of `calls`, each after the previous one settled. */
  function ExecuteAll<T>(s: CallState, b: Browser, calls: seq<(string, JsonObject)>, server: Request -> Delivery<T>): (r: (CallState, Browser))
    ensures |calls| > 0 ==> !r.0.loading
    decreases |calls|
  {
    if |calls| == 0 then (s, b)
    else
      var x := Execute(b, calls[0].0, calls[0].1, server);
      ExecuteAll(x.settled, x.step.browser, calls[1..], server)
  }

  /** `fetch` called once per entry of `calls`, each after the previous one settled. */
  function FetchAll<T>(s: ListState<T>, b: Browser, calls: seq<(string, JsonObject)>, server: Request -> Delivery<seq<T>>): (r: (ListState<T>, Browser))
    ensures |calls| > 0 ==> !r.0.loading
    decreases |calls|
  {
    if |calls| == 0 then (s, b)
    else
      var x := Fetch(s, b, calls[0].0, calls[0].1, server);
      FetchAll(x.settled, x.step.browser, calls[1..], server)
  }

  lemma {:induction false} ExecuteAllSnoc<T>(s: CallState, b: Browser, calls: seq<(string, JsonObject)>, c: (string, JsonObject), server: Request -> Delivery<T>)
    ensures ExecuteAll(s, b, calls + [c], server)
      == var before := ExecuteAll(s, b, calls, server);
         var x := Execute(before.1, c.0, c.1, server);
         (x.settled, x.step.browser)
    decreases |calls|
  {
    if |calls| > 0 {
      var x := Execute(b, calls[0].0, calls[0].1, server);
      assert (calls + [c])[1..] == calls[1..] + [c];
      ExecuteAllSnoc(x.settled, x.step.browser, calls[1..], c, server);
    }
  }

  lemma {:induction false} FetchAllSnoc<T>(s: ListState<T>, b: Browser, calls: seq<(string, JsonObject)>, c: (string, JsonObject), server: Request -> Delivery<seq<T>>)
    ensures FetchAll(s, b, calls + [c], server)
      == var before := FetchAll(s, b, calls, server);
         var x := Fetch(before.0, before.1, c.0, c.1, server);
         (x.settled, x.step.browser)
    decreases |calls|
  {
    if |calls| > 0 {
      var x := Fetch(s, b, calls[0].0, calls[0].1, server);
      assert (calls + [c])[1..] == calls[1..] + [c];
      FetchAllSnoc(x.settled, x.step.browser, calls[1..], c, server);
    }
  }

  /**
   * An error shown by `execute` lasts only until the next call: after any
   * non-empty run of calls, the error is the last call's failure message, or
   * none when the last call succeeded.
   */
  lemma LastExecutionDecidesError<T>(s: CallState, b: Browser, calls: seq<(string, JsonObject)>, server: Request -> Delivery<T>)
    requires |calls| > 0
    ensures
      var before := ExecuteAll(s, b, calls[..|calls| - 1], server).1;
      var last := Call(before, calls[|calls| - 1].0, calls[|calls| - 1].1, server);
      ExecuteAll(s, b, calls, server).0.error
        == if last.outcome.Thrown? then Some(Message(last.outcome.failure)) else None
  {
    var init := calls[..|calls| - 1];
    assert init + [calls[|calls| - 1]] == calls;
    ExecuteAllSnoc(s, b, init, calls[|calls| - 1], server);
  }

  /**
   * `fetch` never shows stale rows: after any non-empty run of calls, the
   * list is exactly what the last call returned, or empty when it failed or
   * returned nothing.
   */
  lemma LastFetchDecidesData<T>(s: ListState<T>, b: Browser, calls: seq<(string, JsonObject)>, server: Request -> Delivery<seq<T>>)
    requires |calls| > 0
    ensures
      var before := FetchAll(s, b, calls[..|calls| - 1], server).1;
      var last := Call(before, calls[|calls| - 1].0, calls[|calls| - 1].1, server);
      FetchAll(s, b, calls, server).0.data
        == if last.outcome.Returned? then last.outcome.result.GetOr([]) else []
  {
    var init := calls[..|calls| - 1];
    assert init + [calls[|calls| - 1]] == calls;
    FetchAllSnoc(s, b, init, calls[|calls| - 1], server);
  }
}
