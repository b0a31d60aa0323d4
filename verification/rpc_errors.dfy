/** JSON-RPC error values: the application and protocol codes and their messages. */
module RpcErrors {

  const InvalidToken: int := 4001
  const ExpiredToken: int := 4002
  const RateLimited: int := 4003
  const ReplayDetected: int := 4004
  const DecryptFailed: int := 4005
  const BotBlocked: int := 4006
  const DbError: int := 5001

  const InvalidRequest: int := -32600
  const MethodNotFound: int := -32601
  const InvalidParams: int := -32602
  const InternalError: int := -32603
  const ParseError: int := -32700

  /** The standard message of every known code. */
  const Messages: map<int, string> := map[
    InvalidToken := "invalid_token",
    ExpiredToken := "expired_token",
    RateLimited := "rate_limited",
    ReplayDetected := "replay_detected",
    DecryptFailed := "decrypt_failed",
    BotBlocked := "bot_blocked",
    DbError := "database_error",
    InvalidRequest := "invalid_request",
    MethodNotFound := "method_not_found",
    InvalidParams := "invalid_params",
    InternalError := "internal_error",
    ParseError := "parse_error"]

  const UnknownMessage: string := "unknown_error"

  /** The optional `data` member: absent, or a text such as a method name or a library's error text. */
  datatype ErrorData = NoData | Text(text: string)

  datatype RpcError = RpcError(code: int, message: string, data: ErrorData)

  /** An error with the standard message of its code, or "unknown_error" for a code outside the table. */
  function NewRpcError(code: int, data: ErrorData): (e: RpcError)
    ensures e.code == code && e.data == data
    ensures code in Messages ==> e.message == Messages[code]
    ensures code !in Messages ==> e.message == UnknownMessage
  {
    RpcError(code, if code in Messages then Messages[code] else UnknownMessage, data)
  }

  /** An error with a caller-chosen message and no data. */
  function NewRpcErrorWithMessage(code: int, message: string): (e: RpcError)
    ensures e.code == code && e.message == message && e.data.NoData?
  {
    RpcError(code, message, NoData)
  }

  /** The error's text as Go's `error` interface reports it. */
  function ErrorString(e: RpcError): (s: string)
    ensures s == e.message
  {
    e.message
  }

  /** The message reads "unknown_error" exactly for codes outside the table. */
  lemma UnknownMessageIffUnknownCode(code: int, data: ErrorData)
    ensures NewRpcError(code, data).message == UnknownMessage <==> code !in Messages
  {
    if code in Messages {
      assert Messages[code] != UnknownMessage;
    }
  }

  /** Distinct codes of the table carry distinct messages, so the message identifies the code. */
  lemma MessagesInjective(c1: int, c2: int, data1: ErrorData, data2: ErrorData)
    requires c1 in Messages && c2 in Messages
    requires NewRpcError(c1, data1).message == NewRpcError(c2, data2).message
    ensures c1 == c2
  {
  }
}
