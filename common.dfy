/**
 * What every tool of the three MCP servers shares: the MCP error codes, the
 * exceptions a tool can end with, the process environment, the three-part
 * tool result (human text, structured content, meta), and the HTTP exchange
 * with an upstream API, taken as a request the tool builds and a reply it is given.
 */
module Common {
  import opened Wrappers
  import opened JsonValues
  import opened Strings
  import Base64

  /** JSON-RPC "invalid params": a missing argument or configuration. */
  const InvalidParams: int := -32602
  /** JSON-RPC "internal error": anything that failed while doing the work. */
  const InternalError: int := -32603

  datatype Error =
    | McpError(code: int, message: string)
      /** `httpx.HTTPStatusError` raised by `raise_for_status()` for a non-2xx status. */
    | HttpStatusError(status: int)
      /** `ArbitrApiError(message, status_code, error_code)` of the arbitration client. */
    | ArbitrApiError(message: string, statusCode: Option<int>, errorCode: Json)
      /** Any other Python exception, by class name and `str()`. */
    | Raised(kind: string, message: string)

  /**
   * `str(e)`: the message of the exception. For an HTTP status error the
   * model keeps only the status, not httpx's wording with the URL.
   */
  function ExceptionText(e: Error): string {
    match e
    case McpError(_, message) => message
    case HttpStatusError(status) => "HTTP status " + IntToString(status)
    case ArbitrApiError(message, _, _) => message
    case Raised(_, message) => message
  }

  datatype Result<T> = Ok(value: T) | Err(error: Error) {
    predicate IsFailure() { Err? }
    function PropagateFailure<U>(): Result<U>
      requires Err?
    {
      Err(error)
    }
    function Extract(): T
      requires Ok?
    {
      value
    }
  }

  /** The process environment (`os.environ`). */
  type Env = map<string, string>

  /** `os.getenv(name, default)` */
  function GetEnv(env: Env, name: string, default: string): string {
    if name in env then env[name] else default
  }

  /** `bool(os.getenv(name))`: the variable is set and not empty. */
  predicate EnvSet(env: Env, name: string) {
    name in env && env[name] != ""
  }

  /** What a tool hands back: `ToolResult(content=[TextContent(text)], structured_content, meta)`. */
  datatype ToolResult = ToolResult(text: string, structured: Json, meta: Json)

  datatype Verb = GET | POST

  /** One HTTP call: method, URL, headers, query parameters in insertion order, JSON payload, timeout in seconds. */
  datatype Request = Request(verb: Verb, url: string, headers: seq<(string, string)>,
                             params: seq<(string, Json)>, payload: Option<Json>, timeout: real)

  /**
   * What the upstream API answered: a status with the decoded JSON body
   * (`None` when the body is not JSON) and the raw bytes; or a transport
   * failure (timeout, connection refused).
   */
  datatype Reply =
    | Response(status: int, body: Option<Json>, content: seq<Base64.byte>)
    | TransportFailure(reason: string)

  /** `httpx.Response.is_success` */
  predicate IsSuccess(status: int) {
    200 <= status <= 299
  }

  function TransportError(reason: string): Error {
    Raised("httpx.TransportError", reason)
  }

  function DecodeError(): Error {
    Raised("json.JSONDecodeError", "Expecting value: line 1 column 1 (char 0)")
  }

  /** `response.raise_for_status(); response.json()` */
  function JsonBody(reply: Reply): (r: Result<Json>)
    ensures r.Ok? <==> reply.Response? && IsSuccess(reply.status) && reply.body.Some?
    ensures r.Ok? ==> r.value == reply.body.value
    ensures reply.Response? && !IsSuccess(reply.status) ==> r == Err(HttpStatusError(reply.status))
  {
    match reply
    case TransportFailure(reason) => Err(TransportError(reason))
    case Response(status, body, _) =>
      if !IsSuccess(status) then Err(HttpStatusError(status))
      else if body.None? then Err(DecodeError())
      else Ok(body.value)
  }

  /** `response.raise_for_status(); response.content` */
  function ContentBody(reply: Reply): (r: Result<seq<Base64.byte>>)
    ensures r.Ok? <==> reply.Response? && IsSuccess(reply.status)
    ensures r.Ok? ==> r.value == reply.content
    ensures reply.Response? && !IsSuccess(reply.status) ==> r == Err(HttpStatusError(reply.status))
  {
    match reply
    case TransportFailure(reason) => Err(TransportError(reason))
    case Response(status, _, content) =>
      if !IsSuccess(status) then Err(HttpStatusError(status)) else Ok(content)
  }

  /**
   * Library routines the tools call and this model does not re-implement:
   * the `"%d.%m.%Y %H:%M"` rendering of
   * `datetime.fromisoformat(s)` (`None` when it raises), `float(s)` and `int(s)`
   * on a string (`None` when they raise).
   */
  datatype Library = Library(
    isoDateTime: string -> Option<string>,
    parseFloat: string -> Option<real>,
    parseInt: string -> Option<int>)
}
