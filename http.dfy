/** The two HTTP GET helpers: a status probe that never rejects and a JSON fetch that accepts
    only the 2xx class (section 15.3 of RFC 9110). */
module Http {
  import opened Wrappers
  import opened Js
  import Text

  /** What the network does with one GET: a response (its status code, absent when the
      response carries none, and its body chunks in arrival order), a request error, or the
      request timing out before it settles. */
  datatype Reply =
    | Answered(statusCode: Option<int>, chunks: seq<string>)
    | NetError(message: string)
    | TimedOut

  /** The reply used once an oracle queue of replies is exhausted: nothing answers. */
  const NoReply: Reply := NetError("connect ECONNREFUSED")

  /** Why `httpGetJson` rejects. */
  datatype FetchError =
    | HttpStatus(url: string, status: int, snippet: Option<string>)
    | InvalidJson(url: string)
    | Transport(message: string)
    | Timeout(url: string, timeoutMs: nat)

  /** `res.statusCode || 0`. */
  function StatusOrZero(code: Option<int>): int {
    match code
    case Some(c) => c
    case None => 0
  }

  /** `httpGetStatusCode`: the status of the response, or 0 for a request error, a timeout
      or a response without a status code. It never rejects. */
  function ProbeStatus(reply: Reply): (code: int)
    ensures (reply.NetError? || reply.TimedOut?) ==> code == 0
    ensures reply.Answered? && reply.statusCode.None? ==> code == 0
    ensures reply.Answered? && reply.statusCode.Some? ==> code == reply.statusCode.value
  {
    match reply
    case Answered(statusCode, _) => StatusOrZero(statusCode)
    case NetError(_) => 0
    case TimedOut => 0
  }

  /** Membership of the successful (2xx) class. */
  predicate IsSuccessClass(status: int) {
    !(status < 200 || status >= 300)
  }

  const SnippetLength: nat := 200

  /** The body excerpt a rejection message carries: none for an empty body, otherwise at most
      the first 200 characters. */
  function Snippet(raw: string): (r: Option<string>)
    ensures r.None? <==> raw == ""
    ensures r.Some? ==> |r.value| <= SnippetLength && Text.StartsWith(raw, r.value)
    ensures r.Some? ==> |r.value| == if |raw| < SnippetLength then |raw| else SnippetLength
  {
    if raw == "" then None
    else if |raw| <= SnippetLength then Some(raw)
    else Some(raw[..SnippetLength])
  }

  /** The `end` handler: classify the status, then parse the body (`raw || "{}"`). */
  function ClassifyBody(url: string, status: int, raw: string, parse: string -> Option<JsValue>)
    : (r: Result<JsValue, FetchError>)
    ensures r.Ok? <==> IsSuccessClass(status) && (raw == "" || parse(raw).Some?)
    ensures !IsSuccessClass(status) ==> r == Err(HttpStatus(url, status, Snippet(raw)))
    ensures IsSuccessClass(status) && raw == "" ==> r == Ok(EmptyObject)
    ensures IsSuccessClass(status) && raw != "" ==>
              r == if parse(raw).Some? then Ok(parse(raw).value) else Err(InvalidJson(url))
  {
    if status < 200 || status >= 300 then Err(HttpStatus(url, status, Snippet(raw)))
    else if raw == "" then Ok(EmptyObject)
    else match parse(raw)
      case Some(v) => Ok(v)
      case None => Err(InvalidJson(url))
  }

  /** `httpGetJson` as a function of the network's reply. */
  function GetJson(url: string, timeoutMs: nat, reply: Reply, parse: string -> Option<JsValue>)
    : Result<JsValue, FetchError>
  {
    match reply
    case Answered(statusCode, chunks) =>
      ClassifyBody(url, StatusOrZero(statusCode), Text.Concat(chunks), parse)
    case NetError(message) => Err(Transport(message))
    case TimedOut => Err(Timeout(url, timeoutMs))
  }

  /** A JSON fetch succeeds only when the same reply would make the status probe report a 2xx
      code; in particular a reply the probe reports as 0 (unreachable) always makes it reject,
      and a timed-out fetch rejects with the configured timeout. */
  lemma FetchAgreesWithProbe(url: string, timeoutMs: nat, reply: Reply, parse: string -> Option<JsValue>)
    ensures GetJson(url, timeoutMs, reply, parse).Ok? <==>
              && reply.Answered? && 200 <= ProbeStatus(reply) <= 299
              && (Text.Concat(reply.chunks) == "" || parse(Text.Concat(reply.chunks)).Some?)
    ensures ProbeStatus(reply) == 0 ==> GetJson(url, timeoutMs, reply, parse).Err?
    ensures reply.TimedOut? ==> GetJson(url, timeoutMs, reply, parse) == Err(Timeout(url, timeoutMs))
    ensures reply.Answered? && IsSuccessClass(ProbeStatus(reply)) && Text.Concat(reply.chunks) == "" ==>
              GetJson(url, timeoutMs, reply, parse) == Ok(EmptyObject)
  {
  }

  /** `httpGetJson` as the request runs: the `data` handler collects the chunks, the `end`
      handler classifies the joined body. The promise settles exactly once, with the result. */
  method HttpGetJson(url: string, timeoutMs: nat, reply: Reply, parse: string -> Option<JsValue>)
    returns (r: Result<JsValue, FetchError>)
    ensures r == GetJson(url, timeoutMs, reply, parse)
    ensures r.Ok? ==> reply.Answered? && IsSuccessClass(ProbeStatus(reply))
  {
    match reply {
      case Answered(statusCode, chunks) =>
        var raw := Text.Accumulate(chunks);
        r := ClassifyBody(url, StatusOrZero(statusCode), raw, parse);
      case NetError(message) =>
        r := Err(Transport(message));
      case TimedOut =>
        r := Err(Timeout(url, timeoutMs));
    }
  }
}
