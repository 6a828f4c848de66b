/** The local-analysis bridge: whether and where it listens, and how its HTTP handler answers a
    request. Listening and the socket are not modelled; a request arrives as its method, URL and
    body chunks. */
module LlmBridge {
  import opened Wrappers
  import opened Js
  import Text
  import Analyze

  /** `MCP_SHARK_LLM_BRIDGE_PORT_DEFAULT` is not defined by `src/constants/index.js`, so the
      import reads `undefined`. */
  const BridgePortDefault: JsValue := Undefined

  /** `startLlmBridgeServer`: `None` (no server) when the `bridgeEnabled` setting is exactly
      `false` or `listen` throws; otherwise the port handed to `listen`. Settings read without a
      configuration API are `Undefined`. */
  function StartBridge(requestedPort: JsValue, bridgeEnabled: JsValue, bridgePort: JsValue, listenThrows: bool): Option<JsValue> {
    if bridgeEnabled == Bool(false) then None
    else if listenThrows then None
    else Some(Coalesce(requestedPort, Coalesce(bridgePort, BridgePortDefault)))
  }

  /** Only an explicit `false` disables the bridge (an absent setting, `0` or `""` do not), and
      the port is the first of the requested port, the configured port and the default that is
      neither `null` nor `undefined`. */
  lemma BridgeSettings(requestedPort: JsValue, bridgeEnabled: JsValue, bridgePort: JsValue)
    ensures StartBridge(requestedPort, bridgeEnabled, bridgePort, false).None? <==> bridgeEnabled == Bool(false)
    ensures bridgeEnabled != Bool(false) ==>
              var port := StartBridge(requestedPort, bridgeEnabled, bridgePort, false).value;
              && (!requestedPort.Undefined? && !requestedPort.Null? ==> port == requestedPort)
              && (requestedPort.Undefined? || requestedPort.Null? ==>
                    port == if bridgePort.Undefined? || bridgePort.Null? then Undefined else bridgePort)
    ensures StartBridge(requestedPort, bridgeEnabled, bridgePort, true).None?
  {
  }

  /** A request: its method (`verb`), URL and the body chunks in arrival order. */
  datatype Request = Request(verb: string, url: string, chunks: seq<string>)

  /** A response body: none (204), `{ error }`, or the serialised analysis outcome. */
  datatype Body = NoBody | ErrorBody(error: string) | OutcomeBody(outcome: Analyze.Outcome)

  /** The response: status, whether the three CORS headers were set, whether it is declared
      JSON, and the body. */
  datatype Response = Response(status: int, cors: bool, json: bool, body: Body)

  /** The arguments of the one analysis a request may trigger. */
  datatype Query = Query(prompt: string, context: string)

  /** A handled request: its response (`None`: the handler threw and never answered) and the
      analysis it asked for, if any. */
  datatype Exchange = Exchange(response: Option<Response>, asked: Option<Query>)

  const NotFoundText: string := "Not found. Use POST /analyze"
  const InvalidJsonText: string := "Invalid JSON body"
  const MissingPromptText: string := "Missing or empty 'prompt' in body"

  function Refuse(status: int, error: string): Exchange {
    Exchange(Some(Response(status, true, true, ErrorBody(error))), None)
  }

  /** The text `JSON.parse` is given: the body, or `"{}"` for an empty one. */
  function ParsedText(body: string): string {
    if body == "" then "{}" else body
  }

  /** The response to an analysis that settled with `outcome` (`None`: it rejected, and the
      awaiting handler throws without answering). */
  function Answered(outcome: Option<Analyze.Outcome>): Option<Response> {
    match outcome
    case Some(o) => Some(Response(200, true, true, OutcomeBody(o)))
    case None => None
  }

  /** The handler once the body has been parsed into `payload`; a payload whose `prompt` cannot
      be read (`null`) is answered like one without a prompt. */
  function Answer(payload: JsValue, env: Analyze.LmEnv): Exchange {
    var prompt := StringOrEmpty(Field(payload, "prompt"));
    var context := StringOrEmpty(Field(payload, "context"));
    if Text.Trim(prompt) == "" then Refuse(400, MissingPromptText)
    else
      var q := Query(Text.Trim(prompt), context);
      Exchange(Answered(Analyze.AnalysisRun(env, q.prompt, q.context).outcome), Some(q))
  }

  /** The request handler. */
  function Handle(req: Request, parse: string -> Option<JsValue>, env: Analyze.LmEnv): Exchange {
    if req.verb == "OPTIONS" then Exchange(Some(Response(204, true, false, NoBody)), None)
    else if req.verb != "POST" || req.url != "/analyze" then Refuse(404, NotFoundText)
    else match parse(ParsedText(Text.Concat(req.chunks)))
      case None => Refuse(400, InvalidJsonText)
      case Some(payload) => Answer(payload, env)
  }

  /** Every request gets exactly one response unless the analysis it asked for rejects, and
      every response carries the CORS headers. */
  lemma AnsweredUnlessRejected(req: Request, parse: string -> Option<JsValue>, env: Analyze.LmEnv)
    ensures var x := Handle(req, parse, env);
            && (x.response.None? <==>
                  x.asked.Some? && Analyze.AnalysisRun(env, x.asked.value.prompt, x.asked.value.context).outcome.None?)
            && (x.response.Some? ==> x.response.value.cors)
  {
    if req.verb == "POST" && req.url == "/analyze" {
      var parsed := parse(ParsedText(Text.Concat(req.chunks)));
      if parsed.Some? {
        AnswerUnlessRejected(parsed.value, env);
      }
    }
  }

  /** The parsed-payload half of `AnsweredUnlessRejected`. */
  lemma AnswerUnlessRejected(payload: JsValue, env: Analyze.LmEnv)
    ensures var x := Answer(payload, env);
            && (x.response.None? <==>
                  x.asked.Some? && Analyze.AnalysisRun(env, x.asked.value.prompt, x.asked.value.context).outcome.None?)
            && (x.response.Some? ==> x.response.value.cors)
  {
    var prompt := StringOrEmpty(Field(payload, "prompt"));
    if Text.Trim(prompt) != "" {
      var q := Query(Text.Trim(prompt), StringOrEmpty(Field(payload, "context")));
      var outcome := Analyze.AnalysisRun(env, q.prompt, q.context).outcome;
      assert Answer(payload, env) == Exchange(Answered(outcome), Some(q));
    }
  }

  /** The classification: OPTIONS 204; any other method but POST, or any other URL, 404;
      a body that does not parse 400; and no analysis on any of these paths. */
  lemma Classify(req: Request, parse: string -> Option<JsValue>, env: Analyze.LmEnv)
    ensures req.verb == "OPTIONS" ==> Handle(req, parse, env) == Exchange(Some(Response(204, true, false, NoBody)), None)
    ensures req.verb != "OPTIONS" && (req.verb != "POST" || req.url != "/analyze") ==>
              Handle(req, parse, env) == Refuse(404, NotFoundText)
    ensures req.verb == "POST" && req.url == "/analyze" && parse(ParsedText(Text.Concat(req.chunks))).None? ==>
              Handle(req, parse, env) == Refuse(400, InvalidJsonText)
    ensures Handle(req, parse, env).asked.Some? ==>
              req.verb == "POST" && req.url == "/analyze" && parse(ParsedText(Text.Concat(req.chunks))).Some?
  {
  }

  /** With a parsed payload: a prompt that is missing, not a string or only white space gets 400
      and no analysis; otherwise exactly one analysis runs, on the trimmed prompt and the context
      (non-strings read as ""), and its outcome is the 200 body, or, when it rejects, the request
      is never answered. */
  lemma PromptRule(payload: JsValue, env: Analyze.LmEnv)
    ensures var prompt := StringOrEmpty(Field(payload, "prompt"));
            var x := Answer(payload, env);
            && (Text.AllWhitespace(prompt) <==> x.asked.None?)
            && (Text.AllWhitespace(prompt) ==> x == Refuse(400, MissingPromptText))
            && (!Field(payload, "prompt").Str? ==> x == Refuse(400, MissingPromptText))
            && (!Text.AllWhitespace(prompt) ==>
                  && x.asked == Some(Query(Text.Trim(prompt), StringOrEmpty(Field(payload, "context"))))
                  && (var run := Analyze.AnalysisRun(env, x.asked.value.prompt, x.asked.value.context);
                      && (run.outcome.Some? ==> x.response == Some(Response(200, true, true, OutcomeBody(run.outcome.value))))
                      && (run.outcome.None? ==> x.response == None)))
  {
    Text.TrimEmptyIff(StringOrEmpty(Field(payload, "prompt")));
  }

  /** The handler as written: `payload.prompt` is read without a guard, so a payload that is
      `null` (the JSON body `null`) makes it throw; the request is then never answered and no
      analysis runs. */
  function HandleAsWritten(req: Request, parse: string -> Option<JsValue>, env: Analyze.LmEnv): Exchange {
    if req.verb == "OPTIONS" then Exchange(Some(Response(204, true, false, NoBody)), None)
    else if req.verb != "POST" || req.url != "/analyze" then Refuse(404, NotFoundText)
    else match parse(ParsedText(Text.Concat(req.chunks)))
      case None => Refuse(400, InvalidJsonText)
      case Some(payload) =>
        if Property(payload, "prompt").None? then Exchange(None, None) else Answer(payload, env)
  }

  lemma AsWrittenNullBodyHangs(req: Request, parse: string -> Option<JsValue>, env: Analyze.LmEnv)
    requires req.verb == "POST" && req.url == "/analyze" && parse(ParsedText(Text.Concat(req.chunks))) == Some(Null)
    ensures HandleAsWritten(req, parse, env).response.None?
    ensures Handle(req, parse, env) == Refuse(400, MissingPromptText)
  {
    assert StringOrEmpty(Field(Null, "prompt")) == "";
    assert Text.Trim("") == "";
    assert Answer(Null, env) == Refuse(400, MissingPromptText);
  }

  /** Any payload `JSON.parse` can return other than `null` is handled the same either way. */
  lemma AsWrittenAgreesOtherwise(req: Request, parse: string -> Option<JsValue>, env: Analyze.LmEnv)
    requires parse(ParsedText(Text.Concat(req.chunks))) != Some(Null)
    requires parse(ParsedText(Text.Concat(req.chunks))) != Some(Undefined)
    ensures HandleAsWritten(req, parse, env) == Handle(req, parse, env)
  {
  }

  /** The request handler, reading the body chunk by chunk. */
  method HandleRequest(req: Request, parse: string -> Option<JsValue>, env: Analyze.LmEnv) returns (x: Exchange)
    ensures x == Handle(req, parse, env)
  {
    if req.verb == "OPTIONS" {
      return Exchange(Some(Response(204, true, false, NoBody)), None);
    }
    if req.verb != "POST" || req.url != "/analyze" {
      return Refuse(404, NotFoundText);
    }
    var body := Text.Accumulate(req.chunks);
    var parsed := parse(if body == "" then "{}" else body);
    if parsed.None? {
      return Refuse(400, InvalidJsonText);
    }
    var prompt := StringOrEmpty(Field(parsed.value, "prompt"));
    var context := StringOrEmpty(Field(parsed.value, "context"));
    if Text.Trim(prompt) == "" {
      return Refuse(400, MissingPromptText);
    }
    var outcome := Analyze.RequestLlmAnalysis(env, Text.Trim(prompt), context);
    if outcome.None? {
      return Exchange(None, Some(Query(Text.Trim(prompt), context)));
    }
    x := Exchange(Some(Response(200, true, true, OutcomeBody(outcome.value))), Some(Query(Text.Trim(prompt), context)));
  }
}
