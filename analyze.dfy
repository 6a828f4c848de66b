/** Local analysis through the editor's language-model API: model selection with a vendor
    filter and an unfiltered fallback, prompt composition, and the ordered retry loop that
    skips only "model not supported" failures. The API itself is an oracle. */
module Analyze {
  import opened Wrappers
  import opened Js
  import Text

  /** A value thrown by `sendRequest`. Text fields hold "" where the thrown value has no such
      property (or a falsy one); `isError` says whether it is an `Error` instance and `text`
      is its `String(...)` conversion. */
  datatype LmError = LmError(
    name: string, message: string, code: string, nestedCode: string, param: string,
    isError: bool, text: string)

  /** What `sendRequest` does with the messages: stream text fragments or throw. */
  datatype SendReply = Streams(fragments: seq<string>) | Throws(error: LmError) {
    /** The error caught from this reply, if it threw. */
    function Caught(): Option<LmError> {
      if Throws? then Some(error) else None
    }
  }

  /** A chat model, known by how it answers a list of messages. */
  datatype Model = Model(id: string, respond: seq<string> -> SendReply)

  /** The editor's side of the API: whether `vscode.lm.selectChatModels` exists, the value
      `config.get("localAnalysis.modelVendor")` returns, and what a selection resolves to for
      an optional vendor (`None`: the selection rejects). */
  datatype LmEnv = LmEnv(available: bool, vendorSetting: JsValue, select: Option<string> -> Option<seq<Model>>)

  /** The outcome object: exactly one of `result` and `error`. */
  datatype Outcome = Analysis(result: string) | Failure(error: string)

  const ApiUnavailable: string := "Language Model API is not available. Use VS Code 1.108+ or Cursor with an available chat model."
  const NoModel: string := "No language model is available. Sign in to GitHub Copilot or ensure a chat model is enabled in your IDE."
  const RequestFailed: string := "Language model request failed."
  const NoResponse: string := "(No response)"
  const SystemInstruction: string := "You are helping analyze MCP (Model Context Protocol) traffic and tool usage. Be concise and focus on security, correctness, and clarity."
  const NotSupportedCode: string := "model_not_supported"

  /** `err.code || err.error.code || err.param`. */
  function ErrorCode(e: LmError): string {
    if e.code != "" then e.code else if e.nestedCode != "" then e.nestedCode else e.param
  }

  /** `isModelNotSupportedError`. */
  predicate IsModelNotSupported(e: LmError) {
    ErrorCode(e) == NotSupportedCode
    || Text.Contains(e.message, "model is not supported")
    || Text.Contains(e.message, NotSupportedCode)
  }

  /** Only the first non-empty code is compared: a different `code` hides a
      "model_not_supported" `param`, while an error whose codes are all empty and whose
      message says so is still recognised. */
  lemma NotSupportedUsesFirstCode(e: LmError)
    ensures (e.code != "" && e.code != NotSupportedCode && !Text.Contains(e.message, "model is not supported")
             && !Text.Contains(e.message, NotSupportedCode)) ==> !IsModelNotSupported(e)
    ensures e.code == "" && e.nestedCode == "" && e.param == NotSupportedCode ==> IsModelNotSupported(e)
    ensures Text.StartsWith(e.message, NotSupportedCode) ==> IsModelNotSupported(e)
  {
  }

  /** The user message: the request alone, or preceded by the context when one is given. */
  function UserContent(prompt: string, context: string): (r: string)
    ensures context == "" ==> r == prompt
    ensures context != "" ==> Text.StartsWith(r, "Context:\n" + context)
    ensures |r| >= |prompt| && r[|r| - |prompt|..] == prompt
  {
    if context != "" then "Context:\n" + context + "\n\nRequest:\n" + prompt else prompt
  }

  function Messages(prompt: string, context: string): seq<string> {
    [SystemInstruction, UserContent(prompt, context)]
  }

  /** `(setting || "").trim()`: the trimmed vendor, or `None` when the setting is truthy but not
      a string, whose missing `trim` makes the call throw. */
  function VendorFilter(setting: JsValue): (r: Option<string>)
    ensures r.None? <==> Truthy(setting) && !setting.Str?
    ensures setting.Str? ==> r == Some(Text.Trim(setting.s))
    ensures !Truthy(setting) ==> r == Some("")
  {
    if !Truthy(setting) then Some("")
    else if setting.Str? then Some(Text.Trim(setting.s))
    else None
  }

  /** The selections asked for, in order (`None`: no vendor constraint), and the models chosen
      (`None`: the last selection asked for rejected, and the rejection propagates). */
  datatype Selection = Selection(calls: seq<Option<string>>, models: Option<seq<Model>>)

  function SelectModels(filter: string, select: Option<string> -> Option<seq<Model>>): (s: Selection)
    ensures 1 <= |s.calls| <= 2
    ensures s.calls[0] == if filter == "" then None else Some(filter)
    ensures |s.calls| == 2 <==> s.calls[0].Some? && select(s.calls[0]) == Some([])
    ensures |s.calls| == 2 ==> s.calls[1] == None && s.models == select(None)
    ensures |s.calls| == 1 ==> s.models == select(s.calls[0])
    ensures s.models.None? <==> select(s.calls[|s.calls| - 1]).None?
  {
    var options := if filter != "" then Some(filter) else None;
    var first := select(options);
    if first == Some([]) && filter != "" then Selection([options, None], select(None))
    else Selection([options], first)
  }

  /** The text of a successful answer: trimmed, or "(No response)" when blank. */
  function ResultText(streamed: string): (r: string)
    ensures r != ""
    ensures Text.AllWhitespace(streamed) ==> r == NoResponse
    ensures !Text.AllWhitespace(streamed) ==> r == Text.Trim(streamed)
  {
    Text.TrimEmptyIff(streamed);
    if Text.Trim(streamed) == "" then NoResponse else Text.Trim(streamed)
  }

  /** The error reported after the loop, from the last error caught (`None`: `null`). */
  function ErrorText(last: Option<LmError>): string {
    match last
    case None => "null"
    case Some(e) =>
      if e.name == "LanguageModelError" || e.code != "" then
        (if e.message != "" then e.message else RequestFailed)
      else if e.isError then e.message
      else e.text
  }

  /** The outcome of the retry loop and how many models were asked. */
  datatype Trial = Trial(outcome: Outcome, tried: nat)

  /** The loop from model `i` on, `last` being the error caught so far. */
  function TryFrom(models: seq<Model>, messages: seq<string>, i: nat, last: Option<LmError>): Trial
    requires i <= |models|
    decreases |models| - i
  {
    if i == |models| then Trial(Failure(ErrorText(last)), i)
    else match models[i].respond(messages)
      case Streams(fragments) => Trial(Analysis(ResultText(Text.Concat(fragments))), i + 1)
      case Throws(e) =>
        if IsModelNotSupported(e) then TryFrom(models, messages, i + 1, Some(e))
        else Trial(Failure(ErrorText(Some(e))), i + 1)
  }

  /** One step of the loop. */
  lemma TryStep(models: seq<Model>, messages: seq<string>, i: nat, last: Option<LmError>)
    requires i < |models|
    ensures var r := models[i].respond(messages);
            && (r.Streams? ==> TryFrom(models, messages, i, last).outcome == Analysis(ResultText(Text.Concat(r.fragments))))
            && (r.Throws? && !IsModelNotSupported(r.error) ==>
                  TryFrom(models, messages, i, last).outcome == Failure(ErrorText(Some(r.error))))
            && (r.Throws? && IsModelNotSupported(r.error) ==>
                  TryFrom(models, messages, i, last) == TryFrom(models, messages, i + 1, Some(r.error)))
  {
  }

  /** Model `k` refused the request as an unsupported model. */
  predicate Skipped(models: seq<Model>, messages: seq<string>, k: nat)
    requires k < |models|
  {
    models[k].respond(messages).Throws? && IsModelNotSupported(models[k].respond(messages).error)
  }

  /** A skipped model hands its error on to the next iteration. */
  lemma SkipOne(models: seq<Model>, messages: seq<string>, i: nat, last: Option<LmError>)
    requires i < |models| && Skipped(models, messages, i)
    ensures TryFrom(models, messages, i, last)
         == TryFrom(models, messages, i + 1, models[i].respond(messages).Caught())
  {
    TryStep(models, messages, i, last);
  }

  /** Unsupported-model failures are passed over: the loop from `i` behaves as the loop from
      `j` when every model in between was skipped. */
  lemma {:induction false} SkipAhead(models: seq<Model>, messages: seq<string>, i: nat, j: nat, last: Option<LmError>)
    requires i < j <= |models|
    requires forall k :: i <= k < j ==> Skipped(models, messages, k)
    ensures TryFrom(models, messages, i, last)
         == TryFrom(models, messages, j, models[j - 1].respond(messages).Caught())
    decreases j - i
  {
    assert Skipped(models, messages, i);
    var caught := models[i].respond(messages).Caught();
    SkipOne(models, messages, i, last);
    if i + 1 < j {
      SkipAhead(models, messages, i + 1, j, caught);
    } else {
      assert caught == models[j - 1].respond(messages).Caught();
    }
  }

  /** Models are tried in order: the loop answers with model `j` exactly when every model
      before it was skipped as unsupported, and then stops after `j + 1` requests — with the
      answer if `j` streamed one, with `j`'s error if it failed otherwise. When every model
      is skipped, all are asked and the last error is reported. */
  lemma FirstNonSkippedDecides(models: seq<Model>, messages: seq<string>, j: nat)
    requires j <= |models|
    requires forall k :: 0 <= k < j ==> Skipped(models, messages, k)
    requires j < |models| ==> !Skipped(models, messages, j)
    ensures j < |models| && models[j].respond(messages).Streams? ==>
              TryFrom(models, messages, 0, None)
              == Trial(Analysis(ResultText(Text.Concat(models[j].respond(messages).fragments))), j + 1)
    ensures j < |models| && models[j].respond(messages).Throws? ==>
              TryFrom(models, messages, 0, None)
              == Trial(Failure(ErrorText(Some(models[j].respond(messages).error))), j + 1)
    ensures 0 < j == |models| ==>
              TryFrom(models, messages, 0, None)
              == Trial(Failure(ErrorText(models[j - 1].respond(messages).Caught())), j)
  {
    if 0 < j {
      SkipAhead(models, messages, 0, j, None);
    }
  }

  /** The whole of `requestLlmAnalysis` as a function of the editor's API: the outcome object
      (`None`: the promise rejects), the selections asked for and how many models were asked. */
  datatype Run = Run(outcome: Option<Outcome>, selections: seq<Option<string>>, tried: nat)

  function AnalysisRun(env: LmEnv, prompt: string, context: string): Run {
    if !env.available then Run(Some(Failure(ApiUnavailable)), [], 0)
    else match VendorFilter(env.vendorSetting)
      case None => Run(None, [], 0)
      case Some(filter) =>
        var sel := SelectModels(filter, env.select);
        match sel.models
        case None => Run(None, sel.calls, 0)
        case Some(models) =>
          if |models| == 0 then Run(Some(Failure(NoModel)), sel.calls, 0)
          else
            var t := TryFrom(models, Messages(prompt, context), 0, None);
            Run(Some(t.outcome), sel.calls, t.tried)
  }

  /** The analysis rejects exactly when the API exists and either the vendor setting is a
      truthy non-string or the last selection asked for rejects; no model is asked then. */
  lemma RejectsExactly(env: LmEnv, prompt: string, context: string)
    ensures var run := AnalysisRun(env, prompt, context);
            && (run.outcome.None? <==>
                  env.available
                  && (VendorFilter(env.vendorSetting).None?
                      || SelectModels(VendorFilter(env.vendorSetting).value, env.select).models.None?))
            && (run.outcome.None? ==> run.tried == 0)
            && (env.available && VendorFilter(env.vendorSetting).None? ==> run.selections == [])
  {
  }

  /** Without the API nothing is selected or asked; without any model after the fallback no
      model is asked; otherwise at least one and at most all selected models are asked, and the
      loop's outcome is the analysis's. */
  lemma {:induction false} AnalysisAsks(env: LmEnv, prompt: string, context: string)
    ensures !env.available ==> AnalysisRun(env, prompt, context) == Run(Some(Failure(ApiUnavailable)), [], 0)
    ensures env.available && VendorFilter(env.vendorSetting).Some? ==>
              var sel := SelectModels(VendorFilter(env.vendorSetting).value, env.select);
              var run := AnalysisRun(env, prompt, context);
              && run.selections == sel.calls
              && (sel.models == Some([]) ==> run.outcome == Some(Failure(NoModel)) && run.tried == 0)
              && (sel.models.Some? && sel.models.value != [] ==>
                    && run.outcome == Some(TryFrom(sel.models.value, Messages(prompt, context), 0, None).outcome)
                    && 1 <= run.tried <= |sel.models.value|)
  {
    if env.available && VendorFilter(env.vendorSetting).Some? {
      var sel := SelectModels(VendorFilter(env.vendorSetting).value, env.select);
      if sel.models.Some? && sel.models.value != [] {
        TriedBounds(sel.models.value, Messages(prompt, context), 0, None);
      }
    }
  }

  lemma {:induction false} TriedBounds(models: seq<Model>, messages: seq<string>, i: nat, last: Option<LmError>)
    requires i < |models|
    ensures i < TryFrom(models, messages, i, last).tried <= |models|
    decreases |models| - i
  {
    var r := models[i].respond(messages);
    if r.Throws? && IsModelNotSupported(r.error) && i + 1 < |models| {
      TriedBounds(models, messages, i + 1, Some(r.error));
    }
  }

  /** `requestLlmAnalysis`: the loop over the selected models, each answer's fragments
      accumulated as they stream (`None`: the promise rejects). */
  method RequestLlmAnalysis(env: LmEnv, prompt: string, context: string) returns (outcome: Option<Outcome>)
    ensures outcome == AnalysisRun(env, prompt, context).outcome
  {
    if !env.available {
      return Some(Failure(ApiUnavailable));
    }
    var filter := VendorFilter(env.vendorSetting);
    if filter.None? {
      return None;
    }
    var sel := SelectModels(filter.value, env.select);
    if sel.models.None? {
      return None;
    }
    var models := sel.models.value;
    if |models| == 0 {
      return Some(Failure(NoModel));
    }
    var o := AskInOrder(models, Messages(prompt, context));
    outcome := Some(o);
  }

  /** The loop of `requestLlmAnalysis` over the selected models. */
  method AskInOrder(models: seq<Model>, messages: seq<string>) returns (outcome: Outcome)
    ensures outcome == TryFrom(models, messages, 0, None).outcome
  {
    var last: Option<LmError> := None;
    var i := 0;
    while i < |models|
      invariant 0 <= i <= |models|
      invariant TryFrom(models, messages, i, last) == TryFrom(models, messages, 0, None)
    {
      var reply := models[i].respond(messages);
      TryStep(models, messages, i, last);
      if reply.Streams? {
        var streamed := Text.Accumulate(reply.fragments);
        return Analysis(ResultText(streamed));
      }
      if !IsModelNotSupported(reply.error) {
        return Failure(ErrorText(Some(reply.error)));
      }
      last := Some(reply.error);
      i := i + 1;
    }
    outcome := Failure(ErrorText(last));
  }
}
