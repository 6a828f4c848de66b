# MCP Shark extension core, modelled in Dafny

This project models the core of the MCP Shark editor extension. The extension starts, watches and stops a
local MCP Shark server at `http://localhost:9853`. It shows the server's traffic inspector in a
webview panel and lists start, open and stop actions in a tree view. It also lets the inspector run
a local analysis through the editor's language-model API, directly or through a small HTTP bridge.
A packaging script checks the extension's manifest and sources before release.

The model covers:

- **HTTP helpers** (`Http`, `http.dfy`): the status probe that never rejects, and the JSON fetch
  that accepts only 2xx answers. Each reply is a value: a response, a request error or a timeout.
- **Settings cache** (`Settings`): a class whose two fields a successful settings fetch overwrites,
  stamped with one clock reading.
- **Lifecycle controller** (`Lifecycle`): reachability; the start flow (ask, spawn, wait, poll at
  most 30 times); the stop flow (kill by port, wait, re-probe); the cached settings. Each flow is a
  specification function (`EnsureRun`, `PollRun`, `StopRun`) paired with a method that drives a
  `Host.Host` object. That object answers probes, fetches, questions, kills and clock reads from
  queues, and logs every effect in order (console output aside).
- **Webview panel** (`PanelRouter`, `PanelState`): `createDatabasePanel` and its two message
  handlers, each proved against a `Reaction`. A reaction lists the effects, the pages shown and the
  messages posted. The active-panel register is a class whose history of events is replayed by a
  function.
- **Tree view** (`TrafficTree`): the provider class with its remembered reachability flag, its
  children and its tree items.
- **Activation** (`Activate`): the status check, the focus and visibility triggers, and the start,
  refresh, open/show and stop commands.
- **Local analysis** (`Analyze`, `LlmBridge`): model selection with a vendor fallback; the retry
  loop that passes over unsupported models; the outcome texts; the bridge's request handler.
- **Packaging validator** (`Validate`): a class holding the `errors` and `warnings` lists and a
  flag for an uncaught TypeError. Every step of `runValidation` is proved against a fold over the
  log. The file system, `JSON.parse` and the regular-expression scans are parameters.

`Wrappers`, `Text`, `Js`, `Host`, `Constants` and `Webview` are shared support: option and result
types, string helpers, a JSON-like value, the host oracle and the panel object.

## Model

| member | source | states |
|---|---|---|
| Http.ProbeStatus | src/mcp-shark/http.js:3-19 | A request error, a timeout or a response without status code give 0. A response with a status code gives that code. |
| Http.Snippet | src/mcp-shark/http.js:38 | The rejection excerpt is absent exactly for an empty body. Otherwise it is a prefix of the body, of length min(length, 200). |
| Http.ClassifyBody | src/mcp-shark/http.js:32-49 | The body is accepted exactly when the status is 2xx and the body is empty or parses. A non-2xx status rejects with the status and the excerpt. An empty 2xx body gives `{}`. A body that does not parse gives the invalid-JSON error. |
| Http.FetchAgreesWithProbe | src/mcp-shark/http.js:3-61 | For every reply, a fetch succeeds exactly when the reply is a response whose status, as the probe reports it, is in 200..299 and whose body is empty or parses. A reply the probe reports as 0 always makes the fetch reject. A timeout rejects with the configured timeout. |
| Http.HttpGetJson | src/mcp-shark/http.js:21-61 | Collecting the chunks and classifying the joined body settles with `GetJson` of the reply. Success implies an answered reply with a 2xx status. |
| Settings.SettingsCache.constructor | src/mcp-shark/settings.js:4-9 | A new cache holds `null`, stamped 0. |
| Settings.FetchSettings | src/mcp-shark/settings.js:11-20 | One settings GET with a 2 s timeout, and its result is returned. A success with a cache writes the value and one clock reading. A failure, or a missing cache, writes nothing and reads no clock. |
| Lifecycle.ReachableOnlyOn200 | src/mcp-shark/lifecycle.js:10-20 | Running exactly when the probe got a response with status 200. |
| Lifecycle.PollAdvance | src/mcp-shark/lifecycle.js:57-83 | One interval tick: on success the settings refresh and the success message follow. On the 30th failure the failure message follows. Otherwise the next tick follows. |
| Lifecycle.PollStops | src/mcp-shark/lifecycle.js:57-83 | The poll stops at its first successful attempt, or after 30 failed attempts, and never earlier. |
| Lifecycle.PollEffects | src/mcp-shark/lifecycle.js:57-83 | The poll's effects are one one-second wait and one probe per attempt, followed by the outcome. |
| Lifecycle.PollBudget | src/mcp-shark/lifecycle.js:53-84 | At most 30 attempts. The poll succeeds exactly when some attempt within the budget finds the server, and stops at the first such attempt. |
| Lifecycle.PollStepsQuiet | src/mcp-shark/lifecycle.js:57-60 | The attempts themselves show no message and spawn nothing. |
| Lifecycle.ExactlyOneOutcome | src/mcp-shark/lifecycle.js:61-82 | A whole poll shows exactly one message, as its last effect: the success message when it found the server, the manual-start warning otherwise. |
| Lifecycle.EnsureConfirmed | src/mcp-shark/lifecycle.js:39-85 | After a failed first probe and "Yes", the run is the prompt, the spawn and the 2 s wait, followed by the poll. |
| Lifecycle.EnsureCases | src/mcp-shark/lifecycle.js:22-42 | Already running: true, one settings refresh, no question. Any answer but exactly "Yes", dismissal included: false, nothing spawned. |
| Lifecycle.EnsureConfirmedCases | src/mcp-shark/lifecycle.js:44-85 | On "Yes": exactly one detached `npx -y @mcp-shark/mcp-shark`, then a 2 s wait, then the poll. True exactly when one of the next 30 probes finds the server. Exactly one outcome message, at the end. |
| Lifecycle.HeadThenPoll | src/mcp-shark/lifecycle.js:44-85 | The four effects before the poll keep the poll's last-message-only shape. |
| Lifecycle.PollShifted | src/mcp-shark/lifecycle.js:53-84 | The poll's success, read on the queue that still holds the first probe: some probe 1..30 finds the server. |
| Lifecycle.Lifecycle.constructor | src/mcp-shark/lifecycle.js:8 | The module owns one fresh, empty settings cache. |
| Lifecycle.Lifecycle.IsRunning | src/mcp-shark/lifecycle.js:10-20 | One one-second probe of `/api/settings`. The result is whether that probe got 200. |
| Lifecycle.Lifecycle.EnsureRunning | src/mcp-shark/lifecycle.js:22-86 | Effects, result and probes used are those of `EnsureRun`. The cache is refreshed exactly when the result is true. A question is consumed only when the first probe failed. |
| Lifecycle.Lifecycle.OfferStart | src/mcp-shark/lifecycle.js:33-85 | After a failed first probe: one question, then the declined or the confirmed run of `EnsureRun`. |
| Lifecycle.Lifecycle.Confirmed | src/mcp-shark/lifecycle.js:44-85 | After "Yes": the confirmed run of `EnsureRun`, with its settings refresh on success. |
| Lifecycle.Lifecycle.Launch | src/mcp-shark/lifecycle.js:44-85 | Spawn, a 2 s wait, then `PollRun` on the remaining probes. |
| Lifecycle.Lifecycle.Poll | src/mcp-shark/lifecycle.js:53-84 | The attempts, then the settings refresh and the success message, or the failure message, as `PollRun` says. |
| Lifecycle.Lifecycle.Attempts | src/mcp-shark/lifecycle.js:57-83 | The interval loop, run sequentially, does what `PollRun` says: result, effects and probes used. |
| Lifecycle.Lifecycle.Attempt | src/mcp-shark/lifecycle.js:58-60 | One tick: a one-second wait, then one probe whose answer is the result. |
| Lifecycle.Lifecycle.Stop | src/mcp-shark/lifecycle.js:88-118 | Kill by port (failures ignored), a one-second wait, then one probe. Stopped exactly when that probe does not find the server; the matching message is shown. |
| Lifecycle.Lifecycle.GetCachedSettings | src/mcp-shark/lifecycle.js:120-125 | A copy of the cache's value and timestamp. |
| PanelState.ReplaySlot | src/webview/panelState.js:3-19 | The active panel is `p` exactly when `p` was the last panel set and has not been disposed since. The active panel's disposal is always hooked. |
| PanelState.DisposeOtherKeeps | src/webview/panelState.js:13-17 | Disposing any other panel, including one it replaced, leaves the active panel in place. |
| PanelState.SetNullHooksNothing | src/webview/panelState.js:9-12 | Setting `null` empties the slot and hooks no disposal. |
| PanelState.ActivePanelState.constructor | src/webview/panelState.js:3-5 | The slot starts empty. |
| PanelState.ActivePanelState.Get | src/webview/panelState.js:7 | Returns the slot and changes nothing. |
| PanelState.ActivePanelState.Set | src/webview/panelState.js:9-19 | The slot holds `p`, a non-null `p` gets its disposal hooked, and the register stays the replay of its history. |
| PanelState.ActivePanelState.Dispose | src/webview/panelState.js:13-17 | A hooked panel's disposal clears the slot only while that panel holds it. |
| PanelRouter.CreateCases | src/webview/panel.js:7-84 | A registered panel is only revealed. Otherwise one probe decides. A stopped server gets the start page and the start handler. A running one gets the iframe, on the traffic route exactly when setup is complete, and the iframe handler. |
| PanelRouter.CheckCases | src/webview/panel.js:63-72 | "checkStatus" on either page probes once and shows the iframe exactly when the server answers. A stopped server gets `statusUpdate running:false` on the start page, and the "stopped" start page on the iframe page (lines 88-101). |
| PanelRouter.StartServerCases | src/webview/panel.js:36-60 | "startServer" shows the output page, runs the ensure flow, and after 3 s shows exactly one more page. That page is the iframe exactly when the probe finds the server, otherwise "may still be starting". |
| PanelRouter.StopServerCases | src/webview/panel.js:104-116 | "stopServer" never shows the iframe. It shows "has been stopped" exactly when the re-probe after 2 s finds the server gone. |
| PanelRouter.AnalysisCases | src/webview/panel.js:118-130 | "requestLlmAnalysis" posts exactly one message when the analysis settles and none when it rejects. The message carries exactly one of `result` and `error`: the answer text or the error text. A non-string prompt or context is sent as "". |
| PanelRouter.AsWrittenNeverShowsIframe | src/webview/panel.js:4 | With the import as written, no path shows the iframe, and a new panel for a running server stays blank without a handler. |
| PanelRouter.ProbeAfter | src/webview/panel.js:29 | The first reply left after `n` probes is the `n`-th reply of the original queue. |
| PanelRouter.CreateDatabasePanel | src/webview/panel.js:7-137 | An existing panel is revealed once and returned with its page, views, posted messages and handler unchanged, and nothing is probed. Otherwise a fresh panel is registered and shows what `Create` says; its handler mode and effects follow the probe and setup answers. |
| PanelRouter.OnStartPageMessage | src/webview/panel.js:34-76 | Reacts with `StartServer`, `StartCheck` or nothing, according to the message's command, and consumes exactly the probes, setup answers, question answers and fetches that reaction used. On "startServer", the settings cache is refreshed exactly when the ensure flow succeeds and the settings fetch succeeds. On any other message, the cache, the clock, the fetches and the question answers are left alone. |
| PanelRouter.StartServerClicked | src/webview/panel.js:36-60 | Does what `StartServer` says, with the ensure run and the timer probe, and refreshes the cache as the ensure flow does. |
| PanelRouter.StartTimerFired | src/webview/panel.js:46-59 | The 3 s timer does what `StartTimer` says: one probe, then the iframe or the "still starting" page. |
| PanelRouter.StartPageCheck | src/webview/panel.js:63-72 | Does what `StartCheck` says. |
| PanelRouter.OnIframePageMessage | src/webview/panel.js:86-134 | Reacts with `IframeCheck`, `StopServer`, `AnalysisReaction` or nothing, according to the command. The check uses one probe (and a setup answer when running), the stop one kill and two probes; the analysis and an unknown command use none. |
| PanelRouter.IframePageCheck | src/webview/panel.js:88-102 | Does what `IframeCheck` says. |
| PanelRouter.StopClicked | src/webview/panel.js:104-116 | Does what `StopServer` says: the stop flow, a 2 s wait, one probe. |
| PanelRouter.AnalysisRequested | src/webview/panel.js:118-130 | Posts the outcome of `AnalysisRun` on the message's prompt and context, or nothing when the analysis rejects. |
| TrafficTree.ChildrenShape | src/tree/TrafficInspectorProvider.js:54-99 | Only the root has children. It starts with the start item. A running server adds the inspector and stop items; a stopped one only the disabled inspector item. No stop item appears while stopped. |
| TrafficTree.ItemGuards | src/tree/TrafficInspectorProvider.js:28-35 | While stopped, every item but the start item has no command and reads "Server not running". Otherwise an item with a command runs it, titled by its caption. |
| TrafficTree.LoadingIff | src/tree/TrafficInspectorProvider.js:24-26 | The "Loading..." placeholder appears exactly for a missing element or one without a label. |
| TrafficTree.ItemDefaults | src/tree/TrafficInspectorProvider.js:37-50 | The icon is the mapped name for every key in the map, the key itself otherwise, and "circle-outline" without one. The tooltip falls back to the label, the context value to "trafficItem"; given values are kept. |
| TrafficTree.StoppedTreeOnlyStarts | src/tree/TrafficInspectorProvider.js:23-99 | While stopped, exactly the first root item, the start item, is clickable. |
| TrafficTree.TrafficInspectorProvider.constructor | src/tree/TrafficInspectorProvider.js:7-12 | Starts not running, with no refresh fired. |
| TrafficTree.TrafficInspectorProvider.Refresh | src/tree/TrafficInspectorProvider.js:14-16 | Fires one change event. |
| TrafficTree.TrafficInspectorProvider.UpdateServerStatus | src/tree/TrafficInspectorProvider.js:18-21 | Remembers one probe's answer, then fires one refresh. |
| TrafficTree.TrafficInspectorProvider.GetChildren | src/tree/TrafficInspectorProvider.js:54-99 | Building the list by pushing gives `Children` of the remembered flag. |
| TrafficTree.TrafficInspectorProvider.GetTreeItem | src/tree/TrafficInspectorProvider.js:23-52 | A real item carries the element's label. A described item only occurs while stopped, and then has no command. |
| Activate.OpenGuard | src/extension/activate.js:45-65 | On the probe and answer queues: a panel is created or revealed exactly when the first probe got a 200 response. Otherwise a start is offered, and the start command runs exactly when the answer is "Start Server", never when the warning is dismissed. |
| Activate.StopGuard | src/extension/activate.js:93-111 | On the probe and answer queues: the question is asked exactly when the first probe got a 200 response. The server is killed exactly when the answer is then "Yes"; a dismissed question or "No" kills nothing. |
| Activate.Extension.constructor | src/extension/activate.js:16-17 | A fresh provider, not running, and an empty panel register. |
| Activate.Extension.CheckStatus | src/extension/activate.js:8-14 | The result is the first probe's answer. With a provider, the provider then probes again and refreshes. |
| Activate.Extension.OnWindowStateChange | src/extension/activate.js:26-32 | On focus, a one-second wait and then a check with the provider; otherwise nothing. |
| Activate.Extension.OnVisibilityChange | src/extension/activate.js:34-38 | When the tree becomes visible, a check with the provider; otherwise nothing. |
| Activate.Extension.StartServerCommand | src/extension/activate.js:40-43 | The ensure flow runs to its end, then the provider probes once and refreshes. The question's answer is used only when the first probe failed, one settings fetch follows a successful ensure, and the cache changes only when that fetch succeeds. |
| Activate.Extension.RefreshCommand | src/extension/activate.js:67-69 | The provider probes once and refreshes. |
| Activate.Extension.OpenPanelCommand | src/extension/activate.js:45-91 | Stopped: the warning with "Start Server", which runs the start command exactly on that choice. No panel is created, no setup check runs, and a registered panel keeps its contents and reveal count. Running: `createDatabasePanel`; a registered panel is revealed with its contents unchanged, and a fresh one starts with no posted message and no reveal. |
| Activate.Extension.StopCommand | src/extension/activate.js:93-111 | Stopped: a notice. Running: a modal question. On "Yes", the stop flow and then a provider refresh; otherwise nothing is killed. |
| Analyze.NotSupportedUsesFirstCode | src/llm/analyze.js:1-9 | Only the first non-empty code counts. A different `code` hides a `model_not_supported` nested code, `param` counts only when both codes are empty, and the message alone can also classify. |
| Analyze.UserContent | src/llm/analyze.js:47-49 | The prompt alone without context. With context, the text starts with "Context:\n" and the context. It always ends with the prompt. |
| Analyze.SelectModels | src/llm/analyze.js:30-43 | One selection with the vendor filter, or unconstrained when the filter is empty. A second, unconstrained selection happens exactly when a filter was set and the first selection resolved to no model. The models are those of the last selection, and the selection rejects exactly when that last call rejects. |
| Analyze.VendorFilter | src/llm/analyze.js:29 | A falsy setting gives the empty filter, a string gives its trimmed text, and a truthy non-string makes `.trim()` throw. |
| Analyze.ResultText | src/llm/analyze.js:62-66 | Never empty: the trimmed answer, or "(No response)" when it is blank. |
| Analyze.TryStep | src/llm/analyze.js:59-73 | One loop step: an answer returns, an unsupported-model error continues with the next model, any other error stops the loop. |
| Analyze.SkipAhead | src/llm/analyze.js:59-74 | Models that failed as unsupported are passed over: the loop behaves as if it started after them. |
| Analyze.FirstNonSkippedDecides | src/llm/analyze.js:58-84 | Models are tried in order; the first model that does not fail as unsupported decides the outcome. |
| Analyze.AnalysisAsks | src/llm/analyze.js:21-85 | Without the API: the unavailable error, and nothing is selected or asked. With no model after the fallback: the no-model error, and no model asked. Otherwise the loop over the selected models gives the outcome, after asking at least one and at most all of them. |
| Analyze.RejectsExactly | src/llm/analyze.js:21-43 | The analysis rejects exactly when the API exists and either the vendor setting is a truthy non-string or the last selection rejects. No model is asked then. |
| Analyze.TriedBounds | src/llm/analyze.js:59-74 | The loop asks at least one and at most all of the models. |
| Analyze.RequestLlmAnalysis | src/llm/analyze.js:21-85 | The outcome is that of `AnalysisRun`, a rejection included. |
| Analyze.AskInOrder | src/llm/analyze.js:58-84 | The loop with its fragment accumulation gives the outcome of `TryFrom` from the first model. |
| LlmBridge.BridgeSettings | src/llm/server.js:15-25 | Only an explicit `false` disables the bridge. The port is the first of requested, configured and default that is neither null nor undefined. |
| LlmBridge.AnsweredUnlessRejected | src/llm/server.js:27-83 | A request goes unanswered exactly when the analysis it asked for rejects (line 74 awaits it without a `try`). Every response carries the CORS headers. |
| LlmBridge.Classify | src/llm/server.js:34-62 | OPTIONS gets 204. Any other method or URL gets 404. A body that does not parse gets 400. None of these runs an analysis. |
| LlmBridge.PromptRule | src/llm/server.js:64-82 | A missing, non-string or blank prompt gets 400 and no analysis. Otherwise exactly one analysis runs, on the trimmed prompt and the context. Its outcome is the 200 body, or, when it rejects, the request is never answered. |
| LlmBridge.AsWrittenNullBodyHangs | src/llm/server.js:64 | The JSON body `null` makes the handler as written throw and never answer; the corrected handler answers 400. |
| LlmBridge.AsWrittenAgreesOtherwise | src/llm/server.js:54-82 | For any other parse result the handler as written and the corrected one agree. |
| LlmBridge.HandleRequest | src/llm/server.js:27-83 | Reading the body chunk by chunk gives the exchange `Handle` defines. |
| Validate.PairKeys | scripts/validate.js:56-77 | A key is in the COMMAND_IDS map exactly when some `key: 'value'` pair has it. |
| Validate.LastPairWins | scripts/validate.js:66-73 | A key holds the value of the last pair that assigns it. |
| Validate.ParseCommandIdsMap | scripts/validate.js:56-77 | The recursive walk builds `CommandIdsMap`, which is empty without a COMMAND_IDS block. |
| Validate.MappedIdsIff | scripts/validate.js:95-106 | An id comes from the constants walk exactly when some referenced key maps to it and it is non-empty. |
| Validate.RegisteredIff | scripts/validate.js:79-111 | An id is registered exactly when it is registered literally or a referenced key maps to it. Without a COMMAND_IDS block only literals count. |
| Validate.NothingMapped | scripts/validate.js:59-61 | An empty map yields no id, whatever keys are referenced. |
| Validate.ExtractRegisteredCommands | scripts/validate.js:79-111 | The two walks give `RegisteredCommands`. |
| Validate.ExtractCreatedTreeViews | scripts/validate.js:113-136 | The literal ids, plus the `VIEW_ID_TRAFFIC` value when it is used and non-empty. |
| Validate.OneErrorPerMissingField | scripts/validate.js:196-201 | With distinct field names, each missing or falsy required field adds exactly one error and a present one none. |
| Validate.FieldErrorsOnly | scripts/validate.js:196-201 | The field rule keeps what was logged, adds only missing-field errors, and never warns or throws. |
| Validate.CommandCrash | scripts/validate.js:218-226 | The command rule throws exactly when some entry is `null` or `undefined`, and it never warns. |
| Validate.CommandErrors | scripts/validate.js:218-226 | The command rule keeps what was logged before, and each error it adds is the invalid-command error of one of the entries. |
| Validate.BadCommandsCovered | scripts/validate.js:218-226 | Unless it threw, every entry without a truthy `command` or `title` is reported. |
| Validate.UnregisteredErrors | scripts/validate.js:286-292 | The registration check never warns or throws, and each error it adds names a contributed command that is not registered. |
| Validate.UnregisteredCovered | scripts/validate.js:286-292 | Every contributed command whose truthy id is not registered is reported. |
| Validate.ViewErrors | scripts/validate.js:228-235 | Within a container, each error the view rule adds is the invalid-view error of one of its views. |
| Validate.BadViewsCovered | scripts/validate.js:228-235 | Unless it threw, every view without a truthy `id` or `name` is reported. |
| Validate.UncreatedViewErrors | scripts/validate.js:294-303 | The tree-view check never warns or throws, and each error it adds names a view whose id is not created. |
| Validate.UncreatedViewCovered | scripts/validate.js:294-303 | Every contributed view whose truthy id is not created is reported. |
| Validate.NameRuleEffect | scripts/validate.js:203-205 | The name rule never warns. It adds at most one error, the "@" error, exactly when a string name contains "@" or an array name has the element "@". It throws exactly for a name that is neither absent, a string nor an array, because `includes` is not a function there. |
| Validate.DependenciesOnlyWarn | scripts/validate.js:244-250 | The dependency rule adds no error and never throws. |
| Validate.WarningRulesKeepExitCode | scripts/validate.js:214-366 | The icon, activation-event, dependency, process-handling and common-issue rules never change the exit code; the process-handling checks add no error. |
| Validate.Validator.constructor | scripts/validate.js:12-13 | Both lists start empty and nothing has thrown. |
| Validate.Validator.LogError | scripts/validate.js:15-18 | Appends one error. |
| Validate.Validator.LogWarning | scripts/validate.js:20-23 | Appends one warning. |
| Validate.Validator.Throw | scripts/validate.js:203 | An uncaught TypeError: the run is over. |
| Validate.Validator.ValidateFileStructure | scripts/validate.js:163-180 | One error per missing required path, in order, and the result is true. |
| Validate.Validator.ReadJsonFile | scripts/validate.js:29-36 | A file that cannot be read or parsed logs one error and gives `null`. |
| Validate.Validator.ReadTextFile | scripts/validate.js:38-45 | A file that cannot be read logs one error and gives `null`. |
| Validate.Validator.CheckFields | scripts/validate.js:196-201 | Does what `FieldsChecked` says over the six required fields. |
| Validate.Validator.CheckName | scripts/validate.js:203-205 | Does what `NameRule` says. |
| Validate.Validator.CheckMainAndIcon | scripts/validate.js:207-216 | A missing main file is an error; a missing icon file is a warning; a truthy path that is not a string throws. |
| Validate.Validator.CheckCommand | scripts/validate.js:219-222 | One entry; reading `command` of `null` or `undefined` throws. |
| Validate.Validator.CheckView | scripts/validate.js:230-233 | One view of a container. |
| Validate.Validator.CheckCommands | scripts/validate.js:219-223 | The loop gives `CommandsChecked`; once an entry has thrown, the rest are not visited. |
| Validate.Validator.CheckViews | scripts/validate.js:230-234 | The loop gives `ViewsChecked`. |
| Validate.Validator.CheckContainers | scripts/validate.js:228-238 | The loop over view containers gives `ContainersChecked`; a container whose views cannot be iterated throws. |
| Validate.Validator.CheckDependencies | scripts/validate.js:244-250 | One warning per `file:` or `github:` dependency. |
| Validate.Validator.CheckContributes | scripts/validate.js:218-250 | The command, view, activation-event and dependency rules in order. |
| Validate.Validator.ValidatePackageJson | scripts/validate.js:182-253 | Does what `PackageJson` says. A missing or unreadable manifest gives false after one error. |
| Validate.Validator.ValidateExtensionEntrypoint | scripts/validate.js:255-272 | No `module.exports` is an error; no delegation to `./src/extension` is a warning; an unreadable or empty file gives false. |
| Validate.Validator.GetAllSourceText | scripts/validate.js:138-161 | Reads `extension.js` and the `.js` files under `src`, in turn, and joins the non-empty texts with newlines. |
| Validate.Validator.ReportUnregistered | scripts/validate.js:286-292 | Does what `Unregistered` says. |
| Validate.Validator.ReportUncreatedViews | scripts/validate.js:296-302 | Does what `UncreatedViews` says. |
| Validate.Validator.ReportUncreated | scripts/validate.js:294-303 | Does what `Uncreated` says. |
| Validate.Validator.ValidateContributionsMatchCode | scripts/validate.js:274-306 | Does what `Contributions` says: the manifest is re-read, the sources scanned, and unregistered commands and uncreated views reported. |
| Validate.Validator.CheckServerReferences | scripts/validate.js:312-327 | The port and package checks are errors; the base-URL check is a warning. |
| Validate.Validator.CheckProcessHandling | scripts/validate.js:329-345 | The `npx` spawn, `-y` and kill-strategy checks are warnings. |
| Validate.Validator.ValidateMcpSharkIntegration | scripts/validate.js:308-348 | Does what `Integration` says, and the result is true. |
| Validate.Validator.CheckCommonIssues | scripts/validate.js:350-369 | One warning per missing `node_modules`, `.vscodeignore` or `README.md`. |
| Validate.Validator.RunRemainingSteps | scripts/validate.js:376-379 | The steps after the manifest checks, in order. |
| Validate.Validator.RunValidation | scripts/validate.js:371-407 | Every step in order. The exit code is 0 exactly when nothing threw and no error was logged, and 1 otherwise. |

## Left out

- Timers (`setTimeout`, `setInterval`) are effects in the log (`Sleep`), and callbacks run to completion in order. Interleaving of concurrent handlers and overlapping interval ticks is not modelled.
- Lifecycle.Lifecycle.Attempts: the interval callback runs sequentially, one tick after the other. A slow probe that lets two ticks overlap is not modelled.
- The kill command is represented by the port it targets (`KillByPort`). The platform's command text is not modelled.
- HTML rendering (`src/webview/iframeHtml.js`) is not part of this model: a page is its kind, its route and its message text.
- Editor APIs are an oracle: questions, notifications, command execution, tree and webview creation, and disposal. Command registration and `context.subscriptions` are not modelled.
- Activate.Extension.OpenPanelCommand: running the start command is logged as an effect. Its re-entry into the start handler is not modelled.
- The network, the clock, `JSON.parse`, the file system and the regular-expression scans in the validator are parameters or oracle queues. `JSON.parse("{}")` is taken to be the empty object.
- Http.Snippet: strings are sequences of Unicode characters, while `raw.slice(0, 200)` counts UTF-16 code units. For a body with characters outside the Basic Multilingual Plane, the modelled excerpt can hold up to twice as many code units, and it never splits a surrogate pair as the source can.
- Validate.Entries: `Object.entries` of a string yields one entry per UTF-16 code unit; the model yields one per character.
- Integers are unbounded. Status codes and timestamps never wrap.
- JavaScript property lookup ignores the prototype chain: a key such as `toString` is not inherited.
- Js.Lookup: an object is its properties in the order the parse oracle gives. The first property with a key wins, while `JSON.parse` keeps the last duplicate; and `Object.entries` lists integer-like keys first. Both agree with the source when the oracle returns objects without duplicate keys and in the engine's own key order.
- Lifecycle.Lifecycle.Stop: the `console.log` of a failed kill is not an effect. Console output is modelled only in the validator, as its error and warning lists.
- Path joining and normalisation in the validator are not modelled: paths are strings compared as written.
- Message texts of the validator are abstracted to `Issue` kinds with their values, and console output and `process.exit` to the returned exit code.
- Validate.Validator: a thrown TypeError sets `crashed`; the remaining loop iterations then do nothing, and the `ok` results returned after a throw carry no meaning.
- Validate.NameRuleEffect: a name that is neither a string nor an array (a number, an object) is modelled as throwing; an object with its own `includes` method is not modelled.
- `stopLlmBridgeServer` and the socket work of `listen` (binding, `127.0.0.1`) are not modelled; a throwing `listen` is a parameter.
- The cancellation token of `requestLlmAnalysis` is not modelled.
- Analyze.SelectModels: a selection that resolves to `null` or `undefined` is represented as one that resolves to no model; the source treats the two alike.
- `src/llm/index.js`, `src/webview/index.js` and `src/constants/index.js` are not part of this model except for the constants they define. `MCP_SHARK_LLM_BRIDGE_PORT_DEFAULT` is not defined by `src/constants/index.js`, so it reads as `undefined`.

## Findings

| source | as written | input that shows it | evidently intended | confidence | as-written member | corrected member |
|---|---|---|---|---|---|---|
| src/webview/panel.js:4 | imports `isMcpSharkSetupComplete` from `../mcp-shark`, whose `index.js` does not export it, so every call throws a TypeError | opening the panel while the server runs: the panel stays blank and gets no message handler; later opens only reveal that blank panel | a setup check that answers, routing the iframe to "traffic" or "setup" | high (not executed) | PanelRouter.AsWrittenNeverShowsIframe | PanelRouter.CreateCases |
| src/llm/server.js:64 | reads `payload.prompt` without a guard | `POST /analyze` with the body `null`: `JSON.parse` gives `null`, reading `prompt` throws and the request is never answered | a 400 "Missing or empty 'prompt' in body" answer | high (not executed) | LlmBridge.AsWrittenNullBodyHangs | LlmBridge.PromptRule |
