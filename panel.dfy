/** `createDatabasePanel`: the MCP Shark webview panel, and the two message handlers it installs
    (one for the start page, one for the iframe page). */
module PanelRouter {
  import opened Wrappers
  import opened Js
  import Http
  import Analyze
  import opened Host
  import opened Webview
  import opened PanelState
  import opened Settings
  import Lifecycle

  const StartWaitMs: nat := 3000
  const StopWaitMs: nat := 2000

  const StillStartingText: string := "Server may still be starting. Please wait a moment and try again."
  const StoppedAgainText: string := "MCP Shark server stopped. Please start it again."
  const HasBeenStoppedText: string := "MCP Shark server has been stopped."

  /** The iframe route: the traffic view once setup is complete, the setup view before. */
  function RouteFor(complete: bool): Route {
    if complete then Traffic else Setup
  }

  /* The answer of the setup-state check is an `Option<bool>` below: `Some(complete)` when the
     check answers, `None` when calling it throws (see README "Findings"). */

  /** What the panel shows after a probe found the server: the iframe on the route the setup
      check picks, or nothing (the page stays as it was) when the check throws. */
  function ServerUpShows(setup: Option<bool>): seq<View> {
    if setup.Some? then [FrameView(RouteFor(setup.value))] else []
  }

  function SetupEffects(setup: Option<bool>): seq<Effect> {
    if setup.Some? then [CheckSetup] else []
  }

  /** What one handler run does: its effects on the host, the views it assigns to the panel and
      the messages it posts to it, each in order. */
  datatype Reaction = Reaction(effects: seq<Effect>, shows: seq<View>, posts: seq<Posted>)

  const Ignored: Reaction := Reaction([], [], [])

  predicate ShowsIframe(r: Reaction) {
    exists i :: 0 <= i < |r.shows| && r.shows[i].FrameView?
  }

  /** The page after `shows` were assigned in turn to a panel showing `before`. */
  function PageAfter(before: Page, shows: seq<View>): Page {
    if shows == [] then before else PageOf(shows[|shows| - 1])
  }

  /** What `createDatabasePanel` does: reveal the registered panel, or create one whose content
      and handler depend on the first probe. */
  datatype Creation = Reused | Created(reaction: Reaction, mode: Option<Mode>)

  function Create(existing: bool, running: bool, setup: Option<bool>): Creation {
    if existing then Reused
    else if !running then Created(Reaction([Lifecycle.ProbeEffect], [StartView(None)], []), Some(StartMode))
    else if setup.None? then Created(Reaction([Lifecycle.ProbeEffect], [], []), None)
    else Created(Reaction([Lifecycle.ProbeEffect, CheckSetup], ServerUpShows(setup), []), Some(IframeMode))
  }

  /** Start page, "checkStatus": the iframe when the server answers, otherwise a
      `statusUpdate` with `running: false`. */
  function StartCheck(running: bool, setup: Option<bool>): Reaction {
    if running then Reaction([Lifecycle.ProbeEffect] + SetupEffects(setup), ServerUpShows(setup), [])
    else Reaction([Lifecycle.ProbeEffect], [], [StatusUpdate(false)])
  }

  /** Start page, "startServer": the output page, `ensureMcpSharkRunning` (which ran as
      `ensured`), a 3 s wait and one probe whose answer is `running`. */
  function StartServer(ensured: Lifecycle.Run, running: bool, setup: Option<bool>): Reaction {
    var timer := StartTimer(running, setup);
    Reaction(ensured.effects + timer.effects, [StartView(None)] + timer.shows, [])
  }

  /** The 3 s timer after a start: one probe, then the iframe or the "still starting" page. */
  function StartTimer(running: bool, setup: Option<bool>): Reaction {
    Reaction([Sleep(StartWaitMs), Lifecycle.ProbeEffect] + (if running then SetupEffects(setup) else []),
             if running then ServerUpShows(setup) else [StartView(Some(StillStartingText))],
             [])
  }

  /** Iframe page, "checkStatus": back to the start page when the server is gone, otherwise
      the iframe again on a freshly checked route. */
  function IframeCheck(running: bool, setup: Option<bool>): Reaction {
    if running then Reaction([Lifecycle.ProbeEffect] + SetupEffects(setup), ServerUpShows(setup), [])
    else Reaction([Lifecycle.ProbeEffect], [StartView(Some(StoppedAgainText))], [])
  }

  /** Iframe page, "stopServer": `stopMcpSharkServer` (which ran as `stopped`), a 2 s wait and
      one probe whose answer is `running`; the start page only when the server is gone. */
  function StopServer(stopped: Lifecycle.Run, running: bool): Reaction {
    Reaction(stopped.effects + [Sleep(StopWaitMs), Lifecycle.ProbeEffect],
             if running then [] else [StartView(Some(HasBeenStoppedText))], [])
  }

  /** The `requestLlmAnalysisResult` message for an analysis outcome: `result` or `error`. */
  function ResultMessage(o: Analyze.Outcome): Posted {
    match o
    case Analysis(text) => AnalysisResult(Some(text), None)
    case Failure(text) => AnalysisResult(None, Some(text))
  }

  /** The prompt and context of a "requestLlmAnalysis" message: a missing or non-string field
      reads as "". */
  function PromptOf(msg: JsValue): string {
    StringOrEmpty(Field(msg, "prompt"))
  }

  function ContextOf(msg: JsValue): string {
    StringOrEmpty(Field(msg, "context"))
  }

  /** Iframe page, "requestLlmAnalysis": one analysis, and one result message unless the
      analysis rejects (the handler then throws before posting). */
  function AnalysisReaction(env: Analyze.LmEnv, msg: JsValue): Reaction {
    match Analyze.AnalysisRun(env, PromptOf(msg), ContextOf(msg)).outcome
    case Some(o) => Reaction([], [], [ResultMessage(o)])
    case None => Ignored
  }

  /** `message.command === name`. A `null` or `undefined` message makes reading `command`
      throw, which matches no command. */
  predicate IsCommand(msg: JsValue, name: string) {
    Property(msg, "command") == Some(Str(name))
  }

  /** Creating a panel when none is registered: one probe; a stopped server gets the start page
      and the start-page handler; a running one gets the iframe, on the traffic route exactly
      when setup is complete, and the iframe handler. A registered panel is only revealed. */
  lemma CreateCases(running: bool, complete: bool)
    ensures Create(true, running, Some(complete)) == Reused
    ensures var c := Create(false, running, Some(complete));
            && c.Created? && c.reaction.effects[0] == Lifecycle.ProbeEffect && c.reaction.posts == []
            && (ShowsIframe(c.reaction) <==> running)
            && (c.mode == Some(IframeMode) <==> running)
            && |c.reaction.shows| == 1
            && (running ==> c.reaction.shows[0] == FrameView(RouteFor(complete)))
            && (!running ==> c.reaction.shows[0] == StartView(None))
  {
    if running {
      assert Create(false, running, Some(complete)).reaction.shows[0].FrameView?;
    }
  }

  /** "checkStatus" on either page makes exactly one probe and shows the iframe exactly when it
      finds the server. On the start page a stopped server gets a status message instead of a
      new page; on the iframe page it gets the start page with the "stopped" message. */
  lemma CheckCases(running: bool, complete: bool)
    ensures var s := StartCheck(running, Some(complete));
            && s.effects[0] == Lifecycle.ProbeEffect
            && (ShowsIframe(s) <==> running)
            && (s.shows == [] <==> !running)
            && s.posts == (if running then [] else [StatusUpdate(false)])
    ensures var f := IframeCheck(running, Some(complete));
            && f.effects[0] == Lifecycle.ProbeEffect && f.posts == [] && |f.shows| == 1
            && (ShowsIframe(f) <==> running)
            && (!running ==> f.shows == [StartView(Some(StoppedAgainText))])
  {
    if running {
      assert StartCheck(running, Some(complete)).shows[0].FrameView?;
      assert IframeCheck(running, Some(complete)).shows[0].FrameView?;
    }
  }

  /** "startServer" first shows the start page with its output area, then runs
      `ensureMcpSharkRunning`, and after the wait shows exactly one more page: the iframe when
      the probe finds the server (whatever `ensureMcpSharkRunning` returned), otherwise the
      "may still be starting" page. */
  lemma StartServerCases(ensured: Lifecycle.Run, running: bool, complete: bool)
    ensures var r := StartServer(ensured, running, Some(complete));
            && r.shows[0] == StartView(None) && |r.shows| == 2
            && r.effects[..|ensured.effects|] == ensured.effects
            && (r.shows[1].FrameView? <==> running)
            && (!running ==> r.shows[1] == StartView(Some(StillStartingText)))
            && r.posts == []
  {
  }

  /** "stopServer" never shows the iframe; it shows the "has been stopped" page exactly when
      the probe after the wait finds the server gone, and otherwise leaves the page as it was. */
  lemma StopServerCases(stopped: Lifecycle.Run, running: bool)
    ensures var r := StopServer(stopped, running);
            && !ShowsIframe(r)
            && r.effects[..|stopped.effects|] == stopped.effects
            && (r.shows == [] <==> running)
            && r.posts == []
  {
    if !running {
      assert StopServer(stopped, running).shows == [StartView(Some(HasBeenStoppedText))];
    }
  }

  /** "requestLlmAnalysis" posts exactly one message when the analysis settles and none when it
      rejects. The message carries exactly one of `result` and `error`: the answer text for an
      answer, the error text for a failure. A prompt or context that is not a string is sent
      as "". */
  lemma AnalysisCases(env: Analyze.LmEnv, msg: JsValue)
    ensures var r := AnalysisReaction(env, msg);
            var outcome := Analyze.AnalysisRun(env, PromptOf(msg), ContextOf(msg)).outcome;
            && r.effects == [] && r.shows == []
            && |r.posts| == (if outcome.Some? then 1 else 0)
            && (outcome.Some? ==>
                  && r.posts[0].AnalysisResult?
                  && (r.posts[0].result.Some? <==> r.posts[0].error.None?)
                  && (outcome.value.Analysis? ==> r.posts[0].result == Some(outcome.value.result))
                  && (outcome.value.Failure? ==> r.posts[0].error == Some(outcome.value.error)))
    ensures !Field(msg, "prompt").Str? ==> PromptOf(msg) == ""
    ensures !Field(msg, "context").Str? ==> ContextOf(msg) == ""
  {
  }

  /** The names `src/mcp-shark/index.js` exports. */
  const McpSharkExports: set<string> :=
    {"ensureMcpSharkRunning", "fetchMcpSharkSettings", "getCachedMcpSharkSettings", "isMcpSharkRunning", "stopMcpSharkServer"}

  /** Calling the imported `isMcpSharkSetupComplete` as the code is written: the check's answer
      when the module exports the name, and a TypeError (`None`) when it does not. */
  function SetupCheckAsWritten(exports: set<string>, complete: bool): Option<bool> {
    if "isMcpSharkSetupComplete" in exports then Some(complete) else None
  }

  /** As written, no path ever shows the iframe: a new panel for a running server stays blank,
      registered and without a handler (so later calls only reveal the blank panel), and the
      start-page handler leaves the page as it is when the server answers. The iframe handler
      is never installed. */
  lemma AsWrittenNeverShowsIframe(existing: bool, running: bool, complete: bool, ensured: Lifecycle.Run)
    ensures var setup := SetupCheckAsWritten(McpSharkExports, complete);
            && setup == None
            && (var c := Create(existing, running, setup);
                c.Created? ==> !ShowsIframe(c.reaction) && c.mode != Some(IframeMode))
            && !ShowsIframe(StartCheck(running, setup))
            && !ShowsIframe(StartServer(ensured, running, setup))
    ensures running ==>
              Create(false, running, SetupCheckAsWritten(McpSharkExports, complete))
              == Created(Reaction([Lifecycle.ProbeEffect], [], []), None)
  {
    assert "isMcpSharkSetupComplete" !in McpSharkExports;
    var r := StartServer(ensured, running, None);
    if !running {
      assert r.shows == [StartView(None), StartView(Some(StillStartingText))];
    }
  }

  /** The first `n` elements of a queue's first reply, read after those `n` were consumed. */
  lemma ProbeAfter(q: seq<Http.Reply>, n: nat)
    ensures Lifecycle.ProbeAt(Drop(q, n), 0) == Lifecycle.ProbeAt(q, n)
  {
    DropAt(q, n, 0, Http.NoReply);
  }

  /** A handler run did `r` to the host's log and to the panel. */
  twostate predicate Reacted(host: Host, panel: Panel, r: Reaction)
    reads host, panel
  {
    && host.log == old(host.log) + r.effects
    && panel.shown == old(panel.shown) + r.shows
    && panel.posted == old(panel.posted) + r.posts
    && panel.page == PageAfter(old(panel.page), r.shows)
  }

  /** `createDatabasePanel`: reveal the registered panel, or create, register and fill a new
      one (with the setup check of the corrected reading, see README "Findings"). */
  method CreateDatabasePanel(host: Host, lc: Lifecycle.Lifecycle, reg: ActivePanelState) returns (panel: Panel)
    requires reg.Valid()
    modifies reg, reg.value, host`probes, host`setupStates, host`log
    ensures reg.Valid()
    ensures old(reg.value) != null ==>
              && panel == old(reg.value) && panel.revealCount == old(reg.value.revealCount) + 1
              && panel.page == old(reg.value.page) && panel.shown == old(reg.value.shown)
              && panel.posted == old(reg.value.posted) && panel.mode == old(reg.value.mode)
              && reg.value == old(reg.value) && reg.events == old(reg.events)
              && host.log == old(host.log) && host.probes == old(host.probes)
              && host.setupStates == old(host.setupStates)
    ensures var running := Lifecycle.Reachable(Lifecycle.ProbeAt(old(host.probes), 0));
            var c := Create(old(reg.value) != null, running, Some(At(old(host.setupStates), 0, false)));
            old(reg.value) == null ==>
              && fresh(panel) && c.Created?
              && panel.shown == c.reaction.shows && panel.page == PageAfter(Blank, c.reaction.shows)
              && panel.posted == [] && panel.revealCount == 0 && panel.mode == c.mode
              && host.log == old(host.log) + c.reaction.effects
              && host.probes == Drop(old(host.probes), 1)
              && host.setupStates == Drop(old(host.setupStates), if running then 1 else 0)
              && reg.value == panel && reg.events == old(reg.events) + [Event.Set(Some(panel))]
  {
    var existing := reg.Get();
    if existing != null {
      existing.Reveal();
      return existing;
    }
    panel := CreateFreshPanel(host, lc, reg);
  }

  /** The creating half of `createDatabasePanel`, once no panel is registered. */
  method CreateFreshPanel(host: Host, lc: Lifecycle.Lifecycle, reg: ActivePanelState) returns (panel: Panel)
    requires reg.Valid() && reg.value == null
    modifies reg, host`probes, host`setupStates, host`log
    ensures reg.Valid()
    ensures var running := Lifecycle.Reachable(Lifecycle.ProbeAt(old(host.probes), 0));
            var c := Create(false, running, Some(At(old(host.setupStates), 0, false)));
            && fresh(panel) && c.Created?
            && panel.shown == c.reaction.shows && panel.page == PageAfter(Blank, c.reaction.shows)
            && panel.posted == [] && panel.revealCount == 0 && panel.mode == c.mode
            && host.log == old(host.log) + c.reaction.effects
            && host.probes == Drop(old(host.probes), 1)
            && host.setupStates == Drop(old(host.setupStates), if running then 1 else 0)
            && reg.value == panel && reg.events == old(reg.events) + [Event.Set(Some(panel))]
  {
    panel := new Panel();
    reg.Set(panel);
    var running := lc.IsRunning(host);
    if !running {
      panel.Show(StartView(None));
      panel.Listen(StartMode);
      return;
    }
    var complete := host.SetupComplete();
    panel.Show(FrameView(RouteFor(complete)));
    panel.Listen(IframeMode);
    assert [Lifecycle.ProbeEffect] + [CheckSetup] == [Lifecycle.ProbeEffect, CheckSetup];
  }

  /** The start-page handler. */
  method OnStartPageMessage(host: Host, lc: Lifecycle.Lifecycle, panel: Panel, msg: JsValue)
    modifies host`probes, host`gets, host`answers, host`setupStates, host`clock, host`log, lc.settingsCache
    modifies panel`page, panel`shown, panel`posted
    ensures IsCommand(msg, "startServer") ==>
              var ensured := Lifecycle.EnsureRun(old(host.probes), At(old(host.answers), 0, None));
              Reacted(host, panel, StartServer(ensured, Lifecycle.Reachable(Lifecycle.ProbeAt(old(host.probes), ensured.probesUsed)),
                                               Some(At(old(host.setupStates), 0, false))))
    ensures IsCommand(msg, "startServer") ==>
              RefreshLeaves(Lifecycle.EnsureRun(old(host.probes), At(old(host.answers), 0, None)).ok,
                            SettingsFetch(At(old(host.gets), 0, Http.NoReply), host.parse),
                            old(Settings.View(host, lc.settingsCache)), Settings.View(host, lc.settingsCache))
    ensures IsCommand(msg, "startServer") ==>
              var ensured := Lifecycle.EnsureRun(old(host.probes), At(old(host.answers), 0, None));
              && host.probes == Drop(old(host.probes), ensured.probesUsed + 1)
              && host.setupStates == Drop(old(host.setupStates),
                                          if Lifecycle.Reachable(Lifecycle.ProbeAt(old(host.probes), ensured.probesUsed)) then 1 else 0)
              && host.answers == Drop(old(host.answers), if Lifecycle.Reachable(Lifecycle.ProbeAt(old(host.probes), 0)) then 0 else 1)
              && host.gets == Drop(old(host.gets), if ensured.ok then 1 else 0)
    ensures IsCommand(msg, "checkStatus") ==>
              var running := Lifecycle.Reachable(Lifecycle.ProbeAt(old(host.probes), 0));
              && Reacted(host, panel, StartCheck(running, Some(At(old(host.setupStates), 0, false))))
              && host.probes == Drop(old(host.probes), 1)
              && host.setupStates == Drop(old(host.setupStates), if running then 1 else 0)
    ensures !IsCommand(msg, "startServer") && !IsCommand(msg, "checkStatus") ==>
              Reacted(host, panel, Ignored) && host.probes == old(host.probes) && host.setupStates == old(host.setupStates)
    ensures !IsCommand(msg, "startServer") ==>
              && host.answers == old(host.answers) && host.gets == old(host.gets)
              && Settings.View(host, lc.settingsCache) == old(Settings.View(host, lc.settingsCache))
  {
    if IsCommand(msg, "startServer") {
      StartServerClicked(host, lc, panel);
      return;
    }
    if IsCommand(msg, "checkStatus") {
      StartPageCheck(host, lc, panel);
    }
  }

  method StartServerClicked(host: Host, lc: Lifecycle.Lifecycle, panel: Panel)
    modifies host`probes, host`gets, host`answers, host`setupStates, host`clock, host`log, lc.settingsCache
    modifies panel`page, panel`shown
    ensures var ensured := Lifecycle.EnsureRun(old(host.probes), At(old(host.answers), 0, None));
            var running := Lifecycle.Reachable(Lifecycle.ProbeAt(old(host.probes), ensured.probesUsed));
            && Reacted(host, panel, StartServer(ensured, running, Some(At(old(host.setupStates), 0, false))))
            && host.probes == Drop(old(host.probes), ensured.probesUsed + 1)
            && host.setupStates == Drop(old(host.setupStates), if running then 1 else 0)
            && host.answers == Drop(old(host.answers), if Lifecycle.Reachable(Lifecycle.ProbeAt(old(host.probes), 0)) then 0 else 1)
            && host.gets == Drop(old(host.gets), if ensured.ok then 1 else 0)
    ensures RefreshLeaves(Lifecycle.EnsureRun(old(host.probes), At(old(host.answers), 0, None)).ok,
                          SettingsFetch(At(old(host.gets), 0, Http.NoReply), host.parse),
                          old(Settings.View(host, lc.settingsCache)), Settings.View(host, lc.settingsCache))
  {
    ghost var q := host.probes;
    ghost var log0 := host.log;
    ghost var shown0 := panel.shown;
    ghost var ensured := Lifecycle.EnsureRun(q, At(host.answers, 0, None));
    ShowStartingAndEnsure(host, lc, panel);
    ProbeAfter(q, ensured.probesUsed);
    DropDrop(q, ensured.probesUsed, 1);
    StartTimerFired(host, lc, panel);
    ghost var running := Lifecycle.Reachable(Lifecycle.ProbeAt(q, ensured.probesUsed));
    ghost var timer := StartTimer(running, Some(At(old(host.setupStates), 0, false)));
    AppendAssoc(log0, ensured.effects, timer.effects);
    AppendAssoc(shown0, [StartView(None)], timer.shows);
  }

  /** The start handler up to its timer: the start page, then `ensureMcpSharkRunning`. */
  method ShowStartingAndEnsure(host: Host, lc: Lifecycle.Lifecycle, panel: Panel)
    modifies host`probes, host`gets, host`answers, host`clock, host`log, lc.settingsCache
    modifies panel`page, panel`shown
    ensures var ensured := Lifecycle.EnsureRun(old(host.probes), At(old(host.answers), 0, None));
            && Reacted(host, panel, Reaction(ensured.effects, [StartView(None)], []))
            && host.probes == Drop(old(host.probes), ensured.probesUsed)
            && host.answers == Drop(old(host.answers), if Lifecycle.Reachable(Lifecycle.ProbeAt(old(host.probes), 0)) then 0 else 1)
            && host.gets == Drop(old(host.gets), if ensured.ok then 1 else 0)
    ensures RefreshLeaves(Lifecycle.EnsureRun(old(host.probes), At(old(host.answers), 0, None)).ok,
                          SettingsFetch(At(old(host.gets), 0, Http.NoReply), host.parse),
                          old(Settings.View(host, lc.settingsCache)), Settings.View(host, lc.settingsCache))
  {
    panel.Show(StartView(None));
    var _ := lc.EnsureRunning(host);
  }

  /** The timer callback of the start handler. */
  method StartTimerFired(host: Host, lc: Lifecycle.Lifecycle, panel: Panel)
    modifies host`probes, host`setupStates, host`log, panel`page, panel`shown
    ensures var running := Lifecycle.Reachable(Lifecycle.ProbeAt(old(host.probes), 0));
            && Reacted(host, panel, StartTimer(running, Some(At(old(host.setupStates), 0, false))))
            && host.probes == Drop(old(host.probes), 1)
            && host.setupStates == Drop(old(host.setupStates), if running then 1 else 0)
  {
    host.Sleep(StartWaitMs);
    var running := lc.IsRunning(host);
    if running {
      var complete := host.SetupComplete();
      panel.Show(FrameView(RouteFor(complete)));
      assert [Sleep(StartWaitMs)] + [Lifecycle.ProbeEffect] + [CheckSetup] == [Sleep(StartWaitMs), Lifecycle.ProbeEffect] + [CheckSetup];
    } else {
      panel.Show(StartView(Some(StillStartingText)));
      assert [Sleep(StartWaitMs)] + [Lifecycle.ProbeEffect] == [Sleep(StartWaitMs), Lifecycle.ProbeEffect] + [];
    }
  }

  method StartPageCheck(host: Host, lc: Lifecycle.Lifecycle, panel: Panel)
    modifies host`probes, host`setupStates, host`log, panel`page, panel`shown, panel`posted
    ensures var running := Lifecycle.Reachable(Lifecycle.ProbeAt(old(host.probes), 0));
            && Reacted(host, panel, StartCheck(running, Some(At(old(host.setupStates), 0, false))))
            && host.probes == Drop(old(host.probes), 1)
            && host.setupStates == Drop(old(host.setupStates), if running then 1 else 0)
  {
    var running := lc.IsRunning(host);
    if running {
      var complete := host.SetupComplete();
      panel.Show(FrameView(RouteFor(complete)));
      assert [Lifecycle.ProbeEffect] + [CheckSetup] == [Lifecycle.ProbeEffect, CheckSetup];
    } else {
      panel.Post(StatusUpdate(false));
    }
  }

  /** The iframe-page handler. */
  method OnIframePageMessage(host: Host, lc: Lifecycle.Lifecycle, panel: Panel, msg: JsValue)
    modifies host`probes, host`setupStates, host`killFailures, host`log
    modifies panel`page, panel`shown, panel`posted
    ensures IsCommand(msg, "checkStatus") ==>
              var running := Lifecycle.Reachable(Lifecycle.ProbeAt(old(host.probes), 0));
              && Reacted(host, panel, IframeCheck(running, Some(At(old(host.setupStates), 0, false))))
              && host.probes == Drop(old(host.probes), 1)
              && host.setupStates == Drop(old(host.setupStates), if running then 1 else 0)
              && host.killFailures == old(host.killFailures)
    ensures IsCommand(msg, "stopServer") ==>
              && Reacted(host, panel, StopServer(Lifecycle.StopRun(Lifecycle.ProbeAt(old(host.probes), 0)),
                                                 Lifecycle.Reachable(Lifecycle.ProbeAt(old(host.probes), 1))))
              && host.probes == Drop(old(host.probes), 2)
              && host.killFailures == Drop(old(host.killFailures), 1)
              && host.setupStates == old(host.setupStates)
    ensures IsCommand(msg, "requestLlmAnalysis") ==> Reacted(host, panel, AnalysisReaction(host.lm, msg))
    ensures !IsCommand(msg, "checkStatus") && !IsCommand(msg, "stopServer") ==>
              host.probes == old(host.probes) && host.setupStates == old(host.setupStates)
              && host.killFailures == old(host.killFailures)
    ensures !IsCommand(msg, "checkStatus") && !IsCommand(msg, "stopServer") && !IsCommand(msg, "requestLlmAnalysis") ==>
              Reacted(host, panel, Ignored)
  {
    if IsCommand(msg, "checkStatus") {
      IframePageCheck(host, lc, panel);
      return;
    }
    if IsCommand(msg, "stopServer") {
      StopClicked(host, lc, panel);
    }
    if IsCommand(msg, "requestLlmAnalysis") {
      AnalysisRequested(host, panel, msg);
    }
  }

  method IframePageCheck(host: Host, lc: Lifecycle.Lifecycle, panel: Panel)
    modifies host`probes, host`setupStates, host`log, panel`page, panel`shown
    ensures var running := Lifecycle.Reachable(Lifecycle.ProbeAt(old(host.probes), 0));
            && Reacted(host, panel, IframeCheck(running, Some(At(old(host.setupStates), 0, false))))
            && host.probes == Drop(old(host.probes), 1)
            && host.setupStates == Drop(old(host.setupStates), if running then 1 else 0)
  {
    var running := lc.IsRunning(host);
    if !running {
      panel.Show(StartView(Some(StoppedAgainText)));
    } else {
      var complete := host.SetupComplete();
      panel.Show(FrameView(RouteFor(complete)));
      assert [Lifecycle.ProbeEffect] + [CheckSetup] == [Lifecycle.ProbeEffect, CheckSetup];
    }
  }

  method StopClicked(host: Host, lc: Lifecycle.Lifecycle, panel: Panel)
    modifies host`probes, host`killFailures, host`log, panel`page, panel`shown
    ensures var running := Lifecycle.Reachable(Lifecycle.ProbeAt(old(host.probes), 1));
            && Reacted(host, panel, StopServer(Lifecycle.StopRun(Lifecycle.ProbeAt(old(host.probes), 0)), running))
            && host.probes == Drop(old(host.probes), 2)
            && host.killFailures == Drop(old(host.killFailures), 1)
  {
    ghost var q := host.probes;
    ghost var log0 := host.log;
    ghost var stopped := Lifecycle.StopRun(Lifecycle.ProbeAt(q, 0));
    var _ := lc.Stop(host);
    ghost var log1 := host.log;
    host.Sleep(StopWaitMs);
    ProbeAfter(q, 1);
    DropDrop(q, 1, 1);
    var running := lc.IsRunning(host);
    AppendAssoc(log1, [Sleep(StopWaitMs)], [Lifecycle.ProbeEffect]);
    AppendAssoc(log0, stopped.effects, [Sleep(StopWaitMs), Lifecycle.ProbeEffect]);
    assert [Sleep(StopWaitMs)] + [Lifecycle.ProbeEffect] == [Sleep(StopWaitMs), Lifecycle.ProbeEffect];
    if !running {
      panel.Show(StartView(Some(HasBeenStoppedText)));
    }
  }

  method AnalysisRequested(host: Host, panel: Panel, msg: JsValue)
    modifies panel`posted
    ensures Reacted(host, panel, AnalysisReaction(host.lm, msg))
  {
    var outcome := Analyze.RequestLlmAnalysis(host.lm, PromptOf(msg), ContextOf(msg));
    if outcome.Some? {
      panel.Post(ResultMessage(outcome.value));
    }
  }
}
