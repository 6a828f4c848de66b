/** The extension's activation: the status check, the two refresh triggers and the guards of the
    start, open, refresh and stop commands. Registration itself is not modelled. */
module Activate {
  import opened Wrappers
  import opened Host
  import Constants
  import Http
  import Lifecycle
  import Settings
  import opened Webview
  import opened PanelState
  import PanelRouter
  import opened TrafficTree

  const RefocusDelayMs: nat := 1000

  const OpenWhileStoppedText: string := "MCP Shark server is not running. Please start it first."
  const StartServerChoice: string := "Start Server"
  const StopWhileStoppedText: string := "MCP Shark server is not running."
  const StopConfirmText: string := "Are you sure you want to stop the MCP Shark server?"

  const OfferStartEffect: Effect := Ask(Warning, OpenWhileStoppedText, false, [StartServerChoice])
  const StoppedNotice: Effect := Notify(Info, StopWhileStoppedText, ["OK"])
  const AskStop: Effect := Ask(Warning, StopConfirmText, true, ["Yes", "No"])

  /** How the open-inspector and show-panel commands end. */
  datatype OpenPath = OfferedStart(startRequested: bool) | ShowPanel

  function OpenDecision(running: bool, answer: Option<string>): OpenPath {
    if running then ShowPanel else OfferedStart(answer == Some(StartServerChoice))
  }

  /** How the stop command ends. */
  datatype StopPath = AlreadyStopped | Declined | Stopping

  function StopDecision(running: bool, answer: Option<string>): StopPath {
    if !running then AlreadyStopped else if answer == Some("Yes") then Stopping else Declined
  }

  /** Against the probe replies `q` and the user's answers: a panel is created or revealed exactly
      when the first probe got a 200 response; otherwise the user is offered a start, and the
      start command runs exactly when the first answer is "Start Server" (never when the
      warning was dismissed). */
  lemma OpenGuard(q: seq<Http.Reply>, answers: seq<Option<string>>)
    ensures var path := OpenDecision(Lifecycle.Reachable(Lifecycle.ProbeAt(q, 0)), At(answers, 0, None));
            && (path == ShowPanel <==> q != [] && q[0].Answered? && q[0].statusCode == Some(200))
            && (path == OfferedStart(true) <==>
                  path != ShowPanel && answers != [] && answers[0] == Some(StartServerChoice))
            && (answers == [] || answers[0] == None ==> path != OfferedStart(true))
  {
    Lifecycle.ReachableOnlyOn200(Lifecycle.ProbeAt(q, 0));
  }

  /** Against the probe replies `q` and the user's answers: the stop command asks only when the
      first probe got a 200 response, and kills exactly when the first answer is "Yes"; a
      dismissed question or "No" kills nothing. */
  lemma StopGuard(q: seq<Http.Reply>, answers: seq<Option<string>>)
    ensures var path := StopDecision(Lifecycle.Reachable(Lifecycle.ProbeAt(q, 0)), At(answers, 0, None));
            && (path == AlreadyStopped <==> !(q != [] && q[0].Answered? && q[0].statusCode == Some(200)))
            && (path == Stopping <==> path != AlreadyStopped && answers != [] && answers[0] == Some("Yes"))
            && (answers == [] || answers[0] == None || answers[0] == Some("No") ==> path != Stopping)
  {
    Lifecycle.ReachableOnlyOn200(Lifecycle.ProbeAt(q, 0));
  }

  /** The objects `activate` creates and shares between its handlers. */
  class Extension {
    const provider: TrafficInspectorProvider
    const lifecycle: Lifecycle.Lifecycle
    const panels: ActivePanelState

    constructor ()
      ensures fresh(provider) && fresh(lifecycle) && fresh(lifecycle.settingsCache) && fresh(panels)
      ensures !provider.isServerRunning && provider.refreshes == 0
      ensures panels.value == null && panels.events == [] && panels.Valid()
    {
      provider := new TrafficInspectorProvider();
      lifecycle := new Lifecycle.Lifecycle();
      panels := new ActivePanelState();
    }

    /** `checkMcpSharkStatus`: the result is the first probe's answer; with a provider, the
        provider then probes again for itself. */
    method CheckStatus(host: Host, withProvider: bool) returns (running: bool)
      modifies host`probes, host`log, provider
      ensures running == Lifecycle.Reachable(Lifecycle.ProbeAt(old(host.probes), 0))
      ensures withProvider ==>
                && provider.isServerRunning == Lifecycle.Reachable(Lifecycle.ProbeAt(old(host.probes), 1))
                && provider.refreshes == old(provider.refreshes) + 1
                && host.probes == Drop(old(host.probes), 2)
                && host.log == old(host.log) + [Lifecycle.ProbeEffect, Lifecycle.ProbeEffect]
      ensures !withProvider ==>
                && provider.isServerRunning == old(provider.isServerRunning)
                && provider.refreshes == old(provider.refreshes)
                && host.probes == Drop(old(host.probes), 1)
                && host.log == old(host.log) + [Lifecycle.ProbeEffect]
    {
      ghost var q := host.probes;
      running := lifecycle.IsRunning(host);
      if withProvider {
        PanelRouter.ProbeAfter(q, 1);
        DropDrop(q, 1, 1);
        provider.UpdateServerStatus(host, lifecycle);
      }
    }

    /** The window-state listener: a check a second after the window regains focus. */
    method OnWindowStateChange(host: Host, focused: bool)
      modifies host`probes, host`log, provider
      ensures focused ==>
                && provider.isServerRunning == Lifecycle.Reachable(Lifecycle.ProbeAt(old(host.probes), 1))
                && provider.refreshes == old(provider.refreshes) + 1
                && host.probes == Drop(old(host.probes), 2)
                && host.log == old(host.log) + [Sleep(RefocusDelayMs), Lifecycle.ProbeEffect, Lifecycle.ProbeEffect]
      ensures !focused ==> host.log == old(host.log) && host.probes == old(host.probes)
                           && provider.isServerRunning == old(provider.isServerRunning)
                           && provider.refreshes == old(provider.refreshes)
    {
      if focused {
        host.Sleep(RefocusDelayMs);
        var _ := CheckStatus(host, true);
      }
    }

    /** The visibility listener: a check whenever the tree becomes visible. */
    method OnVisibilityChange(host: Host, visible: bool)
      modifies host`probes, host`log, provider
      ensures visible ==>
                && provider.isServerRunning == Lifecycle.Reachable(Lifecycle.ProbeAt(old(host.probes), 1))
                && provider.refreshes == old(provider.refreshes) + 1
                && host.probes == Drop(old(host.probes), 2)
                && host.log == old(host.log) + [Lifecycle.ProbeEffect, Lifecycle.ProbeEffect]
      ensures !visible ==> host.log == old(host.log) && host.probes == old(host.probes)
                           && provider.isServerRunning == old(provider.isServerRunning)
                           && provider.refreshes == old(provider.refreshes)
    {
      if visible {
        var _ := CheckStatus(host, true);
      }
    }

    /** The start command: `ensureMcpSharkRunning` runs to its end before the provider probes. */
    method StartServerCommand(host: Host)
      modifies host`probes, host`gets, host`answers, host`clock, host`log, lifecycle.settingsCache, provider
      ensures var ensured := Lifecycle.EnsureRun(old(host.probes), At(old(host.answers), 0, None));
              && host.log == old(host.log) + ensured.effects + [Lifecycle.ProbeEffect]
              && provider.isServerRunning == Lifecycle.Reachable(Lifecycle.ProbeAt(old(host.probes), ensured.probesUsed))
              && provider.refreshes == old(provider.refreshes) + 1
              && host.probes == Drop(old(host.probes), ensured.probesUsed + 1)
              && host.answers == Drop(old(host.answers), if Lifecycle.Reachable(Lifecycle.ProbeAt(old(host.probes), 0)) then 0 else 1)
              && host.gets == Drop(old(host.gets), if ensured.ok then 1 else 0)
      ensures Settings.RefreshLeaves(Lifecycle.EnsureRun(old(host.probes), At(old(host.answers), 0, None)).ok,
                            Settings.SettingsFetch(At(old(host.gets), 0, Http.NoReply), host.parse),
                            old(Settings.View(host, lifecycle.settingsCache)), Settings.View(host, lifecycle.settingsCache))
    {
      ghost var q := host.probes;
      ghost var ensured := Lifecycle.EnsureRun(q, At(host.answers, 0, None));
      var _ := lifecycle.EnsureRunning(host);
      PanelRouter.ProbeAfter(q, ensured.probesUsed);
      DropDrop(q, ensured.probesUsed, 1);
      provider.UpdateServerStatus(host, lifecycle);
    }

    /** The refresh command. */
    method RefreshCommand(host: Host)
      modifies host`probes, host`log, provider
      ensures provider.isServerRunning == Lifecycle.Reachable(Lifecycle.ProbeAt(old(host.probes), 0))
      ensures provider.refreshes == old(provider.refreshes) + 1
      ensures host.probes == Drop(old(host.probes), 1)
      ensures host.log == old(host.log) + [Lifecycle.ProbeEffect]
    {
      provider.UpdateServerStatus(host, lifecycle);
    }

    /** The open-inspector and show-panel commands (their handlers are the same): with the server
        down, offer to start it and create nothing; with it up, `createDatabasePanel`. */
    method OpenPanelCommand(host: Host) returns (panel: Panel?)
      requires panels.Valid()
      modifies host`probes, host`answers, host`setupStates, host`log, panels, panels.value
      ensures panels.Valid()
      ensures var path := OpenDecision(Lifecycle.Reachable(Lifecycle.ProbeAt(old(host.probes), 0)), At(old(host.answers), 0, None));
              && host.probes == Drop(old(host.probes), 1 + if path == ShowPanel && old(panels.value) == null then 1 else 0)
              && (path.OfferedStart? ==>
                    && panel == null && panels.value == old(panels.value) && panels.events == old(panels.events)
                    && host.setupStates == old(host.setupStates)
                    && (old(panels.value) != null ==>
                          && panels.value.page == old(panels.value.page) && panels.value.shown == old(panels.value.shown)
                          && panels.value.posted == old(panels.value.posted) && panels.value.mode == old(panels.value.mode)
                          && panels.value.revealCount == old(panels.value.revealCount))
                    && host.answers == Drop(old(host.answers), 1)
                    && host.log == old(host.log) + [Lifecycle.ProbeEffect, OfferStartEffect]
                                   + (if path.startRequested then [RunCommand(Constants.StartServerId)] else []))
              && (path == ShowPanel ==> panel != null && panels.value == panel && host.answers == old(host.answers))
              && (path == ShowPanel && old(panels.value) != null ==>
                    && panel == old(panels.value) && panel.revealCount == old(panels.value.revealCount) + 1
                    && panel.page == old(panels.value.page) && panel.shown == old(panels.value.shown)
                    && panel.posted == old(panels.value.posted) && panel.mode == old(panels.value.mode)
                    && host.setupStates == old(host.setupStates)
                    && host.log == old(host.log) + [Lifecycle.ProbeEffect])
              && (path == ShowPanel && old(panels.value) == null ==>
                    var c := PanelRouter.Create(false, Lifecycle.Reachable(Lifecycle.ProbeAt(old(host.probes), 1)),
                                                Some(At(old(host.setupStates), 0, false)));
                    && fresh(panel) && c.Created? && panel.shown == c.reaction.shows && panel.mode == c.mode
                    && panel.page == PanelRouter.PageAfter(Blank, c.reaction.shows)
                    && panel.posted == [] && panel.revealCount == 0
                    && host.log == old(host.log) + [Lifecycle.ProbeEffect] + c.reaction.effects)
    {
      ghost var q := host.probes;
      ghost var log0 := host.log;
      var running := lifecycle.IsRunning(host);
      if !running {
        var action := host.Ask(Warning, OpenWhileStoppedText, false, [StartServerChoice]);
        if action == Some(StartServerChoice) {
          host.RunCommand(Constants.StartServerId);
        }
        return null;
      }
      PanelRouter.ProbeAfter(q, 1);
      DropDrop(q, 1, 1);
      panel := PanelRouter.CreateDatabasePanel(host, lifecycle, panels);
    }

    /** The stop command: a notice when the server is already down; otherwise a modal question,
        and on "Yes" `stopMcpSharkServer` followed by a provider refresh. */
    method StopCommand(host: Host)
      modifies host`probes, host`answers, host`killFailures, host`log, provider
      ensures var path := StopDecision(Lifecycle.Reachable(Lifecycle.ProbeAt(old(host.probes), 0)), At(old(host.answers), 0, None));
              && (path == AlreadyStopped ==>
                    && host.log == old(host.log) + [Lifecycle.ProbeEffect, StoppedNotice]
                    && host.probes == Drop(old(host.probes), 1) && host.answers == old(host.answers))
              && (path != AlreadyStopped ==> host.answers == Drop(old(host.answers), 1))
              && (path == Declined ==>
                    && host.log == old(host.log) + [Lifecycle.ProbeEffect, AskStop]
                    && host.probes == Drop(old(host.probes), 1))
              && (path == Stopping ==>
                    && host.log == old(host.log) + [Lifecycle.ProbeEffect, AskStop]
                                   + Lifecycle.StopRun(Lifecycle.ProbeAt(old(host.probes), 1)).effects
                                   + [Lifecycle.ProbeEffect]
                    && host.probes == Drop(old(host.probes), 3)
                    && host.killFailures == Drop(old(host.killFailures), 1)
                    && provider.isServerRunning == Lifecycle.Reachable(Lifecycle.ProbeAt(old(host.probes), 2))
                    && provider.refreshes == old(provider.refreshes) + 1)
              && (path != Stopping ==>
                    && host.killFailures == old(host.killFailures)
                    && provider.isServerRunning == old(provider.isServerRunning)
                    && provider.refreshes == old(provider.refreshes))
    {
      ghost var q := host.probes;
      var running := lifecycle.IsRunning(host);
      if !running {
        host.Notify(Info, StopWhileStoppedText, ["OK"]);
        return;
      }
      var result := host.Ask(Warning, StopConfirmText, true, ["Yes", "No"]);
      if result == Some("Yes") {
        PanelRouter.ProbeAfter(q, 1);
        DropDrop(q, 1, 1);
        var _ := lifecycle.Stop(host);
        PanelRouter.ProbeAfter(q, 2);
        DropDrop(q, 2, 1);
        provider.UpdateServerStatus(host, lifecycle);
      }
    }
  }
}
