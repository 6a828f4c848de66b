/** The server lifecycle controller: reachability, start with confirmation and bounded
    polling, stop with a confirming re-probe, and the cached settings. */
module Lifecycle {
  import opened Wrappers
  import opened Js
  import Http
  import Constants
  import opened Host
  import opened Settings

  const ProbeTimeoutMs: nat := 1000
  const SettleMs: nat := 2000
  const PollIntervalMs: nat := 1000
  const MaxAttempts: nat := 30
  const StopSettleMs: nat := 1000

  const StartPrompt: string := "MCP Shark server is not running. Start it now?"
  const StartedText: string := "MCP Shark server started successfully!"
  const ManualStartText: string := "MCP Shark server may not have started. Please start it manually with: npx -y @mcp-shark/mcp-shark"
  const StoppedText: string := "MCP Shark server stopped successfully."
  const StillRunningText: string := "MCP Shark server may still be running. Please stop it manually."

  const ProbeEffect: Effect := Probe(Constants.McpSharkSettingsUrl, ProbeTimeoutMs)
  const FetchEffect: Effect := Fetch(Constants.McpSharkSettingsUrl, SettingsTimeoutMs)
  const SpawnEffect: Effect := Spawn("npx", ["-y", "@mcp-shark/mcp-shark"], true, true, true)
  const AskStart: Effect := Ask(Info, StartPrompt, false, ["Yes", "No"])

  /** `isMcpSharkRunning` on a given reply: the probe of `/api/settings` returned exactly 200. */
  predicate Reachable(reply: Http.Reply) {
    Http.ProbeStatus(reply) == 200
  }

  /** The `i`-th reply to a probe, from a queue of replies. */
  function ProbeAt(q: seq<Http.Reply>, i: nat): Http.Reply {
    At(q, i, Http.NoReply)
  }

  /** Every code other than 200, including the 0 of a failed or timed-out probe, means "not
      running"; 200 with any body means running. */
  lemma ReachableOnlyOn200(reply: Http.Reply)
    ensures Reachable(reply) <==> reply.Answered? && reply.statusCode == Some(200)
  {
  }

  /** What a run of the controller did: its boolean result, its effects in order and how many
      status probes it made. */
  datatype Run = Run(ok: bool, effects: seq<Effect>, probesUsed: nat)

  function Outcome(ok: bool): Effect {
    if ok then Notify(Info, StartedText, ["OK"]) else Notify(Warning, ManualStartText, ["OK"])
  }

  /** What ends the poll: a settings refresh and the success message, or the failure message. */
  function PollEnd(ok: bool): seq<Effect> {
    if ok then [FetchEffect, Outcome(true)] else [Outcome(false)]
  }

  /** `n` poll periods, each a one-second wait followed by a probe. */
  function PollSteps(n: nat): seq<Effect> {
    if n == 0 then [] else [Sleep(PollIntervalMs), ProbeEffect] + PollSteps(n - 1)
  }

  /** The polling interval after `done` failed attempts, against the queue `q` of replies the
      poll's probes receive. */
  function PollRun(q: seq<Http.Reply>, done: nat): Run
    requires done < MaxAttempts
    decreases MaxAttempts - done
  {
    var step := [Sleep(PollIntervalMs), ProbeEffect];
    if Reachable(ProbeAt(q, done)) then Run(true, step + PollEnd(true), done + 1)
    else if done + 1 >= MaxAttempts then Run(false, step + PollEnd(false), done + 1)
    else
      var rest := PollRun(q, done + 1);
      Run(rest.ok, step + rest.effects, rest.probesUsed)
  }

  /** One attempt of the poll, seen from the effects already caused (`before`) and the effects
      the whole poll causes (`target`). */
  lemma PollAdvance(q: seq<Http.Reply>, done: nat, before: seq<Effect>, target: seq<Effect>)
    requires done < MaxAttempts
    requires before + PollRun(q, done).effects == target
    ensures var after := before + [Sleep(PollIntervalMs), ProbeEffect];
            var r := PollRun(q, done);
            && (Reachable(ProbeAt(q, done)) ==> after + PollEnd(true) == target && r.ok && r.probesUsed == done + 1)
            && (!Reachable(ProbeAt(q, done)) && done + 1 >= MaxAttempts ==>
                  after + PollEnd(false) == target && !r.ok && r.probesUsed == done + 1)
            && (!Reachable(ProbeAt(q, done)) && done + 1 < MaxAttempts ==>
                  && after + PollRun(q, done + 1).effects == target
                  && PollRun(q, done + 1).ok == r.ok && PollRun(q, done + 1).probesUsed == r.probesUsed)
  {
    var step := [Sleep(PollIntervalMs), ProbeEffect];
    if Reachable(ProbeAt(q, done)) {
      assert before + step + PollEnd(true) == before + (step + PollEnd(true));
    } else if done + 1 >= MaxAttempts {
      assert before + step + PollEnd(false) == before + (step + PollEnd(false));
    } else {
      var rest := PollRun(q, done + 1).effects;
      assert before + step + rest == before + (step + rest);
    }
  }

  /** The poll stops at its first successful attempt, or after the 30th failure. */
  lemma {:induction false} PollStops(q: seq<Http.Reply>, done: nat)
    requires done < MaxAttempts
    ensures var r := PollRun(q, done);
      && done < r.probesUsed <= MaxAttempts
      && r.ok == Reachable(ProbeAt(q, r.probesUsed - 1))
      && (forall i :: done <= i < r.probesUsed - 1 ==> !Reachable(ProbeAt(q, i)))
      && (!r.ok ==> r.probesUsed == MaxAttempts)
    decreases MaxAttempts - done
  {
    if !Reachable(ProbeAt(q, done)) && done + 1 < MaxAttempts {
      PollStops(q, done + 1);
    }
  }

  /** The poll's effects: one wait-then-probe per attempt, then its end. */
  lemma {:induction false} PollEffects(q: seq<Http.Reply>, done: nat)
    requires done < MaxAttempts
    ensures var r := PollRun(q, done);
      && done < r.probesUsed
      && r.effects == PollSteps(r.probesUsed - done) + PollEnd(r.ok)
    decreases MaxAttempts - done
  {
    var step := [Sleep(PollIntervalMs), ProbeEffect];
    assert PollSteps(1) == step + PollSteps(0);
    if !Reachable(ProbeAt(q, done)) && done + 1 < MaxAttempts {
      PollEffects(q, done + 1);
      var rest := PollRun(q, done + 1);
      assert PollSteps(rest.probesUsed - done) == step + PollSteps(rest.probesUsed - (done + 1));
      AppendAssoc(step, PollSteps(rest.probesUsed - (done + 1)), PollEnd(rest.ok));
    }
  }

  /** The poll makes at most 30 attempts and succeeds exactly when some attempt within the
      budget finds the server; it stops at the first such attempt, and after 30 failures. Its
      effects are one wait-then-probe per attempt followed by the single outcome. */
  lemma PollBudget(q: seq<Http.Reply>, done: nat)
    requires done < MaxAttempts
    ensures var r := PollRun(q, done);
      && done < r.probesUsed <= MaxAttempts
      && (r.ok <==> exists i :: done <= i < MaxAttempts && Reachable(ProbeAt(q, i)))
      && (r.ok ==> Reachable(ProbeAt(q, r.probesUsed - 1)))
      && (forall i :: done <= i < r.probesUsed - 1 ==> !Reachable(ProbeAt(q, i)))
      && (!r.ok ==> r.probesUsed == MaxAttempts)
      && r.effects == PollSteps(r.probesUsed - done) + PollEnd(r.ok)
  {
    var r := PollRun(q, done);
    PollStops(q, done);
    PollEffects(q, done);
    if !r.ok {
      forall i | done <= i < MaxAttempts ensures !Reachable(ProbeAt(q, i)) {
        if i < r.probesUsed - 1 { } else { assert i == r.probesUsed - 1; }
      }
    }
  }

  /** An effect that is neither a message nor a spawn. */
  predicate Quiet(e: Effect) {
    !e.Notify? && !e.Spawn?
  }

  lemma {:induction false} PollStepsQuiet(n: nat)
    ensures |PollSteps(n)| == 2 * n
    ensures forall k :: 0 <= k < |PollSteps(n)| ==> Quiet(PollSteps(n)[k])
  {
    if n > 0 {
      PollStepsQuiet(n - 1);
      var s := PollSteps(n);
      forall k | 0 <= k < |s| ensures Quiet(s[k]) {
        if k >= 2 { assert s[k] == PollSteps(n - 1)[k - 2]; }
      }
    }
  }

  /** A whole poll shows exactly one message, as its last effect: the success message when it
      finds the server, the failure message when the attempts run out. It spawns nothing. */
  lemma ExactlyOneOutcome(q: seq<Http.Reply>)
    ensures var es := PollRun(q, 0).effects;
            && es != [] && es[|es| - 1] == Outcome(PollRun(q, 0).ok)
            && (forall k :: 0 <= k < |es| - 1 ==> Quiet(es[k]))
  {
    var r := PollRun(q, 0);
    PollBudget(q, 0);
    PollStepsQuiet(r.probesUsed);
    var steps := PollSteps(r.probesUsed);
    forall k | 0 <= k < |r.effects| - 1 ensures Quiet(r.effects[k]) {
      if k < |steps| {
        assert r.effects[k] == steps[k];
      } else {
        assert r.ok && r.effects[k] == FetchEffect;
      }
    }
  }

  /** `ensureMcpSharkRunning` against the queue `q` of probe replies and the user's `answer`. */
  function EnsureRun(q: seq<Http.Reply>, answer: Option<string>): Run {
    if Reachable(ProbeAt(q, 0)) then Run(true, [ProbeEffect, FetchEffect], 1)
    else if answer != Some("Yes") then Run(false, [ProbeEffect, AskStart], 1)
    else
      var poll := PollRun(Drop(q, 1), 0);
      Run(poll.ok, [ProbeEffect, AskStart, SpawnEffect, Sleep(SettleMs)] + poll.effects, 1 + poll.probesUsed)
  }

  /** `EnsureRun` after a failed first probe and a "Yes". */
  lemma EnsureConfirmed(q: seq<Http.Reply>)
    requires !Reachable(ProbeAt(q, 0))
    ensures var poll := PollRun(Drop(q, 1), 0);
            EnsureRun(q, Some("Yes"))
            == Run(poll.ok, [ProbeEffect, AskStart, SpawnEffect, Sleep(SettleMs)] + poll.effects, 1 + poll.probesUsed)
  {
  }

  /** The first two ways `ensureMcpSharkRunning` goes. Already running: true at once, without
      asking or spawning. Declined (any answer but exactly "Yes", including dismissal): false,
      and nothing spawned. */
  lemma EnsureCases(q: seq<Http.Reply>, answer: Option<string>)
    ensures Reachable(ProbeAt(q, 0)) ==>
              EnsureRun(q, answer) == Run(true, [ProbeEffect, FetchEffect], 1)
    ensures !Reachable(ProbeAt(q, 0)) && answer != Some("Yes") ==>
              EnsureRun(q, answer) == Run(false, [ProbeEffect, AskStart], 1)
  {
  }

  /** The third way. Confirmed: exactly one detached `npx -y @mcp-shark/mcp-shark` with ignored
      stdio, a 2 s wait, then the poll; true exactly when one of the next 30 probes finds the
      server, and exactly one outcome message, at the end. */
  lemma EnsureConfirmedCases(q: seq<Http.Reply>)
    requires !Reachable(ProbeAt(q, 0))
    ensures var r := EnsureRun(q, Some("Yes"));
            && r.effects[..4] == [ProbeEffect, AskStart, SpawnEffect, Sleep(SettleMs)]
            && r.effects[|r.effects| - 1] == Outcome(r.ok)
            && (forall k :: 3 <= k < |r.effects| - 1 ==> Quiet(r.effects[k]))
            && (r.ok <==> exists i :: 1 <= i <= MaxAttempts && Reachable(ProbeAt(q, i)))
            && 2 <= r.probesUsed <= 1 + MaxAttempts
  {
    EnsureConfirmed(q);
    ExactlyOneOutcome(Drop(q, 1));
    HeadThenPoll(PollRun(Drop(q, 1), 0), [ProbeEffect, AskStart, SpawnEffect, Sleep(SettleMs)]);
    PollShifted(q);
    PollBudget(Drop(q, 1), 0);
  }

  /** A poll run after the four effects that lead up to it. */
  lemma HeadThenPoll(poll: Run, head: seq<Effect>)
    requires |head| == 4 && Quiet(head[3])
    requires poll.effects != [] && poll.effects[|poll.effects| - 1] == Outcome(poll.ok)
    requires forall k :: 0 <= k < |poll.effects| - 1 ==> Quiet(poll.effects[k])
    ensures var es := head + poll.effects;
            && es[..4] == head
            && es[|es| - 1] == Outcome(poll.ok)
            && (forall k :: 3 <= k < |es| - 1 ==> Quiet(es[k]))
  {
    var es := head + poll.effects;
    forall k | 3 <= k < |es| - 1 ensures Quiet(es[k]) {
      if k >= 4 { assert es[k] == poll.effects[k - 4]; }
    }
  }

  /** The poll's success condition, read on the queue before the first probe took its reply. */
  lemma PollShifted(q: seq<Http.Reply>)
    ensures PollRun(Drop(q, 1), 0).ok <==> exists i :: 1 <= i <= MaxAttempts && Reachable(ProbeAt(q, i))
  {
    var p := Drop(q, 1);
    PollBudget(p, 0);
    forall i | 0 <= i ensures ProbeAt(p, i) == ProbeAt(q, i + 1) {
      DropAt(q, 1, i, Http.NoReply);
    }
    if PollRun(p, 0).ok {
      var i :| 0 <= i < MaxAttempts && Reachable(ProbeAt(p, i));
      assert Reachable(ProbeAt(q, i + 1));
    }
    if exists i :: 1 <= i <= MaxAttempts && Reachable(ProbeAt(q, i)) {
      var i :| 1 <= i <= MaxAttempts && Reachable(ProbeAt(q, i));
      assert Reachable(ProbeAt(p, i - 1));
    }
  }

  function StopOutcome(stopped: bool): Effect {
    if stopped then Notify(Info, StoppedText, ["OK"]) else Notify(Warning, StillRunningText, ["OK"])
  }

  /** `stopMcpSharkServer` against the reply its single re-probe receives. */
  function StopRun(reprobe: Http.Reply): Run {
    var stopped := !Reachable(reprobe);
    Run(stopped, [Exec(KillByPort(Constants.McpSharkPort)), Sleep(StopSettleMs), ProbeEffect, StopOutcome(stopped)], 1)
  }

  /** A copy of the cache's two fields. */
  datatype CachedSettings = CachedSettings(value: JsValue, fetchedAtMs: int)

  /** The module-level state of the controller: its settings cache. */
  class Lifecycle {
    const settingsCache: SettingsCache

    constructor ()
      ensures fresh(settingsCache)
      ensures settingsCache.value == Null && settingsCache.fetchedAtMs == 0
    {
      settingsCache := new SettingsCache();
    }

    /** `isMcpSharkRunning`: one probe of `/api/settings` with a one-second timeout. */
    method IsRunning(host: Host) returns (running: bool)
      modifies host`probes, host`log
      ensures running == Reachable(ProbeAt(old(host.probes), 0))
      ensures host.probes == Drop(old(host.probes), 1)
      ensures host.log == old(host.log) + [ProbeEffect]
    {
      var status := host.ProbeStatus(Constants.McpSharkSettingsUrl, ProbeTimeoutMs);
      running := status == 200;
    }

    /** `ensureMcpSharkRunning`. A settings refresh happens exactly when the result is true;
        its failure is swallowed and only its success writes the cache. */
    method EnsureRunning(host: Host) returns (ok: bool)
      modifies host`probes, host`gets, host`answers, host`clock, host`log, settingsCache
      ensures var run := EnsureRun(old(host.probes), At(old(host.answers), 0, None));
              && ok == run.ok
              && host.log == old(host.log) + run.effects
              && host.probes == Drop(old(host.probes), run.probesUsed)
      ensures host.answers == Drop(old(host.answers), if Reachable(ProbeAt(old(host.probes), 0)) then 0 else 1)
      ensures host.gets == Drop(old(host.gets), if ok then 1 else 0)
      ensures RefreshLeaves(ok, SettingsFetch(At(old(host.gets), 0, Http.NoReply), host.parse),
                            old(View(host, settingsCache)), View(host, settingsCache))
    {
      ghost var q := host.probes;
      var running := IsRunning(host);
      if running {
        var _ := FetchSettings(host, settingsCache);
        ok := true;
      } else {
        ok := OfferStart(host, q, old(host.log));
      }
    }

    /** The branch of `ensureMcpSharkRunning` where the first probe `q[0]` failed: ask, and on
        "Yes" launch. */
    method OfferStart(host: Host, ghost q: seq<Http.Reply>, ghost logBefore: seq<Effect>) returns (ok: bool)
      requires !Reachable(ProbeAt(q, 0))
      requires host.probes == Drop(q, 1) && host.log == logBefore + [ProbeEffect]
      modifies host`probes, host`gets, host`answers, host`clock, host`log, settingsCache
      ensures var run := EnsureRun(q, At(old(host.answers), 0, None));
              && ok == run.ok
              && host.log == logBefore + run.effects
              && host.probes == Drop(q, run.probesUsed)
      ensures host.answers == Drop(old(host.answers), 1)
      ensures host.gets == Drop(old(host.gets), if ok then 1 else 0)
      ensures RefreshLeaves(ok, SettingsFetch(At(old(host.gets), 0, Http.NoReply), host.parse),
                            old(View(host, settingsCache)), View(host, settingsCache))
    {
      var answer := host.Ask(Info, StartPrompt, false, ["Yes", "No"]);
      AppendAssoc(logBefore, [ProbeEffect], [AskStart]);
      assert [ProbeEffect] + [AskStart] == [ProbeEffect, AskStart];
      if answer != Some("Yes") {
        ok := false;
      } else {
        ok := Confirmed(host, q, logBefore);
      }
    }

    /** After a failed first probe `q[0]` and a "Yes": launch and poll. */
    method Confirmed(host: Host, ghost q: seq<Http.Reply>, ghost logBefore: seq<Effect>) returns (ok: bool)
      requires !Reachable(ProbeAt(q, 0))
      requires host.probes == Drop(q, 1) && host.log == logBefore + [ProbeEffect, AskStart]
      modifies host`probes, host`gets, host`clock, host`log, settingsCache
      ensures var run := EnsureRun(q, Some("Yes"));
              && ok == run.ok
              && host.log == logBefore + run.effects
              && host.probes == Drop(q, run.probesUsed)
      ensures host.gets == Drop(old(host.gets), if ok then 1 else 0)
      ensures RefreshLeaves(ok, SettingsFetch(At(old(host.gets), 0, Http.NoReply), host.parse),
                            old(View(host, settingsCache)), View(host, settingsCache))
    {
      ghost var poll := PollRun(Drop(q, 1), 0);
      ok := Launch(host);
      DropDrop(q, 1, poll.probesUsed);
      EnsureConfirmed(q);
      AppendAssoc(logBefore, [ProbeEffect, AskStart], [SpawnEffect, Sleep(SettleMs)] + poll.effects);
      AppendAssoc([ProbeEffect, AskStart], [SpawnEffect, Sleep(SettleMs)], poll.effects);
      assert [ProbeEffect, AskStart] + [SpawnEffect, Sleep(SettleMs)] == [ProbeEffect, AskStart, SpawnEffect, Sleep(SettleMs)];
    }

    /** The confirmed branch of `ensureMcpSharkRunning`: spawn the server, let it settle, poll. */
    method Launch(host: Host) returns (ok: bool)
      modifies host`probes, host`gets, host`clock, host`log, settingsCache
      ensures var run := PollRun(old(host.probes), 0);
              && ok == run.ok
              && host.log == old(host.log) + ([SpawnEffect, Sleep(SettleMs)] + run.effects)
              && host.probes == Drop(old(host.probes), run.probesUsed)
      ensures host.gets == Drop(old(host.gets), if ok then 1 else 0)
      ensures RefreshLeaves(ok, SettingsFetch(At(old(host.gets), 0, Http.NoReply), host.parse),
                            old(View(host, settingsCache)), View(host, settingsCache))
    {
      ghost var start := host.log;
      host.Spawn("npx", ["-y", "@mcp-shark/mcp-shark"], true, true, true);
      host.Sleep(SettleMs);
      ghost var poll := PollRun(host.probes, 0).effects;
      assert host.log == start + [SpawnEffect, Sleep(SettleMs)];
      ok := Poll(host);
      AppendAssoc(start, [SpawnEffect, Sleep(SettleMs)], poll);
    }

    /** Polling after the spawn: the attempts, then a settings refresh and the success message,
        or the failure message. */
    method Poll(host: Host) returns (ok: bool)
      modifies host`probes, host`gets, host`clock, host`log, settingsCache
      ensures var run := PollRun(old(host.probes), 0);
              && ok == run.ok
              && host.log == old(host.log) + run.effects
              && host.probes == Drop(old(host.probes), run.probesUsed)
      ensures host.gets == Drop(old(host.gets), if ok then 1 else 0)
      ensures RefreshLeaves(ok, SettingsFetch(At(old(host.gets), 0, Http.NoReply), host.parse),
                            old(View(host, settingsCache)), View(host, settingsCache))
    {
      ghost var target := host.log + PollRun(host.probes, 0).effects;
      ok := Attempts(host);
      if ok {
        var _ := FetchSettings(host, settingsCache);
        host.Notify(Info, StartedText, ["OK"]);
      } else {
        host.Notify(Warning, ManualStartText, ["OK"]);
      }
      assert host.log == target;
    }

    /** The `setInterval` callback run sequentially: one attempt per second until the server
        answers or 30 attempts have failed. What remains to be done afterwards is `PollEnd(ok)`. */
    method Attempts(host: Host) returns (ok: bool)
      modifies host`probes, host`log
      ensures var run := PollRun(old(host.probes), 0);
              && ok == run.ok
              && host.log + PollEnd(ok) == old(host.log) + run.effects
              && host.probes == Drop(old(host.probes), run.probesUsed)
    {
      ghost var q := host.probes;
      ghost var target := host.log + PollRun(q, 0).effects;
      var attempts := 0;
      var settled := false;
      ok := false;
      while !settled
        modifies host`probes, host`log
        invariant 0 <= attempts <= MaxAttempts
        invariant host.probes == Drop(q, attempts)
        invariant !settled ==>
                    && attempts < MaxAttempts && !ok
                    && host.log + PollRun(q, attempts).effects == target
                    && PollRun(q, attempts).ok == PollRun(q, 0).ok
                    && PollRun(q, attempts).probesUsed == PollRun(q, 0).probesUsed
        invariant settled ==>
                    && host.log + PollEnd(ok) == target
                    && ok == PollRun(q, 0).ok
                    && attempts == PollRun(q, 0).probesUsed
        decreases MaxAttempts - attempts, if settled then 0 else 1
      {
        PollAdvance(q, attempts, host.log, target);
        var running := Attempt(host, q, attempts);
        attempts := attempts + 1;
        if running {
          ok := true;
          settled := true;
        } else if attempts >= MaxAttempts {
          settled := true;
        }
      }
    }

    /** One period of the poll: a one-second wait, then the `done`-th probe of `q`. */
    method Attempt(host: Host, ghost q: seq<Http.Reply>, ghost done: nat) returns (running: bool)
      requires host.probes == Drop(q, done)
      modifies host`probes, host`log
      ensures running == Reachable(ProbeAt(q, done))
      ensures host.probes == Drop(q, done + 1)
      ensures host.log == old(host.log) + [Sleep(PollIntervalMs), ProbeEffect]
    {
      host.Sleep(PollIntervalMs);
      running := IsRunning(host);
      DropAt(q, done, 0, Http.NoReply);
      DropDrop(q, done, 1);
    }

    /** `stopMcpSharkServer`: run the kill command, wait a second, probe once. The result is
        true exactly when that probe finds the server gone, whether or not the kill command
        reported an error. */
    method Stop(host: Host) returns (stopped: bool)
      modifies host`killFailures, host`probes, host`log
      ensures var run := StopRun(ProbeAt(old(host.probes), 0));
              && stopped == run.ok
              && host.log == old(host.log) + run.effects
      ensures stopped <==> !Reachable(ProbeAt(old(host.probes), 0))
      ensures host.probes == Drop(old(host.probes), 1)
      ensures host.killFailures == Drop(old(host.killFailures), 1)
    {
      var _ := host.Exec(KillByPort(Constants.McpSharkPort));
      host.Sleep(StopSettleMs);
      var running := IsRunning(host);
      stopped := !running;
      host.Notify(if stopped then Info else Warning, if stopped then StoppedText else StillRunningText, ["OK"]);
    }

    /** `getCachedMcpSharkSettings`: a fresh copy of the cache's fields; the cache is untouched. */
    method GetCachedSettings() returns (copy: CachedSettings)
      ensures copy.value == settingsCache.value
      ensures copy.fetchedAtMs == settingsCache.fetchedAtMs
    {
      copy := CachedSettings(settingsCache.value, settingsCache.fetchedAtMs);
    }
  }
}
