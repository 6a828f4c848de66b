/** The extension's surroundings as the core sees them: the network, the user, the operating
    system and the clock. Each answers from a queue fixed in advance (an oracle), and every
    side effect the core causes is appended, in order, to `log`. */
module Host {
  import opened Wrappers
  import opened Js
  import Http
  import Analyze

  datatype Level = Info | Warning

  /** The opaque command that ends whatever listens on the server's port; the per-platform
      shell text is not modelled. */
  datatype KillCommand = KillByPort(port: nat)

  datatype Effect =
    | Probe(url: string, timeoutMs: nat)                            // httpGetStatusCode
    | Fetch(url: string, timeoutMs: nat)                            // httpGetJson
    | Ask(level: Level, text: string, modal: bool, choices: seq<string>)  // a message whose answer is used
    | Notify(level: Level, text: string, choices: seq<string>)      // a message whose answer is ignored
    | Spawn(command: string, args: seq<string>, detached: bool, stdioIgnored: bool, shell: bool)
    | Exec(kill: KillCommand)
    | Sleep(ms: nat)                                                // a setTimeout / setInterval period
    | CheckSetup                                                    // isMcpSharkSetupComplete
    | RunCommand(id: string)                                        // executeCommand

  class Host {
    /** Replies to status probes, in the order the probes are made. */
    var probes: seq<Http.Reply>
    /** Replies to JSON fetches. */
    var gets: seq<Http.Reply>
    /** The user's answers to messages with choices (`None`: dismissed). */
    var answers: seq<Option<string>>
    /** Answers of the setup-state check. */
    var setupStates: seq<bool>
    /** Whether each kill command reports an error. */
    var killFailures: seq<bool>
    /** Successive `Date.now()` readings (not assumed to increase). */
    var clock: seq<int>
    /** Every effect caused so far, oldest first. */
    var log: seq<Effect>
    /** `JSON.parse`, `None` when it throws. */
    const parse: string -> Option<JsValue>
    /** The editor's language-model API. */
    const lm: Analyze.LmEnv

    constructor (probes: seq<Http.Reply>, gets: seq<Http.Reply>, answers: seq<Option<string>>,
                 setupStates: seq<bool>, killFailures: seq<bool>, clock: seq<int>,
                 parse: string -> Option<JsValue>, lm: Analyze.LmEnv)
      ensures this.probes == probes && this.gets == gets && this.answers == answers
      ensures this.setupStates == setupStates && this.killFailures == killFailures
      ensures this.clock == clock && this.log == [] && this.parse == parse
    {
      this.probes, this.gets, this.answers := probes, gets, answers;
      this.setupStates, this.killFailures, this.clock := setupStates, killFailures, clock;
      this.log := [];
      this.parse, this.lm := parse, lm;
    }

    /** The next status probe: `httpGetStatusCode(url, { timeoutMs })`. */
    method ProbeStatus(url: string, timeoutMs: nat) returns (status: int)
      modifies this`probes, this`log
      ensures status == Http.ProbeStatus(At(old(probes), 0, Http.NoReply))
      ensures probes == Drop(old(probes), 1)
      ensures log == old(log) + [Effect.Probe(url, timeoutMs)]
    {
      status := Http.ProbeStatus(At(probes, 0, Http.NoReply));
      probes := Drop(probes, 1);
      log := log + [Effect.Probe(url, timeoutMs)];
    }

    /** The next JSON fetch: `httpGetJson(url, { timeoutMs })`. */
    method GetJson(url: string, timeoutMs: nat) returns (r: Result<JsValue, Http.FetchError>)
      modifies this`gets, this`log
      ensures r == Http.GetJson(url, timeoutMs, At(old(gets), 0, Http.NoReply), parse)
      ensures gets == Drop(old(gets), 1)
      ensures log == old(log) + [Effect.Fetch(url, timeoutMs)]
    {
      r := Http.HttpGetJson(url, timeoutMs, At(gets, 0, Http.NoReply), parse);
      gets := Drop(gets, 1);
      log := log + [Effect.Fetch(url, timeoutMs)];
    }

    /** Shows a message and waits for the user's choice. */
    method Ask(level: Level, text: string, modal: bool, choices: seq<string>) returns (answer: Option<string>)
      modifies this`answers, this`log
      ensures answer == At(old(answers), 0, None)
      ensures answers == Drop(old(answers), 1)
      ensures log == old(log) + [Effect.Ask(level, text, modal, choices)]
    {
      answer := At(answers, 0, None);
      answers := Drop(answers, 1);
      log := log + [Effect.Ask(level, text, modal, choices)];
    }

    /** Shows a message without waiting for it. */
    method Notify(level: Level, text: string, choices: seq<string>)
      modifies this`log
      ensures log == old(log) + [Effect.Notify(level, text, choices)]
    {
      log := log + [Effect.Notify(level, text, choices)];
    }

    method Spawn(command: string, args: seq<string>, detached: bool, stdioIgnored: bool, shell: bool)
      modifies this`log
      ensures log == old(log) + [Effect.Spawn(command, args, detached, stdioIgnored, shell)]
    {
      log := log + [Effect.Spawn(command, args, detached, stdioIgnored, shell)];
    }

    /** Runs the kill command; `failed` is the error its callback receives. */
    method Exec(kill: KillCommand) returns (failed: bool)
      modifies this`killFailures, this`log
      ensures failed == At(old(killFailures), 0, false)
      ensures killFailures == Drop(old(killFailures), 1)
      ensures log == old(log) + [Effect.Exec(kill)]
    {
      failed := At(killFailures, 0, false);
      killFailures := Drop(killFailures, 1);
      log := log + [Effect.Exec(kill)];
    }

    method Sleep(ms: nat)
      modifies this`log
      ensures log == old(log) + [Effect.Sleep(ms)]
    {
      log := log + [Effect.Sleep(ms)];
    }

    /** `Date.now()`. */
    method Now() returns (ms: int)
      modifies this`clock
      ensures ms == At(old(clock), 0, 0)
      ensures clock == Drop(old(clock), 1)
    {
      ms := At(clock, 0, 0);
      clock := Drop(clock, 1);
    }

    /** The setup-state check the panel calls (see README "Findings"). */
    method SetupComplete() returns (complete: bool)
      modifies this`setupStates, this`log
      ensures complete == At(old(setupStates), 0, false)
      ensures setupStates == Drop(old(setupStates), 1)
      ensures log == old(log) + [Effect.CheckSetup]
    {
      complete := At(setupStates, 0, false);
      setupStates := Drop(setupStates, 1);
      log := log + [Effect.CheckSetup];
    }

    method RunCommand(id: string)
      modifies this`log
      ensures log == old(log) + [Effect.RunCommand(id)]
    {
      log := log + [Effect.RunCommand(id)];
    }
  }
}
