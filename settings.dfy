/** The settings cache and the fetch that refreshes it. */
module Settings {
  import opened Wrappers
  import opened Js
  import Http
  import Constants
  import opened Host

  const SettingsTimeoutMs: nat := 2000

  /** `{ value, fetchedAtMs }`, updated in place by a successful fetch. */
  class SettingsCache {
    var value: JsValue
    var fetchedAtMs: int

    /** `createMcpSharkSettingsCache`. */
    constructor ()
      ensures value == Null && fetchedAtMs == 0
    {
      value := Null;
      fetchedAtMs := 0;
    }
  }

  /** What a settings refresh can touch: the cache's two fields and the clock. */
  datatype CacheView = CacheView(value: JsValue, fetchedAtMs: int, clock: seq<int>)

  function View(host: Host, cache: SettingsCache): CacheView
    reads host, cache
  {
    CacheView(cache.value, cache.fetchedAtMs, host.clock)
  }

  /** A refresh that `ran` and got `fetched`: a success writes the value, stamped with one clock
      reading; a failure, or no refresh at all, leaves the cache alone and reads no clock. */
  predicate RefreshLeaves(ran: bool, fetched: Result<JsValue, Http.FetchError>, before: CacheView, after: CacheView) {
    if ran && fetched.Ok? then after == CacheView(fetched.value, At(before.clock, 0, 0), Drop(before.clock, 1))
    else after == before
  }

  /** The outcome of the settings GET for the next reply the network gives. */
  function SettingsFetch(reply: Http.Reply, parse: string -> Option<JsValue>): Result<JsValue, Http.FetchError> {
    Http.GetJson(Constants.McpSharkSettingsUrl, SettingsTimeoutMs, reply, parse)
  }

  /** `fetchMcpSharkSettings({ cache })`: a rejected GET propagates and writes nothing; a
      successful one is returned and, when a cache is given, becomes its value, stamped with
      the current clock reading. */
  method FetchSettings(host: Host, cache: SettingsCache?) returns (r: Result<JsValue, Http.FetchError>)
    modifies host`gets, host`log, host`clock, cache
    ensures r == SettingsFetch(At(old(host.gets), 0, Http.NoReply), host.parse)
    ensures host.gets == Drop(old(host.gets), 1)
    ensures host.log == old(host.log) + [Fetch(Constants.McpSharkSettingsUrl, SettingsTimeoutMs)]
    ensures r.Ok? && cache != null ==>
              cache.value == r.value && cache.fetchedAtMs == At(old(host.clock), 0, 0)
              && host.clock == Drop(old(host.clock), 1)
    ensures (r.Err? || cache == null) ==> host.clock == old(host.clock)
    ensures r.Err? && cache != null ==> cache.value == old(cache.value) && cache.fetchedAtMs == old(cache.fetchedAtMs)
  {
    r := host.GetJson(Constants.McpSharkSettingsUrl, SettingsTimeoutMs);
    if r.Ok? && cache != null {
      cache.value := r.value;
      var now := host.Now();
      cache.fetchedAtMs := now;
    }
  }
}
