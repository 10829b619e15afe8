/** The gateway on the remote policy client: from the lookup to the answer
    (services/gateway/internal/proxy/gateway.go:135-274). */
module Front {
  import opened Text
  import opened Lookup
  import opened PolicyCache
  import opened PolicyClient
  import Gateway
  import RL = RateLimit

  /** The fetched policies, by what identifies them. */
  type Apps = map<Policy, Gateway.App>

  /** The lookup's answer with the app in place of what identifies it. */
  function Resolve(apps: Apps, r: Reply): LookupResult<Gateway.App> {
    LookupResult(if r.app.Some? && r.app.value in apps then Some(apps[r.app.value]) else None,
                 r.found, r.failOpen, r.statusCode, r.reason, r.warning, r.stale)
  }

  predicate Served(apps: Apps, r: Reply, req: Gateway.Incoming) {
    r.found ==> r.app.Some? && r.app.value in apps && Gateway.Usable(apps[r.app.value]) && Gateway.Matches(apps[r.app.value], req)
  }

  /** A request for a host that is neither cached nor fetched is answered 503 when the gateway is
      configured to fail closed and is let go without proxying otherwise; no counter is charged. */
  method Answer(provider: Provider, apps: Apps, limiter: Gateway.Limiter, store: RL.CounterStore, raw: string, now1: int, now2: int,
                fetched: Option<Policy>, req: Gateway.Incoming) returns (o: Gateway.Outcome)
    requires RL.Positive(store.redis.entries)
    requires Served(apps, Solo(provider.config, provider.View(), raw, now1, now2, fetched).0, req)
    modifies provider, store.memory, store.redis
    ensures RL.Positive(store.redis.entries)
    ensures NormalizeHost(raw) != "" && NormalizeHost(raw) !in old(provider.cache) && fetched == None ==>
              store.View() == old(store.View())
              && o == if provider.config.failBehavior == FailClosed then Gateway.NoApp(503, "policy_fetch_failed")
                      else Gateway.FailedOpen("policy_fetch_failed_fail_open")
    ensures NormalizeHost(raw) == "" ==> o == Gateway.NoApp(404, "empty_host") && store.View() == old(store.View())
  {
    var lookup := provider.Lookup(raw, now1, now2, fetched);
    o := Gateway.Handle(limiter, store, Resolve(apps, lookup), req);
  }
}
