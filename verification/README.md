# BedemWAF: a verified model of its decision, policy and publishing core

BedemWAF is a web application firewall: a gateway that decides about every request, and a
control API that stores policy drafts, publishes versions of them and serves these to the
gateway. This project models the parts of both whose behaviour depends on more than one
function, and proves what they guarantee over every input or every run.

* **Remote policy cache.** Any number of concurrent lookups, interleaved at every access to
  shared state, over a TTL cache with one mutex per host and a stale fallback (`PolicyCache`);
  the same code run by one goroutine, and the proof that it is a schedule of the step system
  (`PolicyClient`); from the lookup to the gateway's answer (`Front`).
* **Rate limiter.** Counter keys, window arithmetic, the in-memory counter and the expiring
  counter of the Lua script (`RateLimit`).
* **Decision pipeline.** The stages of the gateway as coded against a precedence rule (`Gateway`,
  `Decision`); whole traces over any number of apps on either counter store: count mode as an exact
  dry run of block mode, Redis against memory, and what the checks let through (`GatewayRuns`).
* **Meanings.** What each condition operator, IP prefix, trimmed text, header name and host normal
  form means, said without the definitions (`Meaning`).
* **Rule compiler.** Flat condition records against And/Or/leaf trees, stable sorting by
  priority, early-exit evaluation, and the two separately written validators of the same
  language (`Condition`, `Rules`, `StableSort`, `Snapshot`, `HostIndex`).
* **Draft/publish protocol.** Requests whose transactions interleave statement by statement over
  apps, origins, policies, versions and deployments (`Publish` is the model, `PublishSafety` the
  invariant, `PublishTheorems` the guarantees, `PublishRuns` runs that happen, `Repository` the
  sequential transactions).
* **Audit dispatcher and simulation summary.** A lossy bounded queue with one consumer
  (`Dispatcher`, `DispatcherRuns`), and an aggregation whose result must not depend on map order (`Simulation`,
  `Ranking`). `Text` and `Counting` hold what several of these need.

Step systems have a state, an `Enabled` predicate and a `Next` function; a run is a sequence of
states from the initial one. Extra record fields (the `log` of fetches, the `rows` a policy has
had, the events `offered` to a sink) are kept only to state the guarantees.

## What turned out different from what one might expect

* Replacing an app's origin through the API never succeeds. The soft-deleted row still occupies
  `UNIQUE (app_id, name)`, and every origin is inserted under the name `primary`
  (`PublishTheorems.ReplacingOriginFails`, a run in `PublishRuns.ReplacementRun`). A PATCH that found
  its app succeeds exactly when it brings no new origin (`PublishTheorems.PatchSucceedsIff`). So the
  origin of an app is the one it was created with.
* Two PATCH calls of one app can both succeed while the change of the first is gone
  (`PublishRuns.LosingPatch`, from the empty tables `PublishRuns.LosingRun`). A PATCH applies to the
  row as it is at its commit exactly when every value it does not set is still the value it read
  (`PublishRuns.PatchAppliesIff`).
* Counter keys are colon-joined text. Two checks share a counter exactly when the joined
  tenant:app:rule text, the hash and the window agree (`RateLimit.KeyEqualIff`). Among tenant and app
  ids without a colon this means the same tenant, app and rule, whatever the rule id
  (`RateLimit.KeyInjective`); with a colon in one of them different rules can meet
  (`RateLimit.ColonCollides`). Against all possible ids a rule has its counters for itself exactly
  when none of its three ids holds a colon (`RateLimit.OwnCounterIff`).
* The two condition validators differ on header and query names of white space only, which pass
  the gateway alone (`Snapshot.BlankHeaderDiffers`); they agree on everything else
  (`Snapshot.ValidatorsAgree`).
* A draft the control plane accepts can still be refused by the gateway: exactly when a rule id
  repeats, a status code leaves 0..999 or an IP set has a blank name (`Snapshot.GatewayAcceptsIff`);
  `Snapshot.DuplicateIDRefused` gives such a draft.
* `updated_at` is the transaction's start time and may run backwards between commits, even when
  timestamps are handed out in increasing order (`PublishRuns.UpdatedAtRunsBack`, from the empty
  tables `PublishRuns.BackwardsRun`). A commit lowers it exactly when the row it replaces was written
  by a transaction that began after its own (`PublishRuns.CommitLowersIff`). The optimistic check needs only that timestamps are distinct.
* The bound of twice the limit in a span of one window is reached (`RateLimit.SpanBoundTight`).

## Model

| member | source | states |
|---|---|---|
| `PolicyCache.NewProvider` | services/gateway/internal/policyclient/client.go:118-140 | the TTL is the configured one, or 30 seconds when that is not positive; the fail behaviour is the configured one, or stale-then-open when none is |
| `PolicyCache.MutualExclusion` | services/gateway/internal/policyclient/client.go:156-158 | two lookups of one host are never both between lock and unlock |
| `PolicyCache.LockInvStep` | services/gateway/internal/policyclient/client.go:142-216 | every step keeps one permanent mutex per host, distinct across hosts, held by the one lookup that is inside |
| `PolicyCache.AtMostOneFetch` | services/gateway/internal/policyclient/client.go:156-168 | in every state of every run at most one fetch per host is in flight |
| `PolicyCache.FetchesSpaced` | services/gateway/internal/policyclient/client.go:160-170 | refresh times of successive successful fetches of a host are at least one TTL apart, with no assumption on the clock |
| `PolicyCache.RunGrows` | services/gateway/internal/policyclient/client.go:200-216 | the record of successful fetches only grows and a host keeps its mutex for good |
| `PolicyCache.AnswersJustified` | services/gateway/internal/policyclient/client.go:142-188 | a fresh answer is the lookup's own fetch or an unexpired one of the same host; a stale answer follows its own failed fetch and carries the latest policy; a host fetched before the lookup began is never not-found; not-found means a failed fetch and the configured behaviour |
| `PolicyCache.RepliesMean` | services/gateway/internal/policyclient/client.go:161-187 | every finished lookup of a non-empty host in every run: a found app is neither fail-open nor given a status, a stale one carries its warning; without an app the reply is fail-open exactly unless configured to fail closed, which answers 503 |
| `PolicyCache.EmptyHostReply` | services/gateway/internal/policyclient/client.go:143-146 | a lookup without a host is finished at once, not found and not fail-open |
| `PolicyCache.QuiescentCounts` | services/gateway/internal/policyclient/client.go:147-174 | with no lookup under way, hits + successful fetches + failed fetches = lookups of a non-empty host, and misses are those the first test did not answer |
| `PolicyCache.Progress` | services/gateway/internal/policyclient/client.go:142-216 | in every state of every run an unfinished lookup can step, or waits for its host's mutex whose one holder can step |
| `PolicyClient.Provider.HostLock` | services/gateway/internal/policyclient/client.go:207-216 | returns the host's mutex and makes one only if there was none |
| `PolicyClient.Provider.Store` | services/gateway/internal/policyclient/client.go:201-205 | replaces the entry of that host only |
| `PolicyClient.Provider.Refresh` | services/gateway/internal/policyclient/client.go:160-187 | under the mutex: hit, fetch and store, stale, or fail behaviour, with the exact new cache and counters |
| `PolicyClient.Provider.Lookup` | services/gateway/internal/policyclient/client.go:142-188 | the whole sequential lookup, with the exact new cache, mutex table and counters |
| `PolicyClient.LookupIsASchedule` | services/gateway/internal/policyclient/client.go:142-188 | from every state in which the host's mutex, if it has one, is free, running one lookup without interruption is a legal schedule that ends with the result and effects of the sequential code |
| `Front.Answer` | services/gateway/internal/proxy/gateway.go:135-158 | a request for a host neither cached nor fetched is answered 503 when configured to fail closed and let go without proxying otherwise; one without a host 404; no counter is charged |
| `RateLimit.KeyEqualIff` | services/gateway/internal/ratelimit/ratelimit.go:97-100 | two checks share a counter exactly when joined ids, key hash and window agree |
| `RateLimit.KeyInjective` | services/gateway/internal/ratelimit/ratelimit.go:97-100 | for tenant and app ids without a colon, and any rule ids, the key determines tenant, app, rule, hash and window |
| `RateLimit.ColonCollides` | services/gateway/internal/ratelimit/ratelimit.go:100-100 | for every hash and window two different buckets with one key, where a tenant or app id contains a colon |
| `RateLimit.OwnCounterIff` | services/gateway/internal/ratelimit/ratelimit.go:100-100 | no other bucket has a bucket's key exactly when its tenant, app and rule ids hold no colon |
| `RateLimit.ResetBounds` | services/gateway/internal/ratelimit/ratelimit.go:97-99 | the reset time is after now and at most one window ahead, in whole seconds |
| `RateLimit.ExpiryCoversWindow` | services/gateway/internal/ratelimit/ratelimit.go:24-35 | a key created in a window does not expire before the window ends |
| `RateLimit.WindowNeverReused` | services/gateway/internal/ratelimit/ratelimit.go:97-100 | no clock reading after the end of a window maps to it again |
| `RateLimit.MemoryStore.IncrementFixedWindow` | services/gateway/internal/ratelimit/ratelimit.go:262-271 | counts up that key only; remaining is clamped at zero |
| `RateLimit.RedisStore.EvalFixedWindow` | services/gateway/internal/ratelimit/ratelimit.go:24-35 | drops expired keys, counts up, sets the expiry only on creation; remaining is clamped at zero |
| `RateLimit.RedisRefinesMemory` | services/gateway/internal/ratelimit/ratelimit.go:24-35 | on every run with an ordered clock and fixed windows, whatever characters the ids contain, the expiring and the never-expiring counter give the same count and remaining on every call |
| `RateLimit.AllowedIffAmongFirst` | services/gateway/internal/ratelimit/ratelimit.go:103-128 | the i-th call is allowed exactly when it is among the first `limit` charges of its counter; remaining counts down to zero |
| `RateLimit.ChargesAreOneBucket` | services/gateway/internal/ratelimit/ratelimit.go:97-102 | under tenant and app ids without a colon, and any rule ids, two checks share a counter exactly when tenant, app, rule, key and window agree |
| `RateLimit.AdmitsMinimum` | services/gateway/internal/ratelimit/ratelimit.go:103-128 | of n charges to one counter exactly min(n, limit) are admitted |
| `RateLimit.SpanBound` | services/gateway/internal/ratelimit/ratelimit.go:97-128 | any span of one window length admits at most twice the limit |
| `RateLimit.SpanBoundTight` | services/gateway/internal/ratelimit/ratelimit.go:97-128 | twice the limit is admitted by a burst before and one after a window boundary |
| `RateLimit.CounterStore.IncrementFixedWindow` | services/gateway/internal/ratelimit/ratelimit.go:50-52 | whichever store is behind the interface, the reply and the new counters are those of that store's charge |
| `Gateway.Check` | services/gateway/internal/ratelimit/ratelimit.go:79-166 | verdict and counters of one check on either store: skipped rules and store failures charge nothing, fail-open and fail-closed, over and under the limit |
| `Gateway.KeyPartLaws` | services/gateway/internal/ratelimit/ratelimit.go:153-166 | what is counted per key type: host in lower case, path, first value of the header, API key, else the client address |
| `Gateway.LimitVerdictIs` | services/gateway/internal/ratelimit/ratelimit.go:110-151 | over the limit a block rule limits with its status and every other rule counts; under it the request passes; both carry the rule's names and counter |
| `Gateway.StoreDown` | services/gateway/internal/ratelimit/ratelimit.go:103-110 | when the store does not answer, fail-closed acts as over the limit and fail-open allows; no counter changes |
| `Gateway.IPVerdictLaw` | services/gateway/internal/policy/store.go:242-257 | a client is blocked exactly when the blocklist covers it or a non-empty allowlist does not, with the reason, the entry and status 403 |
| `Gateway.EvaluateIP` | services/gateway/internal/policy/store.go:242-257 | the first covering blocklist entry blocks, then a non-empty allowlist that covers nothing |
| `Gateway.EvaluateRateLimits` | services/gateway/internal/proxy/gateway.go:332-347 | stops at the first verdict that is not allow; exactly the rules up to and including it are charged |
| `Gateway.PrecedenceCases` | services/gateway/internal/proxy/gateway.go:178-242 | the precedence rule spelled out: first disruptive verdict of IP, rate limit, body limit, custom rules, WAF, default; else the first count |
| `Gateway.LaterStages` | services/gateway/internal/proxy/gateway.go:194-242 | the stages after the rate limits, reassigning `final`, `observedCount` and `terminalAllow`, meet the precedence rule |
| `Gateway.ServeApp` | services/gateway/internal/proxy/gateway.go:178-274 | the whole staged decision meets the precedence rule and charges exactly its counters; denied with the verdict's status or 403, else proxied |
| `Gateway.Handle` | services/gateway/internal/proxy/gateway.go:135-158 | a fail-open lookup is answered without proxying, a missing app with its status or 404, and neither charges a counter |
| `Gateway.DeniedIffEnforced` | services/gateway/internal/proxy/gateway.go:243-274 | a decided request is denied exactly when its event says enforced, and proxied otherwise |
| `Gateway.AnswerLaw` | services/gateway/internal/proxy/gateway.go:244-274 | a decided request is denied exactly in block mode with a disruptive verdict, with the verdict's status or 403; every event field is the verdict's |
| `Gateway.EnforcedLaw` | services/gateway/internal/decision/decision.go:71-76 | count mode never enforces a disruptive action, and otherwise the decided action is enforced |
| `Gateway.BlockedIPChargesNothing` | services/gateway/internal/proxy/gateway.go:178-193 | a request blocked by the IP lists charges no counter |
| `Gateway.ParsedLimitsUsable` | services/gateway/internal/policy/store.go:421-482 | every parsed rate limit has a positive limit and window |
| `GatewayRuns.CountModeIsDryRun` | services/gateway/internal/proxy/gateway.go:178-274 | on every trace over any apps and on either store, count mode and block mode reach the same decisions and counters at every step; count mode denies nothing, and its would_block is block mode's enforced |
| `GatewayRuns.StoresAgree` | services/gateway/internal/ratelimit/ratelimit.go:79-128 | on every trace with an ordered clock and fixed windows the gateway on Redis and the gateway on memory give every request the same outcome |
| `GatewayRuns.CheckAllows` | services/gateway/internal/ratelimit/ratelimit.go:103-128 | a check that charges lets the request through exactly when the store's count is within the limit, reports the store's remainder and charges once |
| `GatewayRuns.CheckAllowsFirst` | services/gateway/internal/ratelimit/ratelimit.go:79-128 | after any trace a check that charges lets the request through exactly when fewer than `limit` charges to its counter came before; the reported remainder counts down to zero |
| `GatewayRuns.CheckAllowsFirstOnRedis` | services/gateway/internal/ratelimit/ratelimit.go:24-35 | the same on Redis, with an ordered clock |
| `GatewayRuns.PastLimit` | services/gateway/internal/ratelimit/ratelimit.go:128-151 | after any trace a check that charges a counter at its limit: a block rule limits with its status, a count rule counts |
| `GatewayRuns.PastLimitDenies` | services/gateway/internal/ratelimit/ratelimit.go:128-151 | after any trace, in block mode, a request that reaches a block rule whose counter is at its limit is denied with the rule's status or 403 |
| `GatewayRuns.PastLimitDeniesOnRedis` | services/gateway/internal/ratelimit/ratelimit.go:24-35 | the same on Redis, with an ordered clock |
| `GatewayRuns.CountRulesDenyNothing` | services/gateway/internal/proxy/gateway.go:186-193 | an app whose rate limits all count denies exactly the requests, with verdict and status, that it denies without them |
| `GatewayRuns.SpanBoundOnMemory` | services/gateway/internal/ratelimit/ratelimit.go:97-128 | in any span of one window length the checks of any trace let one client of a rule through at most twice the limit |
| `GatewayRuns.SpanBoundOnRedis` | services/gateway/internal/ratelimit/ratelimit.go:24-35 | the same on Redis, with an ordered clock |
| `Meaning.PrefixRange` | services/gateway/internal/policy/store.go:597-604 | a prefix contains the zoneless addresses of its family in its range of values |
| `Meaning.AllLaw` | services/gateway/internal/policy/store.go:299-306 | an `all` record matches exactly when every child does |
| `Meaning.AnyLaw` | services/gateway/internal/policy/store.go:307-314 | an `any` record matches exactly when some child does |
| `Meaning.LineLaws` | services/gateway/internal/policy/store.go:315-323 | method up to letter case, path equal, path with the prefix and any rest |
| `Meaning.HostLaw` | services/gateway/internal/policy/store.go:324-326 | hosts with one normal form |
| `Meaning.NamedLaws` | services/gateway/internal/policy/store.go:327-340 | header contains, header equals and query contains over the values stored under the canonical, respectively plain, name |
| `Meaning.IPLaws` | services/gateway/internal/policy/store.go:341-346 | in the set exactly when some prefix contains the client, not in it exactly when none does |
| `Meaning.TrimLaw` | services/gateway/internal/policy/store.go:606-608 | trimming takes white space off both ends and nothing else |
| `Meaning.CanonicalAt` | services/gateway/internal/policy/store.go:606-608 | a canonical header name has upper case at the start and after a dash, lower case elsewhere |
| `Meaning.HostCase` | services/gateway/internal/policy/store.go:196-207 | letter case does not matter to a host's normal form |
| `Meaning.HostPort` | services/gateway/internal/policy/store.go:196-207 | a host name alone or with any port has its lower case as normal form |
| `Meaning.HostBrackets` | services/gateway/internal/policy/store.go:196-207 | so has an address in brackets, alone or with any port |
| `Meaning.HostSpaces` | services/gateway/internal/policy/store.go:196-207 | white space around a host does not matter |
| `Meaning.MatchHostLaw` | services/gateway/internal/policy/store.go:183-207 | the host index answers alike for a host in any letter case, with or without a port |
| `Meaning.LessLaw` | services/control-api/internal/events/events.go:248-253 | string order is decided at the first difference |
| `Condition.ParseAcceptsIff` | services/gateway/internal/policy/store.go:484-563 | a record parses exactly when every node uses one operator with a usable operand and known IP sets |
| `Condition.MatchIsSourceOrder` | services/gateway/internal/policy/store.go:298-348 | on every record, accepted or not, matching is the search for the first present field in source order |
| `Condition.CompiledMeansTree` | services/gateway/internal/policy/store.go:484-520 | for every accepted tree, matching the parsed record in any order of the fields is the And/Or/leaf meaning of the tree |
| `Condition.SetsExist` | services/gateway/internal/policy/store.go:552-561 | every IP set an accepted tree names exists |
| `Condition.MatchMeansTree` | services/gateway/internal/policy/store.go:298-348 | whatever parses, `Match` on the result is the meaning of the tree as written |
| `StableSort.FilterSort` | services/gateway/internal/policy/store.go:415-417 | filtering commutes with the stable sort |
| `StableSort.SortIsStable` | services/gateway/internal/policy/store.go:415-417 | rules of equal priority keep their order |
| `StableSort.StableSortUnique` | services/gateway/internal/policy/store.go:415-417 | any sorted arrangement that keeps the order within each priority is this one, so the sorting algorithm does not matter |
| `StableSort.FirstOfSorted` | services/gateway/internal/policy/store.go:261-295 | the first match in sorted order is the least match by key and position |
| `Rules.ParseCustomRules` | services/gateway/internal/policy/store.go:377-419 | succeeds exactly on acceptable configurations with the compiled rules in stable priority order; otherwise reports the first faulty rule and its first fault |
| `Rules.ParsedRuleIs` | services/gateway/internal/policy/store.go:377-414 | a parsed rule has the values of its configuration and a condition that means the configured tree |
| `Rules.ParsedInOrder` | services/gateway/internal/policy/store.go:415-417 | parsed rules and limits come by rising priority, and none is added or lost |
| `Rules.ConfigVerdictIs` | services/gateway/internal/policy/store.go:270-291 | the verdict of a blocking, counting or terminally allowing rule, field by field |
| `Rules.RulesAcceptedIff` | services/gateway/internal/policy/store.go:377-414 | a configuration is acceptable exactly when every rule is fine on its own and no id repeats |
| `Rules.EvaluateCustomRules` | services/gateway/internal/policy/store.go:259-296 | the early-exit loop returns the first deciding rule's verdict, else the first count, else a plain allow |
| `Rules.RawConfigVerdict` | services/gateway/internal/policy/store.go:259-419 | from raw configuration to verdict: the deciding rule least by (priority, position), else the least counting rule, else plain allow, judged on the condition trees as written |
| `Rules.LeastUnique` | services/gateway/internal/policy/store.go:415-417 | there is at most one least rule, so the verdict is determined |
| `Rules.DeletingPassiveRules` | services/gateway/internal/policy/store.go:261-295 | deleting any set of count rules and non-terminal allow rules changes neither whether a request is blocked or terminally allowed nor by which rule |
| `Rules.ParseRateLimitRules` | services/gateway/internal/policy/store.go:421-482 | the same for rate limits: success exactly on acceptable ones, in stable priority order; otherwise the first fault |
| `Rules.ParsedLimitIs` | services/gateway/internal/policy/store.go:421-482 | a parsed limit has the values of its configuration, no condition exactly when none is configured, and else one that means the configured tree |
| `Rules.LimitsAcceptedIff` | services/gateway/internal/policy/store.go:421-475 | rate limits are acceptable exactly when each is fine on its own and no id repeats |
| `HostIndex.NewStore` | services/gateway/internal/policy/store.go:111-127 | built exactly when every app parses and no two hostnames share a normal form; a failure names an app that does not parse, or a normal form with two apps that list it in two places |
| `HostIndex.MatchHostIsSearch` | services/gateway/internal/policy/store.go:183-207 | the index answers with app i exactly when app i lists a hostname with the host's normal form, and with none exactly when no app does |
| `Snapshot.ValidatePolicySnapshot` | services/control-api/internal/httpapi/server.go:526-607 | the loops accept exactly the drafts that meet the declarative checks |
| `Snapshot.ValidatorsAgree` | services/control-api/internal/httpapi/server.go:660-711 | the control plane accepts a tree exactly when the gateway does and no header or query name is white space only |
| `Snapshot.BlankHeaderDiffers` | services/control-api/internal/httpapi/server.go:690-698 | a tree on which the two validators differ |
| `Snapshot.GatewayAcceptsIff` | services/gateway/internal/policy/store.go:362-482 | an accepted draft is refused by the gateway's parsers exactly when a rule id repeats, a status code leaves 0..999 or a set name is blank |
| `Snapshot.DuplicateIDRefused` | services/gateway/internal/policy/store.go:384-386 | a draft the control plane accepts and the gateway refuses |
| `Repository.NextNumber` | services/control-api/internal/db/db.go:382-385 | the highest version number of the policy plus one, or 1 |
| `Repository.PrimaryOrigin` | services/control-api/internal/db/db.go:685-702 | a live origin of the app, first by primary name and then by creation time; none exactly when no origin is live |
| `Repository.Repository.UpdatePolicy` | services/control-api/internal/db/db.go:315-367 | writes exactly the edited row or nothing; agrees with the protocol's edit step |
| `Repository.Repository.PublishPolicy` | services/control-api/internal/db/db.go:369-428 | the next number, a snapshot compiled from the current row and a live origin, and all tables or none; agrees with the protocol's commit step |
| `PublishSafety.NextNumberIs` | services/control-api/internal/db/db.go:382-385 | under the invariant the MAX query returns the number of versions plus one |
| `PublishSafety.CompileEffect` | services/control-api/internal/db/db.go:658-702 | the origin query names no tenant, yet the snapshot gets an origin of the policy's own app and tenant |
| `PublishSafety.EditEffect` | services/control-api/internal/db/db.go:328-366 | with the row locked, an edit conflicts exactly on a different timestamp and otherwise writes the edited row or nothing |
| `PublishSafety.PublishEffect` | services/control-api/internal/db/db.go:401-427 | no constraint can fail at the end of a publish; it writes version, policy and deployment together |
| `PublishSafety.InvStep` | services/control-api/internal/db/db.go:138-428 | every statement of every request, including aborts, keeps the invariant on tables, locks, ids and timestamps |
| `PublishSafety.RunInv` | services/control-api/internal/db/db.go:138-428 | the invariant holds in every state of every run |
| `PublishTheorems.VersionsAreContiguous` | services/control-api/internal/db/db.go:369-428 | the versions of every policy are exactly 1..n, one each, and the active version and the default deployment are version n |
| `PublishTheorems.PublishedNeverChanges` | services/control-api/internal/db/db.go:401-409 | whatever commits later, a published version and an origin stay as they are |
| `PublishTheorems.PublishedContent` | services/control-api/internal/db/db.go:658-683 | every version's snapshot has the rules, limits and IP sets of the row it was compiled from, the draft's mode or else the row's, and the publish changed of the row only the active version and the timestamp |
| `PublishTheorems.EditWritesRequest` | services/control-api/internal/db/db.go:331-342 | an edit that commits has each requested value in the row, the caller's old value where none is requested, and nothing else changed |
| `PublishTheorems.NewPolicyRequest` | services/control-api/internal/httpapi/server.go:218-245 | a request for a policy is refused exactly without a name, with a bad mode or a bad draft; an empty mode counts, a missing draft is empty |
| `PublishTheorems.OtherRequests` | services/control-api/internal/httpapi/server.go:727-750 | when the other requests are refused, and what is passed on otherwise |
| `PublishTheorems.CallsServeRequests` | services/control-api/internal/httpapi/server.go:158-290 | every call of every run works on the request, and for the tenant, it was started with |
| `PublishTheorems.PolicyCreated` | services/control-api/internal/db/db.go:275-298 | a created policy has the requested values, is enabled and has no active version; the others are as before |
| `PublishTheorems.AppCreated` | services/control-api/internal/db/db.go:138-170 | a created app has the requested values and one live primary origin |
| `PublishTheorems.NamesStayUnique` | services/control-api/internal/db/migrations/000001_init.up.sql:60-126 | in every state of every run policies of one app have different names and apps of one tenant different slugs |
| `PublishTheorems.UntouchedIffSameStamp` | services/control-api/internal/db/db.go:315-367 | between two states of a run a policy was written exactly when its updated_at changed |
| `PublishTheorems.NoLostUpdates` | services/control-api/internal/db/db.go:315-367 | an edit commits only if nothing was committed to the policy since the state its caller saw, and then applies exactly the requested change to that state's row; it conflicts exactly when something was; an edit that does not commit changes no table |
| `PublishTheorems.TenantIsolation` | services/control-api/internal/db/db.go:138-428 | any number of operations under other tenants leave a tenant's rows in every table as they are |
| `PublishTheorems.DraftsStayValid` | services/control-api/internal/httpapi/server.go:235-239 | every stored policy has its app's tenant, a valid mode and a draft that passed validation |
| `PublishTheorems.PublishedSnapshots` | services/control-api/internal/db/db.go:658-702 | every published snapshot passes the control plane's validation and names one tenant, app, policy and an origin of that app; the gateway's parsers refuse it only on the grounds the control plane does not check |
| `PublishTheorems.ServedIsLatest` | services/control-api/internal/db/db.go:430-453 | what is served for a tenant and app is the highest version of an enabled policy of theirs, and no deployed version of another such policy was published later |
| `PublishTheorems.PublishCannotFail` | services/control-api/internal/db/db.go:374-428 | once a publish holds the row none of its statements fails; its commit succeeds |
| `PublishTheorems.PublishNeverStuck` | services/control-api/internal/db/db.go:374-428 | a request that holds a policy row can always take its next statement, so no interleaving leaves the lock stuck |
| `PublishTheorems.NextNumberExists` | services/control-api/internal/db/db.go:382-385 | in every state of every run the MAX query has exactly one answer, the number of versions plus one |
| `PublishTheorems.PublishNeverRefused` | services/control-api/internal/httpapi/server.go:272-284 | the handler's validation before a publish never refuses a stored draft |
| `PublishTheorems.PatchSucceedsIff` | services/control-api/internal/db/db.go:193-251 | a PATCH that found its app succeeds exactly without a new origin and then writes the patched values of the row it read; otherwise it changes nothing |
| `PublishTheorems.PatchWritesRequest` | services/control-api/internal/db/db.go:198-227 | a PATCH that succeeds writes each value it brings and the value it read for the others |
| `PublishTheorems.ReplacingOriginFails` | services/control-api/internal/db/db.go:231-242 | a PATCH of an app with a new origin never succeeds and changes nothing |
| `PublishRuns.PublishCompletes` | services/control-api/internal/db/db.go:369-428 | from every state of every run a publish that has begun and finds its row free can be carried through: one more version compiled from the current row, its own timestamp, the lock released, and no other row of any table changed |
| `PublishRuns.UpdatedAtRunsBack` | services/control-api/internal/db/db.go:410-410 | from every state with a free policy, with increasing timestamps, two overlapping publishes can commit so that updated_at runs backwards |
| `PublishRuns.BackwardsRun` | services/control-api/internal/db/db.go:410-410 | such a run from the empty tables |
| `PublishRuns.CommitLowersIff` | services/control-api/internal/db/db.go:315-428 | with increasing timestamps, a successful edit or publish lowers updated_at exactly when the row it replaces carries a timestamp handed out after its own transaction began |
| `PublishRuns.StampIssued` | services/control-api/internal/db/db.go:315-428 | every timestamp in use was handed out by some step of the run, so the previous statement applies to every commit |
| `PublishRuns.ReplacementRun` | services/control-api/internal/db/db.go:231-242 | a run in which a PATCH with a new origin is under way and fails |
| `PublishRuns.PatchReadARow` | services/control-api/internal/db/db.go:194-210 | what a PATCH has read is a row the app had earlier in the run |
| `PublishRuns.PatchAppliesIff` | services/control-api/internal/db/db.go:193-251 | a PATCH applies to the row as it is at its commit exactly when every value it does not set is still the value it read |
| `PublishRuns.LosingPatch` | services/control-api/internal/db/db.go:193-251 | from every state with an app, two PATCH calls can both succeed while the change of the first is gone |
| `PublishRuns.LosingRun` | services/control-api/internal/db/db.go:193-251 | such a run from the empty tables |
| `Dispatcher.NewDispatcher` | services/gateway/internal/audit/audit.go:269-288 | accepted exactly with a positive queue size and at least one sink |
| `Dispatcher.AuditDispatcher.Log` | services/gateway/internal/audit/audit.go:290-306 | enqueues or counts a drop, never both, never over capacity; counts the event once as blocked or allowed |
| `Dispatcher.AuditDispatcher.Write` | services/gateway/internal/audit/audit.go:331-345 | every sink is offered the event; sent goes up by one exactly when some sink took it |
| `Dispatcher.AuditDispatcher.Run` | services/gateway/internal/audit/audit.go:324-329 | after the close the drain ends with an empty queue, every sink offered the queued events in order, and sent counting those some sink took |
| `Dispatcher.OfferedInOrder` | services/gateway/internal/audit/audit.go:290-345 | in every run the queue stays within capacity and every sink has been offered, once and in order of acceptance, all that left the queue, or all but the event being written |
| `Dispatcher.SentBound` | services/gateway/internal/audit/audit.go:331-345 | sent counts exactly the written events some sink took and never exceeds the accepted ones |
| `Dispatcher.LoggedAccounted` | services/gateway/internal/audit/audit.go:290-306 | with no Log under way, logged = accepted + dropped = blocked + allowed |
| `Dispatcher.BlockedAre` | services/gateway/internal/audit/audit.go:294-298 | with no Log under way, the blocked counter is the number of logged events with the action block or rate_limit |
| `Dispatcher.ShutdownDrains` | services/gateway/internal/audit/audit.go:308-318 | a Shutdown that returned nil has seen every accepted event offered to every sink |
| `Dispatcher.DrainTerminates` | services/gateway/internal/audit/audit.go:324-345 | after the close each consumer step uses up exactly one unit of a measure on the queue, no other step adds any, and a consumer step is possible until it exits |
| `DispatcherRuns.DrainBound` | services/gateway/internal/audit/audit.go:324-345 | after the close, over every stretch of every run, the consumer takes at most the measure's number of steps and has exited exactly when it has taken that many |
| `DispatcherRuns.LogIsASchedule` | services/gateway/internal/audit/audit.go:290-306 | a Log call run without interruption is a legal schedule with exactly the effect of the sequential method |
| `DispatcherRuns.RunIsASchedule` | services/gateway/internal/audit/audit.go:324-345 | from every closed state with an idle consumer the drain is a legal schedule that ends with exactly the effect of the sequential method |
| `Ranking.SortByRank` | services/control-api/internal/events/events.go:248-253 | a strictly ordered permutation, by count downwards and then by name |
| `Ranking.StrictUnique` | services/control-api/internal/events/events.go:248-253 | two strictly ordered sequences with the same elements are equal |
| `Simulation.Accumulate` | services/control-api/internal/events/events.go:212-235 | each accumulator holds name, count, IPs, path counts and samples of exactly its rule's would-block events |
| `Simulation.TopPaths` | services/control-api/internal/events/events.go:257-280 | the first five names of the strict ranking of all paths, for every enumeration order of the map |
| `Simulation.BuildSimulationSummary` | services/control-api/internal/events/events.go:204-255 | one row per rule in strict order, each with its rule's count, IPs, top paths and samples, for every enumeration order |
| `Simulation.RuleLaw` | services/control-api/internal/events/events.go:217-220 | an event is counted under its trimmed rule id, or "unknown" for a blank one |
| `Simulation.SummaryOrder` | services/control-api/internal/events/events.go:248-253 | rows come by falling count, and rows of one count by rising id |
| `Simulation.TopOrder` | services/control-api/internal/events/events.go:266-271 | so do the top paths of a row |
| `Simulation.SummaryUnique` | services/control-api/internal/events/events.go:204-255 | the events determine the summary: no two results are possible |
| `Simulation.TopIsBest` | services/control-api/internal/events/events.go:257-280 | at most five paths in strict order; a path is left out only when five are listed and all of them are better |
| `Simulation.CountsAddUp` | services/control-api/internal/events/events.go:213-226 | rows have different rules and their counts add up to the number of would-block events of the input |
| `Simulation.EventOrderIrrelevant` | services/control-api/internal/events/events.go:204-280 | permuting the events leaves rule ids, counts, unique IPs and top paths of every row as they are |

## Left out

- HTTP serving, proxying, header forwarding, authentication, CORS, panic recovery, metrics export and logging.
- The Coraza engine: its result is an arbitrary verdict, silence or error that does not depend on the mode.
- Redis sockets and RESP framing, ClickHouse, pgx and SQL text: only the state change each statement stands for.
- JSON, YAML, URL and CIDR text parsing: models take decoded values; a CIDR text is a prefix, padded or malformed.
- Case folding is ASCII only; header values and paths are sequences of characters, not bytes.
- SHA-256: the key hash is an arbitrary function; statements about clients speak of the hash of the key part.
- Texts of error messages; errors are values that say which check failed.
- Wrap-around of 64-bit counters and of timestamps.
- `GetGatewayPolicyByHostname`, listing and read endpoints, managed rule sets, users and tenants tables.
- The checks of app names, slugs and hostnames in the app handlers, and the deadline of `sink.Write`.
- Fairness of scheduling: `DispatcherRuns.DrainBound`, `PolicyCache.Progress` and `PublishTheorems.PublishNeverStuck` say which steps are possible, not that they are taken.
- RateLimit.RedisRefinesMemory: clock reading and increment are one step, the clock is shared and never runs backwards, and a rule keeps its window, because a key computed from a late clock reading may already have expired on the server.
- RateLimit.AllowedIffAmongFirst: speaks of the store's replies; `GatewayRuns.CheckAllowsFirst` states it for the verdicts of `Check`.
- RateLimit.KeyInjective: tenant and app ids contain no colon, because the key is colon-joined text; `KeyEqualIff` and `OwnCounterIff` state what holds without this.
- Gateway.Check: a store failure leaves the counters as they were; a Redis call that fails after the script ran would have charged.
- PolicyClient.Provider.Lookup: one goroutine without mutexes; interleavings are in `PolicyCache`.
- PublishTheorems.ServedIsLatest: ties in deployed_at are not broken, and the statement holds for each of the tied policies.
- Dispatcher.OfferedInOrder: no `Log` runs beside or after a `Shutdown`, because a send on the closed channel panics.
