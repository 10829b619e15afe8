/** `policy.LookupResult` (policy/store.go:97-105), generic in the app it carries. */
module Lookup {
  import opened Text

  datatype LookupResult<A> = LookupResult(
    app: Option<A>, found: bool, failOpen: bool, statusCode: int, reason: string, warning: string, stale: bool)

  function Found<A>(app: A): LookupResult<A> {
    LookupResult(Some(app), true, false, 0, "", "", false)
  }

  function FoundStale<A>(app: A): LookupResult<A> {
    LookupResult(Some(app), true, false, 0, "", "policy_fetch_failed_using_stale", true)
  }

  function NotFound<A>(failOpen: bool, statusCode: int, reason: string, warning: string): LookupResult<A> {
    LookupResult(None, false, failOpen, statusCode, reason, warning, false)
  }
}

/** The decision part of `Gateway.ServeHTTP` (services/gateway/internal/proxy/gateway.go). */
module Gateway {
  import opened Text
  import opened Decision
  import opened Netip
  import opened Condition
  import opened StableSort
  import opened Rules
  import RL = RateLimit
  import opened Lookup

  datatype ListedPrefix = ListedPrefix(prefix: Prefix, text: string)

  datatype App = App(
    id: string, tenantID: string, mode: Mode, defaultAction: Action,
    ipBlocklist: seq<ListedPrefix>, ipAllowlist: seq<ListedPrefix>, ipSets: IPSets,
    rateLimits: seq<LimitRule>, customRules: seq<Rule>)

  /** Windows are positive: what `ParseRateLimitRules` guarantees and the division in `Check` needs. */
  predicate Usable(app: App) {
    forall r | r in app.rateLimits :: r.windowSeconds > 0
  }

  lemma FaultlessLimit(v: LimitConfig, known: set<string>)
    requires LimitFault(v, {}, known) == None
    ensures v.windowSeconds > 0 && v.limit > 0
  {
  }

  lemma ParsedLimitsUsable(values: seq<LimitConfig>, known: set<string>, r: LimitRule)
    requires LimitsAccepted(values, known) && r in Sort(ToLimits(values, known), LimitPriority())
    ensures r.windowSeconds > 0 && r.limit > 0
  {
    var rs := ToLimits(values, known);
    SortSorted(rs, LimitPriority());
    var i := IndexIn(Sort(rs, LimitPriority()), rs, r);
    LimitsAcceptedIff(values, known);
    FaultlessLimit(values[i], known);
  }

  /** `Noop` when Redis is disabled; the hash is an arbitrary function. */
  datatype Limiter = Noop | FixedWindow(failClosed: bool, hash: string -> string)

  /** What one `Check` sees of the world: the clock, and whether the store answers. */
  datatype CheckEnv = CheckEnv(now: nat, storeUp: bool)

  datatype WafResult = WafError | WafSilent | WafVerdict(d: Verdict)

  datatype Incoming = Incoming(
    ctx: Request, clientText: string, bodyExceeded: bool, waf: WafResult, checks: seq<CheckEnv>)

  /** One environment per rate-limit rule. */
  predicate Matches(app: App, req: Incoming) {
    |req.checks| == |app.rateLimits|
  }

  // ----- IP lists -----

  function Covering(ip: Address): ListedPrefix -> bool {
    (p: ListedPrefix) => p.prefix.Contains(ip)
  }

  function IPVerdict(app: App, ip: Address): Verdict {
    match First(app.ipBlocklist, Covering(ip))
    case Some(p) => BlockVerdict("ip_blocklist", "ip_blocklist:" + p.text)
    case None =>
      if app.ipAllowlist != [] && First(app.ipAllowlist, Covering(ip)) == None
      then BlockVerdict("ip_allowlist", "ip_allowlist") else ALLOW
  }

  /** policy/store.go:242-257 */
  method EvaluateIP(app: App, ip: Address) returns (d: Verdict)
    ensures d == IPVerdict(app, ip)
  {
    var i := 0;
    while i < |app.ipBlocklist|
      invariant 0 <= i <= |app.ipBlocklist|
      invariant First(app.ipBlocklist, Covering(ip)) == First(app.ipBlocklist[i..], Covering(ip))
    {
      if app.ipBlocklist[i].prefix.Contains(ip) {
        return BlockVerdict("ip_blocklist", "ip_blocklist:" + app.ipBlocklist[i].text);
      }
      i := i + 1;
    }
    if |app.ipAllowlist| > 0 {
      i := 0;
      while i < |app.ipAllowlist|
        invariant 0 <= i <= |app.ipAllowlist|
        invariant First(app.ipAllowlist, Covering(ip)) == First(app.ipAllowlist[i..], Covering(ip))
      {
        if app.ipAllowlist[i].prefix.Contains(ip) {
          return ALLOW;
        }
        i := i + 1;
      }
      return BlockVerdict("ip_allowlist", "ip_allowlist");
    }
    return ALLOW;
  }

  // ----- one rate-limit check -----

  function HeaderGet(headers: map<string, seq<string>>, name: string): string {
    var values := Condition.Lookup(headers, CanonicalHeaderKey(name));
    if values == [] then "" else values[0]
  }

  /** ratelimit.go:153-166 */
  function KeyPart(req: Incoming, rule: LimitRule): string {
    if rule.keyType == "host" then ToLower(req.ctx.host)
    else if rule.keyType == "path" then req.ctx.path
    else if rule.keyType == "header" then HeaderGet(req.ctx.headers, rule.keyHeader)
    else if rule.keyType == "api_key_placeholder" then HeaderGet(req.ctx.headers, "X-API-Key")
    else req.clientText
  }

  function Info(rule: LimitRule, remaining: int, resetAt: int): Option<RateLimitInfo> {
    Some(RateLimitInfo(rule.limit, remaining, resetAt, rule.id, rule.action))
  }

  /** ratelimit.go:130-151 */
  function LimitVerdict(rule: LimitRule, remaining: int, resetAt: int): Verdict {
    Verdict(if rule.action == Block then RateLimit else Count, "rate_limit", "rate_limit:" + rule.id, rule.name,
            "rate_limit", ["rate_limit"], 0, rule.statusCode, Info(rule, remaining, resetAt))
  }

  function UnderLimit(rule: LimitRule, remaining: int, resetAt: int): Verdict {
    ALLOW.(matchedRuleName := rule.name, ruleGroup := "rate_limit", tags := ["rate_limit"],
           rateLimit := Info(rule, remaining, resetAt))
  }

  predicate Skips(limiter: Limiter, app: App, req: Incoming, rule: LimitRule) {
    limiter.Noop? || !rule.enabled || (rule.match_.Some? && !Match(rule.match_.value, req.ctx, app.ipSets))
  }

  /** Who a check charges. */
  function ClientOf(limiter: Limiter, app: App, req: Incoming, rule: LimitRule): RL.Client
    requires limiter.FixedWindow?
  {
    RL.Client(app.tenantID, app.id, rule.id, limiter.hash(KeyPart(req, rule)))
  }

  /** The charge a check issues. */
  function CallOf(limiter: Limiter, app: App, req: Incoming, rule: LimitRule, now: nat): RL.Call
    requires limiter.FixedWindow? && rule.windowSeconds > 0
  {
    var who := ClientOf(limiter, app, req, rule);
    RL.Call(who, rule.limit, rule.windowSeconds, now, RL.Key(RL.BucketIn(who, RL.WindowAt(now, rule.windowSeconds))))
  }

  /** The verdict of one check and the counters after it. */
  function Checked(limiter: Limiter, app: App, req: Incoming, rule: LimitRule, env: CheckEnv, counters: RL.Store): (Verdict, RL.Store)
    requires rule.windowSeconds > 0
  {
    if Skips(limiter, app, req, rule) then (ALLOW, counters)
    else
      var resetAt := RL.ResetAt(env.now, rule.windowSeconds);
      if !env.storeUp then (if limiter.failClosed then LimitVerdict(rule, 0, resetAt) else ALLOW, counters)
      else
        var c := CallOf(limiter, app, req, rule, env.now);
        var reply := RL.ReplyOf(counters, c);
        (if RL.Allowed(c, reply) then UnderLimit(rule, reply.remaining, resetAt) else LimitVerdict(rule, reply.remaining, resetAt),
         RL.Charge(counters, c))
  }

  /** ratelimit.go:79-128 */
  method Check(limiter: Limiter, store: RL.CounterStore, app: App, req: Incoming, rule: LimitRule, env: CheckEnv) returns (d: Verdict)
    requires rule.windowSeconds > 0
    requires RL.Positive(store.redis.entries)
    modifies store.memory, store.redis
    ensures RL.Positive(store.redis.entries)
    ensures (d, store.View()) == Checked(limiter, app, req, rule, env, old(store.View()))
  {
    if limiter.Noop? { return ALLOW; }
    if !rule.enabled { return ALLOW; }
    if rule.match_.Some? {
      if !Match(rule.match_.value, req.ctx, app.ipSets) { return ALLOW; }
    }
    var keyHash := limiter.hash(KeyPart(req, rule));
    var window := env.now / 1000 / rule.windowSeconds;
    var resetAt := (window + 1) * rule.windowSeconds;
    var key := RL.Key(RL.Bucket(app.tenantID, app.id, rule.id, keyHash, window));
    if !env.storeUp {
      if !limiter.failClosed { return ALLOW; }
      return LimitVerdict(rule, 0, resetAt);
    }
    var who := RL.Client(app.tenantID, app.id, rule.id, keyHash);
    var reply := store.IncrementFixedWindow(RL.Call(who, rule.limit, rule.windowSeconds, env.now, key));
    if reply.count <= rule.limit {
      return UnderLimit(rule, reply.remaining, resetAt);
    }
    return LimitVerdict(rule, reply.remaining, resetAt);
  }

  // ----- the rate-limit stage -----

  /** Counters after the first `i` rules have all been checked. */
  function StoreAfter(limiter: Limiter, app: App, req: Incoming, counters: RL.Store, i: nat): RL.Store
    requires Usable(app) && Matches(app, req) && i <= |app.rateLimits|
  {
    if i == 0 then counters
    else Checked(limiter, app, req, app.rateLimits[i - 1], req.checks[i - 1], StoreAfter(limiter, app, req, counters, i - 1)).1
  }

  /** Verdict of rule `i` when the rules before it have been checked. */
  function VerdictAt(limiter: Limiter, app: App, req: Incoming, counters: RL.Store, i: nat): Verdict
    requires Usable(app) && Matches(app, req) && i < |app.rateLimits|
  {
    Checked(limiter, app, req, app.rateLimits[i], req.checks[i], StoreAfter(limiter, app, req, counters, i)).0
  }

  /** `n` is where the stage stops: the first rule whose verdict is not allow, or past the end. */
  predicate StopsAt(limiter: Limiter, app: App, req: Incoming, counters: RL.Store, n: nat)
    requires Usable(app) && Matches(app, req)
  {
    n <= |app.rateLimits|
    && (forall i | 0 <= i < n :: VerdictAt(limiter, app, req, counters, i).action == Allow)
    && (n < |app.rateLimits| ==> VerdictAt(limiter, app, req, counters, n).action != Allow)
  }

  function StopFrom(limiter: Limiter, app: App, req: Incoming, counters: RL.Store, i: nat): (n: nat)
    requires Usable(app) && Matches(app, req) && i <= |app.rateLimits|
    requires forall k | 0 <= k < i :: VerdictAt(limiter, app, req, counters, k).action == Allow
    ensures StopsAt(limiter, app, req, counters, n)
    decreases |app.rateLimits| - i
  {
    if i == |app.rateLimits| || VerdictAt(limiter, app, req, counters, i).action != Allow then i
    else StopFrom(limiter, app, req, counters, i + 1)
  }

  /** The stage's verdict, and the counters: rules up to and including the stop are charged, no others. */
  function RateStage(limiter: Limiter, app: App, req: Incoming, counters: RL.Store): (Verdict, RL.Store)
    requires Usable(app) && Matches(app, req)
  {
    var n := StopFrom(limiter, app, req, counters, 0);
    if n == |app.rateLimits| then (ALLOW, StoreAfter(limiter, app, req, counters, n))
    else (VerdictAt(limiter, app, req, counters, n), StoreAfter(limiter, app, req, counters, n + 1))
  }

  lemma StopUnique(limiter: Limiter, app: App, req: Incoming, counters: RL.Store, m: nat, n: nat)
    requires Usable(app) && Matches(app, req)
    requires StopsAt(limiter, app, req, counters, m) && StopsAt(limiter, app, req, counters, n)
    ensures m == n
  {
  }

  /** gateway.go:332-347 */
  method EvaluateRateLimits(limiter: Limiter, store: RL.CounterStore, app: App, req: Incoming) returns (d: Verdict)
    requires Usable(app) && Matches(app, req)
    requires RL.Positive(store.redis.entries)
    modifies store.memory, store.redis
    ensures RL.Positive(store.redis.entries)
    ensures (d, store.View()) == RateStage(limiter, app, req, old(store.View()))
  {
    ghost var counters := store.View();
    for i := 0 to |app.rateLimits|
      invariant RL.Positive(store.redis.entries) && store.View() == StoreAfter(limiter, app, req, counters, i)
      invariant forall k | 0 <= k < i :: VerdictAt(limiter, app, req, counters, k).action == Allow
    {
      var got := Check(limiter, store, app, req, app.rateLimits[i], req.checks[i]);
      if got.action != Allow {
        StopUnique(limiter, app, req, counters, i, StopFrom(limiter, app, req, counters, 0));
        return got;
      }
    }
    StopUnique(limiter, app, req, counters, |app.rateLimits|, StopFrom(limiter, app, req, counters, 0));
    return ALLOW;
  }

  // ----- the pipeline -----

  datatype Event = Event(
    action: Action, enforced: bool, wouldBlock: bool, reason: string, matchedRuleID: string,
    matchedRuleName: string, ruleGroup: string, tags: seq<string>, anomalyScore: int, rateLimit: Option<RateLimitInfo>)

  datatype Outcome =
    | FailedOpen(reason: string)              // answered without proxying
    | NoApp(status: int, reason: string)
    | WafFailed                               // 400, no decision
    | Denied(status: int, final: Verdict, event: Event)
    | Proxied(final: Verdict, event: Event)

  function Decided(o: Outcome): Option<Verdict> {
    match o
    case Denied(_, d, _) => Some(d)
    case Proxied(d, _) => Some(d)
    case _ => None
  }

  const BODY_BLOCK: Verdict := BlockVerdict("request_body_limit_exceeded", "waf:request_body_limit")
  const DEFAULT_BLOCK: Verdict := BlockVerdict("default_action", "default_action")

  predicate TerminalAllow(d: Verdict) { d.action == Allow && d.reason == "custom_rule_allow" }

  function Disruptive(): Verdict -> bool { (d: Verdict) => d.WouldBlock() }

  function Observing(): Verdict -> bool { (d: Verdict) => d.action == Count }

  function WafOr(w: WafResult): Verdict { if w.WafVerdict? then w.d else ALLOW }

  /** The precedence rule over the verdicts of the stages; `None` is a WAF failure.
      The first disruptive verdict wins. A terminal allow skips the default action only.
      Without a disruptive verdict, the first count is reported. */
  function Precedence(ip: Verdict, rate: Verdict, bodyExceeded: bool, custom: Verdict, waf: WafResult, default_: Action): Option<Verdict> {
    match First([ip, rate, if bodyExceeded then BODY_BLOCK else ALLOW, custom], Disruptive())
    case Some(d) => Some(d)
    case None =>
      if waf.WafError? then None
      else if WafOr(waf).WouldBlock() then Some(WafOr(waf))
      else if default_ == Block && !TerminalAllow(custom) then Some(DEFAULT_BLOCK)
      else
        match First([rate, custom, WafOr(waf)], Observing())
        case Some(d) => Some(d)
        case None => Some(if TerminalAllow(custom) then custom else ip)
  }

  function EventOf(mode: Mode, d: Verdict): Event {
    Event(d.action, mode == BlockMode && d.WouldBlock(), d.WouldBlock(), d.reason, d.matchedRuleID, d.matchedRuleName,
          d.ruleGroup, d.tags, d.anomalyScore, d.rateLimit)
  }

  function Finish(mode: Mode, d: Verdict): Outcome {
    if mode == BlockMode && d.WouldBlock() then Denied(if d.statusCode == 0 then 403 else d.statusCode, d, EventOf(mode, d))
    else Proxied(d, EventOf(mode, d))
  }

  /** Decision and counters of one request against one app; no decision when the WAF fails. */
  function Decide(limiter: Limiter, app: App, req: Incoming, counters: RL.Store): (Option<Verdict>, RL.Store)
    requires Usable(app) && Matches(app, req)
  {
    var ip := IPVerdict(app, req.ctx.clientIP);
    var rate := if ip.action == Allow then RateStage(limiter, app, req, counters) else (ALLOW, counters);
    (Precedence(ip, rate.0, req.bodyExceeded, CustomVerdict(app.customRules, req.ctx, app.ipSets), req.waf, app.defaultAction), rate.1)
  }

  function Conclude(mode: Mode, decided: (Option<Verdict>, RL.Store)): (Outcome, RL.Store) {
    match decided.0
    case None => (WafFailed, decided.1)
    case Some(d) => (Finish(mode, d), decided.1)
  }

  /** Outcome and counters of one request against one app. */
  function Serve(limiter: Limiter, app: App, req: Incoming, counters: RL.Store): (Outcome, RL.Store)
    requires Usable(app) && Matches(app, req)
  {
    Conclude(app.mode, Decide(limiter, app, req, counters))
  }

  lemma IPActions(app: App, ip: Address)
    ensures IPVerdict(app, ip).action == Block || IPVerdict(app, ip) == ALLOW
  {
  }

  lemma RateActions(limiter: Limiter, app: App, req: Incoming, counters: RL.Store)
    requires Usable(app) && Matches(app, req)
    ensures RateStage(limiter, app, req, counters).0.action in {Allow, Count, RateLimit}
  {
  }

  predicate CustomShape(c: Verdict) {
    c.action == Block || TerminalAllow(c) || (c.reason != "custom_rule_allow" && (c.action == Count || c == ALLOW))
  }

  lemma CustomActions(rules: seq<Rule>, ctx: Request, sets: IPSets)
    ensures CustomShape(CustomVerdict(rules, ctx, sets))
  {
    FirstSpec(rules, Decides(ctx, sets));
    FirstSpec(rules, Counts(ctx, sets));
  }

  lemma FirstOfFour(a: Verdict, b: Verdict, c: Verdict, d: Verdict)
    ensures First([a, b, c, d], Disruptive()) ==
            if a.WouldBlock() then Some(a) else if b.WouldBlock() then Some(b)
            else if c.WouldBlock() then Some(c) else if d.WouldBlock() then Some(d) else None
  {
    assert [a, b, c, d][1..] == [b, c, d] && [b, c, d][1..] == [c, d] && [c, d][1..] == [d];
    assert First([d], Disruptive()) == if d.WouldBlock() then Some(d) else None;
    assert First([c, d], Disruptive()) == if c.WouldBlock() then Some(c) else First([d], Disruptive());
    assert First([b, c, d], Disruptive()) == if b.WouldBlock() then Some(b) else First([c, d], Disruptive());
  }

  lemma FirstOfThree(a: Verdict, b: Verdict, c: Verdict)
    ensures First([a, b, c], Observing()) ==
            if a.action == Count then Some(a) else if b.action == Count then Some(b)
            else if c.action == Count then Some(c) else None
  {
    assert [a, b, c][1..] == [b, c] && [b, c][1..] == [c];
    assert First([c], Observing()) == if c.action == Count then Some(c) else None;
    assert First([b, c], Observing()) == if b.action == Count then Some(b) else First([c], Observing());
  }

  function Remember(seen: Option<Verdict>, got: Verdict): Option<Verdict> {
    if got.action == Count && seen == None then Some(got) else seen
  }

  /** The precedence rule with the two searches written out. */
  lemma PrecedenceCases(ip: Verdict, rate: Verdict, bodyExceeded: bool, custom: Verdict, waf: WafResult, default_: Action)
    ensures Precedence(ip, rate, bodyExceeded, custom, waf, default_) ==
            if ip.WouldBlock() then Some(ip) else if rate.WouldBlock() then Some(rate)
            else if bodyExceeded then Some(BODY_BLOCK) else if custom.WouldBlock() then Some(custom)
            else if waf.WafError? then None else if WafOr(waf).WouldBlock() then Some(WafOr(waf))
            else if default_ == Block && !TerminalAllow(custom) then Some(DEFAULT_BLOCK)
            else if rate.action == Count then Some(rate) else if custom.action == Count then Some(custom)
            else if WafOr(waf).action == Count then Some(WafOr(waf))
            else Some(if TerminalAllow(custom) then custom else ip)
  {
    FirstOfFour(ip, rate, if bodyExceeded then BODY_BLOCK else ALLOW, custom);
    FirstOfThree(rate, custom, WafOr(waf));
  }

  /** gateway.go:194-242: body limit, custom rules, WAF, default action and the remembered count,
      entered with the `final` and `observedCount` the first two stages left. */
  method LaterStages(app: App, req: Incoming, entered: Verdict, seen: Option<Verdict>, ghost ip: Verdict, ghost rate: Verdict)
    returns (r: Option<Verdict>)
    requires ip.action == Block || ip == ALLOW
    requires rate.action in {Allow, Count, RateLimit}
    requires entered == if ip.action == Block then ip else if rate.action == RateLimit then rate else ip
    requires seen == if ip == ALLOW && rate.action == Count then Some(rate) else None
    ensures r == Precedence(ip, rate, req.bodyExceeded, CustomVerdict(app.customRules, req.ctx, app.ipSets), req.waf, app.defaultAction)
  {
    var final, observedCount := entered, seen;
    ghost var custom := CustomVerdict(app.customRules, req.ctx, app.ipSets);
    CustomActions(app.customRules, req.ctx, app.ipSets);
    PrecedenceCases(ip, rate, req.bodyExceeded, custom, req.waf, app.defaultAction);
    if final.action == Allow && req.bodyExceeded {
      final := BlockVerdict("request_body_limit_exceeded", "waf:request_body_limit");
    }
    if final.action == Allow {
      var got := EvaluateCustomRules(app.customRules, req.ctx, app.ipSets);
      if got.action == Block || got.reason == "custom_rule_allow" {
        final := got;
      } else if got.action == Count {
        observedCount := Remember(observedCount, got);
      }
    }
    var terminalAllow := final.action == Allow && final.reason == "custom_rule_allow";
    if final.action == Allow {
      match req.waf {
        case WafError => return None;
        case WafSilent =>
        case WafVerdict(d) =>
          if d.action == Block || d.action == RateLimit || d.action == Challenge {
            final := d;
            terminalAllow := false;
          } else {
            observedCount := Remember(observedCount, d);
          }
      }
    }
    if final.action == Allow && !terminalAllow && app.defaultAction == Block {
      final := BlockVerdict("default_action", "default_action");
    }
    if final.action == Allow && observedCount.Some? {
      final := observedCount.value;
    }
    return Some(final);
  }

  /** gateway.go:178-274: the stages as coded, reassigning `final`, `observedCount` and
      `terminalAllow`, meet the precedence rule and charge exactly its counters. */
  method ServeApp(limiter: Limiter, store: RL.CounterStore, app: App, req: Incoming) returns (o: Outcome)
    requires Usable(app) && Matches(app, req)
    requires RL.Positive(store.redis.entries)
    modifies store.memory, store.redis
    ensures RL.Positive(store.redis.entries)
    ensures (o, store.View()) == Serve(limiter, app, req, old(store.View()))
  {
    IPActions(app, req.ctx.clientIP);
    RateActions(limiter, app, req, store.View());
    var final := EvaluateIP(app, req.ctx.clientIP);
    ghost var ip, rate := final, ALLOW;
    var observedCount: Option<Verdict> := None;
    if final.action == Allow {
      var got := EvaluateRateLimits(limiter, store, app, req);
      rate := got;
      if got.action == RateLimit || got.action == Block || got.action == Challenge {
        final := got;
      } else {
        observedCount := Remember(observedCount, got);
      }
    }
    var decided := LaterStages(app, req, final, observedCount, ip, rate);
    if decided == None {
      return WafFailed;
    }
    final := decided.value;
    var enforced := EnforcedAction(app.mode, final);
    var event := Event(final.action, app.mode == BlockMode && final.WouldBlock(), final.WouldBlock(), final.reason,
                       final.matchedRuleID, final.matchedRuleName, final.ruleGroup, final.tags, final.anomalyScore, final.rateLimit);
    if enforced != Allow && app.mode == BlockMode && final.WouldBlock() {
      var status := final.statusCode;
      if status == 0 {
        status := 403;
      }
      return Denied(status, final, event);
    }
    return Proxied(final, event);
  }

  /** gateway.go:135-158: what happens before an app is known. */
  method Handle(limiter: Limiter, store: RL.CounterStore, lookup: LookupResult<App>, req: Incoming) returns (o: Outcome)
    requires lookup.found && !lookup.failOpen ==>
               lookup.app.Some? && Usable(lookup.app.value) && Matches(lookup.app.value, req)
    requires RL.Positive(store.redis.entries)
    modifies store.memory, store.redis
    ensures RL.Positive(store.redis.entries)
    ensures lookup.failOpen ==> o == FailedOpen(lookup.reason) && store.View() == old(store.View())
    ensures !lookup.failOpen && !lookup.found ==>
              o == NoApp(if lookup.statusCode == 0 then 404 else lookup.statusCode, lookup.reason) && store.View() == old(store.View())
    ensures !lookup.failOpen && lookup.found ==>
              (o, store.View()) == Serve(limiter, lookup.app.value, req, old(store.View()))
  {
    if lookup.failOpen {
      return FailedOpen(lookup.reason);
    }
    if !lookup.found {
      var status := lookup.statusCode;
      if status == 0 {
        status := 404;
      }
      return NoApp(status, lookup.reason);
    }
    o := ServeApp(limiter, store, lookup.app.value, req);
  }

  /** A decided request is denied exactly when its event says `enforced`, and is proxied otherwise. */
  lemma DeniedIffEnforced(limiter: Limiter, app: App, req: Incoming, counters: RL.Store)
    requires Usable(app) && Matches(app, req)
    ensures var o := Serve(limiter, app, req, counters).0;
            o.WafFailed? || ((o.Denied? || o.Proxied?) && (o.Denied? <==> o.event.enforced)
                             && o.event.wouldBlock == o.final.WouldBlock())
  {
  }

  /** A request blocked by the IP lists charges no counter at all. */
  lemma BlockedIPChargesNothing(limiter: Limiter, app: App, req: Incoming, counters: RL.Store)
    requires Usable(app) && Matches(app, req) && IPVerdict(app, req.ctx.clientIP).action == Block
    ensures Serve(limiter, app, req, counters) == (Finish(app.mode, IPVerdict(app, req.ctx.clientIP)), counters)
  {
    PrecedenceCases(IPVerdict(app, req.ctx.clientIP), ALLOW, req.bodyExceeded,
                    CustomVerdict(app.customRules, req.ctx, app.ipSets), req.waf, app.defaultAction);
  }

  // ----- what the verdicts say -----

  /** A client is blocked by the IP lists exactly when the blocklist covers it, or there is an
      allowlist that does not; the reason tells which. */
  lemma IPVerdictLaw(app: App, ip: Address)
    ensures var d := IPVerdict(app, ip);
            var listed := exists i | 0 <= i < |app.ipBlocklist| :: app.ipBlocklist[i].prefix.Contains(ip);
            var missing := app.ipAllowlist != [] && forall i | 0 <= i < |app.ipAllowlist| :: !app.ipAllowlist[i].prefix.Contains(ip);
            (d.action == Block <==> listed || missing) && (d.action != Block ==> d == ALLOW)
            && (listed ==> d.reason == "ip_blocklist" && d.statusCode == 403
                           && exists i | 0 <= i < |app.ipBlocklist| ::
                                app.ipBlocklist[i].prefix.Contains(ip) && d.matchedRuleID == "ip_blocklist:" + app.ipBlocklist[i].text)
            && (!listed && missing ==> d.reason == "ip_allowlist" && d.statusCode == 403 && d.matchedRuleID == "ip_allowlist")
  {
    FirstSpec(app.ipBlocklist, Covering(ip));
    FirstSpec(app.ipAllowlist, Covering(ip));
    if p :| p in app.ipBlocklist && Covering(ip)(p) {
      var q := First(app.ipBlocklist, Covering(ip)).value;
      var i :| 0 <= i < |app.ipBlocklist| && app.ipBlocklist[i] == q;
      assert app.ipBlocklist[i].prefix.Contains(ip);
    }
    assert forall i | 0 <= i < |app.ipBlocklist| :: app.ipBlocklist[i] in app.ipBlocklist;
    assert forall i | 0 <= i < |app.ipAllowlist| :: app.ipAllowlist[i] in app.ipAllowlist;
  }

  /** What is counted per key type: the host in lower case, the path, the first value of the
      header, the API key, and the client address otherwise. */
  lemma KeyPartLaws(req: Incoming, rule: LimitRule)
    ensures rule.keyType == "host" ==> EqualFold(KeyPart(req, rule), req.ctx.host) && ToLower(KeyPart(req, rule)) == KeyPart(req, rule)
    ensures rule.keyType == "path" ==> KeyPart(req, rule) == req.ctx.path
    ensures rule.keyType == "header" ==> IsHeader(req, rule.keyHeader, KeyPart(req, rule))
    ensures rule.keyType == "api_key_placeholder" ==> IsHeader(req, "X-API-Key", KeyPart(req, rule))
    ensures rule.keyType !in ["host", "path", "header", "api_key_placeholder"] ==> KeyPart(req, rule) == req.clientText
  {
    LowerTwice(req.ctx.host);
  }

  lemma LowerTwice(s: string)
    ensures ToLower(ToLower(s)) == ToLower(s)
  {
  }

  /** The first value stored under the canonical name, or nothing. */
  predicate IsHeader(req: Incoming, name: string, value: string) {
    var key := CanonicalHeaderKey(name);
    if key in req.ctx.headers && req.ctx.headers[key] != [] then value == req.ctx.headers[key][0] else value == ""
  }

  /** The verdict over the limit: a block rule limits, every other rule counts; both carry the
      rule's names, its status and the state of its counter. */
  lemma LimitVerdictIs(rule: LimitRule, remaining: int, resetAt: int)
    ensures LimitVerdict(rule, remaining, resetAt)
         == Verdict(if rule.action == Block then RateLimit else Count, "rate_limit", "rate_limit:" + rule.id, rule.name, "rate_limit",
                    ["rate_limit"], 0, rule.statusCode, Some(RateLimitInfo(rule.limit, remaining, resetAt, rule.id, rule.action)))
    ensures UnderLimit(rule, remaining, resetAt)
         == Verdict(Allow, "", "", rule.name, "rate_limit", ["rate_limit"], 0, 0,
                    Some(RateLimitInfo(rule.limit, remaining, resetAt, rule.id, rule.action)))
  {
  }

  /** A store that does not answer: closed, the rule acts as if over its limit; open, the
      request passes. No counter changes. */
  lemma StoreDown(limiter: Limiter, app: App, req: Incoming, rule: LimitRule, env: CheckEnv, counters: RL.Store)
    requires rule.windowSeconds > 0 && !Skips(limiter, app, req, rule) && !env.storeUp
    ensures var r := Checked(limiter, app, req, rule, env, counters);
            r.1 == counters
            && (!limiter.failClosed ==> r.0 == ALLOW)
            && (limiter.failClosed && rule.action == Block ==> r.0.action == RateLimit && r.0.statusCode == rule.statusCode)
            && (limiter.failClosed && rule.action != Block ==> r.0.action == Count)
  {
  }

  /** The answer to a decided request: what is denied, with which status, and what the event says. */
  lemma AnswerLaw(limiter: Limiter, app: App, req: Incoming, counters: RL.Store)
    requires Usable(app) && Matches(app, req)
    ensures var o := Serve(limiter, app, req, counters).0;
            o.WafFailed? || ((o.Denied? || o.Proxied?)
              && (o.Denied? <==> app.mode == BlockMode && o.final.action in {Block, RateLimit, Challenge})
              && (o.Denied? ==> o.status == if o.final.statusCode == 0 then 403 else o.final.statusCode)
              && o.event.action == o.final.action && o.event.reason == o.final.reason
              && o.event.matchedRuleID == o.final.matchedRuleID && o.event.matchedRuleName == o.final.matchedRuleName
              && o.event.ruleGroup == o.final.ruleGroup && o.event.tags == o.final.tags
              && o.event.anomalyScore == o.final.anomalyScore && o.event.rateLimit == o.final.rateLimit
              && (o.event.wouldBlock <==> o.final.action in {Block, RateLimit, Challenge})
              && (o.event.enforced <==> o.Denied?))
  {
  }

  /** Count mode never enforces a disruptive action; otherwise the decided action is enforced. */
  lemma EnforcedLaw(mode: Mode, d: Verdict)
    ensures mode == CountMode && d.action in {Block, RateLimit, Challenge} ==> EnforcedAction(mode, d) == Count
    ensures mode != CountMode || d.action in {Unset, Allow, Count} ==> EnforcedAction(mode, d) == d.action
  {
  }
}
