/** Runs of the gateway over any number of apps and requests. */
module GatewayRuns {
  import opened Text
  import opened Counting
  import opened Decision
  import opened Rules
  import RL = RateLimit
  import opened Gateway

  /** A request and the app it was routed to. */
  datatype Visit = Visit(app: App, req: Incoming)

  predicate Ready(v: Visit) { Usable(v.app) && Matches(v.app, v.req) }

  predicate AllReady(visits: seq<Visit>) { forall i | 0 <= i < |visits| :: Ready(visits[i]) }

  /** Outcome of every request of a trace and the counters it leaves behind. */
  function Run(limiter: Limiter, visits: seq<Visit>, counters: RL.Store): (r: seq<(Outcome, RL.Store)>)
    requires AllReady(visits)
    ensures |r| == |visits|
    decreases visits
  {
    if visits == [] then []
    else
      var head := Serve(limiter, visits[0].app, visits[0].req, counters);
      [head] + Run(limiter, visits[1..], head.1)
  }

  // ----- count mode and block mode -----

  function InMode(app: App, mode: Mode): App { app.(mode := mode) }

  function AllIn(visits: seq<Visit>, mode: Mode): (r: seq<Visit>)
    ensures |r| == |visits| && forall i | 0 <= i < |r| :: r[i] == Visit(InMode(visits[i].app, mode), visits[i].req)
  {
    seq(|visits|, i requires 0 <= i < |visits| => Visit(InMode(visits[i].app, mode), visits[i].req))
  }

  /** The app in count mode does what it says it would: side by side with block mode. */
  predicate DryRunOf(count: (Outcome, RL.Store), block: (Outcome, RL.Store)) {
    count.1 == block.1
    && Decided(count.0) == Decided(block.0)
    && (count.0.WafFailed? <==> block.0.WafFailed?)
    && !count.0.Denied?
    && (count.0.Proxied? ==> (block.0.Denied? || block.0.Proxied?)
                             && !count.0.event.enforced
                             && count.0.event.wouldBlock == block.0.event.enforced
                             && (block.0.Denied? <==> count.0.event.wouldBlock))
  }

  lemma CheckIgnoresMode(limiter: Limiter, app: App, mode: Mode, req: Incoming, rule: LimitRule, env: CheckEnv, counters: RL.Store)
    requires rule.windowSeconds > 0
    ensures Checked(limiter, InMode(app, mode), req, rule, env, counters) == Checked(limiter, app, req, rule, env, counters)
  {
  }

  lemma {:induction false} CountsIgnoreMode(limiter: Limiter, app: App, mode: Mode, req: Incoming, counters: RL.Store, n: nat)
    requires Usable(app) && Matches(app, req) && n <= |app.rateLimits|
    ensures Usable(InMode(app, mode)) && Matches(InMode(app, mode), req)
    ensures StoreAfter(limiter, InMode(app, mode), req, counters, n) == StoreAfter(limiter, app, req, counters, n)
    ensures n < |app.rateLimits| ==> VerdictAt(limiter, InMode(app, mode), req, counters, n) == VerdictAt(limiter, app, req, counters, n)
  {
    if n > 0 {
      CountsIgnoreMode(limiter, app, mode, req, counters, n - 1);
      CheckIgnoresMode(limiter, app, mode, req, app.rateLimits[n - 1], req.checks[n - 1], StoreAfter(limiter, app, req, counters, n - 1));
    }
    if n < |app.rateLimits| {
      CheckIgnoresMode(limiter, app, mode, req, app.rateLimits[n], req.checks[n], StoreAfter(limiter, app, req, counters, n));
    }
  }

  lemma RateStageIgnoresMode(limiter: Limiter, app: App, mode: Mode, req: Incoming, counters: RL.Store)
    requires Usable(app) && Matches(app, req)
    ensures Usable(InMode(app, mode)) && Matches(InMode(app, mode), req)
    ensures RateStage(limiter, InMode(app, mode), req, counters) == RateStage(limiter, app, req, counters)
  {
    forall i: nat | i <= |app.rateLimits|
      ensures StoreAfter(limiter, InMode(app, mode), req, counters, i) == StoreAfter(limiter, app, req, counters, i)
      ensures i < |app.rateLimits| ==> VerdictAt(limiter, InMode(app, mode), req, counters, i) == VerdictAt(limiter, app, req, counters, i)
    {
      CountsIgnoreMode(limiter, app, mode, req, counters, i);
    }
    var n := StopFrom(limiter, app, req, counters, 0);
    assert StopsAt(limiter, InMode(app, mode), req, counters, n);
    StopUnique(limiter, InMode(app, mode), req, counters, n, StopFrom(limiter, InMode(app, mode), req, counters, 0));
  }

  lemma DecideIgnoresMode(limiter: Limiter, app: App, mode: Mode, req: Incoming, counters: RL.Store)
    requires Usable(app) && Matches(app, req)
    ensures Usable(InMode(app, mode)) && Matches(InMode(app, mode), req)
    ensures Decide(limiter, InMode(app, mode), req, counters) == Decide(limiter, app, req, counters)
  {
    RateStageIgnoresMode(limiter, app, mode, req, counters);
  }

  lemma ConcludeModes(decided: (Option<Verdict>, RL.Store))
    ensures DryRunOf(Conclude(CountMode, decided), Conclude(BlockMode, decided))
  {
  }

  /** The decision and the counters of a request do not depend on the mode; only what is done with them does. */
  lemma ServeModes(limiter: Limiter, app: App, req: Incoming, counters: RL.Store)
    requires Usable(app) && Matches(app, req)
    ensures Usable(InMode(app, CountMode)) && Matches(InMode(app, CountMode), req)
    ensures Usable(InMode(app, BlockMode)) && Matches(InMode(app, BlockMode), req)
    ensures DryRunOf(Serve(limiter, InMode(app, CountMode), req, counters), Serve(limiter, InMode(app, BlockMode), req, counters))
  {
    DecideIgnoresMode(limiter, app, CountMode, req, counters);
    DecideIgnoresMode(limiter, app, BlockMode, req, counters);
    ConcludeModes(Decide(limiter, app, req, counters));
  }

  lemma AllInReady(visits: seq<Visit>, mode: Mode)
    requires AllReady(visits)
    ensures AllReady(AllIn(visits, mode))
  {
    forall i | 0 <= i < |visits| ensures Ready(AllIn(visits, mode)[i]) {
      assert Ready(visits[i]);
    }
  }

  predicate DryRuns(count: seq<(Outcome, RL.Store)>, block: seq<(Outcome, RL.Store)>) {
    |count| == |block| && forall i | 0 <= i < |count| :: DryRunOf(count[i], block[i])
  }

  lemma DryRunsCons(x: (Outcome, RL.Store), y: (Outcome, RL.Store), xs: seq<(Outcome, RL.Store)>, ys: seq<(Outcome, RL.Store)>)
    requires DryRunOf(x, y) && DryRuns(xs, ys)
    ensures DryRuns([x] + xs, [y] + ys)
  {
  }

  lemma AllInRest(visits: seq<Visit>, mode: Mode)
    requires AllReady(visits) && visits != []
    ensures AllReady(visits[1..]) && AllReady(AllIn(visits[1..], mode))
    ensures AllIn(visits, mode) == [Visit(InMode(visits[0].app, mode), visits[0].req)] + AllIn(visits[1..], mode)
  {
    AllInReady(visits[1..], mode);
  }

  lemma RunCons(limiter: Limiter, v: Visit, rest: seq<Visit>, counters: RL.Store)
    requires Ready(v) && AllReady(rest)
    ensures AllReady([v] + rest)
    ensures var head := Serve(limiter, v.app, v.req, counters);
            Run(limiter, [v] + rest, counters) == [head] + Run(limiter, rest, head.1)
  {
    assert ([v] + rest)[1..] == rest;
  }

  /** Feed one trace to the same apps in count mode and in block mode, on either counter store:
      at every step the decisions and the counters agree, count mode denies nothing, and its
      `would_block` is exactly what block mode enforces. */
  lemma {:induction false} CountModeIsDryRun(limiter: Limiter, visits: seq<Visit>, counters: RL.Store)
    requires AllReady(visits)
    ensures AllReady(AllIn(visits, CountMode)) && AllReady(AllIn(visits, BlockMode))
    ensures DryRuns(Run(limiter, AllIn(visits, CountMode), counters), Run(limiter, AllIn(visits, BlockMode), counters))
    decreases |visits|, 0
  {
    AllInReady(visits, CountMode);
    AllInReady(visits, BlockMode);
    if visits != [] {
      AllInRest(visits, CountMode);
      AllInRest(visits, BlockMode);
      DryRunStep(limiter, visits[0], visits[1..], counters);
    }
  }

  lemma {:induction false} DryRunStep(limiter: Limiter, v: Visit, rest: seq<Visit>, counters: RL.Store)
    requires Ready(v) && AllReady(rest)
    ensures AllReady([Visit(InMode(v.app, CountMode), v.req)] + AllIn(rest, CountMode))
    ensures AllReady([Visit(InMode(v.app, BlockMode), v.req)] + AllIn(rest, BlockMode))
    ensures DryRuns(Run(limiter, [Visit(InMode(v.app, CountMode), v.req)] + AllIn(rest, CountMode), counters),
                    Run(limiter, [Visit(InMode(v.app, BlockMode), v.req)] + AllIn(rest, BlockMode), counters))
    decreases |rest|, 1
  {
    var count, block := Visit(InMode(v.app, CountMode), v.req), Visit(InMode(v.app, BlockMode), v.req);
    ServeModes(limiter, v.app, v.req, counters);
    var x, y := Serve(limiter, count.app, v.req, counters), Serve(limiter, block.app, v.req, counters);
    CountModeIsDryRun(limiter, rest, x.1);
    RunCons(limiter, count, AllIn(rest, CountMode), counters);
    RunCons(limiter, block, AllIn(rest, BlockMode), counters);
    DryRunsCons(x, y, Run(limiter, AllIn(rest, CountMode), x.1), Run(limiter, AllIn(rest, BlockMode), y.1));
  }

  // ----- the two counter stores -----

  /** The clock readings of a request follow each other and come no earlier than `from`. */
  predicate OrderedFrom(checks: seq<CheckEnv>, from: nat) {
    (forall i | 0 <= i < |checks| :: from <= checks[i].now)
    && (forall i, j | 0 <= i < j < |checks| :: checks[i].now <= checks[j].now)
  }

  /** The clock after the first `n` checks. */
  function ClockAt(checks: seq<CheckEnv>, from: nat, n: nat): nat
    requires n <= |checks|
  {
    if n == 0 then from else checks[n - 1].now
  }

  /** The shared clock never runs backwards over the whole trace. */
  predicate ClockOrdered(visits: seq<Visit>, from: nat) {
    visits == []
    || (OrderedFrom(visits[0].req.checks, from)
        && ClockOrdered(visits[1..], ClockAt(visits[0].req.checks, from, |visits[0].req.checks|)))
  }

  function RefOf(app: App, rule: LimitRule): string {
    RL.RuleRef(RL.BucketIn(RL.Client(app.tenantID, app.id, rule.id, ""), 0))
  }

  /** Every rule of the app has its fixed window. */
  predicate Fixed(app: App, windows: RL.Windows) {
    forall r | r in app.rateLimits :: RefOf(app, r) in windows && windows[RefOf(app, r)] == r.windowSeconds
  }

  /** The hash is text without colons; the gateway's is hexadecimal. */
  ghost predicate PlainHash(limiter: Limiter) {
    limiter.FixedWindow? ==> forall x: string :: RL.ColonFree(limiter.hash(x))
  }

  /** A memory store and a Redis store that agree on every counter that can still be charged. */
  ghost predicate Twins(a: RL.Store, b: RL.Store, windows: RL.Windows, now: nat) {
    a.Memory? && b.Redis? && RL.Agree(a.counts, b.entries, windows, now)
  }

  lemma TwinsLater(a: RL.Store, b: RL.Store, windows: RL.Windows, from: nat, now: nat)
    requires Twins(a, b, windows, from) && from <= now
    ensures Twins(a, b, windows, now)
  {
    RL.AgreeLater(a.counts, b.entries, windows, from, now);
  }

  lemma CheckTwins(limiter: Limiter, app: App, req: Incoming, rule: LimitRule, env: CheckEnv, a: RL.Store, b: RL.Store,
                   windows: RL.Windows, from: nat)
    requires PlainHash(limiter) && rule in app.rateLimits && rule.windowSeconds > 0 && Fixed(app, windows)
    requires Twins(a, b, windows, from) && from <= env.now
    ensures Checked(limiter, app, req, rule, env, a).0 == Checked(limiter, app, req, rule, env, b).0
    ensures Twins(Checked(limiter, app, req, rule, env, a).1, Checked(limiter, app, req, rule, env, b).1, windows, env.now)
  {
    TwinsLater(a, b, windows, from, env.now);
    if !Skips(limiter, app, req, rule) && env.storeUp {
      var c := CallOf(limiter, app, req, rule, env.now);
      assert RL.RuleRef(RL.BucketIn(c.who, 0)) == RefOf(app, rule);
      RL.AgreeStep(a.counts, b.entries, windows, from, c);
    }
  }

  lemma {:induction false} StageTwins(limiter: Limiter, v: Visit, a: RL.Store, b: RL.Store, windows: RL.Windows, from: nat, n: nat)
    requires PlainHash(limiter) && Ready(v) && Fixed(v.app, windows) && OrderedFrom(v.req.checks, from)
    requires Twins(a, b, windows, from) && n <= |v.app.rateLimits|
    ensures Twins(StoreAfter(limiter, v.app, v.req, a, n), StoreAfter(limiter, v.app, v.req, b, n), windows,
                  ClockAt(v.req.checks, from, n))
    ensures n < |v.app.rateLimits| ==> VerdictAt(limiter, v.app, v.req, a, n) == VerdictAt(limiter, v.app, v.req, b, n)
  {
    if n > 0 {
      StageTwins(limiter, v, a, b, windows, from, n - 1);
      CheckTwins(limiter, v.app, v.req, v.app.rateLimits[n - 1], v.req.checks[n - 1],
                 StoreAfter(limiter, v.app, v.req, a, n - 1), StoreAfter(limiter, v.app, v.req, b, n - 1),
                 windows, ClockAt(v.req.checks, from, n - 1));
    }
    if n < |v.app.rateLimits| {
      CheckTwins(limiter, v.app, v.req, v.app.rateLimits[n], v.req.checks[n],
                 StoreAfter(limiter, v.app, v.req, a, n), StoreAfter(limiter, v.app, v.req, b, n),
                 windows, ClockAt(v.req.checks, from, n));
    }
  }

  lemma SameStop(limiter: Limiter, v: Visit, a: RL.Store, b: RL.Store, windows: RL.Windows, from: nat) returns (n: nat)
    requires PlainHash(limiter) && Ready(v) && Fixed(v.app, windows) && OrderedFrom(v.req.checks, from) && Twins(a, b, windows, from)
    ensures n == StopFrom(limiter, v.app, v.req, a, 0) == StopFrom(limiter, v.app, v.req, b, 0) && n <= |v.app.rateLimits|
  {
    n := StopFrom(limiter, v.app, v.req, a, 0);
    forall i: nat | i < |v.app.rateLimits|
      ensures VerdictAt(limiter, v.app, v.req, a, i) == VerdictAt(limiter, v.app, v.req, b, i)
    {
      StageTwins(limiter, v, a, b, windows, from, i);
    }
    StopUnique(limiter, v.app, v.req, b, n, StopFrom(limiter, v.app, v.req, b, 0));
  }

  lemma RateStageTwins(limiter: Limiter, v: Visit, a: RL.Store, b: RL.Store, windows: RL.Windows, from: nat)
    requires PlainHash(limiter) && Ready(v) && Fixed(v.app, windows) && OrderedFrom(v.req.checks, from) && Twins(a, b, windows, from)
    ensures RateStage(limiter, v.app, v.req, a).0 == RateStage(limiter, v.app, v.req, b).0
    ensures Twins(RateStage(limiter, v.app, v.req, a).1, RateStage(limiter, v.app, v.req, b).1, windows,
                  ClockAt(v.req.checks, from, |v.req.checks|))
  {
    var n := SameStop(limiter, v, a, b, windows, from);
    StageTwins(limiter, v, a, b, windows, from, n);
    var m := if n == |v.app.rateLimits| then n else n + 1;
    StageTwins(limiter, v, a, b, windows, from, m);
    TwinsLater(StoreAfter(limiter, v.app, v.req, a, m), StoreAfter(limiter, v.app, v.req, b, m), windows,
               ClockAt(v.req.checks, from, m), ClockAt(v.req.checks, from, |v.req.checks|));
  }

  lemma ServeTwins(limiter: Limiter, v: Visit, a: RL.Store, b: RL.Store, windows: RL.Windows, from: nat)
    requires PlainHash(limiter) && Ready(v) && Fixed(v.app, windows) && OrderedFrom(v.req.checks, from) && Twins(a, b, windows, from)
    ensures Serve(limiter, v.app, v.req, a).0 == Serve(limiter, v.app, v.req, b).0
    ensures Twins(Serve(limiter, v.app, v.req, a).1, Serve(limiter, v.app, v.req, b).1, windows,
                  ClockAt(v.req.checks, from, |v.req.checks|))
  {
    RateStageTwins(limiter, v, a, b, windows, from);
    TwinsLater(a, b, windows, from, ClockAt(v.req.checks, from, |v.req.checks|));
  }

  lemma {:induction false} RunTwins(limiter: Limiter, visits: seq<Visit>, a: RL.Store, b: RL.Store, windows: RL.Windows, from: nat)
    requires PlainHash(limiter) && AllReady(visits) && ClockOrdered(visits, from) && Twins(a, b, windows, from)
    requires forall i | 0 <= i < |visits| :: Fixed(visits[i].app, windows)
    ensures forall i | 0 <= i < |visits| :: Run(limiter, visits, a)[i].0 == Run(limiter, visits, b)[i].0
    decreases visits
  {
    if visits != [] {
      var v := visits[0];
      assert Ready(v);
      ServeTwins(limiter, v, a, b, windows, from);
      RunTwins(limiter, visits[1..], Serve(limiter, v.app, v.req, a).1, Serve(limiter, v.app, v.req, b).1, windows,
               ClockAt(v.req.checks, from, |v.req.checks|));
    }
  }

  /** The gateway on Redis and the gateway on the memory store give every request of every
      trace the same outcome, whatever characters the ids contain. */
  lemma StoresAgree(limiter: Limiter, visits: seq<Visit>, windows: RL.Windows)
    requires PlainHash(limiter) && AllReady(visits) && ClockOrdered(visits, 0)
    requires forall i | 0 <= i < |visits| :: Fixed(visits[i].app, windows)
    ensures forall i | 0 <= i < |visits| ::
              Run(limiter, visits, RL.Redis(map[]))[i].0 == Run(limiter, visits, RL.Memory(map[]))[i].0
  {
    RunTwins(limiter, visits, RL.Memory(map[]), RL.Redis(map[]), windows, 0);
  }

  // ----- the verdicts of the checks -----

  /** Check `i` of the visit charges a counter when it is reached. */
  predicate ChargesAt(limiter: Limiter, v: Visit, i: nat)
    requires Ready(v) && i < |v.app.rateLimits|
  {
    !Skips(limiter, v.app, v.req, v.app.rateLimits[i]) && v.req.checks[i].storeUp
  }

  function CallAt(limiter: Limiter, v: Visit, i: nat): RL.Call
    requires Ready(v) && i < |v.app.rateLimits| && limiter.FixedWindow?
  {
    CallOf(limiter, v.app, v.req, v.app.rateLimits[i], v.req.checks[i].now)
  }

  /** Of the checks that charge, exactly those within the limit are let through. */
  lemma CheckAllows(limiter: Limiter, v: Visit, counters: RL.Store, i: nat)
    requires Ready(v) && i < |v.app.rateLimits| && ChargesAt(limiter, v, i)
    ensures var st, c := StoreAfter(limiter, v.app, v.req, counters, i), CallAt(limiter, v, i);
            var d := VerdictAt(limiter, v.app, v.req, counters, i);
            (d.action == Allow <==> RL.Allowed(c, RL.ReplyOf(st, c)))
            && d.rateLimit.Some? && d.rateLimit.value.remaining == RL.ReplyOf(st, c).remaining
            && StoreAfter(limiter, v.app, v.req, counters, i + 1) == RL.Charge(st, c)
  {
  }

  /** The charges of the first `n` checks. */
  function CallsUpTo(limiter: Limiter, v: Visit, n: nat): seq<RL.Call>
    requires Ready(v) && n <= |v.app.rateLimits|
  {
    if n == 0 then []
    else CallsUpTo(limiter, v, n - 1) + if ChargesAt(limiter, v, n - 1) then [CallAt(limiter, v, n - 1)] else []
  }

  lemma CallsSnoc(limiter: Limiter, v: Visit, i: nat)
    requires Ready(v) && i < |v.app.rateLimits|
    ensures CallsUpTo(limiter, v, i + 1)
         == if ChargesAt(limiter, v, i) then CallsUpTo(limiter, v, i) + [CallAt(limiter, v, i)] else CallsUpTo(limiter, v, i)
  {
  }

  lemma IdleCheck(limiter: Limiter, v: Visit, counters: RL.Store, i: nat)
    requires Ready(v) && i < |v.app.rateLimits| && !ChargesAt(limiter, v, i)
    ensures StoreAfter(limiter, v.app, v.req, counters, i + 1) == StoreAfter(limiter, v.app, v.req, counters, i)
  {
  }

  /** A check charges its call or nothing. */
  lemma CheckCharges(limiter: Limiter, v: Visit, counters: RL.Store, i: nat)
    requires Ready(v) && i < |v.app.rateLimits|
    ensures var st := StoreAfter(limiter, v.app, v.req, counters, i);
            StoreAfter(limiter, v.app, v.req, counters, i + 1) == if ChargesAt(limiter, v, i) then RL.Charge(st, CallAt(limiter, v, i)) else st
  {
    if ChargesAt(limiter, v, i) {
      CheckAllows(limiter, v, counters, i);
    } else {
      IdleCheck(limiter, v, counters, i);
    }
  }

  /** The counters `st` are what the calls make of `m`. */
  predicate Holds(st: RL.Store, m: RL.Counts, calls: seq<RL.Call>) { st == RL.Memory(RL.MemAll(m, calls)) }

  lemma HoldsSnoc(st: RL.Store, st': RL.Store, m: RL.Counts, calls: seq<RL.Call>, calls': seq<RL.Call>, c: RL.Call)
    requires Holds(st, m, calls) && st' == RL.Charge(st, c) && calls' == calls + [c]
    ensures Holds(st', m, calls')
  {
    RL.MemAllSnoc(m, calls, c);
  }

  lemma StoreSnoc(limiter: Limiter, v: Visit, m: RL.Counts, i: nat)
    requires Ready(v) && i < |v.app.rateLimits|
    requires Holds(StoreAfter(limiter, v.app, v.req, RL.Memory(m), i), m, CallsUpTo(limiter, v, i))
    ensures Holds(StoreAfter(limiter, v.app, v.req, RL.Memory(m), i + 1), m, CallsUpTo(limiter, v, i + 1))
  {
    CallsSnoc(limiter, v, i);
    CheckCharges(limiter, v, RL.Memory(m), i);
    if ChargesAt(limiter, v, i) {
      HoldsSnoc(StoreAfter(limiter, v.app, v.req, RL.Memory(m), i), StoreAfter(limiter, v.app, v.req, RL.Memory(m), i + 1),
                m, CallsUpTo(limiter, v, i), CallsUpTo(limiter, v, i + 1), CallAt(limiter, v, i));
    }
  }

  lemma {:induction false} StoreIsCharges(limiter: Limiter, v: Visit, m: RL.Counts, n: nat)
    requires Ready(v) && n <= |v.app.rateLimits|
    ensures Holds(StoreAfter(limiter, v.app, v.req, RL.Memory(m), n), m, CallsUpTo(limiter, v, n))
  {
    if n > 0 {
      StoreIsCharges(limiter, v, m, n - 1);
      StoreSnoc(limiter, v, m, n - 1);
    }
  }

  /** How many checks a visit reaches: none behind an IP block, else up to and including the stop. */
  function Reached(limiter: Limiter, v: Visit, counters: RL.Store): (n: nat)
    requires Ready(v)
    ensures n <= |v.app.rateLimits|
  {
    var stop := StopFrom(limiter, v.app, v.req, counters, 0);
    if IPVerdict(v.app, v.req.ctx.clientIP).action != Allow then 0
    else if stop == |v.app.rateLimits| then stop else stop + 1
  }

  lemma ServeReaches(limiter: Limiter, v: Visit, counters: RL.Store)
    requires Ready(v)
    ensures Serve(limiter, v.app, v.req, counters).1
         == StoreAfter(limiter, v.app, v.req, counters, Reached(limiter, v, counters))
  {
  }

  /** The counters after a whole trace, and the charges that led there. */
  function After(limiter: Limiter, visits: seq<Visit>, counters: RL.Store): RL.Store
    requires AllReady(visits)
    decreases visits
  {
    if visits == [] then counters
    else After(limiter, visits[1..], Serve(limiter, visits[0].app, visits[0].req, counters).1)
  }

  function RunCalls(limiter: Limiter, visits: seq<Visit>, counters: RL.Store): seq<RL.Call>
    requires AllReady(visits)
    decreases visits
  {
    if visits == [] then []
    else
      assert Ready(visits[0]);
      CallsUpTo(limiter, visits[0], Reached(limiter, visits[0], counters))
      + RunCalls(limiter, visits[1..], Serve(limiter, visits[0].app, visits[0].req, counters).1)
  }

  lemma {:induction false} RunIsCharges(limiter: Limiter, visits: seq<Visit>, m: RL.Counts)
    requires AllReady(visits)
    ensures After(limiter, visits, RL.Memory(m)) == RL.Memory(RL.MemAll(m, RunCalls(limiter, visits, RL.Memory(m))))
    decreases visits
  {
    if visits != [] {
      var v := visits[0];
      assert Ready(v);
      var calls := CallsUpTo(limiter, v, Reached(limiter, v, RL.Memory(m)));
      ServeReaches(limiter, v, RL.Memory(m));
      StoreIsCharges(limiter, v, m, Reached(limiter, v, RL.Memory(m)));
      RunIsCharges(limiter, visits[1..], RL.MemAll(m, calls));
      RL.MemAllConcat(m, calls, RunCalls(limiter, visits[1..], RL.Memory(RL.MemAll(m, calls))));
    }
  }

  /** The verdict after `n` earlier charges: allowed exactly within the limit, and the
      remainder it reports counts down to zero. */
  predicate FirstCome(d: Verdict, n: nat, limit: int) {
    (d.action == Allow <==> n < limit) && d.rateLimit.Some? && d.rateLimit.value.remaining == RL.Remaining(limit, n + 1)
  }

  /** After any trace, a check that charges is let through exactly when fewer than `limit`
      charges to its counter came before it, and what it reports as remaining counts down to zero. */
  lemma CheckAllowsFirst(limiter: Limiter, visits: seq<Visit>, v: Visit, i: nat)
    requires AllReady(visits) && Ready(v) && i < |v.app.rateLimits| && ChargesAt(limiter, v, i)
    ensures var st := After(limiter, visits, RL.Memory(map[]));
            var n := RL.Charges(RunCalls(limiter, visits, RL.Memory(map[])) + CallsUpTo(limiter, v, i), CallAt(limiter, v, i).key);
            FirstCome(VerdictAt(limiter, v.app, v.req, st, i), n, v.app.rateLimits[i].limit)
  {
    var before, own, c := RunCalls(limiter, visits, RL.Memory(map[])), CallsUpTo(limiter, v, i), CallAt(limiter, v, i);
    RunIsCharges(limiter, visits, map[]);
    StoreIsCharges(limiter, v, RL.MemAll(map[], before), i);
    RL.MemAllConcat(map[], before, own);
    RL.CountIsAll(map[], before + own, c.key);
    CheckAllows(limiter, v, After(limiter, visits, RL.Memory(map[])), i);
  }

  // ----- at most twice the limit -----

  /** Check `i` charges this client at a time in `lo..hi` and is let through. */
  predicate AdmitsAt(limiter: Limiter, v: Visit, counters: RL.Store, i: nat, who: RL.Client, lo: nat, hi: nat)
    requires Ready(v) && i < |v.app.rateLimits|
  {
    ChargesAt(limiter, v, i) && RL.Within(CallAt(limiter, v, i), who, lo, hi)
    && VerdictAt(limiter, v.app, v.req, counters, i).action == Allow
  }

  function AdmittedUpTo(limiter: Limiter, v: Visit, counters: RL.Store, n: nat, who: RL.Client, lo: nat, hi: nat): nat
    requires Ready(v) && n <= |v.app.rateLimits|
  {
    if n == 0 then 0
    else AdmittedUpTo(limiter, v, counters, n - 1, who, lo, hi) + One(AdmitsAt(limiter, v, counters, n - 1, who, lo, hi))
  }

  /** How often the checks of a trace let this client through at times in `lo..hi`. */
  function AdmittedIn(limiter: Limiter, visits: seq<Visit>, counters: RL.Store, who: RL.Client, lo: nat, hi: nat): nat
    requires AllReady(visits)
    decreases visits
  {
    if visits == [] then 0
    else
      assert Ready(visits[0]);
      AdmittedUpTo(limiter, visits[0], counters, Reached(limiter, visits[0], counters), who, lo, hi)
      + AdmittedIn(limiter, visits[1..], Serve(limiter, visits[0].app, visits[0].req, counters).1, who, lo, hi)
  }

  /** The client's rule has this limit and window in the app. */
  predicate Configured(app: App, who: RL.Client, limit: int, windowSeconds: int) {
    app.tenantID == who.tenant && app.id == who.app ==>
      forall r | r in app.rateLimits && r.id == who.rule :: r.limit == limit && r.windowSeconds == windowSeconds
  }

  /** The two windows a span of one window length can meet. */
  function SpanRoom(m: RL.Counts, who: RL.Client, limit: int, windowSeconds: nat, lo: nat): nat
    requires windowSeconds > 0
  {
    var w := RL.WindowAt(lo, windowSeconds);
    RL.Room(m, RL.Key(RL.BucketIn(who, w)), limit) + RL.Room(m, RL.Key(RL.BucketIn(who, w + 1)), limit)
  }

  /** A charge takes up room; one that is let through within the span takes up one unit. */
  lemma CallRoom(m: RL.Counts, c: RL.Call, who: RL.Client, limit: int, windowSeconds: nat, lo: nat, hi: nat)
    requires RL.Issued(c) && windowSeconds > 0 && hi <= lo + windowSeconds * 1000
    requires c.who == who ==> c.limit == limit && c.windowSeconds == windowSeconds
    ensures One(RL.Within(c, who, lo, hi) && RL.Allowed(c, RL.MemReply(m, c))) + SpanRoom(RL.MemNext(m, c), who, limit, windowSeconds, lo)
         <= SpanRoom(m, who, limit, windowSeconds, lo)
  {
    if RL.Within(c, who, lo, hi) {
      RL.SpanWindows(lo, c.now, windowSeconds);
    }
    var w := RL.WindowAt(lo, windowSeconds);
    TwoRooms(m, c, RL.Key(RL.BucketIn(who, w)), RL.Key(RL.BucketIn(who, w + 1)), limit, RL.Within(c, who, lo, hi));
  }

  lemma TwoRooms(m: RL.Counts, c: RL.Call, k0: string, k1: string, limit: int, within: bool)
    requires within ==> c.limit == limit && (c.key == k0 || c.key == k1)
    ensures One(within && RL.Allowed(c, RL.MemReply(m, c))) + RL.Room(RL.MemNext(m, c), k0, limit) + RL.Room(RL.MemNext(m, c), k1, limit)
         <= RL.Room(m, k0, limit) + RL.Room(m, k1, limit)
  {
    RL.ChargeRoom(m, c, k0, limit);
    RL.ChargeRoom(m, c, k1, limit);
  }

  predicate Span(windowSeconds: nat, lo: nat, hi: nat) { windowSeconds > 0 && hi <= lo + windowSeconds * 1000 }

  lemma CheckRoom(limiter: Limiter, v: Visit, m: RL.Counts, i: nat, who: RL.Client, limit: int, windowSeconds: nat, lo: nat, hi: nat)
    requires Ready(v) && i < |v.app.rateLimits| && Configured(v.app, who, limit, windowSeconds) && Span(windowSeconds, lo, hi)
    ensures StoreAfter(limiter, v.app, v.req, RL.Memory(m), i).Memory? && StoreAfter(limiter, v.app, v.req, RL.Memory(m), i + 1).Memory?
    ensures One(AdmitsAt(limiter, v, RL.Memory(m), i, who, lo, hi))
          + SpanRoom(StoreAfter(limiter, v.app, v.req, RL.Memory(m), i + 1).counts, who, limit, windowSeconds, lo)
         <= SpanRoom(StoreAfter(limiter, v.app, v.req, RL.Memory(m), i).counts, who, limit, windowSeconds, lo)
  {
    StoreIsCharges(limiter, v, m, i);
    if ChargesAt(limiter, v, i) {
      CheckAllows(limiter, v, RL.Memory(m), i);
      CallRoom(StoreAfter(limiter, v.app, v.req, RL.Memory(m), i).counts, CallAt(limiter, v, i), who, limit, windowSeconds, lo, hi);
    } else {
      IdleCheck(limiter, v, RL.Memory(m), i);
    }
  }

  lemma {:induction false} VisitRoom(limiter: Limiter, v: Visit, m: RL.Counts, n: nat, who: RL.Client, limit: int, windowSeconds: nat, lo: nat, hi: nat)
    requires Ready(v) && n <= |v.app.rateLimits| && Configured(v.app, who, limit, windowSeconds) && Span(windowSeconds, lo, hi)
    ensures StoreAfter(limiter, v.app, v.req, RL.Memory(m), n).Memory?
    ensures AdmittedUpTo(limiter, v, RL.Memory(m), n, who, lo, hi)
          + SpanRoom(StoreAfter(limiter, v.app, v.req, RL.Memory(m), n).counts, who, limit, windowSeconds, lo)
         <= SpanRoom(m, who, limit, windowSeconds, lo)
  {
    if n > 0 {
      VisitRoom(limiter, v, m, n - 1, who, limit, windowSeconds, lo, hi);
      CheckRoom(limiter, v, m, n - 1, who, limit, windowSeconds, lo, hi);
    }
  }

  lemma {:induction false} RunRoom(limiter: Limiter, visits: seq<Visit>, m: RL.Counts, who: RL.Client, limit: int, windowSeconds: nat, lo: nat, hi: nat)
    requires AllReady(visits) && Span(windowSeconds, lo, hi)
    requires forall i | 0 <= i < |visits| :: Configured(visits[i].app, who, limit, windowSeconds)
    ensures AdmittedIn(limiter, visits, RL.Memory(m), who, lo, hi) <= SpanRoom(m, who, limit, windowSeconds, lo)
    decreases visits
  {
    if visits != [] {
      var v := visits[0];
      assert Ready(v);
      VisitRoom(limiter, v, m, Reached(limiter, v, RL.Memory(m)), who, limit, windowSeconds, lo, hi);
      ServeReaches(limiter, v, RL.Memory(m));
      RunRoom(limiter, visits[1..], Serve(limiter, v.app, v.req, RL.Memory(m)).1.counts, who, limit, windowSeconds, lo, hi);
    }
  }

  /** In any span of one window length the checks of any trace let one client of a rule
      through at most twice the limit, on the memory store. */
  lemma SpanBoundOnMemory(limiter: Limiter, visits: seq<Visit>, who: RL.Client, limit: int, windowSeconds: nat, lo: nat, hi: nat)
    requires AllReady(visits) && limit >= 0 && Span(windowSeconds, lo, hi)
    requires forall i | 0 <= i < |visits| :: Configured(visits[i].app, who, limit, windowSeconds)
    ensures AdmittedIn(limiter, visits, RL.Memory(map[]), who, lo, hi) <= 2 * limit
  {
    RunRoom(limiter, visits, map[], who, limit, windowSeconds, lo, hi);
  }

  lemma {:induction false} AdmittedTwins(limiter: Limiter, v: Visit, a: RL.Store, b: RL.Store, windows: RL.Windows, from: nat, n: nat,
                                        who: RL.Client, lo: nat, hi: nat)
    requires PlainHash(limiter) && Ready(v) && Fixed(v.app, windows) && OrderedFrom(v.req.checks, from)
    requires Twins(a, b, windows, from) && n <= |v.app.rateLimits|
    ensures AdmittedUpTo(limiter, v, a, n, who, lo, hi) == AdmittedUpTo(limiter, v, b, n, who, lo, hi)
  {
    if n > 0 {
      AdmittedTwins(limiter, v, a, b, windows, from, n - 1, who, lo, hi);
      StageTwins(limiter, v, a, b, windows, from, n - 1);
    }
  }

  lemma ReachedTwins(limiter: Limiter, v: Visit, a: RL.Store, b: RL.Store, windows: RL.Windows, from: nat)
    requires PlainHash(limiter) && Ready(v) && Fixed(v.app, windows) && OrderedFrom(v.req.checks, from) && Twins(a, b, windows, from)
    ensures Reached(limiter, v, a) == Reached(limiter, v, b)
  {
    var _ := SameStop(limiter, v, a, b, windows, from);
  }

  lemma {:induction false} RunAdmittedTwins(limiter: Limiter, visits: seq<Visit>, a: RL.Store, b: RL.Store, windows: RL.Windows, from: nat,
                                           who: RL.Client, lo: nat, hi: nat)
    requires PlainHash(limiter) && AllReady(visits) && ClockOrdered(visits, from) && Twins(a, b, windows, from)
    requires forall i | 0 <= i < |visits| :: Fixed(visits[i].app, windows)
    ensures AdmittedIn(limiter, visits, a, who, lo, hi) == AdmittedIn(limiter, visits, b, who, lo, hi)
    decreases visits
  {
    if visits != [] {
      var v := visits[0];
      assert Ready(v);
      ReachedTwins(limiter, v, a, b, windows, from);
      AdmittedTwins(limiter, v, a, b, windows, from, Reached(limiter, v, a), who, lo, hi);
      ServeTwins(limiter, v, a, b, windows, from);
      RunAdmittedTwins(limiter, visits[1..], Serve(limiter, v.app, v.req, a).1, Serve(limiter, v.app, v.req, b).1, windows,
                       ClockAt(v.req.checks, from, |v.req.checks|), who, lo, hi);
    }
  }

  /** The same bound on Redis, on every trace whose clock never runs backwards. */
  lemma SpanBoundOnRedis(limiter: Limiter, visits: seq<Visit>, windows: RL.Windows, who: RL.Client, limit: int, windowSeconds: nat, lo: nat, hi: nat)
    requires PlainHash(limiter) && AllReady(visits) && ClockOrdered(visits, 0) && limit >= 0 && Span(windowSeconds, lo, hi)
    requires forall i | 0 <= i < |visits| :: Fixed(visits[i].app, windows) && Configured(visits[i].app, who, limit, windowSeconds)
    ensures AdmittedIn(limiter, visits, RL.Redis(map[]), who, lo, hi) <= 2 * limit
  {
    RunAdmittedTwins(limiter, visits, RL.Memory(map[]), RL.Redis(map[]), windows, 0, who, lo, hi);
    SpanBoundOnMemory(limiter, visits, who, limit, windowSeconds, lo, hi);
  }

  // ----- the first charges, on Redis -----

  function EndClock(visits: seq<Visit>, from: nat): nat {
    if visits == [] then from else EndClock(visits[1..], ClockAt(visits[0].req.checks, from, |visits[0].req.checks|))
  }

  lemma {:induction false} AfterTwins(limiter: Limiter, visits: seq<Visit>, a: RL.Store, b: RL.Store, windows: RL.Windows, from: nat)
    requires PlainHash(limiter) && AllReady(visits) && ClockOrdered(visits, from) && Twins(a, b, windows, from)
    requires forall i | 0 <= i < |visits| :: Fixed(visits[i].app, windows)
    ensures Twins(After(limiter, visits, a), After(limiter, visits, b), windows, EndClock(visits, from))
    decreases visits
  {
    if visits != [] {
      var v := visits[0];
      assert Ready(v);
      ServeTwins(limiter, v, a, b, windows, from);
      AfterTwins(limiter, visits[1..], Serve(limiter, v.app, v.req, a).1, Serve(limiter, v.app, v.req, b).1, windows,
                 ClockAt(v.req.checks, from, |v.req.checks|));
    }
  }

  lemma {:induction false} CallsTwins(limiter: Limiter, visits: seq<Visit>, a: RL.Store, b: RL.Store, windows: RL.Windows, from: nat)
    requires PlainHash(limiter) && AllReady(visits) && ClockOrdered(visits, from) && Twins(a, b, windows, from)
    requires forall i | 0 <= i < |visits| :: Fixed(visits[i].app, windows)
    ensures RunCalls(limiter, visits, a) == RunCalls(limiter, visits, b)
    decreases visits
  {
    if visits != [] {
      var v := visits[0];
      assert Ready(v);
      ReachedTwins(limiter, v, a, b, windows, from);
      ServeTwins(limiter, v, a, b, windows, from);
      CallsTwins(limiter, visits[1..], Serve(limiter, v.app, v.req, a).1, Serve(limiter, v.app, v.req, b).1, windows,
                 ClockAt(v.req.checks, from, |v.req.checks|));
    }
  }

  /** On Redis as on memory, with a clock that never runs backwards: after any trace a check
      that charges is let through exactly when fewer than `limit` charges to its counter came
      before it in the trace. */
  lemma CheckAllowsFirstOnRedis(limiter: Limiter, visits: seq<Visit>, windows: RL.Windows, v: Visit, i: nat)
    requires PlainHash(limiter) && AllReady(visits) && ClockOrdered(visits, 0) && forall k | 0 <= k < |visits| :: Fixed(visits[k].app, windows)
    requires Ready(v) && Fixed(v.app, windows) && OrderedFrom(v.req.checks, EndClock(visits, 0))
    requires i < |v.app.rateLimits| && ChargesAt(limiter, v, i)
    ensures var st := After(limiter, visits, RL.Redis(map[]));
            var n := RL.Charges(RunCalls(limiter, visits, RL.Redis(map[])) + CallsUpTo(limiter, v, i), CallAt(limiter, v, i).key);
            FirstCome(VerdictAt(limiter, v.app, v.req, st, i), n, v.app.rateLimits[i].limit)
  {
    CallsTwins(limiter, visits, RL.Memory(map[]), RL.Redis(map[]), windows, 0);
    SameVerdictOnRedis(limiter, visits, windows, v, i);
    CheckAllowsFirst(limiter, visits, v, i);
  }

  lemma SameVerdictOnRedis(limiter: Limiter, visits: seq<Visit>, windows: RL.Windows, v: Visit, i: nat)
    requires PlainHash(limiter) && AllReady(visits) && ClockOrdered(visits, 0) && forall k | 0 <= k < |visits| :: Fixed(visits[k].app, windows)
    requires Ready(v) && Fixed(v.app, windows) && OrderedFrom(v.req.checks, EndClock(visits, 0)) && i < |v.app.rateLimits|
    ensures VerdictAt(limiter, v.app, v.req, After(limiter, visits, RL.Redis(map[])), i)
         == VerdictAt(limiter, v.app, v.req, After(limiter, visits, RL.Memory(map[])), i)
  {
    AfterTwins(limiter, visits, RL.Memory(map[]), RL.Redis(map[]), windows, 0);
    StageTwins(limiter, v, After(limiter, visits, RL.Memory(map[])), After(limiter, visits, RL.Redis(map[])), windows, EndClock(visits, 0), i);
  }

  // ----- past the limit -----

  /** After any trace, a check that charges a counter already at its limit: a block rule limits
      with its status, a count rule counts. */
  lemma PastLimit(limiter: Limiter, visits: seq<Visit>, v: Visit, i: nat)
    requires AllReady(visits) && Ready(v) && i < |v.app.rateLimits| && ChargesAt(limiter, v, i)
    requires RL.Charges(RunCalls(limiter, visits, RL.Memory(map[])) + CallsUpTo(limiter, v, i), CallAt(limiter, v, i).key)
             >= v.app.rateLimits[i].limit
    ensures OverLimit(v.app.rateLimits[i], VerdictAt(limiter, v.app, v.req, After(limiter, visits, RL.Memory(map[])), i))
  {
    CheckAllowsFirst(limiter, visits, v, i);
    NotAllowedIsOver(limiter, v, After(limiter, visits, RL.Memory(map[])), i);
  }

  /** How a rule acts over its limit. */
  predicate OverLimit(rule: LimitRule, d: Verdict) {
    (rule.action == Block ==> d.action == RateLimit && d.statusCode == rule.statusCode)
    && (rule.action != Block ==> d.action == Count)
    && d.matchedRuleID == "rate_limit:" + rule.id && d.matchedRuleName == rule.name && d.reason == "rate_limit"
  }

  lemma NotAllowedIsOver(limiter: Limiter, v: Visit, counters: RL.Store, i: nat)
    requires Ready(v) && i < |v.app.rateLimits| && VerdictAt(limiter, v.app, v.req, counters, i).action != Allow
    ensures OverLimit(v.app.rateLimits[i], VerdictAt(limiter, v.app, v.req, counters, i))
  {
  }

  /** On either store: when a check stops the rate-limit stage of an app in block mode with a
      block rule, the request is denied with the rule's status, or 403. */
  lemma BlockRuleDenies(limiter: Limiter, v: Visit, counters: RL.Store, i: nat)
    requires Ready(v) && v.app.mode == BlockMode && IPVerdict(v.app, v.req.ctx.clientIP).action == Allow
    requires i < |v.app.rateLimits| && v.app.rateLimits[i].action == Block && StopsAt(limiter, v.app, v.req, counters, i)
    ensures var o := Serve(limiter, v.app, v.req, counters).0;
            o.Denied? && OverLimit(v.app.rateLimits[i], o.final)
            && o.status == if v.app.rateLimits[i].statusCode == 0 then 403 else v.app.rateLimits[i].statusCode
  {
    StopUnique(limiter, v.app, v.req, counters, i, StopFrom(limiter, v.app, v.req, counters, 0));
    NotAllowedIsOver(limiter, v, counters, i);
    var app, req := v.app, v.req;
    PrecedenceCases(IPVerdict(app, req.ctx.clientIP), VerdictAt(limiter, app, req, counters, i), req.bodyExceeded,
                    CustomVerdict(app.customRules, req.ctx, app.ipSets), req.waf, app.defaultAction);
  }

  predicate CountsOnly(app: App) { forall r | r in app.rateLimits :: r.action != Block }

  function WithoutLimits(v: Visit): Visit { Visit(v.app.(rateLimits := []), v.req.(checks := [])) }

  lemma CountStage(limiter: Limiter, v: Visit, counters: RL.Store)
    requires Ready(v) && CountsOnly(v.app)
    ensures RateStage(limiter, v.app, v.req, counters).0.action in {Allow, Count}
  {
    var n := StopFrom(limiter, v.app, v.req, counters, 0);
    if n < |v.app.rateLimits| {
      NotAllowedIsOver(limiter, v, counters, n);
    }
  }

  /** Count rules alone deny nothing: an app whose rate limits all count denies exactly the
      requests, with the verdicts and status, that it denies without them. */
  lemma CountRulesDenyNothing(limiter: Limiter, v: Visit, counters: RL.Store)
    requires Ready(v) && CountsOnly(v.app)
    ensures Ready(WithoutLimits(v))
    ensures var o, p := Serve(limiter, v.app, v.req, counters).0, Serve(limiter, WithoutLimits(v).app, WithoutLimits(v).req, counters).0;
            (o.Denied? <==> p.Denied?) && (o.Denied? ==> o.status == p.status && o.final == p.final)
  {
    var app, req, w := v.app, v.req, WithoutLimits(v);
    CountStage(limiter, v, counters);
    var custom := CustomVerdict(app.customRules, req.ctx, app.ipSets);
    var ip := IPVerdict(app, req.ctx.clientIP);
    SameDenial(app.mode, ip, RateStage(limiter, app, req, counters).0, req.bodyExceeded, custom, req.waf, app.defaultAction);
    SameDenial(app.mode, ip, ALLOW, req.bodyExceeded, custom, req.waf, app.defaultAction);
  }

  /** A rate verdict that only allows or counts has no part in a denial. */
  lemma SameDenial(mode: Mode, ip: Verdict, rate: Verdict, bodyExceeded: bool, custom: Verdict, waf: WafResult, default_: Action)
    requires rate.action in {Allow, Count}
    ensures Conclude(mode, (Precedence(ip, rate, bodyExceeded, custom, waf, default_), RL.Memory(map[]))).0.Denied? <==>
            Conclude(mode, (Precedence(ip, ALLOW, bodyExceeded, custom, waf, default_), RL.Memory(map[]))).0.Denied?
    ensures Conclude(mode, (Precedence(ip, rate, bodyExceeded, custom, waf, default_), RL.Memory(map[]))).0.Denied? ==>
            Precedence(ip, rate, bodyExceeded, custom, waf, default_) == Precedence(ip, ALLOW, bodyExceeded, custom, waf, default_)
  {
    PrecedenceCases(ip, rate, bodyExceeded, custom, waf, default_);
    PrecedenceCases(ip, ALLOW, bodyExceeded, custom, waf, default_);
  }

  /** Check `i` of the visit is reached: the IP lists let the client pass and so do the checks before. */
  predicate Reaches(limiter: Limiter, v: Visit, counters: RL.Store, i: nat)
    requires Ready(v) && i < |v.app.rateLimits|
  {
    IPVerdict(v.app, v.req.ctx.clientIP).action == Allow
    && forall k | 0 <= k < i :: VerdictAt(limiter, v.app, v.req, counters, k).action == Allow
  }

  /** After any trace, in block mode: a request that reaches a block rule whose counter is at its
      limit is denied with the rule's status, or 403. */
  lemma PastLimitDenies(limiter: Limiter, visits: seq<Visit>, v: Visit, i: nat)
    requires AllReady(visits) && Ready(v) && i < |v.app.rateLimits| && ChargesAt(limiter, v, i) && v.app.mode == BlockMode
    requires v.app.rateLimits[i].action == Block && Reaches(limiter, v, After(limiter, visits, RL.Memory(map[])), i)
    requires RL.Charges(RunCalls(limiter, visits, RL.Memory(map[])) + CallsUpTo(limiter, v, i), CallAt(limiter, v, i).key)
             >= v.app.rateLimits[i].limit
    ensures var o := Serve(limiter, v.app, v.req, After(limiter, visits, RL.Memory(map[]))).0;
            o.Denied? && o.status == if v.app.rateLimits[i].statusCode == 0 then 403 else v.app.rateLimits[i].statusCode
  {
    PastLimit(limiter, visits, v, i);
    BlockRuleDenies(limiter, v, After(limiter, visits, RL.Memory(map[])), i);
  }

  /** The same on Redis, with a clock that never runs backwards. */
  lemma PastLimitDeniesOnRedis(limiter: Limiter, visits: seq<Visit>, windows: RL.Windows, v: Visit, i: nat)
    requires PlainHash(limiter) && AllReady(visits) && ClockOrdered(visits, 0) && forall k | 0 <= k < |visits| :: Fixed(visits[k].app, windows)
    requires Ready(v) && Fixed(v.app, windows) && OrderedFrom(v.req.checks, EndClock(visits, 0))
    requires i < |v.app.rateLimits| && ChargesAt(limiter, v, i) && v.app.mode == BlockMode
    requires v.app.rateLimits[i].action == Block && Reaches(limiter, v, After(limiter, visits, RL.Redis(map[])), i)
    requires RL.Charges(RunCalls(limiter, visits, RL.Redis(map[])) + CallsUpTo(limiter, v, i), CallAt(limiter, v, i).key)
             >= v.app.rateLimits[i].limit
    ensures var o := Serve(limiter, v.app, v.req, After(limiter, visits, RL.Redis(map[]))).0;
            o.Denied? && o.status == if v.app.rateLimits[i].statusCode == 0 then 403 else v.app.rateLimits[i].statusCode
  {
    CheckAllowsFirstOnRedis(limiter, visits, windows, v, i);
    BlockRuleDenies(limiter, v, After(limiter, visits, RL.Redis(map[])), i);
  }
}
