/** The remote policy client as sequential code (services/gateway/internal/policyclient/client.go:100-216),
    and as one schedule of the step system in `PolicyCache`. */
module PolicyClient {
  import opened Text
  import opened Lookup
  import opened PolicyCache

  // ----- the code of one goroutine -----

  datatype Shared = Shared(
    cache: map<Host, Entry>, locks: map<Host, LockID>, nextLock: LockID, hits: nat, misses: nat, errors: nat)

  function WithLock(sh: Shared, host: Host): Shared {
    if host in sh.locks then sh else sh.(locks := sh.locks[host := sh.nextLock], nextLock := sh.nextLock + 1)
  }

  /** Reply and shared state of a lookup nobody interferes with. */
  function Solo(c: Config, sh: Shared, raw: string, now1: int, now2: int, fetched: Option<Policy>): (Reply, Shared) {
    var host := NormalizeHost(raw);
    if host == "" then (EmptyHost(), sh)
    else SoloTest(c, sh, host, now1, now2, fetched)
  }

  /** The part of a lookup after its first clock reading. */
  function SoloTest(c: Config, sh: Shared, host: Host, now1: int, now2: int, fetched: Option<Policy>): (Reply, Shared) {
    if Fresh(Cached(sh.cache, host), now1) then (Found(sh.cache[host].app), sh.(hits := sh.hits + 1))
    else SoloSlow(c, WithLock(sh.(misses := sh.misses + 1), host), host, now2, fetched)
  }

  function SoloSlow(c: Config, sh: Shared, host: Host, now: int, fetched: Option<Policy>): (Reply, Shared) {
    var entry := Cached(sh.cache, host);
    if Fresh(entry, now) then (Found(entry.value.app), sh.(hits := sh.hits + 1))
    else SoloFetch(c, sh, host, now, fetched)
  }

  function SoloFetch(c: Config, sh: Shared, host: Host, now: int, fetched: Option<Policy>): (Reply, Shared) {
    var entry := Cached(sh.cache, host);
    if fetched.Some? then (Found(fetched.value), sh.(cache := sh.cache[host := Entry(fetched.value, now + c.ttl)]))
    else (if entry.Some? then FoundStale(entry.value.app) else Unavailable(c.failBehavior), sh.(errors := sh.errors + 1))
  }

  /** client.go:100-216, without the mutexes: what a single goroutine executes. */
  class Provider {
    const config: Config
    var cache: map<Host, Entry>
    var locks: map<Host, LockID>
    var nextLock: LockID
    var hits: nat
    var misses: nat
    var errors: nat

    function View(): Shared
      reads this
    {
      Shared(cache, locks, nextLock, hits, misses, errors)
    }

    constructor (config: Config)
      ensures this.config == config && View() == Shared(map[], map[], 0, 0, 0, 0)
    {
      this.config := config;
      cache, locks, nextLock, hits, misses, errors := map[], map[], 0, 0, 0, 0;
    }

    method Store(host: Host, entry: Entry)
      modifies this`cache
      ensures cache == old(cache)[host := entry]
    {
      cache := cache[host := entry];
    }

    method HostLock(host: Host) returns (lock: LockID)
      modifies this`locks, this`nextLock
      ensures View() == WithLock(old(View()), host)
      ensures host in locks && lock == locks[host]
    {
      if host !in locks {
        locks := locks[host := nextLock];
        nextLock := nextLock + 1;
      }
      lock := locks[host];
    }

    /** client.go:160-187, under the host's mutex. */
    method Refresh(host: Host, now: int, fetched: Option<Policy>) returns (r: Reply)
      modifies this`cache, this`hits, this`errors
      ensures (r, View()) == SoloSlow(config, old(View()), host, now, fetched)
    {
      if host in cache && now < cache[host].expiresAt {
        hits := hits + 1;
        return Found(cache[host].app);
      }
      if fetched.Some? {
        Store(host, Entry(fetched.value, now + config.ttl));
        return Found(fetched.value);
      }
      errors := errors + 1;
      if host in cache {
        return LookupResult(Some(cache[host].app), true, false, 0, "", "policy_fetch_failed_using_stale", true);
      }
      match config.failBehavior {
        case FailClosed => return LookupResult(None, false, false, 503, "policy_fetch_failed", "", false);
        case _ => return LookupResult(None, false, true, 0, "policy_fetch_failed_fail_open", "policy_fetch_failed_fail_open", false);
      }
    }

    /** `now1` and `now2` are the two clock readings, `fetched` what the control API returns if asked. */
    method Lookup(raw: string, now1: int, now2: int, fetched: Option<Policy>) returns (r: Reply)
      modifies this
      ensures (r, View()) == Solo(config, old(View()), raw, now1, now2, fetched)
    {
      var host := NormalizeHost(raw);
      if host == "" {
        return EmptyHost();
      }
      if host in cache && now1 < cache[host].expiresAt {
        hits := hits + 1;
        return Found(cache[host].app);
      }
      misses := misses + 1;
      var lock := HostLock(host);
      r := Refresh(host, now2, fetched);
    }
  }

  function SharedOf(s: State): Shared {
    Shared(s.cache, s.locks, s.nextLock, s.hits, s.misses, s.errors)
  }

  // ----- the same lookup as a schedule of the step system -----

  /** A schedule: the steps are enabled one after the other. */
  predicate Legal(s: State, c: Config, steps: seq<Step>)
    decreases |steps|
  {
    steps == [] || (Enabled(s, steps[0]) && Legal(Next(s, c, steps[0]), c, steps[1..]))
  }

  function Exec(s: State, c: Config, steps: seq<Step>): State
    requires Legal(s, c, steps)
    decreases |steps|
  {
    if steps == [] then s else Exec(Next(s, c, steps[0]), c, steps[1..])
  }

  /** Thread `t`, looking up `host`, is at `pc`; the shared state is `sh`, the locks held are `held`. */
  predicate At(s: State, t: Tid, host: Host, pc: Pc, sh: Shared, held: map<LockID, Tid>) {
    t in s.threads && s.threads[t].host == host && s.threads[t].pc == pc && SharedOf(s) == sh && s.held == held
  }

  /** The outcome of a lookup: its result, the shared state and the locks held. */
  datatype Outcome = Outcome(result: Reply, sh: Shared, held: map<LockID, Tid>)

  predicate Answers(s: State, t: Tid, o: Outcome) {
    t in s.threads && s.threads[t].pc.Done? && s.threads[t].pc.answer.result == o.result && SharedOf(s) == o.sh && s.held == o.held
  }

  /** The schedule brings thread `t` to this outcome. */
  predicate LeadsTo(s: State, c: Config, steps: seq<Step>, t: Tid, o: Outcome) {
    Legal(s, c, steps) && Answers(Exec(s, c, steps), t, o)
  }

  lemma LeadsFirst(s: State, s': State, c: Config, x: Step, rest: seq<Step>, t: Tid, o: Outcome)
    requires Enabled(s, x) && s' == Next(s, c, x) && LeadsTo(s', c, rest, t, o)
    ensures LeadsTo(s, c, [x] + rest, t, o)
  {
    assert ([x] + rest)[1..] == rest;
  }

  lemma LeadsDone(s: State, c: Config, t: Tid, o: Outcome)
    requires Answers(s, t, o)
    ensures LeadsTo(s, c, [], t, o)
  {
  }

  lemma FromRelease(s: State, c: Config, t: Tid, host: Host, lock: LockID, a: Answer, sh: Shared, held: map<LockID, Tid>)
    returns (steps: seq<Step>)
    requires At(s, t, host, AtRelease(lock, a), sh, held)
    ensures LeadsTo(s, c, steps, t, Outcome(a.result, sh, held - {lock}))
  {
    var s' := Next(s, c, Go(t));
    LeadsDone(s', c, t, Outcome(a.result, sh, held - {lock}));
    LeadsFirst(s, s', c, Go(t), [], t, Outcome(a.result, sh, held - {lock}));
    steps := [Go(t)] + [];
  }

  /** A step after which the thread is about to release the lock with this result. */
  lemma ThenRelease(s: State, s': State, c: Config, t: Tid, x: Step, host: Host, lock: LockID, r: Reply, sh: Shared, held: map<LockID, Tid>)
    returns (steps: seq<Step>)
    requires Enabled(s, x) && s' == Next(s, c, x) && t in s'.threads && s'.threads[t].pc.AtRelease?
    requires At(s', t, host, AtRelease(lock, s'.threads[t].pc.answer), sh, held) && s'.threads[t].pc.answer.result == r
    ensures LeadsTo(s, c, steps, t, Outcome(r, sh, held - {lock}))
  {
    var rest := FromRelease(s', c, t, host, lock, s'.threads[t].pc.answer, sh, held);
    LeadsFirst(s, s', c, x, rest, t, Outcome(r, sh, held - {lock}));
    steps := [x] + rest;
  }

  lemma FromStore(s: State, c: Config, t: Tid, host: Host, lock: LockID, now: int, app: Policy, sh: Shared, held: map<LockID, Tid>)
    returns (steps: seq<Step>)
    requires At(s, t, host, AtStore(lock, now, app), sh, held)
    ensures LeadsTo(s, c, steps, t, Outcome(Found(app), sh.(cache := sh.cache[host := Entry(app, now + c.ttl)]), held - {lock}))
  {
    steps := ThenRelease(s, Next(s, c, Go(t)), c, t, Go(t), host, lock, Found(app),
                         sh.(cache := sh.cache[host := Entry(app, now + c.ttl)]), held);
  }

  function StaleOr(c: Config, sh: Shared, host: Host): Reply {
    if host in sh.cache then FoundStale(sh.cache[host].app) else Unavailable(c.failBehavior)
  }

  lemma FromStale(s: State, c: Config, t: Tid, host: Host, lock: LockID, sh: Shared, held: map<LockID, Tid>)
    returns (steps: seq<Step>)
    requires At(s, t, host, AtStale(lock), sh, held)
    ensures LeadsTo(s, c, steps, t, Outcome(StaleOr(c, sh, host), sh, held - {lock}))
  {
    steps := ThenRelease(s, Next(s, c, Go(t)), c, t, Go(t), host, lock, StaleOr(c, sh, host), sh, held);
  }

  lemma FromFetch(s: State, c: Config, t: Tid, host: Host, lock: LockID, now: int, sh: Shared, held: map<LockID, Tid>, fetched: Option<Policy>)
    returns (steps: seq<Step>)
    requires At(s, t, host, AtFetch(lock, now), sh, held)
    ensures var r := SoloFetch(c, sh, host, now, fetched); LeadsTo(s, c, steps, t, Outcome(r.0, r.1, held - {lock}))
  {
    var r := SoloFetch(c, sh, host, now, fetched);
    var x, rest;
    if fetched.Some? {
      x := FetchOK(t, fetched.value);
      rest := FromStore(Next(s, c, x), c, t, host, lock, now, fetched.value, sh, held);
    } else {
      x := FetchFail(t);
      rest := FromStale(Next(s, c, x), c, t, host, lock, r.1, held);
    }
    LeadsFirst(s, Next(s, c, x), c, x, rest, t, Outcome(r.0, r.1, held - {lock}));
    steps := [x] + rest;
  }

  lemma FromTest2(s: State, c: Config, t: Tid, host: Host, lock: LockID, now: int, sh: Shared, held: map<LockID, Tid>, fetched: Option<Policy>)
    returns (steps: seq<Step>)
    requires At(s, t, host, AtTest2(lock, now, Cached(sh.cache, host)), sh, held)
    ensures var r := SoloSlow(c, sh, host, now, fetched); LeadsTo(s, c, steps, t, Outcome(r.0, r.1, held - {lock}))
  {
    var r, s' := SoloSlow(c, sh, host, now, fetched), Next(s, c, Go(t));
    if Fresh(Cached(sh.cache, host), now) {
      steps := ThenRelease(s, s', c, t, Go(t), host, lock, r.0, r.1, held);
    } else {
      var rest := FromFetch(s', c, t, host, lock, now, sh, held, fetched);
      LeadsFirst(s, s', c, Go(t), rest, t, Outcome(r.0, r.1, held - {lock}));
      steps := [Go(t)] + rest;
    }
  }

  lemma FromRead2(s: State, c: Config, t: Tid, host: Host, lock: LockID, now: int, sh: Shared, held: map<LockID, Tid>, fetched: Option<Policy>)
    returns (steps: seq<Step>)
    requires At(s, t, host, AtRead2(lock, now), sh, held)
    ensures var r := SoloSlow(c, sh, host, now, fetched); LeadsTo(s, c, steps, t, Outcome(r.0, r.1, held - {lock}))
  {
    var r, s' := SoloSlow(c, sh, host, now, fetched), Next(s, c, Go(t));
    var rest := FromTest2(s', c, t, host, lock, now, sh, held, fetched);
    LeadsFirst(s, s', c, Go(t), rest, t, Outcome(r.0, r.1, held - {lock}));
    steps := [Go(t)] + rest;
  }

  lemma FromClock2(s: State, c: Config, t: Tid, host: Host, lock: LockID, now: int, sh: Shared, held: map<LockID, Tid>, fetched: Option<Policy>)
    returns (steps: seq<Step>)
    requires At(s, t, host, AtClock2(lock), sh, held)
    ensures var r := SoloSlow(c, sh, host, now, fetched); LeadsTo(s, c, steps, t, Outcome(r.0, r.1, held - {lock}))
  {
    var r, s' := SoloSlow(c, sh, host, now, fetched), Next(s, c, Clock(t, now));
    var rest := FromRead2(s', c, t, host, lock, now, sh, held, fetched);
    LeadsFirst(s, s', c, Clock(t, now), rest, t, Outcome(r.0, r.1, held - {lock}));
    steps := [Clock(t, now)] + rest;
  }

  lemma FromAcquire(s: State, c: Config, t: Tid, host: Host, lock: LockID, now: int, sh: Shared, held: map<LockID, Tid>, fetched: Option<Policy>)
    returns (steps: seq<Step>)
    requires At(s, t, host, AtAcquire(lock), sh, held) && lock !in held
    ensures var r := SoloSlow(c, sh, host, now, fetched); LeadsTo(s, c, steps, t, Outcome(r.0, r.1, held))
  {
    var r, s' := SoloSlow(c, sh, host, now, fetched), Next(s, c, Go(t));
    var rest := FromClock2(s', c, t, host, lock, now, sh, held[lock := t], fetched);
    assert held[lock := t] - {lock} == held;
    LeadsFirst(s, s', c, Go(t), rest, t, Outcome(r.0, r.1, held));
    steps := [Go(t)] + rest;
  }

  /** The host's mutex, present or to be made, is free. */
  predicate LockFree(sh: Shared, host: Host, held: map<LockID, Tid>) {
    if host in sh.locks then sh.locks[host] !in held else sh.nextLock !in held
  }

  lemma FromHostLock(s: State, c: Config, t: Tid, host: Host, now: int, sh: Shared, held: map<LockID, Tid>, fetched: Option<Policy>)
    returns (steps: seq<Step>)
    requires At(s, t, host, AtHostLock, sh, held) && LockFree(sh, host, held)
    ensures var r := SoloSlow(c, WithLock(sh, host), host, now, fetched); LeadsTo(s, c, steps, t, Outcome(r.0, r.1, held))
  {
    var r, s' := SoloSlow(c, WithLock(sh, host), host, now, fetched), Next(s, c, Go(t));
    var rest := FromAcquire(s', c, t, host, WithLock(sh, host).locks[host], now, WithLock(sh, host), held, fetched);
    LeadsFirst(s, s', c, Go(t), rest, t, Outcome(r.0, r.1, held));
    steps := [Go(t)] + rest;
  }

  lemma FromTest(s: State, c: Config, t: Tid, host: Host, now1: int, now2: int, sh: Shared, held: map<LockID, Tid>, fetched: Option<Policy>)
    returns (steps: seq<Step>)
    requires At(s, t, host, AtTest(now1, Cached(sh.cache, host)), sh, held) && LockFree(sh, host, held)
    ensures var r := SoloTest(c, sh, host, now1, now2, fetched); LeadsTo(s, c, steps, t, Outcome(r.0, r.1, held))
  {
    var r, s' := SoloTest(c, sh, host, now1, now2, fetched), Next(s, c, Go(t));
    var rest := [];
    if Fresh(Cached(sh.cache, host), now1) {
      LeadsDone(s', c, t, Outcome(r.0, r.1, held));
    } else {
      rest := FromHostLock(s', c, t, host, now2, sh.(misses := sh.misses + 1), held, fetched);
    }
    LeadsFirst(s, s', c, Go(t), rest, t, Outcome(r.0, r.1, held));
    steps := [Go(t)] + rest;
  }

  lemma FromRead(s: State, c: Config, t: Tid, host: Host, now1: int, now2: int, sh: Shared, held: map<LockID, Tid>, fetched: Option<Policy>)
    returns (steps: seq<Step>)
    requires At(s, t, host, AtRead(now1), sh, held) && LockFree(sh, host, held)
    ensures var r := SoloTest(c, sh, host, now1, now2, fetched); LeadsTo(s, c, steps, t, Outcome(r.0, r.1, held))
  {
    var r, s' := SoloTest(c, sh, host, now1, now2, fetched), Next(s, c, Go(t));
    var rest := FromTest(s', c, t, host, now1, now2, sh, held, fetched);
    LeadsFirst(s, s', c, Go(t), rest, t, Outcome(r.0, r.1, held));
    steps := [Go(t)] + rest;
  }

  lemma FromClock(s: State, c: Config, t: Tid, host: Host, now1: int, now2: int, sh: Shared, held: map<LockID, Tid>, fetched: Option<Policy>)
    returns (steps: seq<Step>)
    requires At(s, t, host, AtClock, sh, held) && LockFree(sh, host, held)
    ensures var r := SoloTest(c, sh, host, now1, now2, fetched); LeadsTo(s, c, steps, t, Outcome(r.0, r.1, held))
  {
    var r, s' := SoloTest(c, sh, host, now1, now2, fetched), Next(s, c, Clock(t, now1));
    var rest := FromRead(s', c, t, host, now1, now2, sh, held, fetched);
    LeadsFirst(s, s', c, Clock(t, now1), rest, t, Outcome(r.0, r.1, held));
    steps := [Clock(t, now1)] + rest;
  }

  lemma NextLockFree(s: State)
    requires LockInv(s)
    ensures s.nextLock !in s.held
  {
    forall l | l in s.held ensures l < s.nextLock {
      assert ThreadLockOK(s, s.held[l]);
    }
  }

  /** A host without a mutex yet gets a free one. */
  lemma NewHostFree(s: State, host: Host)
    requires LockInv(s) && (host in s.locks ==> s.locks[host] !in s.held)
    ensures LockFree(SharedOf(s), host, s.held)
  {
    NextLockFree(s);
  }

  /** The sequential code is one schedule of the step system: from every state in which the
      host's mutex, if it has one, is free, a new lookup run without interruption ends, with the
      result and the effects of `Provider.Lookup`. */
  lemma LookupIsASchedule(s: State, c: Config, t: Tid, raw: string, now1: int, now2: int, fetched: Option<Policy>)
    returns (steps: seq<Step>)
    requires LockInv(s) && t !in s.threads && (NormalizeHost(raw) in s.locks ==> s.locks[NormalizeHost(raw)] !in s.held)
    ensures var r := Solo(c, SharedOf(s), raw, now1, now2, fetched); LeadsTo(s, c, steps, t, Outcome(r.0, r.1, s.held))
  {
    NewHostFree(s, NormalizeHost(raw));
    var r, s', host := Solo(c, SharedOf(s), raw, now1, now2, fetched), Next(s, c, Begin(t, raw)), NormalizeHost(raw);
    var rest := [];
    if host == "" {
      LeadsDone(s', c, t, Outcome(r.0, r.1, s.held));
    } else {
      rest := FromClock(s', c, t, host, now1, now2, SharedOf(s), s.held, fetched);
    }
    LeadsFirst(s, s', c, Begin(t, raw), rest, t, Outcome(r.0, r.1, s.held));
    steps := [Begin(t, raw)] + rest;
  }
}
