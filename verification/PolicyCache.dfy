/** The remote policy cache (services/gateway/internal/policyclient/client.go) as a step
    system: any number of `Lookup` calls, interleaved at every access to shared state. */
module PolicyCache {
  import opened Text
  import opened Lookup
  import opened Counting

  type Host = string
  type Policy = int      // a fetched policy, identified by what was fetched
  type Reply = LookupResult<Policy>
  type Tid = nat
  type LockID = nat

  datatype FailBehavior = FailOpen | FailClosed | UseStaleThenFailOpen | OtherBehavior

  datatype Config = Config(ttl: int, failBehavior: FailBehavior)

  datatype Entry = Entry(app: Policy, expiresAt: int)

  /** client.go:118-140: a non-positive TTL becomes 30 seconds, an empty behaviour the default. */
  function NewProvider(cacheTTLSeconds: int, failBehavior: Option<FailBehavior>): (c: Config)
    ensures c.ttl > 0 && (if cacheTTLSeconds > 0 then c.ttl == 1000 * cacheTTLSeconds else c.ttl == 30_000)
    ensures failBehavior.Some? ==> c.failBehavior == failBehavior.value
    ensures failBehavior.None? ==> c.failBehavior == UseStaleThenFailOpen
  {
    Config(if cacheTTLSeconds <= 0 then 30_000 else cacheTTLSeconds * 1000,
           if failBehavior.Some? then failBehavior.value else UseStaleThenFailOpen)
  }

  function EmptyHost(): Reply { NotFound(false, 0, "empty_host", "") }

  /** client.go:180-187 */
  function Unavailable(b: FailBehavior): Reply {
    if b == FailClosed then NotFound(false, 503, "policy_fetch_failed", "")
    else NotFound(true, 0, "policy_fetch_failed_fail_open", "policy_fetch_failed_fail_open")
  }

  predicate Fresh(entry: Option<Entry>, now: int) { entry.Some? && now < entry.value.expiresAt }

  function Cached(cache: map<Host, Entry>, host: Host): Option<Entry> {
    if host in cache then Some(cache[host]) else None
  }

  // ----- threads -----

  /** How an answer came about, kept with the answer for the statements below. */
  datatype Origin =
    | NoHost
    | Hit(now: int, slow: bool)   // cache hit at this clock reading; slow: under the host lock
    | OwnFetch                    // this lookup's fetch succeeded
    | OwnFailure                  // this lookup's fetch failed

  /** `asOf` is the number of policies stored when the answer was determined. */
  datatype Answer = Answer(result: Reply, origin: Origin, asOf: nat)

  datatype Pc =
    | AtClock
    | AtRead(now: int)
    | AtTest(now: int, entry: Option<Entry>)
    | AtHostLock
    | AtAcquire(lock: LockID)
    | AtClock2(lock: LockID)
    | AtRead2(lock: LockID, now: int)
    | AtTest2(lock: LockID, now: int, entry: Option<Entry>)
    | AtFetch(lock: LockID, now: int)
    | AtStore(lock: LockID, now: int, app: Policy)
    | AtStale(lock: LockID)
    | AtRelease(lock: LockID, answer: Answer)
    | Done(answer: Answer)

  /** `born` is the number of policies stored when the lookup began. */
  datatype Thread = Thread(host: Host, born: nat, pc: Pc)

  /** A successful fetch: the policy of `host`, refreshed at clock reading `at`. */
  datatype Stored = Stored(host: Host, app: Policy, at: int)

  datatype State = State(
    cache: map<Host, Entry>,
    locks: map<Host, LockID>,
    nextLock: LockID,
    held: map<LockID, Tid>,
    hits: nat,
    misses: nat,
    errors: nat,
    threads: map<Tid, Thread>,
    log: seq<Stored>)          // every successful fetch, in the order of the stores

  predicate Init(s: State) {
    s == State(map[], map[], 0, map[], 0, 0, 0, map[], [])
  }

  /** What the scheduler and the outside world decide in one step. */
  datatype Step =
    | Begin(t: Tid, rawHost: string)
    | Clock(t: Tid, now: int)
    | Go(t: Tid)
    | FetchOK(t: Tid, app: Policy)
    | FetchFail(t: Tid)

  function Moved(s: State, t: Tid, pc: Pc): State
    requires t in s.threads
  {
    s.(threads := s.threads[t := s.threads[t].(pc := pc)])
  }

  predicate Enabled(s: State, step: Step) {
    match step
    case Begin(t, _) => t !in s.threads
    case Clock(t, _) => t in s.threads && (s.threads[t].pc.AtClock? || s.threads[t].pc.AtClock2?)
    case FetchOK(t, _) => t in s.threads && s.threads[t].pc.AtFetch?
    case FetchFail(t) => t in s.threads && s.threads[t].pc.AtFetch?
    case Go(t) =>
      t in s.threads &&
      match s.threads[t].pc
      case AtAcquire(lock) => lock !in s.held
      case AtClock => false
      case AtClock2(_) => false
      case AtFetch(_, _) => false
      case Done(_) => false
      case _ => true
  }

  /** One step of one lookup, client.go:142-188. */
  function Next(s: State, c: Config, step: Step): State
    requires Enabled(s, step)
  {
    match step
    case Begin(t, raw) =>
      var host := NormalizeHost(raw);
      s.(threads := s.threads[t := Thread(host, |s.log|,
        if host == "" then Done(Answer(EmptyHost(), NoHost, |s.log|)) else AtClock)])
    case Clock(t, now) =>
      Moved(s, t, if s.threads[t].pc.AtClock? then AtRead(now) else AtRead2(s.threads[t].pc.lock, now))
    case FetchOK(t, app) => Moved(s, t, AtStore(s.threads[t].pc.lock, s.threads[t].pc.now, app))
    case FetchFail(t) => Moved(s.(errors := s.errors + 1), t, AtStale(s.threads[t].pc.lock))
    case Go(t) => GoNext(s, c, t)
  }

  function GoNext(s: State, c: Config, t: Tid): State
    requires Enabled(s, Go(t))
  {
    var host := s.threads[t].host;
    match s.threads[t].pc
    case AtRead(now) => Moved(s, t, AtTest(now, Cached(s.cache, host)))
    case AtTest(now, entry) =>
      if Fresh(entry, now)
      then Moved(s.(hits := s.hits + 1), t, Done(Answer(Found(entry.value.app), Hit(now, false), |s.log|)))
      else Moved(s.(misses := s.misses + 1), t, AtHostLock)
    case AtHostLock =>
      if host in s.locks then Moved(s, t, AtAcquire(s.locks[host]))
      else Moved(s.(locks := s.locks[host := s.nextLock], nextLock := s.nextLock + 1), t, AtAcquire(s.nextLock))
    case AtAcquire(lock) => Moved(s.(held := s.held[lock := t]), t, AtClock2(lock))
    case AtRead2(lock, now) => Moved(s, t, AtTest2(lock, now, Cached(s.cache, host)))
    case AtTest2(lock, now, entry) =>
      if Fresh(entry, now)
      then Moved(s.(hits := s.hits + 1), t, AtRelease(lock, Answer(Found(entry.value.app), Hit(now, true), |s.log|)))
      else Moved(s, t, AtFetch(lock, now))
    case AtStore(lock, now, app) =>
      Moved(s.(cache := s.cache[host := Entry(app, now + c.ttl)], log := s.log + [Stored(host, app, now)]), t,
            AtRelease(lock, Answer(Found(app), OwnFetch, |s.log| + 1)))
    case AtStale(lock) =>
      var stale := Cached(s.cache, host);
      Moved(s, t, AtRelease(lock, Answer(if stale.Some? then FoundStale(stale.value.app) else Unavailable(c.failBehavior),
                                         OwnFailure, |s.log|)))
    case AtRelease(lock, answer) => Moved(s.(held := s.held - {lock}), t, Done(answer))
    case _ => s
  }

  /** Some step leads from one state to the other. */
  ghost predicate Leads(s: State, s': State, c: Config) {
    exists step: Step :: Enabled(s, step) && s' == Next(s, c, step)
  }

  ghost predicate StepAt(run: seq<State>, c: Config, i: int)
    requires 0 <= i < |run| - 1
  {
    Leads(run[i], run[i + 1], c)
  }

  ghost predicate IsRun(run: seq<State>, c: Config) {
    |run| > 0 && Init(run[0]) && c.ttl > 0
    && forall i | 0 <= i < |run| - 1 :: StepAt(run, c, i)
  }

  // ----- locks -----

  predicate HasLock(pc: Pc) {
    pc.AtAcquire? || Critical(pc)
  }

  /** Between `lock.Lock()` and the deferred `Unlock`. */
  predicate Critical(pc: Pc) {
    pc.AtClock2? || pc.AtRead2? || pc.AtTest2? || pc.AtFetch? || pc.AtStore? || pc.AtStale? || pc.AtRelease?
  }

  /** One mutex per host, for good. */
  predicate LocksOK(s: State) {
    (forall h | h in s.locks :: s.locks[h] < s.nextLock)
    && (forall g, h | g in s.locks && h in s.locks && s.locks[g] == s.locks[h] :: g == h)
  }

  predicate ThreadLockOK(s: State, t: Tid)
    requires t in s.threads
  {
    var th := s.threads[t];
    (HasLock(th.pc) ==> th.host in s.locks && s.locks[th.host] == th.pc.lock)
    && (Critical(th.pc) ==> th.pc.lock in s.held && s.held[th.pc.lock] == t)
  }

  predicate HeldOK(s: State) {
    forall l | l in s.held ::
      s.held[l] in s.threads && Critical(s.threads[s.held[l]].pc) && s.threads[s.held[l]].pc.lock == l
  }

  ghost predicate LockInv(s: State) {
    LocksOK(s) && HeldOK(s) && forall t | t in s.threads :: ThreadLockOK(s, t)
  }

  /** The step changes one thread and neither takes, makes nor drops a lock. */
  predicate LockQuiet(s: State, s': State, t: Tid) {
    s'.locks == s.locks && s'.nextLock == s.nextLock && s'.held == s.held
    && t in s'.threads && s'.threads == s.threads[t := s'.threads[t]]
    && var pc' := s'.threads[t].pc;
       if t in s.threads then
         var pc := s.threads[t].pc;
         s'.threads[t].host == s.threads[t].host && (Critical(pc) <==> Critical(pc'))
         && (HasLock(pc') ==> HasLock(pc) && pc.lock == pc'.lock)
       else !HasLock(pc')
  }

  lemma LockQuietKeeps(s: State, s': State, t: Tid)
    requires LockInv(s) && LockQuiet(s, s', t)
    ensures LockInv(s')
  {
    assert t in s.threads ==> ThreadLockOK(s, t);
    forall u | u in s'.threads ensures ThreadLockOK(s', u) {
      assert u in s.threads ==> ThreadLockOK(s, u);
    }
  }

  predicate LockStep(pc: Pc) { pc.AtHostLock? || pc.AtAcquire? || pc.AtRelease? }

  lemma QuietGo(s: State, c: Config, t: Tid)
    requires Enabled(s, Go(t)) && !LockStep(s.threads[t].pc)
    ensures LockQuiet(s, Next(s, c, Go(t)), t)
  {
  }

  lemma QuietOutside(s: State, c: Config, step: Step)
    requires Enabled(s, step) && !step.Go?
    ensures LockQuiet(s, Next(s, c, step), step.t)
  {
  }

  lemma HostLockKeeps(s: State, c: Config, t: Tid)
    requires LockInv(s) && t in s.threads && s.threads[t].pc.AtHostLock?
    ensures LockInv(Next(s, c, Go(t)))
  {
    var s' := Next(s, c, Go(t));
    forall u | u in s'.threads ensures ThreadLockOK(s', u) {
      assert ThreadLockOK(s, u);
    }
  }

  lemma AcquireKeeps(s: State, c: Config, t: Tid)
    requires LockInv(s) && t in s.threads && s.threads[t].pc.AtAcquire? && Enabled(s, Go(t))
    ensures LockInv(Next(s, c, Go(t)))
  {
    var s' := Next(s, c, Go(t));
    forall u | u in s'.threads ensures ThreadLockOK(s', u) {
      assert ThreadLockOK(s, u);
    }
  }

  lemma ReleaseKeeps(s: State, c: Config, t: Tid)
    requires LockInv(s) && t in s.threads && s.threads[t].pc.AtRelease?
    ensures LockInv(Next(s, c, Go(t)))
  {
    var s' := Next(s, c, Go(t));
    assert ThreadLockOK(s, t);
    forall u | u in s'.threads ensures ThreadLockOK(s', u) {
      assert ThreadLockOK(s, u);
    }
  }

  lemma LockInvStep(s: State, c: Config, step: Step)
    requires LockInv(s) && Enabled(s, step)
    ensures LockInv(Next(s, c, step))
  {
    if step.Go? && LockStep(s.threads[step.t].pc) {
      match s.threads[step.t].pc {
        case AtHostLock => HostLockKeeps(s, c, step.t);
        case AtAcquire(_) => AcquireKeeps(s, c, step.t);
        case AtRelease(_, _) => ReleaseKeeps(s, c, step.t);
      }
    } else {
      if step.Go? {
        QuietGo(s, c, step.t);
      } else {
        QuietOutside(s, c, step);
      }
      LockQuietKeeps(s, Next(s, c, step), step.t);
    }
  }

  /** Two lookups of one host are never both inside the critical section. */
  lemma MutualExclusion(s: State, t: Tid, u: Tid)
    requires LockInv(s) && t in s.threads && u in s.threads
    requires Critical(s.threads[t].pc) && Critical(s.threads[u].pc) && s.threads[t].host == s.threads[u].host
    ensures t == u
  {
    assert ThreadLockOK(s, t) && ThreadLockOK(s, u);
  }

  // ----- answers -----

  /** The last successful fetch of a host. */
  function Latest(log: seq<Stored>, host: Host): Option<Stored> {
    if log == [] then None
    else if log[|log| - 1].host == host then Some(log[|log| - 1])
    else Latest(log[..|log| - 1], host)
  }

  lemma {:induction false} LatestSpec(log: seq<Stored>, host: Host) returns (i: nat)
    ensures match Latest(log, host)
            case None => forall k | 0 <= k < |log| :: log[k].host != host
            case Some(r) => i < |log| && log[i] == r && r.host == host && forall k | i < k < |log| :: log[k].host != host
  {
    i := 0;
    if log != [] {
      var n := |log| - 1;
      if log[n].host == host {
        i := n;
      } else {
        i := LatestSpec(log[..n], host);
      }
    }
  }

  function EntryOf(r: Option<Stored>, ttl: int): Option<Entry> {
    if r.Some? then Some(Entry(r.value.app, r.value.at + ttl)) else None
  }

  /** The cache holds the latest fetch of every host. */
  ghost predicate CacheOK(s: State, c: Config) {
    forall h: Host :: Cached(s.cache, h) == EntryOf(Latest(s.log, h), c.ttl)
  }

  /** Refresh times of one host are at least one TTL apart. */
  predicate Spaced(log: seq<Stored>, ttl: int) {
    forall i, j | 0 <= i < j < |log| && log[i].host == log[j].host :: log[i].at + ttl <= log[j].at
  }

  /** The entry is some earlier fetch of this host. */
  predicate Known(log: seq<Stored>, host: Host, e: Entry, ttl: int) {
    exists i | 0 <= i < |log| :: log[i].host == host && Entry(log[i].app, log[i].at + ttl) == e
  }

  predicate AnswerOK(log: seq<Stored>, c: Config, host: Host, born: nat, a: Answer) {
    born <= a.asOf <= |log|
    && match a.origin
       case NoHost => host == "" && a.result == EmptyHost()
       case Hit(now, _) =>
         host != "" && exists i | 0 <= i < a.asOf :: log[i].host == host && a.result == Found(log[i].app) && now < log[i].at + c.ttl
       case OwnFetch =>
         host != "" && a.asOf > 0 && log[a.asOf - 1].host == host && a.result == Found(log[a.asOf - 1].app)
       case OwnFailure =>
         host != "" && a.result == match Latest(log[..a.asOf], host)
                                   case Some(r) => FoundStale(r.app)
                                   case None => Unavailable(c.failBehavior)
  }

  ghost predicate ThreadLogOK(s: State, c: Config, th: Thread) {
    th.born <= |s.log|
    && match th.pc
       case AtTest(_, entry) => th.host != "" && (entry.Some? ==> Known(s.log, th.host, entry.value, c.ttl))
       case AtTest2(_, _, entry) => th.host != "" && entry == Cached(s.cache, th.host)
       case AtFetch(_, now) => th.host != "" && !Fresh(Cached(s.cache, th.host), now)
       case AtStore(_, now, _) => th.host != "" && !Fresh(Cached(s.cache, th.host), now)
       case AtRelease(_, a) => AnswerOK(s.log, c, th.host, th.born, a)
       case Done(a) => AnswerOK(s.log, c, th.host, th.born, a)
       case _ => th.host != ""
  }

  ghost predicate LogInv(s: State, c: Config) {
    CacheOK(s, c) && Spaced(s.log, c.ttl) && forall t | t in s.threads :: ThreadLogOK(s, c, s.threads[t])
  }

  predicate LogQuiet(s: State, s': State, t: Tid) {
    s'.cache == s.cache && s'.log == s.log && t in s'.threads && s'.threads == s.threads[t := s'.threads[t]]
  }

  lemma LogQuietKeeps(s: State, s': State, c: Config, t: Tid)
    requires LogInv(s, c) && LogQuiet(s, s', t) && ThreadLogOK(s', c, s'.threads[t])
    ensures LogInv(s', c)
  {
    forall u | u in s'.threads ensures ThreadLogOK(s', c, s'.threads[u]) {
      if u != t {
        assert ThreadLogOK(s, c, s.threads[u]);
      }
    }
  }

  lemma CachedIsKnown(s: State, c: Config, host: Host)
    requires CacheOK(s, c)
    ensures Cached(s.cache, host).Some? ==> Known(s.log, host, Cached(s.cache, host).value, c.ttl)
  {
    var i := LatestSpec(s.log, host);
  }

  lemma FullPrefix(log: seq<Stored>)
    ensures log[..|log|] == log
  {
  }

  lemma HitIsOK(log: seq<Stored>, c: Config, host: Host, born: nat, e: Entry, now: int, slow: bool)
    requires born <= |log| && host != "" && Known(log, host, e, c.ttl) && now < e.expiresAt
    ensures AnswerOK(log, c, host, born, Answer(Found(e.app), Hit(now, slow), |log|))
  {
  }

  lemma FailureIsOK(s: State, c: Config, host: Host, born: nat)
    requires CacheOK(s, c) && born <= |s.log| && host != ""
    ensures var stale := Cached(s.cache, host);
            AnswerOK(s.log, c, host, born,
                     Answer(if stale.Some? then FoundStale(stale.value.app) else Unavailable(c.failBehavior), OwnFailure, |s.log|))
  {
    FullPrefix(s.log);
    assert Cached(s.cache, host) == EntryOf(Latest(s.log, host), c.ttl);
  }

  predicate Answering(pc: Pc) { pc.AtTest? || pc.AtTest2? || pc.AtStale? }

  lemma AnsweringThreadOK(s: State, c: Config, t: Tid)
    requires LogInv(s, c) && t in s.threads && Answering(s.threads[t].pc)
    ensures LogQuiet(s, Next(s, c, Go(t)), t)
    ensures ThreadLogOK(Next(s, c, Go(t)), c, Next(s, c, Go(t)).threads[t])
  {
    var th := s.threads[t];
    assert ThreadLogOK(s, c, th);
    if th.pc.AtStale? {
      FailureIsOK(s, c, th.host, th.born);
    } else if Fresh(th.pc.entry, th.pc.now) {
      CachedIsKnown(s, c, th.host);
      HitIsOK(s.log, c, th.host, th.born, th.pc.entry.value, th.pc.now, th.pc.AtTest2?);
    }
  }

  lemma MovingThreadOK(s: State, c: Config, t: Tid)
    requires LogInv(s, c) && Enabled(s, Go(t)) && !s.threads[t].pc.AtStore? && !Answering(s.threads[t].pc)
    ensures LogQuiet(s, Next(s, c, Go(t)), t)
    ensures ThreadLogOK(Next(s, c, Go(t)), c, Next(s, c, Go(t)).threads[t])
  {
    assert ThreadLogOK(s, c, s.threads[t]);
    CachedIsKnown(s, c, s.threads[t].host);
  }

  lemma OutsideThreadOK(s: State, c: Config, step: Step)
    requires LogInv(s, c) && Enabled(s, step) && !step.Go?
    ensures LogQuiet(s, Next(s, c, step), step.t)
    ensures ThreadLogOK(Next(s, c, step), c, Next(s, c, step).threads[step.t])
  {
    if !step.Begin? {
      assert ThreadLogOK(s, c, s.threads[step.t]);
    }
  }

  lemma AnswerOKGrows(log: seq<Stored>, c: Config, host: Host, born: nat, a: Answer, x: Stored)
    requires AnswerOK(log, c, host, born, a)
    ensures AnswerOK(log + [x], c, host, born, a)
  {
    var log' := log + [x];
    assert log'[..a.asOf] == log[..a.asOf];
    if a.origin.Hit? {
      var i :| 0 <= i < a.asOf && log[i].host == host && a.result == Found(log[i].app) && a.origin.now < log[i].at + c.ttl;
      assert log'[i] == log[i];
    }
  }

  lemma KnownGrows(log: seq<Stored>, host: Host, e: Entry, ttl: int, x: Stored)
    requires Known(log, host, e, ttl)
    ensures Known(log + [x], host, e, ttl)
  {
    var i :| 0 <= i < |log| && log[i].host == host && Entry(log[i].app, log[i].at + ttl) == e;
    assert (log + [x])[i] == log[i];
  }

  /** Storing for one host does not disturb the lookups of others, nor those outside the lock. */
  lemma OthersSurviveStore(s: State, c: Config, t: Tid, u: Tid)
    requires LockInv(s) && LogInv(s, c) && t in s.threads && s.threads[t].pc.AtStore? && u in s.threads && u != t
    ensures var s' := Next(s, c, Go(t)); u in s'.threads && ThreadLogOK(s', c, s'.threads[u])
  {
    var th, x := s.threads[u], Stored(s.threads[t].host, s.threads[t].pc.app, s.threads[t].pc.now);
    assert ThreadLogOK(s, c, th);
    if Critical(th.pc) && th.host == s.threads[t].host {
      MutualExclusion(s, t, u);
    } else if th.pc.AtRelease? || th.pc.Done? {
      AnswerOKGrows(s.log, c, th.host, th.born, th.pc.answer, x);
    } else if th.pc.AtTest? && th.pc.entry.Some? {
      KnownGrows(s.log, th.host, th.pc.entry.value, c.ttl, x);
    }
  }

  lemma SpacedSnoc(log: seq<Stored>, x: Stored, c: Config)
    requires Spaced(log, c.ttl) && c.ttl > 0
    requires Latest(log, x.host).Some? ==> Latest(log, x.host).value.at + c.ttl <= x.at
    ensures Spaced(log + [x], c.ttl)
  {
    var k := LatestSpec(log, x.host);
    var log' := log + [x];
    forall i | 0 <= i < |log| && log[i].host == x.host ensures log[i].at + c.ttl <= x.at {
      assert i <= k;
    }
    forall i, j | 0 <= i < j < |log'| && log'[i].host == log'[j].host ensures log'[i].at + c.ttl <= log'[j].at {
      assert log'[i] == log[i];
      if j < |log| {
        assert log'[j] == log[j];
      }
    }
  }

  lemma StoreKeepsCache(s: State, c: Config, t: Tid)
    requires CacheOK(s, c) && t in s.threads && s.threads[t].pc.AtStore?
    ensures CacheOK(Next(s, c, Go(t)), c)
  {
    var s' := Next(s, c, Go(t));
    assert s'.log[..|s'.log| - 1] == s.log;
    forall h: Host ensures Cached(s'.cache, h) == EntryOf(Latest(s'.log, h), c.ttl) {
      assert Cached(s.cache, h) == EntryOf(Latest(s.log, h), c.ttl);
    }
  }

  lemma StoreKeeps(s: State, c: Config, t: Tid)
    requires LockInv(s) && LogInv(s, c) && c.ttl > 0 && t in s.threads && s.threads[t].pc.AtStore?
    ensures LogInv(Next(s, c, Go(t)), c)
  {
    var s', th := Next(s, c, Go(t)), s.threads[t];
    assert ThreadLogOK(s, c, th);
    StoreKeepsCache(s, c, t);
    assert Cached(s.cache, th.host) == EntryOf(Latest(s.log, th.host), c.ttl);
    SpacedSnoc(s.log, Stored(th.host, th.pc.app, th.pc.now), c);
    forall u | u in s'.threads ensures ThreadLogOK(s', c, s'.threads[u]) {
      if u != t {
        OthersSurviveStore(s, c, t, u);
      }
    }
  }

  lemma LogInvStep(s: State, c: Config, step: Step)
    requires LockInv(s) && LogInv(s, c) && c.ttl > 0 && Enabled(s, step)
    ensures LogInv(Next(s, c, step), c)
  {
    if step.Go? && s.threads[step.t].pc.AtStore? {
      StoreKeeps(s, c, step.t);
    } else {
      if !step.Go? {
        OutsideThreadOK(s, c, step);
      } else if Answering(s.threads[step.t].pc) {
        AnsweringThreadOK(s, c, step.t);
      } else {
        MovingThreadOK(s, c, step.t);
      }
      LogQuietKeeps(s, Next(s, c, step), c, step.t);
    }
  }

  // ----- counters -----

  function IsLookup(): Thread -> bool { (th: Thread) => th.host != "" }

  /** Not yet counted as a hit, a success or an error. */
  function Uncounted(): Thread -> bool {
    (th: Thread) => !th.pc.Done? && !th.pc.AtRelease? && !th.pc.AtStale?
  }

  /** Past the first cache test without an answer. */
  function Missed(): Thread -> bool {
    (th: Thread) => th.pc.AtHostLock? || HasLock(th.pc)
                    || (th.pc.Done? && match th.pc.answer.origin
                                       case NoHost => false
                                       case Hit(_, slow) => slow
                                       case _ => true)
  }

  ghost predicate CountInv(s: State) {
    |Select(s.threads, IsLookup())| == s.hits + s.errors + |s.log| + |Select(s.threads, Uncounted())|
    && s.misses == |Select(s.threads, Missed())|
    && forall t | t in s.threads :: ShapeOK(s.threads[t])
  }

  /** Only slow answers pass through the release, and an empty host is answered at once. */
  predicate ShapeOK(th: Thread) {
    (th.pc.AtRelease? ==> !th.pc.answer.origin.NoHost? && (th.pc.answer.origin.Hit? ==> th.pc.answer.origin.slow))
    && (th.host == "" ==> th.pc.Done?)
  }

  /** Whether a thread belonged to a class before the step. */
  predicate Was(s: State, t: Tid, p: Thread -> bool) { t in s.threads && p(s.threads[t]) }

  predicate Accounted(s: State, s': State, t: Tid)
    requires t in s'.threads
  {
    var th := s'.threads[t];
    s'.threads == s.threads[t := th] && ShapeOK(th)
    && s'.hits + s'.errors + |s'.log| + One(Uncounted()(th)) - One(Was(s, t, Uncounted()))
       == s.hits + s.errors + |s.log| + One(IsLookup()(th)) - One(Was(s, t, IsLookup()))
    && s'.misses - s.misses == One(Missed()(th)) - One(Was(s, t, Missed()))
  }

  lemma AccountedEarly(s: State, c: Config, t: Tid)
    requires Enabled(s, Go(t)) && ShapeOK(s.threads[t]) && !Critical(s.threads[t].pc) && !s.threads[t].pc.AtTest?
    ensures t in Next(s, c, Go(t)).threads && Accounted(s, Next(s, c, Go(t)), t)
  {
  }

  lemma AccountedTest(s: State, c: Config, t: Tid)
    requires Enabled(s, Go(t)) && ShapeOK(s.threads[t]) && s.threads[t].pc.AtTest?
    ensures t in Next(s, c, Go(t)).threads && Accounted(s, Next(s, c, Go(t)), t)
  {
  }

  lemma AccountedLocked(s: State, c: Config, t: Tid)
    requires Enabled(s, Go(t)) && ShapeOK(s.threads[t]) && (s.threads[t].pc.AtRead2? || s.threads[t].pc.AtTest2?)
    ensures t in Next(s, c, Go(t)).threads && Accounted(s, Next(s, c, Go(t)), t)
  {
  }

  lemma AccountedLast(s: State, c: Config, t: Tid)
    requires Enabled(s, Go(t)) && ShapeOK(s.threads[t])
    requires s.threads[t].pc.AtStore? || s.threads[t].pc.AtStale? || s.threads[t].pc.AtRelease?
    ensures t in Next(s, c, Go(t)).threads && Accounted(s, Next(s, c, Go(t)), t)
  {
  }

  lemma AccountedOutside(s: State, c: Config, step: Step)
    requires Enabled(s, step) && !step.Go? && (step.t in s.threads ==> ShapeOK(s.threads[step.t]))
    ensures step.t in Next(s, c, step).threads && Accounted(s, Next(s, c, step), step.t)
  {
  }

  lemma CountInvStep(s: State, c: Config, step: Step)
    requires CountInv(s) && Enabled(s, step)
    ensures CountInv(Next(s, c, step))
  {
    var s', t := Next(s, c, step), step.t;
    if step.Go? {
      var pc := s.threads[t].pc;
      if pc.AtTest? {
        AccountedTest(s, c, t);
      } else if !Critical(pc) {
        AccountedEarly(s, c, t);
      } else if pc.AtRead2? || pc.AtTest2? {
        AccountedLocked(s, c, t);
      } else {
        AccountedLast(s, c, t);
      }
    } else {
      AccountedOutside(s, c, step);
    }
    AccountedKeeps(s, s', t);
  }

  lemma AccountedKeeps(s: State, s': State, t: Tid)
    requires CountInv(s) && t in s'.threads && Accounted(s, s', t)
    ensures CountInv(s')
  {
    SelectUpdate(s.threads, t, s'.threads[t], IsLookup());
    SelectUpdate(s.threads, t, s'.threads[t], Uncounted());
    SelectUpdate(s.threads, t, s'.threads[t], Missed());
  }

  // ----- every run -----

  ghost predicate Inv(s: State, c: Config) { LockInv(s) && LogInv(s, c) && CountInv(s) }

  lemma {:induction false} RunInv(run: seq<State>, c: Config, i: nat)
    requires IsRun(run, c) && i < |run|
    ensures Inv(run[i], c)
  {
    if i == 0 {
      InitInv(run[0], c);
    } else {
      RunInv(run, c, i - 1);
      RunStepInv(run, c, i - 1);
    }
  }

  lemma RunStepInv(run: seq<State>, c: Config, i: nat)
    requires IsRun(run, c) && i < |run| - 1 && Inv(run[i], c)
    ensures Inv(run[i + 1], c)
  {
    assert StepAt(run, c, i);
    StepInv(run[i], run[i + 1], c);
  }

  lemma InitInv(s: State, c: Config)
    requires Init(s)
    ensures Inv(s, c)
  {
    assert Select(s.threads, IsLookup()) == {} && Select(s.threads, Uncounted()) == {} && Select(s.threads, Missed()) == {};
  }

  lemma StepInv(s: State, s': State, c: Config)
    requires Leads(s, s', c) && c.ttl > 0 && Inv(s, c)
    ensures Inv(s', c)
  {
    var step: Step :| Enabled(s, step) && s' == Next(s, c, step);
    LockInvStep(s, c, step);
    LogInvStep(s, c, step);
    CountInvStep(s, c, step);
  }

  /** At most one fetch per host is in flight, in every state of every run. */
  lemma AtMostOneFetch(run: seq<State>, c: Config, i: nat, t: Tid, u: Tid)
    requires IsRun(run, c) && i < |run| && t in run[i].threads && u in run[i].threads
    requires run[i].threads[t].pc.AtFetch? && run[i].threads[u].pc.AtFetch?
    requires run[i].threads[t].host == run[i].threads[u].host
    ensures t == u
  {
    RunInv(run, c, i);
    MutualExclusion(run[i], t, u);
  }

  /** Successful fetches of one host are at least one TTL apart by their clock readings,
      with no assumption on the clock. */
  lemma FetchesSpaced(run: seq<State>, c: Config, i: nat, j: nat, k: nat)
    requires IsRun(run, c) && i < |run| && j < k < |run[i].log| && run[i].log[j].host == run[i].log[k].host
    ensures run[i].log[j].at + c.ttl <= run[i].log[k].at
  {
    RunInv(run, c, i);
  }

  lemma NextGrows(s: State, c: Config, step: Step)
    requires Enabled(s, step)
    ensures s.log <= Next(s, c, step).log
    ensures forall h | h in s.locks :: h in Next(s, c, step).locks && Next(s, c, step).locks[h] == s.locks[h]
  {
  }

  /** The record of successful fetches only grows, and a host keeps its mutex for good. */
  lemma {:induction false} RunGrows(run: seq<State>, c: Config, i: nat, j: nat)
    requires IsRun(run, c) && i <= j < |run|
    ensures run[i].log <= run[j].log
    ensures forall h | h in run[i].locks :: h in run[j].locks && run[j].locks[h] == run[i].locks[h]
    decreases j - i
  {
    if i < j {
      RunGrows(run, c, i, j - 1);
      assert StepAt(run, c, j - 1);
      var step: Step :| Enabled(run[j - 1], step) && run[j - 1 + 1] == Next(run[j - 1], c, step);
      NextGrows(run[j - 1], c, step);
    }
  }

  /** What an answer means, in every run, for every finished lookup of a non-empty host. */
  ghost predicate Justified(s: State, c: Config, th: Thread, a: Answer) {
    // a fresh answer is the lookup's own fetch, or one for this host not expired at its clock reading
    (a.result.found && !a.result.stale ==>
       exists i | 0 <= i < |s.log| ::
         s.log[i].host == th.host && a.result == Found(s.log[i].app)
         && (a.origin.OwnFetch? || (a.origin.Hit? && a.origin.now < s.log[i].at + c.ttl)))
    // a stale answer follows the lookup's own failed fetch and carries the latest policy
    && (a.result.stale ==>
          a.origin.OwnFailure? && a.asOf <= |s.log| && Latest(s.log[..a.asOf], th.host).Some?
          && a.result == FoundStale(Latest(s.log[..a.asOf], th.host).value.app))
    // a host fetched before the lookup began is never not-found
    && ((exists i | 0 <= i < th.born && i < |s.log| :: s.log[i].host == th.host) ==> a.result.found)
    // not-found means the fetch failed and the configured behaviour applies
    && (!a.result.found ==> a.origin.OwnFailure? && a.result == Unavailable(c.failBehavior))
  }

  lemma LatestFound(log: seq<Stored>, host: Host, i: nat)
    requires i < |log| && log[i].host == host
    ensures Latest(log, host).Some?
  {
    var _ := LatestSpec(log, host);
  }

  lemma FailureJustified(s: State, c: Config, th: Thread, a: Answer)
    requires AnswerOK(s.log, c, th.host, th.born, a) && a.origin.OwnFailure?
    ensures Justified(s, c, th, a)
  {
    if k :| 0 <= k < th.born && k < |s.log| && s.log[k].host == th.host {
      assert s.log[..a.asOf][k] == s.log[k];
      LatestFound(s.log[..a.asOf], th.host, k);
    }
  }

  lemma SuccessJustified(s: State, c: Config, th: Thread, a: Answer)
    requires AnswerOK(s.log, c, th.host, th.born, a) && (a.origin.Hit? || a.origin.OwnFetch?)
    ensures Justified(s, c, th, a)
  {
    var i: nat;
    if a.origin.OwnFetch? {
      i := a.asOf - 1;
    } else {
      i :| 0 <= i < a.asOf && s.log[i].host == th.host && a.result == Found(s.log[i].app) && a.origin.now < s.log[i].at + c.ttl;
    }
    assert s.log[i].host == th.host && a.result == Found(s.log[i].app);
  }

  /** Every finished lookup of a non-empty host is justified, in every state of every run. */
  lemma AnswersJustified(run: seq<State>, c: Config, i: nat, t: Tid)
    requires IsRun(run, c) && i < |run| && t in run[i].threads && run[i].threads[t].pc.Done?
    requires run[i].threads[t].host != ""
    ensures Justified(run[i], c, run[i].threads[t], run[i].threads[t].pc.answer)
  {
    RunInv(run, c, i);
    var s, th := run[i], run[i].threads[t];
    assert ThreadLogOK(s, c, th);
    if th.pc.answer.origin.OwnFailure? {
      FailureJustified(s, c, th, th.pc.answer);
    } else {
      SuccessJustified(s, c, th, th.pc.answer);
    }
  }

  /** When no lookup is under way, every lookup of a non-empty host has been counted once:
      as a hit, a successful fetch or a failed fetch. Misses are the lookups the first test
      did not answer. */
  lemma QuiescentCounts(run: seq<State>, c: Config, i: nat)
    requires IsRun(run, c) && i < |run| && forall t | t in run[i].threads :: run[i].threads[t].pc.Done?
    ensures run[i].hits + |run[i].log| + run[i].errors == |Select(run[i].threads, IsLookup())|
    ensures run[i].misses == |Select(run[i].threads, Missed())|
  {
    RunInv(run, c, i);
    assert Select(run[i].threads, Uncounted()) == {};
  }

  /** The lookup can take a step. */
  ghost predicate CanStep(s: State, t: Tid) {
    exists step: Step :: step.t == t && !step.Begin? && Enabled(s, step)
  }

  lemma NotWaitingCanStep(s: State, t: Tid)
    requires t in s.threads && !s.threads[t].pc.Done? && (s.threads[t].pc.AtAcquire? ==> s.threads[t].pc.lock !in s.held)
    ensures CanStep(s, t)
  {
    var pc := s.threads[t].pc;
    var step := if pc.AtClock? || pc.AtClock2? then Clock(t, 0) else if pc.AtFetch? then FetchFail(t) else Go(t);
    assert Enabled(s, step);
  }

  /** No lookup is stuck: in every state of every run an unfinished lookup can step, or it
      waits for its host's mutex and the one lookup that holds it can step. */
  lemma Progress(run: seq<State>, c: Config, i: nat, t: Tid)
    requires IsRun(run, c) && i < |run| && t in run[i].threads && !run[i].threads[t].pc.Done?
    ensures var s, pc := run[i], run[i].threads[t].pc;
            CanStep(s, t)
            || (pc.AtAcquire? && pc.lock in s.held && s.held[pc.lock] in s.threads
                && s.threads[s.held[pc.lock]].host == s.threads[t].host && CanStep(s, s.held[pc.lock]))
  {
    RunInv(run, c, i);
    var s := run[i];
    if s.threads[t].pc.AtAcquire? && s.threads[t].pc.lock in s.held {
      HolderCanStep(s, t);
    } else {
      NotWaitingCanStep(s, t);
    }
  }

  lemma HolderCanStep(s: State, t: Tid)
    requires LockInv(s) && t in s.threads && s.threads[t].pc.AtAcquire? && s.threads[t].pc.lock in s.held
    ensures var u := s.held[s.threads[t].pc.lock];
            u in s.threads && s.threads[u].host == s.threads[t].host && CanStep(s, u)
  {
    var u := s.held[s.threads[t].pc.lock];
    assert ThreadLockOK(s, t) && ThreadLockOK(s, u);
    NotWaitingCanStep(s, u);
  }

  /** The reply of every finished lookup of a non-empty host, field by field. A found app comes
      with no status and is not fail-open; a stale one carries its warning. Without an app the
      gateway is to fail open unless it is configured to fail closed, which answers 503. */
  ghost predicate ReplyLaw(c: Config, r: Reply) {
    (r.found <==> r.app.Some?) && (r.stale ==> r.found)
    && (r.found ==> !r.failOpen && r.statusCode == 0 && (r.warning == "policy_fetch_failed_using_stale" <==> r.stale))
    && (!r.found ==> (r.failOpen <==> c.failBehavior != FailClosed) && (!r.failOpen ==> r.statusCode == 503)
                     && r.reason == if r.failOpen then "policy_fetch_failed_fail_open" else "policy_fetch_failed")
  }

  lemma RepliesMean(run: seq<State>, c: Config, i: nat, t: Tid)
    requires IsRun(run, c) && i < |run| && t in run[i].threads && run[i].threads[t].pc.Done?
    requires run[i].threads[t].host != ""
    ensures ReplyLaw(c, run[i].threads[t].pc.answer.result)
  {
    RunInv(run, c, i);
    assert ThreadLogOK(run[i], c, run[i].threads[t]);
    AnswerReply(run[i].log, c, run[i].threads[t].host, run[i].threads[t].born, run[i].threads[t].pc.answer);
  }

  lemma AnswerReply(log: seq<Stored>, c: Config, host: Host, born: nat, a: Answer)
    requires AnswerOK(log, c, host, born, a) && host != ""
    ensures ReplyLaw(c, a.result)
  {
  }

  /** A lookup without a host is answered at once: not found, and not fail-open. */
  lemma EmptyHostReply(run: seq<State>, c: Config, i: nat, t: Tid)
    requires IsRun(run, c) && i < |run| && t in run[i].threads && run[i].threads[t].host == ""
    ensures run[i].threads[t].pc.Done?
    ensures var r := run[i].threads[t].pc.answer.result; !r.found && !r.failOpen && r.app == None && r.reason == "empty_host"
  {
    RunInv(run, c, i);
    assert ThreadLogOK(run[i], c, run[i].threads[t]) && ShapeOK(run[i].threads[t]);
  }
}
