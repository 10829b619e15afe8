/** The fixed-window rate limiter (services/gateway/internal/ratelimit/ratelimit.go).
    Time is Unix milliseconds; windows are counted in whole seconds. */
module RateLimit {
  import opened Counting

  // ----- counter keys -----

  const PREFIX := "bedemwaf:rl:"

  predicate ColonFree(s: string) { ':' !in s }

  function Decimal(n: nat): (r: string)
    ensures r != "" && ColonFree(r)
  {
    if n < 10 then ["0123456789"[n]] else Decimal(n / 10) + ["0123456789"[n % 10]]
  }

  /** The counter a check charges: one per tenant, app, rule, hashed key part and window. */
  datatype Bucket = Bucket(tenant: string, app: string, rule: string, keyHash: string, window: nat)

  function RuleRef(b: Bucket): string {
    b.tenant + ":" + b.app + ":" + b.rule
  }

  /** ratelimit.go:100 */
  function Key(b: Bucket): string {
    PREFIX + RuleRef(b) + ":" + b.keyHash + ":" + Decimal(b.window)
  }

  /** Tenant and app ids and the hash hold no colon; the rule id may. */
  predicate PlainOwner(b: Bucket) {
    ColonFree(b.tenant) && ColonFree(b.app) && ColonFree(b.keyHash)
  }

  lemma DigitInjective(i: nat, j: nat)
    requires i < 10 && j < 10 && "0123456789"[i] == "0123456789"[j]
    ensures i == j
  {
  }

  lemma {:induction false} DecimalInjective(m: nat, n: nat)
    requires Decimal(m) == Decimal(n)
    ensures m == n
  {
    var s := Decimal(m);
    if m >= 10 && n >= 10 {
      assert s[..|s| - 1] == Decimal(m / 10) && s[..|s| - 1] == Decimal(n / 10);
      DecimalInjective(m / 10, n / 10);
      assert s[|s| - 1] == "0123456789"[m % 10] && s[|s| - 1] == "0123456789"[n % 10];
      DigitInjective(m % 10, n % 10);
    } else if m < 10 && n < 10 {
      assert s[0] == "0123456789"[m] && s[0] == "0123456789"[n];
      DigitInjective(m, n);
    }
  }

  lemma LastColon(x: string, a: string, k: nat)
    requires ColonFree(a) && k < |x + ":" + a| && (x + ":" + a)[k] == ':'
    ensures k <= |x|
  {
    var s := x + ":" + a;
    assert forall i | |x| < i < |s| :: s[i] == a[i - |x| - 1];
  }

  /** The text after the last colon determines both halves. */
  lemma SplitLast(x: string, a: string, y: string, b: string)
    requires ColonFree(a) && ColonFree(b) && x + ":" + a == y + ":" + b
    ensures x == y && a == b
  {
    var s := x + ":" + a;
    LastColon(x, a, |y|);
    LastColon(y, b, |x|);
    assert s[..|x|] == x && s[..|y|] == y && s[|x| + 1..] == a && s[|y| + 1..] == b;
  }

  /** Two checks share a counter exactly when hash, window and the colon-joined
      tenant:app:rule text coincide. */
  lemma KeyEqualIff(b: Bucket, c: Bucket)
    requires ColonFree(b.keyHash) && ColonFree(c.keyHash)
    ensures Key(b) == Key(c) <==> RuleRef(b) == RuleRef(c) && b.keyHash == c.keyHash && b.window == c.window
  {
    if Key(b) == Key(c) {
      SplitLast(PREFIX + RuleRef(b) + ":" + b.keyHash, Decimal(b.window), PREFIX + RuleRef(c) + ":" + c.keyHash, Decimal(c.window));
      DecimalInjective(b.window, c.window);
      SplitLast(PREFIX + RuleRef(b), b.keyHash, PREFIX + RuleRef(c), c.keyHash);
      assert (PREFIX + RuleRef(b))[|PREFIX|..] == RuleRef(b) && (PREFIX + RuleRef(c))[|PREFIX|..] == RuleRef(c);
    }
  }

  /** The text before the first colon determines both halves. */
  lemma SplitFirst(a: string, x: string, b: string, y: string)
    requires ColonFree(a) && ColonFree(b) && a + ":" + x == b + ":" + y
    ensures a == b && x == y
  {
    var s := a + ":" + x;
    assert s[|a|] == ':' && s[|b|] == ':';
    assert forall i | 0 <= i < |a| :: s[i] == a[i];
    assert forall i | 0 <= i < |b| :: s[i] == b[i];
    assert s[..|a|] == a && s[..|b|] == b && s[|a| + 1..] == x && s[|b| + 1..] == y;
  }

  /** Under tenant and app ids without a colon the key determines the bucket, whatever the rule id. */
  lemma KeyInjective(b: Bucket, c: Bucket)
    requires PlainOwner(b) && PlainOwner(c) && Key(b) == Key(c)
    ensures b == c
  {
    KeyEqualIff(b, c);
    assert RuleRef(b) == b.tenant + ":" + (b.app + ":" + b.rule) && RuleRef(c) == c.tenant + ":" + (c.app + ":" + c.rule);
    SplitFirst(b.tenant, b.app + ":" + b.rule, c.tenant, c.app + ":" + c.rule);
    SplitFirst(b.app, b.rule, c.app, c.rule);
  }

  /** With a colon in a tenant or app id, two different rules share one counter. */
  lemma ColonCollides(hash: string, window: nat)
    ensures var b, c := Bucket("a:b", "c", "r", hash, window), Bucket("a", "b:c", "r", hash, window);
            b != c && Key(b) == Key(c)
  {
    var b, c := Bucket("a:b", "c", "r", hash, window), Bucket("a", "b:c", "r", hash, window);
    assert RuleRef(b) == RuleRef(c);
  }

  lemma SplitAtColon(s: string) returns (x: string, y: string)
    requires !ColonFree(s)
    ensures s == x + ":" + y
  {
    var i :| 0 <= i < |s| && s[i] == ':';
    x, y := s[..i], s[i + 1..];
  }

  /** A bucket with a colon in one of its three ids shares its counter with a different one. */
  lemma SharesCounter(b: Bucket) returns (c: Bucket)
    requires !(ColonFree(b.tenant) && ColonFree(b.app) && ColonFree(b.rule))
    ensures c != b && c.keyHash == b.keyHash && Key(c) == Key(b)
  {
    if !ColonFree(b.tenant) {
      var x, y := SplitAtColon(b.tenant);
      c := Bucket(x, y, b.app + ":" + b.rule, b.keyHash, b.window);
    } else if !ColonFree(b.app) {
      var x, y := SplitAtColon(b.app);
      c := Bucket(b.tenant, x, y + ":" + b.rule, b.keyHash, b.window);
    } else {
      var x, y := SplitAtColon(b.rule);
      c := Bucket(b.tenant + ":" + b.app, x, y, b.keyHash, b.window);
    }
    assert RuleRef(c) == RuleRef(b);
  }

  /** A bucket has its counter for itself exactly when none of its ids holds a colon. */
  lemma OwnCounterIff(b: Bucket)
    requires ColonFree(b.keyHash)
    ensures (forall c: Bucket | ColonFree(c.keyHash) && Key(c) == Key(b) :: c == b)
       <==> ColonFree(b.tenant) && ColonFree(b.app) && ColonFree(b.rule)
  {
    if ColonFree(b.tenant) && ColonFree(b.app) && ColonFree(b.rule) {
      forall c: Bucket | ColonFree(c.keyHash) && Key(c) == Key(b) ensures c == b {
        AloneInKey(b, c);
      }
    } else {
      var c := SharesCounter(b);
    }
  }

  lemma AloneInKey(b: Bucket, c: Bucket)
    requires PlainOwner(b) && ColonFree(b.rule) && ColonFree(c.keyHash) && Key(c) == Key(b)
    ensures c == b
  {
    KeyEqualIff(b, c);
    TwoColons(b);
    ColonsOfRef(c);
    ColonsFree(c.tenant);
    ColonsFree(c.app);
    KeyInjective(b, c);
  }

  /** The number of colons in a text. */
  function Colons(s: string): nat {
    if s == "" then 0 else Colons(s[..|s| - 1]) + One(s[|s| - 1] == ':')
  }

  lemma {:induction false} ColonsConcat(a: string, b: string)
    ensures Colons(a + b) == Colons(a) + Colons(b)
  {
    if b == "" {
      assert a + b == a;
    } else {
      ColonsConcat(a, b[..|b| - 1]);
      assert (a + b)[..|a + b| - 1] == a + b[..|b| - 1];
    }
  }

  lemma {:induction false} ColonsFree(s: string)
    ensures Colons(s) == 0 <==> ColonFree(s)
  {
    if s != "" {
      ColonsFree(s[..|s| - 1]);
      assert s == s[..|s| - 1] + [s[|s| - 1]];
    }
  }

  lemma ColonsOfRef(b: Bucket)
    ensures Colons(RuleRef(b)) == Colons(b.tenant) + Colons(b.app) + Colons(b.rule) + 2
  {
    ColonsConcat(b.tenant + ":" + b.app + ":", b.rule);
    ColonsConcat(b.tenant + ":" + b.app, ":");
    ColonsConcat(b.tenant + ":", b.app);
    ColonsConcat(b.tenant, ":");
    assert ":"[..0] == "" && Colons(":") == 1;
  }

  lemma TwoColons(b: Bucket)
    requires ColonFree(b.tenant) && ColonFree(b.app) && ColonFree(b.rule)
    ensures Colons(RuleRef(b)) == 2
  {
    ColonsOfRef(b);
    ColonsFree(b.tenant);
    ColonsFree(b.app);
    ColonsFree(b.rule);
  }

  // ----- window arithmetic -----

  function WindowAt(now: nat, windowSeconds: nat): nat
    requires windowSeconds > 0
  {
    now / 1000 / windowSeconds
  }

  /** In Unix seconds, ratelimit.go:99. */
  function ResetAt(now: nat, windowSeconds: nat): nat
    requires windowSeconds > 0
  {
    (WindowAt(now, windowSeconds) + 1) * windowSeconds
  }

  /** First millisecond after window `w`. */
  function WindowEnd(w: nat, windowSeconds: nat): nat {
    (w + 1) * windowSeconds * 1000
  }

  lemma QuotientBounds(n: nat, d: nat)
    requires d > 0
    ensures n / d * d <= n < (n / d + 1) * d
  {
    assert n == d * (n / d) + n % d;
  }

  /** The reset time is strictly ahead, by at most one window. */
  lemma ResetBounds(now: nat, windowSeconds: nat)
    requires windowSeconds > 0
    ensures now / 1000 < ResetAt(now, windowSeconds) <= now / 1000 + windowSeconds
  {
    var w := WindowAt(now, windowSeconds);
    QuotientBounds(now / 1000, windowSeconds);
    assert (w + 1) * windowSeconds == w * windowSeconds + windowSeconds;
  }

  /** A key created at `now` lives to the end of its window and not one window longer. */
  lemma ExpiryCoversWindow(now: nat, windowSeconds: nat)
    requires windowSeconds > 0
    ensures now < WindowEnd(WindowAt(now, windowSeconds), windowSeconds) <= now + windowSeconds * 1000
  {
    ResetBounds(now, windowSeconds);
    QuotientBounds(now, 1000);
  }

  lemma MulMonotone(a: nat, b: nat, d: nat)
    requires a <= b
    ensures a * d <= b * d
  {
    assert b * d == a * d + (b - a) * d;
  }

  lemma CancelFactor(a: nat, b: nat, d: nat)
    ensures a * d < b * d ==> a < b
  {
    if b <= a {
      MulMonotone(b, a, d);
    }
  }

  /** After the window has ended, no clock reading maps to it again. */
  lemma WindowNeverReused(w: nat, windowSeconds: nat, now: nat)
    requires windowSeconds > 0
    ensures WindowEnd(w, windowSeconds) <= now ==> WindowAt(now, windowSeconds) > w
  {
    ExpiryCoversWindow(now, windowSeconds);
    if WindowAt(now, windowSeconds) <= w {
      MulMonotone(WindowAt(now, windowSeconds) + 1, w + 1, windowSeconds);
    }
  }

  // ----- the two counter stores -----

  datatype Reply = Reply(count: int, remaining: int)

  function Remaining(limit: int, count: int): int {
    if limit - count < 0 then 0 else limit - count
  }

  type Counts = map<string, int>

  function CountOf(m: Counts, key: string): int {
    if key in m then m[key] else 0
  }

  /** ratelimit.go:253-271 */
  class MemoryStore {
    var counts: Counts

    constructor ()
      ensures counts == map[]
    {
      counts := map[];
    }

    method IncrementFixedWindow(key: string, limit: int, windowSeconds: int) returns (r: Reply)
      modifies this
      ensures r.count == CountOf(old(counts), key) + 1
      ensures r.remaining == Remaining(limit, r.count)
      ensures counts == old(counts)[key := r.count]
    {
      counts := counts[key := CountOf(counts, key) + 1];
      var remaining := limit - counts[key];
      if remaining < 0 {
        remaining := 0;
      }
      r := Reply(counts[key], remaining);
    }
  }

  datatype Entry = Entry(count: int, expiresAt: int)

  type Entries = map<string, Entry>

  /** Keys whose time has come are gone. */
  function Live(m: Entries, now: nat): Entries {
    map k | k in m && now < m[k].expiresAt :: m[k]
  }

  function ScriptNext(m: Entries, key: string, windowSeconds: nat, now: nat): Entries {
    var live := Live(m, now);
    if key in live then live[key := live[key].(count := live[key].count + 1)]
    else live[key := Entry(1, now + windowSeconds * 1000)]
  }

  /** A key exists only with a count of at least one: INCR creates it. */
  predicate Positive(m: Entries) { forall k | k in m :: m[k].count >= 1 }

  /** The server state the Lua script of ratelimit.go:24-35 works on. */
  class RedisStore {
    var entries: Entries

    constructor ()
      ensures entries == map[]
    {
      entries := map[];
    }

    /** INCR, EXPIRE when the counter is new, then the clamped remainder. */
    method EvalFixedWindow(key: string, limit: int, windowSeconds: nat, now: nat) returns (r: Reply)
      requires Positive(entries)
      modifies this
      ensures entries == ScriptNext(old(entries), key, windowSeconds, now)
      ensures r == Reply(entries[key].count, Remaining(limit, entries[key].count))
      ensures Positive(entries)
    {
      entries := Live(entries, now);
      var current := if key in entries then entries[key].count + 1 else 1;
      var expiresAt := if key in entries then entries[key].expiresAt else -1;
      entries := entries[key := Entry(current, expiresAt)];
      if current == 1 {
        entries := entries[key := Entry(current, now + windowSeconds * 1000)];
      }
      var remaining := limit - current;
      if remaining < 0 {
        remaining := 0;
      }
      r := Reply(current, remaining);
    }
  }

  // ----- runs -----

  /** Everything of a bucket except the window. */
  datatype Client = Client(tenant: string, app: string, rule: string, keyHash: string)

  function BucketIn(who: Client, window: nat): Bucket {
    Bucket(who.tenant, who.app, who.rule, who.keyHash, window)
  }

  /** One `IncrementFixedWindow` issued by `Check`: who is charged, the rule's limit and
      window, the clock reading and the key it was turned into. */
  datatype Call = Call(who: Client, limit: int, windowSeconds: nat, now: nat, key: string)

  /** The key is the one `Check` computes (ratelimit.go:97-100). */
  predicate Issued(c: Call) {
    c.windowSeconds > 0 && c.key == Key(BucketIn(c.who, WindowAt(c.now, c.windowSeconds)))
  }

  function MemReply(m: Counts, c: Call): Reply {
    var count := CountOf(m, c.key) + 1;
    Reply(count, Remaining(c.limit, count))
  }

  function MemNext(m: Counts, c: Call): Counts {
    m[c.key := CountOf(m, c.key) + 1]
  }

  function MemRun(m: Counts, calls: seq<Call>): seq<Reply>
    decreases calls
  {
    if calls == [] then [] else [MemReply(m, calls[0])] + MemRun(MemNext(m, calls[0]), calls[1..])
  }

  function RedisNext(r: Entries, c: Call): Entries {
    ScriptNext(r, c.key, c.windowSeconds, c.now)
  }

  function RedisReply(r: Entries, c: Call): Reply {
    var count := RedisNext(r, c)[c.key].count;
    Reply(count, Remaining(c.limit, count))
  }

  /** The state of whichever counter store the limiter was built on. */
  datatype Store = Memory(counts: Counts) | Redis(entries: Entries)

  function ReplyOf(st: Store, c: Call): Reply {
    match st
    case Memory(m) => MemReply(m, c)
    case Redis(r) => RedisReply(r, c)
  }

  function Charge(st: Store, c: Call): Store {
    match st
    case Memory(m) => Memory(MemNext(m, c))
    case Redis(r) => Redis(RedisNext(r, c))
  }

  /** The `Store` interface of ratelimit.go:50-52: one of the two stores behind it. */
  class CounterStore {
    const onRedis: bool
    const memory: MemoryStore
    const redis: RedisStore

    constructor (onRedis: bool)
      ensures this.onRedis == onRedis && fresh(memory) && fresh(redis)
      ensures Positive(redis.entries) && View() == if onRedis then Redis(map[]) else Memory(map[])
    {
      this.onRedis := onRedis;
      memory := new MemoryStore();
      redis := new RedisStore();
    }

    function View(): Store
      reads memory, redis
    {
      if onRedis then Redis(redis.entries) else Memory(memory.counts)
    }

    method IncrementFixedWindow(c: Call) returns (r: Reply)
      requires Positive(redis.entries)
      modifies memory, redis
      ensures Positive(redis.entries)
      ensures r == ReplyOf(old(View()), c) && View() == Charge(old(View()), c)
    {
      if onRedis {
        r := redis.EvalFixedWindow(c.key, c.limit, c.windowSeconds, c.now);
      } else {
        r := memory.IncrementFixedWindow(c.key, c.limit, c.windowSeconds);
      }
    }
  }

  function RedisRun(r: Entries, calls: seq<Call>): seq<Reply>
    decreases calls
  {
    if calls == [] then [] else [RedisReply(r, calls[0])] + RedisRun(RedisNext(r, calls[0]), calls[1..])
  }

  /** The shared clock never runs backwards. */
  predicate ClockOrdered(calls: seq<Call>, from: nat) {
    calls != [] ==> from <= calls[0].now && ClockOrdered(calls[1..], calls[0].now)
  }

  /** Window length of each rule, by its joined ids, fixed for the whole run. */
  type Windows = map<string, nat>

  /** The check was issued for a rule with its fixed window; the hash is hexadecimal text. */
  predicate Proper(c: Call, windows: Windows) {
    var b := BucketIn(c.who, 0);
    Issued(c) && ColonFree(b.keyHash) && RuleRef(b) in windows && windows[RuleRef(b)] == c.windowSeconds
  }

  /** The bucket's window is still open at `now`. */
  predicate Open(b: Bucket, windows: Windows, now: nat) {
    ColonFree(b.keyHash) && RuleRef(b) in windows && windows[RuleRef(b)] > 0 && now < WindowEnd(b.window, windows[RuleRef(b)])
  }

  predicate SameCount(m: Counts, r: Entries, key: string, until: int) {
    (key in m <==> key in r) && (key in m ==> r[key].count == m[key] && r[key].expiresAt >= until)
  }

  /** Both stores agree on every counter that can still be charged. */
  ghost predicate Agree(m: Counts, r: Entries, windows: Windows, now: nat) {
    forall b: Bucket {:trigger Key(b)} | Open(b, windows, now) ::
      SameCount(m, r, Key(b), WindowEnd(b.window, windows[RuleRef(b)]))
  }

  lemma AgreeLater(m: Counts, r: Entries, windows: Windows, from: nat, now: nat)
    requires Agree(m, r, windows, from) && from <= now
    ensures Agree(m, r, windows, now)
  {
    forall b: Bucket | Open(b, windows, now) ensures SameCount(m, r, Key(b), WindowEnd(b.window, windows[RuleRef(b)])) {
      assert Open(b, windows, from);
    }
  }

  lemma AgreeStep(m: Counts, r: Entries, windows: Windows, from: nat, c: Call)
    requires Agree(m, r, windows, from) && from <= c.now && Proper(c, windows)
    ensures MemReply(m, c) == RedisReply(r, c)
    ensures Agree(MemNext(m, c), RedisNext(r, c), windows, c.now)
  {
    ExpiryCoversWindow(c.now, c.windowSeconds);
    var b0 := BucketIn(c.who, WindowAt(c.now, c.windowSeconds));
    var end := WindowEnd(b0.window, c.windowSeconds);
    assert Open(b0, windows, from);
    assert SameCount(m, r, Key(b0), end);
    assert SameCount(m, Live(r, c.now), Key(b0), end);
    forall b: Bucket | Open(b, windows, c.now)
      ensures SameCount(MemNext(m, c), RedisNext(r, c), Key(b), WindowEnd(b.window, windows[RuleRef(b)]))
    {
      assert Open(b, windows, from);
      KeyEqualIff(b, b0);
    }
  }

  lemma {:induction false} AgreeRuns(m: Counts, r: Entries, windows: Windows, from: nat, calls: seq<Call>)
    requires Agree(m, r, windows, from) && ClockOrdered(calls, from) && forall c | c in calls :: Proper(c, windows)
    ensures MemRun(m, calls) == RedisRun(r, calls)
    decreases calls
  {
    if calls != [] {
      var c := calls[0];
      AgreeStep(m, r, windows, from, c);
      AgreeRuns(MemNext(m, c), RedisNext(r, c), windows, c.now, calls[1..]);
    }
  }

  /** The expiring Redis counter and the never-expiring memory counter give the same
      count and remainder on every call of every run. */
  lemma RedisRefinesMemory(calls: seq<Call>, windows: Windows)
    requires ClockOrdered(calls, 0) && forall c | c in calls :: Proper(c, windows)
    ensures RedisRun(map[], calls) == MemRun(map[], calls)
  {
    AgreeRuns(map[], map[], windows, 0, calls);
  }

  // ----- what is admitted -----

  /** How often a counter was charged. */
  function Charges(calls: seq<Call>, key: string): nat {
    if calls == [] then 0 else One(calls[0].key == key) + Charges(calls[1..], key)
  }

  lemma {:induction false} CountIsCharges(m: Counts, calls: seq<Call>, i: nat)
    requires i < |calls|
    ensures |MemRun(m, calls)| == |calls|
    ensures MemRun(m, calls)[i].count == CountOf(m, calls[i].key) + Charges(calls[..i + 1], calls[i].key)
    ensures MemRun(m, calls)[i].remaining == Remaining(calls[i].limit, MemRun(m, calls)[i].count)
    decreases calls
  {
    var rest, m' := calls[1..], MemNext(m, calls[0]);
    assert calls[..i + 1][1..] == rest[..i];
    if i > 0 {
      CountIsCharges(m', rest, i - 1);
    } else if |calls| > 1 {
      CountIsCharges(m', rest, 0);
    }
  }

  /** The counters after all these calls. */
  function MemAll(m: Counts, calls: seq<Call>): Counts
    decreases calls
  {
    if calls == [] then m else MemAll(MemNext(m, calls[0]), calls[1..])
  }

  lemma {:induction false} MemAllConcat(m: Counts, a: seq<Call>, b: seq<Call>)
    ensures MemAll(m, a + b) == MemAll(MemAll(m, a), b)
    decreases a
  {
    if a == [] {
      assert a + b == b;
    } else {
      MemAllConcat(MemNext(m, a[0]), a[1..], b);
      assert (a + b)[1..] == a[1..] + b;
    }
  }

  lemma MemAllSnoc(m: Counts, calls: seq<Call>, c: Call)
    ensures MemAll(m, calls + [c]) == MemNext(MemAll(m, calls), c)
  {
    MemAllConcat(m, calls, [c]);
    assert [c][1..] == [];
  }

  lemma {:induction false} CountIsAll(m: Counts, calls: seq<Call>, key: string)
    ensures CountOf(MemAll(m, calls), key) == CountOf(m, key) + Charges(calls, key)
    decreases calls
  {
    if calls != [] {
      CountIsAll(MemNext(m, calls[0]), calls[1..], key);
    }
  }

  predicate Allowed(c: Call, r: Reply) { r.count <= c.limit }

  /** The i-th call is allowed exactly when it is among the first `limit` charges of
      its counter, and what remains counts down to zero. */
  lemma AllowedIffAmongFirst(calls: seq<Call>, i: nat)
    requires i < |calls|
    ensures |MemRun(map[], calls)| == |calls|
    ensures var n, r := Charges(calls[..i + 1], calls[i].key), MemRun(map[], calls)[i];
            (Allowed(calls[i], r) <==> n <= calls[i].limit)
            && r.remaining == if n <= calls[i].limit then calls[i].limit - n else 0
  {
    CountIsCharges(map[], calls, i);
  }

  /** On runs of `Check` under plain tenant and app ids, sharing a counter means sharing tenant,
      app, rule, key hash and window. */
  lemma ChargesAreOneBucket(c: Call, d: Call)
    requires Issued(c) && Issued(d) && PlainOwner(BucketIn(c.who, 0)) && PlainOwner(BucketIn(d.who, 0))
    ensures c.key == d.key <==>
            c.who == d.who && WindowAt(c.now, c.windowSeconds) == WindowAt(d.now, d.windowSeconds)
  {
    if c.key == d.key {
      KeyInjective(BucketIn(c.who, WindowAt(c.now, c.windowSeconds)), BucketIn(d.who, WindowAt(d.now, d.windowSeconds)));
    }
  }

  function Admitted(m: Counts, calls: seq<Call>, key: string): nat
    decreases calls
  {
    if calls == [] then 0
    else One(calls[0].key == key && Allowed(calls[0], MemReply(m, calls[0]))) + Admitted(MemNext(m, calls[0]), calls[1..], key)
  }

  function Min(a: int, b: int): int { if a <= b then a else b }

  lemma {:induction false} AdmittedFrom(m: Counts, calls: seq<Call>, key: string, limit: int)
    requires CountOf(m, key) >= 0 && forall c | c in calls && c.key == key :: c.limit == limit
    ensures Admitted(m, calls, key) == Min(CountOf(m, key) + Charges(calls, key), limit) - Min(CountOf(m, key), limit)
    decreases calls
  {
    if calls != [] {
      AdmittedFrom(MemNext(m, calls[0]), calls[1..], key, limit);
    }
  }

  /** Of n charges to one counter, exactly min(n, limit) are admitted. */
  lemma AdmitsMinimum(calls: seq<Call>, key: string, limit: int)
    requires limit >= 0 && forall c | c in calls && c.key == key :: c.limit == limit
    ensures Admitted(map[], calls, key) == Min(Charges(calls, key), limit)
  {
    AdmittedFrom(map[], calls, key, limit);
  }

  predicate Within(c: Call, who: Client, lo: nat, hi: nat) { c.who == who && lo <= c.now < hi }

  /** Admitted calls of one client with `lo <= now < hi`. */
  function AdmittedIn(m: Counts, calls: seq<Call>, who: Client, lo: nat, hi: nat): nat
    decreases calls
  {
    if calls == [] then 0
    else One(Within(calls[0], who, lo, hi) && Allowed(calls[0], MemReply(m, calls[0])))
         + AdmittedIn(MemNext(m, calls[0]), calls[1..], who, lo, hi)
  }

  function Room(m: Counts, key: string, limit: int): nat {
    if CountOf(m, key) < limit then limit - CountOf(m, key) else 0
  }

  /** A charge never adds room, and one that is let through takes up one unit. */
  lemma ChargeRoom(m: Counts, c: Call, key: string, limit: int)
    ensures Room(MemNext(m, c), key, limit) <= Room(m, key, limit)
    ensures c.key == key && c.limit == limit && Allowed(c, MemReply(m, c)) ==> Room(MemNext(m, c), key, limit) == Room(m, key, limit) - 1
  {
  }

  lemma SpanWindows(lo: nat, now: nat, windowSeconds: nat)
    requires windowSeconds > 0 && lo <= now < lo + windowSeconds * 1000
    ensures WindowAt(lo, windowSeconds) <= WindowAt(now, windowSeconds) <= WindowAt(lo, windowSeconds) + 1
  {
    var v, w := WindowAt(lo, windowSeconds), WindowAt(now, windowSeconds);
    QuotientBounds(lo / 1000, windowSeconds);
    QuotientBounds(now / 1000, windowSeconds);
    assert (v + 2) * windowSeconds == (v + 1) * windowSeconds + windowSeconds;
    CancelFactor(w, v + 2, windowSeconds);
    CancelFactor(v, w + 1, windowSeconds);
  }

  /** Calls counted by `Within` charge one of two keys, with one limit. */
  predicate TwoKeys(calls: seq<Call>, who: Client, lo: nat, hi: nat, k0: string, k1: string, limit: int) {
    forall c | c in calls && Within(c, who, lo, hi) :: c.limit == limit && (c.key == k0 || c.key == k1)
  }

  lemma {:induction false} TwoKeysBound(m: Counts, calls: seq<Call>, who: Client, lo: nat, hi: nat, k0: string, k1: string, limit: int)
    requires TwoKeys(calls, who, lo, hi, k0, k1, limit)
    ensures AdmittedIn(m, calls, who, lo, hi) <= Room(m, k0, limit) + Room(m, k1, limit)
    decreases calls
  {
    if calls != [] {
      TwoKeysBound(MemNext(m, calls[0]), calls[1..], who, lo, hi, k0, k1, limit);
    }
  }

  /** Any span of one window length admits at most twice the limit. */
  lemma SpanBound(calls: seq<Call>, who: Client, limit: int, windowSeconds: nat, lo: nat, hi: nat)
    requires forall c | c in calls :: Issued(c) && (c.who == who ==> c.limit == limit && c.windowSeconds == windowSeconds)
    requires limit >= 0 && windowSeconds > 0 && hi <= lo + windowSeconds * 1000
    ensures AdmittedIn(map[], calls, who, lo, hi) <= 2 * limit
  {
    var w := WindowAt(lo, windowSeconds);
    var k0, k1 := Key(BucketIn(who, w)), Key(BucketIn(who, w + 1));
    forall c | c in calls && Within(c, who, lo, hi) ensures c.limit == limit && (c.key == k0 || c.key == k1) {
      SpanWindows(lo, c.now, windowSeconds);
    }
    TwoKeysBound(map[], calls, who, lo, hi, k0, k1, limit);
  }

  function Burst(c: Call, n: nat): seq<Call> {
    if n == 0 then [] else [c] + Burst(c, n - 1)
  }

  function ChargedBy(m: Counts, key: string, n: nat): Counts {
    if n == 0 then m else m[key := CountOf(m, key) + n]
  }

  lemma ChargedStep(m: Counts, c: Call, n: nat)
    ensures ChargedBy(MemNext(m, c), c.key, n) == ChargedBy(m, c.key, n + 1)
  {
  }

  lemma AdmittedCons(m: Counts, c: Call, rest: seq<Call>, who: Client, lo: nat, hi: nat)
    ensures AdmittedIn(m, [c] + rest, who, lo, hi)
         == One(Within(c, who, lo, hi) && Allowed(c, MemReply(m, c))) + AdmittedIn(MemNext(m, c), rest, who, lo, hi)
  {
    assert ([c] + rest)[1..] == rest;
  }

  lemma {:induction false} BurstAdmitted(m: Counts, c: Call, n: nat, rest: seq<Call>, lo: nat, hi: nat)
    requires lo <= c.now < hi && CountOf(m, c.key) + n <= c.limit
    ensures AdmittedIn(m, Burst(c, n) + rest, c.who, lo, hi)
         == n + AdmittedIn(ChargedBy(m, c.key, n), rest, c.who, lo, hi)
    decreases n
  {
    if n == 0 {
      assert Burst(c, n) + rest == rest;
    } else {
      BurstAdmitted(MemNext(m, c), c, n - 1, rest, lo, hi);
      ChargedStep(m, c, n - 1);
      AdmittedCons(m, c, Burst(c, n - 1) + rest, c.who, lo, hi);
      assert Burst(c, n) + rest == [c] + (Burst(c, n - 1) + rest);
    }
  }

  lemma TwoBursts(a: Call, b: Call, n: nat, lo: nat, hi: nat)
    requires a.who == b.who && a.key != b.key && a.limit == b.limit == n
    requires lo <= a.now < hi && lo <= b.now < hi
    ensures AdmittedIn(map[], Burst(a, n) + (Burst(b, n) + []), a.who, lo, hi) == 2 * n
  {
    var m: Counts := ChargedBy(map[], a.key, n);
    BurstAdmitted(map[], a, n, Burst(b, n) + [], lo, hi);
    BurstAdmitted(m, b, n, [], lo, hi);
  }

  /** Twice the limit is reached: a burst just before a window boundary and one just after. */
  lemma SpanBoundTight(who: Client, limit: nat, windowSeconds: nat)
    requires windowSeconds > 0 && ColonFree(who.keyHash)
    ensures var t := windowSeconds * 1000;
            var a := Call(who, limit, windowSeconds, t - 1, Key(BucketIn(who, 0)));
            var b := Call(who, limit, windowSeconds, t, Key(BucketIn(who, 1)));
            Issued(a) && Issued(b)
            && AdmittedIn(map[], Burst(a, limit) + (Burst(b, limit) + []), who, t - 1, t + 1) == 2 * limit
  {
    var t := windowSeconds * 1000;
    assert (t - 1) / 1000 == windowSeconds - 1 && t / 1000 == windowSeconds;
    assert (windowSeconds - 1) / windowSeconds == 0 && windowSeconds / windowSeconds == 1;
    KeyEqualIff(BucketIn(who, 0), BucketIn(who, 1));
    TwoBursts(Call(who, limit, windowSeconds, t - 1, Key(BucketIn(who, 0))),
              Call(who, limit, windowSeconds, t, Key(BucketIn(who, 1))), limit, t - 1, t + 1);
  }
}
