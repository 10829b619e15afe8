/** The bounded audit dispatcher (services/gateway/internal/audit/audit.go:259-345) as a step
    system: any number of concurrent `Log` and `Shutdown` calls, and the one consumer. */
module Dispatcher {
  import opened Text
  import opened Counting

  type Tid = nat

  /** `timestamp` 0 is the zero time. */
  datatype Event = Event(requestID: string, action: string, timestamp: int)

  function Stamped(e: Event, now: int): Event { if e.timestamp == 0 then e.(timestamp := now) else e }

  predicate Blocks(e: Event) { e.action == "block" || e.action == "rate_limit" }

  datatype LogPc =
    | AtCount(event: Event)
    | AtSend(event: Event)
    | AtDrop(event: Event)
    | Logged(event: Event, queued: bool)

  /** Shutdown has been called, has closed the queue, has returned nil or the context's error. */
  datatype ShutPc = AtClose | AtWait | Returned(ok: bool)

  datatype Consumer =
    | Idle
    | Writing(event: Event, sink: nat, delivered: bool)  // the sinks before `sink` were offered the event
    | Exited                                             // `done` is closed

  /** `accepted`, `offered` and `outcomes` record what was put on the queue, what each sink was
      offered, and whether each written event reached some sink. */
  datatype State = State(
    queue: seq<Event>,
    closed: bool,
    consumer: Consumer,
    sent: nat,
    dropped: nat,
    blocked: nat,
    allowed: nat,
    logs: map<Tid, LogPc>,
    shutdowns: map<Tid, ShutPc>,
    accepted: seq<Event>,
    offered: seq<seq<Event>>,
    outcomes: seq<bool>)

  datatype Config = Config(capacity: int, sinks: int)

  datatype ConfigError = BadQueueSize | NoSinks

  /** audit.go:269-288 */
  function NewDispatcher(queueSize: int, sinks: int): (r: Result<Config, ConfigError>)
    ensures r.Ok? <==> queueSize > 0 && sinks > 0
    ensures r.Ok? ==> r.value == Config(queueSize, sinks)
  {
    if queueSize <= 0 then Err(BadQueueSize) else if sinks <= 0 then Err(NoSinks) else Ok(Config(queueSize, sinks))
  }

  predicate Usable(c: Config) { c.capacity > 0 && c.sinks > 0 }

  ghost predicate Init(s: State, c: Config) {
    s == State([], false, Idle, 0, 0, 0, 0, map[], map[], [], seq(if c.sinks > 0 then c.sinks else 0, _ => []), [])
  }

  datatype Step =
    | BeginLog(t: Tid, event: Event, now: int)
    | GoLog(t: Tid)
    | BeginShutdown(t: Tid)
    | Close(t: Tid)
    | Return(t: Tid)
    | Expire(t: Tid)
    | Receive
    | Offer(accepts: bool)
    | Finish
    | Exit

  ghost predicate NoneLogging(s: State) { forall t | t in s.logs :: s.logs[t].Logged? }

  /** No `Log` call runs beside or after a `Shutdown`: a send on the closed queue would panic. */
  ghost predicate Enabled(s: State, step: Step) {
    match step
    case BeginLog(t, _, _) => t !in s.logs && |s.shutdowns| == 0
    case GoLog(t) => t in s.logs && !s.logs[t].Logged?
    case BeginShutdown(t) => t !in s.shutdowns && NoneLogging(s)
    case Close(t) => t in s.shutdowns && s.shutdowns[t].AtClose?
    case Return(t) => t in s.shutdowns && s.shutdowns[t].AtWait? && s.consumer.Exited?
    case Expire(t) => t in s.shutdowns && s.shutdowns[t].AtWait?
    case Receive => s.consumer.Idle? && |s.queue| > 0
    case Offer(_) => s.consumer.Writing? && s.consumer.sink < |s.offered|
    case Finish => s.consumer.Writing? && s.consumer.sink >= |s.offered|
    case Exit => s.consumer.Idle? && s.queue == [] && s.closed
  }

  predicate ConsumerStep(step: Step) { step.Receive? || step.Offer? || step.Finish? || step.Exit? }

  /** audit.go:290-306 */
  function LogNext(s: State, c: Config, t: Tid): State
    requires t in s.logs
  {
    match s.logs[t]
    case AtCount(e) =>
      var s1 := if Blocks(e) then s.(blocked := s.blocked + 1) else s.(allowed := s.allowed + 1);
      s1.(logs := s.logs[t := AtSend(e)])
    case AtSend(e) =>
      if |s.queue| < c.capacity
      then s.(queue := s.queue + [e], accepted := s.accepted + [e], logs := s.logs[t := Logged(e, true)])
      else s.(logs := s.logs[t := AtDrop(e)])
    case AtDrop(e) => s.(dropped := s.dropped + 1, logs := s.logs[t := Logged(e, false)])
    case Logged(_, _) => s
  }

  ghost function Next(s: State, c: Config, step: Step): State
    requires Enabled(s, step)
  {
    match step
    case BeginLog(t, e, now) => s.(logs := s.logs[t := AtCount(Stamped(e, now))])
    case GoLog(t) => LogNext(s, c, t)
    case BeginShutdown(t) => s.(shutdowns := s.shutdowns[t := AtClose])
    case Close(t) => s.(closed := true, shutdowns := s.shutdowns[t := AtWait])
    case Return(t) => s.(shutdowns := s.shutdowns[t := Returned(true)])
    case Expire(t) => s.(shutdowns := s.shutdowns[t := Returned(false)])
    case Receive => s.(queue := s.queue[1..], consumer := Writing(s.queue[0], 0, false))
    case Offer(accepts) =>
      var w := s.consumer;
      s.(offered := s.offered[w.sink := s.offered[w.sink] + [w.event]],
         consumer := w.(sink := w.sink + 1, delivered := w.delivered || accepts))
    case Finish =>
      var d := s.consumer.delivered;
      s.(consumer := Idle, sent := if d then s.sent + 1 else s.sent, outcomes := s.outcomes + [d])
    case Exit => s.(consumer := Exited)
  }

  /** Some step leads from one state to the other. */
  ghost predicate Leads(s: State, s': State, c: Config) {
    exists step :: Enabled(s, step) && s' == Next(s, c, step)
  }

  ghost predicate StepAt(run: seq<State>, c: Config, i: int)
    requires 0 <= i < |run| - 1
  {
    Leads(run[i], run[i + 1], c)
  }

  ghost predicate IsRun(run: seq<State>, c: Config) {
    Usable(c) && |run| > 0 && Init(run[0], c)
    && forall i | 0 <= i < |run| - 1 :: StepAt(run, c, i)
  }

  // ----- the queue -----

  /** The number of accepted events taken off the queue. */
  function Taken(s: State): int { |s.accepted| - |s.queue| }

  /** How many accepted events sink `k` has been offered. */
  function OfferedTo(s: State, k: int): int {
    if s.consumer.Writing? && k >= s.consumer.sink then Taken(s) - 1 else Taken(s)
  }

  predicate QueueOK(s: State, c: Config) {
    |s.queue| <= c.capacity && Taken(s) >= 0 && s.queue == s.accepted[Taken(s)..]
    && (s.consumer.Writing? ==> Taken(s) > 0 && s.accepted[Taken(s) - 1] == s.consumer.event && s.consumer.sink <= c.sinks)
    && (s.consumer.Exited? ==> s.closed && s.queue == [])
  }

  predicate SinksOK(s: State, c: Config)
    requires QueueOK(s, c)
  {
    |s.offered| == c.sinks && forall k | 0 <= k < c.sinks :: s.offered[k] == s.accepted[..OfferedTo(s, k)]
  }

  function Trues(bs: seq<bool>): nat {
    if bs == [] then 0 else Trues(bs[..|bs| - 1]) + One(bs[|bs| - 1])
  }

  predicate SentOK(s: State) {
    s.sent == Trues(s.outcomes) && |s.outcomes| == Taken(s) - One(s.consumer.Writing?)
  }

  /** Once a shutdown has begun no `Log` is under way; the queue is closed by the first one. */
  ghost predicate ShutOK(s: State) {
    (|s.shutdowns| > 0 || s.closed ==> NoneLogging(s))
    && (s.closed ==> |s.shutdowns| > 0)
    && (forall t | t in s.shutdowns :: s.shutdowns[t] == Returned(true) ==> s.consumer.Exited?)
    && (forall t | t in s.shutdowns :: s.shutdowns[t] != AtClose ==> s.closed)
  }

  ghost predicate QueueInv(s: State, c: Config) {
    Usable(c) && QueueOK(s, c) && SinksOK(s, c) && SentOK(s) && ShutOK(s)
  }

  lemma SendKeepsQueue(s: State, c: Config, t: Tid)
    requires QueueInv(s, c) && t in s.logs && s.logs[t].AtSend? && |s.queue| < c.capacity
    ensures QueueInv(LogNext(s, c, t), c)
  {
    var s' := LogNext(s, c, t);
    assert !s.closed && |s.shutdowns| == 0;
    assert s'.queue == s'.accepted[Taken(s')..];
    forall k | 0 <= k < c.sinks ensures s'.offered[k] == s'.accepted[..OfferedTo(s', k)] {
      assert s.offered[k] == s.accepted[..OfferedTo(s, k)];
    }
  }

  lemma CountKeepsQueue(s: State, c: Config, t: Tid)
    requires QueueInv(s, c) && t in s.logs && !s.logs[t].Logged? && !(s.logs[t].AtSend? && |s.queue| < c.capacity)
    ensures QueueInv(LogNext(s, c, t), c)
  {
    assert !s.closed && |s.shutdowns| == 0;
  }

  lemma OfferKeepsQueue(s: State, c: Config, accepts: bool)
    requires QueueInv(s, c) && Enabled(s, Offer(accepts))
    ensures QueueInv(Next(s, c, Offer(accepts)), c)
  {
    var s', w := Next(s, c, Offer(accepts)), s.consumer;
    forall k | 0 <= k < c.sinks ensures s'.offered[k] == s'.accepted[..OfferedTo(s', k)] {
      assert s.offered[k] == s.accepted[..OfferedTo(s, k)];
      if k == w.sink {
        assert s.accepted[..Taken(s) - 1] + [w.event] == s.accepted[..Taken(s)];
      }
    }
  }

  lemma ReceiveKeepsQueue(s: State, c: Config)
    requires QueueInv(s, c) && Enabled(s, Receive)
    ensures QueueInv(Next(s, c, Receive), c)
  {
    var s' := Next(s, c, Receive);
    assert s.queue[0] == s.accepted[Taken(s)];
    assert s'.queue == s'.accepted[Taken(s')..];
    forall k | 0 <= k < c.sinks ensures s'.offered[k] == s'.accepted[..OfferedTo(s', k)] {
      assert s.offered[k] == s.accepted[..OfferedTo(s, k)];
    }
  }

  lemma TruesSnoc(bs: seq<bool>, b: bool)
    ensures Trues(bs + [b]) == Trues(bs) + One(b)
  {
    assert (bs + [b])[..|bs|] == bs;
  }

  lemma FinishSent(s: State, s': State)
    requires SentOK(s) && s.consumer.Writing? && s'.consumer.Idle? && s'.accepted == s.accepted && s'.queue == s.queue
    requires s'.outcomes == s.outcomes + [s.consumer.delivered] && s'.sent == s.sent + One(s.consumer.delivered)
    ensures SentOK(s')
  {
    TruesSnoc(s.outcomes, s.consumer.delivered);
  }

  lemma FinishSinks(s: State, s': State, c: Config)
    requires QueueOK(s, c) && SinksOK(s, c) && s.consumer.Writing? && s.consumer.sink >= c.sinks && s'.consumer.Idle?
    requires s'.accepted == s.accepted && s'.queue == s.queue && s'.offered == s.offered
    ensures QueueOK(s', c) && SinksOK(s', c)
  {
    forall k | 0 <= k < c.sinks ensures s'.offered[k] == s'.accepted[..OfferedTo(s', k)] {
      assert OfferedTo(s, k) == OfferedTo(s', k);
    }
  }

  lemma FinishKeepsQueue(s: State, c: Config)
    requires QueueInv(s, c) && Enabled(s, Finish)
    ensures QueueInv(Next(s, c, Finish), c)
  {
    var s' := Next(s, c, Finish);
    FinishSent(s, s');
    FinishSinks(s, s', c);
  }

  lemma ExitKeepsQueue(s: State, c: Config)
    requires QueueInv(s, c) && Enabled(s, Exit)
    ensures QueueInv(Next(s, c, Exit), c)
  {
    var s' := Next(s, c, Exit);
    forall k | 0 <= k < c.sinks ensures s'.offered[k] == s'.accepted[..OfferedTo(s', k)] {
      assert s.offered[k] == s.accepted[..OfferedTo(s, k)];
    }
  }

  lemma ShutKeepsQueue(s: State, c: Config, step: Step)
    requires QueueInv(s, c) && Enabled(s, step) && !ConsumerStep(step) && !step.GoLog?
    ensures QueueInv(Next(s, c, step), c)
  {
    var s' := Next(s, c, step);
    if !step.BeginLog? {
      assert step.t in s'.shutdowns;
      assert |s'.shutdowns| > 0;
    }
  }

  lemma QueueInvStep(s: State, c: Config, step: Step)
    requires QueueInv(s, c) && Enabled(s, step)
    ensures QueueInv(Next(s, c, step), c)
  {
    match step {
      case GoLog(t) =>
        if s.logs[t].AtSend? && |s.queue| < c.capacity {
          SendKeepsQueue(s, c, t);
        } else {
          CountKeepsQueue(s, c, t);
        }
      case Offer(accepts) => OfferKeepsQueue(s, c, accepts);
      case Receive => ReceiveKeepsQueue(s, c);
      case Finish => FinishKeepsQueue(s, c);
      case Exit => ExitKeepsQueue(s, c);
      case _ => ShutKeepsQueue(s, c, step);
    }
  }

  // ----- counters -----

  function Counted(): LogPc -> bool { (l: LogPc) => !l.AtCount? }

  function CountedBlocked(): LogPc -> bool { (l: LogPc) => !l.AtCount? && Blocks(l.event) }

  function CountedAllowed(): LogPc -> bool { (l: LogPc) => !l.AtCount? && !Blocks(l.event) }

  function Queued(): LogPc -> bool { (l: LogPc) => l.Logged? && l.queued }

  function Lost(): LogPc -> bool { (l: LogPc) => l.Logged? && !l.queued }

  ghost predicate CountInv(s: State) {
    s.blocked == |Select(s.logs, CountedBlocked())| && s.allowed == |Select(s.logs, CountedAllowed())|
    && |s.accepted| == |Select(s.logs, Queued())| && s.dropped == |Select(s.logs, Lost())|
  }

  /** The counters move with the one call that moved. */
  ghost predicate Accounted(s: State, s': State, t: Tid, l: LogPc) {
    s'.logs == s.logs[t := l]
    && s'.blocked == s.blocked + One(CountedBlocked()(l)) - One(t in s.logs && CountedBlocked()(s.logs[t]))
    && s'.allowed == s.allowed + One(CountedAllowed()(l)) - One(t in s.logs && CountedAllowed()(s.logs[t]))
    && |s'.accepted| == |s.accepted| + One(Queued()(l)) - One(t in s.logs && Queued()(s.logs[t]))
    && s'.dropped == s.dropped + One(Lost()(l)) - One(t in s.logs && Lost()(s.logs[t]))
  }

  lemma AccountedKeeps(s: State, s': State, t: Tid, l: LogPc)
    requires CountInv(s) && Accounted(s, s', t, l)
    ensures CountInv(s')
  {
    SelectUpdate(s.logs, t, l, CountedBlocked());
    SelectUpdate(s.logs, t, l, CountedAllowed());
    SelectUpdate(s.logs, t, l, Queued());
    SelectUpdate(s.logs, t, l, Lost());
  }

  lemma LogAccounted(s: State, c: Config, t: Tid)
    requires t in s.logs && !s.logs[t].Logged?
    ensures t in LogNext(s, c, t).logs && Accounted(s, LogNext(s, c, t), t, LogNext(s, c, t).logs[t])
  {
  }

  lemma CountInvStep(s: State, c: Config, step: Step)
    requires CountInv(s) && Enabled(s, step)
    ensures CountInv(Next(s, c, step))
  {
    match step {
      case BeginLog(t, e, now) => AccountedKeeps(s, Next(s, c, step), t, AtCount(Stamped(e, now)));
      case GoLog(t) =>
        LogAccounted(s, c, t);
        AccountedKeeps(s, Next(s, c, step), t, LogNext(s, c, t).logs[t]);
      case _ =>
    }
  }

  // ----- every run -----

  ghost predicate Inv(s: State, c: Config) { QueueInv(s, c) && CountInv(s) }

  lemma {:induction false} RunInv(run: seq<State>, c: Config, i: nat)
    requires IsRun(run, c) && i < |run|
    ensures Inv(run[i], c)
  {
    if i == 0 {
      InitInv(run[0], c);
    } else {
      RunInv(run, c, i - 1);
      assert StepAt(run, c, i - 1);
      StepInv(run[i - 1], run[i], c);
    }
  }

  lemma InitInv(s: State, c: Config)
    requires Usable(c) && Init(s, c)
    ensures Inv(s, c)
  {
    assert Select(s.logs, CountedBlocked()) == {} && Select(s.logs, CountedAllowed()) == {}
        && Select(s.logs, Queued()) == {} && Select(s.logs, Lost()) == {};
  }

  lemma StepInv(s: State, s': State, c: Config)
    requires Leads(s, s', c) && Inv(s, c)
    ensures Inv(s', c)
  {
    var step :| Enabled(s, step) && s' == Next(s, c, step);
    QueueInvStep(s, c, step);
    CountInvStep(s, c, step);
  }

  /** The queue is bounded, and every sink has been offered the accepted events in the order
      of their acceptance, each once: all that left the queue, or all but the one being written. */
  lemma OfferedInOrder(run: seq<State>, c: Config, i: nat, k: nat)
    requires IsRun(run, c) && i < |run| && k < c.sinks
    ensures |run[i].queue| <= c.capacity && |run[i].offered| == c.sinks
    ensures run[i].offered[k] <= run[i].accepted && |run[i].offered[k]| + |run[i].queue| <= |run[i].accepted| <= |run[i].offered[k]| + |run[i].queue| + 1
    ensures !run[i].consumer.Writing? ==> run[i].offered[k] + run[i].queue == run[i].accepted
  {
    RunInv(run, c, i);
    OfferedPrefix(run[i], c, k);
  }

  lemma OfferedPrefix(s: State, c: Config, k: nat)
    requires QueueOK(s, c) && SinksOK(s, c) && k < c.sinks
    ensures s.offered[k] <= s.accepted && |s.offered[k]| + |s.queue| <= |s.accepted| <= |s.offered[k]| + |s.queue| + 1
    ensures !s.consumer.Writing? ==> s.offered[k] + s.queue == s.accepted
  {
    assert s.offered[k] == s.accepted[..OfferedTo(s, k)];
    assert s.accepted == s.accepted[..Taken(s)] + s.accepted[Taken(s)..];
  }

  lemma {:induction false} TruesBound(bs: seq<bool>)
    ensures Trues(bs) <= |bs|
  {
    if bs != [] {
      TruesBound(bs[..|bs| - 1]);
    }
  }

  /** `sent` counts exactly the written events some sink took, so it never exceeds the accepted ones. */
  lemma SentBound(run: seq<State>, c: Config, i: nat)
    requires IsRun(run, c) && i < |run|
    ensures run[i].sent == Trues(run[i].outcomes) && run[i].sent <= |run[i].outcomes| <= |run[i].accepted|
  {
    RunInv(run, c, i);
    TruesBound(run[i].outcomes);
  }

  /** When no `Log` is under way, every logged event was either accepted or dropped, and was
      counted once as blocked or allowed. */
  lemma LoggedAccounted(run: seq<State>, c: Config, i: nat)
    requires IsRun(run, c) && i < |run| && NoneLogging(run[i])
    ensures |run[i].logs| == |run[i].accepted| + run[i].dropped
    ensures |run[i].logs| == run[i].blocked + run[i].allowed
  {
    RunInv(run, c, i);
    var logs := run[i].logs;
    SelectSplit(logs, Counted(), Queued(), Lost());
    SelectSplit(logs, Counted(), CountedBlocked(), CountedAllowed());
    assert Select(logs, Counted()) == logs.Keys;
    assert |logs.Keys| == |logs|;
  }

  function LoggedAs(first: string, second: string): LogPc -> bool {
    (l: LogPc) => l.event.action == first || l.event.action == second
  }

  /** The blocked counter counts exactly the logged events with the action block or rate_limit. */
  lemma BlockedAre(run: seq<State>, c: Config, i: nat)
    requires IsRun(run, c) && i < |run| && NoneLogging(run[i])
    ensures run[i].blocked == |Select(run[i].logs, LoggedAs("block", "rate_limit"))|
  {
    RunInv(run, c, i);
    assert Select(run[i].logs, CountedBlocked()) == Select(run[i].logs, LoggedAs("block", "rate_limit"));
  }

  /** A `Shutdown` that returns nil has seen every accepted event offered to every sink. */
  lemma ShutdownDrains(run: seq<State>, c: Config, i: nat, t: Tid, k: nat)
    requires IsRun(run, c) && i < |run| && t in run[i].shutdowns && run[i].shutdowns[t] == Returned(true) && k < c.sinks
    ensures |run[i].offered| == c.sinks && run[i].offered[k] == run[i].accepted && |run[i].outcomes| == |run[i].accepted|
  {
    RunInv(run, c, i);
    var s := run[i];
    assert s.offered[k] == s.accepted[..OfferedTo(s, k)];
  }

  // ----- the drain -----

  /** The consumer steps left until it exits, once the queue is closed. */
  function Work(s: State): int {
    |s.queue| * (|s.offered| + 2)
    + match s.consumer
      case Exited => 0
      case Idle => 1
      case Writing(_, sink, _) => |s.offered| - sink + 2
  }

  lemma ReceiveWork(s: State, c: Config)
    requires Enabled(s, Receive)
    ensures Work(Next(s, c, Receive)) == Work(s) - 1
  {
    var n, m := |s.queue|, |s.offered| + 2;
    assert (n - 1) * m == n * m - m;
  }

  lemma StepWork(s: State, c: Config, step: Step)
    requires QueueOK(s, c) && SinksOK(s, c) && ShutOK(s) && s.closed && Enabled(s, step) && !step.Receive?
    ensures Work(Next(s, c, step)) == Work(s) - One(ConsumerStep(step)) && Next(s, c, step).closed
  {
    assert !step.BeginLog? && !step.GoLog?;
    assert |Next(s, c, step).queue| == |s.queue| && |Next(s, c, step).offered| == |s.offered|;
  }

  lemma WorkLeft(s: State, c: Config)
    requires QueueOK(s, c) && SinksOK(s, c) && s.closed
    ensures Work(s) >= 0 && (Work(s) == 0 <==> s.consumer.Exited?)
    ensures !s.consumer.Exited? ==>
              Enabled(s, Receive) || Enabled(s, Offer(true)) || Enabled(s, Finish) || Enabled(s, Exit)
  {
    assert |s.queue| * (|s.offered| + 2) >= 0;
  }

  /** After the close the drain takes exactly `Work` consumer steps: each one uses up one, no
      other step adds any, and until the consumer exits one of them can be taken. */
  lemma DrainTerminates(run: seq<State>, c: Config, i: nat, step: Step)
    requires IsRun(run, c) && i < |run| && run[i].closed && Enabled(run[i], step)
    ensures Work(Next(run[i], c, step)) == Work(run[i]) - One(ConsumerStep(step)) && Next(run[i], c, step).closed
    ensures Work(run[i]) >= 0 && (Work(run[i]) == 0 <==> run[i].consumer.Exited?)
    ensures !run[i].consumer.Exited? ==>
              Enabled(run[i], Receive) || Enabled(run[i], Offer(true)) || Enabled(run[i], Finish) || Enabled(run[i], Exit)
  {
    RunInv(run, c, i);
    WorkLeft(run[i], c);
    if step.Receive? {
      ReceiveWork(run[i], c);
    } else {
      StepWork(run[i], c, step);
    }
  }

  // ----- the sequential code -----

  /** Some of the first `n` sinks takes the event. */
  predicate Reaches(takes: nat -> bool, n: nat) { exists k: nat | k < n :: takes(k) }

  /** How many of the first `m` events some sink takes. */
  function Delivered(takes: nat -> nat -> bool, sinks: nat, m: nat): nat {
    if m == 0 then 0 else Delivered(takes, sinks, m - 1) + One(Reaches(takes(m - 1), sinks))
  }

  /** The dispatcher's own state; `offered[k]` is what sink `k` was given. */
  class AuditDispatcher {
    const capacity: nat
    var queue: seq<Event>
    var closed: bool
    var offered: seq<seq<Event>>
    var sent: nat
    var dropped: nat
    var blocked: nat
    var allowed: nat

    constructor (c: Config)
      requires Usable(c)
      ensures capacity == c.capacity && |offered| == c.sinks && (forall k | 0 <= k < |offered| :: offered[k] == [])
      ensures queue == [] && !closed && sent == dropped == blocked == allowed == 0
    {
      capacity := c.capacity;
      queue, closed, sent, dropped, blocked, allowed := [], false, 0, 0, 0, 0;
      offered := seq(c.sinks, _ => []);
    }

    /** audit.go:290-306 */
    method Log(event: Event, now: int)
      requires !closed && |queue| <= capacity
      modifies this`queue, this`dropped, this`blocked, this`allowed
      ensures |queue| <= capacity
      ensures if |old(queue)| < capacity then queue == old(queue) + [Stamped(event, now)] && dropped == old(dropped)
              else queue == old(queue) && dropped == old(dropped) + 1
      ensures blocked == old(blocked) + One(Blocks(event)) && allowed == old(allowed) + One(!Blocks(event))
    {
      var e := event;
      if e.timestamp == 0 {
        e := e.(timestamp := now);
      }
      if e.action == "block" || e.action == "rate_limit" {
        blocked := blocked + 1;
      } else {
        allowed := allowed + 1;
      }
      if |queue| < capacity {
        queue := queue + [e];
      } else {
        dropped := dropped + 1;
      }
    }

    /** audit.go:331-345: every sink is offered the event, whatever the others answer. */
    method Write(event: Event, takes: nat -> bool)
      modifies this`offered, this`sent
      ensures |offered| == |old(offered)| && forall k | 0 <= k < |offered| :: offered[k] == old(offered)[k] + [event]
      ensures sent == old(sent) + One(Reaches(takes, |offered|))
    {
      var delivered := false;
      for k := 0 to |offered|
        modifies this`offered
        invariant |offered| == |old(offered)|
        invariant forall j | 0 <= j < k :: offered[j] == old(offered)[j] + [event]
        invariant forall j | k <= j < |offered| :: offered[j] == old(offered)[j]
        invariant delivered == Reaches(takes, k)
      {
        offered := offered[k := offered[k] + [event]];
        if takes(k) {
          delivered := true;
        }
      }
      if delivered {
        sent := sent + 1;
      }
    }

    /** audit.go:324-329 after the close: the loop ends when the queue is empty, and every sink
        has then been offered what was queued, in order. */
    method Run(takes: nat -> nat -> bool)
      requires closed
      modifies this`queue, this`offered, this`sent
      ensures queue == []
      ensures |offered| == |old(offered)| && forall k | 0 <= k < |offered| :: offered[k] == old(offered)[k] + old(queue)
      ensures sent == old(sent) + Delivered(takes, |offered|, |old(queue)|)
    {
      var n: nat := 0;
      while queue != []
        invariant 0 <= n <= |old(queue)| && queue == old(queue)[n..] && |offered| == |old(offered)|
        invariant forall k | 0 <= k < |offered| :: offered[k] == old(offered)[k] + old(queue)[..n]
        invariant sent == old(sent) + Delivered(takes, |offered|, n)
        decreases |queue|
      {
        var event := queue[0];
        queue := queue[1..];
        Write(event, takes(n));
        n := n + 1;
      }
    }
  }
}
