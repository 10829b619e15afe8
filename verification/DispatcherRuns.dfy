/** The drain of the audit dispatcher over whole runs, and its sequential code as schedules of
    the step system in `Dispatcher`. */
module DispatcherRuns {
  import opened Counting
  import opened Dispatcher

  // ----- the drain -----

  /** The steps between states `i` and `j` that the consumer took: each of them, and no other
      step, changes the consumer. */
  function Moves(run: seq<State>, i: nat, j: nat): nat
    requires i <= j < |run|
    decreases j - i
  {
    if i == j then 0 else Moves(run, i, j - 1) + One(run[j].consumer != run[j - 1].consumer)
  }

  lemma MovesAreConsumerSteps(s: State, c: Config, step: Step)
    requires Enabled(s, step)
    ensures Next(s, c, step).consumer != s.consumer <==> ConsumerStep(step)
  {
  }

  lemma StepUsesWork(s: State, s': State, c: Config)
    requires QueueInv(s, c) && s.closed && Leads(s, s', c)
    ensures s'.closed && Work(s) == Work(s') + One(s'.consumer != s.consumer)
  {
    var step :| Enabled(s, step) && s' == Next(s, c, step);
    MovesAreConsumerSteps(s, c, step);
    if step.Receive? {
      ReceiveWork(s, c);
    } else {
      StepWork(s, c, step);
    }
  }

  lemma {:induction false} WorkUsed(run: seq<State>, c: Config, i: nat, j: nat)
    requires IsRun(run, c) && i <= j < |run| && run[i].closed
    ensures run[j].closed && Work(run[i]) == Work(run[j]) + Moves(run, i, j)
    decreases j - i
  {
    if i < j {
      WorkUsed(run, c, i, j - 1);
      RunUsesWork(run, c, j - 1);
    }
  }

  lemma RunUsesWork(run: seq<State>, c: Config, k: nat)
    requires IsRun(run, c) && k < |run| - 1 && run[k].closed
    ensures run[k + 1].closed && Work(run[k]) == Work(run[k + 1]) + One(run[k + 1].consumer != run[k].consumer)
  {
    RunInv(run, c, k);
    assert StepAt(run, c, k);
    StepUsesWork(run[k], run[k + 1], c);
  }

  /** After the close, in every stretch of every run: the consumer takes at most `Work` steps,
      and it has exited exactly when it has taken that many. */
  lemma DrainBound(run: seq<State>, c: Config, i: nat, j: nat)
    requires IsRun(run, c) && i <= j < |run| && run[i].closed
    ensures Moves(run, i, j) <= Work(run[i])
    ensures run[j].consumer.Exited? <==> Moves(run, i, j) == Work(run[i])
  {
    WorkUsed(run, c, i, j);
    RunInv(run, c, j);
    WorkLeft(run[j], c);
  }

  // ----- schedules -----

  /** The steps are enabled one after the other and end in `s'`. */
  ghost predicate Ends(s: State, c: Config, steps: seq<Step>, s': State)
    decreases |steps|
  {
    if steps == [] then s == s' else Enabled(s, steps[0]) && Ends(Next(s, c, steps[0]), c, steps[1..], s')
  }

  lemma EndsCons(s: State, c: Config, x: Step, s1: State, rest: seq<Step>, s': State)
    requires Enabled(s, x) && s1 == Next(s, c, x) && Ends(s1, c, rest, s')
    ensures Ends(s, c, [x] + rest, s')
  {
    assert ([x] + rest)[1..] == rest;
  }

  lemma {:induction false} EndsConcat(s: State, c: Config, a: seq<Step>, s1: State, b: seq<Step>, s': State)
    requires Ends(s, c, a, s1) && Ends(s1, c, b, s')
    ensures Ends(s, c, a + b, s')
    decreases |a|
  {
    if a == [] {
      assert a + b == b;
    } else {
      EndsConcat(Next(s, c, a[0]), c, a[1..], s1, b, s');
      assert (a + b)[1..] == a[1..] + b;
    }
  }

  /** What `AuditDispatcher.Log` does to the dispatcher's own state. */
  ghost predicate LoggedBy(s: State, s': State, c: Config, e: Event) {
    (if |s.queue| < c.capacity then s'.queue == s.queue + [e] && s'.dropped == s.dropped
     else s'.queue == s.queue && s'.dropped == s.dropped + 1)
    && s'.blocked == s.blocked + One(Blocks(e)) && s'.allowed == s.allowed + One(!Blocks(e))
    && s'.closed == s.closed && s'.consumer == s.consumer && s'.sent == s.sent && s'.offered == s.offered
  }

  lemma FromDrop(s: State, c: Config, t: Tid, e: Event) returns (steps: seq<Step>, s': State)
    requires t in s.logs && s.logs[t] == AtDrop(e)
    ensures Ends(s, c, steps, s') && s' == s.(dropped := s.dropped + 1, logs := s.logs[t := Logged(e, false)])
  {
    s' := Next(s, c, GoLog(t));
    assert Ends(s', c, [], s');
    EndsCons(s, c, GoLog(t), s', [], s');
    steps := [GoLog(t)] + [];
  }

  lemma FromSend(s: State, c: Config, t: Tid, e: Event) returns (steps: seq<Step>, s': State)
    requires t in s.logs && s.logs[t] == AtSend(e)
    ensures Ends(s, c, steps, s') && s'.blocked == s.blocked && s'.allowed == s.allowed
    ensures if |s.queue| < c.capacity then s'.queue == s.queue + [e] && s'.dropped == s.dropped
            else s'.queue == s.queue && s'.dropped == s.dropped + 1
    ensures s'.closed == s.closed && s'.consumer == s.consumer && s'.sent == s.sent && s'.offered == s.offered
  {
    var s1, rest := Next(s, c, GoLog(t)), [];
    if |s.queue| < c.capacity {
      s' := s1;
      assert Ends(s1, c, [], s');
    } else {
      rest, s' := FromDrop(s1, c, t, e);
    }
    EndsCons(s, c, GoLog(t), s1, rest, s');
    steps := [GoLog(t)] + rest;
  }

  /** `AuditDispatcher.Log` is a schedule: run without interruption, a `Log` call has exactly
      the effect of the method. */
  lemma LogIsASchedule(s: State, c: Config, t: Tid, event: Event, now: int) returns (steps: seq<Step>, s': State)
    requires t !in s.logs && |s.shutdowns| == 0
    ensures Ends(s, c, steps, s') && LoggedBy(s, s', c, Stamped(event, now))
  {
    var e := Stamped(event, now);
    var s1 := Next(s, c, BeginLog(t, event, now));
    var s2 := Next(s1, c, GoLog(t));
    var rest;
    rest, s' := FromSend(s2, c, t, e);
    EndsCons(s1, c, GoLog(t), s2, rest, s');
    EndsCons(s, c, BeginLog(t, event, now), s1, [GoLog(t)] + rest, s');
    steps := [BeginLog(t, event, now)] + ([GoLog(t)] + rest);
  }

  /** What `AuditDispatcher.Write` does, from the point where the first `k` sinks were offered the event. */
  ghost predicate WrittenBy(s: State, s': State, e: Event, k: nat, takes: nat -> bool) {
    |s'.offered| == |s.offered|
    && (forall j | 0 <= j < |s.offered| :: s'.offered[j] == if j < k then s.offered[j] else s.offered[j] + [e])
    && s'.sent == s.sent + One(Reaches(takes, |s.offered|))
    && s'.consumer == Idle && s'.queue == s.queue && s'.closed == s.closed
  }

  lemma {:induction false} FromOffer(s: State, c: Config, e: Event, k: nat, takes: nat -> bool) returns (steps: seq<Step>, s': State)
    requires k <= |s.offered| && s.consumer == Writing(e, k, Reaches(takes, k))
    ensures Ends(s, c, steps, s') && WrittenBy(s, s', e, k, takes)
    decreases |s.offered| - k
  {
    if k == |s.offered| {
      s' := Next(s, c, Finish);
      assert Ends(s', c, [], s');
      EndsCons(s, c, Finish, s', [], s');
      steps := [Finish] + [];
    } else {
      var s1 := Next(s, c, Offer(takes(k)));
      var rest;
      rest, s' := FromOffer(s1, c, e, k + 1, takes);
      EndsCons(s, c, Offer(takes(k)), s1, rest, s');
      steps := [Offer(takes(k))] + rest;
    }
  }

  /** What `AuditDispatcher.Run` does, when `n` events were written before. */
  ghost predicate DrainedBy(s: State, s': State, takes: nat -> nat -> bool, n: nat) {
    s'.queue == [] && s'.consumer == Exited && |s'.offered| == |s.offered|
    && (forall k | 0 <= k < |s.offered| :: s'.offered[k] == s.offered[k] + s.queue)
    && s'.sent - s.sent == Delivered(takes, |s.offered|, n + |s.queue|) - Delivered(takes, |s.offered|, n)
  }

  /** The first queued event has been written. */
  ghost predicate FirstWritten(s: State, s': State, takes: nat -> bool) {
    s.queue != [] && s'.consumer == Idle && s'.queue == s.queue[1..] && s'.closed == s.closed
    && |s'.offered| == |s.offered| && (forall k | 0 <= k < |s.offered| :: s'.offered[k] == s.offered[k] + [s.queue[0]])
    && s'.sent == s.sent + One(Reaches(takes, |s.offered|))
  }

  lemma DrainedCons(s: State, s1: State, s': State, takes: nat -> nat -> bool, n: nat)
    requires FirstWritten(s, s1, takes(n)) && DrainedBy(s1, s', takes, n + 1)
    ensures DrainedBy(s, s', takes, n)
  {
    assert s.queue == [s.queue[0]] + s.queue[1..];
    assert Delivered(takes, |s.offered|, n + 1) == Delivered(takes, |s.offered|, n) + One(Reaches(takes(n), |s.offered|));
  }

  lemma WriteNext(s: State, c: Config, takes: nat -> bool) returns (steps: seq<Step>, s': State)
    requires s.consumer == Idle && s.queue != []
    ensures Ends(s, c, steps, s') && FirstWritten(s, s', takes)
  {
    var s1 := Next(s, c, Receive);
    var rest;
    rest, s' := FromOffer(s1, c, s.queue[0], 0, takes);
    EndsCons(s, c, Receive, s1, rest, s');
    steps := [Receive] + rest;
  }

  lemma {:induction false} FromIdle(s: State, c: Config, takes: nat -> nat -> bool, n: nat) returns (steps: seq<Step>, s': State)
    requires s.closed && s.consumer == Idle
    ensures Ends(s, c, steps, s') && DrainedBy(s, s', takes, n)
    decreases |s.queue|
  {
    if s.queue == [] {
      s' := Next(s, c, Exit);
      assert Ends(s', c, [], s');
      EndsCons(s, c, Exit, s', [], s');
      steps := [Exit] + [];
    } else {
      var first, s1 := WriteNext(s, c, takes(n));
      var rest;
      rest, s' := FromIdle(s1, c, takes, n + 1);
      EndsConcat(s, c, first, s1, rest, s');
      DrainedCons(s, s1, s', takes, n);
      steps := first + rest;
    }
  }

  /** `AuditDispatcher.Run` is a schedule: from every closed state with an idle consumer, the
      drain run without interruption ends with exactly the effect of the method. */
  lemma RunIsASchedule(s: State, c: Config, takes: nat -> nat -> bool) returns (steps: seq<Step>, s': State)
    requires s.closed && s.consumer == Idle
    ensures Ends(s, c, steps, s') && s'.queue == [] && s'.consumer == Exited && |s'.offered| == |s.offered|
    ensures forall k | 0 <= k < |s.offered| :: s'.offered[k] == s.offered[k] + s.queue
    ensures s'.sent == s.sent + Delivered(takes, |s.offered|, |s.queue|)
  {
    steps, s' := FromIdle(s, c, takes, 0);
  }
}
