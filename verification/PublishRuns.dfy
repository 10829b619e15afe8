/** Runs of the draft/publish protocol that do happen: a publish can be carried through, and
    the runs that show what the protocol does not promise. */
module PublishRuns {
  import opened Text
  import opened Snapshot
  import opened Publish
  import opened PublishSafety
  import opened PublishTheorems

  function Last(run: seq<State>): State
    requires |run| > 0
  {
    run[|run| - 1]
  }

  /** A timestamp handed out by the step is later than all before it. */
  ghost predicate RisingStep(s: State, s': State) {
    forall x, y | x in s'.stamps && x !in s.stamps && y in s.stamps :: y < x
  }

  ghost predicate RisingAt(run: seq<State>, i: int)
    requires 0 <= i < |run| - 1
  {
    RisingStep(run[i], run[i + 1])
  }

  /** Timestamps increase in the order in which they are handed out. */
  ghost predicate Rising(run: seq<State>) {
    forall i | 0 <= i < |run| - 1 :: RisingAt(run, i)
  }

  ghost predicate Timed(c: Checks, run: seq<State>) { IsRun(c, run) && Rising(run) }

  /** A longer run, whose further timestamps increase if those so far do. */
  ghost predicate Continues(c: Checks, run: seq<State>, run': seq<State>) {
    IsRun(c, run') && run <= run' && (Rising(run) ==> Rising(run'))
  }

  lemma Append(c: Checks, run: seq<State>, s': State)
    requires IsRun(c, run) && Leads(c, Last(run), s') && RisingStep(Last(run), s')
    ensures Continues(c, run, run + [s']) && Last(run + [s']) == s'
  {
    var run' := run + [s'];
    forall i | 0 <= i < |run'| - 1 ensures StepAt(c, run', i) {
      if i < |run| - 1 {
        assert StepAt(c, run, i);
      }
    }
    forall i | 0 <= i < |run'| - 1 && Rising(run) ensures RisingAt(run', i) {
      if i < |run| - 1 {
        assert RisingAt(run, i);
      }
    }
  }

  /** A new request arrives. */
  lemma StartCall(c: Checks, run: seq<State>, t: Tid, tenant: Tenant, req: Request) returns (run': seq<State>)
    requires IsRun(c, run) && t !in Last(run).calls
    ensures Continues(c, run, run')
    ensures Last(run') == Last(run).(calls := Last(run).calls[t := Call(tenant, Received(c, tenant, req))])
  {
    var s := Last(run);
    assert Enabled(s, Start(t, tenant, req));
    Append(c, run, Next(c, s, Start(t, tenant, req)));
    run' := run + [Next(c, s, Start(t, tenant, req))];
  }

  /** The call can take its next statement, given what the queries return. */
  ghost predicate CanGo(s: State, t: Tid, number: int, origin: Id) {
    t in s.calls
    && var st := s.calls[t].stage;
       !st.Finished?
       && (Waits(st) && HasPolicy(s.db, s.calls[t].tenant, st.policy) ==> st.policy !in s.locks)
       && (st.PublishLocked? ==> IsNextNumber(s.db, st.policy, number))
       && (st.PublishStamped? ==> IsPrimaryOrigin(s.db, st.row.app, origin))
  }

  lemma GoCall(c: Checks, run: seq<State>, t: Tid, number: int, origin: Id) returns (run': seq<State>, ch: Choice)
    requires IsRun(c, run) && CanGo(Last(run), t, number, origin)
    ensures Continues(c, run, run') && Fresh(Last(run), ch) && ch.number == number && ch.origin == origin
    ensures After(Last(run), Last(run'), t, ch, Effects(c, Last(run), t, ch))
    ensures forall x | x in Last(run).stamps :: x < ch.ts
  {
    var s := Last(run);
    ch := FreshChoice(s, number, origin);
    assert Enabled(s, Go(t, ch));
    GoAfter(c, s, t, ch);
    Append(c, run, Next(c, s, Go(t, ch)));
    run' := run + [Next(c, s, Go(t, ch))];
  }

  lemma LastInv(c: Checks, run: seq<State>)
    requires IsRun(c, run)
    ensures Inv(c, Last(run))
  {
    RunInv(c, run, |run| - 1);
  }

  // ----- a publish carried through -----

  /** Between the states call `t` has published, and nothing else happened: `st` is the stage
      from which it committed, `Ready` when it started and `Publishes` the change of the tables. */
  ghost predicate Completed(s: State, s': State, t: Tid, st: Stage) {
    t in s.calls && s'.calls == s.calls[t := Call(s.calls[t].tenant, Finished(Succeeded))]
    && st.PublishCompiled? && s'.locks == s.locks - {st.policy}
    && Ready(s.db, s.calls[t].tenant, st) && Publishes(s.db, s'.db, st)
    && (forall x | x in s.stamps :: x in s'.stamps)
  }

  /** Call `t` has taken a statement that leaves the tables alone. */
  ghost predicate Moved(s: State, s1: State, t: Tid) {
    t in s.calls && t in s1.calls && s1.db == s.db
    && s1.calls == s.calls[t := s1.calls[t]] && s1.calls[t].tenant == s.calls[t].tenant
    && (forall x | x in s.stamps :: x in s1.stamps)
  }

  lemma AfterMoved(s: State, s1: State, t: Tid, ch: Choice, e: Effect)
    requires After(s, s1, t, ch, e) && e.db == s.db
    ensures Moved(s, s1, t)
  {
  }

  lemma CompletedBack(s: State, s1: State, s': State, t: Tid, st: Stage)
    requires Completed(s1, s', t, st) && Moved(s, s1, t) && s1.locks - {st.policy} == s.locks - {st.policy}
    ensures Completed(s, s', t, st)
  {
  }

  lemma FromCompiled(c: Checks, run: seq<State>, t: Tid) returns (run': seq<State>, st: Stage)
    requires IsRun(c, run) && t in Last(run).calls && Last(run).calls[t].stage.PublishCompiled?
    ensures Continues(c, run, run')
    ensures Completed(Last(run), Last(run'), t, st)
    ensures st.policy == Last(run).calls[t].stage.policy && st.ts == Last(run).calls[t].stage.ts
  {
    var s := Last(run);
    var tenant := s.calls[t].tenant;
    st := s.calls[t].stage;
    LastInv(c, run);
    assert SyncOK(s, t) && DataOK(c, s.db, s.calls[t]);
    var ch;
    run', ch := GoCall(c, run, t, 0, 0);
    PublishTables(c, s, t, ch);
    PublishEffect(c, s.db, s.locks, t, tenant, st, ch);
    CommitCompletes(s, Last(run'), t, ch, Effects(c, s, t, ch), st);
  }

  lemma CommitCompletes(s: State, s': State, t: Tid, ch: Choice, e: Effect, st: Stage)
    requires After(s, s', t, ch, e) && st.PublishCompiled? && Publishes(s.db, e.db, st)
    requires Ready(s.db, s.calls[t].tenant, st) && e.locks == s.locks - {st.policy} && e.stage == Finished(Succeeded)
    ensures Completed(s, s', t, st)
  {
  }

  lemma CompileNext(c: Checks, run: seq<State>, t: Tid) returns (run1: seq<State>)
    requires IsRun(c, run) && t in Last(run).calls && Last(run).calls[t].stage.PublishStamped?
    ensures Continues(c, run, run1) && Moved(Last(run), Last(run1), t) && Last(run1).locks == Last(run).locks
    ensures var st, st1 := Last(run).calls[t].stage, Last(run1).calls[t].stage;
            st1.PublishCompiled? && st1.policy == st.policy && st1.ts == st.ts
  {
    var s := Last(run);
    LastInv(c, run);
    HeldRowExists(c, s, t);
    HeldRowOwned(c, s, t);
    var o := PrimaryExists(s.db, s.calls[t].stage.row.app);
    var ch;
    run1, ch := GoCall(c, run, t, 0, o);
    CompileEffect(c, s.db, s.locks, t, s.calls[t].tenant, s.calls[t].stage, ch);
    AfterMoved(s, Last(run1), t, ch, Effects(c, s, t, ch));
  }

  lemma HeldRowOwned(c: Checks, s: State, t: Tid)
    requires RowsInv(c, s.db) && SyncInv(s) && t in s.calls && Holding(s.calls[t].stage)
    ensures HasApp(s.db, s.calls[t].stage.row.tenant, s.calls[t].stage.row.app)
  {
    assert SyncOK(s, t) && RowsOK(c, s.db, s.calls[t].stage.policy);
  }

  lemma FromStamped(c: Checks, run: seq<State>, t: Tid) returns (run': seq<State>, st: Stage)
    requires IsRun(c, run) && t in Last(run).calls && Last(run).calls[t].stage.PublishStamped?
    ensures Continues(c, run, run')
    ensures Completed(Last(run), Last(run'), t, st)
    ensures st.policy == Last(run).calls[t].stage.policy && st.ts == Last(run).calls[t].stage.ts
  {
    var run1 := CompileNext(c, run, t);
    run', st := FromCompiled(c, run1, t);
    CompletedBack(Last(run), Last(run1), Last(run'), t, st);
  }

  lemma HeldNumber(c: Checks, run: seq<State>, t: Tid)
    requires IsRun(c, run) && t in Last(run).calls && Holding(Last(run).calls[t].stage)
    ensures var db, p := Last(run).db, Last(run).calls[t].stage.policy; IsNextNumber(db, p, |Listed(db.published, p)| + 1)
  {
    LastInv(c, run);
    HeldRowExists(c, Last(run), t);
    ChainHasNext(Last(run).db, Last(run).calls[t].stage.policy);
  }

  lemma NumberNext(c: Checks, run: seq<State>, t: Tid) returns (run1: seq<State>)
    requires IsRun(c, run) && t in Last(run).calls
    requires Last(run).calls[t].stage.PublishLocked? || Last(run).calls[t].stage.PublishNumbered?
    ensures Continues(c, run, run1) && Moved(Last(run), Last(run1), t) && Last(run1).locks == Last(run).locks
    ensures var st, st1 := Last(run).calls[t].stage, Last(run1).calls[t].stage;
            (if st.PublishLocked? then st1.PublishNumbered? else st1.PublishStamped?) && st1.policy == st.policy && st1.ts == st.ts
  {
    var s := Last(run);
    HeldNumber(c, run, t);
    var ch;
    run1, ch := GoCall(c, run, t, |Listed(s.db.published, s.calls[t].stage.policy)| + 1, 0);
    NumberEffect(c, s.db, s.locks, t, s.calls[t].tenant, s.calls[t].stage, ch);
    AfterMoved(s, Last(run1), t, ch, Effects(c, s, t, ch));
  }

  lemma FromLocked(c: Checks, run: seq<State>, t: Tid) returns (run': seq<State>, st: Stage)
    requires IsRun(c, run) && t in Last(run).calls && Last(run).calls[t].stage.PublishLocked?
    ensures Continues(c, run, run')
    ensures Completed(Last(run), Last(run'), t, st)
    ensures st.policy == Last(run).calls[t].stage.policy && st.ts == Last(run).calls[t].stage.ts
  {
    var run1 := NumberNext(c, run, t);
    var run2 := NumberNext(c, run1, t);
    run', st := FromStamped(c, run2, t);
    CompletedBack(Last(run1), Last(run2), Last(run'), t, st);
    CompletedBack(Last(run), Last(run1), Last(run'), t, st);
  }

  lemma LockNext(c: Checks, run: seq<State>, t: Tid) returns (run1: seq<State>)
    requires IsRun(c, run) && t in Last(run).calls && Last(run).calls[t].stage.PublishOpen?
    requires var s := Last(run); var p := s.calls[t].stage.policy; HasPolicy(s.db, s.calls[t].tenant, p) && p !in s.locks
    ensures Continues(c, run, run1) && Moved(Last(run), Last(run1), t)
    ensures var st, st1 := Last(run).calls[t].stage, Last(run1).calls[t].stage;
            st1.PublishLocked? && st1.policy == st.policy && st1.ts == st.ts && Last(run1).locks == Last(run).locks[st.policy := t]
  {
    var s := Last(run);
    var ch;
    run1, ch := GoCall(c, run, t, 0, 0);
    assert DataOK(c, s.db, s.calls[t]);
    OpenEffect(c, s.db, s.locks, t, s.calls[t].tenant, s.calls[t].stage, ch);
    AfterMoved(s, Last(run1), t, ch, Effects(c, s, t, ch));
  }

  /** From every state of every run, a publish that has begun and finds its row free can be
      carried through: one more version, compiled from the current row, and the transaction's
      own timestamp; no other row of any table changes, and the lock is free again. */
  lemma PublishCompletes(c: Checks, run: seq<State>, t: Tid) returns (run': seq<State>, st: Stage)
    requires IsRun(c, run) && t in Last(run).calls && Last(run).calls[t].stage.PublishOpen?
    requires var s := Last(run); var p := s.calls[t].stage.policy; HasPolicy(s.db, s.calls[t].tenant, p) && p !in s.locks
    ensures Continues(c, run, run')
    ensures Completed(Last(run), Last(run'), t, st)
    ensures st.policy == Last(run).calls[t].stage.policy && st.ts == Last(run).calls[t].stage.ts
  {
    var run1 := LockNext(c, run, t);
    run', st := FromLocked(c, run1, t);
    CompletedBack(Last(run), Last(run1), Last(run'), t, st);
  }

  // ----- updated_at is not monotone -----

  /** The same tables and locks, one more call. */
  ghost predicate Joined(s: State, s': State, t: Tid, call: Call) {
    s'.db == s.db && s'.locks == s.locks && s'.calls == s.calls[t := call] && forall x | x in s.stamps :: x in s'.stamps
  }

  lemma AskedChecks(c: Checks, db: Db, locks: map<Id, Tid>, t: Tid, tenant: Tenant, p: Id, ch: Choice)
    requires HasPolicy(db, tenant, p) && c.draft(db.policies[p].draft)
    ensures Act(c, db, locks, t, tenant, PublishAsked(p), ch) == Effect(db, locks, PublishChecked(p))
  {
  }

  lemma CheckedOpens(c: Checks, db: Db, locks: map<Id, Tid>, t: Tid, tenant: Tenant, p: Id, ch: Choice)
    ensures Act(c, db, locks, t, tenant, PublishChecked(p), ch) == Effect(db, locks, PublishOpen(p, ch.ts))
  {
  }

  /** A publish request arrives and passes the handler's check. */
  lemma CheckPublish(c: Checks, run: seq<State>, t: Tid, tenant: Tenant, p: Id) returns (run': seq<State>)
    requires IsRun(c, run) && t !in Last(run).calls && HasPolicy(Last(run).db, tenant, p)
    ensures Continues(c, run, run') && Joined(Last(run), Last(run'), t, Call(tenant, PublishChecked(p)))
  {
    var run1 := StartCall(c, run, t, tenant, PublishPolicy(p));
    var s1 := Last(run1);
    DraftsStayValid(c, run1, |run1| - 1, p);
    var ch;
    run', ch := GoCall(c, run1, t, 0, 0);
    AskedChecks(c, s1.db, s1.locks, t, tenant, p, ch);
  }

  /** Then its transaction begins. */
  lemma OpenPublish(c: Checks, run: seq<State>, t: Tid, tenant: Tenant, p: Id) returns (run': seq<State>, ts: Time)
    requires IsRun(c, run) && t !in Last(run).calls && HasPolicy(Last(run).db, tenant, p)
    ensures Continues(c, run, run') && Joined(Last(run), Last(run'), t, Call(tenant, PublishOpen(p, ts)))
    ensures ts in Last(run').stamps && forall x | x in Last(run).stamps :: x < ts
  {
    var run1 := CheckPublish(c, run, t, tenant, p);
    var s1 := Last(run1);
    var ch;
    run', ch := GoCall(c, run1, t, 0, 0);
    CheckedOpens(c, s1.db, s1.locks, t, tenant, p, ch);
    ts := ch.ts;
  }

  lemma CompletedRow(s: State, s': State, t: Tid, st: Stage)
    requires Completed(s, s', t, st)
    ensures HasPolicy(s'.db, s.calls[t].tenant, st.policy) && s'.db.policies[st.policy].updatedAt == st.ts
    ensures st.policy !in s'.locks
  {
  }

  /** Two publishes of one policy have begun, `t` before `u`. */
  lemma BothOpen(c: Checks, run: seq<State>, tenant: Tenant, p: Id, t: Tid, u: Tid) returns (run': seq<State>, first: Time, second: Time)
    requires IsRun(c, run) && HasPolicy(Last(run).db, tenant, p) && t != u && t !in Last(run).calls && u !in Last(run).calls
    ensures Continues(c, run, run') && first < second && Last(run').db == Last(run).db && Last(run').locks == Last(run).locks
    ensures t in Last(run').calls && Last(run').calls[t] == Call(tenant, PublishOpen(p, first))
    ensures u in Last(run').calls && Last(run').calls[u] == Call(tenant, PublishOpen(p, second))
  {
    var run1;
    run1, first := OpenPublish(c, run, t, tenant, p);
    run', second := OpenPublish(c, run1, u, tenant, p);
  }

  /** Timestamps are handed out in increasing order, and still a policy's `updated_at` runs
      backwards: of two overlapping publishes the one that began first may commit last. */
  lemma UpdatedAtRunsBack(c: Checks, run: seq<State>, tenant: Tenant, p: Id, t: Tid, u: Tid)
    returns (run': seq<State>, i: nat)
    requires Timed(c, run) && HasPolicy(Last(run).db, tenant, p) && p !in Last(run).locks
    requires t != u && t !in Last(run).calls && u !in Last(run).calls
    ensures Timed(c, run') && run <= run' && i < |run'| - 1 && p in run'[i].db.policies && p in Last(run').db.policies
    ensures Last(run').db.policies[p].updatedAt < run'[i].db.policies[p].updatedAt
  {
    var run2, first, second := BothOpen(c, run, tenant, p, t, u);
    var run3, done := PublishCompletes(c, run2, u);
    CompletedRow(Last(run2), Last(run3), u, done);
    i := |run3| - 1;
    run', done := PublishCompletes(c, run3, t);
    CompletedRow(Last(run3), Last(run'), t, done);
    assert run'[i] == Last(run3);
  }

  // ----- when a commit lowers updated_at -----

  /** A step hands out at most one timestamp and takes none back. */
  lemma StampStep(c: Checks, s: State, s': State)
    requires Leads(c, s, s')
    ensures forall x | x in s.stamps :: x in s'.stamps
    ensures forall x, y | x in s'.stamps && y in s'.stamps && x !in s.stamps && y !in s.stamps :: x == y
  {
    var step: Step :| Enabled(s, step) && s' == Next(c, s, step);
  }

  lemma {:induction false} StampsStay(c: Checks, run: seq<State>, i: nat, j: nat, x: Time)
    requires IsRun(c, run) && i <= j < |run| && x in run[i].stamps
    ensures x in run[j].stamps
    decreases j - i
  {
    if i < j {
      StampsStay(c, run, i, j - 1, x);
      assert StepAt(c, run, j - 1);
      StampStep(c, run[j - 1], run[j]);
    }
  }

  /** A timestamp handed out after state `i` is later than every one in it. */
  lemma {:induction false} LaterStamp(c: Checks, run: seq<State>, i: nat, j: nat, x: Time, y: Time)
    requires Timed(c, run) && i <= j < |run| && x in run[i].stamps && y !in run[i].stamps && y in run[j].stamps
    ensures x < y
    decreases j - i
  {
    assert i < j;
    if y in run[j - 1].stamps {
      LaterStamp(c, run, i, j - 1, x, y);
    } else {
      StampsStay(c, run, i, j - 1, x);
      assert RisingAt(run, j - 1);
    }
  }

  /** The call is at the statement that writes its policy's row. */
  predicate Writing(st: Stage) { st.EditLocked? || st.PublishCompiled? }

  /** A successful commit puts the transaction's own timestamp, new to the row, in place of one handed out before. */
  lemma CommitStamps(c: Checks, s: State, t: Tid, ch: Choice)
    requires Inv(c, s) && Enabled(s, Go(t, ch)) && Writing(s.calls[t].stage)
    requires Next(c, s, Go(t, ch)).calls[t].stage == Finished(Succeeded)
    ensures var p, ts, s' := s.calls[t].stage.policy, s.calls[t].stage.ts, Next(c, s, Go(t, ch));
            p in s.db.policies && p in s'.db.policies && s'.db.policies[p].updatedAt == ts
            && s.db.policies[p].updatedAt != ts && s.db.policies[p].updatedAt in s.stamps
  {
    var st := s.calls[t].stage;
    assert SyncOK(s, t) && DataOK(c, s.db, s.calls[t]);
    GoAfter(c, s, t, ch);
    CurrentStamp(c, s, t);
    if st.EditLocked? {
      EditEffect(c, s.db, s.locks, t, s.calls[t].tenant, st, ch);
    } else {
      PublishTables(c, s, t, ch);
      PublishEffect(c, s.db, s.locks, t, s.calls[t].tenant, st, ch);
    }
  }

  lemma CurrentStamp(c: Checks, s: State, t: Tid)
    requires RowsInv(c, s.db) && IssuedInv(s) && t in s.calls && SyncOK(s, t) && Writing(s.calls[t].stage)
    ensures var p, ts := s.calls[t].stage.policy, s.calls[t].stage.ts;
            p in s.db.policies && s.db.policies[p].updatedAt != ts && s.db.policies[p].updatedAt in s.stamps
  {
    var p := s.calls[t].stage.policy;
    assert RowsOK(c, s.db, p);
    var rows := s.db.rows[p];
    assert rows[|rows| - 1].updatedAt == s.db.policies[p].updatedAt;
  }

  /** With timestamps handed out in increasing order, a commit lowers a policy's `updated_at`
      exactly when the row it replaces was written by a transaction that began after its own:
      the row's timestamp was not yet handed out when the transaction got its own in state `k + 1`. */
  lemma CommitLowersIff(c: Checks, run: seq<State>, k: nat, j: nat, t: Tid, ch: Choice)
    requires Timed(c, run) && k < j < |run| - 1 && Enabled(run[j], Go(t, ch)) && run[j + 1] == Next(c, run[j], Go(t, ch))
    requires Writing(run[j].calls[t].stage) && run[j + 1].calls[t].stage == Finished(Succeeded)
    requires run[j].calls[t].stage.ts !in run[k].stamps && run[j].calls[t].stage.ts in run[k + 1].stamps
    ensures var p := run[j].calls[t].stage.policy;
            p in run[j].db.policies && p in run[j + 1].db.policies
            && (run[j + 1].db.policies[p].updatedAt < run[j].db.policies[p].updatedAt
                <==> run[j].db.policies[p].updatedAt !in run[k + 1].stamps)
  {
    RunInv(c, run, j);
    CommitStamps(c, run[j], t, ch);
    OrderOfStamps(c, run, k, j, run[j].calls[t].stage.ts, run[j].db.policies[run[j].calls[t].stage.policy].updatedAt);
  }

  /** `y` is later than the timestamp handed out between states `k` and `k + 1` exactly when it was not yet there. */
  lemma OrderOfStamps(c: Checks, run: seq<State>, k: nat, j: nat, ts: Time, y: Time)
    requires Timed(c, run) && k < j < |run| && ts !in run[k].stamps && ts in run[k + 1].stamps && y in run[j].stamps && y != ts
    ensures ts < y <==> y !in run[k + 1].stamps
  {
    if y in run[k + 1].stamps {
      assert StepAt(c, run, k) && RisingAt(run, k);
      StampStep(c, run[k], run[k + 1]);
    } else {
      LaterStamp(c, run, k + 1, j, ts, y);
    }
  }

  /** Every timestamp in use was handed out by some step of the run. */
  lemma {:induction false} StampIssued(c: Checks, run: seq<State>, j: nat, ts: Time) returns (k: nat)
    requires IsRun(c, run) && j < |run| && ts in run[j].stamps
    ensures k < j && ts !in run[k].stamps && ts in run[k + 1].stamps
  {
    assert j > 0;
    if ts in run[j - 1].stamps {
      k := StampIssued(c, run, j - 1, ts);
    } else {
      k := j - 1;
    }
  }

  // ----- the beginning -----

  const NOTHING: State := State(EMPTY_DB, map[], map[], map[], map[])

  lemma EmptyRun(c: Checks)
    ensures Timed(c, [NOTHING])
  {
  }

  lemma FreeSlugInserts(c: Checks, db: Db, locks: map<Id, Tid>, t: Tid, tenant: Tenant, st: Stage, ch: Choice)
    requires st.AppAsked? && !SlugTaken(db, tenant, st.slug)
    ensures Act(c, db, locks, t, tenant, st, ch)
         == Effect(InsertApp(db, tenant, st.slug, st.info, st.url, ch.id, ch.id2, ch.ts), locks, Finished(Succeeded))
  {
  }

  /** A tenant creates an app whose slug is free. */
  lemma NewApp(c: Checks, run: seq<State>, t: Tid, tenant: Tenant, slug: string, info: AppInfo, url: string)
    returns (run': seq<State>, a: Id)
    requires IsRun(c, run) && t !in Last(run).calls && !SlugTaken(Last(run).db, tenant, slug)
    ensures Continues(c, run, run') && HasApp(Last(run').db, tenant, a) && Last(run').db.apps[a].info == info
    ensures var s, s' := Last(run), Last(run');
            s'.calls == s.calls[t := Call(tenant, Finished(Succeeded))] && s'.locks == s.locks && s'.db.policies == s.db.policies
  {
    var run1 := StartCall(c, run, t, tenant, CreateApp("", slug, info, url));
    var s1 := Last(run1);
    var ch;
    run', ch := GoCall(c, run1, t, 0, 0);
    FreeSlugInserts(c, s1.db, s1.locks, t, tenant, AppAsked(slug, info, url), ch);
    a := ch.id;
  }

  lemma PolicyReads(c: Checks, db: Db, locks: map<Id, Tid>, t: Tid, tenant: Tenant, a: Id, name: string, mode: string, draft: Draft, ch: Choice)
    requires HasApp(db, tenant, a)
    ensures Act(c, db, locks, t, tenant, PolicyAsked(a, name, mode, draft), ch) == Effect(db, locks, PolicyApp(a, name, mode, draft))
  {
  }

  lemma FreeNameInserts(c: Checks, db: Db, locks: map<Id, Tid>, t: Tid, tenant: Tenant, st: Stage, ch: Choice)
    requires st.PolicyApp? && !NameTaken(db, st.app, st.name, ch.id)
    ensures Act(c, db, locks, t, tenant, st, ch)
         == Effect(InsertPolicy(db, ch.id, PublishSafety.NewPolicy(tenant, st, ch.ts)), locks, Finished(Succeeded))
  {
  }

  lemma AskPolicy(c: Checks, run: seq<State>, t: Tid, tenant: Tenant, a: Id, name: string) returns (run': seq<State>)
    requires IsRun(c, run) && t !in Last(run).calls && HasApp(Last(run).db, tenant, a)
    requires name != "" && c.mode("count") && c.draft(EMPTY)
    ensures Continues(c, run, run') && Joined(Last(run), Last(run'), t, Call(tenant, PolicyApp(a, name, "count", EMPTY)))
  {
    var run1 := StartCall(c, run, t, tenant, CreatePolicy(a, name, "count", None));
    var s1 := Last(run1);
    var ch;
    run', ch := GoCall(c, run1, t, 0, 0);
    PolicyReads(c, s1.db, s1.locks, t, tenant, a, name, "count", EMPTY, ch);
  }

  /** A tenant creates the first policy of all. */
  lemma FirstPolicy(c: Checks, run: seq<State>, t: Tid, tenant: Tenant, a: Id, name: string) returns (run': seq<State>, p: Id)
    requires IsRun(c, run) && t !in Last(run).calls && HasApp(Last(run).db, tenant, a) && Last(run).db.policies == map[]
    requires name != "" && c.mode("count") && c.draft(EMPTY)
    ensures Continues(c, run, run') && HasPolicy(Last(run').db, tenant, p) && Last(run').locks == Last(run).locks
    ensures Last(run').calls == Last(run).calls[t := Call(tenant, Finished(Succeeded))]
  {
    var run1 := AskPolicy(c, run, t, tenant, a, name);
    var s1 := Last(run1);
    var ch;
    run', ch := GoCall(c, run1, t, 0, 0);
    FreeNameInserts(c, s1.db, s1.locks, t, tenant, s1.calls[t].stage, ch);
    p := ch.id;
  }

  const SHOP: AppInfo := AppInfo("shop", ["shop.test"], "active")

  /** A run with one app. */
  lemma AppRun(c: Checks) returns (run: seq<State>, a: Id)
    ensures Timed(c, run) && HasApp(Last(run).db, "t", a) && Last(run).db.apps[a].info == SHOP
    ensures Last(run).db.policies == map[] && Last(run).locks == map[] && Last(run).calls == map[0 := Call("t", Finished(Succeeded))]
  {
    EmptyRun(c);
    run, a := NewApp(c, [NOTHING], 0, "t", "shop", SHOP, "http://shop.test");
  }

  /** From the empty tables, a run with increasing timestamps in which `updated_at` runs backwards. */
  lemma BackwardsRun() returns (run: seq<State>, p: Id, i: nat)
    ensures Timed(CONTROL, run) && i < |run| - 1 && p in run[i].db.policies && p in Last(run).db.policies
    ensures Last(run).db.policies[p].updatedAt < run[i].db.policies[p].updatedAt
  {
    ControlChecks();
    var run1, a := AppRun(CONTROL);
    var run2;
    run2, p := FirstPolicy(CONTROL, run1, 1, "t", a, "main");
    run, i := UpdatedAtRunsBack(CONTROL, run2, "t", p, 2, 3);
  }

  /** The control plane's own checks pass the default mode and the empty draft. */
  lemma ControlChecks()
    ensures CONTROL.mode("count") && CONTROL.draft(EMPTY)
  {
    assert ValidMode("count") && ControlAccepts(EMPTY);
  }

  // ----- patching an app -----

  lemma PatchReads(c: Checks, db: Db, locks: map<Id, Tid>, t: Tid, tenant: Tenant, a: Id, patch: AppPatch, newUrl: Option<string>, ch: Choice)
    requires HasApp(db, tenant, a)
    ensures Act(c, db, locks, t, tenant, PatchAsked(a, patch, newUrl), ch) == Effect(db, locks, PatchRead(a, db.apps[a].info, patch, newUrl))
  {
  }

  /** A PATCH arrives and reads the app. */
  lemma ReadApp(c: Checks, run: seq<State>, t: Tid, tenant: Tenant, a: Id, patch: AppPatch, newUrl: Option<string>) returns (run': seq<State>)
    requires IsRun(c, run) && t !in Last(run).calls && HasApp(Last(run).db, tenant, a)
    ensures Continues(c, run, run')
    ensures Joined(Last(run), Last(run'), t, Call(tenant, PatchRead(a, Last(run).db.apps[a].info, patch, newUrl)))
  {
    var run1 := StartCall(c, run, t, tenant, UpdateApp(a, patch, newUrl));
    var s1 := Last(run1);
    var ch;
    run', ch := GoCall(c, run1, t, 0, 0);
    PatchReads(c, s1.db, s1.locks, t, tenant, a, patch, newUrl, ch);
  }

  /** The transaction of a PATCH: it succeeds exactly without a new origin. */
  lemma CommitPatch(c: Checks, run: seq<State>, t: Tid) returns (run': seq<State>)
    requires IsRun(c, run) && t in Last(run).calls && Last(run).calls[t].stage.PatchRead?
    ensures Continues(c, run, run') && |run'| == |run| + 1
    ensures var s, s', st := Last(run), Last(run'), Last(run).calls[t].stage;
            st.app in s.db.apps && t in s'.calls && s'.calls == s.calls[t := s'.calls[t]] && s'.calls[t].stage.Finished?
            && (s'.calls[t].stage.outcome == Succeeded <==> st.newUrl.None?)
            && s'.db == if st.newUrl.None? then s.db.(apps := s.db.apps[st.app := s.db.apps[st.app].(info := Patched(st.read, st.patch))])
                        else s.db
  {
    var s := Last(run);
    var ch := FreshChoice(s, 0, 0);
    assert Enabled(s, Go(t, ch));
    PatchSucceedsIff(c, run, |run| - 1, t, ch);
    Append(c, run, Next(c, s, Go(t, ch)));
    run' := run + [Next(c, s, Go(t, ch))];
  }

  /** A run in which a PATCH with a new origin is under way and fails. */
  lemma ReplacementRun(c: Checks) returns (run: seq<State>, t: Tid)
    ensures Timed(c, run) && |run| >= 2 && t in run[|run| - 2].calls && t in Last(run).calls
    ensures run[|run| - 2].calls[t].stage.PatchRead? && run[|run| - 2].calls[t].stage.newUrl.Some?
    ensures Last(run).calls[t].stage.Finished? && Last(run).calls[t].stage.outcome != Succeeded && Last(run).db == run[|run| - 2].db
  {
    var run1, a := AppRun(c);
    t := 1;
    var run2 := ReadApp(c, run1, t, "t", a, AppPatch(None, [], None), Some("http://new.test"));
    run := CommitPatch(c, run2, t);
    assert run[|run| - 2] == Last(run2);
  }

  /** The values the patch leaves alone are the same in both rows. */
  predicate AgreeOutside(patch: AppPatch, a: AppInfo, b: AppInfo) {
    (patch.name.None? ==> a.name == b.name)
    && (|patch.hostnames| == 0 ==> a.hostnames == b.hostnames)
    && (patch.status.None? ==> a.status == b.status)
  }

  /** A PATCH of an app without a new origin applies its change to the row as it is at the
      commit exactly when every value it does not set is still the value it read; so it does
      when the row is unchanged since its read. */
  lemma PatchAppliesIff(c: Checks, run: seq<State>, i: nat, t: Tid, ch: Choice)
    requires IsRun(c, run) && i < |run| && Enabled(run[i], Go(t, ch))
    requires run[i].calls[t].stage.PatchRead? && run[i].calls[t].stage.newUrl.None?
    ensures var s, s', st := run[i], Next(c, run[i], Go(t, ch)), run[i].calls[t].stage;
            st.app in s.db.apps && st.app in s'.db.apps
            && (s'.db.apps[st.app].info == Patched(s.db.apps[st.app].info, st.patch)
                <==> AgreeOutside(st.patch, st.read, s.db.apps[st.app].info))
            && (s.db.apps[st.app].info == st.read ==> s'.db.apps[st.app].info == Patched(s.db.apps[st.app].info, st.patch))
  {
    PatchSucceedsIff(c, run, i, t, ch);
  }

  /** What a PATCH has read is a row the app had at some point of the run. */
  lemma {:induction false} PatchReadARow(c: Checks, run: seq<State>, i: nat, t: Tid) returns (k: nat)
    requires IsRun(c, run) && i < |run| && t in run[i].calls && run[i].calls[t].stage.PatchRead?
    ensures k <= i && run[i].calls[t].stage.app in run[k].db.apps
    ensures run[k].db.apps[run[i].calls[t].stage.app].info == run[i].calls[t].stage.read
  {
    if i == 0 {
      assert false;
    } else {
      assert StepAt(c, run, i - 1);
      if t in run[i - 1].calls && run[i - 1].calls[t].stage == run[i].calls[t].stage {
        k := PatchReadARow(c, run, i - 1, t);
      } else {
        k := i - 1;
        ReadStep(c, run[k], run[i], t);
      }
    }
  }

  lemma ReadStep(c: Checks, s: State, s': State, t: Tid)
    requires Leads(c, s, s') && t in s'.calls && s'.calls[t].stage.PatchRead?
    requires !(t in s.calls && s.calls[t].stage == s'.calls[t].stage)
    ensures s'.calls[t].stage.app in s.db.apps && s.db.apps[s'.calls[t].stage.app].info == s'.calls[t].stage.read
  {
    var step: Step :| Enabled(s, step) && s' == Next(c, s, step);
    assert step.t == t && step.Go?;
    BecomesRead(c, s.db, s.locks, t, s.calls[t].tenant, s.calls[t].stage, step.choice);
  }

  lemma BecomesRead(c: Checks, db: Db, locks: map<Id, Tid>, t: Tid, tenant: Tenant, st: Stage, ch: Choice)
    ensures var e := Act(c, db, locks, t, tenant, st, ch);
            e.stage.PatchRead? ==> e.stage.app in db.apps && db.apps[e.stage.app].info == e.stage.read
  {
  }

  /** Lost updates between two PATCH calls of one app: from every state with an app, both can
      succeed while the change of the first is gone. */
  lemma LosingPatch(c: Checks, run: seq<State>, tenant: Tenant, a: Id, t: Tid, u: Tid, name: string, status: string)
    returns (run': seq<State>)
    requires IsRun(c, run) && HasApp(Last(run).db, tenant, a) && name != Last(run).db.apps[a].info.name
    requires t != u && t !in Last(run).calls && u !in Last(run).calls
    ensures Continues(c, run, run')
    ensures var s' := Last(run');
            t in s'.calls && u in s'.calls && s'.calls[t].stage == Finished(Succeeded) && s'.calls[u].stage == Finished(Succeeded)
            && a in s'.db.apps && s'.db.apps[a].info == Last(run).db.apps[a].info.(status := status)
            && s'.db.apps[a].info.name != name && s'.calls.Keys == Last(run).calls.Keys + {t, u}
            && forall x | x in Last(run).calls :: s'.calls[x] == Last(run).calls[x]
  {
    var run1 := ReadApp(c, run, t, tenant, a, AppPatch(Some(name), [], None), None);
    var run2 := ReadApp(c, run1, u, tenant, a, AppPatch(None, [], Some(status)), None);
    var run3 := CommitPatch(c, run2, t);
    run' := CommitPatch(c, run3, u);
  }

  /** Such a run, from the empty tables. */
  lemma LosingRun(c: Checks) returns (run: seq<State>, a: Id)
    ensures Timed(c, run) && Last(run).calls.Keys == {0, 1, 2} && a in Last(run).db.apps
    ensures forall t | t in Last(run).calls :: Last(run).calls[t].stage == Finished(Succeeded)
    ensures Last(run).db.apps[a].info == SHOP.(status := "disabled")
  {
    var run1;
    run1, a := AppRun(c);
    run := LosingPatch(c, run1, "t", a, 1, 2, "store", "disabled");
  }
}
