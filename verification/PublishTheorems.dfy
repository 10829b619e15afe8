/** The guarantees of the draft/publish protocol, over every run. */
module PublishTheorems {
  import opened Text
  import opened Snapshot
  import opened Publish
  import opened PublishSafety

  // ----- versions -----

  /** Version `v` is version `k` of policy `p`. */
  ghost predicate IsVersion(db: Db, p: Id, k: int, v: Id) {
    v in db.versions && db.versions[v].policy == p && db.versions[v].number == k
  }

  ghost predicate HasVersion(db: Db, p: Id, k: int) { exists v :: IsVersion(db, p, k, v) }

  /** The versions of policy `p` are numbered exactly 1..n, one version each, and both the
      active version and the default deployment are version n. */
  ghost predicate Contiguous(db: Db, p: Id, n: nat)
    requires p in db.policies
  {
    (forall k :: HasVersion(db, p, k) <==> 1 <= k <= n)
    && (forall k, v, w | IsVersion(db, p, k, v) && IsVersion(db, p, k, w) :: v == w)
    && if n == 0 then db.policies[p].active == None && p !in db.deployments
       else db.policies[p].active.Some? && IsVersion(db, p, n, db.policies[p].active.value)
            && p in db.deployments && db.deployments[p].version == db.policies[p].active.value
  }

  lemma ChainIsContiguous(db: Db, p: Id)
    requires ChainInv(db) && p in db.policies
    ensures Contiguous(db, p, |Listed(db.published, p)|)
  {
    assert ChainOK(db, p);
    var vs := db.published[p];
    forall k, v | IsVersion(db, p, k, v) ensures 1 <= k <= |vs| && v == vs[k - 1] {
      assert NumberOK(db, v);
    }
    forall k | 1 <= k <= |vs| ensures HasVersion(db, p, k) {
      assert IsVersion(db, p, k, vs[k - 1]);
    }
  }

  lemma VersionsAreContiguous(c: Checks, run: seq<State>, i: nat, p: Id)
    requires IsRun(c, run) && i < |run| && p in run[i].db.policies
    ensures exists n: nat :: Contiguous(run[i].db, p, n)
  {
    RunInv(c, run, i);
    ChainIsContiguous(run[i].db, p);
  }

  // ----- what never changes -----

  /** Versions, recorded rows and origins stay for good; apps keep their tenant. */
  ghost predicate Grows(db: Db, db': Db) {
    Extends(db, db') && RowsGrow(db, db')
    && (forall v | v in db.versions :: v in db'.versions && db'.versions[v] == db.versions[v])
  }

  lemma RowOpGrows(db: Db, db': Db, p: Id, row: Policy)
    requires db'.apps == db.apps && db'.origins == db.origins && db'.versions == db.versions
    requires db'.rows == db.rows[p := Listed(db.rows, p) + [row]] || (p !in db.rows && db'.rows == db.rows[p := [row]])
    ensures Grows(db, db')
  {
  }

  lemma PublishGrows(db: Db, db': Db, st: Stage)
    requires st.PublishCompiled? && st.vid !in db.versions && Publishes(db, db', st)
    ensures Grows(db, db')
  {
  }

  lemma NewAppGrows(c: Checks, s: State, t: Tid, ch: Choice)
    requires IssuedInv(s) && Enabled(s, Go(t, ch)) && s.calls[t].stage.AppAsked?
    ensures Grows(s.db, Effects(c, s, t, ch).db)
  {
    var st, tenant := s.calls[t].stage, s.calls[t].tenant;
    AppEffect(c, s.db, s.locks, t, tenant, st, ch);
    InsertAppExtends(s.db, tenant, st.slug, st.info, st.url, ch.id, ch.id2, ch.ts);
  }

  lemma PatchGrows(c: Checks, s: State, t: Tid, ch: Choice)
    requires AppsInv(s.db) && t in s.calls && s.calls[t].stage.PatchRead?
    ensures Grows(s.db, Effects(c, s, t, ch).db)
  {
    PatchEffect(c, s.db, s.locks, t, s.calls[t].tenant, s.calls[t].stage, ch);
  }

  lemma PolicyGrows(c: Checks, s: State, t: Tid, ch: Choice)
    requires RowsInv(c, s.db) && IssuedInv(s) && Enabled(s, Go(t, ch)) && s.calls[t].stage.PolicyApp?
    ensures Grows(s.db, Effects(c, s, t, ch).db)
  {
    var st, tenant := s.calls[t].stage, s.calls[t].tenant;
    PolicyEffect(c, s.db, s.locks, t, tenant, st, ch);
    RowOpGrows(s.db, InsertPolicy(s.db, ch.id, NewPolicy(tenant, st, ch.ts)), ch.id, NewPolicy(tenant, st, ch.ts));
  }

  lemma EditGrows(c: Checks, s: State, t: Tid, ch: Choice)
    requires t in s.calls && SyncOK(s, t) && s.calls[t].stage.EditLocked?
    ensures Grows(s.db, Effects(c, s, t, ch).db)
  {
    var st := s.calls[t].stage;
    var row := Edited(st.row, st.edit, st.ts);
    EditEffect(c, s.db, s.locks, t, s.calls[t].tenant, st, ch);
    RowOpGrows(s.db, WriteRow(s.db, st.policy, row), st.policy, row);
  }

  lemma WritingGrows(c: Checks, s: State, t: Tid, ch: Choice)
    requires Inv(c, s) && Enabled(s, Go(t, ch)) && Writes(s.calls[t].stage)
    ensures Grows(s.db, Effects(c, s, t, ch).db)
  {
    var st, tenant := s.calls[t].stage, s.calls[t].tenant;
    assert SyncOK(s, t) && DataOK(c, s.db, s.calls[t]);
    match st {
      case AppAsked(_, _, _) => NewAppGrows(c, s, t, ch);
      case PatchRead(_, _, _, _) => PatchGrows(c, s, t, ch);
      case PolicyApp(_, _, _, _) => PolicyGrows(c, s, t, ch);
      case EditLocked(_, _, _, _) => EditGrows(c, s, t, ch);
      case PublishCompiled(_, _, _, _, _, _) =>
        PublishTables(c, s, t, ch);
        PublishEffect(c, s.db, s.locks, t, tenant, st, ch);
        PublishGrows(s.db, Effects(c, s, t, ch).db, st);
    }
  }

  lemma StepGrows(c: Checks, s: State, step: Step)
    requires Inv(c, s) && Enabled(s, step)
    ensures Grows(s.db, Next(c, s, step).db)
  {
    match step {
      case Start(_, _, _) => StartStep(c, s, step);
      case Abort(_) => AbortStep(c, s, step);
      case Go(t, ch) =>
        GoAfter(c, s, t, ch);
        if Writes(s.calls[t].stage) {
          WritingGrows(c, s, t, ch);
        } else {
          ReadingCalls(c, s, Next(c, s, step), t, ch);
        }
    }
  }

  lemma RunStepGrows(c: Checks, run: seq<State>, k: nat)
    requires IsRun(c, run) && k < |run| - 1
    ensures Grows(run[k].db, run[k + 1].db)
  {
    RunInv(c, run, k);
    assert StepAt(c, run, k);
    var step: Step :| Enabled(run[k], step) && run[k + 1] == Next(c, run[k], step);
    StepGrows(c, run[k], step);
  }

  lemma GrowsTransitive(a: Db, b: Db, d: Db)
    requires Grows(a, b) && Grows(b, d)
    ensures Grows(a, d)
  {
  }

  /** A published version never changes, whatever else commits; neither does an origin. */
  lemma {:induction false} PublishedNeverChanges(c: Checks, run: seq<State>, i: nat, j: nat)
    requires IsRun(c, run) && i <= j < |run|
    ensures Grows(run[i].db, run[j].db)
    decreases j - i
  {
    if i < j {
      PublishedNeverChanges(c, run, i, j - 1);
      RunStepGrows(c, run, j - 1);
      GrowsTransitive(run[i].db, run[j - 1].db, run[j].db);
    }
  }

  // ----- no lost updates -----

  /** A policy has the same timestamp in two states exactly when nothing was written to it in between. */
  lemma SameStampSameRows(c: Checks, db: Db, db': Db, p: Id)
    requires RowsInv(c, db) && RowsInv(c, db') && RowsGrow(db, db') && p in db.policies && p in db'.policies
    ensures p in db.rows && p in db'.rows
    ensures db.policies[p].updatedAt == db'.policies[p].updatedAt <==> db'.rows[p] == db.rows[p]
    ensures db'.rows[p] == db.rows[p] ==> db'.policies[p] == db.policies[p]
  {
    assert RowsOK(c, db, p) && RowsOK(c, db', p);
    var n, m := |db.rows[p]| - 1, |db'.rows[p]| - 1;
    assert db'.rows[p][n] == db.rows[p][n];
    assert n == m ==> db'.rows[p] == db.rows[p];
  }

  lemma Between(db: Db, mid: Db, db': Db, p: Id)
    requires RowsGrow(db, mid) && RowsGrow(mid, db') && p in db.rows && p in db'.rows && db'.rows[p] == db.rows[p]
    ensures p in mid.rows && mid.rows[p] == db.rows[p]
  {
  }

  /** The row of policy `p` was not written between the two states. */
  ghost predicate Untouched(run: seq<State>, i: nat, j: nat, p: Id) {
    i <= j < |run| && p in run[i].db.rows
    && forall k | i <= k <= j :: p in run[k].db.rows && run[k].db.rows[p] == run[i].db.rows[p]
  }

  lemma RunRows(c: Checks, run: seq<State>, i: nat)
    requires IsRun(c, run) && i < |run|
    ensures RowsInv(c, run[i].db)
  {
    RunInv(c, run, i);
  }

  lemma LockedRow(c: Checks, run: seq<State>, j: nat, t: Tid)
    requires IsRun(c, run) && j < |run| && t in run[j].calls && run[j].calls[t].stage.EditLocked?
    ensures var s, st := run[j], run[j].calls[t].stage;
            HasPolicy(s.db, s.calls[t].tenant, st.policy) && s.db.policies[st.policy] == st.row
  {
    RunInv(c, run, j);
    assert SyncOK(run[j], t);
  }

  lemma StampOfRun(c: Checks, run: seq<State>, i: nat, j: nat, p: Id)
    requires IsRun(c, run) && i <= j < |run| && p in run[i].db.policies && p in run[j].db.policies
    ensures p in run[i].db.rows && p in run[j].db.rows
    ensures run[i].db.policies[p].updatedAt == run[j].db.policies[p].updatedAt <==> run[j].db.rows[p] == run[i].db.rows[p]
    ensures run[j].db.rows[p] == run[i].db.rows[p] ==> run[j].db.policies[p] == run[i].db.policies[p]
  {
    RunRows(c, run, i);
    RunRows(c, run, j);
    PublishedNeverChanges(c, run, i, j);
    SameStampSameRows(c, run[i].db, run[j].db, p);
  }

  /** Between two states of a run, a policy has been written exactly when its timestamp changed. */
  lemma UntouchedIffSameStamp(c: Checks, run: seq<State>, i: nat, j: nat, p: Id)
    requires IsRun(c, run) && i <= j < |run| && p in run[i].db.policies && p in run[j].db.policies
    ensures run[j].db.policies[p].updatedAt == run[i].db.policies[p].updatedAt <==> Untouched(run, i, j, p)
    ensures Untouched(run, i, j, p) ==> run[j].db.policies[p] == run[i].db.policies[p]
  {
    StampOfRun(c, run, i, j, p);
    if run[j].db.rows[p] == run[i].db.rows[p] {
      SameRowsUntouched(c, run, i, j, p);
    }
  }

  lemma SameRowsUntouched(c: Checks, run: seq<State>, i: nat, j: nat, p: Id)
    requires IsRun(c, run) && i <= j < |run| && p in run[i].db.rows && p in run[j].db.rows
    requires run[j].db.rows[p] == run[i].db.rows[p]
    ensures Untouched(run, i, j, p)
  {
    forall k | i <= k <= j ensures p in run[k].db.rows && run[k].db.rows[p] == run[i].db.rows[p] {
      PublishedNeverChanges(c, run, i, k);
      PublishedNeverChanges(c, run, k, j);
      Between(run[i].db, run[k].db, run[j].db, p);
    }
  }

  /** No lost updates: an edit commits only if no edit or publish of the policy was committed
      since the state its caller saw, and then it writes exactly the requested change to that
      state's row; an edit that does not commit changes no table. */
  lemma NoLostUpdates(c: Checks, run: seq<State>, i: nat, j: nat, t: Tid, ch: Choice)
    requires IsRun(c, run) && i <= j < |run| - 1 && Enabled(run[j], Go(t, ch)) && run[j + 1] == Next(c, run[j], Go(t, ch))
    requires run[j].calls[t].stage.EditLocked?
    requires var st := run[j].calls[t].stage;
             st.policy in run[i].db.policies && run[i].db.policies[st.policy].updatedAt == st.edit.expected
    ensures var st := run[j].calls[t].stage;
            if run[j + 1].calls[t].stage == Finished(Succeeded)
            then Untouched(run, i, j, st.policy)
                 && run[j + 1].db == WriteRow(run[j].db, st.policy, Edited(run[i].db.policies[st.policy], st.edit, st.ts))
            else run[j + 1].db == run[j].db
    ensures run[j + 1].calls[t].stage == Finished(Conflict) <==> !Untouched(run, i, j, run[j].calls[t].stage.policy)
  {
    var s, st := run[j], run[j].calls[t].stage;
    LockedRow(c, run, j, t);
    GoAfter(c, s, t, ch);
    EditEffect(c, s.db, s.locks, t, s.calls[t].tenant, st, ch);
    UntouchedIffSameStamp(c, run, i, j, st.policy);
  }

  // ----- tenants -----

  /** Tenant `u` has the same rows in both states. */
  ghost predicate SameFor(db: Db, db': Db, u: Tenant) {
    (forall x :: (x in db.apps && db.apps[x].tenant == u) || (x in db'.apps && db'.apps[x].tenant == u) ==>
       x in db.apps && x in db'.apps && db'.apps[x] == db.apps[x])
    && (forall x :: (x in db.origins && db.origins[x].tenant == u) || (x in db'.origins && db'.origins[x].tenant == u) ==>
       x in db.origins && x in db'.origins && db'.origins[x] == db.origins[x])
    && (forall x :: (x in db.policies && db.policies[x].tenant == u) || (x in db'.policies && db'.policies[x].tenant == u) ==>
       x in db.policies && x in db'.policies && db'.policies[x] == db.policies[x])
    && (forall x :: (x in db.versions && db.versions[x].tenant == u) || (x in db'.versions && db'.versions[x].tenant == u) ==>
       x in db.versions && x in db'.versions && db'.versions[x] == db.versions[x])
    && (forall x :: (x in db.deployments && db.deployments[x].tenant == u) || (x in db'.deployments && db'.deployments[x].tenant == u) ==>
       x in db.deployments && x in db'.deployments && db'.deployments[x] == db.deployments[x])
  }

  lemma SameForTransitive(a: Db, b: Db, d: Db, u: Tenant)
    requires SameFor(a, b, u) && SameFor(b, d, u)
    ensures SameFor(a, d, u)
  {
  }

  lemma AppIsolated(db: Db, tenant: Tenant, slug: string, info: AppInfo, url: string, a: Id, o: Id, ts: Time, u: Tenant)
    requires a !in db.apps && o !in db.origins && u != tenant
    ensures SameFor(db, InsertApp(db, tenant, slug, info, url, a, o, ts), u)
  {
  }

  lemma RowIsolated(db: Db, db': Db, p: Id, row: Policy, u: Tenant)
    requires db' == db.(policies := db.policies[p := row], rows := db'.rows, published := db'.published)
    requires row.tenant != u && (p in db.policies ==> db.policies[p].tenant != u)
    ensures SameFor(db, db', u)
  {
  }

  lemma PublishIsolated(db: Db, db': Db, st: Stage, u: Tenant)
    requires st.PublishCompiled? && Publishes(db, db', st) && st.row.tenant != u && st.vid !in db.versions
    requires st.policy in db.policies && db.policies[st.policy] == st.row && ChainOK(db, st.policy)
    ensures SameFor(db, db', u)
  {
  }

  lemma PolicyIsolated(c: Checks, s: State, t: Tid, ch: Choice, u: Tenant)
    requires IssuedInv(s) && Enabled(s, Go(t, ch)) && s.calls[t].stage.PolicyApp? && s.calls[t].tenant != u
    ensures SameFor(s.db, Effects(c, s, t, ch).db, u)
  {
    var st, row := s.calls[t].stage, NewPolicy(s.calls[t].tenant, s.calls[t].stage, ch.ts);
    PolicyEffect(c, s.db, s.locks, t, s.calls[t].tenant, st, ch);
    RowIsolated(s.db, InsertPolicy(s.db, ch.id, row), ch.id, row, u);
  }

  lemma EditIsolated(c: Checks, s: State, t: Tid, ch: Choice, u: Tenant)
    requires t in s.calls && SyncOK(s, t) && s.calls[t].stage.EditLocked? && s.calls[t].tenant != u
    ensures SameFor(s.db, Effects(c, s, t, ch).db, u)
  {
    var st := s.calls[t].stage;
    var row := Edited(st.row, st.edit, st.ts);
    EditEffect(c, s.db, s.locks, t, s.calls[t].tenant, st, ch);
    RowIsolated(s.db, WriteRow(s.db, st.policy, row), st.policy, row, u);
  }

  lemma NewAppIsolated(c: Checks, s: State, t: Tid, ch: Choice, u: Tenant)
    requires IssuedInv(s) && Enabled(s, Go(t, ch)) && s.calls[t].stage.AppAsked? && s.calls[t].tenant != u
    ensures SameFor(s.db, Effects(c, s, t, ch).db, u)
  {
    var st, tenant := s.calls[t].stage, s.calls[t].tenant;
    AppEffect(c, s.db, s.locks, t, tenant, st, ch);
    AppIsolated(s.db, tenant, st.slug, st.info, st.url, ch.id, ch.id2, ch.ts, u);
  }

  lemma PatchIsolated(c: Checks, s: State, t: Tid, ch: Choice, u: Tenant)
    requires AppsInv(s.db) && t in s.calls && s.calls[t].stage.PatchRead? && s.calls[t].tenant != u
    ensures SameFor(s.db, Effects(c, s, t, ch).db, u)
  {
    PatchEffect(c, s.db, s.locks, t, s.calls[t].tenant, s.calls[t].stage, ch);
  }

  lemma WritingIsolated(c: Checks, s: State, t: Tid, ch: Choice, u: Tenant)
    requires Inv(c, s) && Enabled(s, Go(t, ch)) && Writes(s.calls[t].stage) && s.calls[t].tenant != u
    ensures SameFor(s.db, Effects(c, s, t, ch).db, u)
  {
    var st, tenant := s.calls[t].stage, s.calls[t].tenant;
    assert SyncOK(s, t) && DataOK(c, s.db, s.calls[t]);
    match st {
      case AppAsked(_, _, _) => NewAppIsolated(c, s, t, ch, u);
      case PatchRead(_, _, _, _) => PatchIsolated(c, s, t, ch, u);
      case PolicyApp(_, _, _, _) => PolicyIsolated(c, s, t, ch, u);
      case EditLocked(_, _, _, _) => EditIsolated(c, s, t, ch, u);
      case PublishCompiled(_, _, _, _, _, _) =>
        PublishTables(c, s, t, ch);
        PublishEffect(c, s.db, s.locks, t, tenant, st, ch);
        PublishIsolated(s.db, Effects(c, s, t, ch).db, st, u);
    }
  }

  /** The tenant on whose behalf a step is taken. */
  function StepTenant(s: State, step: Step): Tenant
    requires Enabled(s, step)
  {
    if step.Start? then step.tenant else s.calls[step.t].tenant
  }

  lemma StepIsolated(c: Checks, s: State, step: Step, u: Tenant)
    requires Inv(c, s) && Enabled(s, step) && StepTenant(s, step) != u
    ensures SameFor(s.db, Next(c, s, step).db, u)
  {
    match step {
      case Start(_, _, _) => StartStep(c, s, step);
      case Abort(_) => AbortStep(c, s, step);
      case Go(t, ch) =>
        GoAfter(c, s, t, ch);
        if Writes(s.calls[t].stage) {
          WritingIsolated(c, s, t, ch, u);
        } else {
          ReadingCalls(c, s, Next(c, s, step), t, ch);
        }
    }
  }

  ghost predicate StepOfOther(c: Checks, s: State, s': State, u: Tenant) {
    exists step: Step :: Enabled(s, step) && s' == Next(c, s, step) && StepTenant(s, step) != u
  }

  /** Every step from state `i` to state `j` is taken for another tenant than `u`. */
  ghost predicate OthersOnly(c: Checks, run: seq<State>, i: nat, j: nat, u: Tenant)
    requires i <= j < |run|
    decreases j - i
  {
    i == j || (OthersOnly(c, run, i, j - 1, u) && StepOfOther(c, run[j - 1], run[j], u))
  }

  /** Operations under other tenants leave a tenant's rows alone, in every table. */
  lemma {:induction false} TenantIsolation(c: Checks, run: seq<State>, i: nat, j: nat, u: Tenant)
    requires IsRun(c, run) && i <= j < |run| && OthersOnly(c, run, i, j, u)
    ensures SameFor(run[i].db, run[j].db, u)
    decreases j - i
  {
    if i < j {
      TenantIsolation(c, run, i, j - 1, u);
      RunStepIsolated(c, run, j - 1, u);
      SameForTransitive(run[i].db, run[j - 1].db, run[j].db, u);
    }
  }

  lemma OtherStepIsolated(c: Checks, s: State, s': State, u: Tenant)
    requires Inv(c, s) && StepOfOther(c, s, s', u)
    ensures SameFor(s.db, s'.db, u)
  {
    var step: Step :| Enabled(s, step) && s' == Next(c, s, step) && StepTenant(s, step) != u;
    StepIsolated(c, s, step, u);
  }

  lemma RunStepIsolated(c: Checks, run: seq<State>, k: nat, u: Tenant)
    requires IsRun(c, run) && k < |run| - 1 && StepOfOther(c, run[k], run[k + 1], u)
    ensures SameFor(run[k].db, run[k + 1].db, u)
  {
    RunInv(c, run, k);
    OtherStepIsolated(c, run[k], run[k + 1], u);
  }

  // ----- snapshots -----

  /** The content of a compiled snapshot, as a draft. */
  function Content(c: Compiled): Draft {
    EMPTY.(mode := c.mode, ipSets := c.ipSets, customRules := c.customRules, rateLimits := c.rateLimits)
  }

  lemma CompiledIsValid(row: Policy, p: Id, vid: Id, origin: Id, url: string, ts: Time)
    requires ControlAccepts(row.draft) && ValidMode(row.mode)
    ensures ValidMode(Compile(row, p, vid, origin, url, ts).mode)
    ensures ControlAccepts(Content(Compile(row, p, vid, origin, url, ts)))
  {
  }

  /** A version and its snapshot name one tenant, app and policy, and an origin of that app. */
  ghost predicate BelongsTogether(db: Db, vid: Id)
    requires vid in db.versions
  {
    var v, snap := db.versions[vid], db.versions[vid].snapshot;
    HasApp(db, v.tenant, v.app) && HasPolicy(db, v.tenant, v.policy) && db.policies[v.policy].app == v.app
    && snap.tenant == v.tenant && snap.app == v.app && snap.policy == v.policy && snap.version == vid
    && snap.origin in db.origins && db.origins[snap.origin].tenant == v.tenant && db.origins[snap.origin].app == v.app
    && db.origins[snap.origin].url == snap.url
  }

  lemma SnapshotBelongs(c: Checks, db: Db, vid: Id)
    requires DbInv(c, db) && vid in db.versions
    ensures BelongsTogether(db, vid)
    ensures vid in db.sources && db.versions[vid].policy in db.rows
            && 0 <= db.sources[vid] < |db.rows[db.versions[vid].policy]|
            && RowOK(c, db, db.rows[db.versions[vid].policy][db.sources[vid]])
  {
    assert SnapshotOK(db, vid) && NumberOK(db, vid) && RowsOK(c, db, db.versions[vid].policy);
  }

  lemma SourceIsValid(row: Policy, db: Db, vid: Id)
    requires RowOK(CONTROL, db, row) && vid in db.versions
    requires var v := db.versions[vid];
             v.snapshot == Compile(row, v.policy, vid, v.snapshot.origin, v.snapshot.url, v.createdAt)
    ensures ValidMode(db.versions[vid].snapshot.mode) && ControlAccepts(Content(db.versions[vid].snapshot))
  {
    var v := db.versions[vid];
    CompiledIsValid(row, v.policy, vid, v.snapshot.origin, v.snapshot.url, v.createdAt);
  }

  /** Every published snapshot is one the control plane accepts, although the handler
      validates outside the transaction, and its names belong together, although the origin
      query filters by app only. The gateway's parsers refuse it only on the grounds the
      control plane does not check. */
  lemma PublishedSnapshots(run: seq<State>, i: nat, vid: Id)
    requires IsRun(CONTROL, run) && i < |run| && vid in run[i].db.versions
    ensures BelongsTogether(run[i].db, vid)
    ensures ValidMode(run[i].db.versions[vid].snapshot.mode) && ControlAccepts(Content(run[i].db.versions[vid].snapshot))
    ensures GatewayAccepts(Content(run[i].db.versions[vid].snapshot)) <==> GatewayOnlyChecks(Content(run[i].db.versions[vid].snapshot))
  {
    var db := run[i].db;
    RunInv(CONTROL, run, i);
    SnapshotBelongs(CONTROL, db, vid);
    assert SnapshotOK(db, vid);
    SourceIsValid(db.rows[db.versions[vid].policy][db.sources[vid]], db, vid);
    GatewayAcceptsIff(Content(db.versions[vid].snapshot));
  }

  /** A row of the query of `GetActivePolicyByApp` (db.go:430-453). */
  ghost predicate Deployed(db: Db, tenant: Tenant, app: Id, p: Id) {
    p in db.deployments && db.deployments[p].tenant == tenant && db.deployments[p].app == app
    && p in db.policies && db.policies[p].enabled && db.deployments[p].version in db.versions
  }

  ghost predicate IsServed(db: Db, tenant: Tenant, app: Id, p: Id) {
    Deployed(db, tenant, app, p)
    && forall q | Deployed(db, tenant, app, q) :: db.deployments[q].deployedAt <= db.deployments[p].deployedAt
  }

  /** What the gateway is served is the highest version of an enabled policy of the tenant and
      app it asked for, and no deployed version of another such policy was published later. */
  lemma ServedIsLatest(c: Checks, run: seq<State>, i: nat, tenant: Tenant, app: Id, p: Id)
    requires IsRun(c, run) && i < |run| && IsServed(run[i].db, tenant, app, p)
    ensures var db := run[i].db; var v := db.versions[db.deployments[p].version];
            v.policy == p && v.snapshot.tenant == tenant && v.snapshot.app == app
            && (forall w | w in db.versions && db.versions[w].policy == p :: db.versions[w].number <= v.number)
            && forall q | Deployed(db, tenant, app, q) :: db.versions[db.deployments[q].version].createdAt <= v.createdAt
  {
    RunInv(c, run, i);
    ServedFromChain(c, run[i].db, tenant, app, p);
    forall q | Deployed(run[i].db, tenant, app, q)
      ensures run[i].db.versions[run[i].db.deployments[q].version].createdAt == run[i].db.deployments[q].deployedAt
    {
      DeployedWhenPublished(run[i].db, tenant, app, q);
    }
  }

  lemma DeployedWhenPublished(db: Db, tenant: Tenant, app: Id, q: Id)
    requires ChainInv(db) && Deployed(db, tenant, app, q)
    ensures db.versions[db.deployments[q].version].createdAt == db.deployments[q].deployedAt
  {
    assert ChainOK(db, q);
  }

  lemma ServedFromChain(c: Checks, db: Db, tenant: Tenant, app: Id, p: Id)
    requires DbInv(c, db) && Deployed(db, tenant, app, p)
    ensures var v := db.versions[db.deployments[p].version];
            v.policy == p && v.snapshot.tenant == tenant && v.snapshot.app == app
            && forall w | w in db.versions && db.versions[w].policy == p :: db.versions[w].number <= v.number
  {
    assert ChainOK(db, p);
    SnapshotBelongs(c, db, db.deployments[p].version);
    forall w | w in db.versions && db.versions[w].policy == p
      ensures db.versions[w].number <= db.versions[db.deployments[p].version].number
    {
      assert NumberOK(db, w);
    }
  }

  // ----- what cannot fail, and what cannot succeed -----

  lemma LiveOrigin(db: Db, a: Id)
    requires AppsInv(db) && a in db.apps
    ensures exists o | o in db.origins :: Live(db.origins[o], a)
  {
    var o :| o in db.origins && db.origins[o].app == a && db.origins[o].name == PRIMARY;
    assert Live(db.origins[o], a);
  }

  /** Once a publish holds the row it finds a version number, and no statement of it fails:
      it reaches its commit and the commit succeeds. */
  lemma PublishCannotFail(c: Checks, run: seq<State>, i: nat, t: Tid, ch: Choice)
    requires IsRun(c, run) && i < |run| && Enabled(run[i], Go(t, ch)) && Holding(run[i].calls[t].stage)
    requires !run[i].calls[t].stage.EditLocked?
    ensures var st := Next(c, run[i], Go(t, ch)).calls[t].stage; st.Finished? ==> st.outcome == Succeeded
    ensures run[i].calls[t].stage.PublishCompiled? ==> Next(c, run[i], Go(t, ch)).calls[t].stage == Finished(Succeeded)
  {
    RunInv(c, run, i);
    GoAfter(c, run[i], t, ch);
    StatementsSucceed(c, run[i], t, ch);
  }

  lemma StatementsSucceed(c: Checks, s: State, t: Tid, ch: Choice)
    requires Inv(c, s) && Enabled(s, Go(t, ch)) && Holding(s.calls[t].stage) && !s.calls[t].stage.EditLocked?
    ensures var st := Effects(c, s, t, ch).stage; st.Finished? ==> st.outcome == Succeeded
    ensures s.calls[t].stage.PublishCompiled? ==> Effects(c, s, t, ch).stage == Finished(Succeeded)
  {
    var st, tenant := s.calls[t].stage, s.calls[t].tenant;
    assert SyncOK(s, t) && DataOK(c, s.db, s.calls[t]) && RowsOK(c, s.db, st.policy);
    if st.PublishCompiled? {
      PublishTables(c, s, t, ch);
      PublishEffect(c, s.db, s.locks, t, tenant, st, ch);
    } else if st.PublishStamped? {
      LiveOrigin(s.db, st.row.app);
      CompileEffect(c, s.db, s.locks, t, tenant, st, ch);
    } else {
      NumberEffect(c, s.db, s.locks, t, tenant, st, ch);
    }
  }

  /** The query for the next number always has its answer. */
  lemma NextNumberExists(c: Checks, run: seq<State>, i: nat, p: Id)
    requires IsRun(c, run) && i < |run| && p in run[i].db.policies
    ensures forall n: int :: IsNextNumber(run[i].db, p, n) <==> n == |Listed(run[i].db.published, p)| + 1
  {
    RunInv(c, run, i);
    ChainHasNext(run[i].db, p);
    forall n: int | IsNextNumber(run[i].db, p, n) ensures n == |Listed(run[i].db.published, p)| + 1 {
      NextNumberIs(run[i].db, p, n);
    }
  }

  lemma ChainHasNext(db: Db, p: Id)
    requires ChainInv(db) && p in db.policies
    ensures IsNextNumber(db, p, |Listed(db.published, p)| + 1)
  {
    assert ChainOK(db, p);
    var vs := db.published[p];
    if |vs| > 0 {
      assert vs[|vs| - 1] in db.versions && db.versions[vs[|vs| - 1]].number == |vs|;
    }
    forall v | v in db.versions && db.versions[v].policy == p ensures db.versions[v].number < |vs| + 1 {
      assert NumberOK(db, v);
    }
  }

  lemma {:induction false} Bound(xs: set<nat>) returns (b: nat)
    ensures forall x | x in xs :: x < b
  {
    b := 0;
    if xs != {} {
      var x :| x in xs;
      var rest := xs - {x};
      assert xs == rest + {x};
      b := Bound(rest);
      if b <= x {
        b := x + 1;
      }
    }
  }

  lemma FreshChoice(s: State, number: int, origin: Id) returns (ch: Choice)
    ensures Fresh(s, ch) && ch.number == number && ch.origin == origin && forall x | x in s.stamps :: x < ch.ts
  {
    var ts := Bound(s.stamps.Keys);
    var id := Bound(s.ids.Keys);
    assert forall x | x in s.stamps :: x in s.stamps.Keys;
    assert ts !in s.stamps.Keys && id !in s.ids.Keys && id + 1 !in s.ids.Keys;
    ch := Choice(ts, id, id + 1, number, origin);
  }

  lemma PrimaryExists(db: Db, a: Id) returns (o: Id)
    requires AppsInv(db) && a in db.apps
    ensures IsPrimaryOrigin(db, a, o)
  {
    LiveOrigin(db, a);
    var first :| first in db.origins && Live(db.origins[first], a);
    var live := set k | k in db.origins && Live(db.origins[k], a);
    assert first in live;
    o := Earliest(db, live);
    forall k | k in db.origins && Live(db.origins[k], a) ensures NotAfter(db.origins[o], db.origins[k]) {
      assert OriginOK(db, db.origins[o]) && OriginOK(db, db.origins[k]);
    }
  }

  lemma {:induction false} Earliest(db: Db, candidates: set<Id>) returns (o: Id)
    requires candidates != {} && forall k | k in candidates :: k in db.origins
    ensures o in candidates && forall k | k in candidates :: db.origins[o].createdAt <= db.origins[k].createdAt
  {
    o :| o in candidates;
    var rest := candidates - {o};
    assert candidates == rest + {o};
    if rest != {} {
      var k := Earliest(db, rest);
      if db.origins[k].createdAt < db.origins[o].createdAt {
        o := k;
      }
    }
  }

  /** A publish that holds the row is never stuck: its next statement can be taken. */
  lemma PublishNeverStuck(c: Checks, run: seq<State>, i: nat, t: Tid) returns (ch: Choice)
    requires IsRun(c, run) && i < |run| && t in run[i].calls && Holding(run[i].calls[t].stage)
    ensures Enabled(run[i], Go(t, ch))
  {
    RunInv(c, run, i);
    ch := NextChoice(c, run[i], t);
  }

  lemma NextChoice(c: Checks, s: State, t: Tid) returns (ch: Choice)
    requires Inv(c, s) && t in s.calls && Holding(s.calls[t].stage)
    ensures Enabled(s, Go(t, ch))
  {
    var st := s.calls[t].stage;
    HeldRowExists(c, s, t);
    ChainHasNext(s.db, st.policy);
    var o := PrimaryExists(s.db, st.row.app);
    ch := FreshChoice(s, |Listed(s.db.published, st.policy)| + 1, o);
    EnabledBy(s, t, ch);
  }

  lemma HeldRowExists(c: Checks, s: State, t: Tid)
    requires RowsInv(c, s.db) && SyncInv(s) && t in s.calls && Holding(s.calls[t].stage)
    ensures s.calls[t].stage.policy in s.db.policies && s.calls[t].stage.row.app in s.db.apps
  {
    assert SyncOK(s, t) && RowsOK(c, s.db, s.calls[t].stage.policy);
  }

  lemma EnabledBy(s: State, t: Tid, ch: Choice)
    requires t in s.calls && Holding(s.calls[t].stage) && Fresh(s, ch)
    requires IsNextNumber(s.db, s.calls[t].stage.policy, ch.number)
    requires IsPrimaryOrigin(s.db, s.calls[t].stage.row.app, ch.origin)
    ensures Enabled(s, Go(t, ch))
  {
  }

  /** The handler's check before a publish never refuses: stored drafts have passed it. */
  lemma PublishNeverRefused(c: Checks, run: seq<State>, i: nat, t: Tid, ch: Choice)
    requires IsRun(c, run) && i < |run| && Enabled(run[i], Go(t, ch)) && run[i].calls[t].stage.PublishAsked?
    ensures Next(c, run[i], Go(t, ch)).calls[t].stage != Finished(Refused)
  {
    var s := run[i];
    DraftsStayValid(c, run, i, s.calls[t].stage.policy);
    GoAfter(c, s, t, ch);
    ValidIsAsked(c, s.db, s.locks, t, s.calls[t].tenant, s.calls[t].stage, ch);
  }

  lemma ValidIsAsked(c: Checks, db: Db, locks: map<Id, Tid>, t: Tid, tenant: Tenant, st: Stage, ch: Choice)
    requires st.PublishAsked? && (st.policy in db.policies ==> c.draft(db.policies[st.policy].draft))
    ensures Act(c, db, locks, t, tenant, st, ch).stage != Finished(Refused)
  {
  }

  /** Every stored draft has passed validation, in every state. */
  lemma DraftsStayValid(c: Checks, run: seq<State>, i: nat, p: Id)
    requires IsRun(c, run) && i < |run|
    ensures p in run[i].db.policies ==> RowOK(c, run[i].db, run[i].db.policies[p])
  {
    RunRows(c, run, i);
    assert p in run[i].db.policies ==> RowsOK(c, run[i].db, p);
  }

  /** A PATCH of an app that found the app succeeds exactly when it brings no new origin, and
      then writes the patched values of the row it read; otherwise it changes nothing. */
  lemma PatchSucceedsIff(c: Checks, run: seq<State>, i: nat, t: Tid, ch: Choice)
    requires IsRun(c, run) && i < |run| && Enabled(run[i], Go(t, ch)) && run[i].calls[t].stage.PatchRead?
    ensures var s, s', st := run[i], Next(c, run[i], Go(t, ch)), run[i].calls[t].stage;
            s'.calls[t].stage.Finished? && (s'.calls[t].stage.outcome == Succeeded <==> st.newUrl.None?)
            && st.app in s.db.apps
            && s'.db == if st.newUrl.None? then s.db.(apps := s.db.apps[st.app := s.db.apps[st.app].(info := Patched(st.read, st.patch))])
                        else s.db
  {
    var s := run[i];
    RunInv(c, run, i);
    assert DataOK(c, s.db, s.calls[t]);
    GoAfter(c, s, t, ch);
    PatchEffect(c, s.db, s.locks, t, s.calls[t].tenant, s.calls[t].stage, ch);
  }

  /** Replacing an app's origin never succeeds: the soft-deleted row still holds the name. */
  lemma ReplacingOriginFails(c: Checks, run: seq<State>, i: nat, t: Tid, ch: Choice)
    requires IsRun(c, run) && i < |run| && Enabled(run[i], Go(t, ch))
    requires run[i].calls[t].stage.PatchRead? && run[i].calls[t].stage.newUrl.Some?
    ensures var s' := Next(c, run[i], Go(t, ch));
            s'.db == run[i].db && s'.calls[t].stage.Finished? && s'.calls[t].stage.outcome != Succeeded
  {
    PatchSucceedsIff(c, run, i, t, ch);
  }

  // ----- what is written, field by field -----

  /** The row a version was compiled from. */
  ghost function SourceRow(db: Db, vid: Id): Policy
    requires vid in db.versions && vid in db.sources && db.versions[vid].policy in db.rows
    requires 0 <= db.sources[vid] < |db.rows[db.versions[vid].policy]|
  {
    db.rows[db.versions[vid].policy][db.sources[vid]]
  }

  /** A published snapshot carries the content of the row it was compiled from: its rules, limits
      and IP sets unchanged, the draft's mode, or the row's where the draft has none. */
  ghost predicate Carries(snapshot: Compiled, row: Policy) {
    snapshot.customRules == row.draft.customRules && snapshot.rateLimits == row.draft.rateLimits && snapshot.ipSets == row.draft.ipSets
    && (row.draft.mode != "" ==> snapshot.mode == row.draft.mode) && (row.draft.mode == "" ==> snapshot.mode == row.mode)
    && snapshot.tenant == row.tenant && snapshot.app == row.app
  }

  /** The version carries the content of the policy's row just before it, and the publish
      changed nothing of the row but the active version and the timestamp. */
  ghost predicate CarriesSource(db: Db, vid: Id)
    requires vid in db.versions
  {
    var v := db.versions[vid];
    vid in db.sources && v.policy in db.rows && 0 <= db.sources[vid] < |db.rows[v.policy]| - 1
    && Carries(v.snapshot, SourceRow(db, vid)) && v.mode == SourceRow(db, vid).mode
    && v.snapshot.policy == v.policy && v.snapshot.version == vid && v.snapshot.publishedAt == v.createdAt
    && var row, next := SourceRow(db, vid), db.rows[v.policy][db.sources[vid] + 1];
       next.active == Some(vid) && next.updatedAt == v.createdAt && next.tenant == row.tenant && next.app == row.app
       && next.name == row.name && next.mode == row.mode && next.enabled == row.enabled && next.draft == row.draft
  }

  lemma CompiledCarries(db: Db, vid: Id)
    requires vid in db.versions && SnapshotOK(db, vid)
    ensures CarriesSource(db, vid)
  {
  }

  /** Every published version carries the content of the row it was compiled from. */
  lemma PublishedContent(c: Checks, run: seq<State>, i: nat, vid: Id)
    requires IsRun(c, run) && i < |run| && vid in run[i].db.versions
    ensures CarriesSource(run[i].db, vid)
  {
    RunInv(c, run, i);
    CompiledCarries(run[i].db, vid);
  }

  lemma RunIssued(c: Checks, run: seq<State>, i: nat)
    requires IsRun(c, run) && i < |run|
    ensures IssuedInv(run[i])
  {
    RunInv(c, run, i);
  }

  /** The row is the old one with exactly the requested values. */
  ghost predicate Requested(was: Policy, row: Policy, e: Edit, ts: Time) {
    (e.name.Some? ==> row.name == e.name.value) && (e.name.None? ==> row.name == was.name)
    && (e.mode.Some? ==> row.mode == e.mode.value) && (e.mode.None? ==> row.mode == was.mode)
    && (e.enabled.Some? ==> row.enabled == e.enabled.value) && (e.enabled.None? ==> row.enabled == was.enabled)
    && (e.draft.Some? ==> row.draft == e.draft.value) && (e.draft.None? ==> row.draft == was.draft)
    && row.tenant == was.tenant && row.app == was.app && row.active == was.active && row.updatedAt == ts
  }

  /** An edit that commits has put exactly the requested values into the row its caller saw, and
      every other policy is as before. */
  lemma EditWritesRequest(c: Checks, run: seq<State>, i: nat, j: nat, t: Tid, ch: Choice)
    requires IsRun(c, run) && i <= j < |run| - 1 && Enabled(run[j], Go(t, ch)) && run[j + 1] == Next(c, run[j], Go(t, ch))
    requires run[j].calls[t].stage.EditLocked? && run[j + 1].calls[t].stage == Finished(Succeeded)
    requires var st := run[j].calls[t].stage;
             st.policy in run[i].db.policies && run[i].db.policies[st.policy].updatedAt == st.edit.expected
    ensures var st, db, db' := run[j].calls[t].stage, run[j].db, run[j + 1].db;
            st.policy in db'.policies && Requested(run[i].db.policies[st.policy], db'.policies[st.policy], st.edit, st.ts)
            && (forall q | q != st.policy :: (q in db.policies <==> q in db'.policies) && (q in db.policies ==> db'.policies[q] == db.policies[q]))
            && db'.versions == db.versions && db'.deployments == db.deployments && db'.apps == db.apps && db'.origins == db.origins
  {
    NoLostUpdates(c, run, i, j, t, ch);
  }

  /** What the handler makes of a request for a new policy: refused without a name, with a bad mode
      or a bad draft; an empty mode counts, a missing draft is the empty one. */
  lemma NewPolicyRequest(c: Checks, tenant: Tenant, a: Id, name: string, mode: string, draft: Option<Draft>)
    ensures var asked := if mode == "" then "count" else mode;
            var stored := match draft case Some(d) => d case None => EMPTY;
            if name == "" || !c.mode(asked) || !c.draft(stored)
            then Received(c, tenant, CreatePolicy(a, name, mode, draft)) == Finished(Refused)
            else Received(c, tenant, CreatePolicy(a, name, mode, draft)) == PolicyAsked(a, name, asked, stored)
  {
  }

  /** What the handlers make of the other requests. */
  lemma OtherRequests(c: Checks, tenant: Tenant, bodyTenant: Tenant, slug: string, info: AppInfo, url: string, p: Id, e: Edit)
    ensures Received(c, tenant, CreateApp(bodyTenant, slug, info, url))
         == if bodyTenant != "" && bodyTenant != tenant then Finished(Refused) else AppAsked(slug, info, url)
    ensures Received(c, tenant, PublishPolicy(p)) == PublishAsked(p)
    ensures forall patch, newUrl :: Received(c, tenant, UpdateApp(p, patch, newUrl)) == PatchAsked(p, patch, newUrl)
    ensures Received(c, tenant, UpdatePolicy(p, e)) == Finished(Refused) <==>
            e.expected == 0 || e.name == Some("") || (e.mode.Some? && !c.mode(e.mode.value)) || (e.draft.Some? && !c.draft(e.draft.value))
    ensures Received(c, tenant, UpdatePolicy(p, e)) != Finished(Refused) ==> Received(c, tenant, UpdatePolicy(p, e)) == EditAsked(p, e)
  {
  }

  /** A policy that is created has the requested values, is enabled and has no active version. */
  lemma PolicyCreated(c: Checks, run: seq<State>, i: nat, t: Tid, ch: Choice)
    requires IsRun(c, run) && i < |run| && Enabled(run[i], Go(t, ch)) && run[i].calls[t].stage.PolicyApp?
    requires Next(c, run[i], Go(t, ch)).db != run[i].db
    ensures var s, s', st := run[i], Next(c, run[i], Go(t, ch)), run[i].calls[t].stage;
            s'.db.policies.Keys == s.db.policies.Keys + {ch.id} && ch.id !in s.db.policies
            && (forall q | q in s.db.policies :: s'.db.policies[q] == s.db.policies[q])
            && var row := s'.db.policies[ch.id];
               row.tenant == s.calls[t].tenant && row.app == st.app && row.name == st.name && row.mode == st.mode && row.draft == st.draft
               && row.enabled && row.active == None && row.updatedAt == ch.ts
  {
    var s := run[i];
    RunIssued(c, run, i);
    GoAfter(c, s, t, ch);
    PolicyEffect(c, s.db, s.locks, t, s.calls[t].tenant, s.calls[t].stage, ch);
  }

  /** An app that is created has the requested values and one live origin, its primary one. */
  lemma AppCreated(c: Checks, run: seq<State>, i: nat, t: Tid, ch: Choice)
    requires IsRun(c, run) && i < |run| && Enabled(run[i], Go(t, ch)) && run[i].calls[t].stage.AppAsked?
    requires Next(c, run[i], Go(t, ch)).db != run[i].db
    ensures var s, s', st := run[i], Next(c, run[i], Go(t, ch)), run[i].calls[t].stage;
            ch.id in s'.db.apps && ch.id2 in s'.db.origins
            && (forall a | a in s.db.apps :: a in s'.db.apps && s'.db.apps[a] == s.db.apps[a])
            && var row, o := s'.db.apps[ch.id], s'.db.origins[ch.id2];
               row.tenant == s.calls[t].tenant && row.slug == st.slug && row.info == st.info
               && o.tenant == s.calls[t].tenant && o.app == ch.id && o.name == "primary" && o.url == st.url && o.enabled && !o.deleted
               && o.createdAt == ch.ts
  {
    var s := run[i];
    RunIssued(c, run, i);
    GoAfter(c, s, t, ch);
    AppEffect(c, s.db, s.locks, t, s.calls[t].tenant, s.calls[t].stage, ch);
  }

  /** A PATCH of an app that succeeds writes the values it brings, and the values it read for the others. */
  lemma PatchWritesRequest(c: Checks, run: seq<State>, i: nat, t: Tid, ch: Choice)
    requires IsRun(c, run) && i < |run| && Enabled(run[i], Go(t, ch))
    requires run[i].calls[t].stage.PatchRead? && run[i].calls[t].stage.newUrl.None?
    ensures var s, s', st := run[i], Next(c, run[i], Go(t, ch)), run[i].calls[t].stage;
            st.app in s.db.apps && st.app in s'.db.apps
            && var row, was, patch := s'.db.apps[st.app], s.db.apps[st.app], st.patch;
               row.tenant == was.tenant && row.slug == was.slug
               && (patch.name.Some? ==> row.info.name == patch.name.value) && (patch.name.None? ==> row.info.name == st.read.name)
               && (|patch.hostnames| > 0 ==> row.info.hostnames == patch.hostnames)
               && (|patch.hostnames| == 0 ==> row.info.hostnames == st.read.hostnames)
               && (patch.status.Some? ==> row.info.status == patch.status.value) && (patch.status.None? ==> row.info.status == st.read.status)
  {
    PatchSucceedsIff(c, run, i, t, ch);
  }

  // ----- unique names -----

  /** Policies of one app have different names, apps of one tenant different slugs. */
  ghost predicate NamesUnique(db: Db) {
    (forall p, q | p in db.policies && q in db.policies && p != q && db.policies[p].app == db.policies[q].app ::
       db.policies[p].name != db.policies[q].name)
    && (forall a, b | a in db.apps && b in db.apps && a != b && db.apps[a].tenant == db.apps[b].tenant ::
       db.apps[a].slug != db.apps[b].slug)
  }

  lemma NewAppUnique(db: Db, tenant: Tenant, slug: string, info: AppInfo, url: string, a: Id, o: Id, ts: Time)
    requires NamesUnique(db) && a !in db.apps && !SlugTaken(db, tenant, slug)
    ensures NamesUnique(InsertApp(db, tenant, slug, info, url, a, o, ts))
  {
  }

  lemma RowUnique(db: Db, db': Db, p: Id, row: Policy)
    requires NamesUnique(db) && db'.apps == db.apps && db'.policies == db.policies[p := row] && !NameTaken(db, row.app, row.name, p)
    ensures NamesUnique(db')
  {
  }

  lemma PublishUnique(db: Db, db': Db, tenant: Tenant, st: Stage)
    requires NamesUnique(db) && st.PublishCompiled? && Ready(db, tenant, st) && Publishes(db, db', st)
    ensures NamesUnique(db')
  {
  }

  lemma AppUnique(c: Checks, s: State, t: Tid, ch: Choice)
    requires NamesUnique(s.db) && AppsInv(s.db) && IssuedInv(s) && Enabled(s, Go(t, ch))
    requires s.calls[t].stage.AppAsked? || s.calls[t].stage.PatchRead?
    ensures NamesUnique(Effects(c, s, t, ch).db)
  {
    var st, tenant := s.calls[t].stage, s.calls[t].tenant;
    if st.AppAsked? {
      AppEffect(c, s.db, s.locks, t, tenant, st, ch);
      if Effects(c, s, t, ch).db != s.db {
        NewAppUnique(s.db, tenant, st.slug, st.info, st.url, ch.id, ch.id2, ch.ts);
      }
    } else {
      PatchEffect(c, s.db, s.locks, t, tenant, st, ch);
    }
  }

  lemma PolicyUnique(c: Checks, s: State, t: Tid, ch: Choice)
    requires NamesUnique(s.db) && Enabled(s, Go(t, ch)) && SyncOK(s, t) && (s.calls[t].stage.PolicyApp? || s.calls[t].stage.EditLocked?)
    ensures NamesUnique(Effects(c, s, t, ch).db)
  {
    var st, tenant := s.calls[t].stage, s.calls[t].tenant;
    if st.PolicyApp? {
      PolicyEffect(c, s.db, s.locks, t, tenant, st, ch);
      if Effects(c, s, t, ch).db != s.db {
        RowUnique(s.db, Effects(c, s, t, ch).db, ch.id, NewPolicy(tenant, st, ch.ts));
      }
    } else {
      EditEffect(c, s.db, s.locks, t, tenant, st, ch);
      if Effects(c, s, t, ch).stage.outcome == Succeeded {
        RowUnique(s.db, Effects(c, s, t, ch).db, st.policy, Edited(st.row, st.edit, st.ts));
      }
    }
  }

  lemma WritingUnique(c: Checks, s: State, t: Tid, ch: Choice)
    requires Inv(c, s) && NamesUnique(s.db) && Enabled(s, Go(t, ch)) && Writes(s.calls[t].stage)
    ensures NamesUnique(Effects(c, s, t, ch).db)
  {
    var st := s.calls[t].stage;
    assert SyncOK(s, t) && DataOK(c, s.db, s.calls[t]);
    match st {
      case AppAsked(_, _, _) => AppUnique(c, s, t, ch);
      case PatchRead(_, _, _, _) => AppUnique(c, s, t, ch);
      case PolicyApp(_, _, _, _) => PolicyUnique(c, s, t, ch);
      case EditLocked(_, _, _, _) => PolicyUnique(c, s, t, ch);
      case PublishCompiled(_, _, _, _, _, _) =>
        PublishTables(c, s, t, ch);
        PublishEffect(c, s.db, s.locks, t, s.calls[t].tenant, st, ch);
        PublishUnique(s.db, Effects(c, s, t, ch).db, s.calls[t].tenant, st);
    }
  }

  lemma StepUnique(c: Checks, s: State, s': State)
    requires Inv(c, s) && NamesUnique(s.db) && Leads(c, s, s')
    ensures NamesUnique(s'.db)
  {
    var step: Step :| Enabled(s, step) && s' == Next(c, s, step);
    match step {
      case Start(_, _, _) => StartStep(c, s, step);
      case Abort(_) => AbortStep(c, s, step);
      case Go(t, ch) =>
        GoAfter(c, s, t, ch);
        if Writes(s.calls[t].stage) {
          WritingUnique(c, s, t, ch);
        } else {
          ReadingCalls(c, s, s', t, ch);
        }
    }
  }

  /** In every state of every run, policies of one app have different names and apps of one tenant different slugs. */
  lemma {:induction false} NamesStayUnique(c: Checks, run: seq<State>, i: nat)
    requires IsRun(c, run) && i < |run|
    ensures NamesUnique(run[i].db)
  {
    if i > 0 {
      NamesStayUnique(c, run, i - 1);
      RunStepUnique(c, run, i - 1);
    }
  }

  lemma RunStepUnique(c: Checks, run: seq<State>, i: nat)
    requires IsRun(c, run) && i < |run| - 1 && NamesUnique(run[i].db)
    ensures NamesUnique(run[i + 1].db)
  {
    RunInv(c, run, i);
    assert StepAt(c, run, i);
    StepUnique(c, run[i], run[i + 1]);
  }

  // ----- every call does what its request asks -----

  /** The stage belongs to this request. */
  ghost predicate Serves(st: Stage, req: Request) {
    match st
    case AppAsked(slug, info, url) => req.CreateApp? && req.slug == slug && req.info == info && req.url == url
    case PatchAsked(a, patch, newUrl) => req == UpdateApp(a, patch, newUrl)
    case PatchRead(a, _, patch, newUrl) => req == UpdateApp(a, patch, newUrl)
    case PolicyAsked(a, name, mode, draft) => IsNewPolicy(req, a, name, mode, draft)
    case PolicyApp(a, name, mode, draft) => IsNewPolicy(req, a, name, mode, draft)
    case EditAsked(p, e) => req == UpdatePolicy(p, e)
    case EditOpen(p, e, _) => req == UpdatePolicy(p, e)
    case EditLocked(p, e, _, _) => req == UpdatePolicy(p, e)
    case Finished(_) => true
    case _ => req == PublishPolicy(st.policy)
  }

  ghost predicate IsNewPolicy(req: Request, a: Id, name: string, mode: string, draft: Draft) {
    req.CreatePolicy? && req.app == a && req.name == name && (req.mode != "" ==> mode == req.mode) && (req.mode == "" ==> mode == "count")
    && (req.draft.Some? ==> draft == req.draft.value) && (req.draft.None? ==> draft == EMPTY)
  }

  lemma ReceivedServes(c: Checks, tenant: Tenant, req: Request)
    ensures Serves(Received(c, tenant, req), req)
  {
  }

  lemma PublishServes(c: Checks, db: Db, locks: map<Id, Tid>, t: Tid, tenant: Tenant, st: Stage, ch: Choice, req: Request)
    requires Serves(st, req) && (st.PublishAsked? || st.PublishChecked? || st.PublishOpen? || HasNumber(st) || st.PublishLocked?)
    ensures Serves(Act(c, db, locks, t, tenant, st, ch).stage, req)
  {
  }

  lemma EditServes(c: Checks, db: Db, locks: map<Id, Tid>, t: Tid, tenant: Tenant, st: Stage, ch: Choice, req: Request)
    requires Serves(st, req) && (st.EditAsked? || st.EditOpen? || st.EditLocked? || st.PolicyAsked? || st.PolicyApp?)
    ensures Serves(Act(c, db, locks, t, tenant, st, ch).stage, req)
  {
  }

  lemma AppServes(c: Checks, db: Db, locks: map<Id, Tid>, t: Tid, tenant: Tenant, st: Stage, ch: Choice, req: Request)
    requires Serves(st, req) && (st.AppAsked? || st.PatchAsked? || st.PatchRead? || st.Finished?)
    ensures Serves(Act(c, db, locks, t, tenant, st, ch).stage, req)
  {
  }

  lemma ActServes(c: Checks, db: Db, locks: map<Id, Tid>, t: Tid, tenant: Tenant, st: Stage, ch: Choice, req: Request)
    requires Serves(st, req)
    ensures Serves(Act(c, db, locks, t, tenant, st, ch).stage, req)
  {
    if st.AppAsked? || st.PatchAsked? || st.PatchRead? || st.Finished? {
      AppServes(c, db, locks, t, tenant, st, ch, req);
    } else if st.EditAsked? || st.EditOpen? || st.EditLocked? || st.PolicyAsked? || st.PolicyApp? {
      EditServes(c, db, locks, t, tenant, st, ch, req);
    } else {
      PublishServes(c, db, locks, t, tenant, st, ch, req);
    }
  }

  lemma StepServes(c: Checks, s: State, s': State, t: Tid, req: Request)
    requires Leads(c, s, s') && t in s.calls && Serves(s.calls[t].stage, req)
    ensures t in s'.calls && s'.calls[t].tenant == s.calls[t].tenant && Serves(s'.calls[t].stage, req)
  {
    var step: Step :| Enabled(s, step) && s' == Next(c, s, step);
    if step.Go? && step.t == t {
      GoAfter(c, s, t, step.choice);
      ActServes(c, s.db, s.locks, t, s.calls[t].tenant, s.calls[t].stage, step.choice, req);
    }
  }

  lemma StartServes(c: Checks, s: State, s': State, t: Tid) returns (req: Request)
    requires Leads(c, s, s') && t !in s.calls && t in s'.calls
    ensures s'.calls[t].stage == Received(c, s'.calls[t].tenant, req)
  {
    var step: Step :| Enabled(s, step) && s' == Next(c, s, step);
    assert step.Start? && step.t == t;
    req := step.req;
  }

  /** Every call of every run works on the request it was started with, for the tenant it was started for. */
  lemma {:induction false} CallsServeRequests(c: Checks, run: seq<State>, j: nat, t: Tid) returns (k: nat, req: Request)
    requires IsRun(c, run) && j < |run| && t in run[j].calls
    ensures k < j && t !in run[k].calls && t in run[k + 1].calls && run[k + 1].calls[t].tenant == run[j].calls[t].tenant
    ensures run[k + 1].calls[t].stage == Received(c, run[j].calls[t].tenant, req) && Serves(run[j].calls[t].stage, req)
  {
    assert j > 0;
    assert StepAt(c, run, j - 1);
    if t in run[j - 1].calls {
      k, req := CallsServeRequests(c, run, j - 1, t);
      StepServes(c, run[j - 1], run[j], t, req);
    } else {
      k := j - 1;
      req := StartServes(c, run[k], run[j], t);
      ReceivedServes(c, run[j].calls[t].tenant, req);
    }
  }
}
