/** What every interleaving of the draft/publish protocol keeps. */
module PublishSafety {
  import opened Text
  import opened Publish

  // ----- table invariants -----

  /** An origin has its app's tenant, and is the live primary one. */
  ghost predicate OriginOK(db: Db, o: Origin) {
    HasApp(db, o.tenant, o.app) && o.name == PRIMARY && o.enabled && !o.deleted
  }

  ghost predicate AppsInv(db: Db) {
    (forall o | o in db.origins :: OriginOK(db, db.origins[o]))
    && (forall a | a in db.apps :: Rooted(db.origins, a))
  }

  /** A row has its app's tenant, a valid mode and a validated draft. */
  ghost predicate RowOK(c: Checks, db: Db, row: Policy) {
    HasApp(db, row.tenant, row.app) && c.mode(row.mode) && c.draft(row.draft)
  }

  ghost predicate SameOwner(row: Policy, other: Policy) { row.tenant == other.tenant && row.app == other.app }

  /** The recorded rows of a policy are valid, keep its tenant and app, have distinct
      timestamps and end in the current row. */
  ghost predicate RowsOK(c: Checks, db: Db, p: Id) {
    p in db.policies && p in db.rows && |db.rows[p]| > 0
    && db.rows[p][|db.rows[p]| - 1] == db.policies[p]
    && (forall i | 0 <= i < |db.rows[p]| :: RowOK(c, db, db.rows[p][i]) && SameOwner(db.rows[p][i], db.policies[p]))
    && (forall i, j | 0 <= i < j < |db.rows[p]| :: db.rows[p][i].updatedAt != db.rows[p][j].updatedAt)
  }

  ghost predicate RowsInv(c: Checks, db: Db) {
    (forall p | p in db.policies :: RowsOK(c, db, p)) && (forall p | p in db.rows :: p in db.policies)
  }

  /** The active version and the deployment are the last version published. */
  ghost predicate ChainOK(db: Db, p: Id) {
    p in db.policies && p in db.published
    && var row, vs := db.policies[p], db.published[p];
       (forall i | 0 <= i < |vs| :: vs[i] in db.versions && db.versions[vs[i]].policy == p && db.versions[vs[i]].number == i + 1)
       && if vs == [] then row.active == None && p !in db.deployments
          else
            row.active == Some(vs[|vs| - 1]) && p in db.deployments && db.deployments[p].version == vs[|vs| - 1]
            && db.deployments[p].tenant == row.tenant && db.deployments[p].app == row.app
            && db.deployments[p].deployedAt == db.versions[vs[|vs| - 1]].createdAt
  }

  ghost predicate ChainInv(db: Db) {
    (forall p | p in db.policies :: ChainOK(db, p))
    && (forall p | p in db.deployments :: p in db.policies)
    && (forall v | v in db.versions :: NumberOK(db, v))
  }

  /** A version is listed at its number among the versions of its policy. */
  ghost predicate NumberOK(db: Db, vid: Id)
    requires vid in db.versions
  {
    var v := db.versions[vid];
    v.policy in db.policies && v.policy in db.published
    && 1 <= v.number <= |db.published[v.policy]| && db.published[v.policy][v.number - 1] == vid
  }

  /** An origin of the app of a row. */
  ghost predicate OriginOf(db: Db, row: Policy, origin: Id, url: string) {
    origin in db.origins && db.origins[origin].tenant == row.tenant && db.origins[origin].app == row.app
    && db.origins[origin].url == url
  }

  /** A version's snapshot is compiled from the row just before the one the publish wrote,
      with an origin of the same app and tenant. */
  ghost predicate SnapshotOK(db: Db, vid: Id)
    requires vid in db.versions
  {
    var v := db.versions[vid];
    vid in db.sources && v.policy in db.rows
    && var k, rows := db.sources[vid], db.rows[v.policy];
       0 <= k < |rows| - 1
       && v.tenant == rows[k].tenant && v.app == rows[k].app && v.mode == rows[k].mode
       && rows[k + 1] == rows[k].(active := Some(vid), updatedAt := v.createdAt)
       && v.snapshot == Compile(rows[k], v.policy, vid, v.snapshot.origin, v.snapshot.url, v.createdAt)
       && OriginOf(db, rows[k], v.snapshot.origin, v.snapshot.url)
  }

  ghost predicate SnapshotInv(db: Db) {
    forall v | v in db.versions :: SnapshotOK(db, v)
  }

  ghost predicate DbInv(c: Checks, db: Db) {
    AppsInv(db) && RowsInv(c, db) && ChainInv(db) && SnapshotInv(db)
  }

  // ----- frames -----

  /** Apps keep their tenant, origins stay. */
  ghost predicate Extends(db: Db, db': Db) {
    (forall a | a in db.apps :: a in db'.apps && db'.apps[a].tenant == db.apps[a].tenant)
    && (forall o | o in db.origins :: o in db'.origins && db'.origins[o] == db.origins[o])
  }

  /** The recorded rows only grow. */
  ghost predicate RowsGrow(db: Db, db': Db) {
    forall p | p in db.rows :: p in db'.rows && db.rows[p] <= db'.rows[p]
  }

  lemma RootedGrows(origins: map<Id, Origin>, origins': map<Id, Origin>, a: Id)
    requires Rooted(origins, a) && forall o | o in origins :: o in origins' && origins'[o] == origins[o]
    ensures Rooted(origins', a)
  {
    var o :| o in origins && origins[o].app == a && origins[o].name == PRIMARY;
    assert origins'[o].app == a;
  }

  lemma RowsFrame(c: Checks, db: Db, db': Db)
    requires RowsInv(c, db) && Extends(db, db') && db'.policies == db.policies && db'.rows == db.rows
    ensures RowsInv(c, db')
  {
    forall p | p in db'.policies ensures RowsOK(c, db', p) {
      assert RowsOK(c, db, p);
    }
  }

  lemma ChainFrame(db: Db, db': Db)
    requires ChainInv(db) && db'.policies == db.policies && db'.versions == db.versions
    requires db'.published == db.published && db'.deployments == db.deployments
    ensures ChainInv(db')
  {
    forall p | p in db'.policies ensures ChainOK(db', p) {
      assert ChainOK(db, p);
    }
    forall v | v in db'.versions ensures NumberOK(db', v) {
      assert NumberOK(db, v);
    }
  }

  lemma SnapshotFrame(db: Db, db': Db)
    requires SnapshotInv(db) && Extends(db, db') && RowsGrow(db, db') && db'.versions == db.versions && db'.sources == db.sources
    ensures SnapshotInv(db')
  {
    forall v | v in db'.versions ensures SnapshotOK(db', v) {
      SnapshotKept(db, db', v);
    }
  }

  lemma SnapshotKept(db: Db, db': Db, v: Id)
    requires v in db.versions && SnapshotOK(db, v) && Extends(db, db') && RowsGrow(db, db')
    requires v in db'.versions && db'.versions[v] == db.versions[v] && v in db'.sources && db'.sources[v] == db.sources[v]
    ensures SnapshotOK(db', v)
  {
    var p, k := db.versions[v].policy, db.sources[v];
    assert db'.rows[p][k] == db.rows[p][k] && db'.rows[p][k + 1] == db.rows[p][k + 1];
  }

  // ----- table operations -----

  lemma InsertAppApps(db: Db, tenant: Tenant, slug: string, info: AppInfo, url: string, a: Id, o: Id, ts: Time)
    requires AppsInv(db) && a !in db.apps && o !in db.origins
    ensures AppsInv(InsertApp(db, tenant, slug, info, url, a, o, ts))
  {
    var db' := InsertApp(db, tenant, slug, info, url, a, o, ts);
    assert db'.origins[o].app == a && db'.origins[o].name == PRIMARY;
    forall b | b in db'.apps ensures Rooted(db'.origins, b) {
      if b != a {
        RootedGrows(db.origins, db'.origins, b);
      }
    }
  }

  lemma InsertAppKeeps(c: Checks, db: Db, tenant: Tenant, slug: string, info: AppInfo, url: string, a: Id, o: Id, ts: Time)
    requires DbInv(c, db) && a !in db.apps && o !in db.origins
    ensures DbInv(c, InsertApp(db, tenant, slug, info, url, a, o, ts))
  {
    var db' := InsertApp(db, tenant, slug, info, url, a, o, ts);
    InsertAppApps(db, tenant, slug, info, url, a, o, ts);
    RowsFrame(c, db, db');
    ChainFrame(db, db');
    SnapshotFrame(db, db');
  }

  lemma PatchAppKeeps(c: Checks, db: Db, a: Id, info: AppInfo)
    requires DbInv(c, db) && a in db.apps
    ensures DbInv(c, db.(apps := db.apps[a := db.apps[a].(info := info)]))
  {
    var db' := db.(apps := db.apps[a := db.apps[a].(info := info)]);
    RowsFrame(c, db, db');
    ChainFrame(db, db');
    SnapshotFrame(db, db');
  }

  lemma InsertPolicyRows(c: Checks, db: Db, p: Id, row: Policy)
    requires RowsInv(c, db) && p !in db.policies && RowOK(c, db, row)
    ensures RowsInv(c, InsertPolicy(db, p, row))
  {
    var db' := InsertPolicy(db, p, row);
    forall q | q in db'.policies ensures RowsOK(c, db', q) {
      assert q != p ==> RowsOK(c, db, q);
    }
  }

  lemma InsertPolicyChain(db: Db, p: Id, row: Policy)
    requires ChainInv(db) && p !in db.policies && row.active == None
    ensures ChainInv(InsertPolicy(db, p, row))
  {
    var db' := InsertPolicy(db, p, row);
    NewChain(db, p, row);
    forall q | q in db.policies ensures ChainOK(db', q) {
      OtherChain(db, db', q);
    }
    forall v | v in db'.versions ensures NumberOK(db', v) {
      OtherNumber(db, db', v);
    }
  }

  lemma NewChain(db: Db, p: Id, row: Policy)
    requires p !in db.deployments && row.active == None
    ensures ChainOK(InsertPolicy(db, p, row), p)
  {
  }

  /** A policy whose row, versions and deployment stay keeps its chain. */
  lemma OtherChain(db: Db, db': Db, q: Id)
    requires ChainOK(db, q) && db'.versions == db.versions && db'.deployments == db.deployments
    requires q in db'.policies && db'.policies[q] == db.policies[q] && q in db'.published && db'.published[q] == db.published[q]
    ensures ChainOK(db', q)
  {
  }

  lemma OtherNumber(db: Db, db': Db, v: Id)
    requires v in db.versions && NumberOK(db, v) && db'.versions == db.versions
    requires forall q | q in db.policies :: q in db'.policies
    requires forall q | q in db.policies && q in db.published :: q in db'.published && db'.published[q] == db.published[q]
    ensures NumberOK(db', v)
  {
  }

  lemma InsertPolicyKeeps(c: Checks, db: Db, p: Id, row: Policy)
    requires DbInv(c, db) && p !in db.policies && RowOK(c, db, row) && row.active == None
    ensures DbInv(c, InsertPolicy(db, p, row))
  {
    InsertPolicyRows(c, db, p, row);
    InsertPolicyChain(db, p, row);
    SnapshotFrame(db, InsertPolicy(db, p, row));
  }

  ghost predicate Written(db: Db, ts: Time) {
    exists p, i :: p in db.rows && 0 <= i < |db.rows[p]| && db.rows[p][i].updatedAt == ts
  }

  lemma WriteRowRows(c: Checks, db: Db, p: Id, row: Policy)
    requires RowsInv(c, db) && p in db.policies && RowOK(c, db, row) && SameOwner(row, db.policies[p])
    requires !Written(db, row.updatedAt)
    ensures RowsInv(c, WriteRow(db, p, row))
  {
    var db' := WriteRow(db, p, row);
    assert RowsOK(c, db, p);
    forall q | q in db'.policies ensures RowsOK(c, db', q) {
      assert RowsOK(c, db, q);
    }
  }

  /** An edit rewrites a row but not its tenant, app or active version. */
  lemma EditChain(db: Db, p: Id, row: Policy)
    requires ChainInv(db) && p in db.policies && SameOwner(row, db.policies[p]) && row.active == db.policies[p].active
    ensures ChainInv(WriteRow(db, p, row))
  {
    var db' := WriteRow(db, p, row);
    EditOwnChain(db, p, row);
    forall q | q in db.policies && q != p ensures ChainOK(db', q) {
      OtherChain(db, db', q);
    }
    forall v | v in db'.versions ensures NumberOK(db', v) {
      OtherNumber(db, db', v);
    }
  }

  lemma EditOwnChain(db: Db, p: Id, row: Policy)
    requires ChainOK(db, p) && SameOwner(row, db.policies[p]) && row.active == db.policies[p].active
    ensures ChainOK(WriteRow(db, p, row), p)
  {
  }

  lemma RowsGrowBy(db: Db, db': Db, p: Id, row: Policy)
    requires db'.rows == db.rows[p := Listed(db.rows, p) + [row]]
    ensures RowsGrow(db, db')
  {
  }

  lemma EditKeeps(c: Checks, db: Db, p: Id, row: Policy)
    requires DbInv(c, db) && p in db.policies && RowOK(c, db, row) && SameOwner(row, db.policies[p])
    requires row.active == db.policies[p].active && !Written(db, row.updatedAt)
    ensures DbInv(c, WriteRow(db, p, row))
  {
    WriteRowRows(c, db, p, row);
    EditChain(db, p, row);
    RowsGrowBy(db, WriteRow(db, p, row), p, row);
    SnapshotFrame(db, WriteRow(db, p, row));
  }

  /** What a publish about to commit has established. */
  ghost predicate Ready(db: Db, tenant: Tenant, st: Stage)
    requires st.PublishCompiled?
  {
    HasPolicy(db, tenant, st.policy) && db.policies[st.policy] == st.row
    && st.vid !in db.versions && st.number == |Listed(db.published, st.policy)| + 1 && !Written(db, st.ts)
    && st.snapshot == Compile(st.row, st.policy, st.vid, st.snapshot.origin, st.snapshot.url, st.ts)
    && OriginOf(db, st.row, st.snapshot.origin, st.snapshot.url)
  }

  function Activated(st: Stage): Policy
    requires st.PublishCompiled?
  {
    st.row.(active := Some(st.vid), updatedAt := st.ts)
  }

  /** A successful publish, table by table. */
  ghost predicate Publishes(db: Db, db': Db, st: Stage)
    requires st.PublishCompiled?
  {
    var p, row := st.policy, st.row;
    db'.apps == db.apps && db'.origins == db.origins
    && db'.versions == db.versions[st.vid := Version(row.tenant, row.app, p, st.number, row.mode, st.snapshot, st.ts)]
    && db'.published == db.published[p := Listed(db.published, p) + [st.vid]]
    && db'.policies == db.policies[p := Activated(st)]
    && db'.rows == db.rows[p := Listed(db.rows, p) + [Activated(st)]]
    && db'.sources == db.sources[st.vid := |Listed(db.rows, p)| - 1]
    && p in db'.deployments && db'.deployments == db.deployments[p := db'.deployments[p]]
    && db'.deployments[p].version == st.vid && db'.deployments[p].deployedAt == st.ts
    && db'.deployments[p].tenant == (if p in db.deployments then db.deployments[p].tenant else row.tenant)
    && db'.deployments[p].app == (if p in db.deployments then db.deployments[p].app else row.app)
  }

  lemma PublishedTables(db: Db, tenant: Tenant, st: Stage)
    requires st.PublishCompiled? && Ready(db, tenant, st)
    ensures Publishes(db, Published(db, tenant, st), st)
  {
  }

  lemma PublishRows(c: Checks, db: Db, db': Db, tenant: Tenant, st: Stage)
    requires RowsInv(c, db) && st.PublishCompiled? && Ready(db, tenant, st) && Publishes(db, db', st)
    ensures RowsInv(c, db')
  {
    assert RowsOK(c, db, st.policy);
    WriteRowRows(c, db, st.policy, Activated(st));
    RowsFrame(c, WriteRow(db, st.policy, Activated(st)), db');
  }

  lemma PublishOwnChain(db: Db, db': Db, tenant: Tenant, st: Stage)
    requires st.PublishCompiled? && Ready(db, tenant, st) && Publishes(db, db', st) && ChainOK(db, st.policy)
    ensures ChainOK(db', st.policy) && NumberOK(db', st.vid)
  {
  }

  lemma PublishOtherChain(db: Db, db': Db, st: Stage, q: Id)
    requires st.PublishCompiled? && Publishes(db, db', st) && st.vid !in db.versions
    requires q != st.policy && ChainOK(db, q)
    ensures ChainOK(db', q)
  {
  }

  lemma PublishOtherNumber(db: Db, db': Db, st: Stage, v: Id)
    requires st.PublishCompiled? && Publishes(db, db', st)
    requires v in db.versions && v != st.vid && NumberOK(db, v)
    ensures NumberOK(db', v)
  {
  }

  lemma PublishChain(db: Db, db': Db, tenant: Tenant, st: Stage)
    requires ChainInv(db) && st.PublishCompiled? && Ready(db, tenant, st) && Publishes(db, db', st)
    ensures ChainInv(db')
  {
    PublishOwnChain(db, db', tenant, st);
    forall q | q in db'.policies ensures ChainOK(db', q) {
      if q != st.policy {
        PublishOtherChain(db, db', st, q);
      }
    }
    forall v | v in db'.versions ensures NumberOK(db', v) {
      if v != st.vid {
        PublishOtherNumber(db, db', st, v);
      }
    }
  }

  lemma PublishOwnSnapshot(db: Db, db': Db, tenant: Tenant, st: Stage)
    requires st.PublishCompiled? && Ready(db, tenant, st) && Publishes(db, db', st)
    requires |Listed(db.rows, st.policy)| > 0 && Listed(db.rows, st.policy)[|Listed(db.rows, st.policy)| - 1] == st.row
    ensures SnapshotOK(db', st.vid)
  {
  }

  lemma PublishSnapshots(c: Checks, db: Db, db': Db, tenant: Tenant, st: Stage)
    requires SnapshotInv(db) && RowsInv(c, db) && st.PublishCompiled? && Ready(db, tenant, st) && Publishes(db, db', st)
    ensures SnapshotInv(db')
  {
    assert RowsOK(c, db, st.policy);
    PublishOwnSnapshot(db, db', tenant, st);
    RowsGrowBy(db, db', st.policy, Activated(st));
    PublishOthersSnapshots(db, db', st);
  }

  lemma PublishOthersSnapshots(db: Db, db': Db, st: Stage)
    requires SnapshotInv(db) && st.PublishCompiled? && Publishes(db, db', st) && RowsGrow(db, db')
    ensures forall v | v in db.versions && v != st.vid :: SnapshotOK(db', v)
  {
    forall v | v in db.versions && v != st.vid ensures SnapshotOK(db', v) {
      assert SnapshotOK(db, v);
      SnapshotKept(db, db', v);
    }
  }

  lemma PublishKeeps(c: Checks, db: Db, tenant: Tenant, st: Stage)
    requires DbInv(c, db) && st.PublishCompiled? && Ready(db, tenant, st)
    ensures DbInv(c, Published(db, tenant, st))
  {
    var db' := Published(db, tenant, st);
    PublishedTables(db, tenant, st);
    PublishRows(c, db, db', tenant, st);
    PublishChain(db, db', tenant, st);
    PublishSnapshots(c, db, db', tenant, st);
  }

  // ----- call invariants -----

  ghost predicate HasTs(st: Stage) { st.EditOpen? || st.PublishOpen? || Holding(st) }

  ghost predicate HasNumber(st: Stage) { st.PublishNumbered? || HasVid(st) }

  ghost predicate HasVid(st: Stage) { st.PublishStamped? || st.PublishCompiled? }

  /** The timestamp was handed to this call and no row carries it yet. */
  ghost predicate TsOK(s: State, t: Tid, ts: Time) { ts in s.stamps && s.stamps[ts] == t && !Written(s.db, ts) }

  /** The call holds the row lock, and the row it read is the current one. */
  ghost predicate LockOK(s: State, t: Tid, st: Stage)
    requires t in s.calls && Holding(st)
  {
    st.policy in s.locks && s.locks[st.policy] == t
    && HasPolicy(s.db, s.calls[t].tenant, st.policy) && s.db.policies[st.policy] == st.row
  }

  ghost predicate VidOK(s: State, t: Tid, vid: Id) { vid in s.ids && s.ids[vid] == t && vid !in s.db.versions }

  ghost predicate SyncOK(s: State, t: Tid)
    requires t in s.calls
  {
    var st := s.calls[t].stage;
    (HasTs(st) ==> TsOK(s, t, st.ts))
    && (Holding(st) ==> LockOK(s, t, st))
    && (HasNumber(st) ==> st.number == |Listed(s.db.published, st.policy)| + 1)
    && (HasVid(st) ==> VidOK(s, t, st.vid))
  }

  ghost predicate DataOK(c: Checks, db: Db, call: Call) {
    match call.stage
    case PolicyAsked(_, _, mode, draft) => c.mode(mode) && c.draft(draft)
    case PolicyApp(a, _, mode, draft) => c.mode(mode) && c.draft(draft) && HasApp(db, call.tenant, a)
    case PatchRead(a, _, _, _) => HasApp(db, call.tenant, a)
    case EditAsked(_, e) => EditValid(c, e)
    case EditOpen(_, e, _) => EditValid(c, e)
    case EditLocked(_, e, _, _) => EditValid(c, e)
    case PublishCompiled(p, ts, row, _, vid, snapshot) =>
      snapshot == Compile(row, p, vid, snapshot.origin, snapshot.url, ts) && OriginOf(db, row, snapshot.origin, snapshot.url)
    case _ => true
  }

  /** Every id in a table and every timestamp in a row has been handed out. */
  ghost predicate IssuedInv(s: State) {
    (forall a | a in s.db.apps :: a in s.ids) && (forall o | o in s.db.origins :: o in s.ids)
    && (forall p | p in s.db.policies :: p in s.ids) && (forall v | v in s.db.versions :: v in s.ids)
    && (forall p, i | p in s.db.rows && 0 <= i < |s.db.rows[p]| :: s.db.rows[p][i].updatedAt in s.stamps)
  }

  /** A lock is held by a call that is working on the row. */
  ghost predicate HeldInv(s: State) {
    forall p | p in s.locks ::
      s.locks[p] in s.calls && Holding(s.calls[s.locks[p]].stage) && s.calls[s.locks[p]].stage.policy == p
  }

  ghost predicate SyncInv(s: State) { forall t | t in s.calls :: SyncOK(s, t) }

  ghost predicate DataInv(c: Checks, s: State) { forall t | t in s.calls :: DataOK(c, s.db, s.calls[t]) }

  ghost predicate CallsInv(c: Checks, s: State) { IssuedInv(s) && HeldInv(s) && SyncInv(s) && DataInv(c, s) }

  ghost predicate Inv(c: Checks, s: State) { DbInv(c, s.db) && CallsInv(c, s) }

  // ----- what a step may do to the other calls -----

  /** A step of call `t`, which touches no policy but those in `ps`. */
  ghost predicate Guarded(s: State, s': State, t: Tid, ps: set<Id>) {
    t in s'.calls && s'.calls == s.calls[t := s'.calls[t]]
    && (forall p | p in ps && p in s.locks :: s.locks[p] == t)
    && (forall q | q in s.locks && q !in ps :: q in s'.locks && s'.locks[q] == s.locks[q])
    && (forall q | q in s.db.policies && q !in ps :: q in s'.db.policies && s'.db.policies[q] == s.db.policies[q])
    && (forall q | q !in ps :: Listed(s'.db.published, q) == Listed(s.db.published, q))
  }

  /** Only the call's own ids and timestamps are used. */
  ghost predicate OwnIds(s: State, s': State, t: Tid) {
    (forall x | x in s.stamps :: x in s'.stamps && s'.stamps[x] == s.stamps[x])
    && (forall x | x in s.ids :: x in s'.ids && s'.ids[x] == s.ids[x])
    && (forall v | v in s'.db.versions :: v in s.db.versions || (v in s'.ids && s'.ids[v] == t))
    && (forall ts | ts in s'.stamps && s'.stamps[ts] != t && Written(s'.db, ts) :: Written(s.db, ts))
  }

  lemma OthersSync(s: State, s': State, t: Tid, ps: set<Id>, u: Tid)
    requires Guarded(s, s', t, ps) && OwnIds(s, s', t) && u in s.calls && u != t && SyncOK(s, u)
    ensures SyncOK(s', u)
  {
  }

  lemma SyncKeeps(s: State, s': State, t: Tid, ps: set<Id>)
    requires SyncInv(s) && Guarded(s, s', t, ps) && OwnIds(s, s', t) && SyncOK(s', t)
    ensures SyncInv(s')
  {
    forall u | u in s'.calls ensures SyncOK(s', u) {
      if u != t {
        OthersSync(s, s', t, ps, u);
      }
    }
  }

  lemma DataKeeps(c: Checks, s: State, s': State, t: Tid)
    requires DataInv(c, s) && Extends(s.db, s'.db) && t in s'.calls && s'.calls == s.calls[t := s'.calls[t]]
    requires DataOK(c, s'.db, s'.calls[t])
    ensures DataInv(c, s')
  {
    forall u | u in s'.calls ensures DataOK(c, s'.db, s'.calls[u]) {
      assert u != t ==> DataOK(c, s.db, s.calls[u]);
    }
  }

  // ----- steps that leave the tables alone -----

  /** The step of `t` draws ids and a timestamp, changes `t`'s stage and nothing else but locks. */
  ghost predicate Quiet(s: State, s': State, t: Tid) {
    s'.db == s.db && t in s'.calls && s'.calls == s.calls[t := s'.calls[t]]
    && (forall x | x in s.stamps :: x in s'.stamps && s'.stamps[x] == s.stamps[x])
    && (forall x | x in s.ids :: x in s'.ids && s'.ids[x] == s.ids[x])
  }

  lemma QuietKeeps(c: Checks, s: State, s': State, t: Tid, ps: set<Id>)
    requires CallsInv(c, s) && Quiet(s, s', t) && HeldInv(s')
    requires forall p | p in ps && p in s.locks :: s.locks[p] == t
    requires forall q | q in s.locks && q !in ps :: q in s'.locks && s'.locks[q] == s.locks[q]
    requires SyncOK(s', t) && DataOK(c, s'.db, s'.calls[t])
    ensures CallsInv(c, s')
  {
    SyncKeeps(s, s', t, ps);
    DataKeeps(c, s, s', t);
  }

  /** The state after a step of `t` with effect `e`. */
  ghost predicate After(s: State, s': State, t: Tid, ch: Choice, e: Effect) {
    t in s.calls
    && s' == State(e.db, e.locks, s.calls[t := Call(s.calls[t].tenant, e.stage)], s.stamps[ch.ts := t], s.ids[ch.id := t][ch.id2 := t])
  }

  lemma AfterQuiet(s: State, s': State, t: Tid, ch: Choice, e: Effect)
    requires After(s, s', t, ch, e) && Fresh(s, ch) && e.db == s.db
    ensures Quiet(s, s', t)
  {
  }

  lemma FreshUnwritten(s: State, ts: Time)
    requires IssuedInv(s) && ts !in s.stamps
    ensures !Written(s.db, ts)
  {
  }

  /** A call without lock moves to a stage without lock, perhaps with a new timestamp. */
  lemma UnlockedKeeps(c: Checks, s: State, s': State, t: Tid, ch: Choice, e: Effect)
    requires CallsInv(c, s) && Fresh(s, ch) && After(s, s', t, ch, e) && !Holding(s.calls[t].stage)
    requires e.db == s.db && e.locks == s.locks && !Holding(e.stage)
    requires (HasTs(e.stage) ==> e.stage.ts == ch.ts) && DataOK(c, s.db, Call(s.calls[t].tenant, e.stage))
    ensures CallsInv(c, s')
  {
    AfterQuiet(s, s', t, ch, e);
    FreshUnwritten(s, ch.ts);
    QuietKeeps(c, s, s', t, {});
  }

  /** `SELECT ... FOR UPDATE` finds the row free. */
  lemma LockKeeps(c: Checks, s: State, s': State, t: Tid, ch: Choice, e: Effect)
    requires CallsInv(c, s) && Fresh(s, ch) && After(s, s', t, ch, e) && Waits(s.calls[t].stage)
    requires var st := s.calls[t].stage;
             st.policy !in s.locks && HasPolicy(s.db, s.calls[t].tenant, st.policy)
             && e.db == s.db && e.locks == s.locks[st.policy := t]
             && Holding(e.stage) && !HasNumber(e.stage)
             && e.stage.policy == st.policy && e.stage.ts == st.ts && e.stage.row == s.db.policies[st.policy]
    requires DataOK(c, s.db, Call(s.calls[t].tenant, e.stage))
    ensures CallsInv(c, s')
  {
    AfterQuiet(s, s', t, ch, e);
    assert SyncOK(s, t);
    QuietKeeps(c, s, s', t, {s.calls[t].stage.policy});
  }

  /** A publish that holds the row goes on to its next statement. */
  lemma PrepareKeeps(c: Checks, s: State, s': State, t: Tid, ch: Choice, e: Effect)
    requires CallsInv(c, s) && Fresh(s, ch) && After(s, s', t, ch, e) && Holding(s.calls[t].stage)
    requires var st := s.calls[t].stage;
             e.db == s.db && e.locks == s.locks
             && Holding(e.stage) && e.stage.policy == st.policy && e.stage.ts == st.ts && e.stage.row == st.row
             && (HasNumber(e.stage) ==> e.stage.number == |Listed(s.db.published, st.policy)| + 1)
             && (HasVid(e.stage) ==> if HasVid(st) then e.stage.vid == st.vid else e.stage.vid == ch.id)
    requires DataOK(c, s.db, Call(s.calls[t].tenant, e.stage))
    ensures CallsInv(c, s')
  {
    AfterQuiet(s, s', t, ch, e);
    assert SyncOK(s, t);
    QuietKeeps(c, s, s', t, {});
  }

  /** The locks once a call at this stage has ended. */
  function LocksAfter(s: State, t: Tid): map<Id, Tid>
    requires t in s.calls
  {
    var st := s.calls[t].stage;
    if Holding(st) then s.locks - {st.policy} else s.locks
  }

  /** The policies a call at this stage may touch. */
  function Owned(s: State, t: Tid): set<Id>
    requires t in s.calls
  {
    if Holding(s.calls[t].stage) then {s.calls[t].stage.policy} else {}
  }

  lemma HeldEnds(s: State, s': State, t: Tid)
    requires HeldInv(s) && SyncInv(s) && t in s.calls && t in s'.calls && s'.calls == s.calls[t := s'.calls[t]]
    requires s'.locks == LocksAfter(s, t)
    ensures HeldInv(s')
    ensures forall p | p in Owned(s, t) && p in s.locks :: s.locks[p] == t
    ensures forall q | q in s.locks && q !in Owned(s, t) :: q in s'.locks && s'.locks[q] == s.locks[q]
  {
    assert SyncOK(s, t);
  }

  /** A call ends without writing and drops its lock. */
  lemma EndKeeps(c: Checks, s: State, s': State, t: Tid)
    requires CallsInv(c, s) && t in s.calls && Quiet(s, s', t) && s'.locks == LocksAfter(s, t) && s'.calls[t].stage.Finished?
    ensures CallsInv(c, s')
  {
    HeldEnds(s, s', t);
    QuietKeeps(c, s, s', t, Owned(s, t));
  }

  // ----- commits -----

  /** A commit ends the call, drops its lock and changes tables only by its own ids. */
  lemma CommitKeeps(c: Checks, s: State, s': State, t: Tid, ch: Choice, e: Effect, ps: set<Id>)
    requires CallsInv(c, s) && Fresh(s, ch) && After(s, s', t, ch, e) && e.stage.Finished? && e.locks == LocksAfter(s, t)
    requires Guarded(s, s', t, ps) && OwnIds(s, s', t) && Extends(s.db, s'.db) && IssuedInv(s')
    ensures CallsInv(c, s')
  {
    HeldEnds(s, s', t);
    SyncKeeps(s, s', t, ps);
    DataKeeps(c, s, s', t);
  }

  lemma WrittenBy(db: Db, db': Db, p: Id, row: Policy, ts: Time)
    requires db'.rows == db.rows[p := Listed(db.rows, p) + [row]] || db'.rows == db.rows[p := [row]]
    requires ts != row.updatedAt && Written(db', ts)
    ensures Written(db, ts)
  {
    var q, i :| q in db'.rows && 0 <= i < |db'.rows[q]| && db'.rows[q][i].updatedAt == ts;
    assert q in db.rows && i < |db.rows[q]| && db.rows[q][i].updatedAt == ts;
  }

  lemma NoRowWritten(s: State, s': State, t: Tid, ch: Choice, e: Effect)
    requires IssuedInv(s) && Fresh(s, ch) && After(s, s', t, ch, e) && Extends(s.db, e.db)
    requires e.db == s.db.(apps := e.db.apps, origins := e.db.origins)
    requires e.db.apps.Keys <= s.db.apps.Keys + {ch.id} && e.db.origins.Keys <= s.db.origins.Keys + {ch.id2}
    ensures IssuedInv(s')
  {
  }

  lemma NoRowOwn(s: State, s': State, t: Tid, ch: Choice, e: Effect)
    requires Fresh(s, ch) && After(s, s', t, ch, e) && e.db == s.db.(apps := e.db.apps, origins := e.db.origins)
    ensures OwnIds(s, s', t)
  {
    assert s'.db.rows == s.db.rows;
  }

  lemma AppCommitKeeps(c: Checks, s: State, s': State, t: Tid, ch: Choice, e: Effect)
    requires CallsInv(c, s) && Fresh(s, ch) && After(s, s', t, ch, e) && e.stage.Finished?
    requires !Holding(s.calls[t].stage) && e.locks == s.locks && Extends(s.db, e.db)
    requires e.db == s.db.(apps := e.db.apps, origins := e.db.origins)
    requires e.db.apps.Keys <= s.db.apps.Keys + {ch.id} && e.db.origins.Keys <= s.db.origins.Keys + {ch.id2}
    ensures CallsInv(c, s')
  {
    NoRowWritten(s, s', t, ch, e);
    NoRowOwn(s, s', t, ch, e);
    CommitKeeps(c, s, s', t, ch, e, {});
  }

  /** The step writes one row of policy `p`, stamped with a timestamp of `t`, and adds at most one version of its own. */
  ghost predicate WritesRow(s: State, db': Db, t: Tid, p: Id, row: Policy) {
    db'.apps == s.db.apps && db'.origins == s.db.origins && db'.policies == s.db.policies[p := row]
    && (db'.rows == s.db.rows[p := Listed(s.db.rows, p) + [row]] || db'.rows == s.db.rows[p := [row]])
    && (forall v | v in db'.versions :: v in s.db.versions || (v in s.ids && s.ids[v] == t))
    && (forall q | q != p :: Listed(db'.published, q) == Listed(s.db.published, q))
  }

  lemma RowWritten(s: State, s': State, t: Tid, ch: Choice, e: Effect, p: Id, row: Policy)
    requires IssuedInv(s) && Fresh(s, ch) && After(s, s', t, ch, e) && WritesRow(s, e.db, t, p, row)
    requires p in s'.ids && row.updatedAt in s'.stamps && s'.stamps[row.updatedAt] == t
    ensures IssuedInv(s') && OwnIds(s, s', t)
  {
    forall ts | ts in s'.stamps && s'.stamps[ts] != t && Written(s'.db, ts) ensures Written(s.db, ts) {
      WrittenBy(s.db, s'.db, p, row, ts);
    }
  }

  lemma RowGuarded(s: State, s': State, t: Tid, ch: Choice, e: Effect, p: Id, row: Policy)
    requires After(s, s', t, ch, e) && WritesRow(s, e.db, t, p, row)
    requires p in s.locks ==> s.locks[p] == t
    requires forall q | q in s.locks && q != p :: q in e.locks && e.locks[q] == s.locks[q]
    ensures Guarded(s, s', t, {p}) && Extends(s.db, s'.db)
  {
  }

  lemma RowCommitKeeps(c: Checks, s: State, s': State, t: Tid, ch: Choice, e: Effect, p: Id, row: Policy)
    requires CallsInv(c, s) && Fresh(s, ch) && After(s, s', t, ch, e) && e.stage.Finished? && e.locks == LocksAfter(s, t)
    requires WritesRow(s, e.db, t, p, row) && p in s'.ids && row.updatedAt in s'.stamps && s'.stamps[row.updatedAt] == t
    requires Owned(s, t) <= {p} && (p in s.locks ==> s.locks[p] == t)
    ensures CallsInv(c, s')
  {
    HeldEnds(s, s', t);
    RowWritten(s, s', t, ch, e, p, row);
    RowGuarded(s, s', t, ch, e, p, row);
    CommitKeeps(c, s, s', t, ch, e, {p});
  }

  lemma LockedIssued(s: State)
    requires IssuedInv(s) && HeldInv(s) && SyncInv(s)
    ensures forall p | p in s.locks :: p in s.ids
  {
    forall p | p in s.locks ensures p in s.ids {
      assert SyncOK(s, s.locks[p]);
    }
  }

  lemma PolicyCommitKeeps(c: Checks, s: State, s': State, t: Tid, ch: Choice, e: Effect, row: Policy)
    requires CallsInv(c, s) && Fresh(s, ch) && After(s, s', t, ch, e) && e.stage.Finished?
    requires !Holding(s.calls[t].stage) && e.locks == s.locks && row.updatedAt == ch.ts
    requires e.db == InsertPolicy(s.db, ch.id, row)
    ensures CallsInv(c, s')
  {
    LockedIssued(s);
    RowCommitKeeps(c, s, s', t, ch, e, ch.id, row);
  }

  lemma EditCommitKeeps(c: Checks, s: State, s': State, t: Tid, ch: Choice, e: Effect, row: Policy)
    requires CallsInv(c, s) && Fresh(s, ch) && After(s, s', t, ch, e) && e.stage.Finished?
    requires s.calls[t].stage.EditLocked? && e.locks == LocksAfter(s, t) && row.updatedAt == s.calls[t].stage.ts
    requires e.db == WriteRow(s.db, s.calls[t].stage.policy, row)
    ensures CallsInv(c, s')
  {
    assert SyncOK(s, t);
    RowCommitKeeps(c, s, s', t, ch, e, s.calls[t].stage.policy, row);
  }

  lemma PublishCommitKeeps(c: Checks, s: State, s': State, t: Tid, ch: Choice, e: Effect)
    requires CallsInv(c, s) && Fresh(s, ch) && After(s, s', t, ch, e) && e.stage.Finished?
    requires s.calls[t].stage.PublishCompiled? && e.locks == LocksAfter(s, t)
    requires Publishes(s.db, e.db, s.calls[t].stage)
    ensures CallsInv(c, s')
  {
    var st := s.calls[t].stage;
    assert SyncOK(s, t);
    RowCommitKeeps(c, s, s', t, ch, e, st.policy, Activated(st));
  }

  // ----- every step -----

  function Effects(c: Checks, s: State, t: Tid, ch: Choice): Effect
    requires t in s.calls
  {
    Act(c, s.db, s.locks, t, s.calls[t].tenant, s.calls[t].stage, ch)
  }

  lemma GoAfter(c: Checks, s: State, t: Tid, ch: Choice)
    requires Enabled(s, Go(t, ch))
    ensures Fresh(s, ch) && After(s, Next(c, s, Go(t, ch)), t, ch, Effects(c, s, t, ch))
  {
  }

  /** The stages that neither hold nor take a lock nor write. */
  predicate Light(st: Stage) {
    st.PatchAsked? || st.PolicyAsked? || st.EditAsked? || st.PublishAsked? || st.PublishChecked?
  }

  lemma LightEffect(c: Checks, db: Db, locks: map<Id, Tid>, t: Tid, tenant: Tenant, st: Stage, ch: Choice)
    requires Light(st) && DataOK(c, db, Call(tenant, st))
    ensures var e := Act(c, db, locks, t, tenant, st, ch);
            e.db == db && e.locks == locks && !Holding(e.stage) && (HasTs(e.stage) ==> e.stage.ts == ch.ts)
            && DataOK(c, db, Call(tenant, e.stage))
  {
  }

  lemma LightStep(c: Checks, s: State, s': State, t: Tid, ch: Choice)
    requires CallsInv(c, s) && Fresh(s, ch) && t in s.calls && After(s, s', t, ch, Effects(c, s, t, ch))
    requires Light(s.calls[t].stage)
    ensures s'.db == s.db && CallsInv(c, s')
  {
    assert DataOK(c, s.db, s.calls[t]);
    LightEffect(c, s.db, s.locks, t, s.calls[t].tenant, s.calls[t].stage, ch);
    UnlockedKeeps(c, s, s', t, ch, Effects(c, s, t, ch));
  }

  lemma OpenEffect(c: Checks, db: Db, locks: map<Id, Tid>, t: Tid, tenant: Tenant, st: Stage, ch: Choice)
    requires Waits(st) && DataOK(c, db, Call(tenant, st))
    ensures var e := Act(c, db, locks, t, tenant, st, ch);
            e.db == db
            && if HasPolicy(db, tenant, st.policy)
               then e.locks == locks[st.policy := t] && Holding(e.stage) && !HasNumber(e.stage)
                    && e.stage.policy == st.policy && e.stage.ts == st.ts && e.stage.row == db.policies[st.policy]
                    && DataOK(c, db, Call(tenant, e.stage))
               else e.locks == locks && e.stage == Finished(NotFound)
  {
  }

  lemma OpenStep(c: Checks, s: State, s': State, t: Tid, ch: Choice)
    requires CallsInv(c, s) && Fresh(s, ch) && t in s.calls && After(s, s', t, ch, Effects(c, s, t, ch))
    requires Waits(s.calls[t].stage) && Enabled(s, Go(t, ch))
    ensures s'.db == s.db && CallsInv(c, s')
  {
    var st := s.calls[t].stage;
    assert DataOK(c, s.db, s.calls[t]);
    OpenEffect(c, s.db, s.locks, t, s.calls[t].tenant, st, ch);
    if HasPolicy(s.db, s.calls[t].tenant, st.policy) {
      LockKeeps(c, s, s', t, ch, Effects(c, s, t, ch));
    } else {
      UnlockedKeeps(c, s, s', t, ch, Effects(c, s, t, ch));
    }
  }

  /** The next number is the length of the list of versions plus one. */
  lemma NextNumberIs(db: Db, p: Id, n: int)
    requires ChainInv(db) && p in db.policies && IsNextNumber(db, p, n)
    ensures n == |Listed(db.published, p)| + 1
  {
    assert ChainOK(db, p);
    var vs := db.published[p];
    if n > 1 {
      var v :| v in db.versions && db.versions[v].policy == p && db.versions[v].number == n - 1;
      assert NumberOK(db, v);
    }
    assert |vs| > 0 ==> db.versions[vs[|vs| - 1]].number == |vs|;
  }

  lemma NumberEffect(c: Checks, db: Db, locks: map<Id, Tid>, t: Tid, tenant: Tenant, st: Stage, ch: Choice)
    requires st.PublishLocked? || st.PublishNumbered?
    ensures var e := Act(c, db, locks, t, tenant, st, ch);
            e.db == db && e.locks == locks && Holding(e.stage)
            && e.stage.policy == st.policy && e.stage.ts == st.ts && e.stage.row == st.row
            && (if st.PublishLocked? then e.stage.PublishNumbered? else e.stage.PublishStamped?)
            && e.stage.number == (if st.PublishLocked? then ch.number else st.number)
            && (HasVid(e.stage) ==> e.stage.vid == ch.id)
            && DataOK(c, db, Call(tenant, e.stage))
  {
  }

  lemma NumberStep(c: Checks, s: State, s': State, t: Tid, ch: Choice)
    requires CallsInv(c, s) && ChainInv(s.db) && Fresh(s, ch) && t in s.calls && After(s, s', t, ch, Effects(c, s, t, ch))
    requires s.calls[t].stage.PublishLocked? || s.calls[t].stage.PublishNumbered?
    requires Enabled(s, Go(t, ch))
    ensures s'.db == s.db && CallsInv(c, s')
  {
    var st := s.calls[t].stage;
    assert SyncOK(s, t);
    NumberEffect(c, s.db, s.locks, t, s.calls[t].tenant, st, ch);
    if st.PublishLocked? {
      NextNumberIs(s.db, st.policy, ch.number);
    }
    PrepareKeeps(c, s, s', t, ch, Effects(c, s, t, ch));
  }

  /** The origin query names no tenant, yet finds an origin of the policy's own tenant. */
  lemma CompileEffect(c: Checks, db: Db, locks: map<Id, Tid>, t: Tid, tenant: Tenant, st: Stage, ch: Choice)
    requires st.PublishStamped? && AppsInv(db) && HasApp(db, st.row.tenant, st.row.app)
    ensures var e := Act(c, db, locks, t, tenant, st, ch);
            e.db == db
            && if IsPrimaryOrigin(db, st.row.app, ch.origin)
               then e.locks == locks && e.stage.PublishCompiled? && e.stage.policy == st.policy && e.stage.ts == st.ts
                    && e.stage.row == st.row && e.stage.number == st.number && e.stage.vid == st.vid
                    && DataOK(c, db, Call(tenant, e.stage))
               else e.locks == locks - {st.policy} && e.stage == Finished(NotFound)
  {
    assert ch.origin in db.origins ==> OriginOK(db, db.origins[ch.origin]);
  }

  lemma CompileStep(c: Checks, s: State, s': State, t: Tid, ch: Choice)
    requires CallsInv(c, s) && AppsInv(s.db) && Fresh(s, ch) && t in s.calls && After(s, s', t, ch, Effects(c, s, t, ch))
    requires s.calls[t].stage.PublishStamped?
    requires HasApp(s.db, s.calls[t].stage.row.tenant, s.calls[t].stage.row.app)
    ensures s'.db == s.db && CallsInv(c, s')
  {
    var st := s.calls[t].stage;
    assert SyncOK(s, t);
    CompileEffect(c, s.db, s.locks, t, s.calls[t].tenant, st, ch);
    if IsPrimaryOrigin(s.db, st.row.app, ch.origin) {
      PrepareKeeps(c, s, s', t, ch, Effects(c, s, t, ch));
    } else {
      AfterQuiet(s, s', t, ch, Effects(c, s, t, ch));
      EndKeeps(c, s, s', t);
    }
  }

  lemma AppEffect(c: Checks, db: Db, locks: map<Id, Tid>, t: Tid, tenant: Tenant, st: Stage, ch: Choice)
    requires st.AppAsked?
    ensures var e := Act(c, db, locks, t, tenant, st, ch);
            e.locks == locks && e.stage.Finished?
            && (e.db != db ==> !SlugTaken(db, tenant, st.slug))
            && (e.db == db || e.db == InsertApp(db, tenant, st.slug, st.info, st.url, ch.id, ch.id2, ch.ts))
  {
  }

  lemma AppTables(c: Checks, s: State, t: Tid, ch: Choice)
    requires DbInv(c, s.db) && t in s.calls && s.calls[t].stage.AppAsked? && ch.id !in s.db.apps && ch.id2 !in s.db.origins
    ensures DbInv(c, Effects(c, s, t, ch).db)
  {
    var st, tenant := s.calls[t].stage, s.calls[t].tenant;
    AppEffect(c, s.db, s.locks, t, tenant, st, ch);
    InsertAppKeeps(c, s.db, tenant, st.slug, st.info, st.url, ch.id, ch.id2, ch.ts);
  }

  lemma InsertAppExtends(db: Db, tenant: Tenant, slug: string, info: AppInfo, url: string, a: Id, o: Id, ts: Time)
    requires a !in db.apps && o !in db.origins
    ensures Extends(db, InsertApp(db, tenant, slug, info, url, a, o, ts))
  {
  }

  lemma AppStep(c: Checks, s: State, s': State, t: Tid, ch: Choice)
    requires CallsInv(c, s) && Fresh(s, ch) && t in s.calls && After(s, s', t, ch, Effects(c, s, t, ch))
    requires s.calls[t].stage.AppAsked?
    ensures CallsInv(c, s')
  {
    var st, tenant := s.calls[t].stage, s.calls[t].tenant;
    AppEffect(c, s.db, s.locks, t, tenant, st, ch);
    assert ch.id !in s.db.apps && ch.id2 !in s.db.origins;
    InsertAppExtends(s.db, tenant, st.slug, st.info, st.url, ch.id, ch.id2, ch.ts);
    AppCommitKeeps(c, s, s', t, ch, Effects(c, s, t, ch));
  }

  /** Every app keeps its first origin's name taken, so replacing an origin fails. */
  lemma PatchEffect(c: Checks, db: Db, locks: map<Id, Tid>, t: Tid, tenant: Tenant, st: Stage, ch: Choice)
    requires st.PatchRead? && AppsInv(db)
    ensures var e := Act(c, db, locks, t, tenant, st, ch);
            e.locks == locks && e.stage.Finished?
            && (e.stage.outcome == Succeeded <==> HasApp(db, tenant, st.app) && st.newUrl.None?)
            && if e.stage.outcome == Succeeded
               then e.db == db.(apps := db.apps[st.app := db.apps[st.app].(info := Patched(st.read, st.patch))])
               else e.db == db
  {
  }

  lemma PatchTables(c: Checks, s: State, t: Tid, ch: Choice)
    requires DbInv(c, s.db) && t in s.calls && s.calls[t].stage.PatchRead?
    ensures DbInv(c, Effects(c, s, t, ch).db)
  {
    var st := s.calls[t].stage;
    PatchEffect(c, s.db, s.locks, t, s.calls[t].tenant, st, ch);
    if st.app in s.db.apps {
      PatchAppKeeps(c, s.db, st.app, Patched(st.read, st.patch));
    }
  }

  lemma PatchStep(c: Checks, s: State, s': State, t: Tid, ch: Choice)
    requires CallsInv(c, s) && AppsInv(s.db) && Fresh(s, ch) && t in s.calls && After(s, s', t, ch, Effects(c, s, t, ch))
    requires s.calls[t].stage.PatchRead?
    ensures CallsInv(c, s')
  {
    PatchEffect(c, s.db, s.locks, t, s.calls[t].tenant, s.calls[t].stage, ch);
    AppCommitKeeps(c, s, s', t, ch, Effects(c, s, t, ch));
  }

  function NewPolicy(tenant: Tenant, st: Stage, ts: Time): Policy
    requires st.PolicyApp?
  {
    Policy(tenant, st.app, st.name, st.mode, true, st.draft, None, ts)
  }

  lemma PolicyEffect(c: Checks, db: Db, locks: map<Id, Tid>, t: Tid, tenant: Tenant, st: Stage, ch: Choice)
    requires st.PolicyApp?
    ensures var e := Act(c, db, locks, t, tenant, st, ch);
            e.locks == locks && e.stage.Finished?
            && (e.db != db ==> !NameTaken(db, st.app, st.name, ch.id))
            && (e.db == db || e.db == InsertPolicy(db, ch.id, NewPolicy(tenant, st, ch.ts)))
  {
  }

  lemma PolicyTables(c: Checks, s: State, t: Tid, ch: Choice)
    requires DbInv(c, s.db) && t in s.calls && s.calls[t].stage.PolicyApp? && DataOK(c, s.db, s.calls[t]) && ch.id !in s.db.policies
    ensures DbInv(c, Effects(c, s, t, ch).db)
  {
    var st, tenant := s.calls[t].stage, s.calls[t].tenant;
    PolicyEffect(c, s.db, s.locks, t, tenant, st, ch);
    InsertPolicyKeeps(c, s.db, ch.id, NewPolicy(tenant, st, ch.ts));
  }

  lemma PolicyStep(c: Checks, s: State, s': State, t: Tid, ch: Choice)
    requires CallsInv(c, s) && Fresh(s, ch) && t in s.calls && After(s, s', t, ch, Effects(c, s, t, ch))
    requires s.calls[t].stage.PolicyApp?
    ensures CallsInv(c, s')
  {
    var st, tenant, e := s.calls[t].stage, s.calls[t].tenant, Effects(c, s, t, ch);
    PolicyEffect(c, s.db, s.locks, t, tenant, st, ch);
    if e.db != s.db {
      PolicyCommitKeeps(c, s, s', t, ch, e, NewPolicy(tenant, st, ch.ts));
    } else {
      UnlockedKeeps(c, s, s', t, ch, e);
    }
  }

  /** When the locked row is current, an edit writes exactly the edited row, or nothing;
      it conflicts exactly when the row's timestamp is not the expected one. */
  lemma EditEffect(c: Checks, db: Db, locks: map<Id, Tid>, t: Tid, tenant: Tenant, st: Stage, ch: Choice)
    requires st.EditLocked? && HasPolicy(db, tenant, st.policy) && db.policies[st.policy] == st.row
    ensures var e := Act(c, db, locks, t, tenant, st, ch);
            e.locks == locks - {st.policy} && e.stage.Finished?
            && (e.stage.outcome == Conflict <==> st.row.updatedAt != st.edit.expected)
            && (e.stage.outcome == Succeeded ==> !NameTaken(db, st.row.app, Edited(st.row, st.edit, st.ts).name, st.policy))
            && if e.stage.outcome == Succeeded then e.db == WriteRow(db, st.policy, Edited(st.row, st.edit, st.ts)) else e.db == db
  {
  }

  lemma EditTables(c: Checks, s: State, t: Tid, ch: Choice)
    requires DbInv(c, s.db) && t in s.calls && s.calls[t].stage.EditLocked? && SyncOK(s, t) && DataOK(c, s.db, s.calls[t])
    ensures DbInv(c, Effects(c, s, t, ch).db)
  {
    var st := s.calls[t].stage;
    EditEffect(c, s.db, s.locks, t, s.calls[t].tenant, st, ch);
    assert RowsOK(c, s.db, st.policy);
    EditKeeps(c, s.db, st.policy, Edited(st.row, st.edit, st.ts));
  }

  lemma EditStep(c: Checks, s: State, s': State, t: Tid, ch: Choice)
    requires CallsInv(c, s) && Fresh(s, ch) && t in s.calls && After(s, s', t, ch, Effects(c, s, t, ch))
    requires s.calls[t].stage.EditLocked?
    ensures CallsInv(c, s')
  {
    var st, e := s.calls[t].stage, Effects(c, s, t, ch);
    assert SyncOK(s, t);
    EditEffect(c, s.db, s.locks, t, s.calls[t].tenant, st, ch);
    if e.stage.outcome == Succeeded {
      EditCommitKeeps(c, s, s', t, ch, e, Edited(st.row, st.edit, st.ts));
    } else {
      AfterQuiet(s, s', t, ch, e);
      EndKeeps(c, s, s', t);
    }
  }

  lemma ReadyFree(db: Db, tenant: Tenant, st: Stage)
    requires ChainInv(db) && st.PublishCompiled? && Ready(db, tenant, st)
    ensures !NumberTaken(db, st.policy, st.number) && st.number > 0
  {
    forall v | v in db.versions && db.versions[v].policy == st.policy ensures db.versions[v].number != st.number {
      assert NumberOK(db, v);
    }
  }

  /** No constraint can fail at the end of a publish. */
  lemma PublishEffect(c: Checks, db: Db, locks: map<Id, Tid>, t: Tid, tenant: Tenant, st: Stage, ch: Choice)
    requires ChainInv(db) && st.PublishCompiled? && Ready(db, tenant, st) && c.mode(st.row.mode)
    ensures var e := Act(c, db, locks, t, tenant, st, ch);
            e.locks == locks - {st.policy} && e.stage == Finished(Succeeded) && e.db == Published(db, tenant, st)
            && Publishes(db, e.db, st)
  {
    ReadyFree(db, tenant, st);
    PublishedTables(db, tenant, st);
  }

  lemma PublishTables(c: Checks, s: State, t: Tid, ch: Choice)
    requires DbInv(c, s.db) && t in s.calls && s.calls[t].stage.PublishCompiled? && SyncOK(s, t) && DataOK(c, s.db, s.calls[t])
    ensures DbInv(c, Effects(c, s, t, ch).db)
    ensures c.mode(s.calls[t].stage.row.mode) && Ready(s.db, s.calls[t].tenant, s.calls[t].stage)
  {
    var st, tenant := s.calls[t].stage, s.calls[t].tenant;
    assert RowsOK(c, s.db, st.policy);
    PublishEffect(c, s.db, s.locks, t, tenant, st, ch);
    PublishKeeps(c, s.db, tenant, st);
  }

  lemma PublishStep(c: Checks, s: State, s': State, t: Tid, ch: Choice)
    requires CallsInv(c, s) && ChainInv(s.db) && Fresh(s, ch) && t in s.calls && After(s, s', t, ch, Effects(c, s, t, ch))
    requires s.calls[t].stage.PublishCompiled? && c.mode(s.calls[t].stage.row.mode)
    requires Ready(s.db, s.calls[t].tenant, s.calls[t].stage)
    ensures CallsInv(c, s')
  {
    var st, tenant := s.calls[t].stage, s.calls[t].tenant;
    PublishEffect(c, s.db, s.locks, t, tenant, st, ch);
    PublishCommitKeeps(c, s, s', t, ch, Effects(c, s, t, ch));
  }

  lemma StartStep(c: Checks, s: State, step: Step)
    requires CallsInv(c, s) && step.Start? && Enabled(s, step)
    ensures Next(c, s, step).db == s.db && CallsInv(c, Next(c, s, step))
  {
    var s' := Next(c, s, step);
    QuietKeeps(c, s, s', step.t, {});
  }

  lemma AbortStep(c: Checks, s: State, step: Step)
    requires CallsInv(c, s) && step.Abort? && Enabled(s, step)
    ensures Next(c, s, step).db == s.db && CallsInv(c, Next(c, s, step))
  {
    EndKeeps(c, s, Next(c, s, step), step.t);
  }

  predicate Writes(st: Stage) { st.AppAsked? || st.PatchRead? || st.PolicyApp? || st.EditLocked? || st.PublishCompiled? }

  lemma WritingTables(c: Checks, s: State, t: Tid, ch: Choice)
    requires Inv(c, s) && Enabled(s, Go(t, ch)) && Writes(s.calls[t].stage)
    ensures DbInv(c, Effects(c, s, t, ch).db)
  {
    assert SyncOK(s, t) && DataOK(c, s.db, s.calls[t]);
    match s.calls[t].stage {
      case AppAsked(_, _, _) => AppTables(c, s, t, ch);
      case PatchRead(_, _, _, _) => PatchTables(c, s, t, ch);
      case PolicyApp(_, _, _, _) => PolicyTables(c, s, t, ch);
      case EditLocked(_, _, _, _) => EditTables(c, s, t, ch);
      case PublishCompiled(_, _, _, _, _, _) => PublishTables(c, s, t, ch);
    }
  }

  lemma WritingCalls(c: Checks, s: State, s': State, t: Tid, ch: Choice)
    requires Inv(c, s) && Fresh(s, ch) && t in s.calls && After(s, s', t, ch, Effects(c, s, t, ch)) && Writes(s.calls[t].stage)
    ensures CallsInv(c, s')
  {
    assert SyncOK(s, t) && DataOK(c, s.db, s.calls[t]);
    match s.calls[t].stage {
      case AppAsked(_, _, _) => AppStep(c, s, s', t, ch);
      case PatchRead(_, _, _, _) => PatchStep(c, s, s', t, ch);
      case PolicyApp(_, _, _, _) => PolicyStep(c, s, s', t, ch);
      case EditLocked(_, _, _, _) => EditStep(c, s, s', t, ch);
      case PublishCompiled(_, _, _, _, _, _) =>
        PublishTables(c, s, t, ch);
        PublishStep(c, s, s', t, ch);
    }
  }

  lemma ReadingCalls(c: Checks, s: State, s': State, t: Tid, ch: Choice)
    requires Inv(c, s) && Enabled(s, Go(t, ch)) && After(s, s', t, ch, Effects(c, s, t, ch)) && !Writes(s.calls[t].stage)
    ensures s'.db == s.db && CallsInv(c, s')
  {
    var st := s.calls[t].stage;
    if Light(st) {
      LightStep(c, s, s', t, ch);
    } else if Waits(st) {
      OpenStep(c, s, s', t, ch);
    } else if st.PublishStamped? {
      assert SyncOK(s, t) && RowsOK(c, s.db, st.policy);
      CompileStep(c, s, s', t, ch);
    } else {
      NumberStep(c, s, s', t, ch);
    }
  }

  lemma InvStep(c: Checks, s: State, step: Step)
    requires Inv(c, s) && Enabled(s, step)
    ensures Inv(c, Next(c, s, step))
  {
    match step {
      case Start(_, _, _) => StartStep(c, s, step);
      case Abort(_) => AbortStep(c, s, step);
      case Go(t, ch) =>
        GoAfter(c, s, t, ch);
        GoInv(c, s, Next(c, s, step), t, ch);
    }
  }

  lemma GoInv(c: Checks, s: State, s': State, t: Tid, ch: Choice)
    requires Inv(c, s) && Enabled(s, Go(t, ch)) && After(s, s', t, ch, Effects(c, s, t, ch))
    ensures Inv(c, s')
  {
    if Writes(s.calls[t].stage) {
      WritingTables(c, s, t, ch);
      WritingCalls(c, s, s', t, ch);
    } else {
      ReadingCalls(c, s, s', t, ch);
    }
  }

  lemma LeadsInv(c: Checks, s: State, s': State)
    requires Inv(c, s) && Leads(c, s, s')
    ensures Inv(c, s')
  {
    var step: Step :| Enabled(s, step) && s' == Next(c, s, step);
    InvStep(c, s, step);
  }

  lemma {:induction false} RunInv(c: Checks, run: seq<State>, i: nat)
    requires IsRun(c, run) && i < |run|
    ensures Inv(c, run[i])
  {
    if i > 0 {
      RunInv(c, run, i - 1);
      assert StepAt(c, run, i - 1);
      LeadsInv(c, run[i - 1], run[i]);
    }
  }
}
