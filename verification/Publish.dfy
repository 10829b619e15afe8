/** The draft/publish protocol of the control plane (services/control-api/internal/db/db.go
    and the handlers of internal/httpapi/server.go): concurrent requests whose transactions
    interleave statement by statement, with row locks on policies, an optimistic check of
    `updated_at`, and all-or-nothing commits. */
module Publish {
  import opened Text
  import opened Rules
  import opened Snapshot

  type Id = nat
  type Tid = nat
  type Tenant = string
  type Time = nat

  // ----- tables -----

  datatype AppInfo = AppInfo(name: string, hostnames: seq<string>, status: string)

  datatype App = App(tenant: Tenant, slug: string, info: AppInfo)

  datatype Origin = Origin(
    tenant: Tenant, app: Id, name: string, url: string, enabled: bool, deleted: bool, createdAt: Time)

  datatype Policy = Policy(
    tenant: Tenant, app: Id, name: string, mode: string, enabled: bool, draft: Draft, active: Option<Id>, updatedAt: Time)

  /** The snapshot a publish compiles (`models.GatewayPolicy`). */
  datatype Compiled = Compiled(
    tenant: Tenant, app: Id, policy: Id, version: Id, mode: string, origin: Id, url: string,
    ipSets: map<string, seq<CidrText>>, customRules: seq<RuleConfig>, rateLimits: seq<LimitConfig>, publishedAt: Time)

  datatype Version = Version(
    tenant: Tenant, app: Id, policy: Id, number: int, mode: string, snapshot: Compiled, createdAt: Time)

  /** The deployment of a policy to the node 'default'; the table below is keyed by policy. */
  datatype Deployment = Deployment(tenant: Tenant, app: Id, version: Id, deployedAt: Time)

  /** The tables, and three records kept for the statements below: the version ids of each
      policy in the order of their commits, every row each policy has had, and the position
      among these of the row each version was compiled from. */
  datatype Db = Db(
    apps: map<Id, App>, origins: map<Id, Origin>, policies: map<Id, Policy>,
    versions: map<Id, Version>, deployments: map<Id, Deployment>,
    published: map<Id, seq<Id>>, rows: map<Id, seq<Policy>>, sources: map<Id, int>)

  const PRIMARY: string := "primary"

  function Listed<T>(m: map<Id, seq<T>>, p: Id): seq<T> { if p in m then m[p] else [] }

  // ----- requests -----

  datatype Edit = Edit(
    expected: Time, name: Option<string>, mode: Option<string>, enabled: Option<bool>, draft: Option<Draft>)

  datatype AppPatch = AppPatch(name: Option<string>, hostnames: seq<string>, status: Option<string>)

  /** Decoded request bodies; names and tenant ids are already trimmed. */
  datatype Request =
    | CreateApp(bodyTenant: Tenant, slug: string, info: AppInfo, url: string)
    | UpdateApp(app: Id, patch: AppPatch, newUrl: Option<string>)
    | CreatePolicy(app: Id, name: string, mode: string, draft: Option<Draft>)
    | UpdatePolicy(policy: Id, edit: Edit)
    | PublishPolicy(policy: Id)

  datatype Outcome = Refused | NotFound | Conflict | Failed | Succeeded

  datatype Stage =
    | AppAsked(slug: string, info: AppInfo, url: string)
    | PatchAsked(app: Id, patch: AppPatch, newUrl: Option<string>)
    | PatchRead(app: Id, read: AppInfo, patch: AppPatch, newUrl: Option<string>)
    | PolicyAsked(app: Id, name: string, mode: string, draft: Draft)
    | PolicyApp(app: Id, name: string, mode: string, draft: Draft)
    | EditAsked(policy: Id, edit: Edit)
    | EditOpen(policy: Id, edit: Edit, ts: Time)
    | EditLocked(policy: Id, edit: Edit, ts: Time, row: Policy)
    | PublishAsked(policy: Id)
    | PublishChecked(policy: Id)
    | PublishOpen(policy: Id, ts: Time)
    | PublishLocked(policy: Id, ts: Time, row: Policy)
    | PublishNumbered(policy: Id, ts: Time, row: Policy, number: int)
    | PublishStamped(policy: Id, ts: Time, row: Policy, number: int, vid: Id)
    | PublishCompiled(policy: Id, ts: Time, row: Policy, number: int, vid: Id, snapshot: Compiled)
    | Finished(outcome: Outcome)

  datatype Call = Call(tenant: Tenant, stage: Stage)

  /** `stamps` and `ids` are the timestamps and ids handed out so far, with their owners. */
  datatype State = State(
    db: Db, locks: map<Id, Tid>, calls: map<Tid, Call>, stamps: map<Time, Tid>, ids: map<Id, Tid>)

  const EMPTY_DB: Db := Db(map[], map[], map[], map[], map[], map[], map[], map[])

  predicate Init(s: State) { s == State(EMPTY_DB, map[], map[], map[], map[]) }

  // ----- handlers (server.go:158-181, 218-245, 256-270, 727-750) -----

  /** The checks of the handlers on drafts and modes. The protocol is modelled for any such
      checks; the control plane's are `CONTROL`. */
  datatype Checks = Checks(draft: Draft -> bool, mode: string -> bool)

  const CONTROL: Checks := Checks(ControlAccepts, ValidMode)

  predicate EditValid(c: Checks, e: Edit) {
    e.expected != 0 && (e.name.Some? ==> e.name.value != "") && (e.mode.Some? ==> c.mode(e.mode.value))
    && (e.draft.Some? ==> c.draft(e.draft.value))
  }

  function CountByDefault(mode: string): string { if mode == "" then "count" else mode }

  function Received(c: Checks, tenant: Tenant, req: Request): Stage {
    match req
    case CreateApp(bodyTenant, slug, info, url) =>
      if bodyTenant == "" || bodyTenant == tenant then AppAsked(slug, info, url) else Finished(Refused)
    case UpdateApp(app, patch, newUrl) => PatchAsked(app, patch, newUrl)
    case CreatePolicy(app, name, mode, draft) =>
      var stored := if draft.Some? then draft.value else EMPTY;
      if name != "" && c.mode(CountByDefault(mode)) && c.draft(stored)
      then PolicyAsked(app, name, CountByDefault(mode), stored) else Finished(Refused)
    case UpdatePolicy(policy, edit) => if EditValid(c, edit) then EditAsked(policy, edit) else Finished(Refused)
    case PublishPolicy(policy) => PublishAsked(policy)
  }

  // ----- statements -----

  predicate HasApp(db: Db, tenant: Tenant, a: Id) { a in db.apps && db.apps[a].tenant == tenant }

  predicate HasPolicy(db: Db, tenant: Tenant, p: Id) { p in db.policies && db.policies[p].tenant == tenant }

  predicate SlugTaken(db: Db, tenant: Tenant, slug: string) {
    exists a | a in db.apps :: db.apps[a].tenant == tenant && db.apps[a].slug == slug
  }

  /** `UNIQUE (app_id, name)` on origins, which soft-deleted rows also occupy. */
  predicate Rooted(origins: map<Id, Origin>, a: Id) {
    exists o | o in origins :: origins[o].app == a && origins[o].name == PRIMARY
  }

  predicate NameTaken(db: Db, a: Id, name: string, p: Id) {
    exists q | q in db.policies :: q != p && db.policies[q].app == a && db.policies[q].name == name
  }

  predicate NumberTaken(db: Db, p: Id, n: int) {
    exists v | v in db.versions :: db.versions[v].policy == p && db.versions[v].number == n
  }

  /** `COALESCE(MAX(version), 0) + 1` over the versions of a policy. */
  predicate IsNextNumber(db: Db, p: Id, n: int) {
    n >= 1 && (n > 1 ==> NumberTaken(db, p, n - 1))
    && forall v | v in db.versions && db.versions[v].policy == p :: db.versions[v].number < n
  }

  predicate Live(o: Origin, a: Id) { o.app == a && !o.deleted && o.enabled }

  /** The order of the origin query: primary first, then by creation time. */
  predicate NotAfter(a: Origin, b: Origin) {
    if a.name == PRIMARY <==> b.name == PRIMARY then a.createdAt <= b.createdAt else a.name == PRIMARY
  }

  /** A first row of the origin query, which filters by app only (db.go:685-702). */
  predicate IsPrimaryOrigin(db: Db, a: Id, o: Id) {
    o in db.origins && Live(db.origins[o], a)
    && forall k | k in db.origins && Live(db.origins[k], a) :: NotAfter(db.origins[o], db.origins[k])
  }

  function InsertApp(db: Db, tenant: Tenant, slug: string, info: AppInfo, url: string, a: Id, o: Id, ts: Time): Db {
    db.(apps := db.apps[a := App(tenant, slug, info)],
        origins := db.origins[o := Origin(tenant, a, PRIMARY, url, true, false, ts)])
  }

  function Patched(info: AppInfo, patch: AppPatch): AppInfo {
    AppInfo(if patch.name.Some? then patch.name.value else info.name,
            if |patch.hostnames| > 0 then patch.hostnames else info.hostnames,
            if patch.status.Some? then patch.status.value else info.status)
  }

  function ReplaceOrigin(db: Db, tenant: Tenant, a: Id, url: string, o: Id, ts: Time): Db {
    var retired := map k | k in db.origins ::
      if db.origins[k].tenant == tenant && db.origins[k].app == a then db.origins[k].(deleted := true) else db.origins[k];
    db.(origins := retired[o := Origin(tenant, a, PRIMARY, url, true, false, ts)])
  }

  function InsertPolicy(db: Db, p: Id, row: Policy): Db {
    db.(policies := db.policies[p := row], published := db.published[p := []], rows := db.rows[p := [row]])
  }

  function WriteRow(db: Db, p: Id, row: Policy): Db {
    db.(policies := db.policies[p := row], rows := db.rows[p := Listed(db.rows, p) + [row]])
  }

  function Edited(row: Policy, e: Edit, ts: Time): Policy {
    row.(name := if e.name.Some? then e.name.value else row.name,
         mode := if e.mode.Some? then e.mode.value else row.mode,
         enabled := if e.enabled.Some? then e.enabled.value else row.enabled,
         draft := if e.draft.Some? then e.draft.value else row.draft,
         updatedAt := ts)
  }

  /** db.go:658-683 */
  function Compile(row: Policy, p: Id, vid: Id, origin: Id, url: string, ts: Time): Compiled {
    Compiled(row.tenant, row.app, p, vid, if row.draft.mode != "" then row.draft.mode else row.mode, origin, url,
             row.draft.ipSets, row.draft.customRules, row.draft.rateLimits, ts)
  }

  function InsertVersion(db: Db, vid: Id, v: Version): Db {
    db.(versions := db.versions[vid := v], published := db.published[v.policy := Listed(db.published, v.policy) + [vid]],
        sources := db.sources[vid := |Listed(db.rows, v.policy)| - 1])
  }

  /** db.go:410: no row of another tenant is touched. */
  function Activate(db: Db, tenant: Tenant, p: Id, vid: Id, ts: Time): Db {
    if HasPolicy(db, tenant, p) then WriteRow(db, p, db.policies[p].(active := Some(vid), updatedAt := ts)) else db
  }

  /** db.go:413-423: insert, or on conflict point the existing deployment at the version. */
  function Deploy(db: Db, row: Policy, p: Id, vid: Id, ts: Time): Db {
    db.(deployments := db.deployments[p :=
      if p in db.deployments then db.deployments[p].(version := vid, deployedAt := ts)
      else Deployment(row.tenant, row.app, vid, ts)])
  }

  function Published(db: Db, tenant: Tenant, st: Stage): Db
    requires st.PublishCompiled?
  {
    var row, p := st.row, st.policy;
    var db1 := InsertVersion(db, st.vid, Version(row.tenant, row.app, p, st.number, row.mode, st.snapshot, st.ts));
    Deploy(Activate(db1, tenant, p, st.vid, st.ts), row, p, st.vid, st.ts)
  }

  // ----- steps -----

  /** What the outside decides in a step: a new transaction timestamp, two new ids, the
      number the MAX query returns and the first row of the origin query. */
  datatype Choice = Choice(ts: Time, id: Id, id2: Id, number: int, origin: Id)

  datatype Step =
    | Start(t: Tid, tenant: Tenant, req: Request)
    | Go(t: Tid, choice: Choice)
    | Abort(t: Tid)

  datatype Effect = Effect(db: Db, locks: map<Id, Tid>, stage: Stage)

  predicate Holding(st: Stage) {
    st.EditLocked? || st.PublishLocked? || st.PublishNumbered? || st.PublishStamped? || st.PublishCompiled?
  }

  /** Ends a call and drops the row lock it holds, if any. */
  function End(db: Db, locks: map<Id, Tid>, st: Stage, outcome: Outcome): Effect {
    Effect(db, if Holding(st) then locks - {st.policy} else locks, Finished(outcome))
  }

  predicate Waits(st: Stage) { st.EditOpen? || st.PublishOpen? }

  predicate Fresh(s: State, ch: Choice) {
    ch.ts !in s.stamps && ch.id !in s.ids && ch.id2 !in s.ids && ch.id != ch.id2
  }

  predicate Enabled(s: State, step: Step) {
    match step
    case Start(t, _, _) => t !in s.calls
    case Abort(t) => t in s.calls && !s.calls[t].stage.Finished?
    case Go(t, ch) =>
      t in s.calls && Fresh(s, ch)
      && var st := s.calls[t].stage;
         !st.Finished?
         // FOR UPDATE waits for the holder of the row lock
         && (Waits(st) && HasPolicy(s.db, s.calls[t].tenant, st.policy) ==> st.policy !in s.locks)
         && (st.PublishLocked? ==> IsNextNumber(s.db, st.policy, ch.number))
         && (st.PublishStamped? && (exists o | o in s.db.origins :: Live(s.db.origins[o], st.row.app)) ==>
               IsPrimaryOrigin(s.db, st.row.app, ch.origin))
  }

  function Act(c: Checks, db: Db, locks: map<Id, Tid>, t: Tid, tenant: Tenant, st: Stage, ch: Choice): Effect {
    match st
    case AppAsked(slug, info, url) =>
      if SlugTaken(db, tenant, slug) then End(db, locks, st, Failed)
      else End(InsertApp(db, tenant, slug, info, url, ch.id, ch.id2, ch.ts), locks, st, Succeeded)
    case PatchAsked(a, patch, newUrl) =>
      if HasApp(db, tenant, a) then Effect(db, locks, PatchRead(a, db.apps[a].info, patch, newUrl))
      else End(db, locks, st, NotFound)
    case PatchRead(a, read, patch, newUrl) => ActPatch(db, locks, tenant, st, ch)
    case PolicyAsked(a, name, mode, draft) =>
      if HasApp(db, tenant, a) then Effect(db, locks, PolicyApp(a, name, mode, draft)) else End(db, locks, st, NotFound)
    case PolicyApp(a, name, mode, draft) =>
      if NameTaken(db, a, name, ch.id) then End(db, locks, st, Failed)
      else End(InsertPolicy(db, ch.id, Policy(tenant, a, name, mode, true, draft, None, ch.ts)), locks, st, Succeeded)
    case EditAsked(p, e) => Effect(db, locks, EditOpen(p, e, ch.ts))
    case EditOpen(p, e, ts) =>
      if HasPolicy(db, tenant, p) then Effect(db, locks[p := t], EditLocked(p, e, ts, db.policies[p]))
      else End(db, locks, st, NotFound)
    case EditLocked(p, e, ts, row) => ActEdit(db, locks, tenant, st)
    case PublishAsked(p) =>
      if !HasPolicy(db, tenant, p) then End(db, locks, st, NotFound)
      else if !c.draft(db.policies[p].draft) then End(db, locks, st, Refused)
      else Effect(db, locks, PublishChecked(p))
    case PublishChecked(p) => Effect(db, locks, PublishOpen(p, ch.ts))
    case PublishOpen(p, ts) =>
      if HasPolicy(db, tenant, p) then Effect(db, locks[p := t], PublishLocked(p, ts, db.policies[p]))
      else End(db, locks, st, NotFound)
    case PublishLocked(p, ts, row) => Effect(db, locks, PublishNumbered(p, ts, row, ch.number))
    case PublishNumbered(p, ts, row, n) => Effect(db, locks, PublishStamped(p, ts, row, n, ch.id))
    case PublishStamped(p, ts, row, n, vid) =>
      if IsPrimaryOrigin(db, row.app, ch.origin)
      then Effect(db, locks, PublishCompiled(p, ts, row, n, vid, Compile(row, p, vid, ch.origin, db.origins[ch.origin].url, ts)))
      else End(db, locks, st, NotFound)
    case PublishCompiled(p, ts, row, n, vid, snapshot) => ActPublish(c, db, locks, tenant, st)
    case Finished(_) => Effect(db, locks, st)
  }

  /** db.go:193-247, the transaction of `UpdateApp`. */
  function ActPatch(db: Db, locks: map<Id, Tid>, tenant: Tenant, st: Stage, ch: Choice): Effect
    requires st.PatchRead?
  {
    if !HasApp(db, tenant, st.app) then End(db, locks, st, NotFound)
    else
      var db1 := db.(apps := db.apps[st.app := db.apps[st.app].(info := Patched(st.read, st.patch))]);
      if st.newUrl.None? then End(db1, locks, st, Succeeded)
      else if Rooted(db1.origins, st.app) then End(db, locks, st, Failed)
      else End(ReplaceOrigin(db1, tenant, st.app, st.newUrl.value, ch.id, ch.ts), locks, st, Succeeded)
  }

  /** db.go:328-366 */
  function ActEdit(db: Db, locks: map<Id, Tid>, tenant: Tenant, st: Stage): Effect
    requires st.EditLocked?
  {
    var e, p := st.edit, st.policy;
    if st.row.updatedAt != e.expected then End(db, locks, st, Conflict)
    else if !HasPolicy(db, tenant, p) then End(db, locks, st, NotFound)
    else if NameTaken(db, st.row.app, Edited(st.row, e, st.ts).name, p) then End(db, locks, st, Failed)
    else
      var row := Edited(st.row, e, st.ts);
      End(WriteRow(db, p, db.policies[p].(name := row.name, mode := row.mode, enabled := row.enabled, draft := row.draft,
                                          updatedAt := st.ts)), locks, st, Succeeded)
  }

  /** db.go:401-427 */
  function ActPublish(c: Checks, db: Db, locks: map<Id, Tid>, tenant: Tenant, st: Stage): Effect
    requires st.PublishCompiled?
  {
    if st.vid in db.versions || NumberTaken(db, st.policy, st.number) || st.number <= 0 || !c.mode(st.row.mode)
    then End(db, locks, st, Failed)
    else End(Published(db, tenant, st), locks, st, Succeeded)
  }

  function Next(c: Checks, s: State, step: Step): State
    requires Enabled(s, step)
  {
    match step
    case Start(t, tenant, req) => s.(calls := s.calls[t := Call(tenant, Received(c, tenant, req))])
    case Abort(t) =>
      var e := End(s.db, s.locks, s.calls[t].stage, Failed);
      s.(locks := e.locks, calls := s.calls[t := Call(s.calls[t].tenant, e.stage)])
    case Go(t, ch) =>
      var e := Act(c, s.db, s.locks, t, s.calls[t].tenant, s.calls[t].stage, ch);
      State(e.db, e.locks, s.calls[t := Call(s.calls[t].tenant, e.stage)],
            s.stamps[ch.ts := t], s.ids[ch.id := t][ch.id2 := t])
  }

  /** Some step leads from one state to the other. */
  ghost predicate Leads(c: Checks, s: State, s': State) {
    exists step: Step :: Enabled(s, step) && s' == Next(c, s, step)
  }

  ghost predicate StepAt(c: Checks, run: seq<State>, i: int)
    requires 0 <= i < |run| - 1
  {
    Leads(c, run[i], run[i + 1])
  }

  ghost predicate IsRun(c: Checks, run: seq<State>) {
    |run| > 0 && Init(run[0])
    && forall i | 0 <= i < |run| - 1 :: StepAt(c, run, i)
  }
}
