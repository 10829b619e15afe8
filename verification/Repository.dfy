/** The repository's transactions as sequential code (services/control-api/internal/db/db.go):
    statements work on a copy of the tables, and only a commit replaces them. Each method is
    tied to the step of the protocol in `Publish` that it carries out without interruption. */
module Repository {
  import opened Text
  import opened Publish

  /** `CHECK (version > 0)`. */
  predicate PositiveNumbers(db: Db) { forall v | v in db.versions :: db.versions[v].number > 0 }

  /** db.go:383: the highest version number of the policy plus one. */
  method NextNumber(db: Db, p: Id) returns (n: int)
    requires PositiveNumbers(db)
    ensures IsNextNumber(db, p, n)
  {
    n := 1;
    var remaining := db.versions.Keys;
    while remaining != {}
      invariant remaining <= db.versions.Keys && n >= 1 && (n > 1 ==> NumberTaken(db, p, n - 1))
      invariant forall v | v in db.versions && v !in remaining && db.versions[v].policy == p :: db.versions[v].number < n
      decreases remaining
    {
      var v :| v in remaining;
      if db.versions[v].policy == p && db.versions[v].number >= n {
        n := db.versions[v].number + 1;
      }
      remaining := remaining - {v};
    }
  }

  /** db.go:685-702 */
  method PrimaryOrigin(db: Db, app: Id) returns (o: Option<Id>)
    ensures o.Some? ==> IsPrimaryOrigin(db, app, o.value)
    ensures o.None? ==> forall k | k in db.origins :: !Live(db.origins[k], app)
    ensures o.Some? <==> exists k | k in db.origins :: db.origins[k].app == app && !db.origins[k].deleted && db.origins[k].enabled
    ensures o.Some? ==>
              var first := db.origins[o.value];
              first.app == app && !first.deleted && first.enabled
              && forall k | k in db.origins && db.origins[k].app == app && !db.origins[k].deleted && db.origins[k].enabled ::
                   (db.origins[k].name == "primary" ==> first.name == "primary")
                   && ((first.name == "primary" <==> db.origins[k].name == "primary") ==> first.createdAt <= db.origins[k].createdAt)
  {
    o := None;
    var remaining := db.origins.Keys;
    while remaining != {}
      invariant remaining <= db.origins.Keys
      invariant o.Some? ==> o.value in db.origins && Live(db.origins[o.value], app)
      invariant forall k | k in db.origins && k !in remaining && Live(db.origins[k], app) ::
                  o.Some? && NotAfter(db.origins[o.value], db.origins[k])
      decreases remaining
    {
      var k :| k in remaining;
      if Live(db.origins[k], app) && (o.None? || !NotAfter(db.origins[o.value], db.origins[k])) {
        o := Some(k);
      }
      remaining := remaining - {k};
    }
  }

  class Repository {
    const checks: Checks
    var db: Db

    constructor (checks: Checks)
      ensures this.checks == checks && db == EMPTY_DB
    {
      this.checks := checks;
      db := EMPTY_DB;
    }

    /** db.go:315-367 */
    method UpdatePolicy(tenant: Tenant, p: Id, e: Edit, ts: Time) returns (outcome: Outcome)
      modifies this`db
      ensures outcome == NotFound <==> !HasPolicy(old(db), tenant, p)
      ensures HasPolicy(old(db), tenant, p) ==>
                Effect(db, map[], Finished(outcome)) == ActEdit(old(db), map[], tenant, EditLocked(p, e, ts, old(db).policies[p]))
      ensures if outcome == Succeeded then db == WriteRow(old(db), p, Edited(old(db).policies[p], e, ts)) else db == old(db)
    {
      var tx := db;
      if !HasPolicy(tx, tenant, p) {
        return NotFound;
      }
      var current := tx.policies[p];
      if current.updatedAt != e.expected {
        return Conflict;
      }
      if e.name.Some? {
        current := current.(name := e.name.value);
      }
      if e.mode.Some? {
        current := current.(mode := e.mode.value);
      }
      if e.enabled.Some? {
        current := current.(enabled := e.enabled.value);
      }
      if e.draft.Some? {
        current := current.(draft := e.draft.value);
      }
      if NameTaken(tx, current.app, current.name, p) {
        return Failed;
      }
      tx := WriteRow(tx, p, current.(updatedAt := ts));
      db := tx;
      outcome := Succeeded;
    }

    /** db.go:369-428. The new version's number is the next one, its snapshot is compiled from
        the current row and a live origin of its app; nothing changes unless all of it commits. */
    method PublishPolicy(tenant: Tenant, p: Id, ts: Time, vid: Id) returns (outcome: Outcome, ghost committed: Stage)
      requires PositiveNumbers(db)
      modifies this`db
      ensures outcome != Succeeded ==> db == old(db)
      ensures HasPolicy(old(db), tenant, p) && outcome != NotFound ==>
                committed.PublishCompiled? && committed.policy == p && committed.ts == ts && committed.vid == vid
                && committed.row == old(db).policies[p] && IsNextNumber(old(db), p, committed.number)
                && IsPrimaryOrigin(old(db), committed.row.app, committed.snapshot.origin)
                && committed.snapshot == Compile(committed.row, p, vid, committed.snapshot.origin,
                                                 old(db).origins[committed.snapshot.origin].url, ts)
                && Effect(db, map[], Finished(outcome)) == ActPublish(checks, old(db), map[], tenant, committed)
      ensures outcome == NotFound <==>
                !HasPolicy(old(db), tenant, p) || forall k | k in old(db).origins :: !Live(old(db).origins[k], old(db).policies[p].app)
    {
      committed := PublishAsked(p);
      var tx := db;
      if !HasPolicy(tx, tenant, p) {
        return NotFound, committed;
      }
      var row := tx.policies[p];
      var number := NextNumber(tx, p);
      var origin := PrimaryOrigin(tx, row.app);
      if origin.None? {
        return NotFound, committed;
      }
      var draft, mode := row.draft, row.mode;
      if draft.mode != "" {
        mode := draft.mode;
      }
      var snapshot := Compiled(row.tenant, row.app, p, vid, mode, origin.value, tx.origins[origin.value].url,
                               draft.ipSets, draft.customRules, draft.rateLimits, ts);
      committed := PublishCompiled(p, ts, row, number, vid, snapshot);
      if vid in tx.versions || NumberTaken(tx, p, number) || !checks.mode(row.mode) {
        return Failed, committed;
      }
      tx := InsertVersion(tx, vid, Version(row.tenant, row.app, p, number, row.mode, snapshot, ts));
      tx := Activate(tx, tenant, p, vid, ts);
      tx := Deploy(tx, row, p, vid, ts);
      db := tx;
      outcome := Succeeded;
    }
  }
}
