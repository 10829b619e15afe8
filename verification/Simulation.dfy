/** The simulation summary (services/control-api/internal/events/events.go:204-280). Go
    enumerates a map in any order; here a `:|` picks any remaining key. */
module Simulation {
  import opened Text
  import opened StableSort
  import opened Ranking

  datatype Event = Event(
    wouldBlock: bool, matchedRuleID: string, matchedRuleName: string, clientIP: string, path: string, requestID: string)

  /** A would-block event under the rule id it is counted for. */
  datatype Hit = Hit(rule: string, name: string, ip: string, path: string, request: string)

  function RuleOf(e: Event): string {
    var id := TrimSpace(e.matchedRuleID);
    if id == "" then "unknown" else id
  }

  function HitOf(e: Event): Hit {
    Hit(RuleOf(e), e.matchedRuleName, e.clientIP, e.path, e.requestID)
  }

  /** The would-block events, in order. */
  function Hits(input: seq<Event>): seq<Hit> {
    if input == [] then []
    else Hits(input[..|input| - 1]) + (if input[|input| - 1].wouldBlock then [HitOf(input[|input| - 1])] else [])
  }

  function Under(rule: string): Hit -> bool { (h: Hit) => h.rule == rule }

  function ForRule(hits: seq<Hit>, rule: string): seq<Hit> { Filter(hits, Under(rule)) }

  // ----- what the summary of one rule is -----

  datatype Row = Row(id: string, name: string, count: int, uniqueIPs: int, topPaths: seq<string>, samples: seq<string>)

  function RankOf(r: Row): Rank { Rank(r.count, r.id) }

  function IPs(hits: seq<Hit>): set<string> { set h | h in hits && h.ip != "" :: h.ip }

  function OnPath(path: string): Hit -> bool { (h: Hit) => h.path == path }

  function PathCount(hits: seq<Hit>, path: string): nat { |Filter(hits, OnPath(path))| }

  function WithRequest(): Hit -> bool { (h: Hit) => h.request != "" }

  function Requests(hits: seq<Hit>): seq<string> {
    var named := Filter(hits, WithRequest());
    seq(|named|, i requires 0 <= i < |named| => named[i].request)
  }

  function Take<T>(xs: seq<T>, n: nat): seq<T> { if |xs| > n then xs[..n] else xs }

  /** All paths of the hits, best first. */
  ghost predicate IsRanking(hits: seq<Hit>, ranks: seq<Rank>) {
    Strict(ranks)
    && forall r: Rank :: r in ranks <==> r.name != "" && r.count == PathCount(hits, r.name) && r.count > 0
  }

  ghost predicate IsTop(hits: seq<Hit>, top: seq<string>) {
    exists ranks :: IsRanking(hits, ranks) && top == Take(Names(ranks), 5)
  }

  ghost predicate IsRow(hits: seq<Hit>, row: Row) {
    var own := ForRule(hits, row.id);
    own != [] && row.name == own[0].name && row.count == |own| && row.uniqueIPs == |IPs(own)|
    && IsTop(own, row.topPaths) && row.samples == Take(Requests(own), 5)
  }

  /** One row per rule, strictly ordered by count and id. */
  ghost predicate IsSummary(hits: seq<Hit>, rows: seq<Row>) {
    StrictBy(rows, RankOf)
    && (forall row | row in rows :: IsRow(hits, row))
    && (forall h | h in hits :: exists row :: row in rows && row.id == h.rule)
  }

  // ----- the accumulators -----

  datatype Accumulator = Accumulator(name: string, count: int, ips: set<string>, paths: map<string, int>, samples: seq<string>)

  function Add(a: Accumulator, h: Hit): Accumulator {
    Accumulator(
      a.name,
      a.count + 1,
      if h.ip != "" then a.ips + {h.ip} else a.ips,
      if h.path != "" then a.paths[h.path := if h.path in a.paths then a.paths[h.path] + 1 else 1] else a.paths,
      if h.request != "" && |a.samples| < 5 then a.samples + [h.request] else a.samples)
  }

  /** Path counts as the accumulator keeps them. */
  ghost predicate Counts(paths: map<string, int>, hits: seq<Hit>) {
    forall p :: if p != "" && PathCount(hits, p) > 0 then p in paths && paths[p] == PathCount(hits, p) else p !in paths
  }

  /** What an accumulator holds after these hits. */
  ghost predicate Holds(a: Accumulator, hits: seq<Hit>) {
    hits != [] && a.name == hits[0].name && a.count == |hits| && a.ips == IPs(hits) && a.samples == Take(Requests(hits), 5)
    && Counts(a.paths, hits)
  }

  lemma {:induction false} FilterSnoc<T>(xs: seq<T>, x: T, p: T -> bool)
    ensures Filter(xs + [x], p) == if p(x) then Filter(xs, p) + [x] else Filter(xs, p)
  {
    if xs != [] {
      assert (xs + [x])[1..] == xs[1..] + [x];
      FilterSnoc(xs[1..], x, p);
    }
  }

  lemma RequestsSnoc(hits: seq<Hit>, h: Hit)
    ensures Requests(hits + [h]) == if h.request != "" then Requests(hits) + [h.request] else Requests(hits)
  {
    FilterSnoc(hits, h, WithRequest());
  }

  lemma PathsSnoc(hits: seq<Hit>, h: Hit, p: string)
    ensures PathCount(hits + [h], p) == PathCount(hits, p) + if h.path == p then 1 else 0
  {
    FilterSnoc(hits, h, OnPath(p));
  }

  lemma IPsSnoc(hits: seq<Hit>, h: Hit)
    ensures IPs(hits + [h]) == if h.ip != "" then IPs(hits) + {h.ip} else IPs(hits)
  {
    forall ip ensures ip in IPs(hits + [h]) <==> ip in IPs(hits) || (h.ip != "" && ip == h.ip) {
      if ip in IPs(hits) {
        var g :| g in hits && g.ip != "" && g.ip == ip;
        assert g in hits + [h];
      }
      if h.ip != "" && ip == h.ip {
        assert h in hits + [h];
      }
    }
  }

  lemma AddKeeps(a: Accumulator, hits: seq<Hit>, h: Hit)
    requires Holds(a, hits)
    ensures Holds(Add(a, h), hits + [h])
  {
    RequestsSnoc(hits, h);
    IPsSnoc(hits, h);
    forall p ensures PathCount(hits + [h], p) == PathCount(hits, p) + if h.path == p then 1 else 0 {
      PathsSnoc(hits, h, p);
    }
  }

  lemma AddFirst(h: Hit)
    ensures Holds(Add(Accumulator(h.name, 0, {}, map[], []), h), [h])
  {
    RequestsSnoc([], h);
    IPsSnoc([], h);
    assert [] + [h] == [h];
    forall p ensures PathCount([h], p) == if h.path == p then 1 else 0 {
      PathsSnoc([], h, p);
    }
  }

  type ByRule = map<string, Accumulator>

  /** The map after these hits. */
  ghost predicate Accumulates(byRule: ByRule, hits: seq<Hit>) {
    (forall rule | rule in byRule :: Holds(byRule[rule], ForRule(hits, rule)))
    && (forall h | h in hits :: h.rule in byRule)
  }

  lemma AccumulateOne(byRule: ByRule, hits: seq<Hit>, h: Hit)
    requires Accumulates(byRule, hits)
    ensures var a := if h.rule in byRule then byRule[h.rule] else Accumulator(h.name, 0, {}, map[], []);
            Accumulates(byRule[h.rule := Add(a, h)], hits + [h])
  {
    var a := if h.rule in byRule then byRule[h.rule] else Accumulator(h.name, 0, {}, map[], []);
    var byRule' := byRule[h.rule := Add(a, h)];
    forall rule | rule in byRule' ensures Holds(byRule'[rule], ForRule(hits + [h], rule)) {
      FilterSnoc(hits, h, Under(rule));
      if rule == h.rule {
        OwnRule(byRule, hits, h);
      }
    }
  }

  lemma OwnRule(byRule: ByRule, hits: seq<Hit>, h: Hit)
    requires Accumulates(byRule, hits)
    ensures var a := if h.rule in byRule then byRule[h.rule] else Accumulator(h.name, 0, {}, map[], []);
            Holds(Add(a, h), ForRule(hits, h.rule) + [h])
  {
    if h.rule in byRule {
      AddKeeps(byRule[h.rule], ForRule(hits, h.rule), h);
    } else {
      FilterSubset(hits, Under(h.rule));
      assert forall g | g in ForRule(hits, h.rule) :: g in hits && g.rule == h.rule;
      EmptyOrNot(ForRule(hits, h.rule));
      assert [] + [h] == [h];
      AddFirst(h);
    }
  }

  lemma EmptyOrNot(hits: seq<Hit>)
    ensures hits == [] || exists g :: g in hits
  {
    if hits != [] {
      assert hits[0] in hits;
    }
  }

  lemma HitsSnoc(input: seq<Event>, i: nat)
    requires i < |input|
    ensures Hits(input[..i + 1]) == Hits(input[..i]) + if input[i].wouldBlock then [HitOf(input[i])] else []
  {
    assert input[..i + 1][..i] == input[..i];
  }

  /** One round of the loop: the rule's accumulator is found or made, and updated. */
  method AddHit(byRule: ByRule, h: Hit, ghost hits: seq<Hit>) returns (r: ByRule)
    requires Accumulates(byRule, hits)
    ensures Accumulates(r, hits + [h])
  {
    AccumulateOne(byRule, hits, h);
    var got := if h.rule in byRule then byRule[h.rule] else Accumulator(h.name, 0, {}, map[], []);
    r := byRule[h.rule := Add(got, h)];
  }

  /** events.go:212-235 */
  method Accumulate(input: seq<Event>) returns (byRule: ByRule)
    ensures Accumulates(byRule, Hits(input))
  {
    byRule := map[];
    ghost var hits: seq<Hit> := [];
    for i := 0 to |input|
      invariant hits == Hits(input[..i]) && Accumulates(byRule, hits)
    {
      HitsSnoc(input, i);
      if input[i].wouldBlock {
        var e := input[i];
        var ruleID := TrimSpace(e.matchedRuleID);
        if ruleID == "" {
          ruleID := "unknown";
        }
        var h := Hit(ruleID, e.matchedRuleName, e.clientIP, e.path, e.requestID);
        byRule := AddHit(byRule, h, hits);
        hits := hits + [h];
      }
    }
    assert input[..|input|] == input;
  }

  // ----- the rows -----

  function Self(r: Rank): Rank { r }

  /** events.go:257-280 with limit 5. */
  method TopPaths(counts: map<string, int>, ghost hits: seq<Hit>) returns (top: seq<string>)
    requires Counts(counts, hits)
    ensures IsTop(hits, top)
  {
    var items: seq<Rank> := [];
    var remaining := counts.Keys;
    while remaining != {}
      invariant remaining <= counts.Keys
      invariant forall r :: r in items <==> r.name in counts && r.name !in remaining && r.count == counts[r.name]
      invariant forall i, j | 0 <= i < j < |items| :: items[i] != items[j]
      decreases remaining
    {
      var path :| path in remaining;
      items := items + [Rank(counts[path], path)];
      remaining := remaining - {path};
    }
    var sorted := SortByRank(items, Self);
    forall r ensures r in sorted <==> r in items {
      assert r in multiset(sorted) <==> r in multiset(items);
    }
    assert IsRanking(hits, sorted);
    top := Take(Names(sorted), 5);
  }

  /** Every key of the map has its row. */
  ghost predicate RowsFor(hits: seq<Hit>, rows: seq<Row>, ids: set<string>) {
    (forall row | row in rows :: IsRow(hits, row) && row.id in ids)
    && (forall id | id in ids :: exists row :: row in rows && row.id == id)
    && (forall i, j | 0 <= i < j < |rows| :: rows[i].id != rows[j].id)
  }

  lemma RowsSnoc(hits: seq<Hit>, rows: seq<Row>, ids: set<string>, row: Row)
    requires RowsFor(hits, rows, ids) && IsRow(hits, row) && row.id !in ids
    ensures RowsFor(hits, rows + [row], ids + {row.id})
  {
    forall id | id in ids + {row.id} ensures exists r :: r in rows + [row] && r.id == id {
      if id in ids {
        var r :| r in rows && r.id == id;
        assert r in rows + [row];
      } else {
        assert row in rows + [row];
      }
    }
  }

  method MakeRow(id: string, got: Accumulator, ghost hits: seq<Hit>) returns (row: Row)
    requires Holds(got, ForRule(hits, id))
    ensures IsRow(hits, row) && row.id == id
  {
    var top := TopPaths(got.paths, ForRule(hits, id));
    row := Row(id, got.name, got.count, |got.ips|, top, got.samples);
  }

  method NextRow(byRule: ByRule, id: string, ghost hits: seq<Hit>, ghost rows: seq<Row>, ghost done: set<string>) returns (row: Row)
    requires Accumulates(byRule, hits) && id in byRule && RowsFor(hits, rows, done) && id !in done
    ensures row.id == id && RowsFor(hits, rows + [row], done + {id})
  {
    row := MakeRow(id, byRule[id], hits);
    RowsSnoc(hits, rows, done, row);
  }

  lemma KeyMoved(done: set<string>, remaining: set<string>, keys: set<string>, id: string)
    requires done !! remaining && done + remaining == keys && id in remaining
    ensures done + {id} !! remaining - {id} && done + {id} + (remaining - {id}) == keys
  {
  }

  /** events.go:236-246: one row per rule, in any order. */
  method MakeRows(byRule: ByRule, ghost hits: seq<Hit>) returns (rows: seq<Row>)
    requires Accumulates(byRule, hits)
    ensures RowsFor(hits, rows, byRule.Keys)
  {
    rows := [];
    var remaining := byRule.Keys;
    ghost var done: set<string> := {};
    while remaining != {}
      invariant done !! remaining && done + remaining == byRule.Keys && RowsFor(hits, rows, done)
      decreases remaining
    {
      var id :| id in remaining;
      var row := NextRow(byRule, id, hits, rows, done);
      KeyMoved(done, remaining, byRule.Keys, id);
      rows, done, remaining := rows + [row], done + {id}, remaining - {id};
    }
  }

  lemma SortedRowsSummarize(byRule: ByRule, hits: seq<Hit>, rows: seq<Row>, sorted: seq<Row>)
    requires Accumulates(byRule, hits) && RowsFor(hits, rows, byRule.Keys)
    requires multiset(sorted) == multiset(rows) && StrictBy(sorted, RankOf)
    ensures IsSummary(hits, sorted)
  {
    forall row ensures row in sorted <==> row in rows {
      assert row in multiset(sorted) <==> row in multiset(rows);
    }
    forall h | h in hits ensures exists row :: row in sorted && row.id == h.rule {
      var row :| row in rows && row.id == h.rule;
      assert row in sorted;
    }
  }

  /** events.go:204-255: whatever the order of the enumerations, the result is the summary. */
  method BuildSimulationSummary(input: seq<Event>) returns (out: seq<Row>)
    ensures IsSummary(Hits(input), out)
  {
    var byRule := Accumulate(input);
    var rows := MakeRows(byRule, Hits(input));
    out := SortByRank(rows, RankOf);
    SortedRowsSummarize(byRule, Hits(input), rows, out);
  }

  // ----- what a summary is worth -----

  /** The ranking of the paths is determined by the hits. */
  lemma TopUnique(hits: seq<Hit>, a: seq<string>, b: seq<string>)
    requires IsTop(hits, a) && IsTop(hits, b)
    ensures a == b
  {
    var x :| IsRanking(hits, x) && a == Take(Names(x), 5);
    var y :| IsRanking(hits, y) && b == Take(Names(y), 5);
    StrictUnique(x, y);
  }

  function PathRank(hits: seq<Hit>, path: string): Rank { Rank(PathCount(hits, path), path) }

  lemma TopOfRanking(hits: seq<Hit>, ranks: seq<Rank>, top: seq<string>, i: nat)
    requires IsRanking(hits, ranks) && top == Take(Names(ranks), 5) && i < |top|
    ensures |top| <= |ranks| && ranks[i] == PathRank(hits, top[i]) && top[i] != "" && PathCount(hits, top[i]) > 0
  {
    assert ranks[i] in ranks;
  }

  lemma LeftOut(hits: seq<Hit>, ranks: seq<Rank>, top: seq<string>, q: string) returns (j: nat)
    requires IsRanking(hits, ranks) && top == Take(Names(ranks), 5) && q !in top && q != "" && PathCount(hits, q) > 0
    ensures |top| == 5 <= j < |ranks| && ranks[j] == PathRank(hits, q)
  {
    assert PathRank(hits, q) in ranks;
    j :| 0 <= j < |ranks| && ranks[j] == PathRank(hits, q);
    assert forall k | 0 <= k < |top| :: top[k] in top && top[k] == ranks[k].name;
    assert ranks[j].name == q;
  }

  /** At most five paths, none listed before a better one; a path is left out only when five
      are listed, and then for better ones. */
  lemma TopIsBest(hits: seq<Hit>, top: seq<string>)
    requires IsTop(hits, top)
    ensures |top| <= 5 && forall i | 0 <= i < |top| :: top[i] != "" && PathCount(hits, top[i]) > 0
    ensures forall i, j | 0 <= i < j < |top| :: Before(PathRank(hits, top[i]), PathRank(hits, top[j]))
    ensures forall q | q !in top && q != "" && PathCount(hits, q) > 0 ::
              |top| == 5 && forall i | 0 <= i < |top| :: Before(PathRank(hits, top[i]), PathRank(hits, q))
  {
    var ranks: seq<Rank> :| IsRanking(hits, ranks) && top == Take(Names(ranks), 5);
    forall i | 0 <= i < |top|
      ensures |top| <= |ranks| && ranks[i] == PathRank(hits, top[i]) && top[i] != "" && PathCount(hits, top[i]) > 0
    {
      TopOfRanking(hits, ranks, top, i);
    }
    forall q | q !in top && q != "" && PathCount(hits, q) > 0
      ensures |top| == 5 && forall i | 0 <= i < |top| :: Before(PathRank(hits, top[i]), PathRank(hits, q))
    {
      var j := LeftOut(hits, ranks, top, q);
      assert forall i | 0 <= i < |top| :: Before(ranks[i], ranks[j]);
    }
  }

  lemma RowUnique(hits: seq<Hit>, a: Row, b: Row)
    requires IsRow(hits, a) && IsRow(hits, b) && a.id == b.id
    ensures a == b
  {
    TopUnique(ForRule(hits, a.id), a.topPaths, b.topPaths);
  }

  function Ranks(rows: seq<Row>): seq<Rank> {
    seq(|rows|, i requires 0 <= i < |rows| => RankOf(rows[i]))
  }

  lemma RowHasHit(hits: seq<Hit>, row: Row)
    requires IsRow(hits, row)
    ensures exists h :: h in hits && h.rule == row.id
  {
    FilterSubset(hits, Under(row.id));
    assert ForRule(hits, row.id)[0] in ForRule(hits, row.id);
  }

  lemma RowInBoth(hits: seq<Hit>, a: seq<Row>, b: seq<Row>, row: Row)
    requires IsSummary(hits, a) && IsSummary(hits, b) && row in a
    ensures row in b
  {
    RowHasHit(hits, row);
    var h :| h in hits && h.rule == row.id;
    var other :| other in b && other.id == h.rule;
    RowUnique(hits, row, other);
  }

  /** The events determine the summary: it is the same for every enumeration order. */
  lemma SummaryUnique(hits: seq<Hit>, a: seq<Row>, b: seq<Row>)
    requires IsSummary(hits, a) && IsSummary(hits, b)
    ensures a == b
  {
    forall r ensures r in Ranks(a) <==> r in Ranks(b) {
      if r in Ranks(a) {
        var i :| 0 <= i < |a| && RankOf(a[i]) == r;
        RowInBoth(hits, a, b, a[i]);
        var j :| 0 <= j < |b| && b[j] == a[i];
        assert Ranks(b)[j] == r;
      }
      if r in Ranks(b) {
        var i :| 0 <= i < |b| && RankOf(b[i]) == r;
        RowInBoth(hits, b, a, b[i]);
        var j :| 0 <= j < |a| && a[j] == b[i];
        assert Ranks(a)[j] == r;
      }
    }
    StrictUnique(Ranks(a), Ranks(b));
    forall i | 0 <= i < |a| ensures |a| == |b| && a[i] == b[i] {
      assert |Ranks(a)| == |Ranks(b)| && Ranks(a)[i] == Ranks(b)[i];
      RowUnique(hits, a[i], b[i]);
    }
    assert |a| == |Ranks(a)| == |Ranks(b)| == |b|;
  }

  // ----- the counts add up -----

  function Total(rows: seq<Row>): int { if rows == [] then 0 else rows[0].count + Total(rows[1..]) }

  /** The hits under one of these rules. */
  function Sum(hits: seq<Hit>, ids: seq<string>): int {
    if ids == [] then 0 else |ForRule(hits, ids[0])| + Sum(hits, ids[1..])
  }

  predicate Distinct(ids: seq<string>) { forall i, j | 0 <= i < j < |ids| :: ids[i] != ids[j] }

  lemma {:induction false} SumSnoc(hits: seq<Hit>, h: Hit, ids: seq<string>)
    requires Distinct(ids)
    ensures Sum(hits + [h], ids) == Sum(hits, ids) + if h.rule in ids then 1 else 0
  {
    if ids != [] {
      FilterSnoc(hits, h, Under(ids[0]));
      SumSnoc(hits, h, ids[1..]);
      assert ids == [ids[0]] + ids[1..];
    }
  }

  lemma {:induction false} SumEmpty(ids: seq<string>)
    ensures Sum([], ids) == 0
  {
    if ids != [] {
      SumEmpty(ids[1..]);
    }
  }

  /** Distinct rules that cover the hits split them up. */
  lemma {:induction false} SumIsAll(hits: seq<Hit>, ids: seq<string>)
    requires Distinct(ids) && forall h | h in hits :: h.rule in ids
    ensures Sum(hits, ids) == |hits|
  {
    if hits == [] {
      SumEmpty(ids);
    } else {
      var n := |hits| - 1;
      assert hits == hits[..n] + [hits[n]];
      SumIsAll(hits[..n], ids);
      SumSnoc(hits[..n], hits[n], ids);
    }
  }

  function Ids(rows: seq<Row>): seq<string> { seq(|rows|, i requires 0 <= i < |rows| => rows[i].id) }

  lemma {:induction false} TotalIsSum(hits: seq<Hit>, rows: seq<Row>)
    requires forall row | row in rows :: row.count == |ForRule(hits, row.id)|
    ensures Total(rows) == Sum(hits, Ids(rows))
  {
    if rows != [] {
      assert Ids(rows)[1..] == Ids(rows[1..]);
      TotalIsSum(hits, rows[1..]);
    }
  }

  lemma SummaryIds(hits: seq<Hit>, rows: seq<Row>)
    requires IsSummary(hits, rows)
    ensures Distinct(Ids(rows)) && forall h | h in hits :: h.rule in Ids(rows)
  {
    forall i, j | 0 <= i < j < |rows| ensures rows[i].id != rows[j].id {
      BeforeTotal(RankOf(rows[i]), RankOf(rows[j]));
      assert rows[i] in rows && rows[j] in rows;
    }
    forall h | h in hits ensures h.rule in Ids(rows) {
      var row :| row in rows && row.id == h.rule;
      var i :| 0 <= i < |rows| && rows[i] == row;
      assert Ids(rows)[i] == h.rule;
    }
  }

  lemma HitsAddUp(hits: seq<Hit>, rows: seq<Row>)
    requires IsSummary(hits, rows)
    ensures Distinct(Ids(rows)) && Total(rows) == |hits|
  {
    SummaryIds(hits, rows);
    TotalIsSum(hits, rows);
    SumIsAll(hits, Ids(rows));
  }

  function WouldBlock(): Event -> bool { (e: Event) => e.wouldBlock }

  lemma {:induction false} HitsCounted(input: seq<Event>)
    ensures |Hits(input)| == |Filter(input, WouldBlock())|
  {
    if input != [] {
      var n := |input| - 1;
      HitsCounted(input[..n]);
      assert input == input[..n] + [input[n]];
      FilterSnoc(input[..n], input[n], WouldBlock());
    }
  }

  /** The rows of a summary have different rules, and their counts add up to the number of
      would-block events. */
  lemma CountsAddUp(input: seq<Event>, rows: seq<Row>)
    requires IsSummary(Hits(input), rows)
    ensures Distinct(Ids(rows)) && Total(rows) == |Filter(input, WouldBlock())|
  {
    HitsAddUp(Hits(input), rows);
    HitsCounted(input);
  }

  // ----- the order of the events -----

  lemma RemoveOne<T>(a: seq<T>, b: seq<T>, j: nat)
    requires multiset(a) == multiset(b) && a != [] && j < |b| && b[j] == a[0]
    ensures multiset(a[1..]) == multiset(b[..j] + b[j + 1..])
  {
    assert a == [a[0]] + a[1..] && b == b[..j] + [b[j]] + b[j + 1..];
    assert multiset(a[1..]) == multiset(a) - multiset{a[0]};
    assert multiset(b[..j] + b[j + 1..]) == multiset(b) - multiset{a[0]};
  }

  /** A permutation of a sequence, split around its head. */
  lemma HeadPosition<T>(a: seq<T>, b: seq<T>) returns (front: seq<T>, back: seq<T>)
    requires multiset(a) == multiset(b) && a != []
    ensures b == front + ([a[0]] + back) && multiset(a[1..]) == multiset(front + back)
  {
    assert a[0] in multiset(b);
    var j :| 0 <= j < |b| && b[j] == a[0];
    RemoveOne(a, b, j);
    front, back := b[..j], b[j + 1..];
  }

  lemma EmptyPermutation<T>(b: seq<T>)
    requires multiset(b) == multiset([])
    ensures b == []
  {
    assert |multiset(b)| == 0;
  }

  lemma {:induction false} FilterConcat<T>(a: seq<T>, b: seq<T>, p: T -> bool)
    ensures Filter(a + b, p) == Filter(a, p) + Filter(b, p)
  {
    if a == [] {
      assert a + b == b;
    } else {
      assert (a + b)[1..] == a[1..] + b;
      FilterConcat(a[1..], b, p);
    }
  }

  lemma FilterAround<T>(front: seq<T>, x: T, back: seq<T>, p: T -> bool)
    ensures multiset(Filter(front + ([x] + back), p)) == multiset(Filter([x] + (front + back), p))
  {
    FilterConcat(front, [x] + back, p);
    FilterCons(x, back, p);
    FilterCons(x, front + back, p);
    FilterConcat(front, back, p);
  }

  lemma {:induction false} FilterPermuted<T>(a: seq<T>, b: seq<T>, p: T -> bool)
    requires multiset(a) == multiset(b)
    ensures multiset(Filter(a, p)) == multiset(Filter(b, p))
  {
    if a == [] {
      EmptyPermutation(b);
    } else {
      var front, back := HeadPosition(a, b);
      FilterPermuted(a[1..], front + back, p);
      FilterAround(front, a[0], back, p);
      FilterCons(a[0], a[1..], p);
      FilterCons(a[0], front + back, p);
      assert a == [a[0]] + a[1..];
    }
  }

  lemma {:induction false} HitsConcat(a: seq<Event>, b: seq<Event>)
    ensures Hits(a + b) == Hits(a) + Hits(b)
  {
    if b == [] {
      assert a + b == a;
    } else {
      var n := |b| - 1;
      assert (a + b)[..|a + b| - 1] == a + b[..n];
      HitsConcat(a, b[..n]);
    }
  }

  lemma HitsAround(front: seq<Event>, e: Event, back: seq<Event>)
    ensures multiset(Hits(front + ([e] + back))) == multiset(Hits([e])) + multiset(Hits(front + back))
  {
    HitsConcat(front, [e] + back);
    HitsConcat([e], back);
    HitsConcat(front, back);
    var x, y, z := Hits(front), Hits([e]), Hits(back);
    assert multiset(x + (y + z)) == multiset(y) + multiset(x + z);
  }

  lemma HitsOfHead(a: seq<Event>)
    requires a != []
    ensures multiset(Hits(a)) == multiset(Hits([a[0]])) + multiset(Hits(a[1..]))
  {
    assert a == [a[0]] + a[1..];
    HitsConcat([a[0]], a[1..]);
  }

  lemma {:induction false} HitsPermuted(a: seq<Event>, b: seq<Event>)
    requires multiset(a) == multiset(b)
    ensures multiset(Hits(a)) == multiset(Hits(b))
  {
    if a == [] {
      EmptyPermutation(b);
    } else {
      var front, back := HeadPosition(a, b);
      HitsPermuted(a[1..], front + back);
      HitsOfHead(a);
      HitsAround(front, a[0], back);
    }
  }

  lemma SameLength<T>(a: seq<T>, b: seq<T>)
    requires multiset(a) == multiset(b)
    ensures |a| == |b|
  {
    assert |multiset(a)| == |multiset(b)|;
  }

  /** What of a row does not depend on the order of the events. */
  function Core(row: Row): (string, int, int, seq<string>) { (row.id, row.count, row.uniqueIPs, row.topPaths) }

  function Cores(rows: seq<Row>): seq<(string, int, int, seq<string>)> {
    seq(|rows|, i requires 0 <= i < |rows| => Core(rows[i]))
  }

  lemma IPsPermuted(a: seq<Hit>, b: seq<Hit>)
    requires multiset(a) == multiset(b)
    ensures IPs(a) == IPs(b)
  {
    forall h ensures h in a <==> h in b {
      assert h in multiset(a) <==> h in multiset(b);
    }
  }

  lemma TopPermuted(a: seq<Hit>, b: seq<Hit>, top: seq<string>)
    requires multiset(a) == multiset(b) && IsTop(a, top)
    ensures IsTop(b, top)
  {
    var ranks :| IsRanking(a, ranks) && top == Take(Names(ranks), 5);
    forall p ensures PathCount(a, p) == PathCount(b, p) {
      FilterPermuted(a, b, OnPath(p));
      SameLength(Filter(a, OnPath(p)), Filter(b, OnPath(p)));
    }
    assert IsRanking(b, ranks);
  }

  lemma RowPermuted(a: seq<Hit>, b: seq<Hit>, x: Row, y: Row)
    requires multiset(a) == multiset(b) && IsRow(a, x) && IsRow(b, y) && x.id == y.id
    ensures Core(x) == Core(y)
  {
    var own, own' := ForRule(a, x.id), ForRule(b, x.id);
    FilterPermuted(a, b, Under(x.id));
    SameLength(own, own');
    IPsPermuted(own, own');
    TopPermuted(own, own', x.topPaths);
    TopUnique(own', x.topPaths, y.topPaths);
  }

  lemma RankPermuted(a: seq<Hit>, b: seq<Hit>, xs: seq<Row>, ys: seq<Row>, r: Rank)
    requires multiset(a) == multiset(b) && IsSummary(a, xs) && IsSummary(b, ys) && r in Ranks(xs)
    ensures r in Ranks(ys)
  {
    var i :| 0 <= i < |xs| && RankOf(xs[i]) == r;
    var other := Counterpart(a, b, xs[i], ys);
    RowPermuted(a, b, xs[i], other);
    var j :| 0 <= j < |ys| && ys[j] == other;
    assert Ranks(ys)[j] == r;
  }

  lemma Counterpart(a: seq<Hit>, b: seq<Hit>, x: Row, ys: seq<Row>) returns (y: Row)
    requires multiset(a) == multiset(b) && IsRow(a, x) && IsSummary(b, ys)
    ensures y in ys && y.id == x.id
  {
    RowHasHit(a, x);
    var h :| h in a && h.rule == x.id;
    assert h in multiset(b);
    y :| y in ys && y.id == h.rule;
  }

  lemma HitsOrderIrrelevant(a: seq<Hit>, b: seq<Hit>, xs: seq<Row>, ys: seq<Row>)
    requires multiset(a) == multiset(b) && IsSummary(a, xs) && IsSummary(b, ys)
    ensures Cores(xs) == Cores(ys)
  {
    forall r ensures r in Ranks(xs) <==> r in Ranks(ys) {
      if r in Ranks(xs) {
        RankPermuted(a, b, xs, ys, r);
      }
      if r in Ranks(ys) {
        RankPermuted(b, a, ys, xs, r);
      }
    }
    StrictUnique(Ranks(xs), Ranks(ys));
    assert |xs| == |Ranks(xs)| == |Ranks(ys)| == |ys|;
    forall i | 0 <= i < |xs| ensures Core(xs[i]) == Core(ys[i]) {
      assert Ranks(xs)[i] == Ranks(ys)[i];
      RowPermuted(a, b, xs[i], ys[i]);
    }
  }

  /** Permuting the events changes at most the rule names and the sample ids. */
  lemma EventOrderIrrelevant(a: seq<Event>, b: seq<Event>, xs: seq<Row>, ys: seq<Row>)
    requires multiset(a) == multiset(b) && IsSummary(Hits(a), xs) && IsSummary(Hits(b), ys)
    ensures Cores(xs) == Cores(ys)
  {
    HitsPermuted(a, b);
    HitsOrderIrrelevant(Hits(a), Hits(b), xs, ys);
  }

  /** What an event is counted under: the trimmed rule id, or "unknown" for a blank one. */
  lemma RuleLaw(e: Event)
    ensures Blank(e.matchedRuleID) ==> RuleOf(e) == "unknown"
    ensures !Blank(e.matchedRuleID) ==> RuleOf(e) == TrimSpace(e.matchedRuleID)
    ensures HitOf(e).name == e.matchedRuleName && HitOf(e).ip == e.clientIP && HitOf(e).path == e.path && HitOf(e).request == e.requestID
  {
  }

  /** The rows come by falling count, and rows of one count by rising id. */
  lemma SummaryOrder(hits: seq<Hit>, rows: seq<Row>, i: nat, j: nat)
    requires IsSummary(hits, rows) && i < j < |rows|
    ensures rows[i].count >= rows[j].count && (rows[i].count == rows[j].count ==> Less(rows[i].id, rows[j].id))
  {
    assert Before(RankOf(rows[i]), RankOf(rows[j]));
  }

  /** So do the top paths of a row, by the hits of its rule. */
  lemma TopOrder(hits: seq<Hit>, top: seq<string>, i: nat, j: nat)
    requires IsTop(hits, top) && i < j < |top|
    ensures PathCount(hits, top[i]) >= PathCount(hits, top[j])
    ensures PathCount(hits, top[i]) == PathCount(hits, top[j]) ==> Less(top[i], top[j])
  {
    TopIsBest(hits, top);
  }
}
