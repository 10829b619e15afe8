/** Ordering by count, highest first, then by name; and the first names of a ranking. */
module Ranking {
  import opened Text

  datatype Rank = Rank(count: int, name: string)

  predicate Before(a: Rank, b: Rank) {
    a.count > b.count || (a.count == b.count && Less(a.name, b.name))
  }

  lemma BeforeTotal(a: Rank, b: Rank)
    ensures Before(a, b) || a == b || Before(b, a)
    ensures !(Before(a, b) && Before(b, a)) && !Before(a, a)
  {
    LessTotal(a.name, b.name);
    LessTotal(a.name, a.name);
  }

  lemma BeforeTransitive(a: Rank, b: Rank, c: Rank)
    requires Before(a, b) && Before(b, c)
    ensures Before(a, c)
  {
    if a.count == b.count == c.count {
      LessTransitive(a.name, b.name, c.name);
    }
  }

  predicate Strict(ranks: seq<Rank>) {
    forall i, j | 0 <= i < j < |ranks| :: Before(ranks[i], ranks[j])
  }

  /** Two strictly ordered sequences with the same elements are equal. */
  lemma {:induction false} StrictUnique(a: seq<Rank>, b: seq<Rank>)
    requires Strict(a) && Strict(b) && forall r :: r in a <==> r in b
    ensures a == b
  {
    if b != [] {
      assert b[0] in a;
    }
    if a != [] {
      SameHead(a, b);
      forall r ensures r in a[1..] <==> r in b[1..] {
        BeforeTotal(a[0], a[0]);
        TailWithout(a, r);
        TailWithout(b, r);
      }
      StrictUnique(a[1..], b[1..]);
    }
  }

  lemma TailWithout(a: seq<Rank>, r: Rank)
    requires a != [] && Strict(a)
    ensures r in a[1..] <==> r in a && r != a[0]
  {
    BeforeTotal(a[0], a[0]);
    assert a == [a[0]] + a[1..];
  }

  lemma SameHead(a: seq<Rank>, b: seq<Rank>)
    requires a != [] && Strict(a) && Strict(b) && forall r :: r in a <==> r in b
    ensures b != [] && a[0] == b[0]
  {
    assert a[0] in b;
    assert b[0] in a;
    BeforeTotal(a[0], b[0]);
  }

  /** Items in strict order of their ranks. */
  predicate StrictBy<T>(items: seq<T>, rank: T -> Rank) {
    forall i, j | 0 <= i < j < |items| :: Before(rank(items[i]), rank(items[j]))
  }

  /** Inserts an item behind all that rank before it. */
  method InsertByRank<T>(items: seq<T>, x: T, rank: T -> Rank) returns (r: seq<T>)
    requires StrictBy(items, rank) && forall y | y in items :: rank(y) != rank(x)
    ensures StrictBy(r, rank) && multiset(r) == multiset(items) + multiset{x}
  {
    var p := 0;
    while p < |items| && Before(rank(items[p]), rank(x))
      invariant 0 <= p <= |items| && forall i | 0 <= i < p :: Before(rank(items[i]), rank(x))
    {
      p := p + 1;
    }
    forall i | p <= i < |items| ensures Before(rank(x), rank(items[i])) {
      BeforeTotal(rank(items[p]), rank(x));
      if p < i {
        BeforeTransitive(rank(x), rank(items[p]), rank(items[i]));
      }
    }
    r := items[..p] + [x] + items[p..];
    InsertedStrict(items, x, rank, p, r);
    assert items == items[..p] + items[p..];
  }

  lemma InsertedStrict<T>(items: seq<T>, x: T, rank: T -> Rank, p: nat, r: seq<T>)
    requires StrictBy(items, rank) && p <= |items| && r == items[..p] + [x] + items[p..]
    requires forall i | 0 <= i < p :: Before(rank(items[i]), rank(x))
    requires forall i | p <= i < |items| :: Before(rank(x), rank(items[i]))
    ensures StrictBy(r, rank)
  {
    forall i, j | 0 <= i < j < |r| ensures Before(rank(r[i]), rank(r[j])) {
      assert r[i] == if i < p then items[i] else if i == p then x else items[i - 1];
      assert r[j] == if j < p then items[j] else if j == p then x else items[j - 1];
    }
  }

  /** No two items have the same rank. */
  predicate DistinctBy<T>(items: seq<T>, rank: T -> Rank) {
    forall i, j | 0 <= i < j < |items| :: rank(items[i]) != rank(items[j])
  }

  /** Sorting by a strict total order: what any sorting algorithm must return. */
  method SortByRank<T>(items: seq<T>, rank: T -> Rank) returns (r: seq<T>)
    requires DistinctBy(items, rank)
    ensures StrictBy(r, rank) && multiset(r) == multiset(items)
  {
    r := [];
    for i := 0 to |items|
      invariant StrictBy(r, rank) && multiset(r) == multiset(items[..i])
    {
      forall y | y in r ensures rank(y) != rank(items[i]) {
        assert y in multiset(items[..i]);
      }
      r := InsertByRank(r, items[i], rank);
      assert items[..i + 1] == items[..i] + [items[i]];
    }
    assert items[..|items|] == items;
  }

  function Names(ranks: seq<Rank>): seq<string> {
    seq(|ranks|, i requires 0 <= i < |ranks| => ranks[i].name)
  }
}
