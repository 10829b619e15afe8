/** The host index of the local policy store (policy/store.go:111-127, 183-194). */
module HostIndex {
  import opened Text

  /** What the index sees of a configured app: whether the rest of it parses, and its
      hostnames, each already in normal form (`Text.NormalizeHost`). */
  datatype AppEntry = AppEntry(id: string, parses: bool, names: seq<string>)

  /** A configured app as written. */
  datatype AppConfig = AppConfig(id: string, parses: bool, hostnames: seq<string>)

  function Entry(a: AppConfig): AppEntry {
    AppEntry(a.id, a.parses, seq(|a.hostnames|, j requires 0 <= j < |a.hostnames| => NormalizeHost(a.hostnames[j])))
  }

  function Entries(apps: seq<AppConfig>): seq<AppEntry> {
    seq(|apps|, i requires 0 <= i < |apps| => Entry(apps[i]))
  }

  /** Position `(i, j)` holds a hostname: the `j`th of app `i`. */
  ghost predicate At(apps: seq<AppEntry>, i: int, j: int) {
    0 <= i < |apps| && 0 <= j < |apps[i].names|
  }

  /** Position `(i, j)` comes before position `(n, m)`. */
  ghost predicate Before(i: int, j: int, n: int, m: int) {
    i < n || (i == n && j < m)
  }

  /** No two configured hostnames before `(n, m)` share a normal form. */
  ghost predicate UniqueTo(apps: seq<AppEntry>, n: int, m: int) {
    forall i, j, k, l | At(apps, i, j) && At(apps, k, l) && Before(i, j, k, l) && Before(k, l, n, m) ::
      apps[i].names[j] != apps[k].names[l]
  }

  ghost predicate Unique(apps: seq<AppEntry>) {
    UniqueTo(apps, |apps|, 0)
  }

  type Index = map<string, int>

  /** App `i` has the hostname `h` before `(n, m)`. */
  ghost predicate ListsTo(apps: seq<AppEntry>, i: int, h: string, n: int, m: int) {
    exists j :: At(apps, i, j) && Before(i, j, n, m) && apps[i].names[j] == h
  }

  ghost predicate Lists(apps: seq<AppEntry>, i: int, h: string) {
    ListsTo(apps, i, h, |apps|, 0)
  }

  /** The index holds the hostnames before `(n, m)` and nothing else. */
  ghost predicate Indexes(byHost: Index, apps: seq<AppEntry>, n: int, m: int) {
    (forall i, j | At(apps, i, j) && Before(i, j, n, m) :: apps[i].names[j] in byHost && byHost[apps[i].names[j]] == i)
    && (forall h | h in byHost :: ListsTo(apps, byHost[h], h, n, m))
  }

  datatype StoreError = BadApp(app: int) | HostTaken(host: string, first: int, second: int)

  /** Two different places, the first no later than the second, list the host: one in app
      `first`, one in app `second`. */
  ghost predicate ListedTwice(apps: seq<AppEntry>, host: string, first: int, second: int) {
    exists j, l :: At(apps, first, j) && At(apps, second, l) && Before(first, j, second, l)
                   && apps[first].names[j] == host && apps[second].names[l] == host
  }

  /** A normal form the index already holds is listed twice. */
  lemma TakenClashes(byHost: Index, apps: seq<AppEntry>, n: int, m: int)
    requires At(apps, n, m) && Indexes(byHost, apps, n, m) && apps[n].names[m] in byHost
    ensures !Unique(apps) && ListedTwice(apps, apps[n].names[m], byHost[apps[n].names[m]], n)
  {
    var host := apps[n].names[m];
    var j :| At(apps, byHost[host], j) && Before(byHost[host], j, n, m) && apps[byHost[host]].names[j] == host;
    assert Before(n, m, |apps|, 0);
  }

  lemma IndexMore(byHost: Index, apps: seq<AppEntry>, n: int, m: int)
    requires At(apps, n, m) && Indexes(byHost, apps, n, m) && UniqueTo(apps, n, m) && apps[n].names[m] !in byHost
    ensures Indexes(byHost[apps[n].names[m] := n], apps, n, m + 1) && UniqueTo(apps, n, m + 1)
  {
    var host := apps[n].names[m];
    var more := byHost[host := n];
    forall h | h in more ensures ListsTo(apps, more[h], h, n, m + 1) {
      if h == host {
        assert Before(n, m, n, m + 1);
      } else {
        var j :| At(apps, byHost[h], j) && Before(byHost[h], j, n, m) && apps[byHost[h]].names[j] == h;
        assert Before(byHost[h], j, n, m + 1);
      }
    }
  }

  /** Past the last hostname of app `n` the positions go on at app `n + 1`. */
  lemma NextApp(byHost: Index, apps: seq<AppEntry>, n: int)
    requires 0 <= n < |apps| && Indexes(byHost, apps, n, |apps[n].names|) && UniqueTo(apps, n, |apps[n].names|)
    ensures Indexes(byHost, apps, n + 1, 0) && UniqueTo(apps, n + 1, 0)
  {
    forall h | h in byHost ensures ListsTo(apps, byHost[h], h, n + 1, 0) {
      var j :| At(apps, byHost[h], j) && Before(byHost[h], j, n, |apps[n].names|) && apps[byHost[h]].names[j] == h;
      assert Before(byHost[h], j, n + 1, 0);
    }
  }

  /** The inner loop: adds the hostnames of app `i`. */
  method AddHostnames(apps: seq<AppEntry>, i: int, start: Index) returns (r: Result<Index, StoreError>)
    requires 0 <= i < |apps| && Indexes(start, apps, i, 0) && UniqueTo(apps, i, 0)
    ensures r.Ok? ==> Indexes(r.value, apps, i + 1, 0) && UniqueTo(apps, i + 1, 0)
    ensures r.Err? ==> r.error.HostTaken? && r.error.second == i && !Unique(apps)
                       && ListedTwice(apps, r.error.host, r.error.first, i)
  {
    var byHost: Index := start;
    for j := 0 to |apps[i].names|
      invariant Indexes(byHost, apps, i, j) && UniqueTo(apps, i, j)
    {
      var host := apps[i].names[j];
      if host in byHost {
        TakenClashes(byHost, apps, i, j);
        return Err(HostTaken(host, byHost[host], i));
      }
      IndexMore(byHost, apps, i, j);
      byHost := byHost[host := i];
    }
    NextApp(byHost, apps, i);
    r := Ok(byHost);
  }

  /** The outer loop, over hostnames in normal form. */
  method BuildIndex(apps: seq<AppEntry>) returns (r: Result<Index, StoreError>)
    ensures r.Ok? <==> Unique(apps) && forall i | 0 <= i < |apps| :: apps[i].parses
    ensures r.Ok? ==> Indexes(r.value, apps, |apps|, 0)
    ensures r.Err? && r.error.HostTaken? ==> !Unique(apps) && ListedTwice(apps, r.error.host, r.error.first, r.error.second)
    ensures r.Err? && r.error.BadApp? ==> 0 <= r.error.app < |apps| && !apps[r.error.app].parses
  {
    var byHost: Index := map[];
    for i := 0 to |apps|
      invariant Indexes(byHost, apps, i, 0) && UniqueTo(apps, i, 0)
      invariant forall k | 0 <= k < i :: apps[k].parses
    {
      if !apps[i].parses {
        return Err(BadApp(i));
      }
      var added := AddHostnames(apps, i, byHost);
      if added.Err? {
        return added;
      }
      byHost := added.value;
    }
    r := Ok(byHost);
  }

  /** No two configured hostnames, of one app or of two, have the same normal form. */
  ghost predicate Distinct(apps: seq<AppConfig>) {
    forall i, j, k, l | 0 <= i < |apps| && 0 <= j < |apps[i].hostnames| && 0 <= k < |apps| && 0 <= l < |apps[k].hostnames|
                        && (i, j) != (k, l) ::
      NormalizeHost(apps[i].hostnames[j]) != NormalizeHost(apps[k].hostnames[l])
  }

  lemma NameAt(apps: seq<AppConfig>, i: int, j: int)
    requires 0 <= i < |apps| && 0 <= j < |apps[i].hostnames|
    ensures At(Entries(apps), i, j) && Entries(apps)[i].names[j] == NormalizeHost(apps[i].hostnames[j])
  {
  }

  lemma DistinctIffUnique(apps: seq<AppConfig>)
    ensures Distinct(apps) <==> Unique(Entries(apps))
  {
    var entries := Entries(apps);
    forall i, j | 0 <= i < |apps| && 0 <= j < |apps[i].hostnames|
      ensures At(entries, i, j) && entries[i].names[j] == NormalizeHost(apps[i].hostnames[j])
    {
      NameAt(apps, i, j);
    }
    if Unique(entries) {
      forall i, j, k, l | 0 <= i < |apps| && 0 <= j < |apps[i].hostnames| && 0 <= k < |apps| && 0 <= l < |apps[k].hostnames|
                          && (i, j) != (k, l)
        ensures entries[i].names[j] != entries[k].names[l]
      {
        assert Before(i, j, k, l) || Before(k, l, i, j);
        assert Before(i, j, |apps|, 0) && Before(k, l, |apps|, 0);
      }
    }
  }

  /** The host is the normal form of a hostname of app `first` and of another, later one of app `second`. */
  ghost predicate SharedBy(apps: seq<AppConfig>, host: string, first: int, second: int) {
    0 <= first <= second < |apps|
    && exists j, l :: 0 <= j < |apps[first].hostnames| && 0 <= l < |apps[second].hostnames| && (first, j) != (second, l)
                      && NormalizeHost(apps[first].hostnames[j]) == host && NormalizeHost(apps[second].hostnames[l]) == host
  }

  lemma ListedIsShared(apps: seq<AppConfig>, host: string, first: int, second: int)
    requires ListedTwice(Entries(apps), host, first, second)
    ensures SharedBy(apps, host, first, second)
  {
    var entries := Entries(apps);
    var j, l :| At(entries, first, j) && At(entries, second, l) && Before(first, j, second, l)
                && entries[first].names[j] == host && entries[second].names[l] == host;
    NameAt(apps, first, j);
    NameAt(apps, second, l);
  }

  /** policy/store.go:111-127: the store is built exactly when every app parses and no two
      hostnames have the same normal form, and each failure names a true ground. */
  method NewStore(apps: seq<AppConfig>) returns (r: Result<Index, StoreError>)
    ensures r.Ok? <==> Distinct(apps) && forall i | 0 <= i < |apps| :: apps[i].parses
    ensures r.Ok? ==> Indexes(r.value, Entries(apps), |apps|, 0)
    ensures r.Err? && r.error.HostTaken? ==> !Distinct(apps) && SharedBy(apps, r.error.host, r.error.first, r.error.second)
    ensures r.Err? && r.error.BadApp? ==> 0 <= r.error.app < |apps| && !apps[r.error.app].parses
  {
    r := BuildIndex(Entries(apps));
    DistinctIffUnique(apps);
    if r.Err? && r.error.HostTaken? {
      ListedIsShared(apps, r.error.host, r.error.first, r.error.second);
    }
    assert forall i | 0 <= i < |apps| :: Entries(apps)[i].parses == apps[i].parses;
  }

  /** policy/store.go:183-194 after normalising the host. */
  function Find(byHost: Index, name: string): Option<int> {
    if name in byHost then Some(byHost[name]) else None
  }

  function MatchHost(byHost: Index, host: string): Option<int> {
    Find(byHost, NormalizeHost(host))
  }

  lemma FindIsSearch(byHost: Index, apps: seq<AppEntry>, name: string, i: int)
    requires Indexes(byHost, apps, |apps|, 0)
    ensures Find(byHost, name) == Some(i) <==> Lists(apps, i, name)
  {
    if Lists(apps, i, name) {
      var j :| At(apps, i, j) && Before(i, j, |apps|, 0) && apps[i].names[j] == name;
    }
  }

  /** App `i` is configured with a hostname that has the normal form of `host`. */
  ghost predicate Serves(apps: seq<AppConfig>, i: int, host: string) {
    0 <= i < |apps| && exists j :: 0 <= j < |apps[i].hostnames| && NormalizeHost(apps[i].hostnames[j]) == NormalizeHost(host)
  }

  lemma ServesIffListed(apps: seq<AppConfig>, i: int, host: string)
    ensures Serves(apps, i, host) <==> Lists(Entries(apps), i, NormalizeHost(host))
  {
    var entries, name := Entries(apps), NormalizeHost(host);
    if Serves(apps, i, host) {
      var j :| 0 <= j < |apps[i].hostnames| && NormalizeHost(apps[i].hostnames[j]) == name;
      assert At(entries, i, j) && Before(i, j, |entries|, 0) && entries[i].names[j] == name;
    }
    if Lists(entries, i, name) {
      var j :| At(entries, i, j) && Before(i, j, |entries|, 0) && entries[i].names[j] == name;
      assert NormalizeHost(apps[i].hostnames[j]) == name;
    }
  }

  /** The index agrees with searching the configuration: a built index answers with app `i`
      exactly when app `i` lists a hostname with the normal form of `host`; so at most one
      app does, and the answer is empty exactly when none does. */
  lemma MatchHostIsSearch(apps: seq<AppConfig>, byHost: Index, host: string)
    requires Indexes(byHost, Entries(apps), |apps|, 0)
    ensures forall i :: MatchHost(byHost, host) == Some(i) <==> Serves(apps, i, host)
    ensures MatchHost(byHost, host) == None <==> forall i :: !Serves(apps, i, host)
  {
    forall i ensures MatchHost(byHost, host) == Some(i) <==> Serves(apps, i, host) {
      ServesIffListed(apps, i, host);
      FindIsSearch(byHost, Entries(apps), NormalizeHost(host), i);
    }
    var found := MatchHost(byHost, host);
    if found.Some? {
      assert Serves(apps, found.value, host);
    }
  }
}
