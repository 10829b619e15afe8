/** What the text helpers, the IP prefixes and each condition operator mean, said without
    their definitions. */
module Meaning {
  import opened Text
  import opened Netip
  import opened Condition
  import HostIndex

  // ----- prefixes -----

  lemma {:induction false} Pow2Sum(m: nat, n: nat)
    ensures Pow2(m + n) == Pow2(m) * Pow2(n) && Pow2(1) == 2
  {
    if m > 0 {
      Pow2Sum(m - 1, n);
      assert Pow2(m) == 2 * Pow2(m - 1) && Pow2(m + n) == 2 * Pow2(m - 1 + n);
    }
  }

  lemma QuotientIs(v: nat, d: nat, q: nat)
    requires d > 0
    ensures v / d == q <==> q * d <= v < (q + 1) * d
  {
    assert v == d * (v / d) + v % d;
    if v / d < q {
      assert (v / d + 1) * d <= q * d;
    }
    if v / d > q {
      assert (q + 1) * d <= v / d * d;
    }
  }

  /** A prefix contains the addresses of its family, without zone, in its range of values. */
  lemma PrefixRange(p: Prefix, ip: Address)
    ensures p.Contains(ip) <==>
            ip.zone == "" && p.is6 == ip.is6
            && p.network * Pow2(p.hostBits) <= ip.value < (p.network + 1) * Pow2(p.hostBits)
  {
    QuotientIs(ip.value, Pow2(p.hostBits), p.network);
  }

  // ----- texts -----

  /** The same letter up to ASCII case. */
  predicate SameLetter(a: char, b: char) {
    a == b || ('A' <= a <= 'Z' && b as int == a as int + 32) || ('A' <= b <= 'Z' && a as int == b as int + 32)
  }

  lemma LowerLaw(a: char, b: char)
    ensures LowerChar(a) == LowerChar(b) <==> SameLetter(a, b)
  {
  }

  lemma FoldLaw(a: string, b: string)
    ensures EqualFold(a, b) <==> |a| == |b| && forall i | 0 <= i < |a| :: SameLetter(a[i], b[i])
  {
    var x, y := ToLower(a), ToLower(b);
    if x == y {
      forall i | 0 <= i < |a| ensures SameLetter(a[i], b[i]) {
        assert x[i] == LowerChar(a[i]) && y[i] == LowerChar(b[i]);
        LowerLaw(a[i], b[i]);
      }
    }
    if |a| == |b| && forall i | 0 <= i < |a| :: SameLetter(a[i], b[i]) {
      forall i | 0 <= i < |a| ensures x[i] == y[i] {
        LowerLaw(a[i], b[i]);
      }
    }
  }

  lemma ContainsLaw(s: string, sub: string)
    ensures Contains(s, sub) <==> exists pre, post :: s == pre + sub + post
  {
    if i :| 0 <= i <= |s| && sub <= s[i..] {
      assert s == s[..i] + sub + s[i + |sub|..];
    }
    if pre, post :| s == pre + sub + post {
      assert sub <= s[|pre|..];
    }
  }

  predicate Spaces(s: string) { forall i | 0 <= i < |s| :: IsSpace(s[i]) }

  /** Trimming takes white space off both ends and nothing else. */
  lemma {:induction false} TrimLaw(s: string) returns (pre: string, post: string)
    ensures s == pre + TrimSpace(s) + post && Spaces(pre) && Spaces(post)
    decreases |s|, 1
  {
    pre, post := "", "";
    if s != "" && IsSpace(s[0]) {
      pre, post := TrimHead(s);
    } else if s != "" && IsSpace(s[|s| - 1]) {
      pre, post := TrimLast(s);
    }
  }

  lemma {:induction false} TrimHead(s: string) returns (pre: string, post: string)
    requires s != "" && IsSpace(s[0])
    ensures s == pre + TrimSpace(s) + post && Spaces(pre) && Spaces(post)
    decreases |s|, 0
  {
    var x, y := TrimLaw(s[1..]);
    pre, post := [s[0]] + x, y;
    assert TrimSpace(s) == TrimSpace(s[1..]);
    assert s == [s[0]] + (x + TrimSpace(s[1..]) + y);
  }

  lemma {:induction false} TrimLast(s: string) returns (pre: string, post: string)
    requires s != "" && !IsSpace(s[0]) && IsSpace(s[|s| - 1])
    ensures s == pre + TrimSpace(s) + post && Spaces(pre) && Spaces(post)
    decreases |s|, 0
  {
    var front := s[..|s| - 1];
    var x, y := TrimLaw(front);
    pre, post := x, y + [s[|s| - 1]];
    assert TrimSpace(s) == TrimSpace(front);
    assert s == (x + TrimSpace(front) + y) + [s[|s| - 1]];
  }

  /** A canonical header name: upper case at the start and after a dash, lower case elsewhere. */
  lemma {:induction false} CanonicalAt(s: string, upper: bool, i: nat)
    requires i < |s|
    ensures var high := if i == 0 then upper else s[i - 1] == '-';
            CanonicalFrom(s, upper)[i] == if high then UpperChar(s[i]) else LowerChar(s[i])
  {
    if i > 0 {
      CanonicalAt(s[1..], s[0] == '-', i - 1);
    }
  }

  /** String order is lexicographic: at the first difference the smaller character, or the
      shorter text. */
  ghost predicate Differ(a: string, b: string, k: nat) {
    k <= |a| && k < |b| && a[..k] == b[..k] && (k == |a| || a[k] < b[k])
  }

  lemma {:induction false} LessLaw(a: string, b: string)
    ensures Less(a, b) <==> exists k: nat :: Differ(a, b, k)
  {
    if a == "" {
      assert b != "" ==> Differ(a, b, 0);
    } else if b != "" {
      if a[0] < b[0] {
        assert Differ(a, b, 0);
      } else if a[0] == b[0] {
        LessLaw(a[1..], b[1..]);
        if k: nat :| Differ(a[1..], b[1..], k) {
          assert a[..k + 1] == [a[0]] + a[1..][..k] && b[..k + 1] == [b[0]] + b[1..][..k];
          assert Differ(a, b, k + 1);
        }
        if k: nat :| Differ(a, b, k) {
          DifferTail(a, b, k);
        }
      } else {
        forall k: nat ensures !Differ(a, b, k) {
          assert k > 0 && k <= |a| && k < |b| ==> a[..k][0] != b[..k][0];
        }
      }
    }
  }

  lemma DifferTail(a: string, b: string, k: nat)
    requires Differ(a, b, k) && a != "" && a[0] == b[0]
    ensures k > 0 && Differ(a[1..], b[1..], k - 1)
  {
    assert a[..k][1..] == b[..k][1..];
    assert a[1..][..k - 1] == a[..k][1..] && b[1..][..k - 1] == b[..k][1..];
  }

  // ----- the condition operators -----

  /** A record without any operator. */
  const NO_OPERATOR: Cond := Cond([], [], "", "", "", "", None, None, None, "", "")

  lemma NothingLaw(ctx: Request, sets: IPSets)
    ensures !Match(NO_OPERATOR, ctx, sets)
  {
  }

  lemma AllLaw(children: seq<Cond>, ctx: Request, sets: IPSets)
    requires children != []
    ensures Match(NO_OPERATOR.(all := children), ctx, sets) <==> forall i | 0 <= i < |children| :: Match(children[i], ctx, sets)
  {
  }

  lemma AnyLaw(children: seq<Cond>, ctx: Request, sets: IPSets)
    requires children != []
    ensures Match(NO_OPERATOR.(any := children), ctx, sets) <==> exists i | 0 <= i < |children| :: Match(children[i], ctx, sets)
  {
  }

  /** `method_equals`, `path_equals` and `path_starts_with`. */
  lemma LineLaws(m: string, p: string, ctx: Request, sets: IPSets)
    requires m != "" && p != ""
    ensures Match(NO_OPERATOR.(methodEquals := m), ctx, sets) <==>
            |ctx.method_| == |m| && forall i | 0 <= i < |m| :: SameLetter(ctx.method_[i], m[i])
    ensures Match(NO_OPERATOR.(pathEquals := p), ctx, sets) <==> ctx.path == p
    ensures Match(NO_OPERATOR.(pathStartsWith := p), ctx, sets) <==> exists rest :: ctx.path == p + rest
  {
    FoldLaw(ctx.method_, m);
    if p <= ctx.path {
      assert ctx.path == p + ctx.path[|p|..];
    }
  }

  /** `host_equals`: the same normal form. */
  lemma HostLaw(h: string, ctx: Request, sets: IPSets)
    requires h != ""
    ensures Match(NO_OPERATOR.(hostEquals := h), ctx, sets) <==> NormalizeHost(ctx.host) == NormalizeHost(h)
  {
  }

  /** The value occurs inside one of the values stored under the name. */
  ghost predicate FoundIn(m: map<string, seq<string>>, name: string, value: string) {
    name in m && exists v, pre, post :: v in m[name] && v == pre + value + post
  }

  lemma FoundLaw(m: map<string, seq<string>>, name: string, value: string)
    ensures SomeContains(Condition.Lookup(m, name), value) <==> FoundIn(m, name, value)
  {
    var values := Condition.Lookup(m, name);
    if i :| 0 <= i < |values| && Contains(values[i], value) {
      ContainsLaw(values[i], value);
      var pre, post :| values[i] == pre + value + post;
      assert values[i] in m[name];
    }
    if FoundIn(m, name, value) {
      var v, pre, post :| v in m[name] && v == pre + value + post;
      ContainsLaw(v, value);
      var i :| 0 <= i < |values| && values[i] == v;
      assert Contains(values[i], value);
    }
  }

  /** `header_contains` and `header_equals` look under the canonical name, `query_parameter_contains` under the name itself. */
  lemma NamedLaws(name: string, value: string, ctx: Request, sets: IPSets)
    ensures Match(NO_OPERATOR.(headerContains := Some(NameValue(name, value))), ctx, sets) <==>
            FoundIn(ctx.headers, CanonicalHeaderName(name), value)
    ensures Match(NO_OPERATOR.(headerEquals := Some(NameValue(name, value))), ctx, sets) <==>
            CanonicalHeaderName(name) in ctx.headers && value in ctx.headers[CanonicalHeaderName(name)]
    ensures Match(NO_OPERATOR.(queryParamContains := Some(NameValue(name, value))), ctx, sets) <==>
            FoundIn(ctx.query, name, value)
  {
    FoundLaw(ctx.headers, CanonicalHeaderName(name), value);
    FoundLaw(ctx.query, name, value);
  }

  /** `client_ip_in_ip_set` and `client_ip_not_in_ip_set`, for a set that exists. */
  lemma IPLaws(s: string, ctx: Request, sets: IPSets)
    requires s != "" && s in sets
    ensures Match(NO_OPERATOR.(clientIPInIPSet := s), ctx, sets) <==> exists p :: p in sets[s] && p.Contains(ctx.clientIP)
    ensures Match(NO_OPERATOR.(clientIPNotInIPSet := s), ctx, sets) <==> forall p | p in sets[s] :: !p.Contains(ctx.clientIP)
  {
    var prefixes := sets[s];
    if p :| p in prefixes && p.Contains(ctx.clientIP) {
      var i :| 0 <= i < |prefixes| && prefixes[i] == p;
      assert prefixes[i].Contains(ctx.clientIP);
    }
  }

  // ----- hosts -----

  lemma {:induction false} TrimBehind(s: string, post: string)
    requires Spaces(post)
    ensures TrimSpace(s + post) == TrimSpace(s)
    decreases |s| + |post|
  {
    var whole := s + post;
    if post == "" {
      assert whole == s;
    } else if s == "" {
      assert whole == post;
    } else if IsSpace(s[0]) {
      assert whole[1..] == s[1..] + post;
      TrimBehind(s[1..], post);
    } else {
      assert whole[..|whole| - 1] == s + post[..|post| - 1];
      TrimBehind(s, post[..|post| - 1]);
    }
  }

  /** White space around a text does not matter once trimmed. */
  lemma {:induction false} TrimAround(pre: string, s: string, post: string)
    requires Spaces(pre) && Spaces(post)
    ensures TrimSpace(pre + s + post) == TrimSpace(s)
  {
    if pre == "" {
      assert pre + s + post == s + post;
      TrimBehind(s, post);
    } else {
      var whole := pre + s + post;
      assert whole[0] == pre[0] && whole[1..] == pre[1..] + s + post;
      TrimAround(pre[1..], s, post);
    }
  }

  /** White space around a host does not matter to its normal form. */
  lemma HostSpaces(pre: string, h: string, post: string)
    requires Spaces(pre) && Spaces(post)
    ensures NormalizeHost(pre + h + post) == NormalizeHost(h)
  {
    LowerParts(pre, h);
    LowerParts(pre + h, post);
    LowerKeeps(pre);
    LowerKeeps(post);
    TrimAround(ToLower(pre), ToLower(h), ToLower(post));
  }

  /** Letter case does not matter to a normal form. */
  lemma HostCase(a: string, b: string)
    requires |a| == |b| && forall i | 0 <= i < |a| :: SameLetter(a[i], b[i])
    ensures NormalizeHost(a) == NormalizeHost(b)
  {
    FoldLaw(a, b);
  }

  lemma LowerParts(a: string, b: string)
    ensures ToLower(a + b) == ToLower(a) + ToLower(b)
  {
  }

  /** Lower case keeps white space, colons and brackets where they are. */
  lemma LowerKeeps(s: string)
    ensures forall i | 0 <= i < |s| :: (IsSpace(ToLower(s)[i]) <==> IsSpace(s[i])) && (ToLower(s)[i] == ':' <==> s[i] == ':')
                                       && (ToLower(s)[i] == '[' <==> s[i] == '[') && (ToLower(s)[i] == ']' <==> s[i] == ']')
  {
  }

  lemma {:induction false} AfterLastIs(x: string, y: string)
    requires forall i | 0 <= i < |y| :: y[i] != ':'
    ensures AfterLast(x + ":" + y, ':') == |x| + 1
  {
    var s := x + ":" + y;
    if y != "" {
      AfterLastIs(x, y[..|y| - 1]);
      assert s[..|s| - 1] == x + ":" + y[..|y| - 1];
    }
  }

  lemma {:induction false} NoColon(s: string)
    requires forall i | 0 <= i < |s| :: s[i] != ':'
    ensures AfterLast(s, ':') == 0
  {
    if s != "" {
      NoColon(s[..|s| - 1]);
    }
  }

  /** A part of a host: no brackets, no white space at its ends. */
  predicate Plain(s: string) {
    (forall i | 0 <= i < |s| :: s[i] != '[' && s[i] != ']') && TrimmedEdges(s)
  }

  predicate NoColons(s: string) { forall i | 0 <= i < |s| :: s[i] != ':' }

  lemma PlainBrackets(s: string)
    requires forall i | 0 <= i < |s| :: s[i] != '[' && s[i] != ']'
    ensures TrimBrackets(s) == s
  {
  }

  lemma LowerPlain(s: string)
    requires Plain(s)
    ensures Plain(ToLower(s)) && (NoColons(s) ==> NoColons(ToLower(s)))
  {
    LowerKeeps(s);
  }

  lemma SplitPlain(h: string, port: string)
    requires Plain(h) && h != "" && NoColons(h) && Plain(port) && NoColons(port)
    ensures SplitHost(h + ":" + port) == Some(h)
  {
    var s := h + ":" + port;
    AfterLastIs(h, port);
    assert s[..|h|] == h && s[0] == h[0];
    assert forall i | 0 <= i < |s| :: s[i] != '[' && s[i] != ']';
  }

  /** A host name alone, or with any port, has its lower case as normal form. */
  lemma HostPort(h: string, port: string)
    requires Plain(h) && h != "" && NoColons(h) && Plain(port) && NoColons(port)
    ensures NormalizeHost(h) == ToLower(h) && NormalizeHost(h + ":" + port) == ToLower(h)
  {
    var low, lowPort := ToLower(h), ToLower(port);
    LowerPlain(h);
    LowerPlain(port);
    LowerParts(h, ":");
    LowerParts(h + ":", port);
    assert ToLower(":") == ":";
    NoColon(low);
    SplitPlain(low, lowPort);
    PlainBrackets(low);
    TrimmedWhole(low, lowPort);
  }

  lemma TrimmedWhole(h: string, port: string)
    requires Plain(h) && h != "" && Plain(port)
    ensures TrimSpace(h + ":" + port) == h + ":" + port && TrimSpace(h) == h
  {
    assert TrimmedEdges(h + ":" + port);
  }

  lemma {:induction false} IndexOfIs(x: string, y: string)
    requires forall i | 0 <= i < |x| :: x[i] != ']'
    ensures IndexOf(x + "]" + y, ']') == |x|
  {
    var s := x + "]" + y;
    if x != "" {
      IndexOfIs(x[1..], y);
      assert s[1..] == x[1..] + "]" + y;
    }
  }

  lemma SplitBracketed(h: string, port: string)
    requires Plain(h) && Plain(port) && NoColons(port)
    ensures SplitHost("[" + h + "]" + ":" + port) == Some(h)
  {
    var s := "[" + h + "]" + ":" + port;
    AfterLastIs("[" + h + "]", port);
    assert s == ("[" + h) + "]" + (":" + port);
    IndexOfIs("[" + h, ":" + port);
    assert s[1..|h| + 1] == h;
    assert forall i | 0 <= i < |s[1..]| :: s[1..][i] == s[i + 1] && s[i + 1] != '[';
    var tail := s[|h| + 2..];
    assert tail == ":" + port;
    assert forall i | 0 <= i < |tail| :: tail[i] != ']';
  }

  lemma BracketedAlone(h: string)
    requires Plain(h)
    ensures SplitHost("[" + h + "]") == None
  {
    var s := "[" + h + "]";
    assert s == ("[" + h) + "]" + "";
    IndexOfIs("[" + h, "");
    assert s[|s| - 1] == ']';
  }

  lemma TrimBracketed(h: string)
    requires Plain(h)
    ensures TrimBrackets("[" + h + "]") == h
  {
    PlainBrackets(h);
    assert ("[" + h + "]")[1..] == h + "]";
    assert h + "]" != "" && (h + "]")[..|h + "]"| - 1] == h;
    if h == "" {
      assert TrimBrackets("]") == TrimBrackets("]"[1..]);
    } else {
      assert !Bracket((h + "]")[0]);
    }
  }

  lemma LowerBracketed(h: string, port: string)
    ensures ToLower("[" + h + "]") == "[" + ToLower(h) + "]"
    ensures ToLower("[" + h + "]" + ":" + port) == "[" + ToLower(h) + "]" + ":" + ToLower(port)
  {
    LowerParts("[", h);
    LowerParts("[" + h, "]");
    LowerParts("[" + h + "]", ":");
    LowerParts("[" + h + "]" + ":", port);
    assert ToLower(":") == ":" && ToLower("[") == "[" && ToLower("]") == "]";
  }

  lemma TrimmedBrackets(h: string, port: string)
    requires Plain(port)
    ensures TrimSpace("[" + h + "]") == "[" + h + "]" && TrimSpace("[" + h + "]" + ":" + port) == "[" + h + "]" + ":" + port
  {
    assert TrimmedEdges("[" + h + "]") && TrimmedEdges("[" + h + "]" + ":" + port);
  }

  /** The normal form of a text that lower case and trimming leave as `host`. */
  lemma NormalIs(raw: string, host: string)
    requires host != "" && TrimSpace(ToLower(raw)) == host
    ensures NormalizeHost(raw) == TrimBrackets(if SplitHost(host).Some? then SplitHost(host).value else host)
  {
  }

  /** An address in brackets, alone or with any port, has its lower case as normal form. */
  lemma HostBrackets(h: string, port: string)
    requires Plain(h) && Plain(port) && NoColons(port)
    ensures NormalizeHost("[" + h + "]") == ToLower(h) && NormalizeHost("[" + h + "]" + ":" + port) == ToLower(h)
  {
    var low, lowPort := ToLower(h), ToLower(port);
    LowerPlain(h);
    LowerPlain(port);
    LowerBracketed(h, port);
    TrimmedBrackets(low, lowPort);
    SplitBracketed(low, lowPort);
    BracketedAlone(low);
    TrimBracketed(low);
    PlainBrackets(low);
    NormalIs("[" + h + "]", "[" + low + "]");
    NormalIs("[" + h + "]" + ":" + port, "[" + low + "]" + ":" + lowPort);
  }

  /** The host index answers alike for a host in any letter case, with or without a port. */
  lemma MatchHostLaw(byHost: HostIndex.Index, h: string, g: string, port: string)
    requires Plain(h) && h != "" && NoColons(h) && Plain(port) && NoColons(port)
    requires |g| == |h| && forall i | 0 <= i < |h| :: SameLetter(g[i], h[i])
    ensures HostIndex.MatchHost(byHost, h + ":" + port) == HostIndex.MatchHost(byHost, g)
  {
    HostPort(h, port);
    HostCase(g, h);
  }
}
