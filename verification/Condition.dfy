/** IP prefixes as integers (section 3.1 of RFC 4632). */
module Netip {

  function Pow2(n: nat): (r: nat)
    ensures r > 0
  {
    if n == 0 then 1 else 2 * Pow2(n - 1)
  }

  /** `zone` is the IPv6 zone, usually empty. */
  datatype Address = Address(is6: bool, value: nat, zone: string)

  /** A masked prefix: the network number left after dropping the host bits. */
  datatype Prefix = Prefix(is6: bool, network: nat, hostBits: nat) {
    /** No prefix contains an address with a zone. */
    predicate Contains(ip: Address) {
      ip.zone == "" && is6 == ip.is6 && network == ip.value / Pow2(hostBits)
    }
  }

  predicate InSet(ip: Address, prefixes: seq<Prefix>) {
    exists i | 0 <= i < |prefixes| :: prefixes[i].Contains(ip)
  }
}

/** Match conditions: the eleven-field record shared by `config.ConditionConfig`
    and `policy.Condition`, the gateway compiler and matcher, and the tree
    language the record encodes. */
module Condition {
  import opened Text
  import opened Counting
  import opened Netip

  datatype NameValue = NameValue(name: string, value: string)

  datatype Cond = Cond(
    all: seq<Cond>,
    any: seq<Cond>,
    methodEquals: string,
    pathEquals: string,
    pathStartsWith: string,
    hostEquals: string,
    headerContains: Option<NameValue>,
    headerEquals: Option<NameValue>,
    queryParamContains: Option<NameValue>,
    clientIPInIPSet: string,
    clientIPNotInIPSet: string)

  datatype Request = Request(
    method_: string,
    path: string,
    host: string,
    headers: map<string, seq<string>>,
    query: map<string, seq<string>>,
    clientIP: Address)

  type IPSets = map<string, seq<Prefix>>

  // ----- field tests shared by every form of the matcher -----

  datatype Field =
    | FAll | FAny | FMethod | FPath | FPathPrefix | FHost
    | FHeaderContains | FHeaderEquals | FQuery | FIPIn | FIPNotIn

  /** The order in which the source counts and tests the fields. */
  const FIELDS: seq<Field> :=
    [FAll, FAny, FMethod, FPath, FPathPrefix, FHost, FHeaderContains, FHeaderEquals, FQuery, FIPIn, FIPNotIn]

  predicate Present(c: Cond, f: Field) {
    match f
    case FAll => |c.all| > 0
    case FAny => |c.any| > 0
    case FMethod => c.methodEquals != ""
    case FPath => c.pathEquals != ""
    case FPathPrefix => c.pathStartsWith != ""
    case FHost => c.hostEquals != ""
    case FHeaderContains => c.headerContains.Some?
    case FHeaderEquals => c.headerEquals.Some?
    case FQuery => c.queryParamContains.Some?
    case FIPIn => c.clientIPInIPSet != ""
    case FIPNotIn => c.clientIPNotInIPSet != ""
  }

  function Lookup<V>(m: map<string, seq<V>>, k: string): seq<V> {
    if k in m then m[k] else []
  }

  predicate SomeContains(values: seq<string>, sub: string) {
    exists i | 0 <= i < |values| :: Contains(values[i], sub)
  }

  /** The nine leaf operators. */
  datatype Test =
    | MethodIs(m: string)
    | PathIs(p: string)
    | PathUnder(p: string)
    | HostIs(h: string)
    | HeaderHas(name: string, value: string)
    | HeaderIs(name: string, value: string)
    | QueryHas(name: string, value: string)
    | IPIn(name: string)
    | IPNotIn(name: string)

  predicate TestHolds(t: Test, ctx: Request, sets: IPSets) {
    match t
    case MethodIs(m) => EqualFold(ctx.method_, m)
    case PathIs(p) => ctx.path == p
    case PathUnder(p) => p <= ctx.path
    case HostIs(h) => NormalizeHost(ctx.host) == NormalizeHost(h)
    case HeaderHas(n, v) => SomeContains(Lookup(ctx.headers, CanonicalHeaderName(n)), v)
    case HeaderIs(n, v) => v in Lookup(ctx.headers, CanonicalHeaderName(n))
    case QueryHas(n, v) => SomeContains(Lookup(ctx.query, n), v)
    case IPIn(s) => InSet(ctx.clientIP, Lookup(sets, s))
    case IPNotIn(s) => !InSet(ctx.clientIP, Lookup(sets, s))
  }

  /** policy/store.go:298-348: the composite operators first, then the leaf operators. */
  predicate Match(c: Cond, ctx: Request, sets: IPSets) {
    if |c.all| > 0 then forall i | 0 <= i < |c.all| :: Match(c.all[i], ctx, sets)
    else if |c.any| > 0 then exists i | 0 <= i < |c.any| :: Match(c.any[i], ctx, sets)
    else MatchLeaf(c, ctx, sets)
  }

  predicate MatchLeaf(c: Cond, ctx: Request, sets: IPSets) {
    var t := FirstLeaf(c);
    t.Some? && TestHolds(t.value, ctx, sets)
  }

  function FirstLeaf(c: Cond): Option<Test> {
    if c.methodEquals != "" then Some(MethodIs(c.methodEquals))
    else if c.pathEquals != "" then Some(PathIs(c.pathEquals))
    else if c.pathStartsWith != "" then Some(PathUnder(c.pathStartsWith))
    else if c.hostEquals != "" then Some(HostIs(c.hostEquals))
    else if c.headerContains.Some? then Some(HeaderHas(c.headerContains.value.name, c.headerContains.value.value))
    else if c.headerEquals.Some? then Some(HeaderIs(c.headerEquals.value.name, c.headerEquals.value.value))
    else if c.queryParamContains.Some? then
      Some(QueryHas(c.queryParamContains.value.name, c.queryParamContains.value.value))
    else if c.clientIPInIPSet != "" then Some(IPIn(c.clientIPInIPSet))
    else if c.clientIPNotInIPSet != "" then Some(IPNotIn(c.clientIPNotInIPSet))
    else None
  }

  // ----- gateway compiler -----

  datatype CondError = OperatorCount(got: nat) | MissingNameOrValue(field: Field) | UnknownIPSet(name: string)

  function Operators(c: Cond): nat {
    One(Present(c, FAll)) + One(Present(c, FAny)) + One(Present(c, FMethod)) + One(Present(c, FPath))
    + One(Present(c, FPathPrefix)) + One(Present(c, FHost)) + One(Present(c, FHeaderContains))
    + One(Present(c, FHeaderEquals)) + One(Present(c, FQuery)) + One(Present(c, FIPIn)) + One(Present(c, FIPNotIn))
  }

  predicate Incomplete(nv: Option<NameValue>) {
    nv.Some? && (nv.value.name == "" || nv.value.value == "")
  }

  /** policy/store.go:522-563; `known` are the keys of the IP set map. */
  function ValidateNode(c: Cond, known: set<string>): Option<CondError> {
    if Operators(c) != 1 then Some(OperatorCount(Operators(c)))
    else if Incomplete(c.headerContains) then Some(MissingNameOrValue(FHeaderContains))
    else if Incomplete(c.headerEquals) then Some(MissingNameOrValue(FHeaderEquals))
    else if Incomplete(c.queryParamContains) then Some(MissingNameOrValue(FQuery))
    else if c.clientIPInIPSet != "" && c.clientIPInIPSet !in known then Some(UnknownIPSet(c.clientIPInIPSet))
    else if c.clientIPNotInIPSet != "" && c.clientIPNotInIPSet !in known then Some(UnknownIPSet(c.clientIPNotInIPSet))
    else None
  }

  function CanonicalPair(nv: Option<NameValue>): Option<NameValue> {
    match nv
    case None => None
    case Some(v) => Some(NameValue(CanonicalHeaderName(v.name), v.value))
  }

  /** policy/store.go:484-520 */
  function Parse(c: Cond, known: set<string>): Result<Cond, CondError>
    decreases c, 1
  {
    match ValidateNode(c, known)
    case Some(e) => Err(e)
    case None =>
      match ParseChildren(c.all, known) {
        case Err(e) => Err(e)
        case Ok(all) =>
          match ParseChildren(c.any, known)
          case Err(e) => Err(e)
          case Ok(any) =>
            Ok(c.(all := all, any := any,
                  headerContains := CanonicalPair(c.headerContains),
                  headerEquals := CanonicalPair(c.headerEquals)))
      }
  }

  function ParseChildren(cs: seq<Cond>, known: set<string>): Result<seq<Cond>, CondError>
    decreases cs, 0
  {
    if cs == [] then Ok([])
    else
      match Parse(cs[0], known)
      case Err(e) => Err(e)
      case Ok(p) =>
        match ParseChildren(cs[1..], known)
        case Err(e) => Err(e)
        case Ok(ps) => Ok([p] + ps)
  }

  // ----- which records the compiler accepts -----

  predicate Complete(nv: NameValue) { nv.name != "" && nv.value != "" }

  /** One node uses exactly the operator `f`, and its operand is usable. */
  predicate UsesOnly(c: Cond, f: Field, known: set<string>) {
    (forall g: Field :: Present(c, g) <==> g == f)
    && (f == FHeaderContains ==> c.headerContains.Some? && Complete(c.headerContains.value))
    && (f == FHeaderEquals ==> c.headerEquals.Some? && Complete(c.headerEquals.value))
    && (f == FQuery ==> c.queryParamContains.Some? && Complete(c.queryParamContains.value))
    && (f == FIPIn ==> c.clientIPInIPSet in known)
    && (f == FIPNotIn ==> c.clientIPNotInIPSet in known)
  }

  predicate WellFormed(c: Cond, known: set<string>) {
    (exists f: Field :: UsesOnly(c, f, known))
    && (forall i | 0 <= i < |c.all| :: WellFormed(c.all[i], known))
    && (forall i | 0 <= i < |c.any| :: WellFormed(c.any[i], known))
  }

  function Operator(c: Cond): Field {
    if Present(c, FAll) then FAll else if Present(c, FAny) then FAny
    else if Present(c, FMethod) then FMethod else if Present(c, FPath) then FPath
    else if Present(c, FPathPrefix) then FPathPrefix else if Present(c, FHost) then FHost
    else if Present(c, FHeaderContains) then FHeaderContains else if Present(c, FHeaderEquals) then FHeaderEquals
    else if Present(c, FQuery) then FQuery else if Present(c, FIPIn) then FIPIn
    else FIPNotIn
  }

  lemma OperatorIsOnly(c: Cond, f: Field, known: set<string>)
    requires UsesOnly(c, f, known)
    ensures Operators(c) == 1 && Operator(c) == f
  {
    assert (Present(c, FAll) <==> f == FAll) && (Present(c, FAny) <==> f == FAny)
        && (Present(c, FMethod) <==> f == FMethod) && (Present(c, FPath) <==> f == FPath)
        && (Present(c, FPathPrefix) <==> f == FPathPrefix) && (Present(c, FHost) <==> f == FHost)
        && (Present(c, FHeaderContains) <==> f == FHeaderContains)
        && (Present(c, FHeaderEquals) <==> f == FHeaderEquals) && (Present(c, FQuery) <==> f == FQuery)
        && (Present(c, FIPIn) <==> f == FIPIn) && (Present(c, FIPNotIn) <==> f == FIPNotIn);
  }

  lemma NodeAccepted(c: Cond, known: set<string>)
    ensures ValidateNode(c, known) == None <==> UsesOnly(c, Operator(c), known)
    ensures ValidateNode(c, known) == None <==> exists f: Field :: UsesOnly(c, f, known)
  {
    if f: Field :| UsesOnly(c, f, known) {
      OperatorIsOnly(c, f, known);
    }
  }

  /** What the compiler accepts, both ways: one operator per node all the way
      down, with complete operands and existing IP sets. */
  lemma {:induction false} ParseAcceptsIff(c: Cond, known: set<string>)
    ensures Parse(c, known).Ok? <==> WellFormed(c, known)
    decreases c, 1
  {
    NodeAccepted(c, known);
    ParseChildrenAcceptsIff(c.all, known);
    ParseChildrenAcceptsIff(c.any, known);
  }

  lemma {:induction false} ParseChildrenAcceptsIff(cs: seq<Cond>, known: set<string>)
    ensures ParseChildren(cs, known).Ok? <==> forall i | 0 <= i < |cs| :: WellFormed(cs[i], known)
    ensures ParseChildren(cs, known).Ok? ==>
              var ps := ParseChildren(cs, known).value;
              |ps| == |cs| && forall i | 0 <= i < |cs| :: Parse(cs[i], known) == Ok(ps[i])
    decreases cs, 0
  {
    if cs != [] {
      ParseAcceptsIff(cs[0], known);
      ParseChildrenAcceptsIff(cs[1..], known);
      assert forall i | 0 < i < |cs| :: cs[i] == cs[1..][i - 1];
      assert forall i | 0 <= i < |cs| - 1 :: cs[1..][i] == cs[i + 1];
    }
  }

  // ----- the language the record encodes -----

  datatype Expr = AllOf(es: seq<Expr>) | AnyOf(es: seq<Expr>) | Leaf(test: Test)

  function LeafOf(c: Cond, f: Field): Test
    requires Present(c, f) && f != FAll && f != FAny
  {
    match f
    case FMethod => MethodIs(c.methodEquals)
    case FPath => PathIs(c.pathEquals)
    case FPathPrefix => PathUnder(c.pathStartsWith)
    case FHost => HostIs(c.hostEquals)
    case FHeaderContains => HeaderHas(c.headerContains.value.name, c.headerContains.value.value)
    case FHeaderEquals => HeaderIs(c.headerEquals.value.name, c.headerEquals.value.value)
    case FQuery => QueryHas(c.queryParamContains.value.name, c.queryParamContains.value.value)
    case FIPIn => IPIn(c.clientIPInIPSet)
    case FIPNotIn => IPNotIn(c.clientIPNotInIPSet)
  }

  /** The tree written down by an accepted configuration record. */
  ghost function Tree(c: Cond, known: set<string>): Expr
    requires WellFormed(c, known)
  {
    var f: Field :| UsesOnly(c, f, known);
    assert Present(c, f);
    if f == FAll then AllOf(seq(|c.all|, i requires 0 <= i < |c.all| => Tree(c.all[i], known)))
    else if f == FAny then AnyOf(seq(|c.any|, i requires 0 <= i < |c.any| => Tree(c.any[i], known)))
    else Leaf(LeafOf(c, f))
  }

  predicate Holds(e: Expr, ctx: Request, sets: IPSets) {
    match e
    case AllOf(es) => forall i | 0 <= i < |es| :: Holds(es[i], ctx, sets)
    case AnyOf(es) => exists i | 0 <= i < |es| :: Holds(es[i], ctx, sets)
    case Leaf(t) => TestHolds(t, ctx, sets)
  }

  function Pick(c: Cond, order: seq<Field>): Option<Field> {
    if order == [] then None else if Present(c, order[0]) then Some(order[0]) else Pick(c, order[1..])
  }

  /** A matcher that looks for the operator of every node in the given order. */
  predicate MatchInOrder(c: Cond, order: seq<Field>, ctx: Request, sets: IPSets) {
    var f := Pick(c, order);
    f.Some? && Present(c, f.value) &&
    if f.value == FAll then forall i | 0 <= i < |c.all| :: MatchInOrder(c.all[i], order, ctx, sets)
    else if f.value == FAny then exists i | 0 <= i < |c.any| :: MatchInOrder(c.any[i], order, ctx, sets)
    else TestHolds(LeafOf(c, f.value), ctx, sets)
  }

  lemma {:induction false} PickSpec(c: Cond, order: seq<Field>) returns (i: nat)
    ensures match Pick(c, order)
            case Some(f) => i < |order| && order[i] == f && Present(c, f) && forall j | 0 <= j < i :: !Present(c, order[j])
            case None => forall g | g in order :: !Present(c, g)
  {
    i := 0;
    if order != [] && !Present(c, order[0]) {
      var k := PickSpec(c, order[1..]);
      i := k + 1;
    }
  }

  lemma FieldOrder()
    ensures FIELDS[0] == FAll && FIELDS[1] == FAny && FIELDS[2] == FMethod && FIELDS[3] == FPath
         && FIELDS[4] == FPathPrefix && FIELDS[5] == FHost && FIELDS[6] == FHeaderContains
         && FIELDS[7] == FHeaderEquals && FIELDS[8] == FQuery && FIELDS[9] == FIPIn && FIELDS[10] == FIPNotIn
    ensures Covers(FIELDS)
  {
    forall f: Field ensures f in FIELDS {
      match f
      case FAll => assert FIELDS[0] == f;
      case FAny => assert FIELDS[1] == f;
      case FMethod => assert FIELDS[2] == f;
      case FPath => assert FIELDS[3] == f;
      case FPathPrefix => assert FIELDS[4] == f;
      case FHost => assert FIELDS[5] == f;
      case FHeaderContains => assert FIELDS[6] == f;
      case FHeaderEquals => assert FIELDS[7] == f;
      case FQuery => assert FIELDS[8] == f;
      case FIPIn => assert FIELDS[9] == f;
      case FIPNotIn => assert FIELDS[10] == f;
    }
  }

  lemma PickSourceOrder(c: Cond)
    ensures Pick(c, FIELDS) == if Present(c, Operator(c)) then Some(Operator(c)) else None
  {
    FieldOrder();
    var _ := PickSpec(c, FIELDS);
  }

  lemma LeafSourceOrder(c: Cond)
    requires |c.all| == 0 && |c.any| == 0
    ensures FirstLeaf(c) == if Present(c, Operator(c)) then Some(LeafOf(c, Operator(c))) else None
  {
  }

  /** `Match` is the source-order matcher, on every record, accepted or not. */
  lemma {:induction false} MatchIsSourceOrder(c: Cond, ctx: Request, sets: IPSets)
    ensures Match(c, ctx, sets) == MatchInOrder(c, FIELDS, ctx, sets)
  {
    PickSourceOrder(c);
    if |c.all| > 0 {
      forall i | 0 <= i < |c.all| ensures Match(c.all[i], ctx, sets) == MatchInOrder(c.all[i], FIELDS, ctx, sets) {
        MatchIsSourceOrder(c.all[i], ctx, sets);
      }
    } else if |c.any| > 0 {
      forall i | 0 <= i < |c.any| ensures Match(c.any[i], ctx, sets) == MatchInOrder(c.any[i], FIELDS, ctx, sets) {
        MatchIsSourceOrder(c.any[i], ctx, sets);
      }
    } else {
      LeafSourceOrder(c);
    }
  }

  ghost predicate Covers(order: seq<Field>) {
    forall f: Field :: f in order
  }

  lemma ParsedFields(c: Cond, known: set<string>)
    requires Parse(c, known).Ok?
    ensures var p := Parse(c, known).value;
            |p.all| == |c.all| && |p.any| == |c.any|
            && p == c.(all := p.all, any := p.any, headerContains := CanonicalPair(c.headerContains),
                       headerEquals := CanonicalPair(c.headerEquals))
  {
    ParseChildrenAcceptsIff(c.all, known);
    ParseChildrenAcceptsIff(c.any, known);
  }

  lemma ParseKeepsOperator(c: Cond, known: set<string>)
    requires Parse(c, known).Ok?
    ensures forall f: Field :: Present(Parse(c, known).value, f) == Present(c, f)
  {
    ParsedFields(c, known);
  }

  lemma HeaderNameCanonical(name: string, value: string, ctx: Request, sets: IPSets)
    ensures TestHolds(HeaderHas(CanonicalHeaderName(name), value), ctx, sets) == TestHolds(HeaderHas(name, value), ctx, sets)
    ensures TestHolds(HeaderIs(CanonicalHeaderName(name), value), ctx, sets) == TestHolds(HeaderIs(name, value), ctx, sets)
  {
    CanonicalHeaderNameIdempotent(name);
  }

  lemma LeafUnchanged(c: Cond, known: set<string>, f: Field, ctx: Request, sets: IPSets)
    requires Parse(c, known).Ok? && Present(c, f) && f != FAll && f != FAny
    ensures Present(Parse(c, known).value, f)
    ensures TestHolds(LeafOf(Parse(c, known).value, f), ctx, sets) == TestHolds(LeafOf(c, f), ctx, sets)
  {
    ParsedFields(c, known);
    if f == FHeaderContains {
      HeaderNameCanonical(c.headerContains.value.name, c.headerContains.value.value, ctx, sets);
    } else if f == FHeaderEquals {
      HeaderNameCanonical(c.headerEquals.value.name, c.headerEquals.value.value, ctx, sets);
    }
  }

  lemma TreeShape(c: Cond, known: set<string>)
    requires WellFormed(c, known)
    ensures var f := Operator(c);
            UsesOnly(c, f, known) && Present(c, f)
            && Tree(c, known) ==
               if f == FAll then AllOf(seq(|c.all|, i requires 0 <= i < |c.all| => Tree(c.all[i], known)))
               else if f == FAny then AnyOf(seq(|c.any|, i requires 0 <= i < |c.any| => Tree(c.any[i], known)))
               else Leaf(LeafOf(c, f))
  {
    forall f: Field | UsesOnly(c, f, known) ensures f == Operator(c) {
      OperatorIsOnly(c, f, known);
    }
  }

  lemma OnlyPick(c: Cond, known: set<string>, order: seq<Field>)
    requires WellFormed(c, known) && Covers(order) && Parse(c, known).Ok?
    ensures Pick(Parse(c, known).value, order) == Some(Operator(c))
  {
    TreeShape(c, known);
    ParseKeepsOperator(c, known);
    var _ := PickSpec(Parse(c, known).value, order);
    assert Operator(c) in order;
  }

  /** A node whose children agree pairwise agrees itself. */
  lemma CompositeAgrees(p: Cond, es: seq<Expr>, order: seq<Field>, ctx: Request, sets: IPSets)
    requires Pick(p, order) == Some(FAll) || Pick(p, order) == Some(FAny)
    requires Present(p, Pick(p, order).value)
    requires var ps := if Pick(p, order) == Some(FAll) then p.all else p.any;
             |es| == |ps| && forall i | 0 <= i < |ps| :: MatchInOrder(ps[i], order, ctx, sets) == Holds(es[i], ctx, sets)
    ensures MatchInOrder(p, order, ctx, sets) ==
            Holds(if Pick(p, order) == Some(FAll) then AllOf(es) else AnyOf(es), ctx, sets)
  {
    if Pick(p, order) == Some(FAll) {
      assert Holds(AllOf(es), ctx, sets) == forall i | 0 <= i < |es| :: Holds(es[i], ctx, sets);
      assert MatchInOrder(p, order, ctx, sets) == forall i | 0 <= i < |p.all| :: MatchInOrder(p.all[i], order, ctx, sets);
      if i :| 0 <= i < |es| && !Holds(es[i], ctx, sets) {
        assert !MatchInOrder(p.all[i], order, ctx, sets);
      }
      if i :| 0 <= i < |p.all| && !MatchInOrder(p.all[i], order, ctx, sets) {
        assert !Holds(es[i], ctx, sets);
      }
    } else {
      assert Holds(AnyOf(es), ctx, sets) == exists i | 0 <= i < |es| :: Holds(es[i], ctx, sets);
      assert MatchInOrder(p, order, ctx, sets) == exists i | 0 <= i < |p.any| :: MatchInOrder(p.any[i], order, ctx, sets);
      if i :| 0 <= i < |es| && Holds(es[i], ctx, sets) {
        assert MatchInOrder(p.any[i], order, ctx, sets);
      }
      if i :| 0 <= i < |p.any| && MatchInOrder(p.any[i], order, ctx, sets) {
        assert Holds(es[i], ctx, sets);
      }
    }
  }

  function Kids(c: Cond, f: Field): (r: seq<Cond>) {
    if f == FAll then c.all else c.any
  }

  /** Compilation preserves meaning, whatever order the fields are tested in. */
  lemma {:induction false} CompiledMeansTree(c: Cond, known: set<string>, order: seq<Field>, ctx: Request, sets: IPSets)
    requires WellFormed(c, known) && Covers(order)
    ensures Parse(c, known).Ok?
    ensures MatchInOrder(Parse(c, known).value, order, ctx, sets) == Holds(Tree(c, known), ctx, sets)
  {
    ParseAcceptsIff(c, known);
    var p, f := Parse(c, known).value, Operator(c);
    TreeShape(c, known);
    OnlyPick(c, known, order);
    ParseKeepsOperator(c, known);
    if f == FAll || f == FAny {
      var es := Tree(c, known).es;
      ParseChildrenAcceptsIff(Kids(c, f), known);
      forall i | 0 <= i < |Kids(p, f)| ensures MatchInOrder(Kids(p, f)[i], order, ctx, sets) == Holds(es[i], ctx, sets) {
        CompiledMeansTree(Kids(c, f)[i], known, order, ctx, sets);
      }
      CompositeAgrees(p, es, order, ctx, sets);
    } else {
      LeafUnchanged(c, known, f, ctx, sets);
    }
  }

  /** The IP sets a tree refers to. */
  function SetsNamed(e: Expr): set<string> {
    match e
    case AllOf(es) => set i, s | 0 <= i < |es| && s in SetsNamed(es[i]) :: s
    case AnyOf(es) => set i, s | 0 <= i < |es| && s in SetsNamed(es[i]) :: s
    case Leaf(IPIn(s)) => {s}
    case Leaf(IPNotIn(s)) => {s}
    case Leaf(_) => {}
  }

  lemma {:induction false} SetsExist(c: Cond, known: set<string>)
    requires WellFormed(c, known)
    ensures SetsNamed(Tree(c, known)) <= known
  {
    forall i | 0 <= i < |c.all| ensures SetsNamed(Tree(c.all[i], known)) <= known {
      SetsExist(c.all[i], known);
    }
    forall i | 0 <= i < |c.any| ensures SetsNamed(Tree(c.any[i], known)) <= known {
      SetsExist(c.any[i], known);
    }
  }

  /** The gateway's verdict on an accepted condition is the meaning of the tree
      that was configured, and every IP set it consults exists. */
  lemma MatchMeansTree(c: Cond, ctx: Request, sets: IPSets)
    requires Parse(c, sets.Keys).Ok?
    ensures WellFormed(c, sets.Keys)
    ensures Match(Parse(c, sets.Keys).value, ctx, sets) == Holds(Tree(c, sets.Keys), ctx, sets)
    ensures SetsNamed(Tree(c, sets.Keys)) <= sets.Keys
  {
    ParseAcceptsIff(c, sets.Keys);
    FieldOrder();
    MatchIsSourceOrder(Parse(c, sets.Keys).value, ctx, sets);
    CompiledMeansTree(c, sets.Keys, FIELDS, ctx, sets);
    SetsExist(c, sets.Keys);
  }
}
