/** Custom rules and rate-limit rules: parsing, ordering and evaluation
    (services/gateway/internal/policy/store.go). */
module Rules {
  import opened Text
  import opened Decision
  import opened Condition
  import opened StableSort

  datatype RuleConfig = RuleConfig(
    id: string, name: string, priority: int, enabled: bool, action: string,
    statusCode: int, terminalAllow: bool, when_: Cond)

  datatype Rule = Rule(
    id: string, name: string, priority: int, enabled: bool, action: Action,
    statusCode: int, terminalAllow: bool, when_: Cond)

  datatype LimitConfig = LimitConfig(
    id: string, name: string, enabled: bool, priority: int, match_: Cond, keyType: string,
    keyHeader: string, limit: int, windowSeconds: int, action: string, statusCode: int)

  datatype LimitRule = LimitRule(
    id: string, name: string, enabled: bool, priority: int, match_: Option<Cond>, keyType: string,
    keyHeader: string, limit: int, windowSeconds: int, action: Action, statusCode: int)

  datatype Fault =
    | IDRequired | DuplicateID | NameRequired | UnsupportedAction | InvalidStatus | BadCondition(e: CondError)
    | LimitNotPositive | WindowNotPositive | UnsupportedKeyType | KeyHeaderRequired

  datatype ParseError = ParseError(at: nat, fault: Fault)

  const KEY_TYPES: seq<string> := ["ip", "host", "path", "header", "api_key_placeholder"]

  function ActionOf(text: string): Action {
    if text == "allow" then Allow else if text == "count" then Count else if text == "block" then Block
    else if text == "challenge" then Challenge else if text == "rate_limit" then RateLimit else Unset
  }

  predicate RuleAction(text: string) { text == "allow" || text == "count" || text == "block" }

  predicate LimitAction(text: string) { text == "count" || text == "block" }

  function CondFault(c: Cond, known: set<string>): Option<Fault> {
    match Parse(c, known)
    case Ok(_) => None
    case Err(e) => Some(BadCondition(e))
  }

  function Compiled(c: Cond, known: set<string>): Cond {
    match Parse(c, known)
    case Ok(p) => p
    case Err(_) => c
  }

  // ----- custom rules -----

  function RuleFault(v: RuleConfig, seen: set<string>, known: set<string>): Option<Fault> {
    if Blank(v.id) then Some(IDRequired)
    else if v.id in seen then Some(DuplicateID)
    else if v.name == "" then Some(NameRequired)
    else if !RuleAction(v.action) then Some(UnsupportedAction)
    else if v.statusCode < 0 || v.statusCode > 999 then Some(InvalidStatus)
    else CondFault(v.when_, known)
  }

  function RuleIDs(values: seq<RuleConfig>): set<string> {
    set v | v in values :: v.id
  }

  predicate RulesAccepted(values: seq<RuleConfig>, known: set<string>) {
    values == [] ||
    (var n := |values| - 1;
     RulesAccepted(values[..n], known) && RuleFault(values[n], RuleIDs(values[..n]), known) == None)
  }

  function ToRule(v: RuleConfig, known: set<string>): Rule {
    Rule(v.id, v.name, v.priority, v.enabled, ActionOf(v.action), v.statusCode, v.terminalAllow, Compiled(v.when_, known))
  }

  function ToRules(values: seq<RuleConfig>, known: set<string>): (r: seq<Rule>)
    ensures |r| == |values|
    ensures forall i | 0 <= i < |values| :: r[i] == ToRule(values[i], known)
  {
    if values == [] then [] else [ToRule(values[0], known)] + ToRules(values[1..], known)
  }

  function RulePriority(): Rule -> int { (r: Rule) => r.priority }

  function CompileRules(values: seq<RuleConfig>, known: set<string>): seq<Rule> {
    Sort(ToRules(values, known), RulePriority())
  }

  lemma RuleIDsSnoc(values: seq<RuleConfig>, v: RuleConfig)
    ensures RuleIDs(values + [v]) == RuleIDs(values) + {v.id}
  {
  }

  lemma ToRulesSnoc(values: seq<RuleConfig>, v: RuleConfig, known: set<string>)
    ensures ToRules(values + [v], known) == ToRules(values, known) + [ToRule(v, known)]
  {
  }

  lemma AcceptedSnoc(values: seq<RuleConfig>, v: RuleConfig, known: set<string>)
    ensures RulesAccepted(values + [v], known) <==>
            RulesAccepted(values, known) && RuleFault(v, RuleIDs(values), known) == None
  {
    assert (values + [v])[..|values|] == values;
  }

  lemma RulesSnoc(values: seq<RuleConfig>, i: nat, known: set<string>)
    requires i < |values|
    ensures ToRules(values[..i + 1], known) == ToRules(values[..i], known) + [ToRule(values[i], known)]
    ensures RuleIDs(values[..i + 1]) == RuleIDs(values[..i]) + {values[i].id}
    ensures RulesAccepted(values[..i + 1], known) <==>
            RulesAccepted(values[..i], known) && RuleFault(values[i], RuleIDs(values[..i]), known) == None
  {
    assert values[..i + 1] == values[..i] + [values[i]];
    RuleIDsSnoc(values[..i], values[i]);
    ToRulesSnoc(values[..i], values[i], known);
    AcceptedSnoc(values[..i], values[i], known);
  }

  lemma {:induction false} RulesAcceptedPrefix(values: seq<RuleConfig>, k: nat, known: set<string>)
    requires RulesAccepted(values, known) && k <= |values|
    ensures RulesAccepted(values[..k], known)
  {
    if k < |values| {
      var front := values[..|values| - 1];
      RulesAcceptedPrefix(front, k, known);
      assert front[..k] == values[..k];
    } else {
      assert values[..k] == values;
    }
  }

  /** One round of the loop: the checks in their order, then the rule. */
  method ParseRule(v: RuleConfig, seen: set<string>, known: set<string>) returns (r: Result<Rule, Fault>)
    ensures r.Ok? <==> RuleFault(v, seen, known) == None
    ensures r.Ok? ==> r.value == ToRule(v, known)
    ensures r.Err? ==> RuleFault(v, seen, known) == Some(r.error)
  {
    if TrimSpace(v.id) == "" { return Err(IDRequired); }
    if v.id in seen { return Err(DuplicateID); }
    if v.name == "" { return Err(NameRequired); }
    var action := Unset;
    match v.action {
      case "allow" => action := Allow;
      case "count" => action := Count;
      case "block" => action := Block;
      case _ => return Err(UnsupportedAction);
    }
    if v.statusCode < 0 || v.statusCode > 999 { return Err(InvalidStatus); }
    var condition := Parse(v.when_, known);
    if condition.Err? { return Err(BadCondition(condition.error)); }
    r := Ok(Rule(v.id, v.name, v.priority, v.enabled, action, v.statusCode, v.terminalAllow, condition.value));
  }

  /** policy/store.go:377-419 */
  method ParseCustomRules(values: seq<RuleConfig>, known: set<string>) returns (r: Result<seq<Rule>, ParseError>)
    ensures r.Ok? <==> RulesAccepted(values, known)
    ensures r.Ok? ==> r.value == CompileRules(values, known)
    ensures r.Err? ==>
              r.error.at < |values| && RulesAccepted(values[..r.error.at], known)
              && RuleFault(values[r.error.at], RuleIDs(values[..r.error.at]), known) == Some(r.error.fault)
  {
    var rules: seq<Rule> := [];
    var seen: set<string> := {};
    for i := 0 to |values|
      invariant rules == ToRules(values[..i], known)
      invariant seen == RuleIDs(values[..i])
      invariant RulesAccepted(values[..i], known)
    {
      var v := values[i];
      RulesSnoc(values, i, known);
      var parsed := ParseRule(v, seen, known);
      if parsed.Err? {
        if RulesAccepted(values, known) {
          RulesAcceptedPrefix(values, i + 1, known);
        }
        return Err(ParseError(i, parsed.error));
      }
      seen := seen + {v.id};
      rules := rules + [parsed.value];
    }
    assert values[..|values|] == values;
    r := Ok(Sort(rules, RulePriority()));
  }

  lemma RuleFaultSeen(v: RuleConfig, seen: set<string>, known: set<string>)
    ensures RuleFault(v, seen, known) == None <==> RuleFault(v, {}, known) == None && v.id !in seen
  {
  }

  predicate AllFine(values: seq<RuleConfig>, known: set<string>) {
    forall i | 0 <= i < |values| :: RuleFault(values[i], {}, known) == None
  }

  predicate DistinctIDs(values: seq<RuleConfig>) {
    forall i, j | 0 <= i < j < |values| :: values[i].id != values[j].id
  }

  lemma DistinctSnoc(values: seq<RuleConfig>, v: RuleConfig)
    ensures DistinctIDs(values + [v]) <==> DistinctIDs(values) && v.id !in RuleIDs(values)
  {
    var all := values + [v];
    assert forall i | 0 <= i < |values| :: all[i] == values[i] && values[i] in values;
    if DistinctIDs(all) {
      assert forall i | 0 <= i < |values| :: all[i].id != all[|values|].id;
    }
  }

  lemma FineSnoc(values: seq<RuleConfig>, v: RuleConfig, known: set<string>)
    ensures AllFine(values + [v], known) <==> AllFine(values, known) && RuleFault(v, {}, known) == None
  {
    var all := values + [v];
    assert all[|values|] == v && forall i | 0 <= i < |values| :: all[i] == values[i];
  }

  /** Acceptance in one line: every rule is fine on its own and no id repeats. */
  lemma {:induction false} RulesAcceptedIff(values: seq<RuleConfig>, known: set<string>)
    ensures RulesAccepted(values, known) <==> AllFine(values, known) && DistinctIDs(values)
  {
    if values != [] {
      var n := |values| - 1;
      RulesAcceptedIff(values[..n], known);
      RulesIffSnoc(values[..n], values[n], known);
      assert values == values[..n] + [values[n]];
    }
  }

  lemma RulesIffSnoc(values: seq<RuleConfig>, v: RuleConfig, known: set<string>)
    requires RulesAccepted(values, known) <==> AllFine(values, known) && DistinctIDs(values)
    ensures RulesAccepted(values + [v], known) <==> AllFine(values + [v], known) && DistinctIDs(values + [v])
  {
    AcceptedSnoc(values, v, known);
    RuleFaultSeen(v, RuleIDs(values), known);
    FineSnoc(values, v, known);
    DistinctSnoc(values, v);
  }

  predicate Hits(r: Rule, ctx: Request, sets: IPSets) {
    r.enabled && Match(r.when_, ctx, sets)
  }

  /** Rules that end the evaluation: a block, or an allow marked terminal. */
  predicate Final(action: Action, terminalAllow: bool) {
    action == Block || (action == Allow && terminalAllow)
  }

  function Decides(ctx: Request, sets: IPSets): Rule -> bool {
    (r: Rule) => Hits(r, ctx, sets) && Final(r.action, r.terminalAllow)
  }

  function Counts(ctx: Request, sets: IPSets): Rule -> bool {
    (r: Rule) => Hits(r, ctx, sets) && r.action == Count
  }

  function VerdictOf(action: Action, id: string, name: string, statusCode: int): Verdict {
    (match action
     case Block => BlockVerdict("custom_rule", id).(statusCode := statusCode, tags := ["custom_rule"])
     case Count => CountVerdict("custom_rule", id).(tags := ["custom_rule"])
     case _ => AllowRuleVerdict("custom_rule_allow", id).(tags := ["custom_rule", "terminal_allow"]))
    .(matchedRuleName := name, ruleGroup := "custom")
  }

  function RuleVerdict(r: Rule): Verdict {
    VerdictOf(r.action, r.id, r.name, r.statusCode)
  }

  /** The first deciding rule, else the first counting rule, else a plain allow. */
  function CustomVerdict(rules: seq<Rule>, ctx: Request, sets: IPSets): Verdict {
    match First(rules, Decides(ctx, sets))
    case Some(r) => RuleVerdict(r)
    case None =>
      match First(rules, Counts(ctx, sets))
      case Some(r) => RuleVerdict(r)
      case None => ALLOW
  }

  /** policy/store.go:259-296 */
  method EvaluateCustomRules(rules: seq<Rule>, ctx: Request, sets: IPSets) returns (d: Verdict)
    ensures d == CustomVerdict(rules, ctx, sets)
  {
    var firstCount := ZERO;
    var i := 0;
    while i < |rules|
      invariant 0 <= i <= |rules|
      invariant First(rules, Decides(ctx, sets)) == First(rules[i..], Decides(ctx, sets))
      invariant firstCount.action == Unset ==> First(rules, Counts(ctx, sets)) == First(rules[i..], Counts(ctx, sets))
      invariant firstCount.action != Unset ==>
                  First(rules, Counts(ctx, sets)).Some? && firstCount == RuleVerdict(First(rules, Counts(ctx, sets)).value)
    {
      var rule := rules[i];
      assert rules[i..][0] == rule && rules[i..][1..] == rules[i + 1..];
      i := i + 1;
      if !rule.enabled { continue; }
      if !Match(rule.when_, ctx, sets) { continue; }
      match rule.action {
        case Block =>
          d := BlockVerdict("custom_rule", rule.id);
          d := d.(statusCode := rule.statusCode);
          d := d.(matchedRuleName := rule.name, ruleGroup := "custom", tags := ["custom_rule"]);
          return;
        case Count =>
          if firstCount.action == Unset {
            firstCount := CountVerdict("custom_rule", rule.id);
            firstCount := firstCount.(matchedRuleName := rule.name, ruleGroup := "custom", tags := ["custom_rule"]);
          }
        case Allow =>
          if rule.terminalAllow {
            d := AllowRuleVerdict("custom_rule_allow", rule.id);
            d := d.(matchedRuleName := rule.name, ruleGroup := "custom", tags := ["custom_rule", "terminal_allow"]);
            return;
          }
        case _ =>
      }
    }
    if firstCount.action != Unset { return firstCount; }
    return ALLOW;
  }

  // ----- from raw configuration to verdict -----

  /** The configured condition tree holds and the rule is switched on. */
  ghost predicate Applies(v: RuleConfig, ctx: Request, sets: IPSets) {
    v.enabled && WellFormed(v.when_, sets.Keys) && Holds(Tree(v.when_, sets.Keys), ctx, sets)
  }

  ghost predicate Deciding(v: RuleConfig, ctx: Request, sets: IPSets) {
    Applies(v, ctx, sets) && (v.action == "block" || (v.action == "allow" && v.terminalAllow))
  }

  ghost predicate Counting(v: RuleConfig, ctx: Request, sets: IPSets) {
    Applies(v, ctx, sets) && v.action == "count"
  }

  /** `i` comes before `j` by priority, then by position in the configuration. */
  predicate Before(values: seq<RuleConfig>, i: nat, j: nat)
    requires i < |values| && j < |values|
  {
    values[i].priority < values[j].priority || (values[i].priority == values[j].priority && i <= j)
  }

  /** The member of `candidates` that comes first. */
  ghost predicate Least(values: seq<RuleConfig>, candidates: set<nat>, i: nat) {
    i in candidates && i < |values| && forall j | j in candidates && j < |values| :: Before(values, i, j)
  }

  ghost function DecidingAt(values: seq<RuleConfig>, ctx: Request, sets: IPSets): set<nat> {
    set i: nat | i < |values| && Deciding(values[i], ctx, sets)
  }

  ghost function CountingAt(values: seq<RuleConfig>, ctx: Request, sets: IPSets): set<nat> {
    set i: nat | i < |values| && Counting(values[i], ctx, sets)
  }

  function ConfigVerdict(v: RuleConfig): Verdict {
    VerdictOf(ActionOf(v.action), v.id, v.name, v.statusCode)
  }

  lemma CompiledApplies(v: RuleConfig, ctx: Request, sets: IPSets)
    requires RuleFault(v, {}, sets.Keys) == None
    ensures Hits(ToRule(v, sets.Keys), ctx, sets) <==> Applies(v, ctx, sets)
  {
    MatchMeansTree(v.when_, ctx, sets);
  }

  lemma CompiledRuleAgrees(v: RuleConfig, ctx: Request, sets: IPSets)
    requires RuleFault(v, {}, sets.Keys) == None
    ensures Decides(ctx, sets)(ToRule(v, sets.Keys)) <==> Deciding(v, ctx, sets)
    ensures Counts(ctx, sets)(ToRule(v, sets.Keys)) <==> Counting(v, ctx, sets)
  {
    CompiledApplies(v, ctx, sets);
    assert RuleAction(v.action);
  }

  /** `p` picks out the compiled forms of exactly the rules at `candidates`. */
  ghost predicate Picks(rs: seq<Rule>, p: Rule -> bool, candidates: set<nat>) {
    (forall i: nat | i < |rs| :: p(rs[i]) <==> i in candidates) && (forall i: nat | i in candidates :: i < |rs|)
  }

  lemma {:induction false} RuleAgrees(values: seq<RuleConfig>, ctx: Request, sets: IPSets, i: nat)
    requires i < |values| && RuleFault(values[i], {}, sets.Keys) == None
    ensures Decides(ctx, sets)(ToRules(values, sets.Keys)[i]) == (i in DecidingAt(values, ctx, sets))
    ensures Counts(ctx, sets)(ToRules(values, sets.Keys)[i]) == (i in CountingAt(values, ctx, sets))
  {
    CompiledRuleAgrees(values[i], ctx, sets);
  }

  lemma DecidingAgrees(values: seq<RuleConfig>, ctx: Request, sets: IPSets)
    requires RulesAccepted(values, sets.Keys)
    ensures Picks(ToRules(values, sets.Keys), Decides(ctx, sets), DecidingAt(values, ctx, sets))
  {
    RulesAcceptedIff(values, sets.Keys);
    forall i: nat | i < |values|
      ensures Decides(ctx, sets)(ToRules(values, sets.Keys)[i]) == (i in DecidingAt(values, ctx, sets))
    {
      RuleAgrees(values, ctx, sets, i);
    }
  }

  lemma CountingAgrees(values: seq<RuleConfig>, ctx: Request, sets: IPSets)
    requires RulesAccepted(values, sets.Keys)
    ensures Picks(ToRules(values, sets.Keys), Counts(ctx, sets), CountingAt(values, ctx, sets))
  {
    RulesAcceptedIff(values, sets.Keys);
    forall i: nat | i < |values|
      ensures Counts(ctx, sets)(ToRules(values, sets.Keys)[i]) == (i in CountingAt(values, ctx, sets))
    {
      RuleAgrees(values, ctx, sets, i);
    }
  }

  lemma FirstIsLeast(values: seq<RuleConfig>, known: set<string>, p: Rule -> bool, candidates: set<nat>, i: nat)
    requires Picks(ToRules(values, known), p, candidates) && Least(values, candidates, i)
    ensures First(CompileRules(values, known), p) == Some(ToRule(values[i], known))
  {
    FirstOfSorted(ToRules(values, known), RulePriority(), p, i);
  }

  lemma FirstIsNone(values: seq<RuleConfig>, known: set<string>, p: Rule -> bool)
    requires Picks(ToRules(values, known), p, {})
    ensures First(CompileRules(values, known), p) == None
  {
    var rs, sorted := ToRules(values, known), CompileRules(values, known);
    SortSorted(rs, RulePriority());
    FirstSpec(sorted, p);
    forall r | r in sorted ensures !p(r) {
      assert r in multiset(rs);
    }
  }

  lemma {:induction false} LeastOf(values: seq<RuleConfig>, candidates: set<nat>) returns (i: nat)
    requires candidates != {} && forall j | j in candidates :: j < |values|
    ensures Least(values, candidates, i)
  {
    i :| i in candidates;
    var rest := candidates - {i};
    assert candidates == rest + {i};
    if rest != {} {
      var k := LeastOf(values, rest);
      if Before(values, k, i) {
        i := k;
      }
    }
  }

  ghost predicate GivenByLeast(values: seq<RuleConfig>, candidates: set<nat>, d: Verdict) {
    exists i: nat :: Least(values, candidates, i) && d == ConfigVerdict(values[i])
  }

  /** From raw configuration to verdict. If any rule decides, the deciding rule least by
      (priority, position) gives the verdict; otherwise the least counting rule does;
      otherwise the request is plainly allowed. */
  lemma {:induction false} RawConfigVerdict(values: seq<RuleConfig>, ctx: Request, sets: IPSets)
    requires RulesAccepted(values, sets.Keys)
    ensures var d := CustomVerdict(CompileRules(values, sets.Keys), ctx, sets);
            var deciding, counting := DecidingAt(values, ctx, sets), CountingAt(values, ctx, sets);
            if deciding != {} then GivenByLeast(values, deciding, d)
            else if counting != {} then GivenByLeast(values, counting, d)
            else d == ALLOW
  {
    DecidingAgrees(values, ctx, sets);
    CountingAgrees(values, ctx, sets);
    var known, deciding, counting := sets.Keys, DecidingAt(values, ctx, sets), CountingAt(values, ctx, sets);
    if deciding != {} {
      var i := LeastOf(values, deciding);
      FirstIsLeast(values, known, Decides(ctx, sets), deciding, i);
    } else {
      FirstIsNone(values, known, Decides(ctx, sets));
      if counting != {} {
        var i := LeastOf(values, counting);
        FirstIsLeast(values, known, Counts(ctx, sets), counting, i);
      } else {
        FirstIsNone(values, known, Counts(ctx, sets));
      }
    }
  }

  /** There is at most one least rule, so the verdict above is determined. */
  lemma LeastUnique(values: seq<RuleConfig>, candidates: set<nat>, i: nat, j: nat)
    requires Least(values, candidates, i) && Least(values, candidates, j)
    ensures i == j
  {
  }

  // ----- deleting passive rules -----

  /** Count rules and allow rules that are not terminal. */
  predicate Passive(v: RuleConfig) {
    v.action == "count" || (v.action == "allow" && !v.terminalAllow)
  }

  function Kept(drop: set<string>): RuleConfig -> bool { (v: RuleConfig) => v.id !in drop }

  function KeptRule(drop: set<string>): Rule -> bool { (r: Rule) => r.id !in drop }

  /** What a verdict does to the request: blocks it or terminally allows it, and by which rule. */
  function Disposition(d: Verdict): Option<Verdict> {
    if d.action == Block || d.reason == "custom_rule_allow" then Some(d) else None
  }

  lemma {:induction false} ToRulesFilter(values: seq<RuleConfig>, known: set<string>, drop: set<string>)
    ensures ToRules(Filter(values, Kept(drop)), known) == Filter(ToRules(values, known), KeptRule(drop))
  {
    if values != [] {
      ToRulesFilter(values[1..], known, drop);
      var f, rs := Filter(values, Kept(drop)), ToRules(values, known);
      assert rs[1..] == ToRules(values[1..], known);
      if values[0].id !in drop {
        assert f[1..] == Filter(values[1..], Kept(drop));
      }
    }
  }

  lemma {:induction false} FirstFilter<T>(xs: seq<T>, p: T -> bool, keep: T -> bool)
    requires forall x | x in xs && p(x) :: keep(x)
    ensures First(Filter(xs, keep), p) == First(xs, p)
  {
    if xs != [] {
      FirstFilter(xs[1..], p, keep);
      FilterCons(xs[0], xs[1..], keep);
      assert xs == [xs[0]] + xs[1..];
      if keep(xs[0]) {
        assert ([xs[0]] + Filter(xs[1..], keep))[1..] == Filter(xs[1..], keep);
      }
    }
  }

  lemma {:induction false} FilterDistinct(values: seq<RuleConfig>, drop: set<string>)
    requires DistinctIDs(values)
    ensures DistinctIDs(Filter(values, Kept(drop)))
  {
    if values != [] {
      FilterDistinct(values[1..], drop);
      FilterSubset(values[1..], Kept(drop));
      FilterCons(values[0], values[1..], Kept(drop));
      assert values == [values[0]] + values[1..];
      var g := Filter(values[1..], Kept(drop));
      forall j | 0 <= j < |g| ensures g[j].id != values[0].id {
        assert g[j] in values[1..];
      }
    }
  }

  lemma DispositionIsFirst(rules: seq<Rule>, ctx: Request, sets: IPSets)
    ensures Disposition(CustomVerdict(rules, ctx, sets)) ==
            match First(rules, Decides(ctx, sets))
            case Some(r) => Some(RuleVerdict(r))
            case None => None
  {
    FirstSpec(rules, Decides(ctx, sets));
    FirstSpec(rules, Counts(ctx, sets));
  }

  lemma KeptAccepted(values: seq<RuleConfig>, drop: set<string>, known: set<string>)
    requires RulesAccepted(values, known)
    ensures RulesAccepted(Filter(values, Kept(drop)), known)
  {
    var kept := Filter(values, Kept(drop));
    RulesAcceptedIff(values, known);
    RulesAcceptedIff(kept, known);
    FilterDistinct(values, drop);
    FilterSubset(values, Kept(drop));
    forall i | 0 <= i < |kept| ensures RuleFault(kept[i], {}, known) == None {
      assert kept[i] in values;
    }
  }

  lemma DecidersKept(values: seq<RuleConfig>, drop: set<string>, known: set<string>, r: Rule)
    requires forall v | v in values && v.id in drop :: Passive(v)
    requires r in CompileRules(values, known) && Final(r.action, r.terminalAllow)
    ensures KeptRule(drop)(r)
  {
    var rs := ToRules(values, known);
    SortSorted(rs, RulePriority());
    var i := IndexIn(CompileRules(values, known), rs, r);
    assert values[i] in values && r == ToRule(values[i], known);
    assert !Passive(values[i]);
  }

  /** Deleting any set of passive rules keeps the configuration acceptable and never
      changes whether a request is blocked or terminally allowed, nor by which rule. */
  lemma DeletingPassiveRules(values: seq<RuleConfig>, drop: set<string>, ctx: Request, sets: IPSets)
    requires RulesAccepted(values, sets.Keys)
    requires forall v | v in values && v.id in drop :: Passive(v)
    ensures RulesAccepted(Filter(values, Kept(drop)), sets.Keys)
    ensures Disposition(CustomVerdict(CompileRules(Filter(values, Kept(drop)), sets.Keys), ctx, sets))
         == Disposition(CustomVerdict(CompileRules(values, sets.Keys), ctx, sets))
  {
    KeptAccepted(values, drop, sets.Keys);
    ToRulesFilter(values, sets.Keys, drop);
    FilterSort(ToRules(values, sets.Keys), RulePriority(), KeptRule(drop));
    var sorted := CompileRules(values, sets.Keys);
    forall r | r in sorted && Decides(ctx, sets)(r) ensures KeptRule(drop)(r) {
      DecidersKept(values, drop, sets.Keys, r);
    }
    FirstFilter(sorted, Decides(ctx, sets), KeptRule(drop));
    DispositionIsFirst(sorted, ctx, sets);
    DispositionIsFirst(Filter(sorted, KeptRule(drop)), ctx, sets);
  }

  // ----- rate-limit rules -----

  /** policy/store.go:565-577 */
  predicate HasCondition(c: Cond) {
    |c.all| > 0 || |c.any| > 0 || c.methodEquals != "" || c.pathEquals != "" || c.pathStartsWith != ""
    || c.hostEquals != "" || c.headerContains.Some? || c.headerEquals.Some? || c.queryParamContains.Some?
    || c.clientIPInIPSet != "" || c.clientIPNotInIPSet != ""
  }

  function LimitFault(v: LimitConfig, seen: set<string>, known: set<string>): Option<Fault> {
    if Blank(v.id) then Some(IDRequired)
    else if v.id in seen then Some(DuplicateID)
    else if v.name == "" then Some(NameRequired)
    else if v.limit <= 0 then Some(LimitNotPositive)
    else if v.windowSeconds <= 0 then Some(WindowNotPositive)
    else if !LimitAction(v.action) then Some(UnsupportedAction)
    else if v.keyType !in KEY_TYPES then Some(UnsupportedKeyType)
    else if v.keyType == "header" && v.keyHeader == "" then Some(KeyHeaderRequired)
    else if v.statusCode < 0 || v.statusCode > 999 then Some(InvalidStatus)
    else if HasCondition(v.match_) then CondFault(v.match_, known)
    else None
  }

  function LimitIDs(values: seq<LimitConfig>): set<string> {
    set v | v in values :: v.id
  }

  predicate LimitsAccepted(values: seq<LimitConfig>, known: set<string>) {
    values == [] ||
    (var n := |values| - 1;
     LimitsAccepted(values[..n], known) && LimitFault(values[n], LimitIDs(values[..n]), known) == None)
  }

  function ToLimit(v: LimitConfig, known: set<string>): LimitRule {
    LimitRule(v.id, v.name, v.enabled, v.priority,
              if HasCondition(v.match_) then Some(Compiled(v.match_, known)) else None,
              v.keyType, CanonicalHeaderName(v.keyHeader), v.limit, v.windowSeconds, ActionOf(v.action), v.statusCode)
  }

  function LimitPriority(): LimitRule -> int { (r: LimitRule) => r.priority }

  function ToLimits(values: seq<LimitConfig>, known: set<string>): (r: seq<LimitRule>)
    ensures |r| == |values|
    ensures forall i | 0 <= i < |values| :: r[i] == ToLimit(values[i], known)
  {
    if values == [] then [] else [ToLimit(values[0], known)] + ToLimits(values[1..], known)
  }

  lemma LimitIDsSnoc(values: seq<LimitConfig>, v: LimitConfig)
    ensures LimitIDs(values + [v]) == LimitIDs(values) + {v.id}
  {
  }

  lemma ToLimitsSnoc(values: seq<LimitConfig>, v: LimitConfig, known: set<string>)
    ensures ToLimits(values + [v], known) == ToLimits(values, known) + [ToLimit(v, known)]
  {
  }

  lemma LimitAcceptedSnoc(values: seq<LimitConfig>, v: LimitConfig, known: set<string>)
    ensures LimitsAccepted(values + [v], known) <==>
            LimitsAccepted(values, known) && LimitFault(v, LimitIDs(values), known) == None
  {
    assert (values + [v])[..|values|] == values;
  }

  lemma LimitsSnoc(values: seq<LimitConfig>, i: nat, known: set<string>)
    requires i < |values|
    ensures ToLimits(values[..i + 1], known) == ToLimits(values[..i], known) + [ToLimit(values[i], known)]
    ensures LimitIDs(values[..i + 1]) == LimitIDs(values[..i]) + {values[i].id}
    ensures LimitsAccepted(values[..i + 1], known) <==>
            LimitsAccepted(values[..i], known) && LimitFault(values[i], LimitIDs(values[..i]), known) == None
  {
    assert values[..i + 1] == values[..i] + [values[i]];
    LimitIDsSnoc(values[..i], values[i]);
    ToLimitsSnoc(values[..i], values[i], known);
    LimitAcceptedSnoc(values[..i], values[i], known);
  }

  lemma {:induction false} LimitsAcceptedPrefix(values: seq<LimitConfig>, k: nat, known: set<string>)
    requires LimitsAccepted(values, known) && k <= |values|
    ensures LimitsAccepted(values[..k], known)
  {
    if k < |values| {
      var front := values[..|values| - 1];
      LimitsAcceptedPrefix(front, k, known);
      assert front[..k] == values[..k];
    } else {
      assert values[..k] == values;
    }
  }

  method ParseLimit(v: LimitConfig, seen: set<string>, known: set<string>) returns (r: Result<LimitRule, Fault>)
    ensures r.Ok? <==> LimitFault(v, seen, known) == None
    ensures r.Ok? ==> r.value == ToLimit(v, known)
    ensures r.Err? ==> LimitFault(v, seen, known) == Some(r.error)
  {
    if TrimSpace(v.id) == "" { return Err(IDRequired); }
    if v.id in seen { return Err(DuplicateID); }
    if v.name == "" { return Err(NameRequired); }
    if v.limit <= 0 { return Err(LimitNotPositive); }
    if v.windowSeconds <= 0 { return Err(WindowNotPositive); }
    var action := Unset;
    match v.action {
      case "count" => action := Count;
      case "block" => action := Block;
      case _ => return Err(UnsupportedAction);
    }
    match v.keyType {
      case "ip" =>
      case "host" =>
      case "path" =>
      case "header" =>
        if v.keyHeader == "" { return Err(KeyHeaderRequired); }
      case "api_key_placeholder" =>
      case _ => return Err(UnsupportedKeyType);
    }
    if v.statusCode < 0 || v.statusCode > 999 { return Err(InvalidStatus); }
    var match_: Option<Cond> := None;
    if HasCondition(v.match_) {
      var condition := Parse(v.match_, known);
      if condition.Err? { return Err(BadCondition(condition.error)); }
      match_ := Some(condition.value);
    }
    r := Ok(LimitRule(v.id, v.name, v.enabled, v.priority, match_, v.keyType, CanonicalHeaderName(v.keyHeader), v.limit,
                      v.windowSeconds, action, v.statusCode));
  }

  /** policy/store.go:421-482 */
  method ParseRateLimitRules(values: seq<LimitConfig>, known: set<string>) returns (r: Result<seq<LimitRule>, ParseError>)
    ensures r.Ok? <==> LimitsAccepted(values, known)
    ensures r.Ok? ==> r.value == Sort(ToLimits(values, known), LimitPriority())
    ensures r.Err? ==>
              r.error.at < |values| && LimitsAccepted(values[..r.error.at], known)
              && LimitFault(values[r.error.at], LimitIDs(values[..r.error.at]), known) == Some(r.error.fault)
  {
    var rules: seq<LimitRule> := [];
    var seen: set<string> := {};
    for i := 0 to |values|
      invariant rules == ToLimits(values[..i], known)
      invariant seen == LimitIDs(values[..i])
      invariant LimitsAccepted(values[..i], known)
    {
      var v := values[i];
      LimitsSnoc(values, i, known);
      var parsed := ParseLimit(v, seen, known);
      if parsed.Err? {
        if LimitsAccepted(values, known) {
          LimitsAcceptedPrefix(values, i + 1, known);
        }
        return Err(ParseError(i, parsed.error));
      }
      seen := seen + {v.id};
      rules := rules + [parsed.value];
    }
    assert values[..|values|] == values;
    r := Ok(Sort(rules, LimitPriority()));
  }

  lemma LimitFaultSeen(v: LimitConfig, seen: set<string>, known: set<string>)
    ensures LimitFault(v, seen, known) == None <==> LimitFault(v, {}, known) == None && v.id !in seen
  {
  }

  predicate AllLimitsFine(values: seq<LimitConfig>, known: set<string>) {
    forall i | 0 <= i < |values| :: LimitFault(values[i], {}, known) == None
  }

  predicate DistinctLimitIDs(values: seq<LimitConfig>) {
    forall i, j | 0 <= i < j < |values| :: values[i].id != values[j].id
  }

  lemma DistinctLimitsSnoc(values: seq<LimitConfig>, v: LimitConfig)
    ensures DistinctLimitIDs(values + [v]) <==> DistinctLimitIDs(values) && v.id !in LimitIDs(values)
  {
    var all := values + [v];
    assert forall i | 0 <= i < |values| :: all[i] == values[i] && values[i] in values;
    if DistinctLimitIDs(all) {
      assert forall i | 0 <= i < |values| :: all[i].id != all[|values|].id;
    }
  }

  lemma FineLimitsSnoc(values: seq<LimitConfig>, v: LimitConfig, known: set<string>)
    ensures AllLimitsFine(values + [v], known) <==> AllLimitsFine(values, known) && LimitFault(v, {}, known) == None
  {
    var all := values + [v];
    assert all[|values|] == v && forall i | 0 <= i < |values| :: all[i] == values[i];
  }

  lemma {:induction false} LimitsAcceptedIff(values: seq<LimitConfig>, known: set<string>)
    ensures LimitsAccepted(values, known) <==> AllLimitsFine(values, known) && DistinctLimitIDs(values)
  {
    if values != [] {
      var n := |values| - 1;
      LimitsAcceptedIff(values[..n], known);
      LimitsIffSnoc(values[..n], values[n], known);
      assert values == values[..n] + [values[n]];
    }
  }

  lemma LimitsIffSnoc(values: seq<LimitConfig>, v: LimitConfig, known: set<string>)
    requires LimitsAccepted(values, known) <==> AllLimitsFine(values, known) && DistinctLimitIDs(values)
    ensures LimitsAccepted(values + [v], known) <==> AllLimitsFine(values + [v], known) && DistinctLimitIDs(values + [v])
  {
    LimitAcceptedSnoc(values, v, known);
    LimitFaultSeen(v, LimitIDs(values), known);
    FineLimitsSnoc(values, v, known);
    DistinctLimitsSnoc(values, v);
  }

  // ----- what comes out, field by field -----

  lemma HasConditionIff(c: Cond)
    ensures HasCondition(c) <==> c != Cond([], [], "", "", "", "", None, None, None, "", "")
  {
  }

  /** A parsed custom rule is its configuration, with the condition that means the configured tree. */
  lemma ParsedRuleIs(v: RuleConfig, ctx: Request, sets: IPSets)
    requires RuleFault(v, {}, sets.Keys) == None
    ensures var r := ToRule(v, sets.Keys);
            r.id == v.id && r.name == v.name && r.priority == v.priority && r.enabled == v.enabled
            && r.statusCode == v.statusCode && r.terminalAllow == v.terminalAllow
            && (r.action == Allow <==> v.action == "allow") && (r.action == Count <==> v.action == "count")
            && (r.action == Block <==> v.action == "block")
            && WellFormed(v.when_, sets.Keys) && (Match(r.when_, ctx, sets) <==> Holds(Tree(v.when_, sets.Keys), ctx, sets))
  {
    MatchMeansTree(v.when_, ctx, sets);
  }

  /** A parsed rate limit is its configuration; without a condition it applies to every request. */
  lemma ParsedLimitIs(v: LimitConfig, ctx: Request, sets: IPSets)
    requires LimitFault(v, {}, sets.Keys) == None
    ensures var r := ToLimit(v, sets.Keys);
            r.id == v.id && r.name == v.name && r.enabled == v.enabled && r.priority == v.priority && r.keyType == v.keyType
            && r.keyHeader == CanonicalHeaderName(v.keyHeader) && r.limit == v.limit && r.windowSeconds == v.windowSeconds
            && r.statusCode == v.statusCode
            && (r.action == Count <==> v.action == "count") && (r.action == Block <==> v.action == "block")
            && (r.match_.None? <==> v.match_ == Cond([], [], "", "", "", "", None, None, None, "", ""))
            && (r.match_.Some? ==> WellFormed(v.match_, sets.Keys)
                                   && (Match(r.match_.value, ctx, sets) <==> Holds(Tree(v.match_, sets.Keys), ctx, sets)))
  {
    HasConditionIff(v.match_);
    if HasCondition(v.match_) {
      MatchMeansTree(v.match_, ctx, sets);
    }
  }

  /** Parsed rules and limits come by rising priority, and none is added or lost. */
  lemma ParsedInOrder(rules: seq<RuleConfig>, limits: seq<LimitConfig>, known: set<string>)
    ensures var rs := CompileRules(rules, known);
            multiset(rs) == multiset(ToRules(rules, known)) && forall i, j | 0 <= i < j < |rs| :: rs[i].priority <= rs[j].priority
    ensures var ls := Sort(ToLimits(limits, known), LimitPriority());
            multiset(ls) == multiset(ToLimits(limits, known)) && forall i, j | 0 <= i < j < |ls| :: ls[i].priority <= ls[j].priority
  {
    SortSorted(ToRules(rules, known), RulePriority());
    SortSorted(ToLimits(limits, known), LimitPriority());
    var rs, ls := CompileRules(rules, known), Sort(ToLimits(limits, known), LimitPriority());
    assert forall i, j | 0 <= i < j < |rs| :: RulePriority()(rs[i]) <= RulePriority()(rs[j]);
    assert forall i, j | 0 <= i < j < |ls| :: LimitPriority()(ls[i]) <= LimitPriority()(ls[j]);
  }

  /** The verdict a deciding or counting rule gives. */
  lemma ConfigVerdictIs(v: RuleConfig)
    ensures v.action == "block" ==>
              ConfigVerdict(v) == Verdict(Block, "custom_rule", v.id, v.name, "custom", ["custom_rule"], 0, v.statusCode, None)
    ensures v.action == "count" ==>
              ConfigVerdict(v) == Verdict(Count, "custom_rule", v.id, v.name, "custom", ["custom_rule"], 0, 0, None)
    ensures v.action == "allow" ==>
              ConfigVerdict(v) == Verdict(Allow, "custom_rule_allow", v.id, v.name, "custom", ["custom_rule", "terminal_allow"], 0, 0, None)
  {
  }
}
