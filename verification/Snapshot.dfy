/** The control plane's own validator for policy drafts
    (services/control-api/internal/httpapi/server.go) against the gateway's parsers. */
module Snapshot {
  import opened Text
  import opened Netip
  import opened Condition
  import opened Rules

  /** A CIDR string after decoding. `padded` marks surrounding white space, which
      `netip.ParsePrefix` rejects and the gateway strips first. */
  datatype CidrText = Cidr(prefix: Prefix, padded: bool) | Malformed

  datatype Draft = Draft(
    mode: string,
    ruleActions: seq<string>,
    ipBlocklist: seq<CidrText>,
    ipSets: map<string, seq<CidrText>>,
    customRules: seq<RuleConfig>,
    rateLimits: seq<LimitConfig>)

  const EMPTY: Draft := Draft("", [], [], map[], [], [])

  predicate ValidMode(mode: string) { mode == "count" || mode == "block" }

  predicate StrictCidr(c: CidrText) { c.Cidr? && !c.padded }

  predicate BlankPair(nv: Option<NameValue>) {
    nv.Some? && (Blank(nv.value.name) || nv.value.value == "")
  }

  /** server.go:660-711; children are visited before the node's own operands. */
  function ValidateCondition(c: Cond, known: set<string>): Option<CondError>
    decreases c, 1
  {
    if Operators(c) != 1 then Some(OperatorCount(Operators(c)))
    else
      var all := ValidateChildren(c.all, known);
      if all.Some? then all
      else
        var any := ValidateChildren(c.any, known);
        if any.Some? then any
        else if BlankPair(c.headerContains) then Some(MissingNameOrValue(FHeaderContains))
        else if BlankPair(c.headerEquals) then Some(MissingNameOrValue(FHeaderEquals))
        else if BlankPair(c.queryParamContains) then Some(MissingNameOrValue(FQuery))
        else if c.clientIPInIPSet != "" && c.clientIPInIPSet !in known then Some(UnknownIPSet(c.clientIPInIPSet))
        else if c.clientIPNotInIPSet != "" && c.clientIPNotInIPSet !in known then Some(UnknownIPSet(c.clientIPNotInIPSet))
        else None
  }

  function ValidateChildren(cs: seq<Cond>, known: set<string>): Option<CondError>
    decreases cs, 0
  {
    if cs == [] then None
    else
      var head := ValidateCondition(cs[0], known);
      if head.Some? then head else ValidateChildren(cs[1..], known)
  }

  predicate NamedPair(nv: Option<NameValue>) { nv.Some? ==> !Blank(nv.value.name) }

  /** No header or query name in the tree consists of white space only. */
  predicate NoBlankNames(c: Cond) {
    NamedPair(c.headerContains) && NamedPair(c.headerEquals) && NamedPair(c.queryParamContains)
    && (forall i | 0 <= i < |c.all| :: NoBlankNames(c.all[i]))
    && (forall i | 0 <= i < |c.any| :: NoBlankNames(c.any[i]))
  }

  lemma NodesAgree(c: Cond, known: set<string>)
    ensures ValidateNode(c, known) == None
              && NamedPair(c.headerContains) && NamedPair(c.headerEquals) && NamedPair(c.queryParamContains)
        <==> Operators(c) == 1 && !BlankPair(c.headerContains) && !BlankPair(c.headerEquals)
             && !BlankPair(c.queryParamContains)
             && (c.clientIPInIPSet != "" ==> c.clientIPInIPSet in known)
             && (c.clientIPNotInIPSet != "" ==> c.clientIPNotInIPSet in known)
  {
    assert Blank("");
  }

  /** The two validators accept the same trees, except those that name a header or
      query parameter with white space only: these pass the gateway alone. */
  lemma {:induction false} ValidatorsAgree(c: Cond, known: set<string>)
    ensures ValidateCondition(c, known) == None <==> Parse(c, known).Ok? && NoBlankNames(c)
    decreases c, 1
  {
    NodesAgree(c, known);
    ValidatorsAgreeOnChildren(c.all, known);
    ValidatorsAgreeOnChildren(c.any, known);
  }

  lemma {:induction false} ValidatorsAgreeOnChildren(cs: seq<Cond>, known: set<string>)
    ensures ValidateChildren(cs, known) == None <==>
            ParseChildren(cs, known).Ok? && forall i | 0 <= i < |cs| :: NoBlankNames(cs[i])
    decreases cs, 0
  {
    if cs != [] {
      ValidatorsAgree(cs[0], known);
      ValidatorsAgreeOnChildren(cs[1..], known);
      assert cs == [cs[0]] + cs[1..];
    }
  }

  const BLANK_HEADER: Cond :=
    Cond([], [], "", "", "", "", Some(NameValue(" ", "x")), None, None, "", "")

  /** A tree on which the two validators differ. */
  lemma BlankHeaderDiffers()
    ensures Parse(BLANK_HEADER, {}).Ok? && ValidateCondition(BLANK_HEADER, {}) != None
  {
    assert Blank(" ");
    ValidatorsAgree(BLANK_HEADER, {});
    assert ValidateNode(BLANK_HEADER, {}) == None;
  }

  // ----- whole drafts -----

  predicate RuleValid(r: RuleConfig, known: set<string>) {
    !Blank(r.id) && !Blank(r.name) && RuleAction(r.action) && ValidateCondition(r.when_, known) == None
  }

  predicate LimitValid(r: LimitConfig, known: set<string>) {
    !Blank(r.id) && !Blank(r.name) && LimitAction(r.action) && r.limit > 0 && r.windowSeconds > 0
    && r.keyType in KEY_TYPES && (r.keyType == "header" ==> !Blank(r.keyHeader))
    && (HasCondition(r.match_) ==> ValidateCondition(r.match_, known) == None)
  }

  predicate AllStrict(cidrs: seq<CidrText>) { forall i | 0 <= i < |cidrs| :: StrictCidr(cidrs[i]) }

  predicate KnownAction(a: string) { a == "" || a in ["allow", "count", "block", "rate_limit"] }

  /** What the control plane accepts, on a decoded draft. */
  predicate ControlAccepts(d: Draft) {
    (d.mode != "" ==> ValidMode(d.mode))
    && AllStrict(d.ipBlocklist)
    && (forall name | name in d.ipSets :: AllStrict(d.ipSets[name]))
    && (forall i | 0 <= i < |d.ruleActions| :: KnownAction(d.ruleActions[i]))
    && (forall i | 0 <= i < |d.customRules| :: RuleValid(d.customRules[i], d.ipSets.Keys))
    && (forall i | 0 <= i < |d.rateLimits| :: LimitValid(d.rateLimits[i], d.ipSets.Keys))
  }

  method ValidateCIDRs(cidrs: seq<CidrText>) returns (ok: bool)
    ensures ok <==> AllStrict(cidrs)
  {
    for i := 0 to |cidrs|
      invariant forall k | 0 <= k < i :: StrictCidr(cidrs[k])
    {
      match cidrs[i] {
        case Malformed => return false;
        case Cidr(_, padded) =>
          if padded {
            return false;
          }
      }
    }
    return true;
  }

  method ValidateSets(sets: map<string, seq<CidrText>>) returns (ok: bool)
    ensures ok <==> forall name | name in sets :: AllStrict(sets[name])
  {
    var remaining := sets.Keys;
    while remaining != {}
      invariant remaining <= sets.Keys && forall name | name in sets && name !in remaining :: AllStrict(sets[name])
      decreases remaining
    {
      var name :| name in remaining;
      var strict := ValidateCIDRs(sets[name]);
      if !strict {
        return false;
      }
      remaining := remaining - {name};
    }
    return true;
  }

  method ValidateActions(actions: seq<string>) returns (ok: bool)
    ensures ok <==> forall i | 0 <= i < |actions| :: KnownAction(actions[i])
  {
    for i := 0 to |actions|
      invariant forall k | 0 <= k < i :: KnownAction(actions[k])
    {
      match actions[i] {
        case "" =>
        case "allow" =>
        case "count" =>
        case "block" =>
        case "rate_limit" =>
        case _ => return false;
      }
    }
    return true;
  }

  method ValidateRules(rules: seq<RuleConfig>, known: set<string>) returns (ok: bool)
    ensures ok <==> forall i | 0 <= i < |rules| :: RuleValid(rules[i], known)
  {
    for i := 0 to |rules|
      invariant forall k | 0 <= k < i :: RuleValid(rules[k], known)
    {
      var rule := rules[i];
      if TrimSpace(rule.id) == "" || TrimSpace(rule.name) == "" {
        return false;
      }
      match rule.action {
        case "allow" =>
        case "count" =>
        case "block" =>
        case _ => return false;
      }
      if ValidateCondition(rule.when_, known).Some? {
        return false;
      }
    }
    return true;
  }

  method ValidateLimit(rule: LimitConfig, known: set<string>) returns (ok: bool)
    ensures ok <==> LimitValid(rule, known)
  {
    if TrimSpace(rule.id) == "" || TrimSpace(rule.name) == "" {
      return false;
    }
    match rule.action {
      case "count" =>
      case "block" =>
      case _ => return false;
    }
    if rule.limit <= 0 || rule.windowSeconds <= 0 {
      return false;
    }
    match rule.keyType {
      case "ip" =>
      case "host" =>
      case "path" =>
      case "header" =>
        if TrimSpace(rule.keyHeader) == "" {
          return false;
        }
      case "api_key_placeholder" =>
      case _ => return false;
    }
    ok := !HasCondition(rule.match_) || ValidateCondition(rule.match_, known).None?;
  }

  method ValidateLimits(rules: seq<LimitConfig>, known: set<string>) returns (ok: bool)
    ensures ok <==> forall i | 0 <= i < |rules| :: LimitValid(rules[i], known)
  {
    for i := 0 to |rules|
      invariant forall k | 0 <= k < i :: LimitValid(rules[k], known)
    {
      var ok := ValidateLimit(rules[i], known);
      if !ok {
        return false;
      }
    }
    return true;
  }

  /** server.go:526-607: the checks in their order, each stopping at the first fault. */
  method ValidatePolicySnapshot(d: Draft) returns (ok: bool)
    ensures ok <==> ControlAccepts(d)
  {
    match d.mode {
      case "" =>
      case "count" =>
      case "block" =>
      case _ => return false;
    }
    ok := ValidateCIDRs(d.ipBlocklist);
    if ok {
      ok := ValidateSets(d.ipSets);
    }
    if ok {
      ok := ValidateActions(d.ruleActions);
    }
    if ok {
      ok := ValidateRules(d.customRules, d.ipSets.Keys);
    }
    if ok {
      ok := ValidateLimits(d.rateLimits, d.ipSets.Keys);
    }
  }

  /** policy/store.go:350-375: every set has a name and parses after trimming. */
  predicate SetsAccepted(sets: map<string, seq<CidrText>>) {
    forall name | name in sets :: !Blank(name) && forall c | c in sets[name] :: c.Cidr?
  }

  /** What the gateway's IP-set and rule parsers accept (store.go:150-178). */
  predicate GatewayAccepts(d: Draft) {
    SetsAccepted(d.ipSets) && RulesAccepted(d.customRules, d.ipSets.Keys) && LimitsAccepted(d.rateLimits, d.ipSets.Keys)
  }

  predicate StatusOK(code: int) { 0 <= code <= 999 }

  /** What the control plane does not check and the gateway does. */
  predicate GatewayOnlyChecks(d: Draft) {
    (forall name | name in d.ipSets :: !Blank(name))
    && (forall r | r in d.customRules :: StatusOK(r.statusCode))
    && (forall r | r in d.rateLimits :: StatusOK(r.statusCode))
    && (forall i, j | 0 <= i < j < |d.customRules| :: d.customRules[i].id != d.customRules[j].id)
    && (forall i, j | 0 <= i < j < |d.rateLimits| :: d.rateLimits[i].id != d.rateLimits[j].id)
  }

  lemma ValidRuleParses(r: RuleConfig, known: set<string>)
    requires RuleValid(r, known)
    ensures RuleFault(r, {}, known) == None <==> StatusOK(r.statusCode)
  {
    ValidatorsAgree(r.when_, known);
    assert Blank("");
  }

  lemma ValidLimitParses(r: LimitConfig, known: set<string>)
    requires LimitValid(r, known)
    ensures LimitFault(r, {}, known) == None <==> StatusOK(r.statusCode)
  {
    ValidatorsAgree(r.match_, known);
    assert Blank("");
  }

  lemma RulesHalf(d: Draft)
    requires ControlAccepts(d)
    ensures RulesAccepted(d.customRules, d.ipSets.Keys) <==>
            (forall r | r in d.customRules :: StatusOK(r.statusCode))
            && (forall i, j | 0 <= i < j < |d.customRules| :: d.customRules[i].id != d.customRules[j].id)
  {
    RulesAcceptedIff(d.customRules, d.ipSets.Keys);
    forall i | 0 <= i < |d.customRules|
      ensures RuleFault(d.customRules[i], {}, d.ipSets.Keys) == None <==> StatusOK(d.customRules[i].statusCode)
    {
      ValidRuleParses(d.customRules[i], d.ipSets.Keys);
    }
  }

  lemma LimitsHalf(d: Draft)
    requires ControlAccepts(d)
    ensures LimitsAccepted(d.rateLimits, d.ipSets.Keys) <==>
            (forall r | r in d.rateLimits :: StatusOK(r.statusCode))
            && (forall i, j | 0 <= i < j < |d.rateLimits| :: d.rateLimits[i].id != d.rateLimits[j].id)
  {
    LimitsAcceptedIff(d.rateLimits, d.ipSets.Keys);
    forall i | 0 <= i < |d.rateLimits|
      ensures LimitFault(d.rateLimits[i], {}, d.ipSets.Keys) == None <==> StatusOK(d.rateLimits[i].statusCode)
    {
      ValidLimitParses(d.rateLimits[i], d.ipSets.Keys);
    }
  }

  /** A draft the control plane accepts is refused by the gateway exactly when a rule id
      repeats, a status code leaves 0..999 or an IP set has a blank name. */
  lemma GatewayAcceptsIff(d: Draft)
    requires ControlAccepts(d)
    ensures GatewayAccepts(d) <==> GatewayOnlyChecks(d)
  {
    RulesHalf(d);
    LimitsHalf(d);
  }

  /** Path equals "/". */
  const AT_ROOT: Cond := Cond([], [], "", "/", "", "", None, None, None, "", "")

  const RULE: RuleConfig := RuleConfig("r", "root", 0, true, "block", 403, false, AT_ROOT)

  /** The same rule twice. */
  const DUPLICATED: Draft := EMPTY.(customRules := [RULE, RULE])

  /** A draft that passes the control plane and that the gateway refuses. */
  lemma DuplicateIDRefused()
    ensures ControlAccepts(DUPLICATED) && !GatewayAccepts(DUPLICATED)
  {
    RuleIsValid();
    RepeatedIDRefused(DUPLICATED, 0, 1);
  }

  lemma RuleIsValid()
    ensures RuleValid(RULE, {})
  {
    assert "r"[0] == 'r' && "root"[0] == 'r';
    assert !Blank("r") && !Blank("root");
  }

  lemma RepeatedIDRefused(d: Draft, i: nat, j: nat)
    requires i < j < |d.customRules| && d.customRules[i].id == d.customRules[j].id
    ensures !GatewayAccepts(d)
  {
    RulesAcceptedIff(d.customRules, d.ipSets.Keys);
  }
}
