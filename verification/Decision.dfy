/** services/gateway/internal/decision/decision.go */
module Decision {
  import opened Text

  /** `Unset` is the zero value "" of the Go type. */
  datatype Action = Unset | Allow | Count | Block | Challenge | RateLimit

  /** The gateway compares modes with the two constants only; any other text is `OtherMode`. */
  datatype Mode = CountMode | BlockMode | OtherMode(text: string)

  datatype RateLimitInfo = RateLimitInfo(limit: int, remaining: int, resetAt: int, ruleID: string, action: Action)

  datatype Verdict = Verdict(
    action: Action,
    reason: string,
    matchedRuleID: string,
    matchedRuleName: string,
    ruleGroup: string,
    tags: seq<string>,
    anomalyScore: int,
    statusCode: int,
    rateLimit: Option<RateLimitInfo>)
  {
    predicate WouldBlock() {
      action == Block || action == RateLimit || action == Challenge
    }
  }

  const ZERO: Verdict := Verdict(Unset, "", "", "", "", [], 0, 0, None)

  const ALLOW: Verdict := ZERO.(action := Allow)

  function BlockVerdict(reason: string, ruleID: string): Verdict {
    ZERO.(action := Block, reason := reason, matchedRuleID := ruleID, statusCode := 403)
  }

  function CountVerdict(reason: string, ruleID: string): Verdict {
    ZERO.(action := Count, reason := reason, matchedRuleID := ruleID)
  }

  function AllowRuleVerdict(reason: string, ruleID: string): Verdict {
    ZERO.(action := Allow, reason := reason, matchedRuleID := ruleID)
  }

  function EnforcedAction(mode: Mode, d: Verdict): Action {
    if mode == CountMode && d.WouldBlock() then Count else d.action
  }
}
