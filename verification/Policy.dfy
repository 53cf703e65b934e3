/**
 * First-match policies over tool calls, and their composition. An allow must cover every scope of
 * the caller's token; a denial or a demand for approval needs to touch only one.
 */
module Policy {
  import opened Options

  datatype Effect = AllowEffect | DenyEffect | ApprovalEffect

  datatype RuleId = Named(name: string) | Numbered(position: nat) | Guardrail(guard: string) | DefaultRule

  datatype Decision =
    | Allow
    | Deny(reason: string, ruleId: Option<RuleId>)
    | ApprovalRequired(reason: string, ruleId: Option<RuleId>)

  /** An empty list of values matches anything. */
  datatype Match = Match(
    principals: seq<string>,
    tools: seq<string>,
    services: seq<string>,
    operations: seq<string>,
    actionClasses: seq<string>,
    scopes: seq<string>)

  datatype Rule = Rule(id: Option<string>, effect: Effect, reason: Option<string>, match_: Option<Match>)

  /** `required` lists, for each demand of the operation, the scopes that would meet it. */
  datatype Input = Input(
    principal: string,
    tool: string,
    operation: Option<string>,
    service: string,
    actionClass: string,
    scopes: seq<string>,
    required: Option<seq<seq<string>>>,
    recipientDomains: Option<seq<string>>)

  /** `sends` names the operations that send mail; `covers` says which domains an allowed one covers. */
  datatype Config = Config(
    defaultEffect: Effect,
    rules: seq<Rule>,
    deniedOperations: set<string>,
    allowedRecipientDomains: set<string>,
    sends: string -> bool,
    covers: (string, string) -> bool)

  // ---------------------------------------------------------------- matching

  predicate MatchesAny(actual: string, allowed: seq<string>) {
    allowed == [] || actual in allowed
  }

  predicate MatchesScopes(actual: seq<string>, matched: seq<string>, effect: Effect) {
    if matched == [] then true
    else if actual == [] then false
    else if effect.AllowEffect? then forall s :: s in actual ==> s in matched
    else exists s :: s in actual && s in matched
  }

  function Flat(groups: seq<seq<string>>): seq<string> {
    if groups == [] then [] else groups[0] + Flat(groups[1..])
  }

  /** A rule that restrains looks at what the operation requires, where that is known. */
  function ScopesFor(effect: Effect, input: Input): seq<string> {
    if effect.AllowEffect? || input.required.None? then input.scopes else Flat(input.required.value)
  }

  predicate MatchesRule(rule: Rule, input: Input) {
    rule.match_.None? ||
    var m := rule.match_.value;
    && MatchesAny(input.principal, m.principals)
    && MatchesAny(input.tool, m.tools)
    && MatchesAny(input.service, m.services)
    && MatchesAny(if input.operation.Some? then input.operation.value else "", m.operations)
    && MatchesAny(input.actionClass, m.actionClasses)
    && MatchesScopes(ScopesFor(rule.effect, input), m.scopes, rule.effect)
  }

  function DecisionFor(effect: Effect, reason: Option<string>, ruleId: RuleId): Decision {
    var named := if ruleId == Named("") then None else Some(ruleId);
    match effect
    case AllowEffect => Allow
    case DenyEffect => Deny(if reason.Some? then reason.value else "YAML policy deny", named)
    case ApprovalEffect =>
      ApprovalRequired(if reason.Some? then reason.value else "YAML policy approval_required", named)
  }

  /** Decisions of the same kind differ at most in reason and rule. */
  predicate SameKind(a: Decision, b: Decision) {
    (a.Allow? <==> b.Allow?) && (a.Deny? <==> b.Deny?)
  }

  // ---------------------------------------------------------------- one policy

  /** A missing operation and an empty one are alike. */
  predicate Unclassified(input: Input) {
    input.operation.None? || input.operation.value == ""
  }

  predicate Covered(c: Config, recipient: string) {
    exists a :: a in c.allowedRecipientDomains && c.covers(recipient, a)
  }

  /** What the guardrails refuse, before any rule is looked at. */
  function GuardrailDenial(c: Config, input: Input): Option<Decision> {
    var hard := c.deniedOperations != {} || c.allowedRecipientDomains != {};
    if hard && Unclassified(input) then
      Some(Deny("Operation cannot be classified under global policy", Some(Guardrail("unclassified_operation"))))
    else if !Unclassified(input) && input.operation.value in c.deniedOperations then
      Some(Deny("Operation disabled by global policy", Some(Guardrail("denied_operations"))))
    else if c.allowedRecipientDomains == {} || Unclassified(input) || !c.sends(input.operation.value) then None
    else if input.recipientDomains.None? || input.recipientDomains.value == [] then
      Some(Deny("Outbound email recipients cannot be verified", Some(Guardrail("outbound_email_opaque"))))
    else if exists r :: r in input.recipientDomains.value && !Covered(c, r) then
      Some(Deny("Outbound email recipient domain is not allowed", Some(Guardrail("outbound_email_domain"))))
    else None
  }

  function FirstMatch(rules: seq<Rule>, input: Input): (r: Option<nat>)
    ensures r.None? <==> forall i :: 0 <= i < |rules| ==> !MatchesRule(rules[i], input)
    ensures r.Some? ==> r.value < |rules| && MatchesRule(rules[r.value], input)
    ensures r.Some? ==> forall i :: 0 <= i < r.value ==> !MatchesRule(rules[i], input)
  {
    if rules == [] then None else
    var n := |rules| - 1;
    var r := FirstMatch(rules[..n], input);
    if r.Some? then r else if MatchesRule(rules[n], input) then Some(n) else None
  }

  function RuleDecision(rules: seq<Rule>, i: nat): Decision
    requires i < |rules|
  {
    var ruleId := if rules[i].id.Some? then Named(rules[i].id.value) else Numbered(i + 1);
    DecisionFor(rules[i].effect, rules[i].reason, ruleId)
  }

  function DefaultDecision(effect: Effect): Decision {
    var reason := match effect
      case AllowEffect => "YAML policy default allow"
      case DenyEffect => "YAML policy default deny"
      case ApprovalEffect => "YAML policy default approval_required";
    DecisionFor(effect, Some(reason), DefaultRule)
  }

  function Decided(c: Config, input: Input): Decision {
    var refused := GuardrailDenial(c, input);
    if refused.Some? then refused.value else
    var first := FirstMatch(c.rules, input);
    if first.Some? then RuleDecision(c.rules, first.value) else DefaultDecision(c.defaultEffect)
  }

  method Decide(c: Config, input: Input) returns (decision: Decision)
    ensures decision == Decided(c, input)
  {
    var refused := GuardrailDenial(c, input);
    if refused.Some? {
      return refused.value;
    }
    for i := 0 to |c.rules|
      invariant forall k :: 0 <= k < i ==> !MatchesRule(c.rules[k], input)
    {
      if MatchesRule(c.rules[i], input) {
        return RuleDecision(c.rules, i);
      }
    }
    return DefaultDecision(c.defaultEffect);
  }

  // ---------------------------------------------------------------- fewer scopes

  /**
   * A rule that restrains and lets the wider token pass lets the narrower one pass; one that allows
   * the wider allows the narrower.
   */
  lemma NarrowerMatches(rule: Rule, input: Input, fewer: seq<string>)
    requires fewer != [] && forall s :: s in fewer ==> s in input.scopes
    ensures rule.effect.AllowEffect? && MatchesRule(rule, input) ==> MatchesRule(rule, input.(scopes := fewer))
    ensures !rule.effect.AllowEffect? && !MatchesRule(rule, input) ==> !MatchesRule(rule, input.(scopes := fewer))
  {
    assert fewer[0] in input.scopes;
  }

  /** For every rule list: what is allowed to a token is allowed to every token with fewer scopes, but at least one. */
  lemma FewerScopesStayAllowed(c: Config, input: Input, fewer: seq<string>)
    requires fewer != [] && forall s :: s in fewer ==> s in input.scopes
    requires Decided(c, input).Allow?
    ensures Decided(c, input.(scopes := fewer)).Allow?
  {
    hide MatchesRule, GuardrailDenial;
    var narrow := input.(scopes := fewer);
    GuardrailsIgnoreScopes(c, input, fewer);
    var was, is_ := FirstMatch(c.rules, input), FirstMatch(c.rules, narrow);
    if was.Some? {
      NarrowerMatches(c.rules[was.value], input, fewer);
    }
    if is_.Some? && (was.None? || is_.value < was.value) {
      NarrowerMatches(c.rules[is_.value], input, fewer);
    }
  }

  lemma GuardrailsIgnoreScopes(c: Config, input: Input, fewer: seq<string>)
    ensures GuardrailDenial(c, input) == GuardrailDenial(c, input.(scopes := fewer))
  {
  }

  const ANYTHING := Match([], [], [], [], [], [])

  function AnyInput(scopes: seq<string>): Input {
    Input("p", "t", None, "s", "read", scopes, None, None)
  }

  function RulesOnly(defaultEffect: Effect, rules: seq<Rule>): Config {
    Config(defaultEffect, rules, {}, {}, _ => false, (_, _) => false)
  }

  /** A token without scopes is not covered by a rule about scopes. */
  lemma NoScopesCanLoseTheAllow()
    ensures var c := RulesOnly(DenyEffect, [Rule(None, AllowEffect, None, Some(ANYTHING.(scopes := ["a"])))]);
            Decided(c, AnyInput(["a"])).Allow? && Decided(c, AnyInput([])).Deny?
  {
    var rule := Rule(None, AllowEffect, None, Some(ANYTHING.(scopes := ["a"])));
    assert MatchesRule(rule, AnyInput(["a"])) && !MatchesRule(rule, AnyInput([]));
    assert [rule][0] == rule;
  }

  /** The rule looks at the scopes of the caller's token. */
  predicate AboutScopes(rule: Rule, input: Input) {
    && rule.match_.Some?
    && rule.match_.value.scopes != []
    && (rule.effect.AllowEffect? || input.required.None?)
  }

  function Unscoped(rules: seq<Rule>, input: Input): seq<Rule> {
    if rules == [] then [] else
    var n := |rules| - 1;
    Unscoped(rules[..n], input) + if AboutScopes(rules[n], input) then [] else [rules[n]]
  }

  lemma WithoutScopes(rule: Rule, input: Input)
    ensures MatchesRule(rule, input.(scopes := [])) <==> !AboutScopes(rule, input) && MatchesRule(rule, input)
  {
  }

  lemma {:induction false} FirstWithoutScopes(rules: seq<Rule>, input: Input)
    ensures
      var kept := Unscoped(rules, input);
      var a, b := FirstMatch(rules, input.(scopes := [])), FirstMatch(kept, input);
      && (a.Some? <==> b.Some?)
      && (a.Some? ==> rules[a.value].effect == kept[b.value].effect)
  {
    hide MatchesRule, AboutScopes;
    if rules != [] {
      var n := |rules| - 1;
      var kept := Unscoped(rules[..n], input);
      FirstWithoutScopes(rules[..n], input);
      WithoutScopes(rules[n], input);
      if AboutScopes(rules[n], input) {
        assert kept + [] == kept;
      } else {
        assert (kept + [rules[n]])[..|kept|] == kept;
      }
    }
  }

  /** A token without scopes is decided exactly as if the rules about scopes were not there. */
  lemma NoScopesSkipScopeRules(c: Config, input: Input)
    ensures
      SameKind(Decided(c, input.(scopes := [])), Decided(c.(rules := Unscoped(c.rules, input)), input))
  {
    hide MatchesRule, Unscoped, GuardrailDenial;
    GuardrailsIgnoreScopes(c, input, []);
    GuardrailsIgnoreRules(c, input, Unscoped(c.rules, input));
    FirstWithoutScopes(c.rules, input);
  }

  lemma GuardrailsIgnoreRules(c: Config, input: Input, rules: seq<Rule>)
    ensures GuardrailDenial(c, input) == GuardrailDenial(c.(rules := rules), input)
  {
  }

  /** Approval is not kept by fewer scopes: without the scope that asks for approval a later denial decides. */
  lemma FewerScopesCanTurnApprovalIntoDenial()
    ensures var c := RulesOnly(AllowEffect, [
                Rule(None, ApprovalEffect, None, Some(ANYTHING.(scopes := ["a"]))),
                Rule(None, DenyEffect, None, Some(ANYTHING.(scopes := ["b"])))]);
            Decided(c, AnyInput(["a", "b"])).ApprovalRequired? && Decided(c, AnyInput(["b"])).Deny?
  {
    var first := Rule(None, ApprovalEffect, None, Some(ANYTHING.(scopes := ["a"])));
    var second := Rule(None, DenyEffect, None, Some(ANYTHING.(scopes := ["b"])));
    assert ["a", "b"][0] == "a" && ["b"][0] == "b";
    assert "a" in ["a", "b"] && "b" in ["b"];
    assert MatchesRule(first, AnyInput(["a", "b"]));
    assert !MatchesRule(first, AnyInput(["b"])) && MatchesRule(second, AnyInput(["b"]));
    assert [first, second][0] == first && [first, second][1] == second;
  }

  // ---------------------------------------------------------------- several policies

  /** A policy is what it decides. */
  type ToolPolicy = Input -> Decision

  function Decisions(policies: seq<ToolPolicy>, input: Input): (r: seq<Decision>)
    ensures |r| == |policies| && forall i :: 0 <= i < |r| ==> r[i] == policies[i](input)
  {
    seq(|policies|, i requires 0 <= i < |policies| => policies[i](input))
  }

  /** The first denial; else the last demand for approval; else allowed. */
  predicate Composes(all: seq<Decision>, d: Decision) {
    match d
    case Deny(_, _) => exists i :: 0 <= i < |all| && all[i] == d && forall k :: 0 <= k < i ==> !all[k].Deny?
    case ApprovalRequired(_, _) =>
      && (forall k :: 0 <= k < |all| ==> !all[k].Deny?)
      && exists i :: 0 <= i < |all| && all[i] == d && forall k :: i < k < |all| ==> all[k].Allow?
    case Allow => forall k :: 0 <= k < |all| ==> all[k].Allow?
  }

  method DecideAll(policies: seq<ToolPolicy>, input: Input) returns (decision: Decision)
    ensures Composes(Decisions(policies, input), decision)
  {
    ghost var all := Decisions(policies, input);
    var approval: Option<Decision> := None;
    for i := 0 to |policies|
      invariant approval.Some? ==> approval.value.ApprovalRequired?
      invariant Composes(all[..i], if approval.Some? then approval.value else Allow)
    {
      assert all[..i + 1] == all[..i] + [all[i]];
      var d := policies[i](input);
      assert d == all[i];
      if d.Deny? {
        assert all[i] == d && forall k :: 0 <= k < i ==> all[k] == all[..i][k];
        return d;
      }
      if d.ApprovalRequired? {
        approval := Some(d);
      }
      assert d.ApprovalRequired? ==> all[..i + 1][i] == d;
    }
    assert all[..|policies|] == all;
    return if approval.Some? then approval.value else Allow;
  }

  lemma ComposesByKind(all: seq<Decision>, d: Decision)
    requires Composes(all, d)
    ensures d.Deny? <==> exists x :: x in all && x.Deny?
    ensures d.Allow? <==> forall x :: x in all ==> x.Allow?
  {
  }

  /** The order of the policies does not change the kind of the decision. */
  lemma OrderDoesNotMatter(a: seq<ToolPolicy>, b: seq<ToolPolicy>, input: Input, d: Decision, e: Decision)
    requires multiset(a) == multiset(b)
    requires Composes(Decisions(a, input), d) && Composes(Decisions(b, input), e)
    ensures SameKind(d, e)
  {
    ComposesByKind(Decisions(a, input), d);
    ComposesByKind(Decisions(b, input), e);
    SameDecisions(a, b, input);
    SameDecisions(b, a, input);
  }

  lemma SameDecisions(a: seq<ToolPolicy>, b: seq<ToolPolicy>, input: Input)
    requires multiset(a) == multiset(b)
    ensures forall x :: x in Decisions(a, input) ==> x in Decisions(b, input)
  {
    forall x | x in Decisions(a, input)
      ensures x in Decisions(b, input)
    {
      var i :| 0 <= i < |a| && x == a[i](input);
      assert a[i] in multiset(a);
      var k :| 0 <= k < |b| && b[k] == a[i];
      assert Decisions(b, input)[k] == x;
    }
  }

  function DecidedBy(configs: seq<Config>, input: Input): (r: seq<Decision>)
    ensures |r| == |configs| && forall i :: 0 <= i < |r| ==> r[i] == Decided(configs[i], input)
  {
    seq(|configs|, i requires 0 <= i < |configs| => Decided(configs[i], input))
  }

  /** Composition keeps the law on scopes. */
  lemma CompositeFewerScopesStayAllowed(configs: seq<Config>, input: Input, fewer: seq<string>, d: Decision,
                                        e: Decision)
    requires fewer != [] && forall s :: s in fewer ==> s in input.scopes
    requires Composes(DecidedBy(configs, input), d) && d.Allow?
    requires Composes(DecidedBy(configs, input.(scopes := fewer)), e)
    ensures e.Allow?
  {
    hide Decided;
    var wide, narrow := DecidedBy(configs, input), DecidedBy(configs, input.(scopes := fewer));
    forall i | 0 <= i < |configs|
      ensures narrow[i].Allow?
    {
      assert wide[i].Allow?;
      FewerScopesStayAllowed(configs[i], input, fewer);
    }
  }
}
