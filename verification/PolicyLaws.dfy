/**
 * What a rule list means, told by changing the list: which rules can be taken out, which demands can
 * be dropped, and which rule decides. The laws speak of lists, values and decisions only.
 */
module PolicyLaws {
  import opened Options
  import opened Policy

  /** What a rule may ask about besides scopes. */
  datatype Aspect = OfPrincipal | OfTool | OfService | OfOperation | OfActionClass

  function ListOf(m: Match, a: Aspect): seq<string> {
    match a
    case OfPrincipal => m.principals
    case OfTool => m.tools
    case OfService => m.services
    case OfOperation => m.operations
    case OfActionClass => m.actionClasses
  }

  function Emptied(m: Match, a: Aspect): Match {
    match a
    case OfPrincipal => m.(principals := [])
    case OfTool => m.(tools := [])
    case OfService => m.(services := [])
    case OfOperation => m.(operations := [])
    case OfActionClass => m.(actionClasses := [])
  }

  function ValueOf(input: Input, a: Aspect): string {
    match a
    case OfPrincipal => input.principal
    case OfTool => input.tool
    case OfService => input.service
    case OfOperation => if input.operation == None then "" else input.operation.value
    case OfActionClass => input.actionClass
  }

  /** The rule lists values for the aspect, and the call's is not among them. */
  ghost predicate Lacks(rule: Rule, input: Input, a: Aspect) {
    && rule.match_.Some?
    && ListOf(rule.match_.value, a) != []
    && ValueOf(input, a) !in ListOf(rule.match_.value, a)
  }

  /**
   * The listed scopes cover a token that has some, for a rule that allows; for one that restrains they
   * hold a scope of the token or, where the operation's demands are known, one that would meet a demand.
   */
  ghost predicate ScopesReach(rule: Rule, input: Input, scopes: seq<string>) {
    if rule.effect == AllowEffect then |input.scopes| > 0 && forall s :: s in input.scopes ==> s in scopes
    else if input.required == None then exists s :: s in input.scopes && s in scopes
    else exists demand :: demand in input.required.value && exists s :: s in demand && s in scopes
  }

  ghost predicate LacksScopes(rule: Rule, input: Input) {
    rule.match_.Some? && rule.match_.value.scopes != [] && !ScopesReach(rule, input, rule.match_.value.scopes)
  }

  ghost predicate Inapplicable(rule: Rule, input: Input) {
    LacksScopes(rule, input) || exists a :: Lacks(rule, input, a)
  }

  /** A rule that asks for nothing. */
  ghost predicate Unconditional(rule: Rule) {
    rule.match_ == None || rule.match_ == Some(Match([], [], [], [], [], []))
  }

  function Dropped(c: Config, i: nat): Config
    requires i < |c.rules|
  {
    c.(rules := c.rules[..i] + c.rules[i + 1..])
  }

  // ---------------------------------------------------------------- rules and their matches

  lemma {:induction false} FlatHolds(groups: seq<seq<string>>, s: string)
    ensures s in Flat(groups) <==> exists g :: g in groups && s in g
  {
    if groups != [] {
      FlatHolds(groups[1..], s);
      assert groups == [groups[0]] + groups[1..];
    }
  }

  lemma ReachMatches(rule: Rule, input: Input, scopes: seq<string>)
    requires scopes != []
    ensures MatchesScopes(ScopesFor(rule.effect, input), scopes, rule.effect) <==> ScopesReach(rule, input, scopes)
  {
    hide Flat;
    if rule.effect != AllowEffect && input.required.Some? {
      var groups := input.required.value;
      if ScopesReach(rule, input, scopes) {
        var g :| g in groups && exists s :: s in g && s in scopes;
        var s :| s in g && s in scopes;
        FlatHolds(groups, s);
        assert s in Flat(groups);
      }
      if s :| s in Flat(groups) && s in scopes {
        FlatHolds(groups, s);
      }
    }
  }

  lemma InapplicableNeverMatches(rule: Rule, input: Input)
    requires Inapplicable(rule, input)
    ensures !MatchesRule(rule, input)
  {
    if LacksScopes(rule, input) {
      hide ScopesReach, MatchesScopes, ScopesFor;
      ReachMatches(rule, input, rule.match_.value.scopes);
    }
  }

  lemma FirstMatchIs(rules: seq<Rule>, input: Input, i: nat)
    requires i < |rules| && MatchesRule(rules[i], input)
    requires forall k :: 0 <= k < i ==> !MatchesRule(rules[k], input)
    ensures FirstMatch(rules, input) == Some(i)
  {
    hide MatchesRule;
  }

  lemma FirstMatchSkips(c: Config, input: Input, i: nat)
    requires i < |c.rules| && !MatchesRule(c.rules[i], input)
    ensures SameKind(Decided(c, input), Decided(Dropped(c, i), input))
  {
    hide MatchesRule, GuardrailDenial;
    var fewer := Dropped(c, i).rules;
    GuardrailsIgnoreRules(c, input, fewer);
    var was, is_ := FirstMatch(c.rules, input), FirstMatch(fewer, input);
    if was.Some? {
      var k := if was.value < i then was.value else was.value - 1;
      assert fewer[k] == c.rules[was.value];
      forall j | 0 <= j < k
        ensures !MatchesRule(fewer[j], input)
      {
        assert fewer[j] == c.rules[if j < i then j else j + 1];
      }
      FirstMatchIs(fewer, input, k);
    } else {
      forall j | 0 <= j < |fewer|
        ensures !MatchesRule(fewer[j], input)
      {
        assert fewer[j] == c.rules[if j < i then j else j + 1];
      }
    }
  }

  lemma FirstMatchAlike(c: Config, input: Input, i: nat, rule: Rule)
    requires i < |c.rules| && rule == c.rules[i].(match_ := rule.match_)
    requires MatchesRule(c.rules[i], input) <==> MatchesRule(rule, input)
    ensures Decided(c, input) == Decided(c.(rules := c.rules[i := rule]), input)
  {
    hide MatchesRule, GuardrailDenial;
    var rules := c.rules[i := rule];
    GuardrailsIgnoreRules(c, input, rules);
    assert forall k :: 0 <= k < |rules| ==> (MatchesRule(rules[k], input) <==> MatchesRule(c.rules[k], input));
    var was := FirstMatch(c.rules, input);
    if was.Some? {
      FirstMatchIs(rules, input, was.value);
    }
  }

  // ---------------------------------------------------------------- the laws of rules

  /** A rule whose list lacks the call's value, or whose scopes do not reach it, can be taken out. */
  lemma InapplicableRuleCanGo(c: Config, input: Input, i: nat)
    requires i < |c.rules| && Inapplicable(c.rules[i], input)
    ensures SameKind(Decided(c, input), Decided(Dropped(c, i), input))
  {
    InapplicableNeverMatches(c.rules[i], input);
    FirstMatchSkips(c, input, i);
  }

  /** A list that holds the call's value might as well be empty. */
  lemma MetListCanBeEmptied(c: Config, input: Input, i: nat, a: Aspect)
    requires i < |c.rules| && c.rules[i].match_.Some?
    requires ValueOf(input, a) in ListOf(c.rules[i].match_.value, a)
    ensures
      var rule := c.rules[i].(match_ := Some(Emptied(c.rules[i].match_.value, a)));
      Decided(c, input) == Decided(c.(rules := c.rules[i := rule]), input)
  {
    var rule := c.rules[i].(match_ := Some(Emptied(c.rules[i].match_.value, a)));
    assert MatchesRule(c.rules[i], input) <==> MatchesRule(rule, input) by {
      hide MatchesScopes, ScopesFor;
    }
    FirstMatchAlike(c, input, i, rule);
  }

  /** So might a list of scopes that reaches the call. */
  lemma MetScopesCanBeEmptied(c: Config, input: Input, i: nat)
    requires i < |c.rules| && c.rules[i].match_.Some?
    requires ScopesReach(c.rules[i], input, c.rules[i].match_.value.scopes)
    ensures
      var rule := c.rules[i].(match_ := Some(c.rules[i].match_.value.(scopes := [])));
      Decided(c, input) == Decided(c.(rules := c.rules[i := rule]), input)
  {
    var was := c.rules[i];
    var rule := was.(match_ := Some(was.match_.value.(scopes := [])));
    assert MatchesRule(was, input) <==> MatchesRule(rule, input) by {
      if was.match_.value.scopes != [] {
        ReachMatches(was, input, was.match_.value.scopes);
      }
    }
    FirstMatchAlike(c, input, i, rule);
  }

  /** The guardrails alone: no rule, and nothing else refused. */
  function Guards(c: Config): Config {
    c.(rules := [], defaultEffect := AllowEffect)
  }

  /**
   * A rule that asks for nothing, after rules that do not apply, decides by its effect, under its name
   * or its position counted from one.
   */
  lemma UnconditionalRuleDecides(c: Config, input: Input, i: nat)
    requires i < |c.rules| && Unconditional(c.rules[i])
    requires forall k :: 0 <= k < i ==> Inapplicable(c.rules[k], input)
    requires Decided(Guards(c), input) == Allow
    ensures
      var rule := c.rules[i];
      var id := if rule.id == None then Some(Numbered(i + 1))
                else if rule.id.value == "" then None else Some(Named(rule.id.value));
      Decided(c, input)
      == match rule.effect
         case AllowEffect => Allow
         case DenyEffect => Deny(if rule.reason == None then "YAML policy deny" else rule.reason.value, id)
         case ApprovalEffect =>
           ApprovalRequired(if rule.reason == None then "YAML policy approval_required" else rule.reason.value, id)
  {
    forall k | 0 <= k < i
      ensures !MatchesRule(c.rules[k], input)
    {
      InapplicableNeverMatches(c.rules[k], input);
    }
    assert MatchesRule(c.rules[i], input);
    hide MatchesRule, Inapplicable, GuardrailDenial;
    FirstMatchIs(c.rules, input, i);
    GuardsAre(c, input);
  }

  lemma GuardsAre(c: Config, input: Input)
    ensures GuardrailDenial(c, input) == GuardrailDenial(Guards(c), input)
    ensures GuardrailDenial(c, input).Some? ==> GuardrailDenial(c, input).value.Deny?
    ensures Decided(Guards(c), input).Deny? <==> GuardrailDenial(c, input).Some?
  {
  }

  /** A call to which no rule applies is decided by the default. */
  lemma DefaultDecides(c: Config, input: Input)
    requires forall k :: 0 <= k < |c.rules| ==> Inapplicable(c.rules[k], input)
    requires Decided(Guards(c), input) == Allow
    ensures
      Decided(c, input)
      == match c.defaultEffect
         case AllowEffect => Allow
         case DenyEffect => Deny("YAML policy default deny", Some(DefaultRule))
         case ApprovalEffect => ApprovalRequired("YAML policy default approval_required", Some(DefaultRule))
  {
    forall k | 0 <= k < |c.rules|
      ensures !MatchesRule(c.rules[k], input)
    {
      InapplicableNeverMatches(c.rules[k], input);
    }
    hide MatchesRule, Inapplicable, GuardrailDenial;
    GuardsAre(c, input);
  }

  // ---------------------------------------------------------------- the laws of guardrails

  /** The operation's mail is under a list of domains, and goes nowhere known or somewhere not covered. */
  ghost predicate StraysFrom(c: Config, input: Input, operation: string) {
    && c.allowedRecipientDomains != {}
    && c.sends(operation)
    && (|| input.recipientDomains in {None, Some([])}
        || exists r :: r in input.recipientDomains.value
            && forall a :: a in c.allowedRecipientDomains ==> !c.covers(r, a))
  }

  /**
   * Guardrails deny, whatever the rules say: any call without an operation once there is a guardrail, a
   * denied operation, and mail that strays. On every other call they might as well not be there.
   */
  lemma GuardrailsComeFirst(c: Config, input: Input)
    ensures
      var named := input.operation != None && input.operation != Some("");
      var denied :=
        if named then input.operation.value in c.deniedOperations || StraysFrom(c, input, input.operation.value)
        else c.deniedOperations + c.allowedRecipientDomains != {};
      var bare := c.(deniedOperations := {}, allowedRecipientDomains := {});
      && (denied ==> Decided(c, input).Deny?)
      && (!denied ==> Decided(c, input) == Decided(bare, input))
      && Decided(Guards(bare), input) == Allow
      && (Decided(Guards(c), input) == Allow <==> !denied)
  {
    hide MatchesRule;
    var bare := c.(deniedOperations := {}, allowedRecipientDomains := {});
    GuardsAre(c, input);
    assert c.deniedOperations + c.allowedRecipientDomains == {}
      <==> c.deniedOperations == {} && c.allowedRecipientDomains == {};
    assert GuardrailDenial(bare, input) == None;
  }

  /** An operation that is denied is denied under every list of rules. */
  lemma DeniedOperationIsDenied(c: Config, input: Input, rules: seq<Rule>)
    requires input.operation.Some? && input.operation.value != "" && input.operation.value in c.deniedOperations
    ensures
      Decided(c.(rules := rules), input)
      == Deny("Operation disabled by global policy", Some(Guardrail("denied_operations")))
  {
  }
}
