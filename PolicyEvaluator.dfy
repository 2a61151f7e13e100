/**
 * The policy evaluator, `verify_tags_on_resource`: every rule of the policy
 * is checked in order, one reason is recorded per failed rule, and the list
 * of reasons is written onto the resource record.
 */
module PolicyEvaluator {
  import opened Wrappers
  import opened Strings
  import opened TagMatcher
  import opened Lists

  /** One required tag: its key and the values accepted for it. */
  datatype Rule = Rule(key: string, values: seq<string>)

  /**
   * A resource record as the adapters build it. Only `compliantReasons`
   * is ever written after construction; `None` stands for the record not
   * yet holding a `compliant_reasons` entry.
   */
  class Resource {
    const service: string
    const id: string
    const tags: Option<seq<Tag>>
    var compliantReasons: Option<seq<string>>

    constructor (service: string, id: string, tags: Option<seq<Tag>>)
      ensures this.service == service && this.id == id && this.tags == tags
      ensures compliantReasons == None
    {
      this.service := service;
      this.id := id;
      this.tags := tags;
      compliantReasons := None;
    }
  }

  predicate RulePasses(tags: Option<seq<Tag>>, rule: Rule)
  {
    TagExists(tags, rule.key) && TagIsCompliant(tags, rule.key, rule.values)
  }

  /** A resource is compliant iff it passes every rule. */
  predicate Compliant(tags: Option<seq<Tag>>, policy: seq<Rule>)
  {
    forall i :: 0 <= i < |policy| ==> RulePasses(tags, policy[i])
  }

  /** Why one rule failed: its key is absent, or its value is not allowed. */
  datatype Failure = Missing(key: string) | NotCompliant(key: string, values: seq<string>)

  /** The text recorded for a failure; the allowed values are joined with commas. */
  function Message(f: Failure): (text: string)
  {
    match f
    case Missing(key) => "tag '" + key + "' does not exist"
    case NotCompliant(key, values) => "tag '" + key + "' is not compliant with '" + Join(",", values) + "'"
  }

  /** The failure reported for a rule that failed. */
  function FailureOf(tags: Option<seq<Tag>>, rule: Rule): (f: Failure)
  {
    if !TagExists(tags, rule.key) then Missing(rule.key) else NotCompliant(rule.key, rule.values)
  }

  /** The rules the evaluator reports on. */
  function Fails(tags: Option<seq<Tag>>): Rule -> bool
  {
    (rule: Rule) => !RulePasses(tags, rule)
  }

  /** The text recorded for a rule that failed. */
  function Explain(tags: Option<seq<Tag>>): Rule -> string
  {
    (rule: Rule) => Message(FailureOf(tags, rule))
  }

  /** The reasons list the evaluator writes: the text of each failed rule,
      in policy order. */
  function Reasons(tags: Option<seq<Tag>>, policy: seq<Rule>): (reasons: seq<string>)
  {
    Map(Filter(policy, Fails(tags)), Explain(tags))
  }

  /** The positions of the failed rules, in increasing order: an independent
      description of which rules the reasons must speak of. */
  function FailedRules(tags: Option<seq<Tag>>, policy: seq<Rule>): (positions: seq<nat>)
  {
    Indices(policy, Fails(tags))
  }

  lemma ReasonsSnoc(tags: Option<seq<Tag>>, policy: seq<Rule>, rule: Rule)
    ensures Reasons(tags, policy + [rule]) ==
      Reasons(tags, policy) + (if RulePasses(tags, rule) then [] else [Message(FailureOf(tags, rule))])
  {
    var kept := Filter(policy, Fails(tags));
    FilterSnoc(policy, rule, Fails(tags));
    if RulePasses(tags, rule) {
      assert Filter(policy + [rule], Fails(tags)) == kept;
    } else {
      assert Filter(policy + [rule], Fails(tags)) == kept + [rule];
      MapSnoc(kept, rule, Explain(tags));
    }
  }

  lemma CompliantSnoc(tags: Option<seq<Tag>>, policy: seq<Rule>, rule: Rule)
    ensures Compliant(tags, policy + [rule]) == (Compliant(tags, policy) && RulePasses(tags, rule))
  {
    assert forall i :: 0 <= i < |policy| ==> (policy + [rule])[i] == policy[i];
    assert (policy + [rule])[|policy|] == rule;
  }

  /** The evaluator: walks all rules without stopping at the first failure,
      then replaces the record's reasons with the list it built. */
  method VerifyTagsOnResource(resource: Resource, policy: seq<Rule>) returns (status: bool)
    modifies resource
    ensures status == Compliant(resource.tags, policy)
    ensures resource.compliantReasons == Some(Reasons(resource.tags, policy))
  {
    status := true;
    var reasons: seq<string> := [];
    for i := 0 to |policy|
      invariant status == Compliant(resource.tags, policy[..i])
      invariant reasons == Reasons(resource.tags, policy[..i])
    {
      var rule := policy[i];
      ReasonsSnoc(resource.tags, policy[..i], rule);
      CompliantSnoc(resource.tags, policy[..i], rule);
      assert policy[..i + 1] == policy[..i] + [rule];
      if TagExists(resource.tags, rule.key) {
        var ok := CheckIfTagIsCompliant(resource.tags, rule.key, rule.values);
        if !ok {
          status := false;
          reasons := reasons + [Message(NotCompliant(rule.key, rule.values))];
        }
      } else {
        status := false;
        reasons := reasons + [Message(Missing(rule.key))];
      }
    }
    assert policy[..|policy|] == policy;
    resource.compliantReasons := Some(reasons);
  }

  /** Evaluating twice gives the same outcome and the same reasons: the
      reasons are replaced, never accumulated. */
  method VerifyTagsTwice(resource: Resource, policy: seq<Rule>) returns (first: bool, second: bool)
    modifies resource
    ensures first == second
    ensures resource.compliantReasons == Some(Reasons(resource.tags, policy))
  {
    first := VerifyTagsOnResource(resource, policy);
    var once := resource.compliantReasons;
    second := VerifyTagsOnResource(resource, policy);
    assert resource.compliantReasons == once;
  }

  /** The outcome is false exactly when some reason was recorded. */
  lemma ReasonsEmptyIffCompliant(tags: Option<seq<Tag>>, policy: seq<Rule>)
    ensures Reasons(tags, policy) == [] <==> Compliant(tags, policy)
  {
    var failed := Filter(policy, Fails(tags));
    MapAt(failed, Explain(tags));
    if Compliant(tags, policy) {
      FilterNone(policy, Fails(tags));
    } else {
      FilterMembership(policy, Fails(tags));
      var i :| 0 <= i < |policy| && !RulePasses(tags, policy[i]);
      assert policy[i] in failed;
    }
  }

  /** Exactly one reason per failed rule, in rule order, each the text of
      the failure that rule calls for. */
  lemma ReasonsFollowFailedRules(tags: Option<seq<Tag>>, policy: seq<Rule>)
    ensures |Reasons(tags, policy)| == |FailedRules(tags, policy)|
    ensures forall j :: 0 <= j < |Reasons(tags, policy)| ==>
      FailedRules(tags, policy)[j] < |policy| && !RulePasses(tags, policy[FailedRules(tags, policy)[j]]) &&
      Reasons(tags, policy)[j] == Message(FailureOf(tags, policy[FailedRules(tags, policy)[j]]))
  {
    FilterAtIndices(policy, Fails(tags));
    MapAt(Filter(policy, Fails(tags)), Explain(tags));
  }

  /** A failed rule is reported as missing exactly when its key is absent;
      a present key that fails is reported with the allowed values. */
  lemma FailureOfForms(tags: Option<seq<Tag>>, rule: Rule)
    requires !RulePasses(tags, rule)
    ensures !TagExists(tags, rule.key) ==> FailureOf(tags, rule) == Missing(rule.key)
    ensures TagExists(tags, rule.key) ==>
      !TagIsCompliant(tags, rule.key, rule.values) &&
      FailureOf(tags, rule) == NotCompliant(rule.key, rule.values)
  {
  }

  /** Passing a rule is just value compliance: existence adds nothing to the outcome. */
  lemma RulePassesIff(tags: Option<seq<Tag>>, rule: Rule)
    ensures RulePasses(tags, rule) <==> TagIsCompliant(tags, rule.key, rule.values)
  {
    CompliantImpliesExists(tags, rule.key, rule.values);
  }

  /** The outcome depends on which rules the policy holds, not on their order. */
  lemma CompliantOrderIndependent(tags: Option<seq<Tag>>, p: seq<Rule>, q: seq<Rule>)
    requires multiset(p) == multiset(q)
    ensures Compliant(tags, p) == Compliant(tags, q)
  {
    assert forall r :: r in p <==> r in multiset(p);
    assert forall r :: r in q <==> r in multiset(q);
    if Compliant(tags, p) {
      forall i | 0 <= i < |q| ensures RulePasses(tags, q[i]) {
        assert q[i] in multiset(p);
        var j :| 0 <= j < |p| && p[j] == q[i];
      }
    }
    if Compliant(tags, q) {
      forall i | 0 <= i < |p| ensures RulePasses(tags, p[i]) {
        assert p[i] in multiset(q);
        var j :| 0 <= j < |q| && q[j] == p[i];
      }
    }
  }

  /** Without tags every rule is reported as missing. */
  lemma NoTagsAllMissing(policy: seq<Rule>)
    ensures |Reasons(None, policy)| == |policy|
    ensures forall i :: 0 <= i < |policy| ==> Reasons(None, policy)[i] == Message(Missing(policy[i].key))
  {
    FilterAll(policy, Fails(None));
    MapAt(policy, Explain(None));
  }

  /** The parametrised cases of the evaluator tests: a resource carrying
      both required tags with allowed values (or the wildcard) passes and
      is given no reason. */
  lemma CompliantExample()
    ensures var tags := Some([Tag("Name", "da-nodes.kube.prod.pxfd.tech"), Tag("environment", "prod"), Tag("Project", "p1")]);
      Compliant(tags, [Rule("Project", ["p1", "p2"]), Rule("environment", ["prod", "dev"])]) &&
      Compliant(tags, [Rule("Project", ["*"]), Rule("environment", ["prod", "dev"])]) &&
      Reasons(tags, [Rule("Project", ["p1", "p2"]), Rule("environment", ["prod", "dev"])]) == [] &&
      Reasons(tags, [Rule("Project", ["*"]), Rule("environment", ["prod", "dev"])]) == []
  {
    var a := [Tag("Name", "da-nodes.kube.prod.pxfd.tech"), Tag("environment", "prod"), Tag("Project", "p1")];
    CompliantExampleRules();
    BothRulesPass(Some(a), Rule("Project", ["p1", "p2"]), Rule("environment", ["prod", "dev"]));
    BothRulesPass(Some(a), Rule("Project", ["*"]), Rule("environment", ["prod", "dev"]));
  }

  /** A two-rule policy whose rules both pass. */
  lemma BothRulesPass(tags: Option<seq<Tag>>, first: Rule, second: Rule)
    requires RulePasses(tags, first) && RulePasses(tags, second)
    ensures Compliant(tags, [first, second])
    ensures Reasons(tags, [first, second]) == []
  {
    ReasonsEmptyIffCompliant(tags, [first, second]);
  }

  lemma CompliantExampleRules()
    ensures var tags := Some([Tag("Name", "da-nodes.kube.prod.pxfd.tech"), Tag("environment", "prod"), Tag("Project", "p1")]);
      RulePasses(tags, Rule("Project", ["p1", "p2"])) && RulePasses(tags, Rule("Project", ["*"])) &&
      RulePasses(tags, Rule("environment", ["prod", "dev"]))
  {
    var a := [Tag("Name", "da-nodes.kube.prod.pxfd.tech"), Tag("environment", "prod"), Tag("Project", "p1")];
    assert Keys(a)[1] == "environment" && Keys(a)[2] == "Project";
  }

  /** A resource without the `Project` tag fails, and is reported for that
      tag only. */
  lemma MissingTagExample()
    ensures var tags := Some([Tag("Name", "da-nodes.kube.prod.pxfd.tech"), Tag("environment", "prod")]);
      !Compliant(tags, [Rule("Project", ["p1", "p2"]), Rule("environment", ["prod", "dev"])]) &&
      Reasons(tags, [Rule("Project", ["p1", "p2"]), Rule("environment", ["prod", "dev"])]) == [Message(Missing("Project"))]
  {
    var b := [Tag("Name", "da-nodes.kube.prod.pxfd.tech"), Tag("environment", "prod")];
    var project, environment := Rule("Project", ["p1", "p2"]), Rule("environment", ["prod", "dev"]);
    MissingTagExampleRules();
    FirstRuleFails(Some(b), project, environment);
  }

  lemma MissingTagExampleRules()
    ensures var tags := Some([Tag("Name", "da-nodes.kube.prod.pxfd.tech"), Tag("environment", "prod")]);
      !TagExists(tags, "Project") && RulePasses(tags, Rule("environment", ["prod", "dev"]))
  {
    var b := [Tag("Name", "da-nodes.kube.prod.pxfd.tech"), Tag("environment", "prod")];
    assert Keys(b)[1] == "environment";
    assert forall i :: 0 <= i < 2 ==> Keys(b)[i] != "Project";
  }

  /** A two-rule policy whose first rule alone fails. */
  lemma FirstRuleFails(tags: Option<seq<Tag>>, first: Rule, second: Rule)
    requires !RulePasses(tags, first) && RulePasses(tags, second)
    ensures !Compliant(tags, [first, second])
    ensures Reasons(tags, [first, second]) == [Message(FailureOf(tags, first))]
  {
    assert [first, second][0] == first;
    ReasonsSnoc(tags, [], first);
    ReasonsSnoc(tags, [first], second);
    assert [] + [first] == [first] && [first] + [second] == [first, second];
  }

  /** A resource without any tag list is reported for every rule. */
  lemma UntaggedExample()
    ensures Reasons(None, [Rule("Project", ["p1", "p2"]), Rule("environment", ["prod", "dev"])]) ==
      [Message(Missing("Project")), Message(Missing("environment"))]
  {
    var policy := [Rule("Project", ["p1", "p2"]), Rule("environment", ["prod", "dev"])];
    NoTagsAllMissing(policy);
    var r := Reasons(None, policy);
    assert r == [r[0], r[1]];
  }
}
