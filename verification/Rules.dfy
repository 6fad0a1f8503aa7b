/** The interlink rule language as data: one record per rule, as the rule loader
    builds it, and the "last matching rule" order on which the linking stages rest. */
module Rules {
  datatype RuleType =
    | AssetGroupAdd
    | AssetGroupLinkService
    | HostLinkAssetGroup
    | WebsiteAdd
    | WebsiteLinkAssetGroup
    | HostOwnership
    | OwnerAdd

  /** Fields that a rule type does not use are empty strings. */
  datatype Rule = Rule(
    ruletype: RuleType,
    srcHostMatch: string,
    srcAssetGroupMatch: string,
    destServiceMatch: string,
    destAssetGroupMatch: string,
    srcWebsiteMatch: string,
    destWebsiteMatch: string,
    destOperator: string,
    destTeam: string,
    destTriageOverride: string)

  /** A rule of the given type with every field still empty. */
  function NewRule(ruletype: RuleType): Rule {
    Rule(ruletype, "", "", "", "", "", "", "", "", "")
  }

  /** The case-insensitive regular expression match `name ~* pattern` of the
      database, left uninterpreted: matches(pattern, name). */
  type Matcher = (string, string) -> bool

  function OfType(rules: seq<Rule>, ruletype: RuleType): seq<Rule> {
    if rules == [] then []
    else
      var front := OfType(rules[..|rules| - 1], ruletype);
      if rules[|rules| - 1].ruletype == ruletype then front + [rules[|rules| - 1]] else front
  }

  method GetRulesType(rules: seq<Rule>, ruletype: RuleType) returns (ret: seq<Rule>)
    ensures ret == OfType(rules, ruletype)
  {
    ret := [];
    for i := 0 to |rules|
      invariant ret == OfType(rules[..i], ruletype)
    {
      assert rules[..i + 1][..i] == rules[..i];
      if rules[i].ruletype == ruletype {
        ret := ret + [rules[i]];
      }
    }
    assert rules[..|rules|] == rules;
  }

  /** Selecting by type is a homomorphism, so it sees only the order inside the type. */
  lemma {:induction false} OfTypeConcat(a: seq<Rule>, b: seq<Rule>, ruletype: RuleType)
    ensures OfType(a + b, ruletype) == OfType(a, ruletype) + OfType(b, ruletype)
  {
    if b == [] {
      assert a + b == a;
    } else {
      OfTypeConcat(a, b[..|b| - 1], ruletype);
      assert (a + b)[..|a + b| - 1] == a + b[..|b| - 1];
    }
  }

  /** Which field of a rule a linking stage matches asset names against. */
  datatype Source = Host | Website

  function Pattern(source: Source, r: Rule): string {
    match source
    case Host => r.srcHostMatch
    case Website => r.srcWebsiteMatch
  }

  /** Index of the last rule whose pattern matches the name, or -1. */
  function LastMatch(matches: Matcher, source: Source, rules: seq<Rule>, name: string): (last: int)
    ensures -1 <= last < |rules|
    ensures last >= 0 ==> matches(Pattern(source, rules[last]), name)
    ensures forall j :: last < j < |rules| ==> !matches(Pattern(source, rules[j]), name)
  {
    if rules == [] then -1
    else if matches(Pattern(source, rules[|rules| - 1]), name) then |rules| - 1
    else
      LastMatch(matches, source, rules[..|rules| - 1], name)
  }
}
