/** Matching of access rules (backend/capabilities/rules.go:182-248). */
module PermissionRules {

  datatype Rule = Rule(verbs: seq<string>, groups: seq<string>, resources: seq<string>, names: seq<string>)

  /** What a check asks for. */
  datatype Access = Access(group: string, resource: string, verb: string, subresource: string, name: string)

  predicate CoversValue(values: seq<string>, value: string) {
    "*" in values || value in values
  }

  function Combined(resource: string, subresource: string): string {
    if subresource == "" then resource else resource + "/" + subresource
  }

  /** All resources, exactly this one, or this subresource of any. */
  predicate CoversResource(resources: seq<string>, resource: string, subresource: string) {
    "*" in resources || Combined(resource, subresource) in resources || (subresource != "" && "*/" + subresource in resources)
  }

  /** A rule with names does not cover a check without one. */
  predicate CoversName(names: seq<string>, name: string) {
    names == [] || (name != "" && name in names)
  }

  predicate Grants(rule: Rule, a: Access) {
    && CoversValue(rule.verbs, a.verb)
    && CoversValue(rule.groups, a.group)
    && CoversResource(rule.resources, a.resource, a.subresource)
    && CoversName(rule.names, a.name)
  }

  predicate SomeGrants(rules: seq<Rule>, a: Access) {
    exists rule :: rule in rules && Grants(rule, a)
  }

  method MatchesResource(resources: seq<string>, combined: string, subresource: string) returns (matches: bool)
    ensures matches == ("*" in resources || combined in resources || (subresource != "" && "*/" + subresource in resources))
  {
    for i := 0 to |resources|
      invariant "*" !in resources[..i] && combined !in resources[..i] && (subresource == "" || "*/" + subresource !in resources[..i])
    {
      var r := resources[i];
      if r == "*" {
        return true;
      }
      if r == combined {
        return true;
      }
      if subresource != "" && |r| == |subresource| + 2 && r[0] == '*' && r[1] == '/' && r[2..] == subresource {
        assert r == "*/" + subresource;
        return true;
      }
    }
    assert resources[..|resources|] == resources;
    matches := false;
  }

  /** True exactly when some rule grants the access. */
  method MatchRules(rules: seq<Rule>, a: Access) returns (matches: bool)
    ensures matches == SomeGrants(rules, a)
    ensures matches <==> (exists rule ::
                            && rule in rules
                            && ("*" in rule.verbs || a.verb in rule.verbs)
                            && ("*" in rule.groups || a.group in rule.groups)
                            && ("*" in rule.resources || (if a.subresource == "" then a.resource else a.resource + "/" + a.subresource) in rule.resources
                                || (a.subresource != "" && "*/" + a.subresource in rule.resources))
                            && (rule.names == [] || (a.name != "" && a.name in rule.names)))
  {
    var combined := a.resource;
    if a.subresource != "" {
      combined := a.resource + "/" + a.subresource;
    }
    for i := 0 to |rules|
      invariant forall j | 0 <= j < i :: !Grants(rules[j], a)
    {
      var rule := rules[i];
      if !CoversValue(rule.verbs, a.verb) {
        continue;
      }
      if !CoversValue(rule.groups, a.group) {
        continue;
      }
      var resourceMatches := MatchesResource(rule.resources, combined, a.subresource);
      if !resourceMatches {
        continue;
      }
      if !CoversName(rule.names, a.name) {
        continue;
      }
      assert Grants(rule, a);
      return true;
    }
    matches := false;
  }
}
