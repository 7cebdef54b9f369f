/** The offline decision procedure `DryRun`, and how it relates to the Rego decision. */
module DryRun {
  import opened Text
  import opened Glob
  import opened Domain
  import opened Routing
  import opened Rego
  import PolicyMerge

  datatype DryRunResult = DryRunResult(permitted: bool, matchedPolicy: string, matchedRoute: string,
                                       denialReason: string)

  /** An entry that by itself permits the tool: its own denied list is the only one consulted. */
  predicate EntryPermits(e: PolicyEntry, groups: seq<string>, name: string) {
    e.group in groups && !MatchesSome(name, e.denied) && MatchesSome(name, e.allowed)
  }

  predicate PolicyPermits(ps: seq<PolicyEntry>, groups: seq<string>, name: string) {
    exists e | e in ps :: EntryPermits(e, groups, name)
  }

  predicate Permits(ps: seq<PolicyEntry>, routes: seq<RouteEntry>, groups: seq<string>, name: string) {
    PolicyPermits(ps, groups, name) && Routed(routes, ToolPrefix(name))
  }

  /** Position `i` holds the first entry of `ps` that permits the tool. */
  ghost predicate FirstPermitting(ps: seq<PolicyEntry>, groups: seq<string>, name: string, i: nat) {
    && i < |ps| && EntryPermits(ps[i], groups, name)
    && forall j | 0 <= j < i :: !EntryPermits(ps[j], groups, name)
  }

  /** Position `k` holds the first pattern that matches. */
  ghost predicate FirstMatching(patterns: seq<string>, name: string, k: nat) {
    && k < |patterns| && GlobMatch(patterns[k], name)
    && forall l | 0 <= l < k :: !GlobMatch(patterns[l], name)
  }

  /** `rule` names the first permitting entry and the first of its patterns that matches. */
  ghost predicate IsFirstRule(ps: seq<PolicyEntry>, groups: seq<string>, name: string, rule: string) {
    exists i: nat, k: nat ::
      && FirstPermitting(ps, groups, name, i)
      && FirstMatching(ps[i].allowed, name, k)
      && rule == RuleId(ps[i].group, ps[i].allowed[k])
  }

  method MatchesAny(name: string, patterns: seq<string>) returns (found: bool)
    ensures found <==> MatchesSome(name, patterns)
  {
    for k := 0 to |patterns|
      invariant forall l | 0 <= l < k :: !GlobMatch(patterns[l], name)
    {
      if GlobMatch(patterns[k], name) {
        return true;
      }
    }
    return false;
  }

  method FirstMatch(name: string, patterns: seq<string>) returns (found: Option<string>)
    ensures found.Some? <==> MatchesSome(name, patterns)
    ensures found.Some? ==> exists k: nat :: FirstMatching(patterns, name, k) && patterns[k] == found.value
  {
    for k := 0 to |patterns|
      invariant forall l | 0 <= l < k :: !GlobMatch(patterns[l], name)
    {
      if GlobMatch(patterns[k], name) {
        assert FirstMatching(patterns, name, k);
        return Some(patterns[k]);
      }
    }
    return None;
  }

  method DryRun(ps: seq<PolicyEntry>, routes: seq<RouteEntry>, identity: Identity, call: ToolCall)
    returns (result: DryRunResult)
    ensures result.permitted <==> Permits(ps, routes, identity.groups, ToolName(call))
    ensures !PolicyPermits(ps, identity.groups, ToolName(call)) ==>
              result == DryRunResult(false, "", "",
                "no policy permits tool \"" + ToolName(call) + "\" for the caller's groups")
    ensures PolicyPermits(ps, identity.groups, ToolName(call)) ==>
              IsFirstRule(ps, identity.groups, ToolName(call), result.matchedPolicy)
    ensures PolicyPermits(ps, identity.groups, ToolName(call)) ==> (
              match FindRoute(routes, ToolName(call))
              case Some(r) => result.matchedRoute == r.backendURI && result.denialReason == ""
              case None => result.matchedRoute == "" && result.denialReason ==
                             "no route configured for tool prefix \"" + ToolPrefix(ToolName(call)) + "\"")
  {
    var name := ToolName(call);
    var callerGroups: set<string> := {};
    for i := 0 to |identity.groups|
      invariant callerGroups == Elems(identity.groups[..i])
    {
      callerGroups := callerGroups + {identity.groups[i]};
      assert identity.groups[..i + 1] == identity.groups[..i] + [identity.groups[i]];
    }
    assert identity.groups[..|identity.groups|] == identity.groups;
    var matchedPolicy := PermittingRule(ps, identity.groups, callerGroups, name);
    if matchedPolicy.None? {
      return DryRunResult(false, "", "", "no policy permits tool \"" + name + "\" for the caller's groups");
    }
    var route := LookUpRoute(routes, ToolPrefix(name), name);
    match route
    case Some(r) =>
      return DryRunResult(true, matchedPolicy.value, r.backendURI, "");
    case None =>
      return DryRunResult(false, matchedPolicy.value, "",
        "no route configured for tool prefix \"" + ToolPrefix(name) + "\"");
  }

  /** The policy step: the rule of the first entry that permits. */
  method PermittingRule(ps: seq<PolicyEntry>, ghost groups: seq<string>, callerGroups: set<string>, name: string)
    returns (rule: Option<string>)
    requires callerGroups == Elems(groups)
    ensures rule.Some? <==> PolicyPermits(ps, groups, name)
    ensures rule.Some? ==> IsFirstRule(ps, groups, name, rule.value)
  {
    for i := 0 to |ps|
      invariant forall j | 0 <= j < i :: !EntryPermits(ps[j], groups, name)
    {
      if ps[i].group in callerGroups {
        var denied := MatchesAny(name, ps[i].denied);
        if !denied {
          var pattern := FirstMatch(name, ps[i].allowed);
          if pattern.Some? {
            assert FirstPermitting(ps, groups, name, i);
            return Some(ps[i].group + " -> " + pattern.value);
          }
        }
      }
    }
    return None;
  }

  /** The routing step: the first route with the prefix. */
  method LookUpRoute(routes: seq<RouteEntry>, prefix: string, ghost name: string) returns (found: Option<RouteEntry>)
    requires prefix == ToolPrefix(name)
    ensures found == FindRoute(routes, name)
  {
    for i := 0 to |routes|
      invariant FindRoute(routes, name) == FindRoute(routes[i..], name)
    {
      if routes[i].prefix == prefix {
        return Some(routes[i]);
      }
      assert routes[i..][1..] == routes[i + 1..];
    }
    return None;
  }

  // ---------------------------------------------------------------------
  // Properties
  // ---------------------------------------------------------------------

  /** The verdict does not depend on the order of the policies. */
  lemma VerdictIgnoresOrder(a: seq<PolicyEntry>, b: seq<PolicyEntry>, routes: seq<RouteEntry>, groups: seq<string>,
                            name: string)
    requires multiset(a) == multiset(b)
    ensures Permits(a, routes, groups, name) <==> Permits(b, routes, groups, name)
  {
    PolicyMerge.SameMembers(a, b);
  }

  /** Exactly how the two procedures differ: Rego lets any of the caller's entries deny,
      the dry run lets an entry deny only for itself. */
  lemma RegoAgainstDryRun(ps: seq<PolicyEntry>, routes: seq<RouteEntry>, input: Input)
    requires input.operation == InferOperation(input.toolName)
    ensures Allow(ps, input) && Routed(routes, ToolPrefix(input.toolName)) <==>
            Permits(ps, routes, input.groups, input.toolName) && !Denied(ps, input.groups, input.toolName)
  {
    NormalForm(ps, input);
    if Allow(ps, input) {
      var e :| e in ps && e.group in input.groups && MatchesSome(input.toolName, e.allowed);
      assert EntryPermits(e, input.groups, input.toolName);
    }
  }

  /** When Rego permits, the rule it names is the policy that the dry run reports. */
  lemma SameRuleIsNamed(ps: seq<PolicyEntry>, input: Input, rule: string, reported: string)
    requires input.operation == InferOperation(input.toolName)
    requires Decide(ps, input) == Some(Decision(true, rule, ""))
    requires IsFirstRule(ps, input.groups, input.toolName, reported)
    ensures reported == rule
  {
    NormalForm(ps, input);
    assert reported in CoveringIds(ps, input.groups, input.toolName);
  }

  /** After a merge, a caller with one matching group gets the same verdict from both. */
  lemma AgreeForOneGroup(es: seq<PolicyEntry>, routes: seq<RouteEntry>, input: Input)
    requires input.operation == InferOperation(input.toolName)
    requires forall a, b | a in PolicyMerge.Merge(es) && b in PolicyMerge.Merge(es)
                        && a.group in input.groups && b.group in input.groups :: a.group == b.group
    ensures Allow(PolicyMerge.Merge(es), input) && Routed(routes, ToolPrefix(input.toolName)) <==>
            Permits(PolicyMerge.Merge(es), routes, input.groups, input.toolName)
  {
    var ps := PolicyMerge.Merge(es);
    RegoAgainstDryRun(ps, routes, input);
    PolicyMerge.MergeKeys(es);
    forall a, b | a in ps && b in ps && a.group == b.group ensures a == b {
      PolicyMerge.SoleEntry(ps, a);
      PolicyMerge.SoleEntry(ps, b);
    }
  }

  /** With two groups the dry run can permit what Rego denies. */
  lemma DryRunMayBeLaxer(name: string)
    requires !HasMeta(name)
    ensures exists ps: seq<PolicyEntry>, routes: seq<RouteEntry> ::
              && Permits(ps, routes, ["a", "b"], name)
              && forall input: Input | input.groups == ["a", "b"] && input.toolName == name :: !Allow(ps, input)
  {
    var ps := [PolicyEntry("a", [name], []), PolicyEntry("b", [name], [name])];
    var routes := [RouteEntry(ToolPrefix(name), "", "", "")];
    LiteralMatch(name, name);
    assert ps[0].allowed[0] == name && ps[1].denied[0] == name;
    assert EntryPermits(ps[0], ["a", "b"], name);
    assert routes[0].prefix == ToolPrefix(name);
    assert Permits(ps, routes, ["a", "b"], name);
    forall input: Input | input.groups == ["a", "b"] && input.toolName == name ensures !Allow(ps, input) {
      assert ps[1] in ps && ps[1].group in input.groups && MatchesSome(name, ps[1].denied);
    }
  }

  /** On validated policies the dry run never denies for want of a route. */
  lemma NoRouteDenialIsUnreachable(ps: seq<PolicyEntry>, routes: seq<RouteEntry>, groups: seq<string>, name: string)
    requires AllRouted(ps, routes) && PlainPrefixes(routes)
    ensures Permits(ps, routes, groups, name) <==> PolicyPermits(ps, groups, name)
  {
    if PolicyPermits(ps, groups, name) {
      var e :| e in ps && EntryPermits(e, groups, name);
      var x :| x in e.allowed && GlobMatch(x, name);
      assert x in Patterns(e);
      ValidatedIsRoutable(ps, routes, e, x, name);
    }
  }
}
