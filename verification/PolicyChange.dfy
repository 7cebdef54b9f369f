/** What merging does to the decisions, and what adding a policy file can change. */
module PolicyChange {
  import opened Text
  import opened Glob
  import opened Domain
  import opened Routing
  import opened Rego
  import opened PolicyMerge
  import DryRun

  /** Merging preserves what the caller's entries cover and deny, and under which rule ids. */
  lemma MergePreservesMeaning(es: seq<PolicyEntry>, groups: seq<string>, name: string)
    ensures Denied(Merge(es), groups, name) <==> Denied(es, groups, name)
    ensures CoveringIds(Merge(es), groups, name) == CoveringIds(es, groups, name)
  {
    MergePreservesDenial(es, groups, name);
    forall id ensures id in CoveringIds(Merge(es), groups, name) <==> id in CoveringIds(es, groups, name) {
      MergePreservesRule(es, groups, name, id);
    }
  }

  lemma MergePreservesDenial(es: seq<PolicyEntry>, groups: seq<string>, name: string)
    ensures Denied(Merge(es), groups, name) <==> Denied(es, groups, name)
  {
    if Denied(Merge(es), groups, name) {
      var m :| m in Merge(es) && m.group in groups && MatchesSome(name, m.denied);
      var x :| x in m.denied && GlobMatch(x, name);
      MergeIsUnion(es, m);
      var e :| e in es && e.group == m.group && x in e.denied;
      assert MatchesSome(name, e.denied);
    }
    if Denied(es, groups, name) {
      var e :| e in es && e.group in groups && MatchesSome(name, e.denied);
      var x :| x in e.denied && GlobMatch(x, name);
      var m := MergeCovers(es, e);
      MergeIsUnion(es, m);
      assert MatchesSome(name, m.denied);
    }
  }

  lemma MergePreservesRule(es: seq<PolicyEntry>, groups: seq<string>, name: string, id: string)
    ensures id in CoveringIds(Merge(es), groups, name) <==> id in CoveringIds(es, groups, name)
  {
    if id in CoveringIds(Merge(es), groups, name) {
      var m, x :| m in Merge(es) && x in m.allowed && m.group in groups && GlobMatch(x, name)
          && id == RuleId(m.group, x);
      MergeIsUnion(es, m);
      var e :| e in es && e.group == m.group && x in e.allowed;
      assert RuleId(e.group, x) in CoveringIds(es, groups, name);
    }
    if id in CoveringIds(es, groups, name) {
      var e, x :| e in es && x in e.allowed && e.group in groups && GlobMatch(x, name) && id == RuleId(e.group, x);
      var m := MergeCovers(es, e);
      MergeIsUnion(es, m);
      assert RuleId(m.group, x) in CoveringIds(Merge(es), groups, name);
    }
  }

  /** So the merged policies and the entries they came from give every call the same Rego decision. */
  lemma MergePreservesDecision(es: seq<PolicyEntry>, input: Input)
    requires input.operation == InferOperation(input.toolName)
    ensures Allow(Merge(es), input) <==> Allow(es, input)
    ensures Decide(Merge(es), input) == Decide(es, input)
  {
    MergePreservesMeaning(es, input.groups, input.toolName);
    CoveredByIds(es, input.groups, input.toolName);
    CoveredByIds(Merge(es), input.groups, input.toolName);
    NormalForm(es, input);
    NormalForm(Merge(es), input);
    if !Allow(es, input) {
      DenialReasons(es, input);
      DenialReasons(Merge(es), input);
    }
  }

  lemma Together(a: seq<PolicyEntry>, b: seq<PolicyEntry>, groups: seq<string>, name: string)
    ensures Denied(a + b, groups, name) <==> Denied(a, groups, name) || Denied(b, groups, name)
    ensures CoveringIds(a + b, groups, name) == CoveringIds(a, groups, name) + CoveringIds(b, groups, name)
    ensures Covered(a + b, groups, name) <==> Covered(a, groups, name) || Covered(b, groups, name)
  {
  }

  /** Exactly what a new file takes away from `allow`: the tools that it denies to the caller. */
  lemma AddingAFileRevokes(a: seq<PolicyEntry>, b: seq<PolicyEntry>, input: Input)
    requires input.operation == InferOperation(input.toolName)
    requires Allow(Merge(a), input)
    ensures Allow(Merge(a + b), input) <==> !Denied(b, input.groups, input.toolName)
  {
    MergePreservesDecision(a, input);
    MergePreservesDecision(a + b, input);
    Together(a, b, input.groups, input.toolName);
    NormalForm(a, input);
    NormalForm(a + b, input);
  }

  /** A permitted call stays permitted exactly when the new file neither denies it
      nor covers it under a rule id of its own; in the second case it now fails with an evaluation error. */
  lemma AddingAFileKeepsPermit(a: seq<PolicyEntry>, b: seq<PolicyEntry>, input: Input, rule: string)
    requires input.operation == InferOperation(input.toolName)
    requires Decide(Merge(a), input) == Some(Decision(true, rule, ""))
    ensures Decide(Merge(a + b), input) == Some(Decision(true, rule, "")) <==>
            !Denied(b, input.groups, input.toolName) && CoveringIds(b, input.groups, input.toolName) <= {rule}
    ensures Decide(Merge(a + b), input).None? <==>
            !Denied(b, input.groups, input.toolName) && !(CoveringIds(b, input.groups, input.toolName) <= {rule})
  {
    MergePreservesDecision(a, input);
    MergePreservesDecision(a + b, input);
    Together(a, b, input.groups, input.toolName);
    NormalForm(a, input);
    NormalForm(a + b, input);
    OneRuleAndMore(rule, CoveringIds(b, input.groups, input.toolName));
  }

  lemma OneRuleAndMore(rule: string, more: set<string>)
    ensures {rule} + more == {rule} <==> more <= {rule}
    ensures (exists x, y :: x in {rule} + more && y in {rule} + more && x != y) <==> !(more <= {rule})
  {
    if other :| other in more && other != rule {
      assert rule in {rule} + more && other in {rule} + more;
    }
  }

  /** README.md promises that adding a file only expands permissions. Any caller with a group and any
      wildcard-free tool show otherwise: one added entry with that tool in its denied list revokes it. With plain route
      prefixes the loader accepts that entry wherever it accepts the policies that permit the call. */
  lemma AddedFileCanRevoke(a: seq<PolicyEntry>, routes: seq<RouteEntry>, input: Input)
    requires input.operation == InferOperation(input.toolName)
    requires Allow(Merge(a), input) && !HasMeta(input.toolName)
    ensures exists e: PolicyEntry ::
              && e.allowed != [] && !Allow(Merge(a + [e]), input)
              && (AllRouted(Merge(a), routes) && PlainPrefixes(routes) ==> AllRouted(Merge(a + [e]), routes))
  {
    NormalForm(Merge(a), input);
    var g :| g in input.groups;
    var e := PolicyEntry(g, [input.toolName], [input.toolName]);
    LiteralMatch(input.toolName, input.toolName);
    assert input.toolName in e.denied && MatchesSome(input.toolName, e.denied);
    assert e in [e] && Denied([e], input.groups, input.toolName);
    AddingAFileRevokes(a, [e], input);
    if AllRouted(Merge(a), routes) && PlainPrefixes(routes) {
      AllowedIsRouted(Merge(a), routes, input);
      AddingRoutedStaysRouted(a, e, routes);
    }
  }

  lemma AllowedIsRouted(ps: seq<PolicyEntry>, routes: seq<RouteEntry>, input: Input)
    requires AllRouted(ps, routes) && PlainPrefixes(routes) && Allow(ps, input)
    ensures Routed(routes, ToolPrefix(input.toolName))
  {
    var m :| m in ps && m.group in input.groups && MatchesSome(input.toolName, m.allowed);
    var x :| x in m.allowed && GlobMatch(x, input.toolName);
    assert x in Patterns(m);
    ValidatedIsRoutable(ps, routes, m, x, input.toolName);
  }

  /** The merged policies are routed exactly when the entries that they come from are. */
  lemma MergeIsRoutedIff(es: seq<PolicyEntry>, routes: seq<RouteEntry>)
    ensures AllRouted(Merge(es), routes) <==> AllRouted(es, routes)
  {
    if AllRouted(es, routes) {
      forall m | m in Merge(es) ensures forall x | x in Patterns(m) :: Routed(routes, ToolPrefix(x)) {
        forall x | x in Patterns(m) ensures Routed(routes, ToolPrefix(x)) {
          var e := OriginOf(es, m, x);
        }
      }
    }
    if AllRouted(Merge(es), routes) {
      forall e | e in es ensures forall x | x in Patterns(e) :: Routed(routes, ToolPrefix(x)) {
        var m := MergeCovers(es, e);
        MergeIsUnion(es, m);
        assert forall x | x in Patterns(e) :: x in Patterns(m);
      }
    }
  }

  lemma OriginOf(es: seq<PolicyEntry>, m: PolicyEntry, x: string) returns (e: PolicyEntry)
    requires m in Merge(es) && x in Patterns(m)
    ensures e in es && x in Patterns(e)
  {
    MergeIsUnion(es, m);
    if x in m.allowed {
      e :| e in es && e.group == m.group && x in e.allowed;
    } else {
      e :| e in es && e.group == m.group && x in e.denied;
    }
  }

  lemma AddingRoutedStaysRouted(a: seq<PolicyEntry>, e: PolicyEntry, routes: seq<RouteEntry>)
    requires AllRouted(Merge(a), routes)
    requires forall x | x in Patterns(e) :: Routed(routes, ToolPrefix(x))
    ensures AllRouted(Merge(a + [e]), routes)
  {
    MergeIsRoutedIff(a, routes);
    MergeIsRoutedIff(a + [e], routes);
  }

  // ---------------------------------------------------------------------
  // The dry run
  // ---------------------------------------------------------------------

  predicate GroupCovers(es: seq<PolicyEntry>, g: string, name: string) {
    exists e | e in es :: e.group == g && MatchesSome(name, e.allowed)
  }

  predicate GroupDenies(es: seq<PolicyEntry>, g: string, name: string) {
    exists e | e in es :: e.group == g && MatchesSome(name, e.denied)
  }

  /** What the entries of one group, taken together, say to the dry run. */
  predicate GroupPermits(es: seq<PolicyEntry>, g: string, name: string) {
    GroupCovers(es, g, name) && !GroupDenies(es, g, name)
  }

  lemma MergedEntryOfGroup(es: seq<PolicyEntry>, m: PolicyEntry, name: string)
    requires m in Merge(es)
    ensures MatchesSome(name, m.allowed) <==> GroupCovers(es, m.group, name)
    ensures MatchesSome(name, m.denied) <==> GroupDenies(es, m.group, name)
  {
    MergeIsUnion(es, m);
    if x :| x in m.allowed && GlobMatch(x, name) {
      var e :| e in es && e.group == m.group && x in e.allowed;
      assert MatchesSome(name, e.allowed);
    }
    if x :| x in m.denied && GlobMatch(x, name) {
      var e :| e in es && e.group == m.group && x in e.denied;
      assert MatchesSome(name, e.denied);
    }
  }

  /** After the merge the dry run permits exactly what the entries of some one of the caller's groups, taken
      together, cover and do not deny. */
  lemma DryRunAfterMerge(es: seq<PolicyEntry>, groups: seq<string>, name: string)
    ensures DryRun.PolicyPermits(Merge(es), groups, name) <==> exists g | g in groups :: GroupPermits(es, g, name)
  {
    if DryRun.PolicyPermits(Merge(es), groups, name) {
      var m :| m in Merge(es) && DryRun.EntryPermits(m, groups, name);
      MergedEntryOfGroup(es, m, name);
      assert m.group in groups && GroupPermits(es, m.group, name);
    }
    if g :| g in groups && GroupPermits(es, g, name) {
      var e :| e in es && e.group == g && MatchesSome(name, e.allowed);
      var m := MergeCovers(es, e);
      MergedEntryOfGroup(es, m, name);
      assert DryRun.EntryPermits(m, groups, name);
    }
  }

  /** Exactly when an added file leaves the dry run's permit standing: some group of the caller permits the tool
      by the old entries and is not denied it by the new ones, or the other way round. */
  lemma DryRunKeepsPermitIff(a: seq<PolicyEntry>, b: seq<PolicyEntry>, groups: seq<string>, name: string)
    ensures DryRun.PolicyPermits(Merge(a + b), groups, name) <==>
            exists g | g in groups ::
              || (GroupPermits(a, g, name) && !GroupDenies(b, g, name))
              || (GroupPermits(b, g, name) && !GroupDenies(a, g, name))
  {
    DryRunAfterMerge(a + b, groups, name);
    forall g ensures GroupPermits(a + b, g, name) <==>
                     || (GroupPermits(a, g, name) && !GroupDenies(b, g, name))
                     || (GroupPermits(b, g, name) && !GroupDenies(a, g, name))
    {
      assert GroupCovers(a + b, g, name) <==> GroupCovers(a, g, name) || GroupCovers(b, g, name);
      assert GroupDenies(a + b, g, name) <==> GroupDenies(a, g, name) || GroupDenies(b, g, name);
    }
  }

  /** So a file that denies the tool to none of the caller's groups never takes the permit away. */
  lemma DryRunLosesOnlyDenied(a: seq<PolicyEntry>, b: seq<PolicyEntry>, groups: seq<string>, name: string)
    requires DryRun.PolicyPermits(Merge(a), groups, name)
    requires !Denied(b, groups, name)
    ensures DryRun.PolicyPermits(Merge(a + b), groups, name)
  {
    DryRunAfterMerge(a, groups, name);
    var g :| g in groups && GroupPermits(a, g, name);
    assert !GroupDenies(b, g, name);
    DryRunKeepsPermitIff(a, b, groups, name);
  }
}
