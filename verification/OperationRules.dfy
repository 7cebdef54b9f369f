/** What the design promises about operations: read-only callers never write, unknown operations are denied. The rules
    promise neither; here is what some valid policies permit, and which policies keep the promises. */
module OperationRules {
  import opened Text
  import opened Glob
  import opened Domain
  import opened Routing
  import opened Rego
  import opened PolicyAdapter
  import opened PatternSearch

  // ---------------------------------------------------------------------
  // What valid policies can permit
  // ---------------------------------------------------------------------

  /** Some policies that pass the route check permit `name` to this caller, under a rule that names it. */
  ghost predicate Permittable(routes: seq<RouteEntry>, caller: Identity, name: string) {
    exists ps, rule :: AllRouted(ps, routes) && PolicyAnswer(ps, caller, name) == Some(Decision(true, rule, ""))
  }

  /** Whatever its operation, a routed name without wildcards can be permitted to every caller with a group. */
  lemma RoutedLiteralIsPermittable(routes: seq<RouteEntry>, caller: Identity, group: string, name: string)
    requires group in caller.groups && !HasMeta(name) && Routed(routes, ToolPrefix(name))
    ensures Permittable(routes, caller, name)
  {
    var e := PolicyEntry(group, [name], []);
    var input := InputFor([e], caller, name);
    InferredIsAcceptable(input);
    LiteralEntryAllows(input, group);
    OnlyCoveredBy(e, caller.groups, name);
    NormalForm([e], input);
    assert PolicyAnswer([e], caller, name) == Some(Decision(true, RuleId(group, name), ""));
    assert AllRouted([e], routes);
  }

  lemma OnlyCoveredBy(e: PolicyEntry, groups: seq<string>, name: string)
    requires e.allowed == [name] && e.group in groups && !HasMeta(name)
    ensures CoveringIds([e], groups, name) == {RuleId(e.group, name)}
  {
    LiteralMatch(name, name);
    assert e in [e] && name in e.allowed;
    assert RuleId(e.group, name) in CoveringIds([e], groups, name);
  }

  lemma JoinIsPlain(p: string, t: string)
    requires !HasMeta(p) && !HasMeta(t)
    ensures !HasMeta(p + t)
  {
    var q := p + t;
    forall i | 0 <= i < |q| ensures !IsMeta(q[i]) {
      assert q[i] == if i < |p| then p[i] else t[i - |p|];
    }
  }

  lemma QualifiedIsPermittable(routes: seq<RouteEntry>, caller: Identity, group: string, p: string, t: string)
    requires group in caller.groups && Routed(routes, p) && '/' !in p && !HasMeta(p) && !HasMeta(t)
    ensures Permittable(routes, caller, p + "/" + t)
  {
    JoinIsPlain(p, "/");
    JoinIsPlain(p + "/", t);
    QualifiedName(p, t);
    RoutedLiteralIsPermittable(routes, caller, group, p + "/" + t);
  }

  lemma VerbToolIsPermittable(routes: seq<RouteEntry>, caller: Identity, group: string, p: string, verb: string,
                              rest: string)
    requires group in caller.groups && Routed(routes, p) && '/' !in p && !HasMeta(p) && !HasMeta(verb) && !HasMeta(rest)
    ensures Permittable(routes, caller, p + "/" + (verb + rest))
  {
    JoinIsPlain(verb, rest);
    QualifiedIsPermittable(routes, caller, group, p, verb + rest);
  }

  lemma DeleteIsPlain()
    ensures !HasMeta("delete-")
  {
  }

  /** Every configured backend's delete tools can be permitted to callers who are only in "read-only". */
  lemma ReadOnlyCanDelete(routes: seq<RouteEntry>, caller: Identity, p: string, rest: string)
    requires caller.groups == ["read-only"]
    requires Routed(routes, p) && '/' !in p && !HasMeta(p) && !HasMeta(rest)
    ensures InferOperation(p + "/" + ("delete-" + rest)) == "delete"
    ensures Permittable(routes, caller, p + "/" + ("delete-" + rest))
  {
    DeleteTools(p, rest);
    DeleteIsPlain();
    VerbToolIsPermittable(routes, caller, caller.groups[0], p, "delete-", rest);
  }

  /** Every configured backend's tools of unknown operation can be permitted. */
  lemma UnknownOperationCanBePermitted(routes: seq<RouteEntry>, caller: Identity, group: string, p: string, t: string)
    requires group in caller.groups && Routed(routes, p) && '/' !in p && !HasMeta(p)
    requires '-' !in t && '_' !in t && !HasMeta(t)
    ensures InferOperation(p + "/" + t) == ""
    ensures Permittable(routes, caller, p + "/" + t)
  {
    VerblessTools(p, t);
    QualifiedIsPermittable(routes, caller, group, p, t);
  }

  // ---------------------------------------------------------------------
  // Which policies keep operations out
  // ---------------------------------------------------------------------

  /** No tool whose name is classified as one of `ops` is allowed to callers in these groups. */
  ghost predicate KeepsOut(ps: seq<PolicyEntry>, caller: Identity, ops: set<string>) {
    forall name | InferOperation(name) in ops :: !Allow(ps, InputFor(ps, caller, name))
  }

  ghost predicate AllowsPattern(ps: seq<PolicyEntry>, groups: seq<string>, x: string) {
    exists e | e in ps :: e.group in groups && x in e.allowed
  }

  lemma AllowedIffPattern(ps: seq<PolicyEntry>, caller: Identity, name: string)
    ensures Allow(ps, InputFor(ps, caller, name)) <==>
            (exists x :: AllowsPattern(ps, caller.groups, x) && GlobMatch(x, name)) && !Denied(ps, caller.groups, name)
  {
    NormalForm(ps, InputFor(ps, caller, name));
    if Covered(ps, caller.groups, name) {
      var e :| e in ps && e.group in caller.groups && MatchesSome(name, e.allowed);
      var x :| x in e.allowed && GlobMatch(x, name);
      assert AllowsPattern(ps, caller.groups, x);
    }
    if x :| AllowsPattern(ps, caller.groups, x) && GlobMatch(x, name) {
      var e :| e in ps && e.group in caller.groups && x in e.allowed;
      assert MatchesSome(name, e.allowed);
    }
  }

  /** Where the caller's allowed patterns hold no wildcards, operations are kept out exactly when every allowed name
      of such an operation is denied, by whatever pattern. */
  lemma LiteralsKeepOutIff(ps: seq<PolicyEntry>, caller: Identity, ops: set<string>)
    requires forall x | AllowsPattern(ps, caller.groups, x) :: !HasMeta(x)
    ensures KeepsOut(ps, caller, ops) <==>
            forall x | AllowsPattern(ps, caller.groups, x) && InferOperation(x) in ops :: Denied(ps, caller.groups, x)
  {
    forall x | AllowsPattern(ps, caller.groups, x) && InferOperation(x) in ops
      ensures Denied(ps, caller.groups, x) <==> !Allow(ps, InputFor(ps, caller, x))
    {
      LiteralMatch(x, x);
      AllowedIffPattern(ps, caller, x);
    }
    forall name | InferOperation(name) in ops && Allow(ps, InputFor(ps, caller, name))
      ensures AllowsPattern(ps, caller.groups, name)
    {
      AllowedIffPattern(ps, caller, name);
      var x :| AllowsPattern(ps, caller.groups, x) && GlobMatch(x, name);
      LiteralMatch(x, name);
    }
  }

  // ---------------------------------------------------------------------
  // All policies
  // ---------------------------------------------------------------------

  function AllowedPatterns(ps: seq<PolicyEntry>, groups: seq<string>): set<string> {
    set e, x | e in ps && x in e.allowed && e.group in groups :: x
  }

  function DeniedPatterns(ps: seq<PolicyEntry>, groups: seq<string>): set<string> {
    set e, x | e in ps && x in e.denied && e.group in groups :: x
  }

  lemma DeniedIffPattern(ps: seq<PolicyEntry>, groups: seq<string>, name: string)
    ensures Denied(ps, groups, name) <==> Matches(DeniedPatterns(ps, groups), name)
  {
    if Denied(ps, groups, name) {
      var e :| e in ps && e.group in groups && MatchesSome(name, e.denied);
      var x :| x in e.denied && GlobMatch(x, name);
      assert x in DeniedPatterns(ps, groups);
    }
    if x :| x in DeniedPatterns(ps, groups) && GlobMatch(x, name) {
      var e :| e in ps && e.group in groups && x in e.denied;
      assert MatchesSome(name, e.denied);
    }
  }

  lemma AllowsPatternIff(ps: seq<PolicyEntry>, groups: seq<string>, x: string)
    ensures AllowsPattern(ps, groups, x) <==> x in AllowedPatterns(ps, groups)
  {
  }

  lemma AllowedIffEscapes(ps: seq<PolicyEntry>, caller: Identity, ops: set<string>, name: string)
    ensures InferOperation(name) in ops && Allow(ps, InputFor(ps, caller, name)) <==>
            Escapes(AllowedPatterns(ps, caller.groups), DeniedPatterns(ps, caller.groups), ops, name)
  {
    AllowedIffPattern(ps, caller, name);
    DeniedIffPattern(ps, caller.groups, name);
    forall x ensures AllowsPattern(ps, caller.groups, x) <==> x in AllowedPatterns(ps, caller.groups) {
      AllowsPatternIff(ps, caller.groups, x);
    }
  }

  /** For all policies, whatever they allow and deny, and for all operations: tools of these operations are kept from a
      caller exactly when the walk over the caller's allowed and denied patterns finds no name. */
  lemma KeepsOutIff(ps: seq<PolicyEntry>, caller: Identity, ops: set<string>)
    ensures KeepsOut(ps, caller, ops) <==>
            !CanEscape(AllowedPatterns(ps, caller.groups), DeniedPatterns(ps, caller.groups), ops)
  {
    CanEscapeIff(AllowedPatterns(ps, caller.groups), DeniedPatterns(ps, caller.groups), ops);
    forall name ensures InferOperation(name) in ops && Allow(ps, InputFor(ps, caller, name)) <==>
                        Escapes(AllowedPatterns(ps, caller.groups), DeniedPatterns(ps, caller.groups), ops, name)
    {
      AllowedIffEscapes(ps, caller, ops, name);
    }
  }

  /** A pattern with a literal dash matches no name without one. So denials that are all written with dashes never reach
      a tool that is spelled with underscores, although it is classified alike. */
  lemma DashedDenialsMissUnderscores(ps: seq<PolicyEntry>, caller: Identity, x: string, name: string)
    requires forall d | d in DeniedPatterns(ps, caller.groups) :: '-' in d
    requires AllowsPattern(ps, caller.groups, x) && GlobMatch(x, name) && '-' !in name
    ensures Allow(ps, InputFor(ps, caller, name))
  {
    AllowedIffPattern(ps, caller, name);
    DeniedIffPattern(ps, caller.groups, name);
    if d :| d in DeniedPatterns(ps, caller.groups) && GlobMatch(d, name) {
      LiteralIsInMatch(d, name, '-');
    }
  }

  lemma {:induction false} LiteralIsInMatch(p: string, s: string, c: char)
    requires GlobMatch(p, s) && c in p && !IsMeta(c)
    ensures c in s
    decreases |p| + |s|
  {
    if p[0] == c {
    } else if p[0] == '*' {
      assert c in p[1..];
      if GlobMatch(p[1..], s) {
        LiteralIsInMatch(p[1..], s, c);
      } else {
        LiteralIsInMatch(p, s[1..], c);
      }
    } else {
      assert c in p[1..];
      LiteralIsInMatch(p[1..], s[1..], c);
    }
  }

  lemma DashedAlike(u: string, v: string, rest: string)
    requires Dashed(u) == v
    ensures HasPrefix(Dashed(u + rest), v)
  {
    forall i | 0 <= i < |v| ensures Dashed(u + rest)[i] == v[i] {
      assert (u + rest)[i] == u[i];
    }
  }

  lemma UnderscoredVerb()
    ensures Dashed("delete_") == DELETE_PREFIXES[0]
  {
    var u, v := "delete_", DELETE_PREFIXES[0];
    assert |u| == |v| && forall i | 0 <= i < |u| :: v[i] == if u[i] == '_' then '-' else u[i];
  }

  /** Such a spelling is classified as delete. */
  lemma UnderscoredDelete(p: string, rest: string)
    requires '/' !in p
    ensures InferOperation(p + "/" + ("delete_" + rest)) == "delete"
  {
    UnderscoredVerb();
    NormalisedQualified(p, "delete_" + rest);
    DashedAlike("delete_", DELETE_PREFIXES[0], rest);
    DeleteVerbDecides(p + "/" + ("delete_" + rest), DELETE_PREFIXES[0]);
  }

  // ---------------------------------------------------------------------
  // Simple conditions: no pattern that could match at all
  // ---------------------------------------------------------------------

  ghost predicate DeniesNothing(ps: seq<PolicyEntry>, groups: seq<string>) {
    forall e | e in ps && e.group in groups :: e.denied == []
  }

  /** Some name that the pattern matches is classified as one of `ops`. */
  ghost predicate MayBe(x: string, ops: set<string>) {
    exists name :: GlobMatch(x, name) && InferOperation(name) in ops
  }

  lemma KeepsOutIffNoMatch(ps: seq<PolicyEntry>, caller: Identity, ops: set<string>)
    requires DeniesNothing(ps, caller.groups)
    ensures KeepsOut(ps, caller, ops) <==> forall x | AllowsPattern(ps, caller.groups, x) :: !MayBe(x, ops)
  {
    forall name ensures !Denied(ps, caller.groups, name) {
      assert forall e | e in ps && e.group in caller.groups :: !MatchesSome(name, e.denied);
    }
    forall name
      ensures Allow(ps, InputFor(ps, caller, name)) <==>
              exists x :: AllowsPattern(ps, caller.groups, x) && GlobMatch(x, name)
    {
      AllowedIffPattern(ps, caller, name);
    }
    if x :| AllowsPattern(ps, caller.groups, x) && MayBe(x, ops) {
      var name :| GlobMatch(x, name) && InferOperation(name) in ops;
      assert !KeepsOut(ps, caller, ops);
    }
  }

  /** The part of a name or pattern that is the tool's own: after the first "/", or all of it. */
  function OwnPart(s: string): string {
    match AfterPrefix(s)
    case None => s
    case Some(rest) => rest
  }

  lemma NormalisedIsOwnPart(name: string)
    ensures Normalised(name) == Dashed(OwnPart(name))
  {
  }

  lemma NoSlashInPrefix(s: string)
    ensures '/' !in ToolPrefix(s)
  {
  }

  lemma SlashFreeInstance(p: string)
    requires '/' !in p
    ensures '/' !in Instance(p)
  {
    if p == [] {
    } else {
      assert p[0] in p && forall c | c in p[1..] :: c in p;
      SlashFreeInstance(p[1..]);
    }
  }

  lemma WholeIsPrefix(s: string)
    requires '/' !in s
    ensures ToolPrefix(s) == s && AfterPrefix(s) == None
  {
  }

  lemma OwnPartOfJoin(a: string, s: string)
    requires '/' !in a
    ensures ToolPrefix(a + "/" + s) == a && AfterPrefix(a + "/" + s) == Some(s)
  {
    var name := a + "/" + s;
    assert name[..|a|] == a;
    IndexOfIs(name, '/', |a|);
    assert name[|a| + 1..] == s;
  }

  /** The own parts of the names that a pattern matches are exactly the strings that its own part matches. */
  lemma MatchedOwnParts(x: string, s: string)
    ensures GlobMatch(OwnPart(x), s) && (AfterPrefix(x).None? ==> '/' !in s) ==>
              exists name :: GlobMatch(x, name) && OwnPart(name) == s
    ensures forall name | GlobMatch(x, name) :: GlobMatch(OwnPart(x), OwnPart(name))
  {
    if GlobMatch(OwnPart(x), s) && (AfterPrefix(x).None? ==> '/' !in s) {
      if AfterPrefix(x).None? {
        WholeIsPrefix(s);
        assert GlobMatch(x, s) && OwnPart(s) == s;
      } else {
        var a := Instance(ToolPrefix(x));
        NoSlashInPrefix(x);
        SlashFreeInstance(ToolPrefix(x));
        InstanceMatches(ToolPrefix(x));
        OwnPartOfJoin(a, s);
        MatchBySegments(x, a + "/" + s);
        assert GlobMatch(x, a + "/" + s) && OwnPart(a + "/" + s) == s;
      }
    }
    forall name | GlobMatch(x, name) ensures GlobMatch(OwnPart(x), OwnPart(name)) {
      MatchBySegments(x, name);
    }
  }

  lemma SlashFreePatternsMatchSlashFree(x: string, s: string)
    requires AfterPrefix(x).None? && GlobMatch(x, s)
    ensures '/' !in s
  {
    MatchBySegments(x, s);
  }

  /** A name that `x` matches, with a given own part that its own part matches. */
  lemma MatchedBySome(x: string, s: string) returns (name: string)
    requires GlobMatch(OwnPart(x), s)
    ensures GlobMatch(x, name) && OwnPart(name) == s
  {
    if AfterPrefix(x).None? {
      SlashFreePatternsMatchSlashFree(x, s);
    }
    MatchedOwnParts(x, s);
    name :| GlobMatch(x, name) && OwnPart(name) == s;
  }

  // Write and delete

  predicate PlainVerb(v: string) {
    forall c | c in v :: c != '/' && c != '_'
  }

  /** Whether some string that `p` matches starts, dashes for underscores, with `v`. */
  predicate Admits(p: string, v: string)
    decreases |p| + |v|
  {
    if v == [] then true
    else if p == [] then false
    else if p[0] == '*' then Admits(p[1..], v) || Admits(p, v[1..])
    else if p[0] == '?' then Admits(p[1..], v[1..])
    else (if p[0] == '_' then '-' else p[0]) == v[0] && Admits(p[1..], v[1..])
  }

  lemma DashedTail(s: string)
    requires s != []
    ensures Dashed(s)[1..] == Dashed(s[1..]) && Dashed(s)[0] == if s[0] == '_' then '-' else s[0]
  {
  }

  lemma {:induction false} AdmitsIfMatched(p: string, v: string, s: string)
    requires GlobMatch(p, s) && HasPrefix(Dashed(s), v)
    ensures Admits(p, v)
    decreases |p| + |s|
  {
    if v == [] {
    } else {
      DashedTail(s);
      assert Dashed(s[1..])[..|v| - 1] == v[1..];
      if p[0] == '*' {
        if GlobMatch(p[1..], s) {
          AdmitsIfMatched(p[1..], v, s);
        } else {
          AdmitsIfMatched(p, v[1..], s[1..]);
        }
      } else {
        AdmitsIfMatched(p[1..], v[1..], s[1..]);
      }
    }
  }

  lemma {:induction false} MatchedIfAdmits(p: string, v: string) returns (s: string)
    requires Admits(p, v) && PlainVerb(v)
    ensures GlobMatch(p, s) && HasPrefix(Dashed(s), v)
    decreases |p| + |v|
  {
    if v == [] {
      InstanceMatches(p);
      s := Instance(p);
    } else if p[0] == '*' && Admits(p[1..], v) {
      s := MatchedIfAdmits(p[1..], v);
    } else {
      assert v[0] in v && forall c | c in v[1..] :: c in v;
      var rest := MatchedIfAdmits(if p[0] == '*' then p else p[1..], v[1..]);
      var c := if p[0] == '*' || p[0] == '?' then v[0] else p[0];
      s := [c] + rest;
      StartsWithBoth(c, rest, v);
      assert s[1..] == rest;
    }
  }

  lemma StartsWithBoth(c: char, rest: string, v: string)
    requires v != [] && HasPrefix(Dashed(rest), v[1..])
    requires (if c == '_' then '-' else c) == v[0]
    ensures HasPrefix(Dashed([c] + rest), v)
  {
    var s := [c] + rest;
    assert s[1..] == rest;
    DashedTail(s);
    var d := Dashed(s);
    assert d == [d[0]] + d[1..];
    assert d[..|v|] == [d[0]] + d[1..][..|v| - 1];
    assert v == [v[0]] + v[1..];
  }

  predicate AdmitsSome(p: string, verbs: seq<string>) {
    exists v | v in verbs :: Admits(p, v)
  }

  const CHANGING := WRITE_PREFIXES + DELETE_PREFIXES

  lemma ChangingOperation(name: string)
    ensures InferOperation(name) in {"write", "delete"} <==> StartsWithSome(Normalised(name), CHANGING)
  {
    var s := Normalised(name);
    ClassifiedByVerb(name);
    WriteVerbs();
    DeleteVerbs();
    VerbDecidesList(s, WRITE_PREFIXES);
    VerbDecidesList(s, DELETE_PREFIXES);
    assert forall p :: p in CHANGING <==> p in WRITE_PREFIXES || p in DELETE_PREFIXES;
  }

  lemma PlainVerbs()
    ensures forall v | v in WRITE_PREFIXES || v in DELETE_PREFIXES :: PlainVerb(v)
  {
  }

  /** A pattern matches a write or delete tool exactly when its own part admits a write or delete verb. */
  lemma MayChangeIffAdmits(x: string)
    ensures MayBe(x, {"write", "delete"}) <==> AdmitsSome(OwnPart(x), CHANGING)
  {
    if MayBe(x, {"write", "delete"}) {
      var name :| GlobMatch(x, name) && InferOperation(name) in {"write", "delete"};
      ChangingOperation(name);
      NormalisedIsOwnPart(name);
      var v :| v in CHANGING && HasPrefix(Normalised(name), v);
      MatchedOwnParts(x, "");
      AdmitsIfMatched(OwnPart(x), v, OwnPart(name));
    }
    if v :| v in CHANGING && Admits(OwnPart(x), v) {
      PlainVerbs();
      var s := MatchedIfAdmits(OwnPart(x), v);
      var name := MatchedBySome(x, s);
      NormalisedIsOwnPart(name);
      ChangingOperation(name);
    }
  }

  lemma NoMatchKeepsOut(ps: seq<PolicyEntry>, caller: Identity, ops: set<string>)
    requires forall x | AllowsPattern(ps, caller.groups, x) :: !MayBe(x, ops)
    ensures KeepsOut(ps, caller, ops)
  {
    forall name | InferOperation(name) in ops ensures !Allow(ps, InputFor(ps, caller, name)) {
      AllowedIffPattern(ps, caller, name);
    }
  }

  /** A simple condition, for all policies: write and delete tools are kept from a caller if no pattern that is
      allowed to that caller admits a write or delete verb; and, where nothing is denied, only if. */
  lemma KeepsChangesOut(ps: seq<PolicyEntry>, caller: Identity)
    ensures (forall x | AllowsPattern(ps, caller.groups, x) :: !AdmitsSome(OwnPart(x), CHANGING)) ==>
              KeepsOut(ps, caller, {"write", "delete"})
    ensures DeniesNothing(ps, caller.groups) && KeepsOut(ps, caller, {"write", "delete"}) ==>
              forall x | AllowsPattern(ps, caller.groups, x) :: !AdmitsSome(OwnPart(x), CHANGING)
  {
    forall x ensures MayBe(x, {"write", "delete"}) <==> AdmitsSome(OwnPart(x), CHANGING) {
      MayChangeIffAdmits(x);
    }
    if forall x | AllowsPattern(ps, caller.groups, x) :: !AdmitsSome(OwnPart(x), CHANGING) {
      NoMatchKeepsOut(ps, caller, {"write", "delete"});
    }
    if DeniesNothing(ps, caller.groups) {
      KeepsOutIffNoMatch(ps, caller, {"write", "delete"});
    }
  }

  // Unknown operations

  /** The part of a pattern before its first wildcard. */
  function LiteralHead(p: string): (h: string)
    ensures |h| <= |p| && h == p[..|h|] && !HasMeta(h)
    ensures |h| == |p| || IsMeta(p[|h|])
  {
    if p == [] || IsMeta(p[0]) then []
    else
      var h := [p[0]] + LiteralHead(p[1..]);
      assert forall i | 1 <= i < |h| :: h[i] == LiteralHead(p[1..])[i - 1];
      h
  }

  lemma UnknownOperation(name: string)
    ensures InferOperation(name) == "" <==> !StartsWithSome(Normalised(name), KNOWN)
  {
    var s := Normalised(name);
    ClassifiedByVerb(name);
    ReadVerbs();
    WriteVerbs();
    DeleteVerbs();
    VerbDecidesList(s, READ_PREFIXES);
    VerbDecidesList(s, WRITE_PREFIXES);
    VerbDecidesList(s, DELETE_PREFIXES);
    assert forall p :: p in KNOWN <==> p in READ_PREFIXES || p in WRITE_PREFIXES || p in DELETE_PREFIXES;
  }

  /** Every string that a pattern matches starts with the pattern's literal head. */
  lemma {:induction false} MatchesStartWithHead(p: string, s: string)
    requires GlobMatch(p, s)
    ensures HasPrefix(s, LiteralHead(p))
  {
    if p == [] || IsMeta(p[0]) {
    } else {
      MatchesStartWithHead(p[1..], s[1..]);
      assert s == [s[0]] + s[1..];
    }
  }

  lemma {:induction false} DashedHead(s: string, n: nat)
    requires n <= |s|
    ensures Dashed(s)[..n] == Dashed(s[..n])
  {
    if n == 0 {
    } else {
      assert s[..n][1..] == s[1..][..n - 1];
      DashedHead(s[1..], n - 1);
      assert Dashed(s)[..n] == [Dashed(s)[0]] + Dashed(s)[1..][..n - 1];
    }
  }

  /** A match that follows the head with a letter of no verb, if a wildcard lets it. */
  function Odd(p: string): (s: string) {
    var n := |LiteralHead(p)|;
    if n == |p| then p else p[..n] + ['Z'] + Instance(p[n + 1..])
  }

  lemma TailIsPlain(h: string)
    requires h != [] && !HasMeta(h)
    ensures !HasMeta(h[1..]) && !IsMeta(h[0])
  {
    assert forall i | 0 <= i < |h| - 1 :: h[1..][i] == h[i + 1];
  }

  lemma {:induction false} HeadThen(p: string, n: nat, s: string)
    requires n <= |p| && !HasMeta(p[..n]) && GlobMatch(p[n..], s)
    ensures GlobMatch(p, p[..n] + s)
  {
    if n == 0 {
      assert p[0..] == p && p[..0] + s == s;
    } else {
      assert p[1..][..n - 1] == p[..n][1..] && p[1..][n - 1..] == p[n..];
      TailIsPlain(p[..n]);
      HeadThen(p[1..], n - 1, s);
      assert p[..n] + s == [p[0]] + (p[1..][..n - 1] + s);
    }
  }

  lemma WildcardTakes(p: string, c: char, s: string)
    requires p != [] && IsMeta(p[0]) && c != '/' && GlobMatch(p[1..], s)
    ensures GlobMatch(p, [c] + s)
  {
    assert ([c] + s)[1..] == s;
  }

  lemma OddMatches(p: string)
    ensures GlobMatch(p, Odd(p))
  {
    var n := |LiteralHead(p)|;
    if n == |p| {
      assert LiteralHead(p) == p;
      LiteralMatch(p, p);
    } else {
      var rest := Instance(p[n + 1..]);
      InstanceMatches(p[n + 1..]);
      assert p[n..][1..] == p[n + 1..];
      WildcardTakes(p[n..], 'Z', rest);
      HeadThen(p, n, ['Z'] + rest);
      assert p[..n] + (['Z'] + rest) == Odd(p);
    }
  }

  lemma NoVerbHasZ()
    ensures forall v | v in KNOWN :: 'Z' !in v
  {
    assert forall v | v in KNOWN :: v in READ_PREFIXES || v in WRITE_PREFIXES || v in DELETE_PREFIXES;
    assert forall v | v in READ_PREFIXES :: 'Z' !in v;
    assert forall v | v in WRITE_PREFIXES :: 'Z' !in v;
    assert forall v | v in DELETE_PREFIXES :: 'Z' !in v;
  }

  lemma LongVerbHasZ(p: string, v: string)
    requires HasPrefix(Dashed(Odd(p)), v) && |LiteralHead(p)| < |v|
    ensures 'Z' in v
  {
    var n := |LiteralHead(p)|;
    assert Odd(p)[n] == 'Z';
    assert v[n] == Dashed(Odd(p))[n];
  }

  /** So its verb, if it has a known one, is already in the head. */
  lemma OddVerbIsInHead(p: string, v: string)
    requires 'Z' !in v && HasPrefix(Dashed(Odd(p)), v)
    ensures HasPrefix(Dashed(LiteralHead(p)), v)
  {
    var h, s := LiteralHead(p), Odd(p);
    assert s[..|h|] == h;
    DashedHead(s, |h|);
    if |h| < |v| {
      LongVerbHasZ(p, v);
    } else {
      assert Dashed(h)[..|v|] == Dashed(s)[..|v|];
    }
  }

  /** A pattern matches a tool of unknown operation exactly when no known verb stands before its first wildcard. */
  lemma MayBeUnknownIff(x: string)
    ensures MayBe(x, {""}) <==> !StartsWithSome(Dashed(LiteralHead(OwnPart(x))), KNOWN)
  {
    var p := OwnPart(x);
    if v :| v in KNOWN && HasPrefix(Dashed(LiteralHead(p)), v) {
      forall name | GlobMatch(x, name) ensures InferOperation(name) != "" {
        HeadDecides(x, name, v);
      }
    } else {
      OddMatches(p);
      NoVerbHasZ();
      var name := MatchedBySome(x, Odd(p));
      NormalisedIsOwnPart(name);
      UnknownOperation(name);
      forall v | v in KNOWN ensures !HasPrefix(Normalised(name), v) {
        if HasPrefix(Normalised(name), v) {
          OddVerbIsInHead(p, v);
        }
      }
    }
  }

  lemma HeadDecides(x: string, name: string, v: string)
    requires GlobMatch(x, name) && v in KNOWN && HasPrefix(Dashed(LiteralHead(OwnPart(x))), v)
    ensures InferOperation(name) != ""
  {
    var h, s := LiteralHead(OwnPart(x)), OwnPart(name);
    MatchedOwnParts(x, "");
    MatchesStartWithHead(OwnPart(x), s);
    DashedHead(s, |h|);
    assert Dashed(s)[..|v|] == Dashed(h)[..|v|];
    NormalisedIsOwnPart(name);
    UnknownOperation(name);
  }

  /** The same for unknown operations: they are denied to a caller if every pattern that is allowed to that caller has a
      known verb before its first wildcard; and, where nothing is denied, only if. */
  lemma KeepsUnknownOut(ps: seq<PolicyEntry>, caller: Identity)
    ensures (forall x | AllowsPattern(ps, caller.groups, x) :: StartsWithVerb(x)) ==> KeepsOut(ps, caller, {""})
    ensures DeniesNothing(ps, caller.groups) && KeepsOut(ps, caller, {""}) ==>
              forall x | AllowsPattern(ps, caller.groups, x) :: StartsWithVerb(x)
  {
    forall x ensures MayBe(x, {""}) <==> !StartsWithVerb(x) {
      MayBeUnknownIff(x);
    }
    if forall x | AllowsPattern(ps, caller.groups, x) :: StartsWithVerb(x) {
      NoMatchKeepsOut(ps, caller, {""});
    }
    if DeniesNothing(ps, caller.groups) {
      KeepsOutIffNoMatch(ps, caller, {""});
    }
  }

  predicate StartsWithVerb(x: string) {
    StartsWithSome(Dashed(LiteralHead(OwnPart(x))), KNOWN)
  }
}
