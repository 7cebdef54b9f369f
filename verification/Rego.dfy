/** The decision rules of policies/abaris.rego over one set of merged policies, and the
    operation classifier that feeds them. */
module Rego {
  import opened Text
  import opened Glob
  import opened Domain

  /** The input document of one evaluation. */
  datatype Input = Input(groups: seq<string>, entitlements: seq<string>, toolName: string, operation: string,
                         allowedTools: set<string>, deniedTools: set<string>)

  // ---------------------------------------------------------------------
  // Rules
  // ---------------------------------------------------------------------

  predicate OperationKnown(input: Input) {
    input.operation in {"read", "write", "delete"}
  }

  predicate OperationAcceptable(input: Input) {
    OperationKnown(input) || input.operation == ""
  }

  predicate ToolDenied(ps: seq<PolicyEntry>, input: Input) {
    exists e | e in ps :: e.group in input.groups && MatchesSome(input.toolName, e.denied)
  }

  predicate Allow(ps: seq<PolicyEntry>, input: Input) {
    && OperationAcceptable(input)
    && !ToolDenied(ps, input)
    && exists e | e in ps :: e.group in input.groups && MatchesSome(input.toolName, e.allowed)
  }

  function RuleId(group: string, pattern: string): string {
    group + " -> " + pattern
  }

  /** The ids of all (group, pattern) pairs that cover the call. */
  function CoveringIds(ps: seq<PolicyEntry>, groups: seq<string>, name: string): set<string> {
    set e, p | e in ps && p in e.allowed && e.group in groups && GlobMatch(p, name) :: RuleId(e.group, p)
  }

  const UNKNOWN_OPERATION := "unauthorized: unknown operation type; deny-by-default applied"
  const READ_ONLY := "unauthorized: read-only group cannot perform write or delete operations"
  const NO_POLICY := "unauthorized: no policy permits this tool call for the caller's groups"
  const DEFAULT_REASON := "no policy permits this tool call for the caller's groups"

  function MatchedRuleValues(ps: seq<PolicyEntry>, input: Input): set<string> {
    if Allow(ps, input) && !ToolDenied(ps, input) then CoveringIds(ps, input.groups, input.toolName) else {}
  }

  function DenyReasonValues(ps: seq<PolicyEntry>, input: Input): set<string> {
    (if !Allow(ps, input) && !OperationAcceptable(input) then {UNKNOWN_OPERATION} else {}) +
    (if !Allow(ps, input) && OperationKnown(input) && "read-only" in input.groups && input.operation != "read"
     then {READ_ONLY} else {}) +
    (if !Allow(ps, input) && OperationKnown(input) && "read-only" !in input.groups then {NO_POLICY} else {})
  }

  /** A complete rule: its default when no body holds, an evaluation error when the bodies
      that hold give different values. */
  ghost function CompleteRule(values: set<string>, default: string): Option<string> {
    if values == {} then Some(default)
    else if exists v :: values == {v} then
      var v :| values == {v};
      Some(v)
    else None
  }

  /** The combined query allow + matched_rule + deny_reason, as `decisionFromResultSet` reads it;
      `None` is the evaluation error of conflicting complete rules. */
  ghost function Decide(ps: seq<PolicyEntry>, input: Input): Option<Decision> {
    match (CompleteRule(MatchedRuleValues(ps, input), ""), CompleteRule(DenyReasonValues(ps, input), DEFAULT_REASON))
    case (Some(rule), Some(reason)) =>
      if Allow(ps, input) then Some(Decision(true, rule, "")) else Some(Decision(false, rule, reason))
    case _ => None
  }

  // ---------------------------------------------------------------------
  // The operation classifier
  // ---------------------------------------------------------------------

  const READ_PREFIXES := ["get-", "list-", "read-", "fetch-", "search-"]
  const WRITE_PREFIXES := ["create-", "update-", "put-", "post-", "patch-", "add-", "set-"]
  const DELETE_PREFIXES := ["delete-", "remove-", "destroy-", "purge-"]

  const KNOWN := READ_PREFIXES + WRITE_PREFIXES + DELETE_PREFIXES

  function Dashed(s: string): (r: string)
    ensures |r| == |s|
    ensures forall i | 0 <= i < |s| :: r[i] == if s[i] == '_' then '-' else s[i]
  {
    if s == [] then [] else [if s[0] == '_' then '-' else s[0]] + Dashed(s[1..])
  }

  predicate StartsWithSome(s: string, prefixes: seq<string>) {
    exists p | p in prefixes :: HasPrefix(s, p)
  }

  function Normalised(name: string): string {
    var i := IndexOf(name, '/');
    Dashed(if i < |name| then name[i + 1..] else name)
  }

  function InferOperation(name: string): string {
    var s := Normalised(name);
    if StartsWithSome(s, READ_PREFIXES) then "read"
    else if StartsWithSome(s, WRITE_PREFIXES) then "write"
    else if StartsWithSome(s, DELETE_PREFIXES) then "delete"
    else ""
  }

  ghost predicate IsVerbPrefix(p: string) {
    |p| > 0 && p[|p| - 1] == '-' && '-' !in p[..|p| - 1]
  }

  lemma ReadVerbs()
    ensures forall p | p in READ_PREFIXES :: IsVerbPrefix(p)
  {
  }

  lemma WriteVerbs()
    ensures forall p | p in WRITE_PREFIXES :: IsVerbPrefix(p)
  {
  }

  lemma DeleteVerbs()
    ensures forall p | p in DELETE_PREFIXES :: IsVerbPrefix(p)
  {
  }

  lemma ListsAreDisjoint(p: string)
    ensures !(p in READ_PREFIXES && p in WRITE_PREFIXES)
    ensures !(p in READ_PREFIXES && p in DELETE_PREFIXES)
    ensures !(p in WRITE_PREFIXES && p in DELETE_PREFIXES)
  {
  }

  /** The first verb of a name with its dash, or "" when there is no dash. */
  function Verb(s: string): string {
    var i := IndexOf(s, '-');
    if i < |s| then s[..i + 1] else ""
  }

  lemma VerbDecides(s: string, p: string)
    requires IsVerbPrefix(p)
    ensures HasPrefix(s, p) <==> Verb(s) == p
  {
    if HasPrefix(s, p) {
      assert s[..|p| - 1] == p[..|p| - 1] && s[|p| - 1] == '-';
      IndexOfIs(s, '-', |p| - 1);
    }
  }

  lemma VerbDecidesList(s: string, prefixes: seq<string>)
    requires forall p | p in prefixes :: IsVerbPrefix(p)
    ensures StartsWithSome(s, prefixes) <==> Verb(s) in prefixes
  {
    forall p | p in prefixes ensures HasPrefix(s, p) <==> Verb(s) == p {
      VerbDecides(s, p);
    }
  }

  /** The classification is that of the one verb before the first dash: at most one listed prefix
      matches a name, so it does not depend on the order in which prefixes and lists are tried. */
  lemma ClassifiedByVerb(name: string)
    ensures InferOperation(name) == "read" <==> Verb(Normalised(name)) in READ_PREFIXES
    ensures InferOperation(name) == "write" <==> Verb(Normalised(name)) in WRITE_PREFIXES
    ensures InferOperation(name) == "delete" <==> Verb(Normalised(name)) in DELETE_PREFIXES
  {
    var s := Normalised(name);
    ReadVerbs();
    WriteVerbs();
    DeleteVerbs();
    VerbDecidesList(s, READ_PREFIXES);
    VerbDecidesList(s, WRITE_PREFIXES);
    VerbDecidesList(s, DELETE_PREFIXES);
    ListsAreDisjoint(Verb(s));
  }

  // ---------------------------------------------------------------------
  // Normal form of the decision
  // ---------------------------------------------------------------------

  lemma InferredIsAcceptable(input: Input)
    requires input.operation == InferOperation(input.toolName)
    ensures OperationAcceptable(input)
  {
  }

  /** At most one deny reason holds, so `deny_reason` never conflicts. */
  lemma DenyReasonNeverConflicts(ps: seq<PolicyEntry>, input: Input)
    ensures CompleteRule(DenyReasonValues(ps, input), DEFAULT_REASON).Some?
  {
    var vs := DenyReasonValues(ps, input);
    assert vs == {} || vs == {UNKNOWN_OPERATION} || vs == {READ_ONLY} || vs == {NO_POLICY};
  }

  ghost predicate Denied(ps: seq<PolicyEntry>, groups: seq<string>, name: string) {
    exists e | e in ps :: e.group in groups && MatchesSome(name, e.denied)
  }

  ghost predicate Covered(ps: seq<PolicyEntry>, groups: seq<string>, name: string) {
    exists e | e in ps :: e.group in groups && MatchesSome(name, e.allowed)
  }

  lemma CoveredByIds(ps: seq<PolicyEntry>, groups: seq<string>, name: string)
    ensures Covered(ps, groups, name) <==> CoveringIds(ps, groups, name) != {}
  {
    if Covered(ps, groups, name) {
      var e :| e in ps && e.group in groups && MatchesSome(name, e.allowed);
      var p :| p in e.allowed && GlobMatch(p, name);
      assert RuleId(e.group, p) in CoveringIds(ps, groups, name);
    }
    if CoveringIds(ps, groups, name) != {} {
      var v :| v in CoveringIds(ps, groups, name);
      var e, p :| e in ps && p in e.allowed && e.group in groups && GlobMatch(p, name) && v == RuleId(e.group, p);
      assert MatchesSome(name, e.allowed);
    }
  }

  lemma CompleteRuleCases(vs: set<string>, default: string)
    ensures CompleteRule(vs, default).None? <==> exists a, b :: a in vs && b in vs && a != b
    ensures forall v :: CompleteRule(vs, default) == Some(v) <==> vs == {v} || (vs == {} && v == default)
  {
    if vs != {} {
      var a :| a in vs;
      if !(exists b :: b in vs && b != a) {
        assert vs == {a};
      }
    }
  }

  /** The rules themselves, unlike the classifier in front of them, deny every call of an operation that they do not
      know. */
  lemma UnknownOperationIsDenied(ps: seq<PolicyEntry>, input: Input)
    requires input.operation !in {"read", "write", "delete", ""}
    ensures Decide(ps, input) == Some(Decision(false, "", UNKNOWN_OPERATION))
  {
    assert DenyReasonValues(ps, input) == {UNKNOWN_OPERATION};
    CompleteRuleCases(MatchedRuleValues(ps, input), "");
    CompleteRuleCases(DenyReasonValues(ps, input), DEFAULT_REASON);
    assert !Allow(ps, input) && MatchedRuleValues(ps, input) == {};
  }

  /** The three possible answers for a call whose operation was inferred from its name:
      denied; permitted by the only covering rule; or an evaluation error, when the call is
      covered by two (group, pattern) pairs that print differently. */
  lemma NormalForm(ps: seq<PolicyEntry>, input: Input)
    requires input.operation == InferOperation(input.toolName)
    ensures Allow(ps, input) <==> Covered(ps, input.groups, input.toolName) && !Denied(ps, input.groups, input.toolName)
    ensures Decide(ps, input).None? <==>
            Allow(ps, input) && exists a, b :: a in CoveringIds(ps, input.groups, input.toolName)
                                            && b in CoveringIds(ps, input.groups, input.toolName) && a != b
    ensures Decide(ps, input).Some? ==> Decide(ps, input).value.permitted == Allow(ps, input)
    ensures forall rule :: (Decide(ps, input) == Some(Decision(true, rule, "")) <==>
                            Allow(ps, input) && CoveringIds(ps, input.groups, input.toolName) == {rule})
  {
    InferredIsAcceptable(input);
    DenyReasonNeverConflicts(ps, input);
    CoveredByIds(ps, input.groups, input.toolName);
    CompleteRuleCases(MatchedRuleValues(ps, input), "");
  }

  /** Entry `i` is one of the caller's, and pattern `j` of the list covers the name. */
  ghost predicate CoversAt(ps: seq<PolicyEntry>, groups: seq<string>, name: string, i: int, j: int) {
    && 0 <= i < |ps| && 0 <= j < |ps[i].allowed| && GlobMatch(ps[i].allowed[j], name)
    && exists g | 0 <= g < |groups| :: groups[g] == ps[i].group
  }

  ghost predicate DeniesAt(ps: seq<PolicyEntry>, groups: seq<string>, name: string, i: int, j: int) {
    && 0 <= i < |ps| && 0 <= j < |ps[i].denied| && GlobMatch(ps[i].denied[j], name)
    && exists g | 0 <= g < |groups| :: groups[g] == ps[i].group
  }

  lemma DeniedAt(ps: seq<PolicyEntry>, groups: seq<string>, name: string)
    ensures Denied(ps, groups, name) <==> exists i, j :: DeniesAt(ps, groups, name, i, j)
  {
    forall i, j | DeniesAt(ps, groups, name, i, j) ensures Denied(ps, groups, name) {
      assert ps[i] in ps && ps[i].denied[j] in ps[i].denied;
    }
    if Denied(ps, groups, name) {
      var e :| e in ps && e.group in groups && MatchesSome(name, e.denied);
      var x :| x in e.denied && GlobMatch(x, name);
      var i :| 0 <= i < |ps| && ps[i] == e;
      var j :| 0 <= j < |e.denied| && e.denied[j] == x;
      assert DeniesAt(ps, groups, name, i, j);
    }
  }

  lemma CoveredAt(ps: seq<PolicyEntry>, groups: seq<string>, name: string)
    ensures Covered(ps, groups, name) <==> exists i, j :: CoversAt(ps, groups, name, i, j)
  {
    forall i, j | CoversAt(ps, groups, name, i, j) ensures Covered(ps, groups, name) {
      assert ps[i] in ps && ps[i].allowed[j] in ps[i].allowed;
    }
    if Covered(ps, groups, name) {
      var e :| e in ps && e.group in groups && MatchesSome(name, e.allowed);
      var x :| x in e.allowed && GlobMatch(x, name);
      var i, j := PlaceOf(ps, groups, name, e, x);
    }
  }

  lemma PlaceOf(ps: seq<PolicyEntry>, groups: seq<string>, name: string, e: PolicyEntry, x: string)
    returns (i: int, j: int)
    requires e in ps && e.group in groups && x in e.allowed && GlobMatch(x, name)
    ensures CoversAt(ps, groups, name, i, j) && ps[i] == e && e.allowed[j] == x
  {
    i :| 0 <= i < |ps| && ps[i] == e;
    j :| 0 <= j < |e.allowed| && e.allowed[j] == x;
  }

  lemma RuleAt(ps: seq<PolicyEntry>, groups: seq<string>, name: string, rule: string)
    requires rule in CoveringIds(ps, groups, name)
    ensures exists i, j :: CoversAt(ps, groups, name, i, j) && rule == ps[i].group + " -> " + ps[i].allowed[j]
  {
    var e, x :| e in ps && x in e.allowed && e.group in groups && GlobMatch(x, name) && rule == RuleId(e.group, x);
    var i, j := PlaceOf(ps, groups, name, e, x);
    assert rule == ps[i].group + " -> " + ps[i].allowed[j];
  }

  /** The decision, entry by entry and pattern by pattern: permitted exactly when some pattern of the caller's
      covers the name and none denies it; and a permit names, by group and pattern, a pair that covers it. */
  lemma DecisionMeans(ps: seq<PolicyEntry>, input: Input)
    requires input.operation == InferOperation(input.toolName) && Decide(ps, input).Some?
    ensures Decide(ps, input).value.permitted <==>
            && (exists i, j :: CoversAt(ps, input.groups, input.toolName, i, j))
            && forall i, j :: !DeniesAt(ps, input.groups, input.toolName, i, j)
    ensures Decide(ps, input).value.permitted ==>
            exists i, j :: CoversAt(ps, input.groups, input.toolName, i, j)
                        && Decide(ps, input).value.matchedRule == ps[i].group + " -> " + ps[i].allowed[j]
  {
    NormalForm(ps, input);
    CoveredAt(ps, input.groups, input.toolName);
    DeniedAt(ps, input.groups, input.toolName);
    if Allow(ps, input) {
      PermittedHasNoReason(ps, input);
      RuleAt(ps, input.groups, input.toolName, Decide(ps, input).value.matchedRule);
    }
  }

  lemma PermittedHasNoReason(ps: seq<PolicyEntry>, input: Input)
    requires Decide(ps, input).Some? && Allow(ps, input)
    ensures Decide(ps, input).value.permitted && Decide(ps, input).value.denialReason == ""
  {
  }

  /** What a denial says: the unknown-operation reason is never given, the read-only reason only
      to read-only callers of write or delete tools. */
  lemma DenialReasons(ps: seq<PolicyEntry>, input: Input)
    requires input.operation == InferOperation(input.toolName)
    requires !Allow(ps, input)
    ensures Decide(ps, input) == Some(Decision(false, "",
              if input.operation == "" then DEFAULT_REASON
              else if "read-only" !in input.groups then NO_POLICY
              else if input.operation == "read" then DEFAULT_REASON
              else READ_ONLY))
  {
    InferredIsAcceptable(input);
    var vs := DenyReasonValues(ps, input);
    var reason := if input.operation == "" then DEFAULT_REASON
                  else if "read-only" !in input.groups then NO_POLICY
                  else if input.operation == "read" then DEFAULT_REASON
                  else READ_ONLY;
    assert CompleteRule(vs, DEFAULT_REASON) == Some(reason) by {
      if input.operation == "" || ("read-only" in input.groups && input.operation == "read") {
        assert vs == {};
      } else if "read-only" !in input.groups {
        assert vs == {NO_POLICY};
      } else {
        assert vs == {READ_ONLY};
      }
    }
  }

  lemma LiteralEntryAllows(input: Input, group: string)
    requires OperationAcceptable(input) && group in input.groups && !HasMeta(input.toolName)
    ensures Allow([PolicyEntry(group, [input.toolName], [])], input)
  {
    var e := PolicyEntry(group, [input.toolName], []);
    LiteralMatch(input.toolName, input.toolName);
    assert input.toolName in e.allowed && MatchesSome(input.toolName, e.allowed);
    assert !MatchesSome(input.toolName, e.denied);
    assert e in [e];
  }

  /** The design promises that a caller who is only in "read-only" never gets a write or delete tool.
      The rules do not: for every wildcard-free tool name, whatever its operation, some policy
      makes it available to such a caller. */
  lemma ReadOnlyMayWrite(name: string)
    requires !HasMeta(name)
    ensures exists ps: seq<PolicyEntry> ::
              Allow(ps, Input(["read-only"], [], name, InferOperation(name), {}, {}))
  {
    var input := Input(["read-only"], [], name, InferOperation(name), {}, {});
    assert input.groups[0] == "read-only";
    InferredIsAcceptable(input);
    LiteralEntryAllows(input, "read-only");
  }

  /** The operation of a qualified name is that of the tool's own name. */
  lemma NormalisedQualified(p: string, t: string)
    requires '/' !in p
    ensures Normalised(p + "/" + t) == Dashed(t)
  {
    var name := p + "/" + t;
    assert name[..|p|] == p;
    IndexOfIs(name, '/', |p|);
    assert name[|p| + 1..] == t;
  }

  lemma DashedStart(v: string, rest: string)
    requires '_' !in v
    ensures HasPrefix(Dashed(v + rest), v)
  {
    var d := Dashed(v + rest);
    forall i | 0 <= i < |v| ensures d[i] == v[i] {
      assert v[i] in v && (v + rest)[i] == v[i];
    }
  }

  lemma DeleteVerbDecides(name: string, v: string)
    requires v in DELETE_PREFIXES && HasPrefix(Normalised(name), v)
    ensures InferOperation(name) == "delete"
  {
    DeleteVerbs();
    VerbDecides(Normalised(name), v);
    ClassifiedByVerb(name);
  }

  lemma DeleteTools(p: string, rest: string)
    requires '/' !in p
    ensures InferOperation(p + "/" + ("delete-" + rest)) == "delete"
  {
    var v := DELETE_PREFIXES[0];
    NormalisedQualified(p, v + rest);
    DashedStart(v, rest);
    DeleteVerbDecides(p + "/" + (v + rest), v);
  }

  lemma NoVerbNoOperation(name: string)
    requires '-' !in Normalised(name)
    ensures InferOperation(name) == ""
  {
    ClassifiedByVerb(name);
    assert Verb(Normalised(name)) == "";
  }

  /** A tool whose own name holds no dash and no underscore has no known operation. */
  lemma VerblessTools(p: string, t: string)
    requires '/' !in p && '-' !in t && '_' !in t
    ensures InferOperation(p + "/" + t) == ""
  {
    NormalisedQualified(p, t);
    assert forall i | 0 <= i < |t| :: Dashed(t)[i] == t[i];
    NoVerbNoOperation(p + "/" + t);
  }

  /** The design promises that every decision names a rule. Exactly the permits do. */
  lemma RuleIffPermitted(ps: seq<PolicyEntry>, input: Input)
    requires input.operation == InferOperation(input.toolName)
    requires Decide(ps, input).Some?
    ensures Decide(ps, input).value.matchedRule != "" <==> Decide(ps, input).value.permitted
  {
    NormalForm(ps, input);
    if Allow(ps, input) {
      PermitNamesRule(ps, input, Decide(ps, input).value.matchedRule);
    } else {
      DenialReasons(ps, input);
    }
  }

  lemma PermitNamesRule(ps: seq<PolicyEntry>, input: Input, rule: string)
    requires CoveringIds(ps, input.groups, input.toolName) == {rule}
    ensures rule != ""
  {
    var id :| id in CoveringIds(ps, input.groups, input.toolName);
    assert id == rule;
    var e, p :| e in ps && p in e.allowed && id == RuleId(e.group, p);
    assert |rule| >= |" -> "|;
  }
}
