/** The policy engine object: one prepared query beside the policies it was built from. */
module PolicyAdapter {
  import opened Text
  import opened Domain
  import opened Rego

  /** A prepared query is identified with the policies in its store. */
  datatype Query = Query(policies: seq<PolicyEntry>)

  /** The input that the adapter builds: the operation comes from the name, the scope from a policy list. */
  function InputFor(scope: seq<PolicyEntry>, identity: Identity, name: string): Input {
    Input(identity.groups, identity.entitlements, name, InferOperation(name),
          set e, p | e in scope && p in e.allowed && e.group in identity.groups :: p,
          set e, p | e in scope && p in e.denied && e.group in identity.groups :: p)
  }

  /** The decision of the rules over one policy list; `None` is the error that callers see as unavailable. */
  ghost function PolicyAnswer(ps: seq<PolicyEntry>, identity: Identity, name: string): Option<Decision> {
    Decide(ps, InputFor(ps, identity, name))
  }

  /** The rules never look at the scope, so it does not matter from which policy list it was taken. */
  lemma ScopeIsIgnored(ps: seq<PolicyEntry>, scope: seq<PolicyEntry>, identity: Identity, name: string)
    ensures Decide(ps, InputFor(scope, identity, name)) == PolicyAnswer(ps, identity, name)
  {
    var a, b := InputFor(scope, identity, name), InputFor(ps, identity, name);
    assert Allow(ps, a) <==> Allow(ps, b);
    assert MatchedRuleValues(ps, a) == MatchedRuleValues(ps, b);
    assert DenyReasonValues(ps, a) == DenyReasonValues(ps, b);
  }

  /** The names with a permitting answer, in order; nothing when some answer is an error. */
  function Filtered(names: seq<string>, answers: seq<Option<Decision>>): Option<seq<string>>
    requires |answers| == |names|
  {
    if names == [] then Some([])
    else
      match answers[0]
      case None => None
      case Some(d) => Prepend(if d.permitted then [names[0]] else [], Filtered(names[1..], answers[1..]))
  }

  function Prepend(list: seq<string>, rest: Option<seq<string>>): Option<seq<string>> {
    match rest
    case None => None
    case Some(more) => Some(list + more)
  }

  /** The filter fails exactly when one of the answers does, and otherwise keeps exactly the permitted names. */
  lemma {:induction false} FilteredIsExact(names: seq<string>, answers: seq<Option<Decision>>)
    requires |answers| == |names|
    ensures Filtered(names, answers).None? <==> exists i | 0 <= i < |names| :: answers[i].None?
    ensures Filtered(names, answers).Some? ==>
              forall n :: n in Filtered(names, answers).value <==>
                          exists i | 0 <= i < |names| :: names[i] == n && answers[i].Some? && answers[i].value.permitted
  {
    if names == [] {
    } else {
      FilteredIsExact(names[1..], answers[1..]);
      assert forall i | 0 <= i < |names| ::
          i == 0 || (names[i] == names[1..][i - 1] && answers[i] == answers[1..][i - 1]);
      assert forall i | 0 <= i < |names| - 1 :: names[1..][i] == names[i + 1] && answers[1..][i] == answers[i + 1];
    }
  }

  /** Two rule ids cover a name that is not denied. */
  ghost predicate Conflicts(ps: seq<PolicyEntry>, groups: seq<string>, name: string) {
    && !Denied(ps, groups, name)
    && exists a, b :: a in CoveringIds(ps, groups, name) && b in CoveringIds(ps, groups, name) && a != b
  }

  lemma AnswerFailsIff(ps: seq<PolicyEntry>, identity: Identity, name: string)
    ensures PolicyAnswer(ps, identity, name).None? <==> Conflicts(ps, identity.groups, name)
  {
    NormalForm(ps, InputFor(ps, identity, name));
    CoveredByIds(ps, identity.groups, name);
  }

  /** A caller's whole listing fails exactly when some listed name, as it is read, is covered under two rule ids and
      not denied: one such tool makes all of them unavailable. */
  lemma ListingFailsIff(ps: seq<PolicyEntry>, quotable: string -> bool, identity: Identity, names: seq<string>)
    ensures Filtered(names, AnswersTo(ps, quotable, identity, names)).None? <==>
            exists n | n in names :: Conflicts(ps, identity.groups, AsRead(quotable, n))
  {
    var answers := AnswersTo(ps, quotable, identity, names);
    FilteredIsExact(names, answers);
    forall i | 0 <= i < |names|
      ensures answers[i].None? <==> Conflicts(ps, identity.groups, AsRead(quotable, names[i]))
    {
      AnswerAt(ps, quotable, identity, names, i);
      AnswerFailsIff(ps, identity, AsRead(quotable, names[i]));
    }
    if n :| n in names && Conflicts(ps, identity.groups, AsRead(quotable, n)) {
      var i :| 0 <= i < |names| && names[i] == n;
      assert answers[i].None?;
    }
  }

  lemma FilterOne(list: seq<string>, names: seq<string>, answers: seq<Option<Decision>>, i: nat)
    requires |answers| == |names| && i < |names|
    ensures Prepend(list, Filtered(names[i..], answers[i..])) ==
            match answers[i]
            case None => None
            case Some(d) => Prepend(if d.permitted then list + [names[i]] else list,
                                    Filtered(names[i + 1..], answers[i + 1..]))
  {
    assert names[i..][0] == names[i] && names[i..][1..] == names[i + 1..];
    assert answers[i..][0] == answers[i] && answers[i..][1..] == answers[i + 1..];
    var rest := Filtered(names[i + 1..], answers[i + 1..]);
    if rest.Some? {
      assert list + [names[i]] + rest.value == list + ([names[i]] + rest.value);
      assert [] + rest.value == rest.value;
    }
  }

  lemma FilterStart(names: seq<string>, answers: seq<Option<Decision>>)
    requires |answers| == |names|
    ensures Filtered(names, answers) == Prepend([], Filtered(names[0..], answers[0..]))
  {
    assert names[0..] == names && answers[0..] == answers;
    var all := Filtered(names, answers);
    if all.Some? {
      assert [] + all.value == all.value;
    }
  }

  lemma FilterEnd(list: seq<string>, names: seq<string>, answers: seq<Option<Decision>>)
    requires |answers| == |names|
    ensures Prepend(list, Filtered(names[|names|..], answers[|names|..])) == Some(list)
  {
    assert list + [] == list;
  }

  /** The stages of a load, any of which may fail before the swap. */
  datatype LoadStage = OpenStore | ReadBundle | Activate | Commit | OpenReader | Prepare

  const STAGES := [OpenStore, ReadBundle, Activate, Commit, OpenReader, Prepare]

  function FirstFailure(fails: LoadStage -> bool, stages: seq<LoadStage>): Option<LoadStage> {
    if stages == [] then None
    else if fails(stages[0]) then Some(stages[0])
    else FirstFailure(fails, stages[1..])
  }

  lemma {:induction false} FirstFailureIsFirst(fails: LoadStage -> bool, stages: seq<LoadStage>)
    ensures FirstFailure(fails, stages).None? <==> forall stage | stage in stages :: !fails(stage)
    ensures FirstFailure(fails, stages).Some? ==>
              exists k | 0 <= k < |stages| ::
                && FirstFailure(fails, stages) == Some(stages[k]) && fails(stages[k])
                && forall i | 0 <= i < k :: !fails(stages[i])
  {
    if stages == [] {
    } else if fails(stages[0]) {
      assert stages[0] in stages;
    } else {
      FirstFailureIsFirst(fails, stages[1..]);
      if FirstFailure(fails, stages).Some? {
        var k :| 0 <= k < |stages[1..]| && FirstFailure(fails, stages[1..]) == Some(stages[1..][k])
              && fails(stages[1..][k]) && forall i | 0 <= i < k :: !fails(stages[1..][i]);
        assert stages[1..][k] == stages[k + 1];
        assert forall i | 1 <= i < k + 1 :: stages[i] == stages[1..][i - 1];
      }
    }
  }

  /** Every stage is tried, so a load succeeds exactly when no stage fails. */
  lemma LoadSucceedsIff(fails: LoadStage -> bool)
    ensures FirstFailure(fails, STAGES).None? <==> forall stage :: !fails(stage)
  {
    FirstFailureIsFirst(fails, STAGES);
    forall stage: LoadStage ensures stage in STAGES {
      match stage
      case OpenStore => assert STAGES[0] == stage;
      case ReadBundle => assert STAGES[1] == stage;
      case Activate => assert STAGES[2] == stage;
      case Commit => assert STAGES[3] == stage;
      case OpenReader => assert STAGES[4] == stage;
      case Prepare => assert STAGES[5] == stage;
    }
  }

  class OpaPolicyAdapter {
    var query: Query
    var policies: seq<PolicyEntry>
    /** Whether Go's %q form of a name is JSON text for that name; if not, the name is read as "". */
    const quotable: string -> bool

    ghost predicate Valid()
      reads this
    {
      query == Query(policies)
    }

    /** `New` with a bundle that loads. */
    constructor (policies: seq<PolicyEntry>, quotable: string -> bool)
      ensures Valid() && this.policies == policies && this.quotable == quotable
    {
      this.query, this.policies, this.quotable := Query(policies), policies, quotable;
    }

    /** `load`: both fields change together once every stage has succeeded. The first stage to fail ends it with
        neither field changed. */
    method Load(ps: seq<PolicyEntry>, fails: LoadStage -> bool) returns (failed: Option<LoadStage>)
      requires Valid()
      modifies this
      ensures Valid() && failed == FirstFailure(fails, STAGES)
      ensures policies == if failed.None? then ps else old(policies)
      ensures query == if failed.None? then Query(ps) else old(query)
    {
      if fails(OpenStore) {
        return Some(OpenStore);
      }
      if fails(ReadBundle) {
        return Some(ReadBundle);
      }
      if fails(Activate) {
        return Some(Activate);
      }
      if fails(Commit) {
        return Some(Commit);
      }
      if fails(OpenReader) {
        return Some(OpenReader);
      }
      if fails(Prepare) {
        return Some(Prepare);
      }
      query, policies := Query(ps), ps;
      return None;
    }

    method Evaluate(identity: Identity, call: ToolCall) returns (answer: Option<Decision>)
      requires Valid()
      ensures answer == PolicyAnswer(policies, identity, ToolName(call))
    {
      var name := ToolName(call);
      var scope := policies;
      var allowed, denied := ScopeForGroups(scope, identity.groups);
      var input := Input(identity.groups, identity.entitlements, name, InferOperation(name), allowed, denied);
      assert input == InputFor(scope, identity, name);
      var pq := query;
      answer := Eval(pq, input);
    }

    /** The names that the caller may use, in order; an error as soon as one evaluation fails. */
    method FilterTools(identity: Identity, names: seq<string>) returns (permitted: Option<seq<string>>)
      requires Valid()
      ensures permitted == Filtered(names, AnswersTo(policies, quotable, identity, names))
    {
      var list: seq<string> := [];
      ghost var answers := AnswersTo(policies, quotable, identity, names);
      FilterStart(names, answers);
      for i := 0 to |names|
        invariant Filtered(names, answers) == Prepend(list, Filtered(names[i..], answers[i..]))
      {
        var decision := EvaluateNth(identity, names, i, answers);
        FilterOne(list, names, answers, i);
        if decision.None? {
          return None;
        }
        if decision.value.permitted {
          list := list + [names[i]];
        }
      }
      FilterEnd(list, names, answers);
      return Some(list);
    }

    method EvaluateNth(identity: Identity, names: seq<string>, i: nat, ghost answers: seq<Option<Decision>>)
      returns (decision: Option<Decision>)
      requires Valid() && i < |names| && answers == AnswersTo(policies, quotable, identity, names)
      ensures decision == answers[i]
    {
      AnswerAt(policies, quotable, identity, names, i);
      decision := Evaluate(identity, CallOf(AsRead(quotable, names[i])));
    }
  }

  /** A name as `Evaluate` reads it out of the request that the filter prints for it. */
  function AsRead(quotable: string -> bool, name: string): string {
    if quotable(name) then name else ""
  }

  /** What the rules say of each name. */
  ghost function AnswersTo(ps: seq<PolicyEntry>, quotable: string -> bool, identity: Identity, names: seq<string>)
    : (answers: seq<Option<Decision>>)
    ensures |answers| == |names|
  {
    if names == [] then []
    else [PolicyAnswer(ps, identity, AsRead(quotable, names[0]))] + AnswersTo(ps, quotable, identity, names[1..])
  }

  lemma {:induction false} AnswerAt(ps: seq<PolicyEntry>, quotable: string -> bool, identity: Identity,
                                    names: seq<string>, i: nat)
    requires i < |names|
    ensures AnswersTo(ps, quotable, identity, names)[i] == PolicyAnswer(ps, identity, AsRead(quotable, names[i]))
  {
    if i == 0 {
    } else {
      AnswerAt(ps, quotable, identity, names[1..], i - 1);
    }
  }

  /** `scopeForGroups`: the union of the patterns of the caller's entries. */
  method ScopeForGroups(ps: seq<PolicyEntry>, groups: seq<string>) returns (allowed: set<string>, denied: set<string>)
    ensures allowed == set e, p | e in ps && p in e.allowed && e.group in groups :: p
    ensures denied == set e, p | e in ps && p in e.denied && e.group in groups :: p
  {
    allowed, denied := {}, {};
    for i := 0 to |ps|
      invariant allowed == set e, p | e in ps[..i] && p in e.allowed && e.group in groups :: p
      invariant denied == set e, p | e in ps[..i] && p in e.denied && e.group in groups :: p
    {
      assert ps[..i + 1] == ps[..i] + [ps[i]];
      if ps[i].group in groups {
        allowed := allowed + set p | p in ps[i].allowed;
        denied := denied + set p | p in ps[i].denied;
      }
    }
    assert ps[..|ps|] == ps;
  }

  method EvalRule(values: set<string>, default: string) returns (r: Option<string>)
    ensures r == CompleteRule(values, default)
  {
    CompleteRuleCases(values, default);
    if values == {} {
      return Some(default);
    }
    var v :| v in values;
    if values == {v} {
      return Some(v);
    }
    return None;
  }

  /** Evaluation of the combined query, with `decisionFromResultSet`. */
  method Eval(pq: Query, input: Input) returns (answer: Option<Decision>)
    requires input.operation == InferOperation(input.toolName)
    ensures answer == Decide(pq.policies, input)
    ensures forall scope, identity: Identity, name | input == InputFor(scope, identity, name) ::
              answer == PolicyAnswer(pq.policies, identity, name)
  {
    var rule := EvalRule(MatchedRuleValues(pq.policies, input), "");
    var reason := EvalRule(DenyReasonValues(pq.policies, input), DEFAULT_REASON);
    if rule.None? || reason.None? {
      answer := None;
    } else if Allow(pq.policies, input) {
      answer := Some(Decision(true, rule.value, ""));
    } else {
      answer := Some(Decision(false, rule.value, reason.value));
    }
    forall scope, identity: Identity, name | input == InputFor(scope, identity, name)
      ensures answer == PolicyAnswer(pq.policies, identity, name)
    {
      ScopeIsIgnored(pq.policies, scope, identity, name);
    }
  }
}
