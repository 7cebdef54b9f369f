/** Concurrent use of the policy engine: evaluations, polling reloads and policy updates, each a
    goroutine whose lock-protected sections interleave in any order. */
module HotReload {
  import opened Text
  import opened Domain
  import opened Rego
  import opened PolicyAdapter

  type Policies = seq<PolicyEntry>

  /** Where a goroutine stands. `started`, `used` and `finished` are positions in the install history. */
  datatype Thread =
    | Scoped(identity: Identity, name: string, started: nat, scope: Policies)
    | Querying(identity: Identity, name: string, started: nat, scope: Policies, used: nat)
    | Answered(identity: Identity, name: string, started: nat, used: nat, finished: nat, answer: Option<Decision>)
    | Loading(policies: Policies)
    | Idle

  /** `installs` is the history of installed queries, each by the policies in its store; the last one is
      the adapter's query field. `policies` is the adapter's other field. */
  datatype State = State(installs: seq<Policies>, policies: Policies, threads: map<nat, Thread>)

  datatype Action =
    | StartEvaluate(id: nat, identity: Identity, name: string)
    | ReadQuery(id: nat)
    | Answer(id: nat)
    | TickReads(id: nat)
    | CallUpdate(id: nat, policies: Policies)
    | LoadEnds(id: nat, bundleLoads: bool)

  function Initial(ps: Policies): State {
    State([ps], ps, map[])
  }

  predicate Free(s: State, id: nat) {
    id !in s.threads || s.threads[id].Idle? || s.threads[id].Answered?
  }

  predicate Enabled(s: State, a: Action) {
    match a
    case StartEvaluate(id, _, _) => Free(s, id)
    case ReadQuery(id) => id in s.threads && s.threads[id].Scoped?
    case Answer(id) => id in s.threads && s.threads[id].Querying? && s.threads[id].used < |s.installs|
    case TickReads(id) => Free(s, id)
    case CallUpdate(id, _) => Free(s, id)
    case LoadEnds(id, _) => id in s.threads && s.threads[id].Loading?
  }

  ghost function Next(s: State, a: Action): State
    requires Enabled(s, a) && s.installs != []
  {
    match a
    case StartEvaluate(id, identity, name) =>
      s.(threads := s.threads[id := Scoped(identity, name, |s.installs| - 1, s.policies)])
    case ReadQuery(id) =>
      var t := s.threads[id];
      s.(threads := s.threads[id := Querying(t.identity, t.name, t.started, t.scope, |s.installs| - 1)])
    case Answer(id) =>
      var t := s.threads[id];
      var answer := Decide(s.installs[t.used], InputFor(t.scope, t.identity, t.name));
      s.(threads := s.threads[id := Answered(t.identity, t.name, t.started, t.used, |s.installs| - 1, answer)])
    case TickReads(id) =>
      s.(threads := s.threads[id := Loading(s.policies)])
    case CallUpdate(id, ps) =>
      s.(threads := s.threads[id := Loading(ps)])
    case LoadEnds(id, bundleLoads) =>
      var ps := s.threads[id].policies;
      if bundleLoads then State(s.installs + [ps], ps, s.threads[id := Idle])
      else s.(threads := s.threads[id := Idle])
  }

  /** The state after a run, when every action of the run is enabled in turn. */
  ghost function Run(s: State, acts: seq<Action>): Option<State>
    requires s.installs != []
    ensures Run(s, acts).Some? ==> Run(s, acts).value.installs != []
    decreases |acts|
  {
    if acts == [] then Some(s)
    else
      match Run(s, acts[..|acts| - 1])
      case None => None
      case Some(m) => if Enabled(m, acts[|acts| - 1]) then Some(Next(m, acts[|acts| - 1])) else None
  }

  // ---------------------------------------------------------------------
  // The two fields agree and every answer is of one moment
  // ---------------------------------------------------------------------

  ghost predicate ThreadOk(installs: seq<Policies>, t: Thread) {
    match t
    case Scoped(_, _, started, _) => started < |installs|
    case Querying(_, _, started, _, used) => started <= used < |installs|
    case Answered(_, _, started, used, finished, _) =>
      started <= used <= finished < |installs| && DecidedBy(installs[used], t)
    case _ => true
  }

  /** The answer is the decision of the rules over `ps`. */
  ghost predicate DecidedBy(ps: Policies, t: Thread)
    requires t.Answered?
  {
    t.answer == PolicyAnswer(ps, t.identity, t.name)
  }

  ghost predicate Consistent(s: State) {
    && s.installs != []
    && s.policies == s.installs[|s.installs| - 1]
    && forall id | id in s.threads :: ThreadOk(s.installs, s.threads[id])
  }

  lemma ThreadOkLater(installs: seq<Policies>, ps: Policies, t: Thread)
    requires ThreadOk(installs, t)
    ensures ThreadOk(installs + [ps], t)
  {
  }

  lemma AnswerIsOk(s: State, id: nat)
    requires Consistent(s) && Enabled(s, Answer(id))
    ensures ThreadOk(s.installs, Next(s, Answer(id)).threads[id])
  {
    var t := s.threads[id];
    assert ThreadOk(s.installs, t);
    ScopeIsIgnored(s.installs[t.used], t.scope, t.identity, t.name);
  }

  lemma LoadIsOk(s: State, id: nat)
    requires Consistent(s) && Enabled(s, LoadEnds(id, true))
    ensures Consistent(Next(s, LoadEnds(id, true)))
  {
    var ps := s.threads[id].policies;
    forall k | k in s.threads ensures ThreadOk(s.installs + [ps], s.threads[k]) {
      ThreadOkLater(s.installs, ps, s.threads[k]);
    }
  }

  lemma StepIsConsistent(s: State, a: Action)
    requires Consistent(s) && Enabled(s, a)
    ensures Consistent(Next(s, a))
  {
    if a.LoadEnds? && a.bundleLoads {
      LoadIsOk(s, a.id);
    } else {
      if a.Answer? {
        AnswerIsOk(s, a.id);
      }
      var out := Next(s, a);
      assert out.installs == s.installs && out.policies == s.policies;
      assert ThreadOk(s.installs, out.threads[a.id]);
    }
  }

  lemma {:induction false} RunIsConsistent(ps: Policies, acts: seq<Action>)
    requires Run(Initial(ps), acts).Some?
    ensures Consistent(Run(Initial(ps), acts).value)
  {
    if acts == [] {
    } else {
      RunIsConsistent(ps, acts[..|acts| - 1]);
      StepIsConsistent(Run(Initial(ps), acts[..|acts| - 1]).value, acts[|acts| - 1]);
    }
  }

  /** An evaluation takes the query that is installed when it reads it, not an older one: from then on, in every
      run, its answer is the decision of the rules over that very list. */
  lemma {:induction false} AnswersByQueryRead(s: State, id: nat, acts: seq<Action>)
    requires Consistent(s) && Enabled(s, ReadQuery(id))
    requires forall a | a in acts :: a.id != id
    requires Run(Next(s, ReadQuery(id)), acts + [Answer(id)]).Some?
    ensures var t := Run(Next(s, ReadQuery(id)), acts + [Answer(id)]).value.threads[id];
            && t.Answered?
            && t.answer == PolicyAnswer(s.installs[|s.installs| - 1], s.threads[id].identity, s.threads[id].name)
  {
    var s' := Next(s, ReadQuery(id));
    assert (acts + [Answer(id)])[..|acts|] == acts;
    StepIsConsistent(s, ReadQuery(id));
    OthersKeepThread(s', id, acts);
    var m := Run(s', acts).value;
    var t := m.threads[id];
    ScopeIsIgnored(m.installs[t.used], t.scope, t.identity, t.name);
  }

  lemma {:induction false} OthersKeepThread(s: State, id: nat, acts: seq<Action>)
    requires s.installs != [] && id in s.threads && Run(s, acts).Some?
    requires forall a | a in acts :: a.id != id
    ensures var m := Run(s, acts).value;
            id in m.threads && m.threads[id] == s.threads[id] && s.installs <= m.installs
  {
    if acts == [] {
    } else {
      assert acts[|acts| - 1] in acts;
      OthersKeepThread(s, id, acts[..|acts| - 1]);
    }
  }

  /** In every run the policies field is the one that the current query was built from, and every
      answer is the decision of the rules over one policy list that was installed at some moment
      between the start and the end of that evaluation. */
  lemma AnswersAreOfOneMoment(ps: Policies, acts: seq<Action>, id: nat)
    requires Run(Initial(ps), acts).Some?
    ensures AgreeAndOfOneMoment(Run(Initial(ps), acts).value, id)
  {
    RunIsConsistent(ps, acts);
    ConsistentAnswers(Run(Initial(ps), acts).value, id);
  }

  ghost predicate AgreeAndOfOneMoment(s: State, id: nat) {
    && s.installs != []
    && s.policies == s.installs[|s.installs| - 1]
    && (id in s.threads && s.threads[id].Answered? ==> OfOneMoment(s.installs, s.threads[id]))
  }

  lemma ConsistentAnswers(s: State, id: nat)
    requires Consistent(s)
    ensures AgreeAndOfOneMoment(s, id)
  {
    if id in s.threads && s.threads[id].Answered? {
      MomentOf(s.installs, s.threads[id]);
    }
  }

  lemma MomentOf(installs: seq<Policies>, t: Thread)
    requires t.Answered? && ThreadOk(installs, t)
    ensures OfOneMoment(installs, t)
  {
  }

  ghost predicate OfOneMoment(installs: seq<Policies>, t: Thread)
    requires t.Answered?
  {
    exists k | t.started <= k <= t.finished && k < |installs| :: DecidedBy(installs[k], t)
  }

  /** Everything ever installed was given at construction or to some update. */
  ghost predicate OnlyFrom(s: State, given: iset<Policies>) {
    && s.policies in given
    && (forall k | 0 <= k < |s.installs| :: s.installs[k] in given)
    && (forall id | id in s.threads && s.threads[id].Loading? :: s.threads[id].policies in given)
  }

  lemma {:induction false} InstallsWereGiven(ps: Policies, acts: seq<Action>, given: iset<Policies>)
    requires Run(Initial(ps), acts).Some?
    requires ps in given && forall a | a in acts && a.CallUpdate? :: a.policies in given
    ensures OnlyFrom(Run(Initial(ps), acts).value, given)
  {
    if acts == [] {
    } else {
      InstallsWereGiven(ps, acts[..|acts| - 1], given);
    }
  }

  /** How many loads of a run succeed. */
  function GoodLoads(acts: seq<Action>): nat
    decreases |acts|
  {
    if acts == [] then 0
    else
      var last := acts[|acts| - 1];
      GoodLoads(acts[..|acts| - 1]) + if last.LoadEnds? && last.bundleLoads then 1 else 0
  }

  /** Over any run each successful load installs once and nothing else ever does: failed loads, evaluations and
      calls under way change neither field. */
  lemma {:induction false} OnlyGoodLoadsInstall(s: State, acts: seq<Action>)
    requires s.installs != [] && Run(s, acts).Some?
    ensures var m := Run(s, acts).value;
            && s.installs <= m.installs && |m.installs| == |s.installs| + GoodLoads(acts)
            && (GoodLoads(acts) == 0 ==> m.policies == s.policies)
  {
    if acts == [] {
    } else {
      OnlyGoodLoadsInstall(s, acts[..|acts| - 1]);
    }
  }

  // ---------------------------------------------------------------------
  // Lost updates
  // ---------------------------------------------------------------------

  ghost predicate NoUpdates(acts: seq<Action>) {
    forall a | a in acts :: !a.CallUpdate?
  }

  /** A reload that is still under way and will put other policies in place. */
  ghost predicate StaleLoad(s: State, id: nat) {
    id in s.threads && s.threads[id].Loading? && s.threads[id].policies != s.policies
  }

  /** Whatever happens short of a further update, the current policies stay. */
  ghost predicate Durable(s: State)
    requires s.installs != []
  {
    forall acts | NoUpdates(acts) && Run(s, acts).Some? :: Run(s, acts).value.policies == s.policies
  }

  ghost predicate NothingStale(s: State) {
    forall id :: !StaleLoad(s, id)
  }

  lemma StepStaysFresh(s: State, a: Action)
    requires s.installs != [] && NothingStale(s) && Enabled(s, a) && !a.CallUpdate?
    ensures Next(s, a).policies == s.policies && NothingStale(Next(s, a))
  {
    assert !StaleLoad(s, a.id);
    forall id ensures !StaleLoad(Next(s, a), id) {
      assert !StaleLoad(s, id);
    }
  }

  lemma {:induction false} NothingStaleStays(s: State, acts: seq<Action>)
    requires s.installs != [] && NothingStale(s) && NoUpdates(acts) && Run(s, acts).Some?
    ensures Run(s, acts).value.policies == s.policies
    ensures NothingStale(Run(s, acts).value)
  {
    if acts == [] {
    } else {
      assert acts[|acts| - 1] in acts;
      NothingStaleStays(s, acts[..|acts| - 1]);
      StepStaysFresh(Run(s, acts[..|acts| - 1]).value, acts[|acts| - 1]);
    }
  }

  /** An installed update is durable exactly when no reload that read older policies is still under way:
      a polling tick reads the policies before its slow load, and puts them back after it. */
  lemma UpdateIsDurableIffNothingStale(s: State)
    requires Consistent(s)
    ensures Durable(s) <==> NothingStale(s)
  {
    if !NothingStale(s) {
      var id :| StaleLoad(s, id);
      var acts := [LoadEnds(id, true)];
      assert acts[..0] == [];
      assert Run(s, acts[..0]) == Some(s);
      assert Run(s, acts) == Some(Next(s, acts[0]));
      assert NoUpdates(acts) && Run(s, acts).value.policies != s.policies;
    } else {
      forall acts | NoUpdates(acts) && Run(s, acts).Some? ensures Run(s, acts).value.policies == s.policies {
        NothingStaleStays(s, acts);
      }
    }
  }

  /** Such a lost update is reachable: a tick starts, an update is installed, the tick finishes. */
  lemma UpdateCanBeLost(before: Policies, after: Policies)
    ensures exists acts :: Run(Initial(before), acts).Some?
                        && Run(Initial(before), acts).value.installs == [before, after, before]
  {
    var s0 := Initial(before);
    var s1 := Next(s0, TickReads(0));
    var s2 := Next(s1, CallUpdate(1, after));
    var s3 := Next(s2, LoadEnds(1, true));
    assert Run(s0, []) == Some(s0);
    OneMore(s0, [], TickReads(0));
    OneMore(s0, [] + [TickReads(0)], CallUpdate(1, after));
    OneMore(s0, [] + [TickReads(0)] + [CallUpdate(1, after)], LoadEnds(1, true));
    OneMore(s0, [] + [TickReads(0)] + [CallUpdate(1, after)] + [LoadEnds(1, true)], LoadEnds(0, true));
    assert Next(s3, LoadEnds(0, true)).installs == [before, after, before];
  }

  lemma OneMore(s: State, acts: seq<Action>, a: Action)
    requires s.installs != []
    ensures Run(s, acts).Some? && Enabled(Run(s, acts).value, a) ==>
              Run(s, acts + [a]) == Some(Next(Run(s, acts).value, a))
  {
    assert (acts + [a])[..|acts|] == acts;
  }
}
