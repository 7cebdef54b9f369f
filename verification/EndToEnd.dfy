/** The parts together: discovery, then a call, under the decisions of the policy engine. */
module EndToEnd {
  import opened Text
  import opened Glob
  import opened Domain
  import opened Routing
  import opened Rego
  import opened PolicyAdapter
  import opened Outside
  import opened OboPipeline
  import opened Discovery
  import opened Broker
  import opened ExecutionSafety
  import HotReload
  import OperationRules

  // ---------------------------------------------------------------------
  // From a listed name back to its backend
  // ---------------------------------------------------------------------

  /** Route prefixes under which qualified names are unambiguous. */
  ghost predicate GoodPrefixes(routes: seq<RouteEntry>) {
    DistinctPrefixes(routes) && forall r | r in routes :: r.prefix != "" && '/' !in r.prefix
  }

  lemma TrimmedIsShorter(prefix: string, t: string)
    requires HasPrefix(t, prefix + "/")
    ensures t[|prefix| + 1..] != t
  {
    assert |t[|prefix| + 1..]| == |t| - |prefix| - 1;
  }

  /** A tool that route `r` advertises is called back, under the name it is listed by, on that very route and
      under its own name, exactly when its name has no "/". */
  lemma CalledBackIffSlashFree(routes: seq<RouteEntry>, r: RouteEntry, t: string, call: ToolCall)
    requires GoodPrefixes(routes) && r in routes
    requires t != "" && ToolName(call) == Qualify(r.prefix, t)
    ensures FindRoute(routes, ToolName(call)) == Some(r) && ToolName(Stripped(call, r.prefix)) == t <==> '/' !in t
  {
    if '/' !in t {
      QualifiedName(r.prefix, t);
      FindsTheRoute(routes, r, ToolName(call));
      assert HasPrefix(ToolName(call), r.prefix + "/");
    } else if FindRoute(routes, t) == Some(r) {
      var i := IndexOf(t, '/');
      assert t[..i] == r.prefix;
      assert HasPrefix(t, r.prefix + "/");
      TrimmedIsShorter(r.prefix, t);
    }
  }

  /** Slash-free tools of different routes never share a listed name. */
  lemma ListedNamesAreUnambiguous(p: string, t: string, q: string, u: string)
    requires '/' !in p && '/' !in q && '/' !in t && '/' !in u
    ensures Qualify(p, t) == Qualify(q, u) <==> p == q && t == u
  {
    QualifiedName(p, t);
    QualifiedName(q, u);
  }

  /** Discovery, then a call: a slash-free tool that a route's backend advertised was offered to the policy under
      its qualified name, and when a call under that name contacts a backend, it is that route's, with the backend's
      own tool name and every other part of the call unchanged. */
  lemma DiscoverThenCall(dseg: seq<Event>, id: string, k: int, r: RouteEntry, t: string, names: seq<string>,
                         eseg: seq<Event>, ctx: Context, call: ToolCall, s: Setup, resp: Response)
    requires GoodPrefixes(s.routes) && r in s.routes && '/' !in t && t != ""
    requires names == Dedup(AllContributed(dseg))
    requires ListedBy(dseg, k, t, ToolName(call)) && dseg[k].route == r
    requires ExecutionTranscript(eseg, ctx, call, s, resp) && eseg[|eseg| - 1].Contact?
    ensures ToolName(call) in names
    ensures var sent := eseg[|eseg| - 1].sent;
            && sent.uri == r.backendURI && ToolName(sent.call) == t
            && sent.call.id == call.id && sent.call.verb == call.verb
            && call.params.Fields? && sent.call.params.Fields?
            && sent.call.params.fields - {"name"} == call.params.fields - {"name"}
  {
    ContributedIffListed(dseg, ToolName(call));
    DedupElems(AllContributed(dseg));
    assert ToolName(call) in Elems(names);
    CalledBackIffSlashFree(s.routes, r, t, call);
    StrippedKeepsTheRest(call, r.prefix);
    ContactGoesTo(eseg, ctx, call, s, resp, r);
  }

  lemma ContactGoesTo(eseg: seq<Event>, ctx: Context, call: ToolCall, s: Setup, resp: Response, r: RouteEntry)
    requires ExecutionTranscript(eseg, ctx, call, s, resp) && eseg[|eseg| - 1].Contact?
    requires FindRoute(s.routes, ToolName(call)) == Some(r)
    ensures eseg[|eseg| - 1].sent.uri == r.backendURI && eseg[|eseg| - 1].sent.call == Stripped(call, r.prefix)
  {
    ExecutionIsSafe(eseg, ctx, call, s, resp);
    var rest := eseg[2..];
    assert rest[|rest| - 1] == eseg[|eseg| - 1];
  }

  // ---------------------------------------------------------------------
  // Exact discovery
  // ---------------------------------------------------------------------

  predicate Subsequence(a: seq<string>, b: seq<string>)
    decreases |b|
  {
    a == [] || (b != [] && ((a[0] == b[0] && Subsequence(a[1..], b[1..])) || Subsequence(a, b[1..])))
  }

  lemma {:induction false} SubsequenceElems(a: seq<string>, b: seq<string>)
    requires Subsequence(a, b)
    ensures forall x | x in a :: x in b
    decreases |b|
  {
    if a == [] {
    } else {
      assert forall x :: x in b <==> x == b[0] || x in b[1..];
      if a[0] == b[0] && Subsequence(a[1..], b[1..]) {
        SubsequenceElems(a[1..], b[1..]);
        assert forall x :: x in a <==> x == a[0] || x in a[1..];
      } else {
        SubsequenceElems(a, b[1..]);
      }
    }
  }

  lemma {:induction false} SubsequenceIsDistinct(a: seq<string>, b: seq<string>)
    requires Subsequence(a, b) && Distinct(b)
    ensures Distinct(a)
    decreases |b|
  {
    if a == [] {
    } else {
      assert forall k | 0 <= k < |b| - 1 :: b[1..][k] == b[k + 1];
      if a[0] == b[0] && Subsequence(a[1..], b[1..]) {
        SubsequenceIsDistinct(a[1..], b[1..]);
        SubsequenceElems(a[1..], b[1..]);
        assert forall k | 1 <= k < |a| :: a[k] == a[1..][k - 1] && a[k] in b[1..];
      } else {
        SubsequenceIsDistinct(a, b[1..]);
      }
    }
  }

  lemma {:induction false} FilteredIsSubsequence(names: seq<string>, answers: seq<Option<Decision>>)
    requires |answers| == |names| && Filtered(names, answers).Some?
    ensures Subsequence(Filtered(names, answers).value, names)
    decreases |names|
  {
    if names == [] {
    } else {
      FilteredIsSubsequence(names[1..], answers[1..]);
      var rest := Filtered(names[1..], answers[1..]).value;
      if answers[0].value.permitted {
        assert ([names[0]] + rest)[1..] == rest;
      } else {
        assert [] + rest == rest;
      }
    }
  }

  /** The answer for each name, over the policy list that was installed when that name was evaluated: a reload may fall
      between two names of one listing. */
  ghost function AnswersOver(installed: string -> seq<PolicyEntry>, quotable: string -> bool, caller: Identity,
                             names: seq<string>)
    : (answers: seq<Option<Decision>>)
    ensures |answers| == |names|
  {
    seq(|names|, i requires 0 <= i < |names| => PolicyAnswer(installed(names[i]), caller, AsRead(quotable, names[i])))
  }

  /** Without a reload in between these are the answers of the policy engine's own filter. */
  lemma AnswersOverOneList(ps: seq<PolicyEntry>, quotable: string -> bool, caller: Identity, names: seq<string>)
    ensures AnswersOver(_ => ps, quotable, caller, names) == AnswersTo(ps, quotable, caller, names)
  {
    var a, b := AnswersOver(_ => ps, quotable, caller, names), AnswersTo(ps, quotable, caller, names);
    forall i | 0 <= i < |names| ensures a[i] == b[i] {
      AnswerAt(ps, quotable, caller, names, i);
    }
  }

  /** The filter answered as the policy engine does. */
  ghost predicate FilteredBy(e: Event, installed: string -> seq<PolicyEntry>, quotable: string -> bool) {
    e.Filter? && e.kept == Filtered(e.names, AnswersOver(installed, quotable, e.caller, e.names))
  }

  ghost predicate Permitting(answer: Option<Decision>) {
    answer.Some? && answer.value.permitted
  }

  lemma KeptNames(e: Event, installed: string -> seq<PolicyEntry>, quotable: string -> bool, n: string)
    requires FilteredBy(e, installed, quotable) && e.kept.Some?
    ensures n in e.kept.value <==> n in e.names && Permitting(PolicyAnswer(installed(n), e.caller, AsRead(quotable, n)))
  {
    var answers := AnswersOver(installed, quotable, e.caller, e.names);
    FilteredIsExact(e.names, answers);
    assert forall i | 0 <= i < |e.names| ::
        answers[i] == PolicyAnswer(installed(e.names[i]), e.caller, AsRead(quotable, e.names[i]));
  }

  /** `kept` is what a caller is shown of what was heard: the listed names that the policy permits, each once, in
      the order in which they were first listed. */
  ghost predicate ShownExactly(heard: seq<Event>, caller: Identity, kept: seq<string>,
                               installed: string -> seq<PolicyEntry>, quotable: string -> bool) {
    && (forall n :: n in kept <==> ShownName(heard, caller, installed, quotable, n))
    && Distinct(kept)
    && exists listed :: FirstOccurrences(AllContributed(heard), listed) && Subsequence(kept, listed)
  }

  ghost predicate ShownName(heard: seq<Event>, caller: Identity, installed: string -> seq<PolicyEntry>,
                            quotable: string -> bool, n: string) {
    (exists k, t :: ListedBy(heard, k, t, n)) && Permitting(PolicyAnswer(installed(n), caller, AsRead(quotable, n)))
  }

  lemma FilterShowsExactly(heard: seq<Event>, e: Event, installed: string -> seq<PolicyEntry>, quotable: string -> bool)
    requires FilteredBy(e, installed, quotable) && e.kept.Some? && e.names == Dedup(AllContributed(heard))
    ensures ShownExactly(heard, e.caller, e.kept.value, installed, quotable)
  {
    forall n ensures n in e.kept.value <==> ShownName(heard, e.caller, installed, quotable, n) {
      KeptNames(e, installed, quotable, n);
      ContributedIffListed(heard, n);
      DedupElems(AllContributed(heard));
      assert n in e.names <==> n in Elems(e.names);
    }
    DedupIsFirstOccurrences(AllContributed(heard));
    FilteredIsSubsequence(e.names, AnswersOver(installed, quotable, e.caller, e.names));
    SubsequenceIsDistinct(e.kept.value, e.names);
  }

  lemma LastIsTheFilter(seg: seq<Event>, ctx: Context, id: string, kept: seq<string>, routes: seq<RouteEntry>,
                        hasStore: bool)
    requires DiscoveryTranscript(seg, ctx, id, routes, hasStore, ToolNames(id, kept))
    ensures |seg| >= 2 && seg[0].who.Ok?
    ensures var last := seg[|seg| - 1];
            && last.Filter? && last.caller == seg[0].who.value && last.kept == Some(kept)
            && last.names == Dedup(AllContributed(seg[1..|seg| - 1]))
  {
    var rest := seg[1..];
    assert rest[..|rest| - 1] == seg[1..|seg| - 1];
  }

  /** A discovery response shows its caller exactly the permitted names among those that answering backends listed,
      whatever reloads fall between the evaluations of its names. */
  lemma DiscoveryIsExact(seg: seq<Event>, ctx: Context, id: string, kept: seq<string>, s: Setup,
                         installed: string -> seq<PolicyEntry>, quotable: string -> bool)
    requires DiscoveryTranscript(seg, ctx, id, s.routes, s.hasStore, ToolNames(id, kept))
    requires FilteredBy(seg[|seg| - 1], installed, quotable)
    ensures |seg| >= 2 && seg[0].who.Ok?
    ensures ShownExactly(seg[1..|seg| - 1], seg[0].who.value, kept, installed, quotable)
  {
    LastIsTheFilter(seg, ctx, id, kept, s.routes, s.hasStore);
    ShownByLast(seg[1..|seg| - 1], seg[|seg| - 1], seg[0].who.value, kept, installed, quotable);
  }

  lemma ShownByLast(heard: seq<Event>, last: Event, caller: Identity, kept: seq<string>,
                    installed: string -> seq<PolicyEntry>, quotable: string -> bool)
    requires FilteredBy(last, installed, quotable) && last.caller == caller && last.kept == Some(kept)
    requires last.names == Dedup(AllContributed(heard))
    ensures ShownExactly(heard, caller, kept, installed, quotable)
  {
    FilterShowsExactly(heard, last, installed, quotable);
  }

  /** What discovery shows to a caller and what execution permits them is the same: a listed name is shown exactly
      when a call of it passes the policy, if the policies of the call are those that its name was listed under. */
  lemma ShownIffPermitted(dseg: seq<Event>, ctx: Context, id: string, kept: seq<string>,
                          eseg: seq<Event>, ctx': Context, call: ToolCall, resp: Response,
                          s: Setup, installed: string -> seq<PolicyEntry>, quotable: string -> bool)
    requires DiscoveryTranscript(dseg, ctx, id, s.routes, s.hasStore, ToolNames(id, kept))
    requires FilteredBy(dseg[|dseg| - 1], installed, quotable)
    requires ToolName(call) in dseg[|dseg| - 1].names && quotable(ToolName(call))
    requires ExecutionTranscript(eseg, ctx', call, s, resp)
    requires eseg[0].who == dseg[0].who && dseg[0].who.Ok? && |eseg| >= 2
    requires eseg[1].Evaluate? ==>
               eseg[1].decision == PolicyAnswer(installed(ToolName(call)), eseg[1].caller, ToolName(call))
    ensures ToolName(call) in kept <==> Permitted(eseg, ctx', call)
  {
    LastIsTheFilter(dseg, ctx, id, kept, s.routes, s.hasStore);
    KeptNames(dseg[|dseg| - 1], installed, quotable, ToolName(call));
    assert eseg[1] == eseg[1..][0];
  }

  /** In every discovery of a resolved caller each route is asked about in turn, with the identity resolved for that
      if there is a store, and whatever a backend lists whose credential was there is offered to the filter. */
  lemma ReachableToolsAreOffered(seg: seq<Event>, ctx: Context, id: string, s: Setup, resp: Response)
    returns (from: nat, who: Option<Identity>, at: seq<int>)
    requires DiscoveryTranscript(seg, ctx, id, s.routes, s.hasStore, resp) && seg[0].who.Ok?
    ensures |seg| >= 2 && seg[|seg| - 1].Filter? && seg[|seg| - 1].caller == seg[0].who.value
    ensures from == (if s.hasStore then 2 else 1) && from <= |seg| - 1
    ensures s.hasStore ==> && seg[1].Resolve? && seg[1].ctx == ctx
                           && who == if seg[1].who.Ok? then Some(seg[1].who.value) else None
    ensures !s.hasStore ==> who == None
    ensures AskedInOrder(seg[from..|seg| - 1], s.routes, who, at)
    ensures forall i, t | 0 <= i < |s.routes| && Given(seg[from..|seg| - 1][at[i]]).Some?
                          && Lists(seg[from..|seg| - 1][at[i] + 1].listing, t) && t != "" ::
              (if '/' in t then t else s.routes[i].prefix + "/" + t) in seg[|seg| - 1].names
  {
    var n := |seg| - 1;
    var heard := seg[1..n];
    assert seg[1..][..|seg[1..]| - 1] == heard && seg[1..][|seg[1..]| - 1] == seg[n];
    from, who := 1, None;
    if s.hasStore {
      from := 2;
      who := if heard[0].who.Ok? then Some(heard[0].who.value) else None;
      assert heard[1..] == seg[2..n] && heard[0] == seg[1];
    }
    var asked := seg[from..n];
    at := RoutesAreAskedInOrder(asked, s.routes, who);
    assert asked == heard[from - 1..];
    forall i, t | 0 <= i < |s.routes| && Given(asked[at[i]]).Some? && Lists(asked[at[i] + 1].listing, t) && t != ""
      ensures (if '/' in t then t else s.routes[i].prefix + "/" + t) in seg[n].names
    {
      var name := if '/' in t then t else s.routes[i].prefix + "/" + t;
      var k := from - 1 + at[i] + 1;
      assert heard[k] == asked[at[i] + 1];
      assert NamedAt(heard, k, t, name);
      AggregatedIff(heard, name);
    }
  }

  // ---------------------------------------------------------------------
  // Validated policies
  // ---------------------------------------------------------------------

  /** Every decision was that of the engine over some policy list that had been validated against the routes. */
  ghost predicate DecidedByValidated(seg: seq<Event>, routes: seq<RouteEntry>) {
    forall k | 0 <= k < |seg| && seg[k].Evaluate? :: DecisionIsValidated(seg[k], routes)
  }

  ghost predicate DecisionIsValidated(e: Event, routes: seq<RouteEntry>)
    requires e.Evaluate?
  {
    exists ps :: AllRouted(ps, routes) && e.decision == PolicyAnswer(ps, e.caller, ToolName(e.call))
  }

  lemma ValidatedBy(ps: seq<PolicyEntry>, routes: seq<RouteEntry>, e: Event)
    requires AllRouted(ps, routes) && e.Evaluate? && e.decision == PolicyAnswer(ps, e.caller, ToolName(e.call))
    ensures DecisionIsValidated(e, routes)
  {
  }

  /** The hypothesis holds of the policy engine: in any run of its goroutines whose policies, at construction and in
      every update, were validated, each answer is that of the engine over some validated list. */
  lemma EngineDecidesByValidated(ps: seq<PolicyEntry>, acts: seq<HotReload.Action>, id: nat, call: ToolCall,
                                 routes: seq<RouteEntry>)
    requires HotReload.Run(HotReload.Initial(ps), acts).Some?
    requires AllRouted(ps, routes) && forall a | a in acts && a.CallUpdate? :: AllRouted(a.policies, routes)
    requires var m := HotReload.Run(HotReload.Initial(ps), acts).value;
             id in m.threads && m.threads[id].Answered? && m.threads[id].name == ToolName(call)
    ensures var t := HotReload.Run(HotReload.Initial(ps), acts).value.threads[id];
            DecisionIsValidated(Evaluate(t.identity, call, t.answer), routes)
  {
    var m := HotReload.Run(HotReload.Initial(ps), acts).value;
    HotReload.InstallsWereGiven(ps, acts, iset qs | AllRouted(qs, routes));
    HotReload.AnswersAreOfOneMoment(ps, acts, id);
    var t := m.threads[id];
    var k :| t.started <= k <= t.finished && k < |m.installs| && HotReload.DecidedBy(m.installs[k], t);
    ValidatedBy(m.installs[k], routes, Evaluate(t.identity, call, t.answer));
  }

  lemma PermittingIsCovered(ps: seq<PolicyEntry>, caller: Identity, name: string)
    requires Permitting(PolicyAnswer(ps, caller, name))
    ensures Covered(ps, caller.groups, name) && !Denied(ps, caller.groups, name)
  {
    NormalForm(ps, InputFor(ps, caller, name));
  }

  /** What is permitted has a route. */
  lemma PermittedIsRoutable(e: Event, routes: seq<RouteEntry>)
    requires e.Evaluate? && DecisionIsValidated(e, routes) && Permitting(e.decision) && PlainPrefixes(routes)
    ensures FindRoute(routes, ToolName(e.call)).Some?
  {
    var ps :| AllRouted(ps, routes) && e.decision == PolicyAnswer(ps, e.caller, ToolName(e.call));
    PermittingIsCovered(ps, e.caller, ToolName(e.call));
    var p: PolicyEntry :| p in ps && p.group in e.caller.groups && MatchesSome(ToolName(e.call), p.allowed);
    var x :| x in p.allowed && GlobMatch(x, ToolName(e.call));
    assert x in Patterns(p);
    ValidatedIsRoutable(ps, routes, p, x, ToolName(e.call));
  }

  /** On validated policies a permitted call is never answered "no route": that answer is never given. */
  lemma NeverInvalidParams(seg: seq<Event>, ctx: Context, call: ToolCall, s: Setup, resp: Response)
    requires ExecutionTranscript(seg, ctx, call, s, resp)
    requires DecidedByValidated(seg, s.routes) && PlainPrefixes(s.routes)
    ensures resp != ErrorResponse(call.id, INVALID_PARAMS)
  {
    FirstTwo(seg, ctx, call, s, resp);
    if Permitted(seg, ctx, call) {
      PermittedIsRoutable(seg[1], s.routes);
      RoutedAnswer(seg[2..], ctx, call, seg[0].who.value, s, resp);
    } else if seg[0].who.Ok? {
      assert seg[1..][0] == seg[1];
    }
  }

  lemma RoutedAnswer(seg: seq<Event>, ctx: Context, call: ToolCall, caller: Identity, s: Setup, resp: Response)
    requires RoutingTranscript(seg, ctx, call, caller, s, resp) && FindRoute(s.routes, ToolName(call)).Some?
    ensures resp != ErrorResponse(call.id, INVALID_PARAMS)
  {
    var route := FindRoute(s.routes, ToolName(call)).value;
    if route.oboProvider != "" && s.obo.Some? {
      var o := s.obo.value;
      var forwarded := Stripped(call, route.prefix);
      var out :| ExecuteTranscript(seg, ctx, forwarded, route, s.world, o.0, o.1, out)
          && resp == OrUnavailable(forwarded.id, out);
      ExecuteAnswers(seg, ctx, forwarded, route, s.world, o.0, o.1, out);
    }
  }

  lemma ExecuteAnswers(seg: seq<Event>, ctx: Context, call: ToolCall, route: RouteEntry,
                       world: World, hasRefresher: bool, hasSse: bool, out: Option<Response>)
    requires ExecuteTranscript(seg, ctx, call, route, world, hasRefresher, hasSse, out)
    ensures out.None? || out.value.FromBackend? || out.value == ErrorResponse(call.id, POLICY_DENIED)
         || out.value == ErrorResponse(call.id, UNAUTHENTICATED)
  {
  }

  // ---------------------------------------------------------------------
  // On-behalf-of routes: the policy is asked twice, under two names
  // ---------------------------------------------------------------------

  lemma SlashFreeIsItsOwnPrefix(name: string)
    requires '/' !in name
    ensures ToolPrefix(name) == name && AfterPrefix(name).None?
  {
  }

  /** Under validated policies and plain prefixes a pattern matches a slash-free name only by being that name. */
  lemma SlashFreeMatch(x: string, routes: seq<RouteEntry>, name: string)
    requires Routed(routes, ToolPrefix(x)) && PlainPrefixes(routes) && '/' !in name
    ensures GlobMatch(x, name) <==> x == name
  {
    SlashFreeIsItsOwnPrefix(name);
    MatchBySegments(x, name);
    LiteralMatch(ToolPrefix(x), name);
    if GlobMatch(x, name) {
      assert x == ToolPrefix(x);
    } else if x == name {
      LiteralMatch(x, name);
    }
  }

  /** So a slash-free name is permitted exactly when it is itself written in an allowed list of the caller's, and in no
      denied list: no wildcard ever covers it. */
  lemma SlashFreeIsLiteral(ps: seq<PolicyEntry>, routes: seq<RouteEntry>, caller: Identity, name: string)
    requires AllRouted(ps, routes) && PlainPrefixes(routes) && '/' !in name
    ensures Allow(ps, InputFor(ps, caller, name)) <==>
            && (exists e | e in ps :: e.group in caller.groups && name in e.allowed)
            && !(exists e | e in ps :: e.group in caller.groups && name in e.denied)
  {
    NormalForm(ps, InputFor(ps, caller, name));
    forall e | e in ps
      ensures MatchesSome(name, e.allowed) <==> name in e.allowed
      ensures MatchesSome(name, e.denied) <==> name in e.denied
    {
      LiteralLists(ps, routes, e, name);
    }
  }

  lemma LiteralLists(ps: seq<PolicyEntry>, routes: seq<RouteEntry>, e: PolicyEntry, name: string)
    requires AllRouted(ps, routes) && PlainPrefixes(routes) && '/' !in name && e in ps
    ensures MatchesSome(name, e.allowed) <==> name in e.allowed
    ensures MatchesSome(name, e.denied) <==> name in e.denied
  {
    forall x | x in e.allowed || x in e.denied ensures GlobMatch(x, name) <==> x == name {
      assert x in Patterns(e);
      SlashFreeMatch(x, routes, name);
    }
  }

  lemma ValidatedTail(seg: seq<Event>, n: nat, routes: seq<RouteEntry>)
    requires n <= |seg| && DecidedByValidated(seg, routes)
    ensures DecidedByValidated(seg[n..], routes)
  {
    assert forall k | 0 <= k < |seg| - n :: seg[n..][k] == seg[k + n];
  }

  lemma SecondDecision(seg: seq<Event>, call: ToolCall, r: RouteEntry, routes: seq<RouteEntry>)
    requires ContactJustified(seg, call, r) && DecidedByValidated(seg, routes) && PlainPrefixes(routes)
    ensures Routed(routes, ToolPrefix(ToolName(call)))
  {
    PermittedIsRoutable(seg[|seg| - 4], routes);
  }

  /** A call on an on-behalf-of route reaches the backend only if the stripped name was permitted too; under
      validated policies that name must itself start with a route prefix. */
  lemma OboNeedsRoutableStrippedName(seg: seq<Event>, ctx: Context, call: ToolCall, s: Setup, resp: Response,
                                     r: RouteEntry)
    requires ExecutionTranscript(seg, ctx, call, s, resp) && seg[|seg| - 1].Contact?
    requires FindRoute(s.routes, ToolName(call)) == Some(r) && r.oboProvider != ""
    requires DecidedByValidated(seg, s.routes) && PlainPrefixes(s.routes)
    ensures Routed(s.routes, ToolPrefix(ToolName(Stripped(call, r.prefix))))
  {
    ExecutionIsSafe(seg, ctx, call, s, resp);
    ValidatedTail(seg, 2, s.routes);
    SecondDecision(seg[2..], Stripped(call, r.prefix), r, s.routes);
  }

  /** A slash-free tool of an on-behalf-of backend, called by the name under which it is listed, never reaches that
      backend, whatever the policies permit, unless the tool's name happens to be a route prefix. */
  lemma OboToolIsOutOfReach(seg: seq<Event>, ctx: Context, call: ToolCall, s: Setup, resp: Response, r: RouteEntry,
                            t: string)
    requires ExecutionTranscript(seg, ctx, call, s, resp)
    requires GoodPrefixes(s.routes) && PlainPrefixes(s.routes) && r in s.routes && r.oboProvider != ""
    requires '/' !in t && t != "" && ToolName(call) == Qualify(r.prefix, t) && !Routed(s.routes, t)
    requires DecidedByValidated(seg, s.routes)
    ensures !seg[|seg| - 1].Contact? && !resp.FromBackend?
  {
    ExecutionIsSafe(seg, ctx, call, s, resp);
    if seg[|seg| - 1].Contact? {
      CalledBackIffSlashFree(s.routes, r, t, call);
      SlashFreeIsItsOwnPrefix(t);
      OboNeedsRoutableStrippedName(seg, ctx, call, s, resp, r);
    }
  }

  /** Some policies that pass validation, and some run of a call under the listed name, get such a tool's call to a
      backend. */
  ghost predicate Reachable(routes: seq<RouteEntry>, r: RouteEntry, t: string) {
    exists seg, ctx, call, s, resp :: Reaches(seg, ctx, call, s, resp, routes, r, t)
  }

  ghost predicate Reaches(seg: seq<Event>, ctx: Context, call: ToolCall, s: Setup, resp: Response,
                          routes: seq<RouteEntry>, r: RouteEntry, t: string) {
    && s.routes == routes && ToolName(call) == Qualify(r.prefix, t)
    && ExecutionTranscript(seg, ctx, call, s, resp) && seg[|seg| - 1].Contact?
    && DecidedByValidated(seg, routes)
  }

  lemma OnlyOneCovers(e: PolicyEntry, groups: seq<string>, q: string, t: string)
    requires e.allowed == [q, t] && e.group in groups && q != t && !HasMeta(q) && !HasMeta(t)
    ensures CoveringIds([e], groups, q) == {RuleId(e.group, q)}
    ensures CoveringIds([e], groups, t) == {RuleId(e.group, t)}
  {
    LiteralMatch(q, q);
    LiteralMatch(q, t);
    LiteralMatch(t, q);
    LiteralMatch(t, t);
    assert e in [e] && e.allowed[0] == q && e.allowed[1] == t;
    assert RuleId(e.group, q) in CoveringIds([e], groups, q);
    assert RuleId(e.group, t) in CoveringIds([e], groups, t);
  }

  lemma LiteralEntryPermits(e: PolicyEntry, caller: Identity, q: string, t: string, n: string)
    requires e == PolicyEntry(e.group, [q, t], []) && e.group in caller.groups && q != t && !HasMeta(q) && !HasMeta(t)
    requires n == q || n == t
    ensures Permitting(PolicyAnswer([e], caller, n))
  {
    OnlyOneCovers(e, caller.groups, q, t);
    CoveredByIds([e], caller.groups, n);
    var input := InputFor([e], caller, n);
    NormalForm([e], input);
    assert !Denied([e], caller.groups, n);
    assert Allow([e], input);
  }

  /** The seven events of a call that goes through. */
  function Successful(ctx: Context, caller: Identity, call: ToolCall, stripped: ToolCall, d: Decision, d': Decision,
                      r: RouteEntry): seq<Event> {
    [Resolve(ctx, Ok(caller)), Evaluate(caller, call, Some(d)),
     Resolve(ctx, Ok(caller)), Evaluate(caller, stripped, Some(d')),
     TokenGet(caller.userID, r.oboProvider, Ok(TokenPair("", ""))), Mint(caller, "", Some("")),
     Contact(Outbound(r.backendURI, stripped, "", "", false), Some(""))]
  }

  lemma SuccessfulPipeline(ctx: Context, caller: Identity, stripped: ToolCall, d: Decision, d': Decision, r: RouteEntry,
                           call: ToolCall, world: World)
    requires d'.permitted && ctx.bearer.None?
    ensures ExecuteTranscript(Successful(ctx, caller, call, stripped, d, d', r)[2..], ctx, stripped, r, world,
                              false, false, Some(FromBackend("")))
  {
    var seg := Successful(ctx, caller, call, stripped, d, d', r)[2..];
    var who: Result<Resolved, Failure> := Ok(Resolved(caller, ctx));
    assert IdentityTranscript(seg[..1], ctx, world, false, who);
    var rest := seg[1..];
    assert SendTranscript(rest[1..][1..], caller, "", stripped, r, "", false, Some(FromBackend("")));
    assert TokenTranscript(rest[1..], who.value, stripped, r, world, false, Some(FromBackend("")));
    assert PolicyTranscript(rest, who.value, stripped, r, world, false, Some(FromBackend("")));
  }

  lemma SuccessfulRun(ctx: Context, caller: Identity, call: ToolCall, d: Decision, d': Decision, r: RouteEntry,
                      s: Setup)
    requires d.permitted && d'.permitted && ctx.bearer.None? && s.obo == Some((false, false))
    requires FindRoute(s.routes, ToolName(call)) == Some(r) && r.oboProvider != ""
    ensures ExecutionTranscript(Successful(ctx, caller, call, Stripped(call, r.prefix), d, d', r), ctx, call, s,
                                FromBackend(""))
  {
    var stripped := Stripped(call, r.prefix);
    var seg := Successful(ctx, caller, call, stripped, d, d', r);
    SuccessfulPipeline(ctx, caller, stripped, d, d', r, call, s.world);
    assert seg[1..][1..] == seg[2..];
    assert OrUnavailable(stripped.id, Some(FromBackend(""))) == FromBackend("");
    assert OboTranscript(seg[2..], ctx, stripped, r, s, FromBackend(""));
    assert RoutingTranscript(seg[2..], ctx, call, caller, s, FromBackend(""));
    assert DecisionTranscript(seg[1..], ctx, call, caller, s, FromBackend(""));
  }

  function AnyWorld(): World {
    World((_, _) => Err(Unclassified), (_, _, _) => None, (_, _, _) => None, (_, _) => None,
          (_, _, _) => Err(Unclassified),
          (_, _, _, _) => false, (_, _) => None, (_, _, _) => None, (_, _) => None,
          (_, _, _) => Unreachable, _ => "", _ => "")
  }

  /** One entry that lists both names is valid and permits both calls. */
  lemma BothPermitted(routes: seq<RouteEntry>, p: string, t: string, caller: Identity, call: ToolCall,
                      stripped: ToolCall)
    returns (d: Decision, d': Decision)
    requires Routed(routes, p) && Routed(routes, t) && !HasMeta(p) && !HasMeta(t) && '/' !in p && '/' !in t
    requires caller.groups == ["g"] && ToolName(call) == p + "/" + t && ToolName(stripped) == t
    ensures d.permitted && DecisionIsValidated(Evaluate(caller, call, Some(d)), routes)
    ensures d'.permitted && DecisionIsValidated(Evaluate(caller, stripped, Some(d')), routes)
  {
    var q := p + "/" + t;
    assert q[|p|] == '/' && q != t;
    var e := PolicyEntry("g", [q, t], []);
    OperationRules.JoinIsPlain(p, "/");
    OperationRules.JoinIsPlain(p + "/", t);
    QualifiedName(p, t);
    SlashFreeIsItsOwnPrefix(t);
    assert caller.groups[0] == "g" && AllRouted([e], routes);
    LiteralEntryPermits(e, caller, q, t, q);
    LiteralEntryPermits(e, caller, q, t, t);
    d, d' := PolicyAnswer([e], caller, q).value, PolicyAnswer([e], caller, t).value;
    ValidatedBy([e], routes, Evaluate(caller, call, Some(d)));
    ValidatedBy([e], routes, Evaluate(caller, stripped, Some(d')));
  }

  lemma ReachedBySuccess(ctx: Context, caller: Identity, call: ToolCall, d: Decision, d': Decision, r: RouteEntry,
                         t: string, s: Setup)
    requires d.permitted && d'.permitted && ctx.bearer.None? && s.obo == Some((false, false))
    requires FindRoute(s.routes, ToolName(call)) == Some(r) && r.oboProvider != ""
            && ToolName(call) == Qualify(r.prefix, t)
    requires DecisionIsValidated(Evaluate(caller, call, Some(d)), s.routes)
    requires DecisionIsValidated(Evaluate(caller, Stripped(call, r.prefix), Some(d')), s.routes)
    ensures Reachable(s.routes, r, t)
  {
    var stripped := Stripped(call, r.prefix);
    SuccessfulRun(ctx, caller, call, d, d', r, s);
    SuccessfulIsValidated(ctx, caller, call, stripped, d, d', r, s.routes);
    assert Reaches(Successful(ctx, caller, call, stripped, d, d', r), ctx, call, s, FromBackend(""), s.routes, r, t);
  }

  lemma RoutePrefixIsReachable(routes: seq<RouteEntry>, r: RouteEntry, t: string)
    requires GoodPrefixes(routes) && PlainPrefixes(routes) && r in routes && r.oboProvider != ""
    requires '/' !in t && t != "" && Routed(routes, t)
    ensures Reachable(routes, r, t)
  {
    var call := CallOf(r.prefix + "/" + t);
    CalledBackIffSlashFree(routes, r, t, call);
    var caller := Identity("", ["g"], [], "");
    var d, d' := BothPermitted(routes, r.prefix, t, caller, call, Stripped(call, r.prefix));
    ReachedBySuccess(Context(None, None), caller, call, d, d', r, t,
                     Setup(routes, false, Some((false, false)), AnyWorld()));
  }

  lemma OnlyTwoDecisions(ok: Event -> bool, ctx: Context, caller: Identity, call: ToolCall, stripped: ToolCall,
                         d: Decision, d': Decision, r: RouteEntry)
    requires ok(Evaluate(caller, call, Some(d))) && ok(Evaluate(caller, stripped, Some(d')))
    ensures var seg := Successful(ctx, caller, call, stripped, d, d', r);
            forall k | 0 <= k < |seg| && seg[k].Evaluate? :: ok(seg[k])
  {
  }

  lemma SuccessfulIsValidated(ctx: Context, caller: Identity, call: ToolCall, stripped: ToolCall, d: Decision,
                              d': Decision, r: RouteEntry, routes: seq<RouteEntry>)
    requires DecisionIsValidated(Evaluate(caller, call, Some(d)), routes)
    requires DecisionIsValidated(Evaluate(caller, stripped, Some(d')), routes)
    ensures DecidedByValidated(Successful(ctx, caller, call, stripped, d, d', r), routes)
  {
    OnlyTwoDecisions((e: Event) => e.Evaluate? && DecisionIsValidated(e, routes), ctx, caller, call, stripped, d, d',
                     r);
  }

  /** Exactly when a slash-free tool of an on-behalf-of route can be called at all: when its own name is a route
      prefix. */
  lemma OboToolReachableIff(routes: seq<RouteEntry>, r: RouteEntry, t: string)
    requires GoodPrefixes(routes) && PlainPrefixes(routes) && r in routes && r.oboProvider != ""
    requires '/' !in t && t != ""
    ensures Reachable(routes, r, t) <==> Routed(routes, t)
  {
    if Routed(routes, t) {
      RoutePrefixIsReachable(routes, r, t);
    } else if Reachable(routes, r, t) {
      var seg, ctx, call, s, resp :| Reaches(seg, ctx, call, s, resp, routes, r, t);
      OboToolIsOutOfReach(seg, ctx, call, s, resp, r, t);
    }
  }
}
