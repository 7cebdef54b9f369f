/** What holds of every request, and of every run of interleaved requests, through the broker. */
module ExecutionSafety {
  import opened Text
  import opened Domain
  import opened Routing
  import opened Outside
  import opened OboPipeline
  import opened Discovery
  import opened Broker

  /** The caller was resolved in this request's context and permitted on the call under its qualified name. */
  ghost predicate Permitted(seg: seq<Event>, ctx: Context, call: ToolCall) {
    && |seg| >= 2 && seg[0].Resolve? && seg[0].ctx == ctx && seg[0].who.Ok?
    && seg[1].Evaluate? && seg[1].caller == seg[0].who.value && seg[1].call == call
    && seg[1].decision.Some? && seg[1].decision.value.permitted
  }

  /** The rest of a standard forward: the credential of this route's prefix, an assertion for this caller, and both sent
      with the stripped call to this route's backend. */
  ghost predicate StandardForward(seg: seq<Event>, ctx: Context, call: ToolCall, caller: Identity, route: RouteEntry,
                                  s: Setup) {
    && |seg| == 3
    && seg[0].Credential? && seg[0].prefix == route.prefix && seg[0].secret.Some?
    && seg[1].Mint? && seg[1].subject == caller && seg[1].token.Some?
    && seg[1].originJTI == (if ctx.bearer.Some? && ctx.bearer.value != "" then s.world.jtiOf(ctx.bearer.value) else "")
    && seg[2].Contact?
    && seg[2].sent == Outbound(route.backendURI, call, seg[0].secret.value, seg[1].token.value,
                               route.transport == "sse")
  }

  /** What must have happened between the permit and a contact: on an on-behalf-of route the stripped call was permitted
      again, and the token is the one stored for the caller; on any other route see above. */
  ghost predicate Dispatched(seg: seq<Event>, ctx: Context, call: ToolCall, caller: Identity, s: Setup) {
    match FindRoute(s.routes, ToolName(call))
    case None => false
    case Some(route) =>
      var forwarded := Stripped(call, route.prefix);
      if route.oboProvider != "" then ContactJustified(seg, forwarded, route)
      else StandardForward(seg, ctx, forwarded, caller, route, s)
  }

  /** Everything that must have happened in a request before its last event contacts a backend. */
  ghost predicate Forwarded(seg: seq<Event>, ctx: Context, call: ToolCall, s: Setup) {
    Permitted(seg, ctx, call) && Dispatched(seg[2..], ctx, call, seg[0].who.value, s)
  }

  /** The client gets what the contacted backend said exactly when it said something. */
  ghost predicate PassedOn(seg: seq<Event>, resp: Response) {
    && (resp.FromBackend? <==> |seg| >= 1 && seg[|seg| - 1].Contact? && seg[|seg| - 1].reply.Some?)
    && (resp.FromBackend? && |seg| >= 1 && seg[|seg| - 1].Contact? ==> seg[|seg| - 1].reply == Some(resp.content))
  }

  ghost predicate OnlyLast(seg: seq<Event>) {
    forall k | 0 <= k < |seg| && seg[k].Contact? :: k == |seg| - 1
  }

  lemma StandardPart(seg: seq<Event>, ctx: Context, call: ToolCall, caller: Identity, route: RouteEntry, s: Setup,
                     resp: Response)
    requires StandardTranscript(seg, ctx, call, caller, route, s, resp)
    ensures OnlyLast(seg) && PassedOn(seg, resp) && |seg| >= 1 && seg[0].Credential?
    ensures forall k | 0 <= k < |seg| :: !seg[k].Evaluate?
    ensures seg[|seg| - 1].Contact? ==> StandardForward(seg, ctx, call, caller, route, s)
  {
    assert forall k | 1 <= k < |seg| :: seg[k] == seg[1..][k - 1];
  }

  lemma OboPart(seg: seq<Event>, ctx: Context, call: ToolCall, route: RouteEntry, s: Setup, resp: Response)
    requires OboTranscript(seg, ctx, call, route, s, resp)
    ensures OnlyLast(seg) && PassedOn(seg, resp)
    ensures forall k | 0 <= k < |seg| && seg[k].Evaluate? :: seg[k].call == call
    ensures seg != [] && seg[|seg| - 1].Contact? ==> ContactJustified(seg, call, route)
  {
    if s.obo.Some? {
      var out :| ExecuteTranscript(seg, ctx, call, route, s.world, s.obo.value.0, s.obo.value.1, out)
              && resp == OrUnavailable(call.id, out);
      OboContactIsJustified(seg, ctx, call, route, s.world, s.obo.value.0, s.obo.value.1, out);
    }
  }

  lemma RoutingPart(seg: seq<Event>, ctx: Context, call: ToolCall, caller: Identity, s: Setup, resp: Response)
    requires RoutingTranscript(seg, ctx, call, caller, s, resp)
    ensures OnlyLast(seg) && PassedOn(seg, resp)
    ensures seg != [] && seg[|seg| - 1].Contact? ==> Dispatched(seg, ctx, call, caller, s)
  {
    var found := FindRoute(s.routes, ToolName(call));
    if found.Some? {
      var forwarded := Stripped(call, found.value.prefix);
      if found.value.oboProvider != "" {
        OboPart(seg, ctx, forwarded, found.value, s, resp);
      } else {
        StandardPart(seg, ctx, forwarded, caller, found.value, s, resp);
      }
    }
  }

  lemma Later(seg: seq<Event>, n: nat, resp: Response)
    requires n <= |seg| && OnlyLast(seg[n..]) && PassedOn(seg[n..], resp)
    requires forall k | 0 <= k < n :: !seg[k].Contact?
    ensures OnlyLast(seg) && PassedOn(seg, resp)
    ensures |seg| >= 1 && seg[|seg| - 1].Contact? ==> n < |seg| && seg[n..][|seg[n..]| - 1].Contact?
  {
    assert forall k | n <= k < |seg| :: seg[k] == seg[n..][k - n];
  }

  /** What is so of the events after the first two is so of all of them. */
  lemma PermittedPart(seg: seq<Event>, rest: seq<Event>, resp: Response)
    requires |seg| >= 2 && rest == seg[2..] && !seg[0].Contact? && !seg[1].Contact?
    requires OnlyLast(rest) && PassedOn(rest, resp)
    ensures OnlyLast(seg) && PassedOn(seg, resp)
    ensures seg[|seg| - 1].Contact? ==> rest != [] && rest[|rest| - 1].Contact?
  {
    Later(seg, 2, resp);
  }

  /** The first two events, and what follows them. */
  lemma FirstTwo(seg: seq<Event>, ctx: Context, call: ToolCall, s: Setup, resp: Response)
    requires ExecutionTranscript(seg, ctx, call, s, resp)
    ensures if Permitted(seg, ctx, call) then RoutingTranscript(seg[2..], ctx, call, seg[0].who.value, s, resp)
            else |seg| <= 2 && Quietly(seg) && !resp.FromBackend?
  {
    if seg[0].who.Ok? {
      assert seg[1] == seg[1..][0] && seg[1..][1..] == seg[2..];
    }
  }

  ghost predicate Quietly(seg: seq<Event>) {
    forall k | 0 <= k < |seg| :: !seg[k].Contact?
  }

  /** A backend is contacted at most once, as the last thing a request does, and only when everything above came
      before it in the same request; and its answer is passed on. */
  lemma ExecutionIsSafe(seg: seq<Event>, ctx: Context, call: ToolCall, s: Setup, resp: Response)
    requires ExecutionTranscript(seg, ctx, call, s, resp)
    ensures OnlyLast(seg) && PassedOn(seg, resp)
    ensures seg[|seg| - 1].Contact? ==> Forwarded(seg, ctx, call, s)
  {
    FirstTwo(seg, ctx, call, s, resp);
    if Permitted(seg, ctx, call) {
      RoutingPart(seg[2..], ctx, call, seg[0].who.value, s, resp);
      PermittedPart(seg, seg[2..], resp);
    }
  }

  /** Discovery contacts no backend with a tool call and consults no call policy. */
  lemma DiscoveryIsQuiet(seg: seq<Event>, ctx: Context, id: string, routes: seq<RouteEntry>, hasStore: bool,
                         resp: Response)
    requires DiscoveryTranscript(seg, ctx, id, routes, hasStore, resp)
    ensures Quiet(seg) && !resp.FromBackend?
  {
    if seg[0].who.Ok? {
      var rest := seg[1..];
      AggregateIsQuiet(rest[..|rest| - 1], ctx, routes, hasStore);
      assert forall k | 1 <= k < |seg| :: seg[k] == rest[k - 1];
      assert forall k | 0 <= k < |rest| - 1 :: rest[k] == rest[..|rest| - 1][k];
    }
  }

  lemma AggregateIsQuiet(seg: seq<Event>, ctx: Context, routes: seq<RouteEntry>, hasStore: bool)
    requires AggregateTranscript(seg, ctx, routes, hasStore)
    ensures Quiet(seg)
  {
    if hasStore {
      ListingsAreJustified(seg[1..], routes, Known(seg[0].who));
      assert forall k | 1 <= k < |seg| :: seg[k] == seg[1..][k - 1];
    } else {
      ListingsAreJustified(seg, routes, None);
    }
  }

  /** The same for any request: only a well-formed execution request ever contacts a backend. */
  lemma HandleIsSafe(seg: seq<Event>, ctx: Context, req: Inbound, s: Setup, resp: Response)
    requires HandleTranscript(seg, ctx, req, s, resp)
    ensures OnlyLast(seg) && PassedOn(seg, resp)
    ensures seg != [] && seg[|seg| - 1].Contact? ==>
              Parse(req).Ok? && Parse(req).value.verb == "tools/call" && Forwarded(seg, ctx, Parse(req).value, s)
  {
    var parsed := Parse(req);
    if parsed.Ok? && parsed.value.verb == "tools/list" {
      DiscoveryIsQuiet(seg, ctx, parsed.value.id, s.routes, s.hasStore, resp);
    } else if parsed.Ok? && parsed.value.verb == "tools/call" {
      ExecutionIsSafe(seg, ctx, parsed.value, s, resp);
    }
  }

  // ---------------------------------------------------------------------
  // Denials
  // ---------------------------------------------------------------------

  /** The last thing that happened is that the policy did not permit. */
  ghost predicate EndsInDenial(seg: seq<Event>) {
    seg != [] && seg[|seg| - 1].Evaluate? && seg[|seg| - 1].decision.Some? && !seg[|seg| - 1].decision.value.permitted
  }

  lemma PolicyDenies(seg: seq<Event>, r: Resolved, call: ToolCall, route: RouteEntry, world: World, hasSse: bool,
                     out: Option<Response>)
    requires PolicyTranscript(seg, r, call, route, world, hasSse, out)
    ensures out == Some(ErrorResponse(call.id, POLICY_DENIED)) <==> EndsInDenial(seg)
  {
    PolicyPart(seg, r, call, route, world, hasSse, out);
  }

  lemma ExecuteDenies(seg: seq<Event>, ctx: Context, call: ToolCall, route: RouteEntry,
                      world: World, hasRefresher: bool, hasSse: bool, out: Option<Response>)
    requires ExecuteTranscript(seg, ctx, call, route, world, hasRefresher, hasSse, out)
    ensures out == Some(ErrorResponse(call.id, POLICY_DENIED)) <==> EndsInDenial(seg)
  {
    var k: nat, who :|
      && k <= |seg| && IdentityTranscript(seg[..k], ctx, world, hasRefresher, who)
      && match who
         case Err(_) => k == |seg| && out == None
         case Ok(r) => PolicyTranscript(seg[k..], r, call, route, world, hasSse, out);
    IdentityIsCurrent(seg[..k], ctx, world, hasRefresher, who);
    if who.Ok? {
      PolicyDenies(seg[k..], who.value, call, route, world, hasSse, out);
      assert seg[|seg| - 1] == seg[k..][|seg[k..]| - 1];
    } else {
      assert seg[..k] == seg;
    }
  }

  lemma DispatchDenies(seg: seq<Event>, ctx: Context, call: ToolCall, caller: Identity, s: Setup, resp: Response)
    requires RoutingTranscript(seg, ctx, call, caller, s, resp)
    ensures resp == ErrorResponse(call.id, POLICY_DENIED) <==> EndsInDenial(seg)
  {
    var found := FindRoute(s.routes, ToolName(call));
    if found.Some? {
      var route := found.value;
      var forwarded := Stripped(call, route.prefix);
      if route.oboProvider == "" {
        StandardPart(seg, ctx, forwarded, caller, route, s, resp);
      } else if s.obo.Some? {
        var o := s.obo.value;
        var out :| ExecuteTranscript(seg, ctx, forwarded, route, s.world, o.0, o.1, out)
            && resp == OrUnavailable(forwarded.id, out);
        ExecuteDenies(seg, ctx, forwarded, route, s.world, o.0, o.1, out);
      }
    }
  }

  /** A client is told that the policy denies exactly when the policy's last word in its request was a denial, and
      nothing came after that: no credential is fetched, nothing is minted and no backend is contacted. */
  lemma DeniedIffLastWordIsDenial(seg: seq<Event>, ctx: Context, call: ToolCall, s: Setup, resp: Response)
    requires ExecutionTranscript(seg, ctx, call, s, resp)
    ensures resp == ErrorResponse(call.id, POLICY_DENIED) <==> EndsInDenial(seg)
  {
    FirstTwo(seg, ctx, call, s, resp);
    if Permitted(seg, ctx, call) {
      var rest := seg[2..];
      DispatchDenies(rest, ctx, call, seg[0].who.value, s, resp);
      assert rest != [] ==> seg[|seg| - 1] == rest[|rest| - 1];
    } else if seg[0].who.Ok? {
      assert seg[1..][0] == seg[1];
    }
  }

  // ---------------------------------------------------------------------
  // Progress on standard routes
  // ---------------------------------------------------------------------

  /** On a standard route a request reaches the backend exactly when its four checks pass. */
  lemma StandardForwardIff(seg: seq<Event>, ctx: Context, call: ToolCall, s: Setup, resp: Response)
    requires ExecutionTranscript(seg, ctx, call, s, resp)
    requires var found := FindRoute(s.routes, ToolName(call)); found.Some? && found.value.oboProvider == ""
    ensures seg[|seg| - 1].Contact? <==>
            && Permitted(seg, ctx, call)
            && |seg| >= 4 && seg[2].Credential? && seg[2].secret.Some? && seg[3].Mint? && seg[3].token.Some?
  {
    ExecutionIsSafe(seg, ctx, call, s, resp);
    if seg[0].who.Ok? {
      var rest := seg[1..];
      assert seg[1] == rest[0];
      if rest[0].decision.Some? && rest[0].decision.value.permitted {
        assert rest[1..] == seg[2..];
        assert forall k | 2 <= k < |seg| :: seg[k] == seg[2..][k - 2];
        assert seg[2..][1..] == seg[3..];
      }
    }
  }

  // ---------------------------------------------------------------------
  // Every step of a permitted request
  // ---------------------------------------------------------------------

  /** The steps on a standard route, by their place: each is taken exactly when the one before it succeeded. */
  ghost predicate StandardSteps(seg: seq<Event>, ctx: Context, call: ToolCall, caller: Identity, route: RouteEntry,
                                world: World)
  {
    && 1 <= |seg| <= 3 && seg[0].Credential? && seg[0].prefix == route.prefix
    && (|seg| >= 2 <==> seg[0].secret.Some?)
    && (|seg| >= 2 ==> && seg[1].Mint? && seg[1].subject == caller
                       && seg[1].originJTI == if ctx.bearer.Some? && ctx.bearer.value != ""
                                              then world.jtiOf(ctx.bearer.value) else "")
    && (|seg| >= 3 <==> |seg| >= 2 && seg[1].token.Some?)
    && (|seg| >= 3 ==> && seg[2].Contact? && seg[2].sent.uri == route.backendURI && seg[2].sent.call == call
                       && seg[2].sent.credential == seg[0].secret.value
                       && seg[2].sent.assertion == seg[1].token.value && seg[2].sent.sse == (route.transport == "sse"))
  }

  lemma StandardTakesSteps(seg: seq<Event>, ctx: Context, call: ToolCall, caller: Identity, route: RouteEntry, s: Setup,
                           resp: Response)
    requires StandardTranscript(seg, ctx, call, caller, route, s, resp)
    ensures StandardSteps(seg, ctx, call, caller, route, s.world)
  {
    assert forall k | 1 <= k < |seg| :: seg[k] == seg[1..][k - 1];
  }

  /** The steps on an on-behalf-of route: the first `k` establish the caller, the others act for them. */
  ghost predicate OboSteps(seg: seq<Event>, k: int, ctx: Context, call: ToolCall, route: RouteEntry, s: Setup)
    requires s.obo.Some?
  {
    && 1 <= k <= |seg| && IdentitySteps(seg[..k], ctx, s.world, s.obo.value.0)
    && if seg[k - 1].Resolve? && seg[k - 1].who.Ok? then
         PolicySteps(seg[k..], Resolved(seg[k - 1].who.value, seg[k - 1].ctx), call, route, s.world, s.obo.value.1)
       else k == |seg|
  }

  lemma PipelineTakesSteps(seg: seq<Event>, ctx: Context, call: ToolCall, route: RouteEntry, s: Setup,
                           out: Option<Response>)
    requires s.obo.Some?
    requires ExecuteTranscript(seg, ctx, call, route, s.world, s.obo.value.0, s.obo.value.1, out)
    ensures exists k :: OboSteps(seg, k, ctx, call, route, s)
  {
    var k: nat, who :|
      && k <= |seg| && IdentityTranscript(seg[..k], ctx, s.world, s.obo.value.0, who)
      && match who
         case Err(_) => k == |seg| && out == None
         case Ok(r) => PolicyTranscript(seg[k..], r, call, route, s.world, s.obo.value.1, out);
    IdentityTakesSteps(seg[..k], ctx, s.world, s.obo.value.0, who);
    assert seg[k - 1] == seg[..k][k - 1];
    if who.Ok? {
      PolicyTakesSteps(seg[k..], who.value, call, route, s.world, s.obo.value.1, out);
    }
    assert OboSteps(seg, k, ctx, call, route, s);
  }

  /** What is done for a permitted request, in full: nothing without a route or, on an on-behalf-of route, without a
      pipeline; otherwise these steps, on the call with its prefix taken off. */
  ghost predicate TakesSteps(seg: seq<Event>, ctx: Context, call: ToolCall, caller: Identity, s: Setup) {
    match FindRoute(s.routes, ToolName(call))
    case None => seg == []
    case Some(route) =>
      if route.oboProvider == "" then StandardSteps(seg, ctx, Stripped(call, route.prefix), caller, route, s.world)
      else if s.obo.None? then seg == []
      else exists k :: OboSteps(seg, k, ctx, Stripped(call, route.prefix), route, s)
  }

  lemma DispatchTakesSteps(seg: seq<Event>, ctx: Context, call: ToolCall, caller: Identity, s: Setup, resp: Response)
    requires RoutingTranscript(seg, ctx, call, caller, s, resp)
    ensures TakesSteps(seg, ctx, call, caller, s)
  {
    var found := FindRoute(s.routes, ToolName(call));
    if found.Some? {
      var route := found.value;
      var forwarded := Stripped(call, route.prefix);
      if route.oboProvider == "" {
        StandardTakesSteps(seg, ctx, forwarded, caller, route, s, resp);
      } else if s.obo.Some? {
        var o := s.obo.value;
        var out :| ExecuteTranscript(seg, ctx, forwarded, route, s.world, o.0, o.1, out)
                && resp == OrUnavailable(forwarded.id, out);
        PipelineTakesSteps(seg, ctx, forwarded, route, s, out);
      }
    }
  }

  /** Every request is resolved, evaluated if that succeeded, and, exactly if permitted, taken through its route's
      steps. */
  lemma RequestTakesSteps(seg: seq<Event>, ctx: Context, call: ToolCall, s: Setup, resp: Response)
    requires ExecutionTranscript(seg, ctx, call, s, resp)
    ensures seg[0].Resolve? && seg[0].ctx == ctx
    ensures |seg| >= 2 <==> seg[0].who.Ok?
    ensures |seg| >= 2 ==> seg[1].Evaluate? && seg[1].caller == seg[0].who.value && seg[1].call == call
    ensures if Permitted(seg, ctx, call) then TakesSteps(seg[2..], ctx, call, seg[0].who.value, s) else |seg| <= 2
  {
    FirstTwo(seg, ctx, call, s, resp);
    assert |seg| >= 2 ==> seg[1..][0] == seg[1];
    if Permitted(seg, ctx, call) {
      DispatchTakesSteps(seg[2..], ctx, call, seg[0].who.value, s, resp);
    }
  }

  // ---------------------------------------------------------------------
  // Runs of many interleaved requests
  // ---------------------------------------------------------------------

  datatype Request = Request(ctx: Context, inbound: Inbound)

  /** An event of the request with this number. */
  datatype Tagged = Tagged(id: nat, event: Event)

  /** The events of one request, in order. */
  function Own(log: seq<Tagged>, id: nat): seq<Event>
    decreases |log|
  {
    if log == [] then []
    else
      var last := log[|log| - 1];
      Own(log[..|log| - 1], id) + (if last.id == id then [last.event] else [])
  }

  /** At any moment each request has done a first part of what `Handle` does for it. */
  ghost predicate UnderWay(log: seq<Tagged>, reqs: seq<Request>, s: Setup) {
    && (forall k | 0 <= k < |log| :: log[k].id < |reqs|)
    && forall id | 0 <= id < |reqs| :: PartOfHandle(Own(log, id), reqs[id], s)
  }

  ghost predicate PartOfHandle(own: seq<Event>, req: Request, s: Setup) {
    exists seg, resp :: own <= seg && HandleTranscript(seg, req.ctx, req.inbound, s, resp)
  }

  lemma {:induction false} OwnPrefix(log: seq<Tagged>, k: nat, id: nat)
    requires k <= |log|
    ensures Own(log[..k], id) <= Own(log, id)
    decreases |log|
  {
    if k == |log| {
      assert log[..k] == log;
    } else {
      OwnPrefix(log[..|log| - 1], k, id);
      assert log[..|log| - 1][..k] == log[..k];
    }
  }

  lemma {:induction false} OwnIsLogged(log: seq<Tagged>, id: nat, e: Event)
    requires e in Own(log, id)
    ensures Tagged(id, e) in log
    decreases |log|
  {
    var front, last := log[..|log| - 1], log[|log| - 1];
    if e in Own(front, id) {
      OwnIsLogged(front, id, e);
    }
  }

  /** Before position `k`, this request's caller was resolved and permitted on its call. */
  ghost predicate PermittedBefore(log: seq<Tagged>, k: nat, id: nat, req: Request, call: ToolCall)
    requires k <= |log|
  {
    exists caller: Identity, d: Decision ::
      && d.permitted
      && Tagged(id, Resolve(req.ctx, Ok(caller))) in log[..k]
      && Tagged(id, Evaluate(caller, call, Some(d))) in log[..k]
  }

  /** In every run of any number of interleaved requests, at every moment, a backend has been contacted only for a
      well-formed execution request whose own caller was resolved and permitted earlier in the run, and the
      events of that request up to the contact are a justified forward. */
  lemma EveryContactIsJustified(log: seq<Tagged>, reqs: seq<Request>, s: Setup, k: nat)
    requires UnderWay(log, reqs, s) && k < |log| && log[k].event.Contact?
    ensures var req := reqs[log[k].id];
            && Parse(req.inbound).Ok? && Parse(req.inbound).value.verb == "tools/call"
            && Forwarded(Own(log[..k + 1], log[k].id), req.ctx, Parse(req.inbound).value, s)
            && PermittedBefore(log, k, log[k].id, req, Parse(req.inbound).value)
  {
    var id := log[k].id;
    var req := reqs[id];
    assert PartOfHandle(Own(log, id), req, s);
    var seg, resp :| Own(log, id) <= seg && HandleTranscript(seg, req.ctx, req.inbound, s, resp);
    HandleIsSafe(seg, req.ctx, req.inbound, s, resp);
    OwnPrefix(log, k + 1, id);
    var own := Own(log[..k + 1], id);
    assert log[..k + 1][..k] == log[..k];
    assert own == Own(log[..k], id) + [log[k].event];
    assert seg[|own| - 1] == log[k].event;
    assert own == seg;
    PermittedEarlier(own, log, k, id, req, Parse(req.inbound).value);
  }

  lemma PermittedEarlier(own: seq<Event>, log: seq<Tagged>, k: nat, id: nat, req: Request, call: ToolCall)
    requires k < |log| && log[k].event.Contact? && own == Own(log[..k], id) + [log[k].event]
    requires Permitted(own, req.ctx, call)
    ensures PermittedBefore(log, k, id, req, call)
  {
    var before := Own(log[..k], id);
    assert own[0] == before[0] && own[1] == before[1];
    OwnIsLogged(log[..k], id, before[0]);
    OwnIsLogged(log[..k], id, before[1]);
    var caller, d := own[0].who.value, own[1].decision.value;
    assert own[0] == Resolve(req.ctx, Ok(caller)) && own[1] == Evaluate(caller, call, Some(d));
  }
}
