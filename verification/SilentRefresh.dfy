/** The silent session refresh as clients meet it, through the broker, which resolves the caller before the pipeline
    does. */
module SilentRefresh {
  import opened Text
  import opened Domain
  import opened Routing
  import opened Outside
  import opened OboPipeline
  import opened Broker
  import opened ExecutionSafety

  ghost predicate Refreshes(seg: seq<Event>) {
    exists k | 0 <= k < |seg| :: seg[k].SessionRefresh?
  }

  /** The pipeline's own resolve failed for an expired session that can be refreshed, and a refresh token is stored. */
  ghost predicate FindsRefreshToken(seg: seq<Event>, ctx: Context, world: World, hasRefresher: bool) {
    && |seg| >= 2 && seg[0] == Resolve(ctx, Err(Unauthorized))
    && Refreshable(Unauthorized, ctx, hasRefresher) && world.userIDOf(ctx.bearer.value) != ""
    && seg[1].TokenGet? && seg[1].found.Ok?
  }

  lemma IdentityRefreshesIff(seg: seq<Event>, ctx: Context, world: World, hasRefresher: bool,
                             out: Result<Resolved, Failure>)
    requires IdentityTranscript(seg, ctx, world, hasRefresher, out)
    ensures Refreshes(seg) <==> FindsRefreshToken(seg, ctx, world, hasRefresher)
  {
    IdentityIsCurrent(seg, ctx, world, hasRefresher, out);
    if seg[0].who.Err? && |seg| > 1 {
      var rest := seg[1..];
      assert rest[0] == seg[1];
      if rest[0].found.Ok? {
        assert seg[2] == rest[1];
      }
    }
  }

  lemma PolicyPartNeverRefreshes(seg: seq<Event>, r: Resolved, call: ToolCall, route: RouteEntry, world: World,
                                 hasSse: bool, out: Option<Response>)
    requires PolicyTranscript(seg, r, call, route, world, hasSse, out)
    ensures !Refreshes(seg)
  {
    var t := seg[1..];
    assert forall k | 1 <= k < |seg| :: seg[k] == t[k - 1];
    if |seg| > 1 {
      assert forall k | 2 <= k < |seg| :: seg[k] == t[1..][k - 2];
    }
  }

  lemma RefreshesInParts(a: seq<Event>, b: seq<Event>)
    ensures Refreshes(a + b) <==> Refreshes(a) || Refreshes(b)
  {
    if k :| 0 <= k < |a| && a[k].SessionRefresh? {
      assert (a + b)[k].SessionRefresh?;
    }
    if k :| 0 <= k < |b| && b[k].SessionRefresh? {
      assert (a + b)[|a| + k].SessionRefresh?;
    }
  }

  /** What an identity segment says of the refresh, the events after it do not change. */
  lemma SameStart(a: seq<Event>, b: seq<Event>, ctx: Context, world: World, hasRefresher: bool)
    requires a != [] && (|a| == 1 ==> b == [] || b[0].Evaluate?)
    ensures FindsRefreshToken(a + b, ctx, world, hasRefresher) <==> FindsRefreshToken(a, ctx, world, hasRefresher)
  {
    assert (a + b)[0] == a[0];
    assert |a| >= 2 ==> (a + b)[1] == a[1];
    assert |a| == 1 && b != [] ==> (a + b)[1] == b[0];
  }

  lemma ExecuteRefreshesIff(seg: seq<Event>, ctx: Context, call: ToolCall, route: RouteEntry,
                            world: World, hasRefresher: bool, hasSse: bool, out: Option<Response>)
    requires ExecuteTranscript(seg, ctx, call, route, world, hasRefresher, hasSse, out)
    ensures Refreshes(seg) <==> FindsRefreshToken(seg, ctx, world, hasRefresher)
  {
    var k: nat, who :|
      && k <= |seg| && IdentityTranscript(seg[..k], ctx, world, hasRefresher, who)
      && match who
         case Err(_) => k == |seg| && out == None
         case Ok(r) => PolicyTranscript(seg[k..], r, call, route, world, hasSse, out);
    var a, b := seg[..k], seg[k..];
    assert a + b == seg;
    IdentityRefreshesIff(a, ctx, world, hasRefresher, who);
    if who.Ok? {
      PolicyPartNeverRefreshes(b, who.value, call, route, world, hasSse, out);
    }
    RefreshesInParts(a, b);
    SameStart(a, b, ctx, world, hasRefresher);
  }

  lemma StandardNeverRefreshes(seg: seq<Event>, ctx: Context, call: ToolCall, caller: Identity, route: RouteEntry,
                               s: Setup, resp: Response)
    requires StandardTranscript(seg, ctx, call, caller, route, s, resp)
    ensures !Refreshes(seg)
  {
    assert forall k | 1 <= k < |seg| :: seg[k] == seg[1..][k - 1];
  }

  /** When a permitted request, after its first two events, gets to a silent refresh. */
  ghost predicate DispatchFindsRefreshToken(seg: seq<Event>, ctx: Context, call: ToolCall, s: Setup) {
    var found := FindRoute(s.routes, ToolName(call));
    && found.Some? && found.value.oboProvider != "" && s.obo.Some?
    && FindsRefreshToken(seg, ctx, s.world, s.obo.value.0)
  }

  lemma DispatchRefreshesIff(seg: seq<Event>, ctx: Context, call: ToolCall, caller: Identity, s: Setup, resp: Response)
    requires RoutingTranscript(seg, ctx, call, caller, s, resp)
    ensures Refreshes(seg) <==> DispatchFindsRefreshToken(seg, ctx, call, s)
  {
    var found := FindRoute(s.routes, ToolName(call));
    if found.Some? {
      var route := found.value;
      var forwarded := Stripped(call, route.prefix);
      if route.oboProvider == "" {
        StandardNeverRefreshes(seg, ctx, forwarded, caller, route, s, resp);
      } else if s.obo.Some? {
        var o := s.obo.value;
        var out :| ExecuteTranscript(seg, ctx, forwarded, route, s.world, o.0, o.1, out)
                && resp == OrUnavailable(forwarded.id, out);
        ExecuteRefreshesIff(seg, ctx, forwarded, route, s.world, o.0, o.1, out);
      }
    }
  }

  /** Exactly when a request refreshes the session silently: its token was accepted by the broker's own resolve, the
      call was permitted and goes to the pipeline, and there the same token, in the same context, is refused as
      expired. */
  lemma RefreshesIff(seg: seq<Event>, ctx: Context, call: ToolCall, s: Setup, resp: Response)
    requires ExecutionTranscript(seg, ctx, call, s, resp)
    ensures Refreshes(seg) <==> Permitted(seg, ctx, call) && DispatchFindsRefreshToken(seg[2..], ctx, call, s)
  {
    FirstTwo(seg, ctx, call, s, resp);
    if Permitted(seg, ctx, call) {
      DispatchRefreshesIff(seg[2..], ctx, call, seg[0].who.value, s, resp);
      assert seg[..2] + seg[2..] == seg;
      RefreshesInParts(seg[..2], seg[2..]);
    } else if seg[0].who.Ok? {
      assert seg[1] == seg[1..][0];
    }
  }

  /** The same context is always resolved alike. */
  ghost predicate StableResolve(seg: seq<Event>) {
    forall i, j | 0 <= i < j < |seg| && seg[i].Resolve? && seg[j].Resolve? && seg[i].ctx == seg[j].ctx ::
        seg[i].who == seg[j].who
  }

  /** So while the answers to one context do not change within a request, the session is never refreshed: an expired
      token is refused by the broker before the pipeline is reached. */
  lemma NoRefreshUnderStableResolve(seg: seq<Event>, ctx: Context, call: ToolCall, s: Setup, resp: Response)
    requires ExecutionTranscript(seg, ctx, call, s, resp) && StableResolve(seg)
    ensures !Refreshes(seg)
    ensures seg[0].who == Err(Unauthorized) ==> |seg| == 1 && resp == ErrorResponse(call.id, UNAUTHORIZED)
  {
    RefreshesIff(seg, ctx, call, s, resp);
    assert forall k | 2 <= k < |seg| :: seg[k] == seg[2..][k - 2];
  }

  // ---------------------------------------------------------------------
  // What a failed refresh is answered with
  // ---------------------------------------------------------------------

  ghost predicate Decides(seg: seq<Event>) {
    exists k | 0 <= k < |seg| :: seg[k].Evaluate?
  }

  lemma LaterDecides(seg: seq<Event>, k: nat)
    requires k <= |seg|
    ensures Decides(seg[k..]) ==> Decides(seg)
  {
    if i :| 0 <= i < |seg[k..]| && seg[k..][i].Evaluate? {
      assert seg[k + i].Evaluate?;
    }
  }

  lemma PolicyDecides(seg: seq<Event>, r: Resolved, call: ToolCall, route: RouteEntry, world: World, hasSse: bool,
                      out: Option<Response>)
    requires PolicyTranscript(seg, r, call, route, world, hasSse, out)
    ensures Decides(seg)
  {
    assert seg[0].Evaluate?;
  }

  /** The pipeline ends without a policy decision exactly when it could not establish the caller, and then with an
      error. */
  lemma NoDecisionIsAnError(seg: seq<Event>, ctx: Context, call: ToolCall, route: RouteEntry,
                            world: World, hasRefresher: bool, hasSse: bool, out: Option<Response>)
    requires ExecuteTranscript(seg, ctx, call, route, world, hasRefresher, hasSse, out)
    requires !Decides(seg)
    ensures out == None
  {
    var k: nat, who :|
      && k <= |seg| && IdentityTranscript(seg[..k], ctx, world, hasRefresher, who)
      && match who
         case Err(_) => k == |seg| && out == None
         case Ok(r) => PolicyTranscript(seg[k..], r, call, route, world, hasSse, out);
    LaterDecides(seg, k);
    if who.Ok? {
      PolicyDecides(seg[k..], who.value, call, route, world, hasSse, out);
    }
  }

  /** The requirements promise the code of a missing session when the refresh token is absent or revoked. The broker
      answers every failure to establish the caller in the pipeline with the code of an unavailable service. */
  lemma LostSessionIsUnavailable(seg: seq<Event>, ctx: Context, call: ToolCall, s: Setup, resp: Response)
    requires ExecutionTranscript(seg, ctx, call, s, resp) && Permitted(seg, ctx, call)
    requires var found := FindRoute(s.routes, ToolName(call)); found.Some? && found.value.oboProvider != ""
    requires !Decides(seg[2..])
    ensures resp == ErrorResponse(call.id, SERVICE_UNAVAILABLE)
  {
    FirstTwo(seg, ctx, call, s, resp);
    if s.obo.Some? {
      var route, o := FindRoute(s.routes, ToolName(call)).value, s.obo.value;
      var forwarded := Stripped(call, route.prefix);
      var out :| ExecuteTranscript(seg[2..], ctx, forwarded, route, s.world, o.0, o.1, out)
              && resp == OrUnavailable(forwarded.id, out);
      NoDecisionIsAnError(seg[2..], ctx, forwarded, route, s.world, o.0, o.1, out);
    }
  }

  // ---------------------------------------------------------------------
  // Such requests exist
  // ---------------------------------------------------------------------

  /** A request of an accepted caller whose session the pipeline then finds expired, with no refresh token stored. */
  function LostSession(ctx: Context, caller: Identity, call: ToolCall, d: Decision, user: string): seq<Event> {
    [Resolve(ctx, Ok(caller)), Evaluate(caller, call, Some(d)),
     Resolve(ctx, Err(Unauthorized)), TokenGet(user, SESSION_PROVIDER, Err(NotConnected))]
  }

  lemma LostSessionPipeline(ctx: Context, caller: Identity, call: ToolCall, forwarded: ToolCall, route: RouteEntry,
                            d: Decision, world: World, hasSse: bool)
    requires Refreshable(Unauthorized, ctx, true) && world.userIDOf(ctx.bearer.value) != ""
    ensures var seg := LostSession(ctx, caller, call, d, world.userIDOf(ctx.bearer.value))[2..];
            ExecuteTranscript(seg, ctx, forwarded, route, world, true, hasSse, None)
  {
    var user := world.userIDOf(ctx.bearer.value);
    var seg := LostSession(ctx, caller, call, d, user)[2..];
    var out: Result<Resolved, Failure> := Err(Unauthenticated);
    assert seg[1..][0] == TokenGet(user, SESSION_PROVIDER, Err(NotConnected));
    assert RefreshTranscript(seg[1..], ctx, user, out);
    assert seg[..2] == seg;
    assert IdentityTranscript(seg[..2], ctx, world, true, out);
  }

  /** For every call that goes to a pipeline with a refresher, and every caller and token that names a user, there is a
      run that meets the hypotheses of `LostSessionIsUnavailable`: the refresh token is absent. */
  lemma SessionCanBeLost(ctx: Context, caller: Identity, call: ToolCall, d: Decision, s: Setup)
    requires var found := FindRoute(s.routes, ToolName(call)); found.Some? && found.value.oboProvider != ""
    requires d.permitted && s.obo.Some? && s.obo.value.0
    requires Refreshable(Unauthorized, ctx, true) && s.world.userIDOf(ctx.bearer.value) != ""
    ensures var seg := LostSession(ctx, caller, call, d, s.world.userIDOf(ctx.bearer.value));
            && ExecutionTranscript(seg, ctx, call, s, ErrorResponse(call.id, SERVICE_UNAVAILABLE))
            && Permitted(seg, ctx, call) && !Decides(seg[2..])
  {
    var route := FindRoute(s.routes, ToolName(call)).value;
    var forwarded := Stripped(call, route.prefix);
    var seg := LostSession(ctx, caller, call, d, s.world.userIDOf(ctx.bearer.value));
    var resp := ErrorResponse(call.id, SERVICE_UNAVAILABLE);
    LostSessionPipeline(ctx, caller, call, forwarded, route, d, s.world, s.obo.value.1);
    assert seg[1..][1..] == seg[2..];
    assert OrUnavailable(forwarded.id, None) == resp;
    assert OboTranscript(seg[2..], ctx, forwarded, route, s, resp);
    assert DecisionTranscript(seg[1..], ctx, call, caller, s, resp);
  }
}
