/** The on-behalf-of pipeline: identity with at most one silent refresh, policy, user token, forward. */
module OboPipeline {
  import opened Text
  import opened Domain
  import opened Outside

  const SESSION_PROVIDER := "cognito"

  datatype Resolved = Resolved(caller: Identity, ctx: Context)

  /** Whether an identity failure leads to a silent refresh. */
  predicate Refreshable(why: Failure, ctx: Context, hasRefresher: bool) {
    why == Unauthorized && hasRefresher && ctx.bearer.Some? && ctx.bearer.value != ""
  }

  // ---------------------------------------------------------------------
  // Transcripts: the calls that may be made, in order, and what they lead to
  // ---------------------------------------------------------------------

  ghost predicate IdentityTranscript(seg: seq<Event>, ctx: Context, world: World, hasRefresher: bool,
                                     out: Result<Resolved, Failure>) {
    && |seg| >= 1 && seg[0].Resolve? && seg[0].ctx == ctx
    && match seg[0].who
       case Ok(caller) => |seg| == 1 && out == Ok(Resolved(caller, ctx))
       case Err(why) =>
         if !Refreshable(why, ctx, hasRefresher) then |seg| == 1 && out == Err(why)
         else if world.userIDOf(ctx.bearer.value) == "" then |seg| == 1 && out == Err(Unauthorized)
         else RefreshTranscript(seg[1..], ctx, world.userIDOf(ctx.bearer.value), out)
  }

  ghost predicate RefreshTranscript(seg: seq<Event>, ctx: Context, user: string, out: Result<Resolved, Failure>) {
    && |seg| >= 1 && seg[0].TokenGet? && seg[0].user == user && seg[0].provider == SESSION_PROVIDER
    && match seg[0].found
       case Err(why) => |seg| == 1 && out == Err(if why == NotConnected then Unauthenticated else ServiceUnavailable)
       case Ok(stored) =>
         && |seg| >= 2 && seg[1].SessionRefresh? && seg[1].refreshToken == stored.refreshToken
         && match seg[1].renewed
            case None => |seg| == 2 && out == Err(Unauthenticated)
            case Some(pair) => RenewedTranscript(seg[2..], ctx.(bearer := Some(pair.accessToken)), user, pair, out)
  }

  ghost predicate RenewedTranscript(seg: seq<Event>, ctx: Context, user: string, pair: TokenPair,
                                    out: Result<Resolved, Failure>) {
    && |seg| == 2 && seg[0].TokenSave?
    && seg[0].user == user && seg[0].provider == SESSION_PROVIDER && seg[0].pair == pair
    && seg[1].Resolve? && seg[1].ctx == ctx
    && out == match seg[1].who
              case Ok(caller) => Ok(Resolved(caller, ctx))
              case Err(_) => Err(Unauthorized)
  }

  ghost predicate ExecuteTranscript(seg: seq<Event>, ctx: Context, call: ToolCall, route: RouteEntry,
                                    world: World, hasRefresher: bool, hasSse: bool, out: Option<Response>) {
    exists k: nat, who ::
      && k <= |seg| && IdentityTranscript(seg[..k], ctx, world, hasRefresher, who)
      && match who
         case Err(_) => k == |seg| && out == None
         case Ok(r) => PolicyTranscript(seg[k..], r, call, route, world, hasSse, out)
  }

  ghost predicate PolicyTranscript(seg: seq<Event>, r: Resolved, call: ToolCall, route: RouteEntry,
                                   world: World, hasSse: bool, out: Option<Response>) {
    && |seg| >= 1 && seg[0].Evaluate? && seg[0].caller == r.caller && seg[0].call == call
    && match seg[0].decision
       case None => |seg| == 1 && out == None
       case Some(d) =>
         if !d.permitted then |seg| == 1 && out == Some(ErrorResponse(call.id, POLICY_DENIED))
         else TokenTranscript(seg[1..], r, call, route, world, hasSse, out)
  }

  ghost predicate TokenTranscript(seg: seq<Event>, r: Resolved, call: ToolCall, route: RouteEntry,
                                  world: World, hasSse: bool, out: Option<Response>) {
    && |seg| >= 1 && seg[0].TokenGet? && seg[0].user == r.caller.userID && seg[0].provider == route.oboProvider
    && match seg[0].found
       case Err(why) =>
         |seg| == 1 && out == if why == NotConnected then Some(ErrorResponse(call.id, UNAUTHENTICATED)) else None
       case Ok(uat) =>
         SendTranscript(seg[1..], r.caller, OriginJTI(world, r.ctx), call, route, uat.accessToken,
                        route.transport == "sse" && hasSse, out)
  }

  /** Mint for `subject`, then contact the route's backend under `credential`. */
  ghost predicate SendTranscript(seg: seq<Event>, subject: Identity, originJTI: string, call: ToolCall,
                                 route: RouteEntry, credential: string, sse: bool, out: Option<Response>) {
    && |seg| >= 1 && seg[0].Mint? && seg[0].subject == subject && seg[0].originJTI == originJTI
    && match seg[0].token
       case None => |seg| == 1 && out == None
       case Some(token) =>
         && |seg| == 2 && seg[1].Contact?
         && seg[1].sent == Outbound(route.backendURI, call, credential, token, sse)
         && out == match seg[1].reply
                   case None => None
                   case Some(content) => Some(FromBackend(content))
  }

  // ---------------------------------------------------------------------
  // The pipeline
  // ---------------------------------------------------------------------

  class OboPipeline {
    const outside: Outside
    const hasRefresher: bool
    const hasSse: bool

    constructor (outside: Outside, hasRefresher: bool, hasSse: bool)
      ensures this.outside == outside && this.hasRefresher == hasRefresher && this.hasSse == hasSse
    {
      this.outside, this.hasRefresher, this.hasSse := outside, hasRefresher, hasSse;
    }

    method Execute(ctx: Context, call: ToolCall, route: RouteEntry)
      returns (out: Option<Response>, ghost seg: seq<Event>)
      modifies outside
      ensures outside.log == old(outside.log) + seg
      ensures ExecuteTranscript(seg, ctx, call, route, outside.world, hasRefresher, hasSse, out)
    {
      var who, first := ResolveIdentity(ctx);
      if who.Err? {
        assert first[..|first|] == first;
        return None, first;
      }
      ghost var rest;
      out, rest := EvaluateAndSend(who.value, call, route);
      Associate(old(outside.log), first, rest);
      seg := first + rest;
      assert seg[..|first|] == first && seg[|first|..] == rest;
    }

    method EvaluateAndSend(r: Resolved, call: ToolCall, route: RouteEntry)
      returns (out: Option<Response>, ghost seg: seq<Event>)
      modifies outside
      ensures outside.log == old(outside.log) + seg
      ensures PolicyTranscript(seg, r, call, route, outside.world, hasSse, out)
    {
      var decision := outside.DoEvaluate(r.caller, call);
      seg := [Evaluate(r.caller, call, decision)];
      if decision.None? {
        return None, seg;
      }
      if !decision.value.permitted {
        return Some(ErrorResponse(call.id, POLICY_DENIED)), seg;
      }
      ghost var rest;
      out, rest := SendWithUserToken(r, call, route);
      Associate(old(outside.log), seg, rest);
      seg := seg + rest;
      assert seg[1..] == rest;
    }

    method SendWithUserToken(r: Resolved, call: ToolCall, route: RouteEntry)
      returns (out: Option<Response>, ghost seg: seq<Event>)
      modifies outside
      ensures outside.log == old(outside.log) + seg
      ensures TokenTranscript(seg, r, call, route, outside.world, hasSse, out)
    {
      var uat := outside.DoTokenGet(r.caller.userID, route.oboProvider);
      seg := [TokenGet(r.caller.userID, route.oboProvider, uat)];
      if uat.Err? {
        if uat.error == NotConnected {
          return Some(ErrorResponse(call.id, UNAUTHENTICATED)), seg;
        }
        return None, seg;
      }
      ghost var rest;
      out, rest := MintAndContact(outside, r.caller, OriginJTI(outside.world, r.ctx), call, route,
                                  uat.value.accessToken, route.transport == "sse" && hasSse);
      Associate(old(outside.log), seg, rest);
      seg := seg + rest;
      assert seg[1..] == rest;
    }

    /** The caller and the context they were resolved under, after at most one silent refresh. */
    method ResolveIdentity(ctx: Context) returns (out: Result<Resolved, Failure>, ghost seg: seq<Event>)
      modifies outside
      ensures outside.log == old(outside.log) + seg
      ensures IdentityTranscript(seg, ctx, outside.world, hasRefresher, out)
    {
      var who := outside.DoResolve(ctx);
      seg := [Resolve(ctx, who)];
      if who.Ok? {
        return Ok(Resolved(who.value, ctx)), seg;
      }
      if !Refreshable(who.error, ctx, hasRefresher) {
        return Err(who.error), seg;
      }
      var user := outside.world.userIDOf(ctx.bearer.value);
      if user == "" {
        return Err(Unauthorized), seg;
      }
      ghost var rest;
      out, rest := RefreshSession(ctx, user);
      Associate(old(outside.log), seg, rest);
      seg := seg + rest;
      assert seg[1..] == rest;
    }

    method RefreshSession(ctx: Context, user: string) returns (out: Result<Resolved, Failure>, ghost seg: seq<Event>)
      modifies outside
      ensures outside.log == old(outside.log) + seg && RefreshTranscript(seg, ctx, user, out)
    {
      var stored := outside.DoTokenGet(user, SESSION_PROVIDER);
      seg := [TokenGet(user, SESSION_PROVIDER, stored)];
      if stored.Err? {
        return Err(if stored.error == NotConnected then Unauthenticated else ServiceUnavailable), seg;
      }
      var renewed := outside.DoSessionRefresh(stored.value.refreshToken);
      seg := seg + [SessionRefresh(stored.value.refreshToken, renewed)];
      if renewed.None? {
        return Err(Unauthenticated), seg;
      }
      ghost var rest;
      out, rest := SaveAndResolve(ctx.(bearer := Some(renewed.value.accessToken)), user, renewed.value);
      Associate(old(outside.log), seg, rest);
      seg := seg + rest;
      assert seg[2..] == rest;
    }

    /** A failed save is only logged. */
    method SaveAndResolve(newCtx: Context, user: string, pair: TokenPair)
      returns (out: Result<Resolved, Failure>, ghost seg: seq<Event>)
      modifies outside
      ensures outside.log == old(outside.log) + seg && RenewedTranscript(seg, newCtx, user, pair, out)
    {
      var ok := outside.DoTokenSave(user, SESSION_PROVIDER, pair);
      var who := outside.DoResolve(newCtx);
      seg := [TokenSave(user, SESSION_PROVIDER, pair, ok), Resolve(newCtx, who)];
      out := if who.Ok? then Ok(Resolved(who.value, newCtx)) else Err(Unauthorized);
    }
  }

  method MintAndContact(outside: Outside, subject: Identity, originJTI: string, call: ToolCall, route: RouteEntry,
                        credential: string, sse: bool) returns (out: Option<Response>, ghost seg: seq<Event>)
    modifies outside
    ensures outside.log == old(outside.log) + seg
    ensures SendTranscript(seg, subject, originJTI, call, route, credential, sse, out)
  {
    var token := outside.DoMint(subject, originJTI);
    seg := [Mint(subject, originJTI, token)];
    if token.None? {
      return None, seg;
    }
    var sent := Outbound(route.backendURI, call, credential, token.value, sse);
    var reply := outside.DoContact(sent);
    seg := seg + [Contact(sent, reply)];
    out := if reply.Some? then Some(FromBackend(reply.value)) else None;
  }

  // ---------------------------------------------------------------------
  // What the transcripts imply
  // ---------------------------------------------------------------------

  /** The resolved caller is the answer to the last call made, under the very context that is returned; the session is
      refreshed at most once, with the refresh token stored for the user that the expired token names. */
  lemma IdentityIsCurrent(seg: seq<Event>, ctx: Context, world: World, hasRefresher: bool,
                          out: Result<Resolved, Failure>)
    requires IdentityTranscript(seg, ctx, world, hasRefresher, out)
    ensures 1 <= |seg| <= 5
    ensures out.Ok? ==> seg[|seg| - 1] == Resolve(out.value.ctx, Ok(out.value.caller))
    ensures out.Ok? && out.value.ctx != ctx ==>
              && |seg| == 5 && seg[2].SessionRefresh? && seg[2].renewed.Some?
              && out.value.ctx == ctx.(bearer := Some(seg[2].renewed.value.accessToken))
    ensures forall k | 0 <= k < |seg| && seg[k].SessionRefresh? ::
              && k == 2 && ctx.bearer.Some? && seg[1].TokenGet? && seg[1].found.Ok?
              && seg[1].user == world.userIDOf(ctx.bearer.value) && seg[1].provider == SESSION_PROVIDER
              && seg[2].refreshToken == seg[1].found.value.refreshToken
    ensures forall k | 0 <= k < |seg| :: !seg[k].Contact? && !seg[k].Evaluate?
  {
    assert forall k | 1 <= k < |seg| :: seg[k] == seg[1..][k - 1];
    assert forall k | 3 <= k < |seg| :: seg[k] == seg[1..][2..][k - 3];
  }

  /** The calls that establish the caller, by their place: each is made exactly when the answers before it ask for
      it. */
  ghost predicate IdentitySteps(seg: seq<Event>, ctx: Context, world: World, hasRefresher: bool) {
    && 1 <= |seg| <= 5 && seg[0].Resolve? && seg[0].ctx == ctx
    && (|seg| >= 2 <==> && seg[0].who == Err(Unauthorized) && hasRefresher
                        && ctx.bearer.Some? && ctx.bearer.value != "" && world.userIDOf(ctx.bearer.value) != "")
    && (|seg| >= 2 ==> && seg[1].TokenGet? && seg[1].provider == "cognito"
                       && ctx.bearer.Some? && seg[1].user == world.userIDOf(ctx.bearer.value))
    && (|seg| >= 3 <==> |seg| >= 2 && seg[1].found.Ok?)
    && (|seg| >= 3 ==> seg[2].SessionRefresh? && seg[2].refreshToken == seg[1].found.value.refreshToken)
    && (|seg| >= 4 <==> |seg| >= 3 && seg[2].renewed.Some?)
    && (|seg| >= 4 ==> && |seg| == 5 && seg[3].TokenSave? && seg[3].user == seg[1].user && seg[3].provider == "cognito"
                       && seg[3].pair == seg[2].renewed.value
                       && seg[4].Resolve? && seg[4].ctx.saml == ctx.saml
                       && seg[4].ctx.bearer == Some(seg[3].pair.accessToken))
  }

  lemma IdentityTakesSteps(seg: seq<Event>, ctx: Context, world: World, hasRefresher: bool,
                           out: Result<Resolved, Failure>)
    requires IdentityTranscript(seg, ctx, world, hasRefresher, out)
    ensures IdentitySteps(seg, ctx, world, hasRefresher)
    ensures out.Ok? <==> seg[|seg| - 1].Resolve? && seg[|seg| - 1].who.Ok?
    ensures out.Ok? ==> seg[|seg| - 1] == Resolve(out.value.ctx, Ok(out.value.caller))
  {
    assert forall k | 1 <= k < |seg| :: seg[k] == seg[1..][k - 1];
    assert forall k | 3 <= k < |seg| :: seg[k] == seg[1..][2..][k - 3];
  }

  /** The calls after that, by their place. */
  ghost predicate PolicySteps(seg: seq<Event>, r: Resolved, call: ToolCall, route: RouteEntry, world: World,
                              hasSse: bool) {
    && 1 <= |seg| <= 4 && seg[0].Evaluate? && seg[0].caller == r.caller && seg[0].call == call
    && (|seg| >= 2 <==> seg[0].decision.Some? && seg[0].decision.value.permitted)
    && (|seg| >= 2 ==> seg[1].TokenGet? && seg[1].user == r.caller.userID && seg[1].provider == route.oboProvider)
    && (|seg| >= 3 <==> |seg| >= 2 && seg[1].found.Ok?)
    && (|seg| >= 3 ==> && seg[2].Mint? && seg[2].subject == r.caller
                       && seg[2].originJTI == if r.ctx.bearer.Some? && r.ctx.bearer.value != ""
                                              then world.jtiOf(r.ctx.bearer.value) else "")
    && (|seg| >= 4 <==> |seg| >= 3 && seg[2].token.Some?)
    && (|seg| >= 4 ==> && seg[3].Contact? && seg[3].sent.uri == route.backendURI && seg[3].sent.call == call
                       && seg[3].sent.credential == seg[1].found.value.accessToken
                       && seg[3].sent.assertion == seg[2].token.value
                       && seg[3].sent.sse == (route.transport == "sse" && hasSse))
  }

  /** What they lead to: the code of a denial or of a user who never connected, what the backend said, or an error. */
  ghost predicate PolicyAnswers(seg: seq<Event>, call: ToolCall, out: Option<Response>)
    requires seg != []
  {
    out == match seg[|seg| - 1]
           case Evaluate(_, _, Some(d)) => if d.permitted then None else Some(ErrorResponse(call.id, -32004))
           case TokenGet(_, _, Err(NotConnected)) => Some(ErrorResponse(call.id, -32001))
           case Contact(_, Some(content)) => Some(FromBackend(content))
           case _ => None
  }

  lemma PolicyTakesSteps(seg: seq<Event>, r: Resolved, call: ToolCall, route: RouteEntry, world: World, hasSse: bool,
                         out: Option<Response>)
    requires PolicyTranscript(seg, r, call, route, world, hasSse, out)
    ensures PolicySteps(seg, r, call, route, world, hasSse) && PolicyAnswers(seg, call, out)
  {
    var t := seg[1..];
    if |seg| > 1 {
      var u := t[1..];
      assert forall k | 1 <= k < |seg| :: seg[k] == t[k - 1];
      assert forall k | 2 <= k < |seg| :: seg[k] == u[k - 2];
    }
  }

  /** On this path a backend is contacted only as the last call, only after the stripped call was permitted for the
      resolved caller, under the token stored for that caller and the route's provider, and with an
      assertion minted for that caller. */
  ghost predicate ContactJustified(seg: seq<Event>, call: ToolCall, route: RouteEntry) {
    var n := |seg|;
    && n >= 5 && seg[n - 1].Contact?
    && seg[n - 5].Resolve? && seg[n - 5].who.Ok?
    && var caller := seg[n - 5].who.value;
       && seg[n - 4].Evaluate? && seg[n - 4].caller == caller && seg[n - 4].call == call
       && seg[n - 4].decision.Some? && seg[n - 4].decision.value.permitted
       && seg[n - 3].TokenGet? && seg[n - 3].user == caller.userID && seg[n - 3].provider == route.oboProvider
       && seg[n - 3].found.Ok? && seg[n - 3].found.value.accessToken == seg[n - 1].sent.credential
       && seg[n - 2].Mint? && seg[n - 2].subject == caller && seg[n - 2].token == Some(seg[n - 1].sent.assertion)
       && seg[n - 1].sent.call == call && seg[n - 1].sent.uri == route.backendURI
  }

  lemma PolicyPart(seg: seq<Event>, r: Resolved, call: ToolCall, route: RouteEntry, world: World, hasSse: bool,
                   out: Option<Response>)
    requires PolicyTranscript(seg, r, call, route, world, hasSse, out)
    ensures 1 <= |seg| <= 4 && seg[0].Evaluate? && seg[0].call == call
    ensures forall k | 1 <= k < |seg| :: !seg[k].Evaluate? && (seg[k].Contact? <==> k == 3)
    ensures |seg| == 4 ==> ContactJustified([Resolve(r.ctx, Ok(r.caller))] + seg, call, route)
    ensures out.Some? && out.value.FromBackend? <==> |seg| == 4 && seg[3].reply.Some?
    ensures out.Some? && out.value.FromBackend? ==> seg[3].reply == Some(out.value.content)
  {
    var t := seg[1..];
    if |seg| > 1 {
      var u := t[1..];
      assert forall k | 1 <= k < |seg| :: seg[k] == t[k - 1];
      assert forall k | 2 <= k < |seg| :: seg[k] == u[k - 2];
    }
  }

  ghost predicate Quiet(seg: seq<Event>) {
    forall k | 0 <= k < |seg| :: !seg[k].Contact? && !seg[k].Evaluate?
  }

  /** Contacts are justified, the policy sees only the stripped call, and what the backend said is what is returned. */
  ghost predicate Justified(seg: seq<Event>, call: ToolCall, route: RouteEntry, out: Option<Response>) {
    && (forall k | 0 <= k < |seg| && seg[k].Contact? :: k == |seg| - 1 && ContactJustified(seg, call, route))
    && (forall k | 0 <= k < |seg| && seg[k].Evaluate? :: seg[k].call == call)
    && (out.Some? && out.value.FromBackend? <==>
        |seg| >= 1 && seg[|seg| - 1].Contact? && seg[|seg| - 1].reply.Some?)
    && (out.Some? && out.value.FromBackend? && |seg| >= 1 && seg[|seg| - 1].Contact? ==>
        seg[|seg| - 1].reply == Some(out.value.content))
  }

  lemma JustifiedTail(seg: seq<Event>, k: nat, r: Resolved, call: ToolCall, route: RouteEntry)
    requires 1 <= k && |seg| == k + 4
    requires seg[k - 1] == Resolve(r.ctx, Ok(r.caller))
    requires ContactJustified([Resolve(r.ctx, Ok(r.caller))] + seg[k..], call, route)
    ensures ContactJustified(seg, call, route)
  {
    var tail := [Resolve(r.ctx, Ok(r.caller))] + seg[k..];
    assert tail == seg[k - 1..];
    assert forall i | 0 <= i < 5 :: tail[i] == seg[k - 1 + i];
  }

  lemma JustifiedAfterIdentity(seg: seq<Event>, k: nat, r: Resolved, call: ToolCall, route: RouteEntry,
                               world: World, hasSse: bool, out: Option<Response>)
    requires 1 <= k <= |seg| && Quiet(seg[..k]) && seg[k - 1] == Resolve(r.ctx, Ok(r.caller))
    requires PolicyTranscript(seg[k..], r, call, route, world, hasSse, out)
    ensures Justified(seg, call, route, out)
  {
    PolicyPart(seg[k..], r, call, route, world, hasSse, out);
    assert forall i | 0 <= i < k :: seg[i] == seg[..k][i];
    assert forall i | k <= i < |seg| :: seg[i] == seg[k..][i - k];
    if |seg| == k + 4 {
      JustifiedTail(seg, k, r, call, route);
    }
  }

  lemma OboContactIsJustified(seg: seq<Event>, ctx: Context, call: ToolCall, route: RouteEntry,
                              world: World, hasRefresher: bool, hasSse: bool, out: Option<Response>)
    requires ExecuteTranscript(seg, ctx, call, route, world, hasRefresher, hasSse, out)
    ensures Justified(seg, call, route, out)
  {
    var k: nat, who :|
      && k <= |seg| && IdentityTranscript(seg[..k], ctx, world, hasRefresher, who)
      && match who
         case Err(_) => k == |seg| && out == None
         case Ok(r) => PolicyTranscript(seg[k..], r, call, route, world, hasSse, out);
    IdentityIsCurrent(seg[..k], ctx, world, hasRefresher, who);
    assert Quiet(seg[..k]);
    if who.Ok? {
      assert seg[k - 1] == seg[..k][k - 1];
      JustifiedAfterIdentity(seg, k, who.value, call, route, world, hasSse, out);
    } else {
      assert seg[..k] == seg;
    }
  }
}
