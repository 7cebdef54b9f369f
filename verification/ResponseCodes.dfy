/** Which answer every request gets, told by the last thing that happened for it. */
module ResponseCodes {
  import opened Text
  import opened Domain
  import opened Routing
  import opened Outside
  import opened OboPipeline
  import opened Discovery
  import opened Broker
  import opened ExecutionSafety

  /** The code of a caller who could not be resolved. */
  function RefusalCode(why: Failure): int {
    if why == Unauthenticated then -32001 else if why == ServiceUnavailable then -32002 else -32003
  }

  /** The answer to a tool call whose last event was the last of `seg`. */
  ghost function Expected(seg: seq<Event>, call: ToolCall, s: Setup): Response
    requires seg != []
  {
    match seg[|seg| - 1]
    case Resolve(_, Err(why)) => ErrorResponse(call.id, if |seg| == 1 then RefusalCode(why) else -32002)
    case Evaluate(_, _, Some(d)) =>
      if !d.permitted then ErrorResponse(call.id, -32004)
      else ErrorResponse(call.id, if FindRoute(s.routes, ToolName(call)).None? then -32602 else -32002)
    case TokenGet(_, _, Err(NotConnected)) =>
      ErrorResponse(call.id, if |seg| >= 2 && seg[|seg| - 2].Evaluate? then -32001 else -32002)
    case Contact(_, Some(content)) => FromBackend(content)
    case _ => ErrorResponse(call.id, -32002)
  }

  lemma StandardAnswer(seg: seq<Event>, ctx: Context, call: ToolCall, caller: Identity, route: RouteEntry, s: Setup,
                       resp: Response)
    requires StandardTranscript(seg, ctx, call, caller, route, s, resp)
    ensures seg != [] && !seg[|seg| - 1].Resolve? && !seg[|seg| - 1].Evaluate? && !seg[|seg| - 1].TokenGet?
    ensures resp == match seg[|seg| - 1]
                    case Contact(_, Some(content)) => FromBackend(content)
                    case _ => ErrorResponse(call.id, -32002)
  {
    if |seg| > 1 {
      assert seg[|seg| - 1] == seg[1..][|seg[1..]| - 1];
    }
  }

  /** The answer of the pipeline, whose last event decides, with the one before it. */
  ghost predicate PipelineAnswer(seg: seq<Event>, call: ToolCall, out: Option<Response>)
    requires seg != []
  {
    out == match seg[|seg| - 1]
           case Evaluate(_, _, Some(d)) => if d.permitted then None else Some(ErrorResponse(call.id, -32004))
           case TokenGet(_, _, Err(NotConnected)) =>
             if |seg| >= 2 && seg[|seg| - 2].Evaluate? then Some(ErrorResponse(call.id, -32001)) else None
           case Contact(_, Some(content)) => Some(FromBackend(content))
           case _ => None
  }

  lemma IdentityFailureAnswer(seg: seq<Event>, ctx: Context, call: ToolCall, world: World, hasRefresher: bool,
                              why: Failure)
    requires IdentityTranscript(seg, ctx, world, hasRefresher, Err(why))
    ensures seg != [] && PipelineAnswer(seg, call, None) && !seg[|seg| - 1].Evaluate?
  {
    IdentityTakesSteps(seg, ctx, world, hasRefresher, Err(why));
  }

  lemma PolicyAnswer(a: seq<Event>, b: seq<Event>, r: Resolved, call: ToolCall, route: RouteEntry, world: World,
                     hasSse: bool, out: Option<Response>)
    requires PolicyTranscript(b, r, call, route, world, hasSse, out)
    ensures NoPermitLast(a + b) && PipelineAnswer(a + b, call, out)
  {
    PolicyTakesSteps(b, r, call, route, world, hasSse, out);
    assert (a + b)[|a + b| - 1] == b[|b| - 1];
    assert |b| >= 2 ==> (a + b)[|a + b| - 2] == b[|b| - 2];
  }

  /** No pipeline ends with a permit. */
  ghost predicate NoPermitLast(seg: seq<Event>) {
    && seg != []
    && (seg[|seg| - 1].Evaluate? && seg[|seg| - 1].decision.Some? ==> !seg[|seg| - 1].decision.value.permitted)
  }

  lemma Parts(seg: seq<Event>, ctx: Context, call: ToolCall, route: RouteEntry,
              world: World, hasRefresher: bool, hasSse: bool, out: Option<Response>)
    returns (a: seq<Event>, b: seq<Event>, who: Result<Resolved, Failure>)
    requires ExecuteTranscript(seg, ctx, call, route, world, hasRefresher, hasSse, out)
    ensures seg == a + b && IdentityTranscript(a, ctx, world, hasRefresher, who)
    ensures who.Ok? ==> PolicyTranscript(b, who.value, call, route, world, hasSse, out)
    ensures who.Err? ==> b == [] && out == None
  {
    var k: nat;
    k, who :|
      && k <= |seg| && IdentityTranscript(seg[..k], ctx, world, hasRefresher, who)
      && match who
         case Err(_) => k == |seg| && out == None
         case Ok(r) => PolicyTranscript(seg[k..], r, call, route, world, hasSse, out);
    a, b := seg[..k], seg[k..];
  }

  lemma ExecuteAnswer(seg: seq<Event>, ctx: Context, call: ToolCall, route: RouteEntry,
                      world: World, hasRefresher: bool, hasSse: bool, out: Option<Response>)
    requires ExecuteTranscript(seg, ctx, call, route, world, hasRefresher, hasSse, out)
    ensures NoPermitLast(seg) && PipelineAnswer(seg, call, out)
  {
    var a, b, who := Parts(seg, ctx, call, route, world, hasRefresher, hasSse, out);
    if who.Ok? {
      PolicyAnswer(a, b, who.value, call, route, world, hasSse, out);
    } else {
      assert a + b == a;
      IdentityFailureAnswer(a, ctx, call, world, hasRefresher, who.error);
    }
  }

  /** What the part of a request after its permit answers; nothing happens there without a route or without a
      pipeline. */
  ghost predicate DispatchAnswer(seg: seq<Event>, call: ToolCall, s: Setup, resp: Response) {
    if seg == [] then
      resp == ErrorResponse(call.id, if FindRoute(s.routes, ToolName(call)).None? then -32602 else -32002)
    else
      resp == match seg[|seg| - 1]
              case Evaluate(_, _, Some(d)) => ErrorResponse(call.id, if d.permitted then -32002 else -32004)
              case TokenGet(_, _, Err(NotConnected)) =>
                ErrorResponse(call.id, if |seg| >= 2 && seg[|seg| - 2].Evaluate? then -32001 else -32002)
              case Contact(_, Some(content)) => FromBackend(content)
              case _ => ErrorResponse(call.id, -32002)
  }

  lemma DispatchAnswers(seg: seq<Event>, ctx: Context, call: ToolCall, caller: Identity, s: Setup, resp: Response)
    requires RoutingTranscript(seg, ctx, call, caller, s, resp)
    ensures DispatchAnswer(seg, call, s, resp)
    ensures seg != [] ==> NoPermitLast(seg)
    ensures |seg| == 1 ==> !seg[0].TokenGet?
  {
    var found := FindRoute(s.routes, ToolName(call));
    if found.Some? {
      var route := found.value;
      var forwarded := Stripped(call, route.prefix);
      if route.oboProvider == "" {
        StandardAnswer(seg, ctx, forwarded, caller, route, s, resp);
      } else if s.obo.Some? {
        var o := s.obo.value;
        var out :| ExecuteTranscript(seg, ctx, forwarded, route, s.world, o.0, o.1, out)
                && resp == OrUnavailable(forwarded.id, out);
        ExecuteAnswer(seg, ctx, forwarded, route, s.world, o.0, o.1, out);
        StartsWithResolve(seg, ctx, forwarded, route, s.world, o.0, o.1, out);
      }
    }
  }

  lemma StartsWithResolve(seg: seq<Event>, ctx: Context, call: ToolCall, route: RouteEntry,
                          world: World, hasRefresher: bool, hasSse: bool, out: Option<Response>)
    requires ExecuteTranscript(seg, ctx, call, route, world, hasRefresher, hasSse, out)
    ensures seg != [] && seg[0].Resolve?
  {
  }

  /** Every tool call is answered as its last event says. */
  lemma ResponseIsExpected(seg: seq<Event>, ctx: Context, call: ToolCall, s: Setup, resp: Response)
    requires ExecutionTranscript(seg, ctx, call, s, resp)
    ensures resp == Expected(seg, call, s)
  {
    FirstTwo(seg, ctx, call, s, resp);
    if Permitted(seg, ctx, call) {
      var rest := seg[2..];
      DispatchAnswers(rest, ctx, call, seg[0].who.value, s, resp);
      LastOfRest(seg, rest);
    } else if seg[0].who.Ok? {
      assert seg[1..][0] == seg[1];
    }
  }

  lemma LastOfRest(seg: seq<Event>, rest: seq<Event>)
    requires |seg| >= 2 && rest == seg[2..]
    ensures rest == [] ==> seg[|seg| - 1] == seg[1]
    ensures rest != [] ==> seg[|seg| - 1] == rest[|rest| - 1]
    ensures |rest| >= 2 ==> seg[|seg| - 2] == rest[|rest| - 2]
    ensures |rest| == 1 ==> seg[|seg| - 2] == seg[1]
  {
  }

  lemma ExpectedUnauthenticated(seg: seq<Event>, call: ToolCall, s: Setup)
    requires seg != [] && (|seg| >= 2 ==> seg[0].Resolve? && seg[0].who.Ok?)
    ensures Expected(seg, call, s) == ErrorResponse(call.id, -32001) <==>
            || (|seg| == 1 && seg[0].Resolve? && seg[0].who == Err(Unauthenticated))
            || (|seg| >= 2 && seg[|seg| - 2].Evaluate? && seg[|seg| - 1].TokenGet?
                && seg[|seg| - 1].found == Err(NotConnected))
  {
  }

  /** The code of a missing authentication is given exactly when the broker's own resolve found no credential, or when,
      after the second permit, the store had no token for the user and provider it was asked for. */
  lemma UnauthenticatedIff(seg: seq<Event>, ctx: Context, call: ToolCall, s: Setup, resp: Response)
    requires ExecutionTranscript(seg, ctx, call, s, resp)
    ensures resp == ErrorResponse(call.id, -32001) <==>
            || (|seg| == 1 && seg[0].who == Err(Unauthenticated))
            || (|seg| >= 2 && seg[|seg| - 2].Evaluate? && seg[|seg| - 1].TokenGet?
                && seg[|seg| - 1].found == Err(NotConnected))
  {
    ResponseIsExpected(seg, ctx, call, s, resp);
    ExpectedUnauthenticated(seg, call, s);
  }

  /** Discovery is answered by the resolve that failed, or by the filter. */
  lemma DiscoveryResponse(seg: seq<Event>, ctx: Context, id: string, routes: seq<RouteEntry>, hasStore: bool,
                          resp: Response)
    requires DiscoveryTranscript(seg, ctx, id, routes, hasStore, resp)
    ensures seg != []
    ensures resp == match seg[|seg| - 1]
                    case Resolve(_, Err(why)) => ErrorResponse(id, RefusalCode(why))
                    case Filter(_, _, Some(kept)) => ToolNames(id, kept)
                    case _ => ErrorResponse(id, -32002)
  {
    if seg[0].who.Ok? {
      assert seg[|seg| - 1] == seg[1..][|seg[1..]| - 1];
    }
  }

  /** An answer of the broker's own that carries this id and is not the one for an invalid request. */
  predicate Echoes(resp: Response, id: string) {
    resp.FromBackend? || (resp.id == id && resp != ErrorResponse(id, -32600))
  }

  lemma DiscoveryEchoes(seg: seq<Event>, ctx: Context, id: string, routes: seq<RouteEntry>, hasStore: bool,
                        resp: Response)
    requires DiscoveryTranscript(seg, ctx, id, routes, hasStore, resp)
    ensures seg != [] && Echoes(resp, id)
  {
    DiscoveryResponse(seg, ctx, id, routes, hasStore, resp);
  }

  lemma ExecutionEchoes(seg: seq<Event>, ctx: Context, call: ToolCall, s: Setup, resp: Response)
    requires ExecutionTranscript(seg, ctx, call, s, resp)
    ensures seg != [] && Echoes(resp, call.id)
  {
    ResponseIsExpected(seg, ctx, call, s, resp);
  }

  /** A request is refused as invalid, and then nothing is done for it, exactly when it could not be read, is not of
      version 2.0, or asks for anything else than the two methods; and every answer of the broker's own carries the
      request's id. */
  lemma InvalidIff(seg: seq<Event>, ctx: Context, req: Inbound, s: Setup, resp: Response)
    requires HandleTranscript(seg, ctx, req, s, resp)
    ensures var id := if req.Decoded? then req.call.id else req.id;
            if req.Undecodable? || req.jsonrpc != "2.0"
               || (req.call.verb != "tools/list" && req.call.verb != "tools/call")
            then resp == ErrorResponse(id, -32600) && seg == []
            else Echoes(resp, id) && seg != []
  {
    if req.Decoded? && req.jsonrpc == "2.0" {
      if req.call.verb == "tools/list" {
        DiscoveryEchoes(seg, ctx, req.call.id, s.routes, s.hasStore, resp);
      } else if req.call.verb == "tools/call" {
        ExecutionEchoes(seg, ctx, req.call, s, resp);
      }
    }
  }
}
