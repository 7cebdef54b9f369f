/** The broker: one entry point for all requests, the discovery flow and the execution flow. */
module Broker {
  import opened Text
  import opened Domain
  import opened Routing
  import opened Outside
  import opened Discovery
  import opened OboPipeline

  /** A request as far as it could be read: `ParseToolCall` needs it whole. */
  datatype Inbound =
    | Undecodable(id: string)
    | Decoded(jsonrpc: string, call: ToolCall)

  /** `ParseToolCall`; an error carries the id for the response. */
  function Parse(req: Inbound): Result<ToolCall, string> {
    match req
    case Undecodable(id) => Err(id)
    case Decoded(jsonrpc, call) => if jsonrpc != "2.0" || call.verb == "" then Err(call.id) else Ok(call)
  }

  /** The call with the route's prefix and one "/" taken off its tool name, if they are there. */
  function Stripped(call: ToolCall, prefix: string): ToolCall {
    if prefix != "" && HasPrefix(ToolName(call), prefix + "/") then
      call.(params := Fields(call.params.fields["name" := JsonString(ToolName(call)[|prefix| + 1..])]))
    else call
  }

  /** The tool name of a call is the text under "name" of its params object, and nothing else. */
  lemma ToolNameIff(call: ToolCall, t: string)
    requires t != ""
    ensures ToolName(call) == t <==>
            call.params.Fields? && "name" in call.params.fields && call.params.fields["name"] == JsonString(t)
  {
  }

  /** Stripping changes the tool name and nothing else. */
  lemma StrippedKeepsTheRest(call: ToolCall, prefix: string)
    ensures var out := Stripped(call, prefix);
            && out.id == call.id && out.verb == call.verb
            && (ToolName(out) != ToolName(call) ==> prefix != "" && ToolName(call) == prefix + "/" + ToolName(out))
            && (prefix == "" || !HasPrefix(ToolName(call), prefix + "/") ==> out == call)
            && (prefix != "" && HasPrefix(ToolName(call), prefix + "/")
                ==> ToolName(call) == prefix + "/" + ToolName(out))
            && (call.params.Fields? <==> out.params.Fields?)
            && (call.params.Fields? ==> out.params.fields - {"name"} == call.params.fields - {"name"})
  {
  }

  // ---------------------------------------------------------------------
  // Transcripts
  // ---------------------------------------------------------------------

  /** How a broker is set up; `obo` says whether the pipeline has a session refresher and an SSE transport. */
  datatype Setup = Setup(routes: seq<RouteEntry>, hasStore: bool, obo: Option<(bool, bool)>, world: World)

  /** A pipeline error and a failed forward look the same to the client. */
  function OrUnavailable(id: string, out: Option<Response>): Response {
    match out
    case None => ErrorResponse(id, SERVICE_UNAVAILABLE)
    case Some(resp) => resp
  }

  ghost predicate HandleTranscript(seg: seq<Event>, ctx: Context, req: Inbound, s: Setup, resp: Response) {
    match Parse(req)
    case Err(id) => seg == [] && resp == ErrorResponse(id, INVALID_REQUEST)
    case Ok(call) =>
      if call.verb == "tools/list" then DiscoveryTranscript(seg, ctx, call.id, s.routes, s.hasStore, resp)
      else if call.verb == "tools/call" then ExecutionTranscript(seg, ctx, call, s, resp)
      else seg == [] && resp == ErrorResponse(call.id, INVALID_REQUEST)
  }

  ghost predicate ExecutionTranscript(seg: seq<Event>, ctx: Context, call: ToolCall, s: Setup, resp: Response) {
    && |seg| >= 1 && seg[0].Resolve? && seg[0].ctx == ctx
    && match seg[0].who
       case Err(why) => |seg| == 1 && resp == ErrorResponse(call.id, IdentityErrorCode(why))
       case Ok(caller) => DecisionTranscript(seg[1..], ctx, call, caller, s, resp)
  }

  ghost predicate DecisionTranscript(seg: seq<Event>, ctx: Context, call: ToolCall, caller: Identity, s: Setup,
                                     resp: Response) {
    && |seg| >= 1 && seg[0].Evaluate? && seg[0].caller == caller && seg[0].call == call
    && match seg[0].decision
       case None => |seg| == 1 && resp == ErrorResponse(call.id, SERVICE_UNAVAILABLE)
       case Some(d) =>
         if !d.permitted then |seg| == 1 && resp == ErrorResponse(call.id, POLICY_DENIED)
         else RoutingTranscript(seg[1..], ctx, call, caller, s, resp)
  }

  ghost predicate RoutingTranscript(seg: seq<Event>, ctx: Context, call: ToolCall, caller: Identity, s: Setup,
                                    resp: Response) {
    match FindRoute(s.routes, ToolName(call))
    case None => seg == [] && resp == ErrorResponse(call.id, INVALID_PARAMS)
    case Some(route) =>
      if route.oboProvider != "" then OboTranscript(seg, ctx, Stripped(call, route.prefix), route, s, resp)
      else StandardTranscript(seg, ctx, Stripped(call, route.prefix), caller, route, s, resp)
  }

  ghost predicate OboTranscript(seg: seq<Event>, ctx: Context, call: ToolCall, route: RouteEntry, s: Setup,
                                resp: Response) {
    match s.obo
    case None => seg == [] && resp == ErrorResponse(call.id, SERVICE_UNAVAILABLE)
    case Some(o) =>
      exists out :: ExecuteTranscript(seg, ctx, call, route, s.world, o.0, o.1, out)
          && resp == OrUnavailable(call.id, out)
  }

  ghost predicate StandardTranscript(seg: seq<Event>, ctx: Context, call: ToolCall, caller: Identity, route: RouteEntry,
                                     s: Setup, resp: Response) {
    && |seg| >= 1 && seg[0].Credential? && seg[0].prefix == route.prefix
    && match seg[0].secret
       case None => |seg| == 1 && resp == ErrorResponse(call.id, SERVICE_UNAVAILABLE)
       case Some(secret) =>
         exists out ::
           && SendTranscript(seg[1..], caller, OriginJTI(s.world, ctx), call, route, secret, route.transport == "sse",
                             out)
           && resp == OrUnavailable(call.id, out)
  }

  // ---------------------------------------------------------------------
  // The broker
  // ---------------------------------------------------------------------

  class Broker {
    const outside: Outside
    const routes: seq<RouteEntry>
    const hasStore: bool
    const obo: Option<OboPipeline>

    ghost predicate Valid() {
      obo.Some? ==> obo.value.outside == outside
    }

    ghost function Config(): Setup {
      Setup(routes, hasStore, if obo.Some? then Some((obo.value.hasRefresher, obo.value.hasSse)) else None,
            outside.world)
    }

    constructor (outside: Outside, routes: seq<RouteEntry>, hasStore: bool, obo: Option<OboPipeline>)
      requires obo.Some? ==> obo.value.outside == outside
      ensures Valid() && this.outside == outside && this.routes == routes && this.hasStore == hasStore
              && this.obo == obo
    {
      this.outside, this.routes, this.hasStore, this.obo := outside, routes, hasStore, obo;
    }

    method Handle(ctx: Context, req: Inbound) returns (resp: Response, ghost seg: seq<Event>)
      requires Valid()
      modifies outside
      ensures outside.log == old(outside.log) + seg
      ensures HandleTranscript(seg, ctx, req, Config(), resp)
    {
      var parsed := Parse(req);
      if parsed.Err? {
        return ErrorResponse(parsed.error, INVALID_REQUEST), [];
      }
      var call := parsed.value;
      if call.verb == "tools/list" {
        resp, seg := HandleDiscovery(ctx, call);
      } else if call.verb == "tools/call" {
        resp, seg := HandleExecution(ctx, call);
      } else {
        return ErrorResponse(call.id, INVALID_REQUEST), [];
      }
    }

    // -------------------------------------------------------------------
    // Discovery
    // -------------------------------------------------------------------

    method HandleDiscovery(ctx: Context, call: ToolCall) returns (resp: Response, ghost seg: seq<Event>)
      modifies outside
      ensures outside.log == old(outside.log) + seg
      ensures DiscoveryTranscript(seg, ctx, call.id, routes, hasStore, resp)
    {
      var who := outside.DoResolve(ctx);
      seg := [Resolve(ctx, who)];
      if who.Err? {
        return ErrorResponse(call.id, IdentityErrorCode(who.error)), seg;
      }
      ghost var rest;
      resp, rest := ListFor(ctx, who.value, call.id);
      Associate(old(outside.log), seg, rest);
      seg := seg + rest;
      assert seg[1..] == rest;
    }

    method ListFor(ctx: Context, caller: Identity, id: string) returns (resp: Response, ghost seg: seq<Event>)
      modifies outside
      ensures outside.log == old(outside.log) + seg
      ensures seg != [] && ListTranscript(seg, ctx, caller, id, routes, hasStore, resp)
    {
      var allTools, front := AggregateTools(ctx);
      var kept := outside.DoFilter(caller, allTools);
      Associate(old(outside.log), front, [Filter(caller, allTools, kept)]);
      seg := front + [Filter(caller, allTools, kept)];
      assert seg[..|seg| - 1] == front;
      resp := if kept.Some? then ToolNames(id, kept.value) else ErrorResponse(id, SERVICE_UNAVAILABLE);
    }

    /** The names that all answering backends list, each once, in order of first occurrence. */
    method AggregateTools(ctx: Context) returns (all: seq<string>, ghost seg: seq<Event>)
      modifies outside
      ensures outside.log == old(outside.log) + seg
      ensures AggregateTranscript(seg, ctx, routes, hasStore)
      ensures all == Dedup(AllContributed(seg))
    {
      if hasStore {
        all, seg := AggregateResolved(ctx);
      } else {
        all, seg := AggregateAs(None);
      }
    }

    /** With a store, for the caller resolved once more. */
    method AggregateResolved(ctx: Context) returns (all: seq<string>, ghost seg: seq<Event>)
      modifies outside
      ensures outside.log == old(outside.log) + seg
      ensures AggregateTranscript(seg, ctx, routes, true)
      ensures all == Dedup(AllContributed(seg))
    {
      var who := outside.DoResolve(ctx);
      ghost var rest;
      var known := Known(who);
      all, rest := AggregateAs(known);
      seg := [Resolve(ctx, who)] + rest;
      AfterResolve(ctx, who, rest, seg, routes, all);
      Associate(old(outside.log), [Resolve(ctx, who)], rest);
    }

    method AggregateAs(who: Option<Identity>) returns (all: seq<string>, ghost seg: seq<Event>)
      modifies outside
      ensures outside.log == old(outside.log) + seg
      ensures RoutesTranscript(seg, routes, who)
      ensures all == Dedup(AllContributed(seg))
    {
      all, seg := [], [];
      var seen: set<string> := {};
      ghost var parts: seq<seq<Event>> := [];
      CollectNothing(routes, who);
      for i := 0 to |routes|
        invariant outside.log == old(outside.log) + seg
        invariant Collected(parts, seg, routes[..i], who, all, seen)
      {
        ghost var part;
        all, seen, part := AddRoute(i, who, parts, seg, all, seen);
        Associate(old(outside.log), seg, part);
        parts, seg := parts + [part], seg + part;
      }
      assert routes[..|routes|] == routes;
    }

    /** One more route's names. */
    method AddRoute(i: nat, who: Option<Identity>, ghost parts: seq<seq<Event>>, ghost seg: seq<Event>,
                    all: seq<string>, seen: set<string>)
      returns (all': seq<string>, seen': set<string>, ghost part: seq<Event>)
      requires i < |routes| && Collected(parts, seg, routes[..i], who, all, seen)
      modifies outside
      ensures outside.log == old(outside.log) + part
      ensures Collected(parts + [part], seg + part, routes[..i + 1], who, all', seen')
    {
      var names;
      names, part := ListRoute(routes[i], who);
      all', seen' := AddNew(AllContributed(seg), all, seen, names);
      CollectMore(parts, seg, part, routes, i, who, all', seen');
    }

    /** One backend's qualified names; none when it is skipped. */
    method ListRoute(route: RouteEntry, who: Option<Identity>) returns (names: seq<string>, ghost seg: seq<Event>)
      modifies outside
      ensures outside.log == old(outside.log) + seg
      ensures RouteTranscript(seg, route, who)
      ensures names == AllContributed(seg)
    {
      var credential: string;
      if route.oboProvider != "" && who.Some? {
        var uat := outside.DoTokenGet(who.value.userID, route.oboProvider);
        seg := [TokenGet(who.value.userID, route.oboProvider, uat)];
        ContributesNothing(seg[0]);
        if uat.Err? {
          return [], seg;
        }
        credential := uat.value.accessToken;
      } else {
        var secret := outside.DoCredential(route.prefix);
        seg := [Credential(route.prefix, secret)];
        ContributesNothing(seg[0]);
        if secret.None? {
          return [], seg;
        }
        credential := secret.value;
      }
      var listing := outside.DoListTools(route, credential);
      ghost var last := ListTools(route, credential, listing);
      ContributedConcat(seg, [last]);
      ContributesItsOwn(last);
      seg := seg + [last];
      var tools := ParseToolListResponse(listing);
      if tools.None? {
        return [], seg;
      }
      names := QualifyAll(route.prefix, tools.value);
    }

    // -------------------------------------------------------------------
    // Execution
    // -------------------------------------------------------------------

    method HandleExecution(ctx: Context, call: ToolCall) returns (resp: Response, ghost seg: seq<Event>)
      requires Valid()
      modifies outside
      ensures outside.log == old(outside.log) + seg
      ensures ExecutionTranscript(seg, ctx, call, Config(), resp)
    {
      var who := outside.DoResolve(ctx);
      seg := [Resolve(ctx, who)];
      if who.Err? {
        return ErrorResponse(call.id, IdentityErrorCode(who.error)), seg;
      }
      ghost var rest;
      resp, rest := DecideAndDispatch(ctx, call, who.value);
      Associate(old(outside.log), seg, rest);
      seg := seg + rest;
      assert seg[1..] == rest;
    }

    method DecideAndDispatch(ctx: Context, call: ToolCall, caller: Identity)
      returns (resp: Response, ghost seg: seq<Event>)
      requires Valid()
      modifies outside
      ensures outside.log == old(outside.log) + seg
      ensures DecisionTranscript(seg, ctx, call, caller, Config(), resp)
    {
      var decision := outside.DoEvaluate(caller, call);
      seg := [Evaluate(caller, call, decision)];
      if decision.None? {
        return ErrorResponse(call.id, SERVICE_UNAVAILABLE), seg;
      }
      if !decision.value.permitted {
        return ErrorResponse(call.id, POLICY_DENIED), seg;
      }
      ghost var rest;
      resp, rest := Dispatch(ctx, call, caller);
      Associate(old(outside.log), seg, rest);
      seg := seg + rest;
      assert seg[1..] == rest;
    }

    method Dispatch(ctx: Context, call: ToolCall, caller: Identity) returns (resp: Response, ghost seg: seq<Event>)
      requires Valid()
      modifies outside
      ensures outside.log == old(outside.log) + seg
      ensures RoutingTranscript(seg, ctx, call, caller, Config(), resp)
    {
      var route := ResolveRoute(ToolName(call));
      if route.None? {
        return ErrorResponse(call.id, INVALID_PARAMS), [];
      }
      var forwardCall := StripPrefixFromCall(call, route.value.prefix);
      if route.value.oboProvider != "" {
        resp, seg := HandleObo(ctx, forwardCall, route.value);
      } else {
        resp, seg := HandleStandard(ctx, forwardCall, caller, route.value);
      }
    }

    method ResolveRoute(name: string) returns (route: Option<RouteEntry>)
      ensures route == FindRoute(routes, name)
    {
      for i := 0 to |routes|
        invariant FindRoute(routes, name) == FindRoute(routes[i..], name)
      {
        if routes[i].prefix == ToolPrefix(name) {
          return Some(routes[i]);
        }
        assert routes[i..][1..] == routes[i + 1..];
      }
      return None;
    }

    method HandleStandard(ctx: Context, call: ToolCall, caller: Identity, route: RouteEntry)
      returns (resp: Response, ghost seg: seq<Event>)
      modifies outside
      ensures outside.log == old(outside.log) + seg
      ensures StandardTranscript(seg, ctx, call, caller, route, Config(), resp)
    {
      var secret := outside.DoCredential(route.prefix);
      seg := [Credential(route.prefix, secret)];
      if secret.None? {
        return ErrorResponse(call.id, SERVICE_UNAVAILABLE), seg;
      }
      var out, rest := MintAndContact(outside, caller, OriginJTI(outside.world, ctx), call, route,
                                      secret.value, route.transport == "sse");
      Associate(old(outside.log), seg, rest);
      seg := seg + rest;
      assert seg[1..] == rest;
      resp := OrUnavailable(call.id, out);
    }

    method HandleObo(ctx: Context, call: ToolCall, route: RouteEntry) returns (resp: Response, ghost seg: seq<Event>)
      requires Valid()
      modifies outside
      ensures outside.log == old(outside.log) + seg
      ensures OboTranscript(seg, ctx, call, route, Config(), resp)
    {
      if obo.None? {
        return ErrorResponse(call.id, SERVICE_UNAVAILABLE), [];
      }
      var out;
      out, seg := obo.value.Execute(ctx, call, route);
      resp := OrUnavailable(call.id, out);
    }
  }

  /** `stripPrefixFromCall`, on a copy of the params object. */
  method StripPrefixFromCall(call: ToolCall, prefix: string) returns (out: ToolCall)
    ensures out == Stripped(call, prefix)
  {
    if !call.params.Fields? || prefix == "" {
      return call;
    }
    var p := call.params.fields;
    if "name" !in p || !p["name"].JsonString? {
      return call;
    }
    var name := p["name"].text;
    var stripped := TrimPrefix(name, prefix + "/");
    if stripped == name {
      return call;
    }
    p := p["name" := JsonString(stripped)];
    return call.(params := Fields(p));
  }

  /** `json.Unmarshal` into a struct with a "tools" array: `None` is an error, `Some(None)` a nil slice. */
  function AsToolsObject(result: ListResult): Option<Option<seq<Option<string>>>> {
    match result
    case NullResult => Some(None)
    case ObjectResult(NoTools) => Some(None)
    case ObjectResult(ToolArray(items)) => Some(Some(items))
    case _ => None
  }

  /** `json.Unmarshal` into a slice: `None` is an error. */
  function AsFlatArray(result: ListResult): Option<seq<Option<string>>> {
    match result
    case NullResult => Some([])
    case ArrayResult(items) => Some(items)
    case _ => None
  }

  /** `parseToolListResponse`: the two shapes are tried in turn, and neither fitting is no error. */
  method ParseToolListResponse(listing: ListReply) returns (tools: Option<seq<string>>)
    ensures tools == Advertised(listing)
  {
    if !listing.Answered? || listing.isError {
      return None;
    }
    if listing.result.NoResult? {
      return Some([]);
    }
    var withTools := AsToolsObject(listing.result);
    if withTools.Some? && withTools.value.Some? {
      var names := ExtractToolNames(withTools.value.value);
      return Some(names);
    }
    var flat := AsFlatArray(listing.result);
    if flat.Some? {
      var names := ExtractToolNames(flat.value);
      return Some(names);
    }
    return Some([]);
  }

  method ExtractToolNames(items: seq<Option<string>>) returns (names: seq<string>)
    ensures names == NamesOf(items)
  {
    names := [];
    for i := 0 to |items|
      invariant NamesOf(items) == names + NamesOf(items[i..])
    {
      NamesFrom(items, i);
      if items[i].Some? && items[i].value != "" {
        names := names + [items[i].value];
      }
    }
    assert items[|items|..] == [];
  }

  lemma NamesFrom(items: seq<Option<string>>, i: nat)
    requires i < |items|
    ensures NamesOf(items[i..])
            == (if items[i].Some? && items[i].value != "" then [items[i].value] else []) + NamesOf(items[i + 1..])
  {
    assert items[i..][1..] == items[i + 1..];
  }

  /** Appends the names that were not seen before. */
  method AddNew(ghost xs: seq<string>, all: seq<string>, seen: set<string>, names: seq<string>)
    returns (all': seq<string>, seen': set<string>)
    requires Deduped(xs, all, seen)
    ensures Deduped(xs + names, all', seen')
  {
    all', seen' := all, seen;
    assert xs + names[..0] == xs;
    for i := 0 to |names|
      invariant Deduped(xs + names[..i], all', seen')
    {
      AddOne(xs + names[..i], all', seen', names[i]);
      assert xs + names[..i + 1] == xs + names[..i] + [names[i]];
      if names[i] !in seen' {
        all', seen' := all' + [names[i]], seen' + {names[i]};
      }
    }
    assert names[..|names|] == names;
  }
}
