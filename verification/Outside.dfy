/** Everything the broker calls, with a log of the calls and their answers. */
module Outside {
  import opened Text
  import opened Domain

  /** The credentials of a request's context. */
  datatype Context = Context(bearer: Option<string>, saml: Option<string>)

  /** A tool call as it leaves for a backend. */
  datatype Outbound = Outbound(uri: string, call: ToolCall, credential: string, assertion: string, sse: bool)

  /** The "tools" member of an object. An item is the name that could be read from one tool object. */
  datatype ToolsField = NoTools | ToolArray(items: seq<Option<string>>) | NotAnArray

  /** The "result" member of an answer, by the shape of its JSON value. */
  datatype ListResult =
    | NoResult
    | NullResult
    | ObjectResult(tools: ToolsField)
    | ArrayResult(items: seq<Option<string>>)
    | ScalarResult

  /** A backend's answer to a tool listing. */
  datatype ListReply =
    | Unreachable
    | Malformed
    | Answered(isError: bool, result: ListResult)

  datatype Event =
    | Resolve(ctx: Context, who: Result<Identity, Failure>)
    | Evaluate(caller: Identity, call: ToolCall, decision: Option<Decision>)
    | Filter(caller: Identity, names: seq<string>, kept: Option<seq<string>>)
    | Credential(prefix: string, secret: Option<string>)
    | TokenGet(user: string, provider: string, found: Result<TokenPair, Failure>)
    | TokenSave(user: string, provider: string, pair: TokenPair, ok: bool)
    | SessionRefresh(refreshToken: string, renewed: Option<TokenPair>)
    | Mint(subject: Identity, originJTI: string, token: Option<string>)
    | Contact(sent: Outbound, reply: Option<string>)
    | ListTools(route: RouteEntry, credential: string, listing: ListReply)

  /** Arbitrary answers, which may differ from one moment (length of the log) to the next. */
  datatype World = World(
    resolve: (nat, Context) -> Result<Identity, Failure>,
    evaluate: (nat, Identity, ToolCall) -> Option<Decision>,
    filter: (nat, Identity, seq<string>) -> Option<seq<string>>,
    credential: (nat, string) -> Option<string>,
    tokenGet: (nat, string, string) -> Result<TokenPair, Failure>,
    tokenSave: (nat, string, string, TokenPair) -> bool,
    sessionRefresh: (nat, string) -> Option<TokenPair>,
    mint: (nat, Identity, string) -> Option<string>,
    contact: (nat, Outbound) -> Option<string>,
    listTools: (nat, RouteEntry, string) -> ListReply,
    userIDOf: string -> string,
    jtiOf: string -> string)

  class Outside {
    const world: World
    var log: seq<Event>

    constructor (world: World)
      ensures this.world == world && log == []
    {
      this.world, this.log := world, [];
    }

    method DoResolve(ctx: Context) returns (who: Result<Identity, Failure>)
      modifies this
      ensures who == world.resolve(|old(log)|, ctx)
      ensures log == old(log) + [Resolve(ctx, who)]
    {
      who := world.resolve(|log|, ctx);
      log := log + [Resolve(ctx, who)];
    }

    method DoEvaluate(caller: Identity, call: ToolCall) returns (decision: Option<Decision>)
      modifies this
      ensures decision == world.evaluate(|old(log)|, caller, call)
      ensures log == old(log) + [Evaluate(caller, call, decision)]
    {
      decision := world.evaluate(|log|, caller, call);
      log := log + [Evaluate(caller, call, decision)];
    }

    method DoFilter(caller: Identity, names: seq<string>) returns (kept: Option<seq<string>>)
      modifies this
      ensures kept == world.filter(|old(log)|, caller, names)
      ensures log == old(log) + [Filter(caller, names, kept)]
    {
      kept := world.filter(|log|, caller, names);
      log := log + [Filter(caller, names, kept)];
    }

    method DoCredential(prefix: string) returns (secret: Option<string>)
      modifies this
      ensures secret == world.credential(|old(log)|, prefix)
      ensures log == old(log) + [Credential(prefix, secret)]
    {
      secret := world.credential(|log|, prefix);
      log := log + [Credential(prefix, secret)];
    }

    method DoTokenGet(user: string, provider: string) returns (found: Result<TokenPair, Failure>)
      modifies this
      ensures found == world.tokenGet(|old(log)|, user, provider)
      ensures log == old(log) + [TokenGet(user, provider, found)]
    {
      found := world.tokenGet(|log|, user, provider);
      log := log + [TokenGet(user, provider, found)];
    }

    method DoTokenSave(user: string, provider: string, pair: TokenPair) returns (ok: bool)
      modifies this
      ensures ok == world.tokenSave(|old(log)|, user, provider, pair)
      ensures log == old(log) + [TokenSave(user, provider, pair, ok)]
    {
      ok := world.tokenSave(|log|, user, provider, pair);
      log := log + [TokenSave(user, provider, pair, ok)];
    }

    method DoSessionRefresh(refreshToken: string) returns (renewed: Option<TokenPair>)
      modifies this
      ensures renewed == world.sessionRefresh(|old(log)|, refreshToken)
      ensures log == old(log) + [SessionRefresh(refreshToken, renewed)]
    {
      renewed := world.sessionRefresh(|log|, refreshToken);
      log := log + [SessionRefresh(refreshToken, renewed)];
    }

    method DoMint(subject: Identity, originJTI: string) returns (token: Option<string>)
      modifies this
      ensures token == world.mint(|old(log)|, subject, originJTI)
      ensures log == old(log) + [Mint(subject, originJTI, token)]
    {
      token := world.mint(|log|, subject, originJTI);
      log := log + [Mint(subject, originJTI, token)];
    }

    method DoContact(sent: Outbound) returns (reply: Option<string>)
      modifies this
      ensures reply == world.contact(|old(log)|, sent)
      ensures log == old(log) + [Contact(sent, reply)]
    {
      reply := world.contact(|log|, sent);
      log := log + [Contact(sent, reply)];
    }

    method DoListTools(route: RouteEntry, credential: string) returns (listing: ListReply)
      modifies this
      ensures listing == world.listTools(|old(log)|, route, credential)
      ensures log == old(log) + [ListTools(route, credential, listing)]
    {
      listing := world.listTools(|log|, route, credential);
      log := log + [ListTools(route, credential, listing)];
    }
  }

  // ---------------------------------------------------------------------
  // Responses
  // ---------------------------------------------------------------------

  const INVALID_REQUEST := -32600
  const SERVICE_UNAVAILABLE := -32002
  const UNAUTHENTICATED := -32001
  const UNAUTHORIZED := -32003
  const POLICY_DENIED := -32004
  const INVALID_PARAMS := -32602

  datatype Response =
    | ErrorResponse(id: string, code: int)
    | ToolNames(id: string, names: seq<string>)
    | FromBackend(content: string)

  function IdentityErrorCode(why: Failure): int {
    match why
    case Unauthenticated => UNAUTHENTICATED
    case ServiceUnavailable => SERVICE_UNAVAILABLE
    case _ => UNAUTHORIZED
  }

  /** The inbound token's own id, when there is one. */
  function OriginJTI(world: World, ctx: Context): string {
    match ctx.bearer
    case None => ""
    case Some(token) => if token == "" then "" else world.jtiOf(token)
  }
}
