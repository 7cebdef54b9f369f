/** The broker's value types. */
module Domain {
  datatype PolicyEntry = PolicyEntry(group: string, allowed: seq<string>, denied: seq<string>)

  /** One parsed and validated file of `config/policies/`. */
  type PolicyFile = seq<PolicyEntry>

  datatype RouteEntry = RouteEntry(prefix: string, backendURI: string, oboProvider: string, transport: string)

  /** `ttl` is in nanoseconds. */
  datatype AssertionConfig = AssertionConfig(issuer: string, audience: string, ttl: int, keyARN: string,
                                             signingKeyID: string)

  datatype Identity = Identity(userID: string, groups: seq<string>, entitlements: seq<string>, provider: string)

  datatype Decision = Decision(permitted: bool, matchedRule: string, denialReason: string)

  datatype TokenPair = TokenPair(accessToken: string, refreshToken: string)

  /** The sentinel errors that callers tell apart with `errors.Is`; `Unclassified` is any other error. */
  datatype Failure = Unauthenticated | Unauthorized | ServiceUnavailable | NotConnected | Unclassified

  datatype JsonValue = JsonString(text: string) | JsonOther(raw: string)

  /** The `params` member of a request: absent, not a JSON object, or an object. */
  datatype Params = NoParams | NotAnObject(raw: string) | Fields(fields: map<string, JsonValue>)

  datatype ToolCall = ToolCall(id: string, verb: string, params: Params)

  /** `toolNameFromCall`: the string under "name", or "" when there is none. */
  function ToolName(call: ToolCall): string {
    match call.params
    case Fields(fields) =>
      if "name" in fields && fields["name"].JsonString? then fields["name"].text else ""
    case _ => ""
  }

  /** A call of the tool `name` with no arguments. */
  function CallOf(name: string): ToolCall {
    ToolCall("", "tools/call", Fields(map["name" := JsonString(name)]))
  }
}
