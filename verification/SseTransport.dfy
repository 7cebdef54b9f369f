/** The session protocol of the streamable HTTP transport: initialize, call, and one new session after a 404. */
module SseTransport {
  import opened Text
  import opened Domain
  import EventStream

  datatype Payload = Initialize | Invoke(call: ToolCall)

  datatype Post = Post(url: string, payload: Payload, credential: string, identityToken: string, session: string)

  /** What the wire answers to a post: nothing, or a status, the session header, and a body
      that is an event stream or not and that may fail to be read. */
  datatype Wire =
    | NoConnection
    | Http(status: int, session: string, eventStream: bool, body: string, readable: bool)

  datatype Exchange = Exchange(post: Post, wire: Wire)

  /** `post`'s results: no body means an error; status 0 means that there was no response. */
  datatype PostResult = PostResult(body: Option<string>, session: string, status: int)

  const OK := 200
  const ACCEPTED := 202
  const NOT_FOUND := 404

  function Interpret(wire: Wire): PostResult {
    match wire
    case NoConnection => PostResult(None, "", 0)
    case Http(status, session, eventStream, body, readable) =>
      if status != OK && status != ACCEPTED then PostResult(None, "", status)
      else
        var content := if !readable then None
                       else if eventStream then EventStream.Scan(Split(body, '\n'), "")
                       else Some(body);
        if content.None? then PostResult(None, "", status) else PostResult(content, session, status)
  }

  /** The session that an initialize exchange opens, if it succeeds; "" from a sessionless server. */
  function SessionOf(wire: Wire, isRpcError: string -> bool): Option<string> {
    var r := Interpret(wire);
    if r.body.None? || isRpcError(r.body.value) then None else Some(r.session)
  }

  /** What is the same in every post of one `Forward`. */
  datatype Target = Target(url: string, call: ToolCall, credential: string, identityToken: string)

  function InitPost(t: Target): Post {
    Post(t.url, Initialize, t.credential, t.identityToken, "")
  }

  function CallPost(t: Target, session: string): Post {
    Post(t.url, Invoke(t.call), t.credential, t.identityToken, session)
  }

  /** A call was refused because its session is gone. */
  predicate SessionExpired(e: Exchange) {
    Interpret(e.wire).status == NOT_FOUND && e.post.session != ""
  }

  class SseBackendTransport {
    const server: (nat, Post) -> Wire
    const isRpcError: string -> bool
    var log: seq<Exchange>

    constructor (server: (nat, Post) -> Wire, isRpcError: string -> bool)
      ensures this.server == server && this.isRpcError == isRpcError && log == []
    {
      this.server, this.isRpcError, log := server, isRpcError, [];
    }

    method DoPost(post: Post) returns (r: PostResult, ghost wire: Wire)
      modifies this
      ensures log == old(log) + [Exchange(post, wire)] && r == Interpret(wire)
    {
      var answer := server(|log|, post);
      wire := answer;
      log := log + [Exchange(post, answer)];
      match answer
      case NoConnection =>
        r := PostResult(None, "", 0);
      case Http(status, session, eventStream, body, readable) =>
        if status != OK && status != ACCEPTED {
          return PostResult(None, "", status), wire;
        }
        var content := None;
        if readable {
          if eventStream {
            content := EventStream.ReadFirstMessage(body);
          } else {
            content := Some(body);
          }
        }
        r := if content.None? then PostResult(None, "", status) else PostResult(content, session, status);
    }

    method OpenSession(t: Target) returns (session: Option<string>, ghost wire: Wire)
      modifies this
      ensures log == old(log) + [Exchange(InitPost(t), wire)]
      ensures session == SessionOf(wire, isRpcError)
    {
      var r;
      r, wire := DoPost(InitPost(t));
      if r.body.None? {
        return None, wire;
      }
      if isRpcError(r.body.value) {
        return None, wire;
      }
      return Some(r.session), wire;
    }

    /** The call under the given session and, when that session has expired, once more under a new one. */
    method Send(t: Target, session: string) returns (result: Option<string>, ghost seg: seq<Exchange>)
      modifies this
      ensures log == old(log) + seg && Sent(seg, t, session, result, isRpcError)
    {
      var r, wire := DoPost(CallPost(t, session));
      seg := [Exchange(CallPost(t, session), wire)];
      result := r.body;
      if r.body.None? && r.status == NOT_FOUND && session != "" {
        var again, wire2 := OpenSession(t);
        seg := seg + [Exchange(InitPost(t), wire2)];
        if again.None? {
          return None, seg;
        }
        var r2, wire3 := DoPost(CallPost(t, again.value));
        seg := seg + [Exchange(CallPost(t, again.value), wire3)];
        result := r2.body;
      }
    }

    method Forward(t: Target) returns (result: Option<string>, ghost seg: seq<Exchange>)
      modifies this
      ensures log == old(log) + seg && Forwarded(seg, t, result, isRpcError)
    {
      var session, wire := OpenSession(t);
      seg := [Exchange(InitPost(t), wire)];
      if session.None? {
        return None, seg;
      }
      ghost var rest;
      result, rest := Send(t, session.value);
      seg := seg + rest;
      assert seg[1..] == rest;
    }
  }

  /** The exchanges of `Send`: the call, and after an expired session a new session and the call again. */
  ghost predicate Sent(seg: seq<Exchange>, t: Target, session: string, result: Option<string>,
                       isRpcError: string -> bool) {
    && |seg| >= 1 && seg[0].post == CallPost(t, session)
    && if SessionExpired(seg[0]) then
         && |seg| >= 2 && seg[1].post == InitPost(t)
         && match SessionOf(seg[1].wire, isRpcError)
            case None => |seg| == 2 && result == None
            case Some(again) =>
              |seg| == 3 && seg[2].post == CallPost(t, again) && result == Interpret(seg[2].wire).body
       else
         |seg| == 1 && result == Interpret(seg[0].wire).body
  }

  ghost predicate Forwarded(seg: seq<Exchange>, t: Target, result: Option<string>, isRpcError: string -> bool) {
    && |seg| >= 1 && seg[0].post == InitPost(t)
    && match SessionOf(seg[0].wire, isRpcError)
       case None => |seg| == 1 && result == None
       case Some(session) => Sent(seg[1..], t, session, result, isRpcError)
  }

  /** Every call carries the session of the initialize just before it; there are at most two calls,
      the second exactly after the first was answered 404 under a non-empty session; every post carries the
      same credential and identity token; and a result is the body of the last exchange, which is a call. */
  lemma SessionsAreCurrent(seg: seq<Exchange>, t: Target, result: Option<string>, isRpcError: string -> bool)
    requires Forwarded(seg, t, result, isRpcError)
    ensures 1 <= |seg| <= 4
    ensures forall k | 0 <= k < |seg| :: seg[k].post.payload == if k % 2 == 0 then Initialize else Invoke(t.call)
    ensures forall k | 0 <= k < |seg| && seg[k].post.payload.Invoke? ::
              k > 0 && SessionOf(seg[k - 1].wire, isRpcError) == Some(seg[k].post.session)
    ensures |seg| > 1 ==> (|seg| > 2 <==> SessionExpired(seg[1]))
    ensures forall k | 0 <= k < |seg| ::
              seg[k].post.credential == t.credential && seg[k].post.identityToken == t.identityToken
                  && seg[k].post.url == t.url
    ensures result.Some? ==>
              seg[|seg| - 1].post.payload.Invoke? && result == Interpret(seg[|seg| - 1].wire).body
  {
    assert forall k | 1 <= k < |seg| :: seg[k] == seg[1..][k - 1];
  }

  // ---------------------------------------------------------------------
  // From the wire to the result
  // ---------------------------------------------------------------------

  /** Line `k` is the first data line of the body that stands under a message event, and it carries `x`. */
  ghost predicate FirstMessage(body: string, k: int, x: string) {
    var lines := Split(body, '\n');
    && EventStream.MessageAt(lines, k) && EventStream.Classify(lines[k]) == EventStream.DataLine(x)
    && forall i | 0 <= i < k :: !EventStream.MessageAt(lines, i)
  }

  /** The wire brings `x`: a 200 or 202 with a readable body, whose first message is `x` if it is an event stream,
      and which is `x` itself if it is not. */
  ghost predicate Brings(wire: Wire, x: string) {
    && wire.Http? && (wire.status == 200 || wire.status == 202) && wire.readable
    && if wire.eventStream then exists k :: FirstMessage(wire.body, k, x) else wire.body == x
  }

  lemma ScanBrings(body: string, x: string)
    ensures EventStream.Scan(Split(body, '\n'), "") == Some(x) <==> exists k :: FirstMessage(body, k, x)
  {
    var lines := Split(body, '\n');
    EventStream.ScanIsFirstMessage(lines);
    if k :| EventStream.MessageAt(lines, k) {
      var first := EventStream.FirstMessage(lines, k);
      assert EventStream.Classify(lines[first]).DataLine?;
      assert EventStream.Scan(lines, "") == Some(x) ==> FirstMessage(body, first, x);
    }
  }

  lemma InterpretBrings(wire: Wire, x: string)
    ensures Interpret(wire).body == Some(x) <==> Brings(wire, x)
    ensures Brings(wire, x) ==> Interpret(wire).session == wire.session
    ensures Interpret(wire).status == 404 <==> wire.Http? && wire.status == 404
  {
    if wire.Http? {
      ScanBrings(wire.body, x);
    }
  }

  /** The wire opens a session: it brings an answer that is no error of the protocol, under this session header. */
  ghost predicate Opens(wire: Wire, session: string, isRpcError: string -> bool) {
    exists x :: Brings(wire, x) && !isRpcError(x) && wire.session == session
  }

  lemma SessionOfOpens(wire: Wire, session: string, isRpcError: string -> bool)
    ensures SessionOf(wire, isRpcError) == Some(session) <==> Opens(wire, session, isRpcError)
  {
    var r := Interpret(wire);
    if r.body.Some? {
      InterpretBrings(wire, r.body.value);
    }
    if x :| Brings(wire, x) && !isRpcError(x) && wire.session == session {
      InterpretBrings(wire, x);
    }
  }

  /** The posts of one forward, by their place. */
  ghost predicate Posts(seg: seq<Exchange>, t: Target, isRpcError: string -> bool) {
    && 1 <= |seg| <= 4
    && (forall k | 0 <= k < |seg| ::
          && seg[k].post.url == t.url && seg[k].post.credential == t.credential
          && seg[k].post.identityToken == t.identityToken
          && seg[k].post.payload == if k == 0 || k == 2 then Initialize else Invoke(t.call))
    && seg[0].post.session == ""
    && (|seg| >= 2 <==> exists session :: Opens(seg[0].wire, session, isRpcError))
    && (|seg| >= 2 ==> Opens(seg[0].wire, seg[1].post.session, isRpcError))
    && (|seg| >= 3 <==> |seg| >= 2 && seg[1].wire.Http? && seg[1].wire.status == 404 && seg[1].post.session != "")
    && (|seg| >= 3 ==> seg[2].post.session == "")
    && (|seg| == 4 <==> |seg| >= 3 && exists session :: Opens(seg[2].wire, session, isRpcError))
    && (|seg| == 4 ==> Opens(seg[2].wire, seg[3].post.session, isRpcError))
  }

  lemma SessionOfNone(wire: Wire, isRpcError: string -> bool)
    ensures SessionOf(wire, isRpcError).None? <==> !exists session :: Opens(wire, session, isRpcError)
  {
    if SessionOf(wire, isRpcError).Some? {
      SessionOfOpens(wire, SessionOf(wire, isRpcError).value, isRpcError);
    }
    forall session ensures SessionOf(wire, isRpcError) == Some(session) <==> Opens(wire, session, isRpcError) {
      SessionOfOpens(wire, session, isRpcError);
    }
  }

  lemma SentPosts(seg: seq<Exchange>, t: Target, session: string, result: Option<string>, isRpcError: string -> bool)
    requires Sent(seg, t, session, result, isRpcError)
    ensures 1 <= |seg| <= 3 && seg[0].post == CallPost(t, session)
    ensures |seg| >= 2 <==> seg[0].wire.Http? && seg[0].wire.status == 404 && session != ""
    ensures |seg| >= 2 ==> seg[1].post == InitPost(t)
    ensures |seg| == 3 <==> |seg| >= 2 && exists again :: Opens(seg[1].wire, again, isRpcError)
    ensures |seg| == 3 ==>
              && seg[2].post == CallPost(t, seg[2].post.session)
              && Opens(seg[1].wire, seg[2].post.session, isRpcError)
    ensures result == if |seg| == 2 then None else Interpret(seg[|seg| - 1].wire).body
  {
    InterpretBrings(seg[0].wire, "");
    if |seg| >= 2 {
      SessionOfNone(seg[1].wire, isRpcError);
      if |seg| == 3 {
        SessionOfOpens(seg[1].wire, seg[2].post.session, isRpcError);
      }
    }
  }

  /** Which posts a forward makes, each decided by the answers before it. */
  lemma ForwardPosts(seg: seq<Exchange>, t: Target, result: Option<string>, isRpcError: string -> bool)
    requires Forwarded(seg, t, result, isRpcError)
    ensures Posts(seg, t, isRpcError)
  {
    SessionOfNone(seg[0].wire, isRpcError);
    var session := SessionOf(seg[0].wire, isRpcError);
    if session.Some? {
      var rest := seg[1..];
      SessionOfOpens(seg[0].wire, session.value, isRpcError);
      SentPosts(rest, t, session.value, result, isRpcError);
      assert forall k | 1 <= k < |seg| :: seg[k] == rest[k - 1];
    }
  }

  /** What a forward returns: exactly what the answer to its last post brings, if that post is the call. */
  lemma ForwardReturns(seg: seq<Exchange>, t: Target, result: Option<string>, isRpcError: string -> bool, x: string)
    requires Forwarded(seg, t, result, isRpcError)
    ensures result == Some(x) <==>
            seg != [] && seg[|seg| - 1].post.payload == Invoke(t.call) && Brings(seg[|seg| - 1].wire, x)
  {
    var session := SessionOf(seg[0].wire, isRpcError);
    if session.Some? {
      var rest := seg[1..];
      SentPosts(rest, t, session.value, result, isRpcError);
      assert seg[|seg| - 1] == rest[|rest| - 1];
      InterpretBrings(seg[|seg| - 1].wire, x);
    }
  }
}
