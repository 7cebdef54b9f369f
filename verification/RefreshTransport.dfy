/** Retry on 401 with one token refresh, for any number of requests interleaved over one token store. */
module RefreshTransport {
  import opened Text
  import opened Domain

  datatype Key = Key(user: string, provider: string)

  /** An outbound request; `obo` is the user and provider that the pipeline attached to its context. */
  datatype Request = Request(headers: map<string, string>, body: Option<string>, obo: Option<Key>)

  datatype Reply = Response(status: int, content: string) | Unreachable

  const UNAUTHORIZED := 401

  /** The retry: the same request under the new access token. */
  function Retry(req: Request, pair: TokenPair): Request {
    req.(headers := req.headers["Authorization" := "Bearer " + pair.accessToken])
  }

  /** What one request did to the outside, in order. */
  datatype Event =
    | Sent(request: Request, reply: Reply)
    | Read(key: Key, found: Option<TokenPair>)
    | Asked(key: Key, refreshToken: string, answer: Option<TokenPair>)
    | Wrote(key: Key, pair: TokenPair, ok: bool)
    | Removed(key: Key, ok: bool)

  datatype Entry = Of(id: nat, event: Event) | Foreign(key: Key, pair: TokenPair)

  datatype Outcome =
    | Passed(first: Reply)
    | NoPair(first: Reply)
    | RefreshDenied(first: Reply, held: TokenPair, deleted: bool)
    | Retried(first: Reply, held: TokenPair, pair: TokenPair, saved: bool, second: Reply)

  datatype Phase =
    | Ready
    | Got401(first: Reply)
    | Holding(first: Reply, held: TokenPair)
    | ToSave(first: Reply, held: TokenPair, pair: TokenPair)
    | ToDelete(first: Reply, held: TokenPair)
    | ToRetry(first: Reply, held: TokenPair, pair: TokenPair, saved: bool)
    | Done(outcome: Outcome)

  datatype State = State(store: map<Key, TokenPair>, requests: map<nat, Request>, phases: map<nat, Phase>,
                         log: seq<Entry>)

  /** `ForeignSave` is any other writer of the store: the connect callback or a silent session refresh. */
  datatype Action =
    | Begin(id: nat, request: Request)
    | Send(id: nat, reply: Reply)
    | Load(id: nat, key: Key, fails: bool)
    | Refresh(id: nat, key: Key, answer: Option<TokenPair>)
    | Save(id: nat, key: Key, ok: bool)
    | Delete(id: nat, key: Key, ok: bool)
    | Resend(id: nat, reply: Reply)
    | ForeignSave(key: Key, pair: TokenPair)

  predicate WillRefresh(req: Request, reply: Reply, hasRefresher: bool) {
    reply.Response? && reply.status == UNAUTHORIZED && req.obo.Some? && hasRefresher
  }

  predicate At(s: State, id: nat) {
    id in s.requests && id in s.phases
  }

  predicate Enabled(s: State, a: Action) {
    match a
    case Begin(id, _) => id !in s.requests && id !in s.phases
    case Send(id, _) => At(s, id) && s.phases[id].Ready?
    case Load(id, key, _) => At(s, id) && s.phases[id].Got401? && s.requests[id].obo == Some(key)
    case Refresh(id, key, _) => At(s, id) && s.phases[id].Holding? && s.requests[id].obo == Some(key)
    case Save(id, key, _) => At(s, id) && s.phases[id].ToSave? && s.requests[id].obo == Some(key)
    case Delete(id, key, _) => At(s, id) && s.phases[id].ToDelete? && s.requests[id].obo == Some(key)
    case Resend(id, _) => At(s, id) && s.phases[id].ToRetry?
    case ForeignSave(_, _) => true
  }

  function Find(store: map<Key, TokenPair>, key: Key): Option<TokenPair> {
    if key in store then Some(store[key]) else None
  }

  function Moved(s: State, id: nat, phase: Phase, event: Event): State {
    s.(phases := s.phases[id := phase], log := s.log + [Of(id, event)])
  }

  function Next(s: State, a: Action, hasRefresher: bool): State
    requires Enabled(s, a)
  {
    match a
    case Begin(id, req) => s.(requests := s.requests[id := req], phases := s.phases[id := Ready])
    case Send(id, reply) =>
      var req := s.requests[id];
      Moved(s, id, if WillRefresh(req, reply, hasRefresher) then Got401(reply) else Done(Passed(reply)),
            Sent(req, reply))
    case Load(id, key, fails) =>
      var found := if fails then None else Find(s.store, key);
      var first := s.phases[id].first;
      Moved(s, id, if found.Some? then Holding(first, found.value) else Done(NoPair(first)), Read(key, found))
    case Refresh(id, key, answer) =>
      var Holding(first, held) := s.phases[id];
      Moved(s, id, if answer.Some? then ToSave(first, held, answer.value) else ToDelete(first, held),
            Asked(key, held.refreshToken, answer))
    case Save(id, key, ok) =>
      var ToSave(first, held, pair) := s.phases[id];
      Moved(s, id, ToRetry(first, held, pair, ok),
            Wrote(key, pair, ok)).(store := if ok then s.store[key := pair] else s.store)
    case Delete(id, key, ok) =>
      var ToDelete(first, held) := s.phases[id];
      Moved(s, id, Done(RefreshDenied(first, held, ok)),
            Removed(key, ok)).(store := if ok then s.store - {key} else s.store)
    case Resend(id, reply) =>
      var ToRetry(first, held, pair, saved) := s.phases[id];
      Moved(s, id, Done(Retried(first, held, pair, saved, reply)), Sent(Retry(s.requests[id], pair), reply))
    case ForeignSave(key, pair) =>
      s.(store := s.store[key := pair], log := s.log + [Foreign(key, pair)])
  }

  function Run(s: State, acts: seq<Action>, hasRefresher: bool): Option<State>
    decreases |acts|
  {
    if acts == [] then Some(s)
    else
      match Run(s, acts[..|acts| - 1], hasRefresher)
      case None => None
      case Some(m) =>
        if Enabled(m, acts[|acts| - 1]) then Some(Next(m, acts[|acts| - 1], hasRefresher)) else None
  }

  function Initial(store: map<Key, TokenPair>): State {
    State(store, map[], map[], [])
  }

  // ---------------------------------------------------------------------
  // What each request has done
  // ---------------------------------------------------------------------

  /** The part of the log that belongs to one request. */
  function Own(log: seq<Entry>, id: nat): seq<Event> {
    if log == [] then []
    else
      var last := log[|log| - 1];
      Own(log[..|log| - 1], id) + (if last.Of? && last.id == id then [last.event] else [])
  }

  /** The only possible histories of a request, by where it stands. */
  function History(req: Request, phase: Phase): seq<Event>
    requires phase.Ready? || (phase.Done? && phase.outcome.Passed?) || req.obo.Some?
  {
    match phase
    case Ready => []
    case Got401(first) => [Sent(req, first)]
    case Holding(first, held) => Asking(req, first, held)
    case ToSave(first, held, pair) => Asking(req, first, held) + [Answer(req, held, Some(pair))]
    case ToDelete(first, held) => Asking(req, first, held) + [Answer(req, held, None)]
    case ToRetry(first, held, pair, saved) =>
      Asking(req, first, held) + [Answer(req, held, Some(pair)), Wrote(req.obo.value, pair, saved)]
    case Done(Passed(first)) => [Sent(req, first)]
    case Done(NoPair(first)) => [Sent(req, first), Read(req.obo.value, None)]
    case Done(RefreshDenied(first, held, deleted)) =>
      Asking(req, first, held) + [Answer(req, held, None), Removed(req.obo.value, deleted)]
    case Done(Retried(first, held, pair, saved, second)) =>
      Asking(req, first, held)
      + [Answer(req, held, Some(pair)), Wrote(req.obo.value, pair, saved), Sent(Retry(req, pair), second)]
  }

  function Asking(req: Request, first: Reply, held: TokenPair): seq<Event>
    requires req.obo.Some?
  {
    [Sent(req, first), Read(req.obo.value, Some(held))]
  }

  function Answer(req: Request, held: TokenPair, answer: Option<TokenPair>): Event
    requires req.obo.Some?
  {
    Asked(req.obo.value, held.refreshToken, answer)
  }

  ghost predicate RequestOk(s: State, id: nat, hasRefresher: bool) {
    if id in s.requests && id in s.phases then
      var req, phase := s.requests[id], s.phases[id];
      && (!phase.Ready? && !(phase.Done? && phase.outcome.Passed?) ==>
            WillRefresh(req, FirstReply(phase), hasRefresher))
      && (phase.Done? && phase.outcome.Passed? ==> !WillRefresh(req, phase.outcome.first, hasRefresher))
      && Own(s.log, id) == History(req, phase)
    else
      id !in s.requests && id !in s.phases && Own(s.log, id) == []
  }

  function FirstReply(phase: Phase): Reply
    requires !phase.Ready?
  {
    if phase.Done? then phase.outcome.first else phase.first
  }

  lemma OwnOfLonger(log: seq<Entry>, e: Entry, id: nat)
    ensures Own(log + [e], id) == Own(log, id) + (if e.Of? && e.id == id then [e.event] else [])
  {
    assert (log + [e])[..|log|] == log;
  }

  lemma SendOrLoadKeeps(s: State, a: Action, hasRefresher: bool)
    requires Enabled(s, a) && (a.Send? || a.Load?) && RequestOk(s, a.id, hasRefresher)
    ensures RequestOk(Next(s, a, hasRefresher), a.id, hasRefresher)
  {
    var out := Next(s, a, hasRefresher);
    OwnOfLonger(s.log, out.log[|s.log|], a.id);
    assert out.log == s.log + [out.log[|s.log|]];
  }

  lemma RefreshKeeps(s: State, a: Action, hasRefresher: bool)
    requires Enabled(s, a) && (a.Refresh?) && RequestOk(s, a.id, hasRefresher)
    ensures RequestOk(Next(s, a, hasRefresher), a.id, hasRefresher)
  {
    var out := Next(s, a, hasRefresher);
    OwnOfLonger(s.log, out.log[|s.log|], a.id);
    assert out.log == s.log + [out.log[|s.log|]];
  }

  lemma StoreStepKeeps(s: State, a: Action, hasRefresher: bool)
    requires Enabled(s, a) && (a.Save? || a.Delete?) && RequestOk(s, a.id, hasRefresher)
    ensures RequestOk(Next(s, a, hasRefresher), a.id, hasRefresher)
  {
    var out := Next(s, a, hasRefresher);
    OwnOfLonger(s.log, out.log[|s.log|], a.id);
    assert out.log == s.log + [out.log[|s.log|]];
  }

  lemma ResendKeeps(s: State, a: Action, hasRefresher: bool)
    requires Enabled(s, a) && (a.Resend?) && RequestOk(s, a.id, hasRefresher)
    ensures RequestOk(Next(s, a, hasRefresher), a.id, hasRefresher)
  {
    var out := Next(s, a, hasRefresher);
    OwnOfLonger(s.log, out.log[|s.log|], a.id);
    assert out.log == s.log + [out.log[|s.log|]];
  }

  /** Nothing of request `id` differs between the two states. */
  ghost predicate SameFor(s: State, out: State, id: nat) {
    && (id in s.requests <==> id in out.requests) && (id in s.phases <==> id in out.phases)
    && (id in s.requests && id in out.requests ==> s.requests[id] == out.requests[id])
    && (id in s.phases && id in out.phases ==> s.phases[id] == out.phases[id])
    && Own(s.log, id) == Own(out.log, id)
  }

  lemma SameIsOk(s: State, out: State, hasRefresher: bool, id: nat)
    requires SameFor(s, out, id) && RequestOk(s, id, hasRefresher)
    ensures RequestOk(out, id, hasRefresher)
  {
  }

  lemma OthersStepLeaves(s: State, a: Action, hasRefresher: bool, id: nat)
    requires Enabled(s, a) && !a.Begin? && (a.ForeignSave? || a.id != id)
    ensures SameFor(s, Next(s, a, hasRefresher), id)
  {
    var out := Next(s, a, hasRefresher);
    OwnOfLonger(s.log, out.log[|s.log|], id);
    assert out.log == s.log + [out.log[|s.log|]];
  }

  lemma OthersStepKeeps(s: State, a: Action, hasRefresher: bool, id: nat)
    requires Enabled(s, a) && !a.Begin? && (a.ForeignSave? || a.id != id) && RequestOk(s, id, hasRefresher)
    ensures RequestOk(Next(s, a, hasRefresher), id, hasRefresher)
  {
    OthersStepLeaves(s, a, hasRefresher, id);
    SameIsOk(s, Next(s, a, hasRefresher), hasRefresher, id);
  }

  lemma StepKeepsRequests(s: State, a: Action, hasRefresher: bool, id: nat)
    requires Enabled(s, a) && RequestOk(s, id, hasRefresher)
    ensures RequestOk(Next(s, a, hasRefresher), id, hasRefresher)
  {
    if a.Begin? {
    } else if a.ForeignSave? || a.id != id {
      OthersStepKeeps(s, a, hasRefresher, id);
    } else {
      match a {
        case Send(_, _) => SendOrLoadKeeps(s, a, hasRefresher);
        case Load(_, _, _) => SendOrLoadKeeps(s, a, hasRefresher);
        case Refresh(_, _, _) => RefreshKeeps(s, a, hasRefresher);
        case Resend(_, _) => ResendKeeps(s, a, hasRefresher);
        case _ => StoreStepKeeps(s, a, hasRefresher);
      }
    }
  }

  lemma {:induction false} RunKeepsRequests(store: map<Key, TokenPair>, acts: seq<Action>, hasRefresher: bool, id: nat)
    requires Run(Initial(store), acts, hasRefresher).Some?
    ensures RequestOk(Run(Initial(store), acts, hasRefresher).value, id, hasRefresher)
  {
    if acts == [] {
    } else {
      var before := acts[..|acts| - 1];
      RunKeepsRequests(store, before, hasRefresher, id);
      StepKeepsRequests(Run(Initial(store), before, hasRefresher).value, acts[|acts| - 1], hasRefresher, id);
    }
  }

  /** The key that an event touches in the store or at the provider. */
  function Touched(e: Event): Option<Key> {
    if e.Sent? then None else Some(e.key)
  }

  /** `i` is the retry: the same request under the token that this request's own refresh returned. */
  ghost predicate IsRetry(req: Request, h: seq<Event>, i: nat) {
    i < |h| && h[i].Sent? &&
    exists k | 0 < k < i :: h[k].Asked? && h[k].answer.Some? && h[i].request == Retry(req, h[k].answer.value)
  }

  /** At most one refresh; at most two sends, first the request itself and then its retry;
      and no other key is touched. */
  ghost predicate Bounded(req: Request, h: seq<Event>) {
    && (forall i, j | 0 <= i < j < |h| :: !(h[i].Asked? && h[j].Asked?))
    && (forall i | 0 <= i < |h| && h[i].Sent? :: (i == 0 && h[i].request == req) || (i == 4 && IsRetry(req, h, i)))
    && (forall e | e in h && Touched(e).Some? :: Touched(e) == req.obo)
  }

  lemma HistoryIsBounded(req: Request, phase: Phase)
    requires phase.Ready? || (phase.Done? && phase.outcome.Passed?) || req.obo.Some?
    ensures Bounded(req, History(req, phase))
  {
    var h := History(req, phase);
    if phase.Done? && phase.outcome.Retried? {
      assert h[2] == Answer(req, phase.outcome.held, Some(phase.outcome.pair));
      assert IsRetry(req, h, 4);
    }
  }

  /** In every run, whatever else is interleaved, each request refreshes at most once, sends at most
      twice with the retry differing only by its own refreshed token, and touches only its own key. */
  lemma EveryRequestIsBounded(store: map<Key, TokenPair>, acts: seq<Action>, hasRefresher: bool, id: nat)
    requires Run(Initial(store), acts, hasRefresher).Some?
    ensures var s := Run(Initial(store), acts, hasRefresher).value;
            if id in s.requests then Bounded(s.requests[id], Own(s.log, id)) else Own(s.log, id) == []
  {
    RunKeepsRequests(store, acts, hasRefresher, id);
    var s := Run(Initial(store), acts, hasRefresher).value;
    if id in s.requests {
      HistoryIsBounded(s.requests[id], s.phases[id]);
    }
  }

  // ---------------------------------------------------------------------
  // A request's whole story
  // ---------------------------------------------------------------------

  /** `retry` is `req` once more: the same body and key, and the same headers but for the token, which is that of
      `pair`. */
  ghost predicate Replays(retry: Request, req: Request, pair: TokenPair) {
    && retry.body == req.body && retry.obo == req.obo
    && retry.headers.Keys == req.headers.Keys + {"Authorization"}
    && retry.headers["Authorization"] == "Bearer " + pair.accessToken
    && forall h | h in req.headers && h != "Authorization" :: retry.headers[h] == req.headers[h]
  }

  /** Each event of a request, by its place: what it is, and which answer before it brought it about. */
  ghost predicate Story(req: Request, h: seq<Event>, hasRefresher: bool) {
    && |h| <= 5
    && (|h| >= 1 ==> h[0].Sent? && h[0].request == req)
    && (|h| >= 2 ==> h[0].reply.Response? && h[0].reply.status == 401 && hasRefresher && req.obo.Some?
                     && h[1].Read? && h[1].key == req.obo.value)
    && (|h| >= 3 ==> h[1].found.Some? && h[2].Asked? && h[2].key == req.obo.value
                     && h[2].refreshToken == h[1].found.value.refreshToken)
    && (|h| >= 4 && h[2].answer.Some? ==>
          h[3].Wrote? && h[3].key == req.obo.value && h[3].pair == h[2].answer.value)
    && (|h| >= 4 && h[2].answer.None? ==> h[3].Removed? && h[3].key == req.obo.value)
    && (|h| == 5 ==> h[2].answer.Some? && h[4].Sent? && Replays(h[4].request, req, h[2].answer.value))
  }

  /** When a request is over, every answer it got has been acted upon, and its outcome is what it got last. */
  ghost predicate IsOver(req: Request, h: seq<Event>, hasRefresher: bool, outcome: Outcome) {
    && |h| >= 1 && h[0].Sent?
    && (|h| == 1 <==> !(h[0].reply.Response? && h[0].reply.status == 401 && hasRefresher && req.obo.Some?))
    && (|h| == 2 ==> h[1].Read? && h[1].found == None)
    && |h| != 3
    && (|h| == 4 ==> h[2].Asked? && h[2].answer == None)
    && Returned(outcome) == if |h| == 1 || (|h| == 5 && h[4].Sent?) then Some(h[|h| - 1].reply) else None
  }

  /** What the caller of the round trip gets: a reply, or an error. */
  function Returned(outcome: Outcome): Option<Reply> {
    match outcome
    case Passed(first) => Some(first)
    case NoPair(_) => None
    case RefreshDenied(_, _, _) => None
    case Retried(_, _, _, _, second) => Some(second)
  }

  lemma RetryReplays(req: Request, pair: TokenPair)
    ensures Replays(Retry(req, pair), req, pair)
  {
  }

  lemma HistoryIsAStory(req: Request, phase: Phase, hasRefresher: bool)
    requires phase.Ready? || (phase.Done? && phase.outcome.Passed?) || WillRefresh(req, FirstReply(phase), hasRefresher)
    ensures Story(req, History(req, phase), hasRefresher)
  {
    if phase.Done? && phase.outcome.Retried? {
      RetryReplays(req, phase.outcome.pair);
    }
  }

  lemma HistoryIsOver(req: Request, outcome: Outcome, hasRefresher: bool)
    requires outcome.Passed? <==> !WillRefresh(req, outcome.first, hasRefresher)
    ensures IsOver(req, History(req, Done(outcome)), hasRefresher, outcome)
  {
  }

  /** In every run, whatever else is interleaved, what each request has done is such a story; and, when it is over, a
      complete one. */
  lemma EveryRequestIsAStory(store: map<Key, TokenPair>, acts: seq<Action>, hasRefresher: bool, id: nat)
    requires Run(Initial(store), acts, hasRefresher).Some?
    ensures var s := Run(Initial(store), acts, hasRefresher).value;
            id in s.requests ==>
              && Story(s.requests[id], Own(s.log, id), hasRefresher)
              && (id in s.phases && s.phases[id].Done? ==>
                    IsOver(s.requests[id], Own(s.log, id), hasRefresher, s.phases[id].outcome))
  {
    RunKeepsRequests(store, acts, hasRefresher, id);
    var s := Run(Initial(store), acts, hasRefresher).value;
    if id in s.requests {
      HistoryIsAStory(s.requests[id], s.phases[id], hasRefresher);
      if s.phases[id].Done? {
        HistoryIsOver(s.requests[id], s.phases[id].outcome, hasRefresher);
      }
    }
  }

  /** What an event makes of the store: successful writes put, successful removals take away. */
  function Applied(store: map<Key, TokenPair>, e: Entry): map<Key, TokenPair> {
    match e
    case Foreign(key, pair) => store[key := pair]
    case Of(_, Wrote(key, pair, true)) => store[key := pair]
    case Of(_, Removed(key, true)) => store - {key}
    case _ => store
  }

  function Replayed(store: map<Key, TokenPair>, log: seq<Entry>): map<Key, TokenPair> {
    if log == [] then store else Applied(Replayed(store, log[..|log| - 1]), log[|log| - 1])
  }

  lemma ReplayedMore(store: map<Key, TokenPair>, log: seq<Entry>, e: Entry)
    ensures Replayed(store, log + [e]) == Applied(Replayed(store, log), e)
  {
    assert (log + [e])[..|log|] == log;
  }

  lemma StepApplies(s: State, a: Action, hasRefresher: bool)
    requires Enabled(s, a) && !a.Begin?
    ensures var out := Next(s, a, hasRefresher);
            exists e :: out.log == s.log + [e] && out.store == Applied(s.store, e)
  {
    var out := Next(s, a, hasRefresher);
    assert out.log == s.log + [out.log[|s.log|]];
  }

  lemma ReplayOne(store: map<Key, TokenPair>, s: State, a: Action, hasRefresher: bool)
    requires Enabled(s, a) && s.store == Replayed(store, s.log)
    ensures Next(s, a, hasRefresher).store == Replayed(store, Next(s, a, hasRefresher).log)
  {
    if !a.Begin? {
      var out := Next(s, a, hasRefresher);
      StepApplies(s, a, hasRefresher);
      var e :| out.log == s.log + [e] && out.store == Applied(s.store, e);
      ReplayedMore(store, s.log, e);
    }
  }

  /** In every run the store holds exactly what the successful writes and removals made of the first one. */
  lemma {:induction false} StoreIsReplayed(store: map<Key, TokenPair>, acts: seq<Action>, hasRefresher: bool)
    requires Run(Initial(store), acts, hasRefresher).Some?
    ensures var s := Run(Initial(store), acts, hasRefresher).value; s.store == Replayed(store, s.log)
  {
    if acts == [] {
    } else {
      StoreIsReplayed(store, acts[..|acts| - 1], hasRefresher);
      ReplayOne(store, Run(Initial(store), acts[..|acts| - 1], hasRefresher).value, acts[|acts| - 1], hasRefresher);
    }
  }

  // ---------------------------------------------------------------------
  // What the store holds
  // ---------------------------------------------------------------------

  /** The key that an action may write or delete. */
  function Writes(a: Action): Option<Key> {
    if a.Save? || a.Delete? || a.ForeignSave? then Some(a.key) else None
  }

  /** Over any run, a key that no action writes keeps its pair; with `EveryRequestIsBounded`, the key that a
      request writes is the one that the pipeline attached to it. */
  lemma {:induction false} UnwrittenKeyIsKept(s: State, acts: seq<Action>, hasRefresher: bool, key: Key)
    requires Run(s, acts, hasRefresher).Some?
    requires forall a | a in acts :: Writes(a) != Some(key)
    ensures Find(Run(s, acts, hasRefresher).value.store, key) == Find(s.store, key)
  {
    if acts == [] {
    } else {
      assert acts[|acts| - 1] in acts;
      UnwrittenKeyIsKept(s, acts[..|acts| - 1], hasRefresher, key);
    }
  }

  /** `pair` was there at the start, was saved for `key` by another writer, or is what the provider
      answered to a refresh for `key`, written by the request that had asked. */
  ghost predicate Accounted(store: map<Key, TokenPair>, log: seq<Entry>, key: Key, pair: TokenPair) {
    || (key in store && store[key] == pair)
    || Foreign(key, pair) in log
    || exists id, token :: Of(id, Asked(key, token, Some(pair))) in log && Of(id, Wrote(key, pair, true)) in log
  }

  ghost predicate AllAccounted(store: map<Key, TokenPair>, s: State) {
    forall key | key in s.store :: Accounted(store, s.log, key, s.store[key])
  }

  lemma {:induction false} OwnIsLogged(log: seq<Entry>, id: nat, e: Event)
    requires e in Own(log, id)
    ensures Of(id, e) in log
  {
    var last := log[|log| - 1];
    if e in Own(log[..|log| - 1], id) {
      OwnIsLogged(log[..|log| - 1], id, e);
    }
  }

  lemma AccountedLater(store: map<Key, TokenPair>, log: seq<Entry>, e: Entry, key: Key, pair: TokenPair)
    requires Accounted(store, log, key, pair)
    ensures Accounted(store, log + [e], key, pair)
  {
    if id, token :| Of(id, Asked(key, token, Some(pair))) in log && Of(id, Wrote(key, pair, true)) in log {
      assert Of(id, Asked(key, token, Some(pair))) in log + [e] && Of(id, Wrote(key, pair, true)) in log + [e];
    }
  }

  lemma SavedIsAccounted(store: map<Key, TokenPair>, s: State, a: Action, hasRefresher: bool)
    requires Enabled(s, a) && a.Save? && a.ok && RequestOk(s, a.id, hasRefresher)
    ensures Accounted(store, Next(s, a, hasRefresher).log, a.key, s.phases[a.id].pair)
  {
    var ToSave(first, held, pair) := s.phases[a.id];
    var asked, wrote := Asked(a.key, held.refreshToken, Some(pair)), Wrote(a.key, pair, true);
    var own := History(s.requests[a.id], s.phases[a.id]);
    assert own[2] == asked && asked in Own(s.log, a.id);
    OwnIsLogged(s.log, a.id, asked);
    var log := s.log + [Of(a.id, wrote)];
    assert Of(a.id, asked) in log && Of(a.id, wrote) in log;
  }

  lemma StepKeepsAccounts(store: map<Key, TokenPair>, s: State, a: Action, hasRefresher: bool)
    requires Enabled(s, a) && AllAccounted(store, s)
    requires a.Save? ==> RequestOk(s, a.id, hasRefresher)
    ensures AllAccounted(store, Next(s, a, hasRefresher))
  {
    var out := Next(s, a, hasRefresher);
    forall key | key in out.store ensures Accounted(store, out.log, key, out.store[key]) {
      if a.Save? && a.ok && a.key == key {
        SavedIsAccounted(store, s, a, hasRefresher);
      } else if !a.Begin? && !(a.ForeignSave? && a.key == key) {
        assert out.log == s.log + [out.log[|s.log|]];
        AccountedLater(store, s.log, out.log[|s.log|], key, s.store[key]);
      }
    }
  }

  /** In every run, every stored pair is accounted for. */
  lemma {:induction false} EveryStoredPairIsAccounted(store: map<Key, TokenPair>, acts: seq<Action>, hasRefresher: bool)
    requires Run(Initial(store), acts, hasRefresher).Some?
    ensures AllAccounted(store, Run(Initial(store), acts, hasRefresher).value)
  {
    if acts == [] {
    } else {
      var before, a := acts[..|acts| - 1], acts[|acts| - 1];
      EveryStoredPairIsAccounted(store, before, hasRefresher);
      if a.Save? {
        RunKeepsRequests(store, before, hasRefresher, a.id);
      }
      StepKeepsAccounts(store, Run(Initial(store), before, hasRefresher).value, a, hasRefresher);
    }
  }

  // ---------------------------------------------------------------------
  // Runs that do not overlap on a key
  // ---------------------------------------------------------------------

  /** Nobody but request `id` writes `key`. */
  ghost predicate Undisturbed(acts: seq<Action>, id: nat, key: Key) {
    forall a | a in acts && Writes(a) == Some(key) :: !a.ForeignSave? && a.id == id
  }

  /** What the store holds under the request's key, given what it held at its start. */
  function Effect(before: Option<TokenPair>, phase: Phase): Option<TokenPair> {
    match phase
    case ToRetry(_, _, pair, saved) => if saved then Some(pair) else before
    case Done(Retried(_, _, pair, saved, _)) => if saved then Some(pair) else before
    case Done(RefreshDenied(_, _, deleted)) => if deleted then None else before
    case _ => before
  }

  /** The pair a request read, once it has read one. */
  function Held(phase: Phase): Option<TokenPair> {
    match phase
    case Holding(_, held) => Some(held)
    case ToSave(_, held, _) => Some(held)
    case ToDelete(_, held) => Some(held)
    case ToRetry(_, held, _, _) => Some(held)
    case Done(Retried(_, held, _, _, _)) => Some(held)
    case Done(RefreshDenied(_, held, _)) => Some(held)
    case _ => None
  }

  ghost predicate Tracks(m: State, id: nat, key: Key, before: Option<TokenPair>) {
    && At(m, id) && m.requests[id].obo == Some(key)
    && Find(m.store, key) == Effect(before, m.phases[id])
    && (Held(m.phases[id]).Some? ==> Held(m.phases[id]) == before)
  }

  lemma StepTracks(m: State, a: Action, hasRefresher: bool, id: nat, key: Key, before: Option<TokenPair>)
    requires Enabled(m, a) && Tracks(m, id, key, before)
    requires Writes(a) == Some(key) ==> !a.ForeignSave? && a.id == id
    ensures Tracks(Next(m, a, hasRefresher), id, key, before)
  {
  }

  /** A request that no other writer of its key overlaps, however it is interleaved with requests on other
      keys: after a 401 the refreshed pair is stored when the save succeeded, no pair is left when the refresh
      failed and the delete succeeded, and in every other case the store holds what it held. */
  lemma {:induction false} UndisturbedOutcome(s: State, acts: seq<Action>, hasRefresher: bool, id: nat, key: Key)
    requires At(s, id) && s.phases[id].Ready? && s.requests[id].obo == Some(key)
    requires Run(s, acts, hasRefresher).Some? && Undisturbed(acts, id, key)
    ensures Tracks(Run(s, acts, hasRefresher).value, id, key, Find(s.store, key))
  {
    if acts == [] {
    } else {
      var before, a := acts[..|acts| - 1], acts[|acts| - 1];
      assert a in acts;
      UndisturbedOutcome(s, before, hasRefresher, id, key);
      StepTracks(Run(s, before, hasRefresher).value, a, hasRefresher, id, key, Find(s.store, key));
    }
  }

  lemma Extend(s: State, acts: seq<Action>, m: State, a: Action, hasRefresher: bool) returns (next: State)
    requires Run(s, acts, hasRefresher) == Some(m) && Enabled(m, a)
    ensures next == Next(m, a, hasRefresher)
    ensures Run(s, acts + [a], hasRefresher) == Some(next)
  {
    assert (acts + [a])[..|acts|] == acts;
    next := Next(m, a, hasRefresher);
  }

  /** Two requests for one key, both answered 401, have both read the pair `spent`. */
  ghost predicate BothHold(m: State, key: Key, spent: TokenPair) {
    && At(m, 0) && At(m, 1)
    && m.requests[0].obo == Some(key) && m.requests[1].obo == Some(key)
    && m.phases[0].Holding? && m.phases[0].held == spent
    && m.phases[1].Holding? && m.phases[1].held == spent
    && m.store == map[key := spent]
  }

  lemma BothBegin(s: State, r0: Request, r1: Request) returns (acts: seq<Action>, m: State)
    requires s.requests == map[] && s.phases == map[]
    ensures Run(s, acts, true) == Some(m) && m.store == s.store
    ensures m.requests == map[0 := r0, 1 := r1] && m.phases == map[0 := Ready, 1 := Ready]
  {
    m := Extend(s, [], s, Begin(0, r0), true);
    m := Extend(s, [] + [Begin(0, r0)], m, Begin(1, r1), true);
    acts := [] + [Begin(0, r0)] + [Begin(1, r1)];
  }

  /** From `Ready` to `Holding`: a 401 and a read of the pair. */
  lemma ReadAfter401(s: State, before: seq<Action>, was: State, id: nat, key: Key)
    returns (acts: seq<Action>, m: State)
    requires Run(s, before, true) == Some(was) && At(was, id) && was.phases[id].Ready?
    requires was.requests[id].obo == Some(key) && key in was.store
    ensures Run(s, acts, true) == Some(m) && m.store == was.store && m.requests == was.requests
    ensures m.phases == was.phases[id := Holding(Response(UNAUTHORIZED, ""), was.store[key])]
  {
    var no := Response(UNAUTHORIZED, "");
    m := Extend(s, before, was, Send(id, no), true);
    m := Extend(s, before + [Send(id, no)], m, Load(id, key, false), true);
    acts := before + [Send(id, no)] + [Load(id, key, false)];
  }

  lemma BothCanHold(key: Key, spent: TokenPair, r0: Request, r1: Request) returns (acts: seq<Action>, m: State)
    requires r0.obo == Some(key) && r1.obo == Some(key)
    ensures Run(Initial(map[key := spent]), acts, true) == Some(m) && BothHold(m, key, spent)
  {
    var s := Initial(map[key := spent]);
    acts, m := BothBegin(s, r0, r1);
    acts, m := ReadAfter401(s, acts, m, 0, key);
    acts, m := ReadAfter401(s, acts, m, 1, key);
  }

  /** The first request renews and saves, then the second one's refresh fails and it deletes. */
  lemma SecondDeletes(s: State, before: seq<Action>, was: State, key: Key, spent: TokenPair, renewed: TokenPair)
    returns (acts: seq<Action>, m: State)
    requires Run(s, before, true) == Some(was) && BothHold(was, key, spent)
    ensures Run(s, acts, true) == Some(m) && LostRenewal(m, key, spent, renewed)
  {
    var a0, a1, a2, a3 := Refresh(0, key, Some(renewed)), Save(0, key, true), Refresh(1, key, None),
        Delete(1, key, true);
    m := Extend(s, before, was, a0, true);
    m := Extend(s, before + [a0], m, a1, true);
    ghost var saved := m.log;
    assert saved[|saved| - 1] == Of(0, Wrote(key, renewed, true));
    m := Extend(s, before + [a0] + [a1], m, a2, true);
    m := Extend(s, before + [a0] + [a1] + [a2], m, a3, true);
    assert m.log[|saved| - 1] == Of(0, Wrote(key, renewed, true));
    acts := before + [a0] + [a1] + [a2] + [a3];
  }

  /** A renewed pair was saved, yet no pair is left: a request that had read the spent one deleted it. */
  ghost predicate LostRenewal(m: State, key: Key, spent: TokenPair, renewed: TokenPair) {
    && Of(0, Wrote(key, renewed, true)) in m.log
    && 1 in m.phases && m.phases[1].Done? && m.phases[1].outcome.RefreshDenied?
    && m.phases[1].outcome.held == spent
    && key !in m.store
  }

  /** Without that proviso the promise that a failed refresh deletes the stale pair is false: of any two requests
      for one key that both get a 401, the one whose refresh fails can delete the pair that the other has
      just refreshed and saved. */
  lemma OverlapLosesRenewedPair(key: Key, spent: TokenPair, renewed: TokenPair, r0: Request, r1: Request)
    requires r0.obo == Some(key) && r1.obo == Some(key)
    ensures exists acts, m ::
            Run(Initial(map[key := spent]), acts, true) == Some(m) && LostRenewal(m, key, spent, renewed)
  {
    var s := Initial(map[key := spent]);
    var acts, m := BothCanHold(key, spent, r0, r1);
    acts, m := SecondDeletes(s, acts, m, key, spent, renewed);
  }

  // ---------------------------------------------------------------------
  // When a failed refresh deletes only the stale pair
  // ---------------------------------------------------------------------

  /** Request `id` holds the pair that is stored under its key, and is about to ask for a refresh. */
  ghost predicate HoldsCurrent(s: State, id: nat, key: Key, held: TokenPair) {
    && At(s, id) && s.requests[id].obo == Some(key)
    && s.phases[id].Holding? && s.phases[id].held == held
    && Find(s.store, key) == Some(held)
  }

  /** No request arrives and nobody else writes the store. */
  ghost predicate Closed(acts: seq<Action>) {
    forall a | a in acts :: !a.Begin? && !a.ForeignSave?
  }

  /** Whenever `id` is about to delete, what it deletes is the pair that it read, if there is one at all. */
  ghost predicate DeletesOnlyStale(s: State, id: nat, key: Key, held: TokenPair) {
    forall acts | Closed(acts) && Run(s, acts, true).Some? :: SparesNewer(Run(s, acts, true).value, id, key, held)
  }

  ghost predicate SparesNewer(m: State, id: nat, key: Key, held: TokenPair) {
    id in m.phases && m.phases[id].ToDelete? ==> Stale(m, key, held)
  }

  predicate Stale(m: State, key: Key, held: TokenPair) {
    Find(m.store, key) == None || Find(m.store, key) == Some(held)
  }

  /** From this phase a request may still store a pair other than `held`. */
  predicate MayRenew(phase: Phase, held: TokenPair) {
    phase.Ready? || phase.Got401? || phase.Holding? || (phase.ToSave? && phase.pair != held)
  }

  ghost predicate Rival(s: State, id: nat, j: nat, key: Key, held: TokenPair) {
    j != id && At(s, j) && s.requests[j].obo == Some(key) && MayRenew(s.phases[j], held)
  }

  ghost predicate NoRival(s: State, id: nat, key: Key, held: TokenPair) {
    forall j :: !Rival(s, id, j, key, held)
  }

  /** As long as `id` may still delete, no rival has appeared and what is stored is stale; after that it never will. */
  ghost predicate Safe(m: State, id: nat, key: Key, held: TokenPair) {
    && At(m, id) && m.requests[id].obo == Some(key)
    && !m.phases[id].Ready? && !m.phases[id].Got401?
    && NoRival(m, id, key, held)
    && (m.phases[id].Holding? || m.phases[id].ToDelete? ==> Stale(m, key, held))
  }

  lemma OwnStepIsSafe(m: State, a: Action, id: nat, key: Key, held: TokenPair)
    requires Safe(m, id, key, held) && Enabled(m, a) && !a.Begin? && !a.ForeignSave? && a.id == id
    ensures Safe(Next(m, a, true), id, key, held)
  {
    var out := Next(m, a, true);
    forall j ensures !Rival(out, id, j, key, held) {
      assert !Rival(m, id, j, key, held);
    }
  }

  lemma OtherStepIsSafe(m: State, a: Action, id: nat, key: Key, held: TokenPair)
    requires Safe(m, id, key, held) && Enabled(m, a) && !a.Begin? && !a.ForeignSave? && a.id != id
    ensures Safe(Next(m, a, true), id, key, held)
  {
    var out := Next(m, a, true);
    assert !Rival(m, id, a.id, key, held);
    forall j ensures !Rival(out, id, j, key, held) {
      assert !Rival(m, id, j, key, held);
    }
  }

  lemma {:induction false} RunIsSafe(s: State, acts: seq<Action>, id: nat, key: Key, held: TokenPair)
    requires Safe(s, id, key, held) && Closed(acts) && Run(s, acts, true).Some?
    ensures Safe(Run(s, acts, true).value, id, key, held)
  {
    if acts == [] {
    } else {
      var before, a := acts[..|acts| - 1], acts[|acts| - 1];
      assert a in acts;
      RunIsSafe(s, before, id, key, held);
      if a.id == id {
        OwnStepIsSafe(Run(s, before, true).value, a, id, key, held);
      } else {
        OtherStepIsSafe(Run(s, before, true).value, a, id, key, held);
      }
    }
  }

  /** A state that `s` reaches by a closed run. */
  ghost predicate Reaches(s: State, acts: seq<Action>, m: State) {
    Closed(acts) && Run(s, acts, true) == Some(m)
  }

  lemma Step(s: State, acts: seq<Action>, m: State, a: Action) returns (longer: seq<Action>, next: State)
    requires Reaches(s, acts, m) && Enabled(m, a) && !a.Begin? && !a.ForeignSave?
    ensures next == Next(m, a, true) && Reaches(s, longer, next)
  {
    next := Extend(s, acts, m, a, true);
    longer := acts + [a];
  }

  /** A rival can get as far as being about to save another pair, everything else as it was. */
  lemma RivalCanRenew(s: State, id: nat, j: nat, key: Key, held: TokenPair) returns (acts: seq<Action>, m: State)
    requires HoldsCurrent(s, id, key, held) && Rival(s, id, j, key, held)
    ensures Reaches(s, acts, m) && At(m, j) && m.requests == s.requests && m.store == s.store
    ensures m.phases[j].ToSave? && m.phases[j].pair != held
    ensures id in m.phases && m.phases[id] == s.phases[id]
  {
    acts, m := [], s;
    if m.phases[j].Ready? {
      acts, m := Step(s, acts, m, Send(j, Response(UNAUTHORIZED, "")));
    }
    if m.phases[j].Got401? {
      acts, m := Step(s, acts, m, Load(j, key, false));
    }
    if m.phases[j].Holding? {
      var renewed := TokenPair(held.accessToken + "+", held.refreshToken);
      assert renewed.accessToken != held.accessToken;
      acts, m := Step(s, acts, m, Refresh(j, key, Some(renewed)));
    }
  }

  lemma RivalIsDeleted(s: State, id: nat, j: nat, key: Key, held: TokenPair)
    requires HoldsCurrent(s, id, key, held) && Rival(s, id, j, key, held)
    ensures !DeletesOnlyStale(s, id, key, held)
  {
    var acts, m := RivalCanRenew(s, id, j, key, held);
    var renewed := m.phases[j].pair;
    acts, m := Step(s, acts, m, Save(j, key, true));
    acts, m := Step(s, acts, m, Refresh(id, key, None));
    assert Find(m.store, key) == Some(renewed) && m.phases[id].ToDelete?;
    assert !SparesNewer(m, id, key, held);
  }

  /** The exact condition for the promise. A request that holds the current pair can, should its refresh fail,
      delete only that pair, in every run of the requests now present, exactly when no other request on its key may
      still renew: none that is yet to be answered, to read or to ask, and none about to save another pair. */
  lemma DeletesOnlyStaleIff(s: State, id: nat, key: Key, held: TokenPair)
    requires HoldsCurrent(s, id, key, held)
    ensures DeletesOnlyStale(s, id, key, held) <==> NoRival(s, id, key, held)
  {
    if NoRival(s, id, key, held) {
      forall acts | Closed(acts) && Run(s, acts, true).Some?
        ensures SparesNewer(Run(s, acts, true).value, id, key, held)
      {
        RunIsSafe(s, acts, id, key, held);
      }
    } else {
      var j :| Rival(s, id, j, key, held);
      RivalIsDeleted(s, id, j, key, held);
    }
  }

  // ---------------------------------------------------------------------
  // The round trip as code
  // ---------------------------------------------------------------------

  /** The outside as a round trip meets it, by the number of things that happened before: backend, provider, and whether
      calls of the store fail. */
  datatype World = World(backend: (nat, Request) -> Reply, provider: (nat, Key, string) -> Option<TokenPair>,
                         loadFails: nat -> bool, saveWorks: nat -> bool, deleteWorks: nat -> bool)

  class RefreshTransport {
    const hasRefresher: bool
    const world: World
    var store: map<Key, TokenPair>
    var log: seq<Event>

    constructor (hasRefresher: bool, world: World, store: map<Key, TokenPair>)
      ensures this.hasRefresher == hasRefresher && this.world == world && this.store == store && log == []
    {
      this.hasRefresher, this.world, this.store, this.log := hasRefresher, world, store, [];
    }

    method DoSend(req: Request) returns (reply: Reply)
      modifies this`log
      ensures reply == world.backend(|old(log)|, req) && log == old(log) + [Sent(req, reply)]
    {
      reply := world.backend(|log|, req);
      log := log + [Sent(req, reply)];
    }

    method DoGet(key: Key) returns (found: Option<TokenPair>)
      modifies this`log
      ensures found == if world.loadFails(|old(log)|) then None else Find(store, key)
      ensures log == old(log) + [Read(key, found)]
    {
      found := if world.loadFails(|log|) then None else Find(store, key);
      log := log + [Read(key, found)];
    }

    method DoRefresh(key: Key, refreshToken: string) returns (answer: Option<TokenPair>)
      modifies this`log
      ensures answer == world.provider(|old(log)|, key, refreshToken)
      ensures log == old(log) + [Asked(key, refreshToken, answer)]
    {
      answer := world.provider(|log|, key, refreshToken);
      log := log + [Asked(key, refreshToken, answer)];
    }

    method DoSave(key: Key, pair: TokenPair) returns (ok: bool)
      modifies this
      ensures ok == world.saveWorks(|old(log)|) && store == if ok then old(store)[key := pair] else old(store)
      ensures log == old(log) + [Wrote(key, pair, ok)]
    {
      ok := world.saveWorks(|log|);
      if ok {
        store := store[key := pair];
      }
      log := log + [Wrote(key, pair, ok)];
    }

    method DoDelete(key: Key) returns (ok: bool)
      modifies this
      ensures ok == world.deleteWorks(|old(log)|) && store == if ok then old(store) - {key} else old(store)
      ensures log == old(log) + [Removed(key, ok)]
    {
      ok := world.deleteWorks(|log|);
      if ok {
        store := store - {key};
      }
      log := log + [Removed(key, ok)];
    }

    /** One `RoundTrip` with nothing interleaved: a complete story, after which the store is as its outcome says. */
    method RoundTrip(req: Request) returns (outcome: Outcome, ghost h: seq<Event>)
      modifies this
      ensures log == old(log) + h
      ensures Ends(req, outcome, if req.obo.Some? then Find(old(store), req.obo.value) else None, hasRefresher)
      ensures h == History(req, Done(outcome))
      ensures Story(req, h, hasRefresher) && IsOver(req, h, hasRefresher, outcome)
      ensures StoreAfter(old(store), req, outcome, store)
    {
      var first := DoSend(req);
      h := [Sent(req, first)];
      if !WillRefresh(req, first, hasRefresher) {
        Tells(req, Passed(first), hasRefresher);
        return Passed(first), h;
      }
      var key := req.obo.value;
      var held := DoGet(key);
      h := h + [Read(key, held)];
      if held.None? {
        Tells(req, NoPair(first), hasRefresher);
        return NoPair(first), h;
      }
      ghost var rest;
      outcome, rest := RefreshAndRetry(req, key, first, held.value);
      h := h + rest;
      Tells(req, outcome, hasRefresher);
    }

    /** From the pair that was read to the end. */
    method RefreshAndRetry(req: Request, key: Key, first: Reply, held: TokenPair)
      returns (outcome: Outcome, ghost h: seq<Event>)
      requires req.obo == Some(key)
      modifies this
      ensures log == old(log) + h && [Sent(req, first), Read(key, Some(held))] + h == History(req, Done(outcome))
      ensures outcome.first == first && Held(Done(outcome)) == Some(held)
      ensures StoreAfter(old(store), req, outcome, store)
    {
      var answer := DoRefresh(key, held.refreshToken);
      h := [Asked(key, held.refreshToken, answer)];
      if answer.None? {
        var ok := DoDelete(key);
        return RefreshDenied(first, held, ok), h + [Removed(key, ok)];
      }
      var ok := DoSave(key, answer.value);
      var again := Retry(req, answer.value);
      var second := DoSend(again);
      return Retried(first, held, answer.value, ok, second), h + [Wrote(key, answer.value, ok), Sent(again, second)];
    }
  }

  /** An outcome that a request can have whose key holds `before`. */
  ghost predicate Ends(req: Request, outcome: Outcome, before: Option<TokenPair>, hasRefresher: bool) {
    && (outcome.Passed? <==> !WillRefresh(req, outcome.first, hasRefresher))
    && (Held(Done(outcome)).Some? ==> Held(Done(outcome)) == before)
  }

  /** What a finished request has made of the store: its own key as the outcome says, all others as they were. */
  ghost predicate StoreAfter(was: map<Key, TokenPair>, req: Request, outcome: Outcome, store: map<Key, TokenPair>) {
    && (req.obo.Some? ==> Find(store, req.obo.value) == Effect(Find(was, req.obo.value), Done(outcome)))
    && forall key | req.obo != Some(key) :: Find(store, key) == Find(was, key)
  }

  lemma Tells(req: Request, outcome: Outcome, hasRefresher: bool)
    requires outcome.Passed? <==> !WillRefresh(req, outcome.first, hasRefresher)
    ensures Story(req, History(req, Done(outcome)), hasRefresher)
    ensures IsOver(req, History(req, Done(outcome)), hasRefresher, outcome)
  {
    HistoryIsAStory(req, Done(outcome), hasRefresher);
    HistoryIsOver(req, outcome, hasRefresher);
  }

  /** Every such round trip is a run of the protocol, with nobody else in it. */
  lemma RoundTripIsARun(was: map<Key, TokenPair>, req: Request, outcome: Outcome, hasRefresher: bool)
    returns (acts: seq<Action>, m: State)
    requires req.obo.Some? ==> Ends(req, outcome, Find(was, req.obo.value), hasRefresher)
    requires req.obo.None? ==> outcome.Passed?
    ensures Run(Initial(was), acts, hasRefresher) == Some(m)
    ensures m.phases == map[0 := Done(outcome)] && StoreAfter(was, req, outcome, m.store)
  {
    var s := Initial(was);
    m := Extend(s, [], s, Begin(0, req), hasRefresher);
    acts := [] + [Begin(0, req)];
    m := Extend(s, acts, m, Send(0, outcome.first), hasRefresher);
    acts := acts + [Send(0, outcome.first)];
    if !outcome.Passed? {
      acts, m := RefreshingRun(was, req, req.obo.value, outcome, hasRefresher, acts, m);
    }
  }

  lemma RefreshingRun(was: map<Key, TokenPair>, req: Request, key: Key, outcome: Outcome, hasRefresher: bool,
                      before: seq<Action>, at: State) returns (acts: seq<Action>, m: State)
    requires req.obo == Some(key) && !outcome.Passed?
    requires Held(Done(outcome)).Some? ==> Held(Done(outcome)) == Find(was, key)
    requires Run(Initial(was), before, hasRefresher) == Some(at)
    requires at.store == was && at.requests == map[0 := req] && at.phases == map[0 := Got401(outcome.first)]
    ensures Run(Initial(was), acts, hasRefresher) == Some(m)
    ensures m.phases == map[0 := Done(outcome)] && StoreAfter(was, req, outcome, m.store)
  {
    var load := Load(0, key, outcome.NoPair?);
    m := Extend(Initial(was), before, at, load, hasRefresher);
    acts := before + [load];
    if outcome.RefreshDenied? {
      acts, m := DeniedRun(was, req, key, outcome, hasRefresher, acts, m);
    } else if outcome.Retried? {
      acts, m := RetriedRun(was, req, key, outcome, hasRefresher, acts, m);
    }
  }

  lemma DeniedRun(was: map<Key, TokenPair>, req: Request, key: Key, outcome: Outcome, hasRefresher: bool,
                  before: seq<Action>, at: State) returns (acts: seq<Action>, m: State)
    requires req.obo == Some(key) && outcome.RefreshDenied? && Run(Initial(was), before, hasRefresher) == Some(at)
    requires at.store == was && at.requests == map[0 := req]
    requires at.phases == map[0 := Holding(outcome.first, outcome.held)]
    ensures Run(Initial(was), acts, hasRefresher) == Some(m)
    ensures m.phases == map[0 := Done(outcome)] && StoreAfter(was, req, outcome, m.store)
  {
    var ask, end := Refresh(0, key, None), Delete(0, key, outcome.deleted);
    m := Extend(Initial(was), before, at, ask, hasRefresher);
    m := Extend(Initial(was), before + [ask], m, end, hasRefresher);
    acts := before + [ask] + [end];
  }

  lemma RetriedRun(was: map<Key, TokenPair>, req: Request, key: Key, outcome: Outcome, hasRefresher: bool,
                   before: seq<Action>, at: State) returns (acts: seq<Action>, m: State)
    requires req.obo == Some(key) && outcome.Retried? && Run(Initial(was), before, hasRefresher) == Some(at)
    requires at.store == was && at.requests == map[0 := req]
    requires at.phases == map[0 := Holding(outcome.first, outcome.held)]
    ensures Run(Initial(was), acts, hasRefresher) == Some(m)
    ensures m.phases == map[0 := Done(outcome)] && StoreAfter(was, req, outcome, m.store)
  {
    var ask, save, end := Refresh(0, key, Some(outcome.pair)), Save(0, key, outcome.saved), Resend(0, outcome.second);
    m := Extend(Initial(was), before, at, ask, hasRefresher);
    m := Extend(Initial(was), before + [ask], m, save, hasRefresher);
    m := Extend(Initial(was), before + [ask] + [save], m, end, hasRefresher);
    acts := before + [ask] + [save] + [end];
  }
}
