/** The pipeline and its transport together: whose tokens backends see, in runs of many interleaved calls over one
    store. */
module UserTokens {
  import opened Text
  import opened Domain
  import opened RefreshTransport
  import OboPipeline
  import Outside

  /** The request that the pipeline builds for a contact, with the store's key attached for the transport. */
  function RequestOf(sent: Outside.Outbound, caller: Identity, route: RouteEntry, body: string): Request {
    Request(map["Content-Type" := "application/json", "Authorization" := "Bearer " + sent.credential,
                "X-Abaris-Assertion" := sent.assertion],
            Some(body), Some(Key(caller.userID, route.oboProvider)))
  }

  predicate Carries(req: Request, pair: TokenPair) {
    "Authorization" in req.headers && req.headers["Authorization"] == "Bearer " + pair.accessToken
  }

  /** A justified contact's request carries the pair that the pipeline's own read of that key returned. */
  lemma PipelineCarriesWhatItRead(seg: seq<Outside.Event>, call: ToolCall, route: RouteEntry, body: string)
    requires OboPipeline.ContactJustified(seg, call, route)
    ensures var n := |seg|;
            && n >= 5 && seg[n - 1].Contact? && seg[n - 3].TokenGet? && seg[n - 3].found.Ok?
            && var req := RequestOf(seg[n - 1].sent, seg[n - 5].who.value, route, body);
               && req.obo == Some(Key(seg[n - 3].user, seg[n - 3].provider)) && Carries(req, seg[n - 3].found.value)
               && req.body == Some(body)
               && "Content-Type" in req.headers && req.headers["Content-Type"] == "application/json"
               && "X-Abaris-Assertion" in req.headers
               && seg[n - 2].token == Some(req.headers["X-Abaris-Assertion"])
               && forall h | h in req.headers :: h in {"Content-Type", "Authorization", "X-Abaris-Assertion"}
  {
  }

  // ---------------------------------------------------------------------
  // Runs in which every request comes from the pipeline
  // ---------------------------------------------------------------------

  /** At some moment of the run the pair was stored under the key. */
  ghost predicate StoredAt(store: map<Key, TokenPair>, acts: seq<Action>, hasRefresher: bool, key: Key,
                           pair: TokenPair) {
    exists k | 0 <= k <= |acts| :: HoldsAfter(store, acts[..k], hasRefresher, key, pair)
  }

  ghost predicate HoldsAfter(store: map<Key, TokenPair>, acts: seq<Action>, hasRefresher: bool, key: Key,
                             pair: TokenPair) {
    var m := Run(Initial(store), acts, hasRefresher);
    m.Some? && Find(m.value.store, key) == Some(pair)
  }

  /** The request carries, for its own key, a pair that was read from the store earlier in the run. */
  ghost predicate Fetched(store: map<Key, TokenPair>, acts: seq<Action>, hasRefresher: bool, req: Request) {
    req.obo.Some? && exists pair :: Carries(req, pair) && StoredAt(store, acts, hasRefresher, req.obo.value, pair)
  }

  ghost predicate ByPipeline(store: map<Key, TokenPair>, acts: seq<Action>, hasRefresher: bool) {
    forall i | 0 <= i < |acts| && acts[i].Begin? :: Fetched(store, acts[..i], hasRefresher, acts[i].request)
  }

  lemma StoredLater(store: map<Key, TokenPair>, acts: seq<Action>, i: nat, hasRefresher: bool, key: Key,
                    pair: TokenPair)
    requires i <= |acts| && StoredAt(store, acts[..i], hasRefresher, key, pair)
    ensures StoredAt(store, acts, hasRefresher, key, pair)
  {
    var k :| 0 <= k <= i && HoldsAfter(store, acts[..i][..k], hasRefresher, key, pair);
    assert acts[..i][..k] == acts[..k];
  }

  /** Every request of a run began in it, as it is. */
  lemma {:induction false} RequestBegan(store: map<Key, TokenPair>, acts: seq<Action>, hasRefresher: bool, id: nat)
    returns (i: nat)
    requires Run(Initial(store), acts, hasRefresher).Some?
    requires id in Run(Initial(store), acts, hasRefresher).value.requests
    ensures i < |acts| && acts[i] == Begin(id, Run(Initial(store), acts, hasRefresher).value.requests[id])
    decreases |acts|
  {
    if acts == [] {
      assert false;
    } else {
      var before, a := acts[..|acts| - 1], acts[|acts| - 1];
      if a.Begin? && a.id == id {
        i := |acts| - 1;
      } else {
        i := RequestBegan(store, before, hasRefresher, id);
      }
    }
  }

  lemma {:induction false} LoggedIsOwn(log: seq<Entry>, id: nat, e: Event)
    requires Of(id, e) in log
    ensures e in Own(log, id)
  {
    if log[|log| - 1] == Of(id, e) {
    } else {
      assert log == log[..|log| - 1] + [log[|log| - 1]];
      LoggedIsOwn(log[..|log| - 1], id, e);
    }
  }

  /** The pair carried was stored under the request's key at some moment, or is what this request's own refresh
      returned. */
  ghost predicate OwnToken(store: map<Key, TokenPair>, acts: seq<Action>, hasRefresher: bool, log: seq<Entry>, id: nat,
                           req: Request) {
    req.obo.Some? && exists pair ::
      && Carries(req, pair)
      && (|| StoredAt(store, acts, hasRefresher, req.obo.value, pair)
          || exists token :: Of(id, Asked(req.obo.value, token, Some(pair))) in log)
  }

  lemma FirstSendIsFetched(store: map<Key, TokenPair>, acts: seq<Action>, hasRefresher: bool, id: nat)
    requires Run(Initial(store), acts, hasRefresher).Some? && ByPipeline(store, acts, hasRefresher)
    requires id in Run(Initial(store), acts, hasRefresher).value.requests
    ensures Fetched(store, acts, hasRefresher, Run(Initial(store), acts, hasRefresher).value.requests[id])
  {
    var req := Run(Initial(store), acts, hasRefresher).value.requests[id];
    var i := RequestBegan(store, acts, hasRefresher, id);
    var pair :| Carries(req, pair) && StoredAt(store, acts[..i], hasRefresher, req.obo.value, pair);
    StoredLater(store, acts, i, hasRefresher, req.obo.value, pair);
  }

  /** What one request's history says of a send in it. */
  lemma SendOfHistory(req: Request, h: seq<Event>, e: Event)
    requires Bounded(req, h) && e in h && e.Sent?
    ensures || e.request == req
            || exists k | 0 <= k < |h| ::
                 h[k].Asked? && h[k].answer.Some? && req.obo == Some(h[k].key)
                     && e.request == Retry(req, h[k].answer.value)
  {
    var i :| 0 <= i < |h| && h[i] == e;
    if e.request != req {
      assert IsRetry(req, h, i);
      var k :| 0 < k < i && h[k].Asked? && h[k].answer.Some? && h[i].request == Retry(req, h[k].answer.value);
      assert h[k] in h && Touched(h[k]) == Some(h[k].key);
    }
  }

  lemma RetryCarries(req: Request, pair: TokenPair)
    ensures Carries(Retry(req, pair), pair) && Retry(req, pair).obo == req.obo
  {
  }

  /** In every run, every token that a backend sees was stored, under the very user and provider of that request, at
      some moment of the run, or is what that request's own refresh returned. */
  lemma SentTokensAreOwn(store: map<Key, TokenPair>, acts: seq<Action>, hasRefresher: bool, id: nat, req: Request,
                         reply: Reply)
    requires Run(Initial(store), acts, hasRefresher).Some? && ByPipeline(store, acts, hasRefresher)
    requires Of(id, Sent(req, reply)) in Run(Initial(store), acts, hasRefresher).value.log
    ensures OwnToken(store, acts, hasRefresher, Run(Initial(store), acts, hasRefresher).value.log, id, req)
  {
    var m := Run(Initial(store), acts, hasRefresher).value;
    var h, e := Own(m.log, id), Sent(req, reply);
    LoggedIsOwn(m.log, id, e);
    RunKeepsRequests(store, acts, hasRefresher, id);
    EveryRequestIsBounded(store, acts, hasRefresher, id);
    FirstSendIsFetched(store, acts, hasRefresher, id);
    var req0 := m.requests[id];
    SendOfHistory(req0, h, e);
    if req != req0 {
      var k :| 0 <= k < |h| && h[k].Asked? && h[k].answer.Some? && req0.obo == Some(h[k].key)
            && req == Retry(req0, h[k].answer.value);
      RetryIsOwn(store, acts, hasRefresher, m.log, id, req0, h[k]);
    }
  }

  lemma RetryIsOwn(store: map<Key, TokenPair>, acts: seq<Action>, hasRefresher: bool, log: seq<Entry>, id: nat,
                   req: Request, asked: Event)
    requires asked in Own(log, id) && asked.Asked? && asked.answer.Some? && req.obo == Some(asked.key)
    ensures OwnToken(store, acts, hasRefresher, log, id, Retry(req, asked.answer.value))
  {
    OwnIsLogged(log, id, asked);
    RetryCarries(req, asked.answer.value);
    assert asked == Asked(asked.key, asked.refreshToken, Some(asked.answer.value));
  }

  // ---------------------------------------------------------------------
  // Where those tokens come from
  // ---------------------------------------------------------------------

  /** The pair was there at the start, was saved for the key by another writer, or was the provider's answer to some
      refresh for the key. */
  ghost predicate BelongsTo(store: map<Key, TokenPair>, log: seq<Entry>, key: Key, pair: TokenPair) {
    || (key in store && store[key] == pair)
    || Foreign(key, pair) in log
    || exists id, token :: Of(id, Asked(key, token, Some(pair))) in log
  }

  lemma StepLogs(s: State, a: Action, hasRefresher: bool)
    requires Enabled(s, a)
    ensures s.log <= Next(s, a, hasRefresher).log
  {
  }

  lemma Grown(a: seq<Entry>, b: seq<Entry>, c: seq<Entry>)
    requires a <= b <= c
    ensures a <= c
  {
  }

  lemma {:induction false} LogGrows(s: State, acts: seq<Action>, k: nat, hasRefresher: bool)
    requires k <= |acts| && Run(s, acts, hasRefresher).Some?
    ensures Run(s, acts[..k], hasRefresher).Some?
    ensures Run(s, acts[..k], hasRefresher).value.log <= Run(s, acts, hasRefresher).value.log
    decreases |acts|
  {
    if k == |acts| {
      assert acts[..k] == acts;
    } else {
      var before := acts[..|acts| - 1];
      assert before[..k] == acts[..k];
      var m := Run(s, before, hasRefresher).value;
      StepLogs(m, acts[|acts| - 1], hasRefresher);
      LogGrows(s, before, k, hasRefresher);
      Grown(Run(s, acts[..k], hasRefresher).value.log, m.log, Run(s, acts, hasRefresher).value.log);
    }
  }

  lemma StoredBelongs(store: map<Key, TokenPair>, acts: seq<Action>, hasRefresher: bool, key: Key, pair: TokenPair)
    requires Run(Initial(store), acts, hasRefresher).Some? && StoredAt(store, acts, hasRefresher, key, pair)
    ensures BelongsTo(store, Run(Initial(store), acts, hasRefresher).value.log, key, pair)
  {
    var k :| 0 <= k <= |acts| && HoldsAfter(store, acts[..k], hasRefresher, key, pair);
    EveryStoredPairIsAccounted(store, acts[..k], hasRefresher);
    LogGrows(Initial(store), acts, k, hasRefresher);
    var early, log := Run(Initial(store), acts[..k], hasRefresher).value.log,
        Run(Initial(store), acts, hasRefresher).value.log;
    assert Accounted(store, early, key, pair);
    assert forall e | e in early :: e in log;
  }

  /** So no backend ever sees a token of another user or provider: whatever a request carries belongs to its own key. */
  lemma SentTokensBelong(store: map<Key, TokenPair>, acts: seq<Action>, hasRefresher: bool, id: nat, req: Request,
                         reply: Reply)
    requires Run(Initial(store), acts, hasRefresher).Some? && ByPipeline(store, acts, hasRefresher)
    requires Of(id, Sent(req, reply)) in Run(Initial(store), acts, hasRefresher).value.log
    ensures req.obo.Some?
    ensures exists pair :: Carries(req, pair)
                        && BelongsTo(store, Run(Initial(store), acts, hasRefresher).value.log, req.obo.value, pair)
  {
    var log := Run(Initial(store), acts, hasRefresher).value.log;
    SentTokensAreOwn(store, acts, hasRefresher, id, req, reply);
    var pair :| Carries(req, pair)
             && (|| StoredAt(store, acts, hasRefresher, req.obo.value, pair)
                 || exists token :: Of(id, Asked(req.obo.value, token, Some(pair))) in log);
    if StoredAt(store, acts, hasRefresher, req.obo.value, pair) {
      StoredBelongs(store, acts, hasRefresher, req.obo.value, pair);
    }
  }
}
