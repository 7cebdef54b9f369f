/** Onboarding to a secondary provider: signed state tokens, and the callback that stores a pair. */
module Connect {
  import opened Text
  import opened Domain
  import opened Base64Url

  /** Times are nanoseconds. */
  datatype StatePayload = StatePayload(userID: string, provider: string, expiresAt: int)

  /** JSON of the payload and the keyed hash, as functions. */
  datatype Codec = Codec(marshal: StatePayload -> seq<Byte>, unmarshal: seq<Byte> -> Option<StatePayload>,
                         mac: (string, string) -> seq<Byte>)

  ghost predicate Sound(c: Codec) {
    forall p :: c.unmarshal(c.marshal(p)) == Some(p)
  }

  function Signature(c: Codec, key: string, encoded: string): string {
    Encode(c.mac(key, encoded))
  }

  function MintState(c: Codec, key: string, userID: string, provider: string, now: int, ttl: int): string {
    var encoded := Encode(c.marshal(StatePayload(userID, provider, now + ttl)));
    encoded + "." + Signature(c, key, encoded)
  }

  function VerifyState(c: Codec, key: string, state: string, now: int): Option<StatePayload> {
    var i := IndexOf(state, '.');
    if i == |state| then None
    else
      var encoded, sig := state[..i], state[i + 1..];
      if sig != Signature(c, key, encoded) then None
      else
        match Decode(encoded)
        case None => None
        case Some(bytes) =>
          match c.unmarshal(bytes)
          case None => None
          case Some(payload) => if now > payload.expiresAt then None else Some(payload)
  }

  /** `state` is a payload part signed under `key`. */
  ghost predicate SignedPayload(c: Codec, key: string, state: string, encoded: string, payload: StatePayload) {
    && '.' !in encoded && state == encoded + "." + Encode(c.mac(key, encoded))
    && Decode(encoded).Some? && c.unmarshal(Decode(encoded).value) == Some(payload)
  }

  /** A state token verifies exactly when it is a signed payload that has not expired. */
  lemma VerifiesIffSigned(c: Codec, key: string, state: string, now: int, payload: StatePayload)
    ensures VerifyState(c, key, state, now) == Some(payload) <==>
            now <= payload.expiresAt && exists encoded :: SignedPayload(c, key, state, encoded, payload)
  {
    var i := IndexOf(state, '.');
    if VerifyState(c, key, state, now) == Some(payload) {
      assert state == state[..i] + "." + state[i + 1..];
      assert SignedPayload(c, key, state, state[..i], payload);
    }
    if encoded :| SignedPayload(c, key, state, encoded, payload) {
      assert state[..|encoded|] == encoded;
      IndexOfIs(state, '.', |encoded|);
      assert state[i + 1..] == Signature(c, key, encoded);
    }
  }

  /** A minted state gives back its user and provider exactly until its time to live is over. */
  lemma MintedVerifies(c: Codec, key: string, userID: string, provider: string, minted: int, ttl: int, now: int)
    requires Sound(c)
    ensures VerifyState(c, key, MintState(c, key, userID, provider, minted, ttl), now) ==
            if now <= minted + ttl then Some(StatePayload(userID, provider, minted + ttl)) else None
  {
    var payload := StatePayload(userID, provider, minted + ttl);
    var encoded := Encode(c.marshal(payload));
    var state := MintState(c, key, userID, provider, minted, ttl);
    RoundTrip(c.marshal(payload));
    assert state[..|encoded|] == encoded;
    IndexOfIs(state, '.', |encoded|);
    assert state[|encoded| + 1..] == Signature(c, key, encoded);
  }

  /** Ten minutes. */
  const DEFAULT_TTL := 10 * 60 * 1_000_000_000

  class ConnectHandler {
    const codec: Codec
    const stateKey: string
    const stateTTL: int
    const providers: set<string>
    var store: map<(string, string), TokenPair>

    constructor (codec: Codec, stateKey: string, stateTTL: int, names: seq<string>)
      ensures this.codec == codec && this.stateKey == stateKey && store == map[]
      ensures this.stateTTL == if stateTTL == 0 then 10 * 60 * 1_000_000_000 else stateTTL
      ensures providers == Elems(names)
    {
      var m: set<string> := {};
      for i := 0 to |names|
        invariant m == Elems(names[..i])
      {
        m := m + {names[i]};
        assert names[..i + 1] == names[..i] + [names[i]];
      }
      assert names[..|names|] == names;
      this.codec, this.stateKey, this.providers, this.store := codec, stateKey, m, map[];
      this.stateTTL := if stateTTL == 0 then DEFAULT_TTL else stateTTL;
    }

    /** The redirect's status and the state that it carries. */
    method ServeConnect(provider: string, caller: Option<Identity>, now: int) returns (status: int, state: string)
      ensures status == 302 <==> provider in providers && caller.Some?
      ensures status == 302 ==> state == MintState(codec, stateKey, caller.value.userID, provider, now, stateTTL)
      ensures status != 302 ==> status == (if provider !in providers then 404 else 401)
    {
      if provider !in providers {
        return 404, "";
      }
      if caller.None? {
        return 401, "";
      }
      return 302, MintState(codec, stateKey, caller.value.userID, provider, now, stateTTL);
    }

    /** `exchange` is the provider's answer to the code, `saveWorks` whether the store accepts the pair. */
    method ServeCallback(provider: string, state: string, exchange: Option<TokenPair>, saveWorks: bool, now: int)
      returns (status: int)
      modifies this
      ensures status == CallbackStatus(codec, stateKey, providers, provider, state, exchange, saveWorks, now)
      ensures status == 200 ==>
                store == old(store)[(VerifyState(codec, stateKey, state, now).value.userID, provider) := exchange.value]
      ensures status != 200 ==> store == old(store)
    {
      if provider !in providers {
        return 404;
      }
      var payload := VerifyState(codec, stateKey, state, now);
      if payload.None? || payload.value.provider != provider {
        return 400;
      }
      if exchange.None? {
        return 502;
      }
      if !saveWorks {
        return 500;
      }
      store := store[(payload.value.userID, provider) := exchange.value];
      return 200;
    }

    /** From consent to callback: the pair ends up under the user who asked and the provider asked for, and nothing
        else changes, when the callback comes in time; a late one changes nothing. */
    method ConnectThenCallback(provider: string, caller: Identity, exchange: TokenPair, asked: int, answered: int)
      returns (status: int)
      requires Sound(codec) && provider in providers
      modifies this
      ensures status == if answered <= asked + stateTTL then 200 else 400
      ensures store == if status == 200 then old(store)[(caller.userID, provider) := exchange] else old(store)
    {
      var redirect, state := ServeConnect(provider, Some(caller), asked);
      MintedVerifies(codec, stateKey, caller.userID, provider, asked, stateTTL, answered);
      status := ServeCallback(provider, state, Some(exchange), true, answered);
    }
  }

  function CallbackStatus(c: Codec, key: string, providers: set<string>, provider: string, state: string,
                          exchange: Option<TokenPair>, saveWorks: bool, now: int): (status: int)
    ensures status == 200 ==> VerifyState(c, key, state, now).Some? && exchange.Some?
  {
    if provider !in providers then 404
    else
      match VerifyState(c, key, state, now)
      case None => 400
      case Some(payload) =>
        if payload.provider != provider then 400
        else if exchange.None? then 502
        else if !saveWorks then 500
        else 200
  }

  /** A pair is stored only for a user whose signed, unexpired state names this very provider. */
  lemma StoresOnlyForSignedState(c: Codec, key: string, providers: set<string>, provider: string, state: string,
                                 exchange: Option<TokenPair>, saveWorks: bool, now: int)
    ensures CallbackStatus(c, key, providers, provider, state, exchange, saveWorks, now) == 200 <==>
            && provider in providers && exchange.Some? && saveWorks
            && exists user, expires, encoded ::
                 now <= expires && SignedPayload(c, key, state, encoded, StatePayload(user, provider, expires))
  {
    var v := VerifyState(c, key, state, now);
    if v.Some? && v.value.provider == provider {
      VerifiesIffSigned(c, key, state, now, v.value);
      var encoded :| SignedPayload(c, key, state, encoded, v.value);
      assert SignedPayload(c, key, state, encoded, StatePayload(v.value.userID, provider, v.value.expiresAt));
    }
    if user, expires, encoded :|
         now <= expires && SignedPayload(c, key, state, encoded, StatePayload(user, provider, expires))
    {
      VerifiesIffSigned(c, key, state, now, StatePayload(user, provider, expires));
    }
  }

  /** A signed state that has not expired and names this provider. */
  ghost predicate Invites(c: Codec, key: string, state: string, now: int, user: string, provider: string) {
    exists expires, encoded ::
        now <= expires && SignedPayload(c, key, state, encoded, StatePayload(user, provider, expires))
  }

  lemma InvitesIffVerified(c: Codec, key: string, state: string, now: int, provider: string)
    ensures (exists user :: Invites(c, key, state, now, user, provider)) <==>
            VerifyState(c, key, state, now).Some? && VerifyState(c, key, state, now).value.provider == provider
    ensures forall user | Invites(c, key, state, now, user, provider) ::
              VerifyState(c, key, state, now).Some? && VerifyState(c, key, state, now).value.userID == user
  {
    var v := VerifyState(c, key, state, now);
    if v.Some? && v.value.provider == provider {
      VerifiesIffSigned(c, key, state, now, v.value);
      var encoded :| SignedPayload(c, key, state, encoded, v.value);
      assert SignedPayload(c, key, state, encoded, StatePayload(v.value.userID, provider, v.value.expiresAt));
      assert Invites(c, key, state, now, v.value.userID, provider);
    }
    forall user | Invites(c, key, state, now, user, provider)
      ensures v.Some? && v.value.provider == provider && v.value.userID == user
    {
      var expires, encoded :| now <= expires
          && SignedPayload(c, key, state, encoded, StatePayload(user, provider, expires));
      VerifiesIffSigned(c, key, state, now, StatePayload(user, provider, expires));
    }
  }

  /** Each status of the callback, and exactly when it is given: the first check that fails decides. */
  lemma StatusIff(c: Codec, key: string, providers: set<string>, provider: string, state: string,
                  exchange: Option<TokenPair>, saveWorks: bool, now: int)
    ensures var status := CallbackStatus(c, key, providers, provider, state, exchange, saveWorks, now);
            var invited := exists user :: Invites(c, key, state, now, user, provider);
            && (status == 404 <==> provider !in providers)
            && (status == 400 <==> provider in providers && !invited)
            && (status == 502 <==> provider in providers && invited && exchange == None)
            && (status == 500 <==> provider in providers && invited && exchange != None && !saveWorks)
            && (status == 200 <==> provider in providers && invited && exchange != None && saveWorks)
  {
    InvitesIffVerified(c, key, state, now, provider);
  }
}
