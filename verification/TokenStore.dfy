/** The encrypted token store over its keyed backend, and the plain map that it refines. */
module TokenStore {
  import opened Text
  import opened Domain

  datatype Blob = Blob(encryptedKey: string, ciphertext: string, nonce: string)

  datatype DataKey = DataKey(plain: string, encrypted: string)

  /** The libraries, as functions: JSON of pairs and blobs, key decryption, and authenticated encryption. */
  datatype Crypto = Crypto(
    marshalPair: TokenPair -> string, unmarshalPair: string -> Option<TokenPair>,
    marshalBlob: Blob -> string, unmarshalBlob: string -> Option<Blob>,
    decryptKey: string -> Option<string>,
    seal: (string, string, string) -> string, open: (string, string, string) -> Option<string>)

  /** The inverse laws that are asked of the libraries. */
  ghost predicate Sound(c: Crypto) {
    && (forall p :: c.unmarshalPair(c.marshalPair(p)) == Some(p))
    && (forall b :: c.unmarshalBlob(c.marshalBlob(b)) == Some(b))
    && (forall k, n, t :: c.open(k, n, c.seal(k, n, t)) == Some(t))
  }

  /** A fault of the environment during one operation: of the key service, of a local library (JSON, cipher or nonce),
      of the database, or of its commit. */
  datatype Fault = NoFault | KeyServiceDown | LocalFailure | BackendDown | CommitFails

  /** The error class that a fault of the database gives to a writer, if it is one. */
  function WriteError(fault: Fault): Option<Failure> {
    match fault
    case BackendDown => Some(ServiceUnavailable)
    case CommitFails => Some(Unclassified)
    case _ => None
  }

  /** The error class that a fault gives to a save. */
  function SaveError(fault: Fault): Option<Failure> {
    match fault
    case KeyServiceDown => Some(ServiceUnavailable)
    case LocalFailure => Some(Unclassified)
    case _ => WriteError(fault)
  }

  datatype Op =
    | Save(user: string, provider: string, pair: TokenPair, dataKey: DataKey, nonce: string, fault: Fault)
    | Get(user: string, provider: string, fault: Fault)
    | Delete(user: string, provider: string, fault: Fault)

  datatype Answer = Found(pair: TokenPair) | Done | Failed(why: Failure)

  // ---------------------------------------------------------------------
  // The composite key
  // ---------------------------------------------------------------------

  function BadgerKey(user: string, provider: string): string {
    user + ":" + provider
  }

  predicate EndsWith(s: string, t: string) {
    |t| <= |s| && s[|s| - |t|..] == t
  }

  /** No provider name is another one after a colon. */
  ghost predicate Separable(providers: set<string>) {
    forall p, q | p in providers && q in providers :: !EndsWith(p, ":" + q)
  }

  ghost predicate KeysAreUnique(providers: set<string>) {
    forall u, p, v, q | p in providers && q in providers && BadgerKey(u, p) == BadgerKey(v, q) :: u == v && p == q
  }

  lemma KeyDecides(u: string, p: string, v: string, q: string)
    requires BadgerKey(u, p) == BadgerKey(v, q) && |p| >= |q|
    ensures (u == v && p == q) || EndsWith(p, ":" + q)
  {
    var key := BadgerKey(u, p);
    assert key[|key| - |p|..] == p;
    assert key[|key| - |q|..] == q && key[|key| - |q| - 1] == ':';
    if |p| == |q| {
      assert u == key[..|key| - |p| - 1] == v;
    } else {
      assert key[|key| - |q| - 1..] == ":" + q;
      assert p[|p| - |q| - 1..] == key[|key| - |q| - 1..];
    }
  }

  /** Composite keys tell every user and provider apart, even for user ids with colons in them, exactly
      when no provider name ends in a colon and another (or the same) provider name. */
  lemma KeysAreUniqueIffSeparable(providers: set<string>)
    ensures KeysAreUnique(providers) <==> Separable(providers)
  {
    if Separable(providers) {
      forall u, p, v, q | p in providers && q in providers && BadgerKey(u, p) == BadgerKey(v, q)
        ensures u == v && p == q
      {
        if |p| >= |q| {
          KeyDecides(u, p, v, q);
        } else {
          KeyDecides(v, q, u, p);
        }
      }
    } else {
      var p, q :| p in providers && q in providers && EndsWith(p, ":" + q);
      var head := p[..|p| - |q| - 1];
      assert p == head + (":" + q);
      assert BadgerKey("", p) == BadgerKey(":" + head, q);
      assert |p| > |q|;
    }
  }

  lemma ColonInside(p: string, q: string)
    requires EndsWith(p, ":" + q)
    ensures ':' in p
  {
    assert p[|p| - |":" + q|..][0] == ':';
  }

  lemma PlainNamesAreSeparable(providers: set<string>)
    requires forall p | p in providers :: ':' !in p
    ensures Separable(providers)
  {
    forall p, q | p in providers && q in providers ensures !EndsWith(p, ":" + q) {
      if EndsWith(p, ":" + q) {
        ColonInside(p, q);
      }
    }
  }

  // ---------------------------------------------------------------------
  // The stores
  // ---------------------------------------------------------------------

  function Envelope(c: Crypto, op: Op): string
    requires op.Save?
  {
    var ciphertext := c.seal(op.dataKey.plain, op.nonce, c.marshalPair(op.pair));
    c.marshalBlob(Blob(op.dataKey.encrypted, ciphertext, op.nonce))
  }

  /** What a stored value decrypts to. */
  function Opened(c: Crypto, stored: string, keyServiceDown: bool): Answer {
    match c.unmarshalPair(stored)
    case None => Failed(Unclassified)
    case Some(synthetic) =>
      match c.unmarshalBlob(synthetic.accessToken)
      case None => Failed(Unclassified)
      case Some(blob) =>
        match if keyServiceDown then None else c.decryptKey(blob.encryptedKey)
        case None => Failed(ServiceUnavailable)
        case Some(key) =>
          match c.open(key, blob.nonce, blob.ciphertext)
          case None => Failed(Unclassified)
          case Some(plaintext) =>
            match c.unmarshalPair(plaintext)
            case None => Failed(Unclassified)
            case Some(pair) => Found(pair)
  }

  /** One operation of the encrypted store over the backend's key-value database. */
  function Step(c: Crypto, db: map<string, string>, op: Op): (map<string, string>, Answer) {
    var key := BadgerKey(op.user, op.provider);
    match op
    case Save(_, _, _, _, _, fault) =>
      if SaveError(fault).Some? then (db, Failed(SaveError(fault).value))
      else (db[key := c.marshalPair(TokenPair(Envelope(c, op), ""))], Done)
    case Get(_, _, fault) =>
      if fault == BackendDown then (db, Failed(ServiceUnavailable))
      else if key !in db then (db, Failed(NotConnected))
      else (db, Opened(c, db[key], fault == KeyServiceDown))
    case Delete(_, _, fault) =>
      if WriteError(fault).Some? then (db, Failed(WriteError(fault).value)) else (db - {key}, Done)
  }

  /** The same operation on a plain map of pairs. */
  function PlainStep(m: map<(string, string), TokenPair>, op: Op): (map<(string, string), TokenPair>, Answer) {
    var at := (op.user, op.provider);
    match op
    case Save(_, _, pair, _, _, fault) =>
      if SaveError(fault).Some? then (m, Failed(SaveError(fault).value)) else (m[at := pair], Done)
    case Get(_, _, fault) =>
      if fault == BackendDown then (m, Failed(ServiceUnavailable))
      else if at !in m then (m, Failed(NotConnected))
      else if fault == KeyServiceDown then (m, Failed(ServiceUnavailable))
      else (m, Found(m[at]))
    case Delete(_, _, fault) =>
      if WriteError(fault).Some? then (m, Failed(WriteError(fault).value)) else (m - {at}, Done)
  }

  class BadgerTokenStore {
    const crypto: Crypto
    var db: map<string, string>

    constructor (crypto: Crypto)
      ensures this.crypto == crypto && db == map[]
    {
      this.crypto, this.db := crypto, map[];
    }

    method Get(user: string, provider: string, down: bool) returns (r: Result<TokenPair, Failure>)
      ensures var key := BadgerKey(user, provider);
              r == if down then Err(ServiceUnavailable)
                   else if key !in db then Err(NotConnected)
                   else match crypto.unmarshalPair(db[key])
                        case Some(pair) => Ok(pair)
                        case None => Err(Unclassified)
    {
      if down {
        return Err(ServiceUnavailable);
      }
      var key := BadgerKey(user, provider);
      if key !in db {
        return Err(NotConnected);
      }
      var val := crypto.unmarshalPair(db[key]);
      return if val.Some? then Ok(val.value) else Err(Unclassified);
    }

    /** A failed set or a failed commit leaves the database as it was. */
    method Save(user: string, provider: string, pair: TokenPair, fault: Fault) returns (err: Option<Failure>)
      modifies this
      ensures err == WriteError(fault)
      ensures db == if err.Some? then old(db) else old(db)[BadgerKey(user, provider) := crypto.marshalPair(pair)]
    {
      if fault == BackendDown {
        return Some(ServiceUnavailable);
      }
      if fault == CommitFails {
        return Some(Unclassified);
      }
      db := db[BadgerKey(user, provider) := crypto.marshalPair(pair)];
      return None;
    }

    method Delete(user: string, provider: string, fault: Fault) returns (err: Option<Failure>)
      modifies this
      ensures err == WriteError(fault)
      ensures db == if err.Some? then old(db) else old(db) - {BadgerKey(user, provider)}
    {
      if fault == BackendDown {
        return Some(ServiceUnavailable);
      }
      if fault == CommitFails {
        return Some(Unclassified);
      }
      db := db - {BadgerKey(user, provider)};
      return None;
    }
  }

  class EncryptedTokenStore {
    const backend: BadgerTokenStore
    const crypto: Crypto

    constructor (backend: BadgerTokenStore)
      ensures this.backend == backend && this.crypto == backend.crypto
    {
      this.backend, this.crypto := backend, backend.crypto;
    }

    method Save(user: string, provider: string, pair: TokenPair, dataKey: DataKey, nonce: string, fault: Fault)
      returns (answer: Answer)
      requires crypto == backend.crypto
      modifies backend
      ensures (backend.db, answer)
              == Step(crypto, old(backend.db), Op.Save(user, provider, pair, dataKey, nonce, fault))
    {
      if fault == KeyServiceDown {
        return Failed(ServiceUnavailable);
      }
      if fault == LocalFailure {
        return Failed(Unclassified);
      }
      var ciphertext := crypto.seal(dataKey.plain, nonce, crypto.marshalPair(pair));
      var blob := Blob(dataKey.encrypted, ciphertext, nonce);
      var synthetic := TokenPair(crypto.marshalBlob(blob), "");
      var err := backend.Save(user, provider, synthetic, fault);
      return if err.None? then Done else Failed(err.value);
    }

    method Get(user: string, provider: string, fault: Fault) returns (answer: Answer)
      requires crypto == backend.crypto
      ensures (backend.db, answer) == Step(crypto, backend.db, Op.Get(user, provider, fault))
    {
      var synthetic := backend.Get(user, provider, fault == BackendDown);
      if synthetic.Err? {
        return Failed(synthetic.error);
      }
      var blob := crypto.unmarshalBlob(synthetic.value.accessToken);
      if blob.None? {
        return Failed(Unclassified);
      }
      var key := if fault == KeyServiceDown then None else crypto.decryptKey(blob.value.encryptedKey);
      if key.None? {
        return Failed(ServiceUnavailable);
      }
      var plaintext := crypto.open(key.value, blob.value.nonce, blob.value.ciphertext);
      if plaintext.None? {
        return Failed(Unclassified);
      }
      var pair := crypto.unmarshalPair(plaintext.value);
      return if pair.Some? then Found(pair.value) else Failed(Unclassified);
    }

    method Delete(user: string, provider: string, fault: Fault) returns (answer: Answer)
      modifies backend
      ensures (backend.db, answer) == Step(crypto, old(backend.db), Op.Delete(user, provider, fault))
    {
      var err := backend.Delete(user, provider, fault);
      return if err.None? then Done else Failed(err.value);
    }
  }

  // ---------------------------------------------------------------------
  // Refinement
  // ---------------------------------------------------------------------

  /** A stored value is an envelope of `pair` under a key that the key service can decrypt. */
  ghost predicate Seals(c: Crypto, stored: string, pair: TokenPair) {
    Opened(c, stored, false) == Found(pair) && Opened(c, stored, true) == Failed(ServiceUnavailable)
  }

  /** The database holds exactly the map's pairs, for the given providers. */
  ghost predicate Represents(c: Crypto, db: map<string, string>, m: map<(string, string), TokenPair>,
                             providers: set<string>) {
    forall u, p | p in providers ::
      && (BadgerKey(u, p) in db <==> (u, p) in m)
      && ((u, p) in m && BadgerKey(u, p) in db ==> Seals(c, db[BadgerKey(u, p)], m[(u, p)]))
  }

  /** Operations name configured providers, and data keys are ones that the key service generated. */
  ghost predicate Legal(c: Crypto, op: Op, providers: set<string>) {
    op.provider in providers && (op.Save? ==> c.decryptKey(op.dataKey.encrypted) == Some(op.dataKey.plain))
  }

  lemma EnvelopeSeals(c: Crypto, op: Op)
    requires Sound(c) && op.Save? && c.decryptKey(op.dataKey.encrypted) == Some(op.dataKey.plain)
    ensures Seals(c, c.marshalPair(TokenPair(Envelope(c, op), "")), op.pair)
  {
  }

  lemma StepRefines(c: Crypto, db: map<string, string>, m: map<(string, string), TokenPair>, op: Op,
                    providers: set<string>)
    requires Sound(c) && Separable(providers) && Legal(c, op, providers) && Represents(c, db, m, providers)
    ensures Step(c, db, op).1 == PlainStep(m, op).1
    ensures Represents(c, Step(c, db, op).0, PlainStep(m, op).0, providers)
  {
    KeysAreUniqueIffSeparable(providers);
    if op.Save? {
      EnvelopeSeals(c, op);
    }
    forall u, p | p in providers
      ensures BadgerKey(u, p) == BadgerKey(op.user, op.provider) <==> (u, p) == (op.user, op.provider) {
    }
  }

  function Answers(c: Crypto, db: map<string, string>, ops: seq<Op>): seq<Answer>
    decreases |ops|
  {
    if ops == [] then []
    else
      var (next, answer) := Step(c, db, ops[0]);
      [answer] + Answers(c, next, ops[1..])
  }

  function PlainAnswers(m: map<(string, string), TokenPair>, ops: seq<Op>): seq<Answer>
    decreases |ops|
  {
    if ops == [] then []
    else
      var (next, answer) := PlainStep(m, ops[0]);
      [answer] + PlainAnswers(next, ops[1..])
  }

  lemma {:induction false} RunRefines(c: Crypto, db: map<string, string>, m: map<(string, string), TokenPair>,
                                      ops: seq<Op>, providers: set<string>)
    requires Sound(c) && Separable(providers) && Represents(c, db, m, providers)
    requires forall op | op in ops :: Legal(c, op, providers)
    ensures Answers(c, db, ops) == PlainAnswers(m, ops)
    decreases |ops|
  {
    if ops == [] {
    } else {
      assert ops[0] in ops;
      StepRefines(c, db, m, ops[0], providers);
      RunRefines(c, Step(c, db, ops[0]).0, PlainStep(m, ops[0]).0, ops[1..], providers);
    }
  }

  /** From an empty store, every sequence of operations, faults included, is answered as the plain map
      from (user, provider) to pair would answer it. */
  lemma EncryptedStoreIsAMap(c: Crypto, ops: seq<Op>, providers: set<string>)
    requires Sound(c) && Separable(providers)
    requires forall op | op in ops :: Legal(c, op, providers)
    ensures Answers(c, map[], ops) == PlainAnswers(map[], ops)
  {
    RunRefines(c, map[], map[], ops, providers);
  }

  // ---------------------------------------------------------------------
  // Faults, corruption and secrecy
  // ---------------------------------------------------------------------

  /** What each fault answers, and that it changes nothing. */
  lemma FaultsAreReported(c: Crypto, db: map<string, string>, op: Op)
    requires op.fault != NoFault
    ensures op.Save? ==> && Step(c, db, op).0 == db
                         && Step(c, db, op).1 == Failed(if op.fault == KeyServiceDown || op.fault == BackendDown
                                                        then ServiceUnavailable else Unclassified)
    ensures op.Get? ==> Step(c, db, op).0 == db
    ensures op.Get? && op.fault == BackendDown ==> Step(c, db, op).1 == Failed(ServiceUnavailable)
    ensures op.Delete? && op.fault == BackendDown ==> Step(c, db, op) == (db, Failed(ServiceUnavailable))
    ensures op.Delete? && op.fault == CommitFails ==> Step(c, db, op) == (db, Failed(Unclassified))
  {
  }

  /** The stored value, read as far as its blob. */
  ghost predicate ReadsAs(c: Crypto, stored: string, blob: Blob) {
    exists synthetic :: c.unmarshalPair(stored) == Some(synthetic)
        && c.unmarshalBlob(synthetic.accessToken) == Some(blob)
  }

  /** A key that holds something is never reported as not connected: it is either read, or unavailable exactly when its
      data key cannot be decrypted, or corrupt. */
  lemma OpenedIff(c: Crypto, stored: string, down: bool)
    ensures forall pair :: Opened(c, stored, down) == Found(pair) <==>
              exists blob, key, text ::
                && ReadsAs(c, stored, blob) && !down && c.decryptKey(blob.encryptedKey) == Some(key)
                && c.open(key, blob.nonce, blob.ciphertext) == Some(text) && c.unmarshalPair(text) == Some(pair)
    ensures Opened(c, stored, down) == Failed(ServiceUnavailable) <==>
              exists blob :: ReadsAs(c, stored, blob) && (down || c.decryptKey(blob.encryptedKey) == None)
    ensures Opened(c, stored, down).Found? || Opened(c, stored, down) == Failed(ServiceUnavailable)
         || Opened(c, stored, down) == Failed(Unclassified)
  {
    var outer := c.unmarshalPair(stored);
    if outer.Some? && c.unmarshalBlob(outer.value.accessToken).Some? {
      var blob := c.unmarshalBlob(outer.value.accessToken).value;
      assert ReadsAs(c, stored, blob);
      var key := c.decryptKey(blob.encryptedKey);
      if key.Some? && c.open(key.value, blob.nonce, blob.ciphertext).Some? {
        var text := c.open(key.value, blob.nonce, blob.ciphertext).value;
        assert c.open(key.value, blob.nonce, blob.ciphertext) == Some(text);
      }
    }
  }

  /** What is stored depends on the pair only through its ciphertext: pairs that are sealed alike under the same key
      and nonce are stored alike, so the database tells nothing of a pair that its ciphertext does not. */
  lemma StoredOnlySealed(c: Crypto, db: map<string, string>, op: Op, other: TokenPair)
    requires op.Save?
    requires c.seal(op.dataKey.plain, op.nonce, c.marshalPair(op.pair)) ==
             c.seal(op.dataKey.plain, op.nonce, c.marshalPair(other))
    ensures Step(c, db, op) == Step(c, db, op.(pair := other))
  {
  }

  /** Nor does it depend on the data key but through its encrypted form and that ciphertext. */
  lemma StoredWithoutPlainKey(c: Crypto, db: map<string, string>, op: Op, plain: string)
    requires op.Save?
    requires c.seal(op.dataKey.plain, op.nonce, c.marshalPair(op.pair)) ==
             c.seal(plain, op.nonce, c.marshalPair(op.pair))
    ensures Step(c, db, op) == Step(c, db, op.(dataKey := op.dataKey.(plain := plain)))
  {
  }
}
