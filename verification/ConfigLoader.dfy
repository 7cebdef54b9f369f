/** The loader: initial load and hot reload of the policy files, over parsed file contents. */
module ConfigLoader {
  import opened Text
  import opened Domain
  import opened Routing
  import opened Ordering
  import opened PolicyMerge
  import PolicyChange

  /** A file: read into its type beside its raw document, or not readable as that type. */
  datatype Document<+T> = Document(typed: T, raw: string) | Unreadable

  /** A YAML file of the policy directory, by file stem, in glob order. */
  datatype NamedFile = NamedFile(stem: string, content: Document<PolicyFile>)

  /** `settings` are the fields on which nothing is required. */
  datatype IdentityProvider = IdentityProvider(name: string, kind: string, settings: string)

  /** The secret is not part of the file: it is resolved after the load. */
  datatype SecondaryProvider = SecondaryProvider(
    name: string, kind: string, authURL: string, tokenURL: string, clientID: string, secretARN: string,
    scopes: seq<string>, secret: string)

  datatype TokenStoreConfig = TokenStoreConfig(kind: string, keyARN: string, settings: string)

  datatype IdentityConfig = IdentityConfig(
    providers: seq<IdentityProvider>, secondary: seq<SecondaryProvider>, tokenStore: Option<TokenStoreConfig>)

  datatype RoutingConfig = RoutingConfig(routes: seq<RouteEntry>, assertion: AssertionConfig)

  datatype Config = Config(identity: IdentityConfig, routes: seq<RouteEntry>, assertion: AssertionConfig,
                           policies: seq<PolicyEntry>)

  /** `listens` says whether a callback was given. */
  datatype LoaderState = LoaderState(current: Config, data: map<string, string>, notified: seq<Config>, listens: bool)

  // ---------------------------------------------------------------------
  // Validation of one file
  // ---------------------------------------------------------------------

  predicate UsableEntry(e: PolicyEntry) {
    e.group != "" && e.allowed != []
  }

  predicate Usable(f: PolicyFile) {
    f != [] && forall e | e in f :: UsableEntry(e)
  }

  predicate GoodFile(content: Document<PolicyFile>) {
    content.Document? && Usable(content.typed)
  }

  predicate ValidSecondary(p: SecondaryProvider, isURL: string -> bool) {
    && p.name != "" && p.kind == "oauth2" && p.clientID != "" && p.secretARN != "" && p.scopes != []
    && p.authURL != "" && isURL(p.authURL) && p.tokenURL != "" && isURL(p.tokenURL)
  }

  predicate ValidIdentity(id: IdentityConfig, isURL: string -> bool) {
    && id.providers != [] && (forall p | p in id.providers :: p.name != "" && p.kind in {"oidc", "saml"})
    && (forall p | p in id.secondary :: ValidSecondary(p, isURL))
    && (id.tokenStore.Some? ==> id.tokenStore.value.kind in {"dynamodb", "badger"} && id.tokenStore.value.keyARN != "")
  }

  predicate ValidRouting(routing: RoutingConfig, isURL: string -> bool) {
    && routing.routes != []
    && (forall r | r in routing.routes :: r.prefix != "" && r.backendURI != "" && isURL(r.backendURI))
    && routing.assertion.issuer != "" && isURL(routing.assertion.issuer)
    && routing.assertion.audience != "" && routing.assertion.ttl != 0 && routing.assertion.keyARN != ""
  }

  function WithoutSecrets(ps: seq<SecondaryProvider>): (r: seq<SecondaryProvider>)
    ensures |r| == |ps| && forall k | 0 <= k < |ps| :: r[k] == ps[k].(secret := "")
  {
    seq(|ps|, k requires 0 <= k < |ps| => ps[k].(secret := ""))
  }

  function Names(ps: seq<SecondaryProvider>): (names: seq<string>)
    ensures |names| == |ps| && forall k | 0 <= k < |ps| :: names[k] == ps[k].name
  {
    seq(|ps|, k requires 0 <= k < |ps| => ps[k].name)
  }

  // ---------------------------------------------------------------------
  // What a snapshot of the policy directory means
  // ---------------------------------------------------------------------

  predicate AllGood(matches: seq<NamedFile>) {
    forall m | m in matches :: GoodFile(m.content)
  }

  function FilesOf(matches: seq<NamedFile>): seq<PolicyFile> {
    if matches == [] then []
    else (if GoodFile(matches[0].content) then [matches[0].content.typed] else []) + FilesOf(matches[1..])
  }

  /** The raw documents by namespace; of two files with one stem the later counts. */
  function RawsOf(matches: seq<NamedFile>): map<string, string> {
    if matches == [] then map[]
    else
      var m := matches[0];
      (if GoodFile(m.content) then map["policies/" + m.stem := m.content.raw] else map[]) + RawsOf(matches[1..])
  }

  function PoliciesOf(matches: seq<NamedFile>): seq<PolicyEntry> {
    Merge(Flatten(FilesOf(matches)))
  }

  /** A snapshot that a reload accepts under the given routes. */
  predicate Acceptable(matches: seq<NamedFile>, routes: seq<RouteEntry>) {
    AllGood(matches) && AllRouted(PoliciesOf(matches), routes)
  }

  /** What an initial load of these files gives: nothing unless every file is valid, every policy pattern is routed
      and the secondary providers have different names. Secrets are never read from a file. */
  ghost function Loaded(identity: Document<IdentityConfig>, routing: Document<RoutingConfig>, matches: seq<NamedFile>,
                        isURL: string -> bool): Option<Config>
  {
    if && identity.Document? && ValidIdentity(identity.typed, isURL)
       && routing.Document? && ValidRouting(routing.typed, isURL)
       && Acceptable(matches, routing.typed.routes) && Distinct(Names(identity.typed.secondary))
    then Some(Config(identity.typed.(secondary := WithoutSecrets(identity.typed.secondary)),
                     routing.typed.routes, routing.typed.assertion, PoliciesOf(matches)))
    else None
  }

  // ---------------------------------------------------------------------
  // The loader object
  // ---------------------------------------------------------------------

  class Loader {
    const isURL: string -> bool
    const listens: bool
    var current: Config
    var data: map<string, string>
    /** The configurations with which the callback was launched. */
    var notified: seq<Config>

    ghost function State(): LoaderState
      reads this
    {
      LoaderState(current, data, notified, listens)
    }

    constructor (isURL: string -> bool, listens: bool)
      ensures this.isURL == isURL && this.listens == listens && data == map[] && notified == []
    {
      this.isURL, this.listens := isURL, listens;
      current := Config(IdentityConfig([], [], None), [], AssertionConfig("", "", 0, "", ""), []);
      data, notified := map[], [];
    }

    /** The initial load; nothing changes when it fails. */
    method Load(identity: Document<IdentityConfig>, routing: Document<RoutingConfig>, matches: seq<NamedFile>)
      returns (cfg: Option<Config>)
      modifies this
      ensures cfg == Loaded(identity, routing, matches, isURL)
      ensures cfg.None? ==> State() == old(State())
      ensures cfg.Some? ==>
                State() == LoaderState(cfg.value,
                             old(data)["identity" := identity.raw]["routing" := routing.raw] + RawsOf(matches),
                             old(notified), listens)
    {
      if identity.Unreadable? || !ValidIdentity(identity.typed, isURL) {
        return None;
      }
      if routing.Unreadable? || !ValidRouting(routing.typed, isURL) {
        return None;
      }
      var files := LoadPolicyFiles(matches);
      if files.None? {
        return None;
      }
      var merged := DeepMergePolicies(files.value.0);
      var err := ValidatePolicyRoutes(merged, routing.typed.routes);
      if err.Some? {
        return None;
      }
      var unique := SecondaryNamesAreUnique(Names(identity.typed.secondary));
      if !unique {
        return None;
      }
      current := Config(identity.typed.(secondary := WithoutSecrets(identity.typed.secondary)),
                        routing.typed.routes, routing.typed.assertion, merged);
      data := data["identity" := identity.raw]["routing" := routing.raw] + files.value.1;
      return Some(current);
    }

    /** Fills in the secrets after the load, provider by provider, up to the first that cannot be resolved. */
    method ResolveSecondaryProviderSecrets(resolver: string -> Option<string>) returns (ok: bool)
      modifies this
      ensures ok <==> forall p | p in old(current.identity.secondary) :: resolver(p.secretARN).Some?
      ensures State() == WithSecondary(old(State()), WithSecrets(old(current.identity.secondary), resolver))
    {
      ghost var was := State();
      var ps := current.identity.secondary;
      for i := 0 to |ps|
        invariant State() == WithSecondary(was, current.identity.secondary)
        invariant FilledUpTo(ps, current.identity.secondary, i, resolver)
      {
        var now := current.identity.secondary;
        FillOne(ps, now, i, resolver);
        var secret := resolver(now[i].secretARN);
        if secret.None? {
          return false;
        }
        current := current.(identity := current.identity.(secondary := now[i := now[i].(secret := secret.value)]));
      }
      FilledAll(ps, current.identity.secondary, resolver);
      return true;
    }

    /** One hot reload: all or nothing; on success the callback, if there is one, is launched once. */
    method ReloadPolicies(matches: seq<NamedFile>)
      modifies this
      ensures State() == Reloaded(old(State()), matches)
    {
      var files := LoadPolicyFiles(matches);
      if files.None? {
        return;
      }
      var merged := DeepMergePolicies(files.value.0);
      var routes := current.routes;
      var err := ValidatePolicyRoutes(merged, routes);
      if err.Some? {
        return;
      }
      current := current.(policies := merged);
      data := data + files.value.1;
      var newCfg := current;
      if listens {
        notified := notified + [newCfg];
      }
    }
  }

  /** The providers with the secrets that could be resolved before the first failure. */
  function WithSecrets(ps: seq<SecondaryProvider>, resolver: string -> Option<string>): seq<SecondaryProvider> {
    if ps == [] || resolver(ps[0].secretARN).None? then ps
    else [ps[0].(secret := resolver(ps[0].secretARN).value)] + WithSecrets(ps[1..], resolver)
  }

  /** Provider `k` has its secret exactly when its own and all earlier ones resolve; nothing else of it changes. */
  lemma {:induction false} WithSecretsAt(ps: seq<SecondaryProvider>, resolver: string -> Option<string>, k: nat)
    requires k < |ps|
    ensures |WithSecrets(ps, resolver)| == |ps|
    ensures WithSecrets(ps, resolver)[k] ==
            if forall i | 0 <= i <= k :: resolver(ps[i].secretARN).Some?
            then ps[k].(secret := resolver(ps[k].secretARN).value) else ps[k]
  {
    if resolver(ps[0].secretARN).Some? && |ps| > 1 {
      assert forall i | 1 <= i < |ps| :: ps[i] == ps[1..][i - 1];
      WithSecretsAt(ps[1..], resolver, if k == 0 then 0 else k - 1);
    }
  }

  function WithSecondary(s: LoaderState, ps: seq<SecondaryProvider>): LoaderState {
    s.(current := s.current.(identity := s.current.identity.(secondary := ps)))
  }

  /** The first `i` providers are done and the others are as they were. */
  ghost predicate FilledUpTo(ps: seq<SecondaryProvider>, now: seq<SecondaryProvider>, i: int,
                             resolver: string -> Option<string>)
  {
    && |now| == |ps| && 0 <= i <= |ps| && now[i..] == ps[i..]
    && WithSecrets(ps, resolver) == now[..i] + WithSecrets(ps[i..], resolver)
    && forall k | 0 <= k < i :: resolver(ps[k].secretARN).Some?
  }

  lemma NextOf(ps: seq<SecondaryProvider>, now: seq<SecondaryProvider>, i: int)
    requires |now| == |ps| && 0 <= i < |ps| && now[i..] == ps[i..]
    ensures now[i] == ps[i] && ps[i] in ps && now[i + 1..] == ps[i + 1..]
  {
    assert now[i] == now[i..][0] == ps[i..][0] == ps[i];
    assert ps[i..][1..] == ps[i + 1..] && now[i..][1..] == now[i + 1..];
  }

  lemma SecretsFrom(ps: seq<SecondaryProvider>, i: nat, resolver: string -> Option<string>)
    requires i < |ps|
    ensures WithSecrets(ps[i..], resolver) ==
            match resolver(ps[i].secretARN)
            case None => ps[i..]
            case Some(secret) => [ps[i].(secret := secret)] + WithSecrets(ps[i + 1..], resolver)
  {
    assert ps[i..][0] == ps[i] && ps[i..][1..] == ps[i + 1..];
  }

  lemma FillOne(ps: seq<SecondaryProvider>, now: seq<SecondaryProvider>, i: int, resolver: string -> Option<string>)
    requires i < |ps| && FilledUpTo(ps, now, i, resolver)
    ensures now[i] == ps[i] && ps[i] in ps
    ensures match resolver(ps[i].secretARN)
            case None => WithSecrets(ps, resolver) == now
            case Some(secret) => FilledUpTo(ps, now[i := now[i].(secret := secret)], i + 1, resolver)
  {
    NextOf(ps, now, i);
    SecretsFrom(ps, i, resolver);
    match resolver(ps[i].secretARN)
    case None =>
      assert now == now[..i] + now[i..];
    case Some(secret) =>
      FillSome(ps, now, i, secret, resolver);
  }

  lemma FillSome(ps: seq<SecondaryProvider>, now: seq<SecondaryProvider>, i: int, secret: string,
                 resolver: string -> Option<string>)
    requires i < |ps| && FilledUpTo(ps, now, i, resolver) && resolver(ps[i].secretARN) == Some(secret)
    requires now[i] == ps[i] && now[i + 1..] == ps[i + 1..]
    requires WithSecrets(ps[i..], resolver) == [ps[i].(secret := secret)] + WithSecrets(ps[i + 1..], resolver)
    ensures FilledUpTo(ps, now[i := now[i].(secret := secret)], i + 1, resolver)
  {
    var one := now[i].(secret := secret);
    var filled := now[i := one];
    assert filled[..i + 1] == now[..i] + [one];
    assert filled[i + 1..] == now[i + 1..];
    assert now[..i] + ([one] + WithSecrets(ps[i + 1..], resolver))
        == filled[..i + 1] + WithSecrets(ps[i + 1..], resolver);
  }

  lemma FilledAll(ps: seq<SecondaryProvider>, now: seq<SecondaryProvider>, resolver: string -> Option<string>)
    requires FilledUpTo(ps, now, |ps|, resolver)
    ensures now == WithSecrets(ps, resolver) && forall p | p in ps :: resolver(p.secretARN).Some?
  {
    assert ps[|ps|..] == [] && now[..|ps|] == now;
  }

  /** `loadPolicyFiles`: the typed files and raw documents, or nothing when one file is unusable. */
  method LoadPolicyFiles(matches: seq<NamedFile>) returns (r: Option<(seq<PolicyFile>, map<string, string>)>)
    ensures r.Some? <==> AllGood(matches)
    ensures r.Some? ==> r.value == (FilesOf(matches), RawsOf(matches))
  {
    var files: seq<PolicyFile>, raws: map<string, string> := [], map[];
    for i := 0 to |matches|
      invariant forall j | 0 <= j < i :: GoodFile(matches[j].content)
      invariant files + FilesOf(matches[i..]) == FilesOf(matches)
      invariant raws + RawsOf(matches[i..]) == RawsOf(matches)
    {
      var m := matches[i];
      if !GoodFile(m.content) {
        assert m in matches;
        return None;
      }
      OneMoreFile(files, raws, matches, i);
      files := files + [m.content.typed];
      raws := raws + map["policies/" + m.stem := m.content.raw];
    }
    assert matches[|matches|..] == [];
    assert files + FilesOf([]) == files && raws + RawsOf([]) == raws;
    return Some((files, raws));
  }

  lemma OneMoreFile(files: seq<PolicyFile>, raws: map<string, string>, matches: seq<NamedFile>, i: nat)
    requires i < |matches| && GoodFile(matches[i].content)
    ensures files + [matches[i].content.typed] + FilesOf(matches[i + 1..]) == files + FilesOf(matches[i..])
    ensures raws + map["policies/" + matches[i].stem := matches[i].content.raw] + RawsOf(matches[i + 1..])
         == raws + RawsOf(matches[i..])
  {
    assert matches[i..][0] == matches[i] && matches[i..][1..] == matches[i + 1..];
  }

  method SecondaryNamesAreUnique(names: seq<string>) returns (ok: bool)
    ensures ok <==> Distinct(names)
  {
    var seen: set<string> := {};
    for i := 0 to |names|
      invariant Distinct(names[..i])
      invariant seen == Elems(names[..i])
    {
      if names[i] in seen {
        var j :| 0 <= j < i && names[j] == names[i];
        return false;
      }
      seen := seen + {names[i]};
      assert names[..i + 1] == names[..i] + [names[i]];
    }
    assert names[..|names|] == names;
    return true;
  }

  // ---------------------------------------------------------------------
  // What is refused
  // ---------------------------------------------------------------------

  /** Some policy file is unreadable, holds no entry, or has one without a group or without allowed tools. */
  ghost predicate BadPolicies(matches: seq<NamedFile>) {
    exists k | 0 <= k < |matches| ::
      || matches[k].content.Unreadable?
      || |matches[k].content.typed| == 0
      || exists i | 0 <= i < |matches[k].content.typed| ::
           |matches[k].content.typed[i].group| == 0 || |matches[k].content.typed[i].allowed| == 0
  }

  /** A required field is empty, a kind is unknown, or an address is no URL. */
  ghost predicate BadIdentity(id: IdentityConfig, isURL: string -> bool) {
    || |id.providers| == 0
    || (exists i | 0 <= i < |id.providers| ::
          |id.providers[i].name| == 0 || (id.providers[i].kind != "oidc" && id.providers[i].kind != "saml"))
    || (exists i | 0 <= i < |id.secondary| :: BadSecondary(id.secondary[i], isURL))
    || (id.tokenStore.Some? && ((id.tokenStore.value.kind != "dynamodb" && id.tokenStore.value.kind != "badger")
                                || |id.tokenStore.value.keyARN| == 0))
  }

  ghost predicate BadSecondary(p: SecondaryProvider, isURL: string -> bool) {
    || |p.name| == 0 || p.kind != "oauth2" || |p.clientID| == 0 || |p.secretARN| == 0 || |p.scopes| == 0
    || |p.authURL| == 0 || !isURL(p.authURL) || |p.tokenURL| == 0 || !isURL(p.tokenURL)
  }

  ghost predicate BadRouting(routing: RoutingConfig, isURL: string -> bool) {
    || |routing.routes| == 0
    || (exists i | 0 <= i < |routing.routes| ::
          || |routing.routes[i].prefix| == 0 || |routing.routes[i].backendURI| == 0
          || !isURL(routing.routes[i].backendURI))
    || |routing.assertion.issuer| == 0 || !isURL(routing.assertion.issuer) || |routing.assertion.audience| == 0
    || routing.assertion.ttl == 0 || |routing.assertion.keyARN| == 0
  }

  /** `x` is a pattern of the entry, and no route has its first segment. */
  ghost predicate IsUnrouted(e: PolicyEntry, x: string, routes: seq<RouteEntry>) {
    (x in e.allowed || x in e.denied) && forall r | r in routes :: r.prefix != x[..IndexOf(x, '/')]
  }

  /** Some file has such a pattern. */
  ghost predicate UnroutedPattern(matches: seq<NamedFile>, routes: seq<RouteEntry>) {
    exists e, x :: e in Flatten(FilesOf(matches)) && IsUnrouted(e, x, routes)
  }

  lemma UsableIff(f: PolicyFile)
    ensures Usable(f) <==> |f| != 0 && forall i | 0 <= i < |f| :: |f[i].group| != 0 && |f[i].allowed| != 0
  {
    forall i | 0 <= i < |f| ensures UsableEntry(f[i]) <==> |f[i].group| != 0 && |f[i].allowed| != 0 {
    }
    if Usable(f) {
      assert forall i | 0 <= i < |f| :: f[i] in f;
    }
    if !(forall e | e in f :: UsableEntry(e)) {
      var e :| e in f && !UsableEntry(e);
      var i :| 0 <= i < |f| && f[i] == e;
    }
  }

  lemma BadPoliciesIff(matches: seq<NamedFile>)
    ensures AllGood(matches) <==> !BadPolicies(matches)
  {
    forall k | 0 <= k < |matches| && matches[k].content.Document?
      ensures Usable(matches[k].content.typed) <==>
              && |matches[k].content.typed| != 0
              && forall i | 0 <= i < |matches[k].content.typed| ::
                   |matches[k].content.typed[i].group| != 0 && |matches[k].content.typed[i].allowed| != 0
    {
      UsableIff(matches[k].content.typed);
    }
    if !AllGood(matches) {
      var m :| m in matches && !GoodFile(m.content);
      var k :| 0 <= k < |matches| && matches[k] == m;
    }
  }

  lemma BadIdentityIff(id: IdentityConfig, isURL: string -> bool)
    ensures ValidIdentity(id, isURL) <==> !BadIdentity(id, isURL)
  {
    forall p ensures ValidSecondary(p, isURL) <==> !BadSecondary(p, isURL) {
    }
  }

  lemma BadRoutingIff(routing: RoutingConfig, isURL: string -> bool)
    ensures ValidRouting(routing, isURL) <==> !BadRouting(routing, isURL)
  {
  }

  lemma IsUnroutedIff(e: PolicyEntry, x: string, routes: seq<RouteEntry>)
    ensures IsUnrouted(e, x, routes) <==> x in Patterns(e) && !Routed(routes, ToolPrefix(x))
  {
  }

  lemma UnroutedIff(matches: seq<NamedFile>, routes: seq<RouteEntry>)
    ensures AllRouted(PoliciesOf(matches), routes) <==> !UnroutedPattern(matches, routes)
  {
    var es := Flatten(FilesOf(matches));
    PolicyChange.MergeIsRoutedIff(es, routes);
    forall e, x ensures IsUnrouted(e, x, routes) <==> x in Patterns(e) && !Routed(routes, ToolPrefix(x)) {
      IsUnroutedIff(e, x, routes);
    }
    if !AllRouted(es, routes) {
      var e :| e in es && exists x | x in Patterns(e) :: !Routed(routes, ToolPrefix(x));
      var x :| x in Patterns(e) && !Routed(routes, ToolPrefix(x));
      assert IsUnrouted(e, x, routes);
    }
  }

  /** The initial load is refused exactly when one of these is wrong with it. */
  lemma LoadRefusedIff(identity: Document<IdentityConfig>, routing: Document<RoutingConfig>, matches: seq<NamedFile>,
                       isURL: string -> bool)
    ensures Loaded(identity, routing, matches, isURL).None? <==>
            || identity.Unreadable? || BadIdentity(identity.typed, isURL)
            || routing.Unreadable? || BadRouting(routing.typed, isURL)
            || BadPolicies(matches) || UnroutedPattern(matches, routing.typed.routes)
            || exists i, j | 0 <= i < j < |identity.typed.secondary| ::
                 identity.typed.secondary[i].name == identity.typed.secondary[j].name
  {
    BadPoliciesIff(matches);
    if identity.Document? && routing.Document? {
      BadIdentityIff(identity.typed, isURL);
      BadRoutingIff(routing.typed, isURL);
      UnroutedIff(matches, routing.typed.routes);
    }
  }

  /** An accepted reload puts each document of the snapshot under its key and keeps all others, also those of files that
      are gone. */
  lemma ReloadKeepsDocuments(s: LoaderState, matches: seq<NamedFile>, ns: string)
    requires Acceptable(matches, s.current.routes)
    ensures var out := Reloaded(s, matches);
            && (ns in out.data <==> ns in s.data || ns in RawsOf(matches))
            && (ns in RawsOf(matches) ==> out.data[ns] == RawsOf(matches)[ns])
            && (ns in s.data && ns !in RawsOf(matches) ==> out.data[ns] == s.data[ns])
  {
  }

  /** And a reload, exactly when something is wrong with the policy files. */
  lemma ReloadRefusedIff(s: LoaderState, matches: seq<NamedFile>)
    ensures if BadPolicies(matches) || UnroutedPattern(matches, s.current.routes) then Reloaded(s, matches) == s
            else Reloaded(s, matches).current.policies == Merge(Flatten(FilesOf(matches)))
  {
    BadPoliciesIff(matches);
    UnroutedIff(matches, s.current.routes);
  }

  // ---------------------------------------------------------------------
  // Runs of reload attempts
  // ---------------------------------------------------------------------

  function Reloaded(s: LoaderState, matches: seq<NamedFile>): LoaderState {
    if Acceptable(matches, s.current.routes) then
      var cfg := s.current.(policies := PoliciesOf(matches));
      LoaderState(cfg, s.data + RawsOf(matches), s.notified + (if s.listens then [cfg] else []), s.listens)
    else
      s
  }

  function Run(s: LoaderState, attempts: seq<seq<NamedFile>>): LoaderState {
    if attempts == [] then s
    else Reloaded(Run(s, attempts[..|attempts| - 1]), attempts[|attempts| - 1])
  }

  /** The attempts that are accepted, in order. */
  function Accepted(attempts: seq<seq<NamedFile>>, routes: seq<RouteEntry>): (r: seq<seq<NamedFile>>)
    ensures forall a | a in r :: Acceptable(a, routes)
  {
    if attempts == [] then []
    else
      var last := attempts[|attempts| - 1];
      Accepted(attempts[..|attempts| - 1], routes) + (if Acceptable(last, routes) then [last] else [])
  }

  /** Identity, routes and assertion settings never change at run time, nor does any
      document outside the policies namespace. */
  lemma {:induction false} RunKeepsBoundary(s: LoaderState, attempts: seq<seq<NamedFile>>)
    ensures Run(s, attempts).current == s.current.(policies := Run(s, attempts).current.policies)
    ensures forall ns | !HasPrefix(ns, "policies/") ::
              (ns in Run(s, attempts).data <==> ns in s.data) &&
              (ns in s.data ==> Run(s, attempts).data[ns] == s.data[ns])
  {
    if attempts == [] {
    } else {
      var last := attempts[|attempts| - 1];
      RunKeepsBoundary(s, attempts[..|attempts| - 1]);
      RawsAreNamespaced(last);
    }
  }

  lemma {:induction false} RawsAreNamespaced(matches: seq<NamedFile>)
    ensures forall ns | ns in RawsOf(matches) :: HasPrefix(ns, "policies/")
  {
    if matches == [] {
    } else {
      RawsAreNamespaced(matches[1..]);
    }
  }

  /** File `k` is the last usable one with this stem. */
  ghost predicate LastOfStem(matches: seq<NamedFile>, k: int, stem: string) {
    && 0 <= k < |matches| && matches[k].stem == stem && GoodFile(matches[k].content)
    && forall i | k < i < |matches| && matches[i].stem == stem :: !GoodFile(matches[i].content)
  }

  lemma LastOfTail(matches: seq<NamedFile>, k: int, stem: string)
    requires 1 <= k < |matches|
    ensures LastOfStem(matches, k, stem) <==> LastOfStem(matches[1..], k - 1, stem)
  {
    assert forall i | 1 <= i < |matches| :: matches[i] == matches[1..][i - 1];
  }

  /** The documents of a snapshot: under "policies/" and the stem, that of the last usable file with this stem. */
  lemma {:induction false} RawsIff(matches: seq<NamedFile>, stem: string)
    ensures "policies/" + stem in RawsOf(matches) <==> exists k :: LastOfStem(matches, k, stem)
    ensures forall k | LastOfStem(matches, k, stem) :: RawsOf(matches)["policies/" + stem] == matches[k].content.raw
  {
    if matches == [] {
    } else {
      var rest := RawsOf(matches[1..]);
      RawsIff(matches[1..], stem);
      StemsDiffer(matches[0].stem, stem);
      forall k | 1 <= k < |matches| ensures LastOfStem(matches, k, stem) <==> LastOfStem(matches[1..], k - 1, stem) {
        LastOfTail(matches, k, stem);
      }
      if k :| LastOfStem(matches[1..], k, stem) {
        assert LastOfStem(matches, k + 1, stem);
        assert !LastOfStem(matches, 0, stem);
      } else {
        NoneLater(matches, stem);
      }
    }
  }

  lemma StemsDiffer(a: string, b: string)
    ensures "policies/" + a == "policies/" + b <==> a == b
  {
    assert ("policies/" + a)[|"policies/"|..] == a && ("policies/" + b)[|"policies/"|..] == b;
  }

  lemma NoneLater(matches: seq<NamedFile>, stem: string)
    requires matches != [] && forall k :: !LastOfStem(matches[1..], k, stem)
    ensures LastOfStem(matches, 0, stem) <==> matches[0].stem == stem && GoodFile(matches[0].content)
  {
    if i :| 1 <= i < |matches| && matches[i].stem == stem && GoodFile(matches[i].content) {
      var last := LastFrom(matches[1..], i - 1, stem);
    }
  }

  lemma {:induction false} LastFrom(matches: seq<NamedFile>, i: int, stem: string) returns (k: int)
    requires 0 <= i < |matches| && matches[i].stem == stem && GoodFile(matches[i].content)
    ensures LastOfStem(matches, k, stem)
    decreases |matches| - i
  {
    if j :| i < j < |matches| && matches[j].stem == stem && GoodFile(matches[j].content) {
      k := LastFrom(matches, j, stem);
    } else {
      k := i;
    }
  }

  /** The configurations that the accepted snapshots install, in order. */
  function Installed(base: Config, good: seq<seq<NamedFile>>): (cfgs: seq<Config>)
    ensures |cfgs| == |good|
    ensures forall k | 0 <= k < |good| :: cfgs[k] == base.(policies := PoliciesOf(good[k]))
  {
    seq(|good|, k requires 0 <= k < |good| => base.(policies := PoliciesOf(good[k])))
  }

  /** The active configuration is always that of the latest accepted snapshot, and each accepted attempt launched the
      callback, if there is one, exactly once, with the configuration that it installed. */
  lemma {:induction false} RunServesLatest(s: LoaderState, attempts: seq<seq<NamedFile>>)
    ensures Serves(s, Accepted(attempts, s.current.routes), Run(s, attempts))
  {
    if attempts == [] {
    } else {
      var before, last := attempts[..|attempts| - 1], attempts[|attempts| - 1];
      RunServesLatest(s, before);
      ServeOneMore(s, Accepted(before, s.current.routes), Run(s, before), last);
    }
  }

  /** `out` is what `s` becomes after the accepted snapshots `good`. */
  ghost predicate Serves(s: LoaderState, good: seq<seq<NamedFile>>, out: LoaderState) {
    && out.notified == s.notified + (if s.listens then Installed(s.current, good) else [])
    && out.listens == s.listens
    && if good == [] then out == s
       else out.current == s.current.(policies := PoliciesOf(good[|good| - 1]))
  }

  lemma ServeOneMore(s: LoaderState, good: seq<seq<NamedFile>>, out: LoaderState, last: seq<NamedFile>)
    requires Serves(s, good, out)
    ensures Serves(s, good + (if Acceptable(last, s.current.routes) then [last] else []), Reloaded(out, last))
  {
    if Acceptable(last, s.current.routes) {
      InstallOneMore(s.current, good, last);
    } else {
      assert good + [] == good;
    }
  }

  lemma InstallOneMore(base: Config, good: seq<seq<NamedFile>>, last: seq<NamedFile>)
    ensures Installed(base, good + [last]) == Installed(base, good) + [base.(policies := PoliciesOf(last))]
  {
  }

  /** Policies that were routed after the initial load stay routed, in the active configuration
      and in every configuration handed to the callback. */
  lemma RunStaysRouted(s: LoaderState, attempts: seq<seq<NamedFile>>)
    requires AllRouted(s.current.policies, s.current.routes)
    ensures AllRouted(Run(s, attempts).current.policies, s.current.routes)
    ensures forall k | |s.notified| <= k < |Run(s, attempts).notified| ::
              AllRouted(Run(s, attempts).notified[k].policies, s.current.routes)
  {
    RunServesLatest(s, attempts);
    var good := Accepted(attempts, s.current.routes);
    InstalledAreRouted(s.current, good);
    if good != [] {
      assert good[|good| - 1] in good;
    }
  }

  lemma InstalledAreRouted(base: Config, good: seq<seq<NamedFile>>)
    requires forall a | a in good :: Acceptable(a, base.routes)
    ensures forall k | 0 <= k < |good| :: AllRouted(Installed(base, good)[k].policies, base.routes)
  {
    forall k | 0 <= k < |good| ensures AllRouted(Installed(base, good)[k].policies, base.routes) {
      assert good[k] in good;
    }
  }

  /** Written to one policy file and read back, a policy list is accepted and unchanged exactly when it is a valid
      file, its groups are strictly increasing and its patterns are routed. */
  lemma SavedPoliciesLoadBackIff(ps: seq<PolicyEntry>, routes: seq<RouteEntry>, stem: string, raw: string)
    ensures var saved := [NamedFile(stem, Document(ps, raw))];
            (Acceptable(saved, routes) && PoliciesOf(saved) == ps) <==>
            (Usable(ps) && StrictlySorted(Groups(ps)) && AllRouted(ps, routes))
  {
    var saved := [NamedFile(stem, Document(ps, raw))];
    assert saved[0] in saved;
    if Usable(ps) {
      OneFile(stem, ps, raw);
      RoundTripIffSorted(ps);
    }
  }

  lemma OneFile(stem: string, ps: seq<PolicyEntry>, raw: string)
    requires Usable(ps)
    ensures var saved := [NamedFile(stem, Document(ps, raw))]; AllGood(saved) && PoliciesOf(saved) == Merge(ps)
  {
    var saved := [NamedFile(stem, Document(ps, raw))];
    assert saved[1..] == [];
    assert FilesOf(saved) == [ps];
    assert [ps][1..] == [];
    assert Flatten(FilesOf(saved)) == ps;
  }

  /** The configuration written out as its three kinds of file, one policy file, and loaded again. */
  ghost function SavedAndLoaded(cfg: Config, identityRaw: string, routingRaw: string, stem: string, policiesRaw: string,
                                isURL: string -> bool): Option<Config>
  {
    Loaded(Document(cfg.identity, identityRaw), Document(RoutingConfig(cfg.routes, cfg.assertion), routingRaw),
           [NamedFile(stem, Document(cfg.policies, policiesRaw))], isURL)
  }

  ghost predicate NoSecrets(ps: seq<SecondaryProvider>) {
    forall p | p in ps :: p.secret == ""
  }

  lemma NoSecretsIff(ps: seq<SecondaryProvider>)
    ensures NoSecrets(ps) <==> WithoutSecrets(ps) == ps
  {
    var bare := WithoutSecrets(ps);
    if NoSecrets(ps) {
      forall k | 0 <= k < |ps| ensures bare[k] == ps[k] {
        assert ps[k] in ps;
      }
    } else {
      var p :| p in ps && p.secret != "";
      var k :| 0 <= k < |ps| && ps[k] == p;
      assert bare[k] != ps[k];
    }
  }

  /** Each file of the configuration passes its own validation. */
  predicate ValidFiles(cfg: Config, isURL: string -> bool) {
    ValidIdentity(cfg.identity, isURL) && ValidRouting(RoutingConfig(cfg.routes, cfg.assertion), isURL)
    && Usable(cfg.policies)
  }

  /** Which configurations survive: the valid ones whose groups are strictly increasing, whose patterns are routed, and
      whose secondary providers have different names and no secret yet. All others are changed or refused. */
  lemma ConfigRoundTripIff(cfg: Config, identityRaw: string, routingRaw: string, stem: string, policiesRaw: string,
                           isURL: string -> bool)
    ensures SavedAndLoaded(cfg, identityRaw, routingRaw, stem, policiesRaw, isURL) == Some(cfg) <==>
            && ValidFiles(cfg, isURL)
            && StrictlySorted(Groups(cfg.policies)) && AllRouted(cfg.policies, cfg.routes)
            && Distinct(Names(cfg.identity.secondary)) && NoSecrets(cfg.identity.secondary)
  {
    SavedPoliciesLoadBackIff(cfg.policies, cfg.routes, stem, policiesRaw);
    NoSecretsIff(cfg.identity.secondary);
  }

  /** Merging keeps entries valid. */
  lemma MergeStaysUsable(es: seq<PolicyEntry>)
    requires forall e | e in es :: UsableEntry(e)
    ensures forall m | m in Merge(es) :: UsableEntry(m)
    ensures es != [] ==> Merge(es) != []
  {
    forall m | m in Merge(es) ensures UsableEntry(m) {
      MergeIsUnion(es, m);
      var e := GroupMember(es, m.group);
      assert e.allowed[0] in e.allowed;
      assert e.allowed[0] in m.allowed;
    }
    if es != [] {
      assert es[0] in es;
      var m := MergeCovers(es, es[0]);
    }
  }

  lemma {:induction false} FlattenedAreUsable(matches: seq<NamedFile>)
    requires AllGood(matches)
    ensures forall e | e in Flatten(FilesOf(matches)) :: UsableEntry(e)
    ensures matches != [] ==> Flatten(FilesOf(matches)) != []
  {
    if matches == [] {
    } else {
      assert matches[0] in matches && forall m | m in matches[1..] :: m in matches;
      FlattenedAreUsable(matches[1..]);
      FlattenFirst(matches[0].content.typed, FilesOf(matches[1..]));
    }
  }

  lemma FlattenFirst(f: PolicyFile, rest: seq<PolicyFile>)
    ensures Flatten([f] + rest) == f + Flatten(rest)
  {
    assert ([f] + rest)[1..] == rest;
  }

  /** The policies of an accepted snapshot are a valid file of their own exactly when the snapshot holds a file. */
  lemma AcceptedAreUsableIff(matches: seq<NamedFile>, routes: seq<RouteEntry>)
    requires Acceptable(matches, routes)
    ensures Usable(PoliciesOf(matches)) <==> matches != []
  {
    FlattenedAreUsable(matches);
    MergeStaysUsable(Flatten(FilesOf(matches)));
    if matches == [] {
      assert Flatten(FilesOf(matches)) == [];
      MergeKeys([]);
      assert PoliciesOf(matches) == [];
    }
  }

  lemma WithoutSecretsStaysValid(id: IdentityConfig, isURL: string -> bool)
    requires ValidIdentity(id, isURL)
    ensures ValidIdentity(id.(secondary := WithoutSecrets(id.secondary)), isURL)
    ensures NoSecrets(WithoutSecrets(id.secondary)) && Names(WithoutSecrets(id.secondary)) == Names(id.secondary)
  {
    var bare := WithoutSecrets(id.secondary);
    forall p | p in bare ensures ValidSecondary(p, isURL) && p.secret == "" {
      var k :| 0 <= k < |bare| && bare[k] == p;
      assert id.secondary[k] in id.secondary;
    }
  }

  /** What an initial load produced survives exactly when it found a policy file: an empty policy directory is accepted,
      an empty policy file is not. */
  lemma LoadedRoundTripsIff(identity: Document<IdentityConfig>, routing: Document<RoutingConfig>,
                            matches: seq<NamedFile>,
                            identityRaw: string, routingRaw: string, stem: string, policiesRaw: string,
                            isURL: string -> bool)
    requires Loaded(identity, routing, matches, isURL).Some?
    ensures var cfg := Loaded(identity, routing, matches, isURL).value;
            SavedAndLoaded(cfg, identityRaw, routingRaw, stem, policiesRaw, isURL) == Some(cfg) <==> matches != []
  {
    var cfg := Loaded(identity, routing, matches, isURL).value;
    MergeKeys(Flatten(FilesOf(matches)));
    AcceptedAreUsableIff(matches, routing.typed.routes);
    WithoutSecretsStaysValid(identity.typed, isURL);
    ConfigRoundTripIff(cfg, identityRaw, routingRaw, stem, policiesRaw, isURL);
  }

  /** Saving the active policies as the only file and reloading changes nothing in the configuration; with no policies
      at all it is because the reload is refused. */
  lemma ReloadOfSavedPolicies(s: LoaderState, matches: seq<NamedFile>, stem: string, raw: string)
    requires Acceptable(matches, s.current.routes)
    ensures var once := Reloaded(s, matches);
            Reloaded(once, [NamedFile(stem, Document(once.current.policies, raw))]).current == once.current
  {
    var once := Reloaded(s, matches);
    var saved := [NamedFile(stem, Document(once.current.policies, raw))];
    AcceptedAreUsableIff(matches, s.current.routes);
    if matches != [] {
      OneFile(stem, once.current.policies, raw);
      MergeIsIdempotent(Flatten(FilesOf(matches)));
    } else {
      assert saved[0] in saved;
    }
  }
}
