/** Discovery: what backends answer to a tool listing, and how the answers become one list of names. */
module Discovery {
  import opened Text
  import opened Domain
  import opened Outside

  // ---------------------------------------------------------------------
  // One backend's answer
  // ---------------------------------------------------------------------

  /** The names that can be read and are not empty. */
  function NamesOf(items: seq<Option<string>>): seq<string> {
    if items == [] then []
    else (if items[0].Some? && items[0].value != "" then [items[0].value] else []) + NamesOf(items[1..])
  }

  lemma {:induction false} NamesAreTheReadableOnes(items: seq<Option<string>>, t: string)
    ensures t in NamesOf(items) <==> t != "" && Some(t) in items
  {
    if items == [] {
    } else {
      NamesAreTheReadableOnes(items[1..], t);
      assert forall x :: x in items <==> x == items[0] || x in items[1..];
    }
  }

  /** What an answer's result lists: the array under "tools" of an object, or an array itself. */
  function ListedItems(result: ListResult): seq<Option<string>> {
    match result
    case ObjectResult(ToolArray(items)) => items
    case ArrayResult(items) => items
    case _ => []
  }

  /** The names that a backend advertises; `None` is an error, after which the backend is skipped. */
  function Advertised(listing: ListReply): Option<seq<string>> {
    match listing
    case Unreachable => None
    case Malformed => None
    case Answered(isError, result) => if isError then None else Some(NamesOf(ListedItems(result)))
  }

  /** A name that already has a "/" is left as it is. */
  function Qualify(prefix: string, tool: string): string {
    if '/' in tool then tool else prefix + "/" + tool
  }

  function QualifyAll(prefix: string, tools: seq<string>): (names: seq<string>)
    ensures |names| == |tools|
    ensures forall k | 0 <= k < |tools| :: names[k] == Qualify(prefix, tools[k])
  {
    seq(|tools|, k requires 0 <= k < |tools| => Qualify(prefix, tools[k]))
  }

  /** The qualified names that an event contributes. */
  function Contributed(e: Event): seq<string> {
    if e.ListTools? && Advertised(e.listing).Some? then QualifyAll(e.route.prefix, Advertised(e.listing).value) else []
  }

  function Flat<T>(lists: seq<seq<T>>): seq<T> {
    if lists == [] then [] else lists[0] + Flat(lists[1..])
  }

  function AllContributed(seg: seq<Event>): seq<string> {
    if seg == [] then [] else Contributed(seg[0]) + AllContributed(seg[1..])
  }

  lemma {:induction false} FlatConcat<T>(a: seq<seq<T>>, b: seq<seq<T>>)
    ensures Flat(a + b) == Flat(a) + Flat(b)
  {
    if a == [] {
      assert a + b == b;
    } else {
      assert (a + b)[0] == a[0] && (a + b)[1..] == a[1..] + b;
      FlatConcat(a[1..], b);
    }
  }

  /** Some backend listed `name`. */
  ghost predicate ListedBy(seg: seq<Event>, k: int, tool: string, name: string) {
    && 0 <= k < |seg| && seg[k].ListTools? && Advertised(seg[k].listing).Some?
    && tool in Advertised(seg[k].listing).value && name == Qualify(seg[k].route.prefix, tool)
  }

  lemma ContributedNames(e: Event, name: string)
    ensures name in Contributed(e) <==>
            e.ListTools? && Advertised(e.listing).Some? &&
            exists tool | tool in Advertised(e.listing).value :: name == Qualify(e.route.prefix, tool)
  {
    if e.ListTools? && Advertised(e.listing).Some? {
      var tools := Advertised(e.listing).value;
      var names := QualifyAll(e.route.prefix, tools);
      if name in names {
        var k :| 0 <= k < |names| && names[k] == name;
        assert tools[k] in tools;
      }
      if tool :| tool in tools && name == Qualify(e.route.prefix, tool) {
        var k :| 0 <= k < |tools| && tools[k] == tool;
        assert names[k] == name;
      }
    }
  }

  lemma ContributedAt(seg: seq<Event>, k: nat, name: string)
    requires k < |seg|
    ensures name in Contributed(seg[k]) <==> exists tool :: ListedBy(seg, k, tool, name)
  {
    ContributedNames(seg[k], name);
    if name in Contributed(seg[k]) {
      var tool :| tool in Advertised(seg[k].listing).value && name == Qualify(seg[k].route.prefix, tool);
      assert ListedBy(seg, k, tool, name);
    }
  }

  lemma {:induction false} ContributedSomewhere(seg: seq<Event>, name: string)
    ensures name in AllContributed(seg) <==> exists k | 0 <= k < |seg| :: name in Contributed(seg[k])
  {
    if seg == [] {
    } else {
      ContributedSomewhere(seg[1..], name);
      assert forall k | 1 <= k < |seg| :: seg[k] == seg[1..][k - 1];
      assert forall k | 0 <= k < |seg| - 1 :: seg[1..][k] == seg[k + 1];
    }
  }

  lemma ContributedIffListed(seg: seq<Event>, name: string)
    ensures name in AllContributed(seg) <==> exists k, tool :: ListedBy(seg, k, tool, name)
  {
    ContributedSomewhere(seg, name);
    forall k | 0 <= k < |seg| ensures name in Contributed(seg[k]) <==> exists tool :: ListedBy(seg, k, tool, name) {
      ContributedAt(seg, k, name);
    }
  }

  lemma {:induction false} ContributedConcat(a: seq<Event>, b: seq<Event>)
    ensures AllContributed(a + b) == AllContributed(a) + AllContributed(b)
  {
    if a == [] {
      assert a + b == b;
    } else {
      assert (a + b)[0] == a[0] && (a + b)[1..] == a[1..] + b;
      ContributedConcat(a[1..], b);
    }
  }

  lemma ContributesItsOwn(e: Event)
    ensures AllContributed([e]) == Contributed(e)
  {
    assert [e][1..] == [];
    assert Contributed(e) + [] == Contributed(e);
  }

  lemma ContributesNothing(e: Event)
    requires !e.ListTools?
    ensures AllContributed([e]) == []
  {
    ContributesItsOwn(e);
  }

  // ---------------------------------------------------------------------
  // First occurrences
  // ---------------------------------------------------------------------

  /** `xs` without the later occurrences of each name. */
  function Dedup(xs: seq<string>): seq<string>
    decreases |xs|
  {
    if xs == [] then []
    else
      var front, last := xs[..|xs| - 1], xs[|xs| - 1];
      if last in front then Dedup(front) else Dedup(front) + [last]
  }

  /** `x` stands before the first `y`. */
  ghost predicate Before(xs: seq<string>, x: string, y: string) {
    exists p | 0 <= p < |xs| :: xs[p] == x && y !in xs[..p + 1]
  }

  /** `r` holds each name of `xs` once, ordered by first occurrence. */
  ghost predicate FirstOccurrences(xs: seq<string>, r: seq<string>) {
    && Distinct(r)
    && Elems(r) == Elems(xs)
    && forall i, j | 0 <= i < j < |r| :: Before(xs, r[i], r[j])
  }

  lemma BeforeLater(xs: seq<string>, last: string, x: string, y: string)
    requires Before(xs, x, y)
    ensures Before(xs + [last], x, y)
  {
    var p :| 0 <= p < |xs| && xs[p] == x && y !in xs[..p + 1];
    assert (xs + [last])[..p + 1] == xs[..p + 1];
  }

  lemma BeforeNew(xs: seq<string>, x: string, last: string)
    requires x in xs && last !in xs
    ensures Before(xs + [last], x, last)
  {
    var p :| 0 <= p < |xs| && xs[p] == x;
    assert (xs + [last])[..p + 1] == xs[..p + 1];
    assert forall y | y in xs[..p + 1] :: y in xs;
  }

  lemma {:induction false} DedupIsFirstOccurrences(xs: seq<string>)
    ensures FirstOccurrences(xs, Dedup(xs))
    decreases |xs|
  {
    if xs == [] {
    } else {
      var front, last := xs[..|xs| - 1], xs[|xs| - 1];
      var r := Dedup(front);
      assert xs == front + [last];
      DedupIsFirstOccurrences(front);
      ElemsOfConcat(front, [last]);
      forall i, j | 0 <= i < j < |r| ensures Before(xs, r[i], r[j]) {
        BeforeLater(front, last, r[i], r[j]);
      }
      if last !in front {
        assert last !in Elems(r);
        forall i | 0 <= i < |r| ensures Before(xs, r[i], last) && r[i] != last {
          assert r[i] in Elems(r);
          BeforeNew(front, r[i], last);
        }
        ElemsOfConcat(r, [last]);
      }
    }
  }

  lemma BeforeIsOneWay(xs: seq<string>, x: string, y: string)
    requires Before(xs, x, y)
    ensures !Before(xs, y, x)
  {
    var p :| 0 <= p < |xs| && xs[p] == x && y !in xs[..p + 1];
    assert forall q | 0 <= q <= p :: xs[..p + 1][q] == xs[q];
    forall q | 0 <= q < |xs| && xs[q] == y ensures x in xs[..q + 1] {
      assert xs[..q + 1][p] == x;
    }
  }

  lemma {:induction false} OneOrder(xs: seq<string>, a: seq<string>, b: seq<string>)
    requires Distinct(a) && Distinct(b) && Elems(a) == Elems(b)
    requires forall i, j | 0 <= i < j < |a| :: Before(xs, a[i], a[j])
    requires forall i, j | 0 <= i < j < |b| :: Before(xs, b[i], b[j])
    ensures a == b
  {
    ElemsOfEmpty(a);
    ElemsOfEmpty(b);
    if a == [] {
    } else {
      SameHead(xs, a, b);
      TailWithout(a);
      TailWithout(b);
      OneOrder(xs, a[1..], b[1..]);
      assert a == [a[0]] + a[1..] && b == [b[0]] + b[1..];
    }
  }

  lemma SameHead(xs: seq<string>, a: seq<string>, b: seq<string>)
    requires a != [] && b != [] && Elems(a) == Elems(b)
    requires forall i, j | 0 <= i < j < |a| :: Before(xs, a[i], a[j])
    requires forall i, j | 0 <= i < j < |b| :: Before(xs, b[i], b[j])
    ensures a[0] == b[0]
  {
    assert b[0] in Elems(a) && a[0] in Elems(b);
    var i :| 0 <= i < |a| && a[i] == b[0];
    var j :| 0 <= j < |b| && b[j] == a[0];
    if i != 0 && j != 0 {
      assert Before(xs, a[0], a[i]) && Before(xs, b[0], b[j]);
      BeforeIsOneWay(xs, a[0], b[0]);
    }
  }

  lemma TailWithout(a: seq<string>)
    requires Distinct(a) && a != []
    ensures Elems(a[1..]) == Elems(a) - {a[0]}
  {
    assert a == [a[0]] + a[1..];
    ElemsOfConcat([a[0]], a[1..]);
    assert forall k | 0 <= k < |a[1..]| :: a[1..][k] == a[k + 1];
  }

  /** Being the list of first occurrences determines the list. */
  lemma DedupIsTheOnlyOne(xs: seq<string>, r: seq<string>)
    ensures FirstOccurrences(xs, r) <==> r == Dedup(xs)
  {
    DedupIsFirstOccurrences(xs);
    if FirstOccurrences(xs, r) {
      OneOrder(xs, r, Dedup(xs));
    }
  }

  lemma DedupElems(xs: seq<string>)
    ensures Elems(Dedup(xs)) == Elems(xs)
  {
    DedupIsFirstOccurrences(xs);
  }

  ghost predicate Deduped(xs: seq<string>, all: seq<string>, seen: set<string>) {
    all == Dedup(xs) && seen == Elems(all)
  }

  lemma AddOne(xs: seq<string>, all: seq<string>, seen: set<string>, x: string)
    requires Deduped(xs, all, seen)
    ensures if x in seen then Deduped(xs + [x], all, seen) else Deduped(xs + [x], all + [x], seen + {x})
  {
    DedupElems(xs);
    assert x in Elems(xs) <==> x in xs;
    assert (xs + [x])[..|xs|] == xs;
    ElemsOfConcat(all, [x]);
  }

  // ---------------------------------------------------------------------
  // Transcripts
  // ---------------------------------------------------------------------

  /** One route: a credential for it and, when there is one, a listing under that credential. */
  ghost predicate RouteTranscript(seg: seq<Event>, route: RouteEntry, who: Option<Identity>) {
    && |seg| >= 1
    && if route.oboProvider != "" && who.Some? then
         && seg[0].TokenGet? && seg[0].user == who.value.userID && seg[0].provider == route.oboProvider
         && match seg[0].found
            case Err(_) => |seg| == 1
            case Ok(uat) => ListingTranscript(seg, route, uat.accessToken)
       else
         && seg[0].Credential? && seg[0].prefix == route.prefix
         && match seg[0].secret
            case None => |seg| == 1
            case Some(secret) => ListingTranscript(seg, route, secret)
  }

  ghost predicate ListingTranscript(seg: seq<Event>, route: RouteEntry, credential: string) {
    |seg| == 2 && seg[1].ListTools? && seg[1].route == route && seg[1].credential == credential
  }

  ghost predicate PerRoute(parts: seq<seq<Event>>, routes: seq<RouteEntry>, who: Option<Identity>) {
    |parts| == |routes| && forall i | 0 <= i < |routes| :: RouteTranscript(parts[i], routes[i], who)
  }

  /** The routes are asked in order, each once. */
  ghost predicate RoutesTranscript(seg: seq<Event>, routes: seq<RouteEntry>, who: Option<Identity>) {
    exists parts :: seg == Flat(parts) && PerRoute(parts, routes, who)
  }

  /** The caller, if they could be resolved. */
  function Known(who: Result<Identity, Failure>): Option<Identity> {
    match who
    case Ok(caller) => Some(caller)
    case Err(_) => None
  }

  /** With a store the caller is resolved once more; a failure only means that no user token is used. */
  ghost predicate AggregateTranscript(seg: seq<Event>, ctx: Context, routes: seq<RouteEntry>, hasStore: bool) {
    if hasStore then
      && |seg| >= 1 && seg[0].Resolve? && seg[0].ctx == ctx
      && RoutesTranscript(seg[1..], routes, Known(seg[0].who))
    else
      RoutesTranscript(seg, routes, None)
  }

  lemma OneMoreRoute(parts: seq<seq<Event>>, part: seq<Event>, routes: seq<RouteEntry>, i: nat, who: Option<Identity>)
    requires i < |routes| && PerRoute(parts, routes[..i], who) && RouteTranscript(part, routes[i], who)
    ensures PerRoute(parts + [part], routes[..i + 1], who)
    ensures Flat(parts + [part]) == Flat(parts) + part
    ensures AllContributed(Flat(parts) + part) == AllContributed(Flat(parts)) + AllContributed(part)
  {
    FlatConcat(parts, [part]);
    assert [part][1..] == [];
    assert Flat([part]) == part + Flat<Event>([]);
    ContributedConcat(Flat(parts), part);
  }

  /** What the first routes contributed is collected, each name once. */
  ghost predicate Collected(parts: seq<seq<Event>>, seg: seq<Event>, routes: seq<RouteEntry>, who: Option<Identity>,
                            all: seq<string>, seen: set<string>) {
    seg == Flat(parts) && PerRoute(parts, routes, who) && Deduped(AllContributed(seg), all, seen)
  }

  lemma CollectNothing(routes: seq<RouteEntry>, who: Option<Identity>)
    ensures Collected([], [], routes[..0], who, [], {})
  {
  }

  lemma CollectMore(parts: seq<seq<Event>>, seg: seq<Event>, part: seq<Event>, routes: seq<RouteEntry>, i: nat,
                    who: Option<Identity>, all: seq<string>, seen: set<string>)
    requires i < |routes| && seg == Flat(parts) && PerRoute(parts, routes[..i], who)
    requires RouteTranscript(part, routes[i], who)
    requires Deduped(AllContributed(seg) + AllContributed(part), all, seen)
    ensures Collected(parts + [part], seg + part, routes[..i + 1], who, all, seen)
  {
    OneMoreRoute(parts, part, routes, i, who);
  }

  lemma AfterResolve(ctx: Context, who: Result<Identity, Failure>, rest: seq<Event>, seg: seq<Event>,
                     routes: seq<RouteEntry>, all: seq<string>)
    requires RoutesTranscript(rest, routes, Known(who))
    requires seg == [Resolve(ctx, who)] + rest && all == Dedup(AllContributed(rest))
    ensures AggregateTranscript(seg, ctx, routes, true) && all == Dedup(AllContributed(seg))
  {
    assert seg[1..] == rest;
    ContributedConcat([Resolve(ctx, who)], rest);
    ContributesNothing(Resolve(ctx, who));
    assert [] + AllContributed(rest) == AllContributed(rest);
  }

  /** Event `k` lists the tools of a configured route, and the event before it gave the credential for exactly that. */
  ghost predicate ListingJustified(seg: seq<Event>, k: int, routes: seq<RouteEntry>, who: Option<Identity>) {
    && 1 <= k < |seg| && seg[k].ListTools? && seg[k].route in routes
    && var r := seg[k].route;
       if r.oboProvider != "" && who.Some? then
         exists uat: TokenPair ::
             seg[k - 1] == TokenGet(who.value.userID, r.oboProvider, Ok(uat)) && seg[k].credential == uat.accessToken
       else
         seg[k - 1] == Credential(r.prefix, Some(seg[k].credential))
  }

  lemma RouteListing(seg: seq<Event>, route: RouteEntry, who: Option<Identity>, routes: seq<RouteEntry>)
    requires RouteTranscript(seg, route, who) && route in routes
    ensures 1 <= |seg| <= 2 && !seg[0].ListTools? && forall k | 0 <= k < |seg| :: !seg[k].Contact? && !seg[k].Evaluate?
    ensures |seg| == 2 ==> ListingJustified(seg, 1, routes, who)
  {
  }

  ghost predicate AllListingsJustified(seg: seq<Event>, routes: seq<RouteEntry>, who: Option<Identity>) {
    forall k | 0 <= k < |seg| ::
      !seg[k].Contact? && !seg[k].Evaluate? && (seg[k].ListTools? ==> ListingJustified(seg, k, routes, who))
  }

  lemma JustifiedTogether(a: seq<Event>, b: seq<Event>, routes: seq<RouteEntry>, who: Option<Identity>)
    requires AllListingsJustified(a, routes, who) && AllListingsJustified(b, routes, who)
    ensures AllListingsJustified(a + b, routes, who)
  {
    var seg := a + b;
    forall k | 0 <= k < |seg|
      ensures !seg[k].Contact? && !seg[k].Evaluate? && (seg[k].ListTools? ==> ListingJustified(seg, k, routes, who))
    {
      if k < |a| {
        assert seg[k] == a[k] && (k >= 1 ==> seg[k - 1] == a[k - 1]);
      } else {
        assert seg[k] == b[k - |a|];
        assert k > |a| ==> seg[k - 1] == b[k - |a| - 1];
      }
    }
  }

  lemma {:induction false} PartsAreJustified(parts: seq<seq<Event>>, routes: seq<RouteEntry>, who: Option<Identity>)
    requires forall part | part in parts :: AllListingsJustified(part, routes, who)
    ensures AllListingsJustified(Flat(parts), routes, who)
  {
    if parts == [] {
    } else {
      assert parts[0] in parts;
      PartsAreJustified(parts[1..], routes, who);
      JustifiedTogether(parts[0], Flat(parts[1..]), routes, who);
    }
  }

  /** Every listing is made with the credential of its own route: for an on-behalf-of route of a known caller the
      token stored for that caller and the route's provider, otherwise the service credential. */
  lemma ListingsAreJustified(seg: seq<Event>, routes: seq<RouteEntry>, who: Option<Identity>)
    requires RoutesTranscript(seg, routes, who)
    ensures AllListingsJustified(seg, routes, who)
  {
    var parts :| seg == Flat(parts) && PerRoute(parts, routes, who);
    forall part | part in parts ensures AllListingsJustified(part, routes, who) {
      var i :| 0 <= i < |parts| && parts[i] == part;
      RouteListing(part, routes[i], who, routes);
    }
    PartsAreJustified(parts, routes, who);
  }

  // ---------------------------------------------------------------------
  // Every route is asked, and every listing that can be made is made
  // ---------------------------------------------------------------------

  /** The event asks for the credential of this route: for an on-behalf-of route of a known caller their stored token,
      otherwise the service credential. */
  ghost predicate AsksFor(e: Event, route: RouteEntry, who: Option<Identity>) {
    if route.oboProvider != "" && who.Some? then
      e.TokenGet? && e.user == who.value.userID && e.provider == route.oboProvider
    else
      e.Credential? && e.prefix == route.prefix
  }

  /** The credential that such an event gave. */
  function Given(e: Event): Option<string> {
    match e
    case TokenGet(_, _, Ok(pair)) => Some(pair.accessToken)
    case Credential(_, secret) => secret
    case _ => None
  }

  /** At position `p` the route is asked about, and, if that gave a credential, its tools are listed under it at
      once. */
  ghost predicate AskedAt(seg: seq<Event>, p: int, route: RouteEntry, who: Option<Identity>) {
    && 0 <= p < |seg| && AsksFor(seg[p], route, who)
    && (Given(seg[p]).Some? ==>
          && p + 1 < |seg| && seg[p + 1].ListTools? && seg[p + 1].route == route
          && seg[p + 1].credential == Given(seg[p]).value)
  }

  /** `at` is where each route is asked about: one after the other, from the first event to the last, with
      nothing else in between. */
  ghost predicate AskedInOrder(seg: seq<Event>, routes: seq<RouteEntry>, who: Option<Identity>, at: seq<int>) {
    && |at| == |routes| + 1 && at[0] == 0 && at[|routes|] == |seg|
    && forall i | 0 <= i < |routes| ::
         AskedAt(seg, at[i], routes[i], who) && at[i + 1] == at[i] + if Given(seg[at[i]]).Some? then 2 else 1
  }

  lemma AskedStays(a: seq<Event>, b: seq<Event>, p: int, route: RouteEntry, who: Option<Identity>)
    requires AskedAt(a, p, route, who)
    ensures AskedAt(a + b, p, route, who) && (a + b)[p] == a[p]
  {
  }

  lemma OneMorePart(front: seq<seq<Event>>, last: seq<Event>)
    ensures Flat(front + [last]) == Flat(front) + last
  {
    FlatConcat(front, [last]);
    assert [last][1..] == [];
    assert Flat([last]) == last + Flat<Event>([]);
  }

  /** One more route, asked about after all the others. */
  lemma AskOneMore(front: seq<Event>, last: seq<Event>, routes: seq<RouteEntry>, n: nat, who: Option<Identity>,
                   before: seq<int>)
    requires |routes| == n + 1 && AskedInOrder(front, routes[..n], who, before)
    requires RouteTranscript(last, routes[n], who)
    ensures AskedInOrder(front + last, routes, who, before + [|front + last|])
  {
    var at := before + [|front + last|];
    LastAsked(front, last, routes[n], who);
    forall i | 0 <= i < n
      ensures AskedAt(front + last, at[i], routes[i], who) && (front + last)[at[i]] == front[before[i]]
    {
      assert AskedAt(front, before[i], routes[..n][i], who);
      AskedStays(front, last, at[i], routes[i], who);
    }
  }

  lemma {:induction false} PartsAreAskedInOrder(parts: seq<seq<Event>>, routes: seq<RouteEntry>, who: Option<Identity>)
    returns (at: seq<int>)
    requires PerRoute(parts, routes, who)
    ensures AskedInOrder(Flat(parts), routes, who, at)
  {
    if parts == [] {
      at := [0];
    } else {
      var n := |parts| - 1;
      var front, last := parts[..n], parts[n];
      var before := PartsAreAskedInOrder(front, routes[..n], who);
      assert front + [last] == parts;
      OneMorePart(front, last);
      AskOneMore(Flat(front), last, routes, n, who, before);
      at := before + [|Flat(parts)|];
    }
  }

  lemma LastAsked(front: seq<Event>, last: seq<Event>, route: RouteEntry, who: Option<Identity>)
    requires RouteTranscript(last, route, who)
    ensures AskedAt(front + last, |front|, route, who)
    ensures |last| == if Given((front + last)[|front|]).Some? then 2 else 1
  {
    assert (front + last)[|front|] == last[0];
    assert |last| == 2 ==> (front + last)[|front| + 1] == last[1];
  }

  /** Each route is asked about once, in route order, and listed whenever that gives a credential. */
  lemma RoutesAreAskedInOrder(seg: seq<Event>, routes: seq<RouteEntry>, who: Option<Identity>) returns (at: seq<int>)
    requires RoutesTranscript(seg, routes, who)
    ensures AskedInOrder(seg, routes, who, at)
  {
    var parts :| seg == Flat(parts) && PerRoute(parts, routes, who);
    at := PartsAreAskedInOrder(parts, routes, who);
  }

  /** The reply lists a tool object from which this name can be read. */
  predicate Lists(listing: ListReply, t: string) {
    && listing.Answered? && !listing.isError
    && ((listing.result.ObjectResult? && listing.result.tools.ToolArray? && Some(t) in listing.result.tools.items)
        || (listing.result.ArrayResult? && Some(t) in listing.result.items))
  }

  lemma AdvertisedIff(listing: ListReply, t: string)
    ensures Advertised(listing).Some? && t in Advertised(listing).value <==> Lists(listing, t) && t != ""
  {
    if listing.Answered? {
      NamesAreTheReadableOnes(ListedItems(listing.result), t);
    }
  }

  /** Event `k` is a listing in which this tool is named, and `name` is that, qualified unless it has a "/". */
  ghost predicate NamedAt(seg: seq<Event>, k: int, t: string, name: string) {
    && 0 <= k < |seg| && seg[k].ListTools? && Lists(seg[k].listing, t) && t != ""
    && name == if '/' in t then t else seg[k].route.prefix + "/" + t
  }

  /** The aggregated names are exactly the qualified names of the tools that the replies list. */
  lemma AggregatedIff(seg: seq<Event>, name: string)
    ensures name in Dedup(AllContributed(seg)) <==> exists k, t :: NamedAt(seg, k, t, name)
  {
    ContributedIffListed(seg, name);
    DedupElems(AllContributed(seg));
    assert name in Dedup(AllContributed(seg)) <==> name in Elems(Dedup(AllContributed(seg)));
    forall k, t ensures ListedBy(seg, k, t, name) <==> NamedAt(seg, k, t, name) {
      if 0 <= k < |seg| && seg[k].ListTools? {
        AdvertisedIff(seg[k].listing, t);
      }
    }
  }

  /** So whatever a backend lists whose credential was there is among the aggregated names. */
  lemma ReachableIsAggregated(seg: seq<Event>, routes: seq<RouteEntry>, who: Option<Identity>, at: seq<int>, i: nat,
                              t: string)
    requires AskedInOrder(seg, routes, who, at) && i < |routes| && Given(seg[at[i]]).Some?
    requires Lists(seg[at[i] + 1].listing, t) && t != ""
    ensures (if '/' in t then t else routes[i].prefix + "/" + t) in Dedup(AllContributed(seg))
  {
    var name := if '/' in t then t else routes[i].prefix + "/" + t;
    assert NamedAt(seg, at[i] + 1, t, name);
    AggregatedIff(seg, name);
  }

  ghost predicate DiscoveryTranscript(seg: seq<Event>, ctx: Context, id: string, routes: seq<RouteEntry>,
                                      hasStore: bool, resp: Response) {
    && |seg| >= 1 && seg[0].Resolve? && seg[0].ctx == ctx
    && match seg[0].who
       case Err(why) => |seg| == 1 && resp == ErrorResponse(id, IdentityErrorCode(why))
       case Ok(caller) => |seg| >= 2 && ListTranscript(seg[1..], ctx, caller, id, routes, hasStore, resp)
  }

  ghost predicate ListTranscript(seg: seq<Event>, ctx: Context, caller: Identity, id: string, routes: seq<RouteEntry>,
                                 hasStore: bool, resp: Response)
    requires seg != []
  {
    var n := |seg| - 1;
    && AggregateTranscript(seg[..n], ctx, routes, hasStore)
    && seg[n].Filter? && seg[n].caller == caller && seg[n].names == Dedup(AllContributed(seg[..n]))
    && resp == match seg[n].kept
               case None => ErrorResponse(id, SERVICE_UNAVAILABLE)
               case Some(kept) => ToolNames(id, kept)
  }
}
