/** Route lookup and the cross-file check of policy patterns against the routes. */
module Routing {
  import opened Text
  import opened Glob
  import opened Domain

  predicate Routed(routes: seq<RouteEntry>, prefix: string) {
    exists r | r in routes :: r.prefix == prefix
  }

  /** The first route whose prefix is the leading segment of `name`. */
  function FindRoute(routes: seq<RouteEntry>, name: string): (found: Option<RouteEntry>)
    ensures found.Some? <==> Routed(routes, ToolPrefix(name))
    ensures found.Some? ==> found.value in routes && found.value.prefix == ToolPrefix(name)
  {
    if routes == [] then None
    else if routes[0].prefix == ToolPrefix(name) then Some(routes[0])
    else
      assert forall r :: r in routes <==> r == routes[0] || r in routes[1..];
      FindRoute(routes[1..], name)
  }

  /** Of several routes with the prefix it is the first. */
  lemma {:induction false} FindRouteIsFirst(routes: seq<RouteEntry>, name: string, i: nat)
    requires i < |routes| && routes[i].prefix == name[..IndexOf(name, '/')]
    requires forall j | 0 <= j < i :: routes[j].prefix != name[..IndexOf(name, '/')]
    ensures FindRoute(routes, name) == Some(routes[i])
  {
    if i == 0 {
    } else {
      assert routes[0].prefix != name[..IndexOf(name, '/')];
      assert forall j | 0 <= j < i - 1 :: routes[1..][j] == routes[j + 1];
      FindRouteIsFirst(routes[1..], name, i - 1);
    }
  }

  ghost predicate DistinctPrefixes(routes: seq<RouteEntry>) {
    forall i, j | 0 <= i < j < |routes| :: routes[i].prefix != routes[j].prefix
  }

  /** With pairwise distinct prefixes, a route is found under any name with its prefix. */
  lemma FindsTheRoute(routes: seq<RouteEntry>, r: RouteEntry, name: string)
    requires DistinctPrefixes(routes) && r in routes && ToolPrefix(name) == r.prefix
    ensures FindRoute(routes, name) == Some(r)
  {
    var found := FindRoute(routes, name).value;
    var i :| 0 <= i < |routes| && routes[i] == r;
    var j :| 0 <= j < |routes| && routes[j] == found;
    assert i == j;
  }

  /** Every pattern of an entry, in the order in which the check reads them. */
  function Patterns(p: PolicyEntry): seq<string> {
    p.allowed + p.denied
  }

  lemma PatternsAreAllThenDenied(p: PolicyEntry, k: nat)
    requires k < |p.allowed| + |p.denied|
    ensures |Patterns(p)| == |p.allowed| + |p.denied|
    ensures Patterns(p)[k] == if k < |p.allowed| then p.allowed[k] else p.denied[k - |p.allowed|]
  {
  }

  predicate AllRouted(ps: seq<PolicyEntry>, routes: seq<RouteEntry>) {
    forall p | p in ps :: forall x | x in Patterns(p) :: Routed(routes, ToolPrefix(x))
  }

  /** Position `(i, k)` is the first pattern, in reading order, whose prefix no route has. */
  ghost predicate FirstUnrouted(ps: seq<PolicyEntry>, routes: seq<RouteEntry>, i: nat, k: nat) {
    && i < |ps| && k < |Patterns(ps[i])|
    && !Routed(routes, ToolPrefix(Patterns(ps[i])[k]))
    && AllRouted(ps[..i], routes)
    && forall l | 0 <= l < k :: Routed(routes, ToolPrefix(Patterns(ps[i])[l]))
  }

  /** `validatePolicyRoutes`: no error exactly when every pattern's prefix is a route prefix;
      otherwise the group and pattern of the first offender. */
  method ValidatePolicyRoutes(ps: seq<PolicyEntry>, routes: seq<RouteEntry>) returns (err: Option<(string, string)>)
    ensures err.None? <==> AllRouted(ps, routes)
    ensures err.Some? ==> exists i: nat, k: nat ::
              FirstUnrouted(ps, routes, i, k) && err.value == (ps[i].group, Patterns(ps[i])[k])
  {
    var prefixSet: set<string> := {};
    for i := 0 to |routes|
      invariant forall x :: x in prefixSet <==> Routed(routes[..i], x)
    {
      prefixSet := prefixSet + {routes[i].prefix};
      assert routes[..i + 1] == routes[..i] + [routes[i]];
    }
    assert routes[..|routes|] == routes;
    for i := 0 to |ps|
      invariant AllRouted(ps[..i], routes)
    {
      var all := Patterns(ps[i]);
      for k := 0 to |all|
        invariant forall l | 0 <= l < k :: Routed(routes, ToolPrefix(all[l]))
      {
        if ToolPrefix(all[k]) !in prefixSet {
          assert FirstUnrouted(ps, routes, i, k);
          assert ps[i] in ps && all[k] in Patterns(ps[i]);
          return Some((ps[i].group, all[k]));
        }
      }
      assert ps[..i + 1] == ps[..i] + [ps[i]];
    }
    assert ps[..|ps|] == ps;
    return None;
  }

  ghost predicate PlainPrefixes(routes: seq<RouteEntry>) {
    forall r | r in routes :: !HasMeta(r.prefix)
  }

  /** Validated implies routable: a name matched by any pattern of a validated policy has a route. */
  lemma ValidatedIsRoutable(ps: seq<PolicyEntry>, routes: seq<RouteEntry>, p: PolicyEntry, x: string, name: string)
    requires AllRouted(ps, routes) && PlainPrefixes(routes)
    requires p in ps && x in Patterns(p) && GlobMatch(x, name)
    ensures FindRoute(routes, name).Some?
  {
    PrefixIsPinned(x);
  }

  ghost predicate StaysRouted(x: string, routes: seq<RouteEntry>, name: string) {
    Routed(routes, ToolPrefix(x)) && GlobMatch(x, name) ==> Routed(routes, ToolPrefix(name))
  }

  /** A pattern that passes the check matches only routable names, whatever the routes,
      exactly when its prefix holds no wildcard. */
  lemma RoutabilityNeedsPlainPrefix(x: string)
    ensures (forall routes, name :: StaysRouted(x, routes, name)) <==> !HasMeta(ToolPrefix(x))
  {
    PrefixIsPinned(x);
    if HasMeta(ToolPrefix(x)) {
      var name :| GlobMatch(x, name) && ToolPrefix(name) != ToolPrefix(x);
      var routes := [RouteEntry(ToolPrefix(x), "", "", "")];
      assert routes[0].prefix == ToolPrefix(x);
      assert !StaysRouted(x, routes, name);
    }
  }
}
