/** Whether some tool name of a given operation is matched by one set of patterns and by none of another: a walk
    over all the patterns at once, letter by letter, that visits finitely many states. */
module PatternSearch {
  import opened Text
  import opened Glob
  import opened Rego

  predicate Matches(ps: set<string>, s: string) {
    exists p | p in ps :: GlobMatch(p, s)
  }

  // ---------------------------------------------------------------------
  // What remains of patterns after one letter
  // ---------------------------------------------------------------------

  function After(p: string, c: char): set<string> {
    if p == [] then {}
    else if p[0] == '*' then After(p[1..], c) + (if c != '/' then {p} else {})
    else if (p[0] == '?' && c != '/') || (!IsMeta(p[0]) && p[0] == c) then {p[1..]}
    else {}
  }

  function AfterAll(ps: set<string>, c: char): set<string> {
    set p, q | p in ps && q in After(p, c) :: q
  }

  lemma StarTakes(p: string, c: char, s: string)
    requires p != [] && p[0] == '*'
    ensures GlobMatch(p, [c] + s) <==> GlobMatch(p[1..], [c] + s) || (c != '/' && GlobMatch(p, s))
  {
    assert ([c] + s)[1..] == s;
  }

  lemma {:induction false} AfterIsTheRest(p: string, c: char, s: string)
    ensures GlobMatch(p, [c] + s) <==> exists q | q in After(p, c) :: GlobMatch(q, s)
  {
    assert ([c] + s)[1..] == s;
    if p == [] {
    } else if p[0] == '*' {
      AfterIsTheRest(p[1..], c, s);
      StarTakes(p, c, s);
      if GlobMatch(p[1..], [c] + s) {
        var q :| q in After(p[1..], c) && GlobMatch(q, s);
        assert q in After(p, c);
      } else if GlobMatch(p, [c] + s) {
        assert p in After(p, c);
      }
    } else if (p[0] == '?' && c != '/') || (!IsMeta(p[0]) && p[0] == c) {
      assert After(p, c) == {p[1..]};
      assert GlobMatch(p, [c] + s) <==> GlobMatch(p[1..], s);
    }
  }

  lemma AfterAllIsTheRest(ps: set<string>, c: char, s: string)
    ensures Matches(ps, [c] + s) <==> Matches(AfterAll(ps, c), s)
  {
    if p :| p in ps && GlobMatch(p, [c] + s) {
      AfterIsTheRest(p, c, s);
      var q :| q in After(p, c) && GlobMatch(q, s);
      assert q in AfterAll(ps, c);
    }
    if q :| q in AfterAll(ps, c) && GlobMatch(q, s) {
      var p :| p in ps && q in After(p, c);
      AfterIsTheRest(p, c, s);
      assert GlobMatch(p, [c] + s);
    }
  }

  function Suffixes(p: string): set<string> {
    {p} + if p == [] then {} else Suffixes(p[1..])
  }

  function AllSuffixes(ps: set<string>): set<string> {
    set p, q | p in ps && q in Suffixes(p) :: q
  }

  lemma {:induction false} SuffixOfSuffix(p: string, q: string)
    requires q in Suffixes(p)
    ensures Suffixes(q) <= Suffixes(p)
  {
    if q == p {
    } else {
      SuffixOfSuffix(p[1..], q);
    }
  }

  lemma {:induction false} AfterIsSuffix(p: string, c: char)
    ensures After(p, c) <= Suffixes(p)
  {
    if p == [] {
    } else {
      AfterIsSuffix(p[1..], c);
      assert p[1..] in Suffixes(p[1..]);
    }
  }

  lemma AfterAllStays(base: set<string>, ps: set<string>, c: char)
    requires ps <= AllSuffixes(base)
    ensures AfterAll(ps, c) <= AllSuffixes(base)
  {
    forall q | q in AfterAll(ps, c) ensures q in AllSuffixes(base) {
      var p :| p in ps && q in After(p, c);
      var b :| b in base && p in Suffixes(b);
      AfterIsSuffix(p, c);
      SuffixOfSuffix(b, p);
    }
  }

  // ---------------------------------------------------------------------
  // Reading the operation
  // ---------------------------------------------------------------------

  /** What has been read of the own part so far, while a known verb may still come of it; a known verb once it is
      complete. */
  datatype Reading = Reading(slashed: bool, verb: Option<string>)

  predicate IsStart(w: string) {
    exists v | v in KNOWN :: HasPrefix(v, w)
  }

  function Dash(c: char): char {
    if c == '_' then '-' else c
  }

  function Follow(verb: Option<string>, c: char): Option<string> {
    match verb
    case None => None
    case Some(v) =>
      if v in KNOWN then verb
      else if IsStart(v + [c]) then Some(v + [c])
      else None
  }

  function FollowAll(verb: Option<string>, t: string): Option<string>
    decreases |t|
  {
    if t == [] then verb else FollowAll(Follow(verb, t[0]), t[1..])
  }

  /** The first "/" starts the own part. */
  function Read(r: Reading, c: char): Reading {
    if c == '/' && !r.slashed then Reading(true, Some("")) else Reading(r.slashed, Follow(r.verb, Dash(c)))
  }

  function ReadAll(r: Reading, s: string): Reading
    decreases |s|
  {
    if s == [] then r else ReadAll(Read(r, s[0]), s[1..])
  }

  const UNREAD := Reading(false, Some(""))

  function OperationOf(r: Reading): string {
    match r.verb
    case None => ""
    case Some(v) =>
      if v in READ_PREFIXES then "read"
      else if v in WRITE_PREFIXES then "write"
      else if v in DELETE_PREFIXES then "delete"
      else ""
  }

  lemma KnownVerbs()
    ensures forall v | v in KNOWN :: IsVerbPrefix(v)
    ensures forall v :: v in KNOWN <==> v in READ_PREFIXES || v in WRITE_PREFIXES || v in DELETE_PREFIXES
  {
    ReadVerbs();
    WriteVerbs();
    DeleteVerbs();
  }

  lemma OneVerbStarts(s: string, v: string, w: string)
    requires v in KNOWN && w in KNOWN && HasPrefix(s, v) && HasPrefix(s, w)
    ensures v == w
  {
    KnownVerbs();
    VerbDecides(s, v);
    VerbDecides(s, w);
  }

  lemma PrefixOfPrefix(a: string, b: string, s: string)
    requires HasPrefix(b, a) && HasPrefix(s, b)
    ensures HasPrefix(s, a)
  {
    assert s[..|a|] == b[..|a|];
  }

  lemma NoVerbInVerb(w: string, v: string)
    requires v in KNOWN && w in KNOWN && HasPrefix(w, v)
    ensures v == w
  {
    assert w[..|w|] == w;
    OneVerbStarts(w, v, w);
  }

  lemma Completion(u: string) returns (w: string)
    requires IsStart(u)
    ensures w in KNOWN && HasPrefix(w, u)
  {
    w :| w in KNOWN && HasPrefix(w, u);
  }

  lemma MutualPrefixes(a: string, b: string)
    requires HasPrefix(a, b) && HasPrefix(b, a)
    ensures a == b
  {
  }

  /** A start that holds a known verb is that verb. */
  lemma StartHoldsOnlyItself(u: string, v: string)
    requires IsStart(u) && v in KNOWN
    ensures HasPrefix(u, v) ==> u == v
  {
    if HasPrefix(u, v) {
      var w := Completion(u);
      PrefixOfPrefix(v, u, w);
      NoVerbInVerb(w, v);
      MutualPrefixes(u, v);
    }
  }

  lemma {:induction false} CompleteStays(v: string, t: string)
    requires v in KNOWN
    ensures FollowAll(Some(v), t) == Some(v)
  {
    if t == [] {
    } else {
      CompleteStays(v, t[1..]);
    }
  }

  lemma {:induction false} DeadStays(t: string)
    ensures FollowAll(None, t) == None
  {
    if t == [] {
    } else {
      DeadStays(t[1..]);
    }
  }

  lemma {:induction false} FollowsToVerb(u: string, t: string, v: string)
    requires IsStart(u) && u !in KNOWN && v in KNOWN
    ensures FollowAll(Some(u), t) == Some(v) <==> HasPrefix(u + t, v)
    decreases |t|
  {
    StartHoldsOnlyItself(u, v);
    if t == [] {
      assert u + t == u;
    } else {
      var w, rest := u + [t[0]], t[1..];
      assert w + rest == u + t;
      if w in KNOWN {
        assert HasPrefix(w, w) && HasPrefix(w + rest, w);
        CompleteStays(w, rest);
        if HasPrefix(u + t, v) {
          OneVerbStarts(u + t, v, w);
        }
      } else if IsStart(w) {
        FollowsToVerb(w, rest, v);
      } else {
        DeadStays(rest);
        LongVerbIsStart(u, w, rest, v);
      }
    }
  }

  lemma PrefixesCompare(s: string, a: string, b: string)
    ensures HasPrefix(s, a) && HasPrefix(s, b) ==> if |a| <= |b| then HasPrefix(b, a) else HasPrefix(a, b)
  {
    if HasPrefix(s, a) && HasPrefix(s, b) {
      if |a| <= |b| {
        assert b[..|a|] == s[..|a|];
      } else {
        assert a[..|b|] == s[..|b|];
      }
    }
  }

  lemma LongVerbIsStart(u: string, w: string, rest: string, v: string)
    requires v in KNOWN && |w| == |u| + 1 && HasPrefix(w, u) && !HasPrefix(u, v) && !IsStart(w)
    ensures !HasPrefix(w + rest, v)
  {
    PrefixesCompare(w + rest, v, w);
    PrefixesCompare(w + rest, v, u);
  }

  lemma {:induction false} ReadsOn(r: Reading, s: string)
    requires r.slashed || '/' !in s
    ensures ReadAll(r, s) == Reading(r.slashed, FollowAll(r.verb, Dashed(s)))
    decreases |s|
  {
    if s == [] {
    } else {
      assert s[0] in s && forall c | c in s[1..] :: c in s;
      DashedHeadAndTail(s);
      ReadsOn(Read(r, s[0]), s[1..]);
    }
  }

  lemma DashedHeadAndTail(s: string)
    requires s != []
    ensures Dashed(s)[0] == Dash(s[0]) && Dashed(s)[1..] == Dashed(s[1..])
  {
  }

  lemma {:induction false} ReadInParts(r: Reading, a: string, b: string)
    ensures ReadAll(r, a + b) == ReadAll(ReadAll(r, a), b)
    decreases |a|
  {
    if a == [] {
      assert a + b == b;
    } else {
      assert (a + b)[0] == a[0] && (a + b)[1..] == a[1..] + b;
      ReadInParts(Read(r, a[0]), a[1..], b);
    }
  }

  /** Reading a whole name follows exactly its normalised own part. */
  lemma ReadsOwnPart(name: string)
    ensures ReadAll(UNREAD, name).verb == FollowAll(Some(""), Normalised(name))
  {
    var i := IndexOf(name, '/');
    if i == |name| {
      ReadsOn(UNREAD, name);
    } else {
      var head, rest := name[..i], name[i + 1..];
      assert name == head + (['/'] + rest);
      ReadInParts(UNREAD, head, ['/'] + rest);
      ReadsOn(UNREAD, head);
      assert (['/'] + rest)[1..] == rest;
      ReadsOn(Reading(true, Some("")), rest);
    }
  }

  lemma NothingIsStart()
    ensures IsStart("") && "" !in KNOWN
  {
    KnownVerbs();
    var v := KNOWN[0];
    assert v in KNOWN && HasPrefix(v, "");
  }

  /** Following a string from its start ends in the verb that the string has, if that is a known one. */
  lemma FollowsVerb(n: string, v: string)
    requires v in KNOWN
    ensures FollowAll(Some(""), n) == Some(v) <==> Verb(n) == v
  {
    NothingIsStart();
    assert "" + n == n;
    FollowsToVerb("", n, v);
    KnownVerbs();
    VerbDecides(n, v);
  }

  /** The walk reads off the operation that the classifier infers. */
  lemma ReadsOperation(name: string)
    ensures OperationOf(ReadAll(UNREAD, name)) == InferOperation(name)
  {
    var n := Normalised(name);
    ReadsOwnPart(name);
    ClassifiedByVerb(name);
    if FollowAll(Some(""), n).Some? && FollowAll(Some(""), n).value in KNOWN {
      KnownReading(name, FollowAll(Some(""), n).value);
    } else {
      UnknownReading(name);
    }
  }

  lemma OperationOfVerb(name: string, v: string)
    requires v in KNOWN && Verb(Normalised(name)) == v
    ensures InferOperation(name) ==
            if v in READ_PREFIXES then "read" else if v in WRITE_PREFIXES then "write" else "delete"
  {
    KnownVerbs();
    ClassifiedByVerb(name);
    ListsAreDisjoint(v);
  }

  lemma KnownReading(name: string, v: string)
    requires v in KNOWN && FollowAll(Some(""), Normalised(name)) == Some(v)
    ensures OperationOf(Reading(false, Some(v))) == InferOperation(name)
  {
    FollowsVerb(Normalised(name), v);
    OperationOfVerb(name, v);
    KnownVerbs();
  }

  lemma UnknownReading(name: string)
    requires var verb := FollowAll(Some(""), Normalised(name)); verb.None? || verb.value !in KNOWN
    ensures InferOperation(name) == ""
    ensures OperationOf(Reading(false, FollowAll(Some(""), Normalised(name)))) == ""
  {
    KnownVerbs();
    ClassifiedByVerb(name);
    if Verb(Normalised(name)) in KNOWN {
      FollowsVerb(Normalised(name), Verb(Normalised(name)));
    }
  }

  // ---------------------------------------------------------------------
  // The walk
  // ---------------------------------------------------------------------

  datatype State = State(allowed: set<string>, denied: set<string>, reading: Reading)

  function Start(allowed: set<string>, denied: set<string>): State {
    State(allowed, denied, UNREAD)
  }

  function Step(s: State, c: char): State {
    State(AfterAll(s.allowed, c), AfterAll(s.denied, c), Read(s.reading, c))
  }

  function Walk(s: State, name: string): State
    decreases |name|
  {
    if name == [] then s else Walk(Step(s, name[0]), name[1..])
  }

  predicate Accepts(s: State, ops: set<string>) {
    Matches(s.allowed, "") && !Matches(s.denied, "") && OperationOf(s.reading) in ops
  }

  lemma {:induction false} WalkMeans(s: State, name: string)
    ensures Matches(Walk(s, name).allowed, "") <==> Matches(s.allowed, name)
    ensures Matches(Walk(s, name).denied, "") <==> Matches(s.denied, name)
    ensures Walk(s, name).reading == ReadAll(s.reading, name)
    decreases |name|
  {
    if name == [] {
    } else {
      assert name == [name[0]] + name[1..];
      AfterAllIsTheRest(s.allowed, name[0], name[1..]);
      AfterAllIsTheRest(s.denied, name[0], name[1..]);
      WalkMeans(Step(s, name[0]), name[1..]);
    }
  }

  /** A name that some allowed pattern matches, no denied pattern matches, and that is classified as one of `ops`. */
  predicate Escapes(allowed: set<string>, denied: set<string>, ops: set<string>, name: string) {
    Matches(allowed, name) && !Matches(denied, name) && InferOperation(name) in ops
  }

  lemma AcceptsIffEscapes(allowed: set<string>, denied: set<string>, ops: set<string>, name: string)
    ensures Accepts(Walk(Start(allowed, denied), name), ops) <==> Escapes(allowed, denied, ops, name)
  {
    WalkMeans(Start(allowed, denied), name);
    ReadsOperation(name);
  }

  // ---------------------------------------------------------------------
  // Finitely many states
  // ---------------------------------------------------------------------

  function Starts(v: string): set<string> {
    set n | 0 <= n <= |v| :: v[..n]
  }

  function Verbs(): set<Option<string>> {
    {None} + set v, w | v in KNOWN && w in Starts(v) :: Some(w)
  }

  predicate InBounds(s: State, allowed: set<string>, denied: set<string>) {
    s.allowed <= AllSuffixes(allowed) && s.denied <= AllSuffixes(denied) && s.reading.verb in Verbs()
  }

  ghost function Universe(allowed: set<string>, denied: set<string>): set<State> {
    set a: set<string>, d: set<string>, slashed: bool, w |
      a <= AllSuffixes(allowed) && d <= AllSuffixes(denied) && w in Verbs() :: State(a, d, Reading(slashed, w))
  }

  lemma UniverseIsBounds(s: State, allowed: set<string>, denied: set<string>)
    ensures s in Universe(allowed, denied) <==> InBounds(s, allowed, denied)
  {
    if InBounds(s, allowed, denied) {
      assert s == State(s.allowed, s.denied, Reading(s.reading.slashed, s.reading.verb));
    }
  }

  lemma StartIsVerb(w: string)
    requires IsStart(w)
    ensures Some(w) in Verbs()
  {
    var v :| v in KNOWN && HasPrefix(v, w);
    assert v[..|w|] == w && w in Starts(v);
  }

  lemma FollowStays(verb: Option<string>, c: char)
    requires verb in Verbs()
    ensures Follow(verb, c) in Verbs()
  {
    if verb.Some? && verb.value !in KNOWN && IsStart(verb.value + [c]) {
      StartIsVerb(verb.value + [c]);
    }
  }

  lemma StepStays(s: State, c: char, allowed: set<string>, denied: set<string>)
    requires InBounds(s, allowed, denied)
    ensures InBounds(Step(s, c), allowed, denied)
  {
    AfterAllStays(allowed, s.allowed, c);
    AfterAllStays(denied, s.denied, c);
    FollowStays(s.reading.verb, Dash(c));
    NothingIsStart();
    StartIsVerb("");
  }

  /** A letter that stands in no pattern and no verb and has no meaning of its own. */
  predicate Unseen(s: State, c: char) {
    && c != '/' && c != '_'
    && (forall p | p in s.allowed :: c !in p) && (forall p | p in s.denied :: c !in p)
    && forall v | v in KNOWN :: c !in v
  }

  lemma {:induction false} UnseenAfter(p: string, c: char, d: char)
    requires c != '/' && d != '/' && c !in p && d !in p
    ensures After(p, c) == After(p, d)
  {
    if p == [] {
    } else {
      assert p[0] in p && forall x | x in p[1..] :: x in p;
      UnseenAfter(p[1..], c, d);
    }
  }

  lemma UnseenAfterAll(ps: set<string>, c: char, d: char)
    requires c != '/' && d != '/' && forall p | p in ps :: c !in p && d !in p
    ensures AfterAll(ps, c) == AfterAll(ps, d)
  {
    forall p | p in ps ensures After(p, c) == After(p, d) {
      UnseenAfter(p, c, d);
    }
  }

  lemma StartIsSeen(w: string, c: char)
    ensures IsStart(w + [c]) ==> exists v | v in KNOWN :: c in v
  {
    if IsStart(w + [c]) {
      var v := Completion(w + [c]);
      assert v[..|w| + 1][|w|] == c;
    }
  }

  /** All such letters lead to the same state, so one of them stands for all: the visit needs to try only the letters
      of the patterns and verbs, "/", "_" and one more. */
  lemma UnseenLettersStepAlike(s: State, c: char, d: char)
    requires Unseen(s, c) && Unseen(s, d)
    ensures Step(s, c) == Step(s, d)
  {
    UnseenAfterAll(s.allowed, c, d);
    UnseenAfterAll(s.denied, c, d);
    if s.reading.verb.Some? {
      StartIsSeen(s.reading.verb.value, c);
      StartIsSeen(s.reading.verb.value, d);
    }
  }

  // ---------------------------------------------------------------------
  // Visiting them all
  // ---------------------------------------------------------------------

  function Successors(r: set<State>): set<State> {
    set s, c: char | s in r :: Step(s, c)
  }

  ghost predicate ClosedUnderSteps(r: set<State>) {
    forall s, c: char | s in r :: Step(s, c) in r
  }

  /** All that can be reached from `r`: successors are added until there are no new ones. */
  function Explore(r: set<State>, ghost universe: set<State>): set<State>
    requires r <= universe && ClosedUnderSteps(universe)
    decreases |universe - r|
  {
    var next := r + Successors(r);
    assert next <= universe;
    if next == r then r
    else
      Fewer(universe, r, next);
      Explore(next, universe)
  }

  lemma Fewer(universe: set<State>, r: set<State>, next: set<State>)
    requires r < next <= universe
    ensures universe - next < universe - r && |universe - next| < |universe - r|
  {
    var s :| s in next && s !in r;
    assert s in universe - r && s !in universe - next;
    Smaller(universe - next, universe - r, s);
  }

  lemma Smaller(a: set<State>, b: set<State>, s: State)
    requires a <= b && s in b && s !in a
    ensures |a| < |b|
  {
    assert b == a + (b - a);
    assert |b| == |a| + |b - a|;
    assert s in b - a;
  }

  lemma {:induction false} ExploreIsClosed(r: set<State>, universe: set<State>)
    requires r <= universe && ClosedUnderSteps(universe)
    ensures r <= Explore(r, universe) && ClosedUnderSteps(Explore(r, universe))
    decreases |universe - r|
  {
    var next := r + Successors(r);
    if next == r {
      forall s, c: char | s in r ensures Step(s, c) in r {
        assert Step(s, c) in Successors(r);
      }
    } else {
      Fewer(universe, r, next);
      ExploreIsClosed(next, universe);
    }
  }

  ghost predicate AllReachable(r: set<State>, start: State) {
    forall s | s in r :: exists name :: Walk(start, name) == s
  }

  lemma {:induction false} ExploreIsReachable(r: set<State>, universe: set<State>, start: State)
    requires r <= universe && ClosedUnderSteps(universe) && AllReachable(r, start)
    ensures AllReachable(Explore(r, universe), start)
    decreases |universe - r|
  {
    var next := r + Successors(r);
    if next == r {
    } else {
      Fewer(universe, r, next);
      forall s | s in next ensures exists name :: Walk(start, name) == s {
        if s !in r {
          var t, c: char :| t in r && s == Step(t, c);
          var name :| Walk(start, name) == t;
          OneMoreLetter(start, name, c);
        }
      }
      ExploreIsReachable(next, universe, start);
    }
  }

  lemma {:induction false} OneMoreLetter(s: State, name: string, c: char)
    ensures Walk(s, name + [c]) == Step(Walk(s, name), c)
    decreases |name|
  {
    if name == [] {
      assert name + [c] == [c] && [c][1..] == [];
    } else {
      assert (name + [c])[0] == name[0] && (name + [c])[1..] == name[1..] + [c];
      OneMoreLetter(Step(s, name[0]), name[1..], c);
    }
  }

  lemma {:induction false} WalkStaysIn(r: set<State>, s: State, name: string)
    requires s in r && ClosedUnderSteps(r)
    ensures Walk(s, name) in r
    decreases |name|
  {
    if name == [] {
    } else {
      WalkStaysIn(r, Step(s, name[0]), name[1..]);
    }
  }

  // ---------------------------------------------------------------------
  // The decision
  // ---------------------------------------------------------------------

  lemma UniverseIsClosed(allowed: set<string>, denied: set<string>)
    ensures {Start(allowed, denied)} <= Universe(allowed, denied)
    ensures ClosedUnderSteps(Universe(allowed, denied))
  {
    var u := Universe(allowed, denied);
    StartInBounds(allowed, denied);
    UniverseIsBounds(Start(allowed, denied), allowed, denied);
    forall s, c: char | s in u ensures Step(s, c) in u {
      UniverseIsBounds(s, allowed, denied);
      StepStays(s, c, allowed, denied);
      UniverseIsBounds(Step(s, c), allowed, denied);
    }
  }

  lemma StartsWithItself(ps: set<string>)
    ensures ps <= AllSuffixes(ps)
  {
    forall p | p in ps ensures p in AllSuffixes(ps) {
      assert p in Suffixes(p);
    }
  }

  lemma StartInBounds(allowed: set<string>, denied: set<string>)
    ensures InBounds(Start(allowed, denied), allowed, denied)
  {
    StartsWithItself(allowed);
    StartsWithItself(denied);
    NothingIsStart();
    StartIsVerb("");
  }

  /** Decided by visiting every state that the walk can reach. */
  function CanEscape(allowed: set<string>, denied: set<string>, ops: set<string>): bool {
    UniverseIsClosed(allowed, denied);
    exists s | s in Explore({Start(allowed, denied)}, Universe(allowed, denied)) :: Accepts(s, ops)
  }

  /** The decision is right for all patterns, allowed and denied, and all operations. */
  lemma CanEscapeIff(allowed: set<string>, denied: set<string>, ops: set<string>)
    ensures CanEscape(allowed, denied, ops) <==> exists name :: Escapes(allowed, denied, ops, name)
  {
    var start, u := Start(allowed, denied), Universe(allowed, denied);
    UniverseIsClosed(allowed, denied);
    ExploreIsClosed({start}, u);
    assert AllReachable({start}, start) by {
      assert Walk(start, "") == start;
    }
    ExploreIsReachable({start}, u, start);
    if CanEscape(allowed, denied, ops) {
      var s :| s in Explore({start}, u) && Accepts(s, ops);
      var name :| Walk(start, name) == s;
      AcceptsIffEscapes(allowed, denied, ops, name);
    }
    if name :| Escapes(allowed, denied, ops, name) {
      WalkStaysIn(Explore({start}, u), start, name);
      AcceptsIffEscapes(allowed, denied, ops, name);
    }
  }
}
