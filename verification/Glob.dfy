/** Tool patterns: literals, `?` and `*`, with "/" matched by neither wildcard. */
module Glob {
  import opened Text

  predicate IsMeta(c: char) {
    c == '*' || c == '?'
  }

  predicate HasMeta(p: string) {
    exists i | 0 <= i < |p| :: IsMeta(p[i])
  }

  predicate GlobMatch(p: string, s: string)
    decreases |p| + |s|
  {
    if p == [] then
      s == []
    else if p[0] == '*' then
      GlobMatch(p[1..], s) || (s != [] && s[0] != '/' && GlobMatch(p, s[1..]))
    else if p[0] == '?' then
      s != [] && s[0] != '/' && GlobMatch(p[1..], s[1..])
    else
      s != [] && s[0] == p[0] && GlobMatch(p[1..], s[1..])
  }

  /** What each part of a pattern takes: a literal itself, `?` one letter, `*` any run of letters, and neither
      wildcard a "/". */
  lemma {:induction false} StarTakesAnyRun(p: string, s: string)
    ensures GlobMatch(['*'] + p, s) <==> exists k | 0 <= k <= |s| :: '/' !in s[..k] && GlobMatch(p, s[k..])
    decreases |s|
  {
    var star := ['*'] + p;
    assert star[1..] == p && s[0..] == s && s[..0] == [];
    if s == [] {
    } else {
      StarTakesAnyRun(p, s[1..]);
      forall k | 1 <= k <= |s|
        ensures ('/' !in s[..k] <==> s[0] != '/' && '/' !in s[1..][..k - 1]) && s[k..] == s[1..][k - 1..]
      {
        assert s[..k] == [s[0]] + s[1..][..k - 1];
      }
      if k :| 0 <= k <= |s[1..]| && '/' !in s[1..][..k] && GlobMatch(p, s[1..][k..]) {
        assert s[1..][..k] == s[1..][..k + 1 - 1] && s[k + 1..] == s[1..][k + 1 - 1..];
      }
    }
  }

  lemma OtherPartsTakeOne(c: char, p: string, s: string)
    requires c != '*'
    ensures GlobMatch([c] + p, s) <==>
            s != [] && (if c == '?' then s[0] != '/' else s[0] == c) && GlobMatch(p, s[1..])
    ensures GlobMatch("", s) <==> s == ""
  {
    assert ([c] + p)[1..] == p;
  }

  predicate MatchesSome(name: string, patterns: seq<string>) {
    exists p | p in patterns :: GlobMatch(p, name)
  }

  /** The rest of a string after its first "/", when it has one. */
  function AfterPrefix(s: string): Option<string> {
    var i := IndexOf(s, '/');
    if i == |s| then None else Some(s[i + 1..])
  }

  lemma IndexOfTail(s: string, c: char)
    requires s != [] && s[0] != c
    ensures IndexOf(s, c) == 1 + IndexOf(s[1..], c)
    ensures s[..IndexOf(s, c)] == [s[0]] + s[1..][..IndexOf(s[1..], c)]
    ensures IndexOf(s, c) < |s| ==> s[IndexOf(s, c) + 1..] == s[1..][IndexOf(s[1..], c) + 1..]
    ensures IndexOf(s, c) == |s| <==> IndexOf(s[1..], c) == |s[1..]|
  {
  }

  lemma PrefixTail(s: string)
    requires s != [] && s[0] != '/'
    ensures ToolPrefix(s) == [s[0]] + ToolPrefix(s[1..])
    ensures ToolPrefix(s)[1..] == ToolPrefix(s[1..])
    ensures AfterPrefix(s) == AfterPrefix(s[1..])
  {
    IndexOfTail(s, '/');
  }

  ghost predicate RestMatches(p: string, s: string) {
    match (AfterPrefix(p), AfterPrefix(s))
    case (None, None) => true
    case (Some(pr), Some(sr)) => GlobMatch(pr, sr)
    case _ => false
  }

  /** Matching goes segment by segment: the first segments match and so do the rests. */
  lemma {:induction false} MatchBySegments(p: string, s: string)
    ensures GlobMatch(p, s) <==> GlobMatch(ToolPrefix(p), ToolPrefix(s)) && RestMatches(p, s)
    decreases |p| + |s|
  {
    if p == [] || p[0] == '/' {
      assert ToolPrefix(p) == [];
      if s != [] && s[0] == '/' {
        assert ToolPrefix(s) == [];
      } else if s != [] {
        PrefixTail(s);
      }
    } else if p[0] == '*' {
      PrefixTail(p);
      MatchBySegments(p[1..], s);
      if s != [] && s[0] != '/' {
        PrefixTail(s);
        MatchBySegments(p, s[1..]);
      } else {
        assert ToolPrefix(s) == [];
      }
    } else {
      PrefixTail(p);
      if s != [] && s[0] != '/' {
        PrefixTail(s);
        MatchBySegments(p[1..], s[1..]);
      } else {
        assert ToolPrefix(s) == [];
      }
    }
  }

  /** A pattern without wildcards matches itself and nothing else. */
  lemma {:induction false} LiteralMatch(p: string, s: string)
    requires !HasMeta(p)
    ensures GlobMatch(p, s) <==> s == p
  {
    if p == [] {
    } else {
      assert !IsMeta(p[0]);
      if s != [] {
        assert !HasMeta(p[1..]) by {
          forall i | 0 <= i < |p[1..]| ensures !IsMeta(p[1..][i]) {
            assert p[1..][i] == p[i + 1];
          }
        }
        LiteralMatch(p[1..], s[1..]);
        assert s == [s[0]] + s[1..] && p == [p[0]] + p[1..];
      }
    }
  }

  /** A name matched by a pattern: each `?` becomes a letter and each `*` nothing. */
  function Instance(p: string): (s: string)
    ensures !HasMeta(s)
  {
    if p == [] then []
    else
      var rest := Instance(p[1..]);
      if p[0] == '*' then rest
      else if p[0] == '?' then ['a'] + rest
      else [p[0]] + rest
  }

  lemma {:induction false} InstanceMatches(p: string)
    ensures GlobMatch(p, Instance(p))
    ensures ToolPrefix(Instance(p)) == Instance(ToolPrefix(p))
  {
    if p == [] {
    } else {
      var rest := Instance(p[1..]);
      InstanceMatches(p[1..]);
      if p[0] == '/' {
        assert ToolPrefix(p) == [];
        assert Instance(p)[0] == '/';
      } else {
        PrefixTail(p);
        if p[0] != '*' {
          assert Instance(p)[1..] == rest;
          PrefixTail(Instance(p));
        }
      }
    }
  }

  /** Every name a pattern matches has the pattern's own prefix exactly when that prefix holds no wildcard. */
  lemma PrefixIsPinned(p: string)
    ensures (forall s :: GlobMatch(p, s) ==> ToolPrefix(s) == ToolPrefix(p)) <==> !HasMeta(ToolPrefix(p))
  {
    if HasMeta(ToolPrefix(p)) {
      InstanceMatches(p);
      assert !HasMeta(ToolPrefix(Instance(p)));
    } else {
      forall s | GlobMatch(p, s) ensures ToolPrefix(s) == ToolPrefix(p) {
        MatchBySegments(p, s);
        LiteralMatch(ToolPrefix(p), ToolPrefix(s));
      }
    }
  }
}
