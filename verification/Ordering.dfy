/** The order of `sort.Strings` and `sort.Slice`, and sorted lists without duplicates. */
module Ordering {
  import opened Text

  /** Go's `<` on strings. */
  predicate Less(a: string, b: string) {
    b != [] && (a == [] || a[0] < b[0] || (a[0] == b[0] && Less(a[1..], b[1..])))
  }

  /** At `k` the two strings part, and `a` has ended there or has the smaller letter. */
  predicate PartsBelow(a: string, b: string, k: int) {
    && 0 <= k <= |a| && k <= |b| && a[..k] == b[..k]
    && ((k == |a| && k < |b|) || (k < |a| && k < |b| && a[k] < b[k]))
  }

  /** It is the lexical order: the first difference decides, and a proper prefix comes first. */
  lemma {:induction false} LessIsLexical(a: string, b: string)
    ensures Less(a, b) <==> exists k :: PartsBelow(a, b, k)
  {
    if a == [] || b == [] {
      assert b != [] ==> PartsBelow(a, b, 0);
    } else if a[0] != b[0] {
      assert a[0] < b[0] ==> PartsBelow(a, b, 0);
      assert forall k | 1 <= k <= |a| && k <= |b| :: a[..k][0] == a[0] && b[..k][0] == b[0];
    } else {
      LessIsLexical(a[1..], b[1..]);
      forall k | 1 <= k <= |a| && k <= |b| ensures PartsBelow(a, b, k) <==> PartsBelow(a[1..], b[1..], k - 1) {
        PartsInTail(a, b, k);
      }
      if k :| PartsBelow(a[1..], b[1..], k) {
        assert PartsBelow(a, b, k + 1);
      }
    }
  }

  lemma PartsInTail(a: string, b: string, k: nat)
    requires 1 <= k <= |a| && k <= |b| && a[0] == b[0]
    ensures PartsBelow(a, b, k) <==> PartsBelow(a[1..], b[1..], k - 1)
  {
    assert a[..k] == [a[0]] + a[1..][..k - 1] && b[..k] == [b[0]] + b[1..][..k - 1];
    assert a[..k] == b[..k] <==> a[1..][..k - 1] == b[1..][..k - 1] by {
      assert a[..k][1..] == a[1..][..k - 1] && b[..k][1..] == b[1..][..k - 1];
    }
  }

  lemma {:induction false} LessIsTotal(a: string, b: string)
    ensures Less(a, b) || a == b || Less(b, a)
    ensures !(Less(a, b) && Less(b, a))
    ensures Less(a, b) ==> a != b
  {
    if a != [] && b != [] && a[0] == b[0] {
      LessIsTotal(a[1..], b[1..]);
      assert a == [a[0]] + a[1..] && b == [b[0]] + b[1..];
    }
  }

  lemma {:induction false} LessIsTransitive(a: string, b: string, c: string)
    requires Less(a, b) && Less(b, c)
    ensures Less(a, c)
  {
    if a != [] && a[0] == b[0] == c[0] {
      LessIsTransitive(a[1..], b[1..], c[1..]);
    }
  }

  ghost predicate StrictlySorted(s: seq<string>) {
    forall i, j | 0 <= i < j < |s| :: Less(s[i], s[j])
  }

  /** A strictly sorted list is determined by its elements. */
  lemma {:induction false} SortedIsUnique(a: seq<string>, b: seq<string>)
    requires StrictlySorted(a) && StrictlySorted(b)
    requires Elems(a) == Elems(b)
    ensures a == b
  {
    ElemsOfEmpty(a);
    ElemsOfEmpty(b);
    if a == [] {
    } else {
      HeadIsLeast(a, b);
      HeadIsLeast(b, a);
      LessIsTotal(a[0], b[0]);
      TailElems(a);
      TailElems(b);
      SortedIsUnique(a[1..], b[1..]);
      assert a == [a[0]] + a[1..] && b == [b[0]] + b[1..];
    }
  }

  lemma HeadIsLeast(a: seq<string>, b: seq<string>)
    requires StrictlySorted(a) && a != [] && b != [] && Elems(a) == Elems(b)
    ensures a[0] == b[0] || Less(a[0], b[0])
  {
    assert b[0] in Elems(a);
  }

  lemma TailElems(a: seq<string>)
    requires StrictlySorted(a) && a != []
    ensures Elems(a[1..]) == Elems(a) - {a[0]}
  {
    forall x | x in a[1..] ensures x != a[0] {
      var i :| 0 <= i < |a[1..]| && a[1..][i] == x;
      assert Less(a[0], a[i + 1]);
      LessIsTotal(a[0], x);
    }
    assert a == [a[0]] + a[1..];
  }

  function InsertUnique(x: string, s: seq<string>): (r: seq<string>)
    ensures Elems(r) == Elems(s) + {x}
    ensures StrictlySorted(s) ==> StrictlySorted(r)
  {
    if s == [] then
      [x]
    else if x == s[0] then
      s
    else if Less(x, s[0]) then
      assert StrictlySorted(s) ==> StrictlySorted([x] + s) by { ConsSorted(x, s); }
      [x] + s
    else
      var rest := InsertUnique(x, s[1..]);
      assert s == [s[0]] + s[1..];
      assert Elems([s[0]] + rest) == Elems(s) + {x} by {
        ElemsOfConcat([s[0]], rest);
        ElemsOfConcat([s[0]], s[1..]);
      }
      assert StrictlySorted(s) ==> StrictlySorted([s[0]] + rest) by {
        if StrictlySorted(s) {
          LessIsTotal(x, s[0]);
          forall j | 0 <= j < |rest| ensures Less(s[0], rest[j]) {
            assert rest[j] in Elems(rest);
          }
        }
      }
      [s[0]] + rest
  }

  lemma ConsSorted(x: string, s: seq<string>)
    requires s != [] && Less(x, s[0])
    ensures StrictlySorted(s) ==> StrictlySorted([x] + s)
  {
    if StrictlySorted(s) {
      forall j | 0 <= j < |s| ensures Less(x, s[j]) {
        if j > 0 { LessIsTransitive(x, s[0], s[j]); }
      }
    }
  }

  /** The sorted list of the elements of `s`, each once. */
  function SortUnique(s: seq<string>): (r: seq<string>)
    ensures StrictlySorted(r)
    ensures Elems(r) == Elems(s)
  {
    if s == [] then [] else
      assert s == [s[0]] + s[1..];
      InsertUnique(s[0], SortUnique(s[1..]))
  }

  lemma SortUniqueOfSameElems(a: seq<string>, b: seq<string>)
    requires Elems(a) == Elems(b)
    ensures SortUnique(a) == SortUnique(b)
  {
    SortedIsUnique(SortUnique(a), SortUnique(b));
  }

  ghost predicate SortedBy<T>(key: T -> string, s: seq<T>) {
    forall i, j | 0 <= i < j < |s| :: !Less(key(s[j]), key(s[i]))
  }

  /** `sort.Slice` by a string key (`sort.Strings` is the case of the identity key). */
  method SortBy<T>(key: T -> string, xs: seq<T>) returns (r: seq<T>)
    ensures multiset(r) == multiset(xs)
    ensures SortedBy(key, r)
  {
    r := [];
    for k := 0 to |xs|
      invariant multiset(r) == multiset(xs[..k])
      invariant SortedBy(key, r)
    {
      var i := 0;
      while i < |r| && !Less(key(xs[k]), key(r[i]))
        invariant 0 <= i <= |r|
        invariant forall j | 0 <= j < i :: !Less(key(xs[k]), key(r[j]))
      {
        i := i + 1;
      }
      InsertKeepsSorted(key, r, i, xs[k]);
      assert r == r[..i] + r[i..];
      r := r[..i] + [xs[k]] + r[i..];
      assert xs[..k + 1] == xs[..k] + [xs[k]];
    }
    assert xs[..|xs|] == xs;
  }

  lemma InsertKeepsSorted<T>(key: T -> string, r: seq<T>, i: nat, x: T)
    requires i <= |r| && SortedBy(key, r)
    requires forall j | 0 <= j < i :: !Less(key(x), key(r[j]))
    requires i < |r| ==> Less(key(x), key(r[i]))
    ensures SortedBy(key, r[..i] + [x] + r[i..])
  {
    var s := r[..i] + [x] + r[i..];
    forall j | i <= j < |r| ensures !Less(key(r[j]), key(x)) {
      LessIsTotal(key(x), key(r[j]));
      if j > i && Less(key(r[j]), key(x)) {
        LessIsTransitive(key(r[j]), key(x), key(r[i]));
      } else {
        LessIsTotal(key(x), key(r[i]));
      }
    }
  }
}
