/** The deep merge of the policy files, and its order-free reference definition. */
module PolicyMerge {
  import opened Text
  import opened Ordering
  import opened Domain

  // ---------------------------------------------------------------------
  // Reference definition
  // ---------------------------------------------------------------------

  function Flatten(files: seq<PolicyFile>): seq<PolicyEntry> {
    if files == [] then [] else files[0] + Flatten(files[1..])
  }

  function EntriesOf(es: seq<PolicyEntry>, g: string): seq<PolicyEntry> {
    if es == [] then []
    else (if es[0].group == g then [es[0]] else []) + EntriesOf(es[1..], g)
  }

  function Groups(es: seq<PolicyEntry>): seq<string> {
    if es == [] then [] else [es[0].group] + Groups(es[1..])
  }

  function AllAllowed(es: seq<PolicyEntry>): seq<string> {
    if es == [] then [] else es[0].allowed + AllAllowed(es[1..])
  }

  function AllDenied(es: seq<PolicyEntry>): seq<string> {
    if es == [] then [] else es[0].denied + AllDenied(es[1..])
  }

  /** What a group's entries amount to: a lone entry as written, several as sorted unions. */
  function Combined(own: seq<PolicyEntry>, g: string): PolicyEntry {
    if |own| == 1 then own[0]
    else PolicyEntry(g, SortUnique(AllAllowed(own)), SortUnique(AllDenied(own)))
  }

  /** The merged policy: one entry a group, in increasing order of group. */
  function Merge(es: seq<PolicyEntry>): seq<PolicyEntry> {
    var gs := SortUnique(Groups(es));
    seq(|gs|, i requires 0 <= i < |gs| => Combined(EntriesOf(es, gs[i]), gs[i]))
  }

  // ---------------------------------------------------------------------
  // Facts about the list functions
  // ---------------------------------------------------------------------

  lemma {:induction false} AppendGroups(es: seq<PolicyEntry>, fs: seq<PolicyEntry>)
    ensures Groups(es + fs) == Groups(es) + Groups(fs)
  {
    if es == [] {
      assert es + fs == fs;
    } else {
      assert (es + fs)[0] == es[0] && (es + fs)[1..] == es[1..] + fs;
      AppendGroups(es[1..], fs);
    }
  }

  lemma {:induction false} AppendPatterns(es: seq<PolicyEntry>, fs: seq<PolicyEntry>)
    ensures AllAllowed(es + fs) == AllAllowed(es) + AllAllowed(fs)
    ensures AllDenied(es + fs) == AllDenied(es) + AllDenied(fs)
  {
    if es == [] {
      assert es + fs == fs;
    } else {
      assert (es + fs)[0] == es[0] && (es + fs)[1..] == es[1..] + fs;
      AppendPatterns(es[1..], fs);
    }
  }

  lemma {:induction false} AppendEntries(es: seq<PolicyEntry>, fs: seq<PolicyEntry>, g: string)
    ensures EntriesOf(es + fs, g) == EntriesOf(es, g) + EntriesOf(fs, g)
  {
    if es == [] {
      assert es + fs == fs;
    } else {
      assert (es + fs)[0] == es[0] && (es + fs)[1..] == es[1..] + fs;
      AppendEntries(es[1..], fs, g);
    }
  }

  lemma {:induction false} EntriesOfGroup(es: seq<PolicyEntry>, g: string)
    ensures forall e :: e in EntriesOf(es, g) <==> e in es && e.group == g
  {
    if es == [] {
    } else {
      EntriesOfGroup(es[1..], g);
      assert forall e :: e in es <==> e == es[0] || e in es[1..];
    }
  }

  lemma {:induction false} NoEntries(es: seq<PolicyEntry>, g: string)
    ensures EntriesOf(es, g) == [] <==> g !in Groups(es)
  {
    if es == [] {
    } else {
      NoEntries(es[1..], g);
      assert Groups(es) == [es[0].group] + Groups(es[1..]);
    }
  }

  lemma {:induction false} GroupsOf(es: seq<PolicyEntry>)
    ensures |Groups(es)| == |es|
    ensures forall i | 0 <= i < |es| :: Groups(es)[i] == es[i].group
  {
    if es == [] {
    } else {
      GroupsOf(es[1..]);
    }
  }

  lemma {:induction false} UnionElems(es: seq<PolicyEntry>)
    ensures forall x :: x in AllAllowed(es) <==> exists e | e in es :: x in e.allowed
    ensures forall x :: x in AllDenied(es) <==> exists e | e in es :: x in e.denied
  {
    if es == [] {
    } else {
      UnionElems(es[1..]);
      assert forall e :: e in es <==> e == es[0] || e in es[1..];
    }
  }

  lemma CombinedElems(own: seq<PolicyEntry>, g: string)
    ensures Elems(Combined(own, g).allowed) == Elems(AllAllowed(own))
    ensures Elems(Combined(own, g).denied) == Elems(AllDenied(own))
  {
    if |own| == 1 {
      assert own[1..] == [];
    }
  }

  lemma CombinedGroup(es: seq<PolicyEntry>, g: string)
    ensures Combined(EntriesOf(es, g), g).group == g
  {
    EntriesOfGroup(es, g);
    if |EntriesOf(es, g)| == 1 {
      assert EntriesOf(es, g)[0] in EntriesOf(es, g);
    }
  }

  lemma MergeKeys(es: seq<PolicyEntry>)
    ensures Groups(Merge(es)) == SortUnique(Groups(es))
    ensures StrictlySorted(Groups(Merge(es)))
  {
    var gs := SortUnique(Groups(es));
    GroupsOf(Merge(es));
    forall i | 0 <= i < |gs| ensures Groups(Merge(es))[i] == gs[i] {
      CombinedGroup(es, gs[i]);
    }
  }

  /** Two lists with the same strictly increasing groups and the same entry for each are equal. */
  lemma SameEntries(a: seq<PolicyEntry>, b: seq<PolicyEntry>)
    requires Elems(Groups(a)) == Elems(Groups(b))
    requires forall g | g in Groups(a) :: Combined(EntriesOf(a, g), g) == Combined(EntriesOf(b, g), g)
    ensures Merge(a) == Merge(b)
  {
    SortUniqueOfSameElems(Groups(a), Groups(b));
    var gs := SortUnique(Groups(a));
    forall i | 0 <= i < |gs| ensures Merge(a)[i] == Merge(b)[i] {
      assert gs[i] in Elems(gs);
    }
  }

  lemma {:induction false} EntryOfSorted(m: seq<PolicyEntry>, g: string)
    requires StrictlySorted(Groups(m))
    ensures |EntriesOf(m, g)| <= 1
  {
    if m == [] {
    } else {
      TailElems(Groups(m));
      assert Groups(m)[1..] == Groups(m[1..]);
      EntryOfSorted(m[1..], g);
      NoEntries(m[1..], g);
      if m[0].group == g {
        assert g !in Elems(Groups(m[1..]));
      }
    }
  }

  /** The merged list holds, for each group of the input, exactly its combined entry. */
  lemma MergedEntry(es: seq<PolicyEntry>, g: string)
    ensures EntriesOf(Merge(es), g) == if g in Groups(es) then [Combined(EntriesOf(es, g), g)] else []
  {
    MergeHasGroup(es, g);
    if g in Groups(es) {
      MergeKeys(es);
      CombinedIsMerged(es, g);
      CombinedGroup(es, g);
      SoleEntry(Merge(es), Combined(EntriesOf(es, g), g));
    } else {
      NoEntries(Merge(es), g);
    }
  }

  lemma SoleEntry(m: seq<PolicyEntry>, c: PolicyEntry)
    requires StrictlySorted(Groups(m)) && c in m
    ensures EntriesOf(m, c.group) == [c]
  {
    EntryOfSorted(m, c.group);
    EntriesOfGroup(m, c.group);
    assert c in EntriesOf(m, c.group);
  }

  lemma MergeHasGroup(es: seq<PolicyEntry>, g: string)
    ensures g in Groups(Merge(es)) <==> g in Groups(es)
  {
    MergeKeys(es);
    assert g in Groups(es) <==> g in Elems(SortUnique(Groups(es)));
  }

  lemma CombinedIsMerged(es: seq<PolicyEntry>, g: string)
    requires g in Groups(es)
    ensures Combined(EntriesOf(es, g), g) in Merge(es)
  {
    var gs := SortUnique(Groups(es));
    assert g in Elems(gs);
    var i :| 0 <= i < |gs| && gs[i] == g;
    assert Merge(es)[i] == Combined(EntriesOf(es, g), g);
  }

  // ---------------------------------------------------------------------
  // Main properties of the merge
  // ---------------------------------------------------------------------

  /** Every group's merged lists hold exactly the patterns of all its entries. */
  lemma MergeIsUnion(es: seq<PolicyEntry>, m: PolicyEntry)
    requires m in Merge(es)
    ensures m.group in Groups(es)
    ensures forall x :: x in m.allowed <==> exists e | e in es :: e.group == m.group && x in e.allowed
    ensures forall x :: x in m.denied <==> exists e | e in es :: e.group == m.group && x in e.denied
  {
    EntriesOfGroup(Merge(es), m.group);
    MergedEntry(es, m.group);
    var own := EntriesOf(es, m.group);
    assert m == Combined(own, m.group);
    EntriesOfGroup(es, m.group);
    UnionElems(own);
    CombinedElems(own, m.group);
    assert forall x :: x in m.allowed <==> x in Elems(AllAllowed(own));
    assert forall x :: x in m.denied <==> x in Elems(AllDenied(own));
  }

  /** Each input entry's group has one merged entry. */
  lemma MergeCovers(es: seq<PolicyEntry>, e: PolicyEntry) returns (m: PolicyEntry)
    requires e in es
    ensures m in Merge(es) && m.group == e.group
  {
    GroupsOf(es);
    assert e.group in Groups(es);
    MergedEntry(es, e.group);
    EntriesOfGroup(Merge(es), e.group);
    m := EntriesOf(Merge(es), e.group)[0];
    assert m in EntriesOf(Merge(es), e.group);
  }

  lemma {:induction false} EntriesMultiset(es: seq<PolicyEntry>, g: string, e: PolicyEntry)
    ensures multiset(EntriesOf(es, g))[e] == if e.group == g then multiset(es)[e] else 0
  {
    if es == [] {
    } else {
      assert es == [es[0]] + es[1..];
      EntriesMultiset(es[1..], g, e);
    }
  }

  /** The result does not depend on the order of the files, nor on the order of the entries inside them. */
  lemma MergeIgnoresOrder(es: seq<PolicyEntry>, fs: seq<PolicyEntry>)
    requires multiset(es) == multiset(fs)
    ensures Merge(es) == Merge(fs)
  {
    assert forall e :: e in es <==> e in multiset(es);
    assert forall e :: e in fs <==> e in multiset(fs);
    GroupsOf(es);
    GroupsOf(fs);
    forall g ensures g in Groups(es) <==> g in Groups(fs) {
      if g in Groups(es) {
        var i :| 0 <= i < |es| && es[i].group == g;
        assert es[i] in fs;
      }
      if g in Groups(fs) {
        var i :| 0 <= i < |fs| && fs[i].group == g;
        assert fs[i] in es;
      }
    }
    assert Elems(Groups(es)) == Elems(Groups(fs));
    forall g | g in Groups(es) ensures Combined(EntriesOf(es, g), g) == Combined(EntriesOf(fs, g), g) {
      CombinedIgnoresOrder(es, fs, g);
    }
    SameEntries(es, fs);
  }

  lemma CombinedIgnoresOrder(es: seq<PolicyEntry>, fs: seq<PolicyEntry>, g: string)
    requires multiset(es) == multiset(fs)
    ensures Combined(EntriesOf(es, g), g) == Combined(EntriesOf(fs, g), g)
  {
    var a, b := EntriesOf(es, g), EntriesOf(fs, g);
    forall e ensures multiset(a)[e] == multiset(b)[e] {
      EntriesMultiset(es, g, e);
      EntriesMultiset(fs, g, e);
    }
    CombinedOfMultiset(a, b, g);
  }

  lemma CombinedOfMultiset(a: seq<PolicyEntry>, b: seq<PolicyEntry>, g: string)
    requires multiset(a) == multiset(b)
    ensures Combined(a, g) == Combined(b, g)
  {
    assert |a| == |multiset(a)| == |multiset(b)| == |b|;
    if |a| == 1 {
      assert a[0] in multiset(b);
    } else {
      assert forall e :: e in a <==> e in multiset(a);
      assert forall e :: e in b <==> e in multiset(b);
      SameUnions(a, b);
      SortUniqueOfSameElems(AllAllowed(a), AllAllowed(b));
      SortUniqueOfSameElems(AllDenied(a), AllDenied(b));
    }
  }

  lemma SameUnions(a: seq<PolicyEntry>, b: seq<PolicyEntry>)
    requires forall e :: e in a <==> e in b
    ensures Elems(AllAllowed(a)) == Elems(AllAllowed(b))
    ensures Elems(AllDenied(a)) == Elems(AllDenied(b))
  {
    UnionElems(a);
    UnionElems(b);
  }

  /** Merging in stages equals merging at once. */
  lemma MergeInStages(a: seq<PolicyEntry>, b: seq<PolicyEntry>)
    ensures Merge(Merge(a) + b) == Merge(a + b)
  {
    AppendGroups(Merge(a), b);
    AppendGroups(a, b);
    MergeKeys(a);
    assert Elems(Groups(Merge(a) + b)) == Elems(Groups(a + b)) by {
      ElemsOfConcat(Groups(Merge(a)), Groups(b));
      ElemsOfConcat(Groups(a), Groups(b));
    }
    forall g | g in Groups(Merge(a) + b)
      ensures Combined(EntriesOf(Merge(a) + b, g), g) == Combined(EntriesOf(a + b, g), g)
    {
      CombinedInStages(a, b, g);
    }
    SameEntries(Merge(a) + b, a + b);
  }

  lemma CombinedInStages(a: seq<PolicyEntry>, b: seq<PolicyEntry>, g: string)
    ensures Combined(EntriesOf(Merge(a) + b, g), g) == Combined(EntriesOf(a + b, g), g)
  {
    AppendEntries(Merge(a), b, g);
    AppendEntries(a, b, g);
    MergedEntry(a, g);
    NoEntries(a, g);
    var own, more := EntriesOf(a, g), EntriesOf(b, g);
    if own != [] {
      var m := Combined(own, g);
      if more == [] {
        assert [m] + more == [m] && own + more == own;
      } else {
        CombinedElems(own, g);
        AppendPatterns([m], more);
        AppendPatterns(own, more);
        assert [m][1..] == [];
        ElemsOfConcat(m.allowed, AllAllowed(more));
        ElemsOfConcat(AllAllowed(own), AllAllowed(more));
        ElemsOfConcat(m.denied, AllDenied(more));
        ElemsOfConcat(AllDenied(own), AllDenied(more));
        SortUniqueOfSameElems(m.allowed + AllAllowed(more), AllAllowed(own) + AllAllowed(more));
        SortUniqueOfSameElems(m.denied + AllDenied(more), AllDenied(own) + AllDenied(more));
      }
    }
  }

  /** Merging a merged list changes nothing. */
  lemma MergeIsIdempotent(es: seq<PolicyEntry>)
    ensures Merge(Merge(es)) == Merge(es)
  {
    MergeInStages(es, []);
    assert Merge(es) + [] == Merge(es) && es + [] == es;
  }

  /** Merging leaves a policy list unchanged exactly when its groups are strictly increasing. */
  lemma RoundTripIffSorted(ps: seq<PolicyEntry>)
    ensures Merge(ps) == ps <==> StrictlySorted(Groups(ps))
  {
    if StrictlySorted(Groups(ps)) {
      SortedIsUnique(Groups(ps), SortUnique(Groups(ps)));
      GroupsOf(ps);
      forall i | 0 <= i < |ps| ensures Merge(ps)[i] == ps[i] {
        assert Groups(ps)[i] == ps[i].group;
        SoleEntry(ps, ps[i]);
      }
    } else {
      MergeKeys(ps);
    }
  }

  /** A group's merged lists are sorted and free of duplicates exactly when the group
      has several entries or its lone entry was written that way: a lone entry is kept as it is. */
  lemma MergedListsAreCanonical(es: seq<PolicyEntry>, m: PolicyEntry)
    requires m in Merge(es)
    ensures StrictlySorted(m.allowed) && StrictlySorted(m.denied) <==>
            |EntriesOf(es, m.group)| != 1 ||
            (StrictlySorted(EntriesOf(es, m.group)[0].allowed) && StrictlySorted(EntriesOf(es, m.group)[0].denied))
  {
    MergedEntry(es, m.group);
    EntriesOfGroup(Merge(es), m.group);
    assert m in EntriesOf(Merge(es), m.group);
  }

  // ---------------------------------------------------------------------
  // The loops of the loader
  // ---------------------------------------------------------------------

  /** `union`: the map `seen` is walked in an arbitrary order, then the list is sorted. */
  method Union(a: seq<string>, b: seq<string>) returns (out: seq<string>)
    ensures out == SortUnique(a + b)
  {
    var seen: set<string> := {};
    for i := 0 to |a|
      invariant seen == Elems(a[..i])
    {
      seen := seen + {a[i]};
      assert a[..i + 1] == a[..i] + [a[i]];
    }
    for i := 0 to |b|
      invariant seen == Elems(a) + Elems(b[..i])
    {
      seen := seen + {b[i]};
      assert b[..i + 1] == b[..i] + [b[i]];
    }
    var list, rest := [], seen;
    while rest != {}
      invariant Elems(list) + rest == seen && Elems(list) !! rest
      invariant Distinct(list)
      decreases rest
    {
      var s :| s in rest;
      assert forall i | 0 <= i < |list| :: list[i] in Elems(list);
      list, rest := list + [s], rest - {s};
    }
    var key := (s: string) => s;
    out := SortBy(key, list);
    DistinctSorted(key, list, out);
    SortedIsUnique(out, SortUnique(a + b)) by {
      ElemsOfConcat(a, b);
    }
  }

  lemma SameMembers<T>(list: seq<T>, result: seq<T>)
    requires multiset(result) == multiset(list)
    ensures forall x :: x in result <==> x in list
  {
    assert forall x :: x in result <==> x in multiset(result);
    assert forall x :: x in list <==> x in multiset(list);
  }

  lemma {:induction false} DistinctCounts<T>(s: seq<T>, x: T)
    requires Distinct(s)
    ensures multiset(s)[x] <= 1
  {
    if s == [] {
    } else {
      assert s == [s[0]] + s[1..];
      assert forall k | 0 <= k < |s[1..]| :: s[1..][k] == s[k + 1];
      DistinctCounts(s[1..], x);
    }
  }

  lemma DistinctByCount<T>(s: seq<T>)
    requires forall y :: multiset(s)[y] <= 1
    ensures Distinct(s)
  {
    forall i, j | 0 <= i < j < |s| ensures s[i] != s[j] {
      var lo, hi := s[..i + 1], s[i + 1..];
      assert s == lo + hi;
      assert multiset(s) == multiset(lo) + multiset(hi);
      assert lo[i] in lo && hi[j - i - 1] in hi;
      assert multiset(lo)[s[i]] >= 1 && multiset(hi)[s[j]] >= 1;
      assert multiset(s)[s[i]] <= 1;
    }
  }

  lemma DistinctShuffled<T>(list: seq<T>, out: seq<T>)
    requires Distinct(list) && multiset(out) == multiset(list)
    ensures Distinct(out)
  {
    forall y ensures multiset(out)[y] <= 1 {
      DistinctCounts(list, y);
    }
    DistinctByCount(out);
  }

  lemma DistinctSorted(key: string -> string, list: seq<string>, out: seq<string>)
    requires forall s :: key(s) == s
    requires Distinct(list)
    requires multiset(out) == multiset(list) && SortedBy(key, out)
    ensures StrictlySorted(out) && Elems(out) == Elems(list)
  {
    DistinctShuffled(list, out);
    forall i, j | 0 <= i < j < |out| ensures Less(out[i], out[j]) {
      LessIsTotal(key(out[i]), key(out[j]));
      assert key(out[i]) == out[i];
      assert key(out[j]) == out[j];
    }
    SameMembers(list, out);
  }

  /** The map `merged` after the entries `done` have been read. */
  ghost predicate Accumulates(merged: map<string, PolicyEntry>, done: seq<PolicyEntry>) {
    && (forall g :: g in merged <==> g in Groups(done))
    && (forall g | g in merged :: merged[g] == Combined(EntriesOf(done, g), g))
  }

  lemma CombineOneMore(done: seq<PolicyEntry>, p: PolicyEntry)
    ensures var c, g := Combined(EntriesOf(done, p.group), p.group), p.group;
            Combined(EntriesOf(done + [p], g), g) ==
            if g in Groups(done) then PolicyEntry(g, SortUnique(c.allowed + p.allowed), SortUnique(c.denied + p.denied))
            else p
  {
    var g := p.group;
    CombinedInStages(done, [p], g);
    MergedEntryThenOne(done, p);
    if g in Groups(done) {
      CombineTwo(Combined(EntriesOf(done, g), g), p, g);
    }
  }

  lemma MergedEntryThenOne(done: seq<PolicyEntry>, p: PolicyEntry)
    ensures EntriesOf(Merge(done) + [p], p.group) ==
            (if p.group in Groups(done) then [Combined(EntriesOf(done, p.group), p.group)] else []) + [p]
  {
    AppendEntries(Merge(done), [p], p.group);
    MergedEntry(done, p.group);
    assert [p][1..] == [];
  }

  lemma CombineTwo(c: PolicyEntry, p: PolicyEntry, g: string)
    ensures Combined([c] + [p], g) == PolicyEntry(g, SortUnique(c.allowed + p.allowed), SortUnique(c.denied + p.denied))
  {
    AppendPatterns([c], [p]);
    assert [c][1..] == [] && [p][1..] == [];
    assert AllAllowed([c]) == c.allowed && AllAllowed([p]) == p.allowed;
    assert AllDenied([c]) == c.denied && AllDenied([p]) == p.denied;
  }

  lemma OtherGroup(done: seq<PolicyEntry>, p: PolicyEntry, g: string)
    ensures g in Groups(done + [p]) <==> g in Groups(done) || g == p.group
    ensures g != p.group ==> EntriesOf(done + [p], g) == EntriesOf(done, g)
  {
    AppendGroups(done, [p]);
    AppendEntries(done, [p], g);
    assert [p][1..] == [];
    assert Groups([p]) == [p.group];
  }

  lemma AccumulateOne(merged: map<string, PolicyEntry>, done: seq<PolicyEntry>, p: PolicyEntry, e: PolicyEntry)
    requires Accumulates(merged, done)
    requires e == Combined(EntriesOf(done + [p], p.group), p.group)
    ensures Accumulates(merged[p.group := e], done + [p])
  {
    forall g
      ensures g in Groups(done + [p]) <==> g in Groups(done) || g == p.group
      ensures g != p.group ==> EntriesOf(done + [p], g) == EntriesOf(done, g)
    {
      OtherGroup(done, p, g);
    }
  }

  /** The inner loop body of `deepMergePolicies`: one more entry of some file. */
  method MergeEntry(merged: map<string, PolicyEntry>, ghost done: seq<PolicyEntry>, p: PolicyEntry)
    returns (m: map<string, PolicyEntry>)
    requires Accumulates(merged, done)
    ensures Accumulates(m, done + [p])
  {
    var entry := p;
    if p.group in merged {
      var allowed := Union(merged[p.group].allowed, p.allowed);
      var denied := Union(merged[p.group].denied, p.denied);
      CombinedGroup(done, p.group);
      entry := merged[p.group].(allowed := allowed, denied := denied);
    }
    CombineOneMore(done, p);
    AccumulateOne(merged, done, p, entry);
    m := merged[p.group := entry];
  }

  /** `deepMergePolicies`, with both map iterations in an arbitrary order. */
  method DeepMergePolicies(files: seq<PolicyFile>) returns (result: seq<PolicyEntry>)
    ensures result == Merge(Flatten(files))
  {
    var merged: map<string, PolicyEntry> := map[];
    ghost var done: seq<PolicyEntry> := [];
    for i := 0 to |files|
      invariant done + Flatten(files[i..]) == Flatten(files)
      invariant Accumulates(merged, done)
    {
      var f := files[i];
      assert files[i..][1..] == files[i + 1..];
      assert f[0..] == f;
      for k := 0 to |f|
        invariant done + f[k..] + Flatten(files[i + 1..]) == Flatten(files)
        invariant Accumulates(merged, done)
      {
        merged := MergeEntry(merged, done, f[k]);
        assert done + f[k..] == done + [f[k]] + f[k + 1..];
        done := done + [f[k]];
      }
    }
    assert done == Flatten(files);
    forall g | g in merged ensures merged[g].group == g {
      CombinedGroup(done, g);
    }
    var list := Values(merged);
    result := SortBy((e: PolicyEntry) => e.group, list);
    SortedListIsMerge(merged, done, list, result);
  }

  ghost predicate ListsValues(merged: map<string, PolicyEntry>, list: seq<PolicyEntry>, gs: set<string>) {
    && (forall k | 0 <= k < |list| ::
        list[k].group in gs && list[k].group in merged && list[k] == merged[list[k].group])
    && (forall k, l | 0 <= k < l < |list| :: list[k].group != list[l].group)
    && (forall g | g in gs :: g in merged && merged[g] in list)
  }

  /** The values of `merged`, in an arbitrary order. */
  method Values(merged: map<string, PolicyEntry>) returns (list: seq<PolicyEntry>)
    requires forall g | g in merged :: merged[g].group == g
    ensures ListsValues(merged, list, merged.Keys)
  {
    list := [];
    var rest := merged.Keys;
    while rest != {}
      invariant rest <= merged.Keys
      invariant ListsValues(merged, list, merged.Keys - rest)
      decreases rest
    {
      var g :| g in rest;
      list, rest := list + [merged[g]], rest - {g};
    }
  }

  lemma SortedListIsMerge(merged: map<string, PolicyEntry>, done: seq<PolicyEntry>,
                          list: seq<PolicyEntry>, result: seq<PolicyEntry>)
    requires Accumulates(merged, done)
    requires ListsValues(merged, list, merged.Keys)
    requires multiset(result) == multiset(list) && SortedBy((e: PolicyEntry) => e.group, result)
    ensures result == Merge(done)
  {
    SameMembers(list, result);
    SortedGroups(list, result);
    SameGroups(merged, done, result);
    MergeKeys(done);
    SortedIsUnique(Groups(result), Groups(Merge(done)));
    GroupsOf(result);
    GroupsOf(Merge(done));
    forall k | 0 <= k < |result| ensures result[k] == Merge(done)[k] {
      assert Groups(result)[k] == SortUnique(Groups(done))[k];
      assert result[k] in list;
    }
  }

  lemma SameGroups(merged: map<string, PolicyEntry>, done: seq<PolicyEntry>, result: seq<PolicyEntry>)
    requires Accumulates(merged, done)
    requires forall x | x in result :: x.group in merged
    requires forall g | g in merged :: merged[g] in result
    ensures Elems(Groups(result)) == Elems(Groups(done))
  {
    forall g | g in Groups(result) ensures g in Groups(done) {
      var e := GroupMember(result, g);
    }
    forall g | g in Groups(done) ensures g in Groups(result) {
      CombinedGroup(done, g);
      HasGroup(result, merged[g]);
    }
    SameSets(Groups(result), Groups(done));
  }

  lemma SameSets<T>(a: seq<T>, b: seq<T>)
    requires forall x | x in a :: x in b
    requires forall x | x in b :: x in a
    ensures Elems(a) == Elems(b)
  {
  }

  lemma GroupMember(es: seq<PolicyEntry>, g: string) returns (e: PolicyEntry)
    requires g in Groups(es)
    ensures e in es && e.group == g
  {
    GroupsOf(es);
    var k :| 0 <= k < |es| && Groups(es)[k] == g;
    e := es[k];
  }

  lemma HasGroup(es: seq<PolicyEntry>, e: PolicyEntry)
    requires e in es
    ensures e.group in Groups(es)
  {
    GroupsOf(es);
    var k :| 0 <= k < |es| && es[k] == e;
    assert Groups(es)[k] == e.group;
  }

  lemma SortedGroups(list: seq<PolicyEntry>, result: seq<PolicyEntry>)
    requires forall k, l | 0 <= k < l < |list| :: list[k].group != list[l].group
    requires forall x :: x in result <==> x in list
    requires multiset(result) == multiset(list) && SortedBy((e: PolicyEntry) => e.group, result)
    ensures StrictlySorted(Groups(result))
  {
    DistinctShuffled(list, result);
    GroupsOf(result);
    forall i, j | 0 <= i < j < |result| ensures Less(result[i].group, result[j].group) {
      assert result[i] in list && result[j] in list && result[i] != result[j];
      LessIsTotal(result[i].group, result[j].group);
    }
  }
}
