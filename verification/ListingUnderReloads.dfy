/** A tool listing whose filter runs as one goroutine of the policy engine, name by name, among reloads and other
    calls. */
module ListingUnderReloads {
  import opened Text
  import opened Domain
  import opened PolicyAdapter
  import opened Outside
  import opened Discovery
  import opened Broker
  import opened EndToEnd
  import HotReload

  type Policies = seq<PolicyEntry>

  /** After the first `moment` actions, goroutine `id` has just answered for this caller and name. */
  ghost predicate AnsweredAt(ps: Policies, acts: seq<HotReload.Action>, id: nat, moment: nat, caller: Identity,
                             name: string, answer: Option<Decision>) {
    moment <= |acts| &&
    var run := HotReload.Run(HotReload.Initial(ps), acts[..moment]);
    && run.Some? && id in run.value.threads
    && var t := run.value.threads[id];
       t.Answered? && t.identity == caller && t.name == name && t.answer == answer
  }

  /** The filter of one listing: goroutine `id` evaluates the names in turn, each as the filter prints it, and stops
      after the last one or after the first error. */
  ghost predicate FilterRun(ps: Policies, acts: seq<HotReload.Action>, id: nat, caller: Identity, names: seq<string>,
                            quotable: string -> bool, moments: seq<nat>, answers: seq<Option<Decision>>) {
    && |moments| == |answers| <= |names|
    && (forall i, j | 0 <= i < j < |moments| :: moments[i] < moments[j])
    && (forall i | 0 <= i < |answers| ::
          AnsweredAt(ps, acts, id, moments[i], caller, AsRead(quotable, names[i]), answers[i]))
    && (|answers| < |names| ==> answers != [] && answers[|answers| - 1].None?)
  }

  /** What the filter returns. */
  function Kept(names: seq<string>, answers: seq<Option<Decision>>): Option<seq<string>> {
    if |answers| == |names| then Filtered(names, answers) else None
  }

  /** `qs` was installed at some moment of the evaluation that goroutine `id` has just answered. */
  ghost predicate InstalledDuring(ps: Policies, acts: seq<HotReload.Action>, id: nat, moment: nat, qs: Policies) {
    moment <= |acts| &&
    var run := HotReload.Run(HotReload.Initial(ps), acts[..moment]);
    && run.Some? && id in run.value.threads && run.value.threads[id].Answered?
    && exists k :: IsMoment(run.value.installs, run.value.threads[id], k) && run.value.installs[k] == qs
  }

  ghost predicate IsMoment(installs: seq<Policies>, t: HotReload.Thread, k: int) {
    t.Answered? && t.started <= k <= t.finished && 0 <= k < |installs|
  }

  /** The list that an answer is the decision over. */
  lemma ListOfAnswer(ps: Policies, acts: seq<HotReload.Action>, id: nat, moment: nat, caller: Identity, name: string,
                     answer: Option<Decision>) returns (qs: Policies)
    requires AnsweredAt(ps, acts, id, moment, caller, name, answer)
    ensures Judged(ps, acts, id, moment, caller, name, answer, qs)
  {
    var m := HotReload.Run(HotReload.Initial(ps), acts[..moment]).value;
    HotReload.AnswersAreOfOneMoment(ps, acts[..moment], id);
    qs := MomentList(m.installs, m.threads[id]);
  }

  lemma MomentList(installs: seq<Policies>, t: HotReload.Thread) returns (qs: Policies)
    requires t.Answered? && HotReload.OfOneMoment(installs, t)
    ensures exists k :: IsMoment(installs, t, k) && installs[k] == qs
    ensures t.answer == PolicyAnswer(qs, t.identity, t.name)
  {
    var k :| t.started <= k <= t.finished && k < |installs| && HotReload.DecidedBy(installs[k], t);
    assert IsMoment(installs, t, k);
    qs := installs[k];
  }

  /** The answer is that of `qs`, which was installed during this evaluation. */
  ghost predicate Judged(ps: Policies, acts: seq<HotReload.Action>, id: nat, moment: nat, caller: Identity,
                         name: string, answer: Option<Decision>, qs: Policies) {
    InstalledDuring(ps, acts, id, moment, qs) && answer == PolicyAnswer(qs, caller, name)
  }

  ghost predicate HasChoice<T(!new)>(ok: (nat, T) -> bool, i: nat) {
    exists x :: ok(i, x)
  }

  lemma {:induction false} Choices<T(!new)>(n: nat, ok: (nat, T) -> bool) returns (xs: seq<T>)
    requires forall i: nat | i < n :: HasChoice(ok, i)
    ensures |xs| == n && forall i: nat | i < n :: ok(i, xs[i])
  {
    if n == 0 {
      xs := [];
    } else {
      var front := Choices(n - 1, ok);
      assert HasChoice(ok, n - 1);
      var last :| ok(n - 1, last);
      xs := front + [last];
    }
  }

  /** Each answer is judged by a list installed while its name was evaluated. */
  lemma ListsOfAnswers(ps: Policies, acts: seq<HotReload.Action>, id: nat, caller: Identity, names: seq<string>,
                       quotable: string -> bool, moments: seq<nat>, answers: seq<Option<Decision>>)
    returns (lists: seq<Policies>)
    requires FilterRun(ps, acts, id, caller, names, quotable, moments, answers)
    ensures |lists| == |answers|
    ensures forall i | 0 <= i < |answers| ::
              Judged(ps, acts, id, moments[i], caller, AsRead(quotable, names[i]), answers[i], lists[i])
  {
    var ok := (i: nat, qs: Policies) =>
      i < |answers| && Judged(ps, acts, id, moments[i], caller, AsRead(quotable, names[i]), answers[i], qs);
    forall i: nat | i < |answers| ensures HasChoice(ok, i) {
      var qs := ListOfAnswer(ps, acts, id, moments[i], caller, AsRead(quotable, names[i]), answers[i]);
      assert ok(i, qs);
    }
    lists := Choices(|answers|, ok);
    assert forall i: nat | i < |answers| :: ok(i, lists[i]);
  }

  /** Where a name stands in a list, or its length. */
  function PlaceOf(names: seq<string>, n: string): (i: nat)
    ensures i <= |names| && (i < |names| ==> names[i] == n)
    ensures n in names ==> i < |names|
  {
    if names == [] || names[0] == n then 0 else 1 + PlaceOf(names[1..], n)
  }

  function ByName(names: seq<string>, lists: seq<Policies>, base: Policies): string -> Policies {
    n => if PlaceOf(names, n) < |lists| then lists[PlaceOf(names, n)] else base
  }

  lemma PlaceInDistinct(names: seq<string>, i: nat)
    requires Distinct(names) && i < |names|
    ensures PlaceOf(names, names[i]) == i
  {
    var j := PlaceOf(names, names[i]);
    assert names[i] in names;
  }

  lemma JudgedByName(names: seq<string>, quotable: string -> bool, caller: Identity, answers: seq<Option<Decision>>,
                     lists: seq<Policies>, base: Policies, i: nat)
    requires Distinct(names) && i < |lists| == |answers| <= |names|
    requires answers[i] == PolicyAnswer(lists[i], caller, AsRead(quotable, names[i]))
    ensures AnswersOver(ByName(names, lists, base), quotable, caller, names)[i] == answers[i]
  {
    PlaceInDistinct(names, i);
    assert ByName(names, lists, base)(names[i]) == lists[i];
  }

  lemma KeptIsFiltered(names: seq<string>, answers: seq<Option<Decision>>, all: seq<Option<Decision>>)
    requires |all| == |names| && |answers| <= |names|
    requires forall i | 0 <= i < |answers| :: all[i] == answers[i]
    requires |answers| < |names| ==> answers != [] && answers[|answers| - 1].None?
    ensures Kept(names, answers) == Filtered(names, all)
  {
    if |answers| == |names| {
      assert all == answers;
    } else {
      FilteredIsExact(names, all);
      assert all[|answers| - 1].None?;
    }
  }

  /** The hypothesis on the filter holds of the policy engine: whatever reloads, updates and other calls fall
      between the evaluations of one listing, its result is that of judging each name by a list that was installed
      while that name was evaluated. */
  lemma EngineFilters(ps: Policies, acts: seq<HotReload.Action>, id: nat, caller: Identity, names: seq<string>,
                      quotable: string -> bool, moments: seq<nat>, answers: seq<Option<Decision>>)
    returns (installed: string -> Policies)
    requires Distinct(names)
    requires FilterRun(ps, acts, id, caller, names, quotable, moments, answers)
    ensures FilteredBy(Filter(caller, names, Kept(names, answers)), installed, quotable)
    ensures forall i | 0 <= i < |answers| :: InstalledDuring(ps, acts, id, moments[i], installed(names[i]))
  {
    var lists := ListsOfAnswers(ps, acts, id, caller, names, quotable, moments, answers);
    installed := ByName(names, lists, ps);
    var all := AnswersOver(installed, quotable, caller, names);
    forall i | 0 <= i < |answers|
      ensures all[i] == answers[i] && installed(names[i]) == lists[i]
    {
      PlaceInDistinct(names, i);
      assert Judged(ps, acts, id, moments[i], caller, AsRead(quotable, names[i]), answers[i], lists[i]);
      JudgedByName(names, quotable, caller, answers, lists, ps, i);
    }
    KeptIsFiltered(names, answers, all);
  }

  /** So a discovery response is exact under every interleaving with reloads: it shows exactly the listed names that
      a policy list installed during their own evaluation permits. */
  lemma DiscoveryIsExactUnderReloads(seg: seq<Event>, ctx: Context, rid: string, kept: seq<string>, s: Setup,
                                     quotable: string -> bool, ps: Policies, acts: seq<HotReload.Action>, id: nat,
                                     moments: seq<nat>, answers: seq<Option<Decision>>)
    returns (installed: string -> Policies)
    requires DiscoveryTranscript(seg, ctx, rid, s.routes, s.hasStore, ToolNames(rid, kept))
    requires var last := seg[|seg| - 1];
             last.Filter? && FilterRun(ps, acts, id, last.caller, last.names, quotable, moments, answers)
             && last.kept == Kept(last.names, answers)
    ensures |seg| >= 2 && seg[0].who.Ok?
    ensures ShownExactly(seg[1..|seg| - 1], seg[0].who.value, kept, installed, quotable)
    ensures forall i | 0 <= i < |answers| ::
            InstalledDuring(ps, acts, id, moments[i], installed(seg[|seg| - 1].names[i]))
  {
    var last := seg[|seg| - 1];
    LastIsTheFilter(seg, ctx, rid, kept, s.routes, s.hasStore);
    DedupIsFirstOccurrences(AllContributed(seg[1..|seg| - 1]));
    installed := EngineFilters(ps, acts, id, last.caller, last.names, quotable, moments, answers);
    assert last == Filter(last.caller, last.names, Kept(last.names, answers));
    DiscoveryIsExact(seg, ctx, rid, kept, s, installed, quotable);
  }
}
