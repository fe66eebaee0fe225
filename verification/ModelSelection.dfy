/** Two ways to pick the best of the latest runs: the agent's comparison and the training pipeline's
selection. Both ask for an experiment's runs newest first. */
module ModelSelection {
  import opened Wrappers

  const FAMILIES := {"catboost_baseline", "lightgbm_baseline", "xgboost_baseline"}

  /** The `limit` that the agent passes to `get_latest_model_runs`. */
  const LIMIT := 100

  datatype Run = Run(id: string, name: Option<string>, start: int, finished: bool, auc: Option<real>)

  predicate Supported(run: Run) {
    run.name.Some? && run.name.value in FAMILIES
  }

  predicate Finished(run: Run) {
    run.finished
  }

  /** `attributes.status = 'FINISHED' and metrics.roc_auc > 0`. */
  predicate Eligible(run: Run) {
    run.finished && run.auc.Some? && run.auc.value > 0.0
  }

  // ----- The queries -----

  function Only(runs: seq<Run>, keep: Run -> bool): (kept: seq<Run>)
    ensures |kept| <= |runs|
  {
    if runs == [] then []
    else Only(runs[..|runs| - 1], keep) + if keep(runs[|runs| - 1]) then [runs[|runs| - 1]] else []
  }

  function Take(runs: seq<Run>, n: nat): seq<Run> {
    if n <= |runs| then runs[..n] else runs
  }

  /** A search: the runs that pass the filter, newest first, up to a page. */
  function Search(runs: seq<Run>, filter: Run -> bool, page: nat): seq<Run> {
    Take(Only(runs, filter), page)
  }

  /** The order in which a search answers. */
  predicate NewestFirst(runs: seq<Run>) {
    forall i, j :: 0 <= i < j < |runs| ==> runs[i].start >= runs[j].start
  }

  /** The same, with distinct start times. */
  predicate StrictlyNewestFirst(runs: seq<Run>) {
    forall i, j :: 0 <= i < j < |runs| ==> runs[i].start > runs[j].start
  }

  lemma {:induction false} OnlyMembers(runs: seq<Run>, keep: Run -> bool)
    ensures forall run :: run in Only(runs, keep) <==> run in runs && keep(run)
  {
    if runs != [] {
      var n := |runs| - 1;
      OnlyMembers(runs[..n], keep);
      assert runs == runs[..n] + [runs[n]];
    }
  }

  lemma LastIsOldest(runs: seq<Run>, run: Run)
    requires runs != [] && run in runs[..|runs| - 1]
    ensures NewestFirst(runs) ==> run.start >= runs[|runs| - 1].start
    ensures StrictlyNewestFirst(runs) ==> run.start > runs[|runs| - 1].start
  {
    var i :| 0 <= i < |runs| - 1 && runs[..|runs| - 1][i] == run;
    assert runs[i] == run;
  }

  lemma {:induction false} OnlyKeepsOrder(runs: seq<Run>, keep: Run -> bool)
    ensures NewestFirst(runs) ==> NewestFirst(Only(runs, keep))
    ensures StrictlyNewestFirst(runs) ==> StrictlyNewestFirst(Only(runs, keep))
  {
    if runs != [] {
      var n := |runs| - 1;
      OnlyKeepsOrder(runs[..n], keep);
      OnlyMembers(runs[..n], keep);
      forall run | run in Only(runs[..n], keep)
        ensures NewestFirst(runs) ==> run.start >= runs[n].start
        ensures StrictlyNewestFirst(runs) ==> run.start > runs[n].start
      {
        LastIsOldest(runs, run);
      }
    }
  }

  lemma OnlyFacts(runs: seq<Run>, keep: Run -> bool)
    ensures forall run :: run in Only(runs, keep) <==> run in runs && keep(run)
    ensures NewestFirst(runs) ==> NewestFirst(Only(runs, keep))
    ensures StrictlyNewestFirst(runs) ==> StrictlyNewestFirst(Only(runs, keep))
  {
    OnlyMembers(runs, keep);
    OnlyKeepsOrder(runs, keep);
  }

  lemma {:induction false} OnlyJoin(a: seq<Run>, b: seq<Run>, keep: Run -> bool)
    ensures Only(a + b, keep) == Only(a, keep) + Only(b, keep)
  {
    if b == [] {
      assert a + b == a;
    } else {
      OnlyJoin(a, b[..|b| - 1], keep);
      assert (a + b)[..|a + b| - 1] == a + b[..|b| - 1];
    }
  }

  lemma {:induction false} OnlyTwice(runs: seq<Run>, first: Run -> bool, second: Run -> bool)
    requires forall run :: second(run) ==> first(run)
    ensures Only(Only(runs, first), second) == Only(runs, second)
  {
    if runs != [] {
      var n := |runs| - 1;
      OnlyTwice(runs[..n], first, second);
      if first(runs[n]) {
        OnlyJoin(Only(runs[..n], first), [runs[n]], second);
        assert [runs[n]][..0] == [];
        assert Only([runs[n]], second) == if second(runs[n]) then [runs[n]] else [];
      } else {
        assert Only(runs, first) == Only(runs[..n], first);
        assert Only(runs, second) == Only(runs[..n], second);
      }
    }
  }

  lemma TakeOfJoin(a: seq<Run>, b: seq<Run>, page: nat, run: Run)
    requires run in a && |a| <= page
    ensures run in Take(a + b, page)
  {
    var i :| 0 <= i < |a| && a[i] == run;
    assert Take(a + b, page)[i] == run;
  }

  /** What is among the first `n` and passes a filter is among the first `n` that pass it. */
  lemma TakeSurvivesFilter(runs: seq<Run>, keep: Run -> bool, n: nat, page: nat, run: Run)
    requires run in Take(runs, n) && keep(run) && n <= page
    ensures run in Take(Only(runs, keep), page)
  {
    var front := Take(runs, n);
    var rest := runs[|front|..];
    OnlyMembers(front, keep);
    TakeOfJoin(Only(front, keep), Only(rest, keep), page, run);
    OnlyJoin(front, rest, keep);
    assert runs == front + rest;
  }

  // ----- The first run of each family -----

  predicate HasName(runs: seq<Run>, name: Option<string>) {
    exists i :: 0 <= i < |runs| && runs[i].name == name
  }

  /** The first run of each supported family, in the order found. */
  function FirstOfEach(runs: seq<Run>): seq<Run> {
    if runs == [] then []
    else
      var firsts := FirstOfEach(runs[..|runs| - 1]);
      var last := runs[|runs| - 1];
      if !Supported(last) || HasName(firsts, last.name) then firsts else firsts + [last]
  }

  predicate OnePerFamily(runs: seq<Run>) {
    forall i, j :: 0 <= i < j < |runs| ==> runs[i].name != runs[j].name
  }

  predicate FirstAt(runs: seq<Run>, run: Run, i: int) {
    0 <= i < |runs| && runs[i] == run && !HasName(runs[..i], run.name)
  }

  /** `run` comes before every other run of its name. */
  predicate IsFirst(runs: seq<Run>, run: Run) {
    exists i :: 0 <= i < |runs| && FirstAt(runs, run, i)
  }

  lemma HasNameJoin(a: seq<Run>, b: seq<Run>, name: Option<string>)
    ensures HasName(a + b, name) <==> HasName(a, name) || HasName(b, name)
  {
    if HasName(a, name) {
      var i :| 0 <= i < |a| && a[i].name == name;
      assert (a + b)[i].name == name;
    }
    if HasName(b, name) {
      var i :| 0 <= i < |b| && b[i].name == name;
      assert (a + b)[|a| + i].name == name;
    }
  }

  lemma FirstIsLeast(runs: seq<Run>, run: Run, i: int, k: int)
    requires FirstAt(runs, run, i) && 0 <= k < |runs| && runs[k].name == run.name
    ensures i <= k
  {
    assert forall j :: 0 <= j < i ==> runs[..i][j].name == runs[j].name;
  }

  lemma FirstInPrefix(a: seq<Run>, b: seq<Run>, run: Run)
    ensures IsFirst(a, run) ==> IsFirst(a + b, run)
    ensures IsFirst(a + b, run) && run in a ==> IsFirst(a, run)
  {
    var all := a + b;
    if IsFirst(a, run) {
      var i :| 0 <= i < |a| && FirstAt(a, run, i);
      assert all[..i] == a[..i];
      assert FirstAt(all, run, i);
    }
    if IsFirst(all, run) && run in a {
      var i :| 0 <= i < |all| && FirstAt(all, run, i);
      var k :| 0 <= k < |a| && a[k] == run;
      FirstIsLeast(all, run, i, k);
      assert all[..i] == a[..i];
      assert FirstAt(a, run, i);
    }
  }

  lemma FirstIsLast(front: seq<Run>, last: Run, run: Run)
    ensures IsFirst(front + [last], run) <==> IsFirst(front, run) || (run == last && !HasName(front, last.name))
  {
    var all := front + [last];
    FirstInPrefix(front, [last], run);
    if run == last && !HasName(front, last.name) {
      assert all[..|front|] == front;
      assert FirstAt(all, run, |front|);
    }
    if IsFirst(all, run) && run !in front {
      var i :| 0 <= i < |all| && FirstAt(all, run, i);
      assert forall j :: 0 <= j < |front| ==> all[j] == front[j] && front[j] != run;
      assert all[..i] == front;
    }
  }

  /** `firsts` holds the first run of each supported family in `runs`, once, and nothing else. */
  ghost predicate AreFirsts(runs: seq<Run>, firsts: seq<Run>) {
    && OnePerFamily(firsts)
    && (forall run :: run in firsts <==> Supported(run) && IsFirst(runs, run))
    && (forall name: Option<string> :: name.Some? && name.value in FAMILIES ==>
          (HasName(firsts, name) <==> HasName(runs, name)))
  }

  lemma {:induction false} FirstOfEachFacts(runs: seq<Run>)
    ensures AreFirsts(runs, FirstOfEach(runs))
  {
    if runs != [] {
      var n := |runs| - 1;
      var front, firsts, last := runs[..n], FirstOfEach(runs[..n]), runs[n];
      FirstOfEachFacts(front);
      assert runs == front + [last];
      forall run ensures IsFirst(runs, run) <==> IsFirst(front, run) || (run == last && !HasName(front, last.name)) {
        FirstIsLast(front, last, run);
      }
      forall name: Option<string>
        ensures HasName(runs, name) <==> HasName(front, name) || last.name == name
        ensures HasName(firsts + [last], name) <==> HasName(firsts, name) || last.name == name
      {
        HasNameJoin(front, [last], name);
        HasNameJoin(firsts, [last], name);
        assert HasName([last], name) <==> [last][0].name == name;
      }
    }
  }

  lemma FirstIsNewest(runs: seq<Run>, run: Run)
    requires StrictlyNewestFirst(runs) && IsFirst(runs, run)
    ensures forall other :: other in runs && other.name == run.name ==> other.start < run.start || other == run
  {
    var i :| 0 <= i < |runs| && FirstAt(runs, run, i);
    forall other | other in runs && other.name == run.name ensures other.start < run.start || other == run {
      var k :| 0 <= k < |runs| && runs[k] == other;
      FirstIsLeast(runs, run, i, k);
    }
  }

  // ----- compare_latest_models -----

  /** The order of the ranking keys: a missing metric counts as minus infinity. */
  predicate AtLeast(a: Option<real>, b: Option<real>) {
    b.None? || (a.Some? && a.value >= b.value)
  }

  function InsertRanked(run: Run, ranked: seq<Run>): seq<Run> {
    if ranked == [] || AtLeast(run.auc, ranked[0].auc) then [run] + ranked
    else [ranked[0]] + InsertRanked(run, ranked[1..])
  }

  /** Python's stable sort by metric, highest first. */
  function Ranked(runs: seq<Run>): seq<Run> {
    if runs == [] then [] else InsertRanked(runs[0], Ranked(runs[1..]))
  }

  /** Higher metric first, missing metrics last, the newer run first on ties. */
  predicate GoesBefore(a: Run, b: Run) {
    AtLeast(a.auc, b.auc) && (a.auc == b.auc ==> a.start >= b.start)
  }

  predicate InOrder(runs: seq<Run>) {
    forall i, j :: 0 <= i < j < |runs| ==> GoesBefore(runs[i], runs[j])
  }

  lemma ConsInOrder(run: Run, rest: seq<Run>)
    requires InOrder(rest) && forall x :: x in rest ==> GoesBefore(run, x)
    ensures InOrder([run] + rest)
  {
  }

  lemma {:induction false} InsertKeepsRuns(run: Run, ranked: seq<Run>)
    ensures multiset(InsertRanked(run, ranked)) == multiset{run} + multiset(ranked)
  {
    if ranked != [] {
      InsertKeepsRuns(run, ranked[1..]);
      assert ranked == [ranked[0]] + ranked[1..];
    }
  }

  lemma InsertedMembers(run: Run, ranked: seq<Run>, x: Run)
    ensures x in InsertRanked(run, ranked) <==> x == run || x in ranked
  {
    InsertKeepsRuns(run, ranked);
    assert x in InsertRanked(run, ranked) <==> x in multiset(InsertRanked(run, ranked));
  }

  lemma {:induction false} InsertKeepsOrder(run: Run, ranked: seq<Run>)
    requires InOrder(ranked) && forall x :: x in ranked ==> run.start >= x.start
    ensures InOrder(InsertRanked(run, ranked))
  {
    if ranked == [] {
    } else if AtLeast(run.auc, ranked[0].auc) {
      forall x | x in ranked ensures GoesBefore(run, x) {
        var i :| 0 <= i < |ranked| && ranked[i] == x;
        assert i > 0 ==> GoesBefore(ranked[0], ranked[i]);
      }
      ConsInOrder(run, ranked);
    } else {
      var rest := InsertRanked(run, ranked[1..]);
      InsertKeepsOrder(run, ranked[1..]);
      forall x | x in rest ensures GoesBefore(ranked[0], x) {
        InsertedMembers(run, ranked[1..], x);
        if x in ranked[1..] {
          var i :| 0 <= i < |ranked| - 1 && ranked[1..][i] == x;
          assert GoesBefore(ranked[0], ranked[i + 1]);
        }
      }
      ConsInOrder(ranked[0], rest);
    }
  }

  lemma {:induction false} RankedFacts(runs: seq<Run>)
    requires NewestFirst(runs)
    ensures InOrder(Ranked(runs)) && multiset(Ranked(runs)) == multiset(runs)
  {
    if runs != [] {
      RankedFacts(runs[1..]);
      assert runs == [runs[0]] + runs[1..];
      forall x | x in Ranked(runs[1..]) ensures runs[0].start >= x.start {
        assert x in multiset(runs[1..]);
        assert x in runs[1..];
      }
      InsertKeepsOrder(runs[0], Ranked(runs[1..]));
      InsertKeepsRuns(runs[0], Ranked(runs[1..]));
    }
  }

  /** `ranked` is the first run of each supported family of `runs`, each once, best first. */
  ghost predicate IsRanking(runs: seq<Run>, ranked: seq<Run>) {
    && InOrder(ranked)
    && multiset(ranked) == multiset(FirstOfEach(runs))
    && AreFirsts(runs, FirstOfEach(runs))
  }

  lemma {:induction false} FirstsNewestFirst(runs: seq<Run>)
    requires NewestFirst(runs)
    ensures NewestFirst(FirstOfEach(runs))
    ensures forall run :: run in FirstOfEach(runs) ==> run in runs
  {
    if runs != [] {
      var n := |runs| - 1;
      FirstsNewestFirst(runs[..n]);
      forall run | run in FirstOfEach(runs[..n]) ensures run in runs && run.start >= runs[n].start {
        LastIsOldest(runs, run);
      }
    }
  }

  lemma TakeFacts(runs: seq<Run>, n: nat)
    ensures NewestFirst(runs) ==> NewestFirst(Take(runs, n))
    ensures StrictlyNewestFirst(runs) ==> StrictlyNewestFirst(Take(runs, n))
    ensures runs == Take(runs, n) + runs[|Take(runs, n)|..]
  {
  }

  lemma SearchIsOrdered(runs: seq<Run>, filter: Run -> bool, page: nat)
    ensures NewestFirst(runs) ==> NewestFirst(Search(runs, filter, page))
    ensures StrictlyNewestFirst(runs) ==> StrictlyNewestFirst(Search(runs, filter, page))
  {
    OnlyKeepsOrder(runs, filter);
    TakeFacts(Only(runs, filter), page);
  }

  lemma SearchMember(runs: seq<Run>, filter: Run -> bool, page: nat, run: Run)
    requires run in Search(runs, filter, page)
    ensures run in runs && filter(run)
  {
    OnlyMembers(runs, filter);
    var i :| 0 <= i < |Search(runs, filter, page)| && Search(runs, filter, page)[i] == run;
    assert Only(runs, filter)[i] == run;
  }

  lemma SearchFacts(runs: seq<Run>, filter: Run -> bool, page: nat)
    ensures NewestFirst(runs) ==> NewestFirst(Search(runs, filter, page))
    ensures StrictlyNewestFirst(runs) ==> StrictlyNewestFirst(Search(runs, filter, page))
    ensures forall run :: run in Search(runs, filter, page) ==> run in runs && filter(run)
  {
    SearchIsOrdered(runs, filter, page);
    forall run | run in Search(runs, filter, page) ensures run in runs && filter(run) {
      SearchMember(runs, filter, page, run);
    }
  }

  /** `compare_latest_models`; no experiment gives an empty list. */
  method CompareLatestModels(experiment: Option<seq<Run>>) returns (ranked: seq<Run>)
    requires experiment.Some? ==> NewestFirst(experiment.value)
    ensures experiment.None? ==> ranked == []
    ensures experiment.Some? ==> IsRanking(Search(experiment.value, Finished, LIMIT), ranked)
  {
    if experiment.None? {
      return [];
    }
    var runs := Search(experiment.value, Finished, LIMIT);
    SearchFacts(experiment.value, Finished, LIMIT);
    var latest := [];
    var n := 0;
    while n < |runs|
      invariant 0 <= n <= |runs| && latest == FirstOfEach(runs[..n])
    {
      assert runs[..n + 1][..n] == runs[..n];
      if Supported(runs[n]) && !HasName(latest, runs[n].name) {
        latest := latest + [runs[n]];
      }
      n := n + 1;
    }
    assert runs[..n] == runs;
    FirstsNewestFirst(runs);
    FirstOfEachFacts(runs);
    RankedFacts(latest);
    return Ranked(latest);
  }

  // ----- select_best_model -----

  datatype SelectError = ExperimentNotFound | NoFinishedRuns | NoModelRuns

  /** pandas may sort ties either way: a sorter is any function that gives a permutation in order. */
  type Sorter = seq<Run> -> seq<Run>

  ghost predicate SortsByStart(sorter: Sorter) {
    forall runs :: multiset(sorter(runs)) == multiset(runs) && ByStart(sorter(runs))
  }

  predicate ByStart(runs: seq<Run>) {
    forall i, j :: 0 <= i < j < |runs| ==> runs[i].start >= runs[j].start
  }

  ghost predicate SortsByAuc(sorter: Sorter) {
    forall runs :: multiset(sorter(runs)) == multiset(runs) && ByAuc(sorter(runs))
  }

  predicate ByAuc(runs: seq<Run>) {
    forall i, j :: 0 <= i < j < |runs| ==> AtLeast(runs[i].auc, runs[j].auc)
  }

  /** `run` is a newest run of its family. */
  predicate Newest(rows: seq<Run>, run: Run) {
    run in rows && forall other :: other in rows && other.name == run.name ==> other.start <= run.start
  }

  /** A newest run of the family does no better than `best`. */
  ghost predicate Beats(rows: seq<Run>, best: Run, family: Option<string>) {
    exists rival :: Newest(rows, rival) && rival.name == family && AtLeast(best.auc, rival.auc)
  }

  /** `best` is a newest run of its family, and no family does better with a newest run of its own. */
  ghost predicate IsBest(rows: seq<Run>, best: Run) {
    && Newest(rows, best)
    && forall run {:trigger Beats(rows, best, run.name)} :: run in rows ==> Beats(rows, best, run.name)
  }

  lemma MembersAgree(a: seq<Run>, b: seq<Run>)
    requires multiset(a) == multiset(b)
    ensures |a| == |b| && forall run :: run in a <==> run in b
  {
    assert |multiset(a)| == |multiset(b)|;
    forall run ensures run in a <==> run in b {
      assert run in multiset(a) <==> run in multiset(b);
    }
  }

  lemma FirstOfSortedIsNewest(rows: seq<Run>, sorted: seq<Run>, run: Run)
    requires multiset(sorted) == multiset(rows) && ByStart(sorted) && IsFirst(sorted, run)
    ensures Newest(rows, run)
  {
    MembersAgree(sorted, rows);
    var i :| 0 <= i < |sorted| && FirstAt(sorted, run, i);
    forall other | other in rows && other.name == run.name ensures other.start <= run.start {
      var k :| 0 <= k < |sorted| && sorted[k] == other;
      FirstIsLeast(sorted, run, i, k);
    }
  }

  /** `sorted` is the rows by start, and `kept` the first of each family by metric. */
  ghost predicate Selects(rows: seq<Run>, sorted: seq<Run>, kept: seq<Run>) {
    && (forall run :: run in rows ==> Supported(run))
    && multiset(sorted) == multiset(rows) && ByStart(sorted)
    && multiset(kept) == multiset(FirstOfEach(sorted)) && ByAuc(kept)
  }

  /** The chain may end with `best` at its head: pandas leaves ties in either sort open. */
  ghost predicate Picks(rows: seq<Run>, best: Run) {
    exists sorted, kept :: Selects(rows, sorted, kept) && kept != [] && kept[0] == best
  }

  lemma KeptAreNewest(rows: seq<Run>, sorted: seq<Run>, kept: seq<Run>, run: Run)
    requires Selects(rows, sorted, kept) && run in kept
    ensures Newest(rows, run)
  {
    FirstOfEachFacts(sorted);
    MembersAgree(kept, FirstOfEach(sorted));
    FirstOfSortedIsNewest(rows, sorted, run);
  }

  lemma FamilyIsKept(rows: seq<Run>, sorted: seq<Run>, kept: seq<Run>, run: Run) returns (rival: Run)
    requires Selects(rows, sorted, kept) && run in rows
    ensures rival in kept && rival.name == run.name
  {
    var firsts := FirstOfEach(sorted);
    FirstOfEachFacts(sorted);
    MembersAgree(sorted, rows);
    MembersAgree(kept, firsts);
    var k :| 0 <= k < |sorted| && sorted[k] == run;
    assert HasName(sorted, run.name);
    var i :| 0 <= i < |firsts| && firsts[i].name == run.name;
    rival := firsts[i];
    assert rival in firsts;
  }

  lemma HeadBeats(kept: seq<Run>, rival: Run)
    requires ByAuc(kept) && rival in kept
    ensures AtLeast(kept[0].auc, rival.auc)
  {
    var i :| 0 <= i < |kept| && kept[i] == rival;
  }

  /** Sort by start, keep the first of each family, sort by metric: the head is a best run. */
  lemma HeadIsBest(rows: seq<Run>, sorted: seq<Run>, kept: seq<Run>)
    requires rows != [] && Selects(rows, sorted, kept)
    ensures kept != [] && IsBest(rows, kept[0])
  {
    var first := FamilyIsKept(rows, sorted, kept, rows[0]);
    KeptAreNewest(rows, sorted, kept, kept[0]);
    forall run | run in rows
      ensures Beats(rows, kept[0], run.name)
    {
      var rival := FamilyIsKept(rows, sorted, kept, run);
      KeptAreNewest(rows, sorted, kept, rival);
      HeadBeats(kept, rival);
    }
  }

  /** The loop that collects the rows of the supported families. */
  method Collect(runs: seq<Run>) returns (rows: seq<Run>)
    ensures rows == Only(runs, Supported)
  {
    rows := [];
    var n := 0;
    while n < |runs|
      invariant 0 <= n <= |runs| && rows == Only(runs[..n], Supported)
    {
      assert runs[..n + 1][..n] == runs[..n];
      if Supported(runs[n]) {
        rows := rows + [runs[n]];
      }
      n := n + 1;
    }
    assert runs[..n] == runs;
  }

  /** The sort, drop and sort chain. */
  method Choose(rows: seq<Run>, byStart: Sorter, byAuc: Sorter) returns (best: Run)
    requires rows != [] && forall run :: run in rows ==> Supported(run)
    requires SortsByStart(byStart) && SortsByAuc(byAuc)
    ensures Picks(rows, best) && IsBest(rows, best)
  {
    var sorted := byStart(rows);
    var kept := byAuc(FirstOfEach(sorted));
    assert Selects(rows, sorted, kept);
    HeadIsBest(rows, sorted, kept);
    return kept[0];
  }

  /** The selection in `main`; `page` is the search's default page size. */
  method SelectBest(experiment: Option<seq<Run>>, page: nat, byStart: Sorter, byAuc: Sorter)
    returns (r: Result<Run, SelectError>)
    requires SortsByStart(byStart) && SortsByAuc(byAuc)
    ensures r == Err(ExperimentNotFound) <==> experiment.None?
    ensures experiment.Some? ==>
      var runs := Search(experiment.value, Eligible, page); var rows := Only(runs, Supported);
      && (r == Err(NoFinishedRuns) <==> runs == [])
      && (r == Err(NoModelRuns) <==> runs != [] && rows == [])
      && (r.Ok? ==> Picks(rows, r.value) && IsBest(rows, r.value))
  {
    if experiment.None? {
      return Err(ExperimentNotFound);
    }
    var runs := Search(experiment.value, Eligible, page);
    if runs == [] {
      return Err(NoFinishedRuns);
    }
    var rows := Collect(runs);
    if rows == [] {
      return Err(NoModelRuns);
    }
    OnlyFacts(runs, Supported);
    var best := Choose(rows, byStart, byAuc);
    return Ok(best);
  }
}
