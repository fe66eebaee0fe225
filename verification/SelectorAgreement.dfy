/** When the agent's comparison and the training pipeline's selection name the same run.

`ranked` is the comparison of an experiment's runs, and `rows` what the selection chooses from. */
module SelectorAgreement {
  import opened Wrappers
  import opened ModelSelection

  /** What the selection chooses from, with a search page of `page` runs. */
  function RowsOf(runs: seq<Run>, page: nat): seq<Run> {
    Only(Search(runs, Eligible, page), Supported)
  }

  /** `ranked` is what the agent's comparison gives for these runs. */
  ghost predicate Compares(runs: seq<Run>, ranked: seq<Run>) {
    StrictlyNewestFirst(runs) && IsRanking(Search(runs, Finished, LIMIT), ranked)
  }

  lemma RowsFacts(runs: seq<Run>, page: nat)
    requires StrictlyNewestFirst(runs)
    ensures StrictlyNewestFirst(RowsOf(runs, page))
    ensures forall run :: run in RowsOf(runs, page) ==> run in runs && Eligible(run) && Supported(run)
  {
    SearchFacts(runs, Eligible, page);
    OnlyFacts(Search(runs, Eligible, page), Supported);
  }

  lemma FamilyHasFirst(runs: seq<Run>, run: Run) returns (first: Run)
    requires run in runs && Supported(run)
    ensures first.name == run.name && IsFirst(runs, first) && Supported(first)
  {
    FirstOfEachFacts(runs);
    var k :| 0 <= k < |runs| && runs[k] == run;
    assert HasName(runs, run.name);
    var firsts := FirstOfEach(runs);
    var i :| 0 <= i < |firsts| && firsts[i].name == run.name;
    first := firsts[i];
    assert first in firsts;
  }

  lemma NewestIsUnique(rows: seq<Run>, a: Run, b: Run)
    requires StrictlyNewestFirst(rows) && Newest(rows, a) && Newest(rows, b) && a.name == b.name
    ensures a == b
  {
    var i :| 0 <= i < |rows| && rows[i] == a;
    var j :| 0 <= j < |rows| && rows[j] == b;
  }

  lemma FamilyHasNewest(rows: seq<Run>, run: Run) returns (newest: Run)
    requires StrictlyNewestFirst(rows) && run in rows && Supported(run)
    ensures Newest(rows, newest) && newest.name == run.name
  {
    newest := FamilyHasFirst(rows, run);
    var i :| 0 <= i < |rows| && FirstAt(rows, newest, i);
    FirstIsNewest(rows, newest);
  }

  // ----- The ranked runs and the rows -----

  lemma RankedRuns(runs: seq<Run>, ranked: seq<Run>, run: Run)
    requires Compares(runs, ranked)
    ensures run in ranked <==>
            Supported(run) && IsFirst(Only(runs, Finished), run) && run in Take(Only(runs, Finished), LIMIT)
  {
    var finished := Only(runs, Finished);
    var shown := Take(finished, LIMIT);
    TakeFacts(finished, LIMIT);
    MembersAgree(ranked, FirstOfEach(shown));
    FirstOfEachFacts(shown);
    FirstInPrefix(shown, finished[|shown|..], run);
    if IsFirst(shown, run) {
      var i :| 0 <= i < |shown| && FirstAt(shown, run, i);
    }
  }

  lemma EligibleRowIsIn(runs: seq<Run>, page: nat, run: Run)
    requires page >= LIMIT && run in Take(Only(runs, Finished), LIMIT) && Supported(run) && Eligible(run)
    ensures run in RowsOf(runs, page)
  {
    OnlyTwice(runs, Finished, Eligible);
    TakeSurvivesFilter(Only(runs, Finished), Eligible, LIMIT, page, run);
    OnlyMembers(Search(runs, Eligible, page), Supported);
  }

  /** A ranked run is its family's newest row exactly when it has a positive metric. */
  lemma RankedIsNewestWhen(runs: seq<Run>, page: nat, ranked: seq<Run>, run: Run)
    requires Compares(runs, ranked) && page >= LIMIT && run in ranked
    ensures Newest(RowsOf(runs, page), run) <==> Eligible(run)
  {
    RankedRuns(runs, ranked, run);
    RowsFacts(runs, page);
    if Eligible(run) {
      EligibleRowIsIn(runs, page, run);
      OnlyFacts(runs, Finished);
      FirstIsNewest(Only(runs, Finished), run);
    }
  }

  // ----- What the selection can come out with -----

  lemma BestBeatsNewest(rows: seq<Run>, best: Run, run: Run)
    requires StrictlyNewestFirst(rows) && IsBest(rows, best) && Newest(rows, run)
    ensures AtLeast(best.auc, run.auc)
  {
    assert Beats(rows, best, run.name);
    var rival :| Newest(rows, rival) && rival.name == run.name && AtLeast(best.auc, rival.auc);
    NewestIsUnique(rows, rival, run);
  }

  lemma NewestAreFirsts(rows: seq<Run>, run: Run)
    requires StrictlyNewestFirst(rows) && forall other :: other in rows ==> Supported(other)
    ensures run in FirstOfEach(rows) <==> Newest(rows, run)
  {
    FirstOfEachFacts(rows);
    if run in FirstOfEach(rows) {
      var i :| 0 <= i < |rows| && FirstAt(rows, run, i);
      FirstIsNewest(rows, run);
    }
    if Newest(rows, run) {
      var first := FamilyHasFirst(rows, run);
      var i :| 0 <= i < |rows| && FirstAt(rows, first, i);
      FirstIsNewest(rows, first);
      NewestIsUnique(rows, first, run);
    }
  }

  /** `ranked` with its element `k` moved to the head. */
  function Promoted(ranked: seq<Run>, k: nat): seq<Run>
    requires k < |ranked|
  {
    [ranked[k]] + (ranked[..k] + ranked[k + 1..])
  }

  lemma PromotedFacts(ranked: seq<Run>, k: nat)
    requires k < |ranked| && InOrder(ranked) && forall run :: run in ranked ==> AtLeast(ranked[k].auc, run.auc)
    ensures multiset(Promoted(ranked, k)) == multiset(ranked) && ByAuc(Promoted(ranked, k))
  {
    assert ranked == ranked[..k] + [ranked[k]] + ranked[k + 1..];
    var kept := Promoted(ranked, k);
    forall i, j | 0 <= i < j < |kept| ensures AtLeast(kept[i].auc, kept[j].auc) {
      var a, b := if i <= k then i - 1 else i, if j <= k then j - 1 else j;
      assert kept[j] == ranked[b];
      if i > 0 {
        assert kept[i] == ranked[a] && GoesBefore(ranked[a], ranked[b]);
      }
    }
  }

  /** Every best run can come out of the sorts, for some way of breaking ties. */
  lemma BestIsPicked(rows: seq<Run>, best: Run)
    requires StrictlyNewestFirst(rows) && (forall run :: run in rows ==> Supported(run)) && IsBest(rows, best)
    ensures Picks(rows, best)
  {
    var firsts := FirstOfEach(rows);
    var ranked := Ranked(firsts);
    FirstsNewestFirst(rows);
    RankedFacts(firsts);
    MembersAgree(ranked, firsts);
    forall run | run in ranked ensures AtLeast(best.auc, run.auc) {
      NewestAreFirsts(rows, run);
      BestBeatsNewest(rows, best, run);
    }
    NewestAreFirsts(rows, best);
    var k :| 0 <= k < |ranked| && ranked[k] == best;
    PromotedFacts(ranked, k);
    assert Selects(rows, rows, Promoted(ranked, k));
  }

  /** What can come out of the selection is exactly a best run. */
  lemma PicksExactlyTheBest(rows: seq<Run>, best: Run)
    requires StrictlyNewestFirst(rows) && forall run :: run in rows ==> Supported(run)
    ensures Picks(rows, best) <==> IsBest(rows, best)
  {
    if Picks(rows, best) {
      var sorted, kept :| Selects(rows, sorted, kept) && kept != [] && kept[0] == best;
      PickedIsBest(rows, sorted, kept);
    }
    if IsBest(rows, best) {
      BestIsPicked(rows, best);
    }
  }

  lemma PickedIsBest(rows: seq<Run>, sorted: seq<Run>, kept: seq<Run>)
    requires Selects(rows, sorted, kept) && kept != []
    ensures IsBest(rows, kept[0])
  {
    KeptAreNewest(rows, sorted, kept, kept[0]);
    HeadIsBest(rows, sorted, kept);
  }

  // ----- The head of the comparison -----

  /** No family's newest measured run that the comparison does not show has a higher metric than the head. */
  ghost predicate NoHiddenRival(rows: seq<Run>, ranked: seq<Run>)
    requires ranked != []
  {
    forall run :: Newest(rows, run) && run !in ranked ==> AtLeast(ranked[0].auc, run.auc)
  }

  /** Every other run that the comparison shows, and every family's newest measured run that it does not
      show, has a lower metric than the head. */
  ghost predicate Leads(rows: seq<Run>, ranked: seq<Run>)
    requires ranked != []
  {
    && (forall run :: run in ranked && run != ranked[0] ==> run.auc != ranked[0].auc)
    && (forall run :: Newest(rows, run) && run !in ranked ==> !AtLeast(run.auc, ranked[0].auc))
  }

  lemma HeadGoesFirst(ranked: seq<Run>, run: Run)
    requires InOrder(ranked) && run in ranked
    ensures AtLeast(ranked[0].auc, run.auc)
  {
    var i :| 0 <= i < |ranked| && ranked[i] == run;
    assert i > 0 ==> GoesBefore(ranked[0], ranked[i]);
  }

  lemma BeatsAllNewest(rows: seq<Run>, best: Run)
    requires StrictlyNewestFirst(rows) && (forall run :: run in rows ==> Supported(run)) && Newest(rows, best)
    requires forall run :: Newest(rows, run) ==> AtLeast(best.auc, run.auc)
    ensures IsBest(rows, best)
  {
    forall run | run in rows ensures Beats(rows, best, run.name) {
      var rival := FamilyHasNewest(rows, run);
    }
  }

  lemma HeadIsBestExactlyWhen(runs: seq<Run>, page: nat, ranked: seq<Run>)
    requires Compares(runs, ranked) && page >= LIMIT && ranked != []
    ensures IsBest(RowsOf(runs, page), ranked[0]) <==> Eligible(ranked[0]) && NoHiddenRival(RowsOf(runs, page), ranked)
  {
    var rows, head := RowsOf(runs, page), ranked[0];
    RowsFacts(runs, page);
    RankedIsNewestWhen(runs, page, ranked, head);
    if IsBest(rows, head) {
      forall run | Newest(rows, run) ensures AtLeast(head.auc, run.auc) {
        BestBeatsNewest(rows, head, run);
      }
    }
    if Eligible(head) && NoHiddenRival(rows, ranked) {
      forall run | Newest(rows, run) ensures AtLeast(head.auc, run.auc) {
        if run in ranked { HeadGoesFirst(ranked, run); }
      }
      BeatsAllNewest(rows, head);
    }
  }

  /** The selection may pick the head of the comparison, for some way of breaking ties, if and only if the
      head has a positive metric and no family's newest measured run that the comparison does not show has
      a higher one. */
  lemma HeadMayBePickedExactlyWhen(runs: seq<Run>, page: nat, ranked: seq<Run>)
    requires Compares(runs, ranked) && page >= LIMIT && ranked != []
    ensures Picks(RowsOf(runs, page), ranked[0]) <==> Eligible(ranked[0]) && NoHiddenRival(RowsOf(runs, page), ranked)
  {
    RowsFacts(runs, page);
    PicksExactlyTheBest(RowsOf(runs, page), ranked[0]);
    HeadIsBestExactlyWhen(runs, page, ranked);
  }

  lemma RivalIsBest(rows: seq<Run>, best: Run, rival: Run)
    requires StrictlyNewestFirst(rows) && (forall run :: run in rows ==> Supported(run))
    requires IsBest(rows, best) && Newest(rows, rival) && AtLeast(rival.auc, best.auc)
    ensures IsBest(rows, rival)
  {
    forall run | Newest(rows, run) ensures AtLeast(rival.auc, run.auc) {
      BestBeatsNewest(rows, best, run);
    }
    BeatsAllNewest(rows, rival);
  }

  /** The selection picks `head`, and can pick nothing else, however ties are broken. */
  ghost predicate OnlyPick(rows: seq<Run>, head: Run) {
    forall best :: Picks(rows, best) <==> best == head
  }

  lemma OnlyPickLeads(runs: seq<Run>, page: nat, ranked: seq<Run>)
    requires Compares(runs, ranked) && page >= LIMIT && ranked != [] && OnlyPick(RowsOf(runs, page), ranked[0])
    ensures Eligible(ranked[0]) && Leads(RowsOf(runs, page), ranked)
  {
    var rows, head := RowsOf(runs, page), ranked[0];
    RowsFacts(runs, page);
    assert Picks(rows, head);
    HeadMayBePickedExactlyWhen(runs, page, ranked);
    PicksExactlyTheBest(rows, head);
    forall run | Newest(rows, run) && AtLeast(run.auc, head.auc) ensures run == head {
      RivalIsBest(rows, head, run);
      PicksExactlyTheBest(rows, run);
    }
    forall run | run in ranked && run.auc == head.auc ensures run == head {
      RankedIsNewestWhen(runs, page, ranked, run);
      RankedAreFinished(runs, ranked, run);
    }
  }

  lemma RankedAreFinished(runs: seq<Run>, ranked: seq<Run>, run: Run)
    requires Compares(runs, ranked) && run in ranked
    ensures run.finished
  {
    RankedRuns(runs, ranked, run);
    OnlyMembers(runs, Finished);
    var i :| 0 <= i < |Only(runs, Finished)| && FirstAt(Only(runs, Finished), run, i);
    assert run in Only(runs, Finished) && Finished(run);
  }

  lemma LeaderIsOnlyPick(runs: seq<Run>, page: nat, ranked: seq<Run>)
    requires Compares(runs, ranked) && page >= LIMIT && ranked != []
    requires Eligible(ranked[0]) && Leads(RowsOf(runs, page), ranked)
    ensures OnlyPick(RowsOf(runs, page), ranked[0])
  {
    var rows, head := RowsOf(runs, page), ranked[0];
    RowsFacts(runs, page);
    HeadMayBePickedExactlyWhen(runs, page, ranked);
    RankedIsNewestWhen(runs, page, ranked, head);
    forall best | Picks(rows, best) ensures best == head {
      PicksExactlyTheBest(rows, best);
      BestBeatsNewest(rows, best, head);
      if best in ranked { HeadGoesFirst(ranked, best); }
    }
  }

  /** The selection picks the head of the comparison, however pandas breaks ties, if and only if the head
      has a positive metric, and every other run that the comparison shows and every family's newest
      measured run that it does not show has a lower one. */
  lemma SelectorsAgreeExactlyWhen(runs: seq<Run>, page: nat, ranked: seq<Run>)
    requires Compares(runs, ranked) && page >= LIMIT && ranked != []
    ensures OnlyPick(RowsOf(runs, page), ranked[0]) <==> Eligible(ranked[0]) && Leads(RowsOf(runs, page), ranked)
  {
    if OnlyPick(RowsOf(runs, page), ranked[0]) {
      OnlyPickLeads(runs, page, ranked);
    }
    if Eligible(ranked[0]) && Leads(RowsOf(runs, page), ranked) {
      LeaderIsOnlyPick(runs, page, ranked);
    }
  }

  // ----- When nothing is hidden -----

  /** The newest finished run of every family is among the newest `LIMIT` finished runs and has a positive
      metric, and some family has one. */
  ghost predicate Comparable(runs: seq<Run>) {
    var finished := Only(runs, Finished);
    && (exists run :: run in finished && Supported(run))
    && forall run :: Supported(run) && IsFirst(finished, run) ==> run in Take(finished, LIMIT) && Eligible(run)
  }

  /** The two programs look at the same run of each family: what the comparison ranks are exactly the
      newest rows of the selection. */
  lemma SameCandidates(runs: seq<Run>, page: nat, ranked: seq<Run>, run: Run)
    requires Compares(runs, ranked) && Comparable(runs) && page >= LIMIT
    ensures run in ranked <==> Newest(RowsOf(runs, page), run)
  {
    RankedRuns(runs, ranked, run);
    if run in ranked {
      RankedIsNewestWhen(runs, page, ranked, run);
    }
    if Newest(RowsOf(runs, page), run) {
      RowsFacts(runs, page);
      OnlyMembers(runs, Finished);
      var first := FamilyHasFirst(Only(runs, Finished), run);
      RankedRuns(runs, ranked, first);
      RankedIsNewestWhen(runs, page, ranked, first);
      NewestIsUnique(RowsOf(runs, page), first, run);
    }
  }

  /** The selection finds a run, and when no other family's newest run has the leading metric, it is the
      head of the comparison. */
  lemma SelectorsAgree(runs: seq<Run>, page: nat, ranked: seq<Run>)
    requires Compares(runs, ranked) && Comparable(runs) && page >= LIMIT
    ensures ranked != [] && RowsOf(runs, page) != []
    ensures (forall i :: 0 < i < |ranked| ==> ranked[i].auc != ranked[0].auc) ==>
              OnlyPick(RowsOf(runs, page), ranked[0])
  {
    var some :| some in Only(runs, Finished) && Supported(some);
    var first := FamilyHasFirst(Only(runs, Finished), some);
    RankedRuns(runs, ranked, first);
    SameCandidates(runs, page, ranked, first);
    if forall i :: 0 < i < |ranked| ==> ranked[i].auc != ranked[0].auc {
      RankedIsNewestWhen(runs, page, ranked, ranked[0]);
      SameCandidates(runs, page, ranked, ranked[0]);
      forall run | Newest(RowsOf(runs, page), run) ensures run in ranked {
        SameCandidates(runs, page, ranked, run);
      }
      SelectorsAgreeExactlyWhen(runs, page, ranked);
    }
  }

  // ----- Inputs on which they part, and on which they do not -----

  lemma OnlyPair(a: Run, b: Run, keep: Run -> bool)
    ensures Only([a, b], keep) == (if keep(a) then [a] else []) + (if keep(b) then [b] else [])
  {
    assert [a, b][..1] == [a] && [a][..0] == [];
    assert Only([a], keep) == if keep(a) then [a] else [];
  }

  /** A family's newest run has no metric and an older one has: if the newer run heads the comparison, the
      selection cannot pick it. */
  lemma UnmeasuredHeadIsNotPicked(runs: seq<Run>, page: nat, ranked: seq<Run>, best: Run)
    requires Compares(runs, ranked) && page >= LIMIT && ranked != [] && ranked[0].auc.None?
    requires Picks(RowsOf(runs, page), best)
    ensures best != ranked[0]
  {
    HeadMayBePickedExactlyWhen(runs, page, ranked);
  }

  lemma PairIsRanked(newer: Run, older: Run, ranked: seq<Run>)
    requires Supported(newer) && older.name == newer.name && newer.finished && older.finished
    requires IsRanking(Search([newer, older], Finished, LIMIT), ranked)
    ensures ranked == [newer]
  {
    OnlyPair(newer, older, Finished);
    assert [newer, older][..1] == [newer] && [newer][..0] == [];
    assert FirstOfEach([newer]) == [newer];
    assert [newer][0].name == older.name;
    MembersAgree(ranked, [newer]);
    assert ranked[0] in ranked;
  }

  /** The smallest such experiment: the comparison names the newer run, the selection the older. */
  lemma UnmeasuredRunPartsThem(newer: Run, older: Run, ranked: seq<Run>, best: Run)
    requires Supported(newer) && older.name == newer.name && newer.start > older.start
    requires newer.finished && newer.auc.None? && Eligible(older)
    requires Compares([newer, older], ranked) && Picks(RowsOf([newer, older], LIMIT), best)
    ensures ranked == [newer] && best == older
  {
    PairIsRanked(newer, older, ranked);
    UnmeasuredHeadIsNotPicked([newer, older], LIMIT, ranked, best);
    RowsFacts([newer, older], LIMIT);
    PicksExactlyTheBest(RowsOf([newer, older], LIMIT), best);
  }

  /** An older measured run of the head's own family is hidden by the head, and does not matter even if its
      metric is higher. */
  lemma OlderRunDoesNotMatter(newer: Run, older: Run, ranked: seq<Run>)
    requires Supported(newer) && older.name == newer.name && newer.start > older.start
    requires Eligible(newer) && Eligible(older) && older.auc.value > newer.auc.value
    requires Compares([newer, older], ranked)
    ensures ranked == [newer] && OnlyPick(RowsOf([newer, older], LIMIT), newer)
  {
    var runs := [newer, older];
    PairIsRanked(newer, older, ranked);
    RowsFacts(runs, LIMIT);
    RankedIsNewestWhen(runs, LIMIT, ranked, newer);
    forall run | Newest(RowsOf(runs, LIMIT), run) ensures run == newer {
      NewestIsUnique(RowsOf(runs, LIMIT), run, newer);
    }
    SelectorsAgreeExactlyWhen(runs, LIMIT, ranked);
  }
}
