/** The admin dashboard's aggregation: per-ward summaries and overall figures. */
module Dashboard {
  import opened Wrappers
  import opened Catalog
  import opened Assessments
  import opened Directory

  /** `assessors`: the users whose role is Assessor, in directory order (the "Total Assessors" card). */
  function Assessors(users: seq<User>): (r: seq<User>)
    ensures |r| <= |users|
    ensures forall u :: u in r <==> u in users && u.role == Assessor
  {
    if users == [] then []
    else (if users[0].role == Assessor then [users[0]] else []) + Assessors(users[1..])
  }

  /** A point counts as assessed iff its assessor score is present; a stored 0 counts. */
  predicate IsAssessed(data: WardAssessments, pointId: string)
  {
    AssessorScore(data, pointId).Some?
  }

  /** `assessedPoin`: the catalog ids whose assessor score is present, in catalog order. */
  function AssessedPoints(ids: seq<string>, data: WardAssessments): (r: seq<string>)
    ensures |r| <= |ids|
    ensures forall x :: x in r <==> x in ids && IsAssessed(data, x)
  {
    if ids == [] then []
    else (if IsAssessed(data, ids[0]) then [ids[0]] else []) + AssessedPoints(ids[1..], data)
  }

  /** Sum of `score || 0` over `ids` (the reduce in the per-ward summary). */
  function ScoreSum(ids: seq<string>, data: WardAssessments): int
  {
    if ids == [] then 0 else AssessorScore(data, ids[0]).GetOr(0) + ScoreSum(ids[1..], data)
  }

  /** A ward's score: the assessor scores of its assessed points, summed. */
  function WardScore(ids: seq<string>, data: WardAssessments): int
  {
    ScoreSum(AssessedPoints(ids, data), data)
  }

  /** Every present assessor score among `ids` lies in 0..PointWeight. */
  predicate ScoresInRange(ids: seq<string>, data: WardAssessments)
  {
    forall i :: 0 <= i < |ids| && AssessorScore(data, ids[i]).Some? ==>
      0 <= AssessorScore(data, ids[i]).value <= PointWeight
  }

  datatype WardSummary = WardSummary(id: string, name: string, score: int, maxScore: int, progress: real)

  /** The percentage of `total` that `assessed` makes up, 0 for an empty catalog. */
  function Progress(assessed: nat, total: nat): (p: real)
    ensures assessed <= total ==> 0.0 <= p <= 100.0
    ensures assessed <= total ==> p / 100.0 * (total as real) == assessed as real
    ensures total == 0 ==> p == 0.0
  {
    if total > 0 then (assessed as real / total as real) * 100.0 else 0.0
  }

  /** The summary row of one ward. */
  function Summarize(ward: Ward, ids: seq<string>, store: AllAssessments): (s: WardSummary)
    ensures s.id == ward.id && s.name == ward.name
    ensures 0.0 <= s.progress <= 100.0
    ensures |ids| == 0 ==> s.progress == 0.0
    ensures s.score == ScoreSum(ids, WardData(store, ward.id))
    ensures s.maxScore == PointWeight * |ids|
  {
    WardScoreIsScoreSum(ids, WardData(store, ward.id));
    var data := WardData(store, ward.id);
    var assessed := AssessedPoints(ids, data);
    var progress := Progress(|assessed|, |ids|);
    WardSummary(ward.id, ward.name, WardScore(ids, data), |ids| * PointWeight, progress)
  }

  /** `wardSummaries`: one summary per ward, in ward order. */
  function Summaries(wards: seq<Ward>, ids: seq<string>, store: AllAssessments): (r: seq<WardSummary>)
    ensures |r| == |wards|
    ensures forall i :: 0 <= i < |wards| ==> r[i].id == wards[i].id && r[i].name == wards[i].name
    ensures forall i :: 0 <= i < |wards| ==> r[i] == Summarize(wards[i], ids, store)
  {
    if wards == [] then [] else [Summarize(wards[0], ids, store)] + Summaries(wards[1..], ids, store)
  }

  // ----- the overall figures, as the source computes them from the summaries -----

  /** `progress / 100 * total`: the assessed count recovered from a summary. */
  function RecoveredCount(s: WardSummary, total: nat): real
  {
    s.progress / 100.0 * (total as real)
  }

  /** `totalAssessedPoints`. */
  function SumRecovered(sums: seq<WardSummary>, total: nat): real
  {
    if sums == [] then 0.0 else RecoveredCount(sums[0], total) + SumRecovered(sums[1..], total)
  }

  /** `totalAssessedScoreSum`: the scores of the summaries with a positive recovered count. */
  function SumScoresOfAssessed(sums: seq<WardSummary>, total: nat): int
  {
    if sums == [] then 0
    else (if RecoveredCount(sums[0], total) > 0.0 then sums[0].score else 0) + SumScoresOfAssessed(sums[1..], total)
  }

  /** `totalMaxScoreForAssessedPoints`. */
  function SumMaxForAssessed(sums: seq<WardSummary>, total: nat): real
  {
    if sums == [] then 0.0
    else RecoveredCount(sums[0], total) * (PointWeight as real) + SumMaxForAssessed(sums[1..], total)
  }

  /** `overallCompletion`. */
  function OverallCompletion(wardCount: nat, sums: seq<WardSummary>, total: nat): real
  {
    var possible := wardCount * total;
    if possible > 0 then SumRecovered(sums, total) / (possible as real) * 100.0 else 0.0
  }

  /** `overallAverageScore`. */
  function OverallAverageScore(sums: seq<WardSummary>, total: nat): real
  {
    var maxForAssessed := SumMaxForAssessed(sums, total);
    if maxForAssessed > 0.0 then (SumScoresOfAssessed(sums, total) as real) / maxForAssessed * 100.0 else 0.0
  }

  datatype Figures = Figures(summaries: seq<WardSummary>, overallCompletion: real, overallAverageScore: real)

  /** Everything the dashboard derives from the catalog, the wards and the store. */
  function ComputeDashboard(catalog: seq<Standard>, wards: seq<Ward>, store: AllAssessments): Figures
  {
    var ids := AllPointIds(catalog);
    var sums := Summaries(wards, ids, store);
    Figures(sums, OverallCompletion(|wards|, sums, |ids|), OverallAverageScore(sums, |ids|))
  }

  /** The per-ward progress recovers the ward's assessed count exactly: `progress / 100 * total == assessed`. */
  lemma SummaryRecoversAssessed(ward: Ward, ids: seq<string>, store: AllAssessments)
    ensures RecoveredCount(Summarize(ward, ids, store), |ids|) == AssessedCount(ward, ids, store) as real
  {
  }

  // ----- reference definitions over the wards themselves -----

  function AssessedCount(ward: Ward, ids: seq<string>, store: AllAssessments): nat
  {
    |AssessedPoints(ids, WardData(store, ward.id))|
  }

  /** Assessed points summed over wards. */
  function TotalAssessed(wards: seq<Ward>, ids: seq<string>, store: AllAssessments): nat
  {
    if wards == [] then 0 else AssessedCount(wards[0], ids, store) + TotalAssessed(wards[1..], ids, store)
  }

  /** Ward scores summed over the wards with at least one assessed point. */
  function ScoreOfAssessedWards(wards: seq<Ward>, ids: seq<string>, store: AllAssessments): int
  {
    if wards == [] then 0
    else
      var own := if AssessedCount(wards[0], ids, store) > 0 then WardScore(ids, WardData(store, wards[0].id)) else 0;
      own + ScoreOfAssessedWards(wards[1..], ids, store)
  }

  /** Ward scores summed over all wards. */
  function TotalScore(wards: seq<Ward>, ids: seq<string>, store: AllAssessments): int
  {
    if wards == [] then 0 else WardScore(ids, WardData(store, wards[0].id)) + TotalScore(wards[1..], ids, store)
  }

  // ----- properties -----

  /** Unassessed points contribute nothing, so a ward's score is the `|| 0` sum over the whole catalog. */
  lemma {:induction false} WardScoreIsScoreSum(ids: seq<string>, data: WardAssessments)
    ensures WardScore(ids, data) == ScoreSum(ids, data)
  {
    if ids != [] {
      WardScoreIsScoreSum(ids[1..], data);
      var rest := AssessedPoints(ids[1..], data);
      if IsAssessed(data, ids[0]) {
        assert AssessedPoints(ids, data) == [ids[0]] + rest;
        assert ([ids[0]] + rest)[1..] == rest;
      } else {
        assert AssessedPoints(ids, data) == rest;
      }
    }
  }

  /** With scores in 0..10, a ward's score lies between 0 and 10 per assessed point. */
  lemma {:induction false} WardScoreBounds(ids: seq<string>, data: WardAssessments)
    requires ScoresInRange(ids, data)
    ensures 0 <= WardScore(ids, data) <= PointWeight * |AssessedPoints(ids, data)|
  {
    if ids != [] {
      assert ScoresInRange(ids[1..], data) by {
        forall i | 0 <= i < |ids[1..]| && AssessorScore(data, ids[1..][i]).Some?
          ensures 0 <= AssessorScore(data, ids[1..][i]).value <= PointWeight
        {
          assert ids[1..][i] == ids[i + 1];
        }
      }
      WardScoreBounds(ids[1..], data);
      var rest := AssessedPoints(ids[1..], data);
      if IsAssessed(data, ids[0]) {
        assert AssessedPoints(ids, data) == [ids[0]] + rest;
        assert ([ids[0]] + rest)[1..] == rest;
        assert 0 <= AssessorScore(data, ids[0]).value <= PointWeight;
      } else {
        assert AssessedPoints(ids, data) == rest;
      }
    }
  }

  /** A ward absent from the store is read as an empty map: nothing assessed, score 0. */
  lemma {:induction false} MissingWardIsUnassessed(ward: Ward, ids: seq<string>, store: AllAssessments)
    requires ward.id !in store
    ensures AssessedCount(ward, ids, store) == 0
    ensures Summarize(ward, ids, store).score == 0
    ensures Summarize(ward, ids, store).progress == 0.0
  {
    if ids != [] {
      MissingWardIsUnassessed(ward, ids[1..], store);
    }
  }

  /** The assessed list keeps every assessed id exactly as often as the catalog lists it, and
      no other id, so its length is the assessed count. */
  lemma {:induction false} AssessedPointsMultiset(ids: seq<string>, data: WardAssessments)
    ensures forall x :: multiset(AssessedPoints(ids, data))[x] == if IsAssessed(data, x) then multiset(ids)[x] else 0
  {
    if ids != [] {
      assert ids == [ids[0]] + ids[1..];
      AssessedPointsMultiset(ids[1..], data);
    }
  }

  /** The assessor list keeps every Assessor exactly as often as the directory lists them. */
  lemma {:induction false} AssessorsMultiset(users: seq<User>)
    ensures forall u :: multiset(Assessors(users))[u] == if u.role == Assessor then multiset(users)[u] else 0
  {
    if users != [] {
      assert users == [users[0]] + users[1..];
      AssessorsMultiset(users[1..]);
    }
  }

  /** A stored assessor score of 0 counts as assessed, unlike a missing one. */
  lemma ZeroScoreCountsAsAssessed(data: WardAssessments, pointId: string)
    requires pointId in data && data[pointId].assessor.Some? && data[pointId].assessor.value.score == Some(0)
    ensures IsAssessed(data, pointId)
    ensures pointId in AssessedPoints([pointId], data)
  {
  }

  /** The max score depends on the catalog alone, never on the assessments. */
  lemma MaxScoreIndependentOfAssessments(ward: Ward, ids: seq<string>, s1: AllAssessments, s2: AllAssessments)
    ensures Summarize(ward, ids, s1).maxScore == Summarize(ward, ids, s2).maxScore == PointWeight * |ids|
  {
  }

  /** Wards with nothing assessed contribute nothing to the score total. */
  lemma {:induction false} ScoreOfAssessedWardsIsTotalScore(wards: seq<Ward>, ids: seq<string>, store: AllAssessments)
    ensures ScoreOfAssessedWards(wards, ids, store) == TotalScore(wards, ids, store)
  {
    if wards != [] {
      ScoreOfAssessedWardsIsTotalScore(wards[1..], ids, store);
    }
  }

  lemma {:induction false} SumRecoveredIsTotalAssessed(wards: seq<Ward>, ids: seq<string>, store: AllAssessments)
    ensures SumRecovered(Summaries(wards, ids, store), |ids|) == TotalAssessed(wards, ids, store) as real
  {
    if wards != [] {
      var sums := Summaries(wards, ids, store);
      SummaryRecoversAssessed(wards[0], ids, store);
      SumRecoveredIsTotalAssessed(wards[1..], ids, store);
      assert sums[1..] == Summaries(wards[1..], ids, store);
    }
  }

  lemma {:induction false} SumMaxIsWeightTimesAssessed(wards: seq<Ward>, ids: seq<string>, store: AllAssessments)
    ensures SumMaxForAssessed(Summaries(wards, ids, store), |ids|) == (PointWeight * TotalAssessed(wards, ids, store)) as real
  {
    if wards != [] {
      var sums := Summaries(wards, ids, store);
      SummaryRecoversAssessed(wards[0], ids, store);
      SumMaxIsWeightTimesAssessed(wards[1..], ids, store);
      assert sums[1..] == Summaries(wards[1..], ids, store);
    }
  }

  lemma {:induction false} SumScoresIsScoreOfAssessedWards(wards: seq<Ward>, ids: seq<string>, store: AllAssessments)
    ensures SumScoresOfAssessed(Summaries(wards, ids, store), |ids|) == ScoreOfAssessedWards(wards, ids, store)
  {
    if wards != [] {
      var sums := Summaries(wards, ids, store);
      SummaryRecoversAssessed(wards[0], ids, store);
      SumScoresIsScoreOfAssessedWards(wards[1..], ids, store);
      assert sums[1..] == Summaries(wards[1..], ids, store);
    }
  }

  lemma {:induction false} TotalAssessedBound(wards: seq<Ward>, ids: seq<string>, store: AllAssessments)
    ensures TotalAssessed(wards, ids, store) <= |wards| * |ids|
  {
    if wards != [] {
      TotalAssessedBound(wards[1..], ids, store);
      assert |wards| * |ids| == |ids| + (|wards| - 1) * |ids|;
    }
  }

  /** Overall completion: 0 without wards or points; otherwise all assessed points over
      wards x catalog size, as a percentage in 0..100. */
  lemma OverallCompletionSpec(catalog: seq<Standard>, wards: seq<Ward>, store: AllAssessments)
    ensures var c := ComputeDashboard(catalog, wards, store).overallCompletion;
            var total := CatalogPointCount(catalog);
            && 0.0 <= c <= 100.0
            && (|wards| == 0 || total == 0 ==> c == 0.0)
            && (|wards| > 0 && total > 0 ==>
                  c == (TotalAssessed(wards, AllPointIds(catalog), store) as real) / ((|wards| * total) as real) * 100.0)
  {
    var ids := AllPointIds(catalog);
    AllPointIdsLength(catalog);
    SumRecoveredIsTotalAssessed(wards, ids, store);
    TotalAssessedBound(wards, ids, store);
    var sums := Summaries(wards, ids, store);
    var c := OverallCompletion(|wards|, sums, |ids|);
    assert c == ComputeDashboard(catalog, wards, store).overallCompletion;
    var n := TotalAssessed(wards, ids, store);
    if |wards| > 0 && |ids| > 0 {
      var possible := |wards| * |ids|;
      assert c == (n as real) / (possible as real) * 100.0;
      PercentBounds(n as real, possible as real);
    } else {
      assert |wards| * |ids| == 0;
      assert c == 0.0;
    }
  }

  /** A part of a positive whole, as a percentage, lies in 0..100. */
  lemma PercentBounds(part: real, whole: real)
    requires 0.0 <= part <= whole && whole > 0.0
    ensures 0.0 <= part / whole * 100.0 <= 100.0
  {
  }

  /** Overall average score: 0 when nothing is assessed anywhere; otherwise the scores of the
      wards with an assessed point over 10 x all assessed points, as a percentage. */
  lemma OverallAverageSpec(catalog: seq<Standard>, wards: seq<Ward>, store: AllAssessments)
    ensures var avg := ComputeDashboard(catalog, wards, store).overallAverageScore;
            var assessed := TotalAssessed(wards, AllPointIds(catalog), store);
            && (assessed == 0 ==> avg == 0.0)
            && (assessed > 0 ==>
                  avg == (ScoreOfAssessedWards(wards, AllPointIds(catalog), store) as real) / ((PointWeight * assessed) as real) * 100.0)
  {
    var ids := AllPointIds(catalog);
    SumMaxIsWeightTimesAssessed(wards, ids, store);
    SumScoresIsScoreOfAssessedWards(wards, ids, store);
  }

  lemma {:induction false} ScoreOfAssessedWardsBounds(wards: seq<Ward>, ids: seq<string>, store: AllAssessments)
    requires forall i :: 0 <= i < |wards| ==> ScoresInRange(ids, WardData(store, wards[i].id))
    ensures 0 <= ScoreOfAssessedWards(wards, ids, store) <= PointWeight * TotalAssessed(wards, ids, store)
  {
    if wards != [] {
      assert ScoresInRange(ids, WardData(store, wards[0].id));
      WardScoreBounds(ids, WardData(store, wards[0].id));
      assert forall i :: 0 <= i < |wards[1..]| ==> wards[1..][i] == wards[i + 1];
      ScoreOfAssessedWardsBounds(wards[1..], ids, store);
    }
  }

  /** With every stored assessor score in 0..10, the overall average score lies in 0..100. */
  lemma OverallAverageBounds(catalog: seq<Standard>, wards: seq<Ward>, store: AllAssessments)
    requires forall i :: 0 <= i < |wards| ==> ScoresInRange(AllPointIds(catalog), WardData(store, wards[i].id))
    ensures 0.0 <= ComputeDashboard(catalog, wards, store).overallAverageScore <= 100.0
  {
    var ids := AllPointIds(catalog);
    OverallAverageSpec(catalog, wards, store);
    ScoreOfAssessedWardsBounds(wards, ids, store);
    var a := TotalAssessed(wards, ids, store);
    if a > 0 {
      PercentBounds(ScoreOfAssessedWards(wards, ids, store) as real, (PointWeight * a) as real);
    }
  }

  /** With no wards, both overall figures are 0. */
  lemma NoWardsGivesZero(catalog: seq<Standard>, store: AllAssessments)
    ensures ComputeDashboard(catalog, [], store).overallCompletion == 0.0
    ensures ComputeDashboard(catalog, [], store).overallAverageScore == 0.0
  {
  }

  /** A point record holding only an assessor score `n`. */
  function AssessorScored(n: int): PointAssessment
  {
    PointAssessment(None, Some(RoleScore(Some(n), "", None, Some("assessor-1"))))
  }

  /** Two standards of one element with two points each; ward W1 has assessor scores
      p1 = 10 and p2 = 5. Completion is 50%, the ward scores 15 of 40, and the average is 75%. */
  lemma TwoOfFourAssessedScenario()
    ensures var catalog := [
              Standard("s1", "S1", [Element("e1", "E1", [Point("p1", ""), Point("p2", "")])]),
              Standard("s2", "S2", [Element("e2", "E2", [Point("p3", ""), Point("p4", "")])])];
            var store := map["W1" := map["p1" := AssessorScored(10), "p2" := AssessorScored(5)]];
            var f := ComputeDashboard(catalog, [Ward("W1", "Ward 1")], store);
            && f.summaries == [WardSummary("W1", "Ward 1", 15, 40, 50.0)]
            && f.overallCompletion == 50.0
            && f.overallAverageScore == 75.0
  {
    var catalog := [
      Standard("s1", "S1", [Element("e1", "E1", [Point("p1", ""), Point("p2", "")])]),
      Standard("s2", "S2", [Element("e2", "E2", [Point("p3", ""), Point("p4", "")])])];
    var data := map["p1" := AssessorScored(10), "p2" := AssessorScored(5)];
    var store := map["W1" := data];
    var ids := AllPointIds(catalog);
    assert ids == ["p1", "p2", "p3", "p4"];
    assert AssessorScore(data, "p1") == Some(10);
    assert AssessorScore(data, "p2") == Some(5);
    assert AssessorScore(data, "p3") == None;
    assert AssessorScore(data, "p4") == None;
    assert AssessedPoints(ids[3..], data) == [];
    assert AssessedPoints(ids[2..], data) == [];
    assert AssessedPoints(ids[1..], data) == ["p2"];
    assert AssessedPoints(ids, data) == ["p1", "p2"];
    assert ScoreSum(["p2"], data) == 5;
    assert WardScore(ids, data) == 15;
    var w := Ward("W1", "Ward 1");
    var sum := WardSummary("W1", "Ward 1", 15, 40, 50.0);
    assert Summarize(w, ids, store) == sum;
    assert Summaries([w], ids, store) == [sum];
    assert RecoveredCount(sum, 4) == 2.0;
    assert SumRecovered([sum], 4) == 2.0;
    assert SumScoresOfAssessed([sum], 4) == 15;
    assert SumMaxForAssessed([sum], 4) == 20.0;
  }
}
