/** The score write: a field-level upsert three levels deep, ward -> point -> role -> record. */
module ScoreUpdate {
  import opened Wrappers
  import opened Catalog
  import opened Assessments
  import opened Directory
  import opened Dashboard

  /** `Partial<AssessmentScore>`: None leaves a field out; Some(v) sets it to v, where v may
      itself be None (an explicit `null`). */
  datatype ScorePatch = ScorePatch(
    score: Option<Option<int>>,
    notes: Option<string>,
    evidence: Option<Option<string>>,
    assessorId: Option<Option<string>>)

  /** The record a first write starts from: `{ score: null, notes: '', evidence: null }`. */
  const FreshScore: RoleScore := RoleScore(None, "", None, None)

  /** Sets one role's record of a point, keeping the other role's. */
  function WithEntry(pa: PointAssessment, role: ScoreRole, rs: RoleScore): PointAssessment
  {
    match role
    case WardStaffRole => pa.(wardStaff := Some(rs))
    case AssessorRole => pa.(assessor := Some(rs))
  }

  /** `{ ...existing, ...updates }`, then the assessor stamp. */
  function MergeRoleScore(existing: Option<RoleScore>, updates: ScorePatch, role: ScoreRole, userId: string): (r: RoleScore)
    ensures var base := existing.GetOr(FreshScore);
            && (updates.score.Some? ==> r.score == updates.score.value)
            && (updates.score.None? ==> r.score == base.score)
            && (updates.notes.Some? ==> r.notes == updates.notes.value)
            && (updates.notes.None? ==> r.notes == base.notes)
            && (updates.evidence.Some? ==> r.evidence == updates.evidence.value)
            && (updates.evidence.None? ==> r.evidence == base.evidence)
    ensures role == AssessorRole ==> r.assessorId == Some(userId)
    ensures role == WardStaffRole && updates.assessorId.Some? ==> r.assessorId == updates.assessorId.value
    ensures role == WardStaffRole && updates.assessorId.None? ==> r.assessorId == existing.GetOr(FreshScore).assessorId
  {
    var base := existing.GetOr(FreshScore);
    var spread := RoleScore(
      updates.score.GetOr(base.score),
      updates.notes.GetOr(base.notes),
      updates.evidence.GetOr(base.evidence),
      updates.assessorId.GetOr(base.assessorId));
    if role == AssessorRole then spread.(assessorId := Some(userId)) else spread
  }

  /** The write `handleScoreChange` performs once its target ward is fixed. */
  function ApplyScore(store: AllAssessments, wardId: string, pointId: string, role: ScoreRole,
                      updates: ScorePatch, userId: string): (r: AllAssessments)
    ensures r.Keys == store.Keys + {wardId}
    ensures forall w :: w in store && w != wardId ==> r[w] == store[w]
    ensures r[wardId].Keys == WardData(store, wardId).Keys + {pointId}
    ensures forall p :: p in WardData(store, wardId) && p != pointId ==> r[wardId][p] == WardData(store, wardId)[p]
    ensures var before := PointData(WardData(store, wardId), pointId);
            && Entry(r[wardId][pointId], role) == Some(MergeRoleScore(Entry(before, role), updates, role, userId))
            && Entry(r[wardId][pointId], OtherRole(role)) == Entry(before, OtherRole(role))
  {
    var wardData := WardData(store, wardId);
    var before := PointData(wardData, pointId);
    var after := WithEntry(before, role, MergeRoleScore(Entry(before, role), updates, role, userId));
    store[wardId := wardData[pointId := after]]
  }

  /** A patch that sets only the score. */
  function ScoreOnly(v: Option<int>): ScorePatch
  {
    ScorePatch(Some(v), None, None, None)
  }

  /** A patch that sets only the notes. */
  function NotesOnly(n: string): ScorePatch
  {
    ScorePatch(None, Some(n), None, None)
  }

  /** The single patch equivalent to `first` followed by `second`: the later field wins. */
  function ThenPatch(first: ScorePatch, second: ScorePatch): ScorePatch
  {
    ScorePatch(
      if second.score.Some? then second.score else first.score,
      if second.notes.Some? then second.notes else first.notes,
      if second.evidence.Some? then second.evidence else first.evidence,
      if second.assessorId.Some? then second.assessorId else first.assessorId)
  }

  // ----- properties -----

  /** Two merges in a row are one merge of the combined patch: merging never forgets a field
      that a later patch leaves out. */
  lemma MergeSequential(existing: Option<RoleScore>, first: ScorePatch, second: ScorePatch,
                        role: ScoreRole, user1: string, user2: string)
    ensures MergeRoleScore(Some(MergeRoleScore(existing, first, role, user1)), second, role, user2)
         == MergeRoleScore(existing, ThenPatch(first, second), role, user2)
  {
  }

  /** Writing score 7 and then notes "ok" to the same (ward, point, role) keeps both. */
  lemma ScoreThenNotesKeepsBoth(store: AllAssessments, wardId: string, pointId: string, role: ScoreRole, userId: string)
    ensures var s1 := ApplyScore(store, wardId, pointId, role, ScoreOnly(Some(7)), userId);
            var s2 := ApplyScore(s1, wardId, pointId, role, NotesOnly("ok"), userId);
            var rs := Entry(PointData(WardData(s2, wardId), pointId), role);
            rs.Some? && rs.value.score == Some(7) && rs.value.notes == "ok"
  {
  }

  /** An assessor write stamps the acting user's id, whatever the patch or the prior record says. */
  lemma AssessorWriteStampsUser(store: AllAssessments, wardId: string, pointId: string, updates: ScorePatch, userId: string)
    ensures var rs := Entry(PointData(WardData(ApplyScore(store, wardId, pointId, AssessorRole, updates, userId), wardId), pointId), AssessorRole);
            rs.Some? && rs.value.assessorId == Some(userId)
  {
  }

  /** An assessor write that sets a score makes the point count as assessed in that ward. */
  lemma AssessorScoreWriteMarksAssessed(store: AllAssessments, wardId: string, pointId: string, v: int, userId: string)
    ensures var r := ApplyScore(store, wardId, pointId, AssessorRole, ScoreOnly(Some(v)), userId);
            AssessorScore(WardData(r, wardId), pointId) == Some(v) && IsAssessed(WardData(r, wardId), pointId)
  {
  }

  /** Two ward maps that agree on every assessor score. */
  ghost predicate SameAssessorScores(d1: WardAssessments, d2: WardAssessments)
  {
    forall x :: AssessorScore(d1, x) == AssessorScore(d2, x)
  }

  lemma {:induction false} WardFiguresDependOnAssessorScores(ids: seq<string>, d1: WardAssessments, d2: WardAssessments)
    requires SameAssessorScores(d1, d2)
    ensures AssessedPoints(ids, d1) == AssessedPoints(ids, d2)
    ensures ScoreSum(ids, d1) == ScoreSum(ids, d2)
  {
    if ids != [] {
      WardFiguresDependOnAssessorScores(ids[1..], d1, d2);
      assert AssessorScore(d1, ids[0]) == AssessorScore(d2, ids[0]);
    }
  }

  lemma {:induction false} SummariesDependOnAssessorScores(wards: seq<Ward>, ids: seq<string>, s1: AllAssessments, s2: AllAssessments)
    requires forall w :: SameAssessorScores(WardData(s1, w), WardData(s2, w))
    ensures Summaries(wards, ids, s1) == Summaries(wards, ids, s2)
  {
    if wards != [] {
      var d1 := WardData(s1, wards[0].id);
      var d2 := WardData(s2, wards[0].id);
      WardFiguresDependOnAssessorScores(ids, d1, d2);
      WardFiguresDependOnAssessorScores(AssessedPoints(ids, d1), d1, d2);
      SummariesDependOnAssessorScores(wards[1..], ids, s1, s2);
    }
  }

  /** A ward-staff write never changes what the admin dashboard shows: only assessor scores count. */
  lemma WardStaffWriteLeavesDashboard(catalog: seq<Standard>, wards: seq<Ward>, store: AllAssessments,
                                      wardId: string, pointId: string, updates: ScorePatch, userId: string)
    ensures ComputeDashboard(catalog, wards, ApplyScore(store, wardId, pointId, WardStaffRole, updates, userId))
         == ComputeDashboard(catalog, wards, store)
  {
    var r := ApplyScore(store, wardId, pointId, WardStaffRole, updates, userId);
    forall w
      ensures SameAssessorScores(WardData(r, w), WardData(store, w))
    {
      forall x
        ensures AssessorScore(WardData(r, w), x) == AssessorScore(WardData(store, w), x)
      {
        if w == wardId && x == pointId {
          assert Entry(r[wardId][pointId], AssessorRole) == Entry(PointData(WardData(store, wardId), pointId), AssessorRole);
        }
      }
    }
    SummariesDependOnAssessorScores(wards, AllPointIds(catalog), r, store);
  }
}
