/** The assessment store: ward id -> point id -> per-role score records. */
module Assessments {
  import opened Wrappers

  /** One role's score record for a point. `score` is None when unset (null or undefined);
      `assessorId` is None when the field is absent. */
  datatype RoleScore = RoleScore(score: Option<int>, notes: string, evidence: Option<string>, assessorId: Option<string>)

  /** At most one ward-staff and one assessor record per (ward, point). */
  datatype PointAssessment = PointAssessment(wardStaff: Option<RoleScore>, assessor: Option<RoleScore>)

  /** The two roles whose records a score write can touch. */
  datatype ScoreRole = WardStaffRole | AssessorRole

  type WardAssessments = map<string, PointAssessment>

  type AllAssessments = map<string, WardAssessments>

  /** A point with no record yet (`|| {}`). */
  const NoAssessment: PointAssessment := PointAssessment(None, None)

  /** The assessments of a ward, the empty map when the ward has none (`prev[wardId] || {}`). */
  function WardData(store: AllAssessments, wardId: string): WardAssessments
  {
    if wardId in store then store[wardId] else map[]
  }

  /** The record of a point, or NoAssessment when the point was never written. */
  function PointData(data: WardAssessments, pointId: string): PointAssessment
  {
    if pointId in data then data[pointId] else NoAssessment
  }

  /** The record one role holds in a point assessment. */
  function Entry(pa: PointAssessment, role: ScoreRole): Option<RoleScore>
  {
    match role
    case WardStaffRole => pa.wardStaff
    case AssessorRole => pa.assessor
  }

  /** The other of the two roles. */
  function OtherRole(role: ScoreRole): ScoreRole
  {
    match role
    case WardStaffRole => AssessorRole
    case AssessorRole => WardStaffRole
  }

  /** `data[id]?.assessor?.score`: None when the point, its assessor record or its score is missing. */
  function AssessorScore(data: WardAssessments, pointId: string): Option<int>
  {
    match PointData(data, pointId).assessor
    case None => None
    case Some(rs) => rs.score
  }
}
