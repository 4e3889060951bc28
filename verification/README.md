# MANRURA ward self-assessment — Dafny model of the aggregation and score-update core

The application lets hospital wards be scored against the fixed MANRURA catalog
(Standard → Element → Point, each point worth 10). Ward staff enter a self-score and assessors
enter the official score. An administrator sees a dashboard of per-ward and overall completion
and average-score figures. This project models the two pieces of logic inside the React
components:

- the **admin dashboard aggregation** (`components/AdminDashboard.tsx`). It flattens the catalog
  into point ids and builds per-ward summaries (assessed points, score, max score, progress). It
  then computes the overall completion percentage and the overall average-score percentage.
- the **score-update merge and view-state rules** (`components/AuthenticatedApp.tsx`). This covers
  the three-level field-level upsert, the choice of the ward a write lands on, the Admin read-only
  dispatch, append-only `addWard`/`addUser`, the mount-time ward choice, the two effects, and
  navigation between the dashboard and a ward's detail.

Modules, one concept each:

| file | module | contents |
|---|---|---|
| wrappers.dfy | `Wrappers` | `Option`, standing in for `null`/`undefined` |
| catalog.dfy | `Catalog` | catalog datatypes, `AllPointIds` (the flattening), reference counts |
| assessments.dfy | `Assessments` | `RoleScore`, `PointAssessment`, the store maps, `|| {}` lookups |
| directory.dfy | `Directory` | `User`, `Ward`, `Role`, `AddWard`, `AddUser`, the `ward-<timestamp>` id |
| dashboard.dfy | `Dashboard` | per-ward summaries, overall figures as the source computes them, reference sums, lemmas |
| score_update.dfy | `ScoreUpdate` | `ScorePatch` (`Partial<AssessmentScore>`), `MergeRoleScore`, `ApplyScore`, lemmas |
| navigation.dfy | `Navigation` | `ViewState`, mount, the two effects, handlers, write target, screen and callback choice |

Modelling choices:

- Percentages are exact `real`s. Counts and score sums are `int`s.
- The overall figures are computed the way the source computes them. Each ward's assessed count
  is recovered as `progress / 100 * total`. `SummaryRecoversAssessed` proves this gives back the
  exact count. The lemmas then restate each overall figure in terms of the counts themselves.
- JavaScript truthiness is explicit. `adminSelectedWardId && …` treats both `null` and `''` as
  false (`Navigation.Truthy`). `initialWardId || ''` maps an absent ward id to `''`.
- A `Partial<AssessmentScore>` is a `ScorePatch`. Each field is `None` when absent and `Some(v)`
  when present. `v` may itself be `None` for an explicit `null`.
- `Date.now()` is a parameter `now: nat` of `AddWard`. Its decimal rendering is modelled, so the
  ward id is exactly `"ward-" + digits`. Two wards added at the same clock reading get the
  same id: ids are distinct only across distinct readings (`WardIdAtInjective`), and nothing
  makes them unique within one reading.
- Each React handler is a pure state-to-state function. The `[selectedStandardId]` effect runs
  only when the id actually changes, as React compares dependencies. `ChangeStandardId` is
  therefore the setter followed by the effect when the id differs.

Intended behaviour that the code does not implement; the model follows the code:

- The comment at components/AuthenticatedApp.tsx:46 says a Ward Staff user's ward is locked. The
  lock is only the `[currentUser]` effect (lines 46-49). `handleScoreChange` (line 65) writes to
  whatever `selectedWardId` holds. The model proves the weaker fact that holds: right after
  mounting, a Ward Staff user's writes land on the user's own ward
  (`MountedWardStaffWritesOwnWard`).
- `App.tsx` calls `JSON.parse` on stored data without a `try`, so malformed data would throw
  rather than fall back to defaults. Persistence is not modelled.
- Selecting a ward as Admin switches the standard to `'bab1'` only when `selectedStandardId` is
  `'admin_page'` (lines 109-111). The Admin dashboard is also shown whenever no ward is
  selected (line 137), for instance right after mounting with `'bab1'` open. In that case the
  current standard is kept. `AdminSelectWard` states both cases.

## Model

| member | source | states |
|---|---|---|
| Catalog.AllPointIdsLength | components/AdminDashboard.tsx:58-59 | the flattened id list has one entry per point: its length is the sum, over standards and elements, of each element's point count |
| Catalog.AllPointIdsAppend | components/AdminDashboard.tsx:58 | flattening keeps catalog order: the ids of two catalogs placed end to end are the first catalog's ids followed by the second's |
| Catalog.AllPointIdsMembership | components/AdminDashboard.tsx:58 | an id is in the flattened list iff some point of some element of some standard carries it |
| Catalog.PointIdsSpec | components/AdminDashboard.tsx:58 | an element's point ids list each point's id at that point's position |
| Dashboard.Assessors | components/AdminDashboard.tsx:57 | the assessor list holds exactly the users whose role is Assessor, and is no longer than the user list |
| Dashboard.AssessorsMultiset | components/AdminDashboard.tsx:57 | each Assessor appears in the assessor list exactly as often as in the user list, and no one else appears, so the card's count is the number of Assessor entries |
| Dashboard.AssessedPoints | components/AdminDashboard.tsx:63 | a catalog id is in the assessed list iff its assessor score is present; the list is no longer than the catalog |
| Dashboard.AssessedPointsMultiset | components/AdminDashboard.tsx:63 | each assessed id appears in the assessed list exactly as often as in the catalog list, and unassessed ids not at all, which fixes the assessed count |
| Dashboard.ZeroScoreCountsAsAssessed | components/AdminDashboard.tsx:63 | a stored assessor score of 0 counts as assessed |
| Dashboard.MissingWardIsUnassessed | components/AdminDashboard.tsx:62-67 | a ward absent from the store is read as an empty map: 0 assessed points, score 0, progress 0 |
| Dashboard.WardScoreIsScoreSum | components/AdminDashboard.tsx:63-65 | a ward's score, summed over its assessed points, equals the `score \|\| 0` sum over the whole catalog |
| Dashboard.WardScoreBounds | components/AdminDashboard.tsx:65 | with stored scores in 0..10, a ward's score lies between 0 and 10 × its assessed count |
| Dashboard.MaxScoreIndependentOfAssessments | components/AdminDashboard.tsx:66 | the max score is 10 × the catalog size for any store |
| Dashboard.Progress | components/AdminDashboard.tsx:67 | progress is 0 for an empty catalog; with assessed ≤ total it lies in 0..100, and progress / 100 × total gives back the assessed count |
| Dashboard.Summarize | components/AdminDashboard.tsx:61-75 | a summary keeps the ward's id and name; its score is the `score \|\| 0` sum of the ward's assessor scores over the catalog; its max score is 10 × the catalog size; its progress lies in 0..100 and is 0 for an empty catalog |
| Dashboard.Summaries | components/AdminDashboard.tsx:61-76 | there is one summary per ward, in ward order: element i is ward i's summary, with that ward's id and name |
| Dashboard.SummaryRecoversAssessed | components/AdminDashboard.tsx:67-83 | `progress / 100 * total` equals the ward's assessed count exactly |
| Dashboard.SumRecoveredIsTotalAssessed | components/AdminDashboard.tsx:78 | the source's `totalAssessedPoints` equals the assessed counts summed over wards |
| Dashboard.TotalAssessedBound | components/AdminDashboard.tsx:78-79 | the assessed points over all wards never exceed wards × catalog size |
| Dashboard.SumMaxIsWeightTimesAssessed | components/AdminDashboard.tsx:89 | the source's `totalMaxScoreForAssessedPoints` equals 10 × the assessed points over all wards |
| Dashboard.SumScoresIsScoreOfAssessedWards | components/AdminDashboard.tsx:82-88 | the source's `totalAssessedScoreSum` equals the scores of the wards with at least one assessed point |
| Dashboard.ScoreOfAssessedWardsIsTotalScore | components/AdminDashboard.tsx:82-88 | wards with no assessed point add nothing: their exclusion does not change the score total |
| Dashboard.OverallCompletionSpec | components/AdminDashboard.tsx:78-80 | overall completion is 0 with no wards or an empty catalog; otherwise all assessed points over wards × catalog size × 100; always in 0..100 |
| Dashboard.OverallAverageSpec | components/AdminDashboard.tsx:82-90 | overall average is 0 when nothing is assessed; otherwise the assessed wards' scores over 10 × all assessed points × 100, so its denominator is the assessed subset only |
| Dashboard.ScoreOfAssessedWardsBounds | components/AdminDashboard.tsx:82-88 | with scores in 0..10, the assessed wards' score total lies between 0 and 10 × all assessed points |
| Dashboard.OverallAverageBounds | components/AdminDashboard.tsx:82-90 | with every stored assessor score in 0..10, the overall average lies in 0..100 |
| Dashboard.NoWardsGivesZero | components/AdminDashboard.tsx:78-90 | with no wards, both overall figures are 0 |
| Dashboard.TwoOfFourAssessedScenario | components/AdminDashboard.tsx:57-90 | 4 points with ward scores p1 = 10, p2 = 5: progress 50, score 15 of 40, completion 50, average 75 |
| ScoreUpdate.MergeRoleScore | components/AuthenticatedApp.tsx:69-78 | each field of the patch that is present overrides, each absent field keeps the existing value (or the `{score: null, notes: '', evidence: null}` default); an assessor write stamps the user's id, a ward-staff write keeps the merged assessorId |
| ScoreUpdate.MergeSequential | components/AuthenticatedApp.tsx:71-74 | two merges in a row equal one merge of the combined patch, where the later field wins |
| ScoreUpdate.ApplyScore | components/AuthenticatedApp.tsx:66-91 | the target ward's entry for the point holds the merged record for the role; the other role's record, every other point of the ward and every other ward are unchanged; key sets grow by exactly the written ward and point |
| ScoreUpdate.ScoreThenNotesKeepsBoth | components/AuthenticatedApp.tsx:67-91 | writing score 7 and then notes "ok" to the same ward, point and role yields a record with both |
| ScoreUpdate.AssessorWriteStampsUser | components/AuthenticatedApp.tsx:76-78 | after an assessor write the record's assessorId is the acting user's, whatever the patch or the prior record held |
| ScoreUpdate.AssessorScoreWriteMarksAssessed | components/AuthenticatedApp.tsx:71-91 | an assessor write of score v makes that point assessed in that ward with score v |
| ScoreUpdate.WardFiguresDependOnAssessorScores | components/AdminDashboard.tsx:63-65 | two ward maps that agree on every assessor score give the same assessed list and score sums |
| ScoreUpdate.SummariesDependOnAssessorScores | components/AdminDashboard.tsx:61-76 | two stores that agree on every assessor score give the same ward summaries |
| ScoreUpdate.WardStaffWriteLeavesDashboard | components/AuthenticatedApp.tsx:80-91 | a ward-staff write leaves every dashboard figure unchanged, because only assessor scores count |
| Directory.DecimalRoundTrip | components/AuthenticatedApp.tsx:97 | the decimal rendering of the timestamp reads back to the timestamp |
| Directory.WardIdAtInjective | components/AuthenticatedApp.tsx:97 | wards created at different timestamps get different ids |
| Directory.AddWard | components/AuthenticatedApp.tsx:95-101 | appends exactly one ward at the end, keeping the prefix; the new ward has the given name and the `ward-<now>` id |
| Directory.AddUser | components/AuthenticatedApp.tsx:103-105 | appends exactly the given user at the end, keeping the prefix |
| Navigation.FindStandard | components/AuthenticatedApp.tsx:58 | None iff no standard has the id; otherwise the first catalog standard with that id |
| Navigation.UserEffect | components/AuthenticatedApp.tsx:42-50 | non-admins lose the admin ward selection; a Ward Staff user with a truthy wardId gets that ward selected; nothing else changes |
| Navigation.StandardEffect | components/AuthenticatedApp.tsx:53-61 | `'admin_page'` clears the standard and the admin ward selection; any other id opens the first catalog standard with that id, or none when there is no such standard, keeping the admin selection |
| Navigation.ChangeStandardId | components/AuthenticatedApp.tsx:53-61 | the same id changes nothing; a new `'admin_page'` clears the standard and the admin ward selection; any other new id opens the first catalog standard with it and keeps the admin selection; the selected ward is untouched |
| Navigation.AdminSelectWard | components/AuthenticatedApp.tsx:107-112 | sets the admin ward selection; when `selectedStandardId` is `'admin_page'` switches to `'bab1'` and opens that standard, otherwise keeps the current standard |
| Navigation.TargetWard | components/AuthenticatedApp.tsx:65 | a write lands on the admin's selected ward when the role is Admin and the selection is truthy, otherwise on the selected ward |
| Navigation.DisplayWard | components/AuthenticatedApp.tsx:119-120 | the ward whose data is displayed is the ward a write would target |
| Navigation.HandleScoreChange | components/AuthenticatedApp.tsx:63-93 | an Admin with a truthy ward selection writes to that ward; everyone else writes to the selected ward |
| Navigation.ScreenFor | components/AuthenticatedApp.tsx:137-147 | non-admins get the content view; an Admin gets the dashboard with no truthy ward selection or on `'admin_page'`, otherwise the ward detail exactly when a standard is open |
| Navigation.OnScoreChange | components/AuthenticatedApp.tsx:123-176 | for an Admin every screen's score callback leaves the store unchanged; for anyone else it writes to the selected ward |
| Navigation.MountSpec | components/AuthenticatedApp.tsx:29-50 | after mounting: standard `'bab1'`, no admin selection, the Ward Staff user's own ward or `''`, else the first ward or `''` |
| Navigation.MountedWardStaffWritesOwnWard | components/AuthenticatedApp.tsx:46-65 | right after mounting, a Ward Staff user's writes land on the user's own ward |
| Navigation.ChangeStandardIdPreservesConsistent | components/AuthenticatedApp.tsx:53-61 | changing the standard id keeps "admin page ⇒ no standard and no ward detail; other id ⇒ its catalog standard" |
| Navigation.AdminSelectWardPreservesConsistent | components/AuthenticatedApp.tsx:107-112 | selecting a ward as admin keeps that invariant |
| Navigation.ReturnToDashboardClosesDetail | components/AuthenticatedApp.tsx:114-116 | returning to the dashboard sets `'admin_page'`, clears the standard and the ward detail, and an Admin sees the dashboard |
| Navigation.AdminSelectWardOpensDetail | components/AuthenticatedApp.tsx:107-147 | when `selectedStandardId` is `'admin_page'`, selecting a non-empty ward id shows that ward's read-only detail under `'bab1'` when the catalog has it |

## Left out

- Rendering (JSX, `KpiCard`, `ProgressBar`), `toFixed(1)` formatting and IEEE-754 rounding: the percentages are exact reals.
- `App.tsx` persistence (`localStorage`, `JSON.parse`/`JSON.stringify`): browser I/O. A parse error would throw there, and no fallback rule is modelled.
- `services/geminiService.ts` and `components/Chatbot.tsx`: a wrapper over a remote language-model API plus UI loading state.
- `AccountManagement`, `AssessmentPeriodManagement`, `Sidebar` and `ContentDisplay` are not part of this model. Selecting a ward in the sidebar (`setSelectedWardId`) is therefore not a modelled operation.
- The claim that a Ward Staff user can never write to another ward is not stated: `handleScoreChange` does not enforce it.
- React scheduling: batching and effect order beyond "handler, then the `[selectedStandardId]` effect if the id changed" and "on mount, the `[currentUser]` effect, then the `[selectedStandardId]` effect". The `[currentUser]` effect is modelled at mount only, since the user does not change within a session.
- ScoreUpdate.ScorePatch: a `notes` field explicitly set to `undefined` is not modelled; `notes` is either absent or a string.
- Dashboard.OverallAverageBounds: requires every stored assessor score to lie in 0..10, because the store itself does not enforce the range.
