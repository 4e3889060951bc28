/** The authenticated app's view state: which standard is open, which ward a write targets,
    the admin's read-only ward detail, and the score callback each screen wires in. */
module Navigation {
  import opened Wrappers
  import opened Catalog
  import opened Assessments
  import opened Directory
  import opened ScoreUpdate

  /** The standard a session opens on, and the one an admin's ward detail switches to. */
  const DefaultStandardId: string := "bab1"

  /** The pseudo standard id that stands for the admin dashboard. */
  const AdminPageId: string := "admin_page"

  datatype ViewState = ViewState(
    selectedStandardId: string,
    selectedStandard: Option<Standard>,
    selectedWardId: string,
    adminSelectedWardId: Option<string>)

  /** JavaScript truthiness of a `string | null`: null and '' are falsy. */
  predicate Truthy(o: Option<string>)
  {
    o.Some? && o.value != ""
  }

  /** `manruraData.find(std => std.id === id) || null`: the first standard with that id. */
  function FindStandard(catalog: seq<Standard>, id: string): (r: Option<Standard>)
    ensures r.None? <==> forall i :: 0 <= i < |catalog| ==> catalog[i].id != id
    ensures r.Some? ==> exists i :: 0 <= i < |catalog| && catalog[i] == r.value && r.value.id == id
                                    && forall j :: 0 <= j < i ==> catalog[j].id != id
  {
    if catalog == [] then None
    else if catalog[0].id == id then Some(catalog[0])
    else
      var r := FindStandard(catalog[1..], id);
      assert forall i :: 1 <= i < |catalog| ==> catalog[i] == catalog[1..][i - 1];
      r
  }

  /** The ward selected when the app mounts: a Ward Staff user's own ward, else the first ward. */
  function InitialWardId(user: User, wards: seq<Ward>): string
  {
    var candidate := if user.role == WardStaff then user.wardId
                     else if |wards| > 0 then Some(wards[0].id) else Some("");
    if Truthy(candidate) then candidate.value else ""
  }

  /** The state before any effect runs. */
  function InitialState(user: User, wards: seq<Ward>, catalog: seq<Standard>): ViewState
  {
    ViewState(DefaultStandardId, if |catalog| > 0 then Some(catalog[0]) else None, InitialWardId(user, wards), None)
  }

  /** The effect on `[currentUser]`: non-admins lose any admin ward selection, and a Ward Staff
      user with a ward is locked onto it. */
  function UserEffect(user: User, s: ViewState): (r: ViewState)
    ensures user.role != Admin ==> r.adminSelectedWardId.None?
    ensures user.role == Admin ==> r.adminSelectedWardId == s.adminSelectedWardId
    ensures user.role == WardStaff && Truthy(user.wardId) ==> r.selectedWardId == user.wardId.value
    ensures !(user.role == WardStaff && Truthy(user.wardId)) ==> r.selectedWardId == s.selectedWardId
    ensures r.selectedStandardId == s.selectedStandardId && r.selectedStandard == s.selectedStandard
  {
    var cleared := if user.role != Admin then s.(adminSelectedWardId := None) else s;
    if user.role == WardStaff && Truthy(user.wardId) then cleared.(selectedWardId := user.wardId.value) else cleared
  }

  /** The effect on `[selectedStandardId]`: the admin page shows no standard and closes the
      ward detail; any other id opens the catalog standard with that id, if any. */
  function StandardEffect(catalog: seq<Standard>, s: ViewState): (r: ViewState)
    ensures s.selectedStandardId == AdminPageId ==> r.selectedStandard.None? && r.adminSelectedWardId.None?
    ensures s.selectedStandardId != AdminPageId ==>
              r.adminSelectedWardId == s.adminSelectedWardId
              && r.selectedStandard == FindStandard(catalog, s.selectedStandardId)
              && (r.selectedStandard.Some? ==> r.selectedStandard.value in catalog
                                               && r.selectedStandard.value.id == s.selectedStandardId)
    ensures r.selectedStandardId == s.selectedStandardId && r.selectedWardId == s.selectedWardId
  {
    if s.selectedStandardId == AdminPageId then s.(selectedStandard := None, adminSelectedWardId := None)
    else s.(selectedStandard := FindStandard(catalog, s.selectedStandardId))
  }

  /** The state after mounting: the initial state with both effects applied in order. */
  function Mount(user: User, wards: seq<Ward>, catalog: seq<Standard>): ViewState
  {
    StandardEffect(catalog, UserEffect(user, InitialState(user, wards, catalog)))
  }

  /** `setSelectedStandardId(id)`: the standard effect runs only when the id actually changes. */
  function ChangeStandardId(catalog: seq<Standard>, s: ViewState, id: string): (r: ViewState)
    ensures r.selectedStandardId == id
    ensures r.selectedWardId == s.selectedWardId
    ensures id == s.selectedStandardId ==> r == s
    ensures id != s.selectedStandardId && id == AdminPageId ==>
              r.selectedStandard.None? && r.adminSelectedWardId.None?
    ensures id != s.selectedStandardId && id != AdminPageId ==>
              r.selectedStandard == FindStandard(catalog, id) && r.adminSelectedWardId == s.adminSelectedWardId
  {
    if id == s.selectedStandardId then s else StandardEffect(catalog, s.(selectedStandardId := id))
  }

  /** `handleAdminSelectWard`: opens the ward's detail, switching from `'admin_page'` to the default standard. */
  function AdminSelectWard(catalog: seq<Standard>, s: ViewState, wardId: string): (r: ViewState)
    ensures r.adminSelectedWardId == Some(wardId)
    ensures s.selectedStandardId == AdminPageId ==>
              r.selectedStandardId == DefaultStandardId && r.selectedStandard == FindStandard(catalog, DefaultStandardId)
    ensures s.selectedStandardId != AdminPageId ==>
              r.selectedStandardId == s.selectedStandardId && r.selectedStandard == s.selectedStandard
    ensures r.selectedWardId == s.selectedWardId
  {
    var detail := s.(adminSelectedWardId := Some(wardId));
    if s.selectedStandardId == AdminPageId then ChangeStandardId(catalog, detail, DefaultStandardId) else detail
  }

  /** `handleReturnToDashboard`. */
  function ReturnToDashboard(catalog: seq<Standard>, s: ViewState): ViewState
  {
    ChangeStandardId(catalog, s, AdminPageId)
  }

  /** The ward a score write lands on: the admin's selected ward for a truthy selection by an
      Admin, the selected ward otherwise. */
  function TargetWard(user: User, s: ViewState): (w: string)
    ensures user.role == Admin && Truthy(s.adminSelectedWardId) ==> w == s.adminSelectedWardId.value
    ensures user.role != Admin || !Truthy(s.adminSelectedWardId) ==> w == s.selectedWardId
  {
    if Truthy(s.adminSelectedWardId) && user.role == Admin then s.adminSelectedWardId.value else s.selectedWardId
  }

  /** The ward whose assessments are displayed (`wardIdForDisplay`). */
  function DisplayWard(user: User, s: ViewState): (w: string)
    ensures w == TargetWard(user, s)
  {
    var viewingAsAdminDetail := user.role == Admin && Truthy(s.adminSelectedWardId);
    if viewingAsAdminDetail then s.adminSelectedWardId.value else s.selectedWardId
  }

  /** `handleScoreChange`: an Admin with a truthy ward selection writes to that ward, everyone
      else to the selected ward. */
  function HandleScoreChange(user: User, s: ViewState, store: AllAssessments, pointId: string,
                             role: ScoreRole, updates: ScorePatch): (r: AllAssessments)
    ensures user.role == Admin && Truthy(s.adminSelectedWardId) ==>
              r == ApplyScore(store, s.adminSelectedWardId.value, pointId, role, updates, user.id)
    ensures user.role != Admin || !Truthy(s.adminSelectedWardId) ==>
              r == ApplyScore(store, s.selectedWardId, pointId, role, updates, user.id)
  {
    ApplyScore(store, TargetWard(user, s), pointId, role, updates, user.id)
  }

  datatype Screen = DashboardScreen | WardDetailScreen | ContentScreen

  /** Which main panel is rendered: non-admins always get the content view; an Admin gets the
      dashboard unless a ward is selected off the admin page, and then the ward detail exactly
      when a standard is open. */
  function ScreenFor(user: User, s: ViewState): (screen: Screen)
    ensures user.role != Admin ==> screen == ContentScreen
    ensures user.role == Admin && (!Truthy(s.adminSelectedWardId) || s.selectedStandardId == AdminPageId) ==>
              screen == DashboardScreen
    ensures user.role == Admin && Truthy(s.adminSelectedWardId) && s.selectedStandardId != AdminPageId ==>
              (screen == WardDetailScreen <==> s.selectedStandard.Some?)
              && (screen == ContentScreen <==> s.selectedStandard.None?)
  {
    if user.role == Admin && (!Truthy(s.adminSelectedWardId) || s.selectedStandardId == AdminPageId) then DashboardScreen
    else if user.role == Admin && Truthy(s.adminSelectedWardId) && s.selectedStandard.Some? then WardDetailScreen
    else ContentScreen
  }

  /** The effect of the score callback the rendered screen hands down: the dashboard has none,
      the ward detail passes a no-op, and the content view passes a no-op for an Admin. */
  function OnScoreChange(user: User, s: ViewState, store: AllAssessments, pointId: string,
                         role: ScoreRole, updates: ScorePatch): (r: AllAssessments)
    ensures user.role == Admin ==> r == store
    ensures user.role != Admin ==> r == ApplyScore(store, s.selectedWardId, pointId, role, updates, user.id)
  {
    match ScreenFor(user, s)
    case DashboardScreen => store
    case WardDetailScreen => store
    case ContentScreen => if user.role == Admin then store else HandleScoreChange(user, s, store, pointId, role, updates)
  }

  // ----- properties -----

  /** What the standard effect keeps true between events: the admin page shows no standard and no
      ward detail; any other id shows the catalog standard it names. */
  predicate Consistent(catalog: seq<Standard>, s: ViewState)
  {
    if s.selectedStandardId == AdminPageId then s.selectedStandard.None? && s.adminSelectedWardId.None?
    else s.selectedStandard == FindStandard(catalog, s.selectedStandardId)
  }

  /** After mounting, the default standard is open, no admin ward is selected, and the selected
      ward is the user's own (Ward Staff) or the first ward (others), '' when there is none. */
  lemma MountSpec(user: User, wards: seq<Ward>, catalog: seq<Standard>)
    ensures var s := Mount(user, wards, catalog);
            && Consistent(catalog, s)
            && s.selectedStandardId == DefaultStandardId
            && s.adminSelectedWardId.None?
            && (user.role == WardStaff && Truthy(user.wardId) ==> s.selectedWardId == user.wardId.value)
            && (user.role == WardStaff && !Truthy(user.wardId) ==> s.selectedWardId == "")
            && (user.role != WardStaff && |wards| > 0 ==> s.selectedWardId == wards[0].id)
            && (user.role != WardStaff && |wards| == 0 ==> s.selectedWardId == "")
  {
  }

  /** Once mounted, a Ward Staff user's writes land on the user's own ward. */
  lemma MountedWardStaffWritesOwnWard(user: User, wards: seq<Ward>, catalog: seq<Standard>, store: AllAssessments,
                                      pointId: string, role: ScoreRole, updates: ScorePatch)
    requires user.role == WardStaff && Truthy(user.wardId)
    ensures OnScoreChange(user, Mount(user, wards, catalog), store, pointId, role, updates)
         == ApplyScore(store, user.wardId.value, pointId, role, updates, user.id)
  {
  }

  /** Changing the standard id keeps the state consistent. */
  lemma ChangeStandardIdPreservesConsistent(catalog: seq<Standard>, s: ViewState, id: string)
    requires Consistent(catalog, s)
    ensures Consistent(catalog, ChangeStandardId(catalog, s, id))
  {
  }

  /** Selecting a ward as admin keeps the state consistent. */
  lemma AdminSelectWardPreservesConsistent(catalog: seq<Standard>, s: ViewState, wardId: string)
    requires Consistent(catalog, s)
    ensures Consistent(catalog, AdminSelectWard(catalog, s, wardId))
  {
  }

  /** Returning to the dashboard closes the ward detail and shows no standard, so an Admin sees
      the dashboard again. */
  lemma ReturnToDashboardClosesDetail(catalog: seq<Standard>, s: ViewState, admin: User)
    requires Consistent(catalog, s)
    requires admin.role == Admin
    ensures var r := ReturnToDashboard(catalog, s);
            && Consistent(catalog, r)
            && r.selectedStandardId == AdminPageId
            && r.selectedStandard.None?
            && r.adminSelectedWardId.None?
            && ScreenFor(admin, r) == DashboardScreen
  {
  }

  /** With `'admin_page'` selected, selecting a (non-empty) ward id shows that ward's read-only detail
      under the default standard, when the catalog has it. */
  lemma AdminSelectWardOpensDetail(catalog: seq<Standard>, s: ViewState, admin: User, wardId: string)
    requires Consistent(catalog, s)
    requires admin.role == Admin && s.selectedStandardId == AdminPageId
    requires wardId != "" && FindStandard(catalog, DefaultStandardId).Some?
    ensures var r := AdminSelectWard(catalog, s, wardId);
            && ScreenFor(admin, r) == WardDetailScreen
            && DisplayWard(admin, r) == wardId
            && r.selectedStandard.Some? && r.selectedStandard.value.id == DefaultStandardId
  {
  }
}
