/**
 * The closed set of account roles of the signup wizard and the lookups keyed
 * by it: the role's string value, the dashboard route chosen after a
 * successful registration, and the two label tables shown on the page.
 */
module Roles {
  import opened Wrappers

  /** `AppRole`: exactly five roles. */
  datatype Role = Learner | Teacher | GradeHead | Principal | Admin

  /** The string each role is stored and sent as. */
  function RoleName(r: Role): string {
    match r
    case Learner => "learner"
    case Teacher => "teacher"
    case GradeHead => "grade_head"
    case Principal => "principal"
    case Admin => "admin"
  }

  /** Distinct roles have distinct string values. */
  lemma RoleNameInjective(a: Role, b: Role)
    ensures RoleName(a) == RoleName(b) ==> a == b
  {
  }

  /**
   * The redirect after registration as the page writes it: a `switch` on the
   * role's string value whose `default` goes to the portal.
   */
  function RouteForName(name: string): string {
    if name == "learner" then "/dashboard/learner"
    else if name == "teacher" then "/dashboard/teacher"
    else if name == "grade_head" then "/dashboard/grade-head"
    else if name == "principal" then "/dashboard/principal"
    else if name == "admin" then "/dashboard/admin"
    else "/portal"
  }

  /** The dashboard of each role, as a total table over the closed set. */
  function DashboardRoute(r: Role): (route: string)
    ensures |route| > 11 && route[..11] == "/dashboard/"
  {
    match r
    case Learner => "/dashboard/learner"
    case Teacher => "/dashboard/teacher"
    case GradeHead => "/dashboard/grade-head"
    case Principal => "/dashboard/principal"
    case Admin => "/dashboard/admin"
  }

  /** The page's `switch` and the table agree on every role. */
  lemma SwitchMatchesTable(r: Role)
    ensures RouteForName(RoleName(r)) == DashboardRoute(r)
  {
  }

  /** The portal fallback is taken exactly for strings that are no role's value. */
  lemma PortalOnlyForUnknownNames(name: string)
    ensures RouteForName(name) == "/portal" <==> forall r: Role :: RoleName(r) != name
  {
    if RouteForName(name) == "/portal" {
      forall r: Role ensures RoleName(r) != name {
        SwitchMatchesTable(r);
        assert DashboardRoute(r)[..11] != "/portal"[..|"/portal"|];
      }
    } else {
      var r: Role :=
        if name == "learner" then Learner
        else if name == "teacher" then Teacher
        else if name == "grade_head" then GradeHead
        else if name == "principal" then Principal
        else Admin;
      assert RoleName(r) == name;
    }
  }

  /** Different roles land on different dashboards. */
  lemma DashboardRouteInjective(a: Role, b: Role)
    ensures DashboardRoute(a) == DashboardRoute(b) ==> a == b
  {
  }

  /** One entry of the role picker. */
  datatype RoleOption = RoleOption(value: Role, caption: string, description: string)

  /** The role picker, in display order. */
  const RoleOptions: seq<RoleOption> := [
    RoleOption(Learner, "Learner", "Student at the school"),
    RoleOption(Teacher, "Teacher", "Educator staff member"),
    RoleOption(GradeHead, "Grade Head", "Head of a grade"),
    RoleOption(Principal, "Principal", "School principal"),
    RoleOption(Admin, "Administrator", "System administrator")
  ]

  /** `options.find(o => o.value === r)`: the first entry for `r`, if any. */
  function FindOption(options: seq<RoleOption>, r: Role): (found: Option<RoleOption>)
    ensures found.None? <==> forall i :: 0 <= i < |options| ==> options[i].value != r
    ensures found.Some? ==> exists i :: 0 <= i < |options| && options[i] == found.value &&
                                        found.value.value == r &&
                                        forall j :: 0 <= j < i ==> options[j].value != r
  {
    if |options| == 0 then None
    else if options[0].value == r then Some(options[0])
    else
      var rest := FindOption(options[1..], r);
      assert forall i :: 1 <= i < |options| ==> options[i] == options[1..][i - 1];
      rest
  }

  /** The role picker offers every role exactly once. */
  lemma RoleOptionsCoverEveryRoleOnce(r: Role)
    ensures exists i :: 0 <= i < |RoleOptions| && RoleOptions[i].value == r
    ensures forall i, j :: 0 <= i < j < |RoleOptions| ==> RoleOptions[i].value != RoleOptions[j].value
  {
    match r
    case Learner => assert RoleOptions[0].value == r;
    case Teacher => assert RoleOptions[1].value == r;
    case GradeHead => assert RoleOptions[2].value == r;
    case Principal => assert RoleOptions[3].value == r;
    case Admin => assert RoleOptions[4].value == r;
  }

  /** The summary's role line: `roleOptions.find(...)?.label`. */
  function RoleLabel(r: Role): Option<string> {
    match FindOption(RoleOptions, r)
    case None => None
    case Some(o) => Some(o.caption)
  }

  /** The lookup never comes back empty, and yields the picker's label. */
  lemma RoleLabelTotal(r: Role)
    ensures RoleLabel(r).Some?
    ensures RoleLabel(r) == Some(match r
                                 case Learner => "Learner"
                                 case Teacher => "Teacher"
                                 case GradeHead => "Grade Head"
                                 case Principal => "Principal"
                                 case Admin => "Administrator")
  {
    RoleOptionsCoverEveryRoleOnce(r);
    var i :| 0 <= i < |RoleOptions| && RoleOptions[i].value == r;
    var o := FindOption(RoleOptions, r).value;
    var k :| 0 <= k < |RoleOptions| && RoleOptions[k] == o && o.value == r;
    assert k == i;
  }

  /** The dashboard name on the final screen, a chain of conditionals. */
  function ReadyDashboardName(r: Role): string {
    if r == Learner then "Learner"
    else if r == Teacher then "Teacher"
    else if r == Admin then "Admin"
    else if r == Principal then "Principal"
    else "Grade Head"
  }

  /**
   * The final screen's dashboard name agrees with the picker's label for every
   * role but the administrator, for which it is shortened to "Admin".
   */
  lemma ReadyNameAgreesWithLabel(r: Role)
    ensures r != Admin ==> Some(ReadyDashboardName(r)) == RoleLabel(r)
    ensures r == Admin ==> ReadyDashboardName(r) == "Admin" && RoleLabel(r) == Some("Administrator")
  {
    RoleLabelTotal(r);
  }
}
