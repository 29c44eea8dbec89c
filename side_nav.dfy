/**
 * The left navigation bar (src/components/LNB.tsx): which menu it shows, when it offers
 * the student/instructor view switch, and what a switch does.
 */
module SideNav {
  import opened Wrappers
  import opened ApiTypes

  datatype MenuItem = MenuItem(caption: string, href: string)

  const StudentMenu: seq<MenuItem> := [
    MenuItem("대시보드", "/student/dashboard"),
    MenuItem("내 강의", "/student/courses"),
    MenuItem("학습 현황", "/student/progress"),
    MenuItem("강사 신청", "/become-instructor")
  ]

  const InstructorMenu: seq<MenuItem> := [
    MenuItem("대시보드", "/instructor/dashboard"),
    MenuItem("내 강의", "/instructor/courses"),
    MenuItem("수강생 관리", "/instructor/students"),
    MenuItem("수익 현황", "/instructor/revenue")
  ]

  /** The menu for the user's current view: the instructor menu exactly when `activeRole`
      is `instructor`, the student menu otherwise (also when `activeRole` is absent). */
  function MenuFor(activeRole: Option<ViewRole>): (m: seq<MenuItem>)
    ensures m == InstructorMenu <==> activeRole == Some(InstructorView)
    ensures m == StudentMenu <==> activeRole != Some(InstructorView)
  {
    if activeRole == Some(InstructorView) then InstructorMenu else StudentMenu
  }

  /** The switch control: absent unless the user is an instructor; otherwise it requests
      the view the user is not in (student from the instructor view, instructor from any
      other, including no view at all). */
  function SwitchTarget(user: User): (target: Option<ViewRole>)
    ensures target.Some? <==> user.role == Instructor
    ensures target.Some? ==> Some(target.value) != user.activeRole
    ensures target == Some(StudentView) <==> user.role == Instructor && user.activeRole == Some(InstructorView)
  {
    if user.role != Instructor then None
    else if user.activeRole == Some(InstructorView) then Some(StudentView)
    else Some(InstructorView)
  }

  /** Where a successful switch navigates: the dashboard of the new view, which is the
      first entry of that view's menu. */
  function DashboardFor(role: ViewRole): (path: string)
    ensures path == MenuFor(Some(role))[0].href
    ensures path == "/instructor/dashboard" <==> role == InstructorView
  {
    if role == InstructorView then "/instructor/dashboard" else "/student/dashboard"
  }

  /** The application page is linked from the student menu only. */
  lemma ApplicationLinkOnlyInStudentMenu(activeRole: Option<ViewRole>)
    ensures (exists i :: 0 <= i < |MenuFor(activeRole)| && MenuFor(activeRole)[i].href == "/become-instructor")
        <==> activeRole != Some(InstructorView)
  {
    if activeRole == Some(InstructorView) {
      forall i | 0 <= i < |InstructorMenu| ensures InstructorMenu[i].href != "/become-instructor" {
        assert InstructorMenu[i].href[1] == 'i';
      }
    } else {
      assert MenuFor(activeRole)[3].href == "/become-instructor";
    }
  }

  /** The bar's React state, the cached `user` in `localStorage` and the router history. */
  class NavBar {
    var user: Option<User>
    var loading: bool
    var cachedUser: Option<User>
    var pushed: seq<string>

    constructor (cached: Option<User>)
      ensures user == None && loading && cachedUser == cached && pushed == []
    {
      user, loading, cachedUser, pushed := None, true, cached, [];
    }

    /** `fetchUserData`: adopts and caches the current user when the reply carries one. */
    method FetchUserData(response: ApiResponse<User>)
      modifies this
      ensures !loading && pushed == old(pushed)
      ensures if response.success && response.data.Some?
              then user == response.data && cachedUser == response.data
              else user == old(user) && cachedUser == old(cachedUser)
    {
      if response.success && response.data.Some? {
        user := response.data;
        cachedUser := response.data;
      }
      loading := false;
    }

    /** `handleRoleSwitch`: only a successful reply with data changes the user, the cache
        and the route; `loading` is false afterwards whatever the reply. */
    method HandleRoleSwitch(role: ViewRole, response: ApiResponse<User>)
      modifies this
      ensures !loading
      ensures if response.success && response.data.Some?
              then user == response.data && cachedUser == response.data
                   && pushed == old(pushed) + [DashboardFor(role)]
              else user == old(user) && cachedUser == old(cachedUser) && pushed == old(pushed)
    {
      loading := true;
      if response.success && response.data.Some? {
        user := response.data;
        cachedUser := response.data;
        pushed := pushed + [DashboardFor(role)];
      }
      loading := false;
    }
  }
}
