/**
 * The route guard run in front of every matched page request (src/middleware.ts).
 * It decides, from the request path and the `token` and `user` cookies, whether the
 * request passes through or is redirected.
 */
module Middleware {
  import opened Wrappers
  import opened Browser
  import opened ApiTypes

  const LoginPage: string := "/login"
  const HomePage: string := "/"
  const StudentDashboard: string := "/student/dashboard"

  datatype Decision = Next | Redirect(location: string)

  const PublicPaths: seq<string> := ["/login", "/signup", "/", "/about", "/contact"]

  /** `publicPaths.some(path => pathname.startsWith(path))`, as written: since every entry
      starts with `/` and one entry is `/` itself, exactly the absolute paths are public. */
  function IsPublicAsWritten(path: string): (r: bool)
    ensures r <==> HomePage <= path
  {
    assert PublicPaths[2] == HomePage;
    exists i :: 0 <= i < |PublicPaths| && PublicPaths[i] <= path
  }

  /** The evidently intended public test: the home page `/` only by exact match,
      the other public paths by prefix. */
  function IsPublic(path: string): (r: bool)
    ensures r ==> IsPublicAsWritten(path)
    ensures r && path != HomePage ==> |path| >= 6
  {
    path == HomePage || exists i :: 0 <= i < |PublicPaths| && PublicPaths[i] != HomePage && PublicPaths[i] <= path
  }

  /** The checks made on the parsed `user` cookie, in source order: admin pages, instructor
      pages, then the instructor application page. Reading a property of `null` throws,
      and the surrounding `catch` redirects to the login page. */
  function RoleChecks(path: string, user: Json): (d: Decision)
    ensures d.Redirect? ==> d.location in {LoginPage, HomePage, StudentDashboard}
    ensures d == Redirect(LoginPage) ==> user.JNull?
    ensures !("/admin" <= path) && !("/instructor" <= path) && path != "/become-instructor" ==> d == Next
  {
    if user.JNull? then
      (if "/admin" <= path || "/instructor" <= path || path == "/become-instructor" then Redirect(LoginPage) else Next)
    else if "/admin" <= path && Prop(user, "role") != Some("admin") then
      Redirect(HomePage)
    else if "/instructor" <= path
      && (Prop(user, "role") != Some("instructor") || Prop(user, "activeRole") != Some("instructor")) then
      Redirect(StudentDashboard)
    else if path == "/become-instructor"
      && (Prop(user, "role") == Some("instructor") || Prop(user, "role") == Some("pending_instructor")) then
      Redirect(StudentDashboard)
    else
      Next
  }

  /** Everything after the public-path test: cookie presence, `JSON.parse` of the user
      cookie (a throw redirects to the login page), then the role checks. The only
      outcomes are passing through or a redirect to the login page, home or the
      student dashboard. */
  function Guard(path: string, token: Option<string>, user: Option<Item>): (d: Decision)
    ensures d.Redirect? ==> d.location in {LoginPage, HomePage, StudentDashboard}
    ensures !Truthy(token) || !ItemTruthy(user) ==> d == Redirect(LoginPage)
    ensures ItemTruthy(user) && user.value.parsed.None? ==> d == Redirect(LoginPage)
    ensures Truthy(token) && ItemTruthy(user) && user.value.parsed == Some(JNull) ==>
              d == if "/admin" <= path || "/instructor" <= path || path == "/become-instructor"
                   then Redirect(LoginPage) else Next
  {
    if !Truthy(token) || !ItemTruthy(user) then Redirect(LoginPage)
    else match user.value.parsed
      case None => Redirect(LoginPage)
      case Some(u) => RoleChecks(path, u)
  }

  /** The middleware exactly as written: the `"/"` entry makes every absolute path public. */
  function DecideAsWritten(path: string, token: Option<string>, user: Option<Item>): (d: Decision)
    ensures HomePage <= path ==> d == Next
    ensures d.Redirect? ==> d.location in {LoginPage, HomePage, StudentDashboard}
  {
    if IsPublicAsWritten(path) then Next else Guard(path, token, user)
  }

  /** The middleware with the public test corrected. It only adds redirects: wherever the
      middleware as written redirects, this one redirects to the same place. */
  function Decide(path: string, token: Option<string>, user: Option<Item>): (d: Decision)
    ensures d.Redirect? ==> d.location in {LoginPage, HomePage, StudentDashboard}
    ensures DecideAsWritten(path, token, user).Redirect? ==> d == DecideAsWritten(path, token, user)
  {
    if IsPublic(path) then Next else Guard(path, token, user)
  }

  /** `config.matcher`: `/admin/:path*`, `/profile/:path*`, `/instructor/:path*`,
      `/student/:path*` (the directory itself or anything below it) and `/become-instructor`. */
  function Matched(path: string): (r: bool)
    ensures r ==> HomePage <= path
  {
    || UnderDirectory(path, "/admin") || UnderDirectory(path, "/profile")
    || UnderDirectory(path, "/instructor") || UnderDirectory(path, "/student")
    || path == "/become-instructor"
  }

  predicate UnderDirectory(path: string, dir: string)
  {
    path == dir || dir + "/" <= path
  }

  // ---------------------------------------------------------------------------
  // The middleware as written never guards anything.

  /** As written, every path that starts with `/` is public, so the request passes
      whatever the cookies say. */
  lemma EveryAbsolutePathPassesAsWritten(path: string, token: Option<string>, user: Option<Item>)
    requires HomePage <= path
    ensures IsPublicAsWritten(path)
    ensures DecideAsWritten(path, token, user) == Next
  {
  }

  /** Hence the middleware as written lets every matched request through: an admin page
      with no cookies at all is served. */
  lemma MatchedRequestsPassAsWritten(path: string, token: Option<string>, user: Option<Item>)
    requires Matched(path)
    ensures DecideAsWritten(path, token, user) == Next
  {
    EveryAbsolutePathPassesAsWritten(path, token, user);
  }

  /** The concrete discrepancy: `/admin` without cookies passes as written, and is sent
      to the login page by the corrected test. */
  lemma AdminWithoutCookiesCounterexample()
    ensures DecideAsWritten("/admin", None, None) == Next
    ensures Decide("/admin", None, None) == Redirect(LoginPage)
  {
    EveryAbsolutePathPassesAsWritten("/admin", None, None);
    MatchedPathIsNotPublic("/admin");
  }

  // ---------------------------------------------------------------------------
  // The corrected middleware.

  /** No path the matcher selects is public, so the guard always runs on them. */
  lemma MatchedPathIsNotPublic(path: string)
    requires Matched(path)
    ensures !IsPublic(path)
  {
    assert |path| >= 2 && path[0] == '/';
    var c := path[1];
    assert c == 'a' || c == 'p' || c == 'i' || c == 's' || c == 'b';
    if c == 'a' {
      assert path[2] == 'd';
    } else if c == 's' {
      assert path[2] == 't';
    }
    forall i | 0 <= i < |PublicPaths| && PublicPaths[i] != HomePage
      ensures !(PublicPaths[i] <= path)
    {
      var p := PublicPaths[i];
      assert |p| >= 3;
      assert p[1] == 'l' || p[1] == 's' || p[1] == 'a' || p[1] == 'c';
      if p[1] == 'a' {
        assert p[2] == 'b';
      } else if p[1] == 's' {
        assert p[2] == 'i';
      }
    }
  }

  lemma MatchedRequestsAreGuarded(path: string, token: Option<string>, user: Option<Item>)
    requires Matched(path)
    ensures Decide(path, token, user) == Guard(path, token, user)
  {
    MatchedPathIsNotPublic(path);
  }

  /** A guarded request without a token or user cookie is sent to the login page. */
  lemma MissingCookieRedirectsToLogin(path: string, token: Option<string>, user: Option<Item>)
    requires Matched(path)
    requires !Truthy(token) || !ItemTruthy(user)
    ensures Decide(path, token, user) == Redirect(LoginPage)
  {
    MatchedPathIsNotPublic(path);
  }

  /** A user cookie that `JSON.parse` rejects sends a guarded request to the login page. */
  lemma UnparseableUserRedirectsToLogin(path: string, token: Option<string>, text: string)
    requires Matched(path) && Truthy(token) && text != ""
    ensures Decide(path, token, Some(Item(text, None))) == Redirect(LoginPage)
  {
    MatchedPathIsNotPublic(path);
  }

  /** A user cookie holding `null`: reading `role` on it throws on the admin, instructor and
      application pages, and the `catch` sends the request to the login page. */
  lemma NullUserRedirectsToLogin(path: string, token: Option<string>, text: string)
    requires UnderDirectory(path, "/admin") || UnderDirectory(path, "/instructor") || path == "/become-instructor"
    requires Truthy(token) && text != ""
    ensures Decide(path, token, Some(Item(text, Some(JNull)))) == Redirect(LoginPage)
  {
    MatchedPathIsNotPublic(path);
    if UnderDirectory(path, "/admin") && path != "/admin" {
      assert path[..6] == ("/admin" + "/")[..6];
    } else if UnderDirectory(path, "/instructor") && path != "/instructor" {
      assert path[..11] == ("/instructor" + "/")[..11];
    }
  }

  /** The corrected middleware also guards the admin sign-in page, which is matched by
      `/admin/:path*`: without cookies it is sent to `/login`, where as written it passes. */
  lemma AdminLoginPageGuardedWhenCorrected(token: Option<string>, user: Option<Item>)
    requires !Truthy(token) || !ItemTruthy(user)
    ensures DecideAsWritten("/admin/login", token, user) == Next
    ensures Decide("/admin/login", token, user) == Redirect(LoginPage)
  {
    assert "/admin/login" == "/admin" + "/" + "login";
    assert Matched("/admin/login");
    MissingCookieRedirectsToLogin("/admin/login", token, user);
  }

  /** Admin pages: anyone whose role is not `admin` is sent home; an admin passes. */
  lemma AdminPagesNeedAdminRole(path: string, token: Option<string>, user: Item, u: Json)
    requires UnderDirectory(path, "/admin")
    requires Truthy(token) && user.text != "" && user.parsed == Some(u) && !u.JNull?
    ensures Decide(path, token, Some(user)) == if Prop(u, "role") == Some("admin") then Next else Redirect(HomePage)
  {
    MatchedPathIsNotPublic(path);
    assert "/admin" <= path by {
      if path != "/admin" { assert path[..6] == ("/admin" + "/")[..6]; }
    }
    assert !("/instructor" <= path) by { assert path[1] == 'a'; }
    assert path != "/become-instructor" by { assert path[1] == 'a'; }
  }

  /** Instructor pages pass exactly when both `role` and `activeRole` are `instructor`;
      everyone else is sent to the student dashboard. */
  lemma InstructorPagesNeedInstructorView(path: string, token: Option<string>, user: Item, u: Json)
    requires UnderDirectory(path, "/instructor")
    requires Truthy(token) && user.text != "" && user.parsed == Some(u) && !u.JNull?
    ensures Decide(path, token, Some(user))
         == if Prop(u, "role") == Some("instructor") && Prop(u, "activeRole") == Some("instructor")
            then Next else Redirect(StudentDashboard)
  {
    MatchedPathIsNotPublic(path);
    assert "/instructor" <= path by {
      if path != "/instructor" { assert path[..11] == ("/instructor" + "/")[..11]; }
    }
    assert !("/admin" <= path) by { assert path[1] == 'i'; }
    assert path != "/become-instructor" by { assert path[1] == 'i'; }
  }

  /** The application page is closed to instructors and pending instructors only. */
  lemma ApplicationPageClosedToInstructors(token: Option<string>, user: Item, u: Json)
    requires Truthy(token) && user.text != "" && user.parsed == Some(u) && !u.JNull?
    ensures Decide("/become-instructor", token, Some(user))
         == if Prop(u, "role") == Some("instructor") || Prop(u, "role") == Some("pending_instructor")
            then Redirect(StudentDashboard) else Next
  {
    MatchedPathIsNotPublic("/become-instructor");
    var p := "/become-instructor";
    assert !("/admin" <= p) by { assert p[1] == 'b'; }
    assert !("/instructor" <= p) by { assert p[1] == 'b'; }
  }

  /** Profile and student pages only need the two cookies and a parseable user cookie. */
  lemma OtherGuardedPagesNeedOnlyCookies(path: string, token: Option<string>, user: Item, u: Json)
    requires UnderDirectory(path, "/profile") || UnderDirectory(path, "/student")
    requires Truthy(token) && user.text != "" && user.parsed == Some(u)
    ensures Decide(path, token, Some(user)) == Next
  {
    MatchedPathIsNotPublic(path);
    assert path[1] == 'p' || path[1] == 's';
    assert !("/admin" <= path) && !("/instructor" <= path) && path != "/become-instructor";
  }

  /** The cookie a signed-in client stores for user `u`. */
  function UserCookie(u: User): Json
  {
    JObject(map["role" := RoleName(u.role)]
      + if u.activeRole.Some? then map["activeRole" := ViewRoleName(u.activeRole.value)] else map[])
  }

  /** For a user record of the client's own type: instructor pages are open exactly to an
      instructor currently using the instructor view. */
  lemma InstructorPagesForUserRecord(path: string, token: Option<string>, text: string, u: User)
    requires UnderDirectory(path, "/instructor") && Truthy(token) && text != ""
    ensures Decide(path, token, Some(Item(text, Some(UserCookie(u)))))
         == if u.role == Instructor && u.activeRole == Some(InstructorView) then Next else Redirect(StudentDashboard)
  {
    var c := UserCookie(u);
    InstructorPagesNeedInstructorView(path, token, Item(text, Some(c)), c);
    assert Prop(c, "role") == Some(RoleName(u.role));
    assert RoleName(u.role) == "instructor" <==> u.role == Instructor;
    if u.activeRole.Some? {
      ViewRoleSpelling(u.activeRole.value);
      assert Prop(c, "activeRole") == Some(ViewRoleName(u.activeRole.value));
    } else {
      assert Prop(c, "activeRole") == None;
    }
  }
}
