/** The fixed-credential admin sign-in form (src/app/admin/login/page.tsx). */
module AdminLogin {
  import opened Wrappers
  import opened Browser
  import AdminLayout

  const AdminEmail: string := "admin@ezkorea.com"
  const AdminPassword: string := "supersecret123"
  const AdminToken: string := "dummy-admin-token"
  const AdminName: string := "관리자"
  const LoginError: string := "관리자 계정이 아니거나 비밀번호가 틀렸습니다."
  const AdminHome: string := "/admin"

  /** What a successful sign-in stores. */
  datatype Session = Session(token: string, user: Item)

  /** The user object written on success, and its `JSON.stringify` text. */
  function AdminRecord(email: string): Json
  {
    JObject(map["email" := email, "role" := "admin", "name" := AdminName])
  }

  function AdminRecordText(email: string): string
  {
    "{\"email\":\"" + email + "\",\"role\":\"admin\",\"name\":\"" + AdminName + "\"}"
  }

  /** The credential check: a session exactly for the fixed email and password. */
  function SignIn(email: string, password: string): (s: Option<Session>)
    ensures s.Some? <==> email == AdminEmail && password == AdminPassword
    ensures s.Some? ==> s.value.token == AdminToken && s.value.user.parsed == Some(AdminRecord(email))
  {
    if email == AdminEmail && password == AdminPassword then
      Some(Session(AdminToken, Item(AdminRecordText(email), Some(AdminRecord(email)))))
    else
      None
  }

  /** A session written by a successful sign-in passes the admin layout's guard on every
      admin page, and the layout then renders its shell with that admin user. */
  lemma SignedInSessionPassesLayoutGuard(email: string, password: string, pathname: string)
    requires SignIn(email, password).Some?
    requires pathname != AdminLayout.AdminLoginPath
    ensures var s := SignIn(email, password).value;
            var e := AdminLayout.GuardEffect(pathname, Some(s.token), Some(s.user));
            && e == AdminLayout.SetUser(AdminRecord(email))
            && AdminLayout.Render(pathname, Some(e.user)) == AdminLayout.AdminShell(AdminRecord(email))
  {
    var s := SignIn(email, password).value;
    assert s.user.text != [] by { assert s.user.text[0] == '{'; }
    assert Prop(AdminRecord(email), "role") == Some("admin");
  }

  /** The form's React state, the two `localStorage` slots it writes and the router history. */
  class LoginForm {
    var email: string
    var password: string
    var error: string
    var loading: bool
    var storedToken: Option<string>
    var storedUser: Option<Item>
    var pushed: seq<string>

    constructor (token: Option<string>, user: Option<Item>)
      ensures email == "" && password == "" && error == "" && !loading
      ensures storedToken == token && storedUser == user && pushed == []
    {
      email, password, error, loading := "", "", "", false;
      storedToken, storedUser := token, user;
      pushed := [];
    }

    /** `handleSubmit`: clears the error, checks the credentials, stores the session and
        goes to the admin home on success, sets the error otherwise; `loading` ends false. */
    method HandleSubmit()
      modifies this
      ensures email == old(email) && password == old(password) && !loading
      ensures match SignIn(old(email), old(password))
              case Some(s) =>
                && storedToken == Some(s.token) && storedUser == Some(s.user)
                && pushed == old(pushed) + [AdminHome] && error == ""
              case None =>
                && storedToken == old(storedToken) && storedUser == old(storedUser)
                && pushed == old(pushed) && error == LoginError
    {
      error := "";
      loading := true;
      var session := SignIn(email, password);
      if session.Some? {
        storedToken := Some(session.value.token);
        storedUser := Some(session.value.user);
        pushed := pushed + [AdminHome];
      } else {
        error := LoginError;
      }
      loading := false;
    }
  }
}
