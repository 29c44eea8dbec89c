/**
 * The client-side guard of the admin area (src/app/admin/layout.tsx): an effect that
 * reads the stored `user` and `token` on every route change, and the render decision.
 */
module AdminLayout {
  import opened Wrappers
  import opened Browser

  const AdminLoginPath: string := "/admin/login"

  /** What one run of the effect does. `Crash`: `JSON.parse` threw, or `role` was read
      from `null`; the effect has no `catch`, so neither the state nor the route changes. */
  datatype Effect = Skip | Replace(location: string) | SetUser(user: Json) | Crash

  /** What the layout renders. */
  datatype View = ChildrenOnly | Blank | AdminShell(user: Json)

  /** The effect's decision from the current path and the two stored items. */
  function GuardEffect(pathname: string, token: Option<string>, user: Option<Item>): (e: Effect)
    ensures e == Skip <==> pathname == AdminLoginPath
    ensures pathname != AdminLoginPath && (!ItemTruthy(user) || !Truthy(token)) ==> e == Replace(AdminLoginPath)
    ensures e.Replace? ==> e.location == AdminLoginPath
    ensures e.SetUser? ==> e.user.JObject? && Prop(e.user, "role") == Some("admin")
    ensures e.SetUser? <==> pathname != AdminLoginPath && ItemTruthy(user) && Truthy(token)
                            && user.value.parsed.Some? && !user.value.parsed.value.JNull?
                            && Prop(user.value.parsed.value, "role") == Some("admin")
    ensures pathname != AdminLoginPath && ItemTruthy(user) && Truthy(token)
            && user.value.parsed.Some? && !user.value.parsed.value.JNull?
            && Prop(user.value.parsed.value, "role") != Some("admin")
            ==> e == Replace(AdminLoginPath)
    ensures e == Crash <==>
              && pathname != AdminLoginPath && ItemTruthy(user) && Truthy(token)
              && (user.value.parsed.None? || user.value.parsed.value.JNull?)
  {
    if pathname == AdminLoginPath then Skip
    else if !ItemTruthy(user) || !Truthy(token) then Replace(AdminLoginPath)
    else match user.value.parsed
      case None => Crash
      case Some(u) =>
        if u.JNull? then Crash
        else if Prop(u, "role") != Some("admin") then Replace(AdminLoginPath)
        else SetUser(u)
  }

  /** The render decision from the path and the `user` state. */
  function Render(pathname: string, user: Option<Json>): (v: View)
    ensures v == ChildrenOnly <==> pathname == AdminLoginPath
    ensures v == Blank <==> pathname != AdminLoginPath && user.None?
    ensures v.AdminShell? ==> user == Some(v.user)
  {
    if pathname == AdminLoginPath then ChildrenOnly
    else if user.None? then Blank
    else AdminShell(user.value)
  }

  /** The layout's React state and the navigation it has requested. */
  class Layout {
    var user: Option<Json>
    var replaced: seq<string>

    constructor ()
      ensures user == None && replaced == []
    {
      user := None;
      replaced := [];
    }

    /** One run of the effect. */
    method RunGuard(pathname: string, token: Option<string>, stored: Option<Item>)
      modifies this
      ensures var e := GuardEffect(pathname, token, stored);
              && user == (if e.SetUser? then Some(e.user) else old(user))
              && replaced == (if e.Replace? then old(replaced) + [e.location] else old(replaced))
    {
      var e := GuardEffect(pathname, token, stored);
      match e
      case SetUser(u) => user := Some(u);
      case Replace(location) => replaced := replaced + [location];
      case _ =>
    }
  }

  /** From the initial state, one run of the effect leaves something rendered outside the
      login page only when the stored user is an admin, and the shell then shows that user. */
  lemma AdminShellOnlyForAdmins(pathname: string, token: Option<string>, stored: Option<Item>)
    ensures var e := GuardEffect(pathname, token, stored);
            var v := Render(pathname, if e.SetUser? then Some(e.user) else None);
            && (v.AdminShell? <==> e.SetUser?)
            && (v.AdminShell? ==> Prop(v.user, "role") == Some("admin"))
            && (pathname != AdminLoginPath && !e.SetUser? ==> v == Blank)
  {
  }
}
