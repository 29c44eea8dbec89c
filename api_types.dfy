/** The client-side record types shared by the pages (src/types/api.ts). */
module ApiTypes {
  import opened Wrappers

  /** `User.role`. */
  datatype Role = Student | Instructor | Admin | PendingInstructor

  /** `User.activeRole`: which view an instructor is currently using. */
  datatype ViewRole = StudentView | InstructorView

  datatype User = User(
    id: string,
    email: string,
    name: string,
    role: Role,
    activeRole: Option<ViewRole>,
    createdAt: string,
    updatedAt: string)

  /** `ApiResponse<T>` as returned by the client's fetch wrapper, which never throws. */
  datatype ApiResponse<T> = ApiResponse(success: bool, data: Option<T>, error: Option<string>)

  /** The string each role is spelled as on the wire. */
  function RoleName(r: Role): string
  {
    match r
    case Student => "student"
    case Instructor => "instructor"
    case Admin => "admin"
    case PendingInstructor => "pending_instructor"
  }

  function ViewRoleName(v: ViewRole): string
  {
    match v
    case StudentView => "student"
    case InstructorView => "instructor"
  }

  /** Reads a role back from its wire spelling; the inverse of RoleName. */
  function RoleNamed(s: string): (r: Option<Role>)
    ensures r.Some? ==> RoleName(r.value) == s
    ensures forall role :: RoleName(role) == s ==> r == Some(role)
  {
    if s == "student" then Some(Student)
    else if s == "instructor" then Some(Instructor)
    else if s == "admin" then Some(Admin)
    else if s == "pending_instructor" then Some(PendingInstructor)
    else None
  }

  /** A view role is spelled like the role of the same name. */
  lemma ViewRoleSpelling(v: ViewRole)
    ensures ViewRoleName(v) == RoleName(if v == StudentView then Student else Instructor)
    ensures ViewRoleName(v) == "instructor" <==> v == InstructorView
  {
  }
}
