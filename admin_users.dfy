/** The user management page (src/app/admin/users/page.tsx): role and status changes
    applied to the locally listed users. */
module AdminUsers {
  import opened Wrappers
  import opened ApiTypes

  /** One listed user. The page keeps the server's records as they come, so `role` and
      `status` are plain strings here. */
  datatype UserRow = UserRow(
    id: string, name: string, email: string, createdAt: string, role: string, status: string)

  /** A change the page applies: `{ ...user, role: newRole }` or `{ ...user, status: newStatus }`. */
  datatype Change = SetRole(newRole: string) | SetStatus(newStatus: string)

  const RoleOptions: seq<string> := ["student", "instructor", "admin"]
  const StatusOptions: seq<string> := ["active", "suspended", "banned"]

  /** The changed copy of one row: only the named field differs. */
  function Changed(u: UserRow, c: Change): (r: UserRow)
    ensures c.SetRole? ==> r.role == c.newRole && r.(role := u.role) == u
    ensures c.SetStatus? ==> r.status == c.newStatus && r.(status := u.status) == u
  {
    match c
    case SetRole(newRole) => u.(role := newRole)
    case SetStatus(newStatus) => u.(status := newStatus)
  }

  /** `users.map(user => user._id === id ? changed : user)`: every row with the id is
      changed, every other row is left alone, and length and order are kept. */
  function ChangeWhere(users: seq<UserRow>, id: string, c: Change): (r: seq<UserRow>)
    ensures |r| == |users|
    ensures forall i :: 0 <= i < |users| && users[i].id == id ==> r[i] == Changed(users[i], c)
    ensures forall i :: 0 <= i < |users| && users[i].id != id ==> r[i] == users[i]
  {
    if users == [] then []
    else [if users[0].id == id then Changed(users[0], c) else users[0]] + ChangeWhere(users[1..], id, c)
  }

  /** The two drop-downs offer only values of their own column: choosing an offered value
      keeps every row's role, or status, among the offered ones. */
  lemma OfferedChoicesStayOffered(users: seq<UserRow>, id: string, role: string, status: string)
    requires forall u :: u in users ==> u.role in RoleOptions && u.status in StatusOptions
    requires role in RoleOptions && status in StatusOptions
    ensures forall u :: u in ChangeWhere(users, id, SetRole(role)) ==> u.role in RoleOptions && u.status in StatusOptions
    ensures forall u :: u in ChangeWhere(users, id, SetStatus(status)) ==> u.role in RoleOptions && u.status in StatusOptions
  {
  }

  /** Changes keep every row's id. */
  lemma ChangeKeepsIds(users: seq<UserRow>, id: string, c: Change)
    ensures forall i :: 0 <= i < |users| ==> ChangeWhere(users, id, c)[i].id == users[i].id
  {
  }

  /** Making the same change twice is making it once. */
  lemma ChangeIdempotent(users: seq<UserRow>, id: string, c: Change)
    ensures ChangeWhere(ChangeWhere(users, id, c), id, c) == ChangeWhere(users, id, c)
  {
    var once := ChangeWhere(users, id, c);
    ChangeKeepsIds(users, id, c);
    var twice := ChangeWhere(once, id, c);
    assert forall i :: 0 <= i < |users| ==> twice[i] == once[i];
  }

  /** A role change and a status change commute, whichever users they target. */
  lemma RoleAndStatusChangesCommute(users: seq<UserRow>, id: string, role: string, other: string, status: string)
    ensures ChangeWhere(ChangeWhere(users, id, SetRole(role)), other, SetStatus(status))
         == ChangeWhere(ChangeWhere(users, other, SetStatus(status)), id, SetRole(role))
  {
    var a := ChangeWhere(users, id, SetRole(role));
    var b := ChangeWhere(users, other, SetStatus(status));
    ChangeKeepsIds(users, id, SetRole(role));
    ChangeKeepsIds(users, other, SetStatus(status));
    var left := ChangeWhere(a, other, SetStatus(status));
    var right := ChangeWhere(b, id, SetRole(role));
    assert forall i :: 0 <= i < |users| ==> left[i] == right[i];
  }

  /** Every role the selector offers is a role of the client's user type, and a user can
      never be set to `pending_instructor` from this page. */
  lemma RoleOptionsAreClientRoles()
    ensures forall o :: o in RoleOptions ==> RoleNamed(o).Some? && RoleNamed(o) != Some(PendingInstructor)
    ensures RoleName(PendingInstructor) !in RoleOptions
  {
  }

  /** A request the page sends: the target user and the change. */
  datatype Request = Request(userId: string, change: Change)

  const RoleChangeFailed: string := "권한 변경 실패"
  const StatusChangeFailed: string := "상태 변경 실패"

  /** The page's React state and the requests it has sent. */
  class UsersPage {
    var users: seq<UserRow>
    var error: string
    var sent: seq<Request>

    constructor (loaded: seq<UserRow>)
      ensures users == loaded && error == "" && sent == []
    {
      users, error, sent := loaded, "", [];
    }

    /** `handleRoleChange`: whatever HTTP status comes back the list is updated; only a
        thrown `fetch` (`threw`) skips the update and sets the error instead. */
    method HandleRoleChange(userId: string, newRole: string, threw: bool)
      modifies this
      ensures sent == old(sent) + [Request(userId, SetRole(newRole))]
      ensures if threw then users == old(users) && error == RoleChangeFailed
              else users == ChangeWhere(old(users), userId, SetRole(newRole)) && error == old(error)
    {
      sent := sent + [Request(userId, SetRole(newRole))];
      if threw {
        error := RoleChangeFailed;
      } else {
        users := ChangeWhere(users, userId, SetRole(newRole));
      }
    }

    /** `handleStatusChange`: as `handleRoleChange`, applied to `status`. */
    method HandleStatusChange(userId: string, newStatus: string, threw: bool)
      modifies this
      ensures sent == old(sent) + [Request(userId, SetStatus(newStatus))]
      ensures if threw then users == old(users) && error == StatusChangeFailed
              else users == ChangeWhere(old(users), userId, SetStatus(newStatus)) && error == old(error)
    {
      sent := sent + [Request(userId, SetStatus(newStatus))];
      if threw {
        error := StatusChangeFailed;
      } else {
        users := ChangeWhere(users, userId, SetStatus(newStatus));
      }
    }
  }
}
