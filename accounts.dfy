/** The account record's role field (backend/account/models.py). */
module Accounts {
  import opened Wrappers

  /** The four roles an account may carry. */
  datatype Role = Student | Teacher | Staff | Admin

  /** A new account is a student unless told otherwise. */
  const DefaultRole: Role := Student

  /** The role as it is stored and sent over the wire. */
  function RoleName(r: Role): string
  {
    match r
    case Student => "student"
    case Teacher => "teacher"
    case Staff => "staff"
    case Admin => "admin"
  }

  function ParseRole(s: string): Option<Role>
  {
    if s == "student" then Some(Student)
    else if s == "teacher" then Some(Teacher)
    else if s == "staff" then Some(Staff)
    else if s == "admin" then Some(Admin)
    else None
  }

  /** Every role survives the trip to its wire name and back, and only the four wire names parse. */
  lemma RoleNameRoundTrip(r: Role, s: string)
    ensures ParseRole(RoleName(r)) == Some(r)
    ensures ParseRole(s) == Some(r) <==> s == RoleName(r)
  {
  }
}
