/**
 * The `User` record of Config/models/user.py: its three role predicates,
 * the defaults a new row takes and the dictionary the JSON routes send.
 * The password is kept as the stored (hashed) text; hashing itself is
 * not modelled.
 */
module UserModel {
  import opened Common

  const AdminRole := "admin"
  const EmployeeRole := "empleado"
  const ClientRole := "cliente"

  datatype User = User(
    id: int,
    email: string,
    password: string,
    name: string,
    role: string,
    phone: Option<string>,
    active: bool,
    createdAt: Option<string>)

  predicate IsAdmin(u: User) {
    u.role == AdminRole
  }

  predicate IsEmployee(u: User) {
    u.role in [AdminRole, EmployeeRole]
  }

  predicate IsClient(u: User) {
    u.role == ClientRole
  }

  /** A row created with only the mandatory columns: role `cliente`, active. */
  function NewUser(id: int, email: string, name: string, password: string, createdAt: string): (u: User)
    ensures IsClient(u) && !IsEmployee(u) && !IsAdmin(u)
    ensures u.active
    ensures u.id == id && u.email == email && u.name == name && u.password == password
  {
    User(id, email, password, name, ClientRole, None, true, Some(createdAt))
  }

  /**
   * The three roles nest: every administrator is an employee, no client is,
   * and an employee who is not an administrator holds exactly `empleado`.
   */
  lemma RolesNest(u: User)
    ensures IsAdmin(u) ==> IsEmployee(u)
    ensures IsClient(u) ==> !IsEmployee(u)
    ensures IsEmployee(u) && !IsAdmin(u) <==> u.role == EmployeeRole
    ensures !(IsAdmin(u) && IsClient(u))
  {
  }

  /** The serialised user: `active` travels under the key `is_active`, the password never does. */
  datatype UserDict = UserDict(
    id: int,
    name: string,
    email: string,
    role: string,
    phone: Option<string>,
    isActive: bool,
    createdAt: Option<string>)

  function ToDict(u: User): (d: UserDict)
    ensures d.isActive == u.active
    ensures d.id == u.id && d.email == u.email && d.role == u.role
  {
    UserDict(u.id, u.name, u.email, u.role, u.phone, u.active, u.createdAt)
  }

  /**
   * Two users that differ only in their password serialise identically, and
   * users with equal dictionaries differ at most in their password.
   */
  lemma ToDictHidesOnlyPassword(u: User, v: User)
    ensures ToDict(u) == ToDict(v) <==> u == v.(password := u.password)
  {
  }
}
