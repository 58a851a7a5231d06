/** The user record and the four roles of the application. */
module Users {
  import opened Common

  datatype Role = Admin | ProjectManager | Manager | Developper

  /** The role as the string the application stores and searches. */
  function RoleName(role: Role): (r: string)
    ensures r != ""
  {
    match role
    case Admin => "Admin"
    case ProjectManager => "Project Manager"
    case Manager => "Manager"
    case Developper => "Developper"
  }

  /** Distinct roles have distinct names, so comparing names is comparing roles. */
  lemma RoleNameInjective(a: Role, b: Role)
    ensures RoleName(a) == RoleName(b) <==> a == b
  {
  }

  /**
   * A user. `id` is the `_id` field, absent on records that do not carry one;
   * `password` and `avatar` are optional.
   */
  datatype User = User(
    id: Option<string>,
    email: string,
    name: string,
    role: Role,
    password: Option<string>,
    avatar: Option<string>)
}
