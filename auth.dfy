/**
 * The two authorization guards of src/middleware/auth.ts. A guard that throws
 * is modelled as `Fail(error)`; one that returns normally as `Pass`.
 */
module Auth {
  import opened Wrappers

  datatype Role = UserRole | AdminRole

  /** The fields of src/types/index.ts's `User`; `createdAt` is a clock reading. */
  datatype User = User(id: string, email: string, name: Option<string>, role: Role, createdAt: int)

  datatype AuthError = AuthenticationRequired | AdminAccessRequired

  /** `requireAuth`: an absent user (null or undefined) is rejected. */
  function RequireAuth(user: Option<User>): (r: Outcome<AuthError>)
    ensures r.Fail? <==> user.None?
    ensures r.Fail? ==> r.error == AuthenticationRequired
  {
    if user.None? then Fail(AuthenticationRequired) else Pass
  }

  /**
   * `requireAdmin`: runs `requireAuth` first, so a missing user gets the
   * authentication error and never the admin error.
   */
  function RequireAdmin(user: Option<User>): (r: Outcome<AuthError>)
    ensures user.None? ==> r == Fail(AuthenticationRequired)
    ensures user.Some? && user.value.role == UserRole ==> r == Fail(AdminAccessRequired)
    ensures r == Pass <==> user.Some? && user.value.role == AdminRole
  {
    match RequireAuth(user)
    case Fail(e) => Fail(e)
    case Pass => if user.value.role != AdminRole then Fail(AdminAccessRequired) else Pass
  }
}
