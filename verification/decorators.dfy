/**
 * The access decorators of Config/decorators.py. A decorated view either
 * redirects (with a flashed message) or is called with the arguments it
 * was given; the view itself is left abstract.
 */
module Decorators {
  import opened UserModel

  /** `current_user`: anonymous, or an authenticated user. */
  datatype Viewer = Anonymous | SignedIn(user: User)

  /** What the wrapped view answers. */
  datatype Outcome<A> = Redirect(endpoint: string, flash: string) | Call(args: A)

  const LoginEndpoint := "auth.login"
  const IndexEndpoint := "main.index"
  const LoginMessage := "Debes iniciar sesión para acceder a esta página."

  /** `admin_required`. */
  function AdminRequired<A>(viewer: Viewer, args: A): (o: Outcome<A>)
    ensures viewer.Anonymous? ==> o == Redirect(LoginEndpoint, LoginMessage)
    ensures o.Call? <==> viewer.SignedIn? && IsAdmin(viewer.user)
    ensures o.Call? ==> o.args == args
    ensures o.Redirect? && viewer.SignedIn? ==> o.endpoint == IndexEndpoint
  {
    if viewer.Anonymous? then Redirect(LoginEndpoint, LoginMessage)
    else if !IsAdmin(viewer.user) then
      Redirect(IndexEndpoint, "No tienes permisos de administrador para acceder a esta página.")
    else Call(args)
  }

  /** `employee_required`. */
  function EmployeeRequired<A>(viewer: Viewer, args: A): (o: Outcome<A>)
    ensures viewer.Anonymous? ==> o == Redirect(LoginEndpoint, LoginMessage)
    ensures o.Call? <==> viewer.SignedIn? && viewer.user.role in {"admin", "empleado"}
    ensures o.Call? ==> o.args == args
    ensures o.Redirect? && viewer.SignedIn? ==> o.endpoint == IndexEndpoint
  {
    if viewer.Anonymous? then Redirect(LoginEndpoint, LoginMessage)
    else if !IsEmployee(viewer.user) then
      Redirect(IndexEndpoint, "No tienes permisos de empleado para acceder a esta página.")
    else Call(args)
  }

  /** `client_access`. */
  function ClientAccess<A>(viewer: Viewer, args: A): (o: Outcome<A>)
    ensures o.Call? <==> viewer.SignedIn?
    ensures o.Call? ==> o.args == args
    ensures o.Redirect? ==> o == Redirect(LoginEndpoint, LoginMessage)
  {
    if viewer.Anonymous? then Redirect(LoginEndpoint, LoginMessage) else Call(args)
  }

  /**
   * The decorators are ordered: whoever passes `admin_required` passes
   * `employee_required`, and whoever passes that passes `client_access`;
   * a client passes only the last.
   */
  lemma AccessIsNested<A>(viewer: Viewer, args: A)
    ensures AdminRequired(viewer, args).Call? ==> EmployeeRequired(viewer, args).Call?
    ensures EmployeeRequired(viewer, args).Call? ==> ClientAccess(viewer, args).Call?
    ensures viewer.SignedIn? && IsClient(viewer.user) ==>
              ClientAccess(viewer, args).Call? && EmployeeRequired(viewer, args).Redirect?
  {
  }
}
