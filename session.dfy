/**
 * The static accessors for the caller of the current request, reading the
 * authentication the transport layer stored. The ambient security context is
 * passed in explicitly; None stands for a context holding no authentication.
 */
module Session {
  import opened Wrappers

  /** The authentication of the current request: principal name and granted authorities, in order. */
  datatype Authentication = Authentication(name: string, authorities: seq<string>)

  datatype SessionError =
    | NoAuthentication          // the context holds none; the source dereferences null
    | RoleNotFound(message: string)

  /** getLoggedInUserEmail: the principal's name. */
  function LoggedInUserEmail(auth: Option<Authentication>): (r: Result<string, SessionError>)
    ensures r.Success? <==> auth.Some?
    ensures r.Success? ==> r.value == auth.value.name
    ensures r.Failure? ==> r.error == NoAuthentication
  {
    match auth
    case None => Failure(NoAuthentication)
    case Some(a) => Success(a.name)
  }

  /** getLoggedInUserRole: the first granted authority, or "Role not found" when there is none. */
  function LoggedInUserRole(auth: Option<Authentication>): (r: Result<string, SessionError>)
    ensures r.Success? <==> auth.Some? && |auth.value.authorities| > 0
    ensures r.Success? ==> r.value == auth.value.authorities[0]
    ensures auth.Some? && auth.value.authorities == [] ==> r == Failure(RoleNotFound("Role not found"))
    ensures auth.None? ==> r == Failure(NoAuthentication)
  {
    match auth
    case None => Failure(NoAuthentication)
    case Some(a) =>
      if |a.authorities| > 0 then Success(a.authorities[0]) else Failure(RoleNotFound("Role not found"))
  }
}
