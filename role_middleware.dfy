/** `restrictTo(...roles)`: lets a request through only for the listed roles. */
module RoleMiddleware {
  import opened Common
  import opened Text

  /** The denial message: the allowed roles joined with ", ". */
  function DeniedMessage(roles: seq<string>): string
  {
    "Access denied. This action is restricted to: " + Join(roles, ", ")
  }

  /** `Ok(())` lets the request continue unchanged; otherwise a 403 naming the allowed roles. */
  function RestrictTo(roles: seq<string>, role: string): (r: Result<()>)
    ensures r.Ok? <==> role in roles
    ensures r.Err? ==> r.error == ApiError(403, DeniedMessage(roles))
    ensures roles == [] ==> r.Err?
  {
    if role in roles then Ok(()) else Err(ApiError(403, DeniedMessage(roles)))
  }
}
