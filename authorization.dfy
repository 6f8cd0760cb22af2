/** `authorizeRole(role)`: the middleware that lets a request through only
    when its user has exactly the required role. */
module Authorization {
  import opened Js
  import opened Http

  /** The authenticated user attached to a request; `role` as stored. */
  datatype User = User(role: Value)

  /** What the middleware does: answer with a status and stop, or call
      `next` once without answering. */
  datatype Decision = Respond(status: int) | Next

  function AuthorizeRole(role: string, user: Option<User>): (d: Decision)
    ensures d.Next? <==> user.Some? && user.value.role == Str(role)
    ensures d.Respond? ==> d.status == FORBIDDEN
  {
    if user.None? || user.value.role != Str(role) then Respond(FORBIDDEN) else Next
  }

  /** Roles have no order: an admin is refused where "user" is required,
      and a user where "admin" is. */
  lemma NoRoleHierarchy()
    ensures AuthorizeRole("user", Some(User(Str("admin")))) == Respond(FORBIDDEN)
    ensures AuthorizeRole("admin", Some(User(Str("user")))) == Respond(FORBIDDEN)
  {
  }
}
