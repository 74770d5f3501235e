/**
 * The role gate applied to a request (app/Http/Middleware/CheckRole.php).
 *
 * The ambient `auth()` state becomes an explicit parameter: `principal` is the
 * authenticated user, or None when the request carries no session. The rest of
 * the pipeline is the function `next`; the gate either answers on its own or
 * hands the unchanged request to `next` and returns what it returns.
 */
module CheckRoleMiddleware {
  import opened Wrappers
  import opened UserModel

  /** The message `abort(403, ...)` sends with a refusal. */
  const ForbiddenMessage: string := "No tienes permisos para acceder a esta sección."

  /** The three ways a request can leave the gate. */
  datatype Outcome<Resp> =
    | RedirectToLogin                          // redirect()->route('login')
    | Abort(status: int, message: string)      // abort(403, ...)
    | Forward(response: Resp)                  // return $next($request)

  /**
   * handle(request, next, ...roles): unauthenticated requests go to the login
   * page, users whose role is not in the list are refused with 403, everyone
   * else gets exactly what `next` answers for the unchanged request. Only the
   * forwarding outcome carries a response of `next`.
   */
  function Handle<Req, Resp>(request: Req, next: Req -> Resp, principal: Option<User>, roles: seq<string>): (o: Outcome<Resp>)
    ensures o.RedirectToLogin? <==> principal.None?
    ensures o.Abort? <==> principal.Some? && !HasAnyRole(principal.value, roles)
    ensures o.Forward? <==> principal.Some? && HasAnyRole(principal.value, roles)
    ensures o.Abort? ==> o.status == 403 && o.message == ForbiddenMessage
    ensures o.Forward? ==> o.response == next(request)
  {
    if principal.None? then RedirectToLogin
    else if !HasAnyRole(principal.value, roles) then Abort(403, ForbiddenMessage)
    else Forward(next(request))
  }

  /** Authentication is checked first: without a principal the answer is never 403, whatever the role list. */
  lemma UnauthenticatedIsRedirected<Req, Resp>(request: Req, next: Req -> Resp, roles: seq<string>)
    ensures Handle(request, next, None, roles).RedirectToLogin?
    ensures !Handle(request, next, None, roles).Abort?
  {
  }

  /** A gate configured with no roles refuses every authenticated user. */
  lemma EmptyRoleListRefusesEveryone<Req, Resp>(request: Req, next: Req -> Resp, u: User)
    ensures Handle(request, next, Some(u), []) == Abort(403, ForbiddenMessage)
  {
    HasAnyRoleEmpty(u);
  }

  /** A gate with a single role admits exactly the users that hasRole admits. */
  lemma SingleRoleGate<Req, Resp>(request: Req, next: Req -> Resp, u: User, role: string)
    ensures Handle(request, next, Some(u), [role]).Forward? <==> HasRole(u, role)
  {
    HasAnyRoleSingleton(u, role);
  }

  /**
   * The decision reads nothing of the user but the role column: two users with
   * the same role get the same outcome, whatever their name, email or is_active.
   */
  lemma DecisionDependsOnlyOnRole<Req, Resp>(request: Req, next: Req -> Resp, u: User, v: User, roles: seq<string>)
    requires u.role == v.role
    ensures Handle(request, next, Some(u), roles) == Handle(request, next, Some(v), roles)
  {
  }
}
