/**
 * The client-side permission facade (src/hooks/useAuth.ts): the session as
 * `useSession` reports it, turned into a user, two flags, a role, and three
 * permission checks that delegate to the permission table.
 */
module UseAuth {
  import opened Wrappers
  import Permissions

  datatype ClientUser = ClientUser(id: Option<string>, name: Option<string>,
                                   email: Option<string>, role: Option<string>)

  datatype ClientSession = ClientSession(user: Option<ClientUser>)

  /** What the hook returns. */
  datatype AuthView = AuthView(
    user: Option<ClientUser>,
    isLoading: bool,
    isAuthenticated: bool,
    role: Option<string>,
    hasPermission: string -> bool,
    canWrite: string -> bool,
    canRead: string -> bool)

  const MockUser := ClientUser(Some("1"), Some("Demo Owner"), Some("owner@gym.com"), Some(Permissions.OWNER))

  /** `session?.user?.role`. */
  function SessionRole(session: Option<ClientSession>): Option<string> {
    if session.Some? && session.value.user.Some? then session.value.user.value.role else None
  }

  /** The role is truthy: present and non-empty. */
  predicate HasRole(session: Option<ClientSession>) {
    SessionRole(session).Some? && SessionRole(session).value != ""
  }

  /** `useAuth()` for the mock switch, the session and the `useSession` status. */
  function UseAuth(skipAuth: bool, session: Option<ClientSession>, status: string): (a: AuthView)
    ensures skipAuth ==> a.user == Some(MockUser) && !a.isLoading && a.isAuthenticated &&
                         a.role == Some(Permissions.OWNER)
    ensures skipAuth ==> forall x ::
      a.hasPermission(x) == Permissions.HasPermission(Permissions.OWNER, x) &&
      a.canWrite(x) == Permissions.CanWrite(Permissions.OWNER, x) &&
      a.canRead(x) == Permissions.CanRead(Permissions.OWNER, x)
    ensures !skipAuth ==> a.user == (if session.Some? then session.value.user else None)
    ensures !skipAuth ==> (a.isLoading <==> status == "loading") && (a.isAuthenticated <==> session.Some?)
    ensures !skipAuth ==> a.role == SessionRole(session)
    ensures !skipAuth && !HasRole(session) ==> forall x :: !a.hasPermission(x) && !a.canWrite(x) && !a.canRead(x)
    ensures !skipAuth && HasRole(session) ==> forall x ::
      a.hasPermission(x) == Permissions.HasPermission(SessionRole(session).value, x) &&
      a.canWrite(x) == Permissions.CanWrite(SessionRole(session).value, x) &&
      a.canRead(x) == Permissions.CanRead(SessionRole(session).value, x)
  {
    if skipAuth then
      AuthView(Some(MockUser), false, true, Some(Permissions.OWNER),
               (p: string) => Permissions.HasPermission(Permissions.OWNER, p),
               (r: string) => Permissions.CanWrite(Permissions.OWNER, r),
               (r: string) => Permissions.CanRead(Permissions.OWNER, r))
    else
      var role := SessionRole(session);
      var truthy := HasRole(session);
      AuthView(if session.Some? then session.value.user else None,
               status == "loading",
               session.Some?,
               role,
               (p: string) => if truthy then Permissions.HasPermission(role.value, p) else false,
               (r: string) => if truthy then Permissions.CanWrite(role.value, r) else false,
               (r: string) => if truthy then Permissions.CanRead(role.value, r) else false)
  }

  /** A signed-in session whose role is empty grants nothing, even though it counts as authenticated. */
  lemma EmptyRoleGrantsNothing(user: ClientUser, status: string, x: string)
    requires user.role == Some("")
    ensures UseAuth(false, Some(ClientSession(Some(user))), status).isAuthenticated
    ensures !UseAuth(false, Some(ClientSession(Some(user))), status).canRead(x)
  {
  }
}
