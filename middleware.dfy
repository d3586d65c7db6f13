/**
 * Route guarding (src/middleware.ts): next-auth's `authorized` callback,
 * then the middleware body, which sends visitors without a token to the
 * sign-in page and keeps each role inside its own part of the dashboard.
 */
module Middleware {
  import opened Wrappers
  import opened JsText
  import Permissions
  import Auth

  datatype Decision = Next | Redirect(location: string)

  /** The per-role allow-list; OWNER's is empty because OWNER skips the check. */
  const RoleRoutes: map<string, seq<string>> := map[
    Permissions.FRONT_OFFICE := ["/dashboard/members", "/dashboard/member-tx", "/dashboard/absences"],
    Permissions.ACCOUNTING := ["/dashboard/company-tx"],
    Permissions.MARKETING := ["/dashboard/campaigns", "/dashboard/campaign-logs"],
    Permissions.SUPERVISOR := ["/dashboard/members", "/dashboard/member-tx", "/dashboard/absences",
                               "/dashboard/company-tx", "/dashboard/campaigns", "/dashboard/campaign-logs"],
    Permissions.OWNER := []
  ]

  /** `roleRoutes[role] || []`: an unknown or missing role has no routes. */
  function AllowedRoutes(role: Option<string>): (routes: seq<string>)
    ensures role.Some? && role.value in RoleRoutes ==> routes == RoleRoutes[role.value]
    ensures role.None? || role.value !in RoleRoutes ==> routes == []
  {
    if role.Some? && role.value in RoleRoutes then RoleRoutes[role.value] else []
  }

  /** `allowedRoutes.some(route => pathname.startsWith(route))`: a plain prefix test. */
  predicate MatchesSomeRoute(routes: seq<string>, pathname: string) {
    exists i :: 0 <= i < |routes| && StartsWith(pathname, routes[i])
  }

  /** Pages only OWNER may open. */
  predicate OwnerOnlyPath(pathname: string) {
    StartsWith(pathname, "/dashboard/analytics") || StartsWith(pathname, "/dashboard/staff-logs")
  }

  /** The middleware body for a request to `pathname` carrying `token` (null: not signed in). */
  function Middleware(skipAuth: bool, token: Auth.Token?, pathname: string): Decision
    reads token
  {
    if skipAuth then Next
    else if !StartsWith(pathname, "/dashboard") then Next
    else if token == null then Redirect("/auth/signin")
    else
      var role := token.role;
      if OwnerOnlyPath(pathname) && role != Some(Permissions.OWNER) then Redirect("/dashboard")
      else if role != Some(Permissions.OWNER) && role != Some(Permissions.SUPERVISOR) &&
              !MatchesSomeRoute(AllowedRoutes(role), pathname) && pathname != "/dashboard"
      then Redirect("/dashboard")
      else Next
  }

  /** The `authorized` callback: whether next-auth lets the request reach the middleware. */
  function Authorized(skipAuth: bool, token: Auth.Token?, pathname: string): (ok: bool)
    ensures ok <==> skipAuth || StartsWith(pathname, "/auth") || !StartsWith(pathname, "/dashboard") || token != null
  {
    if skipAuth then true
    else if StartsWith(pathname, "/auth") then true
    else if StartsWith(pathname, "/dashboard") then token != null
    else true
  }

  // ---------------------------------------------------------------------

  /** With `skipAuth` every request passes both checks. */
  lemma SkipAuthPassesEverything(token: Auth.Token?, pathname: string)
    ensures Middleware(true, token, pathname) == Next
    ensures Authorized(true, token, pathname)
  {
  }

  /** Outside the dashboard the middleware body never redirects. */
  lemma OutsideDashboardPasses(skipAuth: bool, token: Auth.Token?, pathname: string)
    requires !StartsWith(pathname, "/dashboard")
    ensures Middleware(skipAuth, token, pathname) == Next
  {
  }

  /** A dashboard request without a token goes to the sign-in page. */
  lemma NoTokenGoesToSignIn(pathname: string)
    requires StartsWith(pathname, "/dashboard")
    ensures Middleware(false, null, pathname) == Redirect("/auth/signin")
  {
  }

  /** The analytics and staff-log pages send every role but OWNER back to the dashboard. */
  lemma OwnerOnlyPagesRedirectOthers(token: Auth.Token, pathname: string)
    requires OwnerOnlyPath(pathname)
    ensures Middleware(false, token, pathname) == Next <==> token.role == Some(Permissions.OWNER)
    ensures token.role != Some(Permissions.OWNER) ==> Middleware(false, token, pathname) == Redirect("/dashboard")
  {
    assert StartsWith(pathname, "/dashboard") by {
      if StartsWith(pathname, "/dashboard/analytics") {
        assert pathname[..10] == "/dashboard/analytics"[..10];
      } else {
        assert pathname[..10] == "/dashboard/staff-logs"[..10];
      }
    }
  }

  /** OWNER reaches every dashboard page; SUPERVISOR every one except the OWNER-only pages. */
  lemma OwnerAndSupervisorSkipAllowList(token: Auth.Token, pathname: string)
    requires token.role == Some(Permissions.OWNER) || token.role == Some(Permissions.SUPERVISOR)
    ensures Middleware(false, token, pathname) == Next <==>
            token.role == Some(Permissions.OWNER) || !OwnerOnlyPath(pathname)
  {
    if token.role == Some(Permissions.SUPERVISOR) && OwnerOnlyPath(pathname) {
      OwnerOnlyPagesRedirectOthers(token, pathname);
    }
  }

  /**
   * Any other role, known or not, passes a dashboard path exactly when it is
   * not an OWNER-only page and it starts with one of the role's routes or is
   * "/dashboard" itself.
   */
  lemma OtherRolesFollowAllowList(token: Auth.Token, pathname: string)
    requires token.role != Some(Permissions.OWNER) && token.role != Some(Permissions.SUPERVISOR)
    requires StartsWith(pathname, "/dashboard")
    ensures Middleware(false, token, pathname) == Next <==>
            !OwnerOnlyPath(pathname) &&
            (MatchesSomeRoute(AllowedRoutes(token.role), pathname) || pathname == "/dashboard")
  {
  }

  /** A role outside the table, or none, reaches nothing but "/dashboard". */
  lemma UnknownRoleSeesOnlyDashboard(token: Auth.Token, pathname: string)
    requires token.role.None? || token.role.value !in Permissions.Roles
    requires StartsWith(pathname, "/dashboard")
    ensures Middleware(false, token, pathname) == Next <==> pathname == "/dashboard"
  {
    assert AllowedRoutes(token.role) == [];
    if pathname == "/dashboard" {
      assert !StartsWith(pathname, "/dashboard/analytics") && !StartsWith(pathname, "/dashboard/staff-logs");
    }
  }

  /**
   * The match has no path-segment boundary: "/dashboard/members-export"
   * passes for FRONT_OFFICE because it begins with "/dashboard/members".
   */
  lemma NoSegmentBoundary(token: Auth.Token)
    requires token.role == Some(Permissions.FRONT_OFFICE)
    ensures Middleware(false, token, "/dashboard/members-export") == Next
  {
    var p := "/dashboard/members-export";
    assert StartsWith(p, "/dashboard");
    assert StartsWith(p, AllowedRoutes(token.role)[0]);
    assert p[..20][11] == 'm' && "/dashboard/analytics"[11] == 'a';
    assert p[..21][11] == 'm' && "/dashboard/staff-logs"[11] == 's';
  }

  /** The `authorized` callback refuses exactly the token-less dashboard requests. */
  lemma AuthorizedRefusesOnlyAnonymousDashboard(skipAuth: bool, token: Auth.Token?, pathname: string)
    ensures !Authorized(skipAuth, token, pathname) <==>
            !skipAuth && token == null && StartsWith(pathname, "/dashboard")
  {
    if StartsWith(pathname, "/dashboard") {
      assert pathname[..5][1] == 'd';
    }
  }
}
