/**
 * The dashboard shell (src/components/layout/dashboard-layout.tsx): the
 * sidebar's navigation table, the items a role sees, and the header title.
 */
module DashboardLayout {
  import opened Wrappers
  import opened JsText
  import opened Seqs
  import Permissions
  import Middleware
  import Auth

  datatype NavItem = NavItem(title: string, href: string, roles: seq<string>)

  const AllRoles := [Permissions.FRONT_OFFICE, Permissions.ACCOUNTING, Permissions.MARKETING,
                     Permissions.SUPERVISOR, Permissions.OWNER]
  const FrontOfficeEtc := [Permissions.FRONT_OFFICE, Permissions.SUPERVISOR, Permissions.OWNER]
  const AccountingEtc := [Permissions.ACCOUNTING, Permissions.SUPERVISOR, Permissions.OWNER]
  const MarketingEtc := [Permissions.MARKETING, Permissions.SUPERVISOR, Permissions.OWNER]
  const OwnerOnly := [Permissions.OWNER]

  /** The table as the source writes it: three hrefs name pages that do not exist. */
  const NavigationAsWritten: seq<NavItem> := [
    NavItem("Dashboard", "/dashboard", AllRoles),
    NavItem("Members", "/dashboard/members", FrontOfficeEtc),
    NavItem("Member Transactions", "/dashboard/member-transactions", FrontOfficeEtc),
    NavItem("Member Absences", "/dashboard/member-absences", FrontOfficeEtc),
    NavItem("Company Transactions", "/dashboard/company-transactions", AccountingEtc),
    NavItem("Campaigns", "/dashboard/campaigns", MarketingEtc),
    NavItem("Campaign Logs", "/dashboard/campaign-logs", MarketingEtc),
    NavItem("Analytics", "/dashboard/analytics", OwnerOnly),
    NavItem("Staff Logs", "/dashboard/staff-logs", OwnerOnly)
  ]

  /** The table with the hrefs of the pages that exist, and that the middleware's allow-list names. */
  const Navigation: seq<NavItem> := [
    NavItem("Dashboard", "/dashboard", AllRoles),
    NavItem("Members", "/dashboard/members", FrontOfficeEtc),
    NavItem("Member Transactions", "/dashboard/member-tx", FrontOfficeEtc),
    NavItem("Member Absences", "/dashboard/absences", FrontOfficeEtc),
    NavItem("Company Transactions", "/dashboard/company-tx", AccountingEtc),
    NavItem("Campaigns", "/dashboard/campaigns", MarketingEtc),
    NavItem("Campaign Logs", "/dashboard/campaign-logs", MarketingEtc),
    NavItem("Analytics", "/dashboard/analytics", OwnerOnly),
    NavItem("Staff Logs", "/dashboard/staff-logs", OwnerOnly)
  ]

  /** `role || ""`. */
  function RoleOrEmpty(role: Option<string>): string {
    if role.Some? then role.value else ""
  }

  function VisibleTo(role: Option<string>): NavItem -> bool {
    (item: NavItem) => RoleOrEmpty(role) in item.roles
  }

  /** `filteredNavigation`: the items whose roles contain the current role, in table order. */
  function FilteredNavigation(items: seq<NavItem>, role: Option<string>): (visible: seq<NavItem>)
    ensures forall item :: item in visible <==> item in items && RoleOrEmpty(role) in item.roles
    ensures |visible| <= |items|
  {
    Filter(items, VisibleTo(role))
  }

  /** An item whose roles list the current role is among the items shown. */
  lemma ShownWhenListed(items: seq<NavItem>, role: Option<string>, i: nat)
    requires i < |items| && RoleOrEmpty(role) in items[i].roles
    ensures items[i] in FilteredNavigation(items, role)
  {
  }

  /** The table the sidebar renders, or the one with corrected hrefs: both carry the same roles. */
  predicate IsSidebar(items: seq<NavItem>) {
    items == NavigationAsWritten || items == Navigation
  }

  /** Without a role nothing is shown, since no item lists "". */
  lemma MissingRoleSeesNothing(items: seq<NavItem>, role: Option<string>)
    requires IsSidebar(items)
    requires role.None? || role == Some("")
    ensures FilteredNavigation(items, role) == []
  {
    forall item | item in items ensures !VisibleTo(role)(item) {
      assert forall k :: 0 <= k < |item.roles| ==> |item.roles[k]| > 0;
    }
    FilterNone(items, VisibleTo(role));
  }

  /** "Dashboard" is shown to all five roles. */
  lemma DashboardShownToEveryRole(items: seq<NavItem>, role: string)
    requires IsSidebar(items)
    requires role in Permissions.Roles
    ensures items[0].title == "Dashboard" && items[0] in FilteredNavigation(items, Some(role))
  {
  }

  /** "Analytics" and "Staff Logs" are shown to OWNER and nobody else. */
  lemma OwnerOnlyItems(items: seq<NavItem>, role: Option<string>)
    requires IsSidebar(items)
    ensures items[7].title == "Analytics" && items[8].title == "Staff Logs"
    ensures items[7] in FilteredNavigation(items, role) <==> role == Some(Permissions.OWNER)
    ensures items[8] in FilteredNavigation(items, role) <==> role == Some(Permissions.OWNER)
  {
    assert items[7].roles == OwnerOnly && items[8].roles == OwnerOnly;
    assert RoleOrEmpty(role) in OwnerOnly <==> role == Some(Permissions.OWNER);
    assert items[7] in items && items[8] in items;
  }

  /** The first item whose href is exactly `pathname`, if any. */
  function FindByHref(items: seq<NavItem>, pathname: string): (r: Option<nat>)
    ensures r.Some? ==> r.value < |items| && items[r.value].href == pathname &&
                        forall j :: 0 <= j < r.value ==> items[j].href != pathname
    ensures r.None? ==> forall j :: 0 <= j < |items| ==> items[j].href != pathname
  {
    if items == [] then None
    else if items[0].href == pathname then Some(0)
    else
      var rest := FindByHref(items[1..], pathname);
      if rest.None? then None
      else
        assert forall j :: 1 <= j < rest.value + 1 ==> items[j] == items[1..][j - 1];
        Some(rest.value + 1)
  }

  /** The header: `navigation.find(item => item.href === pathname)?.title || "Dashboard"`. */
  function HeaderTitle(items: seq<NavItem>, pathname: string): (title: string)
    ensures FindByHref(items, pathname).None? ==> title == "Dashboard"
    ensures FindByHref(items, pathname).Some? && items[FindByHref(items, pathname).value].title != "" ==>
            title == items[FindByHref(items, pathname).value].title
  {
    var found := FindByHref(items, pathname);
    if found.Some? && items[found.value].title != "" then items[found.value].title else "Dashboard"
  }

  /** Only an exact href names the page: a detail path under "Members" is headed "Dashboard". */
  lemma DetailPathsAreHeadedDashboard()
    ensures HeaderTitle(Navigation, "/dashboard/members") == "Members"
    ensures HeaderTitle(Navigation, "/dashboard/members/42") == "Dashboard"
  {
    var p := "/dashboard/members/42";
    assert forall j :: 0 <= j < |Navigation| ==> Navigation[j].href != p by {
      forall j | 0 <= j < |Navigation| ensures Navigation[j].href != p {
        if j == 4 || j == 8 {
          assert Navigation[j].href[11] != 'm' && p[11] == 'm';
        } else {
          assert |Navigation[j].href| != |p|;
        }
      }
    }
    assert Navigation[1].href == "/dashboard/members" && Navigation[0].href != "/dashboard/members";
  }

  // ---------------------------------------------------------------------
  // The hrefs against the middleware

  const MemberTransactionsHrefAsWritten := "/dashboard/member-transactions"

  /** The as-written "Member Transactions" href is a dashboard page that is not OWNER-only. */
  lemma AsWrittenMemberTransactionsPath()
    ensures StartsWith(MemberTransactionsHrefAsWritten, "/dashboard")
    ensures !Middleware.OwnerOnlyPath(MemberTransactionsHrefAsWritten)
    ensures MemberTransactionsHrefAsWritten != "/dashboard"
  {
    var p := MemberTransactionsHrefAsWritten;
    assert p[..10] == "/dashboard";
    assert p[..20][11] == 'm' && "/dashboard/analytics"[11] == 'a';
    assert p[..21][11] == 'm' && "/dashboard/staff-logs"[11] == 's';
  }

  /** The as-written "Member Transactions" href starts with none of FRONT_OFFICE's routes. */
  lemma AsWrittenMemberTransactionsNotAllowListed()
    ensures !Middleware.MatchesSomeRoute(Middleware.AllowedRoutes(Some(Permissions.FRONT_OFFICE)),
                                         MemberTransactionsHrefAsWritten)
  {
    var p := MemberTransactionsHrefAsWritten;
    var routes := Middleware.AllowedRoutes(Some(Permissions.FRONT_OFFICE));
    assert routes == ["/dashboard/members", "/dashboard/member-tx", "/dashboard/absences"];
    assert !StartsWith(p, routes[0]) by { assert p[..18][17] == '-' && routes[0][17] == 's'; }
    assert !StartsWith(p, routes[1]) by { assert p[..20][19] == 'r' && routes[1][19] == 'x'; }
    assert !StartsWith(p, routes[2]) by { assert p[..19][11] == 'm' && routes[2][11] == 'a'; }
  }

  /** As written, FRONT_OFFICE sees "Member Transactions", but following it is sent back to the dashboard. */
  lemma FrontOfficeLinkIsRedirected(token: Auth.Token)
    requires token.role == Some(Permissions.FRONT_OFFICE)
    ensures NavigationAsWritten[2] in FilteredNavigation(NavigationAsWritten, token.role)
    ensures Middleware.Middleware(false, token, NavigationAsWritten[2].href) == Middleware.Redirect("/dashboard")
  {
    ShownWhenListed(NavigationAsWritten, token.role, 2);
    assert NavigationAsWritten[2].href == MemberTransactionsHrefAsWritten;
    AsWrittenMemberTransactionsPath();
    AsWrittenMemberTransactionsNotAllowListed();
    Middleware.OtherRolesFollowAllowList(token, MemberTransactionsHrefAsWritten);
  }

  /** A dashboard path whose twelfth and thirteenth characters rule out both OWNER-only prefixes. */
  lemma NotOwnerOnly(h: string)
    requires |h| >= 13 && h[11] != 's' && (h[11] != 'a' || h[12] != 'n')
    ensures !Middleware.OwnerOnlyPath(h)
  {
    var analytics, staffLogs := "/dashboard/analytics", "/dashboard/staff-logs";
    assert analytics[11] == 'a' && analytics[12] == 'n' && staffLogs[11] == 's';
    if |h| >= 20 { assert h[..20][11] == h[11] && h[..20][12] == h[12]; }
    if |h| >= 21 { assert h[..21][11] == h[11]; }
  }

  /** The corrected hrefs: all are dashboard paths, and only the last two are OWNER-only pages. */
  lemma HrefFacts(i: nat)
    requires i < |Navigation|
    ensures StartsWith(Navigation[i].href, "/dashboard")
    ensures Middleware.OwnerOnlyPath(Navigation[i].href) <==> i >= 7
    ensures i >= 7 ==> Navigation[i].roles == OwnerOnly
  {
    var h := Navigation[i].href;
    if i == 0 {
      assert h == "/dashboard";
      assert !StartsWith(h, "/dashboard/analytics") && !StartsWith(h, "/dashboard/staff-logs");
    } else if i == 7 {
      assert h == "/dashboard/analytics" && h[..10] == "/dashboard";
      assert h[..20] == "/dashboard/analytics";
    } else if i == 8 {
      assert h == "/dashboard/staff-logs" && h[..10] == "/dashboard";
      assert h[..21] == "/dashboard/staff-logs";
    } else {
      assert h[..10] == "/dashboard";
      NotOwnerOnly(h);
    }
  }

  /** A path starts with itself, so a role passes every path on its own allow-list. */
  lemma ListedRoutePasses(routes: seq<string>, k: nat)
    requires k < |routes|
    ensures Middleware.MatchesSomeRoute(routes, routes[k])
  {
    assert StartsWith(routes[k], routes[k]) by { assert routes[k][..|routes[k]|] == routes[k]; }
  }

  /** A role that is neither OWNER nor SUPERVISOR passes every item it sees: each visible href is on its allow-list. */
  lemma AllowListedItemPasses(token: Auth.Token, i: nat)
    requires i < |Navigation|
    requires token.role.Some? && token.role.value in Permissions.Roles
    requires token.role != Some(Permissions.OWNER) && token.role != Some(Permissions.SUPERVISOR)
    requires token.role.value in Navigation[i].roles
    ensures Middleware.Middleware(false, token, Navigation[i].href) == Middleware.Next
  {
    HrefFacts(i);
    var h := Navigation[i].href;
    var routes := Middleware.AllowedRoutes(token.role);
    if 1 <= i <= 3 {
      assert token.role == Some(Permissions.FRONT_OFFICE);
      assert routes[i - 1] == h;
      ListedRoutePasses(routes, i - 1);
    } else if i == 4 {
      assert token.role == Some(Permissions.ACCOUNTING);
      assert routes[0] == h;
      ListedRoutePasses(routes, 0);
    } else if 5 <= i <= 6 {
      assert token.role == Some(Permissions.MARKETING);
      assert routes[i - 5] == h;
      ListedRoutePasses(routes, i - 5);
    }
    Middleware.OtherRolesFollowAllowList(token, h);
  }

  /**
   * With the corrected table, every item a role is shown (its roles list
   * the role) is a page the middleware lets that role open.
   */
  lemma VisibleItemsPassMiddleware(token: Auth.Token, i: nat)
    requires token.role.Some? && token.role.value in Permissions.Roles
    requires i < |Navigation| && token.role.value in Navigation[i].roles
    ensures Navigation[i] in FilteredNavigation(Navigation, token.role)
    ensures Middleware.Middleware(false, token, Navigation[i].href) == Middleware.Next
  {
    var item := Navigation[i];
    ShownWhenListed(Navigation, token.role, i);
    HrefFacts(i);
    if token.role == Some(Permissions.OWNER) || token.role == Some(Permissions.SUPERVISOR) {
      Middleware.OwnerAndSupervisorSkipAllowList(token, item.href);
    } else {
      AllowListedItemPasses(token, i);
    }
  }

  /** The two tables agree on titles and roles, so both show the same items to every role. */
  lemma OnlyHrefsDiffer()
    ensures |Navigation| == |NavigationAsWritten|
    ensures forall i :: 0 <= i < |Navigation| ==>
              Navigation[i].title == NavigationAsWritten[i].title && Navigation[i].roles == NavigationAsWritten[i].roles
  {
  }
}
