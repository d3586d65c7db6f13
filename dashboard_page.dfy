/**
 * The dashboard home page (src/app/dashboard/page.tsx): the greeting, the
 * stat cards and quick actions each role gets, and the page's own class
 * name joiner.
 */
module DashboardPage {
  import opened Wrappers
  import opened JsText
  import opened Seqs
  import Permissions
  import Auth
  import Middleware
  import DashboardStatsRoute
  import DashboardLayout

  /** `getGreeting` for the local hour of the day. */
  function Greeting(hour: int): (text: string)
    ensures hour < 12 <==> text == "Good morning"
    ensures 12 <= hour < 18 <==> text == "Good afternoon"
    ensures hour >= 18 <==> text == "Good evening"
  {
    if hour < 12 then "Good morning" else if hour < 18 then "Good afternoon" else "Good evening"
  }

  /** One stat card; `value` is the text the card shows. */
  datatype Card = Card(title: string, value: string, description: string, trend: string, trendUp: bool)

  datatype QuickAction = QuickAction(title: string, href: string)

  /** `stats?.field || 0` for a count: the figure, or 0 when the stats or the field are missing. */
  function CountText(stats: Option<DashboardStatsRoute.Stats>, pick: DashboardStatsRoute.Stats -> Option<nat>): (text: string)
    ensures stats.None? || pick(stats.value).None? ==> text == "0"
  {
    var v := if stats.Some? then pick(stats.value) else None;
    if v.Some? then NatToString(v.value) else "0"
  }

  /** A rate kept in tenths of a percent, as `Number.toString` writes it (12.5, 12). */
  function TenthsText(tenths: nat): string {
    if tenths % 10 == 0 then NatToString(tenths / 10) else NatToString(tenths / 10) + "." + NatToString(tenths % 10)
  }

  /** `$${stats?.monthlyRevenue?.toLocaleString() || 0}`; `localeText` is `toLocaleString`. */
  function RevenueText(stats: Option<DashboardStatsRoute.Stats>, localeText: int -> string): (text: string)
    ensures stats.None? || stats.value.monthlyRevenue.None? ==> text == "$0"
  {
    if stats.Some? && stats.value.monthlyRevenue.Some? && localeText(stats.value.monthlyRevenue.value) != ""
    then "$" + localeText(stats.value.monthlyRevenue.value)
    else "$0"
  }

  /** `${stats?.conversionRate || 0}%`. */
  function RateText(stats: Option<DashboardStatsRoute.Stats>): (text: string)
    ensures stats.None? || stats.value.conversionRateTenths.None? ==> text == "0%"
  {
    if stats.Some? && stats.value.conversionRateTenths.Some? && stats.value.conversionRateTenths.value > 0
    then TenthsText(stats.value.conversionRateTenths.value) + "%"
    else "0%"
  }

  function TotalMembersCard(stats: Option<DashboardStatsRoute.Stats>): Card {
    Card("Total Members", CountText(stats, (s: DashboardStatsRoute.Stats) => s.totalMembers), "Active gym members", "+12%", true)
  }

  function RevenueCard(stats: Option<DashboardStatsRoute.Stats>, localeText: int -> string): Card {
    Card("Monthly Revenue", RevenueText(stats, localeText), "Total revenue this month", "+23%", true)
  }

  function PendingCard(stats: Option<DashboardStatsRoute.Stats>, description: string): Card {
    Card("Pending Payments", CountText(stats, (s: DashboardStatsRoute.Stats) => s.pendingPayments), description, "-8%", false)
  }

  function CampaignsCard(stats: Option<DashboardStatsRoute.Stats>): Card {
    Card("Active Campaigns", CountText(stats, (s: DashboardStatsRoute.Stats) => s.activeCampaigns), "Running marketing campaigns", "+2", true)
  }

  function RateCard(stats: Option<DashboardStatsRoute.Stats>): Card {
    Card("Conversion Rate", RateText(stats), "Campaign conversion rate", "+5%", true)
  }

  /** `roleSpecificCards`. */
  function CardTable(stats: Option<DashboardStatsRoute.Stats>, localeText: int -> string): map<string, seq<Card>> {
    map[
      Permissions.FRONT_OFFICE := [
        TotalMembersCard(stats),
        Card("Today's Check-ins", CountText(stats, (s: DashboardStatsRoute.Stats) => s.todayCheckIns), "Members checked in today", "+5%", true),
        PendingCard(stats, "Payments due this week")],
      Permissions.ACCOUNTING := [RevenueCard(stats, localeText), PendingCard(stats, "Outstanding payments")],
      Permissions.MARKETING := [CampaignsCard(stats), RateCard(stats)],
      Permissions.SUPERVISOR := [TotalMembersCard(stats), RevenueCard(stats, localeText), CampaignsCard(stats)],
      Permissions.OWNER := [
        TotalMembersCard(stats), RevenueCard(stats, localeText),
        Card("Active Members", CountText(stats, (s: DashboardStatsRoute.Stats) => s.activeMembers), "Members this month", "+18%", true),
        RateCard(stats)]
    ]
  }

  /** `roleSpecificCards[role] || []`. */
  function Cards(role: Option<string>, stats: Option<DashboardStatsRoute.Stats>, localeText: int -> string): (cards: seq<Card>)
    ensures role.None? || role.value !in Permissions.Roles ==> cards == []
    ensures role == Some(Permissions.FRONT_OFFICE) ==> |cards| == 3
    ensures role == Some(Permissions.ACCOUNTING) ==> |cards| == 2
    ensures role == Some(Permissions.MARKETING) ==> |cards| == 2
    ensures role == Some(Permissions.SUPERVISOR) ==> |cards| == 3
    ensures role == Some(Permissions.OWNER) ==> |cards| == 4
  {
    var table := CardTable(stats, localeText);
    assert table.Keys == Permissions.Roles;
    if role.Some? && role.value in table then table[role.value] else []
  }

  /** Before the stats arrive (or when they fail to load) every card shows zero. */
  lemma MissingStatsShowZero(role: Option<string>, localeText: int -> string, i: nat)
    requires i < |Cards(role, None, localeText)|
    ensures Cards(role, None, localeText)[i].value in {"0", "$0", "0%"}
  {
  }

  /**
   * FRONT_OFFICE's "Pending Payments" card always shows 0: the stats
   * handler fills `pendingPayments` only for the financial roles, and
   * FRONT_OFFICE is not one of them.
   */
  lemma FrontOfficePendingAlwaysZero(stats: DashboardStatsRoute.Stats, localeText: int -> string)
    requires stats.pendingPayments.Some? <==>
             DashboardStatsRoute.RoleIn(Some(Permissions.FRONT_OFFICE), DashboardStatsRoute.FinancialStatsRoles)
    ensures Cards(Some(Permissions.FRONT_OFFICE), Some(stats), localeText)[2].title == "Pending Payments"
    ensures Cards(Some(Permissions.FRONT_OFFICE), Some(stats), localeText)[2].value == "0"
  {
    DashboardStatsRoute.SingleGroupRoles(Permissions.FRONT_OFFICE);
  }

  /** The conversion rate the stats handler sends reads "12.5%". */
  lemma ConversionRateReads()
    ensures RateText(Some(DashboardStatsRoute.NoStats.(conversionRateTenths := Some(DashboardStatsRoute.ConversionRateTenths)))) == "12.5%"
  {
    assert NatToString(12) == "12" && NatToString(5) == "5";
  }

  /** `quickActions`. */
  const QuickActionTable: map<string, seq<QuickAction>> := map[
    Permissions.FRONT_OFFICE := [
      QuickAction("Add New Member", "/dashboard/members"),
      QuickAction("Record Payment", "/dashboard/member-tx"),
      QuickAction("Mark Attendance", "/dashboard/absences")],
    Permissions.ACCOUNTING := [
      QuickAction("Add Transaction", "/dashboard/company-tx"),
      QuickAction("View Reports", "/dashboard/company-tx")],
    Permissions.MARKETING := [
      QuickAction("Create Campaign", "/dashboard/campaigns"),
      QuickAction("Log Activity", "/dashboard/campaign-logs")],
    Permissions.SUPERVISOR := [
      QuickAction("View Members", "/dashboard/members"),
      QuickAction("View Transactions", "/dashboard/company-tx"),
      QuickAction("View Campaigns", "/dashboard/campaigns")],
    Permissions.OWNER := [
      QuickAction("View Analytics", "/dashboard/analytics"),
      QuickAction("Staff Activity", "/dashboard/staff-logs"),
      QuickAction("Add Member", "/dashboard/members"),
      QuickAction("Financial Report", "/dashboard/company-tx")]
  ]

  /** `quickActions[role] || []`. */
  function QuickActions(role: Option<string>): (actions: seq<QuickAction>)
    ensures role.None? || role.value !in Permissions.Roles ==> actions == []
    ensures role.Some? && role.value in Permissions.Roles ==> actions == QuickActionTable[role.value]
  {
    assert QuickActionTable.Keys == Permissions.Roles;
    if role.Some? && role.value in QuickActionTable then QuickActionTable[role.value] else []
  }

  /** Each quick action of a role goes to a page the sidebar's corrected table shows that role. */
  lemma QuickActionsAreVisiblePages(role: string, a: QuickAction)
    requires role in Permissions.Roles && a in QuickActions(Some(role))
    ensures exists k :: 0 <= k < |DashboardLayout.Navigation| &&
              DashboardLayout.Navigation[k].href == a.href && role in DashboardLayout.Navigation[k].roles
  {
    var nav := DashboardLayout.Navigation;
    var k: nat :=
      if a.href == "/dashboard/members" then 1
      else if a.href == "/dashboard/member-tx" then 2
      else if a.href == "/dashboard/absences" then 3
      else if a.href == "/dashboard/company-tx" then 4
      else if a.href == "/dashboard/campaigns" then 5
      else if a.href == "/dashboard/campaign-logs" then 6
      else if a.href == "/dashboard/analytics" then 7
      else 8;
    assert nav[k].href == a.href && role in nav[k].roles;
  }

  /** So every quick action passes the middleware for the role it is offered to. */
  lemma QuickActionsPassMiddleware(token: Auth.Token, a: QuickAction)
    requires token.role.Some? && token.role.value in Permissions.Roles
    requires a in QuickActions(token.role)
    ensures Middleware.Middleware(false, token, a.href) == Middleware.Next
  {
    QuickActionsAreVisiblePages(token.role.value, a);
    var k :| 0 <= k < |DashboardLayout.Navigation| &&
             DashboardLayout.Navigation[k].href == a.href && token.role.value in DashboardLayout.Navigation[k].roles;
    DashboardLayout.VisibleItemsPassMiddleware(token, k);
  }

  // ---------------------------------------------------------------------

  function NonEmpty(): string -> bool {
    (c: string) => c != ""
  }

  /** The page's `cn`: the non-empty class names joined with single spaces. */
  function ClassNames(classes: seq<string>): (text: string)
    ensures |classes| == 1 && classes[0] != "" ==> text == classes[0]
  {
    assert |classes| == 1 ==> classes == [classes[0]];
    Join(Filter(classes, NonEmpty()), " ")
  }

  /** The class string is empty exactly when every name is empty. */
  lemma AllEmptyClassesGiveNothing(classes: seq<string>)
    ensures ClassNames(classes) == "" <==> forall i :: 0 <= i < |classes| ==> classes[i] == ""
  {
    var kept := Filter(classes, NonEmpty());
    if forall i :: 0 <= i < |classes| ==> classes[i] == "" {
      FilterNone(classes, NonEmpty());
    } else {
      var i :| 0 <= i < |classes| && classes[i] != "";
      assert classes[i] in kept;
      assert kept[0] in kept;
      assert |Join(kept, " ")| >= |kept[0]| > 0;
    }
  }

  /** An empty class name anywhere contributes nothing. */
  lemma EmptyClassIsDropped(front: seq<string>, back: seq<string>)
    ensures ClassNames(front + [""] + back) == ClassNames(front + back)
  {
    var p := NonEmpty();
    var kept := Filter(front + back, p);
    FilterNone([""], p);
    assert Filter(front + [""], p) == Filter(front, p) by {
      FilterAppend(front, [""], p);
    }
    assert Filter(front + [""] + back, p) == kept by {
      FilterAppend(front + [""], back, p);
      FilterAppend(front, back, p);
    }
  }

  /** The trend lines: green for a rising trend, red otherwise. */
  lemma TrendClasses(up: bool)
    ensures ClassNames(["font-medium", if up then "text-green-600" else "text-red-600"]) ==
            "font-medium" + " " + (if up then "text-green-600" else "text-red-600")
  {
    var c := if up then "text-green-600" else "text-red-600";
    var p := NonEmpty();
    assert p("font-medium") && p(c);
    assert ["font-medium", c][1..] == [c] && [c][1..] == [];
    assert Filter([c], p) == [c];
    assert Filter(["font-medium", c], p) == ["font-medium", c];
    assert Join(["font-medium", c][1..], " ") == c;
  }
}
