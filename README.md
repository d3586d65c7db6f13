# Gym back office: a verified model of its access rules, handlers and page logic

The system is a role-based back office for a gym. Five staff roles use it: FRONT_OFFICE, ACCOUNTING, MARKETING, SUPERVISOR and OWNER. They manage members, member transactions, absences, company transactions, marketing campaigns and campaign logs, and every write leaves a row in an activity log. This Dafny project models the parts of the system that make decisions:

- **Authorization**:
  - the role → permission table and its `hasPermission`, `canRead` and `canWrite` lookups (`Permissions`);
  - the route guard and its `authorized` callback (`Middleware`);
  - the credentials check and the `jwt` and `session` callbacks (`Auth`);
  - the client-side permission facade (`UseAuth`).
- **Identifiers and date presets** (`Utils`): member codes `MEM<yy><nnnn>`, transaction codes `TRX<8 timestamp digits><3 random digits>`, and the offsets behind the reporting ranges.
- **Resource handlers**:
  - The tables are sequences inside a `Db.Database` object, with an append-only audit table.
  - Each `GET` handler resolves the session (the `SKIP_AUTH` demo owner, or the server session), checks `<resource>:read` and returns the rows newest first.
  - Each `POST` handler checks `<resource>:write`, writes exactly one row and then exactly one audit row. A failure returns 401 or 500 and leaves the tables as they were, except for the row written before a failing audit write.
  - The activity-log query, the dashboard statistics and the analytics report are filters, counts and sums over those tables.
- **Page logic**:
  - the status badge and the data table's action column and delete-confirmation state;
  - the navigation filter and header title;
  - the dashboard greeting, cards and quick actions;
  - the staff-log counters, labels and query;
  - the campaign-log form: its metrics payload, its prefill round trip and its list updates.

JavaScript's own text and number operations are modelled in `JsText`: `slice`, `padStart`, `parseInt`, `toString`, `toLowerCase`, `replace` with a string pattern, and code-point string order. Sequence queries (`where`, `orderBy … 'desc'`, `take`, `count`, `reduce`) are in `Seqs`, and JSON values are in `JsonValue`. Time is modelled as integer epoch milliseconds. Money is an integer amount. The clock, the random source, the calendar arithmetic, the user lookup and the password check are parameters of the members that use them.

## Model

| member | source | states |
|---|---|---|
| Permissions.UnknownRoleHasNothing | src/lib/permissions.ts:42-44 | a role outside the table holds no permission (`rolePermissions[role]?.includes(p) \|\| false`) |
| Permissions.HasPermission | src/lib/permissions.ts:42-44 | holds exactly when the role is in the table and its list includes the permission |
| Permissions.CanWrite | src/lib/permissions.ts:46-48 | `hasPermission(role, resource + ":write")` |
| Permissions.CanRead | src/lib/permissions.ts:50-52 | `hasPermission(role, resource + ":read")` |
| Permissions.GrantedPermissionsAreDefined | src/lib/permissions.ts:4-40 | every permission any role is granted is one of the fourteen the application defines |
| Permissions.WriteIsNotRead | src/lib/permissions.ts:46-52 | a `<resource>:write` permission never coincides with a `<resource>:read` one |
| Permissions.SupervisorReadsEverythingOperational | src/lib/permissions.ts:27-30 | SUPERVISOR holds a permission exactly when it is the `:read` of one of the six operational resources |
| Permissions.SupervisorWritesNothing | src/lib/permissions.ts:27-48 | `canWrite(SUPERVISOR, r)` is false for every resource |
| Permissions.OnlyOwnerReadsAnalyticsAndActivityLogs | src/lib/permissions.ts:14-40 | `analytics:read` and `activity_logs:read` are held by OWNER and by no other role |
| Permissions.OwnerHoldsEverything | src/lib/permissions.ts:31-39 | OWNER holds every permission that any role holds |
| Permissions.NobodyWritesAnalyticsOrActivityLogs | src/lib/permissions.ts:4-48 | no role can write analytics or the activity log, because no such permission exists |
| Permissions.OperationalRolesWriteWhatTheyRead | src/lib/permissions.ts:15-52 | for FRONT_OFFICE, ACCOUNTING and MARKETING, `canWrite(role, r)` holds exactly when `canRead(role, r)` does |
| Utils.MemberCodePrefix | src/lib/utils.ts:10-11 | the prefix starts with "MEM" and is at most five characters long |
| Utils.MemberCodePrefixLength | src/lib/utils.ts:11 | from year 10 on, the prefix is exactly five characters: "MEM" and the year's last two digits |
| Utils.GenerateMemberCode | src/lib/utils.ts:9-32 | the code starts with the year's prefix, followed by at least four characters |
| Utils.NextMemberNumber | src/lib/utils.ts:24-29 | 1 without a stored code, otherwise `parseInt` of the code's last four characters plus one (NaN stays NaN) |
| Utils.LastMemberCode | src/lib/utils.ts:14-23 | `findFirst` with `startsWith` and `orderBy: desc`: None exactly when no stored code has the prefix; otherwise a stored code with the prefix that no other such code exceeds |
| Utils.Padded4 | src/lib/utils.ts:31 | below 10000, `padStart(4, '0')` gives four digits whose value is the number |
| Utils.FirstCodeOfYear | src/lib/utils.ts:25-31 | with no code stored under the prefix, the code is the prefix followed by "0001" |
| Utils.MemberCodeLayout | src/lib/utils.ts:25-31 | below 10000 the code is nine characters, and its last four parse back to its number |
| Utils.NextAfter | src/lib/utils.ts:26-28 | after a code the generator wrote with number k, the next number is k + 1 |
| Utils.MemberCodeOrder | src/lib/utils.ts:20-22 | below 10000, the string order of one year's codes is the order of their numbers |
| Utils.NextCodeFromTable | src/lib/utils.ts:14-31 | for a table of generated codes below 10000, the new code carries one more than the greatest stored number |
| Utils.CodesBelowAreSmaller | src/lib/utils.ts:20-31 | every stored code with the year's prefix sorts before the next code, so the next code is not stored yet |
| Utils.AppendKeepsWellFormed | src/lib/utils.ts:9-32 | storing the code numbered m keeps the table a set of generated codes numbered at most m (so below 10000) |
| Utils.GeneratedCodeIsFresh | src/lib/utils.ts:9-32 | while numbers stay below 9999, the new code is the code of some number m from 1 to 9999, is not in the table, sorts after every code of its year, and the table with it holds only codes numbered at most m |
| Utils.TenThousandthCodeRepeats | src/lib/utils.ts:20-31 | once code 9999 is stored, every later call returns the prefix followed by "10000" (string order ranks "…10000" below "…9999") |
| Utils.TransactionCodeLayout | src/lib/utils.ts:34-40 | "TRX", then the clock's last eight digits (its value modulo 10^8), then the draw padded to three digits; fourteen characters once the clock has eight digits |
| Utils.GenerateTransactionCode | src/lib/utils.ts:34-40 | "TRX" followed by the timestamp's last eight characters and the three-digit draw; TransactionCodeLayout states its layout |
| Utils.PresetOffset | src/lib/utils.ts:53-68 | "last12months" reaches back twelve months, "last7days" 7 days, "last90days" 90 days, and every other name (including "last30days" and unknown names) 30 days, each in both directions |
| Utils.GetDateRange | src/lib/utils.ts:49-71 | the range ends now and starts the preset's offset before now |
| Utils.UnknownRangeIsLast30Days | src/lib/utils.ts:66-67 | an unrecognised range behaves exactly like "last30days" |
| Middleware.AllowedRoutes | src/middleware.ts:106-116 | `roleRoutes[role] \|\| []`: the table's list for a known role, the empty list otherwise |
| Middleware.MatchesSomeRoute | src/middleware.ts:117 | some listed route is a prefix of the path |
| Middleware.OwnerOnlyPath | src/middleware.ts:98-104 | the path starts with `/dashboard/analytics` or `/dashboard/staff-logs` |
| Middleware.Middleware | src/middleware.ts:81-126 | the decision chain: pass with SKIP_AUTH or outside `/dashboard`, sign-in without a token, `/dashboard` for a non-OWNER on an OWNER-only page or for a path off the role's allow-list, otherwise pass; its cases are the lemmas below |
| Middleware.Authorized | src/middleware.ts:129-144 | the callback allows a request exactly when auth is skipped, the path is under "/auth" or outside "/dashboard", or a token is present |
| Middleware.SkipAuthPassesEverything | src/middleware.ts:78-133 | with SKIP_AUTH both the callback and the middleware let every request through |
| Middleware.OutsideDashboardPasses | src/middleware.ts:91-125 | a path outside "/dashboard" is never redirected |
| Middleware.NoTokenGoesToSignIn | src/middleware.ts:91-94 | a dashboard request without a token is sent to "/auth/signin" |
| Middleware.OwnerOnlyPagesRedirectOthers | src/middleware.ts:98-104 | the analytics and staff-log pages pass exactly for OWNER; every other role goes back to "/dashboard" |
| Middleware.OwnerAndSupervisorSkipAllowList | src/middleware.ts:98-122 | OWNER reaches every dashboard page; SUPERVISOR every page except the OWNER-only ones |
| Middleware.OtherRolesFollowAllowList | src/middleware.ts:115-122 | any other role passes exactly when the page is not OWNER-only and it starts with one of the role's routes or is "/dashboard" |
| Middleware.UnknownRoleSeesOnlyDashboard | src/middleware.ts:115-121 | a missing or unknown role reaches "/dashboard" and nothing else |
| Middleware.NoSegmentBoundary | src/middleware.ts:117 | the match is a plain prefix test: "/dashboard/members-export" passes for FRONT_OFFICE |
| Middleware.AuthorizedRefusesOnlyAnonymousDashboard | src/middleware.ts:129-144 | the callback refuses exactly the dashboard requests that carry no token, when auth is not skipped |
| Auth.Authorize | src/lib/auth.ts:19-59 | with SKIP_AUTH, the demo owner; otherwise a user exactly when both fields are non-empty, the email names an active user and the password matches, and then that user's id, email, name and role |
| Auth.MissingCredentialsRejected | src/lib/auth.ts:30-32 | a missing or empty email or password never signs in |
| Auth.InactiveOrUnknownRejected | src/lib/auth.ts:40-42 | an unknown or deactivated user never signs in, whatever the password |
| Auth.Token.constructor | src/lib/auth.ts:69-76 | a token holds exactly the claims it is built with |
| Auth.Jwt | src/lib/auth.ts:66-83 | with SKIP_AUTH, a new demo-owner token issued now and valid for thirty days, leaving the old token alone; otherwise the same token, with its role overwritten by the signing-in user's role and every other claim unchanged |
| Auth.SessionUser.constructor | src/lib/auth.ts:89-94 | a session user holds exactly the fields it is built with |
| Auth.Session.constructor | src/lib/auth.ts:88-96 | a session holds exactly the user and expiry it is built with |
| Auth.SessionCallback | src/lib/auth.ts:84-104 | with SKIP_AUTH, a new demo-owner session expiring in thirty days; otherwise the same session, whose user takes the token's subject and role, with name and email unchanged |
| UseAuth.UseAuth | src/hooks/useAuth.ts:9-45 | with the mock, OWNER's user, flags and checks; otherwise the session's user, `isLoading` exactly when the status is "loading", `isAuthenticated` exactly when there is a session, and checks that refuse everything without a truthy role and otherwise delegate to the permission table |
| UseAuth.EmptyRoleGrantsNothing | src/hooks/useAuth.ts:36-43 | a session whose role is "" counts as authenticated but grants nothing |
| StatusBadge.GetVariant | src/components/ui/status-badge.tsx:11-29 | each of the nine lowercased statuses gets its variant; any other status gets the `variant` prop, or "default" |
| StatusBadge.Label | src/components/ui/status-badge.tsx:33 | the shown text is as long as the status |
| StatusBadge.CaseDoesNotMatter | src/components/ui/status-badge.tsx:12-33 | statuses that differ only in letter case get the same variant and the same text |
| StatusBadge.StoredStatusesAreRecognised | src/components/ui/status-badge.tsx:12-25 | the upper-case statuses the tables store each get their intended variant |
| StatusBadge.OnlyFirstUnderscoreReplaced | src/components/ui/status-badge.tsx:33 | only the first underscore becomes a space: "IN_APP_ADS" shows "in app_ads" |
| DataTable.EnhancedColumns | src/components/ui/data-table.tsx:91-139 | the given columns unchanged when no edit, delete or view applies; otherwise the same columns with the actions column appended last |
| DataTable.MenuItems | src/components/ui/data-table.tsx:107-131 | the menu opens with its label; it offers View exactly when `onView` is passed, Edit exactly when `canEdit` and `onEdit`, Delete exactly when `canDelete` and `onDelete` |
| DataTable.ItemsImplyActionsColumn | src/components/ui/data-table.tsx:92-131 | any item besides the label implies that the actions column is shown |
| DataTable.EditFlagWithoutCallbackLeavesEmptyMenu | src/components/ui/data-table.tsx:92-117 | `canEdit` without `onEdit` (and nothing else) adds an actions column whose menu holds only its label |
| DataTable.OmittedFlagsMeanReadOnly | src/components/ui/data-table.tsx:72-74 | with the three flags left out there is no Add button, no Edit and no Delete, and the actions column appears exactly when `onView` is passed |
| DataTable.DeleteDialog.constructor | src/components/ui/data-table.tsx:87-88 | the dialog starts closed with no recorded row and nothing deleted |
| DataTable.DeleteDialog.ClickDelete | src/components/ui/data-table.tsx:122-125 | the Delete item records the row and opens the dialog, deleting nothing |
| DataTable.DeleteDialog.Cancel | src/components/ui/data-table.tsx:320-323 | Cancel closes the dialog and leaves the recorded row and the deletions as they were |
| DataTable.DeleteDialog.Confirm | src/components/ui/data-table.tsx:160-166 | `handleDelete`: with a recorded row and an `onDelete`, that row is deleted once, the dialog closes and the row is cleared; otherwise nothing changes |
| DataTable.DeleteThenConfirm | src/components/ui/data-table.tsx:122-166 | choosing Delete on a row and confirming deletes exactly that row |
| DataTable.CancelThenDeleteOther | src/components/ui/data-table.tsx:320-323 | after a cancel, a Delete click on another row replaces the recorded one, and confirming deletes only the second row |
| DataTable.InlineLabel | src/components/ui/data-table.tsx:365 | the inline badge's text is as long as the status |
| DataTable.InlineVariantMatchesStandalone | src/components/ui/data-table.tsx:343-361 | the inline badge picks exactly the variant the standalone badge picks |
| DataTable.InlineVariant | src/components/ui/data-table.tsx:343-361 | the inline `getVariant`: the nine lowercase keys, falling back to the variant given or "default" |
| DataTable.InlineLabelDiffersOnlyInCase | src/components/ui/data-table.tsx:365 | lowercasing the inline text gives the standalone badge's text |
| DataTable.InlineLabelKeepsCase | src/components/ui/data-table.tsx:365 | "PENDING" is shown as "PENDING" inline but as "pending" by the standalone badge |
| DashboardLayout.FilteredNavigation | src/components/layout/dashboard-layout.tsx:115-117 | an item is shown exactly when it is in the table and its roles contain `role \|\| ""`, and no more items are shown than the table holds |
| DashboardLayout.ShownWhenListed | src/components/layout/dashboard-layout.tsx:115-117 | an item whose roles list the current role is among the items shown |
| DashboardLayout.MissingRoleSeesNothing | src/components/layout/dashboard-layout.tsx:45-117 | without a role (or with "") no item is shown, in the table as written and in the corrected one |
| DashboardLayout.DashboardShownToEveryRole | src/components/layout/dashboard-layout.tsx:46-51 | in both tables the first item is "Dashboard" and it is shown to all five roles |
| DashboardLayout.OwnerOnlyItems | src/components/layout/dashboard-layout.tsx:88-99 | in both tables "Analytics" and "Staff Logs" are shown exactly when the role is OWNER |
| DashboardLayout.FindByHref | src/components/layout/dashboard-layout.tsx:264 | `navigation.find`: the first item whose href equals the path, or None when no item's does |
| DashboardLayout.HeaderTitle | src/components/layout/dashboard-layout.tsx:264 | the found item's title, or "Dashboard" when no href matches |
| DashboardLayout.DetailPathsAreHeadedDashboard | src/components/layout/dashboard-layout.tsx:264 | only an exact href names the page: "/dashboard/members/42" is headed "Dashboard" |
| DashboardLayout.AsWrittenMemberTransactionsPath | src/components/layout/dashboard-layout.tsx:58-63 | the written "Member Transactions" href is a dashboard path that is neither "/dashboard" nor OWNER-only |
| DashboardLayout.AsWrittenMemberTransactionsNotAllowListed | src/middleware.ts:107-118 | that href starts with none of FRONT_OFFICE's allowed routes |
| DashboardLayout.FrontOfficeLinkIsRedirected | src/components/layout/dashboard-layout.tsx:58-63 | as written, FRONT_OFFICE is shown "Member Transactions", and the middleware sends that link back to "/dashboard" |
| DashboardLayout.HrefFacts | src/components/layout/dashboard-layout.tsx:45-100 | in the corrected table every href is a dashboard path, and exactly the last two are OWNER-only pages |
| DashboardLayout.ListedRoutePasses | src/middleware.ts:117-118 | a role passes every path on its own allow-list |
| DashboardLayout.AllowListedItemPasses | src/middleware.ts:106-122 | for FRONT_OFFICE, ACCOUNTING and MARKETING, each item the corrected table shows them passes the middleware |
| DashboardLayout.VisibleItemsPassMiddleware | src/components/layout/dashboard-layout.tsx:45-117 | with the corrected hrefs, every item a role is shown is a page the middleware lets that role open |
| DashboardLayout.OnlyHrefsDiffer | src/components/layout/dashboard-layout.tsx:45-100 | the corrected table agrees with the written one on every title and role list |
| DashboardPage.Greeting | src/app/dashboard/page.tsx:52-57 | "Good morning" exactly before 12, "Good afternoon" exactly from 12 to 17, "Good evening" exactly from 18 on |
| DashboardPage.CountText | src/app/dashboard/page.tsx:63 | `stats?.field \|\| 0`: "0" when the stats or the figure are missing |
| DashboardPage.RevenueText | src/app/dashboard/page.tsx:89 | "$0" when the stats or the revenue are missing |
| DashboardPage.RateText | src/app/dashboard/page.tsx:115 | "0%" when the stats or the rate are missing |
| DashboardPage.Cards | src/app/dashboard/page.tsx:59-184 | `roleSpecificCards[role] \|\| []`: no cards for a missing or unknown role; three for FRONT_OFFICE, two for ACCOUNTING and MARKETING, three for SUPERVISOR, four for OWNER |
| DashboardPage.MissingStatsShowZero | src/app/dashboard/page.tsx:59-184 | before the stats arrive, every card of every role shows "0", "$0" or "0%" |
| DashboardPage.FrontOfficePendingAlwaysZero | src/app/dashboard/page.tsx:77-84 | whatever the stats handler sends, FRONT_OFFICE's "Pending Payments" card shows "0", because the handler fills that figure only for the financial roles |
| DashboardPage.ConversionRateReads | src/app/dashboard/page.tsx:115 | the rate the stats handler sends reads "12.5%" |
| DashboardPage.QuickActions | src/app/dashboard/page.tsx:186-213 | `quickActions[role] \|\| []`: the table's list for a known role, nothing otherwise |
| DashboardPage.QuickActionsAreVisiblePages | src/app/dashboard/page.tsx:186-211 | every quick action of a role goes to a page the sidebar's corrected table shows that role |
| DashboardPage.QuickActionsPassMiddleware | src/app/dashboard/page.tsx:186-213 | every quick action offered to a role passes the middleware for that role |
| DashboardPage.ClassNames | src/app/dashboard/page.tsx:351-353 | a single non-empty class name comes back unchanged |
| DashboardPage.AllEmptyClassesGiveNothing | src/app/dashboard/page.tsx:351-353 | the class string is empty exactly when every name is empty |
| DashboardPage.EmptyClassIsDropped | src/app/dashboard/page.tsx:352 | an empty name anywhere in the list contributes nothing |
| DashboardPage.TrendClasses | src/app/dashboard/page.tsx:254-261 | the trend text is "font-medium text-green-600" for a rising trend and "font-medium text-red-600" otherwise |
| DashboardStatsRoute.GetStats | src/app/api/dashboard/stats/route.ts:6-104 | 401 exactly without a session; otherwise each group of figures is present exactly for the roles it names: the member figures are the member count, the active-member count and today's OTHER absences; the financial ones are the month's completed income and the pending payments due within a week; the marketing ones are the campaigns active today and the fixed 12.5% rate; `upcomingEvents` is always 3 |
| DashboardStatsRoute.SingleGroupRoles | src/app/api/dashboard/stats/route.ts:25-78 | only SUPERVISOR and OWNER get both member and financial figures; FRONT_OFFICE gets member figures only, ACCOUNTING no member figures, MARKETING no financial ones |
| DashboardStatsRoute.AllGroupsOnlyForSupervisorAndOwner | src/app/api/dashboard/stats/route.ts:25-97 | all three groups exactly for SUPERVISOR and OWNER; a missing or unknown role gets none of them |
| DashboardStatsRoute.OverduePaymentsArePending | src/app/api/dashboard/stats/route.ts:66-73 | "due within a week" also counts every pending payment already overdue |
| DashboardStatsRoute.LastDayAfterMidnightIsNotCounted | src/app/api/dashboard/stats/route.ts:19-56 | income dated after midnight on the month's last day is left out of `monthlyRevenue` |
| AnalyticsRoute.RangeOf | src/app/api/analytics/route.ts:17 | a missing or empty `range` parameter means "last30days"; any other value is kept as given |
| AnalyticsRoute.PreviousPeriodStart | src/app/api/analytics/route.ts:34-35 | the previous period ends where the range starts and is exactly as long as the range |
| AnalyticsRoute.GuardedPercent | src/app/api/analytics/route.ts:46-48 | a growth figure is a ratio exactly when its denominator is positive, and 0 otherwise |
| AnalyticsRoute.MemberStatsOf | src/app/api/analytics/route.ts:21-48 | total, active and inactive members; members created in the range; growth against the previous period, 0 when nobody joined in it |
| AnalyticsRoute.CategoriesOfCons | src/app/api/analytics/route.ts:81-82 | the categories of a list of groups are its head's category and those of its tail |
| AnalyticsRoute.DistinctTail | src/app/api/analytics/route.ts:81-82 | the tail of duplicate-free groups is duplicate-free and does not repeat the head's category |
| AnalyticsRoute.DistinctCons | src/app/api/analytics/route.ts:81-82 | a group with a category new to a duplicate-free list keeps it duplicate-free |
| AnalyticsRoute.AddToTotals | src/app/api/analytics/route.ts:81-91 | adding a row adds its category to the groups, keeps one group per category, adds its amount to its own category's total and to nothing else's, and adds it to the grand total |
| AnalyticsRoute.TotalForAbsent | src/app/api/analytics/route.ts:91 | a category with no group has total 0 |
| AnalyticsRoute.RowCategoriesSnoc | src/app/api/analytics/route.ts:81-82 | appending a row adds exactly its category to the rows' categories |
| AnalyticsRoute.GroupByCategory | src/app/api/analytics/route.ts:156-167 | `groupBy category, _sum amount`: one group per category of the rows, each holding that category's summed amount, with the group totals adding up to the rows' total |
| AnalyticsRoute.GroupAmountIsCategoryTotal | src/app/api/analytics/route.ts:156-167 | in duplicate-free groups each group's amount is its category's total |
| AnalyticsRoute.TopCategories | src/app/api/analytics/route.ts:81-103 | five groups, or all of them when there are fewer, drawn from the groups without repetition, largest total first, each a category of the rows with its total, and no group left out has a larger total than one kept |
| AnalyticsRoute.GroupHoldsCategoryTotal | src/app/api/analytics/route.ts:156-167 | each group is a category of the rows holding that category's total |
| AnalyticsRoute.RevenueStatsOf | src/app/api/analytics/route.ts:50-103 | revenue and expenses are the completed income and expense of the range; profit is their difference; growth is against the previous period's income, 0 without any; the top categories are those of the range's income |
| AnalyticsRoute.RevenueBreakdown | src/app/api/analytics/route.ts:155-176 | one entry per income group, with its category, its total, and its share of the range's revenue (0 when the revenue is not positive) |
| AnalyticsRoute.BreakdownTotalIsRevenue | src/app/api/analytics/route.ts:169 | the breakdown's total, the denominator of every share, equals the range's revenue |
| AnalyticsRoute.TrendMonths | src/app/api/analytics/route.ts:107 | 12 exactly for "last12months", 3 exactly for "last90days", 1 for every other range |
| AnalyticsRoute.BuildTrends | src/app/api/analytics/route.ts:106-153 | one point per month, pushed oldest first: point k describes the month `months - 1 - k` back |
| AnalyticsRoute.TrendsRunOldestFirst | src/app/api/analytics/route.ts:109 | the points run strictly from the oldest month to the current one, which comes last |
| AnalyticsRoute.TrendTotalsNeverFall | src/app/api/analytics/route.ts:138-144 | when earlier months end no later, the running member total never falls along the trend |
| AnalyticsRoute.SumMetrics | src/app/api/analytics/route.ts:201-209 | the `reduce` over a campaign's logs gives the sums of what each log adds to reach, engagement and conversions |
| AnalyticsRoute.NonObjectMetricsAreSkipped | src/app/api/analytics/route.ts:202 | a log whose metrics are missing or not an object adds nothing to any total |
| AnalyticsRoute.MetricValue | src/app/api/analytics/route.ts:202-206 | what `acc.<key> += m.<key> \|\| 0` adds for one log: a number adds itself, `true` 1, a missing member, `null` or `false` 0, and a log without object metrics 0 |
| AnalyticsRoute.MetricMemberCounts | src/app/api/analytics/route.ts:203-206 | a number member adds its value, `true` adds 1, and `false` or `null` adds 0 |
| AnalyticsRoute.MissingMetricCountsZero | src/app/api/analytics/route.ts:204-206 | a metric the log's object leaves out counts as 0 |
| AnalyticsRoute.NumericMetricCounts | src/app/api/analytics/route.ts:204-206 | a numeric metric counts with its value |
| AnalyticsRoute.BuildPerformance | src/app/api/analytics/route.ts:179-215 | one report line per ACTIVE campaign that overlaps the range, in table order, each summing the metrics of that campaign's logs in the range |
| AnalyticsRoute.PerformanceOf | src/app/api/analytics/route.ts:199-214 | one report line: the campaign's name and the metric sums over its logs dated in the range |
| AnalyticsRoute.GetAnalytics | src/app/api/analytics/route.ts:8-258 | 401 exactly when the server session lacks `analytics:read`; otherwise the member and revenue figures, the trend, the breakdown and the campaign lines of the requested range, which ends now |
| AnalyticsRoute.GrowthIsZeroWithoutPreviousPeriod | src/app/api/analytics/route.ts:46-48 | with no joins and no income in the previous period, both growth figures are 0 |
| AnalyticsRoute.StartBelongsToCurrentPeriod | src/app/api/analytics/route.ts:26-42 | a member created exactly at the range start counts in the range and not in the previous period |
| AnalyticsRoute.OnlyCompletedIncomeCounts | src/app/api/analytics/route.ts:52-60 | pending, cancelled or expense rows never count toward revenue |
| ActivityLogsRoute.GetActivityLogs | src/app/api/activity-logs/route.ts:7-47 | 401 exactly when the server session lacks `activity_logs:read`; otherwise at most 500 of the rows the filters select, newest first, and no selected row left out is newer than one returned |
| ActivityLogsRoute.NewestKept | src/app/api/activity-logs/route.ts:38-39 | `orderBy timestamp desc, take 500` keeps min(500, n) rows drawn from the selection, newest first, and none left out is newer than one kept |
| ActivityLogsRoute.ReturnedRowsMatchBothFilters | src/app/api/activity-logs/route.ts:19-25 | a returned row is a stored row matching the user filter and the action filter, whichever apply |
| ActivityLogsRoute.AllSelectsEverything | src/app/api/activity-logs/route.ts:20-25 | a missing or "all" filter selects every row |
| ActivityLogsRoute.FilterAll | src/app/api/activity-logs/route.ts:19 | an empty `where` keeps every row |
| MembersRoute.GetMembers | src/app/api/members/route.ts:8-52 | 401 exactly when the resolved session lacks `members:read`; otherwise the members newest first, and exactly the active ones for `?active=true` |
| MembersRoute.ActiveFilterKeepsOnlyActive | src/app/api/members/route.ts:38 | with `?active=true` a member is listed exactly when it is stored and active |
| MembersRoute.MemberCodesOf | src/app/api/members/route.ts:81 | the code column of the member table, row by row |
| MembersRoute.NextMemberCode | src/app/api/members/route.ts:81 | `generateMemberCode()` over the member table's codes for the year; NextCodeIsNew shows it is not yet stored |
| MembersRoute.BirthDate | src/app/api/members/route.ts:87 | a date is stored only for a non-empty body `birthDate`, and then it is that text's parse |
| MembersRoute.NewMember | src/app/api/members/route.ts:83-89 | the stored row keeps the body's name, email, phone and address, stores `isActive` or true when it is missing, and has the generated code, the converted birth date, the session user as creator and the write time as both timestamps |
| MembersRoute.PostMember | src/app/api/members/route.ts:54-114 | 401 changes nothing; a failed row write (storage, invalid birth date, duplicate id or code) changes nothing and returns 500; a failed audit write keeps the member and returns 500; otherwise the member is appended, followed by one CREATE_MEMBER audit row, and no other table changes |
| MembersRoute.NextCodeIsNew | src/app/api/members/route.ts:81-95 | while the year's codes are generator-made and below 9999, the new code is not yet stored, so the create never fails on the code |
| MemberTransactionsRoute.GetMemberTransactions | src/app/api/member-transactions/route.ts:8-49 | 401 exactly when the resolved session lacks `member_transactions:read`; otherwise every transaction, newest first |
| MemberTransactionsRoute.NewTransaction | src/app/api/member-transactions/route.ts:80-86 | a row exactly when member, amount, type and a valid due date are given; it keeps the body's member, amount, type and description, with the generated code, the parsed due date, the session user, the write time and PENDING as the default status |
| MemberTransactionsRoute.PostMemberTransaction | src/app/api/member-transactions/route.ts:51-116 | 401 changes nothing; a failed or invalid row write, or an unknown member, changes nothing and returns 500; a failed audit write keeps the row and returns 500; otherwise the row is appended, followed by one CREATE_TRANSACTION audit row |
| MemberTransactionsRoute.BodyCannotOverrideCodeOrCreator | src/app/api/member-transactions/route.ts:81-85 | whatever code or creator the body carries, the stored ones are the generated code and the session user |
| MemberAbsencesRoute.Summary | src/app/api/member-absences/route.ts:34-42 | the `member` projection exists exactly when a member has that id, and then carries that member's id, code, name and email |
| MemberAbsencesRoute.JoinMembers | src/app/api/member-absences/route.ts:33-43 | every absence paired with the projection of the member it points at, in table order |
| MemberAbsencesRoute.GetAbsences | src/app/api/member-absences/route.ts:7-52 | 401 exactly when the resolved session lacks `member_absences:read`; otherwise every absence with its member, latest date first |
| MemberAbsencesRoute.ListedAbsencesCarryTheirMember | src/app/api/member-absences/route.ts:33-45 | in a valid database every listed absence is stored and carries the member it points at |
| MemberAbsencesRoute.NewAbsence | src/app/api/member-absences/route.ts:82-88 | a row exactly when member, type and a valid date are given; it holds those four fields and nothing else from the body |
| MemberAbsencesRoute.PostAbsence | src/app/api/member-absences/route.ts:54-122 | 401 changes nothing; a failed or invalid row write, or an unknown member, changes nothing and returns 500; a failed audit write keeps the absence and returns 500; otherwise the absence is appended and returned with its member, followed by one audit row under the CREATE_MEMBER action |
| CompanyTransactionsRoute.GetCompanyTransactions | src/app/api/company-transactions/route.ts:9-49 | 401 exactly when the resolved session lacks `company_transactions:read`; otherwise every company transaction, latest transaction date first |
| CompanyTransactionsRoute.NewCompanyTransaction | src/app/api/company-transactions/route.ts:80-92 | a row exactly when type, category, amount and a valid date are given; it holds them, the body's description and payment method, the generated code, the session user and the status COMPLETED |
| CompanyTransactionsRoute.StatusIsAlwaysCompleted | src/app/api/company-transactions/route.ts:88 | whatever status the body carries, the row is stored as COMPLETED |
| CompanyTransactionsRoute.PostCompanyTransaction | src/app/api/company-transactions/route.ts:51-121 | 401 changes nothing; a failed or invalid row write changes nothing and returns 500; a failed audit write keeps the row and returns 500; otherwise the row with a generated TRX code is appended, followed by one CREATE_TRANSACTION audit row |
| CampaignsRoute.GetCampaigns | src/app/api/campaigns/route.ts:8-48 | 401 exactly when the resolved session lacks `campaigns:read`; otherwise every campaign, newest first |
| CampaignsRoute.EndDate | src/app/api/campaigns/route.ts:86 | a missing or empty end date is stored as null; any other one is its parse, and an invalid one fails the write |
| CampaignsRoute.NewCampaign | src/app/api/campaigns/route.ts:78-90 | a row exactly when name, type and valid dates are given; it holds the body's name, type, budget, description, audience and goals, the parsed dates, the session user as creator, the write time and DRAFT as the default status |
| CampaignsRoute.PostCampaign | src/app/api/campaigns/route.ts:50-119 | 401 changes nothing; a failed or invalid row write changes nothing and returns 500; a failed audit write keeps the campaign and returns 500; otherwise the campaign is appended, followed by one CREATE_CAMPAIGN audit row |
| CampaignLogsRoute.GetCampaignLogs | src/app/api/campaign-logs/route.ts:8-55 | 401 exactly when the resolved session lacks `campaign_logs:read`; otherwise every campaign log, latest log date first |
| CampaignLogsRoute.NewCampaignLog | src/app/api/campaign-logs/route.ts:85-93 | a row exactly when campaign, activity and a valid log date are given; the metrics are stored as given, with the session user as creator |
| CampaignLogsRoute.PostCampaignLog | src/app/api/campaign-logs/route.ts:57-128 | 401 changes nothing; a failed or invalid row write, or an unknown campaign, changes nothing and returns 500; a failed audit write keeps the log and returns 500; otherwise the log is appended, followed by one CREATE_MK_LOG audit row |
| Db.ResolveSession | src/app/api/members/route.ts:11-27 | with SKIP_AUTH the demo owner's session, otherwise the server session |
| Db.SkipAuthActsAsOwner | src/app/api/members/route.ts:11-32 | with SKIP_AUTH a handler holds exactly the permissions OWNER holds |
| Db.Allowed | src/app/api/members/route.ts:30-32 | `session && hasPermission(session.user.role, permission)`: a session whose role holds the permission |
| Db.AuditRow | src/app/api/members/route.ts:98-107 | the audit row carries the session user's id and role, the action, entity, entity id and details, the current instant and the id the database assigns |
| Db.Database.constructor | src/app/api/members/route.ts:37-45 | an empty database, in which every constraint holds |
| Db.AddMemberKeepsValid | src/app/api/members/route.ts:83-95 | a member with a new id and a new code keeps the unique and foreign-key constraints |
| Db.AddMemberTransactionKeepsValid | src/app/api/member-transactions/route.ts:80-93 | a transaction of an existing member keeps the constraints |
| Db.AddAbsenceKeepsValid | src/app/api/member-absences/route.ts:82-99 | an absence of an existing member keeps the constraints |
| Db.AddCampaignKeepsValid | src/app/api/campaigns/route.ts:78-96 | a campaign with a new id keeps the constraints |
| Db.AddCampaignLogKeepsValid | src/app/api/campaign-logs/route.ts:85-106 | a log of an existing campaign keeps the constraints |
| StaffLogsPage.LabelOf | src/app/dashboard/staff-logs/page.tsx:36-46 | a label exactly for the nine listed actions, and then a non-empty label paired with that action in the table |
| StaffLogsPage.FindLabel | src/app/dashboard/staff-logs/page.tsx:36-46 | the lookup finds an entry exactly when the table has the key, and returns a label paired with it |
| StaffLogsPage.ActionText | src/app/dashboard/staff-logs/page.tsx:154 | `actionLabels[action] \|\| action`: the label of a listed action, otherwise the raw action |
| StaffLogsPage.RecordedActionsAsShown | src/app/dashboard/staff-logs/page.tsx:36-46 | the actions the handlers record read "Created Member", "Created Transaction" and "Created Campaign", while CREATE_MK_LOG, which the table does not list, is shown raw |
| StaffLogsPage.ActionOptions | src/app/dashboard/staff-logs/page.tsx:283-288 | the action filter offers "all" followed by the table's actions, in table order |
| StaffLogsPage.Emails | src/app/dashboard/staff-logs/page.tsx:224 | no more distinct emails than rows |
| StaffLogsPage.EmailsMembers | src/app/dashboard/staff-logs/page.tsx:224 | an email is collected exactly when some row carries it |
| StaffLogsPage.ActiveStaff | src/app/dashboard/staff-logs/page.tsx:224 | "Active Staff" is at most the number of rows, and at least 1 when there is a row |
| StaffLogsPage.DistinctEmailsCountEveryRow | src/app/dashboard/staff-logs/page.tsx:224 | rows from pairwise different emails count one staff member each |
| StaffLogsPage.OneUserIsOneStaff | src/app/dashboard/staff-logs/page.tsx:224 | rows that all come from one email count one staff member |
| StaffLogsPage.ActionsToday | src/app/dashboard/staff-logs/page.tsx:210-212 | "Total Actions Today" is the number of rows whose calendar day is today's |
| StaffLogsPage.OccurrencesIn | src/app/dashboard/staff-logs/page.tsx:239-242 | the tally over the first n rows is at most n |
| StaffLogsPage.OccurrencesInIsCount | src/app/dashboard/staff-logs/page.tsx:239-242 | the tally over the first n rows equals the count of those rows that record the action |
| StaffLogsPage.OccurrencesIsCount | src/app/dashboard/staff-logs/page.tsx:239-242 | the tally over all rows equals the count of rows that record the action |
| StaffLogsPage.CountActions | src/app/dashboard/staff-logs/page.tsx:239-242 | the `reduce` leaves one key per action that occurs, in order of first occurrence, each mapped to its number of rows |
| StaffLogsPage.FirstOfSorted | src/app/dashboard/staff-logs/page.tsx:243 | `entries.sort((a, b) => b - a)[0]`: a key with the largest count, and no earlier key with that count (the sort is stable) |
| StaffLogsPage.MostCommonAction | src/app/dashboard/staff-logs/page.tsx:236-245 | "-" exactly when there are no rows; otherwise an action that occurs, occurs no less often than any other, and is the first in row order among the tied ones, shown by its label or "-" when it has none |
| StaffLogsPage.EntryTexts | src/app/dashboard/staff-logs/page.tsx:180 | one "key: value" text per member, in order |
| StaffLogsPage.ValueText | src/app/dashboard/staff-logs/page.tsx:180 | `${value}` of a details member: JSON scalars as JavaScript writes them, an array as its elements' texts joined with "," (null as ""), an object as "[object Object]" |
| StaffLogsPage.ArrayMemberText | src/app/dashboard/staff-logs/page.tsx:180 | a member holding `[a, b]` reads "key: a,b", and one holding `[a, null, b]` reads "key: a,,b" |
| StaffLogsPage.Indexed | src/app/dashboard/staff-logs/page.tsx:180 | `Object.entries` of an array lists each element under its index |
| StaffLogsPage.DetailsText | src/app/dashboard/staff-logs/page.tsx:173-185 | "-" for a falsy value; object and array details are their "key: value" texts joined with ", "; a truthy string is shown as is, a non-zero number as its decimal text, a date as its ISO text, and `true` as nothing |
| StaffLogsPage.ThreeStringFieldsText | src/app/dashboard/staff-logs/page.tsx:180 | three string members read "k1: v1, k2: v2, k3: v3" |
| StaffLogsPage.CampaignAuditDetailsText | src/app/dashboard/staff-logs/page.tsx:180 | the details a campaign's creation records read "name: …, type: …, status: …" |
| StaffLogsPage.EmptyObjectDetailsAreBlank | src/app/dashboard/staff-logs/page.tsx:175-181 | empty object details give an empty cell, while missing or null ones give "-" |
| StaffLogsPage.ArrayDetailsAreIndexed | src/app/dashboard/staff-logs/page.tsx:179-180 | array details are shown element by element under their indexes |
| StaffLogsPage.RoleText | src/app/dashboard/staff-logs/page.tsx:141 | the role badge is as long as the role |
| StaffLogsPage.RoleTextOfFrontOffice | src/app/dashboard/staff-logs/page.tsx:141 | FRONT_OFFICE is shown as "FRONT OFFICE" |
| StaffLogsPage.RequestParams | src/app/dashboard/staff-logs/page.tsx:69-71 | `userId` is sent exactly when a user is selected and `action` exactly when an action is; nothing else is sent |
| StaffLogsPage.Param | src/app/api/activity-logs/route.ts:16-17 | `searchParams.get`: a value exactly when the name is present, and then one sent under that name |
| StaffLogsPage.FiltersReachTheQuery | src/app/dashboard/staff-logs/page.tsx:69-73 | the page's selections, read back by the handler, select exactly the rows of the chosen user and the chosen action, with "all" (or an empty choice) leaving that side open |
| StaffLogsPage.StaffLogs.constructor | src/app/dashboard/staff-logs/page.tsx:51-54 | no rows, and both selections "all" |
| StaffLogsPage.StaffLogs.Load | src/app/dashboard/staff-logs/page.tsx:66-87 | an ok response replaces the rows; any other outcome keeps them, and the selections are untouched |
| StaffLogsPage.StaffLogs.SelectUser | src/app/dashboard/staff-logs/page.tsx:264 | only the user selection changes |
| StaffLogsPage.StaffLogs.SelectAction | src/app/dashboard/staff-logs/page.tsx:278 | only the action selection changes |
| StaffLogsPage.StaffLogs.TotalLogs | src/app/dashboard/staff-logs/page.tsx:257 | "Total Logs" is the number of rows held, never fewer than the active staff |
| StaffLogsPage.StaffLogs.Query | src/app/dashboard/staff-logs/page.tsx:69-71 | the query has one parameter per selection that is not "all" |
| CampaignLogsPage.Filled | src/app/dashboard/campaign-logs/page.tsx:148-153 | no more metrics than fields |
| CampaignLogsPage.FilledMembers | src/app/dashboard/campaign-logs/page.tsx:149-153 | a metric is sent exactly when its field is filled, and then under its name with the field's `parseInt` |
| CampaignLogsPage.FilledCons | src/app/dashboard/campaign-logs/page.tsx:149-153 | the fields are visited front to back |
| CampaignLogsPage.FilledAllEmpty | src/app/dashboard/campaign-logs/page.tsx:148-153 | with every field empty no metric is set |
| CampaignLogsPage.FilledSnoc | src/app/dashboard/campaign-logs/page.tsx:149-153 | visiting one more field adds at most that field's metric, at the end |
| CampaignLogsPage.BuildMetrics | src/app/dashboard/campaign-logs/page.tsx:148-153 | the `if` chain sets, in form order, exactly the filled fields' parsed values |
| CampaignLogsPage.PayloadOf | src/app/dashboard/campaign-logs/page.tsx:155-161 | the payload carries the form's campaign, activity, description and date, and `metrics` exactly when at least one is set |
| CampaignLogsPage.FilledNamesExactlyTheFilledFields | src/app/dashboard/campaign-logs/page.tsx:148-153 | a metric name is sent exactly when its own field is filled |
| CampaignLogsPage.NoFilledFieldNoMetrics | src/app/dashboard/campaign-logs/page.tsx:148-160 | with all five fields empty the payload leaves `metrics` out |
| CampaignLogsPage.MetricText | src/app/dashboard/campaign-logs/page.tsx:236-240 | `value?.toString() \|\| ""`: empty exactly for a missing value, and otherwise text that `parseInt` reads back as the value |
| CampaignLogsPage.Prefill | src/app/dashboard/campaign-logs/page.tsx:231-241 | editing fills the form with the log's campaign, activity, date and description (or "") |
| CampaignLogsPage.Texts | src/app/dashboard/campaign-logs/page.tsx:236-240 | one text per stored metric, in form order |
| CampaignLogsPage.FilledOfTexts | src/app/dashboard/campaign-logs/page.tsx:149-240 | parsing the prefilled texts gives back exactly the stored values, in order |
| CampaignLogsPage.ResubmitReproducesMetrics | src/app/dashboard/campaign-logs/page.tsx:148-241 | resubmitting a prefilled form sends the log's own metric values, exactly and in form order, and no `metrics` exactly when none is stored |
| CampaignLogsPage.NoStoredMetricsNoPayloadMetrics | src/app/dashboard/campaign-logs/page.tsx:160-240 | a log without metrics resubmits without `metrics` |
| CampaignLogsPage.ReplaceById | src/app/dashboard/campaign-logs/page.tsx:178 | the rows keep their positions, and every row with the saved id is replaced by the saved row |
| CampaignLogsPage.RemoveById | src/app/dashboard/campaign-logs/page.tsx:211 | a row is kept exactly when its id differs from the deleted one |
| CampaignLogsPage.RemoveKeepsOrder | src/app/dashboard/campaign-logs/page.tsx:211 | removal works piecewise, so the kept rows stay in their order |
| CampaignLogsPage.RemoveAbsentIdKeepsList | src/app/dashboard/campaign-logs/page.tsx:211 | removing an id no row has leaves the list as it was |
| CampaignLogsPage.ReplaceAbsentIdKeepsList | src/app/dashboard/campaign-logs/page.tsx:178 | saving a row whose id no row has leaves the list as it was |
| CampaignLogsPage.RequestFor | src/app/dashboard/campaign-logs/page.tsx:163-172 | PUT to the log's own URL while editing, POST to the collection otherwise, carrying the payload |
| CampaignLogsPage.EditKeepsIds | src/app/dashboard/campaign-logs/page.tsx:178 | an edit changes no row's id and no row's position |
| CampaignLogsPage.CampaignLogs.constructor | src/app/dashboard/campaign-logs/page.tsx:90-109 | no rows, no log being edited, the modal closed, and both the form and the values a later reset restores are the `useForm` defaults (empty fields, today's date) |
| CampaignLogsPage.CampaignLogs.Load | src/app/dashboard/campaign-logs/page.tsx:115-132 | an ok response replaces the rows; any other outcome keeps them, and nothing else changes |
| CampaignLogsPage.CampaignLogs.OpenModal | src/app/dashboard/campaign-logs/page.tsx:228-247 | the modal opens; with a log the form is prefilled from it, those values become the reset defaults (as `form.reset(values)` makes them) and it becomes the one edited; without one the form is reset to the current defaults, which are the last prefilled log's values once any log was edited |
| CampaignLogsPage.CampaignLogs.CloseModal | src/app/dashboard/campaign-logs/page.tsx:249-253 | the modal closes, nothing is edited any more and the form goes back to the current reset defaults, which stay as they were |
| CampaignLogsPage.CampaignLogs.Submit | src/app/dashboard/campaign-logs/page.tsx:146-202 | sends the request for the form; on success an edit replaces the saved row by id and a create appends it, then the modal closes and the form goes back to the reset defaults; on failure nothing changes |
| CampaignLogsPage.CampaignLogs.Delete | src/app/dashboard/campaign-logs/page.tsx:204-226 | on success the rows with that id go; otherwise nothing changes |
| CampaignLogsPage.AddAfterEdit | src/app/dashboard/campaign-logs/page.tsx:228-253 | editing a log, closing the modal and then clicking "Add" opens a form holding that log's values, which differ from the empty form whenever the log has an activity |
| JsText.SliceLast | src/lib/utils.ts:11-36 | `slice(-n)` gives the last `n` characters, or the whole text when it is shorter, and they are exactly its end |
| JsText.PadStart | src/lib/utils.ts:31-37 | `padStart(n, '0')` prepends just enough pad characters to reach length `n` and never shortens |
| JsText.NatToStringDigits | src/lib/utils.ts:31 | `toString()` of a count is a non-empty digit string whose value is the count |
| JsText.LeadingDigits | src/lib/utils.ts:27 | `parseInt` reads the longest run of leading digits and stops at the first non-digit |
| JsText.ParseIntOfIntToString | src/lib/utils.ts:27-31 | `parseInt` reads back what `toString` wrote, including the sign |
| JsText.ParseIntOfPadded | src/lib/utils.ts:27-31 | a zero-padded number still parses back to itself |
| JsText.SliceLastValue | src/lib/utils.ts:27-36 | the last `k` characters of a number's decimal text spell the number modulo 10^k |
| JsText.StrLessDigits | src/lib/utils.ts:20-22 | on digit strings of one length the text order `orderBy: { memberCode: 'desc' }` uses is numeric order, in both directions |
| JsText.StrLessCommonPrefix | src/lib/utils.ts:14-22 | codes that share the `MEM` and year prefix are ordered by what follows it |
| JsText.StrLessIrreflexive | src/lib/utils.ts:20-22 | no code sorts before itself |
| JsText.StrLessAsymmetric | src/lib/utils.ts:20-22 | of two codes at most one sorts before the other |
| JsText.StrLessTransitive | src/lib/utils.ts:20-22 | the text order is transitive |
| JsText.StrLessTotal | src/lib/utils.ts:20-22 | of two different codes one sorts before the other, so `findFirst` has one answer |
| JsText.ToLower | src/components/ui/status-badge.tsx:12 | `toLowerCase()` keeps the length and lowercases each letter in place |
| JsText.ReplaceFirst | src/components/ui/status-badge.tsx:33 | `replace('_', ' ')` keeps the length |
| JsText.ReplaceFirstChangesOnlyFirst | src/components/ui/status-badge.tsx:33 | `replace` with a string pattern changes only the first occurrence, and nothing when there is none |
| JsText.ToLowerReplaceFirst | src/components/ui/status-badge.tsx:33 | lowercasing and then replacing `_` gives the same text as replacing and then lowercasing |
| JsonValue.Lookup | src/app/api/analytics/route.ts:201-205 | `m.<key>` is present exactly when the object has that key, and then is a value stored under it |
| Seqs.SortDesc | src/app/api/activity-logs/route.ts:38 | `orderBy: { field: 'desc' }` returns the same rows, largest key first |
| Seqs.Filter | src/app/api/members/route.ts:38 | `where` keeps exactly the rows that satisfy the condition, each as often as it occurs |
| Seqs.Take | src/app/api/activity-logs/route.ts:39 | `take: n` keeps the first `n` rows, or all of them when there are fewer |
| Seqs.TakeOfSortedKeepsLargest | src/app/api/activity-logs/route.ts:38-39 | taking from newest-first rows keeps the newest: no row left out is newer than one kept |
| Seqs.Count | src/app/api/dashboard/stats/route.ts:27-28 | `count()` is at most the number of rows |
| Seqs.CountIsFilterLength | src/app/api/dashboard/stats/route.ts:27-28 | `count({ where })` is the number of rows `findMany({ where })` would return |
| Seqs.CountMonotone | src/app/api/analytics/route.ts:22-23 | counting under a stronger condition never counts more |
| Seqs.CountComplement | src/app/api/analytics/route.ts:22-23 | the rows that satisfy a condition and those that do not add up to all rows |
| Seqs.CountSnoc | src/app/api/dashboard/stats/route.ts:27-28 | a new row adds one to a count exactly when it satisfies the condition |
| Seqs.SumAppend | src/app/api/analytics/route.ts:200-208 | the `reduce` over two runs of rows is the sum of the two |
| Seqs.FilterAppend | src/app/dashboard/campaign-logs/page.tsx:211 | filtering works piecewise, so the rows kept stay in their order |

## Left out

- AnalyticsRoute.SumMetrics: a metric member that is a text, an array or an object adds 0 in the model. In the program `acc.<key> += value` would turn the accumulator into text (string concatenation), which the integer sums do not represent.
- AnalyticsRoute.MetricValue: the same gap; numbers, booleans, `null` and missing members are modelled as JavaScript adds them to a number.
- ActivityLogsRoute.GetActivityLogs: an `action` parameter that names no recorded action returns the empty list in the model. If the database declares the action column as an enumeration (the schema is not part of this model), the query would fail validation and the handler would answer 500 instead.
- The `console.log` and `console.error` calls (src/hooks/useAuth.ts:14 and every handler's `catch`) are output only and are not modelled.
- Persistence is modelled as in-memory sequences. Prisma calls, next-auth's `getServerSession` and bcrypt are outside the model: the session, the user lookup and the password check are inputs, and each write's success is a boolean input.
- `Date.now()`, `new Date()` and `Math.random()` are parameters. `setMonth` and `setDate(0)` are a calendar function parameter (`addMonths`, `monthBounds`), so month overflow and daylight-saving shifts are not modelled.
- Utils.GetDateRange: the day presets subtract whole days of milliseconds; the fractional-day arithmetic of the program's `Date` objects is not modelled. The program reads the clock twice (`new Date()` for the end and again for the start); the model uses one reading `now` for both.
- AnalyticsRoute.PreviousPeriodStart: the program computes the window's length in days as a fractional number (the range is whole local days apart only up to daylight-saving shifts and the gap between its two clock readings) and steps back with `setDate(getDate() - days)`, which truncates the resulting day of the month toward zero and counts in local calendar days; its previous window can therefore be up to a day shorter or longer than the current one. The model subtracts the range's length in integer milliseconds, so its previous window is always exactly as long as the current one.
- Floating point is out: the `toFixed(1)` and `parseFloat` growth values and the `Math.round` percentages are kept as exact ratios (`Percent`). The constant 12.5 is kept as 125 tenths. `Decimal.toNumber()` amounts and budgets are integers.
- JsText.ParseInt reads an optional sign and then decimal digits. The leading white space and `0x` prefixes that JavaScript's `parseInt` also accepts are not modelled: in the model a field with leading white space parses to NaN, and one starting with `0x` parses to 0.
- JsText.ToLower maps ASCII letters only. String order is code-point order, which is what Prisma's `orderBy` on these ASCII codes gives.
- `Promise.all` fan-out and the read-then-write race between two `generateMemberCode` calls are out: each request runs alone.
- The `include` and `select` joins of the GET handlers are out, except the absences handler's member projection (id, code, name, email): the model returns the table rows.
- The PUT, DELETE and mark-paid handlers under `[id]` are not part of this model. The pages' calls to them are modelled only through their `ok` outcome.
- Rendering is out: JSX, the zod schemas, react-hook-form, recharts, tanstack sorting and pagination, toasts, date-fns formatting, `toLocaleString` and the metrics and IP-address cells of the tables.
- The staff-logs page's `/api/users` fetch and the campaign-logs page's campaign list fetch are out: they only fill drop-down menus.
- `cn`/`twMerge` and `formatCurrency` in src/lib/utils.ts are library wrappers. The dashboard page's own `cn` is modelled.
- src/components/ui/form-modal.tsx, src/app/auth/signin/page.tsx, next.config.ts, prisma/seed.ts and the other dashboard pages are not part of this model.
- The middleware's `matcher` configuration and the client-side `window.location` redirect are out.
- Object keys that JavaScript inherits from `Object.prototype` (say a recorded action named `toString` looked up in the action labels) are not modelled.
- The seed script (prisma/seed.ts) gives company transactions `CTRX` codes. The handler calls `generateTransactionCode`, so new ones get `TRX` codes, and the model follows the handler (CompanyTransactionsRoute.PostCompanyTransaction).
- The activity-logs, dashboard-stats and analytics handlers call `getServerSession` directly, with no `SKIP_AUTH` mock; the model does the same.
- Utils.TenThousandthCodeRepeats is a capacity limit of the member-code scheme: after number 9999 every call returns the same code, because "…10000" sorts below "…9999". The unique-code constraint then rejects the insert. The source shows no intended behaviour beyond 9999, so this is recorded as a property, not as a finding.

## Findings

| source | as written | input that shows it | evidently intended | confidence | as-written member | corrected member |
|---|---|---|---|---|---|---|
| src/components/layout/dashboard-layout.tsx:58-75 | the items "Member Transactions", "Member Absences" and "Company Transactions" link to `/dashboard/member-transactions`, `/dashboard/member-absences` and `/dashboard/company-transactions`, but the pages live at `/dashboard/member-tx`, `/dashboard/absences` and `/dashboard/company-tx`, and those are the paths src/middleware.ts:106-113 lets the roles reach | a FRONT_OFFICE user clicks "Member Transactions": the link is shown, and the middleware redirects the request to `/dashboard` | each item links to its page, so every item a role is shown is a page the middleware lets that role open | not executed | DashboardLayout.FrontOfficeLinkIsRedirected | DashboardLayout.VisibleItemsPassMiddleware |
