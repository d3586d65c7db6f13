/**
 * `/api/dashboard/stats` (src/app/api/dashboard/stats/route.ts): the
 * figures on the dashboard cards. Any signed-in user gets a record; which
 * groups of figures it carries depends on the role.
 *
 * `today` is local midnight and the two month bounds are midnight of the
 * first and of the last day of today's month, all as epoch milliseconds;
 * the calendar arithmetic that produces them is not part of this model.
 */
module DashboardStatsRoute {
  import opened Wrappers
  import opened Seqs
  import opened Db
  import Permissions
  import Utils

  const MemberStatsRoles := [Permissions.FRONT_OFFICE, Permissions.SUPERVISOR, Permissions.OWNER]
  const FinancialStatsRoles := [Permissions.ACCOUNTING, Permissions.SUPERVISOR, Permissions.OWNER]
  const MarketingStatsRoles := [Permissions.MARKETING, Permissions.SUPERVISOR, Permissions.OWNER]

  /** The mock conversion rate 12.5, kept in tenths of a percent. */
  const ConversionRateTenths := 125
  const UpcomingEvents := 3

  /** The `stats` object; a None field is one the handler never set. */
  datatype Stats = Stats(
    totalMembers: Option<nat>, activeMembers: Option<nat>, todayCheckIns: Option<nat>,
    monthlyRevenue: Option<int>, pendingPayments: Option<nat>,
    activeCampaigns: Option<nat>, conversionRateTenths: Option<int>,
    upcomingEvents: Option<int>)

  const NoStats := Stats(None, None, None, None, None, None, None, None)

  /** `['…'].includes(session.user.role)`; a missing role is in no list. */
  predicate RoleIn(role: Option<string>, roles: seq<string>) {
    role.Some? && role.value in roles
  }

  /** A check-in: an absence of type OTHER dated in [today, today + 24h). */
  predicate IsCheckInOn(today: int, a: MemberAbsence) {
    a.kind == "OTHER" && today <= a.date < today + Utils.DayMs
  }

  /** Completed income dated between the two month bounds, both included. */
  predicate IsMonthIncome(first: int, last: int, t: CompanyTransaction) {
    t.kind == "INCOME" && t.status == "COMPLETED" && first <= t.transactionDate <= last
  }

  /** A pending member payment due no later than a week after today, overdue ones included. */
  predicate IsPendingWithinWeek(today: int, t: MemberTransaction) {
    t.status == "PENDING" && t.dueDate <= today + 7 * Utils.DayMs
  }

  /** A running campaign: ACTIVE, started by today, and with no end date or one not before today. */
  predicate IsCampaignActiveOn(today: int, c: Campaign) {
    c.status == "ACTIVE" && c.startDate <= today && (c.endDate.None? || c.endDate.value >= today)
  }

  function CompanyAmount(t: CompanyTransaction): int { t.amount }

  /**
   * GET: 401 without a session; otherwise the record, filled group by
   * group for the roles each group names, with `upcomingEvents` always 3.
   */
  method GetStats(db: Database, serverSession: Option<SessionInfo>, today: int, firstDayOfMonth: int,
                  lastDayOfMonth: int)
    returns (r: Response<Stats>)
    ensures r.Ok? || r.Unauthorized?
    ensures r.Unauthorized? <==> serverSession.None?
    ensures r.Ok? ==>
      var role := serverSession.value.role;
      var s := r.body;
      (s.totalMembers.Some? <==> RoleIn(role, MemberStatsRoles)) &&
      (s.activeMembers.Some? <==> RoleIn(role, MemberStatsRoles)) &&
      (s.todayCheckIns.Some? <==> RoleIn(role, MemberStatsRoles)) &&
      (s.monthlyRevenue.Some? <==> RoleIn(role, FinancialStatsRoles)) &&
      (s.pendingPayments.Some? <==> RoleIn(role, FinancialStatsRoles)) &&
      (s.activeCampaigns.Some? <==> RoleIn(role, MarketingStatsRoles)) &&
      (s.conversionRateTenths.Some? <==> RoleIn(role, MarketingStatsRoles)) &&
      s.upcomingEvents == Some(UpcomingEvents)
    ensures r.Ok? && r.body.totalMembers.Some? ==>
      r.body.totalMembers.value == |db.members| &&
      r.body.activeMembers.value == Count(db.members, MemberIsActive) &&
      r.body.todayCheckIns.value == Count(db.absences, a => IsCheckInOn(today, a))
    ensures r.Ok? && r.body.monthlyRevenue.Some? ==>
      r.body.monthlyRevenue.value ==
        Sum(Filter(db.companyTransactions, t => IsMonthIncome(firstDayOfMonth, lastDayOfMonth, t)), CompanyAmount) &&
      r.body.pendingPayments.value == Count(db.memberTransactions, t => IsPendingWithinWeek(today, t))
    ensures r.Ok? && r.body.activeCampaigns.Some? ==>
      r.body.activeCampaigns.value == Count(db.campaigns, c => IsCampaignActiveOn(today, c)) &&
      r.body.conversionRateTenths == Some(ConversionRateTenths)
  {
    if serverSession.None? {
      return Unauthorized;
    }
    var role := serverSession.value.role;
    var stats := NoStats;
    if RoleIn(role, MemberStatsRoles) {
      stats := stats.(totalMembers := Some(|db.members|), activeMembers := Some(Count(db.members, MemberIsActive)));
      stats := stats.(todayCheckIns := Some(Count(db.absences, a => IsCheckInOn(today, a))));
    }
    if RoleIn(role, FinancialStatsRoles) {
      var revenue := Sum(Filter(db.companyTransactions, t => IsMonthIncome(firstDayOfMonth, lastDayOfMonth, t)),
                         CompanyAmount);
      stats := stats.(monthlyRevenue := Some(revenue));
      stats := stats.(pendingPayments := Some(Count(db.memberTransactions, t => IsPendingWithinWeek(today, t))));
    }
    if RoleIn(role, MarketingStatsRoles) {
      stats := stats.(activeCampaigns := Some(Count(db.campaigns, c => IsCampaignActiveOn(today, c))));
      stats := stats.(conversionRateTenths := Some(ConversionRateTenths));
    }
    stats := stats.(upcomingEvents := Some(UpcomingEvents));
    r := Ok(stats);
  }

  /** FRONT_OFFICE sees member figures only; ACCOUNTING financial only; MARKETING marketing only. */
  lemma SingleGroupRoles(role: string)
    ensures RoleIn(Some(role), MemberStatsRoles) && RoleIn(Some(role), FinancialStatsRoles) <==>
            role == Permissions.SUPERVISOR || role == Permissions.OWNER
    ensures RoleIn(Some(Permissions.FRONT_OFFICE), MemberStatsRoles)
    ensures !RoleIn(Some(Permissions.FRONT_OFFICE), FinancialStatsRoles)
    ensures !RoleIn(Some(Permissions.FRONT_OFFICE), MarketingStatsRoles)
    ensures !RoleIn(Some(Permissions.ACCOUNTING), MemberStatsRoles)
    ensures !RoleIn(Some(Permissions.MARKETING), FinancialStatsRoles)
  {
  }

  /** Only SUPERVISOR and OWNER get all three groups; an unknown or missing role gets only `upcomingEvents`. */
  lemma AllGroupsOnlyForSupervisorAndOwner(role: Option<string>)
    ensures RoleIn(role, MemberStatsRoles) && RoleIn(role, FinancialStatsRoles) && RoleIn(role, MarketingStatsRoles)
            <==> role == Some(Permissions.SUPERVISOR) || role == Some(Permissions.OWNER)
    ensures (role.None? || role.value !in Permissions.Roles) ==>
            !RoleIn(role, MemberStatsRoles) && !RoleIn(role, FinancialStatsRoles) && !RoleIn(role, MarketingStatsRoles)
  {
  }

  /** "Due within a week" also counts every payment already overdue. */
  lemma OverduePaymentsArePending(today: int, t: MemberTransaction)
    requires t.status == "PENDING" && t.dueDate < today
    ensures IsPendingWithinWeek(today, t)
  {
  }

  /**
   * The month's upper bound is midnight at the start of its last day, so
   * income dated later on that day is not counted in `monthlyRevenue`.
   */
  lemma LastDayAfterMidnightIsNotCounted(first: int, last: int, t: CompanyTransaction)
    requires last < t.transactionDate < last + Utils.DayMs
    ensures !IsMonthIncome(first, last, t)
  {
  }
}
