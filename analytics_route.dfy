/**
 * `/api/analytics` (src/app/api/analytics/route.ts): the owner's report
 * over a date range — member counts and growth against the previous period
 * of the same length, completed revenue and expenses, the five best income
 * categories, monthly membership trends, the income breakdown by category,
 * and the summed metrics of the campaigns running in the range.
 *
 * Ratios are kept as a numerator and a positive denominator: the rounding
 * and `toFixed(1)` of the percentages are not modelled, only their zero
 * guards.
 */
module AnalyticsRoute {
  import opened Wrappers
  import opened JsonValue
  import opened Seqs
  import opened Db
  import Utils

  const DefaultRange := "last30days"
  const TopCategoryCount := 5

  /** `searchParams.get('range') || 'last30days'`. */
  function RangeOf(param: Option<string>): (range: string)
    ensures param.None? || param == Some("") ==> range == DefaultRange
    ensures param.Some? && param.value != "" ==> range == param.value
  {
    if param.None? || param.value == "" then DefaultRange else param.value
  }

  /** Where the range starts, as `getDateRange` computes it. */
  function RangeStart(range: string, now: int, addMonths: (int, int) -> int): int {
    match Utils.PresetOffset(range)
    case DaysBack(days) => now - days * Utils.DayMs
    case MonthsBack(_) => addMonths(now, -12)
  }

  /** The previous period ends where the range starts and is as long as the range. */
  function PreviousPeriodStart(startDate: int, endDate: int): (p: int)
    ensures startDate - p == endDate - startDate
  {
    startDate - (endDate - startDate)
  }

  /** A percentage `part / whole * 100`, or 0 when the whole is not positive. */
  datatype Percent = Zero | Of(part: int, whole: int)

  function GuardedPercent(part: int, whole: int): (p: Percent)
    ensures p.Of? <==> whole > 0
    ensures p.Of? ==> p.part == part && p.whole == whole
  {
    if whole > 0 then Of(part, whole) else Zero
  }

  // ---------------------------------------------------------------------
  // Row selections

  function CreatedWithin(lo: int, hi: int): Member -> bool {
    (m: Member) => lo <= m.createdAt <= hi
  }

  function CreatedFromUntil(lo: int, hi: int): Member -> bool {
    (m: Member) => lo <= m.createdAt < hi
  }

  function CreatedBy(hi: int): Member -> bool {
    (m: Member) => m.createdAt <= hi
  }

  function CancelledWithin(lo: int, hi: int): Member -> bool {
    (m: Member) => !m.isActive && lo <= m.updatedAt <= hi
  }

  function NotActive(m: Member): bool { !m.isActive }

  /** Completed rows of one kind dated in [lo, hi]. */
  function CompletedWithin(kind: string, lo: int, hi: int): CompanyTransaction -> bool {
    (t: CompanyTransaction) => t.kind == kind && t.status == "COMPLETED" && lo <= t.transactionDate <= hi
  }

  /** Completed rows of one kind dated in [lo, hi). */
  function CompletedFromUntil(kind: string, lo: int, hi: int): CompanyTransaction -> bool {
    (t: CompanyTransaction) => t.kind == kind && t.status == "COMPLETED" && lo <= t.transactionDate < hi
  }

  function CompanyAmount(t: CompanyTransaction): int { t.amount }

  // ---------------------------------------------------------------------
  // Member statistics

  datatype MemberStats = MemberStats(total: nat, active: nat, inactive: int, newInRange: nat, growth: Percent)

  /**
   * The member block: totals, members created in [start, end], and their
   * growth over those created in [previous start, start).
   */
  function MemberStatsOf(members: seq<Member>, startDate: int, endDate: int): (s: MemberStats)
    ensures s.total == |members| && s.active == Count(members, MemberIsActive)
    ensures s.inactive == Count(members, NotActive)
    ensures s.newInRange == Count(members, CreatedWithin(startDate, endDate))
    ensures var previous := Count(members, CreatedFromUntil(PreviousPeriodStart(startDate, endDate), startDate));
            s.growth == (if previous > 0 then Of(s.newInRange - previous, previous) else Zero)
  {
    CountComplement(members, MemberIsActive, NotActive);
    var total := |members|;
    var active := Count(members, MemberIsActive);
    var newInRange := Count(members, CreatedWithin(startDate, endDate));
    var previous := Count(members, CreatedFromUntil(PreviousPeriodStart(startDate, endDate), startDate));
    MemberStats(total, active, total - active, newInRange, GuardedPercent(newInRange - previous, previous))
  }

  // ---------------------------------------------------------------------
  // Income by category (`groupBy({ by: ['category'], _sum: { amount } })`)

  datatype CategoryTotal = CategoryTotal(category: string, amount: int)

  function TotalAmount(c: CategoryTotal): int { c.amount }

  function Categories(totals: seq<CategoryTotal>): set<string> {
    set i | 0 <= i < |totals| :: totals[i].category
  }

  ghost predicate DistinctCategories(totals: seq<CategoryTotal>) {
    forall i, j :: 0 <= i < j < |totals| ==> totals[i].category != totals[j].category
  }

  /** The summed amount recorded for a category, 0 when it has no group. */
  function TotalFor(totals: seq<CategoryTotal>, c: string): int {
    if totals == [] then 0 else if totals[0].category == c then totals[0].amount else TotalFor(totals[1..], c)
  }

  function SumTotals(totals: seq<CategoryTotal>): int {
    Sum(totals, TotalAmount)
  }

  /** The sum of the amounts of the rows in one category. */
  function CategorySum(rows: seq<CompanyTransaction>, c: string): int {
    if rows == [] then 0
    else CategorySum(rows[..|rows| - 1], c) + (if rows[|rows| - 1].category == c then rows[|rows| - 1].amount else 0)
  }

  function RowCategories(rows: seq<CompanyTransaction>): set<string> {
    set i | 0 <= i < |rows| :: rows[i].category
  }

  lemma CategoriesOfCons(totals: seq<CategoryTotal>)
    requires totals != []
    ensures Categories(totals) == {totals[0].category} + Categories(totals[1..])
  {
    forall x | x in Categories(totals) ensures x in {totals[0].category} + Categories(totals[1..]) {
      var i :| 0 <= i < |totals| && totals[i].category == x;
      if i > 0 { assert totals[1..][i - 1].category == x; }
    }
    forall x | x in Categories(totals[1..]) ensures x in Categories(totals) {
      var i :| 0 <= i < |totals[1..]| && totals[1..][i].category == x;
      assert totals[i + 1].category == x;
    }
  }

  lemma DistinctTail(totals: seq<CategoryTotal>)
    requires totals != [] && DistinctCategories(totals)
    ensures DistinctCategories(totals[1..])
    ensures totals[0].category !in Categories(totals[1..])
  {
    forall i, j | 0 <= i < j < |totals[1..]| ensures totals[1..][i].category != totals[1..][j].category {
      assert totals[1..][i] == totals[i + 1] && totals[1..][j] == totals[j + 1];
    }
    forall x | x in Categories(totals[1..]) ensures x != totals[0].category {
      var i :| 0 <= i < |totals[1..]| && totals[1..][i].category == x;
      assert totals[1..][i] == totals[i + 1];
    }
  }

  lemma DistinctCons(h: CategoryTotal, t: seq<CategoryTotal>)
    requires DistinctCategories(t) && h.category !in Categories(t)
    ensures DistinctCategories([h] + t)
  {
    var r := [h] + t;
    forall i, j | 0 <= i < j < |r| ensures r[i].category != r[j].category {
      assert r[j] == t[j - 1];
      if i == 0 {
        assert t[j - 1].category in Categories(t);
      } else {
        assert r[i] == t[i - 1];
      }
    }
  }

  /** Adds one row's amount to its category's group, opening a new group at the end for a new category. */
  function AddToTotals(totals: seq<CategoryTotal>, c: string, a: int): (r: seq<CategoryTotal>)
    ensures Categories(r) == Categories(totals) + {c}
    ensures DistinctCategories(totals) ==> DistinctCategories(r)
    ensures DistinctCategories(totals) ==> forall x :: TotalFor(r, x) == TotalFor(totals, x) + (if x == c then a else 0)
    ensures SumTotals(r) == SumTotals(totals) + a
  {
    if totals == [] then
      assert Categories([CategoryTotal(c, a)]) == {c} by {
        assert [CategoryTotal(c, a)][0].category == c;
      }
      [CategoryTotal(c, a)]
    else
      CategoriesOfCons(totals);
      assert DistinctCategories(totals) ==>
               DistinctCategories(totals[1..]) && totals[0].category !in Categories(totals[1..]) by {
        if DistinctCategories(totals) {
          DistinctTail(totals);
        }
      }
      if totals[0].category == c then
        var r := [totals[0].(amount := totals[0].amount + a)] + totals[1..];
        CategoriesOfCons(r);
        assert r[1..] == totals[1..];
        assert DistinctCategories(totals) ==> DistinctCategories(r) && TotalFor(totals[1..], c) == 0 by {
          if DistinctCategories(totals) {
            DistinctCons(r[0], totals[1..]);
            TotalForAbsent(totals[1..], c);
          }
        }
        r
      else
        var rest := AddToTotals(totals[1..], c, a);
        var r := [totals[0]] + rest;
        CategoriesOfCons(r);
        assert r[1..] == rest;
        assert DistinctCategories(totals) ==> DistinctCategories(r) by {
          if DistinctCategories(totals) {
            DistinctCons(totals[0], rest);
          }
        }
        r
  }

  lemma {:induction false} TotalForAbsent(totals: seq<CategoryTotal>, c: string)
    requires c !in Categories(totals)
    ensures TotalFor(totals, c) == 0
  {
    if totals != [] {
      CategoriesOfCons(totals);
      TotalForAbsent(totals[1..], c);
    }
  }

  lemma RowCategoriesSnoc(front: seq<CompanyTransaction>, last: CompanyTransaction)
    ensures RowCategories(front + [last]) == RowCategories(front) + {last.category}
  {
    var rows := front + [last];
    assert rows[|front|] == last;
    forall x | x in RowCategories(rows) ensures x in RowCategories(front) + {last.category} {
      var i :| 0 <= i < |rows| && rows[i].category == x;
      if i < |rows| - 1 { assert front[i].category == x; }
    }
    forall x | x in RowCategories(front) ensures x in RowCategories(rows) {
      var i :| 0 <= i < |front| && front[i].category == x;
      assert rows[i].category == x;
    }
  }

  /**
   * The groups of the rows: one per category that occurs, in order of first
   * occurrence, each holding that category's summed amount.
   */
  function GroupByCategory(rows: seq<CompanyTransaction>): (r: seq<CategoryTotal>)
    ensures DistinctCategories(r)
    ensures Categories(r) == RowCategories(rows)
    ensures forall c :: TotalFor(r, c) == CategorySum(rows, c)
    ensures SumTotals(r) == Sum(rows, CompanyAmount)
  {
    if rows == [] then []
    else
      var front := rows[..|rows| - 1];
      var last := rows[|rows| - 1];
      var g := GroupByCategory(front);
      assert rows == front + [last];
      SumAppend(front, [last], CompanyAmount);
      RowCategoriesSnoc(front, last);
      AddToTotals(g, last.category, last.amount)
  }

  /** In groups with distinct categories, each group holds exactly its category's total. */
  lemma {:induction false} GroupAmountIsCategoryTotal(totals: seq<CategoryTotal>, e: CategoryTotal)
    requires DistinctCategories(totals)
    requires e in totals
    ensures e.amount == TotalFor(totals, e.category)
  {
    if totals[0] != e {
      assert e in totals[1..];
      DistinctTail(totals);
      var k :| 0 <= k < |totals[1..]| && totals[1..][k] == e;
      assert totals[k + 1] == e;
      GroupAmountIsCategoryTotal(totals[1..], e);
    }
  }

  /** `orderBy: { _sum: { amount: 'desc' } }, take: 5`. */
  function TopCategories(rows: seq<CompanyTransaction>): (top: seq<CategoryTotal>)
    ensures |top| == if |GroupByCategory(rows)| < TopCategoryCount then |GroupByCategory(rows)| else TopCategoryCount
    ensures multiset(top) <= multiset(GroupByCategory(rows))
    ensures SortedDesc(top, TotalAmount)
    ensures forall e | e in top :: e.category in RowCategories(rows) && e.amount == CategorySum(rows, e.category)
    ensures forall e | e in multiset(GroupByCategory(rows)) - multiset(top) ::
              forall k :: 0 <= k < |top| ==> top[k].amount >= e.amount
  {
    var groups := GroupByCategory(rows);
    var sorted := SortDesc(groups, TotalAmount);
    assert |sorted| == |multiset(sorted)| == |multiset(groups)| == |groups|;
    TakeOfSortedKeepsLargest(sorted, TotalAmount, TopCategoryCount);
    var top := Take(sorted, TopCategoryCount);
    forall e | e in top ensures e.category in RowCategories(rows) && e.amount == CategorySum(rows, e.category) {
      assert e in multiset(top);
      GroupHoldsCategoryTotal(rows, e);
    }
    top
  }

  /** Each group is a category of the rows holding that category's total. */
  lemma GroupHoldsCategoryTotal(rows: seq<CompanyTransaction>, e: CategoryTotal)
    requires e in GroupByCategory(rows)
    ensures e.category in RowCategories(rows) && e.amount == CategorySum(rows, e.category)
  {
    var groups := GroupByCategory(rows);
    var i :| 0 <= i < |groups| && groups[i] == e;
    assert e.category in Categories(groups);
    GroupAmountIsCategoryTotal(groups, e);
  }

  // ---------------------------------------------------------------------
  // Revenue statistics and breakdown

  datatype RevenueStats = RevenueStats(
    totalRevenue: int, totalExpenses: int, netProfit: int, revenueGrowth: Percent, topCategories: seq<CategoryTotal>)

  /** The window's completed income. */
  function WindowIncome(txs: seq<CompanyTransaction>, startDate: int, endDate: int): seq<CompanyTransaction> {
    Filter(txs, CompletedWithin("INCOME", startDate, endDate))
  }

  /**
   * The revenue block: completed income and expenses in [start, end] (0
   * when none), their difference, growth over the completed income of
   * [previous start, start), and the top income categories.
   */
  function RevenueStatsOf(txs: seq<CompanyTransaction>, startDate: int, endDate: int): (s: RevenueStats)
    ensures s.totalRevenue == Sum(WindowIncome(txs, startDate, endDate), CompanyAmount)
    ensures s.totalExpenses == Sum(Filter(txs, CompletedWithin("EXPENSE", startDate, endDate)), CompanyAmount)
    ensures s.netProfit == s.totalRevenue - s.totalExpenses
    ensures var previous := Sum(Filter(txs, CompletedFromUntil("INCOME", PreviousPeriodStart(startDate, endDate),
                                                               startDate)), CompanyAmount);
            s.revenueGrowth == (if previous > 0 then Of(s.totalRevenue - previous, previous) else Zero)
    ensures s.topCategories == TopCategories(WindowIncome(txs, startDate, endDate))
  {
    var revenue := Sum(WindowIncome(txs, startDate, endDate), CompanyAmount);
    var expenses := Sum(Filter(txs, CompletedWithin("EXPENSE", startDate, endDate)), CompanyAmount);
    var previous := Sum(Filter(txs, CompletedFromUntil("INCOME", PreviousPeriodStart(startDate, endDate), startDate)),
                        CompanyAmount);
    RevenueStats(revenue, expenses, revenue - expenses, GuardedPercent(revenue - previous, previous),
                 TopCategories(WindowIncome(txs, startDate, endDate)))
  }

  datatype BreakdownEntry = BreakdownEntry(category: string, amount: int, percentage: Percent)

  /** Every income category of the window with its share of the window's revenue. */
  function RevenueBreakdown(txs: seq<CompanyTransaction>, startDate: int, endDate: int): (b: seq<BreakdownEntry>)
    ensures var income := WindowIncome(txs, startDate, endDate);
            var groups := GroupByCategory(income);
            var total := Sum(income, CompanyAmount);
            |b| == |groups| &&
            forall i :: 0 <= i < |b| ==>
              b[i].category == groups[i].category &&
              b[i].amount == CategorySum(income, b[i].category) &&
              b[i].percentage == (if total > 0 then Of(b[i].amount, total) else Zero)
  {
    var income := WindowIncome(txs, startDate, endDate);
    var groups := GroupByCategory(income);
    var total := SumTotals(groups);
    forall i | 0 <= i < |groups| ensures groups[i].amount == CategorySum(income, groups[i].category) {
      GroupAmountIsCategoryTotal(groups, groups[i]);
    }
    seq(|groups|, i requires 0 <= i < |groups| =>
      BreakdownEntry(groups[i].category, groups[i].amount, GuardedPercent(groups[i].amount, total)))
  }

  /** The breakdown's total, the denominator of every share, is the window's revenue. */
  lemma BreakdownTotalIsRevenue(txs: seq<CompanyTransaction>, startDate: int, endDate: int)
    ensures SumTotals(GroupByCategory(WindowIncome(txs, startDate, endDate))) ==
            RevenueStatsOf(txs, startDate, endDate).totalRevenue
  {
  }

  // ---------------------------------------------------------------------
  // Membership trends

  /** One month of the trend: `monthsAgo` is how far back the month lies. */
  datatype TrendPoint = TrendPoint(monthsAgo: nat, newMembers: nat, cancelledMembers: nat, totalMembers: nat)

  /** `12` for last12months, `3` for last90days, `1` otherwise. */
  function TrendMonths(range: string): (n: nat)
    ensures n == 12 <==> range == "last12months"
    ensures n == 3 <==> range == "last90days"
    ensures n == 1 <==> range != "last12months" && range != "last90days"
  {
    if range == "last12months" then 12 else if range == "last90days" then 3 else 1
  }

  /**
   * The counts for the month `i` months back, whose first and last instants
   * `monthBounds(i)` gives (the `setMonth`/`setDate` calendar arithmetic).
   */
  function TrendAt(members: seq<Member>, monthBounds: nat -> (int, int), i: nat): TrendPoint {
    var lo := monthBounds(i).0;
    var hi := monthBounds(i).1;
    TrendPoint(i, Count(members, CreatedWithin(lo, hi)), Count(members, CancelledWithin(lo, hi)),
               Count(members, CreatedBy(hi)))
  }

  /** The trend loop: `for (let i = months - 1; i >= 0; i--)` pushes the oldest month first. */
  method BuildTrends(members: seq<Member>, months: nat, monthBounds: nat -> (int, int))
    returns (trends: seq<TrendPoint>)
    ensures |trends| == months
    ensures forall k :: 0 <= k < months ==> trends[k] == TrendAt(members, monthBounds, months - 1 - k)
  {
    var at := (i: nat) => TrendAt(members, monthBounds, i);
    trends := [];
    var i: int := months - 1;
    while i >= 0
      invariant -1 <= i < months
      invariant |trends| == months - 1 - i
      invariant forall k :: 0 <= k < |trends| ==> trends[k] == at(months - 1 - k)
    {
      trends := trends + [at(i)];
      i := i - 1;
    }
  }

  /** The points run from the oldest month to the current one. */
  lemma TrendsRunOldestFirst(members: seq<Member>, months: nat, monthBounds: nat -> (int, int),
                             trends: seq<TrendPoint>)
    requires |trends| == months
    requires forall k :: 0 <= k < months ==> trends[k] == TrendAt(members, monthBounds, months - 1 - k)
    ensures forall k, l :: 0 <= k < l < months ==> trends[k].monthsAgo > trends[l].monthsAgo
    ensures months > 0 ==> trends[months - 1].monthsAgo == 0
  {
  }

  /** When earlier months end no later, the running member total never falls along the trend. */
  lemma TrendTotalsNeverFall(members: seq<Member>, months: nat, monthBounds: nat -> (int, int),
                             trends: seq<TrendPoint>)
    requires forall i: nat, j: nat :: i < j ==> monthBounds(j).1 <= monthBounds(i).1
    requires |trends| == months
    requires forall k :: 0 <= k < months ==> trends[k] == TrendAt(members, monthBounds, months - 1 - k)
    ensures forall k, l :: 0 <= k < l < months ==> trends[k].totalMembers <= trends[l].totalMembers
  {
    forall k, l | 0 <= k < l < months ensures trends[k].totalMembers <= trends[l].totalMembers {
      var older: nat := months - 1 - k;
      var newer: nat := months - 1 - l;
      assert monthBounds(older).1 <= monthBounds(newer).1;
      CountMonotone(members, CreatedBy(monthBounds(older).1), CreatedBy(monthBounds(newer).1));
    }
  }

  // ---------------------------------------------------------------------
  // Campaign performance

  /** A campaign ACTIVE and overlapping the window: started by its end, not ended before its start. */
  predicate RunsDuring(startDate: int, endDate: int, c: Campaign) {
    c.status == "ACTIVE" && c.startDate <= endDate && (c.endDate.None? || c.endDate.value >= startDate)
  }

  /**
   * What `acc.<key> += m.<key> || 0` adds for a log whose metrics are an
   * object: a number adds itself, `true` adds 1, and a missing member,
   * `null` or `false` adds 0. A log without object metrics contributes
   * nothing. (A text, array or object member would turn the sum into text;
   * it counts 0 here.)
   */
  function MetricValue(key: string, l: CampaignLog): int {
    if l.metrics.Some? && l.metrics.value.JObj? then
      match Lookup(l.metrics.value.fields, key)
      case Some(JNum(n)) => n
      case Some(JBool(b)) => if b then 1 else 0
      case _ => 0
    else 0
  }

  /** A member that is a number, a boolean or `null` adds what JavaScript's `+` gives it. */
  lemma MetricMemberCounts(l: CampaignLog, key: string, v: Json)
    requires l.metrics.Some? && l.metrics.value.JObj?
    requires Lookup(l.metrics.value.fields, key) == Some(v)
    requires v.JNum? || v.JBool? || v.JNull?
    ensures v.JNum? ==> MetricValue(key, l) == v.n
    ensures v == JBool(true) ==> MetricValue(key, l) == 1
    ensures v == JBool(false) || v == JNull ==> MetricValue(key, l) == 0
  {
  }

  function Reach(l: CampaignLog): int { MetricValue("reach", l) }
  function Engagement(l: CampaignLog): int { MetricValue("engagement", l) }
  function Conversions(l: CampaignLog): int { MetricValue("conversions", l) }

  /** The campaign's logs dated in the window. */
  function LogsDuring(logs: seq<CampaignLog>, campaignId: string, startDate: int, endDate: int): seq<CampaignLog> {
    Filter(logs, (l: CampaignLog) => l.campaignId == campaignId && startDate <= l.logDate <= endDate)
  }

  datatype Performance = Performance(name: string, reach: int, engagement: int, conversions: int)

  /** The `reduce` over a campaign's logs, accumulating the three metrics. */
  method SumMetrics(logs: seq<CampaignLog>) returns (reach: int, engagement: int, conversions: int)
    ensures reach == Sum(logs, Reach) && engagement == Sum(logs, Engagement) && conversions == Sum(logs, Conversions)
  {
    reach, engagement, conversions := 0, 0, 0;
    var i := 0;
    while i < |logs|
      invariant 0 <= i <= |logs|
      invariant reach == Sum(logs[..i], Reach)
      invariant engagement == Sum(logs[..i], Engagement)
      invariant conversions == Sum(logs[..i], Conversions)
    {
      var l := logs[i];
      assert logs[..i + 1] == logs[..i] + [l];
      SumAppend(logs[..i], [l], Reach);
      SumAppend(logs[..i], [l], Engagement);
      SumAppend(logs[..i], [l], Conversions);
      if l.metrics.Some? && l.metrics.value.JObj? {
        reach := reach + Reach(l);
        engagement := engagement + Engagement(l);
        conversions := conversions + Conversions(l);
      }
      i := i + 1;
    }
    assert logs[..|logs|] == logs;
  }

  /** A log whose metrics are missing or not an object adds nothing to any total. */
  lemma NonObjectMetricsAreSkipped(logs: seq<CampaignLog>, l: CampaignLog)
    requires l.metrics.None? || !l.metrics.value.JObj?
    ensures Sum(logs + [l], Reach) == Sum(logs, Reach)
    ensures Sum(logs + [l], Engagement) == Sum(logs, Engagement)
    ensures Sum(logs + [l], Conversions) == Sum(logs, Conversions)
  {
    SumAppend(logs, [l], Reach);
    SumAppend(logs, [l], Engagement);
    SumAppend(logs, [l], Conversions);
  }

  /** A metric field a log's object leaves out counts as 0. */
  lemma MissingMetricCountsZero(l: CampaignLog, key: string)
    requires l.metrics.Some? && l.metrics.value.JObj?
    requires forall i :: 0 <= i < |l.metrics.value.fields| ==> l.metrics.value.fields[i].0 != key
    ensures MetricValue(key, l) == 0
  {
  }

  /** A number field counts with its value; the last duplicate key wins, as in JSON parsing. */
  lemma NumericMetricCounts(l: CampaignLog, key: string, n: int)
    requires l.metrics == Some(JObj([("other", JNum(1)), (key, JNum(n))]))
    ensures MetricValue(key, l) == n
  {
  }

  /** One campaign's report line. */
  function PerformanceOf(c: Campaign, logs: seq<CampaignLog>, startDate: int, endDate: int): Performance {
    var own := LogsDuring(logs, c.id, startDate, endDate);
    Performance(c.name, Sum(own, Reach), Sum(own, Engagement), Sum(own, Conversions))
  }

  function RunningCampaigns(campaigns: seq<Campaign>, startDate: int, endDate: int): seq<Campaign> {
    Filter(campaigns, (c: Campaign) => RunsDuring(startDate, endDate, c))
  }

  /** `campaigns.map(...)`: one report line per running campaign, in table order. */
  method BuildPerformance(campaigns: seq<Campaign>, logs: seq<CampaignLog>, startDate: int, endDate: int)
    returns (perf: seq<Performance>)
    ensures var running := RunningCampaigns(campaigns, startDate, endDate);
            |perf| == |running| &&
            forall k :: 0 <= k < |perf| ==> perf[k] == PerformanceOf(running[k], logs, startDate, endDate)
  {
    var running := RunningCampaigns(campaigns, startDate, endDate);
    perf := [];
    var k := 0;
    while k < |running|
      invariant 0 <= k <= |running|
      invariant |perf| == k
      invariant forall j :: 0 <= j < k ==> perf[j] == PerformanceOf(running[j], logs, startDate, endDate)
    {
      var c := running[k];
      var reach, engagement, conversions := SumMetrics(LogsDuring(logs, c.id, startDate, endDate));
      perf := perf + [Performance(c.name, reach, engagement, conversions)];
      k := k + 1;
    }
  }

  // ---------------------------------------------------------------------
  // The handler

  datatype Analytics = Analytics(
    memberStats: MemberStats, revenueStats: RevenueStats, membershipTrends: seq<TrendPoint>,
    revenueBreakdown: seq<BreakdownEntry>, campaignPerformance: seq<Performance>)

  /**
   * GET: 401 unless the server session holds `analytics:read` (no
   * `SKIP_AUTH` mock here); otherwise the report for the requested range.
   * `addMonths` and `monthBounds` stand for the calendar arithmetic.
   */
  method GetAnalytics(db: Database, serverSession: Option<SessionInfo>, rangeParam: Option<string>, now: int,
                      addMonths: (int, int) -> int, monthBounds: nat -> (int, int))
    returns (r: Response<Analytics>)
    ensures r.Ok? || r.Unauthorized?
    ensures r.Unauthorized? <==> !Allowed(serverSession, "analytics:read")
    ensures r.Ok? ==>
      var range := RangeOf(rangeParam);
      var startDate := RangeStart(range, now, addMonths);
      r.body.memberStats == MemberStatsOf(db.members, startDate, now) &&
      r.body.revenueStats == RevenueStatsOf(db.companyTransactions, startDate, now) &&
      |r.body.membershipTrends| == TrendMonths(range) &&
      (forall k :: 0 <= k < |r.body.membershipTrends| ==>
         r.body.membershipTrends[k] == TrendAt(db.members, monthBounds, TrendMonths(range) - 1 - k)) &&
      r.body.revenueBreakdown == RevenueBreakdown(db.companyTransactions, startDate, now) &&
      |r.body.campaignPerformance| == |RunningCampaigns(db.campaigns, startDate, now)| &&
      (forall k :: 0 <= k < |r.body.campaignPerformance| ==>
         r.body.campaignPerformance[k] ==
           PerformanceOf(RunningCampaigns(db.campaigns, startDate, now)[k], db.campaignLogs, startDate, now))
  {
    if !Allowed(serverSession, "analytics:read") {
      return Unauthorized;
    }
    var range := RangeOf(rangeParam);
    var startDate, endDate := Utils.GetDateRange(range, now, addMonths);
    assert startDate == RangeStart(range, now, addMonths) && endDate == now;
    var memberStats := MemberStatsOf(db.members, startDate, endDate);
    var revenueStats := RevenueStatsOf(db.companyTransactions, startDate, endDate);
    var trends := BuildTrends(db.members, TrendMonths(range), monthBounds);
    var breakdown := RevenueBreakdown(db.companyTransactions, startDate, endDate);
    var perf := BuildPerformance(db.campaigns, db.campaignLogs, startDate, endDate);
    r := Ok(Analytics(memberStats, revenueStats, trends, breakdown, perf));
  }

  /** With no previous-period joins or income, both growth figures are 0 rather than a division by zero. */
  lemma GrowthIsZeroWithoutPreviousPeriod(members: seq<Member>, txs: seq<CompanyTransaction>, startDate: int, endDate: int)
    requires Count(members, CreatedFromUntil(PreviousPeriodStart(startDate, endDate), startDate)) == 0
    requires Sum(Filter(txs, CompletedFromUntil("INCOME", PreviousPeriodStart(startDate, endDate), startDate)),
                 CompanyAmount) == 0
    ensures MemberStatsOf(members, startDate, endDate).growth == Zero
    ensures RevenueStatsOf(txs, startDate, endDate).revenueGrowth == Zero
  {
  }

  /** A member created exactly at the range start counts in the range and not in the previous period. */
  lemma StartBelongsToCurrentPeriod(m: Member, startDate: int, endDate: int)
    requires m.createdAt == startDate && startDate <= endDate
    ensures CreatedWithin(startDate, endDate)(m)
    ensures !CreatedFromUntil(PreviousPeriodStart(startDate, endDate), startDate)(m)
  {
  }

  /** Pending or cancelled income never counts toward revenue. */
  lemma OnlyCompletedIncomeCounts(t: CompanyTransaction, startDate: int, endDate: int)
    requires t.status != "COMPLETED" || t.kind != "INCOME"
    ensures t !in WindowIncome([t], startDate, endDate)
  {
  }
}
