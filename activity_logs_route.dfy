/**
 * `/api/activity-logs` (src/app/api/activity-logs/route.ts): the audit
 * trail for the owner, optionally narrowed to one user and one action,
 * newest first and capped at 500 rows.
 */
module ActivityLogsRoute {
  import opened Wrappers
  import opened Seqs
  import opened Db

  const MaxLogs := 500

  /** The `where` object: each field is set only when its filter applies. */
  datatype Where = Where(userId: Option<string>, action: Option<string>)

  /** `param && param !== 'all'`: a query parameter narrows the query when present, non-empty and not "all". */
  predicate Applies(param: Option<string>) {
    param.Some? && param.value != "" && param.value != "all"
  }

  /** The rows the two query parameters select: each applied filter must hold. */
  predicate Selected(l: ActivityLog, userId: Option<string>, action: Option<string>) {
    (Applies(userId) ==> l.userId == userId.value) && (Applies(action) ==> l.action == action.value)
  }

  function Selection(userId: Option<string>, action: Option<string>): ActivityLog -> bool {
    (l: ActivityLog) => Selected(l, userId, action)
  }

  /** A row matches a `where` object when it agrees with every field set in it. */
  function Matches(w: Where): ActivityLog -> bool {
    (l: ActivityLog) => (w.userId.None? || l.userId == w.userId.value) && (w.action.None? || l.action == w.action.value)
  }

  /**
   * GET: 401 unless the server session holds `activity_logs:read` (there is
   * no `SKIP_AUTH` mock here); otherwise at most 500 selected rows, newest
   * first, and no selected row left out is newer than one returned.
   */
  method GetActivityLogs(db: Database, serverSession: Option<SessionInfo>,
                         userId: Option<string>, action: Option<string>)
    returns (r: Response<seq<ActivityLog>>)
    ensures r.Ok? || r.Unauthorized?
    ensures r.Unauthorized? <==> !Allowed(serverSession, "activity_logs:read")
    ensures r.Ok? ==>
      var selected := Filter(db.activityLogs, Selection(userId, action));
      |r.body| == (if |selected| < MaxLogs then |selected| else MaxLogs) &&
      SortedDesc(r.body, LogTimestamp) &&
      multiset(r.body) <= multiset(selected) &&
      (forall x | x in multiset(selected) - multiset(r.body) ::
         forall k :: 0 <= k < |r.body| ==> r.body[k].timestamp >= x.timestamp)
  {
    if !Allowed(serverSession, "activity_logs:read") {
      return Unauthorized;
    }
    var where := Where(None, None);
    if Applies(userId) {
      where := where.(userId := userId);
    }
    if Applies(action) {
      where := where.(action := action);
    }
    assert forall l :: Matches(where)(l) == Selection(userId, action)(l);
    FilterSamePredicate(db.activityLogs, Matches(where), Selection(userId, action));
    var selected := Filter(db.activityLogs, Matches(where));
    NewestKept(selected);
    r := Ok(Take(SortDesc(selected, LogTimestamp), MaxLogs));
  }

  /** The newest `MaxLogs` of the selected rows, newest first. */
  lemma NewestKept(selected: seq<ActivityLog>)
    ensures var body := Take(SortDesc(selected, LogTimestamp), MaxLogs);
      |body| == (if |selected| < MaxLogs then |selected| else MaxLogs) &&
      SortedDesc(body, LogTimestamp) &&
      multiset(body) <= multiset(selected) &&
      (forall x | x in multiset(selected) - multiset(body) ::
         forall k :: 0 <= k < |body| ==> body[k].timestamp >= x.timestamp)
  {
    var sorted := SortDesc(selected, LogTimestamp);
    assert |sorted| == |selected| by {
      assert |multiset(sorted)| == |multiset(selected)|;
    }
    TakeOfSortedKeepsLargest(sorted, LogTimestamp, MaxLogs);
  }

  /** The filters combine conjunctively: a returned row satisfies every filter that applies. */
  lemma ReturnedRowsMatchBothFilters(db: Database, serverSession: Option<SessionInfo>,
                                     userId: Option<string>, action: Option<string>,
                                     body: seq<ActivityLog>, l: ActivityLog)
    requires multiset(body) <= multiset(Filter(db.activityLogs, Selection(userId, action)))
    requires l in body
    ensures l in db.activityLogs
    ensures Applies(userId) ==> l.userId == userId.value
    ensures Applies(action) ==> l.action == action.value
  {
    assert l in multiset(body);
    assert l in multiset(Filter(db.activityLogs, Selection(userId, action)));
  }

  /** With both parameters at "all" (or absent) every row is selected. */
  lemma AllSelectsEverything(db: Database, userId: Option<string>, action: Option<string>)
    requires userId.None? || userId == Some("all")
    requires action.None? || action == Some("all")
    ensures Filter(db.activityLogs, Selection(userId, action)) == db.activityLogs
  {
    FilterSamePredicate(db.activityLogs, Selection(userId, action), (_: ActivityLog) => true);
    FilterAll(db.activityLogs);
  }

  lemma {:induction false} FilterAll(s: seq<ActivityLog>)
    ensures Filter(s, (_: ActivityLog) => true) == s
  {
    if s != [] {
      FilterAll(s[1..]);
      assert s == [s[0]] + s[1..];
    }
  }
}
