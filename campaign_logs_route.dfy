/**
 * `/api/campaign-logs` (src/app/api/campaign-logs/route.ts): list
 * marketing activity logs, and record one for a campaign, followed by its
 * audit row.
 */
module CampaignLogsRoute {
  import opened Wrappers
  import opened JsonValue
  import opened Seqs
  import opened Db

  /** The JSON body of a create request; only these fields reach the row. */
  datatype CampaignLogBody = CampaignLogBody(
    campaignId: Option<string>, activity: Option<string>, description: Option<string>,
    metrics: Option<Json>, logDate: Option<string>)

  /** GET: every campaign log, latest log date first. */
  function GetCampaignLogs(db: Database, skipAuth: bool, serverSession: Option<SessionInfo>)
    : (r: Response<seq<CampaignLog>>)
    reads db
    ensures r.Ok? || r.Unauthorized?
    ensures r.Unauthorized? <==> !Allowed(ResolveSession(skipAuth, serverSession), "campaign_logs:read")
    ensures r.Ok? ==> SortedDesc(r.body, CampaignLogDate)
    ensures r.Ok? ==> multiset(r.body) == multiset(db.campaignLogs)
  {
    if !Allowed(ResolveSession(skipAuth, serverSession), "campaign_logs:read") then Unauthorized
    else Ok(SortDesc(db.campaignLogs, CampaignLogDate))
  }

  /**
   * The row `create` stores, or None when the campaign or activity is
   * missing or the log date is invalid. `metrics` is stored as given.
   */
  function NewCampaignLog(ctx: WriteContext, session: SessionInfo, body: CampaignLogBody): (r: Option<CampaignLog>)
    ensures r.Some? <==> body.campaignId.Some? && body.activity.Some? && ParseDate(ctx, body.logDate).Some?
    ensures r.Some? ==> r.value.id == ctx.rowId && r.value.createdById == session.id &&
                        r.value.campaignId == body.campaignId.value && r.value.activity == body.activity.value &&
                        r.value.metrics == body.metrics && r.value.description == body.description &&
                        r.value.logDate == ParseDate(ctx, body.logDate).value
  {
    var date := ParseDate(ctx, body.logDate);
    if body.campaignId.None? || body.activity.None? || date.None? then None
    else Some(CampaignLog(ctx.rowId, body.campaignId.value, body.activity.value, body.description,
                          body.metrics, date.value, session.id))
  }

  function CampaignLogDetails(l: CampaignLog): Json {
    JObj([("campaignId", JStr(l.campaignId)), ("activity", JStr(l.activity))])
  }

  /** POST: record a campaign log, then append one `CREATE_MK_LOG` audit row. */
  method PostCampaignLog(db: Database, ctx: WriteContext, body: Option<CampaignLogBody>)
    returns (resp: Response<CampaignLog>)
    requires db.Valid()
    modifies db
    ensures db.Valid()
    ensures db.members == old(db.members) && db.memberTransactions == old(db.memberTransactions)
    ensures db.absences == old(db.absences) && db.companyTransactions == old(db.companyTransactions)
    ensures db.campaigns == old(db.campaigns)
    ensures var session := ResolveSession(ctx.skipAuth, ctx.serverSession);
      !Allowed(session, "campaign_logs:write") ==> resp == Unauthorized && unchanged(db)
    ensures var session := ResolveSession(ctx.skipAuth, ctx.serverSession);
      Allowed(session, "campaign_logs:write") && body.Some? ==>
      var l := NewCampaignLog(ctx, session.value, body.value);
      if !ctx.rowWriteOk || l.None? || l.value.campaignId !in old(CampaignIds(db.campaigns)) then
        resp == ServerError && unchanged(db)
      else if !ctx.logWriteOk then
        resp == ServerError && db.campaignLogs == old(db.campaignLogs) + [l.value] &&
        db.activityLogs == old(db.activityLogs)
      else
        resp == Ok(l.value) && db.campaignLogs == old(db.campaignLogs) + [l.value] &&
        db.activityLogs == old(db.activityLogs) +
          [AuditRow(ctx, session.value, "CREATE_MK_LOG", "CampaignLog", l.value.id, CampaignLogDetails(l.value))]
    ensures body.None? ==> !resp.Ok? && unchanged(db)
  {
    var session := ResolveSession(ctx.skipAuth, ctx.serverSession);
    if !Allowed(session, "campaign_logs:write") {
      return Unauthorized;
    }
    if body.None? {
      return ServerError;
    }
    var row := NewCampaignLog(ctx, session.value, body.value);
    if !ctx.rowWriteOk || row.None? || row.value.campaignId !in CampaignIds(db.campaigns) {
      return ServerError;
    }
    var l := row.value;
    AddCampaignLogKeepsValid(db.members, db.memberTransactions, db.absences, db.campaigns, db.campaignLogs, l);
    db.campaignLogs := db.campaignLogs + [l];
    if !ctx.logWriteOk {
      return ServerError;
    }
    db.activityLogs := db.activityLogs +
      [AuditRow(ctx, session.value, "CREATE_MK_LOG", "CampaignLog", l.id, CampaignLogDetails(l))];
    resp := Ok(l);
  }
}
