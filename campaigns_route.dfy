/**
 * `/api/campaigns` (src/app/api/campaigns/route.ts): list marketing
 * campaigns, and create one, followed by its audit row.
 */
module CampaignsRoute {
  import opened Wrappers
  import opened JsonValue
  import opened Seqs
  import opened Db

  /** The JSON body of a create request; only these fields reach the row. */
  datatype CampaignBody = CampaignBody(
    name: Option<string>, description: Option<string>, kind: Option<string>, status: Option<string>,
    budget: Option<int>, startDate: Option<string>, endDate: Option<string>,
    targetAudience: Option<string>, goals: Option<string>)

  /** GET: every campaign, newest first. */
  function GetCampaigns(db: Database, skipAuth: bool, serverSession: Option<SessionInfo>)
    : (r: Response<seq<Campaign>>)
    reads db
    ensures r.Ok? || r.Unauthorized?
    ensures r.Unauthorized? <==> !Allowed(ResolveSession(skipAuth, serverSession), "campaigns:read")
    ensures r.Ok? ==> SortedDesc(r.body, CampaignCreatedAt)
    ensures r.Ok? ==> multiset(r.body) == multiset(db.campaigns)
  {
    if !Allowed(ResolveSession(skipAuth, serverSession), "campaigns:read") then Unauthorized
    else Ok(SortDesc(db.campaigns, CampaignCreatedAt))
  }

  /** `body.endDate ? new Date(body.endDate) : null`: None for a missing or empty end date, else its parse. */
  function EndDate(ctx: WriteContext, body: CampaignBody): (r: Option<Option<int>>)
    ensures (body.endDate.None? || body.endDate == Some("")) ==> r == Some(None)
    ensures body.endDate.Some? && body.endDate.value != "" ==>
              (r.None? <==> ParseDate(ctx, body.endDate).None?) &&
              (r.Some? ==> r.value == ParseDate(ctx, body.endDate))
  {
    if body.endDate.None? || body.endDate.value == "" then Some(None)
    else
      var d := ParseDate(ctx, body.endDate);
      if d.None? then None else Some(d)
  }

  /**
   * The row `create` stores, or None when the name or type is missing or a
   * date is invalid. A missing status takes the column default `DRAFT`.
   */
  function NewCampaign(ctx: WriteContext, session: SessionInfo, body: CampaignBody): (r: Option<Campaign>)
    ensures r.Some? <==> body.name.Some? && body.kind.Some? && ParseDate(ctx, body.startDate).Some? &&
                         EndDate(ctx, body).Some?
    ensures r.Some? ==> r.value.id == ctx.rowId && r.value.createdById == session.id &&
                        r.value.name == body.name.value && r.value.kind == body.kind.value &&
                        r.value.status == body.status.GetOr(DefaultCampaignStatus) &&
                        r.value.startDate == ParseDate(ctx, body.startDate).value &&
                        r.value.endDate == EndDate(ctx, body).value && r.value.budget == body.budget
    ensures r.Some? ==> r.value.description == body.description && r.value.targetAudience == body.targetAudience &&
                        r.value.goals == body.goals && r.value.createdAt == ctx.now
  {
    var start := ParseDate(ctx, body.startDate);
    var end := EndDate(ctx, body);
    if body.name.None? || body.kind.None? || start.None? || end.None? then None
    else Some(Campaign(ctx.rowId, body.name.value, body.description, body.kind.value,
                       body.status.GetOr(DefaultCampaignStatus), body.budget, start.value, end.value,
                       body.targetAudience, body.goals, session.id, ctx.now))
  }

  function CampaignDetails(c: Campaign): Json {
    JObj([("name", JStr(c.name)), ("type", JStr(c.kind)), ("status", JStr(c.status))])
  }

  /** POST: create a campaign, then append one `CREATE_CAMPAIGN` audit row. */
  method PostCampaign(db: Database, ctx: WriteContext, body: Option<CampaignBody>)
    returns (resp: Response<Campaign>)
    requires db.Valid()
    modifies db
    ensures db.Valid()
    ensures db.members == old(db.members) && db.memberTransactions == old(db.memberTransactions)
    ensures db.absences == old(db.absences) && db.companyTransactions == old(db.companyTransactions)
    ensures db.campaignLogs == old(db.campaignLogs)
    ensures var session := ResolveSession(ctx.skipAuth, ctx.serverSession);
      !Allowed(session, "campaigns:write") ==> resp == Unauthorized && unchanged(db)
    ensures var session := ResolveSession(ctx.skipAuth, ctx.serverSession);
      Allowed(session, "campaigns:write") && body.Some? ==>
      var c := NewCampaign(ctx, session.value, body.value);
      if !ctx.rowWriteOk || c.None? || c.value.id in old(CampaignIds(db.campaigns)) then
        resp == ServerError && unchanged(db)
      else if !ctx.logWriteOk then
        resp == ServerError && db.campaigns == old(db.campaigns) + [c.value] && db.activityLogs == old(db.activityLogs)
      else
        resp == Ok(c.value) && db.campaigns == old(db.campaigns) + [c.value] &&
        db.activityLogs == old(db.activityLogs) +
          [AuditRow(ctx, session.value, "CREATE_CAMPAIGN", "Campaign", c.value.id, CampaignDetails(c.value))]
    ensures body.None? ==> !resp.Ok? && unchanged(db)
  {
    var session := ResolveSession(ctx.skipAuth, ctx.serverSession);
    if !Allowed(session, "campaigns:write") {
      return Unauthorized;
    }
    if body.None? {
      return ServerError;
    }
    var row := NewCampaign(ctx, session.value, body.value);
    if !ctx.rowWriteOk || row.None? || row.value.id in CampaignIds(db.campaigns) {
      return ServerError;
    }
    var c := row.value;
    AddCampaignKeepsValid(db.members, db.memberTransactions, db.absences, db.campaigns, db.campaignLogs, c);
    db.campaigns := db.campaigns + [c];
    if !ctx.logWriteOk {
      return ServerError;
    }
    db.activityLogs := db.activityLogs +
      [AuditRow(ctx, session.value, "CREATE_CAMPAIGN", "Campaign", c.id, CampaignDetails(c))];
    resp := Ok(c);
  }
}
