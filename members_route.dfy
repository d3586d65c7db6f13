/**
 * `/api/members` (src/app/api/members/route.ts): list members, and create
 * one with a generated member code, followed by its audit row.
 */
module MembersRoute {
  import opened Wrappers
  import opened JsonValue
  import opened Seqs
  import opened JsText
  import opened Db
  import Utils

  /** The JSON body of a create request, as far as the member row takes it (`...body`). */
  datatype MemberBody = MemberBody(
    name: Option<string>, email: Option<string>, phone: Option<string>, address: Option<string>,
    birthDate: Option<string>, isActive: Option<bool>,
    memberCode: Option<string>, createdById: Option<string>)

  /** GET: every member, or only the active ones for `?active=true`, newest first. */
  function GetMembers(db: Database, skipAuth: bool, serverSession: Option<SessionInfo>,
                      active: Option<string>): (r: Response<seq<Member>>)
    reads db
    ensures r.Ok? || r.Unauthorized?
    ensures r.Unauthorized? <==> !Allowed(ResolveSession(skipAuth, serverSession), "members:read")
    ensures r.Ok? ==> SortedDesc(r.body, MemberCreatedAt)
    ensures r.Ok? && active == Some("true") ==> multiset(r.body) == multiset(Filter(db.members, MemberIsActive))
    ensures r.Ok? && active != Some("true") ==> multiset(r.body) == multiset(db.members)
  {
    if !Allowed(ResolveSession(skipAuth, serverSession), "members:read") then Unauthorized
    else if active == Some("true") then Ok(SortDesc(Filter(db.members, MemberIsActive), MemberCreatedAt))
    else Ok(SortDesc(db.members, MemberCreatedAt))
  }

  /** `?active=true` returns active members only. */
  lemma ActiveFilterKeepsOnlyActive(db: Database, skipAuth: bool, serverSession: Option<SessionInfo>, m: Member)
    requires GetMembers(db, skipAuth, serverSession, Some("true")).Ok?
    ensures m in GetMembers(db, skipAuth, serverSession, Some("true")).body <==> m in db.members && m.isActive
  {
    var body := GetMembers(db, skipAuth, serverSession, Some("true")).body;
    assert m in body <==> m in multiset(body);
  }

  function MemberCodesOf(ms: seq<Member>): (codes: seq<string>)
    ensures |codes| == |ms|
    ensures forall i :: 0 <= i < |ms| ==> codes[i] == ms[i].memberCode
  {
    seq(|ms|, i requires 0 <= i < |ms| => ms[i].memberCode)
  }

  /** The code `generateMemberCode` produces against the current table. */
  function NextMemberCode(ms: seq<Member>, year: nat): string {
    Utils.GenerateMemberCode(year, Utils.LastMemberCode(MemberCodesOf(ms), Utils.MemberCodePrefix(year)))
  }

  /** The birth date the row stores: converted only when the body has a non-empty one. */
  function BirthDate(ctx: WriteContext, body: MemberBody): (d: Option<int>)
    ensures d.Some? ==> body.birthDate.Some? && body.birthDate.value != "" && ctx.parseDate(body.birthDate.value) == d
    ensures body.birthDate.None? || body.birthDate == Some("") ==> d.None?
  {
    if body.birthDate.Some? && body.birthDate.value != "" then ParseDate(ctx, body.birthDate) else None
  }

  /** A non-empty birth date that does not parse makes the write fail. */
  predicate BirthDateInvalid(ctx: WriteContext, body: MemberBody) {
    body.birthDate.Some? && body.birthDate.value != "" && ParseDate(ctx, body.birthDate).None?
  }

  /** The row `prisma.member.create` stores: the body, with the generated code and the session user as creator. */
  function NewMember(ctx: WriteContext, session: SessionInfo, code: string, body: MemberBody): (m: Member)
    ensures m.memberCode == code && m.createdById == session.id && m.id == ctx.rowId
    ensures m.name == body.name && m.email == body.email && m.birthDate == BirthDate(ctx, body)
    ensures m.phone == body.phone && m.address == body.address
    ensures m.isActive == body.isActive.GetOr(DefaultMemberActive)
    ensures m.createdAt == ctx.now && m.updatedAt == ctx.now
  {
    Member(ctx.rowId, code, body.name, body.email, body.phone, body.address, BirthDate(ctx, body),
           body.isActive.GetOr(DefaultMemberActive), session.id, ctx.now, ctx.now)
  }

  function MemberDetails(m: Member): Json {
    JObj([("memberCode", JStr(m.memberCode)), ("name", OptStr(m.name))])
  }

  /** Whether the row write succeeds: storage available, valid date, new id and new code. */
  predicate MemberRowWritable(db: Database, ctx: WriteContext, m: Member, body: MemberBody)
    reads db
  {
    ctx.rowWriteOk && !BirthDateInvalid(ctx, body) &&
    m.id !in MemberIds(db.members) && m.memberCode !in MemberCodes(db.members)
  }

  /**
   * POST: create a member, then append one `CREATE_MEMBER` audit row.
   * 401 changes nothing; a failed row write changes nothing; a failed
   * audit write keeps the member and returns 500.
   */
  method PostMember(db: Database, ctx: WriteContext, year: nat, body: Option<MemberBody>)
    returns (resp: Response<Member>)
    requires db.Valid()
    modifies db
    ensures db.Valid()
    ensures db.memberTransactions == old(db.memberTransactions) && db.absences == old(db.absences)
    ensures db.companyTransactions == old(db.companyTransactions) && db.campaigns == old(db.campaigns)
    ensures db.campaignLogs == old(db.campaignLogs)
    ensures var session := ResolveSession(ctx.skipAuth, ctx.serverSession);
      !Allowed(session, "members:write") ==> resp == Unauthorized && unchanged(db)
    ensures var session := ResolveSession(ctx.skipAuth, ctx.serverSession);
      Allowed(session, "members:write") && body.Some? ==>
      var m := NewMember(ctx, session.value, NextMemberCode(old(db.members), year), body.value);
      if !old(MemberRowWritable(db, ctx, m, body.value)) then
        resp == ServerError && unchanged(db)
      else if !ctx.logWriteOk then
        resp == ServerError && db.members == old(db.members) + [m] && db.activityLogs == old(db.activityLogs)
      else
        resp == Ok(m) && db.members == old(db.members) + [m] &&
        db.activityLogs == old(db.activityLogs) +
          [AuditRow(ctx, session.value, "CREATE_MEMBER", "Member", m.id, MemberDetails(m))]
    ensures body.None? ==> resp.ServerError? || resp.Unauthorized?
    ensures body.None? ==> unchanged(db)
  {
    var session := ResolveSession(ctx.skipAuth, ctx.serverSession);
    if !Allowed(session, "members:write") {
      return Unauthorized;
    }
    if body.None? {
      return ServerError;
    }
    var code := NextMemberCode(db.members, year);
    var member := NewMember(ctx, session.value, code, body.value);
    if !MemberRowWritable(db, ctx, member, body.value) {
      return ServerError;
    }
    AddMemberKeepsValid(db.members, db.memberTransactions, db.absences, db.campaigns, db.campaignLogs, member);
    db.members := db.members + [member];
    if !ctx.logWriteOk {
      return ServerError;
    }
    db.activityLogs := db.activityLogs +
      [AuditRow(ctx, session.value, "CREATE_MEMBER", "Member", member.id, MemberDetails(member))];
    resp := Ok(member);
  }

  /**
   * While the year's codes are all generator-made and below 9999, the new
   * code never collides, so member creation does not fail on the code.
   */
  lemma NextCodeIsNew(ms: seq<Member>, year: nat)
    requires year >= 10
    requires Utils.WellFormedCodes(MemberCodesOf(ms), year, 9999)
    ensures NextMemberCode(ms, year) !in MemberCodes(ms)
  {
    var codes := MemberCodesOf(ms);
    var code := NextMemberCode(ms, year);
    var _ := Utils.GeneratedCodeIsFresh(codes, year, code);
  }
}
