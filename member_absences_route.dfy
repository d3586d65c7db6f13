/**
 * `/api/member-absences` (src/app/api/member-absences/route.ts): list
 * absences with the member each belongs to, and record one, followed by its
 * audit row.
 */
module MemberAbsencesRoute {
  import opened Wrappers
  import opened JsonValue
  import opened Seqs
  import opened Db

  /** The JSON body of a create request; only these four fields reach the row. */
  datatype AbsenceBody = AbsenceBody(
    memberId: Option<string>, date: Option<string>, kind: Option<string>, reason: Option<string>)

  /** `member: { select: { id, memberCode, name, email } }`. */
  datatype MemberSummary = MemberSummary(id: string, memberCode: string, name: Option<string>, email: Option<string>)

  /** An absence as the handlers return it, with its member included. */
  datatype AbsenceWithMember = AbsenceWithMember(absence: MemberAbsence, member: Option<MemberSummary>)

  function ViewDate(v: AbsenceWithMember): int { v.absence.date }

  /** The projection of the member with the given id, if there is one. */
  function Summary(ms: seq<Member>, id: string): (r: Option<MemberSummary>)
    ensures r.Some? <==> id in MemberIds(ms)
    ensures r.Some? ==> r.value.id == id &&
                        exists i :: 0 <= i < |ms| && ms[i].id == id && r.value.memberCode == ms[i].memberCode &&
                                    r.value.name == ms[i].name && r.value.email == ms[i].email
  {
    if |ms| == 0 then None
    else if ms[0].id == id then Some(MemberSummary(id, ms[0].memberCode, ms[0].name, ms[0].email))
    else
      var r := Summary(ms[1..], id);
      assert MemberIds(ms) == {ms[0].id} + MemberIds(ms[1..]) by {
        forall x | x in MemberIds(ms) ensures x in {ms[0].id} + MemberIds(ms[1..]) {
          var i :| 0 <= i < |ms| && ms[i].id == x;
          if i > 0 { assert ms[1..][i-1].id == x; }
        }
        forall x | x in MemberIds(ms[1..]) ensures x in MemberIds(ms) {
          var i :| 0 <= i < |ms[1..]| && ms[1..][i].id == x;
          assert ms[i+1].id == x;
        }
      }
      if r.Some? then
        var i :| 0 <= i < |ms[1..]| && ms[1..][i].id == id && r.value.memberCode == ms[1..][i].memberCode &&
                 r.value.name == ms[1..][i].name && r.value.email == ms[1..][i].email;
        assert ms[i+1] == ms[1..][i];
        r
      else r
  }

  /** Every absence paired with its member, in table order. */
  function JoinMembers(ms: seq<Member>, absences: seq<MemberAbsence>): (r: seq<AbsenceWithMember>)
    ensures |r| == |absences|
    ensures forall i :: 0 <= i < |r| ==> r[i] == AbsenceWithMember(absences[i], Summary(ms, absences[i].memberId))
  {
    seq(|absences|, i requires 0 <= i < |absences| => AbsenceWithMember(absences[i], Summary(ms, absences[i].memberId)))
  }

  /** GET: every absence with its member, latest date first. */
  function GetAbsences(db: Database, skipAuth: bool, serverSession: Option<SessionInfo>)
    : (r: Response<seq<AbsenceWithMember>>)
    reads db
    ensures r.Ok? || r.Unauthorized?
    ensures r.Unauthorized? <==> !Allowed(ResolveSession(skipAuth, serverSession), "member_absences:read")
    ensures r.Ok? ==> SortedDesc(r.body, ViewDate)
    ensures r.Ok? ==> multiset(r.body) == multiset(JoinMembers(db.members, db.absences))
  {
    if !Allowed(ResolveSession(skipAuth, serverSession), "member_absences:read") then Unauthorized
    else Ok(SortDesc(JoinMembers(db.members, db.absences), ViewDate))
  }

  /** In a valid database every listed absence carries the member it points at. */
  lemma ListedAbsencesCarryTheirMember(db: Database, skipAuth: bool, serverSession: Option<SessionInfo>,
                                       v: AbsenceWithMember)
    requires db.Valid()
    requires GetAbsences(db, skipAuth, serverSession).Ok?
    requires v in GetAbsences(db, skipAuth, serverSession).body
    ensures v.absence in db.absences
    ensures v.member.Some? && v.member.value.id == v.absence.memberId
  {
    var body := GetAbsences(db, skipAuth, serverSession).body;
    assert v in multiset(body);
    var joined := JoinMembers(db.members, db.absences);
    assert v in multiset(joined);
    var i :| 0 <= i < |joined| && joined[i] == v;
    assert db.absences[i] in db.absences;
  }

  /** The row `create` stores, or None when a required field is missing or the date is invalid. */
  function NewAbsence(ctx: WriteContext, body: AbsenceBody): (r: Option<MemberAbsence>)
    ensures r.Some? <==> body.memberId.Some? && body.kind.Some? && ParseDate(ctx, body.date).Some?
    ensures r.Some? ==> r.value.id == ctx.rowId && r.value.memberId == body.memberId.value &&
                        r.value.date == ParseDate(ctx, body.date).value &&
                        r.value.kind == body.kind.value && r.value.reason == body.reason
  {
    var date := ParseDate(ctx, body.date);
    if body.memberId.None? || body.kind.None? || date.None? then None
    else Some(MemberAbsence(ctx.rowId, body.memberId.value, date.value, body.kind.value, body.reason))
  }

  function AbsenceDetails(a: MemberAbsence): Json {
    JObj([("memberId", JStr(a.memberId)), ("date", JDate(a.date)), ("type", JStr(a.kind))])
  }

  /**
   * POST: record an absence, then append its audit row, which reuses the
   * `CREATE_MEMBER` action. The response includes the member.
   */
  method PostAbsence(db: Database, ctx: WriteContext, body: Option<AbsenceBody>)
    returns (resp: Response<AbsenceWithMember>)
    requires db.Valid()
    modifies db
    ensures db.Valid()
    ensures db.members == old(db.members) && db.memberTransactions == old(db.memberTransactions)
    ensures db.companyTransactions == old(db.companyTransactions) && db.campaigns == old(db.campaigns)
    ensures db.campaignLogs == old(db.campaignLogs)
    ensures var session := ResolveSession(ctx.skipAuth, ctx.serverSession);
      !Allowed(session, "member_absences:write") ==> resp == Unauthorized && unchanged(db)
    ensures var session := ResolveSession(ctx.skipAuth, ctx.serverSession);
      Allowed(session, "member_absences:write") && body.Some? ==>
      var a := NewAbsence(ctx, body.value);
      if !ctx.rowWriteOk || a.None? || a.value.memberId !in old(MemberIds(db.members)) then
        resp == ServerError && unchanged(db)
      else if !ctx.logWriteOk then
        resp == ServerError && db.absences == old(db.absences) + [a.value] && db.activityLogs == old(db.activityLogs)
      else
        resp == Ok(AbsenceWithMember(a.value, Summary(db.members, a.value.memberId))) &&
        resp.body.member.Some? &&
        db.absences == old(db.absences) + [a.value] &&
        db.activityLogs == old(db.activityLogs) +
          [AuditRow(ctx, session.value, "CREATE_MEMBER", "MemberAbsence", a.value.id, AbsenceDetails(a.value))]
    ensures body.None? ==> !resp.Ok? && unchanged(db)
  {
    var session := ResolveSession(ctx.skipAuth, ctx.serverSession);
    if !Allowed(session, "member_absences:write") {
      return Unauthorized;
    }
    if body.None? {
      return ServerError;
    }
    var row := NewAbsence(ctx, body.value);
    if !ctx.rowWriteOk || row.None? || row.value.memberId !in MemberIds(db.members) {
      return ServerError;
    }
    var a := row.value;
    AddAbsenceKeepsValid(db.members, db.memberTransactions, db.absences, db.campaigns, db.campaignLogs, a);
    db.absences := db.absences + [a];
    if !ctx.logWriteOk {
      return ServerError;
    }
    db.activityLogs := db.activityLogs +
      [AuditRow(ctx, session.value, "CREATE_MEMBER", "MemberAbsence", a.id, AbsenceDetails(a))];
    resp := Ok(AbsenceWithMember(a, Summary(db.members, a.memberId)));
  }
}
