/**
 * `/api/member-transactions` (src/app/api/member-transactions/route.ts):
 * list member payments, and record one with a generated transaction code,
 * followed by its audit row.
 */
module MemberTransactionsRoute {
  import opened Wrappers
  import opened JsonValue
  import opened Seqs
  import opened Db
  import Utils

  /** The JSON body of a create request (`...body`). */
  datatype TransactionBody = TransactionBody(
    memberId: Option<string>, amount: Option<int>, kind: Option<string>, status: Option<string>,
    description: Option<string>, dueDate: Option<string>,
    transactionCode: Option<string>, createdById: Option<string>)

  /** GET: every member transaction, newest first. */
  function GetMemberTransactions(db: Database, skipAuth: bool, serverSession: Option<SessionInfo>)
    : (r: Response<seq<MemberTransaction>>)
    reads db
    ensures r.Ok? || r.Unauthorized?
    ensures r.Unauthorized? <==> !Allowed(ResolveSession(skipAuth, serverSession), "member_transactions:read")
    ensures r.Ok? ==> SortedDesc(r.body, MemberTransactionCreatedAt)
    ensures r.Ok? ==> multiset(r.body) == multiset(db.memberTransactions)
  {
    if !Allowed(ResolveSession(skipAuth, serverSession), "member_transactions:read") then Unauthorized
    else Ok(SortDesc(db.memberTransactions, MemberTransactionCreatedAt))
  }

  /**
   * The row `create` stores, or None when a required field is missing or
   * the due date is not a date: the body, except that the generated code,
   * the parsed due date and the session user override it.
   */
  function NewTransaction(ctx: WriteContext, session: SessionInfo, code: string, body: TransactionBody)
    : (r: Option<MemberTransaction>)
    ensures r.Some? <==> body.memberId.Some? && body.amount.Some? && body.kind.Some? &&
                         ParseDate(ctx, body.dueDate).Some?
    ensures r.Some? ==> r.value.transactionCode == code && r.value.createdById == session.id &&
                        r.value.dueDate == ParseDate(ctx, body.dueDate).value &&
                        r.value.memberId == body.memberId.value && r.value.amount == body.amount.value &&
                        r.value.status == body.status.GetOr(DefaultMemberTransactionStatus)
    ensures r.Some? ==> r.value.kind == body.kind.value && r.value.description == body.description &&
                        r.value.id == ctx.rowId && r.value.createdAt == ctx.now
  {
    var due := ParseDate(ctx, body.dueDate);
    if body.memberId.None? || body.amount.None? || body.kind.None? || due.None? then None
    else Some(MemberTransaction(ctx.rowId, code, body.memberId.value, body.amount.value, body.kind.value,
                                body.status.GetOr(DefaultMemberTransactionStatus), body.description,
                                due.value, session.id, ctx.now))
  }

  function TransactionDetails(t: MemberTransaction): Json {
    JObj([("transactionCode", JStr(t.transactionCode)), ("amount", JNum(t.amount)), ("type", JStr(t.kind))])
  }

  /**
   * POST: record a payment, then append one `CREATE_TRANSACTION` audit row.
   * The row is written first: a failed audit write leaves it in place and
   * returns 500.
   */
  method PostMemberTransaction(db: Database, ctx: WriteContext, random: Utils.Digit3, body: Option<TransactionBody>)
    returns (resp: Response<MemberTransaction>)
    requires db.Valid()
    modifies db
    ensures db.Valid()
    ensures db.members == old(db.members) && db.absences == old(db.absences)
    ensures db.companyTransactions == old(db.companyTransactions) && db.campaigns == old(db.campaigns)
    ensures db.campaignLogs == old(db.campaignLogs)
    ensures var session := ResolveSession(ctx.skipAuth, ctx.serverSession);
      !Allowed(session, "member_transactions:write") ==> resp == Unauthorized && unchanged(db)
    ensures var session := ResolveSession(ctx.skipAuth, ctx.serverSession);
      Allowed(session, "member_transactions:write") && body.Some? ==>
      var t := NewTransaction(ctx, session.value, Utils.GenerateTransactionCode(ctx.now, random), body.value);
      if !ctx.rowWriteOk || t.None? || t.value.memberId !in old(MemberIds(db.members)) then
        resp == ServerError && unchanged(db)
      else if !ctx.logWriteOk then
        resp == ServerError && db.memberTransactions == old(db.memberTransactions) + [t.value] &&
        db.activityLogs == old(db.activityLogs)
      else
        resp == Ok(t.value) && db.memberTransactions == old(db.memberTransactions) + [t.value] &&
        db.activityLogs == old(db.activityLogs) +
          [AuditRow(ctx, session.value, "CREATE_TRANSACTION", "MemberTransaction", t.value.id, TransactionDetails(t.value))]
    ensures body.None? ==> !resp.Ok? && unchanged(db)
  {
    var session := ResolveSession(ctx.skipAuth, ctx.serverSession);
    if !Allowed(session, "member_transactions:write") {
      return Unauthorized;
    }
    if body.None? {
      return ServerError;
    }
    var code := Utils.GenerateTransactionCode(ctx.now, random);
    var row := NewTransaction(ctx, session.value, code, body.value);
    if !ctx.rowWriteOk || row.None? || row.value.memberId !in MemberIds(db.members) {
      return ServerError;
    }
    var t := row.value;
    AddMemberTransactionKeepsValid(db.members, db.memberTransactions, db.absences, db.campaigns, db.campaignLogs, t);
    db.memberTransactions := db.memberTransactions + [t];
    if !ctx.logWriteOk {
      return ServerError;
    }
    db.activityLogs := db.activityLogs +
      [AuditRow(ctx, session.value, "CREATE_TRANSACTION", "MemberTransaction", t.id, TransactionDetails(t))];
    resp := Ok(t);
  }

  /** Whatever code or creator the body carries, the stored ones are the generated code and the session user. */
  lemma BodyCannotOverrideCodeOrCreator(ctx: WriteContext, session: SessionInfo, code: string,
                                        body: TransactionBody, forged: string)
    requires NewTransaction(ctx, session, code, body).Some?
    ensures NewTransaction(ctx, session, code, body.(transactionCode := Some(forged), createdById := Some(forged)))
            == NewTransaction(ctx, session, code, body)
    ensures NewTransaction(ctx, session, code, body).value.transactionCode == code
  {
  }
}
