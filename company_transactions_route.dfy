/**
 * `/api/company-transactions` (src/app/api/company-transactions/route.ts):
 * list the gym's own income and expenses, and record one, always as
 * `COMPLETED`, followed by its audit row.
 */
module CompanyTransactionsRoute {
  import opened Wrappers
  import opened JsonValue
  import opened Seqs
  import opened Db
  import Utils

  /** The JSON body of a create request; only these fields reach the row. */
  datatype CompanyTransactionBody = CompanyTransactionBody(
    kind: Option<string>, category: Option<string>, amount: Option<int>, description: Option<string>,
    paymentMethod: Option<string>, status: Option<string>, transactionDate: Option<string>)

  const CompletedStatus := "COMPLETED"

  /** GET: every company transaction, latest transaction date first. */
  function GetCompanyTransactions(db: Database, skipAuth: bool, serverSession: Option<SessionInfo>)
    : (r: Response<seq<CompanyTransaction>>)
    reads db
    ensures r.Ok? || r.Unauthorized?
    ensures r.Unauthorized? <==> !Allowed(ResolveSession(skipAuth, serverSession), "company_transactions:read")
    ensures r.Ok? ==> SortedDesc(r.body, CompanyTransactionDate)
    ensures r.Ok? ==> multiset(r.body) == multiset(db.companyTransactions)
  {
    if !Allowed(ResolveSession(skipAuth, serverSession), "company_transactions:read") then Unauthorized
    else Ok(SortDesc(db.companyTransactions, CompanyTransactionDate))
  }

  /**
   * The row `create` stores, or None when a required field is missing or
   * the transaction date is invalid. The status is `COMPLETED` whatever the
   * body says.
   */
  function NewCompanyTransaction(ctx: WriteContext, session: SessionInfo, code: string,
                                 body: CompanyTransactionBody): (r: Option<CompanyTransaction>)
    ensures r.Some? <==> body.kind.Some? && body.category.Some? && body.amount.Some? &&
                         ParseDate(ctx, body.transactionDate).Some?
    ensures r.Some? ==> r.value.status == CompletedStatus && r.value.transactionCode == code &&
                        r.value.createdById == session.id && r.value.id == ctx.rowId &&
                        r.value.kind == body.kind.value && r.value.category == body.category.value &&
                        r.value.amount == body.amount.value &&
                        r.value.transactionDate == ParseDate(ctx, body.transactionDate).value
    ensures r.Some? ==> r.value.description == body.description && r.value.paymentMethod == body.paymentMethod
  {
    var date := ParseDate(ctx, body.transactionDate);
    if body.kind.None? || body.category.None? || body.amount.None? || date.None? then None
    else Some(CompanyTransaction(ctx.rowId, code, body.kind.value, body.category.value, body.amount.value,
                                 body.description, body.paymentMethod, CompletedStatus, date.value, session.id))
  }

  /** A body cannot record a company transaction as pending. */
  lemma StatusIsAlwaysCompleted(ctx: WriteContext, session: SessionInfo, code: string,
                                body: CompanyTransactionBody, status: string)
    requires NewCompanyTransaction(ctx, session, code, body).Some?
    ensures NewCompanyTransaction(ctx, session, code, body.(status := Some(status)))
            == NewCompanyTransaction(ctx, session, code, body)
    ensures NewCompanyTransaction(ctx, session, code, body).value.status == "COMPLETED"
  {
  }

  function CompanyTransactionDetails(t: CompanyTransaction): Json {
    JObj([("transactionCode", JStr(t.transactionCode)), ("type", JStr(t.kind)),
          ("amount", JNum(t.amount)), ("category", JStr(t.category))])
  }

  /** POST: record a company transaction with a generated `TRX` code, then append one `CREATE_TRANSACTION` audit row. */
  method PostCompanyTransaction(db: Database, ctx: WriteContext, random: Utils.Digit3,
                                body: Option<CompanyTransactionBody>)
    returns (resp: Response<CompanyTransaction>)
    requires db.Valid()
    modifies db
    ensures db.Valid()
    ensures db.members == old(db.members) && db.memberTransactions == old(db.memberTransactions)
    ensures db.absences == old(db.absences) && db.campaigns == old(db.campaigns)
    ensures db.campaignLogs == old(db.campaignLogs)
    ensures var session := ResolveSession(ctx.skipAuth, ctx.serverSession);
      !Allowed(session, "company_transactions:write") ==> resp == Unauthorized && unchanged(db)
    ensures var session := ResolveSession(ctx.skipAuth, ctx.serverSession);
      Allowed(session, "company_transactions:write") && body.Some? ==>
      var t := NewCompanyTransaction(ctx, session.value, Utils.GenerateTransactionCode(ctx.now, random), body.value);
      if !ctx.rowWriteOk || t.None? then
        resp == ServerError && unchanged(db)
      else if !ctx.logWriteOk then
        resp == ServerError && db.companyTransactions == old(db.companyTransactions) + [t.value] &&
        db.activityLogs == old(db.activityLogs)
      else
        resp == Ok(t.value) && db.companyTransactions == old(db.companyTransactions) + [t.value] &&
        db.activityLogs == old(db.activityLogs) +
          [AuditRow(ctx, session.value, "CREATE_TRANSACTION", "CompanyTransaction", t.value.id,
                    CompanyTransactionDetails(t.value))]
    ensures body.None? ==> !resp.Ok? && unchanged(db)
  {
    var session := ResolveSession(ctx.skipAuth, ctx.serverSession);
    if !Allowed(session, "company_transactions:write") {
      return Unauthorized;
    }
    if body.None? {
      return ServerError;
    }
    var code := Utils.GenerateTransactionCode(ctx.now, random);
    var row := NewCompanyTransaction(ctx, session.value, code, body.value);
    if !ctx.rowWriteOk || row.None? {
      return ServerError;
    }
    var t := row.value;
    db.companyTransactions := db.companyTransactions + [t];
    if !ctx.logWriteOk {
      return ServerError;
    }
    db.activityLogs := db.activityLogs +
      [AuditRow(ctx, session.value, "CREATE_TRANSACTION", "CompanyTransaction", t.id, CompanyTransactionDetails(t))];
    resp := Ok(t);
  }
}
