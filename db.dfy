/**
 * The tables the route handlers read and write, and what every handler
 * shares: the resolved session, the request context and the response.
 *
 * Instants are epoch milliseconds; money is an integer amount (for example
 * cents); `Option` stands for a nullable column or an absent body field.
 */
module Db {
  import opened Wrappers
  import opened JsonValue
  import Permissions

  datatype Member = Member(
    id: string, memberCode: string, name: Option<string>, email: Option<string>,
    phone: Option<string>, address: Option<string>, birthDate: Option<int>,
    isActive: bool, createdById: string, createdAt: int, updatedAt: int)

  datatype MemberTransaction = MemberTransaction(
    id: string, transactionCode: string, memberId: string, amount: int, kind: string,
    status: string, description: Option<string>, dueDate: int, createdById: string, createdAt: int)

  datatype MemberAbsence = MemberAbsence(
    id: string, memberId: string, date: int, kind: string, reason: Option<string>)

  datatype CompanyTransaction = CompanyTransaction(
    id: string, transactionCode: string, kind: string, category: string, amount: int,
    description: Option<string>, paymentMethod: Option<string>, status: string,
    transactionDate: int, createdById: string)

  datatype Campaign = Campaign(
    id: string, name: string, description: Option<string>, kind: string, status: string,
    budget: Option<int>, startDate: int, endDate: Option<int>, targetAudience: Option<string>,
    goals: Option<string>, createdById: string, createdAt: int)

  datatype CampaignLog = CampaignLog(
    id: string, campaignId: string, activity: string, description: Option<string>,
    metrics: Option<Json>, logDate: int, createdById: string)

  /** One audit row; `details` is the JSON object the handler writes. */
  datatype ActivityLog = ActivityLog(
    id: string, userId: string, role: Option<string>, action: string, entity: string,
    entityId: string, details: Json, timestamp: int)

  /** Column defaults the handlers rely on when the body leaves a field out. */
  const DefaultMemberActive := true
  const DefaultMemberTransactionStatus := "PENDING"
  const DefaultCampaignStatus := "DRAFT"

  // Sort keys (`orderBy: { <field>: 'desc' }`).
  function MemberCreatedAt(m: Member): int { m.createdAt }
  function MemberTransactionCreatedAt(t: MemberTransaction): int { t.createdAt }
  function AbsenceDate(a: MemberAbsence): int { a.date }
  function CompanyTransactionDate(t: CompanyTransaction): int { t.transactionDate }
  function CampaignCreatedAt(c: Campaign): int { c.createdAt }
  function CampaignLogDate(l: CampaignLog): int { l.logDate }
  function LogTimestamp(l: ActivityLog): int { l.timestamp }

  predicate MemberIsActive(m: Member) { m.isActive }

  function MemberIds(ms: seq<Member>): set<string> { set i | 0 <= i < |ms| :: ms[i].id }
  function MemberCodes(ms: seq<Member>): set<string> { set i | 0 <= i < |ms| :: ms[i].memberCode }
  function CampaignIds(cs: seq<Campaign>): set<string> { set i | 0 <= i < |cs| :: cs[i].id }

  /**
   * The constraints the schema enforces: member ids and member codes are
   * unique, campaign ids are unique, and every transaction, absence and
   * campaign log points at an existing member or campaign.
   */
  ghost predicate ValidTables(members: seq<Member>, memberTransactions: seq<MemberTransaction>,
                              absences: seq<MemberAbsence>, campaigns: seq<Campaign>,
                              campaignLogs: seq<CampaignLog>)
  {
    (forall i, j :: 0 <= i < j < |members| ==> members[i].id != members[j].id) &&
    (forall i, j :: 0 <= i < j < |members| ==> members[i].memberCode != members[j].memberCode) &&
    (forall i, j :: 0 <= i < j < |campaigns| ==> campaigns[i].id != campaigns[j].id) &&
    (forall t | t in memberTransactions :: t.memberId in MemberIds(members)) &&
    (forall a | a in absences :: a.memberId in MemberIds(members)) &&
    (forall l | l in campaignLogs :: l.campaignId in CampaignIds(campaigns))
  }

  /** A member with a new id and a new code keeps the tables valid. */
  lemma AddMemberKeepsValid(members: seq<Member>, memberTransactions: seq<MemberTransaction>,
                            absences: seq<MemberAbsence>, campaigns: seq<Campaign>,
                            campaignLogs: seq<CampaignLog>, m: Member)
    requires ValidTables(members, memberTransactions, absences, campaigns, campaignLogs)
    requires m.id !in MemberIds(members) && m.memberCode !in MemberCodes(members)
    ensures ValidTables(members + [m], memberTransactions, absences, campaigns, campaignLogs)
  {
    var ms := members + [m];
    forall x | x in MemberIds(members) ensures x in MemberIds(ms) {
      var i :| 0 <= i < |members| && members[i].id == x;
      assert ms[i].id == x;
    }
  }

  /** A transaction for an existing member keeps the tables valid. */
  lemma AddMemberTransactionKeepsValid(members: seq<Member>, memberTransactions: seq<MemberTransaction>,
                                       absences: seq<MemberAbsence>, campaigns: seq<Campaign>,
                                       campaignLogs: seq<CampaignLog>, t: MemberTransaction)
    requires ValidTables(members, memberTransactions, absences, campaigns, campaignLogs)
    requires t.memberId in MemberIds(members)
    ensures ValidTables(members, memberTransactions + [t], absences, campaigns, campaignLogs)
  {
  }

  /** An absence of an existing member keeps the tables valid. */
  lemma AddAbsenceKeepsValid(members: seq<Member>, memberTransactions: seq<MemberTransaction>,
                             absences: seq<MemberAbsence>, campaigns: seq<Campaign>,
                             campaignLogs: seq<CampaignLog>, a: MemberAbsence)
    requires ValidTables(members, memberTransactions, absences, campaigns, campaignLogs)
    requires a.memberId in MemberIds(members)
    ensures ValidTables(members, memberTransactions, absences + [a], campaigns, campaignLogs)
  {
  }

  /** A campaign with a new id keeps the tables valid. */
  lemma AddCampaignKeepsValid(members: seq<Member>, memberTransactions: seq<MemberTransaction>,
                              absences: seq<MemberAbsence>, campaigns: seq<Campaign>,
                              campaignLogs: seq<CampaignLog>, c: Campaign)
    requires ValidTables(members, memberTransactions, absences, campaigns, campaignLogs)
    requires c.id !in CampaignIds(campaigns)
    ensures ValidTables(members, memberTransactions, absences, campaigns + [c], campaignLogs)
  {
    var cs := campaigns + [c];
    forall x | x in CampaignIds(campaigns) ensures x in CampaignIds(cs) {
      var i :| 0 <= i < |campaigns| && campaigns[i].id == x;
      assert cs[i].id == x;
    }
  }

  /** A log of an existing campaign keeps the tables valid. */
  lemma AddCampaignLogKeepsValid(members: seq<Member>, memberTransactions: seq<MemberTransaction>,
                                 absences: seq<MemberAbsence>, campaigns: seq<Campaign>,
                                 campaignLogs: seq<CampaignLog>, l: CampaignLog)
    requires ValidTables(members, memberTransactions, absences, campaigns, campaignLogs)
    requires l.campaignId in CampaignIds(campaigns)
    ensures ValidTables(members, memberTransactions, absences, campaigns, campaignLogs + [l])
  {
  }

  /** The database: one sequence per table, in insertion order. */
  class Database {
    var members: seq<Member>
    var memberTransactions: seq<MemberTransaction>
    var absences: seq<MemberAbsence>
    var companyTransactions: seq<CompanyTransaction>
    var campaigns: seq<Campaign>
    var campaignLogs: seq<CampaignLog>
    var activityLogs: seq<ActivityLog>

    /**
     * The constraints the schema enforces: member ids and member codes are
     * unique, campaign ids are unique, and every transaction, absence and
     * campaign log points at an existing member or campaign.
     */
    ghost predicate Valid()
      reads this
    {
      ValidTables(members, memberTransactions, absences, campaigns, campaignLogs)
    }

    constructor ()
      ensures Valid()
      ensures members == [] && memberTransactions == [] && absences == []
      ensures companyTransactions == [] && campaigns == [] && campaignLogs == [] && activityLogs == []
    {
      members, memberTransactions, absences := [], [], [];
      companyTransactions, campaigns, campaignLogs, activityLogs := [], [], [], [];
    }
  }

  // ---------------------------------------------------------------------
  // Sessions and responses

  /** `session.user` as `getServerSession` returns it. */
  datatype SessionInfo = SessionInfo(id: string, name: Option<string>, email: Option<string>, role: Option<string>)

  /** The session the resource handlers substitute when `SKIP_AUTH` is set. */
  const DemoOwner := SessionInfo("demo-owner-id", Some("Demo Owner"), Some("demo@example.com"), Some(Permissions.OWNER))

  /** The session a resource handler works with: the demo owner, or the server session. */
  function ResolveSession(skipAuth: bool, serverSession: Option<SessionInfo>): (s: Option<SessionInfo>)
    ensures skipAuth ==> s == Some(DemoOwner)
    ensures !skipAuth ==> s == serverSession
  {
    if skipAuth then Some(DemoOwner) else serverSession
  }

  /** `session && hasPermission(session.user.role, permission)`. */
  predicate Allowed(session: Option<SessionInfo>, permission: string) {
    session.Some? && session.value.role.Some? &&
    Permissions.HasPermission(session.value.role.value, permission)
  }

  /** With `SKIP_AUTH` a handler acts with every permission OWNER holds. */
  lemma SkipAuthActsAsOwner(serverSession: Option<SessionInfo>, permission: string)
    ensures Allowed(ResolveSession(true, serverSession), permission) <==>
            Permissions.HasPermission(Permissions.OWNER, permission)
  {
  }

  /** An HTTP response: 200 with a body, 401 `Unauthorized`, or 500 `Internal server error`. */
  datatype Response<T> = Ok(body: T) | Unauthorized | ServerError {
    function Status(): int {
      match this
      case Ok(_) => 200
      case Unauthorized => 401
      case ServerError => 500
    }
  }

  /**
   * Everything a write request depends on besides the database: the session
   * sources, the clock, the identifiers the database will assign, how
   * `new Date(text)` reads a date (None: an invalid date, which the database
   * rejects), and whether each of the two writes succeeds.
   */
  datatype WriteContext = WriteContext(
    skipAuth: bool,
    serverSession: Option<SessionInfo>,
    now: nat,
    rowId: string,
    logId: string,
    rowWriteOk: bool,
    logWriteOk: bool,
    parseDate: string -> Option<int>)

  /** `new Date(field)` for a body field that may be absent. */
  function ParseDate(ctx: WriteContext, field: Option<string>): Option<int> {
    if field.Some? then ctx.parseDate(field.value) else None
  }

  /** The audit row a successful write appends. */
  function AuditRow(ctx: WriteContext, session: SessionInfo, action: string, entity: string,
                    entityId: string, details: Json): (log: ActivityLog)
    ensures log.userId == session.id && log.role == session.role
    ensures log.action == action && log.entity == entity && log.entityId == entityId
    ensures log.details == details && log.timestamp == ctx.now && log.id == ctx.logId
  {
    ActivityLog(ctx.logId, session.id, session.role, action, entity, entityId, details, ctx.now)
  }

  function OptStr(s: Option<string>): Json {
    if s.Some? then JStr(s.value) else JNull
  }
}
