/**
 * The permission table (src/lib/permissions.ts): the single source of
 * authorisation for every handler and for the client-side checks.
 * Roles and permissions are strings, because callers pass whatever role a
 * session carries; a role outside the table has no permission.
 */
module Permissions {

  const FRONT_OFFICE := "FRONT_OFFICE"
  const ACCOUNTING := "ACCOUNTING"
  const MARKETING := "MARKETING"
  const SUPERVISOR := "SUPERVISOR"
  const OWNER := "OWNER"

  const Roles: set<string> := {FRONT_OFFICE, ACCOUNTING, MARKETING, SUPERVISOR, OWNER}

  /** The six resources every handler reads and writes. */
  const OperationalResources: set<string> :=
    {"members", "member_transactions", "member_absences",
     "company_transactions", "campaigns", "campaign_logs"}

  /** Every permission string the application defines. */
  const AllPermissions: set<string> :=
    {"members:read", "members:write",
     "member_transactions:read", "member_transactions:write",
     "member_absences:read", "member_absences:write",
     "company_transactions:read", "company_transactions:write",
     "campaigns:read", "campaigns:write",
     "campaign_logs:read", "campaign_logs:write",
     "analytics:read",
     "activity_logs:read"}

  const RolePermissions: map<string, seq<string>> := map[
    FRONT_OFFICE := ["members:read", "members:write",
                     "member_transactions:read", "member_transactions:write",
                     "member_absences:read", "member_absences:write"],
    ACCOUNTING := ["company_transactions:read", "company_transactions:write"],
    MARKETING := ["campaigns:read", "campaigns:write",
                  "campaign_logs:read", "campaign_logs:write"],
    SUPERVISOR := ["members:read", "member_transactions:read", "member_absences:read",
                   "company_transactions:read", "campaigns:read", "campaign_logs:read"],
    OWNER := ["members:read", "members:write",
              "member_transactions:read", "member_transactions:write",
              "member_absences:read", "member_absences:write",
              "company_transactions:read", "company_transactions:write",
              "campaigns:read", "campaigns:write",
              "campaign_logs:read", "campaign_logs:write",
              "analytics:read", "activity_logs:read"]
  ]

  /** `rolePermissions[role]?.includes(permission) || false`. */
  predicate HasPermission(role: string, permission: string) {
    role in RolePermissions && permission in RolePermissions[role]
  }

  predicate CanWrite(role: string, resource: string) {
    HasPermission(role, resource + ":write")
  }

  predicate CanRead(role: string, resource: string) {
    HasPermission(role, resource + ":read")
  }

  // ---------------------------------------------------------------------

  /** The lookup is total: a role outside the table has no permission at all. */
  lemma UnknownRoleHasNothing(role: string, permission: string)
    requires role !in Roles
    ensures !HasPermission(role, permission)
  {
  }

  /** Every permission any role holds is one the application defines. */
  lemma GrantedPermissionsAreDefined(role: string, permission: string)
    requires HasPermission(role, permission)
    ensures permission in AllPermissions
  {
  }

  lemma SuffixCancel(a: string, b: string, suffix: string)
    ensures a + suffix == b + suffix <==> a == b
  {
    if a + suffix == b + suffix {
      assert a == (a + suffix)[..|a|];
      assert b == (b + suffix)[..|b|];
    }
  }

  /** A `:write` permission never coincides with a `:read` one. */
  lemma WriteIsNotRead(a: string, b: string)
    ensures a + ":write" != b + ":read"
  {
    var w, r := a + ":write", b + ":read";
    assert w[|w| - 1] == 'e';
    assert r[|r| - 1] == 'd';
  }

  /** SUPERVISOR holds exactly the read permission of each operational resource. */
  lemma SupervisorReadsEverythingOperational(permission: string)
    ensures HasPermission(SUPERVISOR, permission) <==>
            exists res :: res in OperationalResources && permission == res + ":read"
  {
    assert "members:read" == "members" + ":read";
    assert "member_transactions:read" == "member_transactions" + ":read";
    assert "member_absences:read" == "member_absences" + ":read";
    assert "company_transactions:read" == "company_transactions" + ":read";
    assert "campaigns:read" == "campaigns" + ":read";
    assert "campaign_logs:read" == "campaign_logs" + ":read";
    if HasPermission(SUPERVISOR, permission) {
      var rs := RolePermissions[SUPERVISOR];
      var i :| 0 <= i < |rs| && rs[i] == permission;
      var names := ["members", "member_transactions", "member_absences",
                    "company_transactions", "campaigns", "campaign_logs"];
      assert rs[i] == names[i] + ":read";
      assert names[i] in OperationalResources;
    }
  }

  /** SUPERVISOR cannot write anything. */
  lemma SupervisorWritesNothing(resource: string)
    ensures !CanWrite(SUPERVISOR, resource)
  {
    forall res | res in OperationalResources
      ensures resource + ":write" != res + ":read"
    {
      WriteIsNotRead(resource, res);
    }
    SupervisorReadsEverythingOperational(resource + ":write");
  }

  /** Only OWNER may read analytics and the activity log. */
  lemma OnlyOwnerReadsAnalyticsAndActivityLogs(role: string)
    ensures HasPermission(role, "analytics:read") <==> role == OWNER
    ensures HasPermission(role, "activity_logs:read") <==> role == OWNER
  {
  }

  /** OWNER holds every permission some role holds. */
  lemma OwnerHoldsEverything(role: string, permission: string)
    requires HasPermission(role, permission)
    ensures HasPermission(OWNER, permission)
  {
  }

  /** No role may write analytics or the activity log: no such permission exists. */
  lemma NobodyWritesAnalyticsOrActivityLogs(role: string)
    ensures !CanWrite(role, "analytics") && !CanWrite(role, "activity_logs")
  {
    assert "analytics" + ":write" == "analytics:write";
    assert "activity_logs" + ":write" == "activity_logs:write";
    if CanWrite(role, "analytics") {
      GrantedPermissionsAreDefined(role, "analytics" + ":write");
    }
    if CanWrite(role, "activity_logs") {
      GrantedPermissionsAreDefined(role, "activity_logs" + ":write");
    }
  }

  /** Each operational permission is its resource's name followed by ":read" or ":write". */
  lemma PermissionTexts()
    ensures "members:read" == "members" + ":read" && "members:write" == "members" + ":write"
    ensures "member_transactions:read" == "member_transactions" + ":read"
    ensures "member_transactions:write" == "member_transactions" + ":write"
    ensures "member_absences:read" == "member_absences" + ":read"
    ensures "member_absences:write" == "member_absences" + ":write"
    ensures "company_transactions:read" == "company_transactions" + ":read"
    ensures "company_transactions:write" == "company_transactions" + ":write"
    ensures "campaigns:read" == "campaigns" + ":read" && "campaigns:write" == "campaigns" + ":write"
    ensures "campaign_logs:read" == "campaign_logs" + ":read"
    ensures "campaign_logs:write" == "campaign_logs" + ":write"
  {
  }

  /** For the three operational roles a resource is writable exactly when it is readable. */
  lemma OperationalRolesWriteWhatTheyRead(role: string, resource: string)
    requires role == FRONT_OFFICE || role == ACCOUNTING || role == MARKETING
    ensures CanWrite(role, resource) <==> CanRead(role, resource)
  {
    var names := ["members", "member_transactions", "member_absences",
                  "company_transactions", "campaigns", "campaign_logs"];
    forall k | 0 <= k < |names|
      ensures resource + ":write" == names[k] + ":write" <==> resource == names[k]
      ensures resource + ":read" == names[k] + ":read" <==> resource == names[k]
    {
      SuffixCancel(resource, names[k], ":write");
      SuffixCancel(resource, names[k], ":read");
    }
    forall k | 0 <= k < |names|
      ensures resource + ":write" != names[k] + ":read"
      ensures resource + ":read" != names[k] + ":write"
    {
      WriteIsNotRead(resource, names[k]);
      WriteIsNotRead(names[k], resource);
    }
    PermissionTexts();
    assert names[0] == "members" && names[1] == "member_transactions" && names[2] == "member_absences";
    assert names[3] == "company_transactions" && names[4] == "campaigns" && names[5] == "campaign_logs";
  }
}
