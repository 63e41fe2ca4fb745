/** The admission webhooks that guard what users may create and change. */
module Admission {
  import opened Types

  predicate ValidTtl(secondsTtl: int) {
    secondsTtl == 0 || secondsTtl >= 3600
  }

  const PERMISSION_TYPES: set<string> := {"read", "write"}

  const RESOURCE_TYPES: set<string> := {
    "authorizations", "buckets", "checks", "dashboards", "dbrp", "documents", "labels", "notebooks",
    "notificationEndpoints", "notificationRules", "orgs", "scrapers", "secrets", "sources", "tasks",
    "telegrafs", "users", "variables", "views"
  }

  predicate ValidPermissions(permissions: seq<Permission>) {
    forall i | 0 <= i < |permissions| ::
      permissions[i].permissionType in PERMISSION_TYPES && permissions[i].resourceType in RESOURCE_TYPES
  }

  predicate ValidateCreate(kind: Kind, name: string, spec: Spec) {
    match kind
    case TokenKind => ValidPermissions(spec.permissions)
    case BucketKind => !(spec.secondsTtl != 0 && spec.secondsTtl < 3600)
    case OrganizationKind => name != DEFAULT_ORG
  }

  predicate ValidateUpdate(kind: Kind, before: Spec, after: Spec) {
    match kind
    case TokenKind => true
    case BucketKind => !(after.secondsTtl != before.secondsTtl || after.description != before.description)
    case OrganizationKind => true
  }
}
