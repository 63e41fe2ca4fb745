/** The entities the operator moves around: custom resources, their status, and
    the records an InfluxDB server keeps. */
module Types {

  datatype Option<+T> = None | Some(value: T)

  type Uid = string

  datatype Kind = TokenKind | BucketKind | OrganizationKind

  datatype Name = Name(namespace: string, name: string)

  /** Identifies a custom resource; a reconcile request carries one. */
  datatype Key = Key(kind: Kind, namespace: string, name: string)

  /** The incarnation of a resource on whose behalf the operator acted. */
  datatype Owner = Owner(key: Key, uid: Uid)

  datatype Phase = Unset | Pending | Ready | Terminating

  datatype Reason =
    | ObjectInitialized
    | ObjectMarkedForDeletion
    | FinalizerAdded
    | Created(made: Kind)
    | Deleted(dropped: Kind)

  datatype Condition = Condition(reason: Reason, transition: nat)

  /** `data` is the entry `tokenId` of the source's data map. */
  datatype Status = Status(phase: Phase, conditions: seq<Condition>, reason: Option<Reason>, data: Option<nat>)

  const BLANK: Status := Status(Unset, [], None, None)

  datatype Permission = Permission(resourceName: string, resourceType: string, permissionType: string)

  /** The union of the three specs; a kind leaves the fields it does not have unused. */
  datatype Spec = Spec(
    configName: string,
    secretName: string,
    permissions: seq<Permission>,
    secondsTtl: int,
    description: string)

  /** One stored version of a custom resource. */
  datatype Resource = Resource(uid: Uid, deleting: bool, finalizer: bool, spec: Spec, status: Status)

  datatype Config = Config(orgName: string, secretNamespace: string, secretName: string)

  /** `stamp` is the resource version of a secret. */
  datatype Secret = Secret(stamp: nat, data: map<string, string>)

  /** A permission as sent to InfluxDB. */
  datatype Grant = Grant(action: string, resourceType: string, resourceName: string, org: Option<nat>)

  const KEY_TOKEN := "token"
  const CONFIG_INFLUXDB := "default"
  const DEFAULT_ORG := "influxdata"
  const RESOURCE_TYPE_ORGS := "orgs"

  /** Reading a missing key of a Go map gives the empty string. */
  function Lookup(data: map<string, string>, key: string): string {
    if key in data then data[key] else ""
  }

  /** The secret holds this token and is left alone. Data without entries reads as nil. */
  predicate Carries(data: map<string, string>, token: string) {
    data != map[] && Lookup(data, KEY_TOKEN) == token
  }

  /** Where the search loop over the conditions stops; the length when nothing matches. */
  function FirstReason(conditions: seq<Condition>, reason: Reason): (i: nat)
    ensures i <= |conditions|
    ensures i < |conditions| ==> conditions[i].reason == reason
    ensures forall j | 0 <= j < i :: conditions[j].reason != reason
  {
    if conditions == [] || conditions[0].reason == reason then 0
    else 1 + FirstReason(conditions[1..], reason)
  }

  predicate Mentions(conditions: seq<Condition>, reason: Reason) {
    FirstReason(conditions, reason) < |conditions|
  }

  /** The conditions with the transition time of the first match refreshed. */
  function Touch(conditions: seq<Condition>, reason: Reason, now: nat): (r: seq<Condition>)
    ensures |r| == |conditions|
    ensures forall i | 0 <= i < |r| :: r[i].reason == conditions[i].reason
  {
    var i := FirstReason(conditions, reason);
    if i < |conditions| then conditions[i := conditions[i].(transition := now)] else conditions
  }

  /** The reasons recorded, oldest first. */
  function Reasons(conditions: seq<Condition>): (r: seq<Reason>)
    ensures |r| == |conditions|
    ensures forall i | 0 <= i < |r| :: r[i] == conditions[i].reason
  {
    seq(|conditions|, i requires 0 <= i < |conditions| => conditions[i].reason)
  }

  function ConfigName(key: Key, spec: Spec): string {
    if key.kind == BucketKind then CONFIG_INFLUXDB else spec.configName
  }
}
