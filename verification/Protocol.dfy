/** The operator as a state machine. A reconcile pass advances by one remote call at a
    time; between two calls anybody else may act. The local computation between two
    calls belongs to the step of the earlier call. */
module Protocol {
  import opened Types
  import opened Tables
  import opened Descriptions
  import opened Admission

  /******* What the API server keeps for one key, and how far the reader has got *******/

  /** Version `i` of the resource is `versions[i]`; its index is its resource version.
      Reads return any version from `seen` on and never go back. */
  datatype Slot = Slot(versions: seq<Option<Resource>>, seen: nat) {
    function Last(): Option<Resource>
      requires |versions| > 0
    {
      versions[|versions| - 1]
    }

    function Append(r: Option<Resource>): Slot {
      this.(versions := versions + [r])
    }
  }

  const EMPTY_SLOT: Slot := Slot([None], 0)

  /** What all passes and all outsiders share. */
  datatype Shared = Shared(
    configs: map<Name, Config>,
    secrets: map<Name, Secret>,
    stamps: nat,
    orgs: Table,
    auths: Table,
    buckets: Table)

  /******* A pass in flight *******/

  /** The remote call a pass is about to make, with the locals still needed after it. */
  datatype Point =
    | SaveObject
    | SaveStatus
    | Publish(token: string)
    | GetConfig(teardown: bool)
    | GetCredential(teardown: bool, config: Config)
    | FindOrg(teardown: bool, config: Config)
    | ListAuths(teardown: bool, org: nat)
    | CreateAuth(org: nat)
    | DeleteAuth
    | CreateSecret(token: string, created: bool)
    | ReadSecret(token: string, created: bool)
    | WriteSecret(token: string, created: bool, stamp: nat)
    | CreateBucket(org: nat)
    | ListBuckets(org: nat)
    | DeleteBucket(id: nat)
    | CreateOrg
    | DeleteOrg(id: nat)

  datatype Result = NoRequeue | RequeueAfterMinute | Failed | Crashed

  /** `cr` is the resource in memory, read at `version`; `tokenId` is the local of that name. */
  datatype Proc =
    | Idle(last: Result)
    | At(cr: Resource, version: nat, tokenId: Option<nat>, point: Point)

  /** The world as the pass for one key sees it. */
  datatype Local = Local(slot: Slot, proc: Proc, shared: Shared)

  /** How a call turns out. `Reply` is the server's own answer, which may still be a
      refusal such as a conflict or "name taken"; `Refused` never reached the server;
      `Lost` took effect but looked like a failure. */
  datatype Outcome =
    | Read(index: nat, now: nat)
    | Reply(text: string, now: nat)
    | Refused
    | Lost(text: string, now: nat)

  /******* Local computation *******/

  function SecretName(key: Key, cr: Resource): Name {
    Name(key.namespace, cr.spec.secretName)
  }

  function TitleOf(key: Key, cr: Resource): string {
    Title(Owner(key, cr.uid))
  }

  /** A permission on organizations as a whole is not tied to the one organization. */
  function GrantFor(p: Permission, org: nat): Grant {
    Grant(p.permissionType, p.resourceType, p.resourceName,
          if p.resourceType == RESOURCE_TYPE_ORGS then None else Some(org))
  }

  function BuildGrants(permissions: seq<Permission>, org: nat): (grants: seq<Grant>)
    ensures |grants| == |permissions|
    ensures forall i | 0 <= i < |grants| :: grants[i] == GrantFor(permissions[i], org)
  {
    seq(|permissions|, i requires 0 <= i < |permissions| => GrantFor(permissions[i], org))
  }

  function TerminatingStatus(status: Status): Status {
    Status(Terminating, status.conditions, Some(ObjectMarkedForDeletion), None)
  }

  function InitialStatus(now: nat): Status {
    Status(Pending, [Condition(FinalizerAdded, now)], Some(ObjectInitialized), None)
  }

  function DeletedStatus(kind: Kind, status: Status, now: nat): Status {
    if Mentions(status.conditions, Deleted(kind))
    then status.(conditions := Touch(status.conditions, Deleted(kind), now))
    else Status(status.phase, status.conditions + [Condition(Deleted(kind), now)], Some(Deleted(kind)), None)
  }

  function ReadyStatus(kind: Kind, status: Status, now: nat): Status {
    Status(Ready, status.conditions + [Condition(Created(kind), now)], Some(Created(kind)), None)
  }

  /** The status after an artefact was created again although a condition records it. */
  function RecreatedStatus(kind: Kind, status: Status, tokenId: Option<nat>, now: nat): Status {
    var touched := status.(conditions := Touch(status.conditions, Created(kind), now));
    if kind == TokenKind then touched.(data := tokenId) else touched
  }

  /** What a pass does with the resource it has just read. */
  function BeginPass(cr: Resource, version: nat, now: nat): Proc {
    if cr.deleting then
      if !cr.finalizer then Idle(NoRequeue)
      else if cr.status.phase != Terminating then
        At(cr.(status := TerminatingStatus(cr.status)), version, None, SaveStatus)
      else At(cr, version, cr.status.data, GetConfig(true))
    else if !cr.finalizer then At(cr.(finalizer := true), version, None, SaveObject)
    else if !Mentions(cr.status.conditions, FinalizerAdded) then
      At(cr.(status := InitialStatus(now)), version, None, SaveStatus)
    else At(cr, version, cr.status.data, GetConfig(false))
  }

  /** FinalizeResources returned nil, so RemoveFinalizer runs next. */
  function DropFinalizer(cr: Resource, version: nat): Proc {
    At(cr.(finalizer := false), version, None, SaveObject)
  }

  /** The status the tail of ReconcileResources writes, if a write is due. */
  function TailStatus(kind: Kind, status: Status, tokenId: Option<nat>, created: bool, now: nat): Option<Status> {
    if !Mentions(status.conditions, Created(kind)) then Some(ReadyStatus(kind, status, now))
    else if created then Some(RecreatedStatus(kind, status, tokenId, now))
    else None
  }

  /** The tail of ReconcileResources: conditions, then the status write if one is due. */
  function FinishResources(kind: Kind, cr: Resource, version: nat, tokenId: Option<nat>,
                           created: bool, point: Point, now: nat): Proc
  {
    match TailStatus(kind, cr.status, tokenId, created, now)
    case Some(status) => At(cr.(status := status), version, tokenId, point)
    case None => Idle(RequeueAfterMinute)
  }

  function FinishTeardown(kind: Kind, cr: Resource, version: nat, tokenId: Option<nat>, now: nat): Proc {
    At(cr.(status := DeletedStatus(kind, cr.status, now)), version, tokenId, SaveStatus)
  }

  /******* The effect of each call that reaches its server *******/

  /** Update and Status().Update: the stored version must be the one that was read. */
  function Store(l: Local, cr: Resource, version: nat, status: bool): Local
    requires |l.slot.versions| > 0
  {
    if version + 1 == |l.slot.versions| && l.slot.Last().Some? then
      var stored := l.slot.Last().value;
      var next := if status then stored.(status := cr.status) else stored.(finalizer := cr.finalizer);
      l.(slot := l.slot.Append(if next.deleting && !next.finalizer then None else Some(next)), proc := Idle(NoRequeue))
    else l.(proc := Idle(Failed))
  }

  function DoGetConfig(key: Key, l: Local): Local
    requires l.proc.At? && l.proc.point.GetConfig?
  {
    var At(cr, version, tokenId, GetConfig(teardown)) := l.proc;
    var name := Name(key.namespace, ConfigName(key, cr.spec));
    if name in l.shared.configs then l.(proc := l.proc.(point := GetCredential(teardown, l.shared.configs[name])))
    else if teardown then l.(proc := DropFinalizer(cr, version))
    else l.(proc := Idle(Failed))
  }

  function DoGetCredential(l: Local): Local
    requires l.proc.At? && l.proc.point.GetCredential?
  {
    var GetCredential(teardown, config) := l.proc.point;
    if Name(config.secretNamespace, config.secretName) in l.shared.secrets
    then l.(proc := l.proc.(point := FindOrg(teardown, config)))
    else l.(proc := Idle(Failed))
  }

  /** Organizations are torn down by their own name; everything else looks up the configured one. */
  function OrgSought(key: Key, teardown: bool, config: Config): string {
    if teardown && key.kind == OrganizationKind then key.name else config.orgName
  }

  function AfterFindOrg(kind: Kind, teardown: bool, id: nat): Point {
    match kind
    case TokenKind => ListAuths(teardown, id)
    case BucketKind => if teardown then ListBuckets(id) else CreateBucket(id)
    case OrganizationKind => if teardown then DeleteOrg(id) else CreateOrg
  }

  function DoFindOrg(key: Key, l: Local): Local
    requires l.proc.At? && l.proc.point.FindOrg?
  {
    var At(cr, version, tokenId, FindOrg(teardown, config)) := l.proc;
    match l.shared.orgs.First(0, OrgSought(key, teardown, config))
    case Some(id) => l.(proc := l.proc.(point := AfterFindOrg(key.kind, teardown, id)))
    case None =>
      if teardown && key.kind != BucketKind then l.(proc := DropFinalizer(cr, version))
      else l.(proc := Idle(Failed))
  }

  function AuthorizationToken(row: Row): Option<string> {
    if row.payload.AuthorizationData? then row.payload.token else None
  }

  function DoListAuths(key: Key, l: Local): Local
    requires l.proc.At? && l.proc.point.ListAuths?
  {
    var At(cr, version, tokenId, ListAuths(teardown, org)) := l.proc;
    match l.shared.auths.First(org, TitleOf(key, cr))
    case Some(i) =>
      if teardown then l.(proc := At(cr, version, Some(i), DeleteAuth))
      else
        (match AuthorizationToken(l.shared.auths.rows[i])
         case Some(token) => l.(proc := At(cr, version, Some(i), CreateSecret(token, false)))
         case None => l.(proc := Idle(Failed)))
    case None =>
      if teardown then l.(proc := DropFinalizer(cr, version))
      else l.(proc := l.proc.(point := CreateAuth(org)))
  }

  function NewAuth(key: Key, cr: Resource, org: nat, text: string): Row {
    Row(org, Some(TitleOf(key, cr)), Some(Owner(key, cr.uid)),
        AuthorizationData(Some(text), BuildGrants(cr.spec.permissions, org)))
  }

  function DoCreateAuth(key: Key, l: Local, text: string): Local
    requires l.proc.At? && l.proc.point.CreateAuth?
  {
    var At(cr, version, tokenId, CreateAuth(org)) := l.proc;
    Local(l.slot,
          At(cr, version, Some(|l.shared.auths.rows|), CreateSecret(text, true)),
          l.shared.(auths := l.shared.auths.Insert(NewAuth(key, cr, org, text))))
  }

  function DoDeleteAuth(key: Key, l: Local, now: nat): Local
    requires l.proc.At? && l.proc.point.DeleteAuth?
  {
    var At(cr, version, tokenId, _) := l.proc;
    if tokenId.Some? && l.shared.auths.Live(tokenId.value) then
      Local(l.slot, FinishTeardown(key.kind, cr, version, tokenId, now),
            l.shared.(auths := l.shared.auths.Remove(tokenId.value, Operator)))
    else l.(proc := Idle(Failed))
  }

  function PutSecret(shared: Shared, name: Name, data: map<string, string>): Shared {
    shared.(secrets := shared.secrets[name := Secret(shared.stamps, data)], stamps := shared.stamps + 1)
  }

  function DoCreateSecret(key: Key, l: Local, now: nat): Local
    requires l.proc.At? && l.proc.point.CreateSecret?
  {
    var At(cr, version, tokenId, CreateSecret(token, created)) := l.proc;
    var name := SecretName(key, cr);
    if name in l.shared.secrets then l.(proc := l.proc.(point := ReadSecret(token, created)))
    else Local(l.slot, FinishResources(key.kind, cr, version, tokenId, created, Publish(token), now),
               PutSecret(l.shared, name, map[KEY_TOKEN := token]))
  }

  function DoReadSecret(key: Key, l: Local, now: nat): Local
    requires l.proc.At? && l.proc.point.ReadSecret?
  {
    var At(cr, version, tokenId, ReadSecret(token, created)) := l.proc;
    var name := SecretName(key, cr);
    if name !in l.shared.secrets then l.(proc := Idle(Failed))
    else if !Carries(l.shared.secrets[name].data, token) then
      l.(proc := l.proc.(point := WriteSecret(token, created, l.shared.secrets[name].stamp)))
    else l.(proc := FinishResources(key.kind, cr, version, tokenId, created, Publish(token), now))
  }

  function DoWriteSecret(key: Key, l: Local, now: nat): Local
    requires l.proc.At? && l.proc.point.WriteSecret?
  {
    var At(cr, version, tokenId, WriteSecret(token, created, stamp)) := l.proc;
    var name := SecretName(key, cr);
    if name in l.shared.secrets && l.shared.secrets[name].stamp == stamp then
      Local(l.slot, FinishResources(key.kind, cr, version, tokenId, created, Publish(token), now),
            PutSecret(l.shared, name, map[KEY_TOKEN := token]))
    else l.(proc := Idle(Failed))
  }

  function NewBucket(key: Key, cr: Resource, org: nat): Row {
    Row(org, Some(key.name), Some(Owner(key, cr.uid)),
        BucketData(cr.spec.secondsTtl, cr.spec.description))
  }

  /** A taken name is answered with status 422, which counts as "exists". */
  function DoCreateBucket(key: Key, l: Local, now: nat): Local
    requires l.proc.At? && l.proc.point.CreateBucket?
  {
    var At(cr, version, tokenId, CreateBucket(org)) := l.proc;
    var created := l.shared.buckets.First(org, key.name).None?;
    Local(l.slot, FinishResources(key.kind, cr, version, tokenId, created, SaveStatus, now),
          if created then l.shared.(buckets := l.shared.buckets.Insert(NewBucket(key, cr, org))) else l.shared)
  }

  function DoListBuckets(key: Key, l: Local): Local
    requires l.proc.At? && l.proc.point.ListBuckets?
  {
    var At(cr, version, tokenId, ListBuckets(org)) := l.proc;
    match l.shared.buckets.First(org, key.name)
    case Some(i) => l.(proc := l.proc.(point := DeleteBucket(i)))
    case None => l.(proc := DropFinalizer(cr, version))
  }

  function DoDeleteBucket(key: Key, l: Local, now: nat): Local
    requires l.proc.At? && l.proc.point.DeleteBucket?
  {
    var At(cr, version, tokenId, DeleteBucket(id)) := l.proc;
    if l.shared.buckets.Live(id) then
      Local(l.slot, FinishTeardown(key.kind, cr, version, tokenId, now),
            l.shared.(buckets := l.shared.buckets.Remove(id, Operator)))
    else l.(proc := Idle(Failed))
  }

  function NewOrg(key: Key, cr: Resource): Row {
    Row(0, Some(key.name), Some(Owner(key, cr.uid)), OrganizationData)
  }

  function DoCreateOrg(key: Key, l: Local, now: nat): Local
    requires l.proc.At? && l.proc.point.CreateOrg?
  {
    var At(cr, version, tokenId, CreateOrg) := l.proc;
    var created := l.shared.orgs.First(0, key.name).None?;
    Local(l.slot, FinishResources(key.kind, cr, version, tokenId, created, SaveStatus, now),
          if created then l.shared.(orgs := l.shared.orgs.Insert(NewOrg(key, cr))) else l.shared)
  }

  function DoDeleteOrg(key: Key, l: Local, now: nat): Local
    requires l.proc.At? && l.proc.point.DeleteOrg?
  {
    var At(cr, version, tokenId, DeleteOrg(id)) := l.proc;
    if l.shared.orgs.Live(id) then
      Local(l.slot, FinishTeardown(key.kind, cr, version, tokenId, now),
            l.shared.(orgs := l.shared.orgs.Remove(id, Operator)))
    else l.(proc := Idle(Failed))
  }

  /** The call the pass stands at, answered by the server. */
  function Effect(key: Key, l: Local, text: string, now: nat): Local
    requires l.proc.At? && |l.slot.versions| > 0
  {
    match l.proc.point
    case SaveObject => Store(l, l.proc.cr, l.proc.version, false)
    case SaveStatus => Store(l, l.proc.cr, l.proc.version, true)
    case Publish(_) => Store(l, l.proc.cr, l.proc.version, true)
    case GetConfig(_) => DoGetConfig(key, l)
    case GetCredential(_, _) => DoGetCredential(l)
    case FindOrg(_, _) => DoFindOrg(key, l)
    case ListAuths(_, _) => DoListAuths(key, l)
    case CreateAuth(_) => DoCreateAuth(key, l, text)
    case DeleteAuth => DoDeleteAuth(key, l, now)
    case CreateSecret(_, _) => DoCreateSecret(key, l, now)
    case ReadSecret(_, _) => DoReadSecret(key, l, now)
    case WriteSecret(_, _, _) => DoWriteSecret(key, l, now)
    case CreateBucket(_) => DoCreateBucket(key, l, now)
    case ListBuckets(_) => DoListBuckets(key, l)
    case DeleteBucket(_) => DoDeleteBucket(key, l, now)
    case CreateOrg => DoCreateOrg(key, l, now)
    case DeleteOrg(_) => DoDeleteOrg(key, l, now)
  }

  function DoRead(l: Local, index: nat, now: nat): Local
    requires l.slot.seen <= index < |l.slot.versions|
  {
    match l.slot.versions[index]
    case Some(cr) => l.(slot := l.slot.(seen := index), proc := BeginPass(cr, index, now))
    case None => l.(slot := l.slot.(seen := index), proc := Idle(NoRequeue))
  }

  /** One remote call of the pass for `key`. An outcome that does not fit leaves things as they are. */
  function Fire(key: Key, l: Local, o: Outcome): Local
    requires |l.slot.versions| > 0
  {
    match l.proc
    case Idle(_) =>
      (match o
       case Read(index, now) => if l.slot.seen <= index < |l.slot.versions| then DoRead(l, index, now) else l
       case Refused => l.(proc := Idle(Failed))
       case _ => l)
    case At(_, _, _, _) =>
      (match o
       case Read(_, _) => l
       case Reply(text, now) => Effect(key, l, text, now)
       case Refused => l.(proc := Idle(Failed))
       case Lost(text, now) => Effect(key, l, text, now).(proc := Idle(Failed)))
  }

  /******* The whole system *******/

  datatype State = State(slots: map<Key, Slot>, procs: map<Key, Proc>, used: set<Uid>, shared: Shared) {
    function SlotOf(key: Key): Slot {
      if key in slots then slots[key] else EMPTY_SLOT
    }

    function ProcOf(key: Key): Proc {
      if key in procs then procs[key] else Idle(NoRequeue)
    }

    function View(key: Key): Local {
      Local(SlotOf(key), ProcOf(key), shared)
    }

    function Put(key: Key, l: Local): State {
      this.(slots := if l.slot == SlotOf(key) then slots else slots[key := l.slot],
            procs := procs[key := l.proc],
            shared := l.shared)
    }

    predicate WellFormed() {
      forall key | key in slots :: |slots[key].versions| > 0
    }
  }

  /** Passes of the operator, users working on custom resources, and outsiders working
      on configs, secrets and the InfluxDB server. */
  datatype Action =
    | Step(key: Key, outcome: Outcome)
    | Crash(key: Key)
    | UserCreate(key: Key, uid: Uid, spec: Spec)
    | UserUpdate(key: Key, spec: Spec)
    | UserDelete(key: Key)
    | SetConfig(name: Name, config: Option<Config>)
    | SetSecret(name: Name, data: Option<map<string, string>>)
    | AddOrg(title: string)
    | DropOrg(id: nat)
    | AddAuth(org: nat, description: Option<string>, token: Option<string>, grants: seq<Grant>)
    | DropAuth(id: nat)
    | AddBucket(org: nat, title: string, everySeconds: int, about: string)
    | DropBucket(id: nat)

  function UserSlot(key: Key, slot: Slot, used: set<Uid>, a: Action): (next: Slot)
    requires |slot.versions| > 0
    requires a.UserCreate? || a.UserUpdate? || a.UserDelete?
    ensures |next.versions| > 0
  {
    match slot.Last()
    case None =>
      if a.UserCreate? && a.uid !in used && NoDots(a.uid) && NoDots(key.namespace)
         && ValidateCreate(key.kind, key.name, a.spec)
      then slot.Append(Some(Resource(a.uid, false, false, a.spec, BLANK)))
      else slot
    case Some(r) =>
      if a.UserUpdate? && ValidateUpdate(key.kind, r.spec, a.spec) then slot.Append(Some(r.(spec := a.spec)))
      else if a.UserDelete? && !r.finalizer then slot.Append(None)
      else if a.UserDelete? && !r.deleting then slot.Append(Some(r.(deleting := true)))
      else slot
  }

  function Outside(shared: Shared, a: Action): Shared {
    match a
    case SetConfig(name, Some(config)) => shared.(configs := shared.configs[name := config])
    case SetConfig(name, None) => shared.(configs := shared.configs - {name})
    case SetSecret(name, Some(data)) => PutSecret(shared, name, data)
    case SetSecret(name, None) => shared.(secrets := shared.secrets - {name})
    case AddOrg(title) =>
      if shared.orgs.First(0, title).Some? then shared
      else shared.(orgs := shared.orgs.Insert(Row(0, Some(title), None, OrganizationData)))
    case DropOrg(id) => if shared.orgs.Live(id) then shared.(orgs := shared.orgs.Remove(id, Outsider)) else shared
    case AddAuth(org, title, token, grants) =>
      shared.(auths := shared.auths.Insert(Row(org, title, None, AuthorizationData(token, grants))))
    case DropAuth(id) => if shared.auths.Live(id) then shared.(auths := shared.auths.Remove(id, Outsider)) else shared
    case AddBucket(org, title, everySeconds, description) =>
      if shared.buckets.First(org, title).Some? then shared
      else shared.(buckets := shared.buckets.Insert(Row(org, Some(title), None, BucketData(everySeconds, description))))
    case DropBucket(id) =>
      if shared.buckets.Live(id) then shared.(buckets := shared.buckets.Remove(id, Outsider)) else shared
    case _ => shared
  }

  function Apply(s: State, a: Action): State
    requires s.WellFormed()
  {
    match a
    case Step(key, o) => s.Put(key, Fire(key, s.View(key), o))
    case Crash(key) => if s.ProcOf(key).At? then s.(procs := s.procs[key := Idle(Crashed)]) else s
    case UserCreate(key, uid, _) =>
      var slot := UserSlot(key, s.SlotOf(key), s.used, a);
      s.(slots := s.slots[key := slot], used := s.used + {uid})
    case UserUpdate(key, _) => s.(slots := s.slots[key := UserSlot(key, s.SlotOf(key), s.used, a)])
    case UserDelete(key) => s.(slots := s.slots[key := UserSlot(key, s.SlotOf(key), s.used, a)])
    case _ => s.(shared := Outside(s.shared, a))
  }

  lemma ApplyKeepsWellFormed(s: State, a: Action)
    requires s.WellFormed()
    ensures Apply(s, a).WellFormed()
  {
  }

  function Run(s: State, actions: seq<Action>): (r: State)
    requires s.WellFormed()
    ensures r.WellFormed()
  {
    if actions == [] then s
    else
      var before := Run(s, actions[..|actions| - 1]);
      var a := actions[|actions| - 1];
      ApplyKeepsWellFormed(before, a);
      Apply(before, a)
  }

  lemma RunExtend(s: State, actions: seq<Action>, a: Action)
    requires s.WellFormed()
    ensures Run(s, actions + [a]) == Apply(Run(s, actions), a)
  {
  }

  lemma SplitLast<T>(first: seq<T>, second: seq<T>)
    requires second != []
    ensures var before, last := second[..|second| - 1], second[|second| - 1];
      second == before + [last] && first + second == (first + before) + [last]
  {
  }

  lemma {:induction false} RunConcat(s: State, first: seq<Action>, second: seq<Action>)
    requires s.WellFormed()
    ensures Run(s, first + second) == Run(Run(s, first), second)
  {
    if second == [] {
      assert first + second == first;
    } else {
      var before, last := second[..|second| - 1], second[|second| - 1];
      RunConcat(s, first, before);
      SplitLast(first, second);
      RunExtend(s, first + before, last);
      RunExtend(Run(s, first), before, last);
    }
  }

  lemma RunCons(s: State, a: Action, rest: seq<Action>)
    requires s.WellFormed() && Apply(s, a).WellFormed()
    ensures Run(s, [a] + rest) == Run(Apply(s, a), rest)
  {
    assert [a] == [] + [a];
    RunExtend(s, [], a);
    RunConcat(s, [a], rest);
  }

  /** The operator has done nothing yet: no custom resources, no rows of its own. */
  predicate Pristine(table: Table) {
    && (forall i | 0 <= i < |table.rows| :: table.rows[i].maker.None?)
    && (forall i | i in table.gone :: i < |table.rows|)
  }

  predicate Initial(s: State) {
    s.slots == map[] && s.procs == map[] && Pristine(s.shared.orgs) && Pristine(s.shared.auths)
        && Pristine(s.shared.buckets)
  }
}
