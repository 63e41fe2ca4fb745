/** Level-triggered repair: undisturbed passes bring a resource that is not being deleted,
    from whatever state it and the server are in, to a fixpoint. */
module Healing {
  import opened Types
  import opened Tables
  import opened Protocol
  import opened Safety
  import opened Finalizers
  import opened Passes
  import opened Deletion

  function Artefact(key: Key, shared: Shared, cr: Resource, org: nat): Option<nat> {
    FirstLeft(key, shared, cr, org)
  }

  /** The server shows the token of the authorization with this Token's description, if there is one. */
  predicate TokenVisible(key: Key, shared: Shared, cr: Resource, org: nat) {
    key.kind == TokenKind && Artefact(key, shared, cr, org).Some? ==>
      AuthorizationToken(shared.auths.rows[Artefact(key, shared, cr, org).value]).Some?
  }

  ghost predicate Healthy(key: Key, shared: Shared, cr: Resource, org: nat) {
    Reaches(key, shared, cr, false, org) && TokenVisible(key, shared, cr, org)
  }

  /** The secret that the spec of a Token names has data, and its entry `token` is the token
      of the authorization; a missing entry reads as the empty string. */
  predicate SecretRight(key: Key, shared: Shared, cr: Resource, org: nat) {
    key.kind == TokenKind ==>
      && Artefact(key, shared, cr, org).Some?
      && Name(key.namespace, cr.spec.secretName) in shared.secrets
      && var data := shared.secrets[Name(key.namespace, cr.spec.secretName)].data;
         && data != map[]
         && var payload := shared.auths.rows[Artefact(key, shared, cr, org).value].payload;
            payload.AuthorizationData? && payload.token == Some(if "token" in data then data["token"] else "")
  }

  predicate Settled(key: Key, shared: Shared, cr: Resource, org: nat) {
    && Mentions(cr.status.conditions, Created(key.kind))
    && Artefact(key, shared, cr, org).Some?
    && SecretRight(key, shared, cr, org)
  }

  /** How many passes, at most, are missing to the fixpoint. */
  function Gap(key: Key, shared: Shared, cr: Resource, org: nat): nat {
    if !cr.finalizer then 3
    else if !Mentions(cr.status.conditions, FinalizerAdded) then 2
    else if !Settled(key, shared, cr, org) then 1
    else 0
  }

  ghost predicate Alive(l: Local) {
    |l.slot.versions| > 0 && l.slot.Last().Some? && !l.slot.Last().value.deleting
  }

  /******* What the work of one pass comes to *******/

  predicate Missing(key: Key, shared: Shared, cr: Resource, org: nat) {
    Artefact(key, shared, cr, org).None?
  }

  function NewRow(key: Key, cr: Resource, org: nat, text: string): Row {
    match key.kind
    case TokenKind => NewAuth(key, cr, org, text)
    case BucketKind => NewBucket(key, cr, org)
    case OrganizationKind => NewOrg(key, cr)
  }

  /** The server after the artefact has been created if it was missing. */
  function WithArtefact(key: Key, shared: Shared, cr: Resource, org: nat, text: string): Shared {
    if Missing(key, shared, cr, org)
    then WithTable(shared, key.kind, TableOf(shared, key.kind).Insert(NewRow(key, cr, org, text)))
    else shared
  }

  /** The token a pass ends up with: the listed one, or the one just issued. */
  function TokenInHand(key: Key, shared: Shared, cr: Resource, org: nat, text: string): string
    requires key.kind == TokenKind && TokenVisible(key, shared, cr, org)
  {
    match Artefact(key, shared, cr, org)
    case Some(i) => AuthorizationToken(shared.auths.rows[i]).value
    case None => text
  }

  function WithSecret(key: Key, shared: Shared, cr: Resource, token: string): Shared {
    var name := Name(key.namespace, cr.spec.secretName);
    if name in shared.secrets
       && var data := shared.secrets[name].data;
          data != map[] && (if "token" in data then data["token"] else "") == token
    then shared
    else PutSecret(shared, name, map["token" := token])
  }

  function Repaired(key: Key, shared: Shared, cr: Resource, org: nat, text: string): Shared
    requires TokenVisible(key, shared, cr, org)
  {
    var made := WithArtefact(key, shared, cr, org, text);
    if key.kind == TokenKind then WithSecret(key, made, cr, TokenInHand(key, shared, cr, org, text)) else made
  }

  /** The pass with its work done, at the tail of ReconcileResources. */
  function AtTheTail(key: Key, l: Local, org: nat, text: string, now: nat): Local
    requires l.proc.At? && TokenVisible(key, l.shared, l.proc.cr, org)
  {
    var cr := l.proc.cr;
    var created := Missing(key, l.shared, cr, org);
    Local(l.slot,
          if key.kind == TokenKind then
            FinishResources(key.kind, cr, l.proc.version,
                            Some(if created then |l.shared.auths.rows| else Artefact(key, l.shared, cr, org).value),
                            created, Publish(TokenInHand(key, l.shared, cr, org, text)), now)
          else FinishResources(key.kind, cr, l.proc.version, l.proc.tokenId, created, SaveStatus, now),
          Repaired(key, l.shared, cr, org, text))
  }

  lemma RefreshWork(key: Key, l: Local, text: string, now: nat)
    requires |l.slot.versions| > 0 && l.proc.At? && l.proc.point.ReadSecret?
    requires SecretName(key, l.proc.cr) in l.shared.secrets
    ensures var At(cr, version, tokenId, ReadSecret(token, created)) := l.proc;
      Drive(key, l, text, now)
      == Drive(key, Local(l.slot, FinishResources(key.kind, cr, version, tokenId, created, Publish(token), now),
                          WithSecret(key, l.shared, cr, token)), text, now)
  {
    var At(cr, version, tokenId, ReadSecret(token, created)) := l.proc;
    var secret := l.shared.secrets[SecretName(key, cr)];
    DriveStep(key, l, text, now);
    if !Carries(secret.data, token) {
      DriveStep(key, l.(proc := l.proc.(point := WriteSecret(token, created, secret.stamp))), text, now);
    }
  }

  lemma SecretWork(key: Key, l: Local, text: string, now: nat)
    requires |l.slot.versions| > 0 && l.proc.At? && l.proc.point.CreateSecret?
    ensures var At(cr, version, tokenId, CreateSecret(token, created)) := l.proc;
      Drive(key, l, text, now)
      == Drive(key, Local(l.slot, FinishResources(key.kind, cr, version, tokenId, created, Publish(token), now),
                          WithSecret(key, l.shared, cr, token)), text, now)
  {
    var At(cr, version, tokenId, CreateSecret(token, created)) := l.proc;
    DriveStep(key, l, text, now);
    if SecretName(key, cr) in l.shared.secrets {
      RefreshWork(key, l.(proc := l.proc.(point := ReadSecret(token, created))), text, now);
    }
  }

  lemma AuthWork(key: Key, l: Local, org: nat, text: string, now: nat)
    requires |l.slot.versions| > 0 && l.proc.At? && l.proc.point == ListAuths(false, org)
    requires key.kind == TokenKind && TokenVisible(key, l.shared, l.proc.cr, org)
    ensures Drive(key, l, text, now) == Drive(key, AtTheTail(key, l, org, text, now), text, now)
  {
    DriveStep(key, l, text, now);
    var cr, version := l.proc.cr, l.proc.version;
    match Artefact(key, l.shared, cr, org)
    case Some(i) =>
      var token := AuthorizationToken(l.shared.auths.rows[i]).value;
      SecretWork(key, l.(proc := At(cr, version, Some(i), CreateSecret(token, false))), text, now);
    case None =>
      var creating := l.(proc := l.proc.(point := CreateAuth(org)));
      DriveStep(key, creating, text, now);
      SecretWork(key, Effect(key, creating, text, now), text, now);
  }

  lemma WorkEndsAtTheTail(key: Key, l: Local, org: nat, text: string, now: nat)
    requires |l.slot.versions| > 0 && l.proc.At? && l.proc.point == GetConfig(false)
    requires Healthy(key, l.shared, l.proc.cr, org)
    ensures Drive(key, l, text, now) == Drive(key, AtTheTail(key, l, org, text, now), text, now)
  {
    DriveReaches(key, l, false, org, text, now);
    var there := l.(proc := l.proc.(point := AfterFindOrg(key.kind, false, org)));
    match key.kind
    case TokenKind => AuthWork(key, there, org, text, now);
    case BucketKind => DriveStep(key, there, text, now);
    case OrganizationKind => DriveStep(key, there, text, now);
  }

  lemma InsertMakesFirst(table: Table, row: Row, parent: nat, title: string)
    requires table.First(parent, title).None? && row.parent == parent && row.title == Some(title)
    requires forall i | i in table.gone :: i < |table.rows|
    ensures table.Insert(row).First(parent, title) == Some(|table.rows|)
  {
    var next := table.Insert(row);
    assert next.Hit(|table.rows|, parent, title);
    forall i: nat | i < |table.rows| ensures !next.Hit(i, parent, title) {
      assert !table.Hit(i, parent, title);
    }
  }

  lemma InsertKeepsFirst(table: Table, row: Row, parent: nat, title: string)
    requires table.First(parent, title).Some?
    ensures table.Insert(row).First(parent, title) == table.First(parent, title)
  {
    var next, i := table.Insert(row), table.First(parent, title).value;
    assert next.Hit(i, parent, title);
    forall j: nat | j < i ensures !next.Hit(j, parent, title) {
      assert !table.Hit(j, parent, title);
    }
  }

  ghost predicate GoneInRange(shared: Shared) {
    && (forall i | i in shared.orgs.gone :: i < |shared.orgs.rows|)
    && (forall i | i in shared.auths.gone :: i < |shared.auths.rows|)
    && (forall i | i in shared.buckets.gone :: i < |shared.buckets.rows|)
  }

  /** After the work, the artefact is there and the secret is right. */
  lemma RepairedIsRight(key: Key, shared: Shared, cr: Resource, org: nat, text: string)
    requires TokenVisible(key, shared, cr, org) && GoneInRange(shared)
    ensures var next := Repaired(key, shared, cr, org, text);
      && Artefact(key, next, cr, org).Some? && TokenVisible(key, next, cr, org) && SecretRight(key, next, cr, org)
      && GoneInRange(next)
  {
    assert KEY_TOKEN in map[KEY_TOKEN := text];
    if key.kind == TokenKind {
      assert KEY_TOKEN in map[KEY_TOKEN := TokenInHand(key, shared, cr, org, text)];
    }
    if Missing(key, shared, cr, org) {
      InsertMakesFirst(TableOf(shared, key.kind), NewRow(key, cr, org, text), Home(key.kind, org), TitleOf(key, cr));
    }
  }

  lemma RepairKeepsReach(key: Key, shared: Shared, cr: Resource, org: nat, text: string)
    requires Healthy(key, shared, cr, org)
    ensures Reaches(key, Repaired(key, shared, cr, org, text), cr, false, org)
  {
    if key.kind == OrganizationKind && Missing(key, shared, cr, org) {
      var config := shared.configs[Name(key.namespace, ConfigName(key, cr.spec))];
      InsertKeepsFirst(shared.orgs, NewRow(key, cr, org, text), 0, config.orgName);
    }
  }

  /** A settled resource needs no repair. */
  lemma SettledNeedsNothing(key: Key, shared: Shared, cr: Resource, org: nat, text: string)
    requires TokenVisible(key, shared, cr, org) && Settled(key, shared, cr, org)
    ensures Repaired(key, shared, cr, org, text) == shared && !Missing(key, shared, cr, org)
  {
  }

  /******* Single passes *******/

  lemma MentionsAppend(conditions: seq<Condition>, c: Condition, reason: Reason)
    ensures Mentions(conditions + [c], reason) <==> Mentions(conditions, reason) || c.reason == reason
  {
    var i, j := FirstReason(conditions, reason), FirstReason(conditions + [c], reason);
    if i < |conditions| {
      assert (conditions + [c])[i].reason == reason;
    }
    assert (conditions + [c])[|conditions|] == c;
  }

  lemma MentionsTouch(conditions: seq<Condition>, touched: Reason, now: nat, reason: Reason)
    ensures Mentions(Touch(conditions, touched, now), reason) <==> Mentions(conditions, reason)
  {
  }

  lemma FinalizerPass(key: Key, l: Local, text: string, now: nat)
    requires Alive(l) && !l.slot.Last().value.finalizer
    ensures var cr, r := l.slot.Last().value, Pass(key, l, text, now);
      && r.slot.versions == l.slot.versions + [Some(cr.(finalizer := true))]
      && r.shared == l.shared && r.proc == Idle(NoRequeue)
  {
    DriveSaves(key, Begin(l, now), text, now);
  }

  lemma InitializingPass(key: Key, l: Local, text: string, now: nat)
    requires Alive(l) && l.slot.Last().value.finalizer
        && !Mentions(l.slot.Last().value.status.conditions, FinalizerAdded)
    ensures var cr, r := l.slot.Last().value, Pass(key, l, text, now);
      && r.slot.versions == l.slot.versions + [Some(cr.(status := InitialStatus(now)))]
      && r.shared == l.shared && r.proc == Idle(NoRequeue)
  {
    DriveSaves(key, Begin(l, now), text, now);
  }

  /** The status a working pass leaves behind. */
  function WorkedStatus(key: Key, shared: Shared, cr: Resource, org: nat, now: nat): Status {
    if !Mentions(cr.status.conditions, Created(key.kind)) then ReadyStatus(key.kind, cr.status, now)
    else if Missing(key, shared, cr, org) then RecreatedStatus(key.kind, cr.status, Some(|shared.auths.rows|), now)
    else cr.status
  }

  predicate StatusDue(key: Key, shared: Shared, cr: Resource, org: nat) {
    !Mentions(cr.status.conditions, Created(key.kind)) || Missing(key, shared, cr, org)
  }

  ghost predicate Initialized(l: Local) {
    Alive(l) && l.slot.Last().value.finalizer && Mentions(l.slot.Last().value.status.conditions, FinalizerAdded)
  }

  lemma WorkingPass(key: Key, l: Local, org: nat, text: string, now: nat)
    requires Initialized(l) && Healthy(key, l.shared, l.slot.Last().value, org)
    ensures var cr, r := l.slot.Last().value, Pass(key, l, text, now);
      && r.shared == Repaired(key, l.shared, cr, org, text)
      && if StatusDue(key, l.shared, cr, org)
         then r.proc == Idle(NoRequeue)
              && r.slot.versions == l.slot.versions + [Some(cr.(status := WorkedStatus(key, l.shared, cr, org, now)))]
         else r.proc == Idle(RequeueAfterMinute) && r.slot.versions == l.slot.versions
  {
    var begun := Begin(l, now);
    WorkEndsAtTheTail(key, begun, org, text, now);
    var tail := AtTheTail(key, begun, org, text, now);
    if tail.proc.At? {
      DriveSaves(key, tail, text, now);
    }
  }

  /** The config, the credential or the organization is missing. */
  predicate Blocked(key: Key, shared: Shared, cr: Resource) {
    var name := Name(key.namespace, ConfigName(key, cr.spec));
    || name !in shared.configs
    || Name(shared.configs[name].secretNamespace, shared.configs[name].secretName) !in shared.secrets
    || shared.orgs.First(0, shared.configs[name].orgName).None?
  }

  /** A pass that cannot reach its surroundings fails and leaves both stores alone. */
  lemma BlockedPass(key: Key, l: Local, text: string, now: nat)
    requires Initialized(l)
    requires Blocked(key, l.shared, l.slot.Last().value)
    ensures var r := Pass(key, l, text, now);
      r.slot.versions == l.slot.versions && r.shared == l.shared && r.proc == Idle(Failed)
  {
    var begun := Begin(l, now);
    var name := Name(key.namespace, ConfigName(key, begun.proc.cr.spec));
    DriveStep(key, begun, text, now);
    if name in l.shared.configs {
      var config := l.shared.configs[name];
      var second := begun.(proc := begun.proc.(point := GetCredential(false, config)));
      DriveStep(key, second, text, now);
      if Name(config.secretNamespace, config.secretName) in l.shared.secrets {
        DriveStep(key, second.(proc := second.proc.(point := FindOrg(false, config))), text, now);
      }
    }
  }

  lemma WorkedIsInitialized(key: Key, shared: Shared, cr: Resource, org: nat, now: nat)
    requires Mentions(cr.status.conditions, FinalizerAdded)
    ensures Mentions(WorkedStatus(key, shared, cr, org, now).conditions, FinalizerAdded)
    ensures StatusDue(key, shared, cr, org) ==>
        Mentions(WorkedStatus(key, shared, cr, org, now).conditions, Created(key.kind))
  {
    var conditions := cr.status.conditions;
    MentionsAppend(conditions, Condition(Created(key.kind), now), FinalizerAdded);
    MentionsAppend(conditions, Condition(Created(key.kind), now), Created(key.kind));
    MentionsTouch(conditions, Created(key.kind), now, FinalizerAdded);
    MentionsTouch(conditions, Created(key.kind), now, Created(key.kind));
  }

  /******* The fixpoint *******/

  ghost predicate Ongoing(key: Key, l: Local, org: nat) {
    Alive(l) && Healthy(key, l.shared, l.slot.Last().value, org) && GoneInRange(l.shared)
  }

  /** At the fixpoint a pass changes neither store and asks to come back in a minute;
      before it, every pass comes closer. */
  lemma HealingPass(key: Key, l: Local, org: nat, text: string, now: nat)
    requires Ongoing(key, l, org)
    ensures var r := Pass(key, l, text, now);
      && Ongoing(key, r, org)
      && var before := Gap(key, l.shared, l.slot.Last().value, org);
         var after := Gap(key, r.shared, r.slot.Last().value, org);
         if before == 0
         then r.slot.versions == l.slot.versions && r.shared == l.shared && r.proc == Idle(RequeueAfterMinute)
         else after < before
  {
    var cr := l.slot.Last().value;
    if !cr.finalizer {
      FinalizerPass(key, l, text, now);
    } else if !Mentions(cr.status.conditions, FinalizerAdded) {
      InitializingPass(key, l, text, now);
      assert InitialStatus(now).conditions[0].reason == FinalizerAdded;
    } else {
      WorkingPass(key, l, org, text, now);
      RepairedIsRight(key, l.shared, cr, org, text);
      RepairKeepsReach(key, l.shared, cr, org, text);
      WorkedIsInitialized(key, l.shared, cr, org, now);
      if Settled(key, l.shared, cr, org) {
        SettledNeedsNothing(key, l.shared, cr, org, text);
      }
    }
  }

  /** From any state at all, at most three undisturbed passes reach the fixpoint. */
  lemma {:induction false} ThreePassesHeal(key: Key, l: Local, org: nat, moments: seq<Moment>)
    requires Ongoing(key, l, org)
    requires |moments| >= Gap(key, l.shared, l.slot.Last().value, org)
    ensures Gap(key, l.shared, l.slot.Last().value, org) <= 3
    ensures var r := PassTimes(key, l, moments);
      Ongoing(key, r, org) && Gap(key, r.shared, r.slot.Last().value, org) == 0
    decreases moments
  {
    if moments != [] {
      var Moment(text, now) := moments[0];
      HealingPass(key, l, org, text, now);
      ThreePassesHeal(key, Pass(key, l, text, now), org, moments[1..]);
    }
  }
}
