/** The reconcilers, phase by phase. Each phase works on the resource in memory and makes
    its remote calls through a `World`, and so every way through `Reconcile`, with any
    calls failing and anybody else acting in between, is a run of the state machine. */
module Reconcilers {
  import opened Types
  import opened Tables
  import opened Descriptions
  import opened Protocol
  import opened Safety
  import opened Tokens
  import opened PassShape
  import opened Passes
  import opened Servers

  /** What a phase returns; the source returns nil, the error `ObjectUpdated`, or another error. */
  datatype Signal = Nil | ObjectUpdated | Failure

  /** A custom resource in memory. */
  class CustomResource {
    const uid: Uid
    const version: nat
    const deleting: bool
    const spec: Spec
    var finalizer: bool
    var phase: Phase
    var conditions: seq<Condition>
    var reason: Option<Reason>
    var data: Option<nat>

    constructor (cr: Resource, version: nat)
      ensures Value() == cr && this.version == version
    {
      uid, this.version, deleting, spec, finalizer := cr.uid, version, cr.deleting, cr.spec, cr.finalizer;
      phase, conditions, reason, data := cr.status.phase, cr.status.conditions, cr.status.reason, cr.status.data;
    }

    function Value(): Resource
      reads this
    {
      Resource(uid, deleting, finalizer, spec, Status(phase, conditions, reason, data))
    }

    method SetStatus(status: Status)
      modifies this`phase, this`conditions, this`reason, this`data
      ensures Value() == old(Value()).(status := status)
    {
      phase, conditions, reason, data := status.phase, status.conditions, status.reason, status.data;
    }

    /** Refreshes the transition time of the first condition with this reason. */
    method TouchCondition(reason: Reason, now: nat) returns (found: bool)
      modifies this`conditions
      ensures found == Mentions(old(conditions), reason)
      ensures Value()
          == old(Value()).(status := old(Value()).status.(conditions := Touch(old(conditions), reason, now)))
    {
      found := false;
      for i := 0 to |conditions|
        invariant !found && conditions == old(conditions)
        invariant forall j | 0 <= j < i :: conditions[j].reason != reason
      {
        if conditions[i].reason == reason {
          assert FirstReason(conditions, reason) == i;
          conditions := conditions[i := conditions[i].(transition := now)];
          found := true;
          break;
        }
      }
    }

    method HasCondition(reason: Reason) returns (found: bool)
      ensures found == Mentions(conditions, reason)
    {
      found := false;
      for i := 0 to |conditions|
        invariant !found
        invariant forall j | 0 <= j < i :: conditions[j].reason != reason
      {
        if conditions[i].reason == reason {
          found := true;
          break;
        }
      }
    }
  }

  /** The operator has removed the row, and it had this parent and title. */
  predicate Gone(table: Table, id: nat, parent: nat, title: string) {
    && id < |table.rows| && table.rows[id].parent == parent && table.rows[id].title == Some(title)
    && id in table.gone && table.gone[id] == Operator
  }

  /** The server has this row, with this parent and title, and shows its token. */
  predicate Shows(auths: Table, id: nat, parent: nat, title: string, token: string) {
    id < |auths.rows| && auths.rows[id].parent == parent && auths.rows[id].title == Some(title)
    && AuthorizationToken(auths.rows[id]) == Some(token)
  }

  class Reconciler {
    const world: World

    constructor (world: World)
      ensures this.world == world
    {
      this.world := world;
    }

    /** The pass is over, with the result that this signal of its last phase is mapped to. */
    ghost predicate Over(key: Key, e: Signal)
      reads world
    {
      && (e == ObjectUpdated ==> world.ProcOf(key) == Idle(NoRequeue))
      && (e == Failure ==> world.ProcOf(key) == Idle(Failed))
    }

    /** The pass ended with sending this resource, and `e` says whether that was accepted. */
    ghost predicate Wrote(key: Key, e: Signal, cr: Resource, version: nat, status: bool)
      reads world, world.cluster, world.influx
    {
      world.Sent(key, cr, version, status) && (e == ObjectUpdated <==> world.Accepted(key, version))
    }

    /******* Phases all kinds share *******/

    method UpdateStatus(key: Key, cr: CustomResource) returns (e: Signal)
      requires world.Valid() && world.ProcOf(key).At?
      requires world.ProcOf(key).point.SaveStatus? || world.ProcOf(key).point.Publish?
      requires world.ProcOf(key).cr == cr.Value() && world.ProcOf(key).version == cr.version
      modifies world, world.cluster, world.influx
      ensures world.Since(key, old(world.Here(key)))
      ensures e != Nil && Over(key, e) && Wrote(key, e, cr.Value(), cr.version, true)
    {
      var ok := world.SaveResource(key, cr.Value(), cr.version, true);
      return if ok then ObjectUpdated else Failure;
    }

    method Update(key: Key, cr: CustomResource) returns (e: Signal)
      requires world.Valid() && world.ProcOf(key) == At(cr.Value(), cr.version, None, SaveObject)
      modifies world, world.cluster, world.influx
      ensures world.Since(key, old(world.Here(key)))
      ensures e != Nil && Over(key, e) && Wrote(key, e, cr.Value(), cr.version, false)
    {
      var ok := world.SaveResource(key, cr.Value(), cr.version, false);
      return if ok then ObjectUpdated else Failure;
    }

    method FinalizeStatus(key: Key, cr: CustomResource) returns (e: Signal)
      requires world.Valid() && cr.deleting
      requires world.ProcOf(key) == BeginPass(cr.Value(), cr.version, world.clock)
      modifies world, world.cluster, world.influx, cr
      ensures world.Since(key, old(world.Here(key)))
      ensures Over(key, e)
      ensures e == Nil ==> world.ProcOf(key) == old(world.ProcOf(key)) && cr.Value() == old(cr.Value())
      ensures e == Nil <==> !old(cr.finalizer) || old(cr.phase) == Terminating
      ensures e != Nil ==>
        Wrote(key, e, old(cr.Value()).(status := TerminatingStatus(old(cr.Value().status))), cr.version, true)
    {
      if !cr.finalizer {
        return Nil;
      }
      if cr.phase != Terminating {
        cr.SetStatus(Status(Terminating, cr.conditions, Some(ObjectMarkedForDeletion), None));
        e := UpdateStatus(key, cr);
        return;
      }
      return Nil;
    }

    method RemoveFinalizer(key: Key, cr: CustomResource) returns (e: Signal)
      requires world.Valid()
      requires cr.finalizer ==> world.ProcOf(key) == DropFinalizer(cr.Value(), cr.version)
      modifies world, world.cluster, world.influx, cr
      ensures world.Since(key, old(world.Here(key)))
      ensures Over(key, e)
      ensures e == Nil <==> !old(cr.finalizer)
      ensures e != Nil ==> Wrote(key, e, old(cr.Value()).(finalizer := false), cr.version, false)
      ensures e == Nil ==> world.ProcOf(key) == old(world.ProcOf(key))
    {
      if !cr.finalizer {
        return Nil;
      }
      cr.finalizer := false;
      e := Update(key, cr);
    }

    method AddFinalizer(key: Key, cr: CustomResource) returns (e: Signal)
      requires world.Valid() && !cr.deleting
      requires world.ProcOf(key) == BeginPass(cr.Value(), cr.version, world.clock)
      modifies world, world.cluster, world.influx, cr
      ensures world.Since(key, old(world.Here(key)))
      ensures Over(key, e)
      ensures e == Nil <==> old(cr.finalizer)
      ensures e == Nil ==> cr.Value() == old(cr.Value())
      ensures e != Nil ==> Wrote(key, e, old(cr.Value()).(finalizer := true), cr.version, false)
      ensures e == Nil ==> world.ProcOf(key) == old(world.ProcOf(key)) && world.clock == old(world.clock)
    {
      if cr.finalizer {
        return Nil;
      }
      cr.finalizer := true;
      e := Update(key, cr);
    }

    method InitializeStatus(key: Key, cr: CustomResource) returns (e: Signal)
      requires world.Valid() && !cr.deleting && cr.finalizer
      requires world.ProcOf(key) == BeginPass(cr.Value(), cr.version, world.clock)
      modifies world, world.cluster, world.influx, cr
      ensures world.Since(key, old(world.Here(key)))
      ensures Over(key, e)
      ensures e == Nil <==> old(Mentions(cr.conditions, FinalizerAdded))
      ensures e == Nil ==> world.ProcOf(key) == At(cr.Value(), cr.version, cr.data, GetConfig(false))
      ensures e == Nil ==> cr.Value() == old(cr.Value())
      ensures e != Nil ==>
        Wrote(key, e, old(cr.Value()).(status := InitialStatus(old(world.clock))), cr.version, true)
    {
      var found := cr.HasCondition(FinalizerAdded);
      if !found {
        cr.SetStatus(Status(Pending, [Condition(FinalizerAdded, world.clock)], Some(ObjectInitialized), None));
        e := UpdateStatus(key, cr);
        return;
      }
      return Nil;
    }

    /** The beginning of every FinalizeResources and ReconcileResources: the config and the
        secret it names. Only a missing config is told from other failures. */
    method ReadConfig(key: Key, name: Name) returns (r: Answer<Config>)
      requires world.Valid() && world.ProcOf(key).At? && world.ProcOf(key).point.GetConfig?
      requires name == Name(key.namespace, ConfigName(key, world.ProcOf(key).cr.spec))
      modifies world, world.cluster, world.influx
      ensures world.Since(key, old(world.Here(key)))
      ensures var p := old(world.ProcOf(key));
        world.ProcOf(key) == match r
          case Found(config) => p.(point := FindOrg(p.point.teardown, config))
          case Missing => if p.point.teardown then DropFinalizer(p.cr, p.version) else Idle(Failed)
          case Error => Idle(Failed)
    {
      r := world.GetConfig(key, name);
      if r.Found? {
        var secret := world.GetCredential(key, Name(r.value.secretNamespace, r.value.secretName));
        if !secret.Found? {
          r := Error;
        }
      }
    }

    /** The beginning of every ReconcileResources: config, credential, and the organization
        that the config names. Anything missing is an error. */
    method ReachOrganization(key: Key, name: Name) returns (r: Option<nat>)
      requires world.Valid() && world.ProcOf(key).At? && world.ProcOf(key).point == GetConfig(false)
      requires name == Name(key.namespace, ConfigName(key, world.ProcOf(key).cr.spec))
      modifies world, world.cluster, world.influx
      ensures world.Since(key, old(world.Here(key)))
      ensures var p := old(world.ProcOf(key));
        world.ProcOf(key) == match r
          case Some(id) => p.(point := AfterFindOrg(key.kind, false, id))
          case None => Idle(Failed)
    {
      var config := ReadConfig(key, name);
      if !config.Found? {
        return None;
      }
      var organization := world.FindOrganizationByName(key, config.value.orgName);
      return if organization.Found? then Some(organization.value) else None;
    }

    /** The search loop of a FinalizeResources over what the server lists. */
    static method Search(listing: seq<Listed>, title: string) returns (id: Option<nat>)
      ensures id == if FirstTitled(listing, title) == |listing| then None
          else Some(listing[FirstTitled(listing, title)].id)
    {
      id := None;
      for i := 0 to |listing|
        invariant id.None?
        invariant forall j | 0 <= j < i :: listing[j].row.title != Some(title)
      {
        if listing[i].row.title == Some(title) {
          assert FirstTitled(listing, title) == i;
          id := Some(listing[i].id);
          break;
        }
      }
    }

    /** The end of every FinalizeResources, once something has been deleted. */
    method RecordDeletion(key: Key, cr: CustomResource, tokenId: Option<nat>) returns (e: Signal)
      requires world.Valid()
      requires world.ProcOf(key) == FinishTeardown(key.kind, cr.Value(), cr.version, tokenId, world.clock)
      modifies world, world.cluster, world.influx, cr
      ensures world.Since(key, old(world.Here(key)))
      ensures e != Nil && Over(key, e)
      ensures var before := old(cr.Value());
        Wrote(key, e, before.(status := DeletedStatus(key.kind, before.status, old(world.clock))), cr.version, true)
    {
      var found := cr.TouchCondition(Deleted(key.kind), world.clock);
      if !found {
        cr.SetStatus(Status(cr.phase, cr.conditions + [Condition(Deleted(key.kind), world.clock)],
            Some(Deleted(key.kind)), None));
      }
      e := UpdateStatus(key, cr);
    }

    /** The end of every ReconcileResources. */
    method RecordCreation(key: Key, cr: CustomResource, tokenId: Option<nat>, created: bool, ghost point: Point)
        returns (e: Signal)
      requires world.Valid() && (point.SaveStatus? || point.Publish?)
      requires world.ProcOf(key)
          == FinishResources(key.kind, cr.Value(), cr.version, tokenId, created, point, world.clock)
      modifies world, world.cluster, world.influx, cr
      ensures world.Since(key, old(world.Here(key)))
      ensures Over(key, e)
      ensures e == Nil ==> world.ProcOf(key) == Idle(RequeueAfterMinute)
      ensures var before := old(cr.Value());
        match TailStatus(key.kind, before.status, tokenId, created, old(world.clock))
        case None => e == Nil && world.Now() == old(world.Now()) && world.log == old(world.log)
        case Some(status) => e != Nil && Wrote(key, e, before.(status := status), cr.version, true)
    {
      var found := false;
      for i := 0 to |cr.conditions|
        invariant !found && cr.Value() == old(cr.Value())
        invariant forall j | 0 <= j < i :: cr.conditions[j].reason != Created(key.kind)
      {
        if cr.conditions[i].reason == Created(key.kind) {
          assert FirstReason(cr.conditions, Created(key.kind)) == i;
          if created {
            cr.conditions := cr.conditions[i := cr.conditions[i].(transition := world.clock)];
            if key.kind == TokenKind {
              cr.data := tokenId;
            }
          }
          found := true;
          break;
        }
      }
      if !found {
        cr.SetStatus(Status(Ready, cr.conditions + [Condition(Created(key.kind), world.clock)],
            Some(Created(key.kind)), None));
        e := UpdateStatus(key, cr);
      } else if created {
        e := UpdateStatus(key, cr);
      } else {
        e := Nil;
      }
    }

    /******* Tokens *******/

    method FinalizeToken(key: Key, cr: CustomResource) returns (e: Signal)
      requires world.Valid() && key.kind == TokenKind
      requires cr.finalizer ==> world.ProcOf(key) == At(cr.Value(), cr.version, cr.data, GetConfig(true))
      modifies world, world.cluster, world.influx, cr
      ensures world.Since(key, old(world.Here(key)))
      ensures Over(key, e)
      ensures e == Nil ==> cr.Value() == old(cr.Value())
      ensures e == Nil ==>
          world.ProcOf(key) == if cr.finalizer then DropFinalizer(cr.Value(), cr.version) else old(world.ProcOf(key))
    {
      if !cr.finalizer {
        return Nil;
      }
      var config := ReadConfig(key, Name(key.namespace, cr.spec.configName));
      if config.Missing? {
        return Nil;
      } else if config.Error? {
        return Failure;
      }
      var organization := world.FindOrganizationByName(key, config.value.orgName);
      if organization.Missing? {
        return Nil;
      } else if organization.Error? {
        return Failure;
      }
      e := FinalizeListedAuthorization(key, cr, organization.value);
    }

    method FinalizeListedAuthorization(key: Key, cr: CustomResource, organization: nat) returns (e: Signal)
      requires world.Valid() && key.kind == TokenKind && cr.finalizer
      requires world.ProcOf(key) == At(cr.Value(), cr.version, cr.data, ListAuths(true, organization))
      modifies world, world.cluster, world.influx, cr
      ensures world.Since(key, old(world.Here(key)))
      ensures Over(key, e)
      ensures e == Nil ==> cr.Value() == old(cr.Value()) && world.ProcOf(key) == DropFinalizer(cr.Value(), cr.version)
    {
      var deleted := DeleteAuthorization(key, cr, organization);
      match deleted
      case Missing => e := Nil;
      case Error => e := Failure;
      case Found(_) => e := RecordDeletion(key, cr, Some(deleted.value));
    }

    /** Deletes the first authorization listed with the Token's description, if there is one. */
    method DeleteAuthorization(key: Key, cr: CustomResource, organization: nat) returns (r: Answer<nat>)
      requires world.Valid() && key.kind == TokenKind && cr.finalizer
      requires world.ProcOf(key) == At(cr.Value(), cr.version, cr.data, ListAuths(true, organization))
      modifies world, world.cluster, world.influx
      ensures world.Since(key, old(world.Here(key)))
      ensures var title := TitleOf(key, cr.Value());
        match r
        case Found(tokenId) =>
          && Gone(world.influx.auths, tokenId, organization, title)
          && world.ProcOf(key) == FinishTeardown(key.kind, cr.Value(), cr.version, Some(tokenId), world.clock)
        case Missing =>
          && world.influx.auths.First(organization, title).None?
          && world.ProcOf(key) == DropFinalizer(cr.Value(), cr.version)
        case Error => world.ProcOf(key) == Idle(Failed)
    {
      r := FindAuthorization(key, cr, organization);
      if r.Found? {
        var ok := world.DeleteAuthorizationWithID(key, r.value);
        if !ok {
          r := Error;
        }
      }
    }

    /** The recorded token id gives way to the one that is found. */
    method FindAuthorization(key: Key, cr: CustomResource, organization: nat) returns (r: Answer<nat>)
      requires world.Valid() && key.kind == TokenKind && cr.finalizer
      requires world.ProcOf(key) == At(cr.Value(), cr.version, cr.data, ListAuths(true, organization))
      modifies world, world.cluster, world.influx
      ensures world.Since(key, old(world.Here(key)))
      ensures !r.Error? ==>
        world.influx.auths.First(organization, TitleOf(key, cr.Value())) == if r.Found? then Some(r.value) else None
      ensures world.ProcOf(key) == match r
        case Found(tokenId) => At(cr.Value(), cr.version, Some(tokenId), DeleteAuth)
        case Missing => DropFinalizer(cr.Value(), cr.version)
        case Error => Idle(Failed)
    {
      var description := AuthorizationDescription(key.name, key.namespace, cr.uid);
      var authorizations := world.FindAuthorizationsByOrgID(key, organization);
      if !authorizations.Found? {
        return Error;
      }
      ListingFindsFirst(world.influx.auths, organization, description, 0);
      var tokenId := Search(authorizations.value, description);
      return if tokenId.Some? then Found(tokenId.value) else Missing;
    }

    /** The permissions as sent to the server. */
    method BuildPermissions(permissions: seq<Permission>, org: nat) returns (grants: array<Grant>)
      ensures fresh(grants) && grants[..] == BuildGrants(permissions, org)
      ensures grants.Length == |permissions|
      ensures forall i | 0 <= i < |permissions| ::
        && grants[i].action == permissions[i].permissionType
        && grants[i].resourceType == permissions[i].resourceType
        && grants[i].resourceName == permissions[i].resourceName
        && grants[i].org == if permissions[i].resourceType == "orgs" then None else Some(org)
    {
      grants := new Grant[|permissions|];
      for i := 0 to |permissions|
        invariant forall j | 0 <= j < i :: grants[j] == GrantFor(permissions[j], org)
      {
        var permission := permissions[i];
        if permission.resourceType == RESOURCE_TYPE_ORGS {
          grants[i] := Grant(permission.permissionType, permission.resourceType, permission.resourceName, None);
        } else {
          grants[i] := Grant(permission.permissionType, permission.resourceType, permission.resourceName, Some(org));
        }
      }
    }

    /** Creates the secret, or brings the one that exists up to date. */
    method SynchronizeSecret(key: Key, cr: CustomResource, tokenId: Option<nat>, token: string, created: bool)
      returns (ok: bool)
      requires world.Valid() && key.kind == TokenKind
      requires world.ProcOf(key) == At(cr.Value(), cr.version, tokenId, CreateSecret(token, created))
      modifies world, world.cluster, world.influx
      ensures world.Since(key, old(world.Here(key)))
      ensures world.ProcOf(key) ==
        if ok then FinishResources(key.kind, cr.Value(), cr.version, tokenId, created, Publish(token), world.clock)
        else Idle(Failed)
      ensures ok ==> Published(Name(key.namespace, cr.spec.secretName), token)
    {
      var name := Name(key.namespace, cr.spec.secretName);
      var answer := world.CreateSecret(key, name, map[KEY_TOKEN := token]);
      if answer.Error? {
        return false;
      }
      if answer.Missing? {
        ghost var found;
        ok, found := RefreshSecret(key, cr, tokenId, token, created);
        return;
      }
      assert KEY_TOKEN in map[KEY_TOKEN := token];
      return true;
    }

    /** Reads the secret that exists. If it has data and its entry `token` is the token, that is
        all; otherwise it is replaced, and that entry is its only one. */
    method RefreshSecret(key: Key, cr: CustomResource, tokenId: Option<nat>, token: string, created: bool)
      returns (ok: bool, ghost found: Option<Secret>)
      requires world.Valid() && key.kind == TokenKind
      requires world.ProcOf(key) == At(cr.Value(), cr.version, tokenId, ReadSecret(token, created))
      modifies world, world.cluster, world.influx
      ensures world.Since(key, old(world.Here(key)))
      ensures world.ProcOf(key) ==
        if ok then FinishResources(key.kind, cr.Value(), cr.version, tokenId, created, Publish(token), world.clock)
        else Idle(Failed)
      ensures ok ==> Published(Name(key.namespace, cr.spec.secretName), token)
      ensures ok ==> found.Some?
      ensures found.Some? && "token" in found.value.data && found.value.data["token"] == token ==>
        ok && Untouched(Name(key.namespace, cr.spec.secretName), found.value)
      ensures ok && (found.value.data == map[]
                     || (if "token" in found.value.data then found.value.data["token"] else "") != token) ==>
        Replaced(Name(key.namespace, cr.spec.secretName), found.value, map["token" := token])
    {
      found := None;
      var name := Name(key.namespace, cr.spec.secretName);
      var secret := world.GetSecret(key, name);
      if !secret.Found? {
        return false, found;
      }
      found := Some(secret.value);
      if secret.value.data == map[] || Lookup(secret.value.data, KEY_TOKEN) != token {
        ok := world.UpdateSecret(key, name, secret.value.stamp, map[KEY_TOKEN := token]);
        assert KEY_TOKEN in map[KEY_TOKEN := token];
        return;
      }
      return true, found;
    }

    /** The latest call found this secret, and has left everything as it was. */
    ghost predicate Untouched(name: Name, secret: Secret)
      reads world, world.cluster, world.influx
    {
      && name in world.arrival.shared.secrets && world.arrival.shared.secrets[name] == secret
      && world.Leaves(world.arrival.shared)
    }

    /** The latest call found this version of the secret and has put these data in its place. */
    ghost predicate Replaced(name: Name, secret: Secret, data: map<string, string>)
      reads world, world.cluster
    {
      && name in world.arrival.shared.secrets && world.arrival.shared.secrets[name].stamp == secret.stamp
      && world.cluster.secrets == world.arrival.shared.secrets[name := Secret(world.arrival.shared.stamps, data)]
    }

    /** The secret is there, has data, and its entry `token` is the token. */
    ghost predicate Published(name: Name, token: string)
      reads world.cluster
    {
      && name in world.cluster.secrets
      && var data := world.cluster.secrets[name].data;
         data != map[] && (if "token" in data then data["token"] else "") == token
    }

    method ReconcileToken(key: Key, cr: CustomResource) returns (e: Signal)
      requires world.Valid() && key.kind == TokenKind
      requires cr.finalizer && world.ProcOf(key) == At(cr.Value(), cr.version, cr.data, GetConfig(false))
      modifies world, world.cluster, world.influx, cr
      ensures world.Since(key, old(world.Here(key)))
      ensures Over(key, e)
      ensures e == Nil ==> world.ProcOf(key) == Idle(RequeueAfterMinute)
    {
      var organization := ReachOrganization(key, Name(key.namespace, cr.spec.configName));
      if organization.None? {
        return Failure;
      }
      e := ReconcileAuthorization(key, cr, organization.value);
    }

    method ReconcileAuthorization(key: Key, cr: CustomResource, organization: nat) returns (e: Signal)
      requires world.Valid() && key.kind == TokenKind
      requires world.ProcOf(key) == At(cr.Value(), cr.version, cr.data, ListAuths(false, organization))
      modifies world, world.cluster, world.influx, cr
      ensures world.Since(key, old(world.Here(key)))
      ensures Over(key, e)
      ensures e == Nil ==> world.ProcOf(key) == Idle(RequeueAfterMinute)
    {
      var ok, tokenId, token, tokenCreated := ObtainAuthorization(key, cr, organization);
      if !ok {
        return Failure;
      }
      ok := SynchronizeSecret(key, cr, tokenId, token, tokenCreated);
      if !ok {
        return Failure;
      }
      e := RecordCreation(key, cr, tokenId, tokenCreated, Publish(token));
    }

    /** Finds the first authorization listed with the Token's description, or creates one. */
    method ObtainAuthorization(key: Key, cr: CustomResource, organization: nat)
      returns (ok: bool, tokenId: Option<nat>, token: string, tokenCreated: bool)
      requires world.Valid() && key.kind == TokenKind
      requires world.ProcOf(key) == At(cr.Value(), cr.version, cr.data, ListAuths(false, organization))
      modifies world, world.cluster, world.influx
      ensures world.Since(key, old(world.Here(key)))
      ensures world.ProcOf(key) ==
        if ok then At(cr.Value(), cr.version, tokenId, CreateSecret(token, tokenCreated)) else Idle(Failed)
      ensures ok ==>
        && tokenId.Some? && Shows(world.influx.auths, tokenId.value, organization, TitleOf(key, cr.Value()), token)
        && (!tokenCreated ==> world.influx.auths.First(organization, TitleOf(key, cr.Value())) == tokenId)
    {
      var tokenExists := false;
      ok, tokenId, token, tokenCreated := true, cr.data, "", false;
      var description := AuthorizationDescription(key.name, key.namespace, cr.uid);
      var authorizations := world.FindAuthorizationsByOrgID(key, organization);
      if !authorizations.Found? {
        ok := false;
        return;
      }
      ListingFindsFirst(world.influx.auths, organization, description, 0);
      for i := 0 to |authorizations.value|
        invariant !tokenExists
        invariant forall j | 0 <= j < i :: authorizations.value[j].row.title != Some(description)
      {
        if authorizations.value[i].row.title == Some(description) {
          assert FirstTitled(authorizations.value, description) == i;
          tokenExists := true;
          var shown := AuthorizationToken(authorizations.value[i].row);
          if shown.None? {
            ok := false;
            return;
          }
          tokenId, token := Some(authorizations.value[i].id), shown.value;
          break;
        }
      }
      if !tokenExists {
        ok, tokenId, token := CreateAuthorization(key, cr, organization, description);
        tokenCreated := true;
      }
    }

    method CreateAuthorization(key: Key, cr: CustomResource, organization: nat, description: string)
      returns (ok: bool, tokenId: Option<nat>, token: string)
      requires world.Valid() && key.kind == TokenKind && description == TitleOf(key, cr.Value())
      requires world.ProcOf(key) == At(cr.Value(), cr.version, cr.data, CreateAuth(organization))
      modifies world, world.cluster, world.influx
      ensures world.Since(key, old(world.Here(key)))
      ensures world.ProcOf(key) ==
        if ok then At(cr.Value(), cr.version, tokenId, CreateSecret(token, true)) else Idle(Failed)
      ensures ok ==> tokenId.Some? && Shows(world.influx.auths, tokenId.value, organization, description, token)
    {
      var permissions := BuildPermissions(cr.spec.permissions, organization);
      var authorization := world.CreateAuthorization(key, organization, description, permissions[..]);
      match authorization
      case Found((id, issued)) => ok, tokenId, token := true, Some(id), issued;
      case _ => ok, tokenId, token := false, None, "";
    }

    /******* Buckets *******/

    method FinalizeBucket(key: Key, cr: CustomResource) returns (e: Signal)
      requires world.Valid() && key.kind == BucketKind
      requires cr.finalizer ==> world.ProcOf(key) == At(cr.Value(), cr.version, cr.data, GetConfig(true))
      modifies world, world.cluster, world.influx, cr
      ensures world.Since(key, old(world.Here(key)))
      ensures Over(key, e)
      ensures e == Nil ==> cr.Value() == old(cr.Value())
      ensures e == Nil ==>
          world.ProcOf(key) == if cr.finalizer then DropFinalizer(cr.Value(), cr.version) else old(world.ProcOf(key))
    {
      if !cr.finalizer {
        return Nil;
      }
      var config := ReadConfig(key, Name(key.namespace, CONFIG_INFLUXDB));
      if config.Missing? {
        return Nil;
      } else if config.Error? {
        return Failure;
      }
      var organization := world.FindOrganizationByName(key, config.value.orgName);
      if !organization.Found? {
        return Failure;
      }
      e := FinalizeListedBucket(key, cr, organization.value);
    }

    method FinalizeListedBucket(key: Key, cr: CustomResource, organization: nat) returns (e: Signal)
      requires world.Valid() && key.kind == BucketKind && cr.finalizer
      requires world.ProcOf(key) == At(cr.Value(), cr.version, cr.data, ListBuckets(organization))
      modifies world, world.cluster, world.influx, cr
      ensures world.Since(key, old(world.Here(key)))
      ensures Over(key, e)
      ensures e == Nil ==> cr.Value() == old(cr.Value()) && world.ProcOf(key) == DropFinalizer(cr.Value(), cr.version)
    {
      var deleted := DeleteBucket(key, cr, organization);
      match deleted
      case Missing => e := Nil;
      case Error => e := Failure;
      case Found(_) => e := RecordDeletion(key, cr, cr.data);
    }

    /** Deletes the bucket with the resource's name, if there is one. */
    method DeleteBucket(key: Key, cr: CustomResource, organization: nat) returns (r: Answer<nat>)
      requires world.Valid() && key.kind == BucketKind && cr.finalizer
      requires world.ProcOf(key) == At(cr.Value(), cr.version, cr.data, ListBuckets(organization))
      modifies world, world.cluster, world.influx
      ensures world.Since(key, old(world.Here(key)))
      ensures match r
        case Found(id) =>
          && Gone(world.influx.buckets, id, organization, key.name)
          && world.ProcOf(key) == FinishTeardown(key.kind, cr.Value(), cr.version, cr.data, world.clock)
        case Missing =>
          && world.influx.buckets.First(organization, key.name).None?
          && world.ProcOf(key) == DropFinalizer(cr.Value(), cr.version)
        case Error => world.ProcOf(key) == Idle(Failed)
    {
      r := FindBucket(key, cr, organization);
      if r.Found? {
        var ok := world.DeleteBucketWithID(key, r.value);
        if !ok {
          r := Error;
        }
      }
    }

    method FindBucket(key: Key, cr: CustomResource, organization: nat) returns (r: Answer<nat>)
      requires world.Valid() && key.kind == BucketKind && cr.finalizer
      requires world.ProcOf(key) == At(cr.Value(), cr.version, cr.data, ListBuckets(organization))
      modifies world, world.cluster, world.influx
      ensures world.Since(key, old(world.Here(key)))
      ensures !r.Error? ==>
        world.influx.buckets.First(organization, key.name) == if r.Found? then Some(r.value) else None
      ensures world.ProcOf(key) == match r
        case Found(id) => At(cr.Value(), cr.version, cr.data, Point.DeleteBucket(id))
        case Missing => DropFinalizer(cr.Value(), cr.version)
        case Error => Idle(Failed)
    {
      var buckets := world.FindBucketsByOrgID(key, organization);
      if !buckets.Found? {
        return Error;
      }
      ListingFindsFirst(world.influx.buckets, organization, key.name, 0);
      var id := Search(buckets.value, key.name);
      return if id.Some? then Found(id.value) else Missing;
    }

    method ReconcileBucket(key: Key, cr: CustomResource) returns (e: Signal)
      requires world.Valid() && key.kind == BucketKind
      requires cr.finalizer && world.ProcOf(key) == At(cr.Value(), cr.version, cr.data, GetConfig(false))
      modifies world, world.cluster, world.influx, cr
      ensures world.Since(key, old(world.Here(key)))
      ensures Over(key, e)
      ensures e == Nil ==> world.ProcOf(key) == Idle(RequeueAfterMinute)
    {
      var organization := ReachOrganization(key, Name(key.namespace, CONFIG_INFLUXDB));
      if organization.None? {
        return Failure;
      }
      e := EnsureBucket(key, cr, organization.value);
    }

    /** Creates the bucket; a taken name counts as success without creation. */
    method EnsureBucket(key: Key, cr: CustomResource, organization: nat) returns (e: Signal)
      requires world.Valid() && key.kind == BucketKind
      requires world.ProcOf(key) == At(cr.Value(), cr.version, cr.data, CreateBucket(organization))
      modifies world, world.cluster, world.influx, cr
      ensures world.Since(key, old(world.Here(key)))
      ensures Over(key, e)
      ensures e == Nil ==> world.ProcOf(key) == Idle(RequeueAfterMinute)
      ensures e == Nil ==> world.influx.buckets.First(organization, key.name).Some?
    {
      var bucket := world.CreateBucket(key, organization, key.name, cr.spec.secondsTtl, cr.spec.description);
      if bucket.Error? {
        return Failure;
      }
      e := RecordCreation(key, cr, cr.data, bucket.Found?, SaveStatus);
    }

    /******* Organizations *******/

    method FinalizeOrganization(key: Key, cr: CustomResource) returns (e: Signal)
      requires world.Valid() && key.kind == OrganizationKind
      requires cr.finalizer ==> world.ProcOf(key) == At(cr.Value(), cr.version, cr.data, GetConfig(true))
      modifies world, world.cluster, world.influx, cr
      ensures world.Since(key, old(world.Here(key)))
      ensures Over(key, e)
      ensures e == Nil ==> cr.Value() == old(cr.Value())
      ensures e == Nil ==>
          world.ProcOf(key) == if cr.finalizer then DropFinalizer(cr.Value(), cr.version) else old(world.ProcOf(key))
    {
      if !cr.finalizer {
        return Nil;
      }
      var deleted := DeleteOrganization(key, cr);
      match deleted
      case Missing => e := Nil;
      case Error => e := Failure;
      case Found(_) => e := RecordDeletion(key, cr, cr.data);
    }

    /** Deletes the organization with the resource's name, if there is one. */
    method DeleteOrganization(key: Key, cr: CustomResource) returns (r: Answer<nat>)
      requires world.Valid() && key.kind == OrganizationKind && cr.finalizer
      requires world.ProcOf(key) == At(cr.Value(), cr.version, cr.data, GetConfig(true))
      modifies world, world.cluster, world.influx
      ensures world.Since(key, old(world.Here(key)))
      ensures match r
        case Found(id) =>
          && Gone(world.influx.orgs, id, 0, key.name)
          && world.ProcOf(key) == FinishTeardown(key.kind, cr.Value(), cr.version, cr.data, world.clock)
        case Missing => world.ProcOf(key) == DropFinalizer(cr.Value(), cr.version)
        case Error => world.ProcOf(key) == Idle(Failed)
    {
      r := FindOwnOrganization(key, cr);
      if r.Found? {
        var ok := world.DeleteOrganizationWithID(key, r.value);
        if !ok {
          r := Error;
        }
      }
    }

    /** Looks the organization up by the name of the resource. */
    method FindOwnOrganization(key: Key, cr: CustomResource) returns (r: Answer<nat>)
      requires world.Valid() && key.kind == OrganizationKind && cr.finalizer
      requires world.ProcOf(key) == At(cr.Value(), cr.version, cr.data, GetConfig(true))
      modifies world, world.cluster, world.influx
      ensures world.Since(key, old(world.Here(key)))
      ensures r.Found? ==> world.influx.orgs.First(0, key.name) == Some(r.value)
      ensures world.ProcOf(key) == match r
        case Found(id) => At(cr.Value(), cr.version, cr.data, DeleteOrg(id))
        case Missing => DropFinalizer(cr.Value(), cr.version)
        case Error => Idle(Failed)
    {
      var config := ReadConfig(key, Name(key.namespace, cr.spec.configName));
      if config.Missing? {
        return Missing;
      } else if config.Error? {
        return Error;
      }
      r := world.FindOrganizationByName(key, key.name);
    }

    method ReconcileOrganization(key: Key, cr: CustomResource) returns (e: Signal)
      requires world.Valid() && key.kind == OrganizationKind
      requires cr.finalizer && world.ProcOf(key) == At(cr.Value(), cr.version, cr.data, GetConfig(false))
      modifies world, world.cluster, world.influx, cr
      ensures world.Since(key, old(world.Here(key)))
      ensures Over(key, e)
      ensures e == Nil ==> world.ProcOf(key) == Idle(RequeueAfterMinute)
    {
      var organization := ReachOrganization(key, Name(key.namespace, cr.spec.configName));
      if organization.None? {
        return Failure;
      }
      e := EnsureOrganization(key, cr);
    }

    /** Creates the organization; a taken name counts as success without creation. */
    method EnsureOrganization(key: Key, cr: CustomResource) returns (e: Signal)
      requires world.Valid() && key.kind == OrganizationKind
      requires world.ProcOf(key) == At(cr.Value(), cr.version, cr.data, CreateOrg)
      modifies world, world.cluster, world.influx, cr
      ensures world.Since(key, old(world.Here(key)))
      ensures Over(key, e)
      ensures e == Nil ==> world.ProcOf(key) == Idle(RequeueAfterMinute)
      ensures e == Nil ==> world.influx.orgs.First(0, key.name).Some?
    {
      var created := world.CreateOrganization(key, key.name);
      if created.Error? {
        return Failure;
      }
      e := RecordCreation(key, cr, cr.data, created.Found?, SaveStatus);
    }

    /******* The pass *******/

    method FinalizeResources(key: Key, cr: CustomResource) returns (e: Signal)
      requires world.Valid()
      requires cr.finalizer ==> world.ProcOf(key) == At(cr.Value(), cr.version, cr.data, GetConfig(true))
      modifies world, world.cluster, world.influx, cr
      ensures world.Since(key, old(world.Here(key)))
      ensures Over(key, e)
      ensures e == Nil ==> cr.Value() == old(cr.Value())
      ensures e == Nil ==>
          world.ProcOf(key) == if cr.finalizer then DropFinalizer(cr.Value(), cr.version) else old(world.ProcOf(key))
    {
      match key.kind
      case TokenKind => e := FinalizeToken(key, cr);
      case BucketKind => e := FinalizeBucket(key, cr);
      case OrganizationKind => e := FinalizeOrganization(key, cr);
    }

    method ReconcileResources(key: Key, cr: CustomResource) returns (e: Signal)
      requires world.Valid()
      requires cr.finalizer && world.ProcOf(key) == At(cr.Value(), cr.version, cr.data, GetConfig(false))
      modifies world, world.cluster, world.influx, cr
      ensures world.Since(key, old(world.Here(key)))
      ensures Over(key, e)
      ensures e == Nil ==> world.ProcOf(key) == Idle(RequeueAfterMinute)
    {
      match key.kind
      case TokenKind => e := ReconcileToken(key, cr);
      case BucketKind => e := ReconcileBucket(key, cr);
      case OrganizationKind => e := ReconcileOrganization(key, cr);
    }

    /** How `Reconcile` maps the signal of a phase that ends the pass. */
    static function ResultOf(e: Signal): Result {
      if e == Failure then Failed else NoRequeue
    }

    method ReconcileDeleted(key: Key, cr: CustomResource) returns (r: Result)
      requires world.Valid() && cr.deleting
      requires world.ProcOf(key) == BeginPass(cr.Value(), cr.version, world.clock)
      modifies world, world.cluster, world.influx, cr
      ensures world.Since(key, old(world.Here(key)))
      ensures world.ProcOf(key) == Idle(r) && (r == NoRequeue || r == Failed)
    {
      var e := FinalizeStatus(key, cr);
      if e != Nil {
        return ResultOf(e);
      }
      e := FinalizeResources(key, cr);
      if e != Nil {
        return ResultOf(e);
      }
      e := RemoveFinalizer(key, cr);
      if e != Nil {
        return ResultOf(e);
      }
      return NoRequeue;
    }

    /** Since the log was `before`, passes for `key` have written the resource once at most. */
    ghost predicate WroteAtMostOnce(key: Key, before: seq<Action>)
      requires world.Valid()
      reads world, world.cluster, world.influx
    {
      CountWrites(world.origin, world.log, key) <= CountWrites(world.origin, before, key) + 1
    }

    /** The state is the one to which the undisturbed pass of the machine leads. */
    ghost predicate IsPass(key: Key, start: State)
      requires start.WellFormed() && world.rest.Reply?
      reads world, world.cluster, world.influx
    {
      world.Now() == AfterPass(start, key, world.rest.text, world.rest.now)
    }

    /** One pass: whatever happens on the way, the log it leaves is a run of the state
        machine from the same origin in which exactly one pass for `key` takes place, the
        result is the one the machine arrives at, and at most one version of the resource
        has been written. If the pass reads the latest version and nothing disturbs it, it
        does what the undisturbed pass of the machine does. */
    method Reconcile(key: Key) returns (r: Result)
      requires world.Valid() && world.ProcOf(key).Idle?
      modifies world, world.cluster, world.influx
      ensures world.Valid() && old(world.log) <= world.log
      ensures world.ProcOf(key) == Idle(r) && r != Crashed && world.Begun(key) == old(world.Begun(key)) + 1
      ensures WroteAtMostOnce(key, old(world.log))
      ensures old(world.Undisturbed(key)) ==> IsPass(key, old(world.Now()))
    {
      ghost var start, before := world.Now(), world.log;
      assert CountStarts(world.origin, before, key) == world.Begun(key);
      r := RunPass(key);
      CountPasses(key, before, start);
      if old(world.Undisturbed(key)) {
        QuietPass(key, before, start);
      }
    }

    /** The read of the resource and what follows from it. */
    method RunPass(key: Key) returns (r: Result)
      requires world.Valid() && world.ProcOf(key).Idle?
      modifies world, world.cluster, world.influx
      ensures world.Valid() && old(world.log) <= world.log
      ensures world.ProcOf(key) == Idle(r) && r != Crashed && world.Begun(key) == old(world.Begun(key)) + 1
      ensures old(world.Undisturbed(key)) ==>
        Answered(key, old(world.log) + [LatestRead(old(world.Now()), key, world.rest.now)])
    {
      var answer := world.GetResource(key);
      match answer
      case Missing => r := NoRequeue;
      case Error => r := Failed;
      case Found((read, version)) => r := ReconcileVersion(key, read, version);
    }

    /** Since the log was `begun`, calls for `key` have been answered and nothing else happened. */
    ghost predicate Answered(key: Key, begun: seq<Action>)
      reads world
    {
      begun <= world.log && forall i | |begun| <= i < |world.log| :: world.log[i] == Step(key, world.rest)
    }

    /** One pass begun means at most one write more. */
    lemma CountPasses(key: Key, before: seq<Action>, start: State)
      requires world.Valid() && before <= world.log && LeadsTo(world.origin, before, start)
      requires CountStarts(world.origin, before, key) + 1 == world.Begun(key)
      requires world.ProcOf(key).Idle? && start.ProcOf(key).Idle?
      ensures WroteAtMostOnce(key, before)
    {
      ExtensionAddsUp(world.origin, world.log, |before|, key);
      assert world.log[..|before|] == before;
      assert CountStarts(world.origin, world.log, key) == world.Begun(key);
      assert Run(world.origin, world.log) == world.Now() && Run(world.origin, before) == start;
    }

    /** A log that goes on with the latest read and with answers until the pass is over goes
        on with the undisturbed pass. */
    lemma QuietPass(key: Key, before: seq<Action>, start: State)
      requires world.Valid() && world.rest.Reply? && LeadsTo(world.origin, before, start)
      requires start.WellFormed() && Quiescent(start, key) && world.ProcOf(key).Idle?
      requires Answered(key, before + [LatestRead(start, key, world.rest.now)])
      ensures IsPass(key, start)
    {
      var pass := [LatestRead(start, key, world.rest.now)] + world.log[|before| + 1..];
      assert world.log == before + pass;
      assert Run(world.origin, world.log) == world.Now() && Run(world.origin, before) == start;
      RunConcat(world.origin, before, pass);
      RunIsPass(key, start, world.log[|before| + 1..], world.rest.text, world.rest.now);
    }

    method ReconcileVersion(key: Key, read: Resource, version: nat) returns (r: Result)
      requires world.Valid() && world.ProcOf(key) == BeginPass(read, version, world.clock)
      modifies world, world.cluster, world.influx
      ensures world.Since(key, old(world.Here(key)))
      ensures world.ProcOf(key) == Idle(r) && r != Crashed
    {
      var cr := new CustomResource(read, version);
      if cr.deleting {
        r := ReconcileDeleted(key, cr);
      } else {
        r := ReconcileLive(key, cr);
      }
    }

    method ReconcileLive(key: Key, cr: CustomResource) returns (r: Result)
      requires world.Valid() && !cr.deleting
      requires world.ProcOf(key) == BeginPass(cr.Value(), cr.version, world.clock)
      modifies world, world.cluster, world.influx, cr
      ensures world.Since(key, old(world.Here(key)))
      ensures world.ProcOf(key) == Idle(r) && r != Crashed
    {
      var e := AddFinalizer(key, cr);
      if e != Nil {
        return ResultOf(e);
      }
      e := InitializeStatus(key, cr);
      if e != Nil {
        return ResultOf(e);
      }
      e := ReconcileResources(key, cr);
      if e != Nil {
        return ResultOf(e);
      }
      return RequeueAfterMinute;
    }
  }

  /** Hence what is proved about all runs holds of every world in which any number of
      passes have come and gone: for example, that InfluxDB never got a second
      authorization for a Token unless somebody else had removed the first. */
  lemma PassesInheritSafety(world: World, owner: Owner, org: nat)
    requires world.Valid() && Initial(world.origin)
    ensures Inv(world.Now())
    ensures var auths := world.influx.auths;
      CreatedFor(auths, owner, org, |auths.rows|) <= 1 + LostFor(auths, owner, org, |auths.rows|)
  {
    InitialInv(world.origin);
    RunKeepsInv(world.origin, world.log);
    assert world.Now() == Run(world.origin, world.log);
    AtMostOneEver(world.origin, world.log, owner, org);
  }
}
