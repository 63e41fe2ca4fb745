/** What the admission webhooks guarantee at the far end: in the calls to InfluxDB. */
module Guards {
  import opened Types
  import opened Tables
  import opened Admission
  import opened Protocol
  import opened Lines
  import opened Safety

  /******* What users may do *******/

  /** For a free key, a new uid and a namespace without dots, a resource is created exactly
      when its kind allows it, and it is created as it was sent. */
  lemma CreatedExactlyWhen(s: State, key: Key, uid: Uid, spec: Spec)
    requires s.WellFormed() && s.SlotOf(key).Last().None?
    requires uid !in s.used && '.' !in uid && '.' !in key.namespace
    ensures var slot, next := s.SlotOf(key), Apply(s, UserCreate(key, uid, spec)).SlotOf(key);
      && next.seen == slot.seen
      && (next.versions != slot.versions ==>
            next.versions == slot.versions + [Some(Resource(uid, false, false, spec, Status(Unset, [], None, None)))])
      && (next.versions != slot.versions <==>
            match key.kind
            case BucketKind => spec.secondsTtl == 0 || spec.secondsTtl >= 3600
            case OrganizationKind => key.name != "influxdata"
            case TokenKind =>
              forall i | 0 <= i < |spec.permissions| ::
                && spec.permissions[i].permissionType in {"read", "write"}
                && spec.permissions[i].resourceType in {
                     "authorizations", "buckets", "checks", "dashboards", "dbrp", "documents", "labels",
                     "notebooks", "notificationEndpoints", "notificationRules", "orgs", "scrapers", "secrets",
                     "sources", "tasks", "telegrafs", "users", "variables", "views"})
  {
  }

  /** An update is accepted exactly when it is not one of a Bucket that changes retention or
      description, and it changes the spec alone. */
  lemma UpdatedExactlyWhen(s: State, key: Key, spec: Spec)
    requires s.WellFormed() && s.SlotOf(key).Last().Some?
    ensures var slot, next := s.SlotOf(key), Apply(s, UserUpdate(key, spec)).SlotOf(key);
      var r := slot.Last().value;
      && next.seen == slot.seen
      && (next.versions != slot.versions ==> next.versions == slot.versions + [Some(r.(spec := spec))])
      && (next.versions != slot.versions <==>
            key.kind != BucketKind
            || (spec.secondsTtl == r.spec.secondsTtl && spec.description == r.spec.description))
  {
  }

  /** A deletion marks a resource with the finalizer, once, and removes any other. */
  lemma DeletedExactlyWhen(s: State, key: Key)
    requires s.WellFormed()
    ensures var slot, next := s.SlotOf(key), Apply(s, UserDelete(key)).SlotOf(key);
      && next.seen == slot.seen
      && next.versions == slot.versions + (
           match slot.Last()
           case None => []
           case Some(r) =>
             if !r.finalizer then [None]
             else if !r.deleting then [Some(r.(deleting := true))]
             else [])
  {
  }

  /******* Bucket retention *******/

  /** All versions of a bucket resource are valid, and one incarnation never changes its
      retention or description. */
  ghost predicate BucketHistory(slot: Slot) {
    && (forall i | 0 <= i < |slot.versions| && slot.versions[i].Some? ::
        ValidTtl(slot.versions[i].value.spec.secondsTtl))
    && (forall i, j | 0 <= i < j < |slot.versions| && slot.versions[i].Some? && slot.versions[j].Some?
                      && slot.versions[i].value.uid == slot.versions[j].value.uid ::
          && slot.versions[i].value.spec.secondsTtl == slot.versions[j].value.spec.secondsTtl
          && slot.versions[i].value.spec.description == slot.versions[j].value.spec.description)
  }

  predicate SentFor(payload: Payload, spec: Spec) {
    payload == BucketData(spec.secondsTtl, spec.description)
  }

  /** The call that created the row carried what some version of that incarnation asks for. */
  ghost predicate Backed(slot: Slot, uid: Uid, payload: Payload) {
    exists i :: 0 <= i < |slot.versions| && slot.versions[i].Some?
                && slot.versions[i].value.uid == uid && SentFor(payload, slot.versions[i].value.spec)
  }

  ghost predicate BucketRows(s: State)
    requires s.WellFormed()
  {
    forall i | 0 <= i < |s.shared.buckets.rows| && s.shared.buckets.rows[i].maker.Some? ::
      Backed(s.SlotOf(s.shared.buckets.rows[i].maker.value.key), s.shared.buckets.rows[i].maker.value.uid,
             s.shared.buckets.rows[i].payload)
  }

  /******* The reserved organization *******/

  /** No organization resource ever carries the reserved name. */
  ghost predicate NameGuarded(key: Key, slot: Slot) {
    key.kind == OrganizationKind && (exists i :: 0 <= i < |slot.versions| && slot.versions[i].Some?) ==>
        key.name != DEFAULT_ORG
  }

  ghost predicate GuardInv(s: State)
    requires s.WellFormed()
  {
    && (forall key: Key :: NameGuarded(key, s.SlotOf(key)) && (key.kind == BucketKind ==> BucketHistory(s.SlotOf(key))))
    && BucketRows(s)
  }

  /** Histories only grow at the end. */
  predicate Extends(slot: Slot, next: Slot) {
    |slot.versions| <= |next.versions| && next.versions[..|slot.versions|] == slot.versions
  }

  lemma BackedExtends(slot: Slot, next: Slot, uid: Uid, payload: Payload)
    requires Extends(slot, next) && Backed(slot, uid, payload)
    ensures Backed(next, uid, payload)
  {
  }

  lemma SlotStepKeepsGuards(key: Key, l: Local, next: Slot)
    requires |l.slot.versions| > 0 && SlotStep(l, next)
    requires NameGuarded(key, l.slot) && (key.kind == BucketKind ==> BucketHistory(l.slot))
    ensures Extends(l.slot, next) && NameGuarded(key, next) && (key.kind == BucketKind ==> BucketHistory(next))
  {
  }

  lemma UserKeepsGuards(key: Key, slot: Slot, used: set<Uid>, a: Action)
    requires |slot.versions| > 0 && (a.UserCreate? || a.UserUpdate? || a.UserDelete?)
    requires HistoryOk(key, slot, used)
    requires NameGuarded(key, slot) && (key.kind == BucketKind ==> BucketHistory(slot))
    ensures var next := UserSlot(key, slot, used, a);
      Extends(slot, next) && NameGuarded(key, next) && (key.kind == BucketKind ==> BucketHistory(next))
  {
  }

  /** The create call is made from the version that was read. */
  lemma NewBucketIsBacked(key: Key, l: Local, o: Outcome, i: nat)
    requires l.slot.seen < |l.slot.versions| && ProcOk(key, l.slot, l.proc)
    requires |l.shared.buckets.rows| <= i < |Fire(key, l, o).shared.buckets.rows|
    ensures var row := Fire(key, l, o).shared.buckets.rows[i];
      row.maker == Some(Owner(key, l.proc.cr.uid)) && Backed(l.slot, l.proc.cr.uid, row.payload)
  {
  }

  lemma StepKeepsSlotGuards(s: State, key: Key, o: Outcome)
    requires Inv(s) && GuardInv(s)
    ensures Extends(s.SlotOf(key), Fire(key, s.View(key), o).slot)
    ensures forall k: Key :: var slot := Apply(s, Step(key, o)).SlotOf(k);
      NameGuarded(k, slot) && (k.kind == BucketKind ==> BucketHistory(slot))
  {
    var l, n, s' := s.View(key), Fire(key, s.View(key), o), Apply(s, Step(key, o));
    assert KeyOk(s, key) && NameGuarded(key, s.SlotOf(key));
    FireSlot(key, l, o);
    SlotStepKeepsGuards(key, l, n.slot);
    forall k: Key ensures NameGuarded(k, s'.SlotOf(k)) && (k.kind == BucketKind ==> BucketHistory(s'.SlotOf(k))) {
      assert NameGuarded(k, s.SlotOf(k));
    }
  }

  lemma StepKeepsGuards(s: State, key: Key, o: Outcome)
    requires Inv(s) && GuardInv(s)
    ensures Apply(s, Step(key, o)).WellFormed() && GuardInv(Apply(s, Step(key, o)))
  {
    var l, n, s' := s.View(key), Fire(key, s.View(key), o), Apply(s, Step(key, o));
    ApplyKeepsWellFormed(s, Step(key, o));
    assert KeyOk(s, key);
    StepKeepsSlotGuards(s, key, o);
    StepFacts(s, key, o);
    forall i | 0 <= i < |n.shared.buckets.rows| && n.shared.buckets.rows[i].maker.Some?
      ensures Backed(s'.SlotOf(n.shared.buckets.rows[i].maker.value.key), n.shared.buckets.rows[i].maker.value.uid,
                     n.shared.buckets.rows[i].payload)
    {
      var owner := n.shared.buckets.rows[i].maker.value;
      if i >= |s.shared.buckets.rows| {
        NewBucketIsBacked(key, l, o, i);
      }
      if owner.key == key {
        BackedExtends(l.slot, n.slot, owner.uid, n.shared.buckets.rows[i].payload);
      }
    }
  }

  lemma UserActionKeepsGuards(s: State, a: Action)
    requires Inv(s) && GuardInv(s) && (a.UserCreate? || a.UserUpdate? || a.UserDelete?)
    ensures Apply(s, a).WellFormed() && GuardInv(Apply(s, a))
  {
    var s' := Apply(s, a);
    ApplyKeepsWellFormed(s, a);
    assert KeyOk(s, a.key) && NameGuarded(a.key, s.SlotOf(a.key));
    UserKeepsGuards(a.key, s.SlotOf(a.key), s.used, a);
    forall k: Key ensures NameGuarded(k, s'.SlotOf(k)) && (k.kind == BucketKind ==> BucketHistory(s'.SlotOf(k))) {
      assert NameGuarded(k, s.SlotOf(k));
    }
    var rows := s.shared.buckets.rows;
    forall i | 0 <= i < |rows| && rows[i].maker.Some?
      ensures Backed(s'.SlotOf(rows[i].maker.value.key), rows[i].maker.value.uid, rows[i].payload)
    {
      if rows[i].maker.value.key == a.key {
        BackedExtends(s.SlotOf(a.key), s'.SlotOf(a.key), rows[i].maker.value.uid, rows[i].payload);
      }
    }
  }

  lemma ApplyKeepsGuards(s: State, a: Action)
    requires Inv(s) && GuardInv(s)
    ensures Inv(Apply(s, a)) && GuardInv(Apply(s, a))
  {
    ApplyKeepsInv(s, a);
    if a.Step? {
      StepKeepsGuards(s, a.key, a.outcome);
    } else if a.UserCreate? || a.UserUpdate? || a.UserDelete? {
      UserActionKeepsGuards(s, a);
    } else {
      OutsideGrows(s.shared, a, s.used);
      var s' := Apply(s, a);
      forall k: Key ensures NameGuarded(k, s'.SlotOf(k)) && (k.kind == BucketKind ==> BucketHistory(s'.SlotOf(k))) {
        assert NameGuarded(k, s.SlotOf(k));
      }
    }
  }

  lemma {:induction false} RunKeepsGuards(s: State, actions: seq<Action>)
    requires Inv(s) && GuardInv(s)
    ensures Inv(Run(s, actions)) && GuardInv(Run(s, actions))
  {
    if actions != [] {
      var n := |actions| - 1;
      RunKeepsGuards(s, actions[..n]);
      ApplyKeepsGuards(Run(s, actions[..n]), actions[n]);
    }
  }

  lemma InitialGuards(s: State)
    requires Initial(s)
    ensures Inv(s) && GuardInv(s)
  {
  }

  lemma BackedAgrees(slot: Slot, uid: Uid, payload: Payload, j: nat)
    requires BucketHistory(slot) && Backed(slot, uid, payload)
    requires j < |slot.versions| && slot.versions[j].Some? && slot.versions[j].value.uid == uid
    ensures SentFor(payload, slot.versions[j].value.spec) && ValidTtl(slot.versions[j].value.spec.secondsTtl)
  {
  }

  /** Over all admitted creates and updates and all runs: every bucket the operator ever
      created was created with a retention of zero or at least an hour, and with the
      retention and description that every version of its resource has. */
  lemma RetentionReachesInflux(s: State, actions: seq<Action>, owner: Owner, i: nat, j: nat)
    requires Initial(s)
    requires var r := Run(s, actions);
      && i < |r.shared.buckets.rows| && r.shared.buckets.rows[i].maker == Some(owner)
      && j < |r.SlotOf(owner.key).versions| && r.SlotOf(owner.key).versions[j].Some?
      && r.SlotOf(owner.key).versions[j].value.uid == owner.uid
    ensures var r := Run(s, actions);
      var spec := r.SlotOf(owner.key).versions[j].value.spec;
      && r.shared.buckets.rows[i].payload == BucketData(spec.secondsTtl, spec.description)
      && (spec.secondsTtl == 0 || spec.secondsTtl >= 3600)
  {
    InitialGuards(s);
    RunKeepsGuards(s, actions);
    var r := Run(s, actions);
    assert NameGuarded(owner.key, r.SlotOf(owner.key));
    BackedAgrees(r.SlotOf(owner.key), owner.uid, r.shared.buckets.rows[i].payload, j);
  }

  /** A delete call on an organization only ever hits one with the name of the custom
      resource it is made for, and that name is not the reserved one. */
  lemma DeletesOwnOrganizationOnly(s: State, actions: seq<Action>, key: Key, o: Outcome, id: nat)
    requires Initial(s)
    requires var r := Run(s, actions);
      r.shared.orgs.Live(id) && !Fire(key, r.View(key), o).shared.orgs.Live(id)
    ensures var r := Run(s, actions);
      && key.kind == OrganizationKind && r.shared.orgs.rows[id].title == Some(key.name) && key.name != "influxdata"
  {
    InitialGuards(s);
    RunKeepsGuards(s, actions);
    var r := Run(s, actions);
    assert KeyOk(r, key) && NameGuarded(key, r.SlotOf(key));
    StepFacts(r, key, o);
    assert r.SlotOf(key).versions[r.SlotOf(key).seen].Some?;
  }

  lemma ReservedStays(s: State, actions: seq<Action>, a: Action, id: nat)
    requires Initial(s) && a != DropOrg(id)
    requires var orgs := Run(s, actions).shared.orgs; orgs.Live(id) && orgs.rows[id].title == Some("influxdata")
    ensures var orgs := Apply(Run(s, actions), a).shared.orgs;
      orgs.Live(id) && orgs.rows[id].title == Some("influxdata")
  {
    var before := Run(s, actions);
    InitialInv(s);
    RunKeepsInv(s, actions);
    if a.Step? {
      StepFacts(before, a.key, a.outcome);
      if !Apply(before, a).shared.orgs.Live(id) {
        DeletesOwnOrganizationOnly(s, actions, a.key, a.outcome, id);
      }
    } else {
      OutsideGrows(before.shared, a, before.used);
    }
  }

  /** So the reserved organization is there for good unless an outsider removes it. */
  lemma {:induction false} ReservedOrganizationSurvives(s: State, actions: seq<Action>, id: nat)
    requires Initial(s) && s.shared.orgs.Live(id) && s.shared.orgs.rows[id].title == Some("influxdata")
    requires DropOrg(id) !in actions
    ensures var orgs := Run(s, actions).shared.orgs;
      orgs.Live(id) && orgs.rows[id].title == Some("influxdata")
  {
    if actions != [] {
      var n := |actions| - 1;
      ReservedOrganizationSurvives(s, actions[..n], id);
      ReservedStays(s, actions[..n], actions[n], id);
    }
  }
}
