/** What holds in every reachable state, whatever the interleaving of passes, users and
    outsiders, whatever call fails, and however far the reader lags. */
module Safety {
  import opened Types
  import opened Tables
  import opened Descriptions
  import opened Protocol
  import opened Lines

  /******* Tables only ever grow *******/

  ghost predicate Grows(t: Table, t': Table) {
    && |t.rows| <= |t'.rows|
    && (forall i | 0 <= i < |t.rows| :: t'.rows[i] == t.rows[i])
    && (forall i | i in t.gone :: i in t'.gone && t'.gone[i] == t.gone[i])
  }

  function TableOf(shared: Shared, kind: Kind): Table {
    match kind
    case TokenKind => shared.auths
    case BucketKind => shared.buckets
    case OrganizationKind => shared.orgs
  }

  /** The operator's rows carry the title of the owner they were created for. */
  ghost predicate RowsOk(table: Table, kind: Kind, used: set<Uid>) {
    && (forall i | 0 <= i < |table.rows| && table.rows[i].maker.Some? ::
          && var owner := table.rows[i].maker.value;
             owner.key.kind == kind && table.rows[i].title == Some(Title(owner))
             && owner.uid in used && NoDots(owner.uid) && NoDots(owner.key.namespace))
    && (forall i | i in table.gone :: i < |table.rows|)
  }

  /******* How one call of a pass changes the tables *******/

  /** The owner on whose behalf the pass acts. */
  function Actor(key: Key, proc: Proc): Owner
    requires proc.At?
  {
    Owner(key, proc.cr.uid)
  }

  predicate Adding(point: Point) {
    point.CreateAuth? || point.CreateBucket? || point.CreateOrg?
  }

  /** The organization a create call works in; organizations themselves have none. */
  function ParentAt(point: Point): nat {
    match point
    case CreateAuth(org) => org
    case CreateBucket(org) => org
    case _ => 0
  }

  /** The pass creates a row of its own in the organization it looked up. */
  ghost predicate AddsOwn(key: Key, l: Local, kind: Kind, next: Table) {
    && l.proc.At? && Adding(l.proc.point) && key.kind == kind
    && exists row: Row :: next == TableOf(l.shared, kind).Insert(row)
         && row.maker == Some(Actor(key, l.proc)) && row.title == Some(Title(Actor(key, l.proc)))
         && row.parent == ParentAt(l.proc.point)
  }

  /** The pass removes a live row that carries its own title. */
  ghost predicate RemovesOwn(key: Key, l: Local, kind: Kind, next: Table) {
    && l.proc.At? && !Creating(l.proc.point) && !Saving(l.proc.point) && key.kind == kind
    && exists id: nat :: TableOf(l.shared, kind).Live(id)
         && TableOf(l.shared, kind).rows[id].title == Some(Title(Actor(key, l.proc)))
         && next == TableOf(l.shared, kind).Remove(id, Operator)
  }

  ghost predicate TableStep(key: Key, l: Local, kind: Kind, next: Table) {
    next == TableOf(l.shared, kind) || AddsOwn(key, l, kind, next) || RemovesOwn(key, l, kind, next)
  }

  /** The numbers a pass holds point to rows with its title. */
  ghost predicate PointRows(key: Key, proc: Proc, shared: Shared) {
    proc.At? ==>
      match proc.point
      case ListAuths(_, org) => org < |shared.orgs.rows|
      case CreateAuth(org) => org < |shared.orgs.rows|
      case CreateBucket(org) => org < |shared.orgs.rows|
      case ListBuckets(org) => org < |shared.orgs.rows|
      case DeleteAuth =>
        && proc.tokenId.Some? && proc.tokenId.value < |shared.auths.rows|
        && shared.auths.rows[proc.tokenId.value].title == Some(TitleOf(key, proc.cr))
      case DeleteBucket(id) => id < |shared.buckets.rows| && shared.buckets.rows[id].title == Some(key.name)
      case DeleteOrg(id) => id < |shared.orgs.rows| && shared.orgs.rows[id].title == Some(key.name)
      case CreateSecret(token, _) => Adopted(key, proc, shared, token)
      case ReadSecret(token, _) => Adopted(key, proc, shared, token)
      case WriteSecret(token, _, _) => Adopted(key, proc, shared, token)
      case Publish(token) => Adopted(key, proc, shared, token)
      case _ => true
  }

  /** The token a pass works with belongs to an authorization with its description. */
  ghost predicate Adopted(key: Key, proc: Proc, shared: Shared, token: string)
    requires proc.At?
  {
    && proc.tokenId.Some? && proc.tokenId.value < |shared.auths.rows|
    && var row := shared.auths.rows[proc.tokenId.value];
       row.title == Some(TitleOf(key, proc.cr)) && AuthorizationToken(row) == Some(token)
  }

  lemma FireTables(key: Key, l: Local, o: Outcome, kind: Kind)
    requires l.slot.seen < |l.slot.versions| && ProcOk(key, l.slot, l.proc) && PointRows(key, l.proc, l.shared)
    ensures TableStep(key, l, kind, TableOf(Fire(key, l, o).shared, kind))
  {
  }

  lemma TableStepGrows(key: Key, l: Local, kind: Kind, next: Table, used: set<Uid>)
    requires TableStep(key, l, kind, next) && RowsOk(TableOf(l.shared, kind), kind, used)
    requires l.proc.At? ==> l.proc.cr.uid in used && NoDots(l.proc.cr.uid) && NoDots(key.namespace)
    ensures Grows(TableOf(l.shared, kind), next) && RowsOk(next, kind, used)
  {
  }

  lemma GrowthKeepsPointRows(key: Key, proc: Proc, shared: Shared, shared': Shared)
    requires PointRows(key, proc, shared)
    requires Grows(shared.auths, shared'.auths) && Grows(shared.buckets, shared'.buckets)
        && Grows(shared.orgs, shared'.orgs)
    ensures PointRows(key, proc, shared')
  {
  }

  lemma FireKeepsPointRows(key: Key, l: Local, o: Outcome)
    requires |l.slot.versions| > 0 && PointRows(key, l.proc, l.shared)
    ensures PointRows(key, Fire(key, l, o).proc, Fire(key, l, o).shared)
  {
  }

  /** Titles tell owners apart: of two dot-free owners of one kind, a shared title means
      one key name, and for Tokens one and the same owner. */
  lemma TitlesIdentifyTokens(a: Owner, b: Owner)
    requires a.key.kind == b.key.kind == TokenKind
    requires NoDots(a.uid) && NoDots(a.key.namespace) && NoDots(b.uid) && NoDots(b.key.namespace)
    requires Title(a) == Title(b)
    ensures a == b
  {
    DescriptionInjective(a.key.name, a.key.namespace, a.uid, b.key.name, b.key.namespace, b.uid);
  }

  /******* The invariant of all runs *******/

  /** Before a second authorization is created for an owner in an organization,
      outsiders have removed the first. */
  ghost predicate AtMostOne(auths: Table) {
    forall i, j | 0 <= i < j < |auths.rows| && auths.rows[i].maker.Some?
                  && auths.rows[i].maker == auths.rows[j].maker && auths.rows[i].parent == auths.rows[j].parent ::
      i in auths.gone && auths.gone[i] == Outsider
  }

  /** The operator removes only what belongs to an incarnation it will create nothing for. */
  ghost predicate RemovedAreRetired(s: State)
    requires s.WellFormed()
  {
    forall i | i in s.shared.auths.gone && i < |s.shared.auths.rows| && s.shared.auths.gone[i] == Operator
               && s.shared.auths.rows[i].maker.Some? ::
      Retired(s.SlotOf(s.shared.auths.rows[i].maker.value.key), s.used, s.shared.auths.rows[i].maker.value.uid)
  }

  /** A pass about to create has nothing of its own in that organization. */
  ghost predicate ClearToCreate(key: Key, proc: Proc, auths: Table) {
    proc.At? && proc.point.CreateAuth? ==>
      forall i: nat | auths.Live(i) && auths.rows[i].parent == proc.point.org ::
          auths.rows[i].maker != Some(Actor(key, proc))
  }

  ghost predicate KeyOk(s: State, key: Key)
    requires s.WellFormed()
  {
    && LineOk(key, s.SlotOf(key), s.ProcOf(key), s.used)
    && PointRows(key, s.ProcOf(key), s.shared)
    && ClearToCreate(key, s.ProcOf(key), s.shared.auths)
  }

  ghost predicate TablesOk(shared: Shared, used: set<Uid>) {
    && RowsOk(shared.auths, TokenKind, used)
    && RowsOk(shared.buckets, BucketKind, used)
    && RowsOk(shared.orgs, OrganizationKind, used)
  }

  ghost predicate Inv(s: State) {
    && s.WellFormed()
    && (forall key: Key :: KeyOk(s, key))
    && TablesOk(s.shared, s.used)
    && AtMostOne(s.shared.auths)
    && RemovedAreRetired(s)
  }

  lemma InitialInv(s: State)
    requires Initial(s)
    ensures Inv(s)
  {
  }

  lemma StepFacts(s: State, key: Key, o: Outcome)
    requires Inv(s)
    ensures var n := Fire(key, s.View(key), o);
      && LineOk(key, n.slot, n.proc, s.used) && PointRows(key, n.proc, n.shared) && TablesOk(n.shared, s.used)
      && Grows(s.shared.auths, n.shared.auths) && Grows(s.shared.buckets, n.shared.buckets)
      && Grows(s.shared.orgs, n.shared.orgs)
      && TableStep(key, s.View(key), TokenKind, n.shared.auths)
      && TableStep(key, s.View(key), BucketKind, n.shared.buckets)
      && TableStep(key, s.View(key), OrganizationKind, n.shared.orgs)
  {
    var l := s.View(key);
    assert KeyOk(s, key);
    var n := Fire(key, l, o);
    FireKeepsLine(key, l, s.used, o);
    FireKeepsPointRows(key, l, o);
    FireTables(key, l, o, TokenKind);
    FireTables(key, l, o, BucketKind);
    FireTables(key, l, o, OrganizationKind);
    TableStepGrows(key, l, TokenKind, n.shared.auths, s.used);
    TableStepGrows(key, l, BucketKind, n.shared.buckets, s.used);
    TableStepGrows(key, l, OrganizationKind, n.shared.orgs, s.used);
  }

  /** A pass reaches the create call only through a listing that shows nothing of its own. */
  lemma OwnStepClear(s: State, key: Key, o: Outcome)
    requires Inv(s)
    ensures ClearToCreate(key, Fire(key, s.View(key), o).proc, Fire(key, s.View(key), o).shared.auths)
  {
    var l := s.View(key);
    var n := Fire(key, l, o);
    assert KeyOk(s, key);
    if n.proc.At? && n.proc.point.CreateAuth? {
      assert n.shared == l.shared;
      if n.proc != l.proc {
        assert l.proc.point == ListAuths(false, n.proc.point.org);
        assert l.shared.auths.First(n.proc.point.org, TitleOf(key, l.proc.cr)).None?;
        forall i: nat | l.shared.auths.Live(i) && l.shared.auths.rows[i].parent == n.proc.point.org
          ensures l.shared.auths.rows[i].maker != Some(Actor(key, n.proc))
        {
          assert !l.shared.auths.Hit(i, n.proc.point.org, TitleOf(key, l.proc.cr));
        }
      }
    }
  }

  lemma OtherStepClear(s: State, key: Key, o: Outcome, other: Key)
    requires Inv(s) && other != key
    ensures ClearToCreate(other, s.ProcOf(other), Fire(key, s.View(key), o).shared.auths)
  {
    assert KeyOk(s, other);
    StepFacts(s, key, o);
  }

  /** A pass that may still create works for an incarnation that is not retired. */
  lemma CreatorNotRetired(key: Key, slot: Slot, proc: Proc, used: set<Uid>)
    requires LineOk(key, slot, proc, used) && proc.At? && Creating(proc.point)
    ensures !Retired(slot, used, proc.cr.uid)
  {
  }

  /** Adding a row keeps the bound if outsiders removed every earlier row of that owner there. */
  lemma InsertKeepsAtMostOne(auths: Table, row: Row)
    requires AtMostOne(auths)
    requires forall i: nat | i < |auths.rows| && auths.rows[i].maker == row.maker
        && auths.rows[i].parent == row.parent ::
               row.maker.None? || (i in auths.gone && auths.gone[i] == Outsider)
    ensures AtMostOne(auths.Insert(row))
  {
  }

  lemma RemoveKeepsAtMostOne(auths: Table, id: nat, who: Remover)
    requires AtMostOne(auths) && auths.Live(id)
    ensures AtMostOne(auths.Remove(id, who))
  {
  }

  lemma StepKeepsAtMostOne(s: State, key: Key, next: Table)
    requires Inv(s) && TableStep(key, s.View(key), TokenKind, next)
    ensures AtMostOne(next)
  {
    var proc, auths := s.ProcOf(key), s.shared.auths;
    assert KeyOk(s, key);
    if next == auths {
    } else if AddsOwn(key, s.View(key), TokenKind, next) {
      assert proc.point.CreateAuth?;
      var added: Row :| next == auths.Insert(added) && added.maker == Some(Actor(key, proc))
          && added.parent == proc.point.org;
      CreatorNotRetired(key, s.SlotOf(key), proc, s.used);
      forall i: nat | i < |auths.rows| && auths.rows[i].maker == added.maker && auths.rows[i].parent == added.parent
        ensures i in auths.gone && auths.gone[i] == Outsider
      {
        assert !auths.Live(i);
      }
      InsertKeepsAtMostOne(auths, added);
    } else {
      var id: nat :| auths.Live(id) && next == auths.Remove(id, Operator);
      RemoveKeepsAtMostOne(auths, id, Operator);
    }
  }

  /** A pass removes authorizations of its own incarnation only, and only when that is retired. */
  lemma RemovalIsOwn(s: State, key: Key, next: Table, i: nat)
    requires Inv(s) && TableStep(key, s.View(key), TokenKind, next)
    requires i in next.gone && i !in s.shared.auths.gone && next.rows[i].maker.Some?
    ensures s.ProcOf(key).At? && next.rows[i].maker == Some(Actor(key, s.ProcOf(key)))
    ensures Retired(s.SlotOf(key), s.used, s.ProcOf(key).cr.uid)
  {
    assert KeyOk(s, key);
    TitlesIdentifyTokens(next.rows[i].maker.value, Actor(key, s.ProcOf(key)));
    DeletingIsRetired(key, s.SlotOf(key), s.used);
  }

  lemma StepKeepsRemovedRetired(s: State, key: Key, n: Local)
    requires Inv(s) && TableStep(key, s.View(key), TokenKind, n.shared.auths)
    requires |n.slot.versions| > 0
    requires forall uid: Uid | Retired(s.SlotOf(key), s.used, uid) :: Retired(n.slot, s.used, uid)
    ensures s.Put(key, n).WellFormed() && RemovedAreRetired(s.Put(key, n))
  {
    var s' := s.Put(key, n);
    var next := n.shared.auths;
    forall i: nat | i in next.gone && i < |next.rows| && next.gone[i] == Operator && next.rows[i].maker.Some?
      ensures Retired(s'.SlotOf(next.rows[i].maker.value.key), s.used, next.rows[i].maker.value.uid)
    {
      var owner := next.rows[i].maker.value;
      if i in s.shared.auths.gone {
        assert i < |s.shared.auths.rows| && Retired(s.SlotOf(owner.key), s.used, owner.uid);
      } else {
        RemovalIsOwn(s, key, next, i);
      }
    }
  }

  lemma StepKeepsInv(s: State, key: Key, o: Outcome)
    requires Inv(s)
    ensures Inv(Apply(s, Step(key, o)))
  {
    var s' := Apply(s, Step(key, o));
    ApplyKeepsWellFormed(s, Step(key, o));
    assert KeyOk(s, key);
    StepFacts(s, key, o);
    var n := Fire(key, s.View(key), o);
    StepKeepsAtMostOne(s, key, n.shared.auths);
    forall uid: Uid | Retired(s.SlotOf(key), s.used, uid) ensures Retired(n.slot, s.used, uid) {
      FireKeepsRetired(key, s.View(key), s.used, o, uid);
    }
    StepKeepsRemovedRetired(s, key, n);
    forall k: Key ensures KeyOk(s', k) {
      assert KeyOk(s, k);
      if k == key {
        OwnStepClear(s, key, o);
      } else {
        OtherStepClear(s, key, o, k);
        GrowthKeepsPointRows(k, s.ProcOf(k), s.shared, s'.shared);
      }
    }
  }

  lemma UserKeepsKey(s: State, a: Action, key: Key)
    requires s.WellFormed() && (a.UserCreate? || a.UserUpdate? || a.UserDelete?)
    requires KeyOk(s, a.key) && KeyOk(s, key)
    ensures Apply(s, a).WellFormed() && KeyOk(Apply(s, a), key)
  {
    ApplyKeepsWellFormed(s, a);
    UserKeepsLine(a.key, s.SlotOf(a.key), s.ProcOf(a.key), s.used, a);
  }

  lemma UserKeepsRemovedRetired(s: State, a: Action)
    requires s.WellFormed() && (a.UserCreate? || a.UserUpdate? || a.UserDelete?)
    requires KeyOk(s, a.key) && RemovedAreRetired(s)
    ensures Apply(s, a).WellFormed() && RemovedAreRetired(Apply(s, a))
  {
    var s' := Apply(s, a);
    var auths := s.shared.auths;
    ApplyKeepsWellFormed(s, a);
    forall i | i in auths.gone && i < |auths.rows| && auths.gone[i] == Operator && auths.rows[i].maker.Some?
      ensures Retired(s'.SlotOf(auths.rows[i].maker.value.key), s'.used, auths.rows[i].maker.value.uid)
    {
      var owner := auths.rows[i].maker.value;
      if owner.key == a.key {
        UserKeepsRetired(a.key, s.SlotOf(a.key), s.used, a, owner.uid);
      }
    }
  }

  lemma UserKeepsInv(s: State, a: Action)
    requires Inv(s) && (a.UserCreate? || a.UserUpdate? || a.UserDelete?)
    ensures Inv(Apply(s, a))
  {
    assert KeyOk(s, a.key);
    UserKeepsRemovedRetired(s, a);
    forall k: Key ensures KeyOk(Apply(s, a), k) {
      assert KeyOk(s, k);
      UserKeepsKey(s, a, k);
    }
  }

  lemma OutsideGrows(shared: Shared, a: Action, used: set<Uid>)
    requires TablesOk(shared, used)
    ensures var next := Outside(shared, a);
      && TablesOk(next, used)
      && Grows(shared.auths, next.auths) && Grows(shared.buckets, next.buckets) && Grows(shared.orgs, next.orgs)
      && (forall i | |shared.auths.rows| <= i < |next.auths.rows| :: next.auths.rows[i].maker.None?)
      && (forall i | |shared.buckets.rows| <= i < |next.buckets.rows| :: next.buckets.rows[i].maker.None?)
      && (forall i | |shared.orgs.rows| <= i < |next.orgs.rows| :: next.orgs.rows[i].maker.None?)
      && (forall i | i in next.auths.gone && i !in shared.auths.gone :: next.auths.gone[i] == Outsider)
  {
  }

  lemma OutsideKeepsAtMostOne(shared: Shared, a: Action)
    requires AtMostOne(shared.auths)
    ensures AtMostOne(Outside(shared, a).auths)
  {
  }

  lemma OutsideKeepsKey(s: State, a: Action, key: Key)
    requires s.WellFormed() && KeyOk(s, key) && TablesOk(s.shared, s.used)
    ensures KeyOk(s.(shared := Outside(s.shared, a)), key)
  {
  }

  lemma OutsideKeepsInv(s: State, a: Action)
    requires Inv(s) && Apply(s, a) == s.(shared := Outside(s.shared, a))
    ensures Inv(Apply(s, a))
  {
    var s' := Apply(s, a);
    OutsideGrows(s.shared, a, s.used);
    OutsideKeepsAtMostOne(s.shared, a);
    forall k: Key ensures KeyOk(s', k) {
      assert KeyOk(s, k);
      OutsideKeepsKey(s, a, k);
    }
    assert RemovedAreRetired(s') by {
      forall i | i in s'.shared.auths.gone && i < |s'.shared.auths.rows| && s'.shared.auths.gone[i] == Operator
                 && s'.shared.auths.rows[i].maker.Some?
        ensures Retired(s'.SlotOf(s'.shared.auths.rows[i].maker.value.key), s'.used,
            s'.shared.auths.rows[i].maker.value.uid)
      {
        assert i in s.shared.auths.gone && i < |s.shared.auths.rows|;
      }
    }
  }

  lemma ApplyKeepsInv(s: State, a: Action)
    requires Inv(s)
    ensures Inv(Apply(s, a))
  {
    match a
    case Step(key, o) => StepKeepsInv(s, key, o);
    case Crash(key) =>
      forall k: Key ensures KeyOk(Apply(s, a), k) {
        assert KeyOk(s, k);
      }
    case UserCreate(_, _, _) => UserKeepsInv(s, a);
    case UserUpdate(_, _) => UserKeepsInv(s, a);
    case UserDelete(_) => UserKeepsInv(s, a);
    case _ => OutsideKeepsInv(s, a);
  }

  lemma {:induction false} RunKeepsInv(s: State, actions: seq<Action>)
    requires Inv(s)
    ensures Inv(Run(s, actions))
  {
    if actions != [] {
      var n := |actions| - 1;
      RunKeepsInv(s, actions[..n]);
      ApplyKeepsInv(Run(s, actions[..n]), actions[n]);
    }
  }
}
