/** What the authorizations that the operator creates are called and allow. */
module Grants {
  import opened Types
  import opened Tables
  import opened Protocol
  import opened Lines
  import opened Safety
  import opened Guards

  /** The grants are the permissions, one by one and in order; each is tied to the
      organization, except those on organizations, which are tied to none. */
  predicate GrantsAsAsked(row: Row, permissions: seq<Permission>) {
    && row.payload.AuthorizationData? && |row.payload.grants| == |permissions|
    && forall i | 0 <= i < |permissions| ::
         && row.payload.grants[i].action == permissions[i].permissionType
         && row.payload.grants[i].resourceType == permissions[i].resourceType
         && row.payload.grants[i].resourceName == permissions[i].resourceName
         && row.payload.grants[i].org == if permissions[i].resourceType == "orgs" then None else Some(row.parent)
  }

  /** Some version of the incarnation asks for exactly these grants. */
  ghost predicate AskedFor(slot: Slot, uid: Uid, row: Row) {
    exists i :: 0 <= i < |slot.versions| && slot.versions[i].Some?
                && slot.versions[i].value.uid == uid && GrantsAsAsked(row, slot.versions[i].value.spec.permissions)
  }

  ghost predicate RowAsked(s: State, row: Row)
    requires s.WellFormed()
  {
    row.maker.Some? ==>
      && AskedFor(s.SlotOf(row.maker.value.key), row.maker.value.uid, row)
      && row.title == Some(row.maker.value.key.name + "." + row.maker.value.key.namespace + "." + row.maker.value.uid)
  }

  ghost predicate AuthRows(s: State)
    requires s.WellFormed()
  {
    forall i | 0 <= i < |s.shared.auths.rows| :: RowAsked(s, s.shared.auths.rows[i])
  }

  /** The create call is made from the version that was read. */
  lemma NewAuthorizationIsAsked(key: Key, l: Local, o: Outcome, i: nat)
    requires l.slot.seen < |l.slot.versions| && ProcOk(key, l.slot, l.proc)
    requires |l.shared.auths.rows| <= i < |Fire(key, l, o).shared.auths.rows|
    ensures var row := Fire(key, l, o).shared.auths.rows[i];
      && row.maker == Some(Owner(key, l.proc.cr.uid))
      && row.title == Some(key.name + "." + key.namespace + "." + l.proc.cr.uid)
      && AskedFor(l.slot, l.proc.cr.uid, row)
  {
    assert l.proc.point.CreateAuth?;
    assert Fire(key, l, o).shared.auths.rows[i] == NewAuth(key, l.proc.cr, l.proc.point.org, o.text);
    assert l.slot.versions[l.slot.seen] == Some(l.proc.cr);
    assert GrantsAsAsked(NewAuth(key, l.proc.cr, l.proc.point.org, o.text), l.proc.cr.spec.permissions);
  }

  lemma SlotsExtend(s: State, a: Action, key: Key)
    requires s.WellFormed()
    ensures Apply(s, a).WellFormed() && Extends(s.SlotOf(key), Apply(s, a).SlotOf(key))
  {
    ApplyKeepsWellFormed(s, a);
    if a.Step? && a.key == key {
      FireSlot(key, s.View(key), a.outcome);
    }
  }

  lemma AskedForExtends(slot: Slot, next: Slot, uid: Uid, row: Row)
    requires Extends(slot, next) && AskedFor(slot, uid, row)
    ensures AskedFor(next, uid, row)
  {
    var i :| 0 <= i < |slot.versions| && slot.versions[i].Some?
             && slot.versions[i].value.uid == uid && GrantsAsAsked(row, slot.versions[i].value.spec.permissions);
    assert next.versions[i] == slot.versions[i];
  }

  lemma RowStaysAsked(s: State, a: Action, row: Row)
    requires s.WellFormed() && RowAsked(s, row)
    ensures Apply(s, a).WellFormed() && RowAsked(Apply(s, a), row)
  {
    ApplyKeepsWellFormed(s, a);
    if row.maker.Some? {
      var key := row.maker.value.key;
      SlotsExtend(s, a, key);
      AskedForExtends(s.SlotOf(key), Apply(s, a).SlotOf(key), row.maker.value.uid, row);
    }
  }

  /** Rows that were there are the same; a new one is asked for already before it is created. */
  lemma RowsAfter(s: State, a: Action, i: nat)
    requires Inv(s) && AuthRows(s) && i < |Apply(s, a).shared.auths.rows|
    ensures RowAsked(s, Apply(s, a).shared.auths.rows[i])
  {
    if a.Step? {
      assert KeyOk(s, a.key);
      StepFacts(s, a.key, a.outcome);
      if i >= |s.shared.auths.rows| {
        NewAuthorizationIsAsked(a.key, s.View(a.key), a.outcome, i);
      }
    } else {
      OutsideGrows(s.shared, a, s.used);
    }
  }

  lemma {:induction false} RunKeepsAuthRows(s: State, actions: seq<Action>)
    requires Inv(s) && AuthRows(s)
    ensures AuthRows(Run(s, actions))
  {
    if actions != [] {
      var before, a := Run(s, actions[..|actions| - 1]), actions[|actions| - 1];
      RunKeepsInv(s, actions[..|actions| - 1]);
      RunKeepsAuthRows(s, actions[..|actions| - 1]);
      forall i | 0 <= i < |Apply(before, a).shared.auths.rows|
        ensures Apply(before, a).WellFormed() && RowAsked(Apply(before, a), Apply(before, a).shared.auths.rows[i])
      {
        RowsAfter(before, a, i);
        RowStaysAsked(before, a, Apply(before, a).shared.auths.rows[i]);
      }
    }
  }

  /** Over all runs, every authorization the operator ever created carries the description of
      its Token and grants exactly what some version of that incarnation asks for: the same
      actions on the same resources, tied to the organization it was created in, and untied
      for permissions on organizations. */
  lemma AuthorizationsAsAsked(s: State, actions: seq<Action>, owner: Owner, i: nat) returns (j: nat)
    requires Initial(s)
    requires var rows := Run(s, actions).shared.auths.rows; i < |rows| && rows[i].maker == Some(owner)
    ensures var r := Run(s, actions);
      var row, versions := r.shared.auths.rows[i], r.SlotOf(owner.key).versions;
      && row.title == Some(owner.key.name + "." + owner.key.namespace + "." + owner.uid)
      && j < |versions| && versions[j].Some? && versions[j].value.uid == owner.uid
      && GrantsAsAsked(row, versions[j].value.spec.permissions)
  {
    InitialInv(s);
    RunKeepsAuthRows(s, actions);
    var r := Run(s, actions);
    assert RowAsked(r, r.shared.auths.rows[i]);
    var slot := r.SlotOf(owner.key);
    j :| 0 <= j < |slot.versions| && slot.versions[j].Some? && slot.versions[j].value.uid == owner.uid
         && GrantsAsAsked(r.shared.auths.rows[i], slot.versions[j].value.spec.permissions);
  }
}
