/** The write-ahead discipline: whatever the operator created on the server belongs to a
    custom resource that still exists and still carries the finalizer. */
module Finalizers {
  import opened Types
  import opened Descriptions
  import opened Protocol
  import opened Lines
  import opened Safety

  /** The resources on the server that belong to one incarnation. */
  ghost predicate Owned(shared: Shared, owner: Owner, i: nat) {
    TableOf(shared, owner.key.kind).Live(i) && TableOf(shared, owner.key.kind).rows[i].maker == Some(owner)
  }

  /** The parent under which a kind's rows are found. */
  function Home(kind: Kind, org: nat): nat {
    if kind == OrganizationKind then 0 else org
  }

  ghost predicate AtHome(shared: Shared, key: Key, org: nat, i: nat) {
    && i < |TableOf(shared, key.kind).rows| && TableOf(shared, key.kind).rows[i].parent == Home(key.kind, org)
    && (key.kind != OrganizationKind ==> org < |shared.orgs.rows|)
  }

  ghost predicate Clear(shared: Shared, owner: Owner) {
    forall i: nat :: !Owned(shared, owner, i)
  }

  /** The config of an incarnation stays put. Wherever a pass may still look, the config it
      finds leads (except for organizations) to the one organization `org`, called `title`.
      That organization may yet have to be created, so it may come after the incarnation;
      otherwise config and organization may be missing only while the operator has nothing on
      the server for the incarnation. */
  ghost predicate Pinned(s: State, owner: Owner, org: nat, title: string)
    requires s.WellFormed()
  {
    && (owner.key.kind != OrganizationKind ==> OrgSteady(s.shared, owner, org, title))
    && var slot := s.SlotOf(owner.key);
       forall i | slot.seen <= i < |slot.versions| && slot.versions[i].Some?
           && slot.versions[i].value.uid == owner.uid ::
         ConfigSteady(s.shared, owner, slot.versions[i].value, title)
  }

  ghost predicate OrgSteady(shared: Shared, owner: Owner, org: nat, title: string) {
    match shared.orgs.First(0, title)
    case Some(id) => id == org
    case None => |shared.orgs.rows| <= org || Clear(shared, owner)
  }

  ghost predicate ConfigSteady(shared: Shared, owner: Owner, cr: Resource, title: string) {
    var name := Name(owner.key.namespace, ConfigName(owner.key, cr.spec));
    if name in shared.configs then owner.key.kind != OrganizationKind ==> shared.configs[name].orgName == title
    else Clear(shared, owner)
  }

  /** What an incarnation has on the server is held by its finalizer and lies where a pass
      for it looks. */
  ghost predicate OwnedHeld(s: State, owner: Owner, org: nat)
    requires s.WellFormed()
  {
    forall i: nat | Owned(s.shared, owner, i) ::
        Holds(s.SlotOf(owner.key), owner.uid) && AtHome(s.shared, owner.key, org, i)
  }

  /** A pass in flight for the incarnation works in the pinned organization, and is about to
      drop the finalizer only when nothing is left. */
  ghost predicate PassBound(owner: Owner, proc: Proc, shared: Shared, org: nat, title: string) {
    proc.At? && proc.cr.uid == owner.uid ==>
      match proc.point
      case GetCredential(_, config) => owner.key.kind != OrganizationKind ==> config.orgName == title
      case FindOrg(_, config) => owner.key.kind != OrganizationKind ==> config.orgName == title
      case ListAuths(_, org') => org' == org
      case CreateAuth(org') => org' == org
      case CreateBucket(org') => org' == org
      case ListBuckets(org') => org' == org
      case SaveObject => proc.cr.finalizer || Clear(shared, owner)
      case _ => true
  }

  ghost predicate Bound(s: State, owner: Owner, org: nat, title: string)
    requires s.WellFormed()
  {
    OwnedHeld(s, owner, org) && PassBound(owner, s.ProcOf(owner.key), s.shared, org, title)
  }

  /** Nothing with the owner's title in the organization means nothing owned. */
  lemma ListingShowsClear(s: State, owner: Owner, org: nat)
    requires Inv(s) && OwnedHeld(s, owner, org)
    requires TableOf(s.shared, owner.key.kind).First(Home(owner.key.kind, org), Title(owner)).None?
    ensures Clear(s.shared, owner)
  {
    forall i: nat ensures !Owned(s.shared, owner, i) {
      assert !TableOf(s.shared, owner.key.kind).Hit(i, Home(owner.key.kind, org), Title(owner));
    }
  }

  /** A pass decides to drop the finalizer in exactly three situations: its config is
      gone, its organization is gone (Tokens and Organizations only), or the listing of
      the organization it looked up shows nothing with its title. */
  lemma DropOnlyWhenNothingShows(key: Key, l: Local, o: Outcome)
    requires |l.slot.versions| > 0 && l.proc.At? && PointFits(key.kind, l.proc.point) && !Saving(l.proc.point)
    ensures var n := Fire(key, l, o).proc;
      n.At? && n.point.SaveObject? <==>
        && o.Reply?
        && (|| (l.proc.point == GetConfig(true)
                && Name(key.namespace, ConfigName(key, l.proc.cr.spec)) !in l.shared.configs)
            || (&& l.proc.point.FindOrg? && l.proc.point.teardown && key.kind != BucketKind
                && l.shared.orgs.First(0, OrgSought(key, true, l.proc.point.config)).None?)
            || (&& l.proc.point.ListAuths? && l.proc.point.teardown
                && l.shared.auths.First(l.proc.point.org, TitleOf(key, l.proc.cr)).None?)
            || (l.proc.point.ListBuckets? && l.shared.buckets.First(l.proc.point.org, key.name).None?))
  {
  }

  /** A pass that decides to drop the finalizer has nothing left to lose. */
  lemma OwnDropClear(s: State, owner: Owner, o: Outcome, org: nat, title: string)
    requires Inv(s) && Pinned(s, owner, org, title) && Bound(s, owner, org, title)
    requires var p := s.ProcOf(owner.key); p.At? && !Saving(p.point) && p.cr.uid == owner.uid
    requires var p := Fire(owner.key, s.View(owner.key), o).proc; p.At? && p.point.SaveObject?
    ensures Clear(Fire(owner.key, s.View(owner.key), o).shared, owner)
  {
    var l := s.View(owner.key);
    assert KeyOk(s, owner.key);
    DropOnlyWhenNothingShows(owner.key, l, o);
    assert l.slot.versions[l.slot.seen] == Some(l.proc.cr);
    assert Fire(owner.key, l, o).shared == l.shared;
    if !Clear(l.shared, owner) {
      var i: nat :| Owned(l.shared, owner, i);
      assert AtHome(l.shared, owner.key, org, i);
      ListingShowsClear(s, owner, org);
    }
  }

  /** Calls on the way lead into the pinned organization and nowhere else. */
  lemma SearchStaysBound(owner: Owner, l: Local, o: Outcome, org: nat, title: string)
    requires |l.slot.versions| > 0 && l.proc.At? && !Saving(l.proc.point) && l.proc.cr.uid == owner.uid
    requires PassBound(owner, l.proc, l.shared, org, title)
    requires owner.key.kind != OrganizationKind ==> OrgSteady(l.shared, owner, org, title)
    requires ConfigSteady(l.shared, owner, l.proc.cr, title)
    requires Fire(owner.key, l, o).proc.At? ==> !Fire(owner.key, l, o).proc.point.SaveObject?
    ensures PassBound(owner, Fire(owner.key, l, o).proc, Fire(owner.key, l, o).shared, org, title)
  {
  }

  lemma OwnStepPassBound(s: State, owner: Owner, o: Outcome, org: nat, title: string)
    requires Inv(s) && Pinned(s, owner, org, title) && Bound(s, owner, org, title)
    ensures PassBound(owner, Fire(owner.key, s.View(owner.key), o).proc,
        Fire(owner.key, s.View(owner.key), o).shared, org, title)
  {
    var l := s.View(owner.key);
    var n := Fire(owner.key, l, o);
    assert KeyOk(s, owner.key);
    if l.proc.At? && n.proc.At? && !Saving(l.proc.point) && l.proc.cr.uid == owner.uid {
      if n.proc.point.SaveObject? {
        OwnDropClear(s, owner, o, org, title);
      } else {
        assert l.slot.versions[l.slot.seen] == Some(l.proc.cr);
        SearchStaysBound(owner, l, o, org, title);
      }
    }
  }

  lemma OwnStepOwnedHeld(s: State, owner: Owner, n: Local, org: nat, title: string)
    requires Inv(s) && Bound(s, owner, org, title)
    requires SlotStep(s.View(owner.key), n.slot) && |s.shared.orgs.rows| <= |n.shared.orgs.rows|
    requires TableStep(owner.key, s.View(owner.key), owner.key.kind, TableOf(n.shared, owner.key.kind))
    ensures s.Put(owner.key, n).WellFormed() && OwnedHeld(s.Put(owner.key, n), owner, org)
  {
    var key := owner.key;
    var l := s.View(key);
    var s' := s.Put(key, n);
    assert KeyOk(s, key);
    assert s'.SlotOf(key) == n.slot && s'.shared == n.shared;
    forall i: nat | Owned(s'.shared, owner, i)
      ensures Holds(s'.SlotOf(key), owner.uid) && AtHome(s'.shared, key, org, i)
    {
      if !Owned(s.shared, owner, i) {
        assert AddsOwn(key, l, key.kind, TableOf(n.shared, key.kind));
        assert Working(l.slot.versions[l.slot.seen]);
      } else {
        HoldsUnlessDropped(key, l, n.slot, owner.uid);
      }
    }
  }

  /** Passes for other keys, users and outsiders cannot add to what an incarnation owns. */
  lemma OthersKeepClear(s: State, a: Action, owner: Owner, i: nat)
    requires Inv(s) && (a.Step? ==> a.key != owner.key)
    requires Owned(Apply(s, a).shared, owner, i)
    ensures Owned(s.shared, owner, i)
  {
    if a.Step? {
      StepFacts(s, a.key, a.outcome);
    } else {
      OutsideGrows(s.shared, a, s.used);
    }
  }

  lemma UserKeepsHold(key: Key, slot: Slot, used: set<Uid>, a: Action, uid: Uid)
    requires |slot.versions| > 0 && Holds(slot, uid) && (a.UserCreate? || a.UserUpdate? || a.UserDelete?)
    ensures Holds(UserSlot(key, slot, used, a), uid)
  {
  }

  lemma OtherActionOwnedHeld(s: State, a: Action, owner: Owner, org: nat)
    requires Inv(s) && OwnedHeld(s, owner, org) && (a.Step? ==> a.key != owner.key)
    ensures Apply(s, a).WellFormed() && OwnedHeld(Apply(s, a), owner, org)
  {
    var key, s' := owner.key, Apply(s, a);
    ApplyKeepsWellFormed(s, a);
    forall i: nat | Owned(s'.shared, owner, i)
      ensures Holds(s'.SlotOf(key), owner.uid) && AtHome(s'.shared, key, org, i)
    {
      OthersKeepClear(s, a, owner, i);
      if a.UserCreate? || a.UserUpdate? || a.UserDelete? {
        if a.key == key {
          UserKeepsHold(key, s.SlotOf(key), s.used, a, owner.uid);
        }
      } else if a.Step? {
        StepFacts(s, a.key, a.outcome);
      } else {
        OutsideGrows(s.shared, a, s.used);
      }
    }
  }

  lemma OtherActionPassBound(s: State, a: Action, owner: Owner, org: nat, title: string)
    requires Inv(s) && PassBound(owner, s.ProcOf(owner.key), s.shared, org, title) && (a.Step? ==> a.key != owner.key)
    ensures PassBound(owner, Apply(s, a).ProcOf(owner.key), Apply(s, a).shared, org, title)
  {
    var proc, shared' := s.ProcOf(owner.key), Apply(s, a).shared;
    if proc.At? && proc.point.SaveObject? && Clear(s.shared, owner) {
      forall i: nat ensures !Owned(shared', owner, i) {
        if Owned(shared', owner, i) {
          OthersKeepClear(s, a, owner, i);
          assert false;
        }
      }
      assert Clear(shared', owner);
    }
    assert Apply(s, a).ProcOf(owner.key) == proc || Apply(s, a).ProcOf(owner.key).Idle?;
  }

  lemma ApplyKeepsBound(s: State, a: Action, owner: Owner, org: nat, title: string)
    requires Inv(s) && Pinned(s, owner, org, title) && Bound(s, owner, org, title)
    ensures Apply(s, a).WellFormed() && Bound(Apply(s, a), owner, org, title)
  {
    var key := owner.key;
    if a.Step? && a.key == key {
      assert KeyOk(s, key);
      FireSlot(key, s.View(key), a.outcome);
      FireTables(key, s.View(key), a.outcome, key.kind);
      FireTables(key, s.View(key), a.outcome, OrganizationKind);
      OwnStepOwnedHeld(s, owner, Fire(key, s.View(key), a.outcome), org, title);
      OwnStepPassBound(s, owner, a.outcome, org, title);
    } else {
      OtherActionOwnedHeld(s, a, owner, org);
      OtherActionPassBound(s, a, owner, org, title);
    }
  }

  /** The config of the incarnation stays put at every moment of the run. */
  ghost predicate AlwaysPinned(s: State, actions: seq<Action>, owner: Owner, org: nat, title: string)
    requires s.WellFormed()
  {
    forall i | 0 <= i < |actions| :: Pinned(Run(s, actions[..i]), owner, org, title)
  }

  lemma {:induction false} RunKeepsBound(s: State, actions: seq<Action>, owner: Owner, org: nat, title: string)
    requires Inv(s) && Bound(s, owner, org, title) && AlwaysPinned(s, actions, owner, org, title)
    ensures Bound(Run(s, actions), owner, org, title)
  {
    if actions != [] {
      var n := |actions| - 1;
      var before := actions[..n];
      forall i | 0 <= i < n ensures Pinned(Run(s, before[..i]), owner, org, title) {
        assert before[..i] == actions[..i];
      }
      RunKeepsInv(s, before);
      RunKeepsBound(s, before, owner, org, title);
      ApplyKeepsBound(Run(s, before), actions[n], owner, org, title);
    }
  }

  /** Before an incarnation exists, nothing is there that could get out of bounds. */
  lemma UnusedIsBound(s: State, owner: Owner, org: nat, title: string)
    requires Inv(s) && owner.uid !in s.used
    ensures Bound(s, owner, org, title)
  {
    assert KeyOk(s, owner.key);
  }

  /** The state after a run that begins with `early`, in which the incarnation does not
      exist yet, and goes on with `lifetime`, in which its config stays put. */
  lemma LifetimeKeepsBound(s: State, early: seq<Action>, lifetime: seq<Action>, owner: Owner, org: nat, title: string)
    requires Initial(s) && owner.uid !in Run(s, early).used
    requires AlwaysPinned(Run(s, early), lifetime, owner, org, title)
    ensures Inv(Run(s, early + lifetime)) && Bound(Run(s, early + lifetime), owner, org, title)
  {
    InitialInv(s);
    RunKeepsInv(s, early);
    RunKeepsInv(s, early + lifetime);
    UnusedIsBound(Run(s, early), owner, org, title);
    RunKeepsBound(Run(s, early), lifetime, owner, org, title);
    RunConcat(s, early, lifetime);
  }

  /** Write-ahead: at every moment, everything the operator ever created for an incarnation
      and that is still on the server belongs to a custom resource that exists and carries
      the finalizer, in every run in which its config stays put from when it is created. */
  lemma WriteAheadFinalizer(s: State, early: seq<Action>, lifetime: seq<Action>, owner: Owner, org: nat,
      title: string, i: nat)
    requires Initial(s) && owner.uid !in Run(s, early).used
    requires AlwaysPinned(Run(s, early), lifetime, owner, org, title)
    requires Owned(Run(s, early + lifetime).shared, owner, i)
    ensures Holds(Run(s, early + lifetime).SlotOf(owner.key), owner.uid)
  {
    LifetimeKeepsBound(s, early, lifetime, owner, org, title);
  }

  /******* After the finalizer is gone *******/

  /** The incarnation was there and is not any more. */
  ghost predicate Vanished(slot: Slot, uid: Uid) {
    && (exists i :: 0 <= i < |slot.versions| && slot.versions[i].Some? && slot.versions[i].value.uid == uid)
    && (|slot.versions| > 0 && slot.Last().Some? ==> slot.Last().value.uid != uid)
  }

  lemma VanishedIsClear(s: State, owner: Owner, org: nat)
    requires Inv(s) && OwnedHeld(s, owner, org) && Vanished(s.SlotOf(owner.key), owner.uid)
    ensures Clear(s.shared, owner) && Retired(s.SlotOf(owner.key), s.used, owner.uid)
  {
    assert KeyOk(s, owner.key);
    GoneIsRetired(s.SlotOf(owner.key), s.used, owner.uid);
  }

  lemma ApplyKeepsRetired(s: State, a: Action, key: Key, uid: Uid)
    requires Inv(s) && Retired(s.SlotOf(key), s.used, uid)
    ensures Apply(s, a).WellFormed() && Retired(Apply(s, a).SlotOf(key), Apply(s, a).used, uid)
  {
    ApplyKeepsWellFormed(s, a);
    assert KeyOk(s, key);
    if a.Step? && a.key == key {
      FireKeepsRetired(key, s.View(key), s.used, a.outcome, uid);
    } else if (a.UserCreate? || a.UserUpdate? || a.UserDelete?) && a.key == key {
      UserKeepsRetired(key, s.SlotOf(key), s.used, a, uid);
    }
  }

  /** Nothing is ever added to a retired incarnation, whoever acts. */
  lemma RetiredGainsNothing(s: State, a: Action, key: Key, uid: Uid, i: nat)
    requires Inv(s) && Retired(s.SlotOf(key), s.used, uid)
    requires Owned(Apply(s, a).shared, Owner(key, uid), i)
    ensures Owned(s.shared, Owner(key, uid), i)
  {
    if a.Step? && a.key == key {
      assert KeyOk(s, key);
      FireTables(key, s.View(key), a.outcome, key.kind);
      if s.ProcOf(key).At? && Creating(s.ProcOf(key).point) {
        CreatorNotRetired(key, s.SlotOf(key), s.ProcOf(key), s.used);
      }
    } else {
      OthersKeepClear(s, a, Owner(key, uid), i);
    }
  }

  lemma {:induction false} RetiredStaysClear(s: State, actions: seq<Action>, key: Key, uid: Uid)
    requires Inv(s) && Retired(s.SlotOf(key), s.used, uid) && Clear(s.shared, Owner(key, uid))
    ensures var r := Run(s, actions);
      Inv(r) && Retired(r.SlotOf(key), r.used, uid) && Clear(r.shared, Owner(key, uid))
  {
    if actions != [] {
      var n := |actions| - 1;
      var before := Run(s, actions[..n]);
      RetiredStaysClear(s, actions[..n], key, uid);
      ApplyKeepsInv(before, actions[n]);
      ApplyKeepsRetired(before, actions[n], key, uid);
      forall i: nat ensures !Owned(Apply(before, actions[n]).shared, Owner(key, uid), i) {
        if Owned(Apply(before, actions[n]).shared, Owner(key, uid), i) {
          RetiredGainsNothing(before, actions[n], key, uid, i);
        }
      }
    }
  }

  /** No leak: if the config stays put from when an incarnation is created until it has
      disappeared, then nothing the operator created for it is left, and nothing is created
      for it ever after, whatever happens to the config from then on. */
  lemma NoLeak(s: State, early: seq<Action>, lifetime: seq<Action>, after: seq<Action>, owner: Owner, org: nat,
      title: string)
    requires Initial(s) && owner.uid !in Run(s, early).used
    requires AlwaysPinned(Run(s, early), lifetime, owner, org, title)
    requires Vanished(Run(s, early + lifetime).SlotOf(owner.key), owner.uid)
    ensures Clear(Run(s, early + lifetime + after).shared, owner)
  {
    LifetimeKeepsBound(s, early, lifetime, owner, org, title);
    var gone := Run(s, early + lifetime);
    VanishedIsClear(gone, owner, org);
    RetiredStaysClear(gone, after, owner.key, owner.uid);
    RunConcat(s, early + lifetime, after);
  }
}
