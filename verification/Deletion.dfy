/** Deletion comes to an end, and after exactly as many passes as there is work to do. */
module Deletion {
  import opened Types
  import opened Tables
  import opened Descriptions
  import opened Protocol
  import opened Lines
  import opened Safety
  import opened Finalizers
  import opened Passes
  import opened StatusAutomaton

  /** The config and credential of the resource are there, and so is the organization its
      artefacts live in; an organization's own artefact needs no other organization. */
  ghost predicate Prepared(key: Key, shared: Shared, cr: Resource, org: nat) {
    var name := Name(key.namespace, ConfigName(key, cr.spec));
    && name in shared.configs
    && Name(shared.configs[name].secretNamespace, shared.configs[name].secretName) in shared.secrets
    && (key.kind != OrganizationKind ==> shared.orgs.First(0, shared.configs[name].orgName) == Some(org))
  }

  /** What is left on the server under the title of the resource, duplicates and all. */
  function Left(key: Key, shared: Shared, cr: Resource, org: nat): nat {
    TableOf(shared, key.kind).Count(Home(key.kind, org), TitleOf(key, cr))
  }

  function FirstLeft(key: Key, shared: Shared, cr: Resource, org: nat): Option<nat> {
    TableOf(shared, key.kind).First(Home(key.kind, org), TitleOf(key, cr))
  }

  function WithTable(shared: Shared, kind: Kind, table: Table): Shared {
    match kind
    case TokenKind => shared.(auths := table)
    case BucketKind => shared.(buckets := table)
    case OrganizationKind => shared.(orgs := table)
  }

  ghost predicate BeingDeleted(l: Local) {
    |l.slot.versions| > 0 && l.slot.Last().Some? && l.slot.Last().value.deleting && l.slot.Last().value.finalizer
  }

  lemma SearchEndsInDrop(key: Key, l: Local, org: nat, text: string, now: nat)
    requires |l.slot.versions| > 0 && l.proc.At? && l.proc.point == GetConfig(true)
    requires Prepared(key, l.shared, l.proc.cr, org) && FirstLeft(key, l.shared, l.proc.cr, org).None?
    ensures Drive(key, l, text, now) == Drive(key, l.(proc := DropFinalizer(l.proc.cr, l.proc.version)), text, now)
  {
    if key.kind == OrganizationKind {
      var config := l.shared.configs[Name(key.namespace, ConfigName(key, l.proc.cr.spec))];
      DriveStep(key, l, text, now);
      DriveStep(key, l.(proc := l.proc.(point := GetCredential(true, config))), text, now);
      DriveStep(key, l.(proc := l.proc.(point := FindOrg(true, config))), text, now);
    } else {
      DriveReaches(key, l, true, org, text, now);
      DriveStep(key, l.(proc := l.proc.(point := AfterFindOrg(key.kind, true, org))), text, now);
    }
  }

  /** The pass removes the first thing that is left and records it. */
  function AfterRemoval(key: Key, l: Local, id: nat, tokenId: Option<nat>, now: nat): Local
    requires l.proc.At?
  {
    Local(l.slot, FinishTeardown(key.kind, l.proc.cr, l.proc.version, tokenId, now),
          WithTable(l.shared, key.kind, TableOf(l.shared, key.kind).Remove(id, Operator)))
  }

  lemma BucketRemoval(key: Key, l: Local, text: string, now: nat)
    requires |l.slot.versions| > 0 && l.proc.At? && l.proc.point.ListBuckets? && key.kind == BucketKind
    requires l.shared.buckets.First(l.proc.point.org, key.name).Some?
    ensures Drive(key, l, text, now)
         == Drive(key, AfterRemoval(key, l, l.shared.buckets.First(l.proc.point.org, key.name).value,
                                    l.proc.tokenId, now), text, now)
  {
  }

  lemma AuthRemoval(key: Key, l: Local, text: string, now: nat)
    requires |l.slot.versions| > 0 && l.proc.At? && key.kind == TokenKind
    requires l.proc.point.ListAuths? && l.proc.point.teardown
    requires l.shared.auths.First(l.proc.point.org, TitleOf(key, l.proc.cr)).Some?
    ensures var id := l.shared.auths.First(l.proc.point.org, TitleOf(key, l.proc.cr)).value;
      Drive(key, l, text, now) == Drive(key, AfterRemoval(key, l, id, Some(id), now), text, now)
  {
  }

  lemma SearchEndsInRemoval(key: Key, l: Local, org: nat, text: string, now: nat) returns (tokenId: Option<nat>)
    requires |l.slot.versions| > 0 && l.proc.At? && l.proc.point == GetConfig(true)
    requires Prepared(key, l.shared, l.proc.cr, org) && FirstLeft(key, l.shared, l.proc.cr, org).Some?
    ensures Drive(key, l, text, now)
         == Drive(key, AfterRemoval(key, l, FirstLeft(key, l.shared, l.proc.cr, org).value, tokenId, now), text, now)
  {
    var id := FirstLeft(key, l.shared, l.proc.cr, org).value;
    tokenId := l.proc.tokenId;
    match key.kind
    case OrganizationKind =>
      DriveReaches(key, l, true, id, text, now);
      DriveStep(key, l.(proc := l.proc.(point := DeleteOrg(id))), text, now);
    case BucketKind =>
      DriveReaches(key, l, true, org, text, now);
      BucketRemoval(key, l.(proc := l.proc.(point := ListBuckets(org))), text, now);
    case TokenKind =>
      tokenId := Some(id);
      DriveReaches(key, l, true, org, text, now);
      AuthRemoval(key, l.(proc := l.proc.(point := ListAuths(true, org))), text, now);
  }

  /** The last call of a pass that saves the resource it read. */
  lemma DriveSaves(key: Key, l: Local, text: string, now: nat)
    requires |l.slot.versions| > 0 && l.proc.At? && Saving(l.proc.point)
    requires l.proc.version == |l.slot.versions| - 1 && l.slot.Last().Some?
    ensures Drive(key, l, text, now) == Store(l, l.proc.cr, l.proc.version, !l.proc.point.SaveObject?)
  {
  }

  /** The first pass over a deleted resource only marks it. */
  lemma MarkingPass(key: Key, l: Local, text: string, now: nat)
    requires BeingDeleted(l) && l.slot.Last().value.status.phase != Terminating
    ensures var cr, r := l.slot.Last().value, Pass(key, l, text, now);
      && r.slot.versions == l.slot.versions + [Some(cr.(status := TerminatingStatus(cr.status)))]
      && r.shared == l.shared
  {
    DriveSaves(key, Begin(l, now), text, now);
  }

  lemma RemovingPass(key: Key, l: Local, org: nat, text: string, now: nat)
    requires BeingDeleted(l) && l.slot.Last().value.status.phase == Terminating
    requires Prepared(key, l.shared, l.slot.Last().value, org)
        && FirstLeft(key, l.shared, l.slot.Last().value, org).Some?
    ensures var cr, r := l.slot.Last().value, Pass(key, l, text, now);
      && r.slot.versions == l.slot.versions + [Some(cr.(status := DeletedStatus(key.kind, cr.status, now)))]
      && r.shared == WithTable(l.shared, key.kind,
           TableOf(l.shared, key.kind).Remove(FirstLeft(key, l.shared, cr, org).value, Operator))
  {
    var begun := Begin(l, now);
    var tokenId := SearchEndsInRemoval(key, begun, org, text, now);
    DriveSaves(key, AfterRemoval(key, begun, FirstLeft(key, l.shared, l.slot.Last().value, org).value, tokenId, now),
        text, now);
  }

  lemma DroppingPass(key: Key, l: Local, org: nat, text: string, now: nat)
    requires BeingDeleted(l) && l.slot.Last().value.status.phase == Terminating
    requires Prepared(key, l.shared, l.slot.Last().value, org)
        && FirstLeft(key, l.shared, l.slot.Last().value, org).None?
    ensures var r := Pass(key, l, text, now);
      r.slot.versions == l.slot.versions + [None] && r.shared == l.shared
  {
    var begun := Begin(l, now);
    SearchEndsInDrop(key, begun, org, text, now);
    DriveSaves(key, begun.(proc := DropFinalizer(begun.proc.cr, begun.proc.version)), text, now);
  }

  /** A deleted resource without the finalizer is none of the operator's business. */
  lemma IdlePass(key: Key, l: Local, text: string, now: nat)
    requires |l.slot.versions| > 0
    requires l.slot.Last().Some? ==> l.slot.Last().value.deleting && !l.slot.Last().value.finalizer
    ensures var r := Pass(key, l, text, now);
      r.slot.versions == l.slot.versions && r.shared == l.shared && r.proc == Idle(NoRequeue)
  {
  }

  /** How many passes deletion still takes. */
  function Remaining(key: Key, l: Local, org: nat): nat
    requires |l.slot.versions| > 0
  {
    match l.slot.Last()
    case None => 0
    case Some(cr) => (if cr.status.phase == Terminating then 1 else 2) + Left(key, l.shared, cr, org)
  }

  lemma RemovalLowersLeft(key: Key, shared: Shared, cr: Resource, org: nat)
    requires FirstLeft(key, shared, cr, org).Some?
    ensures var id := FirstLeft(key, shared, cr, org).value;
      Left(key, WithTable(shared, key.kind, TableOf(shared, key.kind).Remove(id, Operator)), cr, org)
          == Left(key, shared, cr, org) - 1
  {
    TableOf(shared, key.kind).CountRemove(FirstLeft(key, shared, cr, org).value, Operator, Home(key.kind, org),
        TitleOf(key, cr), 0);
  }

  /** Every undisturbed pass brings deletion exactly one pass closer to its end. */
  lemma TeardownPass(key: Key, l: Local, org: nat, text: string, now: nat)
    requires BeingDeleted(l) && Prepared(key, l.shared, l.slot.Last().value, org)
    ensures var r := Pass(key, l, text, now);
      && Remaining(key, r, org) == Remaining(key, l, org) - 1
      && (r.slot.Last().Some? ==> BeingDeleted(r) && Prepared(key, r.shared, r.slot.Last().value, org))
      && (r.slot.Last().None? <==> Remaining(key, l, org) == 1)
  {
    var cr := l.slot.Last().value;
    TableOf(l.shared, key.kind).CountZero(Home(key.kind, org), TitleOf(key, cr), 0);
    if cr.status.phase != Terminating {
      MarkingPass(key, l, text, now);
    } else if FirstLeft(key, l.shared, cr, org).Some? {
      RemovingPass(key, l, org, text, now);
      RemovalLowersLeft(key, l.shared, cr, org);
    } else {
      DroppingPass(key, l, org, text, now);
    }
  }

  /** A deleted resource with k artefacts left, duplicates included, is gone after exactly
      k + 2 undisturbed passes (k + 1 when it is already marked), and not before. */
  lemma {:induction false} DeletionTakesExactly(key: Key, l: Local, org: nat, moments: seq<Moment>)
    requires BeingDeleted(l) && Prepared(key, l.shared, l.slot.Last().value, org)
    requires |moments| <= Remaining(key, l, org)
    ensures PassTimes(key, l, moments).slot.Last().None? <==> |moments| == Remaining(key, l, org)
    decreases moments
  {
    if moments != [] {
      var Moment(text, now) := moments[0];
      TeardownPass(key, l, org, text, now);
      if |moments| > 1 {
        DeletionTakesExactly(key, Pass(key, l, text, now), org, moments[1..]);
      }
    }
  }

  /******* Failures on the way *******/

  /** The reader has got as far as the deletion mark, and so has the pass in flight. */
  ghost predicate TeardownOnly(slot: Slot, proc: Proc) {
    && (forall i | slot.seen <= i < |slot.versions| && slot.versions[i].Some? :: slot.versions[i].value.deleting)
    && (proc.At? ==> proc.cr.deleting)
  }

  lemma SaveNeverRaisesRemaining(key: Key, l: Local, next: Slot, org: nat)
    requires l.slot.seen < |l.slot.versions| && ProcOk(key, l.slot, l.proc) && StatusProc(key.kind, l.slot, l.proc)
    requires TeardownOnly(l.slot, l.proc) && SlotStep(l, next)
    ensures |next.versions| > 0
    ensures Remaining(key, l.(slot := next), org) <= Remaining(key, l, org)
    ensures forall i | next.seen <= i < |next.versions| && next.versions[i].Some? :: next.versions[i].value.deleting
  {
  }

  /** Once the deletion mark has been read, no call of a pass, however it turns out, sets
      deletion back: not a refused one, not one whose reply is lost, and not a crash,
      which changes nothing but the pass. */
  lemma FailuresNeverRaiseRemaining(key: Key, l: Local, used: set<Uid>, org: nat, o: Outcome)
    requires LineOk(key, l.slot, l.proc, used) && StatusLine(key.kind, l.slot, l.proc)
    requires PointRows(key, l.proc, l.shared) && TeardownOnly(l.slot, l.proc)
    ensures var n := Fire(key, l, o);
      && |n.slot.versions| > 0
      && Remaining(key, n, org) <= Remaining(key, l, org)
      && TeardownOnly(n.slot, n.proc)
  {
    var n := Fire(key, l, o);
    FireSlot(key, l, o);
    FireKeepsLine(key, l, used, o);
    FireTables(key, l, o, key.kind);
    SaveNeverRaisesRemaining(key, l, n.slot, org);
    var table, next := TableOf(l.shared, key.kind), TableOf(n.shared, key.kind);
    if next != table && l.slot.Last().Some? {
      table.CountNeverRises(next, Home(key.kind, org), TitleOf(key, l.slot.Last().value), 0);
    }
  }

  /** What a pass at its delete call is about to remove. */
  function Doomed(proc: Proc): Option<nat>
    requires proc.At?
  {
    match proc.point
    case DeleteAuth => proc.tokenId
    case DeleteBucket(id) => Some(id)
    case DeleteOrg(id) => Some(id)
    case _ => None
  }

  /** A delete call that reaches the server brings deletion exactly one pass closer to its
      end, whether its reply arrives or is lost; one that does not leaves it where it was. */
  lemma DeleteCallCounts(key: Key, l: Local, org: nat, o: Outcome)
    requires |l.slot.versions| > 0 && l.slot.Last().Some? && l.proc.At? && PointFits(key.kind, l.proc.point)
    requires Doomed(l.proc).Some? && !o.Read?
    requires TableOf(l.shared, key.kind).Hit(Doomed(l.proc).value, Home(key.kind, org),
        TitleOf(key, l.slot.Last().value))
    ensures var n := Fire(key, l, o);
      n.slot == l.slot && Remaining(key, n, org) == Remaining(key, l, org) - (if o.Refused? then 0 else 1)
  {
    var table, title := TableOf(l.shared, key.kind), TitleOf(key, l.slot.Last().value);
    table.CountRemove(Doomed(l.proc).value, Operator, Home(key.kind, org), title, 0);
  }

  /******* Whole runs *******/

  /** The action is a step of a pass for `key`, or adds no row with this title in the
      organization; and it does not create the resource anew. */
  ghost predicate AddsNone(s: State, a: Action, key: Key, org: nat, title: string)
    requires s.WellFormed()
  {
    && !(a.UserCreate? && a.key == key)
    && ((a.Step? && a.key == key)
        || forall i: nat | TableOf(Apply(s, a).shared, key.kind).Hit(i, Home(key.kind, org), title) ::
             i < |TableOf(s.shared, key.kind).rows|)
  }

  /** The resource is still the one it was, in the same phase, or it is gone. */
  predicate SameCourse(slot: Slot, next: Slot)
    requires |slot.versions| > 0 && |next.versions| > 0
  {
    next.Last().Some? ==>
      && slot.Last().Some? && next.Last().value.uid == slot.Last().value.uid
      && next.Last().value.status.phase == slot.Last().value.status.phase
  }

  lemma UserKeepsTeardown(key: Key, slot: Slot, proc: Proc, used: set<Uid>, a: Action)
    requires slot.seen < |slot.versions| && TeardownOnly(slot, proc) && (a.UserUpdate? || a.UserDelete?)
    ensures var next := UserSlot(key, slot, used, a); TeardownOnly(next, proc) && SameCourse(slot, next)
  {
  }

  lemma OthersKeepTeardown(s: State, a: Action, key: Key)
    requires s.WellFormed() && s.SlotOf(key).seen < |s.SlotOf(key).versions|
        && TeardownOnly(s.SlotOf(key), s.ProcOf(key))
    requires !(a.Step? && a.key == key) && !(a.UserCreate? && a.key == key)
    ensures var r := Apply(s, a);
      r.WellFormed() && TeardownOnly(r.SlotOf(key), r.ProcOf(key)) && SameCourse(s.SlotOf(key), r.SlotOf(key))
  {
    ApplyKeepsWellFormed(s, a);
    if (a.UserUpdate? || a.UserDelete?) && a.key == key {
      UserKeepsTeardown(key, s.SlotOf(key), s.ProcOf(key), s.used, a);
    }
  }

  lemma OthersNeverRaiseCount(s: State, a: Action, key: Key, org: nat, title: string)
    requires Inv(s) && AddsNone(s, a, key, org, title) && !(a.Step? && a.key == key)
    ensures TableOf(Apply(s, a).shared, key.kind).Count(Home(key.kind, org), title)
         <= TableOf(s.shared, key.kind).Count(Home(key.kind, org), title)
  {
    if a.Step? {
      StepFacts(s, a.key, a.outcome);
    } else {
      OutsideGrows(s.shared, a, s.used);
    }
    TableOf(s.shared, key.kind).CountNeverRises(TableOf(Apply(s, a).shared, key.kind), Home(key.kind, org), title, 0);
  }

  /** The state in which deletion is under way, or over. */
  ghost predicate GoingOrGone(s: State, key: Key, uid: Uid)
    requires s.WellFormed()
  {
    && TeardownOnly(s.SlotOf(key), s.ProcOf(key))
    && (s.SlotOf(key).Last().Some? ==> s.SlotOf(key).Last().value.uid == uid)
  }

  lemma OwnStepNeverRaises(s: State, o: Outcome, key: Key, uid: Uid, org: nat)
    requires Inv(s) && StatusInv(s) && GoingOrGone(s, key, uid)
    ensures var n := Fire(key, s.View(key), o);
      && |n.slot.versions| > 0 && TeardownOnly(n.slot, n.proc)
      && (n.slot.Last().Some? ==> n.slot.Last().value.uid == uid)
      && Remaining(key, n, org) <= Remaining(key, s.View(key), org)
  {
    assert KeyOk(s, key) && StatusLine(key.kind, s.SlotOf(key), s.ProcOf(key));
    FireSlot(key, s.View(key), o);
    FailuresNeverRaiseRemaining(key, s.View(key), s.used, org, o);
  }

  lemma OtherActionNeverRaises(s: State, a: Action, key: Key, uid: Uid, org: nat)
    requires Inv(s) && GoingOrGone(s, key, uid) && !(a.Step? && a.key == key)
    requires AddsNone(s, a, key, org, Title(Owner(key, uid)))
    ensures var r := Apply(s, a);
      r.WellFormed() && GoingOrGone(r, key, uid) && Remaining(key, r.View(key), org) <= Remaining(key, s.View(key), org)
  {
    assert KeyOk(s, key);
    OthersKeepTeardown(s, a, key);
    OthersNeverRaiseCount(s, a, key, org, Title(Owner(key, uid)));
  }

  lemma ApplyNeverRaisesRemaining(s: State, a: Action, key: Key, uid: Uid, org: nat)
    requires Inv(s) && StatusInv(s) && GoingOrGone(s, key, uid)
    requires AddsNone(s, a, key, org, Title(Owner(key, uid)))
    ensures var r := Apply(s, a);
      r.WellFormed() && GoingOrGone(r, key, uid) && Remaining(key, r.View(key), org) <= Remaining(key, s.View(key), org)
  {
    if a.Step? && a.key == key {
      ApplyKeepsWellFormed(s, a);
      OwnStepNeverRaises(s, a.outcome, key, uid, org);
      assert Apply(s, a).View(key) == Fire(key, s.View(key), a.outcome);
    } else {
      OtherActionNeverRaises(s, a, key, uid, org);
    }
  }

  /** Once the deletion mark has been read, no run in which nobody else adds anything under
      the title of the resource takes deletion further from its end, whatever calls fail. */
  lemma {:induction false} RunNeverRaisesRemaining(s: State, actions: seq<Action>, key: Key, uid: Uid, org: nat)
    requires Inv(s) && StatusInv(s) && GoingOrGone(s, key, uid)
    requires forall i | 0 <= i < |actions| ::
        AddsNone(Run(s, actions[..i]), actions[i], key, org, Title(Owner(key, uid)))
    ensures var r := Run(s, actions);
      GoingOrGone(r, key, uid) && Remaining(key, r.View(key), org) <= Remaining(key, s.View(key), org)
  {
    if actions != [] {
      var n := |actions| - 1;
      var before := actions[..n];
      forall i | 0 <= i < n ensures AddsNone(Run(s, before[..i]), before[i], key, org, Title(Owner(key, uid))) {
        assert before[..i] == actions[..i];
      }
      RunNeverRaisesRemaining(s, before, key, uid, org);
      RunKeepsStatusInv(s, before);
      ApplyNeverRaisesRemaining(Run(s, before), actions[n], key, uid, org);
    }
  }
}
