/** The status of a custom resource as an automaton: which phases, condition logs, reasons and
    data can occur together, and that phase and log only move forward. */
module StatusAutomaton {
  import opened Types
  import opened Protocol
  import opened Lines
  import opened Safety

  function Log(r: Resource): seq<Reason> {
    Reasons(r.status.conditions)
  }

  function Rank(phase: Phase): nat {
    match phase
    case Unset => 0
    case Pending => 1
    case Ready => 2
    case Terminating => 3
  }

  /** The logs of a resource that no pass has started to tear down. */
  predicate WorkingLog(kind: Kind, log: seq<Reason>) {
    log == [] || log == [FinalizerAdded] || log == [FinalizerAdded, Created(kind)]
  }

  /** Duplicate-free subsequences of finalizerAdded, created, deleted in which created
      implies finalizerAdded. */
  predicate AnyLog(kind: Kind, log: seq<Reason>) {
    WorkingLog(kind, log)
    || (|log| > 0 && log[|log| - 1] == Deleted(kind) && WorkingLog(kind, log[..|log| - 1]))
  }

  /** The phase determines the log and the reason of the status; only a ready Token records
      data. In a terminating resource the log is what it was when it was marked, and the
      reason tells whether something has been deleted since. */
  predicate StatusOk(kind: Kind, r: Resource) {
    match r.status.phase
    case Unset => Log(r) == [] && r.status.reason == None && r.status.data == None
    case Pending => Log(r) == [FinalizerAdded] && r.status.reason == Some(ObjectInitialized) && r.status.data == None
    case Ready =>
      && Log(r) == [FinalizerAdded, Created(kind)] && r.status.reason == Some(Created(kind))
      && (kind != TokenKind ==> r.status.data == None)
    case Terminating =>
      && r.deleting && AnyLog(kind, Log(r)) && r.status.data == None
      && r.status.reason == Some(if Deleted(kind) in Log(r) then Deleted(kind) else ObjectMarkedForDeletion)
  }

  /** The phase moves forward and the log is only appended to. */
  predicate Forward(from: Resource, to: Resource) {
    Rank(from.status.phase) <= Rank(to.status.phase) && Log(from) <= Log(to)
  }

  lemma MentionsIsInLog(r: Resource, reason: Reason)
    ensures Mentions(r.status.conditions, reason) <==> reason in Log(r)
  {
  }

  ghost predicate StatusHistory(kind: Kind, slot: Slot) {
    && (forall i | 0 <= i < |slot.versions| && slot.versions[i].Some? :: StatusOk(kind, slot.versions[i].value))
    && (forall i, j | 0 <= i < j < |slot.versions| && slot.versions[i].Some? && slot.versions[j].Some?
                      && slot.versions[i].value.uid == slot.versions[j].value.uid ::
          Forward(slot.versions[i].value, slot.versions[j].value))
  }

  /** What a pass is about to write follows what it read, and only a pass that has seen to
      the artefacts writes `ready` for the first time. */
  ghost predicate StatusProc(kind: Kind, slot: Slot, proc: Proc)
    requires slot.seen < |slot.versions|
  {
    proc.At? && slot.versions[slot.seen].Some? ==>
      && var read := slot.versions[slot.seen].value;
         && StatusOk(kind, proc.cr)
         && Forward(read, proc.cr)
         && (Creating(proc.point) ==> FinalizerAdded in Log(proc.cr))
         && (!Creating(proc.point) && !Saving(proc.point) ==> proc.cr.status.phase == Terminating)
         && (proc.cr.deleting && !proc.point.SaveObject? ==> proc.cr.status.phase == Terminating)
         && (proc.point.SaveStatus? && kind == TokenKind && proc.cr.status.phase == Ready ==>
             read.status.phase == Ready)
  }

  ghost predicate StatusLine(kind: Kind, slot: Slot, proc: Proc)
    requires slot.seen < |slot.versions|
  {
    StatusHistory(kind, slot) && StatusProc(kind, slot, proc)
  }

  lemma BeginForward(kind: Kind, cr: Resource, version: nat, now: nat)
    requires StatusOk(kind, cr)
    ensures var p := BeginPass(cr, version, now);
      p.At? ==>
        && StatusOk(kind, p.cr) && Forward(cr, p.cr)
        && (Creating(p.point) ==> FinalizerAdded in Log(p.cr))
        && (!Creating(p.point) && !Saving(p.point) ==> p.cr.status.phase == Terminating)
        && (p.cr.deleting && !p.point.SaveObject? ==> p.cr.status.phase == Terminating)
        && (p.cr.status.phase == Ready ==> cr.status.phase == Ready)
  {
  }

  lemma ReadyForward(kind: Kind, cr: Resource, now: nat)
    requires StatusOk(kind, cr) && FinalizerAdded in Log(cr) && !cr.deleting && Created(kind) !in Log(cr)
    ensures var next := cr.(status := ReadyStatus(kind, cr.status, now));
      StatusOk(kind, next) && Forward(cr, next)
  {
  }

  lemma RecreatedForward(kind: Kind, cr: Resource, tokenId: Option<nat>, now: nat)
    requires StatusOk(kind, cr) && !cr.deleting && Created(kind) in Log(cr)
    ensures var next := cr.(status := RecreatedStatus(kind, cr.status, tokenId, now));
      StatusOk(kind, next) && Forward(cr, next) && next.status.phase == cr.status.phase
  {
    assert Log(cr.(status := RecreatedStatus(kind, cr.status, tokenId, now))) == Log(cr);
  }

  lemma FinishForward(kind: Kind, cr: Resource, version: nat, tokenId: Option<nat>, created: bool, point: Point,
      now: nat)
    requires StatusOk(kind, cr) && FinalizerAdded in Log(cr) && !cr.deleting
    ensures var p := FinishResources(kind, cr, version, tokenId, created, point, now);
      p.At? ==> StatusOk(kind, p.cr) && Forward(cr, p.cr) && p.cr.status.phase == Ready && !p.cr.deleting
  {
    MentionsIsInLog(cr, Created(kind));
    if Created(kind) !in Log(cr) {
      ReadyForward(kind, cr, now);
    } else {
      RecreatedForward(kind, cr, tokenId, now);
    }
  }

  lemma TeardownForward(kind: Kind, cr: Resource, version: nat, tokenId: Option<nat>, now: nat)
    requires StatusOk(kind, cr) && cr.status.phase == Terminating
    ensures var p := FinishTeardown(kind, cr, version, tokenId, now);
      StatusOk(kind, p.cr) && Forward(cr, p.cr) && p.cr.status.phase == Terminating
  {
  }

  lemma AppendKeepsStatusHistory(kind: Kind, slot: Slot, next: Option<Resource>)
    requires |slot.versions| > 0 && StatusHistory(kind, slot)
    requires next.Some? ==> StatusOk(kind, next.value)
    requires next.Some? && slot.Last().Some? ==>
        slot.Last().value.uid == next.value.uid && Forward(slot.Last().value, next.value)
    requires next.Some? && slot.Last().None? ==>
               forall i | 0 <= i < |slot.versions| && slot.versions[i].Some? ::
                   slot.versions[i].value.uid != next.value.uid
    ensures StatusHistory(kind, slot.Append(next))
  {
  }

  lemma FireKeepsStatusProc(key: Key, l: Local, used: set<Uid>, o: Outcome)
    requires LineOk(key, l.slot, l.proc, used) && StatusLine(key.kind, l.slot, l.proc)
    ensures Fire(key, l, o).slot.seen < |Fire(key, l, o).slot.versions|
    ensures StatusProc(key.kind, Fire(key, l, o).slot, Fire(key, l, o).proc)
  {
    if l.proc.Idle? {
      if o.Read? && l.slot.seen <= o.index < |l.slot.versions| && l.slot.versions[o.index].Some? {
        BeginForward(key.kind, l.slot.versions[o.index].value, o.index, o.now);
      }
    } else if o.Reply? {
      EffectKeepsStatusProc(key, l, o.text, o.now);
    }
  }

  /** Looking things up ends the pass, goes on with the same resource, or drops the finalizer. */
  lemma SearchKeepsResource(key: Key, l: Local, text: string, now: nat)
    requires |l.slot.versions| > 0 && l.proc.At?
    requires l.proc.point.GetConfig? || l.proc.point.GetCredential? || l.proc.point.FindOrg?
          || l.proc.point.ListAuths? || l.proc.point.ListBuckets?
    ensures var p := Effect(key, l, text, now).proc;
      || p.Idle?
      || (p == DropFinalizer(l.proc.cr, l.proc.version) && !Creating(l.proc.point))
      || (p.cr == l.proc.cr && Creating(p.point) == Creating(l.proc.point) && !Saving(p.point))
  {
  }

  lemma SearchKeepsStatusProc(key: Key, l: Local, text: string, now: nat)
    requires l.slot.seen < |l.slot.versions| && StatusProc(key.kind, l.slot, l.proc) && l.proc.At?
    requires l.proc.point.GetConfig? || l.proc.point.GetCredential? || l.proc.point.FindOrg?
          || l.proc.point.ListAuths? || l.proc.point.ListBuckets?
    ensures StatusProc(key.kind, l.slot, Effect(key, l, text, now).proc)
  {
    var p := Effect(key, l, text, now).proc;
    SearchKeepsResource(key, l, text, now);
    if p.At? {
      assert p.cr.status == l.proc.cr.status;
      assert Log(p.cr) == Log(l.proc.cr);
    }
  }

  lemma SecretKeepsStatusProc(key: Key, l: Local, text: string, now: nat)
    requires l.slot.seen < |l.slot.versions| && ProcOk(key, l.slot, l.proc) && StatusProc(key.kind, l.slot, l.proc)
        && l.proc.At?
    requires l.proc.point.CreateAuth? || l.proc.point.CreateSecret? || l.proc.point.ReadSecret?
        || l.proc.point.WriteSecret?
    ensures StatusProc(key.kind, l.slot, Effect(key, l, text, now).proc)
  {
    if l.proc.point.CreateAuth? {
      assert Effect(key, l, text, now).proc.cr == l.proc.cr;
    } else {
      SecretCallKeepsStatusProc(key, l, text, now);
    }
  }

  lemma SecretCallKeepsStatusProc(key: Key, l: Local, text: string, now: nat)
    requires l.slot.seen < |l.slot.versions| && ProcOk(key, l.slot, l.proc) && StatusProc(key.kind, l.slot, l.proc)
    requires l.proc.At? && (l.proc.point.CreateSecret? || l.proc.point.ReadSecret? || l.proc.point.WriteSecret?)
    ensures StatusProc(key.kind, l.slot, Effect(key, l, text, now).proc)
  {
    FinishForward(key.kind, l.proc.cr, l.proc.version, l.proc.tokenId, l.proc.point.created,
        Publish(l.proc.point.token), now);
  }

  lemma CreateKeepsStatusProc(key: Key, l: Local, text: string, now: nat)
    requires l.slot.seen < |l.slot.versions| && ProcOk(key, l.slot, l.proc) && StatusProc(key.kind, l.slot, l.proc)
        && l.proc.At?
    requires l.proc.point.CreateBucket? || l.proc.point.CreateOrg?
    ensures StatusProc(key.kind, l.slot, Effect(key, l, text, now).proc)
  {
    FinishForward(key.kind, l.proc.cr, l.proc.version, l.proc.tokenId, true, SaveStatus, now);
    FinishForward(key.kind, l.proc.cr, l.proc.version, l.proc.tokenId, false, SaveStatus, now);
  }

  lemma DeleteKeepsStatusProc(key: Key, l: Local, text: string, now: nat)
    requires l.slot.seen < |l.slot.versions| && ProcOk(key, l.slot, l.proc) && StatusProc(key.kind, l.slot, l.proc)
        && l.proc.At?
    requires l.proc.point.DeleteAuth? || l.proc.point.DeleteBucket? || l.proc.point.DeleteOrg?
    ensures StatusProc(key.kind, l.slot, Effect(key, l, text, now).proc)
  {
    TeardownForward(key.kind, l.proc.cr, l.proc.version, l.proc.tokenId, now);
  }

  lemma EffectKeepsStatusProc(key: Key, l: Local, text: string, now: nat)
    requires l.slot.seen < |l.slot.versions| && ProcOk(key, l.slot, l.proc) && StatusProc(key.kind, l.slot, l.proc)
    requires l.proc.At?
    ensures Effect(key, l, text, now).proc.At? ==> Effect(key, l, text, now).slot == l.slot
    ensures StatusProc(key.kind, l.slot, Effect(key, l, text, now).proc)
  {
    match l.proc.point
    case SaveObject =>
    case SaveStatus =>
    case Publish(_) =>
    case DeleteAuth => DeleteKeepsStatusProc(key, l, text, now);
    case DeleteBucket(_) => DeleteKeepsStatusProc(key, l, text, now);
    case DeleteOrg(_) => DeleteKeepsStatusProc(key, l, text, now);
    case CreateBucket(_) => CreateKeepsStatusProc(key, l, text, now);
    case CreateOrg => CreateKeepsStatusProc(key, l, text, now);
    case CreateAuth(_) => SecretKeepsStatusProc(key, l, text, now);
    case CreateSecret(_, _) => SecretKeepsStatusProc(key, l, text, now);
    case ReadSecret(_, _) => SecretKeepsStatusProc(key, l, text, now);
    case WriteSecret(_, _, _) => SecretKeepsStatusProc(key, l, text, now);
    case _ => SearchKeepsStatusProc(key, l, text, now);
  }

  lemma FireKeepsStatusLine(key: Key, l: Local, used: set<Uid>, o: Outcome)
    requires LineOk(key, l.slot, l.proc, used) && StatusLine(key.kind, l.slot, l.proc)
    ensures Fire(key, l, o).slot.seen < |Fire(key, l, o).slot.versions|
    ensures StatusLine(key.kind, Fire(key, l, o).slot, Fire(key, l, o).proc)
  {
    FireKeepsStatusProc(key, l, used, o);
    FireSlot(key, l, o);
    var next := Fire(key, l, o).slot;
    if next.versions != l.slot.versions {
      var added := next.versions[|next.versions| - 1];
      assert next == l.slot.Append(added);
      AppendKeepsStatusHistory(key.kind, l.slot, added);
    }
  }

  lemma UserKeepsStatusLine(key: Key, slot: Slot, proc: Proc, used: set<Uid>, a: Action)
    requires a.UserCreate? || a.UserUpdate? || a.UserDelete?
    requires LineOk(key, slot, proc, used) && StatusLine(key.kind, slot, proc)
    ensures UserSlot(key, slot, used, a).seen < |UserSlot(key, slot, used, a).versions|
    ensures StatusLine(key.kind, UserSlot(key, slot, used, a), proc)
  {
    var next := UserSlot(key, slot, used, a);
    if next != slot {
      var added := next.versions[|next.versions| - 1];
      assert next == slot.Append(added);
      AppendKeepsStatusHistory(key.kind, slot, added);
    }
  }

  ghost predicate StatusInv(s: State)
    requires Inv(s)
  {
    forall key: Key :: KeyOk(s, key) && StatusLine(key.kind, s.SlotOf(key), s.ProcOf(key))
  }

  lemma ApplyKeepsStatusLine(s: State, a: Action, key: Key)
    requires s.WellFormed() && KeyOk(s, key) && StatusLine(key.kind, s.SlotOf(key), s.ProcOf(key))
    ensures Apply(s, a).SlotOf(key).seen < |Apply(s, a).SlotOf(key).versions|
    ensures StatusLine(key.kind, Apply(s, a).SlotOf(key), Apply(s, a).ProcOf(key))
  {
    if a.Step? && a.key == key {
      FireKeepsStatusLine(key, s.View(key), s.used, a.outcome);
    } else if (a.UserCreate? || a.UserUpdate? || a.UserDelete?) && a.key == key {
      UserKeepsStatusLine(key, s.SlotOf(key), s.ProcOf(key), s.used, a);
    }
  }

  lemma ApplyKeepsStatusInv(s: State, a: Action)
    requires Inv(s) && StatusInv(s)
    ensures Inv(Apply(s, a)) && StatusInv(Apply(s, a))
  {
    ApplyKeepsInv(s, a);
    var s' := Apply(s, a);
    forall key: Key ensures KeyOk(s', key) && StatusLine(key.kind, s'.SlotOf(key), s'.ProcOf(key)) {
      assert KeyOk(s, key) && KeyOk(s', key) && StatusLine(key.kind, s.SlotOf(key), s.ProcOf(key));
      ApplyKeepsStatusLine(s, a, key);
    }
  }

  lemma {:induction false} RunKeepsStatusInv(s: State, actions: seq<Action>)
    requires Inv(s) && StatusInv(s)
    ensures Inv(Run(s, actions)) && StatusInv(Run(s, actions))
  {
    if actions != [] {
      var n := |actions| - 1;
      RunKeepsStatusInv(s, actions[..n]);
      ApplyKeepsStatusInv(Run(s, actions[..n]), actions[n]);
    }
  }

  lemma InitialStatusInv(s: State)
    requires Initial(s)
    ensures Inv(s) && StatusInv(s)
  {
  }

  lemma VersionsGoForward(key: Key, slot: Slot, i: nat, j: nat)
    requires StatusHistory(key.kind, slot) && i <= j < |slot.versions|
    requires slot.versions[i].Some? && slot.versions[j].Some?
        && slot.versions[i].value.uid == slot.versions[j].value.uid
    ensures StatusOk(key.kind, slot.versions[i].value) && AnyLog(key.kind, Log(slot.versions[i].value))
    ensures Forward(slot.versions[i].value, slot.versions[j].value)
  {
  }

  /** Over every run, the phase of an incarnation only moves forward through unset,
      pending, ready, terminating; its condition reasons are only appended to; and in
      every version phase and reasons fit together. */
  lemma StatusOverRuns(s: State, actions: seq<Action>, key: Key, i: nat, j: nat)
    requires Initial(s)
    requires var versions := Run(s, actions).SlotOf(key).versions;
      i <= j < |versions| && versions[i].Some? && versions[j].Some? && versions[i].value.uid == versions[j].value.uid
    ensures var versions := Run(s, actions).SlotOf(key).versions;
      && StatusOk(key.kind, versions[i].value) && AnyLog(key.kind, Log(versions[i].value))
      && Forward(versions[i].value, versions[j].value)
  {
    InitialStatusInv(s);
    RunKeepsStatusInv(s, actions);
    var r := Run(s, actions);
    assert StatusLine(key.kind, r.SlotOf(key), r.ProcOf(key));
    VersionsGoForward(key, r.SlotOf(key), i, j);
  }
}
