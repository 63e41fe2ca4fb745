/** What `status.data` records is never acted upon: two runs that differ only in it do
    the same to the API server and to InfluxDB. */
module DataIrrelevance {
  import opened Types
  import opened Protocol

  /** The same resource but for the recorded token id. */
  predicate Alike(a: Resource, b: Resource) {
    b == a.(status := a.status.(data := b.status.data))
  }

  predicate AlikeVersion(a: Option<Resource>, b: Option<Resource>) {
    (a.None? && b.None?) || (a.Some? && b.Some? && Alike(a.value, b.value))
  }

  ghost predicate AlikeSlot(a: Slot, b: Slot) {
    && a.seen == b.seen && |a.versions| == |b.versions|
    && forall i | 0 <= i < |a.versions| :: AlikeVersion(a.versions[i], b.versions[i])
  }

  /** From here on the pass works with the token id that its search or its create call gave it. */
  predicate UsesTokenId(point: Point) {
    point.DeleteAuth? || point.CreateSecret? || point.ReadSecret? || point.WriteSecret? || point.Publish?
  }

  /** The same point of the same pass. Before its search the token id is the recorded one and
      may differ; by the time it is used it must be the same. */
  predicate AlikeProc(a: Proc, b: Proc) {
    || (a.Idle? && a == b)
    || (a.At? && b.At? && Alike(a.cr, b.cr) && a.version == b.version && a.point == b.point
        && (UsesTokenId(a.point) ==> a.tokenId == b.tokenId))
  }

  ghost predicate AlikeLocal(a: Local, b: Local) {
    AlikeSlot(a.slot, b.slot) && AlikeProc(a.proc, b.proc) && a.shared == b.shared
  }

  lemma BeginAlike(a: Resource, b: Resource, version: nat, now: nat)
    requires Alike(a, b)
    ensures AlikeProc(BeginPass(a, version, now), BeginPass(b, version, now))
  {
  }

  lemma StoreAlike(a: Local, b: Local, ra: Resource, rb: Resource, version: nat, status: bool)
    requires AlikeLocal(a, b) && Alike(ra, rb) && |a.slot.versions| > 0
    ensures AlikeLocal(Store(a, ra, version, status), Store(b, rb, version, status))
  {
  }

  lemma SearchAlike(key: Key, a: Local, b: Local, text: string, now: nat)
    requires AlikeLocal(a, b) && |a.slot.versions| > 0 && a.proc.At?
    requires a.proc.point.GetConfig? || a.proc.point.GetCredential? || a.proc.point.FindOrg?
          || a.proc.point.ListAuths? || a.proc.point.ListBuckets?
    ensures AlikeLocal(Effect(key, a, text, now), Effect(key, b, text, now))
  {
  }

  lemma SecretAlike(key: Key, a: Local, b: Local, text: string, now: nat)
    requires AlikeLocal(a, b) && |a.slot.versions| > 0 && a.proc.At?
    requires a.proc.point.CreateAuth? || a.proc.point.CreateSecret? || a.proc.point.ReadSecret?
        || a.proc.point.WriteSecret?
    ensures AlikeLocal(Effect(key, a, text, now), Effect(key, b, text, now))
  {
  }

  lemma CreateAlike(key: Key, a: Local, b: Local, text: string, now: nat)
    requires AlikeLocal(a, b) && |a.slot.versions| > 0 && a.proc.At?
    requires a.proc.point.CreateBucket? || a.proc.point.CreateOrg?
    ensures AlikeLocal(Effect(key, a, text, now), Effect(key, b, text, now))
  {
  }

  lemma DeleteAlike(key: Key, a: Local, b: Local, text: string, now: nat)
    requires AlikeLocal(a, b) && |a.slot.versions| > 0 && a.proc.At?
    requires a.proc.point.DeleteAuth? || a.proc.point.DeleteBucket? || a.proc.point.DeleteOrg?
    ensures AlikeLocal(Effect(key, a, text, now), Effect(key, b, text, now))
  {
  }

  lemma EffectAlike(key: Key, a: Local, b: Local, text: string, now: nat)
    requires AlikeLocal(a, b) && |a.slot.versions| > 0 && a.proc.At?
    ensures AlikeLocal(Effect(key, a, text, now), Effect(key, b, text, now))
  {
    match a.proc.point
    case SaveObject => StoreAlike(a, b, a.proc.cr, b.proc.cr, a.proc.version, false);
    case SaveStatus => StoreAlike(a, b, a.proc.cr, b.proc.cr, a.proc.version, true);
    case Publish(_) => StoreAlike(a, b, a.proc.cr, b.proc.cr, a.proc.version, true);
    case CreateAuth(_) => SecretAlike(key, a, b, text, now);
    case CreateSecret(_, _) => SecretAlike(key, a, b, text, now);
    case ReadSecret(_, _) => SecretAlike(key, a, b, text, now);
    case WriteSecret(_, _, _) => SecretAlike(key, a, b, text, now);
    case CreateBucket(_) => CreateAlike(key, a, b, text, now);
    case CreateOrg => CreateAlike(key, a, b, text, now);
    case DeleteAuth => DeleteAlike(key, a, b, text, now);
    case DeleteBucket(_) => DeleteAlike(key, a, b, text, now);
    case DeleteOrg(_) => DeleteAlike(key, a, b, text, now);
    case _ => SearchAlike(key, a, b, text, now);
  }

  lemma FireAlike(key: Key, a: Local, b: Local, o: Outcome)
    requires AlikeLocal(a, b) && |a.slot.versions| > 0
    ensures AlikeLocal(Fire(key, a, o), Fire(key, b, o))
  {
    if a.proc.Idle? {
      if o.Read? && a.slot.seen <= o.index < |a.slot.versions| && a.slot.versions[o.index].Some? {
        assert AlikeVersion(a.slot.versions[o.index], b.slot.versions[o.index]);
        BeginAlike(a.slot.versions[o.index].value, b.slot.versions[o.index].value, o.index, o.now);
      }
    } else if o.Reply? || o.Lost? {
      EffectAlike(key, a, b, o.text, o.now);
    }
  }

  /******* Whole runs *******/

  ghost predicate AlikeState(s: State, t: State) {
    && s.WellFormed() && t.WellFormed() && s.used == t.used && s.shared == t.shared
    && forall key: Key :: AlikeSlot(s.SlotOf(key), t.SlotOf(key)) && AlikeProc(s.ProcOf(key), t.ProcOf(key))
  }

  lemma UserAlike(key: Key, a: Slot, b: Slot, used: set<Uid>, action: Action)
    requires AlikeSlot(a, b) && |a.versions| > 0 && (action.UserCreate? || action.UserUpdate? || action.UserDelete?)
    ensures AlikeSlot(UserSlot(key, a, used, action), UserSlot(key, b, used, action))
  {
  }

  lemma ApplyAlike(s: State, t: State, action: Action)
    requires AlikeState(s, t)
    ensures AlikeState(Apply(s, action), Apply(t, action))
  {
    ApplyKeepsWellFormed(s, action);
    ApplyKeepsWellFormed(t, action);
    forall key: Key
      ensures AlikeSlot(Apply(s, action).SlotOf(key), Apply(t, action).SlotOf(key))
      ensures AlikeProc(Apply(s, action).ProcOf(key), Apply(t, action).ProcOf(key))
    {
      ApplyAlikeAt(s, t, action, key);
    }
    if action.Step? {
      assert AlikeSlot(s.SlotOf(action.key), t.SlotOf(action.key))
          && AlikeProc(s.ProcOf(action.key), t.ProcOf(action.key));
      FireAlike(action.key, s.View(action.key), t.View(action.key), action.outcome);
    }
  }

  lemma ApplyAlikeAt(s: State, t: State, action: Action, key: Key)
    requires AlikeState(s, t)
    ensures AlikeSlot(Apply(s, action).SlotOf(key), Apply(t, action).SlotOf(key))
    ensures AlikeProc(Apply(s, action).ProcOf(key), Apply(t, action).ProcOf(key))
  {
    assert AlikeSlot(s.SlotOf(key), t.SlotOf(key)) && AlikeProc(s.ProcOf(key), t.ProcOf(key));
    if action.Step? {
      StepAlikeAt(s, t, action.key, action.outcome, key);
    } else {
      OthersAlikeAt(s, t, action, key);
    }
  }

  lemma OthersAlikeAt(s: State, t: State, action: Action, key: Key)
    requires s.WellFormed() && t.WellFormed() && s.used == t.used && !action.Step?
    requires AlikeSlot(s.SlotOf(key), t.SlotOf(key)) && AlikeProc(s.ProcOf(key), t.ProcOf(key))
    ensures AlikeSlot(Apply(s, action).SlotOf(key), Apply(t, action).SlotOf(key))
    ensures AlikeProc(Apply(s, action).ProcOf(key), Apply(t, action).ProcOf(key))
  {
    if (action.UserCreate? || action.UserUpdate? || action.UserDelete?) && action.key == key {
      UserAlike(key, s.SlotOf(key), t.SlotOf(key), s.used, action);
    }
  }

  lemma StepAlikeAt(s: State, t: State, actor: Key, o: Outcome, key: Key)
    requires s.WellFormed() && t.WellFormed() && s.shared == t.shared
    requires AlikeSlot(s.SlotOf(key), t.SlotOf(key)) && AlikeProc(s.ProcOf(key), t.ProcOf(key))
    ensures AlikeSlot(Apply(s, Step(actor, o)).SlotOf(key), Apply(t, Step(actor, o)).SlotOf(key))
    ensures AlikeProc(Apply(s, Step(actor, o)).ProcOf(key), Apply(t, Step(actor, o)).ProcOf(key))
  {
    if actor == key {
      FireAlike(key, s.View(key), t.View(key), o);
    }
  }

  /** Recording other token ids, or none, at the start of a run changes no secret, no row on
      the server, no version of any resource but for the recorded id, and no call. */
  lemma {:induction false} RunsAlike(s: State, t: State, actions: seq<Action>)
    requires AlikeState(s, t)
    ensures AlikeState(Run(s, actions), Run(t, actions))
    ensures Run(s, actions).shared == Run(t, actions).shared
  {
    if actions != [] {
      var n := |actions| - 1;
      RunsAlike(s, t, actions[..n]);
      ApplyAlike(Run(s, actions[..n]), Run(t, actions[..n]), actions[n]);
    }
  }
}
