/** What every run keeps about one custom resource: its version history, and how the
    pass in flight relates to the version it read. */
module Lines {
  import opened Types
  import opened Descriptions
  import opened Protocol

  /** Deletion and the finalizer, once set, stay set for as long as the incarnation lives. */
  ghost predicate HistoryOk(key: Key, slot: Slot, used: set<Uid>) {
    && slot.seen < |slot.versions|
    && (forall i | 0 <= i < |slot.versions| && slot.versions[i].Some? ::
          slot.versions[i].value.uid in used && NoDots(slot.versions[i].value.uid) && NoDots(key.namespace))
    && (forall i, j | 0 <= i < j < |slot.versions| && slot.versions[i].Some? && slot.versions[j].Some?
                      && slot.versions[i].value.uid == slot.versions[j].value.uid ::
          && (slot.versions[i].value.deleting ==> slot.versions[j].value.deleting)
          && (slot.versions[i].value.finalizer ==> slot.versions[j].value.finalizer))
  }

  /** A version that a pass would work on, with a lagging reader or not. */
  predicate Working(v: Option<Resource>) {
    v.Some? && v.value.finalizer && !v.value.deleting
  }

  ghost predicate Holds(slot: Slot, uid: Uid)
    requires |slot.versions| > 0
  {
    slot.Last().Some? && slot.Last().value.uid == uid && slot.Last().value.finalizer
  }

  /** As long as a working version can still be read, its incarnation exists and carries
      the finalizer: only a pass that read a newer, terminating version drops it. */
  ghost predicate WorkingHeld(slot: Slot)
    requires |slot.versions| > 0
  {
    forall i | slot.seen <= i < |slot.versions| && Working(slot.versions[i]) :: Holds(slot, slot.versions[i].value.uid)
  }

  predicate Creating(point: Point) {
    match point
    case GetConfig(teardown) => !teardown
    case GetCredential(teardown, _) => !teardown
    case FindOrg(teardown, _) => !teardown
    case ListAuths(teardown, _) => !teardown
    case CreateAuth(_) => true
    case CreateSecret(_, _) => true
    case ReadSecret(_, _) => true
    case WriteSecret(_, _, _) => true
    case CreateBucket(_) => true
    case CreateOrg => true
    case _ => false
  }

  predicate Saving(point: Point) {
    point.SaveObject? || point.SaveStatus? || point.Publish?
  }

  /** Each kind visits its own calls only. */
  predicate PointFits(kind: Kind, point: Point) {
    match point
    case ListAuths(_, _) => kind == TokenKind
    case CreateAuth(_) => kind == TokenKind
    case DeleteAuth => kind == TokenKind
    case CreateSecret(_, _) => kind == TokenKind
    case ReadSecret(_, _) => kind == TokenKind
    case WriteSecret(_, _, _) => kind == TokenKind
    case Publish(_) => kind == TokenKind
    case CreateBucket(_) => kind == BucketKind
    case ListBuckets(_) => kind == BucketKind
    case DeleteBucket(_) => kind == BucketKind
    case CreateOrg => kind == OrganizationKind
    case DeleteOrg(_) => kind == OrganizationKind
    case _ => true
  }

  /** How the resource in memory relates to the version that was read. */
  ghost predicate ProcOk(key: Key, slot: Slot, proc: Proc)
    requires slot.seen < |slot.versions|
  {
    proc.At? ==>
      && proc.version == slot.seen
      && PointFits(key.kind, proc.point)
      && slot.versions[slot.seen].Some?
      && var read, cr := slot.versions[slot.seen].value, proc.cr;
         if proc.point.SaveObject? then cr == read.(finalizer := !read.deleting) && read.finalizer == read.deleting
         else if Saving(proc.point) then
           cr == read.(status := cr.status) && cr.finalizer && (proc.point.Publish? ==> !cr.deleting)
         else cr == read && cr.finalizer && cr.deleting == !Creating(proc.point)
  }

  ghost predicate LineOk(key: Key, slot: Slot, proc: Proc, used: set<Uid>) {
    HistoryOk(key, slot, used) && WorkingHeld(slot) && ProcOk(key, slot, proc)
  }

  /** No pass will ever again create anything for this incarnation. */
  ghost predicate Retired(slot: Slot, used: set<Uid>, uid: Uid)
    requires |slot.versions| > 0
  {
    && uid in used
    && (forall i | slot.seen <= i < |slot.versions| && Working(slot.versions[i]) :: slot.versions[i].value.uid != uid)
    && (slot.Last().Some? && slot.Last().value.uid == uid ==> slot.Last().value.deleting)
  }

  /** The only ways in which a pass changes the history of its resource. */
  ghost predicate SlotStep(l: Local, next: Slot)
    requires |l.slot.versions| > 0
  {
    || (next.versions == l.slot.versions && (l.proc.At? ==> next.seen == l.slot.seen) && l.slot.seen <= next.seen)
    || (&& l.proc.At? && Saving(l.proc.point)
        && l.proc.version == |l.slot.versions| - 1 && l.slot.Last().Some?
        && var stored := l.slot.Last().value;
           var r := if l.proc.point.SaveObject? then stored.(finalizer := l.proc.cr.finalizer)
                    else stored.(status := l.proc.cr.status);
           next == l.slot.Append(if r.deleting && !r.finalizer then None else Some(r)))
  }

  lemma FireSlot(key: Key, l: Local, o: Outcome)
    requires |l.slot.versions| > 0
    ensures SlotStep(l, Fire(key, l, o).slot)
  {
  }

  /** Only a pass that drops the finalizer of an incarnation ends its hold. */
  lemma HoldsUnlessDropped(key: Key, l: Local, next: Slot, uid: Uid)
    requires l.slot.seen < |l.slot.versions| && ProcOk(key, l.slot, l.proc)
    requires SlotStep(l, next) && Holds(l.slot, uid)
    ensures |next.versions| > 0
    ensures Holds(next, uid) || (l.proc.At? && l.proc.point.SaveObject? && !l.proc.cr.finalizer && l.proc.cr.uid == uid)
  {
  }

  /** A new version may set the deletion mark or the finalizer, and nothing may clear them. */
  ghost predicate Succeeds(slot: Slot, r: Resource)
    requires |slot.versions| > 0
  {
    && slot.Last().Some?
    && var last := slot.Last().value;
       r.uid == last.uid && (last.deleting ==> r.deleting) && (last.finalizer ==> r.finalizer)
  }

  lemma AppendKeepsHistory(key: Key, slot: Slot, used: set<Uid>, next: Option<Resource>)
    requires HistoryOk(key, slot, used)
    requires next.Some? ==> Succeeds(slot, next.value)
    ensures HistoryOk(key, slot.Append(next), used)
  {
  }

  lemma AppendKeepsWorkingHeld(slot: Slot, r: Resource)
    requires |slot.versions| > 0 && WorkingHeld(slot) && Succeeds(slot, r)
    ensures WorkingHeld(slot.Append(Some(r)))
  {
  }

  /** Dropping the finalizer is safe because the version it was dropped from is the last one. */
  lemma DropKeepsWorkingHeld(slot: Slot)
    requires |slot.versions| > 0 && slot.seen == |slot.versions| - 1
    requires slot.Last().Some? && slot.Last().value.deleting
    ensures WorkingHeld(slot.Append(None))
  {
  }

  lemma SearchKeepsProc(key: Key, l: Local, text: string, now: nat)
    requires l.slot.seen < |l.slot.versions| && ProcOk(key, l.slot, l.proc) && l.proc.At?
    requires l.proc.point.GetConfig? || l.proc.point.GetCredential? || l.proc.point.FindOrg?
          || l.proc.point.ListAuths? || l.proc.point.ListBuckets?
    ensures ProcOk(key, l.slot, Effect(key, l, text, now).proc)
  {
  }

  lemma SecretKeepsProc(key: Key, l: Local, text: string, now: nat)
    requires l.slot.seen < |l.slot.versions| && ProcOk(key, l.slot, l.proc) && l.proc.At?
    requires l.proc.point.CreateAuth? || l.proc.point.CreateSecret? || l.proc.point.ReadSecret?
        || l.proc.point.WriteSecret?
    ensures ProcOk(key, l.slot, Effect(key, l, text, now).proc)
  {
  }

  lemma WriteKeepsProc(key: Key, l: Local, text: string, now: nat)
    requires l.slot.seen < |l.slot.versions| && ProcOk(key, l.slot, l.proc) && l.proc.At?
    requires l.proc.point.CreateBucket? || l.proc.point.CreateOrg?
          || l.proc.point.DeleteAuth? || l.proc.point.DeleteBucket? || l.proc.point.DeleteOrg?
    ensures ProcOk(key, l.slot, Effect(key, l, text, now).proc)
  {
  }

  lemma FireKeepsProc(key: Key, l: Local, o: Outcome)
    requires l.slot.seen < |l.slot.versions| && ProcOk(key, l.slot, l.proc)
    ensures Fire(key, l, o).slot.seen < |Fire(key, l, o).slot.versions|
    ensures ProcOk(key, Fire(key, l, o).slot, Fire(key, l, o).proc)
  {
    if l.proc.At? && o.Reply? {
      match l.proc.point
      case SaveObject =>
      case SaveStatus =>
      case Publish(_) =>
      case GetConfig(_) => SearchKeepsProc(key, l, o.text, o.now);
      case GetCredential(_, _) => SearchKeepsProc(key, l, o.text, o.now);
      case FindOrg(_, _) => SearchKeepsProc(key, l, o.text, o.now);
      case ListAuths(_, _) => SearchKeepsProc(key, l, o.text, o.now);
      case ListBuckets(_) => SearchKeepsProc(key, l, o.text, o.now);
      case CreateAuth(_) => SecretKeepsProc(key, l, o.text, o.now);
      case CreateSecret(_, _) => SecretKeepsProc(key, l, o.text, o.now);
      case ReadSecret(_, _) => SecretKeepsProc(key, l, o.text, o.now);
      case WriteSecret(_, _, _) => SecretKeepsProc(key, l, o.text, o.now);
      case _ => WriteKeepsProc(key, l, o.text, o.now);
    }
  }

  lemma FireKeepsLine(key: Key, l: Local, used: set<Uid>, o: Outcome)
    requires LineOk(key, l.slot, l.proc, used)
    ensures LineOk(key, Fire(key, l, o).slot, Fire(key, l, o).proc, used)
  {
    FireKeepsProc(key, l, o);
    FireSlot(key, l, o);
    var next := Fire(key, l, o).slot;
    if next.versions == l.slot.versions {
      assert next.seen >= l.slot.seen;
    } else {
      var added := next.versions[|next.versions| - 1];
      assert next == l.slot.Append(added);
      AppendKeepsHistory(key, l.slot, used, added);
      if added.Some? {
        AppendKeepsWorkingHeld(l.slot, added.value);
      } else {
        DropKeepsWorkingHeld(l.slot);
      }
    }
  }

  lemma UserKeepsLine(key: Key, slot: Slot, proc: Proc, used: set<Uid>, a: Action)
    requires a.UserCreate? || a.UserUpdate? || a.UserDelete?
    requires LineOk(key, slot, proc, used)
    ensures LineOk(key, UserSlot(key, slot, used, a), proc, if a.UserCreate? then used + {a.uid} else used)
  {
  }

  lemma SlotStepKeepsRetired(key: Key, l: Local, next: Slot, used: set<Uid>, uid: Uid)
    requires l.slot.seen < |l.slot.versions| && ProcOk(key, l.slot, l.proc) && Retired(l.slot, used, uid)
    requires SlotStep(l, next)
    ensures |next.versions| > 0 && Retired(next, used, uid)
  {
  }

  lemma FireKeepsRetired(key: Key, l: Local, used: set<Uid>, o: Outcome, uid: Uid)
    requires LineOk(key, l.slot, l.proc, used) && Retired(l.slot, used, uid)
    ensures |Fire(key, l, o).slot.versions| > 0 && Retired(Fire(key, l, o).slot, used, uid)
  {
    FireSlot(key, l, o);
    SlotStepKeepsRetired(key, l, Fire(key, l, o).slot, used, uid);
  }

  lemma UserKeepsRetired(key: Key, slot: Slot, used: set<Uid>, a: Action, uid: Uid)
    requires |slot.versions| > 0 && slot.seen < |slot.versions|
    requires a.UserCreate? || a.UserUpdate? || a.UserDelete?
    requires Retired(slot, used, uid)
    ensures Retired(UserSlot(key, slot, used, a), if a.UserCreate? then used + {a.uid} else used, uid)
  {
  }

  /** An incarnation that no longer exists is retired, however far the reader lags. */
  lemma GoneIsRetired(slot: Slot, used: set<Uid>, uid: Uid)
    requires |slot.versions| > 0 && WorkingHeld(slot) && uid in used
    requires slot.Last().Some? ==> slot.Last().value.uid != uid
    ensures Retired(slot, used, uid)
  {
  }

  /** Once a pass has read a terminating version, its incarnation is retired. */
  lemma DeletingIsRetired(key: Key, slot: Slot, used: set<Uid>)
    requires HistoryOk(key, slot, used)
    requires slot.versions[slot.seen].Some? && slot.versions[slot.seen].value.deleting
    ensures Retired(slot, used, slot.versions[slot.seen].value.uid)
  {
  }
}
