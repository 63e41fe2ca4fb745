/** What passes write into the status of their resource, field by field. */
module Records {
  import opened Types
  import opened Tables
  import opened Protocol
  import opened Safety
  import opened Finalizers
  import opened Passes
  import opened Deletion
  import opened Healing

  /** Some condition has this reason. */
  ghost predicate Recorded(conditions: seq<Condition>, reason: Reason) {
    exists i :: 0 <= i < |conditions| && conditions[i].reason == reason
  }

  /** The first condition with this reason has a new transition time, and nothing else is new. */
  ghost predicate Refreshed(before: seq<Condition>, after: seq<Condition>, reason: Reason, now: nat) {
    && |after| == |before|
    && forall i | 0 <= i < |before| ::
         after[i] == if before[i].reason == reason && !Recorded(before[..i], reason)
                     then Condition(reason, now) else before[i]
  }

  lemma TouchRefreshes(conditions: seq<Condition>, reason: Reason, now: nat)
    ensures Refreshed(conditions, Touch(conditions, reason, now), reason, now)
  {
    var first := FirstReason(conditions, reason);
    forall i | 0 <= i < |conditions|
      ensures conditions[i].reason == reason && !Recorded(conditions[..i], reason) <==> i == first
    {
      if first < i {
        assert conditions[..i][first].reason == reason;
      }
    }
  }

  lemma MentionsIsRecorded(conditions: seq<Condition>, reason: Reason)
    ensures Mentions(conditions, reason) <==> Recorded(conditions, reason)
  {
  }

  /** The pass over a live resource without a finalizerAdded condition writes the first status. */
  lemma FirstStatus(key: Key, l: Local, text: string, now: nat)
    requires Alive(l) && l.slot.Last().value.finalizer
    requires !Recorded(l.slot.Last().value.status.conditions, FinalizerAdded)
    ensures var cr, r := l.slot.Last().value, Pass(key, l, text, now);
      && r.shared == l.shared
      && r.slot.versions == l.slot.versions
           + [Some(cr.(status := Status(Pending, [Condition(FinalizerAdded, now)], Some(ObjectInitialized), None)))]
  {
    MentionsIsRecorded(l.slot.Last().value.status.conditions, FinalizerAdded);
    InitializingPass(key, l, text, now);
  }

  /** The first pass over a deleted resource keeps the conditions and drops the data. */
  lemma TerminatingStatusRecorded(key: Key, l: Local, text: string, now: nat)
    requires BeingDeleted(l) && l.slot.Last().value.status.phase != Terminating
    ensures var cr, r := l.slot.Last().value, Pass(key, l, text, now);
      && r.shared == l.shared
      && r.slot.versions == l.slot.versions
           + [Some(cr.(status := Status(Terminating, cr.status.conditions, Some(ObjectMarkedForDeletion), None)))]
  {
    MarkingPass(key, l, text, now);
  }

  /** A pass that removes an artefact appends a deleted condition with its reason, or
      refreshes the one that is there and changes nothing else. */
  lemma RemovalRecorded(key: Key, l: Local, org: nat, text: string, now: nat)
    requires BeingDeleted(l) && l.slot.Last().value.status.phase == Terminating
    requires Prepared(key, l.shared, l.slot.Last().value, org)
    requires FirstLeft(key, l.shared, l.slot.Last().value, org).Some?
    ensures var cr, r := l.slot.Last().value, Pass(key, l, text, now);
      && |r.slot.versions| == |l.slot.versions| + 1 && r.slot.Last().Some?
      && var status := r.slot.Last().value.status;
         && r.slot.Last().value == cr.(status := status)
         && (!Recorded(cr.status.conditions, Deleted(key.kind)) ==>
               status == Status(Terminating, cr.status.conditions + [Condition(Deleted(key.kind), now)],
                                Some(Deleted(key.kind)), None))
         && (Recorded(cr.status.conditions, Deleted(key.kind)) ==>
               && status == cr.status.(conditions := status.conditions)
               && Refreshed(cr.status.conditions, status.conditions, Deleted(key.kind), now))
  {
    var conditions := l.slot.Last().value.status.conditions;
    MentionsIsRecorded(conditions, Deleted(key.kind));
    TouchRefreshes(conditions, Deleted(key.kind), now);
    RemovingPass(key, l, org, text, now);
  }

  /** The title under which the server has what belongs to a resource. */
  function OwnTitle(key: Key, cr: Resource): string {
    if key.kind == TokenKind then key.name + "." + key.namespace + "." + cr.uid else key.name
  }

  /** What a working pass records. The first time it appends a created condition, with its
      reason and without data. If creation is recorded and the artefact was missing, the
      first created condition gets the time of the call, and a Token records the number that
      its authorization now has; everything else stays. Otherwise it writes nothing. */
  lemma CreationRecorded(key: Key, l: Local, org: nat, text: string, now: nat)
    requires Initialized(l) && Healthy(key, l.shared, l.slot.Last().value, org) && GoneInRange(l.shared)
    ensures var cr, r := l.slot.Last().value, Pass(key, l, text, now);
      var before, made := cr.status, Created(key.kind);
      var missing := TableOf(l.shared, key.kind).First(Home(key.kind, org), OwnTitle(key, cr)).None?;
      && r.slot.Last().Some? && r.slot.Last().value == cr.(status := r.slot.Last().value.status)
      && var after := r.slot.Last().value.status;
         && (!Recorded(before.conditions, made) ==>
               && |r.slot.versions| == |l.slot.versions| + 1
               && after == Status(Ready, before.conditions + [Condition(made, now)], Some(made), None))
         && (Recorded(before.conditions, made) && missing ==>
               && |r.slot.versions| == |l.slot.versions| + 1
               && after.phase == before.phase && after.reason == before.reason
               && Refreshed(before.conditions, after.conditions, made, now)
               && after.data == (if key.kind == TokenKind then r.shared.auths.First(org, OwnTitle(key, cr))
                                 else before.data)
               && (key.kind == TokenKind ==> after.data.Some?))
         && (Recorded(before.conditions, made) && !missing ==> r.slot.versions == l.slot.versions)
  {
    var cr := l.slot.Last().value;
    MentionsIsRecorded(cr.status.conditions, Created(key.kind));
    TouchRefreshes(cr.status.conditions, Created(key.kind), now);
    WorkingPass(key, l, org, text, now);
    if Missing(key, l.shared, cr, org) {
      InsertMakesFirst(TableOf(l.shared, key.kind), NewRow(key, cr, org, text), Home(key.kind, org), TitleOf(key, cr));
    }
  }
}
