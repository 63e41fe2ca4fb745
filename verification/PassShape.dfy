/** The shape of a reconcile pass: at most one write to its custom resource, as its last call. */
module PassShape {
  import opened Types
  import opened Protocol
  import opened Lines

  /** The action is the read with which a pass for `key` begins, successful or not. */
  predicate Starts(s: State, a: Action, key: Key)
    requires s.WellFormed()
  {
    a.Step? && a.key == key && s.ProcOf(key).Idle?
  }

  /** The action is a call of the pass for `key` that writes a version of the resource. */
  predicate Writes(s: State, a: Action, key: Key)
    requires s.WellFormed()
  {
    a.Step? && a.key == key && Apply(s, a).SlotOf(key).versions != s.SlotOf(key).versions
  }

  function CountStarts(s: State, actions: seq<Action>, key: Key): nat
    requires s.WellFormed()
  {
    if actions == [] then 0
    else
      var n := |actions| - 1;
      CountStarts(s, actions[..n], key) + if Starts(Run(s, actions[..n]), actions[n], key) then 1 else 0
  }

  function CountWrites(s: State, actions: seq<Action>, key: Key): nat
    requires s.WellFormed()
  {
    if actions == [] then 0
    else
      var n := |actions| - 1;
      CountWrites(s, actions[..n], key) + if Writes(Run(s, actions[..n]), actions[n], key) then 1 else 0
  }

  /** A write ends the pass. Answered, it counts as success whatever the phase signalled
      with `ObjectUpdated`; with its reply lost, it looks like a failure. */
  lemma WriteEndsPass(key: Key, l: Local, o: Outcome)
    requires |l.slot.versions| > 0 && Fire(key, l, o).slot.versions != l.slot.versions
    ensures l.proc.At? && Saving(l.proc.point)
    ensures |Fire(key, l, o).slot.versions| == |l.slot.versions| + 1
    ensures Fire(key, l, o).proc == Idle(if o.Reply? then NoRequeue else Failed)
    ensures Fire(key, l, o).shared == l.shared
  {
  }

  function InFlight(s: State, key: Key): nat {
    if s.ProcOf(key).At? then 1 else 0
  }

  lemma ActionAddsUp(s: State, a: Action, key: Key)
    requires s.WellFormed()
    ensures (if Writes(s, a, key) then 1 else 0) + InFlight(Apply(s, a), key)
         <= (if Starts(s, a, key) then 1 else 0) + InFlight(s, key)
  {
  }

  /** The same for what a run does after its first `n` actions. */
  lemma {:induction false} ExtensionAddsUp(s: State, actions: seq<Action>, n: nat, key: Key)
    requires s.WellFormed() && n <= |actions|
    ensures CountWrites(s, actions, key) + InFlight(Run(s, actions), key) + CountStarts(s, actions[..n], key)
         <= CountStarts(s, actions, key) + CountWrites(s, actions[..n], key) + InFlight(Run(s, actions[..n]), key)
    decreases |actions|
  {
    var last := |actions| - 1;
    if n == |actions| {
      assert actions[..n] == actions;
    } else {
      ExtensionAddsUp(s, actions[..last], n, key);
      assert actions[..last][..n] == actions[..n];
      ActionAddsUp(Run(s, actions[..last]), actions[last], key);
    }
  }

  lemma StartsExtend(s: State, actions: seq<Action>, a: Action, key: Key)
    requires s.WellFormed()
    ensures CountStarts(s, actions + [a], key)
         == CountStarts(s, actions, key) + if Starts(Run(s, actions), a, key) then 1 else 0
  {
  }

  /** Over any run with any failures, passes make at most one write each: there are never
      more writes to a resource than passes begun for it, not counting the one in flight. */
  lemma {:induction false} OneWritePerPass(s: State, actions: seq<Action>, key: Key)
    requires s.WellFormed() && s.ProcOf(key).Idle?
    ensures CountWrites(s, actions, key) + InFlight(Run(s, actions), key) <= CountStarts(s, actions, key)
  {
    if actions != [] {
      var n := |actions| - 1;
      OneWritePerPass(s, actions[..n], key);
      ActionAddsUp(Run(s, actions[..n]), actions[n], key);
    }
  }

  /** The last call of a pass that finds its artefact in place: a create call on a taken name,
      or a call on the secret in a pass that created nothing and that leaves the secret right. */
  predicate NothingToCreate(key: Key, l: Local)
    requires l.proc.At?
  {
    var name := Name(key.namespace, l.proc.cr.spec.secretName);
    match l.proc.point
    case CreateSecret(_, created) => !created && name !in l.shared.secrets
    case ReadSecret(token, created) =>
      !created && name in l.shared.secrets
      && var data := l.shared.secrets[name].data;
         data != map[] && (if "token" in data then data["token"] else "") == token
    case WriteSecret(_, created, stamp) =>
      !created && name in l.shared.secrets && l.shared.secrets[name].stamp == stamp
    case CreateBucket(org) => l.shared.buckets.First(org, key.name).Some?
    case CreateOrg => l.shared.orgs.First(0, key.name).Some?
    case _ => false
  }

  /** The timed requeue is requested exactly when a pass has come to the end of its work with
      every call answered, finds the creation already recorded, and has created nothing; then
      it has not written its resource either. */
  lemma TimedRequeueExactlyWhen(key: Key, l: Local, o: Outcome)
    requires |l.slot.versions| > 0 && l.proc != Idle(RequeueAfterMinute)
    ensures Fire(key, l, o).proc == Idle(RequeueAfterMinute) <==>
      && l.proc.At? && o.Reply? && Mentions(l.proc.cr.status.conditions, Created(key.kind))
      && NothingToCreate(key, l)
    ensures Fire(key, l, o).proc == Idle(RequeueAfterMinute) ==> Fire(key, l, o).slot == l.slot
  {
    if l.proc.At? && o.Reply? {
      if OnSecret(l.proc.point) {
        SecretCallRequeues(key, l, o.text, o.now);
      } else {
        OtherCallRequeues(key, l, o.text, o.now);
      }
    }
  }

  lemma SecretCallRequeues(key: Key, l: Local, text: string, now: nat)
    requires |l.slot.versions| > 0 && l.proc.At? && OnSecret(l.proc.point)
    ensures var n := Effect(key, l, text, now);
      && n.slot == l.slot
      && (n.proc == Idle(RequeueAfterMinute) <==>
            Mentions(l.proc.cr.status.conditions, Created(key.kind)) && NothingToCreate(key, l))
  {
  }

  lemma OtherCallRequeues(key: Key, l: Local, text: string, now: nat)
    requires |l.slot.versions| > 0 && l.proc.At? && !OnSecret(l.proc.point)
    ensures var n := Effect(key, l, text, now);
      && (n.proc == Idle(RequeueAfterMinute) ==> n.slot == l.slot)
      && (n.proc == Idle(RequeueAfterMinute) <==>
            Mentions(l.proc.cr.status.conditions, Created(key.kind)) && NothingToCreate(key, l))
  {
    match l.proc.point
    case CreateBucket(_) =>
    case CreateOrg =>
    case SaveObject =>
    case SaveStatus =>
    case Publish(_) =>
    case _ =>
  }

  predicate OnSecret(point: Point) {
    point.CreateSecret? || point.ReadSecret? || point.WriteSecret?
  }

  /** A pass settles on an authorization by its search or by its create call. */
  lemma SettlesBySearch(key: Key, l: Local, text: string, now: nat)
    requires |l.slot.versions| > 0 && l.proc.At? && !OnSecret(l.proc.point)
    requires var n := Effect(key, l, text, now).proc;
      n != l.proc && n.At? && (OnSecret(n.point) || n.point.DeleteAuth?)
    ensures l.proc.point.ListAuths? || l.proc.point.CreateAuth?
    ensures var n := Effect(key, l, text, now).proc;
      n.cr == l.proc.cr && n.tokenId.Some? && (OnSecret(n.point) ==> n.point.created == l.proc.point.CreateAuth?)
  {
    match l.proc.point
    case SaveObject =>
    case SaveStatus =>
    case Publish(_) =>
    case CreateBucket(_) =>
    case CreateOrg =>
    case DeleteAuth =>
    case DeleteBucket(_) =>
    case DeleteOrg(_) =>
    case _ =>
  }

  lemma GoesOnFromSecret(key: Key, l: Local, text: string, now: nat)
    requires |l.slot.versions| > 0 && l.proc.At? && OnSecret(l.proc.point)
    ensures var n := Effect(key, l, text, now).proc;
      && !(n.At? && n.point.DeleteAuth?)
      && (n.At? && OnSecret(n.point) ==>
            && n.point.created == l.proc.point.created && n.cr == l.proc.cr && n.tokenId == l.proc.tokenId
            && !n.point.CreateSecret?)
  {
  }

  /** What a pass at one of its calls on the secret remembers is whether it created the
      authorization: it is set by the create call, not by the search, and handed on. */
  lemma CreatedIsRemembered(key: Key, l: Local, o: Outcome)
    requires |l.slot.versions| > 0
    requires var n := Fire(key, l, o); n.proc != l.proc && n.proc.At? && OnSecret(n.proc.point)
    ensures var n := Fire(key, l, o);
      && l.proc.At?
      && n.proc.point.created == (l.proc.point.CreateAuth? || (OnSecret(l.proc.point) && l.proc.point.created))
  {
    if l.proc.At? && o.Reply? {
      if OnSecret(l.proc.point) {
        GoesOnFromSecret(key, l, o.text, o.now);
      } else {
        SettlesBySearch(key, l, o.text, o.now);
      }
    }
  }
}
