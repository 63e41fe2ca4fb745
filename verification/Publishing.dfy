/** Where a Token's token goes, when an existing secret is left alone, and what an update
    of a secret can overwrite. */
module Publishing {
  import opened Types
  import opened Tables
  import opened Protocol
  import opened Passes
  import opened Healing

  /** A call changes a secret only when it creates or updates the one that the spec of its
      Token names, in the namespace of the Token, and then the token is all there is in it. */
  lemma OnlyNamedSecretIsWritten(key: Key, l: Local, o: Outcome)
    requires |l.slot.versions| > 0
    ensures var before, after := l.shared.secrets, Fire(key, l, o).shared.secrets;
      after != before ==>
        && l.proc.At? && (l.proc.point.CreateSecret? || l.proc.point.WriteSecret?) && (o.Reply? || o.Lost?)
        && var name := Name(key.namespace, l.proc.cr.spec.secretName);
           && after == before[name := Secret(l.shared.stamps, map["token" := l.proc.point.token])]
           && if l.proc.point.CreateSecret? then name !in before
              else name in before && before[name].stamp == l.proc.point.stamp
  {
  }

  /** Where the search among the listed authorizations leads a live Token: with the token of
      the first match to its secret; to an error when the server does not show that token; to
      the create call when nothing matches. */
  lemma ListingDecides(key: Key, l: Local, text: string, now: nat)
    requires |l.slot.versions| > 0 && l.proc.At? && l.proc.point.ListAuths? && !l.proc.point.teardown
    requires key.kind == TokenKind
    ensures var n, org := Effect(key, l, text, now), l.proc.point.org;
      && n.slot == l.slot && n.shared == l.shared
      && match l.shared.auths.First(org, key.name + "." + key.namespace + "." + l.proc.cr.uid)
         case None => n.proc == l.proc.(point := CreateAuth(org))
         case Some(i) =>
           match l.shared.auths.rows[i].payload
           case AuthorizationData(Some(token), _) =>
             n.proc == At(l.proc.cr, l.proc.version, Some(i), CreateSecret(token, false))
           case _ => n.proc == Idle(Failed)
  {
  }

  /** The read of the secret leads to an update exactly when the secret has no data or its
      entry `token`, empty when missing, is another one. */
  lemma ReadDecides(key: Key, l: Local, text: string, now: nat)
    requires |l.slot.versions| > 0 && l.proc.At? && l.proc.point.ReadSecret?
    ensures var n := Effect(key, l, text, now);
      var name := Name(key.namespace, l.proc.cr.spec.secretName);
      && n.shared == l.shared
      && (n.proc.At? && n.proc.point.WriteSecret? <==>
            && name in l.shared.secrets
            && var data := l.shared.secrets[name].data;
               data == map[] || (if "token" in data then data["token"] else "") != l.proc.point.token)
  {
  }

  /** The token that the server shows for the Token after the pass. */
  function TokenAfter(key: Key, cr: Resource, shared: Shared, org: nat): Option<string> {
    match shared.auths.First(org, key.name + "." + key.namespace + "." + cr.uid)
    case Some(i) => ShownToken(shared.auths.rows[i])
    case None => None
  }

  function ShownToken(row: Row): Option<string> {
    match row.payload
    case AuthorizationData(token, _) => token
    case _ => None
  }

  /** What a working pass does to the secrets, whole: nothing when the named one has data
      and its entry `token` is the token of the authorization; otherwise that one alone is
      replaced, and its only entry is that token. */
  lemma SecretsAfterPass(key: Key, l: Local, org: nat, text: string, now: nat)
    requires key.kind == TokenKind && Initialized(l) && Healthy(key, l.shared, l.slot.Last().value, org)
    requires GoneInRange(l.shared)
    ensures var cr, n := l.slot.Last().value, Pass(key, l, text, now).shared;
      var name, token := Name(key.namespace, cr.spec.secretName), TokenAfter(key, cr, n, org);
      && token.Some?
      && n.secrets ==
           if name in l.shared.secrets
              && var data := l.shared.secrets[name].data;
                 data != map[] && (if "token" in data then data["token"] else "") == token.value
           then l.shared.secrets
           else l.shared.secrets[name := Secret(l.shared.stamps, map["token" := token.value])]
  {
    var cr := l.slot.Last().value;
    WorkingPass(key, l, org, text, now);
    if Missing(key, l.shared, cr, org) {
      InsertMakesFirst(l.shared.auths, NewAuth(key, cr, org, text), org, TitleOf(key, cr));
    }
  }

  /** In particular a secret that holds the token is left alone, whatever else it holds. */
  lemma RightSecretIsLeftAlone(key: Key, l: Local, org: nat, i: nat, text: string, now: nat)
    requires key.kind == TokenKind && Initialized(l) && Healthy(key, l.shared, l.slot.Last().value, org)
    requires GoneInRange(l.shared)
    requires var cr := l.slot.Last().value;
      var name := Name(key.namespace, cr.spec.secretName);
      && l.shared.auths.First(org, key.name + "." + key.namespace + "." + cr.uid) == Some(i)
      && name in l.shared.secrets && "token" in l.shared.secrets[name].data
      && l.shared.auths.rows[i].payload.AuthorizationData?
      && l.shared.auths.rows[i].payload.token == Some(l.shared.secrets[name].data["token"])
    ensures Pass(key, l, text, now).shared.secrets == l.shared.secrets
  {
    SecretsAfterPass(key, l, org, text, now);
    WorkingPass(key, l, org, text, now);
  }

  /******* What an update overwrites *******/

  /** Every stamp has been given out, and none twice. */
  ghost predicate Stamped(shared: Shared) {
    forall name | name in shared.secrets :: shared.secrets[name].stamp < shared.stamps
  }

  /** A pass about to update a secret has read it, and what it read was not right; if it is
      still the same version, it is not right now. */
  ghost predicate UpdateDue(key: Key, proc: Proc, shared: Shared) {
    proc.At? && proc.point.WriteSecret? ==>
      && proc.point.stamp < shared.stamps
      && var name := Name(key.namespace, proc.cr.spec.secretName);
         (name in shared.secrets && shared.secrets[name].stamp == proc.point.stamp ==>
            var data := shared.secrets[name].data;
            data == map[] || (if "token" in data then data["token"] else "") != proc.point.token)
  }

  /** Versions that were there stay what they were, or go; new ones get new stamps. */
  ghost predicate StampsAdvance(before: Shared, after: Shared) {
    && before.stamps <= after.stamps
    && forall name | name in after.secrets ::
         || (name in before.secrets && after.secrets[name] == before.secrets[name])
         || before.stamps <= after.secrets[name].stamp < after.stamps
  }

  lemma FireStamps(key: Key, l: Local, o: Outcome)
    requires |l.slot.versions| > 0
    ensures StampsAdvance(l.shared, Fire(key, l, o).shared)
  {
    if l.proc.At? && (o.Reply? || o.Lost?) {
      match l.proc.point
      case CreateSecret(_, _) =>
      case WriteSecret(_, _, _) =>
      case _ =>
    }
  }

  lemma ApplyStamps(s: State, a: Action)
    requires s.WellFormed()
    ensures StampsAdvance(s.shared, Apply(s, a).shared)
  {
    if a.Step? {
      FireStamps(a.key, s.View(a.key), a.outcome);
    }
  }

  lemma OthersKeepUpdateDue(key: Key, proc: Proc, before: Shared, after: Shared)
    requires UpdateDue(key, proc, before) && StampsAdvance(before, after)
    ensures UpdateDue(key, proc, after)
  {
  }

  /** Only the read of the secret leads to its update. */
  lemma OnlyReadLeadsToUpdate(key: Key, l: Local, text: string, now: nat)
    requires |l.slot.versions| > 0 && l.proc.At?
    requires var n := Effect(key, l, text, now).proc; n.At? && n.point.WriteSecret?
    ensures l.proc.point.ReadSecret?
    ensures var n := Effect(key, l, text, now).proc;
      && n.cr == l.proc.cr && n.point.token == l.proc.point.token
      && var name := Name(key.namespace, l.proc.cr.spec.secretName);
         name in l.shared.secrets && n.point.stamp == l.shared.secrets[name].stamp
  {
    match l.proc.point
    case SaveObject =>
    case SaveStatus =>
    case Publish(_) =>
    case CreateBucket(_) =>
    case CreateOrg =>
    case DeleteAuth =>
    case DeleteBucket(_) =>
    case DeleteOrg(_) =>
    case CreateSecret(_, _) =>
    case WriteSecret(_, _, _) =>
    case _ =>
  }

  lemma OwnStepUpdateDue(key: Key, l: Local, o: Outcome)
    requires |l.slot.versions| > 0 && Stamped(l.shared) && UpdateDue(key, l.proc, l.shared)
    ensures UpdateDue(key, Fire(key, l, o).proc, Fire(key, l, o).shared)
  {
    var n := Fire(key, l, o);
    FireStamps(key, l, o);
    if n.proc == l.proc {
      OthersKeepUpdateDue(key, l.proc, l.shared, n.shared);
    } else if l.proc.At? && o.Reply? && n.proc.At? && n.proc.point.WriteSecret? {
      OnlyReadLeadsToUpdate(key, l, o.text, o.now);
      ReadDecides(key, l, o.text, o.now);
    }
  }

  lemma {:induction false} RunKeepsUpdateDue(s: State, actions: seq<Action>, key: Key)
    requires s.WellFormed() && Stamped(s.shared) && UpdateDue(key, s.ProcOf(key), s.shared)
    ensures Stamped(Run(s, actions).shared) && UpdateDue(key, Run(s, actions).ProcOf(key), Run(s, actions).shared)
  {
    if actions != [] {
      var before, a := Run(s, actions[..|actions| - 1]), actions[|actions| - 1];
      RunKeepsUpdateDue(s, actions[..|actions| - 1], key);
      ApplyStamps(before, a);
      if a.Step? && a.key == key {
        OwnStepUpdateDue(key, before.View(key), a.outcome);
      } else {
        OthersKeepUpdateDue(key, before.ProcOf(key), before.shared, Apply(before, a).shared);
      }
    }
  }

  /** In every run an accepted update of a secret replaces exactly the version that was read,
      so it never overwrites one that is right, however others work on it in between. */
  lemma UpdatesOverwriteNothingRight(s: State, actions: seq<Action>, key: Key, o: Outcome)
    requires Initial(s) && Stamped(s.shared)
    requires var r := Run(s, actions);
      && r.ProcOf(key).At? && r.ProcOf(key).point.WriteSecret?
      && Fire(key, r.View(key), o).shared.secrets != r.shared.secrets
    ensures var r := Run(s, actions);
      var name := Name(key.namespace, r.ProcOf(key).cr.spec.secretName);
      && name in r.shared.secrets
      && var data := r.shared.secrets[name].data;
         data == map[] || (if "token" in data then data["token"] else "") != r.ProcOf(key).point.token
  {
    assert key !in s.procs;
    RunKeepsUpdateDue(s, actions, key);
    OnlyNamedSecretIsWritten(key, Run(s, actions).View(key), o);
  }
}
