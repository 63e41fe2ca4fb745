/** What whole runs guarantee about Tokens: one authorization per Token and organization,
    no pass touching another Token's authorization, and `ready` only once the secret is right. */
module Tokens {
  import opened Types
  import opened Tables
  import opened Protocol
  import opened Lines
  import opened Safety
  import opened StatusAutomaton
  import opened PassShape

  /******* At most one authorization *******/

  predicate MadeFor(row: Row, owner: Owner, org: nat) {
    row.maker == Some(owner) && row.parent == org
  }

  /** How many of the first `n` authorizations the operator created for this owner there. */
  function CreatedFor(auths: Table, owner: Owner, org: nat, n: nat): nat
    requires n <= |auths.rows|
  {
    if n == 0 then 0
    else CreatedFor(auths, owner, org, n - 1) + if MadeFor(auths.rows[n - 1], owner, org) then 1 else 0
  }

  predicate Lost(auths: Table, i: nat) {
    i in auths.gone && auths.gone[i] == Outsider
  }

  /** How many of those somebody other than the operator has removed. */
  function LostFor(auths: Table, owner: Owner, org: nat, n: nat): nat
    requires n <= |auths.rows|
  {
    if n == 0 then 0
    else LostFor(auths, owner, org, n - 1)
         + if MadeFor(auths.rows[n - 1], owner, org) && Lost(auths, n - 1) then 1 else 0
  }

  lemma {:induction false} AllLost(auths: Table, owner: Owner, org: nat, n: nat)
    requires n <= |auths.rows|
    requires forall i | 0 <= i < n && MadeFor(auths.rows[i], owner, org) :: Lost(auths, i)
    ensures CreatedFor(auths, owner, org, n) == LostFor(auths, owner, org, n)
  {
    if n > 0 {
      AllLost(auths, owner, org, n - 1);
    }
  }

  lemma {:induction false} CreatedAtMostLostPlusOne(auths: Table, owner: Owner, org: nat, n: nat)
    requires AtMostOne(auths) && n <= |auths.rows|
    ensures CreatedFor(auths, owner, org, n) <= 1 + LostFor(auths, owner, org, n)
  {
    if n > 0 {
      if MadeFor(auths.rows[n - 1], owner, org) {
        AllLost(auths, owner, org, n - 1);
      } else {
        CreatedAtMostLostPlusOne(auths, owner, org, n - 1);
      }
    }
  }

  /** In every run, lost replies, crashes, stale reads and changing configs included, the
      operator creates at most one authorization for an incarnation of a Token in an
      organization, plus one for each that somebody else removed. */
  lemma AtMostOneEver(s: State, actions: seq<Action>, owner: Owner, org: nat)
    requires Initial(s)
    ensures var auths := Run(s, actions).shared.auths;
      CreatedFor(auths, owner, org, |auths.rows|) <= 1 + LostFor(auths, owner, org, |auths.rows|)
  {
    InitialInv(s);
    RunKeepsInv(s, actions);
    var auths := Run(s, actions).shared.auths;
    CreatedAtMostLostPlusOne(auths, owner, org, |auths.rows|);
  }

  /******* Non-interference *******/

  /** A call of a pass settles on an authorization: to publish its token, or to delete it. */
  predicate TakesUp(before: Proc, after: Proc, i: nat) {
    after.At? && after != before && (after.point.CreateSecret? || after.point.DeleteAuth?) && after.tokenId == Some(i)
  }

  /** In every reachable state, no call of a pass creates, removes or takes up an
      authorization that was made for another Token or another incarnation. */
  lemma NonInterference(s: State, actions: seq<Action>, key: Key, o: Outcome, owner: Owner, i: nat)
    requires Initial(s)
    requires var r := Run(s, actions);
      var rows := Fire(key, r.View(key), o).shared.auths.rows;
      && i < |rows| && rows[i].maker == Some(owner)
      && !(r.ProcOf(key).At? && Actor(key, r.ProcOf(key)) == owner)
    ensures var r := Run(s, actions);
      var n := Fire(key, r.View(key), o);
      && (r.shared.auths.Live(i) <==> n.shared.auths.Live(i))
      && !TakesUp(r.ProcOf(key), n.proc, i)
  {
    InitialInv(s);
    RunKeepsInv(s, actions);
    var r := Run(s, actions);
    assert KeyOk(r, key);
    StepFacts(r, key, o);
    OwnCallsOnly(r, key, Fire(key, r.View(key), o), i);
    TokenIdIsOwn(r, key, o);
  }

  lemma OwnCallsOnly(r: State, key: Key, n: Local, i: nat)
    requires Inv(r) && TableStep(key, r.View(key), TokenKind, n.shared.auths) && i < |n.shared.auths.rows|
    ensures var owner := n.shared.auths.rows[i].maker;
      owner.Some? && !(r.ProcOf(key).At? && owner.value == Actor(key, r.ProcOf(key))) ==>
        (r.shared.auths.Live(i) <==> n.shared.auths.Live(i))
  {
    var next := n.shared.auths;
    if i in next.gone && i !in r.shared.auths.gone && next.rows[i].maker.Some? {
      RemovalIsOwn(r, key, next, i);
    }
  }

  lemma SettlesAfterSearch(key: Key, l: Local, o: Outcome)
    requires |l.slot.versions| > 0 && Fire(key, l, o).proc.At? && Fire(key, l, o).proc != l.proc
    requires Fire(key, l, o).proc.point.CreateSecret? || Fire(key, l, o).proc.point.DeleteAuth?
    ensures l.proc.At? && (l.proc.point.ListAuths? || l.proc.point.CreateAuth?)
    ensures Fire(key, l, o).proc.cr == l.proc.cr && Fire(key, l, o).proc.tokenId.Some?
  {
    if l.proc.At? && o.Reply? {
      if OnSecret(l.proc.point) {
        GoesOnFromSecret(key, l, o.text, o.now);
      } else {
        SettlesBySearch(key, l, o.text, o.now);
      }
    }
  }

  /** The authorization a pass goes on with belongs to its own incarnation, if to any. */
  lemma TokenIdIsOwn(r: State, key: Key, o: Outcome)
    requires Inv(r)
    ensures var p := Fire(key, r.View(key), o).proc;
      p.At? && (p.point.CreateSecret? || p.point.DeleteAuth?) && p != r.ProcOf(key) ==>
        && r.ProcOf(key).At? && p.tokenId.Some?
        && p.tokenId.value < |Fire(key, r.View(key), o).shared.auths.rows|
        && var owner := Fire(key, r.View(key), o).shared.auths.rows[p.tokenId.value].maker;
           owner.Some? ==> owner.value == Actor(key, r.ProcOf(key))
  {
    var l := r.View(key);
    var n := Fire(key, l, o);
    assert KeyOk(r, key);
    StepFacts(r, key, o);
    if n.proc.At? && (n.proc.point.CreateSecret? || n.proc.point.DeleteAuth?) && n.proc != l.proc {
      SettlesAfterSearch(key, l, o);
      var row := n.shared.auths.rows[n.proc.tokenId.value];
      if row.maker.Some? {
        TitlesIdentifyTokens(row.maker.value, Actor(key, l.proc));
      }
    }
  }

  /******* Ready only after the fact *******/

  /** The pass is about to publish, and the secret says what it is going to claim. */
  ghost predicate SecretReady(key: Key, proc: Proc, shared: Shared) {
    proc.At? && proc.point.Publish? ==>
      && Name(key.namespace, proc.cr.spec.secretName) in shared.secrets
      && var data := shared.secrets[Name(key.namespace, proc.cr.spec.secretName)].data;
         (if "token" in data then data["token"] else "") == proc.point.token
  }

  /** While the pass for `key` is about to publish, nobody else writes its secret: no
      outsider does, and no other Token uses the same secret name. */
  ghost predicate SecretLeftAlone(s: State, a: Action, key: Key) {
    s.ProcOf(key).At? && s.ProcOf(key).point.Publish? ==>
      && (a.SetSecret? ==> a.name != Name(key.namespace, s.ProcOf(key).cr.spec.secretName))
      && (a.Step? && a.key != key && s.ProcOf(a.key).At? ==>
            Name(a.key.namespace, s.ProcOf(a.key).cr.spec.secretName)
            != Name(key.namespace, s.ProcOf(key).cr.spec.secretName))
  }

  lemma FireSecrets(key: Key, l: Local, o: Outcome, name: Name)
    requires |l.slot.versions| > 0
    requires l.proc.At? ==> name != Name(key.namespace, l.proc.cr.spec.secretName)
    ensures name in Fire(key, l, o).shared.secrets <==> name in l.shared.secrets
    ensures name in l.shared.secrets ==> Fire(key, l, o).shared.secrets[name] == l.shared.secrets[name]
  {
  }

  lemma SecretCallsLeaveItReady(key: Key, l: Local, text: string, now: nat)
    requires |l.slot.versions| > 0 && l.proc.At?
    requires l.proc.point.CreateSecret? || l.proc.point.ReadSecret? || l.proc.point.WriteSecret?
    ensures SecretReady(key, Effect(key, l, text, now).proc, Effect(key, l, text, now).shared)
  {
  }

  lemma NoOtherCallPublishes(key: Key, l: Local, text: string, now: nat)
    requires |l.slot.versions| > 0 && l.proc.At? && !OnSecret(l.proc.point)
    ensures var n := Effect(key, l, text, now).proc; !(n.At? && n.point.Publish?)
  {
    match l.proc.point
    case SaveObject =>
    case SaveStatus =>
    case Publish(_) =>
    case CreateBucket(_) =>
    case CreateOrg =>
    case DeleteAuth =>
    case DeleteBucket(_) =>
    case DeleteOrg(_) =>
    case _ =>
  }

  /** Only the three calls on the secret lead to the final status write. */
  lemma PublishComesFromSecretCalls(key: Key, l: Local, o: Outcome)
    requires |l.slot.versions| > 0
    requires Fire(key, l, o).proc.At? && Fire(key, l, o).proc.point.Publish?
    ensures Fire(key, l, o) == l
         || (l.proc.At? && o.Reply? && OnSecret(l.proc.point))
  {
    if l.proc.At? && o.Reply? && !OnSecret(l.proc.point) {
      NoOtherCallPublishes(key, l, o.text, o.now);
    }
  }

  lemma OwnFireSecretReady(key: Key, l: Local, o: Outcome)
    requires |l.slot.versions| > 0 && SecretReady(key, l.proc, l.shared)
    ensures SecretReady(key, Fire(key, l, o).proc, Fire(key, l, o).shared)
  {
    var n := Fire(key, l, o);
    if n.proc.At? && n.proc.point.Publish? {
      PublishComesFromSecretCalls(key, l, o);
      if n != l {
        SecretCallsLeaveItReady(key, l, o.text, o.now);
      }
    }
  }

  lemma ApplyKeepsSecretReady(s: State, a: Action, key: Key)
    requires s.WellFormed() && SecretReady(key, s.ProcOf(key), s.shared) && SecretLeftAlone(s, a, key)
    ensures SecretReady(key, Apply(s, a).ProcOf(key), Apply(s, a).shared)
  {
    if a.Step? {
      if a.key == key {
        OwnFireSecretReady(key, s.View(key), a.outcome);
      } else if s.ProcOf(key).At? && s.ProcOf(key).point.Publish? {
        FireSecrets(a.key, s.View(a.key), a.outcome, Name(key.namespace, s.ProcOf(key).cr.spec.secretName));
      }
    }
  }

  lemma {:induction false} RunKeepsSecretReady(s: State, actions: seq<Action>, key: Key)
    requires Initial(s)
    requires forall i | 0 <= i < |actions| :: SecretLeftAlone(Run(s, actions[..i]), actions[i], key)
    ensures SecretReady(key, Run(s, actions).ProcOf(key), Run(s, actions).shared)
  {
    if actions == [] {
      assert key !in s.procs;
    } else {
      var n := |actions| - 1;
      var before := actions[..n];
      forall i | 0 <= i < n ensures SecretLeftAlone(Run(s, before[..i]), before[i], key) {
        assert before[..i] == actions[..i];
      }
      RunKeepsSecretReady(s, before, key);
      ApplyKeepsSecretReady(Run(s, before), actions[n], key);
    }
  }

  /** This call of a pass writes phase `ready` where it was not before. */
  ghost predicate BecomesReady(key: Key, l: Local, o: Outcome)
    requires |l.slot.versions| > 0
  {
    && |Fire(key, l, o).slot.versions| == |l.slot.versions| + 1
    && l.slot.Last().Some? && l.slot.Last().value.status.phase != Ready
    && Fire(key, l, o).slot.Last().Some? && Fire(key, l, o).slot.Last().value.status.phase == Ready
  }

  lemma OnlyPublishBecomesReady(key: Key, l: Local, used: set<Uid>, o: Outcome)
    requires LineOk(key, l.slot, l.proc, used) && StatusLine(key.kind, l.slot, l.proc)
    requires key.kind == TokenKind && BecomesReady(key, l, o)
    ensures l.proc.At? && l.proc.point.Publish?
  {
  }

  /** A Token's phase becomes `ready` only when the secret that its spec names, in its own
      namespace, holds, under `token`, the token of an authorization that carries its
      description: one that this pass listed or created. A missing entry reads as the empty
      string, so for a non-empty token the entry is there. */
  lemma ReadyOnlyAfterTheFact(s: State, actions: seq<Action>, key: Key, o: Outcome) returns (id: nat)
    requires Initial(s) && key.kind == TokenKind
    requires forall i | 0 <= i < |actions| :: SecretLeftAlone(Run(s, actions[..i]), actions[i], key)
    requires BecomesReady(key, Run(s, actions).View(key), o)
    ensures var r := Run(s, actions);
      && r.ProcOf(key).At? && r.ProcOf(key).tokenId == Some(id) && id < |r.shared.auths.rows|
      && r.shared.auths.rows[id].title == Some(key.name + "." + key.namespace + "." + r.ProcOf(key).cr.uid)
      && var name := Name(key.namespace, r.ProcOf(key).cr.spec.secretName);
         && name in r.shared.secrets
         && r.shared.auths.rows[id].payload.AuthorizationData?
         && var data := r.shared.secrets[name].data;
            r.shared.auths.rows[id].payload.token == Some(if "token" in data then data["token"] else "")
  {
    var r := Run(s, actions);
    InitialStatusInv(s);
    RunKeepsStatusInv(s, actions);
    assert KeyOk(r, key) && StatusLine(key.kind, r.SlotOf(key), r.ProcOf(key));
    OnlyPublishBecomesReady(key, r.View(key), r.used, o);
    RunKeepsSecretReady(s, actions, key);
    id := r.ProcOf(key).tokenId.value;
  }
}
