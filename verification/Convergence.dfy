/** The chain of the documentation: an Organization, a Token in it, and a Bucket that is
    created with that Token's secret. Passes come in any order; the resources wait for
    each other by failing and being retried. */
module Convergence {
  import opened Types
  import opened Tables
  import opened Protocol
  import opened Passes
  import opened Healing
  import opened StatusAutomaton

  datatype Chain = Chain(org: Key, token: Key, bucket: Key) {
    predicate Has(key: Key) {
      key == org || key == token || key == bucket
    }
  }

  function CrOf(s: State, key: Key): Resource
    requires s.WellFormed() && s.SlotOf(key).Last().Some?
  {
    s.SlotOf(key).Last().value
  }

  predicate CredentialThere(shared: Shared, config: Config) {
    Name(config.secretNamespace, config.secretName) in shared.secrets
  }

  ghost predicate MemberOk(s: State, key: Key)
    requires s.WellFormed()
  {
    Alive(s.View(key)) && Quiescent(s, key) && StatusOk(key.kind, CrOf(s, key))
  }

  /** The three resources are there, not being deleted, in one namespace, and between passes. */
  ghost predicate MembersOk(c: Chain, s: State) {
    && s.WellFormed()
    && c.org.kind == OrganizationKind && c.token.kind == TokenKind && c.bucket.kind == BucketKind
    && c.org.namespace == c.token.namespace == c.bucket.namespace
    && (forall key: Key {:trigger s.SlotOf(key)} | c.Has(key) :: MemberOk(s, key))
  }

  /** The Organization's config reaches some organization with some credential. */
  predicate OrgConfigOk(shared: Shared, name: Name) {
    && name in shared.configs
    && CredentialThere(shared, shared.configs[name])
    && shared.orgs.First(0, shared.configs[name].orgName).Some?
  }

  /** The Token's config has a credential and names the Organization. */
  predicate TokenConfigOk(shared: Shared, name: Name, orgName: string) {
    && name in shared.configs
    && CredentialThere(shared, shared.configs[name])
    && shared.configs[name].orgName == orgName
  }

  /** The Bucket's config, called `default`, names the Organization and the Token's secret. */
  predicate BucketConfigOk(shared: Shared, name: Name, orgName: string, secret: Name) {
    && name in shared.configs
    && shared.configs[name].orgName == orgName
    && Name(shared.configs[name].secretNamespace, shared.configs[name].secretName) == secret
  }

  ghost predicate ConfigsOk(c: Chain, shared: Shared, org: Resource, token: Resource) {
    && OrgConfigOk(shared, Name(c.org.namespace, org.spec.configName))
    && TokenConfigOk(shared, Name(c.token.namespace, token.spec.configName), c.org.name)
    && BucketConfigOk(shared, Name(c.bucket.namespace, "default"), c.org.name,
                      Name(c.token.namespace, token.spec.secretName))
  }

  /** The server shows the tokens of all authorizations with the Token's description. */
  ghost predicate TokensShown(auths: Table, title: string) {
    forall i | 0 <= i < |auths.rows| && auths.rows[i].title == Some(title) :: AuthorizationToken(auths.rows[i]).Some?
  }

  /** Resources and configs refer to each other as documented. */
  ghost predicate Wired(c: Chain, s: State) {
    && MembersOk(c, s)
    && GoneInRange(s.shared)
    && ConfigsOk(c, s.shared, CrOf(s, c.org), CrOf(s, c.token))
    && TokensShown(s.shared.auths, TitleOf(c.token, CrOf(s, c.token)))
  }

  /** The organization in which the artefact of a resource belongs, if it exists yet. */
  function OrgAt(c: Chain, shared: Shared, key: Key): Option<nat> {
    if key.kind == OrganizationKind then Some(0) else shared.orgs.First(0, c.org.name)
  }

  /** How far one resource is from its fixpoint; without its organization it has work to do. */
  function Standing(c: Chain, shared: Shared, key: Key, cr: Resource): nat {
    match OrgAt(c, shared, key)
    case Some(org) => Gap(key, shared, cr, org)
    case None => if !cr.finalizer then 3 else if !Mentions(cr.status.conditions, FinalizerAdded) then 2 else 1
  }

  function StandingOf(c: Chain, s: State, key: Key): nat
    requires s.WellFormed() && s.SlotOf(key).Last().Some?
  {
    Standing(c, s.shared, key, CrOf(s, key))
  }

  ghost function Total(c: Chain, s: State): nat
    requires Wired(c, s)
  {
    StandingOf(c, s, c.org) + StandingOf(c, s, c.token) + StandingOf(c, s, c.bucket)
  }

  /** Neither store has changed. */
  ghost predicate SameStores(s: State, s': State) {
    s'.shared == s.shared && forall key: Key :: s'.SlotOf(key).versions == s.SlotOf(key).versions
  }

  /** A change of the stores that cannot push a resource of the chain back. */
  ghost predicate Gentle(c: Chain, shared: Shared, shared': Shared, except: Key) {
    forall key: Key, cr: Resource | c.Has(key) && key != except ::
        Standing(c, shared', key, cr) <= Standing(c, shared, key, cr)
  }

  /** The organization a working pass of the chain looks up. */
  function OrgSoughtBy(c: Chain, s: State, key: Key): Option<nat>
    requires s.WellFormed() && s.SlotOf(key).Last().Some?
  {
    var name := Name(key.namespace, ConfigName(key, CrOf(s, key).spec));
    if name in s.shared.configs then s.shared.orgs.First(0, s.shared.configs[name].orgName) else None
  }

  lemma GapIgnoresOrg(key: Key, shared: Shared, cr: Resource, a: nat, b: nat)
    requires key.kind == OrganizationKind
    ensures Gap(key, shared, cr, a) == Gap(key, shared, cr, b)
  {
  }

  /** What is missing for the pass of each resource to do its work. */
  lemma ChainBlocked(c: Chain, s: State, key: Key)
    requires Wired(c, s) && c.Has(key)
    ensures Blocked(key, s.shared, CrOf(s, key)) <==>
      key != c.org && (s.shared.orgs.First(0, c.org.name).None?
                       || (key == c.bucket
                           && Name(c.token.namespace, CrOf(s, c.token).spec.secretName) !in s.shared.secrets))
  {
  }

  lemma ChainHealthy(c: Chain, s: State, key: Key) returns (org: nat)
    requires Wired(c, s) && c.Has(key) && !Blocked(key, s.shared, CrOf(s, key))
    ensures Healthy(key, s.shared, CrOf(s, key), org)
    ensures Gap(key, s.shared, CrOf(s, key), org) == StandingOf(c, s, key)
  {
    org := OrgSoughtBy(c, s, key).value;
    if key == c.org {
      GapIgnoresOrg(key, s.shared, CrOf(s, key), org, 0);
    }
  }

  /******* The effect of one pass on the others *******/

  /** A pass repairs the table of its own kind and, for a Token, its own secret. */
  ghost predicate TouchesOnly(kind: Kind, shared: Shared, next: Shared) {
    && next.configs == shared.configs
    && shared.secrets.Keys <= next.secrets.Keys
    && (kind != TokenKind ==> next.auths == shared.auths && next.secrets == shared.secrets)
    && (kind != BucketKind ==> next.buckets == shared.buckets)
    && (kind != OrganizationKind ==> next.orgs == shared.orgs)
  }

  lemma RepairTouchesOnly(key: Key, shared: Shared, cr: Resource, org: nat, text: string)
    requires TokenVisible(key, shared, cr, org)
    ensures TouchesOnly(key.kind, shared, Repaired(key, shared, cr, org, text))
  {
  }

  /** Organizations found before are found after. */
  ghost predicate KeepsOrgs(orgs: Table, next: Table) {
    forall title: string | orgs.First(0, title).Some? :: next.First(0, title) == orgs.First(0, title)
  }

  lemma RepairKeepsOrgs(key: Key, shared: Shared, cr: Resource, org: nat, text: string)
    requires TokenVisible(key, shared, cr, org)
    ensures KeepsOrgs(shared.orgs, Repaired(key, shared, cr, org, text).orgs)
  {
    RepairTouchesOnly(key, shared, cr, org, text);
    if key.kind == OrganizationKind && Missing(key, shared, cr, org) {
      forall title: string | shared.orgs.First(0, title).Some?
        ensures shared.orgs.Insert(NewOrg(key, cr)).First(0, title) == shared.orgs.First(0, title)
      {
        InsertKeepsFirst(shared.orgs, NewOrg(key, cr), 0, title);
      }
    }
  }

  lemma TouchesOnlyIsGentle(c: Chain, shared: Shared, next: Shared, key: Key)
    requires c.org.kind == OrganizationKind && c.token.kind == TokenKind && c.bucket.kind == BucketKind && c.Has(key)
    requires TouchesOnly(key.kind, shared, next) && KeepsOrgs(shared.orgs, next.orgs)
    ensures Gentle(c, shared, next, key)
  {
  }

  lemma TouchesOnlyKeepsConfigs(c: Chain, shared: Shared, next: Shared, kind: Kind, org: Resource, token: Resource)
    requires TouchesOnly(kind, shared, next) && KeepsOrgs(shared.orgs, next.orgs)
    requires ConfigsOk(c, shared, org, token)
    ensures ConfigsOk(c, next, org, token)
  {
  }

  lemma RepairKeepsTokensShown(key: Key, shared: Shared, cr: Resource, org: nat, text: string, title: string)
    requires TokenVisible(key, shared, cr, org) && TokensShown(shared.auths, title)
    ensures TokensShown(Repaired(key, shared, cr, org, text).auths, title)
  {
  }

  /** What one pass of the chain does: nothing at all, or it brings its own resource
      forward and pushes none of the others back. */
  ghost predicate PassOutcome(c: Chain, s: State, key: Key, s': State)
    requires s.WellFormed() && s.SlotOf(key).Last().Some?
    requires s'.WellFormed() && s'.SlotOf(key).Last().Some?
  {
    && (|| SameStores(s, s')
        || (StandingOf(c, s', key) < StandingOf(c, s, key) && Gentle(c, s.shared, s'.shared, key)))
    && (forall other: Key | other != key :: s'.SlotOf(other) == s.SlotOf(other))
    && (StandingOf(c, s, key) > 0 && (StandingOf(c, s, key) > 1 || !Blocked(key, s.shared, CrOf(s, key))) ==>
          StandingOf(c, s', key) < StandingOf(c, s, key))
  }

  /** The resource may only have gained status or the finalizer. */
  predicate SameSubject(a: Resource, b: Resource) {
    a.uid == b.uid && a.spec == b.spec && a.deleting == b.deleting
  }

  /** What a pass leaves of a resource of the chain. */
  ghost predicate Settling(key: Key, n: Local) {
    Alive(n) && n.proc.Idle? && n.slot.seen < |n.slot.versions| && StatusOk(key.kind, n.slot.Last().value)
  }

  lemma PutKeepsMembers(c: Chain, s: State, key: Key, n: Local)
    requires MembersOk(c, s) && c.Has(key) && Settling(key, n)
    ensures MembersOk(c, s.Put(key, n))
  {
    forall k: Key | c.Has(k) ensures MemberOk(s.Put(key, n), k) {
      assert MemberOk(s, k) by { assert Alive(s.View(k)); }
    }
  }

  lemma PutKeepsWired(c: Chain, s: State, key: Key, n: Local)
    requires Wired(c, s) && c.Has(key) && Settling(key, n)
    requires SameSubject(CrOf(s, key), n.slot.Last().value)
    requires GoneInRange(n.shared) && ConfigsOk(c, n.shared, CrOf(s, c.org), CrOf(s, c.token))
    requires TokensShown(n.shared.auths, TitleOf(c.token, CrOf(s, c.token)))
    ensures Wired(c, s.Put(key, n))
  {
    PutKeepsMembers(c, s, key, n);
    var s' := s.Put(key, n);
    assert SameSubject(CrOf(s, c.org), CrOf(s', c.org)) && SameSubject(CrOf(s, c.token), CrOf(s', c.token));
    assert ConfigsOk(c, s'.shared, CrOf(s', c.org), CrOf(s', c.token));
  }

  lemma PutProgress(c: Chain, s: State, key: Key, n: Local)
    requires s.WellFormed() && s.SlotOf(key).Last().Some? && |n.slot.versions| > 0 && n.slot.Last().Some?
    requires Standing(c, n.shared, key, n.slot.Last().value) < StandingOf(c, s, key)
    requires Gentle(c, s.shared, n.shared, key)
    ensures PassOutcome(c, s, key, s.Put(key, n))
  {
  }

  /** Passes that only write the finalizer or the first status. */
  lemma EarlyPassLocal(key: Key, l: Local, text: string, now: nat)
    requires Alive(l) && StatusOk(key.kind, l.slot.Last().value)
    requires !l.slot.Last().value.finalizer || !Mentions(l.slot.Last().value.status.conditions, FinalizerAdded)
    ensures var n, cr := Pass(key, l, text, now), l.slot.Last().value;
      && Alive(n) && n.shared == l.shared
      && SameSubject(cr, n.slot.Last().value) && StatusOk(key.kind, n.slot.Last().value)
      && n.slot.Last().value.finalizer
      && (cr.finalizer ==> Mentions(n.slot.Last().value.status.conditions, FinalizerAdded))
  {
    var cr := l.slot.Last().value;
    if !cr.finalizer {
      FinalizerPass(key, l, text, now);
      assert Log(cr.(finalizer := true)) == Log(cr);
    } else {
      InitializingPass(key, l, text, now);
      assert InitialStatus(now).conditions[0].reason == FinalizerAdded;
      assert Reasons(InitialStatus(now).conditions) == [FinalizerAdded];
    }
  }

  lemma EarlyProgress(c: Chain, s: State, key: Key, cr: Resource)
    requires s.WellFormed() && s.SlotOf(key).Last().Some? && StandingOf(c, s, key) > 1
    requires cr.finalizer && (CrOf(s, key).finalizer ==> Mentions(cr.status.conditions, FinalizerAdded))
    ensures Standing(c, s.shared, key, cr) < StandingOf(c, s, key)
    ensures Gentle(c, s.shared, s.shared, key)
  {
  }

  lemma EarlyPass(c: Chain, s: State, key: Key, text: string, now: nat)
    requires Wired(c, s) && c.Has(key) && StandingOf(c, s, key) > 1
    ensures var s' := AfterPass(s, key, text, now);
      Wired(c, s') && PassOutcome(c, s, key, s')
  {
    EarlyPassLocal(key, s.View(key), text, now);
    var n := Pass(key, s.View(key), text, now);
    EarlyProgress(c, s, key, n.slot.Last().value);
    PutKeepsWired(c, s, key, n);
    PutProgress(c, s, key, n);
  }

  lemma WorkedStatusOk(key: Key, shared: Shared, cr: Resource, org: nat, now: nat)
    requires StatusOk(key.kind, cr) && !cr.deleting && Mentions(cr.status.conditions, FinalizerAdded)
    ensures StatusOk(key.kind, cr.(status := WorkedStatus(key, shared, cr, org, now)))
  {
    MentionsIsInLog(cr, FinalizerAdded);
    MentionsIsInLog(cr, Created(key.kind));
    var worked := cr.(status := WorkedStatus(key, shared, cr, org, now));
    assert Log(cr.(status := ReadyStatus(key.kind, cr.status, now))) == Log(cr) + [Created(key.kind)];
    assert Mentions(cr.status.conditions, Created(key.kind)) ==> Log(worked) == Log(cr);
  }

  lemma PutSame(c: Chain, s: State, key: Key, n: Local)
    requires s.WellFormed() && s.SlotOf(key).Last().Some?
    requires n.slot.versions == s.SlotOf(key).versions && n.shared == s.shared
    requires StandingOf(c, s, key) <= 1 && (StandingOf(c, s, key) == 1 ==> Blocked(key, s.shared, CrOf(s, key)))
    ensures PassOutcome(c, s, key, s.Put(key, n))
  {
  }

  /** The pass of a resource that has come to its work and can reach its surroundings. */
  lemma WorkedPassStanding(c: Chain, s: State, key: Key, text: string, now: nat)
    requires Wired(c, s) && c.Has(key) && StandingOf(c, s, key) <= 1 && !Blocked(key, s.shared, CrOf(s, key))
    ensures var n := Pass(key, s.View(key), text, now);
      && Alive(n) && GoneInRange(n.shared)
      && if StandingOf(c, s, key) == 0 then n.slot.versions == s.SlotOf(key).versions && n.shared == s.shared
         else forall org: nat | Healthy(key, s.shared, CrOf(s, key), org) ::
             Gap(key, n.shared, n.slot.Last().value, org) == 0
  {
    var found := ChainHealthy(c, s, key);
    HealingPass(key, s.View(key), found, text, now);
    forall org: nat | Healthy(key, s.shared, CrOf(s, key), org)
      ensures StandingOf(c, s, key) == 1 ==> Gap(key, Pass(key, s.View(key), text, now).shared,
                                                 Pass(key, s.View(key), text, now).slot.Last().value, org) == 0
    {
      assert org == found;
    }
  }

  lemma WorkedResource(key: Key, l: Local, org: nat, text: string, now: nat)
    requires Initialized(l) && StatusOk(key.kind, l.slot.Last().value)
    requires Healthy(key, l.shared, l.slot.Last().value, org)
    ensures var n := Pass(key, l, text, now);
      && Alive(n) && SameSubject(l.slot.Last().value, n.slot.Last().value)
      && StatusOk(key.kind, n.slot.Last().value)
  {
    WorkingPass(key, l, org, text, now);
    WorkedStatusOk(key, l.shared, l.slot.Last().value, org, now);
  }

  lemma WorkedPassResource(c: Chain, s: State, key: Key, text: string, now: nat)
    requires Wired(c, s) && c.Has(key) && StandingOf(c, s, key) <= 1 && !Blocked(key, s.shared, CrOf(s, key))
    ensures var n := Pass(key, s.View(key), text, now);
      Alive(n) && SameSubject(CrOf(s, key), n.slot.Last().value) && StatusOk(key.kind, n.slot.Last().value)
  {
    var org := ChainHealthy(c, s, key);
    WorkedResource(key, s.View(key), org, text, now);
  }

  lemma WorkedPassContents(c: Chain, s: State, key: Key, text: string, now: nat)
    requires Wired(c, s) && c.Has(key) && StandingOf(c, s, key) <= 1 && !Blocked(key, s.shared, CrOf(s, key))
    ensures var n := Pass(key, s.View(key), text, now);
      && TouchesOnly(key.kind, s.shared, n.shared) && KeepsOrgs(s.shared.orgs, n.shared.orgs)
      && TokensShown(n.shared.auths, TitleOf(c.token, CrOf(s, c.token)))
  {
    var cr := CrOf(s, key);
    var org := ChainHealthy(c, s, key);
    WorkingPass(key, s.View(key), org, text, now);
    RepairTouchesOnly(key, s.shared, cr, org, text);
    RepairKeepsOrgs(key, s.shared, cr, org, text);
    RepairKeepsTokensShown(key, s.shared, cr, org, text, TitleOf(c.token, CrOf(s, c.token)));
  }

  lemma WorkedIsSettled(c: Chain, s: State, key: Key, n: Local)
    requires Wired(c, s) && c.Has(key) && !Blocked(key, s.shared, CrOf(s, key))
    requires |n.slot.versions| > 0 && n.slot.Last().Some? && KeepsOrgs(s.shared.orgs, n.shared.orgs)
    requires forall org: nat | Healthy(key, s.shared, CrOf(s, key), org) ::
        Gap(key, n.shared, n.slot.Last().value, org) == 0
    ensures Standing(c, n.shared, key, n.slot.Last().value) == 0
  {
    var org := ChainHealthy(c, s, key);
    if key == c.org {
      GapIgnoresOrg(key, n.shared, n.slot.Last().value, org, 0);
    } else {
      ChainBlocked(c, s, key);
      assert s.shared.orgs.First(0, c.org.name).Some?;
      assert Alive(s.View(c.token));
    }
  }

  lemma WorkedPass(c: Chain, s: State, key: Key, text: string, now: nat)
    requires Wired(c, s) && c.Has(key) && StandingOf(c, s, key) <= 1 && !Blocked(key, s.shared, CrOf(s, key))
    ensures var s' := AfterPass(s, key, text, now);
      Wired(c, s') && PassOutcome(c, s, key, s')
  {
    WorkedPassStanding(c, s, key, text, now);
    WorkedPassContents(c, s, key, text, now);
    WorkedPassResource(c, s, key, text, now);
    var n := Pass(key, s.View(key), text, now);
    TouchesOnlyKeepsConfigs(c, s.shared, n.shared, key.kind, CrOf(s, c.org), CrOf(s, c.token));
    PutKeepsWired(c, s, key, n);
    if StandingOf(c, s, key) == 0 {
      PutSame(c, s, key, n);
    } else {
      WorkedIsSettled(c, s, key, n);
      TouchesOnlyIsGentle(c, s.shared, n.shared, key);
      PutProgress(c, s, key, n);
    }
  }

  /** The pass of a resource that still waits for another one. */
  lemma WaitingPass(c: Chain, s: State, key: Key, text: string, now: nat)
    requires Wired(c, s) && c.Has(key) && StandingOf(c, s, key) <= 1 && Blocked(key, s.shared, CrOf(s, key))
    ensures var s' := AfterPass(s, key, text, now);
      Wired(c, s') && PassOutcome(c, s, key, s')
  {
    BlockedPass(key, s.View(key), text, now);
    var n := Pass(key, s.View(key), text, now);
    PutKeepsWired(c, s, key, n);
    PutSame(c, s, key, n);
  }

  lemma ChainPass(c: Chain, s: State, key: Key, text: string, now: nat)
    requires Wired(c, s) && c.Has(key)
    ensures var s' := AfterPass(s, key, text, now);
      Wired(c, s') && PassOutcome(c, s, key, s')
  {
    if StandingOf(c, s, key) > 1 {
      EarlyPass(c, s, key, text, now);
    } else if Blocked(key, s.shared, CrOf(s, key)) {
      WaitingPass(c, s, key, text, now);
    } else {
      WorkedPass(c, s, key, text, now);
    }
  }

  /******* Schedules *******/

  lemma TotalIsSum(c: Chain, s: State, key: Key)
    requires Wired(c, s) && c.Has(key)
    ensures Alive(s.View(key)) && StandingOf(c, s, key) <= Total(c, s) <= 9
  {
  }

  lemma OutcomeOfOne(c: Chain, s: State, s': State, key: Key, other: Key)
    requires Wired(c, s) && Wired(c, s') && c.Has(key) && c.Has(other)
    requires s.SlotOf(key).Last().Some? && s'.SlotOf(key).Last().Some? && PassOutcome(c, s, key, s')
    ensures s.SlotOf(other).Last().Some? && s'.SlotOf(other).Last().Some?
    ensures SameStores(s, s') ==> StandingOf(c, s', other) == StandingOf(c, s, other)
    ensures !SameStores(s, s') ==> StandingOf(c, s', other) <= StandingOf(c, s, other)
  {
  }

  lemma OutcomeOrdersTotals(c: Chain, s: State, s': State, key: Key)
    requires Wired(c, s) && Wired(c, s') && c.Has(key)
    requires s.SlotOf(key).Last().Some? && s'.SlotOf(key).Last().Some? && PassOutcome(c, s, key, s')
    ensures if SameStores(s, s') then Total(c, s') == Total(c, s) else Total(c, s') < Total(c, s)
  {
    OutcomeOfOne(c, s, s', key, c.org);
    OutcomeOfOne(c, s, s', key, c.token);
    OutcomeOfOne(c, s, s', key, c.bucket);
  }

  /** A pass leaves both stores alone or lowers the total; it never raises it. */
  lemma PassNeverRaisesTotal(c: Chain, s: State, key: Key, text: string, now: nat)
    requires Wired(c, s) && c.Has(key)
    ensures var s' := AfterPass(s, key, text, now);
      && Wired(c, s')
      && (SameStores(s, s') || Total(c, s') < Total(c, s))
      && (SameStores(s, s') ==> Total(c, s') == Total(c, s))
  {
    ChainPass(c, s, key, text, now);
    OutcomeOrdersTotals(c, s, AfterPass(s, key, text, now), key);
  }

  /** As long as the chain is not settled, the pass of one of the three brings it forward. */
  lemma SomebodyCanMove(c: Chain, s: State) returns (key: Key)
    requires Wired(c, s) && Total(c, s) > 0
    ensures c.Has(key) && Alive(s.View(key)) && Movable(c, s, key)
  {
    ChainBlocked(c, s, c.org);
    ChainBlocked(c, s, c.token);
    ChainBlocked(c, s, c.bucket);
    key := if StandingOf(c, s, c.org) > 0 then c.org
           else if StandingOf(c, s, c.token) > 0 then c.token
           else c.bucket;
  }

  /** The next pass of this resource makes a difference. */
  predicate Movable(c: Chain, s: State, key: Key)
    requires s.WellFormed() && s.SlotOf(key).Last().Some?
  {
    StandingOf(c, s, key) > 0 && (StandingOf(c, s, key) > 1 || !Blocked(key, s.shared, CrOf(s, key)))
  }

  lemma MoverLowersTotal(c: Chain, s: State, key: Key, text: string, now: nat)
    requires Wired(c, s) && c.Has(key) && Movable(c, s, key)
    ensures Wired(c, AfterPass(s, key, text, now)) && Total(c, AfterPass(s, key, text, now)) < Total(c, s)
  {
    var s' := AfterPass(s, key, text, now);
    PassNeverRaisesTotal(c, s, key, text, now);
    if SameStores(s, s') {
      SameStoresSameStanding(c, s, s', key);
    }
    ChainPass(c, s, key, text, now);
  }

  predicate OfChain(c: Chain, schedule: seq<Visit>) {
    forall i | 0 <= i < |schedule| :: c.Has(schedule[i].key)
  }

  /** The state after the first pass of the schedule. */
  function AfterFirst(s: State, schedule: seq<Visit>): (r: State)
    requires s.WellFormed() && schedule != []
    ensures r.WellFormed()
  {
    AfterPass(s, schedule[0].key, schedule[0].moment.text, schedule[0].moment.now)
  }

  lemma FirstNeverRaisesTotal(c: Chain, s: State, schedule: seq<Visit>)
    requires Wired(c, s) && OfChain(c, schedule) && schedule != []
    ensures var next := AfterFirst(s, schedule);
      Wired(c, next) && (if SameStores(s, next) then Total(c, next) == Total(c, s) else Total(c, next) < Total(c, s))
  {
    PassNeverRaisesTotal(c, s, schedule[0].key, schedule[0].moment.text, schedule[0].moment.now);
  }

  /** How many passes of the schedule lower the total. */
  ghost function Lowerings(c: Chain, s: State, schedule: seq<Visit>): nat
    requires Wired(c, s) && OfChain(c, schedule)
    decreases schedule
  {
    if schedule == [] then 0
    else
      FirstNeverRaisesTotal(c, s, schedule);
      var next := AfterFirst(s, schedule);
      (if Total(c, next) < Total(c, s) then 1 else 0) + Lowerings(c, next, schedule[1..])
  }

  lemma {:induction false} LoweringsAddUp(c: Chain, s: State, schedule: seq<Visit>)
    requires Wired(c, s) && OfChain(c, schedule)
    ensures Wired(c, AfterSchedule(s, schedule))
    ensures Lowerings(c, s, schedule) + Total(c, AfterSchedule(s, schedule)) <= Total(c, s)
    decreases schedule
  {
    if schedule != [] {
      FirstNeverRaisesTotal(c, s, schedule);
      LoweringsAddUp(c, AfterFirst(s, schedule), schedule[1..]);
    }
  }

  /** However long the schedule and in whatever order, at most nine passes make a difference. */
  lemma AtMostNineLowerings(c: Chain, s: State, schedule: seq<Visit>)
    requires Wired(c, s) && OfChain(c, schedule)
    ensures Lowerings(c, s, schedule) <= 9
  {
    TotalIsSum(c, s, c.org);
    LoweringsAddUp(c, s, schedule);
  }

  lemma SameStoresSameStanding(c: Chain, s: State, s': State, key: Key)
    requires Wired(c, s) && Wired(c, s') && SameStores(s, s') && c.Has(key)
    ensures s.SlotOf(key).Last().Some? && s'.SlotOf(key).Last().Some?
    ensures CrOf(s', key) == CrOf(s, key) && StandingOf(c, s', key) == StandingOf(c, s, key)
    ensures Movable(c, s', key) == Movable(c, s, key)
  {
  }

  predicate Visits(round: seq<Visit>, key: Key) {
    exists i :: 0 <= i < |round| && round[i].key == key
  }

  /** The first pass of a round makes a difference, or leaves it to a later one. */
  lemma FirstOfRound(c: Chain, s: State, round: seq<Visit>, key: Key) returns (next: State, lowered: bool)
    requires Wired(c, s) && OfChain(c, round) && Visits(round, key)
    requires s.SlotOf(key).Last().Some? && Movable(c, s, key)
    ensures Wired(c, next)
    ensures Lowerings(c, s, round) >= Lowerings(c, next, round[1..])
    ensures lowered ==> Lowerings(c, s, round) > 0
    ensures !lowered ==> Visits(round[1..], key) && next.SlotOf(key).Last().Some? && Movable(c, next, key)
  {
    next := AfterFirst(s, round);
    FirstNeverRaisesTotal(c, s, round);
    lowered := key == round[0].key || Total(c, next) < Total(c, s);
    if key == round[0].key {
      MoverLowersTotal(c, s, key, round[0].moment.text, round[0].moment.now);
    } else if !lowered {
      SameStoresSameStanding(c, s, next, key);
      var i :| 0 <= i < |round| && round[i].key == key;
      assert round[1..][i - 1].key == key;
    }
  }

  /** A stretch of the schedule in which the resource that can move gets a pass lowers the total. */
  lemma {:induction false} RoundWithMoverLowers(c: Chain, s: State, round: seq<Visit>, key: Key)
    requires Wired(c, s) && OfChain(c, round) && Visits(round, key)
    requires s.SlotOf(key).Last().Some? && Movable(c, s, key)
    ensures Lowerings(c, s, round) > 0
    decreases round
  {
    var next, lowered := FirstOfRound(c, s, round, key);
    if !lowered {
      RoundWithMoverLowers(c, next, round[1..], key);
    }
  }

  /** Every round gives each of the three at least one pass. */
  predicate FairRound(c: Chain, round: seq<Visit>) {
    OfChain(c, round) && Visits(round, c.org) && Visits(round, c.token) && Visits(round, c.bucket)
  }

  lemma FairRoundLowers(c: Chain, s: State, round: seq<Visit>)
    requires Wired(c, s) && FairRound(c, round)
    ensures var r := AfterSchedule(s, round);
      Wired(c, r) && Total(c, r) <= Total(c, s) && (Total(c, s) > 0 ==> Total(c, r) < Total(c, s))
  {
    LoweringsAddUp(c, s, round);
    if Total(c, s) > 0 {
      var key := SomebodyCanMove(c, s);
      RoundWithMoverLowers(c, s, round, key);
    }
  }

  function AfterRounds(s: State, rounds: seq<seq<Visit>>): (r: State)
    requires s.WellFormed()
    ensures r.WellFormed()
    decreases rounds
  {
    if rounds == [] then s else AfterRounds(AfterSchedule(s, rounds[0]), rounds[1..])
  }

  lemma {:induction false} RoundsLower(c: Chain, s: State, rounds: seq<seq<Visit>>)
    requires Wired(c, s) && (forall i | 0 <= i < |rounds| :: FairRound(c, rounds[i]))
    ensures var r := AfterRounds(s, rounds);
      Wired(c, r) && (Total(c, r) == 0 || Total(c, r) + |rounds| <= Total(c, s))
    decreases rounds
  {
    if rounds != [] {
      FairRoundLowers(c, s, rounds[0]);
      RoundsLower(c, AfterSchedule(s, rounds[0]), rounds[1..]);
    }
  }

  /** The rounds are a run of the state machine. */
  lemma {:induction false} RoundsAreRun(c: Chain, s: State, rounds: seq<seq<Visit>>) returns (actions: seq<Action>)
    requires Wired(c, s) && (forall i | 0 <= i < |rounds| :: FairRound(c, rounds[i]))
    ensures Run(s, actions) == AfterRounds(s, rounds)
    decreases rounds
  {
    if rounds == [] {
      actions := [];
    } else {
      forall i | 0 <= i < |rounds[0]| ensures Quiescent(s, rounds[0][i].key) {
        assert c.Has(rounds[0][i].key) && MemberOk(s, rounds[0][i].key);
      }
      var first := ScheduleIsRun(s, rounds[0]);
      FairRoundLowers(c, s, rounds[0]);
      var rest := RoundsAreRun(c, AfterSchedule(s, rounds[0]), rounds[1..]);
      actions := first + rest;
      RunConcat(s, first, rest);
    }
  }

  /** A settled chain is a ready chain: all three phases are `ready`, the organization, the
      authorization and the bucket exist, and the secret is right. */
  lemma SettledIsReady(c: Chain, s: State, key: Key)
    requires Wired(c, s) && c.Has(key) && Total(c, s) == 0
    ensures Alive(s.View(key)) && CrOf(s, key).status.phase == Ready
    ensures OrgAt(c, s.shared, key).Some? && Settled(key, s.shared, CrOf(s, key), OrgAt(c, s.shared, key).value)
  {
  }

  /** From any wired state, nine fair rounds in whatever order, each pass at its own time and
      with its own answers, make all three resources ready; and the rounds are a run. */
  lemma ChainConverges(c: Chain, s: State, rounds: seq<seq<Visit>>, key: Key) returns (actions: seq<Action>)
    requires Wired(c, s) && c.Has(key)
    requires |rounds| >= 9 && (forall i | 0 <= i < |rounds| :: FairRound(c, rounds[i]))
    ensures Run(s, actions) == AfterRounds(s, rounds)
    ensures var r := AfterRounds(s, rounds);
      && Wired(c, r) && Total(c, r) == 0
      && Alive(r.View(key)) && CrOf(r, key).status.phase == Ready
      && OrgAt(c, r.shared, key).Some? && Settled(key, r.shared, CrOf(r, key), OrgAt(c, r.shared, key).value)
  {
    TotalIsSum(c, s, key);
    RoundsLower(c, s, rounds);
    SettledIsReady(c, AfterRounds(s, rounds), key);
    actions := RoundsAreRun(c, s, rounds);
  }
}
