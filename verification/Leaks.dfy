/** What a teardown overlooks: exactly when a pass lets a resource go, and exactly when it
    leaves behind something that the operator created for it. */
module Leaks {
  import opened Types
  import opened Tables
  import opened Descriptions
  import opened Protocol
  import opened Safety
  import opened Finalizers
  import opened Passes
  import opened Deletion
  import opened Healing

  /** What a teardown takes for "nothing left": no config; or a credential and either no
      organization (which a Bucket does not accept) or nothing with its title in the one
      organization the config leads to. */
  predicate NothingShows(key: Key, shared: Shared, cr: Resource) {
    var name := Name(key.namespace, ConfigName(key, cr.spec));
    name in shared.configs ==>
      && Name(shared.configs[name].secretNamespace, shared.configs[name].secretName) in shared.secrets
      && match shared.orgs.First(0, OrgSought(key, true, shared.configs[name]))
         case None => key.kind != BucketKind
         case Some(org) => FirstLeft(key, shared, cr, org).None?
  }

  /** The pass without its surroundings: it skips the teardown or fails. */
  lemma UnpreparedTeardown(key: Key, l: Local, text: string, now: nat)
    requires BeingDeleted(l) && l.slot.Last().value.status.phase == Terminating
    requires var cr := l.slot.Last().value;
      var name := Name(key.namespace, ConfigName(key, cr.spec));
      || name !in l.shared.configs
      || Name(l.shared.configs[name].secretNamespace, l.shared.configs[name].secretName) !in l.shared.secrets
      || l.shared.orgs.First(0, OrgSought(key, true, l.shared.configs[name])).None?
    ensures Pass(key, l, text, now).shared == l.shared
    ensures Pass(key, l, text, now).slot.Last().None? <==> NothingShows(key, l.shared, l.slot.Last().value)
    ensures !NothingShows(key, l.shared, l.slot.Last().value) ==>
      Pass(key, l, text, now).slot.versions == l.slot.versions && Pass(key, l, text, now).proc == Idle(Failed)
  {
    var begun := Begin(l, now);
    var cr, version := begun.proc.cr, begun.proc.version;
    var name := Name(key.namespace, ConfigName(key, cr.spec));
    DriveStep(key, begun, text, now);
    if name in l.shared.configs {
      var config := l.shared.configs[name];
      var second := begun.(proc := begun.proc.(point := GetCredential(true, config)));
      DriveStep(key, second, text, now);
      if Name(config.secretNamespace, config.secretName) in l.shared.secrets {
        DriveStep(key, second.(proc := second.proc.(point := FindOrg(true, config))), text, now);
      }
    }
    DriveSaves(key, begun.(proc := DropFinalizer(cr, version)), text, now);
  }

  /** Exactly when an undisturbed pass over a terminating resource makes it disappear. */
  lemma TeardownDropsExactlyWhen(key: Key, l: Local, text: string, now: nat)
    requires BeingDeleted(l) && l.slot.Last().value.status.phase == Terminating
    ensures Pass(key, l, text, now).slot.Last().None? <==> NothingShows(key, l.shared, l.slot.Last().value)
  {
    var cr := l.slot.Last().value;
    var name := Name(key.namespace, ConfigName(key, cr.spec));
    if name in l.shared.configs
       && Name(l.shared.configs[name].secretNamespace, l.shared.configs[name].secretName) in l.shared.secrets
       && l.shared.orgs.First(0, OrgSought(key, true, l.shared.configs[name])).Some?
    {
      var org := l.shared.orgs.First(0, OrgSought(key, true, l.shared.configs[name])).value;
      TeardownPass(key, l, org, text, now);
      TableOf(l.shared, key.kind).CountZero(Home(key.kind, org), TitleOf(key, cr), 0);
    } else {
      UnpreparedTeardown(key, l, text, now);
    }
  }

  /** So a Token whose config has come to name another organization leaves behind every
      authorization the operator made for it in the old one. */
  lemma RetargetedConfigLeaks(key: Key, l: Local, before: nat, after: nat, i: nat, text: string, now: nat)
    requires key.kind == TokenKind && before != after
    requires BeingDeleted(l) && l.slot.Last().value.status.phase == Terminating
    requires Prepared(key, l.shared, l.slot.Last().value, after)
    requires Owned(l.shared, Owner(key, l.slot.Last().value.uid), i) && l.shared.auths.rows[i].parent == before
    requires Left(key, l.shared, l.slot.Last().value, after) == 0
    ensures Pass(key, l, text, now).slot.Last().None?
    ensures Owned(Pass(key, l, text, now).shared, Owner(key, l.slot.Last().value.uid), i)
  {
    var cr := l.slot.Last().value;
    l.shared.auths.CountZero(after, TitleOf(key, cr), 0);
    DroppingPass(key, l, after, text, now);
  }

  /** The operator has something on the server for the incarnation. */
  ghost predicate OwnsSomething(shared: Shared, owner: Owner) {
    exists i: nat :: Owned(shared, owner, i)
  }

  /** For every kind: an undisturbed pass over a terminating resource makes it disappear and
      leaves something behind exactly when the operator has something on the server for it
      and the teardown takes what it sees for nothing. */
  lemma LeaksExactlyWhen(key: Key, l: Local, text: string, now: nat)
    requires BeingDeleted(l) && l.slot.Last().value.status.phase == Terminating
    ensures var r, cr := Pass(key, l, text, now), l.slot.Last().value;
      var owner := Owner(key, cr.uid);
      r.slot.Last().None? && OwnsSomething(r.shared, owner) <==>
        NothingShows(key, l.shared, cr) && OwnsSomething(l.shared, owner)
  {
    TeardownDropsExactlyWhen(key, l, text, now);
    if NothingShows(key, l.shared, l.slot.Last().value) {
      DropLeavesServer(key, l, text, now);
    }
  }

  /** A pass that lets its resource go changes nothing on the server. */
  lemma DropLeavesServer(key: Key, l: Local, text: string, now: nat)
    requires BeingDeleted(l) && l.slot.Last().value.status.phase == Terminating
    requires NothingShows(key, l.shared, l.slot.Last().value)
    ensures Pass(key, l, text, now).shared == l.shared
  {
    var cr := l.slot.Last().value;
    var name := Name(key.namespace, ConfigName(key, cr.spec));
    if name in l.shared.configs && l.shared.orgs.First(0, OrgSought(key, true, l.shared.configs[name])).Some? {
      DroppingPass(key, l, l.shared.orgs.First(0, OrgSought(key, true, l.shared.configs[name])).value, text, now);
    } else {
      UnpreparedTeardown(key, l, text, now);
    }
  }

  /** A Bucket goes exactly when its config is missing, or credential and organization are
      there and the organization has no bucket of its name. In particular it stays, and its
      pass fails, for as long as the config exists and the organization does not. */
  lemma BucketGoesExactlyWhen(key: Key, l: Local, text: string, now: nat)
    requires key.kind == BucketKind
    requires BeingDeleted(l) && l.slot.Last().value.status.phase == Terminating
    ensures var name, r := Name(key.namespace, "default"), Pass(key, l, text, now);
      && (r.slot.Last().None? <==>
            name in l.shared.configs ==>
              var config := l.shared.configs[name];
              var org := l.shared.orgs.First(0, config.orgName);
              && Name(config.secretNamespace, config.secretName) in l.shared.secrets
              && org.Some? && l.shared.buckets.First(org.value, key.name).None?)
      && (name in l.shared.configs && l.shared.orgs.First(0, l.shared.configs[name].orgName).None? ==>
            r.slot.versions == l.slot.versions && r.shared == l.shared && r.proc == Idle(Failed))
  {
    TeardownDropsExactlyWhen(key, l, text, now);
    var name := Name(key.namespace, "default");
    if name in l.shared.configs && l.shared.orgs.First(0, l.shared.configs[name].orgName).None? {
      UnpreparedTeardown(key, l, text, now);
    }
  }

  /******* A run that leaks *******/

  /** An undisturbed pass goes on with a run. */
  lemma GoOn(s: State, actions: seq<Action>, key: Key, text: string, now: nat) returns (more: seq<Action>)
    requires s.WellFormed() && Quiescent(Run(s, actions), key)
    ensures Quiescent(Run(s, more), key)
    ensures Run(s, more).View(key) == Pass(key, Run(s, actions).View(key), text, now)
  {
    var answers := PassIsRun(key, Run(s, actions), text, now);
    var pass := [LatestRead(Run(s, actions), key, now)] + answers;
    more := actions + pass;
    RunConcat(s, actions, pass);
  }

  const TOKEN: Key := Key(TokenKind, "ns", "t")
  const SPEC: Spec := Spec("c", "out", [], 0, "")
  const PLACE: Name := Name("ns", "c")
  const BEFORE: Config := Config("a", "ns", "admin")
  const AFTER: Config := Config("b", "ns", "admin")
  const OFFICE: Table := Table(
    [Row(0, Some("a"), None, OrganizationData), Row(0, Some("b"), None, OrganizationData)], map[])

  /** Two organizations, and a config that leads to the first. */
  const START: State := State(map[], map[], {},
    Shared(map[PLACE := BEFORE], map[Name("ns", "admin") := Secret(0, map[])], 1,
           OFFICE, Table([], map[]), Table([], map[])))

  lemma OfficeHas()
    ensures OFFICE.First(0, "a") == Some(0) && OFFICE.First(0, "b") == Some(1)
  {
    assert OFFICE.Hit(0, 0, "a") && OFFICE.Hit(1, 0, "b") && !OFFICE.Hit(0, 0, "b");
  }

  /** Two passes give the Token its finalizer and its first status. */
  lemma TokenIsInitialized(s: State, actions: seq<Action>) returns (more: seq<Action>)
    requires s.WellFormed()
    requires var r := Run(s, actions);
      && Quiescent(r, TOKEN) && r.shared == START.shared
      && r.SlotOf(TOKEN).Last() == Some(Resource("u", false, false, SPEC, BLANK))
    ensures var r := Run(s, more);
      && Quiescent(r, TOKEN) && r.shared == START.shared
      && r.SlotOf(TOKEN).Last() == Some(Resource("u", false, true, SPEC, InitialStatus(0)))
  {
    var first := GoOn(s, actions, TOKEN, "", 0);
    FinalizerPass(TOKEN, Run(s, actions).View(TOKEN), "", 0);
    more := GoOn(s, first, TOKEN, "", 0);
    InitializingPass(TOKEN, Run(s, first).View(TOKEN), "", 0);
  }

  /** A third pass creates its authorization. */
  lemma TokenGetsReady(s: State, actions: seq<Action>) returns (more: seq<Action>)
    requires s.WellFormed()
    requires var r := Run(s, actions);
      && Quiescent(r, TOKEN) && r.shared == START.shared
      && r.SlotOf(TOKEN).Last() == Some(Resource("u", false, true, SPEC, InitialStatus(0)))
    ensures var r := Run(s, more);
      && Quiescent(r, TOKEN) && Alive(r.View(TOKEN))
      && var cr := r.SlotOf(TOKEN).Last().value;
         && cr.uid == "u" && cr.finalizer && cr.spec == SPEC && cr.status.phase == Ready
         && r.shared == Repaired(TOKEN, START.shared, cr, 0, "x")
  {
    more := GoOn(s, actions, TOKEN, "x", 0);
    OfficeHas();
    assert InitialStatus(0).conditions[0].reason == FinalizerAdded;
    assert !Mentions(InitialStatus(0).conditions, Created(TokenKind));
    WorkingPass(TOKEN, Run(s, actions).View(TOKEN), 0, "x", 0);
  }

  /** The two passes that end the life of the Token after its config has been changed. */
  lemma TokenGoes(s: State, actions: seq<Action>, cr: Resource) returns (more: seq<Action>)
    requires s.WellFormed()
    requires var r := Run(s, actions);
      && Quiescent(r, TOKEN) && r.SlotOf(TOKEN).Last() == Some(cr)
      && cr.uid == "u" && cr.deleting && cr.finalizer && cr.spec == SPEC && cr.status.phase == Ready
      && Prepared(TOKEN, r.shared, cr, 1) && FirstLeft(TOKEN, r.shared, cr, 1).None?
    ensures Run(s, more).shared == Run(s, actions).shared && Vanished(Run(s, more).SlotOf(TOKEN), "u")
  {
    var first := GoOn(s, actions, TOKEN, "", 0);
    MarkingPass(TOKEN, Run(s, actions).View(TOKEN), "", 0);
    more := GoOn(s, first, TOKEN, "", 0);
    DroppingPass(TOKEN, Run(s, first).View(TOKEN), 1, "", 0);
    var versions := Run(s, more).SlotOf(TOKEN).versions;
    assert versions[|versions| - 2].value.uid == "u";
  }

  /** The user creates the Token. */
  lemma TokenAppears()
    ensures Initial(START) && START.WellFormed() && Run(START, [UserCreate(TOKEN, "u", SPEC)]).shared == START.shared
    ensures var r := Run(START, [UserCreate(TOKEN, "u", SPEC)]);
      Quiescent(r, TOKEN) && r.SlotOf(TOKEN).Last() == Some(Resource("u", false, false, SPEC, BLANK))
  {
    RunExtend(START, [], UserCreate(TOKEN, "u", SPEC));
    assert [] + [UserCreate(TOKEN, "u", SPEC)] == [UserCreate(TOKEN, "u", SPEC)];
    assert NoDots("u") && NoDots("ns");
  }

  /** The config is changed to name the other organization, and the Token is deleted. */
  lemma TokenIsDoomed(s: State, actions: seq<Action>)
    requires s.WellFormed()
    requires var r := Run(s, actions);
      && Quiescent(r, TOKEN) && Alive(r.View(TOKEN)) && r.SlotOf(TOKEN).Last().value.finalizer
    ensures var r := Run(s, actions);
      var next := Run(s, actions + [SetConfig(PLACE, Some(AFTER))] + [UserDelete(TOKEN)]);
      && Quiescent(next, TOKEN)
      && next.SlotOf(TOKEN).Last() == Some(r.SlotOf(TOKEN).Last().value.(deleting := true))
      && next.shared == r.shared.(configs := r.shared.configs[PLACE := AFTER])
  {
    RunExtend(s, actions, SetConfig(PLACE, Some(AFTER)));
    RunExtend(s, actions + [SetConfig(PLACE, Some(AFTER))], UserDelete(TOKEN));
  }

  /** What the server then has for the Token is not where the teardown looks. */
  lemma TokenIsOverlooked(ready: Resource, gone: Resource)
    requires ready.uid == gone.uid == "u" && ready.spec == gone.spec == SPEC
    ensures var shared := Repaired(TOKEN, START.shared, ready, 0, "x");
      var after := shared.(configs := shared.configs[PLACE := AFTER]);
      && Prepared(TOKEN, after, gone, 1) && FirstLeft(TOKEN, after, gone, 1).None?
      && Owned(after, Owner(TOKEN, "u"), 0)
  {
    OfficeHas();
    assert Missing(TOKEN, START.shared, ready, 0);
  }

  /** A run in which nothing fails and which leaks: a Token gets its authorization, its config
      is changed to name another organization, and the Token is deleted. */
  lemma LeakIsReachable() returns (actions: seq<Action>, i: nat)
    ensures Initial(START)
    ensures var r := Run(START, actions);
      Vanished(r.SlotOf(TOKEN), "u") && Owned(r.shared, Owner(TOKEN, "u"), i)
  {
    TokenAppears();
    var initialized := TokenIsInitialized(START, [UserCreate(TOKEN, "u", SPEC)]);
    var ready := TokenGetsReady(START, initialized);
    var cr := Run(START, ready).SlotOf(TOKEN).Last().value;
    TokenIsDoomed(START, ready);
    TokenIsOverlooked(cr, cr.(deleting := true));
    actions := TokenGoes(START, ready + [SetConfig(PLACE, Some(AFTER))] + [UserDelete(TOKEN)], cr.(deleting := true));
    i := 0;
  }
}
