/** What the proofs have to put up with: how calls can turn out, how far a reader may lag, and
    what users and outsiders may do at any time. */
module Environment {
  import opened Types
  import opened Tables
  import opened Protocol

  /** A call whose reply is lost has the whole effect of an answered one, and a refused call
      has none; both look like failures. */
  lemma FailuresMayTakeEffect(key: Key, l: Local, text: string, now: nat)
    requires |l.slot.versions| > 0 && l.proc.At?
    ensures var answered, lost := Fire(key, l, Reply(text, now)), Fire(key, l, Lost(text, now));
      lost.slot == answered.slot && lost.shared == answered.shared && lost.proc == Idle(Failed)
    ensures Fire(key, l, Refused) == l.(proc := Idle(Failed))
  {
  }

  /** A pass may begin with any version that is not older than what its reader has seen. */
  lemma ReadsMayLag(s: State, key: Key, index: nat, now: nat)
    requires s.WellFormed() && s.ProcOf(key).Idle?
    requires s.SlotOf(key).seen <= index < |s.SlotOf(key).versions|
    ensures var r := Apply(s, Step(key, Read(index, now)));
      && r.SlotOf(key) == s.SlotOf(key).(seen := index) && r.shared == s.shared
      && r.ProcOf(key) == match s.SlotOf(key).versions[index]
                          case Some(cr) => BeginPass(cr, index, now)
                          case None => Idle(NoRequeue)
  {
  }

  /** A crash ends a pass at any call, and changes nothing else. */
  lemma CrashesEndPasses(s: State, key: Key)
    requires s.WellFormed() && s.ProcOf(key).At?
    ensures Apply(s, Crash(key)) == s.(procs := s.procs[key := Idle(Crashed)])
  {
  }

  /** Outsiders change configs and secrets as they like; a secret gets a new version. */
  lemma OutsidersWorkOnCluster(s: State, name: Name, config: Config, data: map<string, string>)
    requires s.WellFormed()
    ensures Apply(s, SetConfig(name, Some(config)))
         == s.(shared := s.shared.(configs := s.shared.configs[name := config]))
    ensures Apply(s, SetConfig(name, None)) == s.(shared := s.shared.(configs := s.shared.configs - {name}))
    ensures Apply(s, SetSecret(name, None)) == s.(shared := s.shared.(secrets := s.shared.secrets - {name}))
    ensures var r := Apply(s, SetSecret(name, Some(data)));
      && r == s.(shared := r.shared)
      && r.shared == s.shared.(secrets := s.shared.secrets[name := Secret(s.shared.stamps, data)],
                               stamps := s.shared.stamps + 1)
  {
  }

  /** Outsiders remove what they like from the server. */
  lemma OutsidersRemove(s: State, id: nat)
    requires s.WellFormed()
    ensures OnlyGone(s.shared.auths, Apply(s, DropAuth(id)).shared.auths, id)
    ensures OnlyGone(s.shared.buckets, Apply(s, DropBucket(id)).shared.buckets, id)
    ensures OnlyGone(s.shared.orgs, Apply(s, DropOrg(id)).shared.orgs, id)
  {
    RemovalTakesOne(s.shared.auths, id);
    RemovalTakesOne(s.shared.buckets, id);
    RemovalTakesOne(s.shared.orgs, id);
  }

  /** The rows are what they were, and all but this one that were live still are. */
  ghost predicate OnlyGone(before: Table, after: Table, id: nat) {
    after.rows == before.rows && forall i: nat :: after.Live(i) <==> before.Live(i) && i != id
  }

  lemma RemovalTakesOne(table: Table, id: nat)
    ensures OnlyGone(table, if table.Live(id) then table.Remove(id, Outsider) else table, id)
  {
  }

  /** Outsiders add authorizations with any description, taken or not; buckets and
      organizations as long as their name is free. */
  lemma OutsidersAdd(s: State, org: nat, title: string, token: Option<string>, grants: seq<Grant>,
                     every: int, about: string)
    requires s.WellFormed()
    ensures Apply(s, AddAuth(org, Some(title), token, grants)).shared.auths.rows
         == s.shared.auths.rows + [Row(org, Some(title), None, AuthorizationData(token, grants))]
    ensures s.shared.buckets.First(org, title).None? ==>
      Apply(s, AddBucket(org, title, every, about)).shared.buckets.rows
      == s.shared.buckets.rows + [Row(org, Some(title), None, BucketData(every, about))]
    ensures s.shared.orgs.First(0, title).None? ==>
      Apply(s, AddOrg(title)).shared.orgs.rows == s.shared.orgs.rows + [Row(0, Some(title), None, OrganizationData)]
  {
  }
}
