/** The two stores the operator works on, the environment that works on them too, and the
    remote calls through which a pass reaches them. The log of a `World` is a run of the
    state machine, and every call extends it by what others did and one step of its pass. */
module Servers {
  import opened Types
  import opened Tables
  import opened Protocol
  import opened PassShape
  import opened Passes

  /** The Kubernetes API server. */
  class Cluster {
    var slots: map<Key, Slot>
    var configs: map<Name, Config>
    var secrets: map<Name, Secret>
    var stamps: nat
    var used: set<Uid>

    constructor (s: State)
      ensures slots == s.slots && configs == s.shared.configs && secrets == s.shared.secrets
      ensures stamps == s.shared.stamps && used == s.used
    {
      slots, used := s.slots, s.used;
      configs, secrets, stamps := s.shared.configs, s.shared.secrets, s.shared.stamps;
    }
  }

  /** The InfluxDB server. */
  class Influx {
    var orgs: Table
    var auths: Table
    var buckets: Table

    constructor (s: State)
      ensures orgs == s.shared.orgs && auths == s.shared.auths && buckets == s.shared.buckets
    {
      orgs, auths, buckets := s.shared.orgs, s.shared.auths, s.shared.buckets;
    }
  }

  /** What happens before a call arrives, and how the call turns out. */
  datatype Turn = Turn(before: seq<Action>, outcome: Outcome)

  /** What a caller learns from a call. */
  datatype Answer<T> = Found(value: T) | Missing | Error

  /** The answer to a read by name. */
  function Looked<T>(store: map<Name, T>, name: Name): Answer<T> {
    if name in store then Found(store[name]) else Missing
  }

  /** A listed row together with its number. */
  datatype Listed = Listed(id: nat, row: Row)

  function ListFrom(table: Table, parent: nat, from: nat): seq<Listed>
    decreases |table.rows| - from
  {
    if from >= |table.rows| then []
    else (if table.Live(from) && table.rows[from].parent == parent then [Listed(from, table.rows[from])] else [])
         + ListFrom(table, parent, from + 1)
  }

  /** The listing is complete: it has the live rows of the parent and no others. */
  lemma {:induction false} ListingIsComplete(table: Table, parent: nat, from: nat, listed: Listed)
    ensures listed in ListFrom(table, parent, from) <==>
      && from <= listed.id && table.Live(listed.id)
      && table.rows[listed.id].parent == parent && listed.row == table.rows[listed.id]
    decreases |table.rows| - from
  {
    if from < |table.rows| {
      ListingIsComplete(table, parent, from + 1, listed);
    }
  }

  /** Where a search loop over a listing stops; the length when nothing has the title. */
  function FirstTitled(listing: seq<Listed>, title: string): (i: nat)
    ensures i <= |listing|
    ensures i < |listing| ==> listing[i].row.title == Some(title)
    ensures forall j | 0 <= j < i :: listing[j].row.title != Some(title)
  {
    if listing == [] || listing[0].row.title == Some(title) then 0 else 1 + FirstTitled(listing[1..], title)
  }

  /** What the search finds. */
  function FirstIn(listing: seq<Listed>, title: string): Option<Listed> {
    var i := FirstTitled(listing, title);
    if i < |listing| then Some(listing[i]) else None
  }

  lemma FirstInCons(first: Listed, rest: seq<Listed>, title: string)
    ensures FirstIn([first] + rest, title) == if first.row.title == Some(title) then Some(first)
        else FirstIn(rest, title)
  {
    assert ([first] + rest)[1..] == rest;
  }

  /** Searching the listing finds the same row as searching the table. */
  lemma {:induction false} ListingFindsFirst(table: Table, parent: nat, title: string, from: nat)
    ensures FirstIn(ListFrom(table, parent, from), title) ==
      match table.FirstFrom(parent, title, from)
      case Some(i) => Some(Listed(i, table.rows[i]))
      case None => None
    decreases |table.rows| - from
  {
    if from < |table.rows| {
      ListingFindsFirst(table, parent, title, from + 1);
      var rest := ListFrom(table, parent, from + 1);
      if table.Live(from) && table.rows[from].parent == parent {
        FirstInCons(Listed(from, table.rows[from]), rest, title);
      } else {
        assert ListFrom(table, parent, from) == rest;
      }
    }
  }

  /** Whatever happens between two calls of a pass is not a step of that pass. */
  predicate Foreign(a: Action, key: Key) {
    !(a.Step? && a.key == key) && !(a.Crash? && a.key == key)
  }

  /** Those of the actions that are not steps of the pass for `key`. */
  function Others(actions: seq<Action>, key: Key): seq<Action> {
    if actions == [] then []
    else
      var n := |actions| - 1;
      Others(actions[..n], key) + if Foreign(actions[n], key) then [actions[n]] else []
  }

  /** Calls that change nothing on either server. */
  predicate Reading(point: Point) {
    point.GetConfig? || point.GetCredential? || point.FindOrg? || point.ListAuths? || point.ListBuckets?
        || point.ReadSecret?
  }

  lemma ReadingLeavesStores(key: Key, l: Local, o: Outcome)
    requires |l.slot.versions| > 0 && l.proc.At? && Reading(l.proc.point)
    ensures Fire(key, l, o).slot == l.slot && Fire(key, l, o).shared == l.shared
  {
  }

  /** The stores after a step, with the record of the pass left aside. */
  function Stores(s: State, key: Key, o: Outcome): State
    requires s.WellFormed()
  {
    Apply(s, Step(key, o)).(procs := s.procs)
  }

  /** The version that was read is still the stored one. */
  predicate Current(slot: Slot, version: nat) {
    |slot.versions| > 0 && version + 1 == |slot.versions| && slot.Last().Some?
  }

  /** What is stored after an update: nothing, when a deleted resource has lost its finalizer. */
  function Stored(before: Resource, cr: Resource, status: bool): Option<Resource> {
    var next := if status then before.(status := cr.status) else before.(finalizer := cr.finalizer);
    if next.deleting && !next.finalizer then None else Some(next)
  }

  /** The read of a pass that fits what the reader has seen; any other is refused. */
  predicate Readable(slot: Slot, o: Outcome) {
    o.Read? && slot.seen <= o.index < |slot.versions|
  }

  function VersionAt(slot: Slot, index: nat): Answer<(Resource, nat)>
    requires index < |slot.versions|
  {
    match slot.versions[index]
    case Some(cr) => Found((cr, index))
    case None => Missing
  }

  lemma GetResourceEffect(key: Key, s: State, o: Outcome)
    requires s.WellFormed() && s.ProcOf(key).Idle? && (o.Refused? || Readable(s.SlotOf(key), o))
    ensures var slot := s.SlotOf(key);
      && Stores(s, key, o) == (
           if o.Refused? || slot.seen == o.index then s
           else s.(slots := s.slots[key := slot.(seen := o.index)]))
      && Fire(key, s.View(key), o).proc == (
           if o.Refused? then Idle(Failed)
           else match slot.versions[o.index]
                case Some(cr) => BeginPass(cr, o.index, o.now)
                case None => Idle(NoRequeue))
  {
  }

  lemma CreateAuthorizationEffect(key: Key, s: State, o: Outcome)
    requires s.WellFormed() && s.ProcOf(key).At? && s.ProcOf(key).point.CreateAuth? && !o.Read?
    ensures var At(cr, version, _, point) := s.ProcOf(key);
      && Stores(s, key, o) == (
           if o.Refused? then s
           else s.(shared := s.shared.(auths := s.shared.auths.Insert(NewAuth(key, cr, point.org, o.text)))))
      && Fire(key, s.View(key), o).proc == (
           if o.Reply? then At(cr, version, Some(|s.shared.auths.rows|), CreateSecret(o.text, true)) else Idle(Failed))
  {
  }

  /** A taken name leaves the stores alone. */
  lemma CreateBucketEffect(key: Key, s: State, o: Outcome)
    requires s.WellFormed() && s.ProcOf(key).At? && s.ProcOf(key).point.CreateBucket? && !o.Read?
    ensures var At(cr, version, tokenId, point) := s.ProcOf(key);
      var taken := s.shared.buckets.First(point.org, key.name).Some?;
      && Stores(s, key, o) == (
           if o.Refused? || taken then s
           else s.(shared := s.shared.(buckets := s.shared.buckets.Insert(NewBucket(key, cr, point.org)))))
      && Fire(key, s.View(key), o).proc == (
           if o.Reply? then FinishResources(key.kind, cr, version, tokenId, !taken, SaveStatus, o.now)
           else Idle(Failed))
  {
  }

  lemma CreateOrganizationEffect(key: Key, s: State, o: Outcome)
    requires s.WellFormed() && s.ProcOf(key).At? && s.ProcOf(key).point.CreateOrg? && !o.Read?
    ensures var At(cr, version, tokenId, _) := s.ProcOf(key);
      var taken := s.shared.orgs.First(0, key.name).Some?;
      && Stores(s, key, o) == (
           if o.Refused? || taken then s
           else s.(shared := s.shared.(orgs := s.shared.orgs.Insert(NewOrg(key, cr)))))
      && Fire(key, s.View(key), o).proc == (
           if o.Reply? then FinishResources(key.kind, cr, version, tokenId, !taken, SaveStatus, o.now)
           else Idle(Failed))
  {
  }

  /** A pass that searches the listed buckets acts on the row the step picks. */
  lemma BucketListingAnswer(key: Key, l: Local, o: Outcome)
    requires |l.slot.versions| > 0 && l.proc.At? && l.proc.point.ListBuckets? && !o.Read?
    ensures var listing := ListFrom(l.shared.buckets, l.proc.point.org, 0);
      var i := FirstTitled(listing, key.name);
      Fire(key, l, o).proc ==
        if !o.Reply? then Idle(Failed)
        else if i < |listing| then l.proc.(point := DeleteBucket(listing[i].id))
        else DropFinalizer(l.proc.cr, l.proc.version)
  {
    ListingFindsFirst(l.shared.buckets, l.proc.point.org, key.name, 0);
  }

  lemma DeleteEffect(key: Key, s: State, o: Outcome, id: nat)
    requires s.WellFormed() && s.ProcOf(key).At? && !o.Read?
    requires var p := s.ProcOf(key);
      p.point == DeleteBucket(id) || p.point == DeleteOrg(id) || (p.point == DeleteAuth && p.tokenId == Some(id))
    ensures var At(cr, version, tokenId, point) := s.ProcOf(key);
      var table := match point
        case DeleteAuth => s.shared.auths
        case DeleteBucket(_) => s.shared.buckets
        case _ => s.shared.orgs;
      var next := table.Remove(id, Operator);
      && Stores(s, key, o) == (
           if o.Refused? || !table.Live(id) then s
           else s.(shared := match point
             case DeleteAuth => s.shared.(auths := next)
             case DeleteBucket(_) => s.shared.(buckets := next)
             case _ => s.shared.(orgs := next)))
      && Fire(key, s.View(key), o).proc == (
           if o.Reply? && table.Live(id) then FinishTeardown(key.kind, cr, version, tokenId, o.now) else Idle(Failed))
  {
  }

  lemma CreateSecretEffect(key: Key, s: State, o: Outcome)
    requires s.WellFormed() && s.ProcOf(key).At? && s.ProcOf(key).point.CreateSecret? && !o.Read?
    ensures var name := SecretName(key, s.ProcOf(key).cr);
      Stores(s, key, o) ==
        if o.Refused? || name in s.shared.secrets then s
        else s.(shared := PutSecret(s.shared, name, map[KEY_TOKEN := s.ProcOf(key).point.token]))
    ensures var At(cr, version, tokenId, point) := s.ProcOf(key);
      Fire(key, s.View(key), o).proc ==
        if !o.Reply? then Idle(Failed)
        else if SecretName(key, cr) in s.shared.secrets then
            At(cr, version, tokenId, ReadSecret(point.token, point.created))
        else FinishResources(key.kind, cr, version, tokenId, point.created, Publish(point.token), o.now)
  {
  }

  lemma UpdateSecretEffect(key: Key, s: State, o: Outcome)
    requires s.WellFormed() && s.ProcOf(key).At? && s.ProcOf(key).point.WriteSecret? && !o.Read?
    ensures var name := SecretName(key, s.ProcOf(key).cr);
      Stores(s, key, o) ==
        if o.Refused? || name !in s.shared.secrets || s.shared.secrets[name].stamp != s.ProcOf(key).point.stamp then s
        else s.(shared := PutSecret(s.shared, name, map[KEY_TOKEN := s.ProcOf(key).point.token]))
    ensures var At(cr, version, tokenId, point) := s.ProcOf(key);
      var name := SecretName(key, cr);
      Fire(key, s.View(key), o).proc ==
        if o.Reply? && name in s.shared.secrets && s.shared.secrets[name].stamp == point.stamp
        then FinishResources(key.kind, cr, version, tokenId, point.created, Publish(point.token), o.now)
        else Idle(Failed)
  {
  }

  lemma SaveEffect(key: Key, s: State, o: Outcome)
    requires s.WellFormed() && s.ProcOf(key).At? && !o.Read?
    requires s.ProcOf(key).point.SaveObject? || s.ProcOf(key).point.SaveStatus? || s.ProcOf(key).point.Publish?
    ensures var At(cr, version, _, point) := s.ProcOf(key);
      var slot := s.SlotOf(key);
      && Stores(s, key, o) == (
           if o.Refused? || !Current(slot, version) then s
           else s.(slots := s.slots[key := slot.Append(Stored(slot.Last().value, cr, !point.SaveObject?))]))
      && Fire(key, s.View(key), o).proc == Idle(if o.Reply? && Current(slot, version) then NoRequeue else Failed)
  {
  }

  /** What is foreign to a pass does not move it. */
  lemma ForeignLeavesPass(s: State, a: Action, key: Key)
    requires s.WellFormed() && Foreign(a, key)
    ensures Apply(s, a).ProcOf(key) == s.ProcOf(key) && Apply(s, a).SlotOf(key).seen == s.SlotOf(key).seen
  {
  }

  /** The log leads from the origin to the state. It is said in terms of whatever agrees with
      the log, so that the run is looked into only where it is spoken of. */
  ghost predicate LeadsTo(origin: State, log: seq<Action>, s: State)
    requires origin.WellFormed()
  {
    forall actions {:trigger Run(origin, actions)} | log <= actions <= log :: s == Run(origin, actions)
  }

  /** What the caller of a phase or of a call may compare with afterwards. */
  datatype Mark = Mark(log: seq<Action>, quiet: bool, begun: nat)

  /** Rows are never taken back or changed. */
  predicate KeepsRows(before: Shared, after: Shared) {
    && before.auths.rows <= after.auths.rows
    && before.buckets.rows <= after.buckets.rows
    && before.orgs.rows <= after.orgs.rows
  }

  lemma FireKeepsRows(key: Key, l: Local, o: Outcome)
    requires |l.slot.versions| > 0
    ensures KeepsRows(l.shared, Fire(key, l, o).shared)
  {
    if l.proc.At? && (o.Reply? || o.Lost?) && !Reading(l.proc.point) {
      match l.proc.point
      case CreateAuth(_) =>
      case CreateBucket(_) =>
      case CreateOrg =>
      case DeleteAuth =>
      case DeleteBucket(_) =>
      case DeleteOrg(_) =>
      case SaveObject =>
      case SaveStatus =>
      case Publish(_) =>
      case _ =>
    }
  }

  lemma OutsideKeepsRows(shared: Shared, a: Action)
    ensures KeepsRows(shared, Outside(shared, a))
  {
  }

  lemma ApplyKeepsRows(s: State, a: Action)
    requires s.WellFormed()
    ensures KeepsRows(s.shared, Apply(s, a).shared)
  {
    if a.Step? {
      FireKeepsRows(a.key, s.View(a.key), a.outcome);
    } else {
      OutsideKeepsRows(s.shared, a);
    }
  }

  class World {
    const cluster: Cluster
    const influx: Influx
    /** How far the passes of all workers have got. */
    var procs: map<Key, Proc>
    /** The choices of the environment, in order. Once they run out nobody else acts, and
        calls turn out as `rest` says. */
    var turns: seq<Turn>
    const rest: Outcome
    var clock: nat
    ghost const origin: State
    ghost var log: seq<Action>
    /** How many passes have been begun. */
    ghost var begun: map<Key, nat>
    /** The latest call: the state in which it arrived, and how it turned out. */
    ghost var arrival: State
    ghost var outcome: Outcome

    function Now(): State
      reads this, cluster, influx
    {
      State(cluster.slots, procs, cluster.used,
            Shared(cluster.configs, cluster.secrets, cluster.stamps, influx.orgs, influx.auths, influx.buckets))
    }

    ghost predicate Valid()
      reads this, cluster, influx
    {
      Explains(Now())
    }

    /** The log explains how the servers came to be in this state. */
    ghost predicate Explains(s: State)
      reads this
    {
      && origin.WellFormed() && s.WellFormed() && LeadsTo(origin, log, s)
      && forall key: Key {:trigger CountStarts(origin, log, key)} :: CountStarts(origin, log, key) == Begun(key)
    }

    function ProcOf(key: Key): Proc
      reads this
    {
      if key in procs then procs[key] else Idle(NoRequeue)
    }

    ghost function Begun(key: Key): nat
      reads this
    {
      if key in begun then begun[key] else 0
    }

    /** Nobody disturbs what follows, and every call is answered. */
    predicate Quiet()
      reads this
    {
      turns == [] && rest.Reply?
    }

    ghost function Here(key: Key): Mark
      reads this
    {
      Mark(log, Quiet(), Begun(key))
    }

    /** Since the mark, the pass for `key` has gone on and none has been begun; if it was quiet
        it still is, and calls of that pass are all that has happened. */
    ghost predicate Since(key: Key, mark: Mark)
      reads this, cluster, influx
    {
      && Valid() && mark.log <= log && Begun(key) == mark.begun
      && (mark.quiet ==> Quiet() && forall i | |mark.log| <= i < |log| :: log[i] == Step(key, rest))
    }

    /** Since the mark, others have acted and then the pass for `key` has made one call, which
        found the servers in the state `arrival` and turned out as `outcome`. */
    ghost predicate OneCall(key: Key, mark: Mark)
      reads this, cluster, influx
    {
      Since(key, mark) && exists others: seq<Action> :: CallAfter(key, mark, others)
    }

    ghost predicate CallAfter(key: Key, mark: Mark, others: seq<Action>)
      requires origin.WellFormed()
      reads this
    {
      && log == mark.log + others + [Step(key, outcome)] && LeadsTo(origin, mark.log + others, arrival)
      && arrival.WellFormed() && (forall a | a in others :: Foreign(a, key))
      && !outcome.Read? && (mark.quiet ==> others == [] && outcome == rest)
    }

    /** The environment has had its turn: since the mark, only others have acted. */
    ghost predicate Arrived(key: Key, mark: Mark)
      reads this
    {
      && Explains(arrival) && mark.log <= log && (forall i | |mark.log| <= i < |log| :: Foreign(log[i], key))
      && Begun(key) == mark.begun
      && (mark.quiet ==> Quiet() && log == mark.log)
    }

    /** All that is going to happen is a pass for `key` that reads the latest version. */
    ghost predicate Undisturbed(key: Key)
      requires Now().WellFormed()
      reads this, cluster, influx
    {
      && rest.Reply? && Quiescent(Now(), key)
      && turns == [Turn([], LatestRead(Now(), key, rest.now).outcome)]
    }

    /** The call has left the servers as it found them, but for what `shared` says. */
    ghost predicate Leaves(shared: Shared)
      reads this, cluster, influx
    {
      Now() == arrival.(procs := procs, shared := shared)
    }

    constructor (s: State, choices: seq<Turn>, rest: Outcome)
      requires s.WellFormed()
      ensures Valid() && Now() == s && log == [] && origin == s && turns == choices && this.rest == rest
      ensures fresh(cluster) && fresh(influx)
    {
      cluster := new Cluster(s);
      influx := new Influx(s);
      procs, turns, clock := s.procs, choices, 0;
      this.rest := rest;
      origin, log, begun := s, [], map[];
    }

    /** Writes down an action. */
    ghost method Note(s: State, a: Action)
      requires Explains(s)
      modifies this`log, this`begun
      ensures Explains(Apply(s, a)) && log == old(log) + [a]
      ensures begun == if BeginsPass(s, a) then old(begun)[a.key := old(Begun(a.key)) + 1] else old(begun)
    {
      ApplyKeepsWellFormed(s, a);
      assert s == Run(origin, log);
      RunExtend(origin, log, a);
      forall key: Key ensures CountStarts(origin, log, key) == Begun(key)
        && CountStarts(origin, log + [a], key) == Begun(key) + (if BeginsPass(s, a) && a.key == key then 1 else 0)
      {
        StartsExtend(origin, log, a, key);
      }
      if BeginsPass(s, a) {
        begun := begun[a.key := Begun(a.key) + 1];
      }
      log := log + [a];
      forall actions: seq<Action> | log <= actions <= log ensures Apply(s, a) == Run(origin, actions) {
        assert actions == log;
      }
    }

    /** The action begins a pass. */
    static predicate BeginsPass(s: State, a: Action) {
      a.Step? && s.ProcOf(a.key).Idle?
    }

    /** Others act. */
    method Act(a: Action)
      requires Valid()
      modifies this`procs, this`log, this`begun, cluster, influx
      ensures Valid() && log == old(log) + [a] && Now() == Apply(old(Now()), a)
      ensures forall key: Key | Foreign(a, key) ::
        && ProcOf(key) == old(ProcOf(key)) && Begun(key) == old(Begun(key))
        && Now().SlotOf(key).seen == old(Now().SlotOf(key).seen)
      ensures KeepsRows(old(Now().shared), Now().shared)
    {
      forall key: Key | Foreign(a, key)
        ensures Apply(Now(), a).ProcOf(key) == ProcOf(key)
        ensures Apply(Now(), a).SlotOf(key).seen == Now().SlotOf(key).seen
      {
        ForeignLeavesPass(Now(), a, key);
      }
      var s := Apply(Now(), a);
      ApplyKeepsRows(Now(), a);
      Note(Now(), a);
      cluster.slots, cluster.used, procs := s.slots, s.used, s.procs;
      cluster.configs, cluster.secrets, cluster.stamps := s.shared.configs, s.shared.secrets, s.shared.stamps;
      influx.orgs, influx.auths, influx.buckets := s.shared.orgs, s.shared.auths, s.shared.buckets;
      assert Now() == s;
    }

    /** Others act, one after the other, except on the pass for `key`. */
    method ActAll(key: Key, actions: seq<Action>)
      requires Valid()
      modifies this`procs, this`log, this`begun, cluster, influx
      ensures Valid() && old(log) <= log && (forall i | |old(log)| <= i < |log| :: Foreign(log[i], key))
      ensures ProcOf(key) == old(ProcOf(key)) && Begun(key) == old(Begun(key))
      ensures Now().SlotOf(key).seen == old(Now().SlotOf(key).seen) && KeepsRows(old(Now().shared), Now().shared)
      ensures log == old(log) + Others(actions, key)
      ensures actions == [] ==> Now() == old(Now())
    {
      for i := 0 to |actions|
        invariant log == old(log) + Others(actions[..i], key)
        invariant Valid() && old(log) <= log && (forall j | |old(log)| <= j < |log| :: Foreign(log[j], key))
        invariant ProcOf(key) == old(ProcOf(key)) && Begun(key) == old(Begun(key))
        invariant Now().SlotOf(key).seen == old(Now().SlotOf(key).seen)
        invariant KeepsRows(old(Now().shared), Now().shared)
        invariant i == 0 ==> Now() == old(Now())
      {
        assert actions[..i + 1][..i] == actions[..i];
        if Foreign(actions[i], key) {
          Act(actions[i]);
        }
      }
      assert actions[..|actions|] == actions;
    }

    /** The environment takes its turn before the next call of the pass for `key`. */
    method Interlude(key: Key) returns (o: Outcome)
      requires Valid()
      modifies this`procs, this`log, this`begun, this`turns, this`arrival, cluster, influx
      ensures Valid() && arrival == Now() && Arrived(key, old(Here(key)))
      ensures ProcOf(key) == old(ProcOf(key)) && Now().SlotOf(key).seen == old(Now().SlotOf(key).seen)
      ensures KeepsRows(old(Now().shared), Now().shared)
      ensures if old(turns) == [] then turns == [] && o == rest && log == old(log)
              else && turns == old(turns[1..]) && o == old(turns[0].outcome)
                   && log == old(log) + Others(old(turns[0].before), key)
      ensures old(Undisturbed(key)) ==> Now() == old(Now())
    {
      o := rest;
      if |turns| > 0 {
        var turn := turns[0];
        turns := turns[1..];
        ActAll(key, turn.before);
        o := turn.outcome;
      }
      arrival := Now();
    }

    /** The same before a call other than the read of the resource, where an unfitting choice
        is a refusal. */
    method Arrive(key: Key) returns (o: Outcome, before: State)
      requires Valid()
      modifies this`procs, this`log, this`begun, this`turns, this`arrival, cluster, influx
      ensures Valid() && before == arrival == Now() && Arrived(key, old(Here(key)))
      ensures ProcOf(key) == old(ProcOf(key)) && KeepsRows(old(Now().shared), Now().shared)
      ensures var choice := if old(turns) == [] then rest else old(turns[0].outcome);
        o == if choice.Read? then Refused else choice
    {
      o := Interlude(key);
      if o.Read? {
        o := Refused;
      }
      before := Now();
    }

    /** The same before the read of the resource. */
    method ArriveToRead(key: Key) returns (o: Outcome, before: State)
      requires Valid()
      modifies this`procs, this`log, this`begun, this`turns, this`arrival, cluster, influx
      ensures Valid() && before == arrival == Now() && Arrived(key, old(Here(key)))
      ensures ProcOf(key) == old(ProcOf(key)) && Now().SlotOf(key).seen == old(Now().SlotOf(key).seen)
      ensures var choice := if old(turns) == [] then rest else old(turns[0].outcome);
        o == if Readable(before.SlotOf(key), choice) then choice else Refused
      ensures old(Undisturbed(key)) ==>
          Quiet() && log == old(log) && Step(key, o) == LatestRead(old(Now()), key, rest.now)
    {
      o := Interlude(key);
      before := Now();
      if !Readable(before.SlotOf(key), o) {
        o := Refused;
      }
    }

    /** The pass for `key` has made its call and the stores show the effect: record the step. */
    method Record(key: Key, o: Outcome, before: State)
      requires Explains(before) && Now() == Stores(before, key, o)
      modifies this`procs, this`log, this`begun, this`clock, this`outcome
      ensures Valid() && log == old(log) + [Step(key, o)] && outcome == o
      ensures procs == before.procs[key := Fire(key, before.View(key), o).proc]
      ensures !o.Refused? ==> clock == o.now
      ensures Begun(key) == old(Begun(key)) + if before.ProcOf(key).Idle? then 1 else 0
    {
      Note(before, Step(key, o));
      procs := procs[key := Fire(key, before.View(key), o).proc];
      outcome := o;
      if !o.Refused? {
        clock := o.now;
      }
      assert Now() == Apply(before, Step(key, o));
    }

    /** The same for a call of a pass under way. */
    method Conclude(key: Key, o: Outcome, before: State, ghost mark: Mark)
      requires Arrived(key, mark) && before == arrival && before.ProcOf(key).At?
      requires !o.Read? && (mark.quiet ==> o == rest)
      requires Now() == Stores(before, key, o)
      modifies this`procs, this`log, this`begun, this`clock, this`outcome
      ensures OneCall(key, mark) && outcome == o
      ensures procs == before.procs[key := Fire(key, before.View(key), o).proc]
      ensures !o.Refused? ==> clock == o.now
    {
      Record(key, o, before);
      ghost var others := old(log)[|mark.log|..];
      assert mark.log + others == old(log);
      assert CallAfter(key, mark, others);
    }

    /** A call that only reads: what the servers held when it arrived, and how it turned out. */
    method Consult(key: Key) returns (o: Outcome, before: State)
      requires Valid() && ProcOf(key).At? && Reading(ProcOf(key).point)
      modifies this, cluster, influx
      ensures OneCall(key, old(Here(key))) && Leaves(arrival.shared)
      ensures before == arrival && o == outcome && before.ProcOf(key) == old(ProcOf(key))
      ensures ProcOf(key) == Fire(key, before.View(key), o).proc
      ensures !o.Refused? ==> clock == o.now
    {
      o, before := Arrive(key);
      ReadingLeavesStores(key, before.View(key), o);
      Conclude(key, o, before, old(Here(key)));
    }

    /******* Reads of the API server *******/

    method GetConfig(key: Key, name: Name) returns (r: Answer<Config>)
      requires Valid() && ProcOf(key).At? && ProcOf(key).point.GetConfig?
      requires name == Name(key.namespace, ConfigName(key, ProcOf(key).cr.spec))
      modifies this, cluster, influx
      ensures OneCall(key, old(Here(key))) && Leaves(arrival.shared)
      ensures r == if !outcome.Reply? then Error else Looked(arrival.shared.configs, name)
      ensures var p := old(ProcOf(key));
        ProcOf(key) == match r
          case Found(config) => p.(point := Point.GetCredential(p.point.teardown, config))
          case Missing => if p.point.teardown then DropFinalizer(p.cr, p.version) else Idle(Failed)
          case Error => Idle(Failed)
    {
      var o, before := Consult(key);
      r := if !o.Reply? then Error else Looked(before.shared.configs, name);
    }

    method GetCredential(key: Key, name: Name) returns (r: Answer<Secret>)
      requires Valid() && ProcOf(key).At? && ProcOf(key).point.GetCredential?
      requires name == Name(ProcOf(key).point.config.secretNamespace, ProcOf(key).point.config.secretName)
      modifies this, cluster, influx
      ensures OneCall(key, old(Here(key))) && Leaves(arrival.shared)
      ensures r == if !outcome.Reply? then Error else Looked(arrival.shared.secrets, name)
      ensures var p := old(ProcOf(key));
        ProcOf(key) ==
          if r.Found? then p.(point := Point.FindOrg(p.point.teardown, p.point.config)) else Idle(Failed)
    {
      var o, before := Consult(key);
      r := if !o.Reply? then Error else Looked(before.shared.secrets, name);
    }

    /** The secret a Token publishes to. */
    method GetSecret(key: Key, name: Name) returns (r: Answer<Secret>)
      requires Valid() && ProcOf(key).At? && ProcOf(key).point.ReadSecret?
      requires name == SecretName(key, ProcOf(key).cr)
      modifies this, cluster, influx
      ensures OneCall(key, old(Here(key))) && Leaves(arrival.shared)
      ensures r == if !outcome.Reply? then Error else Looked(arrival.shared.secrets, name)
      ensures var At(cr, version, tokenId, point) := old(ProcOf(key));
        ProcOf(key) == match r
          case Found(secret) =>
            if !Carries(secret.data, point.token)
            then At(cr, version, tokenId, Point.WriteSecret(point.token, point.created, secret.stamp))
            else FinishResources(key.kind, cr, version, tokenId, point.created, Publish(point.token), clock)
          case _ => Idle(Failed)
    {
      var o, before := Consult(key);
      r := if !o.Reply? then Error else Looked(before.shared.secrets, name);
    }

    /******* Reads of InfluxDB *******/

    method FindOrganizationByName(key: Key, title: string) returns (r: Answer<nat>)
      requires Valid() && ProcOf(key).At? && ProcOf(key).point.FindOrg?
      requires title == OrgSought(key, ProcOf(key).point.teardown, ProcOf(key).point.config)
      modifies this, cluster, influx
      ensures OneCall(key, old(Here(key))) && Leaves(arrival.shared)
      ensures r.Error? <==> !outcome.Reply?
      ensures outcome.Reply? ==> arrival.shared.orgs.First(0, title) == if r.Found? then Some(r.value) else None
      ensures var p := old(ProcOf(key));
        ProcOf(key) == match r
          case Found(id) => p.(point := AfterFindOrg(key.kind, p.point.teardown, id))
          case Missing =>
            if p.point.teardown && key.kind != BucketKind then DropFinalizer(p.cr, p.version) else Idle(Failed)
          case Error => Idle(Failed)
    {
      var o, before := Consult(key);
      if o.Reply? {
        var found := before.shared.orgs.First(0, title);
        r := if found.Some? then Found(found.value) else Missing;
      } else {
        r := Error;
      }
    }

    method FindAuthorizationsByOrgID(key: Key, org: nat) returns (r: Answer<seq<Listed>>)
      requires Valid() && ProcOf(key).At? && ProcOf(key).point.ListAuths? && org == ProcOf(key).point.org
      modifies this, cluster, influx
      ensures OneCall(key, old(Here(key))) && Leaves(arrival.shared)
      ensures r == if outcome.Reply? then Found(ListFrom(arrival.shared.auths, org, 0)) else Error
      ensures ProcOf(key) == if r.Found? then AfterListing(key, old(ProcOf(key)), r.value) else Idle(Failed)
    {
      var o, before := Consult(key);
      r := if o.Reply? then Found(ListFrom(before.shared.auths, org, 0)) else Error;
      ListingFindsFirst(before.shared.auths, org, TitleOf(key, before.ProcOf(key).cr), 0);
    }

    method FindBucketsByOrgID(key: Key, org: nat) returns (r: Answer<seq<Listed>>)
      requires Valid() && ProcOf(key).At? && ProcOf(key).point.ListBuckets? && org == ProcOf(key).point.org
      modifies this, cluster, influx
      ensures OneCall(key, old(Here(key))) && Leaves(arrival.shared)
      ensures r == if outcome.Reply? then Found(ListFrom(arrival.shared.buckets, org, 0)) else Error
      ensures var p := old(ProcOf(key));
        ProcOf(key) ==
          if !r.Found? then Idle(Failed)
          else if FirstTitled(r.value, key.name) < |r.value|
          then p.(point := DeleteBucket(r.value[FirstTitled(r.value, key.name)].id))
          else DropFinalizer(p.cr, p.version)
    {
      var o, before := Consult(key);
      BucketListingAnswer(key, before.View(key), o);
      r := if o.Reply? then Found(ListFrom(before.shared.buckets, org, 0)) else Error;
    }

    /******* Writes to InfluxDB *******/

    /** The server issues a number and a token of its choosing, whatever it already has. A
        call that fails may have taken effect. */
    method CreateAuthorization(key: Key, org: nat, description: string, grants: seq<Grant>)
      returns (r: Answer<(nat, string)>)
      requires Valid() && ProcOf(key).At? && ProcOf(key).point.CreateAuth? && org == ProcOf(key).point.org
      requires description == TitleOf(key, ProcOf(key).cr)
      requires grants == BuildGrants(ProcOf(key).cr.spec.permissions, org)
      modifies this, cluster, influx
      ensures OneCall(key, old(Here(key)))
      ensures Leaves(
        if outcome.Refused? then arrival.shared
        else arrival.shared.(auths := arrival.shared.auths.Insert(
          Row(org, Some(description), Some(old(Actor(key))), AuthorizationData(Some(outcome.text), grants)))))
      ensures r == if outcome.Reply? then Found((|arrival.shared.auths.rows|, outcome.text)) else Error
      ensures var At(cr, version, _, _) := old(ProcOf(key));
        ProcOf(key) ==
          if r.Found? then At(cr, version, Some(r.value.0), Point.CreateSecret(r.value.1, true)) else Idle(Failed)
    {
      var o, before := Arrive(key);
      CreateAuthorizationEffect(key, before, o);
      r := Error;
      if !o.Refused? {
        if o.Reply? {
          r := Found((|influx.auths.rows|, o.text));
        }
        influx.auths := influx.auths.Insert(
          Row(org, Some(description), Some(Actor(key)), AuthorizationData(Some(o.text), grants)));
      }
      Conclude(key, o, before, old(Here(key)));
    }

    /** The owner for which the pass acts; the server does not see it, the proofs do. */
    function Actor(key: Key): Owner
      requires ProcOf(key).At?
      reads this
    {
      Owner(key, ProcOf(key).cr.uid)
    }

    method DeleteAuthorizationWithID(key: Key, id: nat) returns (ok: bool)
      requires Valid() && ProcOf(key).At? && ProcOf(key).point == DeleteAuth && ProcOf(key).tokenId == Some(id)
      modifies this, cluster, influx
      ensures OneCall(key, old(Here(key))) && old(influx.auths.rows) <= influx.auths.rows
      ensures Leaves(
        if outcome.Refused? || !arrival.shared.auths.Live(id) then arrival.shared
        else arrival.shared.(auths := arrival.shared.auths.Remove(id, Operator)))
      ensures ok == (outcome.Reply? && arrival.shared.auths.Live(id))
      ensures var At(cr, version, tokenId, _) := old(ProcOf(key));
        ProcOf(key) == if ok then FinishTeardown(key.kind, cr, version, tokenId, clock) else Idle(Failed)
    {
      var o, before := Arrive(key);
      DeleteEffect(key, before, o, id);
      ok := o.Reply? && influx.auths.Live(id);
      if !o.Refused? && influx.auths.Live(id) {
        influx.auths := influx.auths.Remove(id, Operator);
      }
      Conclude(key, o, before, old(Here(key)));
    }

    /** `Missing` stands for the server's answer 422: the name is taken. */
    method CreateBucket(key: Key, org: nat, name: string, everySeconds: int, description: string)
      returns (r: Answer<()>)
      requires Valid() && ProcOf(key).At? && ProcOf(key).point == Point.CreateBucket(org) && name == key.name
      requires everySeconds == ProcOf(key).cr.spec.secondsTtl && description == ProcOf(key).cr.spec.description
      modifies this, cluster, influx
      ensures OneCall(key, old(Here(key)))
      ensures var taken := arrival.shared.buckets.First(org, name).Some?;
        && r == (if !outcome.Reply? then Error else if taken then Missing else Found(()))
        && Leaves(
             if outcome.Refused? || taken then arrival.shared
             else arrival.shared.(buckets := arrival.shared.buckets.Insert(
               Row(org, Some(name), Some(old(Actor(key))), BucketData(everySeconds, description)))))
      ensures var At(cr, version, tokenId, _) := old(ProcOf(key));
        ProcOf(key) == if r.Error? then Idle(Failed)
                       else FinishResources(key.kind, cr, version, tokenId, r.Found?, SaveStatus, clock)
    {
      var o, before := Arrive(key);
      CreateBucketEffect(key, before, o);
      var taken := influx.buckets.First(org, name).Some?;
      r := if !o.Reply? then Error else if taken then Missing else Found(());
      if !o.Refused? && !taken {
        influx.buckets := influx.buckets.Insert(
          Row(org, Some(name), Some(Actor(key)), BucketData(everySeconds, description)));
      }
      Conclude(key, o, before, old(Here(key)));
    }

    method DeleteBucketWithID(key: Key, id: nat) returns (ok: bool)
      requires Valid() && ProcOf(key).At? && ProcOf(key).point == DeleteBucket(id)
      modifies this, cluster, influx
      ensures OneCall(key, old(Here(key))) && old(influx.buckets.rows) <= influx.buckets.rows
      ensures Leaves(
        if outcome.Refused? || !arrival.shared.buckets.Live(id) then arrival.shared
        else arrival.shared.(buckets := arrival.shared.buckets.Remove(id, Operator)))
      ensures ok == (outcome.Reply? && arrival.shared.buckets.Live(id))
      ensures var At(cr, version, tokenId, _) := old(ProcOf(key));
        ProcOf(key) == if ok then FinishTeardown(key.kind, cr, version, tokenId, clock) else Idle(Failed)
    {
      var o, before := Arrive(key);
      DeleteEffect(key, before, o, id);
      ok := o.Reply? && influx.buckets.Live(id);
      if !o.Refused? && influx.buckets.Live(id) {
        influx.buckets := influx.buckets.Remove(id, Operator);
      }
      Conclude(key, o, before, old(Here(key)));
    }

    /** `Missing` stands for the server's answer 422: the name is taken. */
    method CreateOrganization(key: Key, name: string) returns (r: Answer<()>)
      requires Valid() && ProcOf(key).At? && ProcOf(key).point.CreateOrg? && name == key.name
      modifies this, cluster, influx
      ensures OneCall(key, old(Here(key)))
      ensures var taken := arrival.shared.orgs.First(0, name).Some?;
        && r == (if !outcome.Reply? then Error else if taken then Missing else Found(()))
        && Leaves(
             if outcome.Refused? || taken then arrival.shared
             else arrival.shared.(orgs := arrival.shared.orgs.Insert(
               Row(0, Some(name), Some(old(Actor(key))), OrganizationData))))
      ensures var At(cr, version, tokenId, _) := old(ProcOf(key));
        ProcOf(key) == if r.Error? then Idle(Failed)
                       else FinishResources(key.kind, cr, version, tokenId, r.Found?, SaveStatus, clock)
    {
      var o, before := Arrive(key);
      CreateOrganizationEffect(key, before, o);
      var taken := influx.orgs.First(0, name).Some?;
      r := if !o.Reply? then Error else if taken then Missing else Found(());
      if !o.Refused? && !taken {
        influx.orgs := influx.orgs.Insert(Row(0, Some(name), Some(Actor(key)), OrganizationData));
      }
      Conclude(key, o, before, old(Here(key)));
    }

    method DeleteOrganizationWithID(key: Key, id: nat) returns (ok: bool)
      requires Valid() && ProcOf(key).At? && ProcOf(key).point == DeleteOrg(id)
      modifies this, cluster, influx
      ensures OneCall(key, old(Here(key))) && old(influx.orgs.rows) <= influx.orgs.rows
      ensures Leaves(
        if outcome.Refused? || !arrival.shared.orgs.Live(id) then arrival.shared
        else arrival.shared.(orgs := arrival.shared.orgs.Remove(id, Operator)))
      ensures ok == (outcome.Reply? && arrival.shared.orgs.Live(id))
      ensures var At(cr, version, tokenId, _) := old(ProcOf(key));
        ProcOf(key) == if ok then FinishTeardown(key.kind, cr, version, tokenId, clock) else Idle(Failed)
    {
      var o, before := Arrive(key);
      DeleteEffect(key, before, o, id);
      ok := o.Reply? && influx.orgs.Live(id);
      if !o.Refused? && influx.orgs.Live(id) {
        influx.orgs := influx.orgs.Remove(id, Operator);
      }
      Conclude(key, o, before, old(Here(key)));
    }

    /******* Writes to the API server *******/

    /** `Missing` stands for the answer "already exists". */
    method CreateSecret(key: Key, name: Name, data: map<string, string>) returns (r: Answer<()>)
      requires Valid() && ProcOf(key).At? && ProcOf(key).point.CreateSecret?
      requires name == SecretName(key, ProcOf(key).cr) && data == map[KEY_TOKEN := ProcOf(key).point.token]
      modifies this, cluster, influx
      ensures OneCall(key, old(Here(key)))
      ensures var exist := name in arrival.shared.secrets;
        && r == (if !outcome.Reply? then Error else if exist then Missing else Found(()))
        && Leaves(if outcome.Refused? || exist then arrival.shared else PutSecret(arrival.shared, name, data))
      ensures var At(cr, version, tokenId, point) := old(ProcOf(key));
        ProcOf(key) == match r
          case Found(_) =>
            FinishResources(key.kind, cr, version, tokenId, point.created, Publish(point.token), clock)
          case Missing => At(cr, version, tokenId, ReadSecret(point.token, point.created))
          case Error => Idle(Failed)
    {
      var o, before := Arrive(key);
      CreateSecretEffect(key, before, o);
      var exist := name in cluster.secrets;
      r := if !o.Reply? then Error else if exist then Missing else Found(());
      if !o.Refused? && !exist {
        cluster.secrets := cluster.secrets[name := Secret(cluster.stamps, data)];
        cluster.stamps := cluster.stamps + 1;
      }
      Conclude(key, o, before, old(Here(key)));
    }

    /** The update is refused unless the secret is still the one that was read. */
    method UpdateSecret(key: Key, name: Name, stamp: nat, data: map<string, string>) returns (ok: bool)
      requires Valid() && ProcOf(key).At? && ProcOf(key).point.WriteSecret? && stamp == ProcOf(key).point.stamp
      requires name == SecretName(key, ProcOf(key).cr) && data == map[KEY_TOKEN := ProcOf(key).point.token]
      modifies this, cluster, influx
      ensures OneCall(key, old(Here(key)))
      ensures var current := name in arrival.shared.secrets && arrival.shared.secrets[name].stamp == stamp;
        && ok == (outcome.Reply? && current)
        && Leaves(if outcome.Refused? || !current then arrival.shared else PutSecret(arrival.shared, name, data))
      ensures var At(cr, version, tokenId, point) := old(ProcOf(key));
        ProcOf(key) ==
          if ok then FinishResources(key.kind, cr, version, tokenId, point.created, Publish(point.token), clock)
          else Idle(Failed)
    {
      var o, before := Arrive(key);
      UpdateSecretEffect(key, before, o);
      var current := name in cluster.secrets && cluster.secrets[name].stamp == stamp;
      ok := o.Reply? && current;
      if !o.Refused? && current {
        cluster.secrets := cluster.secrets[name := Secret(cluster.stamps, data)];
        cluster.stamps := cluster.stamps + 1;
      }
      Conclude(key, o, before, old(Here(key)));
    }

    /** The latest call was accepted: it was answered, and nobody had written the resource
        since the version that was read. */
    ghost predicate Accepted(key: Key, version: nat)
      reads this
    {
      outcome.Reply? && Current(arrival.SlotOf(key), version)
    }

    /** The latest call sent this resource, and this is what it did: if it reached the server
        and the version that was read was still the stored one, there is now one version more. */
    ghost predicate Sent(key: Key, cr: Resource, version: nat, status: bool)
      reads this, cluster, influx
    {
      var slot := arrival.SlotOf(key);
      Now() == arrival.(
        procs := procs,
        slots := if outcome.Refused? || !Current(slot, version) then arrival.slots
                 else arrival.slots[key := slot.Append(Stored(slot.Last().value, cr, status))])
    }

    /** Update, or Status().Update: metadata or status of the version that was read. */
    method SaveResource(key: Key, cr: Resource, version: nat, status: bool) returns (ok: bool)
      requires Valid() && ProcOf(key).At? && cr == ProcOf(key).cr && version == ProcOf(key).version
      requires var point := ProcOf(key).point;
        if status then point.SaveStatus? || point.Publish? else point.SaveObject?
      modifies this, cluster, influx
      ensures OneCall(key, old(Here(key)))
      ensures Sent(key, cr, version, status) && ok == Accepted(key, version)
      ensures ProcOf(key) == Idle(if ok then NoRequeue else Failed)
    {
      var o, before := Arrive(key);
      SaveEffect(key, before, o);
      var slot := before.SlotOf(key);
      var current := Current(slot, version);
      ok := o.Reply? && current;
      if !o.Refused? && current {
        cluster.slots := cluster.slots[key := slot.Append(Stored(slot.Last().value, cr, status))];
      }
      Conclude(key, o, before, old(Here(key)));
    }

    /** The read at the beginning of a pass, which may return an older version, but never
        one older than a pass for this key has seen. */
    method GetResource(key: Key) returns (r: Answer<(Resource, nat)>)
      requires Valid() && ProcOf(key).Idle?
      modifies this, cluster, influx
      ensures Valid() && old(log) <= log && Begun(key) == old(Begun(key)) + 1
      ensures var slot := arrival.SlotOf(key);
        && slot.seen == old(Now().SlotOf(key).seen) && (outcome.Refused? || Readable(slot, outcome))
        && r == if outcome.Refused? then Error else VersionAt(slot, outcome.index)
      ensures ProcOf(key) == match r
        case Found((cr, version)) => BeginPass(cr, version, clock)
        case Missing => Idle(NoRequeue)
        case Error => Idle(Failed)
      ensures old(Undisturbed(key)) ==> Quiet() && log == old(log) + [LatestRead(old(Now()), key, rest.now)]
    {
      var o, before := ArriveToRead(key);
      GetResourceEffect(key, before, o);
      var slot := before.SlotOf(key);
      r := if o.Refused? then Error else VersionAt(slot, o.index);
      if !o.Refused? && slot.seen != o.index {
        cluster.slots := cluster.slots[key := slot.(seen := o.index)];
      }
      Record(key, o, before);
    }
  }

  /** Where a pass stands once it has searched the listed authorizations. */
  function AfterListing(key: Key, p: Proc, listing: seq<Listed>): Proc
    requires p.At? && p.point.ListAuths?
  {
    var i := FirstTitled(listing, TitleOf(key, p.cr));
    if i == |listing| then
      if p.point.teardown then DropFinalizer(p.cr, p.version) else p.(point := CreateAuth(p.point.org))
    else if p.point.teardown then At(p.cr, p.version, Some(listing[i].id), DeleteAuth)
    else
      match AuthorizationToken(listing[i].row)
      case Some(token) => At(p.cr, p.version, Some(listing[i].id), CreateSecret(token, false))
      case None => Idle(Failed)
  }
}
