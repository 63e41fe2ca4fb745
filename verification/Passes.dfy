/** Whole passes that nothing disturbs: the reader is up to date, every call is answered,
    and nobody else acts in between. */
module Passes {
  import opened Types
  import opened Protocol

  /** An upper bound on the calls a pass has yet to make. */
  function CallsLeft(p: Proc): nat {
    match p
    case Idle(_) => 0
    case At(_, _, _, point) =>
      match point
      case SaveObject => 1
      case SaveStatus => 1
      case Publish(_) => 1
      case WriteSecret(_, _, _) => 2
      case ReadSecret(_, _) => 3
      case CreateSecret(_, _) => 4
      case CreateAuth(_) => 5
      case DeleteAuth => 2
      case DeleteBucket(_) => 2
      case DeleteOrg(_) => 2
      case CreateBucket(_) => 2
      case CreateOrg => 2
      case ListBuckets(_) => 3
      case ListAuths(_, _) => 6
      case FindOrg(_, _) => 7
      case GetCredential(_, _) => 8
      case GetConfig(_) => 9
  }

  lemma CallsRunOut(key: Key, l: Local, text: string, now: nat)
    requires |l.slot.versions| > 0 && l.proc.At?
    ensures CallsLeft(Effect(key, l, text, now).proc) < CallsLeft(l.proc)
    ensures |Effect(key, l, text, now).slot.versions| >= |l.slot.versions|
    ensures Effect(key, l, text, now).slot.seen == l.slot.seen
  {
  }

  /** The rest of a pass, every call answered; `text` is the token a server would issue. */
  function Drive(key: Key, l: Local, text: string, now: nat): (r: Local)
    requires |l.slot.versions| > 0
    ensures |r.slot.versions| >= |l.slot.versions| && r.slot.seen == l.slot.seen && r.proc.Idle?
    decreases CallsLeft(l.proc)
  {
    if l.proc.Idle? then l
    else
      CallsRunOut(key, l, text, now);
      Drive(key, Effect(key, l, text, now), text, now)
  }

  function Begin(l: Local, now: nat): (r: Local)
    requires |l.slot.versions| > 0
    ensures r.slot == l.slot.(seen := |l.slot.versions| - 1) && r.shared == l.shared
  {
    DoRead(l.(slot := l.slot.(seen := |l.slot.versions| - 1)), |l.slot.versions| - 1, now)
  }

  function Pass(key: Key, l: Local, text: string, now: nat): (r: Local)
    requires |l.slot.versions| > 0
    ensures r.slot.seen < |r.slot.versions| && r.proc.Idle?
  {
    Drive(key, Begin(l, now), text, now)
  }

  /** What one pass finds: the time, and the token the server issues if it is asked for one.
      A pass that is not disturbed uses each of them once at most. */
  datatype Moment = Moment(text: string, now: nat)

  /** Undisturbed passes of one resource, each at its own moment. */
  function PassTimes(key: Key, l: Local, moments: seq<Moment>): (r: Local)
    requires |l.slot.versions| > 0
    ensures |r.slot.versions| > 0
    decreases moments
  {
    if moments == [] then l
    else PassTimes(key, Pass(key, l, moments[0].text, moments[0].now), moments[1..])
  }

  /******* Passes are runs *******/

  /** No pass for the key is under way. */
  predicate Quiescent(s: State, key: Key) {
    key in s.slots && s.ProcOf(key).Idle? && s.SlotOf(key).seen < |s.SlotOf(key).versions|
  }

  function AfterPass(s: State, key: Key, text: string, now: nat): (r: State)
    requires s.WellFormed()
    ensures r.WellFormed()
  {
    s.Put(key, Pass(key, s.View(key), text, now))
  }

  lemma PutView(s: State, key: Key, l: Local)
    ensures s.Put(key, l).View(key) == l
  {
  }

  lemma PutTwice(s: State, key: Key, first: Local, second: Local)
    requires key in s.slots
    ensures s.Put(key, first).Put(key, second) == s.Put(key, second)
  {
    var slots := s.slots;
    assert slots[key := first.slot][key := second.slot] == slots[key := second.slot];
    assert slots[key := slots[key]] == slots;
    assert s.procs[key := first.proc][key := second.proc] == s.procs[key := second.proc];
  }

  lemma PutSelf(s: State, key: Key)
    requires key in s.procs
    ensures s.Put(key, s.View(key)) == s
  {
    assert s.procs[key := s.procs[key]] == s.procs;
  }

  /** Answering calls of a pass until it is over leads where `Drive` leads, and further
      answers change nothing. */
  lemma {:induction false} AnswersDrive(key: Key, s: State, actions: seq<Action>, text: string, now: nat)
    requires s.WellFormed() && key in s.slots && key in s.procs
    requires forall i | 0 <= i < |actions| :: actions[i] == Step(key, Reply(text, now))
    requires Run(s, actions).ProcOf(key).Idle?
    ensures Run(s, actions) == s.Put(key, Drive(key, s.View(key), text, now))
    decreases |actions|
  {
    if actions == [] {
      PutSelf(s, key);
    } else {
      var a, rest := actions[0], actions[1..];
      var next := Apply(s, a);
      ApplyKeepsWellFormed(s, a);
      assert actions == [a] + rest;
      RunCons(s, a, rest);
      AnswersDrive(key, next, rest, text, now);
      var l := if s.ProcOf(key).Idle? then s.View(key) else Effect(key, s.View(key), text, now);
      assert next == s.Put(key, l);
      PutView(s, key, l);
      PutTwice(s, key, l, Drive(key, l, text, now));
    }
  }

  /** The answers a pass still takes. */
  lemma {:induction false} AnswersRunOut(key: Key, s: State, n: nat, text: string, now: nat)
    requires s.WellFormed() && n >= CallsLeft(s.ProcOf(key))
    ensures Run(s, seq(n, _ => Step(key, Reply(text, now)))).ProcOf(key).Idle?
    decreases n
  {
    var a := Step(key, Reply(text, now));
    if n > 0 {
      ApplyKeepsWellFormed(s, a);
      if s.ProcOf(key).At? {
        CallsRunOut(key, s.View(key), text, now);
      }
      AnswersRunOut(key, Apply(s, a), n - 1, text, now);
      assert seq(n, _ => a) == [a] + seq(n - 1, _ => a);
      RunCons(s, a, seq(n - 1, _ => a));
    }
  }

  /** The read at the beginning of an undisturbed pass. */
  function LatestRead(s: State, key: Key, now: nat): Action
    requires s.WellFormed()
  {
    Step(key, Read(|s.SlotOf(key).versions| - 1, now))
  }

  lemma ReadBegins(key: Key, s: State, now: nat)
    requires s.WellFormed() && Quiescent(s, key)
    ensures var next := Apply(s, LatestRead(s, key, now));
      && next.WellFormed() && next == s.Put(key, Begin(s.View(key), now)) && next.View(key) == Begin(s.View(key), now)
      && key in next.slots && key in next.procs
  {
    ApplyKeepsWellFormed(s, LatestRead(s, key, now));
    PutView(s, key, Begin(s.View(key), now));
  }

  /** Whatever run consists of an up-to-date read and answered calls, up to the end of the
      pass, is the undisturbed pass. */
  lemma RunIsPass(key: Key, s: State, answers: seq<Action>, text: string, now: nat)
    requires s.WellFormed() && Quiescent(s, key)
    requires forall i | 0 <= i < |answers| :: answers[i] == Step(key, Reply(text, now))
    requires Run(s, [LatestRead(s, key, now)] + answers).ProcOf(key).Idle?
    ensures Run(s, [LatestRead(s, key, now)] + answers) == AfterPass(s, key, text, now)
  {
    var a := LatestRead(s, key, now);
    var begun := Begin(s.View(key), now);
    ReadBegins(key, s, now);
    RunCons(s, a, answers);
    AnswersDrive(key, Apply(s, a), answers, text, now);
    PutTwice(s, key, begun, Drive(key, begun, text, now));
  }

  /** An undisturbed pass is a run of the state machine: one read, then calls that are all
      answered, and nothing else changes. */
  lemma PassIsRun(key: Key, s: State, text: string, now: nat) returns (answers: seq<Action>)
    requires s.WellFormed() && Quiescent(s, key)
    ensures forall i | 0 <= i < |answers| :: answers[i] == Step(key, Reply(text, now))
    ensures Run(s, [LatestRead(s, key, now)] + answers) == AfterPass(s, key, text, now)
  {
    var a := LatestRead(s, key, now);
    ApplyKeepsWellFormed(s, a);
    var n := CallsLeft(Apply(s, a).ProcOf(key));
    answers := seq(n, _ => Step(key, Reply(text, now)));
    AnswersRunOut(key, Apply(s, a), n, text, now);
    RunCons(s, a, answers);
    RunIsPass(key, s, answers, text, now);
  }

  /** The pass of one resource in a schedule. */
  datatype Visit = Visit(key: Key, moment: Moment)

  /** Undisturbed passes one after the other, in the order of the schedule. */
  function AfterSchedule(s: State, schedule: seq<Visit>): (r: State)
    requires s.WellFormed()
    ensures r.WellFormed()
    decreases schedule
  {
    if schedule == [] then s
    else AfterSchedule(AfterPass(s, schedule[0].key, schedule[0].moment.text, schedule[0].moment.now), schedule[1..])
  }

  function VisitsOf(key: Key, moments: seq<Moment>): seq<Visit> {
    seq(|moments|, i requires 0 <= i < |moments| => Visit(key, moments[i]))
  }

  /** Repeated passes of one resource are a schedule that visits it alone. */
  lemma {:induction false} PassTimesIsSchedule(s: State, key: Key, moments: seq<Moment>)
    requires s.WellFormed()
    ensures AfterSchedule(s, VisitsOf(key, moments)).View(key) == PassTimes(key, s.View(key), moments)
    decreases moments
  {
    if moments != [] {
      var Moment(text, now) := moments[0];
      assert VisitsOf(key, moments)[1..] == VisitsOf(key, moments[1..]);
      PutView(s, key, Pass(key, s.View(key), text, now));
      PassTimesIsSchedule(AfterPass(s, key, text, now), key, moments[1..]);
    }
  }

  lemma PassKeepsQuiescent(s: State, key: Key, text: string, now: nat, other: Key)
    requires s.WellFormed() && Quiescent(s, key) && Quiescent(s, other)
    ensures Quiescent(AfterPass(s, key, text, now), other)
  {
  }

  /** So is a schedule of them. */
  lemma {:induction false} ScheduleIsRun(s: State, schedule: seq<Visit>) returns (actions: seq<Action>)
    requires s.WellFormed() && forall i | 0 <= i < |schedule| :: Quiescent(s, schedule[i].key)
    ensures Run(s, actions) == AfterSchedule(s, schedule)
    decreases schedule
  {
    if schedule == [] {
      actions := [];
    } else {
      var Visit(key, Moment(text, now)) := schedule[0];
      var answers := PassIsRun(key, s, text, now);
      var next := AfterPass(s, key, text, now);
      forall i | 0 <= i < |schedule[1..]| ensures Quiescent(next, schedule[1..][i].key) {
        PassKeepsQuiescent(s, key, text, now, schedule[i + 1].key);
      }
      var rest := ScheduleIsRun(next, schedule[1..]);
      actions := [LatestRead(s, key, now)] + answers + rest;
      RunConcat(s, [LatestRead(s, key, now)] + answers, rest);
    }
  }

  /******* What a pass needs from its surroundings *******/

  /** Config, admin credential and organization are there. `org` is the organization the
      artefacts live in; a teardown of an organization needs none. */
  ghost predicate Reaches(key: Key, shared: Shared, cr: Resource, teardown: bool, org: nat) {
    var name := Name(key.namespace, ConfigName(key, cr.spec));
    && name in shared.configs
    && Name(shared.configs[name].secretNamespace, shared.configs[name].secretName) in shared.secrets
    && shared.orgs.First(0, OrgSought(key, teardown, shared.configs[name])) == Some(org)
  }

  lemma DriveStep(key: Key, l: Local, text: string, now: nat)
    requires |l.slot.versions| > 0 && l.proc.At?
    ensures |Effect(key, l, text, now).slot.versions| > 0
    ensures Drive(key, l, text, now) == Drive(key, Effect(key, l, text, now), text, now)
  {
  }

  /** A pass whose surroundings are in place gets from the config to its own calls. */
  lemma DriveReaches(key: Key, l: Local, teardown: bool, org: nat, text: string, now: nat)
    requires |l.slot.versions| > 0 && l.proc.At? && l.proc.point == GetConfig(teardown)
    requires Reaches(key, l.shared, l.proc.cr, teardown, org)
    ensures Drive(key, l, text, now)
         == Drive(key, l.(proc := l.proc.(point := AfterFindOrg(key.kind, teardown, org))), text, now)
  {
    var config := l.shared.configs[Name(key.namespace, ConfigName(key, l.proc.cr.spec))];
    DriveStep(key, l, text, now);
    DriveStep(key, l.(proc := l.proc.(point := GetCredential(teardown, config))), text, now);
    DriveStep(key, l.(proc := l.proc.(point := FindOrg(teardown, config))), text, now);
  }
}
