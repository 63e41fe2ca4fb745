/** The rate limiter of log messages: a shared map from names to times, which stands for
    the whole history of what has been let through. */
module Limiter {
  import opened Types

  /** The clock is read twice in a call: to decide, and to record the emission. */
  datatype Call = Call(name: string, every: nat, since: nat, now: nat)

  /** The time recorded for the last emission under a name. */
  function LastAt(emissions: seq<Call>, name: string): Option<nat> {
    if emissions == [] then None
    else
      var last := emissions[|emissions| - 1];
      if last.name == name then Some(last.now) else LastAt(emissions[..|emissions| - 1], name)
  }

  predicate Due(emissions: seq<Call>, call: Call) {
    match LastAt(emissions, call.name)
    case None => true
    case Some(last) => call.since - last >= call.every
  }

  /** The calls that are let through. */
  function Emissions(calls: seq<Call>): seq<Call> {
    if calls == [] then []
    else
      var before := Emissions(calls[..|calls| - 1]);
      if Due(before, calls[|calls| - 1]) then before + [calls[|calls| - 1]] else before
  }

  /** The clock never goes back, within a call or from one to the next. */
  ghost predicate Clocked(calls: seq<Call>) {
    && (forall i | 0 <= i < |calls| :: calls[i].since <= calls[i].now)
    && (forall i, j | 0 <= i < j < |calls| :: calls[i].now <= calls[j].since)
  }

  class RateLimiter {
    var cache: map<string, nat>
    ghost var calls: seq<Call>

    /** The map is the last recorded time of every name that was ever let through. */
    ghost predicate Valid()
      reads this
    {
      && (forall name: string :: name in cache <==> LastAt(Emissions(calls), name).Some?)
      && (forall name: string | name in cache :: LastAt(Emissions(calls), name) == Some(cache[name]))
    }

    constructor ()
      ensures Valid() && calls == []
    {
      cache, calls := map[], [];
    }

    /** Lets a call through exactly when nothing was let through under its name before, or
        long enough ago; other names do not matter. */
    method RateLimit(name: string, every: nat, since: nat, now: nat) returns (emitted: bool)
      requires Valid()
      modifies this
      ensures Valid() && calls == old(calls) + [Call(name, every, since, now)]
      ensures emitted <==> Due(Emissions(old(calls)), Call(name, every, since, now))
      ensures Emissions(calls) == if emitted then Emissions(old(calls)) + [Call(name, every, since, now)]
          else Emissions(old(calls))
      ensures emitted <==> (name in old(cache) ==> since - old(cache)[name] >= every)
      ensures cache == if emitted then old(cache)[name := now] else old(cache)
    {
      ghost var call, before := Call(name, every, since, now), Emissions(calls);
      assert (calls + [call])[..|calls|] == calls;
      assert (before + [call])[..|before|] == before;
      emitted := false;
      if name !in cache || since - cache[name] >= every {
        emitted := true;
        cache := cache[name := now];
      }
      calls := calls + [call];
    }
  }

  /******* What the history looks like *******/

  ghost predicate Spaced(emissions: seq<Call>) {
    && Clocked(emissions)
    && forall i, j | 0 <= i < j < |emissions| && emissions[i].name == emissions[j].name ::
         emissions[j].since - emissions[i].now >= emissions[j].every
  }

  lemma {:induction false} LastIsLatest(emissions: seq<Call>, name: string, i: nat)
    requires Clocked(emissions) && i < |emissions| && emissions[i].name == name
    ensures LastAt(emissions, name).Some? && LastAt(emissions, name).value >= emissions[i].now
  {
    var n := |emissions| - 1;
    if emissions[n].name != name {
      LastIsLatest(emissions[..n], name, i);
    }
  }

  lemma {:induction false} EmissionsAreCalls(calls: seq<Call>, i: nat)
    requires i < |Emissions(calls)|
    ensures Emissions(calls)[i] in calls
  {
    if calls != [] {
      var n := |calls| - 1;
      if i < |Emissions(calls[..n])| {
        EmissionsAreCalls(calls[..n], i);
      }
    }
  }

  /** Two emissions under one name are at least the period of the later one apart, from
      the time recorded at the earlier to the time of decision at the later. */
  lemma {:induction false} EmissionsAreSpaced(calls: seq<Call>)
    requires Clocked(calls)
    ensures Spaced(Emissions(calls))
  {
    if calls != [] {
      var n := |calls| - 1;
      var before, call := Emissions(calls[..n]), calls[n];
      EmissionsAreSpaced(calls[..n]);
      forall i | 0 <= i < |before|
        ensures before[i].now <= call.since
        ensures before[i].name == call.name && Due(before, call) ==> call.since - before[i].now >= call.every
      {
        EmissionsAreCalls(calls[..n], i);
        if before[i].name == call.name {
          LastIsLatest(before, call.name, i);
        }
      }
    }
  }

  predicate InWindow(e: Call, name: string, from: nat, to: nat) {
    e.name == name && from <= e.now <= to
  }

  function CountIn(emissions: seq<Call>, name: string, from: nat, to: nat): nat {
    if emissions == [] then 0
    else
      var n := |emissions| - 1;
      CountIn(emissions[..n], name, from, to) + if InWindow(emissions[n], name, from, to) then 1 else 0
  }

  lemma OneMorePeriod(count: nat, every: nat, used: int, length: int)
    requires (count - 1) * every <= used && used + every <= length
    ensures (count + 1 - 1) * every <= length
  {
  }

  /** All but the first emission in a window have used up a period of it by the last. */
  lemma {:induction false} WindowUsedUp(emissions: seq<Call>, name: string, every: nat, from: nat, to: nat)
    returns (last: nat)
    requires Spaced(emissions) && forall i | 0 <= i < |emissions| :: emissions[i].every == every
    requires CountIn(emissions, name, from, to) > 0
    ensures last < |emissions| && InWindow(emissions[last], name, from, to)
    ensures (CountIn(emissions, name, from, to) - 1) * every <= emissions[last].now - from
  {
    var n := |emissions| - 1;
    var before := CountIn(emissions[..n], name, from, to);
    if !InWindow(emissions[n], name, from, to) {
      last := WindowUsedUp(emissions[..n], name, every, from, to);
    } else {
      last := n;
      if before > 0 {
        var previous := WindowUsedUp(emissions[..n], name, every, from, to);
        assert emissions[n].since - emissions[previous].now >= every;
        OneMorePeriod(before, every, emissions[previous].now - from, emissions[n].now - from);
      }
    }
  }

  lemma PeriodsFit(count: nat, every: nat, used: int, length: nat)
    requires every > 0 && (count - 1) * every <= used <= length
    ensures count <= length / every + 1
  {
    var q := length / every;
    assert (count - 1) * every < (q + 1) * every;
  }

  /** With one positive period, any window of a given length sees at most one emission
      more than there are periods in it, however many calls are made. */
  lemma WindowBound(calls: seq<Call>, name: string, every: nat, from: nat, length: nat)
    requires Clocked(calls) && every > 0 && forall i | 0 <= i < |calls| :: calls[i].every == every
    ensures CountIn(Emissions(calls), name, from, from + length) <= length / every + 1
  {
    EmissionsAreSpaced(calls);
    var emissions := Emissions(calls);
    forall i | 0 <= i < |emissions| ensures emissions[i].every == every {
      EmissionsAreCalls(calls, i);
    }
    var count := CountIn(emissions, name, from, from + length);
    if count > 0 {
      var last := WindowUsedUp(emissions, name, every, from, from + length);
      PeriodsFit(count, every, emissions[last].now - from, length);
    }
  }

  /******* Names are independent *******/

  function Under(calls: seq<Call>, name: string): seq<Call> {
    if calls == [] then []
    else
      var n := |calls| - 1;
      Under(calls[..n], name) + if calls[n].name == name then [calls[n]] else []
  }

  lemma {:induction false} LastUnder(emissions: seq<Call>, name: string)
    ensures LastAt(emissions, name) == LastAt(Under(emissions, name), name)
  {
    if emissions != [] {
      var n := |emissions| - 1;
      LastUnder(emissions[..n], name);
      if emissions[n].name == name {
        assert Under(emissions, name)[|Under(emissions[..n], name)|] == emissions[n];
      } else {
        assert Under(emissions, name) == Under(emissions[..n], name);
      }
    }
  }

  /** What is let through under a name is what would be let through if there were no other. */
  lemma {:induction false} NamesAreIndependent(calls: seq<Call>, name: string)
    ensures Under(Emissions(calls), name) == Emissions(Under(calls, name))
  {
    if calls != [] {
      var n := |calls| - 1;
      var before, call := Emissions(calls[..n]), calls[n];
      NamesAreIndependent(calls[..n], name);
      LastUnder(before, name);
      assert (before + [call])[..|before|] == before;
      if call.name == name {
        var mine := Under(calls[..n], name);
        assert (mine + [call])[..|mine|] == mine;
        assert Under(calls, name) == mine + [call];
      } else {
        assert Under(calls, name) == Under(calls[..n], name);
        assert Under(before + [call], name) == Under(before, name);
      }
    }
  }
}
