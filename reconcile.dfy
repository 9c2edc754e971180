/**
 One refresh cycle as a value (`refresh_service_list`): from the current list
 and the outcome of a build, the list kept afterwards and the events pushed.
 Joins (`service_in`) come before drains (`service_out`) so that a consumer
 applying the events in order always has a live service.
 */
module Reconcile {
  import opened ServiceModel
  import opened ArrayDiff
  import opened Builder

  /** One join event per service, in list order. */
  function Ins(xs: seq<Service>): seq<Event>
  {
    seq(|xs|, i requires 0 <= i < |xs| => ServiceIn(xs[i]))
  }

  /** One drain event per service, in list order. */
  function Outs(xs: seq<Service>): seq<Event>
  {
    seq(|xs|, i requires 0 <= i < |xs| => ServiceOut(xs[i]))
  }

  /** The events for replacing `current` by `next`: a join for every service
      of `next - current`, then a drain for every service of `current - next`. */
  function Diff(current: seq<Service>, next: seq<Service>): seq<Event>
  {
    Ins(Minus(next, current)) + Outs(Minus(current, next))
  }

  /** A join is emitted exactly for a new service, a drain exactly for a
      vanished one, and no join follows a drain. */
  lemma DiffEvents(current: seq<Service>, next: seq<Service>)
    ensures var d := Diff(current, next);
      (forall s :: ServiceIn(s) in d <==> s in next && s !in current) &&
      (forall s :: ServiceOut(s) in d <==> s in current && s !in next) &&
      (forall i, j :: 0 <= i < j < |d| && d[i].ServiceOut? ==> d[j].ServiceOut?)
  {
    var joins, drains := Minus(next, current), Minus(current, next);
    var d := Diff(current, next);
    MinusMembers(next, current);
    MinusMembers(current, next);
    forall s ensures ServiceIn(s) in d <==> s in joins {
      if ServiceIn(s) in d {
        var i :| 0 <= i < |d| && d[i] == ServiceIn(s);
        assert i < |joins| && joins[i] == s;
      }
      if s in joins {
        var i :| 0 <= i < |joins| && joins[i] == s;
        assert d[i] == ServiceIn(s);
      }
    }
    forall s ensures ServiceOut(s) in d <==> s in drains {
      if ServiceOut(s) in d {
        var i :| 0 <= i < |d| && d[i] == ServiceOut(s);
        assert i >= |joins| && drains[i - |joins|] == s;
      }
      if s in drains {
        var i :| 0 <= i < |drains| && drains[i] == s;
        assert d[|joins| + i] == ServiceOut(s);
      }
    }
  }

  /** Two lists with the same members produce no events, in particular a
      list compared with itself. */
  lemma DiffSameMembers(current: seq<Service>, next: seq<Service>)
    requires Members(current) == Members(next)
    ensures Diff(current, next) == []
  {
    MinusCovered(next, current);
    MinusCovered(current, next);
  }

  /** The live set a consumer holds after applying `events` in order to
      `live`: a join adds its service, a drain removes it. */
  function Apply(live: set<Service>, events: seq<Event>): set<Service>
    decreases |events|
  {
    if events == [] then live
    else
      var before := Apply(live, events[..|events| - 1]);
      match events[|events| - 1]
      case ServiceIn(s) => before + {s}
      case ServiceOut(s) => before - {s}
  }

  lemma {:induction false} ApplyAppend(live: set<Service>, a: seq<Event>, b: seq<Event>)
    ensures Apply(live, a + b) == Apply(Apply(live, a), b)
    decreases |b|
  {
    if b == [] {
      assert a + b == a;
    } else {
      var n := |b| - 1;
      assert (a + b)[..|a + b| - 1] == a + b[..n];
      assert (a + b)[|a + b| - 1] == b[n];
      ApplyAppend(live, a, b[..n]);
    }
  }

  lemma {:induction false} ApplyIns(live: set<Service>, xs: seq<Service>)
    ensures Apply(live, Ins(xs)) == live + Members(xs)
    decreases |xs|
  {
    if xs != [] {
      var n := |xs| - 1;
      assert Ins(xs)[..n] == Ins(xs[..n]);
      ApplyIns(live, xs[..n]);
      assert Members(xs) == Members(xs[..n]) + {xs[n]} by {
        assert xs == xs[..n] + [xs[n]];
      }
    }
  }

  lemma {:induction false} ApplyOuts(live: set<Service>, xs: seq<Service>)
    ensures Apply(live, Outs(xs)) == live - Members(xs)
    decreases |xs|
  {
    if xs != [] {
      var n := |xs| - 1;
      assert Outs(xs)[..n] == Outs(xs[..n]);
      ApplyOuts(live, xs[..n]);
      assert Members(xs) == Members(xs[..n]) + {xs[n]} by {
        assert xs == xs[..n] + [xs[n]];
      }
    }
  }

  /** Every intermediate live set while the events of a refresh are applied:
      the old services plus the joins so far, then minus the drains so far. */
  lemma DiffPrefix(current: seq<Service>, next: seq<Service>, k: nat)
    requires k <= |Diff(current, next)|
    ensures var joins, drains := Minus(next, current), Minus(current, next);
      Apply(Members(current), Diff(current, next)[..k]) ==
        if k <= |joins| then Members(current) + Members(joins[..k])
        else Members(current) + Members(joins) - Members(drains[..k - |joins|])
  {
    var joins, drains := Minus(next, current), Minus(current, next);
    var d := Diff(current, next);
    if k <= |joins| {
      assert d[..k] == Ins(joins[..k]);
      ApplyIns(Members(current), joins[..k]);
    } else {
      var m := k - |joins|;
      assert d[..k] == Ins(joins) + Outs(drains[..m]);
      ApplyAppend(Members(current), Ins(joins), Outs(drains[..m]));
      ApplyIns(Members(current), joins);
      ApplyOuts(Members(current) + Members(joins), drains[..m]);
    }
  }

  /** A consumer that applies the events of a refresh ends up with exactly
      the new services. */
  lemma ApplyDiff(current: seq<Service>, next: seq<Service>)
    ensures Apply(Members(current), Diff(current, next)) == Members(next)
  {
    var d := Diff(current, next);
    DiffPrefix(current, next, |d|);
    assert d[..|d|] == d;
    var joins, drains := Minus(next, current), Minus(current, next);
    MinusMembers(next, current);
    MinusMembers(current, next);
    assert drains[..|d| - |joins|] == drains;
    assert joins[..|joins|] == joins;
  }

  /** While the events of a refresh are applied, either every old service or
      every new service is live at each step; so, when the new list is not
      empty, the live set is never empty once it has been non-empty. */
  lemma AlwaysLive(current: seq<Service>, next: seq<Service>, k: nat)
    requires k <= |Diff(current, next)|
    ensures var live := Apply(Members(current), Diff(current, next)[..k]);
      Members(current) <= live || Members(next) <= live
    ensures next != [] && (current != [] || k > 0) ==>
              Apply(Members(current), Diff(current, next)[..k]) != {}
  {
    var joins, drains := Minus(next, current), Minus(current, next);
    var live := Apply(Members(current), Diff(current, next)[..k]);
    DiffPrefix(current, next, k);
    MinusMembers(next, current);
    MinusMembers(current, next);
    if k <= |joins| {
      if k > 0 {
        assert joins[0] in Members(joins[..k]);
      }
    } else {
      var m := k - |joins|;
      forall x | x in next ensures x in live {
        assert x in drains[..m] ==> x in drains;
      }
      if next != [] {
        assert next[0] in live;
      }
    }
  }

  /** The outcome of one refresh: the list kept afterwards and the events to
      push. */
  datatype Cycle = Cycle(services: seq<Service>, events: seq<Event>)

  /** `refresh_service_list` on the value of `@services` and the outcome of
      the build it runs. */
  function Refresh(current: seq<Service>, built: BuildResult): Cycle
  {
    if built.Raised? || built.services == [] then Cycle(current, [])
    else Cycle(built.services, Diff(current, built.services))
  }

  /** A build that raised or returned no service leaves the list alone and
      pushes nothing; any other build is adopted with its diff, and a build
      that finds the same services pushes nothing. */
  lemma RefreshOutcome(current: seq<Service>, built: BuildResult)
    ensures built.Raised? ==> Refresh(current, built) == Cycle(current, [])
    ensures built.Built? && built.services == [] ==> Refresh(current, built) == Cycle(current, [])
    ensures built.Built? && built.services != [] ==>
              Refresh(current, built).services == built.services &&
              Refresh(current, built).events == Diff(current, built.services)
    ensures built.Built? && Members(built.services) == Members(current) ==>
              Refresh(current, built).events == []
  {
    if built.Built? && Members(built.services) == Members(current) {
      DiffSameMembers(current, built.services);
    }
  }

  /** A build that changes something is adopted. */
  predicate Adopted(built: BuildResult)
  {
    built.Built? && built.services != []
  }

  /** Several refreshes in a row, as the interval timer runs them: the final
      list and every event pushed, in order. */
  function Run(current: seq<Service>, builds: seq<BuildResult>): Cycle
    decreases |builds|
  {
    if builds == [] then Cycle(current, [])
    else
      var before := Run(current, builds[..|builds| - 1]);
      var last := Refresh(before.services, builds[|builds| - 1]);
      Cycle(last.services, before.events + last.events)
  }

  /** One more refresh after several. */
  lemma RunSnoc(current: seq<Service>, builds: seq<BuildResult>, r: nat)
    requires r < |builds|
    ensures var before := Run(current, builds[..r]);
      var last := Refresh(before.services, builds[r]);
      Run(current, builds[..r + 1]) == Cycle(last.services, before.events + last.events)
  {
    assert builds[..r + 1][..r] == builds[..r];
  }

  /** The state after one more refresh, given the state after the earlier
      ones: what a timer loop needs at each firing. */
  lemma RunStep(current: seq<Service>, builds: seq<BuildResult>, r: nat, queued: seq<Event>,
                before: seq<Service>, beforeQueue: seq<Event>, after: seq<Service>, afterQueue: seq<Event>)
    requires r < |builds|
    requires before == Run(current, builds[..r]).services
    requires beforeQueue == queued + Run(current, builds[..r]).events
    requires after == Refresh(before, builds[r]).services
    requires afterQueue == beforeQueue + Refresh(before, builds[r]).events
    ensures after == Run(current, builds[..r + 1]).services
    ensures afterQueue == queued + Run(current, builds[..r + 1]).events
  {
    RunSnoc(current, builds, r);
    var b, c := Run(current, builds[..r]), Refresh(before, builds[r]);
    AppendAssoc(queued, b.events, c.events);
  }

  lemma AppendAssoc<T>(a: seq<T>, b: seq<T>, c: seq<T>)
    ensures (a + b) + c == a + (b + c)
  {
  }

  /** The round whose list was adopted last, or -1 when none was. */
  function LastAdopted(builds: seq<BuildResult>): (k: int)
    ensures -1 <= k < |builds|
    ensures k >= 0 ==> Adopted(builds[k])
    ensures forall j :: k < j < |builds| ==> !Adopted(builds[j])
    decreases |builds|
  {
    if builds == [] then -1
    else if Adopted(builds[|builds| - 1]) then |builds| - 1
    else LastAdopted(builds[..|builds| - 1])
  }

  /** After several refreshes the list is the last adopted build, or the
      starting list when every round failed or came back empty. */
  lemma {:induction false} RunServices(current: seq<Service>, builds: seq<BuildResult>)
    ensures var k := LastAdopted(builds);
      Run(current, builds).services == if k < 0 then current else builds[k].services
    decreases |builds|
  {
    if builds != [] {
      var n := |builds| - 1;
      RunServices(current, builds[..n]);
      if !Adopted(builds[n]) {
        assert LastAdopted(builds) == LastAdopted(builds[..n]);
        var k := LastAdopted(builds[..n]);
        assert k >= 0 ==> builds[..n][k] == builds[k];
      }
    }
  }

  /** Once known, the list of services never becomes empty again. */
  lemma RunKeepsServices(current: seq<Service>, builds: seq<BuildResult>)
    requires current != []
    ensures Run(current, builds).services != []
  {
    RunServices(current, builds);
  }

  /** A consumer that applies every event pushed by several refreshes, from
      the starting services, holds exactly the final services. */
  lemma {:induction false} RunReplay(current: seq<Service>, builds: seq<BuildResult>)
    ensures Apply(Members(current), Run(current, builds).events) ==
            Members(Run(current, builds).services)
    decreases |builds|
  {
    if builds != [] {
      var n := |builds| - 1;
      var before := Run(current, builds[..n]);
      RunReplay(current, builds[..n]);
      ApplyAppend(Members(current), before.events, Refresh(before.services, builds[n]).events);
      if Adopted(builds[n]) {
        ApplyDiff(before.services, builds[n].services);
      }
    }
  }
}
