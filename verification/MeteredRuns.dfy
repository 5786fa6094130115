/**
  What a tick does for each agent it reaches (scheduler.py), told from what its visit finds: the row it leaves, the
  usage it records, and the usage a run of ticks records in all.
 */
module MeteredRuns {
  import opened Sums
  import opened Quota
  import opened Fleet
  import opened Metering
  import opened Scheduler

  /** The visit gets a report, finds containers, and does not find them failing for the third time. */
  predicate Well(o: Observation) {
    o.health.Report? && o.live > 0 && (o.health.healthy || o.health.consecutiveFailures < 3)
  }

  /** The agent at position `k` has its turn: no earlier visit of the tick aborts it. */
  ghost predicate Reached(w: World, ids: seq<string>, k: nat, obs: string -> Observation, seconds: real, at: real)
    requires Distinct(ids) && AllActive(w, ids) && k < |ids|
  {
    !TickSteps(w, ids[..k], obs, seconds, at).aborted
  }

  /** The row a report leaves. */
  function Reported(a: Agent, o: Observation): Agent {
    a.(replicas := o.live, status := if o.live == 0 then Stopped else if !Well(o) then Crashed
                                     else if a.status == Scaling then Scaling else Running)
  }

  /** The row and the containers after the agent's own turn. */
  lemma OwnRow(w: World, id: string, o: Observation, seconds: real, at: real)
    requires id in w.agents && Active(w.agents[id].status)
    ensures var v := VisitStep(w, id, o, seconds, at);
            && id in v.world.agents
            && v.world.agents[id] == (if o.health.Report? then Reported(w.agents[id], o) else w.agents[id])
            && (var n := LiveOf(v.world.live, id);
                && (o.health.CheckRaised? ==> n == LiveOf(w.live, id))
                && (o.health.Report? ==> n == o.live || (n == o.autoScaled && Well(o) && w.agents[id].autoScale)))
  {
    if o.health.Report? {
      var synced := SyncStep(Seen(w, id, o.live), id, o.health);
      assert synced.agents[id] == Reported(w.agents[id], o);
    }
  }

  /** What it records. */
  lemma OwnEntry(w: World, id: string, o: Observation, seconds: real, at: real)
    requires id in w.agents && Active(w.agents[id].status)
    ensures var v := VisitStep(w, id, o, seconds, at);
            Only(v.entries, id) ==
            if Well(o) then RecordEntries(MeteredOf(id, w.agents[id]), o.live, seconds, at) else []
  {
    var v, entries := VisitStep(w, id, o, seconds, at), RecordEntries(MeteredOf(id, w.agents[id]), o.live, seconds, at);
    if o.health.Report? {
      var synced := SyncStep(Seen(w, id, o.live), id, o.health);
      assert synced.agents[id] == Reported(w.agents[id], o);
      assert v.entries == VisitEntries(id, synced.agents[id], seconds, at);
    }
    assert v.entries == if Well(o) then entries else [];
    if v.entries != [] {
      assert v.entries[..0] == [] && Only([], id) == [];
    }
  }

  /** A tick leaves agents alone whose turn it is not. */
  lemma {:induction false} NotVisited(
      w: World, ids: seq<string>, obs: string -> Observation, seconds: real, at: real, id: string)
    requires Distinct(ids) && AllActive(w, ids) && id !in ids && id in w.agents
    ensures var v := TickSteps(w, ids, obs, seconds, at);
            && id in v.world.agents && v.world.agents[id] == w.agents[id]
            && ContainersOf(v.world.live, id) == ContainersOf(w.live, id) && Only(v.entries, id) == []
    decreases |ids|
  {
    if ids != [] {
      var first := VisitStep(w, ids[0], obs(ids[0]), seconds, at);
      VisitLeavesOthers(w, ids[0], obs(ids[0]), seconds, at, id);
      VisitRecords(w, ids[0], obs(ids[0]), seconds, at, id);
      if !first.aborted {
        var rest := TickSteps(first.world, ids[1..], obs, seconds, at);
        NotVisited(first.world, ids[1..], obs, seconds, at, id);
        OnlyConcat(first.entries, rest.entries, id);
      }
    }
  }

  /** A later turn is reached in the rest of the tick. */
  lemma ReachedLater(w: World, ids: seq<string>, k: nat, obs: string -> Observation, seconds: real, at: real)
    requires Distinct(ids) && AllActive(w, ids) && 0 < k < |ids| && Reached(w, ids, k, obs, seconds, at)
    ensures var first := VisitStep(w, ids[0], obs(ids[0]), seconds, at);
            && !first.aborted && AllActive(first.world, ids[1..])
            && Reached(first.world, ids[1..], k - 1, obs, seconds, at)
  {
    assert ids[..k][0] == ids[0] && ids[..k][1..] == ids[1..][..k - 1];
    assert ids[0..] == ids;
    TickUnroll(w, ids, 0, obs, seconds, at);
  }

  /**
    What a tick does for an agent it reaches: after a report the row has the containers found and the status they
    earn; it is metered, once and in its own shape, for the containers found exactly when they are found well; and its
    containers are those found, or what auto-scaling left.
   */
  lemma {:induction false} TickForEach(
      w: World, ids: seq<string>, k: nat, obs: string -> Observation, seconds: real, at: real)
    requires Distinct(ids) && AllActive(w, ids) && k < |ids| && Reached(w, ids, k, obs, seconds, at)
    ensures var v, id := TickSteps(w, ids, obs, seconds, at), ids[k];
            var o, a, n := obs(id), w.agents[id], LiveOf(v.world.live, id);
            && id in v.world.agents
            && v.world.agents[id] == (if o.health.Report? then Reported(a, o) else a)
            && Only(v.entries, id) == (if Well(o) then RecordEntries(MeteredOf(id, a), o.live, seconds, at) else [])
            && (o.health.CheckRaised? ==> n == LiveOf(w.live, id))
            && (o.health.Report? ==> n == o.live || (n == o.autoScaled && Well(o) && a.autoScale))
    decreases |ids|
  {
    var id, first := ids[k], VisitStep(w, ids[0], obs(ids[0]), seconds, at);
    assert ids[0..] == ids;
    TickUnroll(w, ids, 0, obs, seconds, at);
    if k == 0 {
      OwnRow(w, id, obs(id), seconds, at);
      OwnEntry(w, id, obs(id), seconds, at);
      if !first.aborted {
        NotVisited(first.world, ids[1..], obs, seconds, at, id);
        OnlyConcat(first.entries, TickSteps(first.world, ids[1..], obs, seconds, at).entries, id);
      }
    } else {
      ReachedLater(w, ids, k, obs, seconds, at);
      VisitLeavesOthers(w, ids[0], obs(ids[0]), seconds, at, id);
      VisitRecords(w, ids[0], obs(ids[0]), seconds, at, id);
      TickForEach(first.world, ids[1..], k - 1, obs, seconds, at);
      OnlyConcat(first.entries, TickSteps(first.world, ids[1..], obs, seconds, at).entries, id);
    }
  }

  /** What a tick records counts no requests: each entry is a step that the request ledger allows. */
  lemma {:induction false} TickCountsNoRequests(
      w: World, ids: seq<string>, obs: string -> Observation, seconds: real, at: real, l: Ledger)
    requires Distinct(ids) && AllActive(w, ids)
    ensures forall e :: e in TickSteps(w, ids, obs, seconds, at).entries ==> Enabled(l, RecordUsage(e))
    decreases |ids|
  {
    if ids != [] {
      var first := VisitStep(w, ids[0], obs(ids[0]), seconds, at);
      if !first.aborted {
        TickCountsNoRequests(first.world, ids[1..], obs, seconds, at, l);
      }
    }
  }

  // ---------- Runs of ticks ----------

  /** The replica-seconds recorded for an agent, over all hours. */
  ghost function ReplicaSeconds(log: seq<Entry>, id: string): real {
    if log == [] then 0.0
    else
      var e := log[|log| - 1];
      ReplicaSeconds(log[..|log| - 1], id) + if e.agent == id then e.amounts.replicaSeconds else 0.0
  }

  lemma {:induction false} SecondsOfBoth(a: seq<Entry>, b: seq<Entry>, id: string)
    ensures ReplicaSeconds(a + b, id) == ReplicaSeconds(a, id) + ReplicaSeconds(b, id)
    decreases |b|
  {
    if b == [] {
      assert a + b == a;
    } else {
      assert (a + b)[..|a + b| - 1] == a + b[..|b| - 1];
      SecondsOfBoth(a, b[..|b| - 1], id);
    }
  }

  lemma {:induction false} SecondsOfOwn(log: seq<Entry>, id: string)
    ensures ReplicaSeconds(log, id) == ReplicaSeconds(Only(log, id), id)
  {
    if log != [] {
      var past, e := log[..|log| - 1], log[|log| - 1];
      SecondsOfOwn(past, id);
      SecondsOfBoth(Only(past, id), if e.agent == id then [e] else [], id);
      assert e.agent == id ==> [e][..0] == [];
    }
  }

  /** The tick has the agent's turn, and finds `r` of its containers well. */
  ghost predicate FindsWell(interval: real, ticks: seq<TickInput>, i: nat, id: string, r: nat)
    requires ValidTicks(ticks) && i < |ticks|
  {
    var t := ticks[i];
    && t.obs(id).live == r && Well(t.obs(id))
    && exists k :: 0 <= k < |t.ids| && t.ids[k] == id
                   && Reached(t.world, t.ids, k, t.obs, TickSeconds(interval, StartTimes(ticks), i), t.at)
  }

  lemma RecordedInFull(a: Metered, r: nat, sec: real, at: real)
    requires sec >= 0.0
    ensures ReplicaSeconds(RecordEntries(a, r, sec, at), a.id) == Times(r, sec)
  {
    var log := RecordEntries(a, r, sec, at);
    TimesIsProduct(r, sec);
    if log != [] {
      assert log[..0] == [];
    }
  }

  lemma TickMeters(t: TickInput, k: nat, sec: real, r: nat)
    requires Distinct(t.ids) && AllActive(t.world, t.ids) && k < |t.ids| && sec >= 0.0
    requires t.obs(t.ids[k]).live == r && Well(t.obs(t.ids[k])) && Reached(t.world, t.ids, k, t.obs, sec, t.at)
    ensures ReplicaSeconds(TickSteps(t.world, t.ids, t.obs, sec, t.at).entries, t.ids[k]) == Times(r, sec)
  {
    var id := t.ids[k];
    TickForEach(t.world, t.ids, k, t.obs, sec, t.at);
    SecondsOfOwn(TickSteps(t.world, t.ids, t.obs, sec, t.at).entries, id);
    RecordedInFull(MeteredOf(id, t.world.agents[id]), r, sec, t.at);
  }

  lemma LogMeters(interval: real, ticks: seq<TickInput>, i: nat, id: string, r: nat)
    requires ValidTicks(ticks) && i < |ticks| && FindsWell(interval, ticks, i, id, r)
    requires interval >= 0.0 && NonDecreasing(StartTimes(ticks))
    ensures ReplicaSeconds(Logs(interval, ticks)[i], id) == Times(r, TickSeconds(interval, StartTimes(ticks), i))
  {
    var t, sec := ticks[i], TickSeconds(interval, StartTimes(ticks), i);
    var k :| 0 <= k < |t.ids| && t.ids[k] == id && Reached(t.world, t.ids, k, t.obs, sec, t.at);
    TickSecondsNotNegative(interval, StartTimes(ticks), i);
    TickMeters(t, k, sec, r);
  }

  lemma {:induction false} LogsAddUp(
      logs: seq<seq<Entry>>, interval: real, starts: seq<real>, metered: seq<bool>, n: nat, id: string, r: nat)
    requires |logs| == |starts| == |metered| && n <= |logs|
    requires forall i :: 0 <= i < |logs| ==>
               metered[i] && ReplicaSeconds(logs[i], id) == Times(r, TickSeconds(interval, starts, i))
    ensures ReplicaSeconds(Flatten(logs, n), id) == Times(r, MeteredSeconds(interval, starts, metered, n))
    decreases n
  {
    if n == 0 {
      TimesIsProduct(r, 0.0);
    } else {
      LogsAddUp(logs, interval, starts, metered, n - 1, id, r);
      SecondsOfBoth(Flatten(logs, n - 1), logs[n - 1], id);
      TimesSum(r, MeteredSeconds(interval, starts, metered, n - 1), TickSeconds(interval, starts, n - 1));
    }
  }

  /**
    Usage is metered, not only bounded: over a run of ticks with no gap over three intervals, an agent whose `r`
    containers every tick finds well is recorded for exactly `r` times the time from one interval before the first
    tick to the last.
   */
  lemma UsageIsMetered(interval: real, ticks: seq<TickInput>, id: string, r: nat)
    requires ValidTicks(ticks) && ticks != [] && interval >= 0.0 && NonDecreasing(StartTimes(ticks))
    requires forall i :: 0 < i < |ticks| ==> ticks[i].start - ticks[i - 1].start <= 3.0 * interval
    requires forall i :: 0 <= i < |ticks| ==> FindsWell(interval, ticks, i, id, r)
    ensures ReplicaSeconds(RunLog(interval, ticks), id) ==
            Times(r, interval + (ticks[|ticks| - 1].start - ticks[0].start))
  {
    var metered, starts := seq(|ticks|, i => true), StartTimes(ticks);
    forall i | 0 <= i < |ticks|
      ensures ReplicaSeconds(Logs(interval, ticks)[i], id) == Times(r, TickSeconds(interval, starts, i))
    {
      LogMeters(interval, ticks, i, id, r);
    }
    LogsAddUp(Logs(interval, ticks), interval, starts, metered, |ticks|, id, r);
    MeteredTimeExact(interval, starts, metered, |ticks|);
  }
}
