/**
  The scheduler (scheduler.py): each tick flushes request counts, then visits every active agent to
  sync its row, meter it and perhaps auto-scale it; the loop around it measures the time to meter.
 */
module Scheduler {
  import opened Basics
  import opened Sums
  import opened Quota
  import opened Fleet
  import opened Metering

  /** What a visit learns from the runtime: the containers it finds, their health, and those an auto-scale call would leave. */
  datatype Observation = Observation(live: nat, health: Health, autoScaled: nat)

  datatype Visited = Visited(world: World, entries: seq<Entry>, aborted: bool)

  /** How a tick's flush ends: written for the accounts found, or an exception after which the rollback may raise too. */
  datatype FlushOutcome = Wrote(existing: set<string>) | FlushRaised(rollbackRaises: bool)

  predicate Meterable(a: Agent) {
    a.status == Running || a.status == Scaling
  }

  function MeteredOf(id: string, a: Agent): Metered {
    Metered(id, a.user, a.cpu, a.memoryMb)
  }

  /** The entries of `record`: none for no replicas or no time. */
  function RecordEntries(a: Metered, replicas: nat, seconds: real, at: real): seq<Entry> {
    if replicas == 0 || seconds <= 0.0 then [] else [UsageEntry(a, replicas, seconds, at)]
  }

  /** Usage recorded for an agent whose row was just synced. */
  function VisitEntries(id: string, a: Agent, seconds: real, at: real): seq<Entry> {
    if Meterable(a) && a.replicas > 0 then RecordEntries(MeteredOf(id, a), a.replicas, seconds, at) else []
  }

  /** The headroom test of an agent whose row was just synced. */
  ghost function Headroom(w: World, id: string): Check
    requires id in w.agents
  {
    var a := w.agents[id];
    CheckResources(w.users, w.agents, a.user, Some(id), a.replicas + 1, a.cpu, a.memoryMb)
  }

  predicate WantsScaling(a: Agent) {
    a.autoScale && a.status == Running && a.replicas > 0
  }

  /** The world with the containers a visit finds. */
  function Seen(w: World, id: string, live: nat): World {
    w.(live := Recount(w.live, id, live))
  }

  /** One agent's turn in a tick.  An owner that cannot be found aborts the whole tick. */
  ghost function VisitStep(w: World, id: string, o: Observation, seconds: real, at: real): Visited
    requires id in w.agents && Active(w.agents[id].status)
  {
    if o.health.CheckRaised? then Visited(w, [], false)
    else
      var synced := SyncStep(Seen(w, id, o.live), id, o.health);
      var a := synced.agents[id];
      var entries := VisitEntries(id, a, seconds, at);
      if !WantsScaling(a) then Visited(synced, entries, false)
      else
        match Headroom(synced, id)
        case Exceeded(_) => Visited(synced, entries, false)
        case UnknownUser => Visited(synced, entries, true)
        case Allowed => Visited(synced.(live := Recount(synced.live, id, o.autoScaled)), entries, false)
  }

  predicate Distinct(ids: seq<string>) {
    forall i, j :: 0 <= i < j < |ids| ==> ids[i] != ids[j]
  }

  predicate AllActive(w: World, ids: seq<string>) {
    forall i :: 0 <= i < |ids| ==> ids[i] in w.agents && Active(w.agents[ids[i]].status)
  }

  /** The visits of one tick, in the order the rows were selected, up to the end or an abort. */
  ghost function TickSteps(w: World, ids: seq<string>, obs: string -> Observation, seconds: real, at: real): Visited
    requires Distinct(ids) && AllActive(w, ids)
    decreases |ids|
  {
    if ids == [] then Visited(w, [], false)
    else
      var first := VisitStep(w, ids[0], obs(ids[0]), seconds, at);
      if first.aborted then first
      else
        var rest := TickSteps(first.world, ids[1..], obs, seconds, at);
        Visited(rest.world, first.entries + rest.entries, rest.aborted)
  }

  class ControlPlane {
    const service: AgentService
    const meter: UsageMeter

    constructor (service: AgentService, meter: UsageMeter)
      ensures this.service == service && this.meter == meter
    {
      this.service := service;
      this.meter := meter;
    }

    /** The first half of a visit: replica count and status follow the live containers. */
    method SyncRow(id: string, health: Health)
      requires id in service.agents && Active(service.agents[id].status) && health.Report?
      modifies service`agents
      ensures service.State() == SyncStep(old(service.State()), id, health)
    {
      var agent := service.agents[id];
      var liveReplicas := LiveOf(service.live, id);
      if liveReplicas != agent.replicas {
        agent := agent.(replicas := liveReplicas);
      }
      var status := agent.status;
      if liveReplicas == 0 {
        status := Stopped;
      } else if !health.healthy && health.consecutiveFailures >= 3 {
        status := Crashed;
      } else if agent.status != Scaling {
        status := Running;
      }
      if status != agent.status {
        agent := agent.(status := status);
      }
      service.agents := service.agents[id := agent];
    }

    /** The last part of a visit: auto-scaling, if the plan has headroom. */
    method AutoScale(id: string, autoScaled: nat) returns (aborted: bool)
      requires id in service.agents && WantsScaling(service.agents[id])
      modifies service`live
      ensures aborted == Headroom(old(service.State()), id).UnknownUser?
      ensures service.live == if Headroom(old(service.State()), id) == Allowed then Recount(old(service.live), id, autoScaled)
                              else old(service.live)
    {
      var agent := service.agents[id];
      var check := EnsureResources(service.users, service.agents, agent.user, Some(id), agent.replicas + 1,
                                   agent.cpu, agent.memoryMb);
      aborted := check == UnknownUser;
      if check == Allowed {
        service.live := Recount(service.live, id, autoScaled);
      }
    }

    method VisitAgent(id: string, o: Observation, seconds: real, at: real) returns (aborted: bool)
      requires id in service.agents && Active(service.agents[id].status)
      modifies service, meter`table
      ensures var v := VisitStep(old(service.State()), id, o, seconds, at);
              && service.State() == v.world
              && meter.table == ApplyAll(old(meter.table), v.entries)
              && aborted == v.aborted
    {
      aborted := false;
      if o.health.CheckRaised? {
        return;
      }
      service.live := Recount(service.live, id, o.live);
      SyncRow(id, o.health);
      var agent := service.agents[id];
      RecordVisit(id, agent, seconds, at);
      if agent.autoScale && agent.status == Running && agent.replicas > 0 {
        aborted := AutoScale(id, o.autoScaled);
      }
    }

    method RecordVisit(id: string, agent: Agent, seconds: real, at: real)
      modifies meter`table
      ensures meter.table == ApplyAll(old(meter.table), VisitEntries(id, agent, seconds, at))
    {
      ghost var entries := VisitEntries(id, agent, seconds, at);
      assert entries != [] ==> entries[..0] == [];
      if (agent.status == Running || agent.status == Scaling) && agent.replicas > 0 {
        meter.Record(MeteredOf(id, agent), agent.replicas, seconds, at);
      }
    }

    /** `_tick` after the flush: `ids` are the active agents in the order they were selected. */
    method VisitAll(ids: seq<string>, obs: string -> Observation, seconds: real, at: real)
      requires Distinct(ids) && AllActive(service.State(), ids)
      modifies service, meter`table
      ensures var v := TickSteps(old(service.State()), ids, obs, seconds, at);
              service.State() == v.world && meter.table == ApplyAll(old(meter.table), v.entries)
    {
      ghost var whole := TickSteps(service.State(), ids, obs, seconds, at);
      ghost var table := meter.table;
      ghost var done: seq<Entry> := [];
      assert ids[0..] == ids;
      for i := 0 to |ids|
        invariant AllActive(service.State(), ids[i..])
        invariant meter.table == ApplyAll(table, done)
        invariant Follows(whole, done, TickSteps(service.State(), ids[i..], obs, seconds, at))
      {
        ghost var w := service.State();
        ghost var v := VisitStep(w, ids[i], obs(ids[i]), seconds, at);
        TickUnroll(w, ids, i, obs, seconds, at);
        ApplyAllConcat(table, done, v.entries);
        var aborted := VisitAgent(ids[i], obs(ids[i]), seconds, at);
        if aborted {
          return;
        }
        FollowsOn(whole, done, TickSteps(w, ids[i..], obs, seconds, at), v.entries,
                  TickSteps(service.State(), ids[i + 1..], obs, seconds, at));
        done := done + v.entries;
      }
      assert done + [] == done;
    }

    /** A whole tick.  A flush that raises puts its batch back if its rollback does not raise, and the tick goes on. */
    method Tick(flush: FlushOutcome, ids: seq<string>, obs: string -> Observation,
                elapsed: Option<real>, interval: real, at: real)
      requires Distinct(ids) && AllActive(service.State(), ids)
      modifies service, meter
      ensures var seconds := if elapsed.Some? then elapsed.value else interval;
              var v := TickSteps(old(service.State()), ids, obs, seconds, at);
              && service.State() == v.world
              && (flush.FlushRaised? ==>
                    && meter.pending == (if flush.rollbackRaises then multiset{} else old(meter.pending))
                    && meter.table == ApplyAll(old(meter.table), v.entries))
              && (flush.Wrote? ==>
                    && meter.pending == multiset{}
                    && exists kept, written :: Writes(old(meter.pending), flush.existing, kept, written)
                                               && meter.table == ApplyAll(old(meter.table), written + v.entries))
    {
      var seconds := if elapsed.Some? then elapsed.value else interval;
      var batch := meter.TakeBatch();
      ghost var written: seq<Entry> := [];
      if flush.Wrote? {
        var n;
        ghost var kept;
        n, kept, written := meter.WriteBatch(batch, flush.existing);
        assert Writes(old(meter.pending), flush.existing, kept, written);
      } else if !flush.rollbackRaises {
        meter.RestoreBatch(batch);
      }
      VisitAll(ids, obs, seconds, at);
      ghost var v := TickSteps(old(service.State()), ids, obs, seconds, at);
      ApplyAllConcat(old(meter.table), written, v.entries);
    }

    /** The clock of `run_scheduler_loop` over the ticks that start at `starts`. */
    method MeasureLoop(interval: real, starts: seq<real>) returns (seconds: seq<real>)
      ensures |seconds| == |starts|
      ensures forall i :: 0 <= i < |starts| ==> seconds[i] == TickSeconds(interval, starts, i)
    {
      seconds := [];
      var lastTick: Option<real> := None;
      for i := 0 to |starts|
        invariant |seconds| == i
        invariant lastTick == if i == 0 then None else Some(starts[i - 1])
        invariant forall j :: 0 <= j < i ==> seconds[j] == TickSeconds(interval, starts, j)
      {
        var started := starts[i];
        var elapsed: Option<real> := None;
        if lastTick.Some? {
          elapsed := Some(if started - lastTick.value < 3.0 * interval then started - lastTick.value else 3.0 * interval);
        }
        lastTick := Some(started);
        seconds := seconds + [if elapsed.Some? then elapsed.value else interval];
      }
    }
  }

  /** A tick that has recorded `done` and still has `rest` to go. */
  ghost predicate Follows(whole: Visited, done: seq<Entry>, rest: Visited) {
    whole == Visited(rest.world, done + rest.entries, rest.aborted)
  }

  lemma FollowsOn(whole: Visited, done: seq<Entry>, mid: Visited, more: seq<Entry>, rest: Visited)
    requires Follows(whole, done, mid) && Follows(mid, more, rest)
    ensures Follows(whole, done + more, rest)
  {
    assert done + (more + rest.entries) == (done + more) + rest.entries;
  }

  /** A visit leaves every other agent's row alone, so a tick never reaches one that became inactive. */
  lemma TickUnroll(w: World, ids: seq<string>, i: nat, obs: string -> Observation, seconds: real, at: real)
    requires i < |ids| && Distinct(ids) && AllActive(w, ids[i..])
    ensures ids[i] in w.agents && Active(w.agents[ids[i]].status)
    ensures var first := VisitStep(w, ids[i], obs(ids[i]), seconds, at);
            && AllActive(first.world, ids[i + 1..])
            && (first.aborted ==> TickSteps(w, ids[i..], obs, seconds, at) == first)
            && (!first.aborted ==>
                  Follows(TickSteps(w, ids[i..], obs, seconds, at), first.entries,
                          TickSteps(first.world, ids[i + 1..], obs, seconds, at)))
  {
    assert ids[i..][0] == ids[i] && ids[i..][1..] == ids[i + 1..];
    assert forall j :: i < j < |ids| ==> ids[i..][j - i] == ids[j] && ids[i + 1..][j - i - 1] == ids[j];
  }

  // ---------- Metered time ----------

  /** The seconds a tick meters: the gap since the previous one, capped, or the interval for the first. */
  function TickSeconds(interval: real, starts: seq<real>, i: nat): real
    requires i < |starts|
  {
    if i == 0 then interval
    else
      var gap := starts[i] - starts[i - 1];
      if gap < 3.0 * interval then gap else 3.0 * interval
  }

  predicate NonDecreasing(times: seq<real>) {
    forall i, j :: 0 <= i < j < |times| ==> times[i] <= times[j]
  }

  /** The seconds metered for one agent over the first `n` ticks, some of which fail or skip it. */
  ghost function MeteredSeconds(interval: real, starts: seq<real>, metered: seq<bool>, n: nat): real
    requires |metered| == |starts| && n <= |starts|
  {
    if n == 0 then 0.0
    else MeteredSeconds(interval, starts, metered, n - 1)
         + (if metered[n - 1] then TickSeconds(interval, starts, n - 1) else 0.0)
  }

  /** Metered time is bounded by real time, whatever ticks fail; no gap is metered twice. */
  lemma {:induction false} MeteredTimeBounded(interval: real, starts: seq<real>, metered: seq<bool>, n: nat)
    requires interval >= 0.0 && NonDecreasing(starts) && |metered| == |starts| && 1 <= n <= |starts|
    ensures 0.0 <= MeteredSeconds(interval, starts, metered, n) <= interval + (starts[n - 1] - starts[0])
  {
    if n == 1 {
      assert MeteredSeconds(interval, starts, metered, 0) == 0.0;
    } else {
      MeteredTimeBounded(interval, starts, metered, n - 1);
    }
  }

  /** With no gap over three intervals and no tick missed, metered time is exactly real time. */
  lemma {:induction false} MeteredTimeExact(interval: real, starts: seq<real>, metered: seq<bool>, n: nat)
    requires |metered| == |starts| && 1 <= n <= |starts|
    requires forall i :: 0 <= i < n ==> metered[i]
    requires forall i :: 0 < i < n ==> starts[i] - starts[i - 1] <= 3.0 * interval
    ensures MeteredSeconds(interval, starts, metered, n) == interval + (starts[n - 1] - starts[0])
  {
    if n == 1 {
      assert MeteredSeconds(interval, starts, metered, 0) == 0.0;
    } else {
      MeteredTimeExact(interval, starts, metered, n - 1);
    }
  }

  /** One tick as it concerns one agent: the loop's start time, the tick's wall clock, what was metered. */
  datatype TickRecord = TickRecord(start: real, at: real, agent: Metered, replicas: nat, metered: bool)

  function Starts(ticks: seq<TickRecord>): (r: seq<real>)
    ensures |r| == |ticks| && forall i :: 0 <= i < |ticks| ==> r[i] == ticks[i].start
  {
    seq(|ticks|, i requires 0 <= i < |ticks| => ticks[i].start)
  }

  /** The entries tick `i` records for the agent. */
  function OwnEntries(interval: real, ticks: seq<TickRecord>, i: nat): seq<Entry>
    requires i < |ticks|
  {
    var t := ticks[i];
    if t.metered then RecordEntries(t.agent, t.replicas, TickSeconds(interval, Starts(ticks), i), t.at) else []
  }

  ghost function OwnLogs(interval: real, ticks: seq<TickRecord>): (logs: seq<seq<Entry>>)
    ensures |logs| == |ticks| && forall i {:trigger logs[i]} :: 0 <= i < |ticks| ==> logs[i] == OwnEntries(interval, ticks, i)
  {
    seq(|ticks|, i requires 0 <= i < |ticks| => OwnEntries(interval, ticks, i))
  }

  ghost function Flatten(logs: seq<seq<Entry>>, n: nat): seq<Entry>
    requires n <= |logs|
  {
    if n == 0 then [] else Flatten(logs, n - 1) + logs[n - 1]
  }

  /** The entries the ticks record for the agent. */
  ghost function TickLog(interval: real, ticks: seq<TickRecord>): seq<Entry> {
    Flatten(OwnLogs(interval, ticks), |ticks|)
  }

  /** A tick's seconds, if its wall clock falls in the hour, whether or not the agent was metered. */
  ghost function TickHourSeconds(interval: real, ticks: seq<TickRecord>, i: nat, hour: int): real
    requires i < |ticks|
  {
    if HourOf(ticks[i].at) == hour then TickSeconds(interval, Starts(ticks), i) else 0.0
  }

  ghost function HourSeconds(interval: real, ticks: seq<TickRecord>, n: nat, hour: int): real
    requires n <= |ticks|
  {
    if n == 0 then 0.0
    else HourSeconds(interval, ticks, n - 1, hour) + TickHourSeconds(interval, ticks, n - 1, hour)
  }

  /** They all lie between the hour's first and last tick, plus what the first one brought. */
  lemma {:induction false} HourSpan(interval: real, ticks: seq<TickRecord>, n: nat, hour: int)
      returns (first: nat, last: nat)
    requires interval >= 0.0 && NonDecreasing(Starts(ticks)) && n <= |ticks|
    ensures || HourSeconds(interval, ticks, n, hour) == 0.0
            || (&& first <= last < n && HourOf(ticks[first].at) == hour && HourOf(ticks[last].at) == hour
                && HourSeconds(interval, ticks, n, hour) <= 3.0 * interval + (ticks[last].start - ticks[first].start))
  {
    first, last := 0, 0;
    if n > 0 {
      var i := n - 1;
      first, last := HourSpan(interval, ticks, i, hour);
      if HourOf(ticks[i].at) == hour {
        if HourSeconds(interval, ticks, i, hour) == 0.0 {
          first, last := i, i;
        } else {
          assert Starts(ticks)[last] <= Starts(ticks)[i - 1];
          last := i;
        }
      }
    }
  }

  lemma HourSecondsBounded(interval: real, ticks: seq<TickRecord>, hour: int, offset: real, lag: real)
    requires interval >= 0.0 && lag >= 0.0 && NonDecreasing(Starts(ticks))
    requires forall i :: 0 <= i < |ticks| ==> ticks[i].start + offset <= ticks[i].at <= ticks[i].start + offset + lag
    ensures HourSeconds(interval, ticks, |ticks|, hour) <= 3600.0 + lag + 3.0 * interval
  {
    var first, last := HourSpan(interval, ticks, |ticks|, hour);
  }

  lemma EntryAdds(log: seq<Entry>, e: Entry, s: Slot)
    ensures SumAt(log + [e], s).replicaSeconds ==
            SumAt(log, s).replicaSeconds + (if EntrySlot(e) == s then e.amounts.replicaSeconds else 0.0)
  {
    assert (log + [e])[..|log|] == log;
  }

  lemma RecordedSeconds(a: Metered, replicas: nat, sec: real, at: real, log: seq<Entry>, s: Slot)
    ensures SumAt(log + RecordEntries(a, replicas, sec, at), s).replicaSeconds ==
            SumAt(log, s).replicaSeconds
            + (if replicas > 0 && sec > 0.0 && Slot(a.id, HourOf(at)) == s then Times(replicas, sec) else 0.0)
  {
    if replicas > 0 && sec > 0.0 {
      EntryAdds(log, UsageEntry(a, replicas, sec, at), s);
      TimesIsProduct(replicas, sec);
    } else {
      assert log + [] == log;
    }
  }

  lemma TickSecondsNotNegative(interval: real, starts: seq<real>, i: nat)
    requires interval >= 0.0 && NonDecreasing(starts) && i < |starts|
    ensures TickSeconds(interval, starts, i) >= 0.0
  {
  }

  lemma UpToCeiling(replicas: nat, ceiling: nat, sec: real)
    requires replicas <= ceiling && sec >= 0.0
    ensures 0.0 <= Times(replicas, sec) <= Times(ceiling, sec) && Times(ceiling, 0.0) == 0.0
  {
    TimesMonotone(0, replicas, sec, sec);
    TimesMonotone(replicas, ceiling, sec, sec);
    TimesIsProduct(ceiling, 0.0);
  }

  lemma RecordWithinCeiling(a: Metered, replicas: nat, sec: real, at: real, s: Slot, ceiling: nat)
    requires a.id == s.agent && replicas <= ceiling && sec >= 0.0
    ensures SumAt(RecordEntries(a, replicas, sec, at), s).replicaSeconds <= Times(ceiling, if HourOf(at) == s.hour then sec else 0.0)
  {
    var own := RecordEntries(a, replicas, sec, at);
    RecordedSeconds(a, replicas, sec, at, [], s);
    assert [] + own == own;
    UpToCeiling(replicas, ceiling, sec);
  }

  /** What a tick records is no more than the replica ceiling for its seconds in the hour. */
  lemma OwnWithinCeiling(interval: real, ticks: seq<TickRecord>, i: nat, s: Slot, ceiling: nat)
    requires interval >= 0.0 && NonDecreasing(Starts(ticks)) && i < |ticks|
    requires ticks[i].replicas <= ceiling && ticks[i].agent.id == s.agent
    ensures SumAt(OwnEntries(interval, ticks, i), s).replicaSeconds <= Times(ceiling, TickHourSeconds(interval, ticks, i, s.hour))
  {
    var t, sec := ticks[i], TickSeconds(interval, Starts(ticks), i);
    TickSecondsNotNegative(interval, Starts(ticks), i);
    if t.metered {
      RecordWithinCeiling(t.agent, t.replicas, sec, t.at, s, ceiling);
    } else {
      UpToCeiling(0, ceiling, sec);
    }
  }

  lemma {:induction false} SecondsConcat(a: seq<Entry>, b: seq<Entry>, s: Slot)
    ensures SumAt(a + b, s).replicaSeconds == SumAt(a, s).replicaSeconds + SumAt(b, s).replicaSeconds
    decreases |b|
  {
    if b == [] {
      assert a + b == a;
    } else {
      assert (a + b)[..|a + b| - 1] == a + b[..|b| - 1];
      SecondsConcat(a, b[..|b| - 1], s);
    }
  }

  function SumOf(xs: seq<real>, n: nat): real
    requires n <= |xs|
  {
    if n == 0 then 0.0 else SumOf(xs, n - 1) + xs[n - 1]
  }

  lemma {:induction false} FlattenWithin(logs: seq<seq<Entry>>, secs: seq<real>, n: nat, s: Slot, ceiling: nat)
    requires |logs| == |secs| && n <= |logs|
    requires forall i :: 0 <= i < |logs| ==> SumAt(logs[i], s).replicaSeconds <= Times(ceiling, secs[i])
    ensures SumAt(Flatten(logs, n), s).replicaSeconds <= Times(ceiling, SumOf(secs, n))
    decreases n
  {
    if n == 0 {
      TimesIsProduct(ceiling, 0.0);
    } else {
      FlattenWithin(logs, secs, n - 1, s, ceiling);
      SecondsConcat(Flatten(logs, n - 1), logs[n - 1], s);
      TimesSum(ceiling, SumOf(secs, n - 1), secs[n - 1]);
    }
  }

  ghost function HourSecs(interval: real, ticks: seq<TickRecord>, hour: int): (secs: seq<real>)
    ensures |secs| == |ticks| && forall i {:trigger secs[i]} :: 0 <= i < |ticks| ==> secs[i] == TickHourSeconds(interval, ticks, i, hour)
  {
    seq(|ticks|, i requires 0 <= i < |ticks| => TickHourSeconds(interval, ticks, i, hour))
  }

  lemma {:induction false} SecsAddUp(interval: real, ticks: seq<TickRecord>, n: nat, hour: int)
    requires n <= |ticks|
    ensures SumOf(HourSecs(interval, ticks, hour), n) == HourSeconds(interval, ticks, n, hour)
    decreases n
  {
    if n > 0 {
      SecsAddUp(interval, ticks, n - 1, hour);
    }
  }

  /** What an agent's log puts in an hour's bucket never exceeds the replica ceiling for the hour's seconds. */
  lemma HourWithinCeiling(interval: real, ticks: seq<TickRecord>, s: Slot, ceiling: nat)
    requires interval >= 0.0 && NonDecreasing(Starts(ticks))
    requires forall i :: 0 <= i < |ticks| ==> ticks[i].replicas <= ceiling && ticks[i].agent.id == s.agent
    ensures SumAt(TickLog(interval, ticks), s).replicaSeconds <= Times(ceiling, HourSeconds(interval, ticks, |ticks|, s.hour))
  {
    var logs, secs := OwnLogs(interval, ticks), HourSecs(interval, ticks, s.hour);
    forall i | 0 <= i < |logs| ensures SumAt(logs[i], s).replicaSeconds <= Times(ceiling, secs[i]) {
      OwnWithinCeiling(interval, ticks, i, s, ceiling);
    }
    FlattenWithin(logs, secs, |logs|, s, ceiling);
    SecsAddUp(interval, ticks, |ticks|, s.hour);
  }

  lemma HourBounded(interval: real, ticks: seq<TickRecord>, s: Slot, ceiling: nat, offset: real, lag: real)
    requires interval >= 0.0 && lag >= 0.0 && NonDecreasing(Starts(ticks))
    requires forall i :: 0 <= i < |ticks| ==> ticks[i].replicas <= ceiling && ticks[i].agent.id == s.agent
    requires forall i :: 0 <= i < |ticks| ==> ticks[i].start + offset <= ticks[i].at <= ticks[i].start + offset + lag
    ensures SumAt(TickLog(interval, ticks), s).replicaSeconds <= Times(ceiling, 3600.0 + lag + 3.0 * interval)
  {
    HourWithinCeiling(interval, ticks, s, ceiling);
    HourSecondsBounded(interval, ticks, s.hour, offset, lag);
    TimesMonotone(ceiling, ceiling, HourSeconds(interval, ticks, |ticks|, s.hour), 3600.0 + lag + 3.0 * interval);
  }

  /** Amounts of an agent's shape: vCPU and memory time in proportion to replica time. */
  ghost predicate InShape(x: Amounts, cpu: real, memoryMb: nat) {
    x.vcpuSeconds == cpu * x.replicaSeconds && x.memoryMbSeconds == memoryMb as real * x.replicaSeconds
  }

  lemma Distribute(c: real, x: real, y: real)
    ensures c * (x + y) == c * x + c * y
  {
  }

  lemma {:induction false} SumInShape(log: seq<Entry>, s: Slot, cpu: real, memoryMb: nat)
    requires forall i :: 0 <= i < |log| && log[i].agent == s.agent ==> InShape(log[i].amounts, cpu, memoryMb)
    ensures InShape(SumAt(log, s), cpu, memoryMb)
  {
    if log != [] {
      var past, e := log[..|log| - 1], log[|log| - 1];
      SumInShape(past, s, cpu, memoryMb);
      Distribute(cpu, SumAt(past, s).replicaSeconds, e.amounts.replicaSeconds);
      Distribute(memoryMb as real, SumAt(past, s).replicaSeconds, e.amounts.replicaSeconds);
    }
  }

  lemma EntryInShape(a: Metered, replicas: int, sec: real, at: real)
    ensures InShape(UsageEntry(a, replicas, sec, at).amounts, a.cpu, a.memoryMb)
  {
    var r, m := replicas as real, a.memoryMb as real;
    assert r * a.cpu * sec == a.cpu * (r * sec) && r * m * sec == m * (r * sec);
  }

  // ---------- What ticks record ----------

  /**
    One tick of the loop: the loop's start time, the tick's wall clock, the world it finds, and what it sees.  The
    worlds of a run of ticks are free, since requests come between.
   */
  datatype TickInput = TickInput(start: real, at: real, world: World, ids: seq<string>, obs: string -> Observation)

  ghost predicate ValidTicks(ticks: seq<TickInput>) {
    forall i :: 0 <= i < |ticks| ==> Distinct(ticks[i].ids) && AllActive(ticks[i].world, ticks[i].ids)
  }

  function StartTimes(ticks: seq<TickInput>): (r: seq<real>)
    ensures |r| == |ticks| && forall i :: 0 <= i < |ticks| ==> r[i] == ticks[i].start
  {
    seq(|ticks|, i requires 0 <= i < |ticks| => ticks[i].start)
  }

  /** What tick `i` records. */
  ghost function TickEntries(interval: real, ticks: seq<TickInput>, i: nat): seq<Entry>
    requires ValidTicks(ticks) && i < |ticks|
  {
    var t := ticks[i];
    TickSteps(t.world, t.ids, t.obs, TickSeconds(interval, StartTimes(ticks), i), t.at).entries
  }

  ghost function Logs(interval: real, ticks: seq<TickInput>): (logs: seq<seq<Entry>>)
    requires ValidTicks(ticks)
    ensures |logs| == |ticks| && forall i :: 0 <= i < |ticks| ==> logs[i] == TickEntries(interval, ticks, i)
  {
    seq(|ticks|, i requires 0 <= i < |ticks| => TickEntries(interval, ticks, i))
  }

  /** Everything a run of ticks records. */
  ghost function RunLog(interval: real, ticks: seq<TickInput>): seq<Entry>
    requires ValidTicks(ticks)
  {
    Flatten(Logs(interval, ticks), |ticks|)
  }

  /** The entries of one agent. */
  ghost function Only(log: seq<Entry>, id: string): seq<Entry> {
    if log == [] then []
    else Only(log[..|log| - 1], id) + (if log[|log| - 1].agent == id then [log[|log| - 1]] else [])
  }

  lemma {:induction false} OnlyConcat(a: seq<Entry>, b: seq<Entry>, id: string)
    ensures Only(a + b, id) == Only(a, id) + Only(b, id)
    decreases |b|
  {
    if b == [] {
      assert a + b == a;
    } else {
      assert (a + b)[..|a + b| - 1] == a + b[..|b| - 1];
      OnlyConcat(a, b[..|b| - 1], id);
    }
  }

  lemma {:induction false} SumAtOnly(log: seq<Entry>, s: Slot)
    ensures SumAt(log, s) == SumAt(Only(log, s.agent), s)
  {
    if log != [] {
      var past, e := log[..|log| - 1], log[|log| - 1];
      SumAtOnly(past, s);
      if e.agent == s.agent {
        assert Only(log, s.agent)[..|Only(past, s.agent)|] == Only(past, s.agent);
      } else {
        assert Only(log, s.agent) == Only(past, s.agent);
      }
    }
  }

  /** A visit records for its own agent, at most once, with the containers it finds and the row's owner and shape. */
  lemma VisitRecords(w: World, visited: string, o: Observation, seconds: real, at: real, id: string)
    requires visited in w.agents && Active(w.agents[visited].status)
    ensures var v := VisitStep(w, visited, o, seconds, at);
            && (visited != id ==> Only(v.entries, id) == [])
            && (visited == id ==>
                  || Only(v.entries, id) == []
                  || Only(v.entries, id) == RecordEntries(MeteredOf(id, w.agents[id]), o.live, seconds, at))
  {
    var v := VisitStep(w, visited, o, seconds, at);
    assert |v.entries| <= 1;
    if v.entries != [] {
      assert v.entries[..0] == [] && Only([], id) == [];
    }
  }

  /** A tick records for an agent nothing, or the containers its visit finds for the tick's seconds: never twice, never more. */
  lemma {:induction false} TickRecords(
      w: World, ids: seq<string>, obs: string -> Observation, seconds: real, at: real, id: string)
    requires Distinct(ids) && AllActive(w, ids)
    ensures var own := Only(TickSteps(w, ids, obs, seconds, at).entries, id);
            || own == []
            || (id in ids && own == RecordEntries(MeteredOf(id, w.agents[id]), obs(id).live, seconds, at))
    decreases |ids|
  {
    if ids != [] {
      var first := VisitStep(w, ids[0], obs(ids[0]), seconds, at);
      VisitRecords(w, ids[0], obs(ids[0]), seconds, at, id);
      VisitLeavesOthers(w, ids[0], obs(ids[0]), seconds, at, id);
      if !first.aborted {
        var rest := TickSteps(first.world, ids[1..], obs, seconds, at);
        TickRecords(first.world, ids[1..], obs, seconds, at, id);
        OnlyConcat(first.entries, rest.entries, id);
        assert ids[0] !in ids[1..];
      }
    }
  }

  lemma VisitLeavesOthers(w: World, visited: string, o: Observation, seconds: real, at: real, id: string)
    requires visited in w.agents && Active(w.agents[visited].status)
    ensures var next := VisitStep(w, visited, o, seconds, at).world;
            && next.agents.Keys == w.agents.Keys
            && (id != visited ==> ContainersOf(next.live, id) == ContainersOf(w.live, id)
                                  && (id in w.agents ==> next.agents[id] == w.agents[id]))
  {
  }

  /** One tick as it concerns one agent. */
  ghost function RecordOf(interval: real, ticks: seq<TickInput>, i: nat, id: string): TickRecord
    requires ValidTicks(ticks) && i < |ticks|
  {
    var t := ticks[i];
    var agent := if id in t.world.agents then MeteredOf(id, t.world.agents[id]) else Metered(id, "", 0.0, 0);
    TickRecord(t.start, t.at, agent, t.obs(id).live, Only(TickEntries(interval, ticks, i), id) != [])
  }

  ghost function Records(interval: real, ticks: seq<TickInput>, id: string): (r: seq<TickRecord>)
    requires ValidTicks(ticks)
    ensures |r| == |ticks| && forall i :: 0 <= i < |ticks| ==> r[i] == RecordOf(interval, ticks, i, id)
  {
    seq(|ticks|, i requires 0 <= i < |ticks| => RecordOf(interval, ticks, i, id))
  }

  lemma TickIsRecord(interval: real, ticks: seq<TickInput>, i: nat, id: string)
    requires ValidTicks(ticks) && i < |ticks|
    ensures var r := RecordOf(interval, ticks, i, id); var sec := TickSeconds(interval, StartTimes(ticks), i);
            Only(TickEntries(interval, ticks, i), id) ==
            if r.metered then RecordEntries(r.agent, r.replicas, sec, r.at) else []
  {
    var t := ticks[i];
    TickRecords(t.world, t.ids, t.obs, TickSeconds(interval, StartTimes(ticks), i), t.at, id);
  }

  lemma {:induction false} FlattenOnly(logs: seq<seq<Entry>>, own: seq<seq<Entry>>, n: nat, id: string)
    requires |logs| == |own| && n <= |logs|
    requires forall i :: 0 <= i < |logs| ==> Only(logs[i], id) == own[i]
    ensures Only(Flatten(logs, n), id) == Flatten(own, n)
    decreases n
  {
    if n > 0 {
      FlattenOnly(logs, own, n - 1, id);
      OnlyConcat(Flatten(logs, n - 1), logs[n - 1], id);
    }
  }

  /** So what a run of ticks records for an agent is its log of ticks. */
  lemma RunRecords(interval: real, ticks: seq<TickInput>, id: string)
    requires ValidTicks(ticks)
    ensures Only(RunLog(interval, ticks), id) == TickLog(interval, Records(interval, ticks, id))
  {
    var records, logs := Records(interval, ticks, id), Logs(interval, ticks);
    assert Starts(records) == StartTimes(ticks);
    forall i | 0 <= i < |logs| ensures Only(logs[i], id) == OwnLogs(interval, records)[i] {
      TickIsRecord(interval, ticks, i, id);
    }
    FlattenOnly(logs, OwnLogs(interval, records), |ticks|, id);
  }

  /** No agent changes hands from tick to tick. */
  ghost predicate OwnersStay(ticks: seq<TickInput>, owner: string -> string) {
    forall i, id :: 0 <= i < |ticks| && id in ticks[i].world.agents ==> ticks[i].world.agents[id].user == owner(id)
  }

  lemma {:induction false} TickOwned(
      w: World, ids: seq<string>, obs: string -> Observation, seconds: real, at: real, owner: string -> string)
    requires Distinct(ids) && AllActive(w, ids) && forall id :: id in w.agents ==> w.agents[id].user == owner(id)
    ensures Owned(TickSteps(w, ids, obs, seconds, at).entries, owner)
    decreases |ids|
  {
    if ids != [] {
      var first := VisitStep(w, ids[0], obs(ids[0]), seconds, at);
      if !first.aborted {
        TickOwned(first.world, ids[1..], obs, seconds, at, owner);
      }
    }
  }

  lemma {:induction false} FlattenOwned(logs: seq<seq<Entry>>, n: nat, owner: string -> string)
    requires n <= |logs| && forall i :: 0 <= i < |logs| ==> Owned(logs[i], owner)
    ensures Owned(Flatten(logs, n), owner)
    decreases n
  {
    if n > 0 {
      FlattenOwned(logs, n - 1, owner);
    }
  }

  lemma RunOwned(interval: real, ticks: seq<TickInput>, owner: string -> string)
    requires ValidTicks(ticks) && OwnersStay(ticks, owner)
    ensures Owned(RunLog(interval, ticks), owner)
  {
    forall i | 0 <= i < |ticks| ensures Owned(Logs(interval, ticks)[i], owner) {
      var t := ticks[i];
      TickOwned(t.world, t.ids, t.obs, TickSeconds(interval, StartTimes(ticks), i), t.at, owner);
    }
    FlattenOwned(Logs(interval, ticks), |ticks|, owner);
  }

  /** A bucket is the sum of its agent's log of ticks. */
  lemma BucketIsTickLog(interval: real, ticks: seq<TickInput>, owner: string -> string, s: Slot)
    requires ValidTicks(ticks) && OwnersStay(ticks, owner)
    ensures var table := TableOf(RunLog(interval, ticks));
            s in table ==> table[s].amounts == SumAt(TickLog(interval, Records(interval, ticks, s.agent)), s)
  {
    RunOwned(interval, ticks, owner);
    BucketIsSum(RunLog(interval, ticks), owner, s);
    SumAtOnly(RunLog(interval, ticks), s);
    RunRecords(interval, ticks, s.agent);
  }

  /**
    Over every run of ticks, no hour bucket holds more than one hour, the clock lag and one capped gap of the most
    containers that visits found of its agent.  `lag` bounds the time from the loop reading its own clock to the tick reading the wall
    clock, whose offset is `offset`.
   */
  lemma {:induction false} BucketBounded(
      interval: real, ticks: seq<TickInput>, owner: string -> string, s: Slot, ceiling: nat, offset: real, lag: real)
    requires ValidTicks(ticks) && OwnersStay(ticks, owner)
    requires interval >= 0.0 && lag >= 0.0 && NonDecreasing(StartTimes(ticks))
    requires forall i :: 0 <= i < |ticks| ==> ticks[i].obs(s.agent).live <= ceiling
    requires forall i :: 0 <= i < |ticks| ==> ticks[i].start + offset <= ticks[i].at <= ticks[i].start + offset + lag
    ensures var table := TableOf(RunLog(interval, ticks));
            s in table ==> table[s].amounts.replicaSeconds <= Times(ceiling, 3600.0 + lag + 3.0 * interval)
  {
    BucketIsTickLog(interval, ticks, owner, s);
    RecordsBounded(interval, ticks, s, ceiling, offset, lag);
  }

  lemma RecordsBounded(interval: real, ticks: seq<TickInput>, s: Slot, ceiling: nat, offset: real, lag: real)
    requires ValidTicks(ticks) && interval >= 0.0 && lag >= 0.0 && NonDecreasing(StartTimes(ticks))
    requires forall i :: 0 <= i < |ticks| ==> ticks[i].obs(s.agent).live <= ceiling
    requires forall i :: 0 <= i < |ticks| ==> ticks[i].start + offset <= ticks[i].at <= ticks[i].start + offset + lag
    ensures SumAt(TickLog(interval, Records(interval, ticks, s.agent)), s).replicaSeconds <=
            Times(ceiling, 3600.0 + lag + 3.0 * interval)
  {
    var records := Records(interval, ticks, s.agent);
    assert Starts(records) == StartTimes(ticks);
    HourBounded(interval, records, s, ceiling, offset, lag);
  }

  lemma {:induction false} FlattenInShape(logs: seq<seq<Entry>>, n: nat, cpu: real, memoryMb: nat)
    requires n <= |logs|
    requires forall i, j :: 0 <= i < |logs| && 0 <= j < |logs[i]| ==> InShape(logs[i][j].amounts, cpu, memoryMb)
    ensures forall j :: 0 <= j < |Flatten(logs, n)| ==> InShape(Flatten(logs, n)[j].amounts, cpu, memoryMb)
    decreases n
  {
    if n > 0 {
      FlattenInShape(logs, n - 1, cpu, memoryMb);
    }
  }

  lemma TickLogInShape(interval: real, ticks: seq<TickRecord>, cpu: real, memoryMb: nat)
    requires forall i :: 0 <= i < |ticks| && ticks[i].metered ==> ticks[i].agent.cpu == cpu && ticks[i].agent.memoryMb == memoryMb
    ensures forall i :: 0 <= i < |TickLog(interval, ticks)| ==> InShape(TickLog(interval, ticks)[i].amounts, cpu, memoryMb)
  {
    var logs: seq<seq<Entry>> := OwnLogs(interval, ticks);
    forall i: int, j: int | 0 <= i < |logs| && 0 <= j < |logs[i]| ensures InShape(logs[i][j].amounts, cpu, memoryMb) {
      var t := ticks[i];
      EntryInShape(t.agent, t.replicas, TickSeconds(interval, Starts(ticks), i), t.at);
    }
    FlattenInShape(logs, |logs|, cpu, memoryMb);
  }

  /**
    Usage is what was reserved: over every run of ticks in which an agent's row keeps its shape, its buckets' vCPU and
    memory time are its replica time in that shape.
   */
  lemma {:induction false} UsageIsReservation(
      interval: real, ticks: seq<TickInput>, owner: string -> string, s: Slot, cpu: real, memoryMb: nat)
    requires ValidTicks(ticks) && OwnersStay(ticks, owner)
    requires forall i :: 0 <= i < |ticks| && s.agent in ticks[i].world.agents ==>
               var a := ticks[i].world.agents[s.agent]; a.cpu == cpu && a.memoryMb == memoryMb
    ensures var table := TableOf(RunLog(interval, ticks));
            s in table ==> InShape(table[s].amounts, cpu, memoryMb)
  {
    var records := Records(interval, ticks, s.agent);
    forall i | 0 <= i < |ticks| && records[i].metered
      ensures records[i].agent.cpu == cpu && records[i].agent.memoryMb == memoryMb
    {
      var t := ticks[i];
      TickRecords(t.world, t.ids, t.obs, TickSeconds(interval, StartTimes(ticks), i), t.at, s.agent);
    }
    BucketIsTickLog(interval, ticks, owner, s);
    TickLogInShape(interval, records, cpu, memoryMb);
    SumInShape(TickLog(interval, records), s, cpu, memoryMb);
  }
}
