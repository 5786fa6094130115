/**
  What any number of scheduler ticks can do to an account between API calls (scheduler.py): how far
  auto-scaling can take its live replicas, and how an agent's status settles.

  A run is a sequence of single visits, so it covers ticks cut short by an error and containers that
  die between two visits of the same tick.
 */
module AutoScaling {
  import opened Basics
  import opened Sums
  import opened Quota
  import opened Fleet
  import opened PlanSafety
  import Metering
  import opened Scheduler

  datatype Turn =
    | Visit(id: string, o: Observation, seconds: real, at: real)
    | Lose(id: string, left: nat)

  /** Ticks select active agents only; containers may die before a visit, and an auto-scale call adds at most one. */
  ghost predicate Enabled(w: World, t: Turn) {
    match t
    case Visit(id, o, _, _) =>
      id in w.agents && Active(w.agents[id].status) && o.live <= LiveOf(w.live, id) && o.autoScaled <= o.live + 1
    case Lose(id, left) => left <= LiveOf(w.live, id)
  }

  ghost function TurnStep(w: World, t: Turn): World
    requires Enabled(w, t)
  {
    match t
    case Visit(id, o, seconds, at) => VisitStep(w, id, o, seconds, at).world
    case Lose(id, left) => w.(live := Recount(w.live, id, left))
  }

  ghost predicate Enables(w: World, turns: seq<Turn>)
    decreases |turns|
  {
    turns == [] || (Enabled(w, turns[0]) && Enables(TurnStep(w, turns[0]), turns[1..]))
  }

  ghost function AfterTurns(w: World, turns: seq<Turn>): World
    requires Enables(w, turns)
    decreases |turns|
  {
    if turns == [] then w else AfterTurns(TurnStep(w, turns[0]), turns[1..])
  }

  // ---------- Totals ----------

  function AutoWeight(user: string): (string, Agent) -> real {
    (id: string, a: Agent) => if Holds(a, user) && a.autoScale then 1.0 else 0.0
  }

  function SlackWeight(user: string): (string, Agent) -> real {
    (id: string, a: Agent) =>
      if Holds(a, user) then a.replicas as real + (if a.autoScale then 1.0 else 0.0) else 0.0
  }

  /** The live containers of an account's active agents. */
  ghost function TotalLive(w: World, user: string): real {
    Sum(w.agents, LiveWeight(w.live, user))
  }

  /** How many of them auto-scale. */
  ghost function AutoScalers(w: World, user: string): real {
    Sum(w.agents, AutoWeight(user))
  }

  /** Stored counts lag live ones by at most one, and only where an agent auto-scales. */
  ghost predicate Lagging(w: World, user: string) {
    forall id :: id in w.agents && Holds(w.agents[id], user) ==>
      LiveOf(w.live, id) <= w.agents[id].replicas + (if w.agents[id].autoScale then 1 else 0)
  }

  /** The ceiling auto-scaling respects: the plan, plus one replica for each auto-scaling agent but one. */
  ghost function Ceiling(w: World, user: string): real
    requires Limited(w, user)
  {
    LimitsOf(w, user).maxReplicas as real + AutoScalers(w, user) - 1.0
  }

  // ---------- The overshoot bound ----------

  lemma SyncKeepsBound(w: World, id: string, h: Health, user: string)
    requires Lagging(w, user) && id in w.agents && Active(w.agents[id].status)
    ensures var s := SyncStep(w, id, h);
            Lagging(s, user) && TotalLive(s, user) <= TotalLive(w, user) && AutoScalers(s, user) <= AutoScalers(w, user)
  {
    if h.Report? {
      var a := SyncStep(w, id, h).agents[id];
      SumUpdate(w.agents, LiveWeight(w.live, user), id, a);
      SumUpdate(w.agents, AutoWeight(user), id, a);
    }
  }

  /** Beside a scaling agent, the others' live containers are within their stored counts plus their lag. */
  lemma OthersWithinSlack(w: World, id: string, left: nat, user: string)
    requires Lagging(w, user)
    ensures var others := w.agents - {id};
            Sum(others, LiveWeight(Recount(w.live, id, left), user)) <=
            Sum(others, ReplicaWeight(user)) + Sum(others, AutoWeight(user))
  {
    var others := w.agents - {id};
    SumMonotone(others, LiveWeight(Recount(w.live, id, left), user), others, SlackWeight(user));
    SumSplit(others, ReplicaWeight(user), AutoWeight(user), SlackWeight(user));
  }

  /** Another account's live containers do not count. */
  lemma OtherAccountKeepsTotal(w: World, id: string, left: nat, user: string)
    requires id in w.agents && w.agents[id].user != user
    ensures TotalLive(w.(live := Recount(w.live, id, left)), user) == TotalLive(w, user)
  {
    var f, g := LiveWeight(w.live, user), LiveWeight(Recount(w.live, id, left), user);
    forall k | k in w.agents ensures f(k, w.agents[k]) == g(k, w.agents[k]) {
      if Holds(w.agents[k], user) {
        assert k != id;
      }
    }
    SumMonotone(w.agents, f, w.agents, g);
    SumMonotone(w.agents, g, w.agents, f);
  }

  lemma ScaleKeepsBound(w: World, id: string, left: nat, user: string)
    requires Limited(w, user) && Lagging(w, user)
    requires id in w.agents && WantsScaling(w.agents[id]) && w.agents[id].user == user
    requires Headroom(w, id) == Allowed && left <= w.agents[id].replicas + 1
    ensures TotalLive(w.(live := Recount(w.live, id, left)), user) <= Ceiling(w, user)
  {
    var a, live := w.agents[id], Recount(w.live, id, left);
    AdmittedFits(w.users, w.agents, user, Some(id), a.replicas + 1, a.cpu, a.memoryMb);
    OthersWithinSlack(w, id, left, user);
    SumRemove(w.agents, LiveWeight(live, user), id);
    SumRemove(w.agents, AutoWeight(user), id);
  }

  lemma AutoScaleKeepsBound(w: World, id: string, left: nat, user: string)
    requires Limited(w, user) && Lagging(w, user)
    requires id in w.agents && WantsScaling(w.agents[id])
    requires Headroom(w, id) == Allowed && left <= w.agents[id].replicas + 1
    ensures var after := Seen(w, id, left);
            && Lagging(after, user)
            && (TotalLive(after, user) <= TotalLive(w, user) || TotalLive(after, user) <= Ceiling(w, user))
  {
    if w.agents[id].user == user {
      ScaleKeepsBound(w, id, left, user);
    } else {
      OtherAccountKeepsTotal(w, id, left, user);
    }
  }

  lemma LossKeepsBound(w: World, id: string, left: nat, user: string)
    requires Lagging(w, user) && left <= LiveOf(w.live, id)
    ensures var after := Seen(w, id, left);
            Lagging(after, user) && TotalLive(after, user) <= TotalLive(w, user)
  {
    SumMonotone(w.agents, LiveWeight(Recount(w.live, id, left), user), w.agents, LiveWeight(w.live, user));
  }

  /** One turn never takes the live total past the larger of what it was and the ceiling. */
  lemma TurnKeepsBound(w: World, t: Turn, user: string)
    requires Limited(w, user) && Lagging(w, user) && Enabled(w, t)
    ensures var after := TurnStep(w, t);
            && Limited(after, user) && after.users == w.users && Lagging(after, user)
            && AutoScalers(after, user) <= AutoScalers(w, user)
            && (TotalLive(after, user) <= TotalLive(w, user) || TotalLive(after, user) <= Ceiling(w, user))
  {
    match t
    case Visit(id, o, seconds, at) =>
      if o.health.Report? {
        var seen := Seen(w, id, o.live);
        LossKeepsBound(w, id, o.live, user);
        SyncKeepsBound(seen, id, o.health, user);
        var synced := SyncStep(seen, id, o.health);
        if WantsScaling(synced.agents[id]) && Headroom(synced, id) == Allowed {
          AutoScaleKeepsBound(synced, id, o.autoScaled, user);
        }
      }
    case Lose(id, left) => LossKeepsBound(w, id, left, user);
  }

  /** Over any number of ticks: stored counts lag by at most one, and live replicas stay under the ceiling. */
  lemma {:induction false} OvershootBounded(w: World, turns: seq<Turn>, user: string)
    requires Limited(w, user) && Lagging(w, user) && Enables(w, turns)
    ensures var after := AfterTurns(w, turns);
            && after.users == w.users && Lagging(after, user)
            && AutoScalers(after, user) <= AutoScalers(w, user)
            && (TotalLive(after, user) <= TotalLive(w, user) || TotalLive(after, user) <= Ceiling(w, user))
    decreases |turns|
  {
    if turns != [] {
      TurnKeepsBound(w, turns[0], user);
      OvershootBounded(TurnStep(w, turns[0]), turns[1..], user);
    }
  }

  /** With at most one auto-scaling agent, the live containers of an account within its plan stay within it. */
  lemma OneAutoScalerKeepsPlan(w: World, turns: seq<Turn>, user: string)
    requires Limited(w, user) && Lagging(w, user) && Enables(w, turns)
    requires AutoScalers(w, user) <= 1.0
    requires TotalLive(w, user) <= LimitsOf(w, user).maxReplicas as real
    ensures TotalLive(AfterTurns(w, turns), user) <= LimitsOf(w, user).maxReplicas as real
  {
    OvershootBounded(w, turns, user);
  }

  /** From an account that quota checks kept safe, no run of ticks passes the plan by more than the ceiling's slack. */
  lemma SafeAccountStaysUnderCeiling(w: World, turns: seq<Turn>, user: string)
    requires Safe(w, user) && Enables(w, turns)
    ensures var most := LimitsOf(w, user).maxReplicas as real;
            var total := TotalLive(AfterTurns(w, turns), user);
            total <= most || total <= most + AutoScalers(w, user) - 1.0
  {
    SumMonotone(w.agents, LiveWeight(w.live, user), w.agents, ReplicaWeight(user));
    OvershootBounded(w, turns, user);
  }

  /** What the visits of a tick may see and do: no containers that were not there, and at most one more each. */
  ghost predicate Observes(w: World, ids: seq<string>, obs: string -> Observation) {
    forall i :: 0 <= i < |ids| ==>
      obs(ids[i]).live <= LiveOf(w.live, ids[i]) && obs(ids[i]).autoScaled <= obs(ids[i]).live + 1
  }

  /** A tick is such a run, up to the visit that aborts it. */
  lemma {:induction false} TickIsRun(w: World, ids: seq<string>, obs: string -> Observation, seconds: real, at: real)
      returns (turns: seq<Turn>)
    requires Distinct(ids) && AllActive(w, ids)
    requires Observes(w, ids, obs)
    ensures Enables(w, turns) && AfterTurns(w, turns) == TickSteps(w, ids, obs, seconds, at).world
    decreases |ids|
  {
    if ids == [] {
      turns := [];
    } else {
      var t := Visit(ids[0], obs(ids[0]), seconds, at);
      var first := VisitStep(w, ids[0], obs(ids[0]), seconds, at);
      var rest: seq<Turn> := [];
      if !first.aborted {
        assert forall i :: 0 <= i < |ids| - 1 ==> ids[1..][i] == ids[i + 1];
        rest := TickIsRun(first.world, ids[1..], obs, seconds, at);
      }
      turns := [t] + rest;
      assert turns[1..] == rest;
    }
  }

  /** One tick's effect on an account's live replicas. */
  lemma TickOvershoot(w: World, ids: seq<string>, obs: string -> Observation, seconds: real, at: real, user: string)
    requires Limited(w, user) && Lagging(w, user) && Distinct(ids) && AllActive(w, ids)
    requires Observes(w, ids, obs)
    ensures var after := TickSteps(w, ids, obs, seconds, at).world;
            && Lagging(after, user)
            && (TotalLive(after, user) <= TotalLive(w, user) || TotalLive(after, user) <= Ceiling(w, user))
  {
    var turns := TickIsRun(w, ids, obs, seconds, at);
    OvershootBounded(w, turns, user);
  }

  // ---------- Exactly when a visit keeps the plan ----------

  /** What a visit that scales leaves running: the others' containers, and its own. */
  lemma LiveAfterVisit(w: World, id: string, h: Health, n: nat, user: string)
    requires id in w.agents && Active(w.agents[id].status) && h.Report? && w.agents[id].user == user
    requires var synced := SyncStep(w, id, h); WantsScaling(synced.agents[id]) && Headroom(synced, id) == Allowed
    ensures TotalLive(VisitStep(w, id, Observation(LiveOf(w.live, id), h, n), 0.0, 0.0).world, user) ==
            Sum(w.agents - {id}, LiveWeight(w.live, user)) + n as real
  {
    var synced := SyncStep(w, id, h);
    var seen := Seen(w, id, LiveOf(w.live, id));
    assert SyncStep(seen, id, h).agents == synced.agents;
    var live := Recount(seen.live, id, n);
    SumUpdate(w.agents, LiveWeight(live, user), id, synced.agents[id]);
    SameSum(w.agents - {id}, LiveWeight(live, user), LiveWeight(w.live, user));
  }

  /**
    The headroom test counts stored rows.  A visit that passes it keeps the account's live containers within the
    plan, whatever the scaling leaves, exactly when one more fits beside the others' live containers.
   */
  lemma VisitKeepsPlanIff(w: World, id: string, h: Health, user: string)
    requires Limited(w, user)
    requires id in w.agents && Active(w.agents[id].status) && h.Report? && w.agents[id].user == user
    ensures var synced, most := SyncStep(w, id, h), LimitsOf(w, user).maxReplicas as real;
            WantsScaling(synced.agents[id]) && Headroom(synced, id) == Allowed ==>
              ((forall n: nat :: n <= LiveOf(w.live, id) + 1 ==>
                  TotalLive(VisitStep(w, id, Observation(LiveOf(w.live, id), h, n), 0.0, 0.0).world, user) <= most)
               <==> Sum(w.agents - {id}, LiveWeight(w.live, user)) + LiveOf(w.live, id) as real + 1.0 <= most)
  {
    var synced := SyncStep(w, id, h);
    if WantsScaling(synced.agents[id]) && Headroom(synced, id) == Allowed {
      ScalingVisitKeepsPlanIff(w, id, h, user);
    }
  }

  lemma ScalingVisitKeepsPlanIff(w: World, id: string, h: Health, user: string)
    requires Limited(w, user)
    requires id in w.agents && Active(w.agents[id].status) && h.Report? && w.agents[id].user == user
    requires var synced := SyncStep(w, id, h); WantsScaling(synced.agents[id]) && Headroom(synced, id) == Allowed
    ensures var most := LimitsOf(w, user).maxReplicas as real;
            (forall n: nat :: n <= LiveOf(w.live, id) + 1 ==>
               TotalLive(VisitStep(w, id, Observation(LiveOf(w.live, id), h, n), 0.0, 0.0).world, user) <= most)
            <==> Sum(w.agents - {id}, LiveWeight(w.live, user)) + LiveOf(w.live, id) as real + 1.0 <= most
  {
    forall n: nat
      ensures TotalLive(VisitStep(w, id, Observation(LiveOf(w.live, id), h, n), 0.0, 0.0).world, user) ==
              Sum(w.agents - {id}, LiveWeight(w.live, user)) + n as real
    {
      LiveAfterVisit(w, id, h, n, user);
    }
    assert TotalLive(VisitStep(w, id, Observation(LiveOf(w.live, id), h, LiveOf(w.live, id) + 1), 0.0, 0.0).world, user) ==
           Sum(w.agents - {id}, LiveWeight(w.live, user)) + (LiveOf(w.live, id) + 1) as real;
  }

  // ---------- Statuses settle ----------

  /** How often ticks alone can still change a status. */
  function Rank(s: Status): nat {
    if s == Starting then 2 else if s == Running || s == Scaling then 1 else 0
  }

  /** How many turns of a run change an agent's status. */
  ghost function StatusChanges(w: World, turns: seq<Turn>, id: string): nat
    requires id in w.agents && Enables(w, turns)
    decreases |turns|
  {
    if turns == [] then 0
    else
      var next := TurnStep(w, turns[0]);
      (if next.agents[id].status != w.agents[id].status then 1 else 0) + StatusChanges(next, turns[1..], id)
  }

  /** Ticks alone change one agent's status at most twice, and at most once after it has run. */
  lemma {:induction false} TicksSettle(w: World, turns: seq<Turn>, id: string)
    requires id in w.agents && Enables(w, turns)
    ensures id in AfterTurns(w, turns).agents
    ensures StatusChanges(w, turns, id) + Rank(AfterTurns(w, turns).agents[id].status) <= Rank(w.agents[id].status)
    decreases |turns|
  {
    if turns != [] {
      TicksSettle(TurnStep(w, turns[0]), turns[1..], id);
    }
  }

  /** Everything a run of ticks records. */
  ghost function Recorded(w: World, turns: seq<Turn>): seq<Metering.Entry>
    requires Enables(w, turns)
    decreases |turns|
  {
    if turns == [] then []
    else
      (match turns[0]
       case Visit(id, o, seconds, at) => VisitStep(w, id, o, seconds, at).entries
       case Lose(_, _) => [])
      + Recorded(TurnStep(w, turns[0]), turns[1..])
  }

  /** Out of the active statuses there is no way back: the row is final, nothing is metered, nothing is scaled up. */
  lemma {:induction false} InactiveIsFinal(w: World, turns: seq<Turn>, id: string)
    requires id in w.agents && !Active(w.agents[id].status) && Enables(w, turns)
    ensures id in AfterTurns(w, turns).agents && AfterTurns(w, turns).agents[id] == w.agents[id]
    ensures LiveOf(AfterTurns(w, turns).live, id) <= LiveOf(w.live, id)
    ensures forall i :: 0 <= i < |Recorded(w, turns)| ==> Recorded(w, turns)[i].agent != id
    decreases |turns|
  {
    if turns != [] {
      InactiveIsFinal(TurnStep(w, turns[0]), turns[1..], id);
    }
  }
}
