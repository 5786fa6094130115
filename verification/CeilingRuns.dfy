/**
  Ticks that take an account to the auto-scaling ceiling (scheduler.py, services/quota_service.py): a crowd of
  auto-scaling agents that all pass the headroom test in one tick, because it counts the rows stored before it.
 */
module CeilingRuns {
  import opened Basics
  import opened Sums
  import opened Plans
  import opened Quota
  import opened Fleet
  import opened PlanSafety
  import opened Scheduler
  import opened AutoScaling

  /** Agents are named by the length of their id: the first runs `first` replicas, the others one each. */
  function Name(i: nat): string {
    seq(i, _ => 'a')
  }

  function Size(first: nat, i: nat): nat {
    if i == 0 then first else 1
  }

  function CrowdRow(replicas: nat): Agent {
    Agent("u", Running, replicas, 0.1, 128, None, None, true)
  }

  function Crowd(first: nat, k: nat): Agents {
    if k == 0 then map[] else Crowd(first, k - 1)[Name(k - 1) := CrowdRow(Size(first, k - 1))]
  }

  lemma {:induction false} CrowdShape(first: nat, k: nat)
    ensures forall id :: id in Crowd(first, k) ==> |id| < k && Crowd(first, k)[id] == CrowdRow(Size(first, |id|))
    ensures forall i :: 0 <= i < k ==> Name(i) in Crowd(first, k)
    ensures forall id :: id in Crowd(first, k) ==> id == Name(|id|)
    decreases k
  {
    if k > 0 {
      CrowdShape(first, k - 1);
    }
  }

  lemma CrowdMember(first: nat, k: nat, i: nat)
    requires i < k
    ensures Name(i) in Crowd(first, k) && Crowd(first, k)[Name(i)] == CrowdRow(Size(first, i))
  {
    CrowdShape(first, k);
  }

  // ---------- Totals of a crowd ----------

  function Total(first: nat, k: nat): nat {
    if k == 0 then 0 else first + k - 1
  }

  /** A weight that looks at rows only is the first agent's, and the others' as often as there are others. */
  lemma {:induction false} CrowdSum(first: nat, k: nat, f: (string, Agent) -> real, v: real, u: real)
    requires k > 0 && forall id :: f(id, CrowdRow(first)) == v && f(id, CrowdRow(1)) == u
    ensures Sum(Crowd(first, k), f) == v + Times(k - 1, u)
    decreases k
  {
    CrowdShape(first, k - 1);
    SumUpdate(Crowd(first, k - 1), f, Name(k - 1), CrowdRow(Size(first, k - 1)));
    if k > 1 {
      CrowdSum(first, k - 1, f, v, u);
    }
  }

  lemma CrowdCounts(first: nat, k: nat)
    requires k > 0
    ensures Sum(Crowd(first, k), OwnWeight("u")) == k as real
    ensures Sum(Crowd(first, k), AutoWeight("u")) == k as real
    ensures Sum(Crowd(first, k), ReplicaWeight("u")) == Total(first, k) as real
  {
    TimesIsProduct(k - 1, 1.0);
    CrowdSum(first, k, OwnWeight("u"), 1.0, 1.0);
    CrowdSum(first, k, AutoWeight("u"), 1.0, 1.0);
    CrowdSum(first, k, ReplicaWeight("u"), first as real, 1.0);
  }

  lemma CrowdHolds(first: nat, k: nat)
    requires k > 0
    ensures Sum(Crowd(first, k), VcpuWeight("u")) == Times(Total(first, k), 0.1)
    ensures Sum(Crowd(first, k), MemoryWeight("u")) == Times(Total(first, k), 128.0)
  {
    assert Times(1, 0.1) == 0.1 && Times(1, 128.0) == 128.0;
    CrowdSum(first, k, VcpuWeight("u"), Times(first, 0.1), 0.1);
    CrowdSum(first, k, MemoryWeight("u"), Times(first, 128.0), 128.0);
    TimesAdd(first, k - 1, 0.1);
    TimesAdd(first, k - 1, 128.0);
  }

  lemma CrowdIsSmall(plan: string, n: nat)
    requires n <= LimitsFor(plan).maxReplicas
    ensures Times(n, 0.1) <= LimitsFor(plan).maxVcpu - 0.001 && Times(n, 128.0) <= LimitsFor(plan).maxMemoryMb as real
  {
    var most := LimitsFor(plan).maxReplicas;
    TimesMonotone(n, most, 0.1, 0.1);
    TimesMonotone(n, most, 128.0, 128.0);
    TimesIsProduct(20, 0.1);
    TimesIsProduct(20, 128.0);
    TimesIsProduct(3, 0.1);
    TimesIsProduct(3, 128.0);
  }

  // ---------- A tick over a crowd ----------

  /** Its containers once the first `i` agents have been scaled up by one. */
  function CrowdLive(first: nat, k: nat, i: nat): Live {
    map id | id in Crowd(first, k) :: Started(CrowdRow(0), Size(first, |id|) + if |id| < i then 1 else 0)
  }

  function Midway(plan: string, first: nat, k: nat, i: nat): World {
    World(map["u" := User(plan, false)], Crowd(first, k), CrowdLive(first, k, i))
  }

  /** What the others hold beside one agent. */
  lemma CrowdOthers(first: nat, k: nat, i: nat)
    requires i < k
    ensures var others, n := Crowd(first, k) - {Name(i)}, Size(first, i);
            && Sum(others, ReplicaWeight("u")) + n as real == Total(first, k) as real
            && Sum(others, VcpuWeight("u")) + Times(n, 0.1) == Times(Total(first, k), 0.1)
            && Sum(others, MemoryWeight("u")) + Times(n, 128.0) == Times(Total(first, k), 128.0)
  {
    CrowdShape(first, k);
    assert Crowd(first, k)[Name(i)] == CrowdRow(Size(first, i));
    CrowdCounts(first, k);
    CrowdHolds(first, k);
    SumRemove(Crowd(first, k), ReplicaWeight("u"), Name(i));
    SumRemove(Crowd(first, k), VcpuWeight("u"), Name(i));
    SumRemove(Crowd(first, k), MemoryWeight("u"), Name(i));
  }

  /** One below the plan by the rows, every agent of the crowd passes the headroom test. */
  lemma CrowdHasHeadroom(plan: string, first: nat, k: nat, i: nat)
    requires i < k && Total(first, k) + 1 == LimitsFor(plan).maxReplicas
    ensures Name(i) in Crowd(first, k) && Headroom(Midway(plan, first, k, i), Name(i)) == Allowed
  {
    CrowdMember(first, k, i);
    CrowdOthers(first, k, i);
    CrowdIsSmall(plan, Total(first, k) + 1);
    RoomIsAdmitted(map["u" := User(plan, false)], Crowd(first, k), "u", Some(Name(i)), Size(first, i) + 1, 0.1, 128);
  }

  function CrowdObs(first: nat): string -> Observation {
    id => Observation(Size(first, |id|), Report(true, 0), Size(first, |id|) + 1)
  }

  /** The next agent's container is added; nothing else changes. */
  lemma CrowdRecount(first: nat, k: nat, i: nat)
    requires i < k
    ensures Recount(CrowdLive(first, k, i), Name(i), Size(first, i) + 1) == CrowdLive(first, k, i + 1)
    ensures LiveOf(CrowdLive(first, k, i), Name(i)) == Size(first, i)
  {
    CrowdShape(first, k);
    var before, after := Recount(CrowdLive(first, k, i), Name(i), Size(first, i) + 1), CrowdLive(first, k, i + 1);
    forall id | id in Crowd(first, k) ensures before[id] == after[id] {
      assert id == Name(|id|);
    }
  }

  lemma CrowdVisit(plan: string, first: nat, k: nat, i: nat)
    requires i < k && first > 0 && Total(first, k) + 1 == LimitsFor(plan).maxReplicas
    ensures Name(i) in Crowd(first, k) && Active(Crowd(first, k)[Name(i)].status)
    ensures var v := VisitStep(Midway(plan, first, k, i), Name(i), CrowdObs(first)(Name(i)), 0.0, 0.0);
            v.world == Midway(plan, first, k, i + 1) && !v.aborted
  {
    CrowdMember(first, k, i);
    CrowdRecount(first, k, i);
    CrowdHasHeadroom(plan, first, k, i);
    assert CrowdObs(first)(Name(i)) == Observation(Size(first, i), Report(true, 0), Size(first, i) + 1);
    VisitAddsOne(Midway(plan, first, k, i), Name(i), Report(true, 0), Size(first, i));
  }

  /** A visit of a healthy agent whose row is right, and that has headroom, only adds its container. */
  lemma VisitAddsOne(w: World, id: string, h: Health, n: nat)
    requires id in w.agents && w.agents[id] == CrowdRow(n) && n > 0 && LiveOf(w.live, id) == n && h == Report(true, 0)
    requires Headroom(w, id) == Allowed
    ensures var v := VisitStep(w, id, Observation(n, h, n + 1), 0.0, 0.0);
            v.world == w.(live := Recount(w.live, id, n + 1)) && !v.aborted
  {
    assert w.agents[id := w.agents[id]] == w.agents;
    assert SyncStep(Seen(w, id, n), id, h) == Seen(w, id, n);
    assert Recount(Seen(w, id, n).live, id, n + 1) == Recount(w.live, id, n + 1);
  }

  function Names(k: nat): (ids: seq<string>)
    ensures |ids| == k && forall i :: 0 <= i < k ==> ids[i] == Name(i)
  {
    seq(k, i requires 0 <= i < k => Name(i))
  }

  lemma NamesAreVisitable(plan: string, first: nat, k: nat, i: nat)
    requires i <= k
    ensures Distinct(Names(k)[i..]) && AllActive(Midway(plan, first, k, i), Names(k)[i..])
  {
    var ids := Names(k)[i..];
    forall m, n | 0 <= m < n < |ids| ensures ids[m] != ids[n] {
      assert |ids[m]| == i + m && |ids[n]| == i + n;
    }
    forall m | 0 <= m < |ids| ensures ids[m] in Crowd(first, k) && Active(Crowd(first, k)[ids[m]].status) {
      CrowdMember(first, k, i + m);
    }
  }

  lemma {:induction false} CrowdTick(plan: string, first: nat, k: nat, i: nat)
    requires i <= k && first > 0 && Total(first, k) + 1 == LimitsFor(plan).maxReplicas
    ensures Distinct(Names(k)[i..]) && AllActive(Midway(plan, first, k, i), Names(k)[i..])
    ensures TickSteps(Midway(plan, first, k, i), Names(k)[i..], CrowdObs(first), 0.0, 0.0).world == Midway(plan, first, k, k)
    decreases k - i
  {
    NamesAreVisitable(plan, first, k, i);
    if i < k {
      CrowdVisit(plan, first, k, i);
      CrowdTick(plan, first, k, i + 1);
      assert Names(k)[i..][0] == Name(i) && Names(k)[i..][1..] == Names(k)[i + 1..];
    }
  }

  lemma CrowdLives(plan: string, first: nat, k: nat)
    requires k > 0
    ensures TotalLive(Midway(plan, first, k, k), "u") == Total(first, k) as real + k as real
  {
    var agents := Crowd(first, k);
    CrowdShape(first, k);
    CrowdCounts(first, k);
    SameSum(agents, LiveWeight(CrowdLive(first, k, k), "u"), SlackWeight("u"));
    SumSplit(agents, ReplicaWeight("u"), AutoWeight("u"), SlackWeight("u"));
  }

  lemma CrowdIsSafe(plan: string, first: nat, k: nat)
    requires 0 < k <= LimitsFor(plan).maxAgents && Total(first, k) <= LimitsFor(plan).maxReplicas
    ensures Safe(Midway(plan, first, k, 0), "u")
  {
    CrowdShape(first, k);
    CrowdCounts(first, k);
    CrowdHolds(first, k);
    CrowdIsSmall(plan, Total(first, k));
  }

  /**
    The ceiling is reached: on every plan and for every number of auto-scaling agents that leaves a replica free, one
    tick takes a safe account exactly there, past its plan as soon as there are two.
   */
  lemma CeilingIsMet(plan: string, k: nat) returns (w: World, ids: seq<string>, obs: string -> Observation)
    requires 1 <= k < LimitsFor(plan).maxReplicas
    ensures Safe(w, "u") && LimitsOf(w, "u") == LimitsFor(plan) && AutoScalers(w, "u") == k as real
    ensures Distinct(ids) && AllActive(w, ids)
    ensures Observes(w, ids, obs)
    ensures TotalLive(TickSteps(w, ids, obs, 0.0, 0.0).world, "u") == Ceiling(w, "u")
    ensures Ceiling(w, "u") == (LimitsFor(plan).maxReplicas + k - 1) as real
  {
    var first := LimitsFor(plan).maxReplicas - k;
    w, ids, obs := Midway(plan, first, k, 0), Names(k), CrowdObs(first);
    assert Names(k)[0..] == Names(k);
    CrowdTick(plan, first, k, 0);
    CrowdCounts(first, k);
    CrowdLives(plan, first, k);
    CrowdIsSafe(plan, first, k);
    forall i | 0 <= i < |ids| ensures obs(ids[i]).live == LiveOf(w.live, ids[i]) && obs(ids[i]).autoScaled == obs(ids[i]).live + 1 {
      CrowdLiveOf(first, k, i);
    }
  }

  lemma CrowdLiveOf(first: nat, k: nat, i: nat)
    requires i < k
    ensures LiveOf(CrowdLive(first, k, 0), Name(i)) == Size(first, i)
  {
    CrowdMember(first, k, i);
  }

  /** Some number of ticks takes the account past its plan. */
  ghost predicate PassesPlan(w: World, turns: seq<Turn>, user: string) {
    Limited(w, user) && Enables(w, turns) && TotalLive(AfterTurns(w, turns), user) > LimitsOf(w, user).maxReplicas as real
  }

  /** A safe account on a plan with so many auto-scaling agents. */
  ghost predicate SafeWith(w: World, user: string, plan: string, k: nat) {
    Safe(w, user) && LimitsOf(w, user) == LimitsFor(plan) && AutoScalers(w, user) == k as real
  }

  // ---------- A full crowd ----------

  /** A crowd of one replica each whose first agent was stopped. */
  function Thin(k: nat): Agents {
    Crowd(1, k)[Name(0) := CrowdRow(0).(status := Stopped)]
  }

  function Thinned(plan: string, k: nat, live: Live): World {
    World(map["u" := User(plan, false)], Thin(k), live)
  }

  lemma NamesDiffer(i: nat, j: nat)
    requires i != j
    ensures Name(i) != Name(j)
  {
    assert |Name(i)| != |Name(j)|;
  }

  lemma ThinMember(k: nat, i: nat)
    requires 1 <= i < k
    ensures Name(i) in Thin(k) && Thin(k)[Name(i)] == CrowdRow(1)
  {
    CrowdMember(1, k, i);
    NamesDiffer(0, i);
  }

  /** What the others hold beside one agent: one less than before the stop. */
  lemma ThinOthers(k: nat, i: nat)
    requires 1 <= i < k
    ensures var others := Thin(k) - {Name(i)};
            && Sum(others, ReplicaWeight("u")) + 2.0 == k as real
            && Sum(others, VcpuWeight("u")) + 0.2 == Times(k, 0.1)
            && Sum(others, MemoryWeight("u")) + 256.0 == Times(k, 128.0)
  {
    var rest, stopped := Crowd(1, k) - {Name(i)}, CrowdRow(0).(status := Stopped);
    CrowdMember(1, k, 0);
    NamesDiffer(0, i);
    CrowdOthers(1, k, i);
    assert Times(1, 0.1) == 0.1 && Times(1, 128.0) == 128.0;
    assert Thin(k) - {Name(i)} == rest[Name(0) := stopped];
    SumUpdate(rest, ReplicaWeight("u"), Name(0), stopped);
    SumUpdate(rest, VcpuWeight("u"), Name(0), stopped);
    SumUpdate(rest, MemoryWeight("u"), Name(0), stopped);
  }

  /** The stop leaves one replica free beside every other agent. */
  lemma ThinHasHeadroom(plan: string, k: nat, live: Live, i: nat)
    requires 1 <= i < k == LimitsFor(plan).maxReplicas
    ensures Name(i) in Thin(k) && Headroom(Thinned(plan, k, live), Name(i)) == Allowed
  {
    ThinMember(k, i);
    ThinOthers(k, i);
    CrowdIsSmall(plan, k);
    assert Times(2, 0.1) == 0.2 && Times(2, 128.0) == 256.0;
    RoomIsAdmitted(map["u" := User(plan, false)], Thin(k), "u", Some(Name(i)), 2, 0.1, 128);
  }

  /** The visit that finds the first agent's container gone. */
  lemma ThinningVisit(plan: string, k: nat)
    requires k > 0
    ensures var w := Midway(plan, 1, k, 0); var t := Visit(Name(0), Observation(0, Report(true, 0), 0), 0.0, 0.0);
            Enabled(w, t) && TurnStep(w, t) == Thinned(plan, k, Recount(CrowdLive(1, k, 0), Name(0), 0))
  {
    CrowdMember(1, k, 0);
  }

  /** Every other agent can then be scaled. */
  lemma ThinnedVisit(plan: string, k: nat, live: Live, i: nat)
    requires 1 <= i < k == LimitsFor(plan).maxReplicas && LiveOf(live, Name(i)) == 1
    ensures var w := Thinned(plan, k, live); var t := Visit(Name(i), Observation(1, Report(true, 0), 2), 0.0, 0.0);
            Enabled(w, t) && TurnStep(w, t) == Thinned(plan, k, Recount(live, Name(i), 2))
    ensures TotalLive(Thinned(plan, k, Recount(live, Name(i), 2)), "u") == TotalLive(Thinned(plan, k, live), "u") + 1.0
  {
    var w := Thinned(plan, k, live);
    ThinMember(k, i);
    ThinHasHeadroom(plan, k, live, i);
    VisitAddsOne(w, Name(i), Report(true, 0), 1);
    OneMoreRuns(w, Name(i), 2);
  }

  /** More containers of an active agent are as many more in all. */
  lemma OneMoreRuns(w: World, id: string, n: nat)
    requires id in w.agents && Holds(w.agents[id], "u")
    ensures TotalLive(w.(live := Recount(w.live, id, n)), "u") == TotalLive(w, "u") - LiveOf(w.live, id) as real + n as real
  {
    var f, g := LiveWeight(w.live, "u"), LiveWeight(Recount(w.live, id, n), "u");
    SumRemove(w.agents, f, id);
    SumRemove(w.agents, g, id);
    SameSum(w.agents - {id}, f, g);
  }

  /** After the stop each of the others runs one. */
  lemma ThinnedRuns(plan: string, k: nat)
    requires k > 0
    ensures TotalLive(Thinned(plan, k, Recount(CrowdLive(1, k, 0), Name(0), 0)), "u") == k as real - 1.0
  {
    var live := Recount(CrowdLive(1, k, 0), Name(0), 0);
    CrowdCounts(1, k);
    CrowdMember(1, k, 0);
    SumUpdate(Crowd(1, k), ReplicaWeight("u"), Name(0), CrowdRow(0).(status := Stopped));
    forall id | id in Thin(k) ensures LiveWeight(live, "u")(id, Thin(k)[id]) == ReplicaWeight("u")(id, Thin(k)[id]) {
      if id != Name(0) {
        CrowdShape(1, k);
        CrowdLiveOf(1, k, |id|);
      }
    }
    SameSum(Thin(k), LiveWeight(live, "u"), ReplicaWeight("u"));
  }

  /** With every replica of the plan an auto-scaling agent of its own, one lost container is enough to pass the plan. */
  lemma FullCrowdPassesPlan(plan: string, k: nat) returns (w: World, turns: seq<Turn>)
    requires k == LimitsFor(plan).maxReplicas
    ensures SafeWith(w, "u", plan, k) && PassesPlan(w, turns, "u")
  {
    w := Midway(plan, 1, k, 0);
    var a := Visit(Name(0), Observation(0, Report(true, 0), 0), 0.0, 0.0);
    var b := Visit(Name(1), Observation(1, Report(true, 0), 2), 0.0, 0.0);
    var c := Visit(Name(2), Observation(1, Report(true, 0), 2), 0.0, 0.0);
    turns := [a, b, c];
    var live := Recount(CrowdLive(1, k, 0), Name(0), 0);
    var more := Recount(live, Name(1), 2);
    CrowdIsSafe(plan, 1, k);
    CrowdCounts(1, k);
    ThinningVisit(plan, k);
    ThinnedRuns(plan, k);
    FirstContainers(k);
    ThinnedVisit(plan, k, live, 1);
    ThinnedVisit(plan, k, more, 2);
    ThreeTurns(w, a, Thinned(plan, k, live), b, Thinned(plan, k, more), c, Thinned(plan, k, Recount(more, Name(2), 2)));
  }

  lemma FirstContainers(k: nat)
    requires k > 2
    ensures var live := Recount(CrowdLive(1, k, 0), Name(0), 0);
            LiveOf(live, Name(1)) == 1 && LiveOf(Recount(live, Name(1), 2), Name(2)) == 1
  {
    CrowdLiveOf(1, k, 1);
    CrowdLiveOf(1, k, 2);
    NamesDiffer(0, 1);
    NamesDiffer(0, 2);
    NamesDiffer(1, 2);
  }

  lemma ThreeTurns(w: World, a: Turn, w1: World, b: Turn, w2: World, c: Turn, w3: World)
    requires Enabled(w, a) && TurnStep(w, a) == w1
    requires Enabled(w1, b) && TurnStep(w1, b) == w2
    requires Enabled(w2, c) && TurnStep(w2, c) == w3
    ensures Enables(w, [a, b, c]) && AfterTurns(w, [a, b, c]) == w3
  {
    assert [a, b, c][1..] == [b, c] && [b, c][1..] == [c] && [c][1..] == [];
    assert Enables(w3, []) && AfterTurns(w3, []) == w3;
    assert Enables(w2, [c]) && AfterTurns(w2, [c]) == w3;
    assert Enables(w1, [b, c]) && AfterTurns(w1, [b, c]) == w3;
  }

  /**
    Auto-scaling never takes a safe account past its plan exactly when at most one of its agents auto-scales.  A safe
    account has no more agents than its plan allows.
   */
  lemma {:induction false} NeverPastPlanIff(plan: string, k: nat)
    requires k <= LimitsFor(plan).maxAgents
    ensures (forall w, turns, user :: SafeWith(w, user, plan, k) ==> !PassesPlan(w, turns, user)) <==> k <= 1
  {
    if k <= 1 {
      forall w, turns, user | SafeWith(w, user, plan, k) ensures !PassesPlan(w, turns, user) {
        if Enables(w, turns) {
          SafeAccountStaysUnderCeiling(w, turns, user);
        }
      }
    } else if k == LimitsFor(plan).maxReplicas {
      var w, turns := FullCrowdPassesPlan(plan, k);
    } else {
      var w, ids, obs := CeilingIsMet(plan, k);
      var turns := TickIsRun(w, ids, obs, 0.0, 0.0);
      assert SafeWith(w, "u", plan, k) && PassesPlan(w, turns, "u");
    }
  }
}
