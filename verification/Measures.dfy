/**
  What an account's active agents really run, by each of the measures its plan limits: containers, vCPU and memory.
  Rows may describe less than runs, by one replica of each agent that auto-scales.
 */
module Measures {
  import opened Sums
  import opened Plans
  import opened Quota
  import opened Fleet
  import opened PlanSafety

  datatype Measure = ByCount | ByVcpu | ByMemory

  /** What one replica of a shape comes to. */
  function Per(m: Measure, cpu: real, memoryMb: int): real {
    match m
    case ByCount => 1.0
    case ByVcpu => cpu
    case ByMemory => memoryMb as real
  }

  /** What a plan allows in all; vCPU to within a thousandth. */
  function Limit(limits: PlanLimits, m: Measure): real {
    match m
    case ByCount => limits.maxReplicas as real
    case ByVcpu => limits.maxVcpu + 0.001
    case ByMemory => limits.maxMemoryMb as real
  }

  /** What it allows one replica. */
  function Cap(limits: PlanLimits, m: Measure): real {
    Per(m, limits.maxReplicaCpu, limits.maxReplicaMemoryMb)
  }

  function RowWeight(user: string, m: Measure): (string, Agent) -> real {
    (id: string, a: Agent) => if Holds(a, user) then Weight(Started(a, a.replicas), m) else 0.0
  }

  function Weight(c: Containers, m: Measure): real {
    Times(c.count, Per(m, c.cpu, c.memoryMb))
  }

  function RunWeight(live: Live, user: string, m: Measure): (string, Agent) -> real {
    (id: string, a: Agent) =>
      if Holds(a, user) then Weight(ContainersOf(live, id), m) else 0.0
  }

  /** What the containers of an account's active agents come to. */
  ghost function Load(w: World, user: string, m: Measure): real {
    Sum(w.agents, RunWeight(w.live, user, m))
  }

  lemma TimesOne(n: nat)
    ensures Times(n, 1.0) == n as real
  {
    TimesIsProduct(n, 1.0);
  }

  /** By count, it is the number of live containers; by the others, the totals that plans limit. */
  lemma LoadIsTotal(w: World, user: string)
    ensures Load(w, user, ByCount) == Sum(w.agents, LiveWeight(w.live, user))
    ensures Load(w, user, ByVcpu) == Sum(w.agents, LiveVcpuWeight(w.live, user))
    ensures Load(w, user, ByMemory) == Sum(w.agents, LiveMemoryWeight(w.live, user))
  {
    SameWeights(w, user, RunWeight(w.live, user, ByCount), LiveWeight(w.live, user), ByCount);
    SameWeights(w, user, RunWeight(w.live, user, ByVcpu), LiveVcpuWeight(w.live, user), ByVcpu);
    SameWeights(w, user, RunWeight(w.live, user, ByMemory), LiveMemoryWeight(w.live, user), ByMemory);
  }

  lemma SameWeights(w: World, user: string, f: (string, Agent) -> real, g: (string, Agent) -> real, m: Measure)
    requires f == RunWeight(w.live, user, m)
    requires g == match m case ByCount => LiveWeight(w.live, user) case ByVcpu => LiveVcpuWeight(w.live, user)
                          case ByMemory => LiveMemoryWeight(w.live, user)
    ensures Sum(w.agents, f) == Sum(w.agents, g)
  {
    forall id | id in w.agents ensures f(id, w.agents[id]) == g(id, w.agents[id]) {
      TimesOne(LiveOf(w.live, id));
    }
    SameSum(w.agents, f, g);
  }

  /** Room in a plan is room by every measure. */
  lemma FitsMeasure(others: Agents, user: string, replicas: nat, cpu: real, memoryMb: nat, limits: PlanLimits, m: Measure)
    requires Fits(others, user, replicas, cpu, memoryMb, limits)
    ensures Sum(others, RowWeight(user, m)) + Times(replicas, Per(m, cpu, memoryMb)) <= Limit(limits, m)
  {
    var f := RowWeight(user, m);
    var g := match m case ByCount => ReplicaWeight(user) case ByVcpu => VcpuWeight(user) case ByMemory => MemoryWeight(user);
    forall id | id in others ensures f(id, others[id]) == g(id, others[id]) {
      TimesOne(others[id].replicas);
    }
    SameSum(others, f, g);
    TimesOne(replicas);
  }

  /** An account within its plan runs no more than its plan by every measure. */
  lemma WithinMeasure(w: World, user: string, m: Measure)
    requires Safe(w, user)
    ensures Load(w, user, m) <= Limit(LimitsOf(w, user), m)
  {
    SafeRunsWithin(w, user);
    LoadIsTotal(w, user);
  }

  // ---------- Agents that may run one more than their rows say ----------

  function Slack(scalers: set<string>, id: string): nat {
    if id in scalers then 1 else 0
  }

  /** The account's active agents among `scalers`. */
  ghost function Slackers(agents: Agents, user: string, scalers: set<string>): set<string> {
    set id | id in agents && id in scalers && Holds(agents[id], user)
  }

  function SlackWeight(user: string, scalers: set<string>, x: real): (string, Agent) -> real {
    (id: string, a: Agent) => if Holds(a, user) && id in scalers then x else 0.0
  }

  lemma {:induction false} SlackSum(agents: Agents, user: string, scalers: set<string>, x: real)
    ensures Sum(agents, SlackWeight(user, scalers, x)) == Times(|Slackers(agents, user, scalers)|, x)
    decreases |agents|
  {
    if agents == map[] {
      assert Slackers(agents, user, scalers) == {};
    } else {
      var id :| id in agents;
      assert (agents - {id}).Keys == agents.Keys - {id};
      SumRemove(agents, SlackWeight(user, scalers, x), id);
      SlackSum(agents - {id}, user, scalers, x);
      OneSlacker(agents, user, scalers, id);
    }
  }

  lemma OneSlacker(agents: Agents, user: string, scalers: set<string>, id: string)
    requires id in agents
    ensures |Slackers(agents, user, scalers)| ==
            |Slackers(agents - {id}, user, scalers)| + if Holds(agents[id], user) && id in scalers then 1 else 0
  {
    var rest := Slackers(agents - {id}, user, scalers);
    assert Slackers(agents, user, scalers) == if Holds(agents[id], user) && id in scalers then rest + {id} else rest;
  }

  // ---------- Bounds on one agent ----------

  predicate Nonnegative(c: Containers) {
    c.cpu >= 0.0
  }

  predicate ShapeCapped(a: Agent, limits: PlanLimits) {
    a.cpu <= limits.maxReplicaCpu && a.memoryMb <= limits.maxReplicaMemoryMb
  }

  /** Containers that a row describes, but for as many replicas as its slack. */
  predicate Described(a: Agent, c: Containers, slack: nat) {
    c.count <= a.replicas + slack && ShapeFits(a, c)
  }

  lemma PerMonotone(m: Measure, cpu: real, memoryMb: int, cpu': real, memoryMb': int)
    requires cpu <= cpu' && memoryMb <= memoryMb'
    ensures Per(m, cpu, memoryMb) <= Per(m, cpu', memoryMb')
  {
  }

  /** Described containers come to no more than the row and a cap for each of its slack. */
  lemma DescribedWeight(a: Agent, c: Containers, slack: nat, top: Agent, limits: PlanLimits, m: Measure)
    requires Described(a, c, slack) && ShapeFits(top, c) && ShapeCapped(top, limits) && a.cpu >= 0.0
    requires limits.maxReplicaCpu >= 0.0 && limits.maxReplicaMemoryMb >= 0
    ensures Weight(c, m) <=
            Weight(Started(a, a.replicas), m) + Times(slack, Cap(limits, m))
  {
    var x := Per(m, c.cpu, c.memoryMb);
    PerMonotone(m, c.cpu, c.memoryMb, a.cpu, a.memoryMb);
    var over := if c.count <= a.replicas then 0 else c.count - a.replicas;
    TimesAdd(c.count - over, over, x);
    TimesMonotone(c.count - over, a.replicas, x, Per(m, a.cpu, a.memoryMb));
    TimesMonotone(over, slack, x, Cap(limits, m));
  }
}
