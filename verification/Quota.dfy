/** Plans and what they allow (plans.py). */
module Plans {

  datatype PlanLimits = PlanLimits(
    maxAgents: int, maxReplicas: int, maxVcpu: real, maxMemoryMb: int,
    maxReplicaCpu: real, maxReplicaMemoryMb: int, maxAgentRpm: int)

  const Free := PlanLimits(3, 3, 3.0, 1536, 1.0, 1024, 300)
  const Pro := PlanLimits(20, 20, 16.0, 8192, 2.0, 4096, 3000)

  function LimitsFor(plan: string): PlanLimits {
    if plan == "pro" then Pro else Free
  }
}

/**
  Per-account quotas (services/quota_service.py): current usage summed over an account's active
  agents, and the checks made before an agent is created, deployed or scaled.
 */
module Quota {
  import opened Basics
  import opened Sums
  import opened Plans

  datatype Status = Pending | Building | Starting | Running | Scaling | Stopping | Stopped | Failed | Crashed

  /** The columns of an agent's row that quotas, deploys and the scheduler read or write. */
  datatype Agent = Agent(
    user: string, status: Status, replicas: nat, cpu: real, memoryMb: nat,
    image: Option<string>, buildPath: Option<string>, autoScale: bool)

  datatype User = User(plan: string, admin: bool)

  type Agents = map<string, Agent>

  datatype Resource = AgentCount | CpuPerReplica | MemoryPerReplica | Replicas | Vcpu | Memory

  datatype Check = Allowed | UnknownUser | Exceeded(resource: Resource)

  /** The statuses whose replicas count against the plan. */
  predicate Active(s: Status) {
    s == Running || s == Scaling || s == Starting
  }

  predicate Holds(a: Agent, user: string) {
    a.user == user && Active(a.status)
  }

  // ---------- Usage ----------

  function OwnWeight(user: string): (string, Agent) -> real {
    (id: string, a: Agent) => if a.user == user then 1.0 else 0.0
  }

  function ReplicaWeight(user: string): (string, Agent) -> real {
    (id: string, a: Agent) => if Holds(a, user) then a.replicas as real else 0.0
  }

  function VcpuWeight(user: string): (string, Agent) -> real {
    (id: string, a: Agent) => if Holds(a, user) then Times(a.replicas, a.cpu) else 0.0
  }

  function MemoryWeight(user: string): (string, Agent) -> real {
    (id: string, a: Agent) => if Holds(a, user) then Times(a.replicas, a.memoryMb as real) else 0.0
  }

  /** The nearest whole number, ties to even. */
  function NearestEven(y: real): (n: int)
    ensures -0.5 <= n as real - y <= 0.5
  {
    var f := y.Floor;
    var rest := y - f as real;
    if rest < 0.5 || (rest == 0.5 && f % 2 == 0) then f else f + 1
  }

  /** Python's `round(x, 3)`. */
  function Round3(x: real): real {
    NearestEven(x * 1000.0) as real / 1000.0
  }

  datatype Usage = Usage(agents: real, replicas: real, vcpu: real, memoryMb: real)

  function Excluding(agents: Agents, id: Option<string>): Agents {
    if id.Some? then agents - {id.value} else agents
  }

  ghost function UsageOf(agents: Agents, user: string, exclude: Option<string>): Usage {
    var others := Excluding(agents, exclude);
    Usage(Sum(agents, OwnWeight(user)), Sum(others, ReplicaWeight(user)),
          Round3(Sum(others, VcpuWeight(user))), Sum(others, MemoryWeight(user)))
  }

  /** `current_usage`: the account's agents counted, and its active rows summed without the excluded one. */
  method CurrentUsage(agents: Agents, user: string, exclude: Option<string>) returns (usage: Usage)
    ensures usage == UsageOf(agents, user, exclude)
  {
    var count := SumRows(agents, OwnWeight(user));
    var others := Excluding(agents, exclude);
    var replicas := SumRows(others, ReplicaWeight(user));
    var vcpu := SumRows(others, VcpuWeight(user));
    var memory := SumRows(others, MemoryWeight(user));
    usage := Usage(count, replicas, Round3(vcpu), memory);
  }

  method SumRows(agents: Agents, f: (string, Agent) -> real) returns (total: real)
    ensures total == Sum(agents, f)
  {
    total := 0.0;
    var rest := agents;
    while rest != map[]
      invariant rest.Keys <= agents.Keys
      invariant total + Sum(rest, f) == Sum(agents, f)
      decreases |rest|
    {
      var id :| id in rest;
      SumRemove(rest, f, id);
      assert (rest - {id}).Keys == rest.Keys - {id};
      total := total + f(id, rest[id]);
      rest := rest - {id};
    }
  }

  // ---------- Checks ----------

  /** The three totals `ensure_resources` compares, in its order. */
  function CompareTotals(
      usedReplicas: real, usedVcpu: real, usedMemoryMb: real, replicas: nat, cpu: real, memoryMb: nat, limits: PlanLimits): Check
  {
    if Round3(usedReplicas + replicas as real) > limits.maxReplicas as real then Exceeded(Replicas)
    else if Round3(usedVcpu + Round3(Times(replicas, cpu))) > limits.maxVcpu then Exceeded(Vcpu)
    else if Round3(usedMemoryMb + Times(replicas, memoryMb as real)) > limits.maxMemoryMb as real then Exceeded(Memory)
    else Allowed
  }

  ghost function CheckResources(
      users: map<string, User>, agents: Agents, user: string, id: Option<string>,
      replicas: nat, cpu: real, memoryMb: nat): Check
  {
    if user !in users then UnknownUser
    else if users[user].admin then Allowed
    else
      var limits := LimitsFor(users[user].plan);
      if cpu > limits.maxReplicaCpu then Exceeded(CpuPerReplica)
      else if memoryMb > limits.maxReplicaMemoryMb then Exceeded(MemoryPerReplica)
      else
        var usage := UsageOf(agents, user, id);
        CompareTotals(usage.replicas, usage.vcpu, usage.memoryMb, replicas, cpu, memoryMb, limits)
  }

  ghost function CheckCreate(users: map<string, User>, agents: Agents, user: string): Check {
    if user !in users then UnknownUser
    else if users[user].admin then Allowed
    else if Sum(agents, OwnWeight(user)) + 1.0 > LimitsFor(users[user].plan).maxAgents as real then Exceeded(AgentCount)
    else Allowed
  }

  method EnsureCanCreateAgent(users: map<string, User>, agents: Agents, user: string) returns (c: Check)
    ensures c == CheckCreate(users, agents, user)
  {
    if user !in users {
      return UnknownUser;
    }
    if users[user].admin {
      return Allowed;
    }
    var usage := CurrentUsage(agents, user, None);
    if usage.agents + 1.0 > LimitsFor(users[user].plan).maxAgents as real {
      return Exceeded(AgentCount);
    }
    return Allowed;
  }

  method EnsureResources(
      users: map<string, User>, agents: Agents, user: string, id: Option<string>,
      replicas: nat, cpu: real, memoryMb: nat)
    returns (c: Check)
    ensures c == CheckResources(users, agents, user, id, replicas, cpu, memoryMb)
  {
    if user !in users {
      return UnknownUser;
    }
    if users[user].admin {
      return Allowed;
    }
    var limits := LimitsFor(users[user].plan);
    if cpu > limits.maxReplicaCpu {
      return Exceeded(CpuPerReplica);
    }
    if memoryMb > limits.maxReplicaMemoryMb {
      return Exceeded(MemoryPerReplica);
    }
    var usage := CurrentUsage(agents, user, id);
    return CompareTotals(usage.replicas, usage.vcpu, usage.memoryMb, replicas, cpu, memoryMb, limits);
  }

  // ---------- What an admitted request guarantees ----------

  lemma RoundingError(x: real)
    ensures -0.0005 <= Round3(x) - x <= 0.0005
  {
  }

  /** Half way between two whole numbers, rounding takes the even one. */
  lemma TiesGoToEven(k: int)
    ensures NearestEven(k as real + 0.5) == if k % 2 == 0 then k else k + 1
  {
  }

  lemma NearestOfWhole(n: int)
    ensures NearestEven(n as real) == n
  {
    var m := NearestEven(n as real);
    assert -0.5 <= (m - n) as real <= 0.5;
  }

  lemma RoundWhole(m: int, n: int)
    ensures Round3(m as real + n as real) == m as real + n as real
  {
    NearestOfWhole((m + n) * 1000);
    assert ((m + n) * 1000) as real == (m as real + n as real) * 1000.0;
  }

  /** Rounding two totals and then their sum is off by at most a thousandth: the sum itself is exact. */
  lemma RoundedTotal(x: real, y: real)
    ensures -0.001 <= Round3(Round3(x) + Round3(y)) - (x + y) <= 0.001
  {
    var m, n := NearestEven(x * 1000.0), NearestEven(y * 1000.0);
    NearestOfWhole(m + n);
    assert (m + n) as real == (Round3(x) + Round3(y)) * 1000.0;
    RoundingError(x);
    RoundingError(y);
  }

  lemma {:induction false} ReplicaSumIsWhole(agents: Agents, user: string) returns (n: int)
    ensures Sum(agents, ReplicaWeight(user)) == n as real
    decreases |agents|
  {
    if agents == map[] {
      n := 0;
    } else {
      var id :| id in agents;
      assert (agents - {id}).Keys == agents.Keys - {id};
      SumRemove(agents, ReplicaWeight(user), id);
      var m := ReplicaSumIsWhole(agents - {id}, user);
      n := m + if Holds(agents[id], user) then agents[id].replicas else 0;
    }
  }

  lemma {:induction false} MemorySumIsWhole(agents: Agents, user: string) returns (n: int)
    ensures Sum(agents, MemoryWeight(user)) == n as real
    decreases |agents|
  {
    if agents == map[] {
      n := 0;
    } else {
      var id :| id in agents;
      assert (agents - {id}).Keys == agents.Keys - {id};
      SumRemove(agents, MemoryWeight(user), id);
      var m := MemorySumIsWhole(agents - {id}, user);
      TimesWhole(agents[id].replicas, agents[id].memoryMb);
      n := m + if Holds(agents[id], user) then agents[id].replicas * agents[id].memoryMb else 0;
    }
  }

  /** The totals of an account within a plan; vCPU may pass it by a thousandth. */
  ghost predicate Within(agents: Agents, user: string, limits: PlanLimits) {
    && Sum(agents, ReplicaWeight(user)) <= limits.maxReplicas as real
    && Sum(agents, VcpuWeight(user)) <= limits.maxVcpu + 0.001
    && Sum(agents, MemoryWeight(user)) <= limits.maxMemoryMb as real
  }

  /** Exact room for a shape beside `others`; vCPU may pass the plan by a thousandth. */
  ghost predicate Fits(others: Agents, user: string, replicas: nat, cpu: real, memoryMb: nat, limits: PlanLimits) {
    && Sum(others, ReplicaWeight(user)) + replicas as real <= limits.maxReplicas as real
    && Sum(others, VcpuWeight(user)) + Times(replicas, cpu) <= limits.maxVcpu + 0.001
    && Sum(others, MemoryWeight(user)) + Times(replicas, memoryMb as real) <= limits.maxMemoryMb as real
  }

  /** An admitted request fits exactly, and its rounding error is at most a thousandth of a vCPU in all. */
  lemma AdmittedFits(
      users: map<string, User>, agents: Agents, user: string, id: Option<string>,
      replicas: nat, cpu: real, memoryMb: nat)
    requires user in users && !users[user].admin
    requires CheckResources(users, agents, user, id, replicas, cpu, memoryMb) == Allowed
    ensures Fits(Excluding(agents, id), user, replicas, cpu, memoryMb, LimitsFor(users[user].plan))
  {
    var others := Excluding(agents, id);
    var r := ReplicaSumIsWhole(others, user);
    var m := MemorySumIsWhole(others, user);
    RoundWhole(r, replicas);
    TimesWhole(replicas, memoryMb);
    RoundWhole(m, replicas * memoryMb);
    RoundedTotal(Sum(others, VcpuWeight(user)), Times(replicas, cpu));
  }

  /** A refusal is never spurious: each names a limit that the request would pass, up to the same rounding. */
  lemma RefusedDoesNotFit(
      users: map<string, User>, agents: Agents, user: string, id: Option<string>,
      replicas: nat, cpu: real, memoryMb: nat)
    requires user in users
    requires CheckResources(users, agents, user, id, replicas, cpu, memoryMb).Exceeded?
    ensures var limits := LimitsFor(users[user].plan); var others := Excluding(agents, id);
            && !users[user].admin
            && match CheckResources(users, agents, user, id, replicas, cpu, memoryMb).resource
               case CpuPerReplica => cpu > limits.maxReplicaCpu
               case MemoryPerReplica => memoryMb > limits.maxReplicaMemoryMb
               case Replicas => Sum(others, ReplicaWeight(user)) + replicas as real > limits.maxReplicas as real
               case Vcpu => Sum(others, VcpuWeight(user)) + Times(replicas, cpu) > limits.maxVcpu - 0.001
               case Memory => Sum(others, MemoryWeight(user)) + Times(replicas, memoryMb as real) > limits.maxMemoryMb as real
               case AgentCount => false
  {
    var others := Excluding(agents, id);
    var r := ReplicaSumIsWhole(others, user);
    var m := MemorySumIsWhole(others, user);
    RoundWhole(r, replicas);
    TimesWhole(replicas, memoryMb);
    RoundWhole(m, replicas * memoryMb);
    RoundedTotal(Sum(others, VcpuWeight(user)), Times(replicas, cpu));
  }

  /** So a shape with room to spare beside the other rows is admitted. */
  lemma RoomIsAdmitted(
      users: map<string, User>, agents: Agents, user: string, id: Option<string>,
      replicas: nat, cpu: real, memoryMb: nat)
    requires user in users
    requires var limits := LimitsFor(users[user].plan); var others := Excluding(agents, id);
             && cpu <= limits.maxReplicaCpu && memoryMb <= limits.maxReplicaMemoryMb
             && Sum(others, ReplicaWeight(user)) + replicas as real <= limits.maxReplicas as real
             && Sum(others, VcpuWeight(user)) + Times(replicas, cpu) <= limits.maxVcpu - 0.001
             && Sum(others, MemoryWeight(user)) + Times(replicas, memoryMb as real) <= limits.maxMemoryMb as real
    ensures CheckResources(users, agents, user, id, replicas, cpu, memoryMb) == Allowed
  {
    var check := CheckResources(users, agents, user, id, replicas, cpu, memoryMb);
    if check.Exceeded? {
      RefusedDoesNotFit(users, agents, user, id, replicas, cpu, memoryMb);
    }
  }

  // ---------- Which limit a refusal names ----------

  ghost function OwnedIds(agents: Agents, user: string): set<string> {
    set id | id in agents && agents[id].user == user
  }

  lemma {:induction false} OwnSumIsCount(agents: Agents, user: string)
    ensures Sum(agents, OwnWeight(user)) == |OwnedIds(agents, user)| as real
    decreases |agents|
  {
    if agents == map[] {
      assert OwnedIds(agents, user) == {};
    } else {
      var id :| id in agents;
      assert (agents - {id}).Keys == agents.Keys - {id};
      SumRemove(agents, OwnWeight(user), id);
      OwnSumIsCount(agents - {id}, user);
      assert OwnedIds(agents - {id}, user) == OwnedIds(agents, user) - {id};
    }
  }

  /** One more agent is refused exactly to an account, not an admin's, that has as many as its plan allows. */
  lemma CreateRefusedIff(users: map<string, User>, agents: Agents, user: string)
    ensures var check := CheckCreate(users, agents, user);
            && (check == UnknownUser <==> user !in users)
            && (user in users ==>
                  (check == Exceeded(AgentCount) <==>
                     !users[user].admin && |OwnedIds(agents, user)| >= LimitsFor(users[user].plan).maxAgents))
            && (check.Exceeded? ==> check.resource == AgentCount)
  {
    OwnSumIsCount(agents, user);
  }

  /** The comparison of totals, on whole numbers of replicas and megabytes. */
  lemma TotalsNameFirstLimit(r: int, v: real, m: int, replicas: nat, cpu: real, memoryMb: nat, limits: PlanLimits)
    ensures var check := CompareTotals(r as real, Round3(v), m as real, replicas, cpu, memoryMb, limits);
            var many := r as real + replicas as real > limits.maxReplicas as real;
            var heavy := m as real + Times(replicas, memoryMb as real) > limits.maxMemoryMb as real;
            var vcpu := v + Times(replicas, cpu);
            && (check == Exceeded(Replicas) <==> many)
            && (check == Exceeded(Vcpu) ==> !many && vcpu > limits.maxVcpu - 0.001)
            && (!many && vcpu > limits.maxVcpu + 0.001 ==> check == Exceeded(Vcpu))
            && (check == Exceeded(Memory) ==> !many && heavy && vcpu <= limits.maxVcpu + 0.001)
            && (check == Allowed ==> !many && !heavy)
            && (check == Allowed || check == Exceeded(Replicas) || check == Exceeded(Vcpu) || check == Exceeded(Memory))
  {
    RoundWhole(r, replicas);
    TimesWhole(replicas, memoryMb);
    RoundWhole(m, replicas * memoryMb);
    RoundedTotal(v, Times(replicas, cpu));
  }

  /**
    A shape is refused to no admin, and otherwise for the first of the limits it passes: per replica, then in all.  The
    two totals of whole numbers are compared exactly, vCPU to within a thousandth.
   */
  lemma RefusalNamesFirstLimit(
      users: map<string, User>, agents: Agents, user: string, id: Option<string>,
      replicas: nat, cpu: real, memoryMb: nat)
    requires user in users
    ensures var check := CheckResources(users, agents, user, id, replicas, cpu, memoryMb);
            var limits := LimitsFor(users[user].plan); var others := Excluding(agents, id);
            var wide, big := cpu > limits.maxReplicaCpu, memoryMb > limits.maxReplicaMemoryMb;
            var many := Sum(others, ReplicaWeight(user)) + replicas as real > limits.maxReplicas as real;
            var heavy := Sum(others, MemoryWeight(user)) + Times(replicas, memoryMb as real) > limits.maxMemoryMb as real;
            var vcpu := Sum(others, VcpuWeight(user)) + Times(replicas, cpu);
            && check != UnknownUser && (users[user].admin ==> check == Allowed)
            && (!users[user].admin ==>
                  && (check == Exceeded(CpuPerReplica) <==> wide)
                  && (check == Exceeded(MemoryPerReplica) <==> !wide && big)
                  && (check == Exceeded(Replicas) <==> !wide && !big && many)
                  && (check == Exceeded(Vcpu) ==> !wide && !big && !many && vcpu > limits.maxVcpu - 0.001)
                  && (!wide && !big && !many && vcpu > limits.maxVcpu + 0.001 ==> check == Exceeded(Vcpu))
                  && (check == Exceeded(Memory) ==> !wide && !big && !many && heavy && vcpu <= limits.maxVcpu + 0.001)
                  && (check == Allowed ==> !wide && !big && !many && !heavy))
  {
    var others := Excluding(agents, id);
    var r := ReplicaSumIsWhole(others, user);
    var m := MemorySumIsWhole(others, user);
    TotalsNameFirstLimit(r, Sum(others, VcpuWeight(user)), m, replicas, cpu, memoryMb, LimitsFor(users[user].plan));
  }
}
