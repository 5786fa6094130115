/**
  Creating, deploying, scaling and deleting agents (services/agent_service.py), and the part of a
  scheduler tick that syncs an agent's row with its live containers (scheduler.py).

  `AgentService` is the mutable form.  A `World` is its state as a value: the rows, and the live
  containers of each agent with the shape they were started in, which a row can stop describing.
  What the container runtime does is an input of each step.
 */
module Fleet {
  import opened Basics
  import opened Quota

  /** An agent's live containers.  Scaling passes no shape, so all of them have the one last deployed. */
  datatype Containers = Containers(count: nat, cpu: real, memoryMb: nat)

  type Live = map<string, Containers>

  datatype World = World(users: map<string, User>, agents: Agents, live: Live)

  datatype DeployConfig = DeployConfig(
    replicas: nat, cpu: real, memoryMb: nat, image: Option<string>, buildPath: Option<string>, autoScale: bool)

  /** What the request schema admits. */
  predicate ValidConfig(c: DeployConfig) {
    1 <= c.replicas <= 100 && 0.1 <= c.cpu <= 64.0 && 128 <= c.memoryMb <= 65536
  }

  datatype Direction = Up | Down

  /** `runtime.deploy`: an exception leaving any containers, or that many in the new shape and no others. */
  datatype DeployOutcome = DeployRaised(left: Containers) | Deployed(containers: nat)

  /** `runtime.scale`: a scaling error, some other exception, or the containers it leaves. */
  datatype ScaleOutcome = ScalingFailed(left: nat) | ScaleRaised(left: nat) | Scaled(left: nat)

  /** `runtime.remove`: all gone, or an exception with some left. */
  datatype RemoveOutcome = Removed | RemoveRaised(left: nat)

  datatype Reply = Done | NotFound | Refused(check: Check) | BuildNotSupported | DeploymentFailed | InternalError

  /** `health_check`: an exception, or the report on the live containers. */
  datatype Health = CheckRaised | Report(healthy: bool, consecutiveFailures: nat)

  function ContainersOf(live: Live, id: string): Containers {
    if id in live then live[id] else Containers(0, 0.0, 0)
  }

  function LiveOf(live: Live, id: string): nat {
    ContainersOf(live, id).count
  }

  /** More or fewer containers of the same shape. */
  function Recount(live: Live, id: string, n: nat): Live {
    live[id := ContainersOf(live, id).(count := n)]
  }

  function Started(a: Agent, n: nat): Containers {
    Containers(n, a.cpu, a.memoryMb)
  }

  function ApplyConfig(a: Agent, c: DeployConfig): Agent {
    a.(replicas := c.replicas, cpu := c.cpu, memoryMb := c.memoryMb, image := c.image,
       buildPath := c.buildPath, autoScale := c.autoScale)
  }

  /** A new row, with the column defaults where no deploy config is given. */
  function NewAgent(user: string, config: Option<DeployConfig>): Agent {
    var a := Agent(user, Pending, 0, 1.0, 512, None, None, false);
    if config.Some? then ApplyConfig(a, config.value) else a
  }

  predicate NeedsBuild(a: Agent) {
    a.image.None? && a.buildPath.Some?
  }

  function Reconfigured(a: Agent, config: Option<DeployConfig>): Agent {
    if config.Some? then ApplyConfig(a, config.value) else a
  }

  predicate Owns(w: World, user: string, id: string) {
    id in w.agents && w.agents[id].user == user
  }

  ghost function DeployStep(
      w: World, user: string, id: string, config: Option<DeployConfig>, outcome: DeployOutcome): (World, Reply)
  {
    if !Owns(w, user, id) then (w, NotFound)
    else
      var a := Reconfigured(w.agents[id], config);
      var check := CheckResources(w.users, w.agents, user, Some(id), a.replicas, a.cpu, a.memoryMb);
      if check != Allowed then (w, Refused(check))
      else if NeedsBuild(a) then (w.(agents := w.agents[id := a]), BuildNotSupported)
      else
        match outcome
        case DeployRaised(left) =>
          (w.(agents := w.agents[id := a.(status := Failed)], live := w.live[id := left]), DeploymentFailed)
        case Deployed(n) =>
          (w.(agents := w.agents[id := a.(status := Running, replicas := n)], live := w.live[id := Started(a, n)]), Done)
  }

  ghost function CreateStep(
      w: World, user: string, id: string, config: Option<DeployConfig>, outcome: DeployOutcome): (World, Reply)
  {
    var room := CheckCreate(w.users, w.agents, user);
    if room != Allowed then (w, Refused(room))
    else
      var a := NewAgent(user, config);
      if config.None? then (w.(agents := w.agents[id := a], live := w.live[id := Started(a, 0)]), Done)
      else
        var check := CheckResources(w.users, w.agents, user, None, a.replicas, a.cpu, a.memoryMb);
        if check != Allowed then (w, Refused(check))
        else DeployStep(w.(agents := w.agents[id := a], live := w.live[id := Started(a, 0)]), user, id, None, outcome)
  }

  /** Scaling up is checked, scaling down is not. */
  ghost function ScaleCheck(w: World, user: string, id: string, direction: Direction, count: nat): Check
    requires id in w.agents
  {
    var a := w.agents[id];
    if direction == Up then CheckResources(w.users, w.agents, user, Some(id), a.replicas + count, a.cpu, a.memoryMb)
    else Allowed
  }

  /** The row a scaling leaves; an exception the code does not expect leaves it as it was, but scaling. */
  function ScaledRow(a: Agent, outcome: ScaleOutcome): Agent {
    match outcome
    case ScalingFailed(_) => a.(status := Failed)
    case ScaleRaised(_) => a.(status := Scaling)
    case Scaled(n) => a.(status := Running, replicas := if n > 0 then n else a.replicas)
  }

  function ScaleReply(outcome: ScaleOutcome): Reply {
    match outcome
    case ScalingFailed(_) => DeploymentFailed
    case ScaleRaised(_) => InternalError
    case Scaled(_) => Done
  }

  ghost function ScaleStep(
      w: World, user: string, id: string, direction: Direction, count: nat, outcome: ScaleOutcome): (World, Reply)
  {
    if !Owns(w, user, id) then (w, NotFound)
    else
      var a := w.agents[id];
      var check := ScaleCheck(w, user, id, direction, count);
      if check != Allowed then (w, Refused(check))
      else
        (w.(agents := w.agents[id := ScaledRow(a, outcome)], live := Recount(w.live, id, outcome.left)), ScaleReply(outcome))
  }

  function DeleteStep(w: World, user: string, id: string, outcome: RemoveOutcome): (World, Reply) {
    if !Owns(w, user, id) then (w, NotFound)
    else
      match outcome
      case RemoveRaised(left) => (w.(live := Recount(w.live, id, left)), InternalError)
      case Removed => (w.(agents := w.agents - {id}, live := w.live - {id}), Done)
  }

  /** The status a tick gives an active agent from what the health check saw. */
  function SyncedStatus(s: Status, live: nat, h: Health): Status
    requires h.Report?
  {
    if live == 0 then Stopped
    else if !h.healthy && h.consecutiveFailures >= 3 then Crashed
    else if s != Scaling then Running
    else s
  }

  /** A tick's sync of one agent; ticks only look at active agents. */
  function SyncStep(w: World, id: string, h: Health): World {
    if id in w.agents && Active(w.agents[id].status) && h.Report? then
      var a := w.agents[id];
      var n := LiveOf(w.live, id);
      w.(agents := w.agents[id := a.(replicas := n, status := SyncedStatus(a.status, n, h))])
    else w
  }

  class AgentService {
    const users: map<string, User>
    var agents: Agents
    var live: Live

    ghost function State(): World
      reads this
    {
      World(users, agents, live)
    }

    constructor (users: map<string, User>)
      ensures State() == World(users, map[], map[])
    {
      this.users := users;
      agents, live := map[], map[];
    }

    method CreateAgent(user: string, id: string, config: Option<DeployConfig>, outcome: DeployOutcome)
      returns (reply: Reply)
      requires id !in agents
      modifies this
      ensures (State(), reply) == CreateStep(old(State()), user, id, config, outcome)
    {
      var room := EnsureCanCreateAgent(users, agents, user);
      if room != Allowed {
        return Refused(room);
      }
      var a := NewAgent(user, config);
      if config.Some? {
        var check := EnsureResources(users, agents, user, None, a.replicas, a.cpu, a.memoryMb);
        if check != Allowed {
          return Refused(check);
        }
      }
      agents := agents[id := a];
      live := live[id := Started(a, 0)];
      if config.Some? {
        reply := DeployAgent(user, id, None, outcome);
      } else {
        reply := Done;
      }
    }

    method DeployAgent(user: string, id: string, config: Option<DeployConfig>, outcome: DeployOutcome)
      returns (reply: Reply)
      modifies this
      ensures (State(), reply) == DeployStep(old(State()), user, id, config, outcome)
    {
      if id !in agents || agents[id].user != user {
        return NotFound;
      }
      var a := Reconfigured(agents[id], config);
      var check := EnsureResources(users, agents, user, Some(id), a.replicas, a.cpu, a.memoryMb);
      if check != Allowed {
        return Refused(check);
      }
      agents := agents[id := a];
      if NeedsBuild(a) {
        return BuildNotSupported;
      }
      reply := RunDeploy(id, a, outcome);
      assert old(agents)[id := a][id := agents[id]] == old(agents)[id := agents[id]];
    }

    /** `deploy_agent` from the point where it starts the containers. */
    method RunDeploy(id: string, a: Agent, outcome: DeployOutcome) returns (reply: Reply)
      modifies this
      ensures reply == if outcome.Deployed? then Done else DeploymentFailed
      ensures agents == old(agents)[id := match outcome
                                          case DeployRaised(_) => a.(status := Failed)
                                          case Deployed(n) => a.(status := Running, replicas := n)]
      ensures live == old(live)[id := match outcome case DeployRaised(left) => left case Deployed(n) => Started(a, n)]
    {
      agents := agents[id := a.(status := Starting)];
      match outcome {
        case DeployRaised(left) =>
          live := live[id := left];
          agents := agents[id := a.(status := Failed)];
          return DeploymentFailed;
        case Deployed(n) =>
          live := live[id := Started(a, n)];
          agents := agents[id := a.(status := Running, replicas := n)];
          return Done;
      }
    }

    method ScaleAgent(user: string, id: string, direction: Direction, count: nat, outcome: ScaleOutcome)
      returns (reply: Reply)
      modifies this
      ensures (State(), reply) == ScaleStep(old(State()), user, id, direction, count, outcome)
    {
      if id !in agents || agents[id].user != user {
        return NotFound;
      }
      var a := agents[id];
      if direction == Up {
        var check := EnsureResources(users, agents, user, Some(id), a.replicas + count, a.cpu, a.memoryMb);
        if check != Allowed {
          return Refused(check);
        }
      }
      reply := RunScale(id, a, outcome);
    }

    /** `scale_agent` past its quota check. */
    method RunScale(id: string, a: Agent, outcome: ScaleOutcome) returns (reply: Reply)
      modifies this
      ensures reply == ScaleReply(outcome)
      ensures agents == old(agents)[id := ScaledRow(a, outcome)]
      ensures live == Recount(old(live), id, outcome.left)
    {
      agents := agents[id := a.(status := Scaling)];
      live := Recount(live, id, outcome.left);
      match outcome {
        case ScalingFailed(_) =>
          agents := agents[id := a.(status := Failed)];
          return DeploymentFailed;
        case ScaleRaised(_) =>
          return InternalError;
        case Scaled(n) =>
          agents := agents[id := a.(status := Running, replicas := if n > 0 then n else a.replicas)];
          return Done;
      }
    }

    method DeleteAgent(user: string, id: string, outcome: RemoveOutcome) returns (reply: Reply)
      modifies this
      ensures (State(), reply) == DeleteStep(old(State()), user, id, outcome)
    {
      if id !in agents || agents[id].user != user {
        return NotFound;
      }
      if outcome.RemoveRaised? {
        live := Recount(live, id, outcome.left);
        return InternalError;
      }
      live := live - {id};
      agents := agents - {id};
      return Done;
    }
  }

  // ---------- Creation is all or nothing ----------

  /** A create refused for quota leaves nothing behind; one admitted is not refused halfway through. */
  lemma CreateIsAllOrNothing(
      w: World, user: string, id: string, config: Option<DeployConfig>, outcome: DeployOutcome)
    requires id !in w.agents
    ensures var (after, reply) := CreateStep(w, user, id, config, outcome);
            && (reply.Refused? <==> after == w)
            && (!reply.Refused? <==> id in after.agents)
            && (config.Some? ==>
                  (reply.Refused? <==>
                     || CheckCreate(w.users, w.agents, user) != Allowed
                     || CheckResources(w.users, w.agents, user, None, config.value.replicas, config.value.cpu,
                                       config.value.memoryMb) != Allowed))
  {
    var a := NewAgent(user, config);
    assert w.agents[id := a] - {id} == w.agents;
    assert Excluding(w.agents[id := a], Some(id)) == Excluding(w.agents, None);
    AddedRowCheck(w.users, w.agents, user, id, a);
    assert id in w.agents[id := a];
  }

  /** Once its own row is excluded, an inserted agent is checked exactly as before it was inserted. */
  lemma AddedRowCheck(users: map<string, User>, agents: Agents, user: string, id: string, a: Agent)
    requires id !in agents
    ensures CheckResources(users, agents[id := a], user, Some(id), a.replicas, a.cpu, a.memoryMb) ==
            CheckResources(users, agents, user, None, a.replicas, a.cpu, a.memoryMb)
  {
    assert agents[id := a] - {id} == agents;
  }

  // ---------- Who a request can touch ----------

  datatype Step =
    | Create(user: string, id: string, config: Option<DeployConfig>, deployOutcome: DeployOutcome)
    | Deploy(user: string, id: string, config: Option<DeployConfig>, deployOutcome: DeployOutcome)
    | Scale(user: string, id: string, direction: Direction, count: nat, scaleOutcome: ScaleOutcome)
    | Delete(user: string, id: string, removeOutcome: RemoveOutcome)
    | Sync(id: string, health: Health)
    | LoseContainers(id: string, left: nat)

  ghost function Next(w: World, s: Step): World {
    match s
    case Create(user, id, config, outcome) => CreateStep(w, user, id, config, outcome).0
    case Deploy(user, id, config, outcome) => DeployStep(w, user, id, config, outcome).0
    case Scale(user, id, direction, count, outcome) => ScaleStep(w, user, id, direction, count, outcome).0
    case Delete(user, id, outcome) => DeleteStep(w, user, id, outcome).0
    case Sync(id, health) => SyncStep(w, id, health)
    case LoseContainers(id, left) => w.(live := Recount(w.live, id, left))
  }

  ghost function After(w: World, steps: seq<Step>): World
    decreases |steps|
  {
    if steps == [] then w else After(Next(w, steps[0]), steps[1..])
  }

  /** An agent as its owner knows it: its row and its containers. */
  predicate SameAgent(w: World, v: World, id: string) {
    && (id in w.agents <==> id in v.agents)
    && (id in w.agents ==> w.agents[id] == v.agents[id])
    && ContainersOf(w.live, id) == ContainersOf(v.live, id)
  }

  /** Every agent but one is as it was, and so are the accounts. */
  ghost predicate OnlyTouches(w: World, after: World, id: string) {
    after.users == w.users && forall j :: j != id ==> SameAgent(w, after, j)
  }

  /** A step by someone else on an agent that is not theirs, or on another agent. */
  predicate Foreign(s: Step, user: string, id: string) {
    s.id != id || ((s.Deploy? || s.Scale? || s.Delete?) && s.user != user)
  }

  /** Nobody's requests reach another account's agent: over any run of them it stays exactly as it was. */
  lemma {:induction false} AccountsAreIsolated(w: World, steps: seq<Step>, user: string, id: string)
    requires Owns(w, user, id) && forall i :: 0 <= i < |steps| ==> Foreign(steps[i], user, id)
    ensures SameAgent(w, After(w, steps), id)
    decreases |steps|
  {
    if steps != [] {
      ForeignStep(w, steps[0], user, id);
      AccountsAreIsolated(Next(w, steps[0]), steps[1..], user, id);
    }
  }

  lemma ForeignStep(w: World, s: Step, user: string, id: string)
    requires Owns(w, user, id) && Foreign(s, user, id)
    ensures SameAgent(w, Next(w, s), id)
  {
  }
}
