/**
  Accounts stay within their plans (plans.py, services/quota_service.py): what requests and scheduler syncs
  keep, both of the rows that quotas count and of the containers that really run, over every run of them;
  and exactly when the requests that quotas do not protect against break it.
 */
module PlanSafety {
  import opened Basics
  import opened Sums
  import opened Plans
  import opened Quota
  import opened Fleet

  // ---------- Rows and running containers ----------

  /** An account's active agents within its plan, the vCPU total to within a thousandth. */
  ghost predicate WithinPlan(agents: Agents, user: string, limits: PlanLimits) {
    && Sum(agents, OwnWeight(user)) <= limits.maxAgents as real
    && Within(agents, user, limits)
  }

  function LiveWeight(live: Live, user: string): (string, Agent) -> real {
    (id: string, a: Agent) => if Holds(a, user) then LiveOf(live, id) as real else 0.0
  }

  function LiveVcpuWeight(live: Live, user: string): (string, Agent) -> real {
    (id: string, a: Agent) => if Holds(a, user) then Times(LiveOf(live, id), ContainersOf(live, id).cpu) else 0.0
  }

  function LiveMemoryWeight(live: Live, user: string): (string, Agent) -> real {
    (id: string, a: Agent) =>
      if Holds(a, user) then Times(LiveOf(live, id), ContainersOf(live, id).memoryMb as real) else 0.0
  }

  /** What the account's active agents really run, with `replicas` more of a shape, is within the plan. */
  ghost predicate RunsFit(w: World, user: string, replicas: nat, cpu: real, memoryMb: nat, limits: PlanLimits) {
    && Sum(w.agents, LiveWeight(w.live, user)) + replicas as real <= limits.maxReplicas as real
    && Sum(w.agents, LiveVcpuWeight(w.live, user)) + Times(replicas, cpu) <= limits.maxVcpu + 0.001
    && Sum(w.agents, LiveMemoryWeight(w.live, user)) + Times(replicas, memoryMb as real) <= limits.maxMemoryMb as real
  }

  ghost predicate RunsWithin(w: World, user: string, limits: PlanLimits) {
    RunsFit(w, user, 0, 0.0, 0, limits)
  }

  predicate ShapeFits(a: Agent, c: Containers) {
    c.cpu <= a.cpu && c.memoryMb <= a.memoryMb
  }

  /** The row promises at least the containers there are, in at least their shape. */
  predicate Covers(a: Agent, c: Containers) {
    c.count <= a.replicas && ShapeFits(a, c)
  }

  ghost predicate Tracked(w: World, user: string) {
    forall id :: id in w.agents && Holds(w.agents[id], user) ==> Covers(w.agents[id], ContainersOf(w.live, id))
  }

  ghost predicate Sane(agents: Agents) {
    forall id :: id in agents ==> agents[id].cpu >= 0.0
  }

  ghost predicate Limited(w: World, user: string) {
    user in w.users && !w.users[user].admin
  }

  ghost function LimitsOf(w: World, user: string): PlanLimits
    requires user in w.users
  {
    LimitsFor(w.users[user].plan)
  }

  ghost predicate Safe(w: World, user: string) {
    && Limited(w, user)
    && Sane(w.agents)
    && Tracked(w, user)
    && WithinPlan(w.agents, user, LimitsOf(w, user))
  }

  /** In a safe account the containers that run are within the plan, not only the rows. */
  lemma SafeRunsWithin(w: World, user: string)
    requires Safe(w, user)
    ensures RunsWithin(w, user, LimitsOf(w, user))
  {
    forall id | id in w.agents && Holds(w.agents[id], user)
      ensures LiveVcpuWeight(w.live, user)(id, w.agents[id]) <= VcpuWeight(user)(id, w.agents[id])
      ensures LiveMemoryWeight(w.live, user)(id, w.agents[id]) <= MemoryWeight(user)(id, w.agents[id])
    {
      var a, c := w.agents[id], ContainersOf(w.live, id);
      assert Covers(a, c);
      TimesMonotone(c.count, a.replicas, c.cpu, a.cpu);
      TimesMonotone(c.count, a.replicas, c.memoryMb as real, a.memoryMb as real);
    }
    SumMonotone(w.agents, LiveWeight(w.live, user), w.agents, ReplicaWeight(user));
    SumMonotone(w.agents, LiveVcpuWeight(w.live, user), w.agents, VcpuWeight(user));
    SumMonotone(w.agents, LiveMemoryWeight(w.live, user), w.agents, MemoryWeight(user));
  }

  lemma FitsLess(others: Agents, user: string, a: Agent, n: nat, limits: PlanLimits)
    requires a.cpu >= 0.0 && n <= a.replicas
    requires Fits(others, user, a.replicas, a.cpu, a.memoryMb, limits)
    ensures Fits(others, user, n, a.cpu, a.memoryMb, limits)
  {
    TimesMonotone(n, a.replicas, a.cpu, a.cpu);
    TimesMonotone(n, a.replicas, a.memoryMb as real, a.memoryMb as real);
  }

  /** Taking a row out frees what it held. */
  lemma RowRemoved(agents: Agents, user: string, id: string, limits: PlanLimits)
    requires Sane(agents) && Within(agents, user, limits)
    ensures Within(agents - {id}, user, limits)
    ensures id in agents && Holds(agents[id], user) ==>
              Fits(agents - {id}, user, agents[id].replicas, agents[id].cpu, agents[id].memoryMb, limits)
    ensures Sum(agents - {id}, OwnWeight(user)) <= Sum(agents, OwnWeight(user))
  {
    if id in agents {
      SumRemove(agents, OwnWeight(user), id);
      SumRemove(agents, ReplicaWeight(user), id);
      SumRemove(agents, VcpuWeight(user), id);
      SumRemove(agents, MemoryWeight(user), id);
      TimesMonotone(0, agents[id].replicas, agents[id].cpu, agents[id].cpu);
      TimesMonotone(0, agents[id].replicas, agents[id].memoryMb as real, agents[id].memoryMb as real);
    } else {
      assert agents - {id} == agents;
    }
  }

  /** Writing a row keeps the plan if what it then holds fits beside the others. */
  lemma RowWritten(agents: Agents, user: string, id: string, a: Agent, limits: PlanLimits)
    requires Within(agents - {id}, user, limits)
    requires Holds(a, user) ==> Fits(agents - {id}, user, a.replicas, a.cpu, a.memoryMb, limits)
    ensures Within(agents[id := a], user, limits)
    ensures id in agents && agents[id].user == a.user ==>
              Sum(agents[id := a], OwnWeight(user)) == Sum(agents, OwnWeight(user))
  {
    SumUpdate(agents, OwnWeight(user), id, a);
    SumUpdate(agents, ReplicaWeight(user), id, a);
    SumUpdate(agents, VcpuWeight(user), id, a);
    SumUpdate(agents, MemoryWeight(user), id, a);
  }

  /** Every step that rewrites an existing row goes through here. */
  lemma RewriteIsSafe(w: World, user: string, id: string, a: Agent, live: Live)
    requires Safe(w, user) && id in w.agents && a.user == w.agents[id].user && a.cpu >= 0.0
    requires forall j :: j != id ==> ContainersOf(live, j) == ContainersOf(w.live, j)
    requires Holds(a, user) ==>
               && Covers(a, ContainersOf(live, id))
               && Fits(w.agents - {id}, user, a.replicas, a.cpu, a.memoryMb, LimitsOf(w, user))
    ensures Safe(w.(agents := w.agents[id := a], live := live), user)
  {
    var limits := LimitsOf(w, user);
    RowRemoved(w.agents, user, id, limits);
    RowWritten(w.agents, user, id, a, limits);
  }

  lemma RowWrittenIff(agents: Agents, user: string, id: string, a: Agent, limits: PlanLimits)
    requires id in agents && agents[id].user == user && Holds(a, user)
    requires Sum(agents, OwnWeight(user)) <= limits.maxAgents as real
    ensures WithinPlan(agents[id := a], user, limits) <==>
            Fits(agents - {id}, user, a.replicas, a.cpu, a.memoryMb, limits)
  {
    SumUpdate(agents, OwnWeight(user), id, a);
    SumUpdate(agents, ReplicaWeight(user), id, a);
    SumUpdate(agents, VcpuWeight(user), id, a);
    SumUpdate(agents, MemoryWeight(user), id, a);
  }

  /** Rewriting one of the account's own rows as an active one is safe exactly when the row covers and fits. */
  lemma RewriteSafeIff(w: World, user: string, id: string, a: Agent, live: Live)
    requires Safe(w, user) && Owns(w, user, id) && Holds(a, user) && a.cpu >= 0.0
    requires forall j :: j != id ==> ContainersOf(live, j) == ContainersOf(w.live, j)
    ensures Safe(w.(agents := w.agents[id := a], live := live), user) <==>
            && Covers(a, ContainersOf(live, id))
            && Fits(w.agents - {id}, user, a.replicas, a.cpu, a.memoryMb, LimitsOf(w, user))
  {
    var after := w.(agents := w.agents[id := a], live := live);
    if Covers(a, ContainersOf(live, id)) {
      RowWrittenIff(w.agents, user, id, a, LimitsOf(w, user));
      if Fits(w.agents - {id}, user, a.replicas, a.cpu, a.memoryMb, LimitsOf(w, user)) {
        RewriteIsSafe(w, user, id, a, live);
      }
    } else {
      assert after.agents[id] == a && id in after.agents;
    }
  }

  // ---------- Every step keeps an account safe ----------

  function Growth(direction: Direction, count: nat): nat {
    if direction == Up then count else 0
  }

  function Max(m: nat, n: nat): nat {
    if m < n then n else m
  }

  /** A deploy runs no more containers than asked for; a scale up by n adds at most n, and nothing else adds any. */
  ghost predicate RuntimeContract(w: World, s: Step) {
    match s
    case Create(_, _, config, outcome) => outcome.Deployed? && config.Some? ==> outcome.containers <= config.value.replicas
    case Deploy(_, id, config, outcome) =>
      outcome.Deployed? && id in w.agents ==> outcome.containers <= Reconfigured(w.agents[id], config).replicas
    case Scale(_, id, direction, count, outcome) => outcome.left <= LiveOf(w.live, id) + Growth(direction, count)
    case Delete(_, id, outcome) => outcome.RemoveRaised? ==> outcome.left <= LiveOf(w.live, id)
    case Sync(_, _) => true
    case LoseContainers(id, left) => left <= LiveOf(w.live, id)
  }

  /** The plan has room beside the account's other agents for all the containers a scaling of this one may leave. */
  ghost predicate Scalable(w: World, user: string, id: string, growth: nat)
    requires user in w.users && id in w.agents
  {
    var a, c := w.agents[id], ContainersOf(w.live, id);
    && ShapeFits(a, c)
    && Fits(w.agents - {id}, user, Max(c.count + growth, a.replicas), a.cpu, a.memoryMb, LimitsOf(w, user))
  }

  /**
    What an account's requests must avoid for it to stay safe: a redeploy that is refused for want of an image
    after describing running containers as fewer or smaller; scaling an inactive agent without room for it; and
    a scale up that raises after starting more containers than the row says.  Other accounts may do anything.
   */
  ghost predicate Careful(w: World, s: Step, user: string) {
    match s
    case Create(_, id, config, _) => id !in w.agents && (config.Some? ==> ValidConfig(config.value))
    case Deploy(owner, id, config, _) =>
      && (config.Some? ==> ValidConfig(config.value))
      && (owner == user && Owns(w, user, id) && Active(w.agents[id].status) && NeedsBuild(Reconfigured(w.agents[id], config)) ==>
            Covers(Reconfigured(w.agents[id], config), ContainersOf(w.live, id)))
    case Scale(owner, id, direction, count, outcome) =>
      owner == user && user in w.users && Owns(w, user, id) ==>
        && (!Active(w.agents[id].status) ==> Scalable(w, user, id, Growth(direction, count)))
        && (outcome.ScaleRaised? ==> outcome.left <= w.agents[id].replicas)
    case Delete(_, _, _) => true
    case Sync(_, _) => true
    case LoseContainers(_, _) => true
  }

  lemma DeployIsSafe(w: World, s: Step, user: string)
    requires s.Deploy? && Safe(w, user) && RuntimeContract(w, s) && Careful(w, s, user)
    ensures Safe(Next(w, s), user)
  {
    if Owns(w, s.user, s.id) {
      var a := Reconfigured(w.agents[s.id], s.config);
      var check := CheckResources(w.users, w.agents, s.user, Some(s.id), a.replicas, a.cpu, a.memoryMb);
      if check == Allowed {
        if s.user == user {
          AdmittedFits(w.users, w.agents, user, Some(s.id), a.replicas, a.cpu, a.memoryMb);
        }
        if NeedsBuild(a) {
          RewriteIsSafe(w, user, s.id, a, w.live);
        } else if s.deployOutcome.DeployRaised? {
          RewriteIsSafe(w, user, s.id, a.(status := Failed), w.live[s.id := s.deployOutcome.left]);
        } else {
          var n := s.deployOutcome.containers;
          if s.user == user {
            FitsLess(w.agents - {s.id}, user, a, n, LimitsOf(w, user));
          }
          RewriteIsSafe(w, user, s.id, a.(status := Running, replicas := n), w.live[s.id := Started(a, n)]);
        }
      }
    }
  }

  lemma InsertIsSafe(w: World, user: string, id: string, a: Agent)
    requires Safe(w, user) && id !in w.agents && a.status == Pending && a.cpu >= 0.0
    requires a.user == user ==> CheckCreate(w.users, w.agents, user) == Allowed
    ensures Safe(w.(agents := w.agents[id := a], live := w.live[id := Started(a, 0)]), user)
  {
    assert w.agents - {id} == w.agents;
    RowWritten(w.agents, user, id, a, LimitsOf(w, user));
    SumUpdate(w.agents, OwnWeight(user), id, a);
  }

  lemma CreateIsSafe(w: World, s: Step, user: string)
    requires s.Create? && Safe(w, user) && RuntimeContract(w, s) && Careful(w, s, user)
    ensures Safe(Next(w, s), user)
  {
    if CheckCreate(w.users, w.agents, s.user) == Allowed {
      var a := NewAgent(s.user, s.config);
      InsertIsSafe(w, user, s.id, a);
      if s.config.Some? {
        var inserted := w.(agents := w.agents[s.id := a], live := w.live[s.id := Started(a, 0)]);
        DeployIsSafe(inserted, Deploy(s.user, s.id, None, s.deployOutcome), user);
      }
    }
  }

  /** A row that covers its containers can be scaled: what the check admitted is room for all that may run. */
  lemma ActiveIsScalable(w: World, user: string, id: string, direction: Direction, count: nat)
    requires Safe(w, user) && Owns(w, user, id) && Active(w.agents[id].status)
    requires ScaleCheck(w, user, id, direction, count) == Allowed
    ensures Scalable(w, user, id, Growth(direction, count))
  {
    var a, c := w.agents[id], ContainersOf(w.live, id);
    assert Covers(a, c);
    GrownFits(w, user, id, direction, count);
    FitsLess(w.agents - {id}, user, a.(replicas := a.replicas + Growth(direction, count)),
             Max(c.count + Growth(direction, count), a.replicas), LimitsOf(w, user));
  }

  lemma GrownFits(w: World, user: string, id: string, direction: Direction, count: nat)
    requires Safe(w, user) && Owns(w, user, id) && Active(w.agents[id].status)
    requires ScaleCheck(w, user, id, direction, count) == Allowed
    ensures var a := w.agents[id];
            Fits(w.agents - {id}, user, a.replicas + Growth(direction, count), a.cpu, a.memoryMb, LimitsOf(w, user))
  {
    var a := w.agents[id];
    if direction == Up {
      AdmittedFits(w.users, w.agents, user, Some(id), a.replicas + count, a.cpu, a.memoryMb);
    } else {
      RowRemoved(w.agents, user, id, LimitsOf(w, user));
    }
  }

  /** With room for all that may run, there is room for the row that any outcome leaves. */
  lemma ScaledRowFits(w: World, user: string, id: string, growth: nat, outcome: ScaleOutcome)
    requires Sane(w.agents) && user in w.users && id in w.agents && Scalable(w, user, id, growth)
    requires outcome.left <= LiveOf(w.live, id) + growth
    ensures var b := ScaledRow(w.agents[id], outcome);
            Fits(w.agents - {id}, user, b.replicas, b.cpu, b.memoryMb, LimitsOf(w, user))
  {
    var a := w.agents[id];
    FitsLess(w.agents - {id}, user, a.(replicas := Max(LiveOf(w.live, id) + growth, a.replicas)),
             ScaledRow(a, outcome).replicas, LimitsOf(w, user));
  }

  lemma ScaleIsSafe(w: World, s: Step, user: string)
    requires s.Scale? && Safe(w, user) && RuntimeContract(w, s) && Careful(w, s, user)
    ensures Safe(Next(w, s), user)
  {
    if Owns(w, s.user, s.id) && ScaleCheck(w, s.user, s.id, s.direction, s.count) == Allowed {
      if s.user == user {
        if Active(w.agents[s.id].status) {
          ActiveIsScalable(w, user, s.id, s.direction, s.count);
        }
        ScaledRowFits(w, user, s.id, Growth(s.direction, s.count), s.scaleOutcome);
      }
      RewriteIsSafe(w, user, s.id, ScaledRow(w.agents[s.id], s.scaleOutcome), Recount(w.live, s.id, s.scaleOutcome.left));
    }
  }

  lemma SyncIsSafe(w: World, s: Step, user: string)
    requires s.Sync? && Safe(w, user)
    ensures Safe(Next(w, s), user)
  {
    if s.id in w.agents && Active(w.agents[s.id].status) && s.health.Report? {
      var a := w.agents[s.id];
      var n := LiveOf(w.live, s.id);
      var limits := LimitsOf(w, user);
      RowRemoved(w.agents, user, s.id, limits);
      if a.user == user {
        FitsLess(w.agents - {s.id}, user, a, n, limits);
      }
      RewriteIsSafe(w, user, s.id, a.(replicas := n, status := SyncedStatus(a.status, n, s.health)), w.live);
    }
  }

  lemma StepIsSafe(w: World, s: Step, user: string)
    requires Safe(w, user) && RuntimeContract(w, s) && Careful(w, s, user)
    ensures Safe(Next(w, s), user)
  {
    match s
    case Create(_, _, _, _) => CreateIsSafe(w, s, user);
    case Deploy(_, _, _, _) => DeployIsSafe(w, s, user);
    case Scale(_, _, _, _, _) => ScaleIsSafe(w, s, user);
    case Delete(_, id, _) => RowRemoved(w.agents, user, id, LimitsOf(w, user));
    case Sync(_, _) => SyncIsSafe(w, s, user);
    case LoseContainers(_, _) =>
  }

  ghost predicate CarefulRun(w: World, steps: seq<Step>, user: string)
    decreases |steps|
  {
    steps == [] ||
    (RuntimeContract(w, steps[0]) && Careful(w, steps[0], user) && CarefulRun(Next(w, steps[0]), steps[1..], user))
  }

  /**
    Over every run of requests and syncs by any accounts, a limited account that is careful stays within its plan:
    in its rows, and in what its active agents really run.
   */
  lemma {:induction false} QuotaSafety(w: World, steps: seq<Step>, user: string)
    requires Safe(w, user) && CarefulRun(w, steps, user)
    ensures Safe(After(w, steps), user)
    ensures RunsWithin(After(w, steps), user, LimitsOf(After(w, steps), user))
    decreases |steps|
  {
    if steps == [] {
      SafeRunsWithin(w, user);
    } else {
      StepIsSafe(w, steps[0], user);
      QuotaSafety(Next(w, steps[0]), steps[1..], user);
    }
  }

  // ---------- Exactly when the unprotected requests are safe ----------

  /** The row left by a scaling that ends active decides its safety. */
  lemma ScaleOutcomeSafeIff(w: World, user: string, id: string, direction: Direction, count: nat, outcome: ScaleOutcome)
    requires Safe(w, user) && Owns(w, user, id) && ScaleCheck(w, user, id, direction, count) == Allowed
    requires !outcome.ScalingFailed?
    ensures var a, b := w.agents[id], ScaledRow(w.agents[id], outcome);
            Safe(ScaleStep(w, user, id, direction, count, outcome).0, user) <==>
            && outcome.left <= b.replicas && ShapeFits(a, ContainersOf(w.live, id))
            && Fits(w.agents - {id}, user, b.replicas, a.cpu, a.memoryMb, LimitsOf(w, user))
  {
    var b, live := ScaledRow(w.agents[id], outcome), Recount(w.live, id, outcome.left);
    assert ScaleStep(w, user, id, direction, count, outcome).0 == w.(agents := w.agents[id := b], live := live);
    RewriteSafeIff(w, user, id, b, live);
  }

  /**
    A scaling that is past its check, up or down and of an agent in any status, is safe whatever containers it
    leaves exactly when the plan has room for all of them in the row's shape and that shape is still theirs.
   */
  lemma ScaleSafeIff(w: World, user: string, id: string, direction: Direction, count: nat)
    requires Safe(w, user) && Owns(w, user, id)
    ensures ScaleCheck(w, user, id, direction, count) == Allowed ==>
              ((forall left: nat :: left <= LiveOf(w.live, id) + Growth(direction, count) ==>
                  Safe(ScaleStep(w, user, id, direction, count, Scaled(left)).0, user))
               <==> Scalable(w, user, id, Growth(direction, count)))
  {
    if ScaleCheck(w, user, id, direction, count) == Allowed {
      AdmittedScaleSafeIff(w, user, id, direction, count);
    }
  }

  lemma AdmittedScaleSafeIff(w: World, user: string, id: string, direction: Direction, count: nat)
    requires Safe(w, user) && Owns(w, user, id) && ScaleCheck(w, user, id, direction, count) == Allowed
    ensures (forall left: nat :: left <= LiveOf(w.live, id) + Growth(direction, count) ==>
               Safe(ScaleStep(w, user, id, direction, count, Scaled(left)).0, user))
            <==> Scalable(w, user, id, Growth(direction, count))
  {
    var a, most := w.agents[id], LiveOf(w.live, id) + Growth(direction, count);
    if Scalable(w, user, id, Growth(direction, count)) {
      forall left: nat | left <= most
        ensures Safe(ScaleStep(w, user, id, direction, count, Scaled(left)).0, user)
      {
        ScaledRowFits(w, user, id, Growth(direction, count), Scaled(left));
        ScaleOutcomeSafeIff(w, user, id, direction, count, Scaled(left));
      }
    } else {
      var left := if most > a.replicas then most else 0;
      assert ScaledRow(a, Scaled(left)).replicas == Max(most, a.replicas);
      ScaleOutcomeSafeIff(w, user, id, direction, count, Scaled(left));
    }
  }

  /** One that may raise leaves the row as it was, so it is safe exactly when that row already covers all it may start. */
  lemma RaisedScaleSafeIff(w: World, user: string, id: string, direction: Direction, count: nat)
    requires Safe(w, user) && Owns(w, user, id)
    ensures var a, c := w.agents[id], ContainersOf(w.live, id);
            ScaleCheck(w, user, id, direction, count) == Allowed ==>
              ((forall left: nat :: left <= c.count + Growth(direction, count) ==>
                  Safe(ScaleStep(w, user, id, direction, count, ScaleRaised(left)).0, user))
               <==>
               && c.count + Growth(direction, count) <= a.replicas && ShapeFits(a, c)
               && (direction == Down ==> Fits(w.agents - {id}, user, a.replicas, a.cpu, a.memoryMb, LimitsOf(w, user))))
  {
    if ScaleCheck(w, user, id, direction, count) == Allowed {
      RaisedAdmittedScaleSafeIff(w, user, id, direction, count);
    }
  }

  lemma RaisedAdmittedScaleSafeIff(w: World, user: string, id: string, direction: Direction, count: nat)
    requires Safe(w, user) && Owns(w, user, id) && ScaleCheck(w, user, id, direction, count) == Allowed
    ensures var a, c := w.agents[id], ContainersOf(w.live, id);
            (forall left: nat :: left <= c.count + Growth(direction, count) ==>
               Safe(ScaleStep(w, user, id, direction, count, ScaleRaised(left)).0, user))
            <==>
            && c.count + Growth(direction, count) <= a.replicas && ShapeFits(a, c)
            && (direction == Down ==> Fits(w.agents - {id}, user, a.replicas, a.cpu, a.memoryMb, LimitsOf(w, user)))
  {
    var a, most := w.agents[id], LiveOf(w.live, id) + Growth(direction, count);
    if direction == Up {
      AdmittedFits(w.users, w.agents, user, Some(id), a.replicas + count, a.cpu, a.memoryMb);
      FitsLess(w.agents - {id}, user, a.(replicas := a.replicas + count), a.replicas, LimitsOf(w, user));
    }
    ScaleOutcomeSafeIff(w, user, id, direction, count, ScaleRaised(most));
    forall left: nat | left <= most && Safe(ScaleStep(w, user, id, direction, count, ScaleRaised(most)).0, user)
      ensures Safe(ScaleStep(w, user, id, direction, count, ScaleRaised(left)).0, user)
    {
      ScaleOutcomeSafeIff(w, user, id, direction, count, ScaleRaised(left));
    }
  }

  /**
    A redeploy with only a build path is refused after its row is written.  On an active agent it is safe exactly
    when it asks for at least the replicas, the vCPU and the memory that are already running.
   */
  lemma RefusedRedeploySafeIff(w: World, user: string, id: string, config: DeployConfig, outcome: DeployOutcome)
    requires Safe(w, user) && Owns(w, user, id) && Active(w.agents[id].status) && ValidConfig(config)
    ensures var c := ContainersOf(w.live, id);
            DeployStep(w, user, id, Some(config), outcome).1 == BuildNotSupported ==>
              (Safe(DeployStep(w, user, id, Some(config), outcome).0, user) <==>
               c.count <= config.replicas && c.cpu <= config.cpu && c.memoryMb <= config.memoryMb)
  {
    var a := Reconfigured(w.agents[id], Some(config));
    if DeployStep(w, user, id, Some(config), outcome).1 == BuildNotSupported {
      AdmittedFits(w.users, w.agents, user, Some(id), a.replicas, a.cpu, a.memoryMb);
      RewriteSafeIff(w, user, id, a, w.live);
    }
  }

  /** The world after an admitted create that deploys in full. */
  lemma CreateDeploys(w: World, user: string, id: string, c: DeployConfig)
    requires id !in w.agents && !NeedsBuild(NewAgent(user, Some(c)))
    requires CheckCreate(w.users, w.agents, user) == Allowed
    requires CheckResources(w.users, w.agents, user, None, c.replicas, c.cpu, c.memoryMb) == Allowed
    ensures var a := NewAgent(user, Some(c));
            Next(w, Create(user, id, Some(c), Deployed(c.replicas))) ==
            w.(agents := w.agents[id := a.(status := Running)], live := w.live[id := Started(a, c.replicas)])
  {
    var a := NewAgent(user, Some(c));
    AddedRowCheck(w.users, w.agents, user, id, a);
  }

  /** Quotas look at rows only: an admitted create keeps what really runs within the plan exactly when it fits that. */
  lemma CreateRunsIff(w: World, user: string, id: string, c: DeployConfig)
    requires id !in w.agents && !NeedsBuild(NewAgent(user, Some(c))) && user in w.users
    requires CheckCreate(w.users, w.agents, user) == Allowed
    requires CheckResources(w.users, w.agents, user, None, c.replicas, c.cpu, c.memoryMb) == Allowed
    ensures var after := Next(w, Create(user, id, Some(c), Deployed(c.replicas)));
            RunsWithin(after, user, LimitsOf(w, user)) <==>
            RunsFit(w, user, c.replicas, c.cpu, c.memoryMb, LimitsOf(w, user))
  {
    CreateDeploys(w, user, id, c);
    AddedRunsIff(w, user, id, NewAgent(user, Some(c)).(status := Running));
  }

  lemma AddedRunsIff(w: World, user: string, id: string, a: Agent)
    requires id !in w.agents && Holds(a, user) && user in w.users
    ensures RunsWithin(w.(agents := w.agents[id := a], live := w.live[id := Started(a, a.replicas)]), user, LimitsOf(w, user)) <==>
            RunsFit(w, user, a.replicas, a.cpu, a.memoryMb, LimitsOf(w, user))
  {
    var live := w.live[id := Started(a, a.replicas)];
    SumUpdate(w.agents, LiveWeight(live, user), id, a);
    SumUpdate(w.agents, LiveVcpuWeight(live, user), id, a);
    SumUpdate(w.agents, LiveMemoryWeight(live, user), id, a);
    assert forall k :: k in w.agents ==> ContainersOf(live, k) == ContainersOf(w.live, k);
    SameSum(w.agents, LiveWeight(live, user), LiveWeight(w.live, user));
    SameSum(w.agents, LiveVcpuWeight(live, user), LiveVcpuWeight(w.live, user));
    SameSum(w.agents, LiveMemoryWeight(live, user), LiveMemoryWeight(w.live, user));
  }

  lemma SameSum(m: Agents, f: (string, Agent) -> real, g: (string, Agent) -> real)
    requires forall k :: k in m ==> f(k, m[k]) == g(k, m[k])
    ensures Sum(m, f) == Sum(m, g)
  {
    SumMonotone(m, f, m, g);
    SumMonotone(m, g, m, f);
  }
}
