/**
  Runs that take an account past its plan although every quota check passed (services/agent_service.py): one for
  each thing that careful requests avoid.  All start from a safe account on the free plan, and the container
  runtime keeps its contract throughout.
 */
module PlanOverruns {
  import opened Basics
  import opened Sums
  import opened Plans
  import opened Quota
  import opened Fleet
  import opened PlanSafety

  /** An account "u" on the free plan with one agent. */
  function Lone(a: Agent, c: Containers): World {
    World(map["u" := User("free", false)], map["a" := a], map["a" := c])
  }

  function Row(status: Status, replicas: nat, cpu: real, memoryMb: nat): Agent {
    Agent("u", status, replicas, cpu, memoryMb, Some("img"), None, false)
  }

  lemma LoneSum(a: Agent, f: (string, Agent) -> real)
    ensures Sum(map["a" := a], f) == f("a", a)
  {
    SumUpdate(map[], f, "a", a);
    assert map[]["a" := a] == map["a" := a];
  }

  lemma LoneRows(a: Agent)
    ensures Sum(map["a" := a], OwnWeight("u")) == OwnWeight("u")("a", a)
    ensures Sum(map["a" := a], ReplicaWeight("u")) == ReplicaWeight("u")("a", a)
    ensures Sum(map["a" := a], VcpuWeight("u")) == VcpuWeight("u")("a", a)
    ensures Sum(map["a" := a], MemoryWeight("u")) == MemoryWeight("u")("a", a)
  {
    LoneSum(a, OwnWeight("u"));
    LoneSum(a, ReplicaWeight("u"));
    LoneSum(a, VcpuWeight("u"));
    LoneSum(a, MemoryWeight("u"));
  }

  lemma LoneRuns(a: Agent, c: Containers)
    requires Holds(a, "u")
    ensures Sum(Lone(a, c).agents, LiveWeight(Lone(a, c).live, "u")) == c.count as real
    ensures Sum(Lone(a, c).agents, LiveMemoryWeight(Lone(a, c).live, "u")) == Times(c.count, c.memoryMb as real)
  {
    LoneSum(a, LiveWeight(Lone(a, c).live, "u"));
    LoneSum(a, LiveMemoryWeight(Lone(a, c).live, "u"));
  }

  lemma LoneIsSafe(a: Agent)
    requires a.user == "u" && a.replicas <= 3 && 0.0 <= a.cpu
    requires Times(a.replicas, a.cpu) <= 3.0 && Times(a.replicas, a.memoryMb as real) <= 1536.0
    ensures Safe(Lone(a, Started(a, a.replicas)), "u")
  {
    LoneRows(a);
  }

  /** With the only agent left out, a check is against the limits alone. */
  lemma LoneAdmits(a: Agent, runs: Containers, replicas: nat, cpu: real, memoryMb: nat)
    requires replicas <= 3 && cpu <= 1.0 && memoryMb <= 1024
    requires Times(replicas, cpu) <= 2.9 && Times(replicas, memoryMb as real) <= 1536.0
    ensures var w := Lone(a, runs);
            CheckResources(w.users, w.agents, "u", Some("a"), replicas, cpu, memoryMb) == Allowed
  {
    var w := Lone(a, runs);
    assert Excluding(w.agents, Some("a")) == map[];
    RoomIsAdmitted(w.users, w.agents, "u", Some("a"), replicas, cpu, memoryMb);
  }

  lemma LoneScales(a: Agent, runs: Containers, count: nat, outcome: ScaleOutcome)
    requires a.user == "u" && a.replicas + count <= 3 && a.cpu == 0.5 && a.memoryMb == 128
    ensures Next(Lone(a, runs), Scale("u", "a", Up, count, outcome)) ==
            Lone(ScaledRow(a, outcome), runs.(count := outcome.left))
  {
    var w, b := Lone(a, runs), ScaledRow(a, outcome);
    LoneTimes();
    LoneAdmits(a, runs, a.replicas + count, a.cpu, a.memoryMb);
    assert w.agents["a" := b] == map["a" := b];
    assert Recount(w.live, "a", outcome.left) == map["a" := runs.(count := outcome.left)];
  }

  lemma LoneIsRefused(a: Agent, runs: Containers, c: DeployConfig, outcome: DeployOutcome)
    requires a.user == "u" && c.image.None? && c.buildPath.Some? && c.replicas == 1 && c.cpu <= 1.0 && c.memoryMb <= 1024
    ensures DeployStep(Lone(a, runs), "u", "a", Some(c), outcome) == (Lone(ApplyConfig(a, c), runs), BuildNotSupported)
  {
    var w, b := Lone(a, runs), ApplyConfig(a, c);
    LoneAdmits(a, runs, 1, c.cpu, c.memoryMb);
    assert w.agents["a" := b] == map["a" := b];
  }

  function CreateB(c: DeployConfig): Step {
    Create("u", "b", Some(c), Deployed(c.replicas))
  }

  /** A row too small for its containers lets a second agent in beside them. */
  lemma SecondAgentOverruns(a: Agent, runs: Containers, c: DeployConfig)
    requires Holds(a, "u") && c.image.Some? && c.cpu <= 1.0 && c.memoryMb <= 1024 && a.replicas + c.replicas <= 3
    requires Times(a.replicas, a.cpu) + Times(c.replicas, c.cpu) <= 2.9
    requires Times(a.replicas, a.memoryMb as real) + Times(c.replicas, c.memoryMb as real) <= 1536.0
    requires || runs.count + c.replicas > 3
             || Times(runs.count, runs.memoryMb as real) + Times(c.replicas, c.memoryMb as real) > 1536.0
    ensures RuntimeContract(Lone(a, runs), CreateB(c))
    ensures !RunsWithin(Next(Lone(a, runs), CreateB(c)), "u", Free)
  {
    var w := Lone(a, runs);
    LoneRows(a);
    RoomIsAdmitted(w.users, w.agents, "u", None, c.replicas, c.cpu, c.memoryMb);
    LoneRuns(a, runs);
    CreateRunsIff(w, "u", "b", c);
  }

  /** What every run below shows: `bad` is the one step that is not careful, and `more` then passes the plan. */
  ghost predicate Overrun(w: World, bad: Step, more: Step) {
    && Safe(w, "u") && RuntimeContract(w, bad)
    && RuntimeContract(Next(w, bad), more) && Careful(Next(w, bad), more, "u")
    && !RunsWithin(Next(Next(w, bad), more), "u", Free)
  }

  /** A redeploy refused for want of an image describes 1024 MB as 128, and another 1024 MB are let in. */
  lemma SmallerRedeployPassesPlan() returns (w: World, c: DeployConfig, more: Step)
    ensures DeployStep(w, "u", "a", Some(c), Deployed(1)).1 == BuildNotSupported && LiveOf(w.live, "a") <= c.replicas
    ensures Overrun(w, Deploy("u", "a", Some(c), Deployed(1)), more)
  {
    var a, d := Row(Running, 1, 0.5, 1024), DeployConfig(1, 0.5, 1024, Some("img"), None, false);
    c := DeployConfig(1, 0.1, 128, None, Some("."), false);
    w, more := Lone(a, Started(a, 1)), CreateB(d);
    LoneIsSafe(a);
    LoneIsRefused(a, Started(a, 1), c, Deployed(1));
    SecondAgentOverruns(ApplyConfig(a, c), Started(a, 1), d);
  }

  /** So does one that describes three containers as one. */
  lemma FewerRedeployPassesPlan() returns (w: World, c: DeployConfig, more: Step)
    ensures DeployStep(w, "u", "a", Some(c), Deployed(1)).1 == BuildNotSupported
    ensures Overrun(w, Deploy("u", "a", Some(c), Deployed(1)), more)
  {
    var a, d := Row(Running, 3, 0.5, 128), DeployConfig(2, 0.5, 128, Some("img"), None, false);
    c := DeployConfig(1, 0.5, 128, None, Some("."), false);
    w, more := Lone(a, Started(a, 3)), CreateB(d);
    LoneTimes();
    LoneIsSafe(a);
    LoneIsRefused(a, Started(a, 3), c, Deployed(1));
    SecondAgentOverruns(ApplyConfig(a, c), Started(a, 3), d);
  }

  lemma LoneTimes()
    ensures Times(0, 0.5) == 0.0 && Times(1, 0.5) == 0.5 && Times(2, 0.5) == 1.0 && Times(3, 0.5) == 1.5
    ensures Times(0, 128.0) == 0.0 && Times(1, 128.0) == 128.0 && Times(2, 128.0) == 256.0 && Times(3, 128.0) == 384.0
  {
    TimesIsProduct(3, 0.5);
    TimesIsProduct(3, 128.0);
  }

  /** A scale up that raises after starting its containers leaves a row that says one where three run. */
  lemma RaisedScaleUpPassesPlan() returns (w: World, more: Step)
    ensures "a" in w.agents && Active(w.agents["a"].status)
    ensures Overrun(w, Scale("u", "a", Up, 2, ScaleRaised(3)), more)
  {
    var a, d := Row(Running, 1, 0.5, 128), DeployConfig(2, 0.5, 128, Some("img"), None, false);
    w, more := Lone(a, Started(a, 1)), CreateB(d);
    LoneTimes();
    LoneIsSafe(a);
    LoneScales(a, Started(a, 1), 2, ScaleRaised(3));
    SecondAgentOverruns(a.(status := Scaling), Started(a, 3), d);
  }

  /** A scale up that fails leaves three containers behind a row of one; the next one up by one is admitted, and four run. */
  lemma ScaleUpOfFailedAgentPassesPlan() returns (w: World)
    ensures var failed, bad := Scale("u", "a", Up, 2, ScalingFailed(3)), Scale("u", "a", Up, 1, Scaled(4));
            && Safe(w, "u") && RuntimeContract(w, failed) && Careful(w, failed, "u")
            && Safe(Next(w, failed), "u") && RuntimeContract(Next(w, failed), bad)
            && !RunsWithin(Next(Next(w, failed), bad), "u", Free)
  {
    var a := Row(Running, 1, 0.5, 128);
    w := Lone(a, Started(a, 1));
    LoneIsSafe(a);
    StepIsSafe(w, Scale("u", "a", Up, 2, ScalingFailed(3)), "u");
    LoneScales(a, Started(a, 1), 2, ScalingFailed(3));
    LoneScales(a.(status := Failed), Started(a, 3), 1, Scaled(4));
    LoneRuns(a.(replicas := 4), Started(a, 4));
  }

  /** A crashed agent holds nothing, so another is let in beside it; scaling the first down is not checked and brings it back. */
  lemma ScaleDownOfCrashedAgentPassesPlan() returns (w: World, more: Step)
    ensures var bad := Scale("u", "a", Down, 1, Scaled(2));
            && Safe(w, "u") && more.Create? && RuntimeContract(w, more) && Careful(w, more, "u")
            && RuntimeContract(Next(w, more), bad)
            && !RunsWithin(Next(Next(w, more), bad), "u", Free)
  {
    var a, d := Row(Crashed, 3, 0.5, 128), DeployConfig(3, 0.5, 128, Some("img"), None, false);
    w, more := Lone(a, Started(a, 3)), CreateB(d);
    LoneTimes();
    LoneIsSafe(a);
    LetInBesideCrashed(a, d);
    BackFromCrash(Next(w, more), a, NewAgent("u", Some(d)).(status := Running));
  }

  lemma LetInBesideCrashed(a: Agent, d: DeployConfig)
    requires a == Row(Crashed, 3, 0.5, 128) && d == DeployConfig(3, 0.5, 128, Some("img"), None, false)
    ensures var w, b := Lone(a, Started(a, 3)), NewAgent("u", Some(d));
            Next(w, CreateB(d)) == w.(agents := w.agents["b" := b.(status := Running)], live := w.live["b" := Started(b, 3)])
  {
    var w := Lone(a, Started(a, 3));
    LoneTimes();
    LoneRows(a);
    RoomIsAdmitted(w.users, w.agents, "u", None, 3, 0.5, 128);
    CreateDeploys(w, "u", "b", d);
  }

  lemma BackFromCrash(w: World, a: Agent, b: Agent)
    requires w.users == map["u" := User("free", false)] && a == Row(Crashed, 3, 0.5, 128) && Holds(b, "u")
    requires w.agents == map["a" := a, "b" := b] && LiveOf(w.live, "a") == 3 && LiveOf(w.live, "b") == 3
    ensures !RunsWithin(Next(w, Scale("u", "a", Down, 1, Scaled(2))), "u", Free)
  {
    var c, end := ScaledRow(a, Scaled(2)), Next(w, Scale("u", "a", Down, 1, Scaled(2)));
    assert end.agents == map["a" := c]["b" := b];
    assert LiveOf(end.live, "a") == 2 && LiveOf(end.live, "b") == 3;
    LoneSum(c, LiveWeight(end.live, "u"));
    SumUpdate(map["a" := c], LiveWeight(end.live, "u"), "b", b);
    assert Sum(end.agents, LiveWeight(end.live, "u")) == 5.0;
  }
}
