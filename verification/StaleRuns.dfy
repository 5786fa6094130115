/**
  What comes of a tick reading rows that requests have changed since it loaded them (scheduler.py, db.py): a run that
  takes an account two replicas past its plan for one auto-scaling agent, and one in which a visit brings a failed
  agent back.
 */
module StaleRuns {
  import opened Basics
  import opened Sums
  import opened Quota
  import opened Fleet
  import opened PlanSafety
  import opened Scheduler
  import opened Measures
  import opened FleetRuns
  import opened RunBounds

  function Row(status: Status, replicas: nat, autoScale: bool): Agent {
    Agent("u", status, replicas, 0.1, 128, Some("img"), None, autoScale)
  }

  function Runs(n: nat): Containers {
    Containers(n, 0.1, 128)
  }

  /** An account "u" with two agents. */
  function Pair(plan: string, a: Agent, m: nat, b: Agent, n: nat): World {
    World(map["u" := User(plan, false)], map["a" := a, "b" := b], map["a" := Runs(m), "b" := Runs(n)])
  }

  lemma PairSum(a: Agent, b: Agent, f: (string, Agent) -> real)
    ensures Sum(map["a" := a, "b" := b], f) == f("a", a) + f("b", b)
  {
    SumUpdate(map["a" := a], f, "b", b);
    assert map["a" := a]["b" := b] == map["a" := a, "b" := b];
    OneSum("a", a, f);
  }

  lemma OneSum(id: string, a: Agent, f: (string, Agent) -> real)
    ensures Sum(map[id := a], f) == f(id, a)
  {
    SumUpdate(map[], f, id, a);
    assert map[][id := a] == map[id := a];
  }

  lemma PairLoad(plan: string, a: Agent, m: nat, b: Agent, n: nat)
    requires Holds(a, "u") && Holds(b, "u")
    ensures Load(Pair(plan, a, m, b, n), "u", ByCount) == (m + n) as real
  {
    var w := Pair(plan, a, m, b, n);
    PairSum(a, b, RunWeight(w.live, "u", ByCount));
    assert ContainersOf(w.live, "a") == Runs(m) && ContainersOf(w.live, "b") == Runs(n);
    TimesOne(m);
    TimesOne(n);
  }

  lemma PairSeen(plan: string, a: Agent, m: nat, b: Agent, n: nat, left: nat)
    ensures Seen(Pair(plan, a, m, b, n), "a", left) == Pair(plan, a, left, b, n)
    ensures Seen(Pair(plan, a, m, b, n), "b", left) == Pair(plan, a, m, b, left)
  {
    var live := map["a" := Runs(m), "b" := Runs(n)];
    assert Recount(live, "a", left) == map["a" := Runs(left), "b" := Runs(n)];
    assert Recount(live, "b", left) == map["a" := Runs(m), "b" := Runs(left)];
  }

  /** A shape is admitted beside one other row if the replicas are. */
  lemma BesideOne(agents: Agents, id: string, other: string, b: Agent, replicas: nat)
    requires agents - {id} == map[other := b] && b.cpu == 0.1 && b.memoryMb == 128 && b.replicas + replicas <= 20
    ensures CheckResources(map["u" := User("pro", false)], agents, "u", Some(id), replicas, 0.1, 128) == Allowed
  {
    OneSum(other, b, ReplicaWeight("u"));
    OneSum(other, b, VcpuWeight("u"));
    OneSum(other, b, MemoryWeight("u"));
    TimesIsProduct(b.replicas, 0.1);
    TimesIsProduct(b.replicas, 128.0);
    TimesIsProduct(replicas, 0.1);
    TimesIsProduct(replicas, 128.0);
    RoomIsAdmitted(map["u" := User("pro", false)], agents, "u", Some(id), replicas, 0.1, 128);
  }

  const Scaler := Row(Running, 1, true)
  const Plain := Row(Running, 1, false)
  const Synced := Row(Running, 2, true)
  const Scaling := Observation(2, Report(true, 0), 3)

  lemma PairScalers(a: Agent, m: nat, b: Agent, n: nat)
    requires !b.autoScale
    ensures Scalers(Pair("pro", a, m, b, n), "u", {"a"}, 1)
  {
    Subset(Slackers(Pair("pro", a, m, b, n).agents, "u", {"a"}), {"a"});
  }

  lemma ScaleIsAllowed(count: nat)
    requires count <= 18
    ensures ScaleCheck(Pair("pro", Scaler, 2, Plain, 1), "u", "b", Up, count) == Allowed
  {
    var agents := Pair("pro", Scaler, 2, Plain, 1).agents;
    assert agents - {"b"} == map["a" := Scaler];
    BesideOne(agents, "b", "a", Scaler, 1 + count);
  }

  lemma ScaleSteps(count: nat)
    requires count <= 18
    ensures Next(Pair("pro", Scaler, 2, Plain, 1), Scale("u", "b", Up, count, Scaled(1 + count))) ==
            Pair("pro", Scaler, 2, Row(Running, 1 + count, false), 1 + count)
  {
    var w, b := Pair("pro", Scaler, 2, Plain, 1), Row(Running, 1 + count, false);
    ScaleIsAllowed(count);
    assert w.agents["b" := b] == map["a" := Scaler, "b" := b];
    PairSeen("pro", Scaler, 2, Plain, 1, 1 + count);
  }

  /** A scale up of the second agent by all the room its row and the first leave, while a tick is under way. */
  lemma ScaleDuringTick(tick: Option<Session>, count: nat)
    requires count <= 18
    ensures var st := State(Pair("pro", Scaler, 2, Plain, 1), tick);
            var e := Request(Scale("u", "b", Up, count, Scaled(1 + count)));
            && Allows(st, e, "u")
            && EventStep(st, e) == State(Pair("pro", Scaler, 2, Row(Running, 1 + count, false), 1 + count), tick)
  {
    ScaleSteps(count);
  }

  /** The visit's sync writes the first agent's count only. */
  lemma StaleSynced(rows: Agents, b: Agent, n: nat)
    requires rows == map["a" := Scaler, "b" := Plain]
    ensures StaleSync(Pair("pro", Scaler, 2, b, n), rows, "a", Scaling) ==
            StaleVisited(Pair("pro", Synced, 2, b, n), map["a" := Synced, "b" := Plain], false)
  {
    var w := Pair("pro", Scaler, 2, b, n);
    assert Flush(Scaler, Scaler, SyncedRow(Scaler, Scaling)) == Synced;
    assert w.agents["a" := Synced] == map["a" := Synced, "b" := b];
    assert rows["a" := Synced] == map["a" := Synced, "b" := Plain];
    PairSeen("pro", Scaler, 2, b, n, 2);
  }

  /** The headroom test goes by the count of the second agent that the tick had loaded. */
  lemma StaleHeadroom(b: Agent, n: nat)
    requires b == Plain.(replicas := n)
    ensures SessionHeadroom(Pair("pro", Synced, 2, b, n), map["a" := Synced, "b" := Plain], "a") == Allowed
  {
    var view := View(map["a" := Synced, "b" := b], map["a" := Synced, "b" := Plain]);
    assert view["b"] == Plain;
    assert view - {"a"} == map["b" := Plain];
    BesideOne(view, "a", "b", Plain, Synced.replicas + 1);
  }

  lemma VisitScales(w: World, session: Session, id: string, o: Observation, synced: World, rows: Agents)
    requires id in session.rows && o.health.Report? && id in rows && WantsScaling(rows[id])
    requires StaleSync(w, session.rows, id, o) == StaleVisited(synced, rows, false)
    requires SessionHeadroom(synced, rows, id) == Allowed
    ensures EventStep(State(w, Some(session)), Visit(id, o)).world == Seen(synced, id, o.autoScaled)
  {
  }

  lemma StaleScaling(session: Session, b: Agent, n: nat)
    requires session.rows == map["a" := Scaler, "b" := Plain] && "a" in session.todo && b == Plain.(replicas := n)
    ensures var st := State(Pair("pro", Scaler, 2, b, n), Some(session));
            Allows(st, Visit("a", Scaling), "u") && EventStep(st, Visit("a", Scaling)).world == Pair("pro", Synced, 3, b, n)
  {
    var w := Pair("pro", Synced, 2, b, n);
    StaleSynced(session.rows, b, n);
    StaleHeadroom(b, n);
    VisitScales(Pair("pro", Scaler, 2, b, n), session, "a", Scaling, w, map["a" := Synced, "b" := Plain]);
    PairSeen("pro", Synced, 2, b, n, 3);
  }

  lemma PairSteady()
    ensures Steady(Pair("pro", Scaler, 2, Plain, 1), "u", {"a"})
  {
    var w := Pair("pro", Scaler, 2, Plain, 1);
    assert ContainersOf(w.live, "a") == Runs(2) && ContainersOf(w.live, "b") == Runs(1);
  }

  /**
    The second replica is needed: with one auto-scaling agent, a request during a tick takes an account to its plan
    and two.
   */
  lemma StaleBoundIsMet() returns (w: World, events: seq<Event>)
    ensures Steady(w, "u", {"a"}) && AllowsAll(State(w, None), events, "u", {"a"}, 1, false)
    ensures Load(w, "u", ByCount) <= Limit(LimitsOf(w, "u"), ByCount)
    ensures var after := AfterEvents(State(w, None), events).world;
            after.users == w.users && Load(after, "u", ByCount) == Limit(LimitsOf(w, "u"), ByCount) + 2.0
  {
    var s, e := Scale("u", "b", Up, 18, Scaled(19)), Visit("a", Scaling);
    w := Pair("pro", Scaler, 2, Plain, 1);
    events := [BeginTick, Request(s), e];
    var session := Session(map["a" := Scaler, "b" := Plain], {"a", "b"});
    assert Loaded(w.agents) == session.rows && session.rows.Keys == session.todo;
    var b := Row(Running, 19, false);
    var st1, st2 := State(w, Some(session)), State(Pair("pro", Scaler, 2, b, 19), Some(session));
    PairSteady();
    ScaleDuringTick(Some(session), 18);
    StaleScaling(session, b, 19);
    PairScalers(Scaler, 2, Plain, 1);
    PairScalers(Scaler, 2, b, 19);
    PairScalers(Synced, 3, b, 19);
    PairLoad("pro", Scaler, 2, Plain, 1);
    PairLoad("pro", Synced, 3, b, 19);
    var st3 := EventStep(st2, e);
    ThreeEvents(State(w, None), BeginTick, st1, Request(s), st2, e, st3, "u", {"a"}, 1);
  }

  lemma FirstEvent(
      st: State, e: Event, next: State, rest: seq<Event>, last: State, user: string, scalers: set<string>, k: nat)
    requires Allows(st, e, user) && EventStep(st, e) == next && Scalers(st.world, user, scalers, k)
    requires AllowsAll(next, rest, user, scalers, k, false) && AfterEvents(next, rest) == last
    ensures AllowsAll(st, [e] + rest, user, scalers, k, false) && AfterEvents(st, [e] + rest) == last
  {
    assert ([e] + rest)[1..] == rest;
  }

  lemma ThreeEvents(st: State, a: Event, st1: State, b: Event, st2: State, c: Event, st3: State,
                    user: string, scalers: set<string>, k: nat)
    requires Allows(st, a, user) && EventStep(st, a) == st1 && Allows(st1, b, user) && EventStep(st1, b) == st2
    requires Allows(st2, c, user) && EventStep(st2, c) == st3
    requires Scalers(st.world, user, scalers, k) && Scalers(st1.world, user, scalers, k)
    requires Scalers(st2.world, user, scalers, k) && Scalers(st3.world, user, scalers, k)
    ensures AllowsAll(st, [a, b, c], user, scalers, k, false) && AfterEvents(st, [a, b, c]) == st3
  {
    FirstEvent(st2, c, st3, [], st3, user, scalers, k);
    FirstEvent(st1, b, st2, [c], st3, user, scalers, k);
    FirstEvent(st, a, st1, [b, c], st3, user, scalers, k);
    assert [c] == [c] + [] && [b, c] == [b] + [c] && [a, b, c] == [a] + [b, c];
  }

  lemma FourEvents(st: State, a: Event, st1: State, b: Event, st2: State, c: Event, st3: State, d: Event, st4: State,
                   user: string, scalers: set<string>, k: nat)
    requires Allows(st, a, user) && EventStep(st, a) == st1 && Allows(st1, b, user) && EventStep(st1, b) == st2
    requires Allows(st2, c, user) && EventStep(st2, c) == st3 && Allows(st3, d, user) && EventStep(st3, d) == st4
    requires Scalers(st.world, user, scalers, k) && Scalers(st1.world, user, scalers, k)
    requires Scalers(st2.world, user, scalers, k) && Scalers(st3.world, user, scalers, k)
    requires Scalers(st4.world, user, scalers, k)
    ensures AllowsAll(st, [a, b, c, d], user, scalers, k, false) && AfterEvents(st, [a, b, c, d]) == st4
  {
    ThreeEvents(st1, b, st2, c, st3, d, st4, user, scalers, k);
    FirstEvent(st, a, st1, [b, c, d], st4, user, scalers, k);
    assert [a, b, c, d] == [a] + [b, c, d];
  }

  // ---------- A row loaded while its agent was starting ----------

  /** A visit makes an inactive agent active again exactly when it was starting as the tick loaded it and looks well now. */
  lemma VisitRevivesIff(w: World, rows: Agents, id: string, o: Observation)
    requires id in rows && id in w.agents && Active(rows[id].status) && !Active(w.agents[id].status)
    ensures Active(StaleVisit(w, rows, id, o).world.agents[id].status) <==>
            && rows[id].status == Starting && o.health.Report? && o.live > 0
            && (o.health.healthy || o.health.consecutiveFailures < 3)
  {
  }

  /** An account with one agent of three replicas, which none of the requests below lets auto-scale. */
  function Lone(status: Status, n: nat): World {
    World(map["u" := User("free", false)], map["a" := Row(status, 3, false)], map["a" := Runs(n)])
  }

  lemma LoneSums(a: Agent)
    ensures Sum(map["a" := a], OwnWeight("u")) == OwnWeight("u")("a", a)
    ensures Sum(map["a" := a], ReplicaWeight("u")) == ReplicaWeight("u")("a", a)
    ensures Sum(map["a" := a], VcpuWeight("u")) == VcpuWeight("u")("a", a)
    ensures Sum(map["a" := a], MemoryWeight("u")) == MemoryWeight("u")("a", a)
  {
    OneSum("a", a, OwnWeight("u"));
    OneSum("a", a, ReplicaWeight("u"));
    OneSum("a", a, VcpuWeight("u"));
    OneSum("a", a, MemoryWeight("u"));
  }

  lemma ThreeFit()
    ensures Times(3, 0.1) == 0.3 && Times(3, 128.0) == 384.0
  {
    TimesIsProduct(3, 0.1);
    TimesIsProduct(3, 128.0);
  }

  lemma LoneIsSafe()
    ensures Safe(Lone(Starting, 0), "u")
  {
    LoneSums(Row(Starting, 3, false));
    ThreeFit();
    assert ContainersOf(Lone(Starting, 0).live, "a") == Runs(0);
  }

  const Fails := Deploy("u", "a", None, DeployRaised(Runs(3)))
  const Takes := Create("u", "b", Some(DeployConfig(3, 0.1, 128, Some("img"), None, false)), Deployed(3))
  const Revives := Visit("a", Observation(3, Report(true, 0), 3))

  /** A deploy that fails during a tick that loaded its row as starting. */
  lemma FailsDuringTick(tick: Option<Session>)
    ensures Allows(State(Lone(Starting, 0), tick), Request(Fails), "u")
    ensures Next(Lone(Starting, 0), Fails) == Lone(Failed, 3)
  {
    var w := Lone(Starting, 0);
    ThreeFit();
    assert w.agents - {"a"} == map[];
    RoomIsAdmitted(w.users, w.agents, "u", Some("a"), 3, 0.1, 128);
    assert w.agents["a" := Row(Failed, 3, false)] == Lone(Failed, 3).agents;
    assert w.live["a" := Runs(3)] == Lone(Failed, 3).live;
  }

  /** Another agent takes the room it left. */
  lemma RoomIsTaken(session: Session)
    requires "b" !in session.rows
    ensures Allows(State(Lone(Failed, 3), Some(session)), Request(Takes), "u")
    ensures Next(Lone(Failed, 3), Takes) == Pair("free", Row(Failed, 3, false), 3, Row(Running, 3, false), 3)
  {
    var w, a, b := Lone(Failed, 3), Row(Failed, 3, false), Row(Running, 3, false);
    LoneSums(a);
    ThreeFit();
    RoomIsAdmitted(w.users, w.agents, "u", None, 3, 0.1, 128);
    CreateDeploys(w, "u", "b", Takes.config.value);
    assert w.agents["b" := b] == map["a" := a, "b" := b];
    assert w.live["b" := Runs(3)] == map["a" := Runs(3), "b" := Runs(3)];
  }

  /** The visit writes running over failed, without a check. */
  lemma VisitRevives(session: Session)
    requires session.rows == map["a" := Row(Starting, 3, false)] && "a" in session.todo
    ensures var st := State(Pair("free", Row(Failed, 3, false), 3, Row(Running, 3, false), 3), Some(session));
            && Allows(st, Revives, "u")
            && EventStep(st, Revives).world == Pair("free", Row(Running, 3, false), 3, Row(Running, 3, false), 3)
  {
    var a, b := Row(Running, 3, false), Row(Running, 3, false);
    var w := Pair("free", Row(Failed, 3, false), 3, b, 3);
    assert w.agents["a" := a] == map["a" := a, "b" := b];
    PairSeen("free", Row(Failed, 3, false), 3, b, 3, 3);
  }

  lemma LoneScalers(status: Status, n: nat)
    ensures Scalers(Lone(status, n), "u", {}, 0)
  {
    assert Slackers(Lone(status, n).agents, "u", {}) == {};
  }

  lemma FreeScalers(a: Agent, m: nat, b: Agent, n: nat)
    requires !a.autoScale && !b.autoScale
    ensures Scalers(Pair("free", a, m, b, n), "u", {}, 0)
  {
    assert Slackers(Pair("free", a, m, b, n).agents, "u", {}) == {};
  }

  /**
    So no deploy may be under way when a tick loads its rows.  Here no agent auto-scales and the account starts safe,
    but twice its plan comes to run.
   */
  lemma StartingRowPassesPlan() returns (w: World, events: seq<Event>)
    ensures Safe(w, "u") && "a" in w.agents && w.agents["a"].status == Starting
    ensures AllowsAll(State(w, None), events, "u", {}, 0, false)
    ensures Load(AfterEvents(State(w, None), events).world, "u", ByCount) == 2.0 * Limit(LimitsOf(w, "u"), ByCount)
  {
    w := Lone(Starting, 0);
    events := [BeginTick, Request(Fails), Request(Takes), Revives];
    var session := Session(w.agents, {"a"});
    assert Loaded(w.agents) == session.rows && session.rows.Keys == session.todo;
    var a, b := Row(Failed, 3, false), Row(Running, 3, false);
    var st1, st2 := State(w, Some(session)), State(Lone(Failed, 3), Some(session));
    var st3 := State(Pair("free", a, 3, b, 3), Some(session));
    var st4 := EventStep(st3, Revives);
    LoneIsSafe();
    FailsDuringTick(Some(session));
    RoomIsTaken(session);
    VisitRevives(session);
    LoneScalers(Starting, 0);
    LoneScalers(Failed, 3);
    FreeScalers(a, 3, b, 3);
    FreeScalers(b, 3, b, 3);
    FourEvents(State(w, None), BeginTick, st1, Request(Fails), st2, Request(Takes), st3, Revives, st4, "u", {}, 0);
    PairLoad("free", b, 3, b, 3);
  }
}
