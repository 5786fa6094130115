/**
  How much an account can have running over any run of requests and ticks: by containers, vCPU and memory, no more
  than it had at the start, or than its plan and one replica for each auto-scaling agent when requests come between
  ticks, two when they come during them.
 */
module RunBounds {
  import opened Basics
  import opened Sums
  import opened Plans
  import opened Quota
  import opened Fleet
  import opened PlanSafety
  import opened Scheduler
  import opened Measures
  import opened FleetRuns

  /**
    What requests and ticks together keep of an account: its rows describe the containers of its active agents, but
    for one replica of an agent that auto-scales, and no request is half way through starting an agent.
   */
  ghost predicate Steady(w: World, user: string, scalers: set<string>) {
    && Limited(w, user) && Sane(w.agents)
    && (forall id :: Nonnegative(ContainersOf(w.live, id)))
    && (forall id :: id in w.agents && w.agents[id].user == user ==>
          w.agents[id].status != Starting && ShapeCapped(w.agents[id], LimitsOf(w, user)))
    && (forall id :: id in w.agents && Holds(w.agents[id], user) ==>
          Described(w.agents[id], ContainersOf(w.live, id), Slack(scalers, id)))
  }

  predicate NoMore(c: Containers, d: Containers) {
    c.count <= d.count && c.cpu <= d.cpu && c.memoryMb <= d.memoryMb
  }

  /** No active agent of the account runs more than before. */
  ghost predicate Shrinks(w: World, after: World, user: string) {
    forall id :: id in after.agents && Holds(after.agents[id], user) ==>
      && id in w.agents && Holds(w.agents[id], user)
      && NoMore(ContainersOf(after.live, id), ContainersOf(w.live, id))
  }

  /** By one measure, the account runs no more than its plan and `n` replicas. */
  ghost predicate Under(w: World, user: string, n: nat, m: Measure)
    requires Limited(w, user)
  {
    Load(w, user, m) <= Limit(LimitsOf(w, user), m) + Times(n, Cap(LimitsOf(w, user), m))
  }

  /** And by every measure. */
  ghost predicate UpTo(w: World, user: string, n: nat)
    requires Limited(w, user)
  {
    forall m :: Under(w, user, n, m)
  }

  lemma ShrinksLoad(w: World, after: World, user: string, scalers: set<string>, m: Measure)
    requires Steady(w, user, scalers) && Shrinks(w, after, user)
    requires forall id :: Nonnegative(ContainersOf(after.live, id))
    ensures Load(after, user, m) <= Load(w, user, m)
  {
    var f, g := RunWeight(after.live, user, m), RunWeight(w.live, user, m);
    forall id | id in after.agents ensures f(id, after.agents[id]) <= if id in w.agents then g(id, w.agents[id]) else 0.0 {
      OneShrinks(w, after, user, id, m);
    }
    forall id | id in w.agents ensures 0.0 <= g(id, w.agents[id]) {
      WeightNotNegative(ContainersOf(w.live, id), m);
    }
    SumDominated(after.agents, f, w.agents, g);
  }

  lemma WeightNotNegative(c: Containers, m: Measure)
    requires Nonnegative(c)
    ensures 0.0 <= Weight(c, m)
  {
    var x := Per(m, c.cpu, c.memoryMb);
    TimesMonotone(0, c.count, x, x);
  }

  lemma OneShrinks(w: World, after: World, user: string, id: string, m: Measure)
    requires Shrinks(w, after, user) && id in after.agents
    requires forall j :: Nonnegative(ContainersOf(w.live, j)) && Nonnegative(ContainersOf(after.live, j))
    ensures RunWeight(after.live, user, m)(id, after.agents[id]) <=
            if id in w.agents then RunWeight(w.live, user, m)(id, w.agents[id]) else 0.0
  {
    var c, d := ContainersOf(after.live, id), ContainersOf(w.live, id);
    if Holds(after.agents[id], user) {
      PerMonotone(m, c.cpu, c.memoryMb, d.cpu, d.memoryMb);
      TimesMonotone(c.count, d.count, Per(m, c.cpu, c.memoryMb), Per(m, d.cpu, d.memoryMb));
    } else if id in w.agents {
      WeightNotNegative(d, m);
    }
  }

  // ---------- Beside one agent ----------

  /** Some description of the rows: the stored ones, or those a session sees. */
  ghost predicate Describes(view: Agents, w: World, user: string, scalers: set<string>) {
    && view.Keys == w.agents.Keys && Sane(view)
    && (forall id :: id in view ==> view[id].user == w.agents[id].user && view[id].status == w.agents[id].status)
    && (forall id :: id in view && Holds(view[id], user) ==> Described(view[id], ContainersOf(w.live, id), Slack(scalers, id)))
  }

  function BothWeight(user: string, scalers: set<string>, x: real, m: Measure): (string, Agent) -> real {
    (id: string, a: Agent) => RowWeight(user, m)(id, a) + SlackWeight(user, scalers, x)(id, a)
  }

  lemma OneDescribed(view: Agents, w: World, user: string, scalers: set<string>, id: string, m: Measure)
    requires Steady(w, user, scalers) && Describes(view, w, user, scalers) && id in view
    ensures RunWeight(w.live, user, m)(id, w.agents[id]) <=
            BothWeight(user, scalers, Cap(LimitsOf(w, user), m), m)(id, view[id])
  {
    var x, a := Cap(LimitsOf(w, user), m), view[id];
    var row, slack := RowWeight(user, m), SlackWeight(user, scalers, x);
    assert Times(0, x) == 0.0 && Times(1, x) == x;
    assert BothWeight(user, scalers, x, m)(id, a) == row(id, a) + slack(id, a);
    if Holds(a, user) {
      assert row(id, a) == Weight(Started(a, a.replicas), m) && slack(id, a) == Times(Slack(scalers, id), x);
      DescribedWeight(view[id], ContainersOf(w.live, id), Slack(scalers, id), w.agents[id], LimitsOf(w, user), m);
    }
  }

  /** The other agents run no more than they are described as, and a cap for each that may lag. */
  lemma OthersRun(view: Agents, w: World, user: string, scalers: set<string>, id: string, m: Measure)
    requires Steady(w, user, scalers) && Describes(view, w, user, scalers)
    ensures Sum(w.agents - {id}, RunWeight(w.live, user, m)) <=
            Sum(view - {id}, RowWeight(user, m))
            + Times(|Slackers(w.agents - {id}, user, scalers)|, Cap(LimitsOf(w, user), m))
  {
    var others, seen, x := w.agents - {id}, view - {id}, Cap(LimitsOf(w, user), m);
    forall j | j in others ensures RunWeight(w.live, user, m)(j, others[j]) <= BothWeight(user, scalers, x, m)(j, seen[j]) {
      OneDescribed(view, w, user, scalers, j, m);
    }
    SumMonotone(others, RunWeight(w.live, user, m), seen, BothWeight(user, scalers, x, m));
    SumSplit(seen, RowWeight(user, m), SlackWeight(user, scalers, x), BothWeight(user, scalers, x, m));
    SlackSum(seen, user, scalers, x);
    assert Slackers(seen, user, scalers) == Slackers(others, user, scalers);
  }

  ghost predicate OnlyAt(live: Live, old_: Live, id: string) {
    forall j :: j != id ==> ContainersOf(live, j) == ContainersOf(old_, j)
  }

  /** What runs after one row and its containers are rewritten. */
  lemma RewriteLoad(w: World, user: string, id: string, a: Agent, live: Live, m: Measure)
    requires OnlyAt(live, w.live, id)
    ensures Load(w.(agents := w.agents[id := a], live := live), user, m) ==
            Sum(w.agents - {id}, RunWeight(w.live, user, m)) + RunWeight(live, user, m)(id, a)
  {
    SumUpdate(w.agents, RunWeight(live, user, m), id, a);
    SameSum(w.agents - {id}, RunWeight(live, user, m), RunWeight(w.live, user, m));
  }

  /** If `room` replicas fit beside a description of the others, one more for each slacker is all that can run. */
  lemma RoomRuns(view: Agents, w: World, user: string, scalers: set<string>, id: string, a: Agent, live: Live,
                 room: Agent, m: Measure)
    requires Steady(w, user, scalers) && Describes(view, w, user, scalers) && OnlyAt(live, w.live, id)
    requires Fits(view - {id}, user, room.replicas, room.cpu, room.memoryMb, LimitsOf(w, user)) && room.cpu >= 0.0
    requires Holds(a, user) && ShapeCapped(a, LimitsOf(w, user)) && ShapeFits(a, ContainersOf(live, id))
    requires Described(room, ContainersOf(live, id), Slack(scalers, id))
    ensures var after := w.(agents := w.agents[id := a], live := live);
            Load(after, user, m) <= Limit(LimitsOf(w, user), m)
                                       + Times(|Slackers(after.agents, user, scalers)|, Cap(LimitsOf(w, user), m))
  {
    var c, limits := ContainersOf(live, id), LimitsOf(w, user);
    RewriteLoad(w, user, id, a, live, m);
    OthersRun(view, w, user, scalers, id, m);
    FitsMeasure(view - {id}, user, room.replicas, room.cpu, room.memoryMb, limits, m);
    DescribedWeight(room, c, Slack(scalers, id), a, limits, m);
    OneSlacker(w.agents[id := a], user, scalers, id);
    assert w.agents[id := a] - {id} == w.agents - {id};
    TimesAdd(|Slackers(w.agents - {id}, user, scalers)|, Slack(scalers, id), Cap(limits, m));
  }

  // ---------- Requests ----------

  /** What a step does to an account: nothing of it runs more, or all of it fits. */
  ghost predicate Effect(w: World, after: World, user: string, scalers: set<string>) {
    && after.users == w.users && Steady(after, user, scalers)
    && (Shrinks(w, after, user) || UpTo(after, user, |Slackers(after.agents, user, scalers)|))
  }

  /** Every step that rewrites a row goes through here; `room` replicas of its shape fit, or its containers are no more. */
  lemma RewriteEffect(w: World, user: string, scalers: set<string>, id: string, a: Agent, live: Live, room: nat)
    requires Steady(w, user, scalers) && OnlyAt(live, w.live, id) && a.cpu >= 0.0 && Nonnegative(ContainersOf(live, id))
    requires a.user == user ==> a.status != Starting && ShapeCapped(a, LimitsOf(w, user))
    requires Holds(a, user) ==>
               && Described(a, ContainersOf(live, id), Slack(scalers, id))
               && (|| (id in w.agents && Holds(w.agents[id], user) && NoMore(ContainersOf(live, id), ContainersOf(w.live, id)))
                   || (&& Fits(w.agents - {id}, user, room, a.cpu, a.memoryMb, LimitsOf(w, user))
                       && LiveOf(live, id) <= room + Slack(scalers, id)))
    ensures Effect(w, w.(agents := w.agents[id := a], live := live), user, scalers)
  {
    var after := w.(agents := w.agents[id := a], live := live);
    RewriteSteady(w, user, scalers, id, a, live);
    if Holds(a, user) && !Shrinks(w, after, user) {
      forall m ensures Under(after, user, |Slackers(after.agents, user, scalers)|, m) {
        RoomRuns(w.agents, w, user, scalers, id, a, live, a.(replicas := room), m);
      }
    }
  }

  lemma RewriteSteady(w: World, user: string, scalers: set<string>, id: string, a: Agent, live: Live)
    requires Steady(w, user, scalers) && OnlyAt(live, w.live, id) && a.cpu >= 0.0 && Nonnegative(ContainersOf(live, id))
    requires a.user == user ==> a.status != Starting && ShapeCapped(a, LimitsOf(w, user))
    requires Holds(a, user) ==> Described(a, ContainersOf(live, id), Slack(scalers, id))
    ensures Steady(w.(agents := w.agents[id := a], live := live), user, scalers)
  {
    var after := w.(agents := w.agents[id := a], live := live);
    forall j ensures Nonnegative(ContainersOf(live, j)) {
      assert j != id ==> ContainersOf(live, j) == ContainersOf(w.live, j);
    }
  }

  lemma AdmittedCapped(users: map<string, User>, agents: Agents, user: string, id: Option<string>,
                       replicas: nat, cpu: real, memoryMb: nat)
    requires user in users && !users[user].admin
    requires CheckResources(users, agents, user, id, replicas, cpu, memoryMb) == Allowed
    ensures cpu <= LimitsFor(users[user].plan).maxReplicaCpu && memoryMb <= LimitsFor(users[user].plan).maxReplicaMemoryMb
  {
  }

  lemma DeployEffect(w: World, s: Step, user: string, scalers: set<string>)
    requires s.Deploy? && Steady(w, user, scalers) && RuntimeContract(w, s) && Careful(w, s, user)
    requires s.deployOutcome.DeployRaised? ==> Nonnegative(s.deployOutcome.left)
    ensures Effect(w, Next(w, s), user, scalers)
  {
    if Owns(w, s.user, s.id) {
      var a := Reconfigured(w.agents[s.id], s.config);
      if CheckResources(w.users, w.agents, s.user, Some(s.id), a.replicas, a.cpu, a.memoryMb) == Allowed {
        if s.user == user {
          AdmittedFits(w.users, w.agents, user, Some(s.id), a.replicas, a.cpu, a.memoryMb);
          AdmittedCapped(w.users, w.agents, user, Some(s.id), a.replicas, a.cpu, a.memoryMb);
        }
        if NeedsBuild(a) {
          RewriteEffect(w, user, scalers, s.id, a, w.live, 0);
        } else if s.deployOutcome.DeployRaised? {
          RewriteEffect(w, user, scalers, s.id, a.(status := Failed), w.live[s.id := s.deployOutcome.left], 0);
        } else {
          var n := s.deployOutcome.containers;
          RewriteEffect(w, user, scalers, s.id, a.(status := Running, replicas := n), w.live[s.id := Started(a, n)], a.replicas);
        }
      }
    }
  }

  lemma CreateEffect(w: World, s: Step, user: string, scalers: set<string>)
    requires s.Create? && Steady(w, user, scalers) && RuntimeContract(w, s) && Careful(w, s, user)
    requires s.deployOutcome.DeployRaised? ==> Nonnegative(s.deployOutcome.left)
    ensures Effect(w, Next(w, s), user, scalers)
  {
    var a := NewAgent(s.user, s.config);
    if CheckCreate(w.users, w.agents, s.user) == Allowed
       && (s.config.Some? ==> CheckResources(w.users, w.agents, s.user, None, a.replicas, a.cpu, a.memoryMb) == Allowed) {
      var inserted := w.(agents := w.agents[s.id := a], live := w.live[s.id := Started(a, 0)]);
      InsertEffect(w, s, user, scalers, a);
      if s.config.Some? {
        DeployEffect(inserted, Deploy(s.user, s.id, None, s.deployOutcome), user, scalers);
      }
    }
  }

  lemma InsertEffect(w: World, s: Step, user: string, scalers: set<string>, a: Agent)
    requires s.Create? && Steady(w, user, scalers) && Careful(w, s, user) && a == NewAgent(s.user, s.config)
    requires s.config.Some? ==> CheckResources(w.users, w.agents, s.user, None, a.replicas, a.cpu, a.memoryMb) == Allowed
    ensures var inserted := w.(agents := w.agents[s.id := a], live := w.live[s.id := Started(a, 0)]);
            Effect(w, inserted, user, scalers) && Shrinks(w, inserted, user)
  {
    if s.user == user && s.config.Some? {
      AdmittedCapped(w.users, w.agents, user, None, a.replicas, a.cpu, a.memoryMb);
    }
    RewriteEffect(w, user, scalers, s.id, a, w.live[s.id := Started(a, 0)], 0);
  }

  /** A scaling of an active agent that may leave more than it had fits, but for the agent's slack. */
  lemma ScalingRoom(w: World, s: Step, user: string, scalers: set<string>) returns (room: nat)
    requires s.Scale? && Steady(w, user, scalers) && RuntimeContract(w, s) && Careful(w, s, user)
    requires s.user == user && Owns(w, user, s.id) && ScaleCheck(w, user, s.id, s.direction, s.count) == Allowed
    ensures var a, c := w.agents[s.id], ContainersOf(w.live, s.id);
            || (Active(a.status) && s.scaleOutcome.left <= c.count)
            || (&& Fits(w.agents - {s.id}, user, room, a.cpu, a.memoryMb, LimitsOf(w, user))
                && s.scaleOutcome.left <= room + Slack(scalers, s.id))
  {
    var a := w.agents[s.id];
    room := 0;
    if !Active(a.status) {
      room := Max(LiveOf(w.live, s.id) + Growth(s.direction, s.count), a.replicas);
      assert Scalable(w, user, s.id, Growth(s.direction, s.count));
    } else if s.direction == Up {
      room := a.replicas + s.count;
      assert Described(a, ContainersOf(w.live, s.id), Slack(scalers, s.id));
      AdmittedFits(w.users, w.agents, user, Some(s.id), room, a.cpu, a.memoryMb);
    }
  }

  lemma ScaleEffect(w: World, s: Step, user: string, scalers: set<string>)
    requires s.Scale? && Steady(w, user, scalers) && RuntimeContract(w, s) && Careful(w, s, user)
    ensures Effect(w, Next(w, s), user, scalers)
  {
    if Owns(w, s.user, s.id) && ScaleCheck(w, s.user, s.id, s.direction, s.count) == Allowed {
      var room := 0;
      if s.user == user {
        room := ScalingRoom(w, s, user, scalers);
      }
      RewriteEffect(w, user, scalers, s.id, ScaledRow(w.agents[s.id], s.scaleOutcome),
                    Recount(w.live, s.id, s.scaleOutcome.left), room);
    }
  }

  /** Fewer containers of one agent. */
  lemma LossEffect(w: World, user: string, scalers: set<string>, id: string, left: nat)
    requires Steady(w, user, scalers) && left <= LiveOf(w.live, id)
    ensures Effect(w, Seen(w, id, left), user, scalers) && Shrinks(w, Seen(w, id, left), user)
  {
    var after := Seen(w, id, left);
    forall j ensures Nonnegative(ContainersOf(after.live, j)) && NoMore(ContainersOf(after.live, j), ContainersOf(w.live, j)) {
      assert Nonnegative(ContainersOf(w.live, j));
    }
  }

  lemma DeleteEffect(w: World, s: Step, user: string, scalers: set<string>)
    requires s.Delete? && Steady(w, user, scalers) && RuntimeContract(w, s)
    ensures Effect(w, Next(w, s), user, scalers)
  {
    if Owns(w, s.user, s.id) {
      if s.removeOutcome.RemoveRaised? {
        LossEffect(w, user, scalers, s.id, s.removeOutcome.left);
      } else {
        var after := Next(w, s);
        forall j ensures Nonnegative(ContainersOf(after.live, j)) {
          assert Nonnegative(ContainersOf(w.live, j));
        }
      }
    }
  }

  /** Every careful request of the account, and any of others. */
  lemma RequestEffect(st: State, s: Step, user: string, scalers: set<string>)
    requires Steady(st.world, user, scalers) && Allows(st, Request(s), user)
    ensures Effect(st.world, Next(st.world, s), user, scalers)
  {
    if s.Create? {
      CreateEffect(st.world, s, user, scalers);
    } else if s.Deploy? {
      DeployEffect(st.world, s, user, scalers);
    } else if s.Scale? {
      ScaleEffect(st.world, s, user, scalers);
    } else {
      DeleteEffect(st.world, s, user, scalers);
    }
  }

  // ---------- A tick under way ----------

  /** The account's agents among `scalers` that a tick has loaded. */
  ghost function Own(rows: Agents, user: string, scalers: set<string>): set<string> {
    set id | id in rows && id in scalers && rows[id].user == user
  }

  ghost function Visits(session: Session, user: string, scalers: set<string>): set<string> {
    Own(session.rows, user, scalers) - session.todo
  }

  /** The row still counts what it counted when it was loaded, or else all the containers there are. */
  ghost predicate Current(w: World, rows: Agents, id: string, user: string)
    requires id in rows
  {
    id in w.agents && Holds(w.agents[id], user) ==>
      w.agents[id].replicas == rows[id].replicas || LiveOf(w.live, id) <= w.agents[id].replicas
  }

  ghost predicate RowInStep(w: World, session: Session, id: string, user: string, scalers: set<string>)
    requires id in session.rows
  {
    var a := session.rows[id];
    && a.cpu >= 0.0
    && (id in w.agents ==> w.agents[id].user == a.user)
    && (a.user == user ==> a.status != Starting && (a.autoScale ==> id in scalers))
    && (id in session.todo ==> Active(a.status) && Current(w, session.rows, id, user))
  }

  ghost predicate InStep(w: World, session: Session, user: string, scalers: set<string>, k: nat) {
    && (forall id :: id in session.rows ==> RowInStep(w, session, id, user, scalers))
    && |Own(session.rows, user, scalers)| <= k
  }

  ghost predicate SessionDescribes(w: World, rows: Agents, user: string, scalers: set<string>) {
    Describes(View(w.agents, rows), w, user, scalers)
  }

  lemma Subset(a: set<string>, b: set<string>)
    requires a <= b
    ensures |a| <= |b|
  {
    assert b == a + (b - a);
  }

  lemma BeginInStep(w: World, user: string, scalers: set<string>, k: nat)
    requires Steady(w, user, scalers) && Scalers(w, user, scalers, k)
    ensures var session := Session(Loaded(w.agents), Loaded(w.agents).Keys);
            InStep(w, session, user, scalers, k) && SessionDescribes(w, session.rows, user, scalers)
  {
    Subset(Own(Loaded(w.agents), user, scalers), Slackers(w.agents, user, scalers));
    assert View(w.agents, Loaded(w.agents)) == w.agents;
  }

  // ---------- A visit ----------

  /** A sync from a session leaves the account's row counting all the containers found. */
  lemma SyncTracks(w: World, session: Session, id: string, o: Observation, user: string, scalers: set<string>, k: nat)
    requires Steady(w, user, scalers) && InStep(w, session, user, scalers, k) && id in session.rows && id in session.todo
    requires o.health.Report? && o.live <= LiveOf(w.live, id)
    ensures var v := StaleSync(w, session.rows, id, o);
            && (id in w.agents && Holds(v.world.agents[id], user) ==>
                  Holds(w.agents[id], user) && o.live <= v.world.agents[id].replicas)
            && (id in w.agents && w.agents[id].user == user ==> v.world.agents[id].status != Starting)
  {
    assert RowInStep(w, session, id, user, scalers);
  }

  lemma SyncEffect(w: World, session: Session, id: string, o: Observation, user: string, scalers: set<string>, k: nat)
    requires Steady(w, user, scalers) && InStep(w, session, user, scalers, k) && id in session.rows && id in session.todo
    requires o.health.Report? && o.live <= LiveOf(w.live, id)
    ensures var after := StaleSync(w, session.rows, id, o).world;
            Steady(after, user, scalers) && after.users == w.users && Shrinks(w, after, user)
  {
    LossEffect(w, user, scalers, id, o.live);
    SyncTracks(w, session, id, o, user, scalers, k);
    if id in w.agents {
      var v := StaleSync(w, session.rows, id, o);
      RewriteSteady(w, user, scalers, id, v.world.agents[id], v.world.live);
    }
  }

  /** One more container of an agent that may lag by one. */
  lemma GrowSteady(w: World, id: string, n: nat, user: string, scalers: set<string>)
    requires Steady(w, user, scalers)
    requires id in w.agents && Holds(w.agents[id], user) ==> n <= w.agents[id].replicas + Slack(scalers, id)
    ensures Steady(Seen(w, id, n), user, scalers)
  {
    var after := Seen(w, id, n);
    forall j ensures Nonnegative(ContainersOf(after.live, j)) {
      assert Nonnegative(ContainersOf(w.live, j));
    }
    forall j | j in w.agents && Holds(w.agents[j], user)
      ensures Described(w.agents[j], ContainersOf(after.live, j), Slack(scalers, j))
    {
      assert Described(w.agents[j], ContainersOf(w.live, j), Slack(scalers, j));
    }
  }

  /** It adds at most what a replica may come to. */
  lemma GrowLoad(w: World, id: string, n: nat, user: string, scalers: set<string>, m: Measure)
    requires Steady(w, user, scalers) && n <= LiveOf(w.live, id) + 1
    ensures Load(Seen(w, id, n), user, m) <= Load(w, user, m) + Cap(LimitsOf(w, user), m)
  {
    var live, c := Recount(w.live, id, n), ContainersOf(w.live, id);
    var f, g := RunWeight(w.live, user, m), RunWeight(live, user, m);
    if id in w.agents {
      SumRemove(w.agents, f, id);
      SumRemove(w.agents, g, id);
      SameSum(w.agents - {id}, f, g);
      if Holds(w.agents[id], user) {
        GrowWeight(w.agents[id], c, n, LimitsOf(w, user), m);
      }
    } else {
      SameSum(w.agents, f, g);
    }
  }

  lemma GrowWeight(a: Agent, c: Containers, n: nat, limits: PlanLimits, m: Measure)
    requires Nonnegative(c) && ShapeFits(a, c) && ShapeCapped(a, limits) && n <= c.count + 1
    ensures Weight(c.(count := n), m) <= Weight(c, m) + Cap(limits, m)
  {
    var x := Per(m, c.cpu, c.memoryMb);
    TimesMonotone(n, c.count + 1, x, x);
    PerMonotone(m, c.cpu, c.memoryMb, limits.maxReplicaCpu, limits.maxReplicaMemoryMb);
  }

  lemma CapNotNegative(limits: PlanLimits, m: Measure)
    requires limits == Free || limits == Pro
    ensures Cap(limits, m) >= 0.0
  {
  }

  lemma SyncedElsewhere(w: World, rows: Agents, id: string, o: Observation, j: string)
    requires id in rows && o.health.Report? && j in w.agents && j != id
    ensures var v := StaleSync(w, rows, id, o);
            && j in v.world.agents && View(v.world.agents, v.rows)[j] == View(w.agents, rows)[j]
            && ContainersOf(v.world.live, j) == ContainersOf(w.live, j)
  {
  }

  lemma SyncedHere(w: World, session: Session, id: string, o: Observation, user: string, scalers: set<string>, k: nat)
    requires Steady(w, user, scalers) && InStep(w, session, user, scalers, k) && id in session.rows && id in session.todo
    requires o.health.Report? && o.live <= LiveOf(w.live, id) && SessionDescribes(w, session.rows, user, scalers)
    requires id in w.agents
    ensures var v := StaleSync(w, session.rows, id, o);
            var after := View(v.world.agents, v.rows);
            && after[id].cpu >= 0.0
            && (Holds(after[id], user) ==> Described(after[id], ContainersOf(v.world.live, id), Slack(scalers, id)))
  {
    var before := View(w.agents, session.rows);
    SyncTracks(w, session, id, o, user, scalers, k);
    assert RowInStep(w, session, id, user, scalers);
    assert id in before && before[id].cpu >= 0.0;
    assert Holds(before[id], user) ==> Described(before[id], ContainersOf(w.live, id), Slack(scalers, id));
  }

  lemma SyncDescribes(w: World, session: Session, id: string, o: Observation, user: string, scalers: set<string>, k: nat)
    requires Steady(w, user, scalers) && InStep(w, session, user, scalers, k) && id in session.rows && id in session.todo
    requires o.health.Report? && o.live <= LiveOf(w.live, id) && SessionDescribes(w, session.rows, user, scalers)
    ensures var v := StaleSync(w, session.rows, id, o); SessionDescribes(v.world, v.rows, user, scalers)
  {
    var v := StaleSync(w, session.rows, id, o);
    var before, after := View(w.agents, session.rows), View(v.world.agents, v.rows);
    forall j | j in after
      ensures after[j].cpu >= 0.0
      ensures Holds(after[j], user) ==> Described(after[j], ContainersOf(v.world.live, j), Slack(scalers, j))
    {
      if j == id {
        SyncedHere(w, session, id, o, user, scalers, k);
      } else {
        SyncedElsewhere(w, session.rows, id, o, j);
        assert before[j].cpu >= 0.0;
      }
    }
  }

  lemma GrowDescribes(w: World, rows: Agents, id: string, n: nat, user: string, scalers: set<string>)
    requires SessionDescribes(w, rows, user, scalers) && id in rows
    requires id in w.agents && Holds(w.agents[id], user) ==> n <= rows[id].replicas + Slack(scalers, id)
    ensures SessionDescribes(Seen(w, id, n), rows, user, scalers)
  {
    var view := View(w.agents, rows);
    forall j | j in view && Holds(view[j], user)
      ensures Described(view[j], ContainersOf(Recount(w.live, id, n), j), Slack(scalers, j))
    {
      assert Described(view[j], ContainersOf(w.live, j), Slack(scalers, j));
    }
  }

  /** A headroom test leaves room for the row it reads with one replica more. */
  lemma AdmittedRoom(w: World, rows: Agents, id: string, n: nat, user: string, scalers: set<string>)
    requires Steady(w, user, scalers) && SessionDescribes(w, rows, user, scalers)
    requires id in rows && rows[id].user == user && rows[id].cpu >= 0.0 && n <= rows[id].replicas + 1
    requires id in w.agents && Holds(w.agents[id], user) && SessionHeadroom(w, rows, id) == Allowed
    ensures var room, c := rows[id].(replicas := rows[id].replicas + 1), ContainersOf(Recount(w.live, id, n), id);
            && Fits(View(w.agents, rows) - {id}, user, room.replicas, room.cpu, room.memoryMb, LimitsOf(w, user))
            && Described(room, c, Slack(scalers, id)) && ShapeFits(w.agents[id], c)
  {
    var view, a := View(w.agents, rows), rows[id];
    AdmittedFits(w.users, view, user, Some(id), a.replicas + 1, a.cpu, a.memoryMb);
    assert Described(view[id], ContainersOf(w.live, id), Slack(scalers, id));
    assert Described(w.agents[id], ContainersOf(w.live, id), Slack(scalers, id));
  }

  /** A scaling that passes a headroom test whose rows describe what runs keeps to the plan and one for each slacker. */
  lemma AdmittedGrowth(w: World, rows: Agents, id: string, n: nat, user: string, scalers: set<string>)
    requires Steady(w, user, scalers) && SessionDescribes(w, rows, user, scalers)
    requires id in rows && rows[id].user == user && rows[id].cpu >= 0.0 && n <= rows[id].replicas + 1
    requires id in w.agents && Holds(w.agents[id], user) && SessionHeadroom(w, rows, id) == Allowed
    ensures UpTo(Seen(w, id, n), user, |Slackers(w.agents, user, scalers)|)
  {
    var room := rows[id].(replicas := rows[id].replicas + 1);
    AdmittedRoom(w, rows, id, n, user, scalers);
    assert w.agents[id := w.agents[id]] == w.agents;
    forall m ensures Under(Seen(w, id, n), user, |Slackers(w.agents, user, scalers)|, m) {
      RoomRuns(View(w.agents, rows), w, user, scalers, id, w.agents[id], Recount(w.live, id, n), room, m);
    }
  }
}
