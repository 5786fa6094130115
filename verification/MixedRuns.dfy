/**
  The bounds over whole runs (scheduler.py, services/agent_service.py): what every event keeps of an account, with a
  tick under way or without.
 */
module MixedRuns {
  import opened Basics
  import opened Sums
  import opened Quota
  import opened Fleet
  import opened PlanSafety
  import opened Scheduler
  import opened Measures
  import opened Requests
  import opened FleetRuns
  import opened RunBounds

  /** How many replicas past the plan: one for each auto-scaling agent, or two if requests can come during a tick. */
  function Excess(k: nat, apart: bool): nat {
    if apart then k else 2 * k
  }

  /** The account runs no more than at the start, or than its plan and `n` replicas. */
  ghost predicate Bounded(start: World, w: World, user: string, n: nat)
    requires Limited(w, user)
  {
    forall m :: Load(w, user, m) <= Load(start, user, m) || Under(w, user, n, m)
  }

  /** What runs is within reach of the plan: a replica for each scaler, and one for each that was visited. */
  ghost predicate Near(w: World, session: Session, user: string, scalers: set<string>, k: nat)
    requires Limited(w, user)
  {
    UpTo(w, user, k + |Visits(session, user, scalers)|)
  }

  /** Either the session's rows describe what runs, or what runs is within reach of the plan. */
  ghost predicate TickBounded(w: World, session: Session, user: string, scalers: set<string>, k: nat, apart: bool)
    requires Limited(w, user)
  {
    || SessionDescribes(w, session.rows, user, scalers)
    || (!apart && Near(w, session, user, scalers, k))
  }

  ghost predicate Invariant(start: World, st: State, user: string, scalers: set<string>, k: nat, apart: bool) {
    && st.world.users == start.users && Steady(st.world, user, scalers)
    && Bounded(start, st.world, user, Excess(k, apart))
    && (st.tick.Some? ==>
          && InStep(st.world, st.tick.value, user, scalers, k)
          && TickBounded(st.world, st.tick.value, user, scalers, k, apart))
  }

  lemma DescribedTick(w: World, session: Session, user: string, scalers: set<string>, k: nat, apart: bool)
    requires Limited(w, user) && SessionDescribes(w, session.rows, user, scalers)
    ensures TickBounded(w, session, user, scalers, k, apart)
  {
  }

  lemma NearTick(w: World, session: Session, user: string, scalers: set<string>, k: nat, apart: bool, n: nat)
    requires Limited(w, user) && !apart && UpTo(w, user, n) && n <= k + |Visits(session, user, scalers)|
    ensures TickBounded(w, session, user, scalers, k, apart)
  {
    UpToMore(w, user, n, k + |Visits(session, user, scalers)|);
  }

  lemma UpToMore(w: World, user: string, n: nat, more: nat)
    requires Limited(w, user) && UpTo(w, user, n) && n <= more
    ensures UpTo(w, user, more)
  {
    forall m ensures Under(w, user, more, m) {
      assert Under(w, user, n, m);
      CapNotNegative(LimitsOf(w, user), m);
      TimesMonotone(n, more, Cap(LimitsOf(w, user), m), Cap(LimitsOf(w, user), m));
    }
  }

  lemma UpToBounds(start: World, w: World, user: string, n: nat, more: nat)
    requires Limited(w, user) && UpTo(w, user, n) && n <= more
    ensures Bounded(start, w, user, more)
  {
    UpToMore(w, user, n, more);
  }

  lemma ShrinksBounds(start: World, w: World, after: World, user: string, scalers: set<string>, n: nat)
    requires Steady(w, user, scalers) && Steady(after, user, scalers) && after.users == w.users && Shrinks(w, after, user)
    requires Bounded(start, w, user, n)
    ensures Bounded(start, after, user, n)
  {
    forall m ensures Load(after, user, m) <= Load(start, user, m) || Under(after, user, n, m) {
      ShrinksLoad(w, after, user, scalers, m);
      assert Load(w, user, m) <= Load(start, user, m) || Under(w, user, n, m);
    }
  }

  lemma ShrinksUpTo(w: World, after: World, user: string, scalers: set<string>, n: nat)
    requires Steady(w, user, scalers) && Steady(after, user, scalers) && after.users == w.users && Shrinks(w, after, user)
    requires UpTo(w, user, n)
    ensures UpTo(after, user, n)
  {
    forall m ensures Under(after, user, n, m) {
      assert Under(w, user, n, m);
      ShrinksLoad(w, after, user, scalers, m);
    }
  }

  /** With nothing running more, rows that described what runs still do. */
  lemma ShrinksDescribes(w: World, after: World, rows: Agents, user: string, scalers: set<string>)
    requires SessionDescribes(w, rows, user, scalers) && Steady(after, user, scalers) && Shrinks(w, after, user)
    requires forall id :: id in rows ==> rows[id].cpu >= 0.0
    ensures SessionDescribes(after, rows, user, scalers)
  {
    var before, view := View(w.agents, rows), View(after.agents, rows);
    forall id | id in view && Holds(view[id], user)
      ensures Described(view[id], ContainersOf(after.live, id), Slack(scalers, id))
    {
      assert Holds(after.agents[id], user);
      if id in rows {
        assert id in before && Holds(before[id], user);
        assert Described(before[id], ContainersOf(w.live, id), Slack(scalers, id));
      }
    }
  }

  // ---------- Requests during a tick ----------

  /** A request touches one agent. */
  lemma RequestTouches(w: World, s: Step)
    ensures OnlyTouches(w, Next(w, s), s.id)
  {
    match s
    case Create(_, _, _, _) => CreateTouches(w, s);
    case Deploy(user, id, config, outcome) => DeployAnswers(w, user, id, config, outcome);
    case Scale(user, id, direction, count, outcome) => ScaleAnswers(w, user, id, direction, count, outcome);
    case Delete(user, id, outcome) => DeleteAnswers(w, user, id, outcome);
    case Sync(_, _) =>
    case LoseContainers(_, _) =>
  }

  lemma CreateTouches(w: World, s: Step)
    requires s.Create?
    ensures OnlyTouches(w, Next(w, s), s.id)
  {
  }

  /** The agent it touches keeps its owner and its count, or its row then counts all its containers. */
  ghost predicate Recounts(w: World, after: World, id: string, user: string) {
    && (id in w.agents && id in after.agents ==> after.agents[id].user == w.agents[id].user)
    && (id in w.agents && id in after.agents && Holds(after.agents[id], user) ==>
          || (&& Holds(w.agents[id], user) && after.agents[id].replicas == w.agents[id].replicas
              && LiveOf(after.live, id) <= LiveOf(w.live, id))
          || LiveOf(after.live, id) <= after.agents[id].replicas)
  }

  lemma DeployRecounts(w: World, s: Step, user: string)
    requires s.Deploy? && Careful(w, s, user)
    ensures Recounts(w, Next(w, s), s.id, user)
  {
  }

  lemma ScaleRecounts(w: World, s: Step, user: string)
    requires s.Scale? && Limited(w, user) && Careful(w, s, user)
    ensures Recounts(w, Next(w, s), s.id, user)
  {
  }

  lemma RequestRecounts(st: State, s: Step, user: string)
    requires Limited(st.world, user) && Allows(st, Request(s), user)
    ensures Recounts(st.world, Next(st.world, s), s.id, user)
  {
    if s.Deploy? {
      DeployRecounts(st.world, s, user);
    } else if s.Scale? {
      ScaleRecounts(st.world, s, user);
    }
  }

  lemma TouchedInStep(w: World, after: World, session: Session, touched: string, id: string, user: string, scalers: set<string>)
    requires id in session.rows && RowInStep(w, session, id, user, scalers)
    requires id != touched ==> SameAgent(w, after, id)
    requires id == touched ==> Recounts(w, after, id, user) && (id in after.agents ==> id in w.agents)
    ensures RowInStep(after, session, id, user, scalers)
  {
  }

  lemma RequestInStep(st: State, s: Step, user: string, scalers: set<string>, k: nat)
    requires st.tick.Some? && Steady(st.world, user, scalers) && Allows(st, Request(s), user)
    requires InStep(st.world, st.tick.value, user, scalers, k)
    ensures InStep(Next(st.world, s), st.tick.value, user, scalers, k)
  {
    var w, after, session := st.world, Next(st.world, s), st.tick.value;
    RequestTouches(w, s);
    RequestRecounts(st, s, user);
    RequestCreates(w, s);
    forall id | id in session.rows ensures RowInStep(after, session, id, user, scalers) {
      TouchedInStep(w, after, session, s.id, id, user, scalers);
    }
  }

  /** Only a create adds a row. */
  lemma RequestCreates(w: World, s: Step)
    ensures s.id in Next(w, s).agents && s.id !in w.agents ==> s.Create?
  {
  }

  lemma LossInStep(w: World, session: Session, id: string, left: nat, user: string, scalers: set<string>, k: nat)
    requires InStep(w, session, user, scalers, k) && left <= LiveOf(w.live, id)
    ensures InStep(Seen(w, id, left), session, user, scalers, k)
  {
    forall j | j in session.rows ensures RowInStep(Seen(w, id, left), session, j, user, scalers) {
      assert RowInStep(w, session, j, user, scalers);
    }
  }

  lemma RowsNotNegative(w: World, session: Session, user: string, scalers: set<string>, k: nat)
    requires InStep(w, session, user, scalers, k)
    ensures forall id :: id in session.rows ==> session.rows[id].cpu >= 0.0
  {
    forall id | id in session.rows ensures session.rows[id].cpu >= 0.0 {
      assert RowInStep(w, session, id, user, scalers);
    }
  }

  lemma ShrinksInTick(w: World, after: World, session: Session, user: string, scalers: set<string>, k: nat, apart: bool)
    requires Steady(w, user, scalers) && Steady(after, user, scalers) && after.users == w.users && Shrinks(w, after, user)
    requires InStep(w, session, user, scalers, k) && TickBounded(w, session, user, scalers, k, apart)
    ensures TickBounded(after, session, user, scalers, k, apart)
  {
    if !apart && Near(w, session, user, scalers, k) {
      ShrinksUpTo(w, after, user, scalers, k + |Visits(session, user, scalers)|);
      NearTick(after, session, user, scalers, k, apart, k + |Visits(session, user, scalers)|);
    } else {
      RowsNotNegative(w, session, user, scalers, k);
      ShrinksDescribes(w, after, session.rows, user, scalers);
      DescribedTick(after, session, user, scalers, k, apart);
    }
  }

  /** A step that shrinks what runs, or brings it within the plan, during a tick. */
  lemma EffectInTick(w: World, after: World, session: Session, user: string, scalers: set<string>, k: nat, apart: bool)
    requires Steady(w, user, scalers) && Effect(w, after, user, scalers) && InStep(w, session, user, scalers, k)
    requires |Slackers(after.agents, user, scalers)| <= k && (Shrinks(w, after, user) || !apart)
    requires TickBounded(w, session, user, scalers, k, apart)
    ensures TickBounded(after, session, user, scalers, k, apart)
  {
    if Shrinks(w, after, user) {
      ShrinksInTick(w, after, session, user, scalers, k, apart);
    } else {
      NearTick(after, session, user, scalers, k, apart, |Slackers(after.agents, user, scalers)|);
    }
  }

  lemma EffectBounds(start: World, w: World, after: World, user: string, scalers: set<string>, k: nat, apart: bool)
    requires Steady(w, user, scalers) && Effect(w, after, user, scalers) && Bounded(start, w, user, Excess(k, apart))
    requires |Slackers(after.agents, user, scalers)| <= k
    ensures Bounded(start, after, user, Excess(k, apart))
  {
    if Shrinks(w, after, user) {
      ShrinksBounds(start, w, after, user, scalers, Excess(k, apart));
    } else {
      UpToBounds(start, after, user, |Slackers(after.agents, user, scalers)|, Excess(k, apart));
    }
  }

  lemma RequestKeeps(start: World, st: State, s: Step, user: string, scalers: set<string>, k: nat, apart: bool)
    requires Invariant(start, st, user, scalers, k, apart) && Allows(st, Request(s), user) && (apart ==> st.tick.None?)
    requires Scalers(Next(st.world, s), user, scalers, k)
    ensures Invariant(start, EventStep(st, Request(s)), user, scalers, k, apart)
  {
    RequestEffect(st, s, user, scalers);
    EffectBounds(start, st.world, Next(st.world, s), user, scalers, k, apart);
    if st.tick.Some? {
      RequestInStep(st, s, user, scalers, k);
      EffectInTick(st.world, Next(st.world, s), st.tick.value, user, scalers, k, apart);
    }
  }

  lemma LossKeeps(start: World, st: State, id: string, left: nat, user: string, scalers: set<string>, k: nat, apart: bool)
    requires Invariant(start, st, user, scalers, k, apart) && left <= LiveOf(st.world.live, id)
    requires Scalers(Seen(st.world, id, left), user, scalers, k)
    ensures Invariant(start, EventStep(st, Lose(id, left)), user, scalers, k, apart)
  {
    LossEffect(st.world, user, scalers, id, left);
    EffectBounds(start, st.world, Seen(st.world, id, left), user, scalers, k, apart);
    if st.tick.Some? {
      LossInStep(st.world, st.tick.value, id, left, user, scalers, k);
      EffectInTick(st.world, Seen(st.world, id, left), st.tick.value, user, scalers, k, apart);
    }
  }

  // ---------- Visits ----------

  /** After a visit the session follows with one agent fewer to go. */
  lemma VisitInStep(w: World, session: Session, id: string, o: Observation, user: string, scalers: set<string>, k: nat)
    requires Steady(w, user, scalers) && InStep(w, session, user, scalers, k) && id in session.rows && id in session.todo
    requires o.live <= LiveOf(w.live, id)
    ensures var v := StaleVisit(w, session.rows, id, o);
            !v.aborted ==> InStep(v.world, Session(v.rows, session.todo - {id}), user, scalers, k)
  {
    var v := StaleVisit(w, session.rows, id, o);
    var next := Session(v.rows, session.todo - {id});
    if !v.aborted {
      SameOwn(session, v.rows, user, scalers);
      forall j | j in v.rows ensures RowInStep(v.world, next, j, user, scalers) {
        assert RowInStep(w, session, j, user, scalers);
        RowStaysInStep(w, session, id, o, j, user, scalers);
      }
    }
  }

  /** A visit that scales, taken apart. */
  ghost predicate Scales(w: World, rows: Agents, id: string, o: Observation)
    requires id in rows
  {
    && o.health.Report? && !StaleSync(w, rows, id, o).aborted
    && WantsScaling(StaleSync(w, rows, id, o).rows[id])
    && SessionHeadroom(StaleSync(w, rows, id, o).world, StaleSync(w, rows, id, o).rows, id) == Allowed
  }

  lemma VisitSplits(w: World, rows: Agents, id: string, o: Observation)
    requires id in rows
    ensures var v := StaleVisit(w, rows, id, o);
            && (o.health.CheckRaised? ==> v == StaleVisited(w, rows, false))
            && (o.health.Report? ==>
                  var sync := StaleSync(w, rows, id, o);
                  && v.rows == sync.rows
                  && v.world == if Scales(w, rows, id, o) then Seen(sync.world, id, o.autoScaled) else sync.world)
  {
  }

  /** A row stays in step if it is not the one visited and nothing touches it, or if it is and keeps its owner. */
  lemma RowStays(w: World, session: Session, id: string, j: string, after: World, rows: Agents, user: string, scalers: set<string>)
    requires j in session.rows && RowInStep(w, session, j, user, scalers) && j in rows
    requires j in after.agents ==> j in w.agents && after.agents[j].user == w.agents[j].user
    requires j != id ==>
               && rows[j] == session.rows[j] && LiveOf(after.live, j) == LiveOf(w.live, j)
               && (j in after.agents ==> after.agents[j] == w.agents[j])
    requires var a, b := session.rows[j], rows[j];
             b.user == a.user && b.cpu == a.cpu && b.autoScale == a.autoScale && (b.status == Starting ==> a.status == Starting)
    ensures RowInStep(after, Session(rows, session.todo - {id}), j, user, scalers)
  {
  }

  lemma RowStaysInStep(w: World, session: Session, id: string, o: Observation, j: string, user: string, scalers: set<string>)
    requires id in session.rows && id in session.todo && j in session.rows && RowInStep(w, session, j, user, scalers)
    ensures var v := StaleVisit(w, session.rows, id, o);
            RowInStep(v.world, Session(v.rows, session.todo - {id}), j, user, scalers)
  {
    var v := StaleVisit(w, session.rows, id, o);
    VisitSplits(w, session.rows, id, o);
    RowStays(w, session, id, j, v.world, v.rows, user, scalers);
  }

  /** What a scaling visit does to the synced world. */
  lemma ScalingSteady(w: World, session: Session, id: string, o: Observation, user: string, scalers: set<string>, k: nat)
    requires Steady(w, user, scalers) && InStep(w, session, user, scalers, k) && id in session.rows && id in session.todo
    requires o.live <= LiveOf(w.live, id) && o.autoScaled <= o.live + 1 && Scales(w, session.rows, id, o)
    ensures var sync := StaleSync(w, session.rows, id, o);
            Steady(sync.world, user, scalers) && Steady(Seen(sync.world, id, o.autoScaled), user, scalers)
  {
    var sync := StaleSync(w, session.rows, id, o);
    SyncEffect(w, session, id, o, user, scalers, k);
    SyncTracks(w, session, id, o, user, scalers, k);
    assert RowInStep(w, session, id, user, scalers);
    GrowSteady(sync.world, id, o.autoScaled, user, scalers);
  }

  /** A scaling visit from rows that describe what runs. */
  lemma DescribedScaling(w: World, session: Session, id: string, o: Observation, user: string, scalers: set<string>, k: nat)
    requires Steady(w, user, scalers) && InStep(w, session, user, scalers, k) && id in session.rows && id in session.todo
    requires o.live <= LiveOf(w.live, id) && o.autoScaled <= o.live + 1 && Scales(w, session.rows, id, o)
    requires SessionDescribes(w, session.rows, user, scalers)
    ensures var sync := StaleSync(w, session.rows, id, o); var after := Seen(sync.world, id, o.autoScaled);
            && SessionDescribes(after, sync.rows, user, scalers) && Steady(after, user, scalers)
            && (Shrinks(w, after, user) || UpTo(after, user, |Slackers(after.agents, user, scalers)|))
  {
    var sync := StaleSync(w, session.rows, id, o);
    var after := Seen(sync.world, id, o.autoScaled);
    SyncEffect(w, session, id, o, user, scalers, k);
    SyncDescribes(w, session, id, o, user, scalers, k);
    ScalingSteady(w, session, id, o, user, scalers, k);
    assert RowInStep(w, session, id, user, scalers);
    GrowDescribes(sync.world, sync.rows, id, o.autoScaled, user, scalers);
    if id in sync.world.agents && Holds(sync.world.agents[id], user) {
      AdmittedGrowth(sync.world, sync.rows, id, o.autoScaled, user, scalers);
    } else {
      ElsewhereShrinks(w, sync.world, id, o.autoScaled, user);
    }
  }

  /** Containers of an agent that is not the account's, or not active, do not count. */
  lemma ElsewhereShrinks(w: World, mid: World, id: string, n: nat, user: string)
    requires Shrinks(w, mid, user) && (id in mid.agents ==> !Holds(mid.agents[id], user))
    ensures Shrinks(w, Seen(mid, id, n), user)
  {
  }

  lemma ShrinkThenGrow(w: World, mid: World, id: string, left: nat, user: string, scalers: set<string>, n: nat, more: nat)
    requires Steady(w, user, scalers) && Steady(mid, user, scalers) && mid.users == w.users && Shrinks(w, mid, user)
    requires Steady(Seen(mid, id, left), user, scalers) && left <= LiveOf(mid.live, id) + 1
    requires UpTo(w, user, n) && n <= more && (id in mid.agents && Holds(mid.agents[id], user) ==> n < more)
    ensures UpTo(Seen(mid, id, left), user, more)
  {
    ShrinksUpTo(w, mid, user, scalers, n);
    GrowsByVisit(mid, id, left, user, scalers, n, more);
  }

  /** A scaling visit of one of the account's active agents is one more visited of its scalers, of which there are `k`. */
  lemma VisitCounts(w: World, session: Session, id: string, o: Observation, user: string, scalers: set<string>, k: nat)
    requires InStep(w, session, user, scalers, k) && id in session.rows && id in session.todo && Scales(w, session.rows, id, o)
    ensures var sync := StaleSync(w, session.rows, id, o);
            var before, after := |Visits(session, user, scalers)|, |Visits(Session(sync.rows, session.todo - {id}), user, scalers)|;
            before <= after <= k && (id in sync.world.agents && Holds(sync.world.agents[id], user) ==> before < after)
  {
    var sync := StaleSync(w, session.rows, id, o);
    assert RowInStep(w, session, id, user, scalers);
    VisitsMore(session, sync.rows, id, user, scalers);
    SameOwn(session, sync.rows, user, scalers);
    Subset(Visits(Session(sync.rows, session.todo - {id}), user, scalers), Own(session.rows, user, scalers));
  }

  lemma GrowsByVisit(w: World, id: string, left: nat, user: string, scalers: set<string>, n: nat, more: nat)
    requires Steady(w, user, scalers) && Steady(Seen(w, id, left), user, scalers) && left <= LiveOf(w.live, id) + 1
    requires UpTo(w, user, n) && n <= more && (id in w.agents && Holds(w.agents[id], user) ==> n < more)
    ensures UpTo(Seen(w, id, left), user, more)
  {
    if id in w.agents && Holds(w.agents[id], user) {
      GrowUpTo(w, id, left, user, scalers, n);
      UpToMore(Seen(w, id, left), user, n + 1, more);
    } else {
      ElsewhereShrinks(w, w, id, left, user);
      ShrinksUpTo(w, Seen(w, id, left), user, scalers, n);
      UpToMore(Seen(w, id, left), user, n, more);
    }
  }

  lemma GrowUpTo(w: World, id: string, left: nat, user: string, scalers: set<string>, n: nat)
    requires Steady(w, user, scalers) && left <= LiveOf(w.live, id) + 1 && UpTo(w, user, n)
    ensures UpTo(Seen(w, id, left), user, n + 1)
  {
    var after, more := Seen(w, id, left), n + 1;
    forall m ensures Under(after, user, more, m) {
      assert Under(w, user, n, m);
      GrowLoad(w, id, left, user, scalers, m);
    }
  }

  lemma VisitsMore(session: Session, rows: Agents, id: string, user: string, scalers: set<string>)
    requires id in session.rows && id in session.todo && rows.Keys == session.rows.Keys
    requires forall j :: j in rows ==> rows[j].user == session.rows[j].user
    ensures |Visits(Session(rows, session.todo - {id}), user, scalers)| ==
            |Visits(session, user, scalers)| + if id in scalers && rows[id].user == user then 1 else 0
  {
    var before, after := Visits(session, user, scalers), Visits(Session(rows, session.todo - {id}), user, scalers);
    assert after == if id in scalers && rows[id].user == user then before + {id} else before;
  }

  lemma NearStays(w: World, session: Session, id: string, after: World, rows: Agents, user: string, scalers: set<string>, k: nat)
    requires Steady(w, user, scalers) && Near(w, session, user, scalers, k)
    requires Steady(after, user, scalers) && after.users == w.users && Shrinks(w, after, user)
    requires id in session.rows && id in session.todo && rows.Keys == session.rows.Keys
    requires forall j :: j in rows ==> rows[j].user == session.rows[j].user
    ensures TickBounded(after, Session(rows, session.todo - {id}), user, scalers, k, false)
  {
    var n := k + |Visits(session, user, scalers)|;
    ShrinksUpTo(w, after, user, scalers, n);
    VisitsMore(session, rows, id, user, scalers);
    NearTick(after, Session(rows, session.todo - {id}), user, scalers, k, false, n);
  }

  /** What a visit that does not scale leaves of the bounds. */
  lemma SyncKeeps(start: World, w: World, session: Session, id: string, o: Observation,
                  user: string, scalers: set<string>, k: nat, apart: bool)
    requires Steady(w, user, scalers) && InStep(w, session, user, scalers, k) && id in session.rows && id in session.todo
    requires o.health.Report? && o.live <= LiveOf(w.live, id)
    requires Bounded(start, w, user, Excess(k, apart)) && TickBounded(w, session, user, scalers, k, apart)
    ensures var sync := StaleSync(w, session.rows, id, o);
            && sync.world.users == w.users && Steady(sync.world, user, scalers)
            && Bounded(start, sync.world, user, Excess(k, apart))
            && TickBounded(sync.world, Session(sync.rows, session.todo - {id}), user, scalers, k, apart)
  {
    var sync := StaleSync(w, session.rows, id, o);
    SyncEffect(w, session, id, o, user, scalers, k);
    ShrinksBounds(start, w, sync.world, user, scalers, Excess(k, apart));
    if !apart && Near(w, session, user, scalers, k) {
      NearStays(w, session, id, sync.world, sync.rows, user, scalers, k);
    } else {
      SyncDescribes(w, session, id, o, user, scalers, k);
      DescribedTick(sync.world, Session(sync.rows, session.todo - {id}), user, scalers, k, apart);
    }
  }

  /** One that does, from rows that describe what runs. */
  lemma DescribedKeeps(start: World, w: World, session: Session, id: string, o: Observation,
                       user: string, scalers: set<string>, k: nat, apart: bool)
    requires Steady(w, user, scalers) && InStep(w, session, user, scalers, k) && id in session.rows && id in session.todo
    requires o.live <= LiveOf(w.live, id) && o.autoScaled <= o.live + 1 && Scales(w, session.rows, id, o)
    requires Bounded(start, w, user, Excess(k, apart)) && SessionDescribes(w, session.rows, user, scalers)
    requires |Slackers(StaleSync(w, session.rows, id, o).world.agents, user, scalers)| <= k
    ensures var sync := StaleSync(w, session.rows, id, o); var after := Seen(sync.world, id, o.autoScaled);
            && Limited(after, user) && Bounded(start, after, user, Excess(k, apart))
            && TickBounded(after, Session(sync.rows, session.todo - {id}), user, scalers, k, apart)
  {
    var sync := StaleSync(w, session.rows, id, o);
    var after := Seen(sync.world, id, o.autoScaled);
    DescribedScaling(w, session, id, o, user, scalers, k);
    EffectBounds(start, w, after, user, scalers, k, apart);
    DescribedTick(after, Session(sync.rows, session.todo - {id}), user, scalers, k, apart);
  }

  /** And from rows that do not. */
  lemma NearKeeps(start: World, w: World, session: Session, id: string, o: Observation,
                  user: string, scalers: set<string>, k: nat)
    requires Steady(w, user, scalers) && InStep(w, session, user, scalers, k) && id in session.rows && id in session.todo
    requires o.live <= LiveOf(w.live, id) && o.autoScaled <= o.live + 1 && Scales(w, session.rows, id, o)
    requires Near(w, session, user, scalers, k)
    ensures var sync := StaleSync(w, session.rows, id, o); var after := Seen(sync.world, id, o.autoScaled);
            && Limited(after, user) && Bounded(start, after, user, 2 * k)
            && TickBounded(after, Session(sync.rows, session.todo - {id}), user, scalers, k, false)
  {
    var sync := StaleSync(w, session.rows, id, o);
    SyncEffect(w, session, id, o, user, scalers, k);
    ScalingSteady(w, session, id, o, user, scalers, k);
    VisitCounts(w, session, id, o, user, scalers, k);
    NearGrows(start, w, sync.world, id, o.autoScaled, session, Session(sync.rows, session.todo - {id}), user, scalers, k);
  }

  lemma NearGrows(start: World, w: World, mid: World, id: string, left: nat, session: Session, next: Session,
                  user: string, scalers: set<string>, k: nat)
    requires Steady(w, user, scalers) && Steady(mid, user, scalers) && mid.users == w.users && Shrinks(w, mid, user)
    requires Steady(Seen(mid, id, left), user, scalers) && left <= LiveOf(mid.live, id) + 1
    requires Near(w, session, user, scalers, k)
    requires |Visits(session, user, scalers)| <= |Visits(next, user, scalers)| <= k
    requires id in mid.agents && Holds(mid.agents[id], user) ==> |Visits(session, user, scalers)| < |Visits(next, user, scalers)|
    ensures Bounded(start, Seen(mid, id, left), user, 2 * k)
    ensures TickBounded(Seen(mid, id, left), next, user, scalers, k, false)
  {
    var n, more := k + |Visits(session, user, scalers)|, k + |Visits(next, user, scalers)|;
    ShrinkThenGrow(w, mid, id, left, user, scalers, n, more);
    NearTick(Seen(mid, id, left), next, user, scalers, k, false, more);
    UpToBounds(start, Seen(mid, id, left), user, more, 2 * k);
  }

  lemma SameOwn(session: Session, rows: Agents, user: string, scalers: set<string>)
    requires rows.Keys == session.rows.Keys && forall j :: j in rows ==> rows[j].user == session.rows[j].user
    ensures Own(rows, user, scalers) == Own(session.rows, user, scalers)
  {
  }

  /** A visit whose health check raises only leaves the list shorter. */
  lemma SkippedKeeps(w: World, session: Session, id: string, user: string, scalers: set<string>, k: nat, apart: bool)
    requires Steady(w, user, scalers) && id in session.rows && id in session.todo
    requires TickBounded(w, session, user, scalers, k, apart)
    ensures TickBounded(w, Session(session.rows, session.todo - {id}), user, scalers, k, apart)
  {
    if !apart && Near(w, session, user, scalers, k) {
      VisitsMore(session, session.rows, id, user, scalers);
      NearTick(w, Session(session.rows, session.todo - {id}), user, scalers, k, apart, k + |Visits(session, user, scalers)|);
    } else {
      DescribedTick(w, Session(session.rows, session.todo - {id}), user, scalers, k, apart);
    }
  }

  lemma VisitKeeps(start: World, st: State, id: string, o: Observation, user: string, scalers: set<string>, k: nat, apart: bool)
    requires Invariant(start, st, user, scalers, k, apart) && Allows(st, Visit(id, o), user)
    requires Scalers(EventStep(st, Visit(id, o)).world, user, scalers, k)
    ensures Invariant(start, EventStep(st, Visit(id, o)), user, scalers, k, apart)
  {
    var w, session := st.world, st.tick.value;
    VisitSplits(w, session.rows, id, o);
    VisitInStep(w, session, id, o, user, scalers, k);
    if o.health.CheckRaised? {
      SkippedKeeps(w, session, id, user, scalers, k, apart);
    } else if Scales(w, session.rows, id, o) {
      ScalingSteady(w, session, id, o, user, scalers, k);
      if !apart && Near(w, session, user, scalers, k) {
        NearKeeps(start, w, session, id, o, user, scalers, k);
      } else {
        DescribedKeeps(start, w, session, id, o, user, scalers, k, apart);
      }
    } else {
      SyncKeeps(start, w, session, id, o, user, scalers, k, apart);
    }
  }

  lemma BeginKeeps(start: World, st: State, user: string, scalers: set<string>, k: nat, apart: bool)
    requires Invariant(start, st, user, scalers, k, apart) && Scalers(st.world, user, scalers, k)
    ensures Invariant(start, EventStep(st, BeginTick), user, scalers, k, apart)
  {
    BeginInStep(st.world, user, scalers, k);
  }

  // ---------- Runs ----------

  lemma EventKeeps(start: World, st: State, e: Event, user: string, scalers: set<string>, k: nat, apart: bool)
    requires Invariant(start, st, user, scalers, k, apart) && Allows(st, e, user) && (apart && e.Request? ==> st.tick.None?)
    requires Scalers(st.world, user, scalers, k) && Scalers(EventStep(st, e).world, user, scalers, k)
    ensures Invariant(start, EventStep(st, e), user, scalers, k, apart)
  {
    match e
    case Request(s) => RequestKeeps(start, st, s, user, scalers, k, apart);
    case Lose(id, left) => LossKeeps(start, st, id, left, user, scalers, k, apart);
    case BeginTick => BeginKeeps(start, st, user, scalers, k, apart);
    case Visit(id, o) => VisitKeeps(start, st, id, o, user, scalers, k, apart);
    case EndTick =>
  }

  lemma {:induction false} RunKeeps(
      start: World, st: State, events: seq<Event>, user: string, scalers: set<string>, k: nat, apart: bool)
    requires Invariant(start, st, user, scalers, k, apart) && AllowsAll(st, events, user, scalers, k, apart)
    ensures Invariant(start, AfterEvents(st, events), user, scalers, k, apart)
    decreases |events|
  {
    if events != [] {
      EventKeeps(start, st, events[0], user, scalers, k, apart);
      RunKeeps(start, EventStep(st, events[0]), events[1..], user, scalers, k, apart);
    }
  }

  /**
    Over every run of careful requests, ticks and containers that die: the account's rows describe what runs but for
    one replica of each auto-scaling agent, and by every measure it runs no more than at the start, or than its plan
    and one replica for each auto-scaling agent if requests come between ticks, two if they come during them.
   */
  lemma {:induction false} MixedRunsBounded(
      w: World, events: seq<Event>, user: string, scalers: set<string>, k: nat, apart: bool)
    requires Steady(w, user, scalers) && AllowsAll(State(w, None), events, user, scalers, k, apart)
    ensures var after := AfterEvents(State(w, None), events).world;
            after.users == w.users && Steady(after, user, scalers) && Bounded(w, after, user, Excess(k, apart))
  {
    RunKeeps(w, State(w, None), events, user, scalers, k, apart);
  }

  /** So from a safe account, what runs never passes the plan by more than that. */
  lemma {:induction false} SafeStartStaysBounded(
      w: World, events: seq<Event>, user: string, scalers: set<string>, k: nat, apart: bool)
    requires Safe(w, user) && Steady(w, user, scalers) && AllowsAll(State(w, None), events, user, scalers, k, apart)
    ensures var after := AfterEvents(State(w, None), events).world;
            after.users == w.users && UpTo(after, user, Excess(k, apart))
  {
    MixedRunsBounded(w, events, user, scalers, k, apart);
    var after := AfterEvents(State(w, None), events).world;
    forall m ensures Under(after, user, Excess(k, apart), m) {
      assert Load(after, user, m) <= Load(w, user, m) || Under(after, user, Excess(k, apart), m);
      WithinMeasure(w, user, m);
      CapNotNegative(LimitsOf(w, user), m);
      TimesMonotone(0, Excess(k, apart), Cap(LimitsOf(w, user), m), Cap(LimitsOf(w, user), m));
    }
  }
}
