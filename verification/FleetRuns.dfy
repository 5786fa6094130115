/**
  Requests and ticks together (services/agent_service.py, scheduler.py): what an account can have running over any
  run of its own careful requests, anyone's other requests, and scheduler ticks that auto-scale.

  A tick loads the active rows once, in a session that keeps them (db.py), and visits them one by one.  Requests can
  run between two visits.  A visit reads and updates the session's row, the headroom test reads the session's numbers
  for every row it holds, and a commit writes back only the columns the visit changed.
 */
module FleetRuns {
  import opened Basics
  import opened Quota
  import opened Fleet
  import opened PlanSafety
  import opened Scheduler
  import opened Measures

  // ---------- A tick's session ----------

  /** The rows a tick has loaded, and those it has still to visit. */
  datatype Session = Session(rows: Agents, todo: set<string>)

  datatype State = State(world: World, tick: Option<Session>)

  function Loaded(agents: Agents): Agents {
    map id | id in agents && Active(agents[id].status) :: agents[id]
  }

  /**
    The rows as a query of the session returns them: which there are, whose and in which status is what the database
    says, but the numbers of a row the session holds are the session's.
   */
  function View(agents: Agents, rows: Agents): Agents {
    map id | id in agents ::
      if id in rows then agents[id].(replicas := rows[id].replicas, cpu := rows[id].cpu, memoryMb := rows[id].memoryMb)
      else agents[id]
  }

  ghost function SessionHeadroom(w: World, rows: Agents, id: string): Check
    requires id in rows
  {
    var a := rows[id];
    CheckResources(w.users, View(w.agents, rows), a.user, Some(id), a.replicas + 1, a.cpu, a.memoryMb)
  }

  /** A commit writes the columns that a visit changed. */
  function Flush(stored: Agent, loaded: Agent, changed: Agent): Agent {
    stored.(replicas := if changed.replicas != loaded.replicas then changed.replicas else stored.replicas,
            status := if changed.status != loaded.status then changed.status else stored.status)
  }

  /** The session's row after a visit's sync. */
  function SyncedRow(a: Agent, o: Observation): Agent
    requires o.health.Report?
  {
    a.(replicas := o.live, status := SyncedStatus(a.status, o.live, o.health))
  }

  datatype StaleVisited = StaleVisited(world: World, rows: Agents, aborted: bool)

  /** The first part of a visit; a row that is gone makes the commit of a change raise, which ends the tick. */
  function StaleSync(w: World, rows: Agents, id: string, o: Observation): StaleVisited
    requires id in rows && o.health.Report?
  {
    var seen, a := Seen(w, id, o.live), SyncedRow(rows[id], o);
    if id in w.agents then
      StaleVisited(seen.(agents := w.agents[id := Flush(w.agents[id], rows[id], a)]), rows[id := a], false)
    else StaleVisited(seen, rows[id := a], a != rows[id])
  }

  /** One agent's turn in a tick whose rows were loaded earlier. */
  ghost function StaleVisit(w: World, rows: Agents, id: string, o: Observation): StaleVisited
    requires id in rows
  {
    if o.health.CheckRaised? then StaleVisited(w, rows, false)
    else
      var v := StaleSync(w, rows, id, o);
      if v.aborted || !WantsScaling(v.rows[id]) then v
      else
        match SessionHeadroom(v.world, v.rows, id)
        case Exceeded(_) => v
        case UnknownUser => v.(aborted := true)
        case Allowed => v.(world := Seen(v.world, id, o.autoScaled))
  }

  // ---------- Runs ----------

  datatype Event =
    | Request(step: Step)
    | Lose(id: string, left: nat)
    | BeginTick
    | Visit(id: string, o: Observation)
    | EndTick

  ghost predicate Allows(st: State, e: Event, user: string) {
    match e
    case Request(s) =>
      && !s.Sync? && !s.LoseContainers?
      && RuntimeContract(st.world, s) && Careful(st.world, s, user)
      && (s.Create? || s.Deploy? ==> s.deployOutcome.DeployRaised? ==> Nonnegative(s.deployOutcome.left))
      && (s.Create? && st.tick.Some? ==> s.id !in st.tick.value.rows)
    case Lose(id, left) => left <= LiveOf(st.world.live, id)
    case BeginTick => st.tick.None?
    case Visit(id, o) =>
      && st.tick.Some? && id in st.tick.value.todo && id in st.tick.value.rows
      && o.live <= LiveOf(st.world.live, id) && o.autoScaled <= o.live + 1
    case EndTick => true
  }

  ghost function EventStep(st: State, e: Event): State {
    match e
    case Request(s) => st.(world := Next(st.world, s))
    case Lose(id, left) => st.(world := Seen(st.world, id, left))
    case BeginTick => st.(tick := Some(Session(Loaded(st.world.agents), Loaded(st.world.agents).Keys)))
    case Visit(id, o) =>
      if st.tick.None? || id !in st.tick.value.rows then st
      else
        var v := StaleVisit(st.world, st.tick.value.rows, id, o);
        State(v.world, if v.aborted then None else Some(Session(v.rows, st.tick.value.todo - {id})))
    case EndTick => st.(tick := None)
  }

  /** `scalers` are the agents that auto-scale at some time in the run, at most `k` of them the account's and active. */
  ghost predicate Scalers(w: World, user: string, scalers: set<string>, k: nat) {
    && (forall id :: id in w.agents && Holds(w.agents[id], user) && w.agents[id].autoScale ==> id in scalers)
    && |Slackers(w.agents, user, scalers)| <= k
  }

  /** With `apart`, no request runs while a tick is under way. */
  ghost predicate AllowsAll(st: State, events: seq<Event>, user: string, scalers: set<string>, k: nat, apart: bool)
    decreases |events|
  {
    && Scalers(st.world, user, scalers, k)
    && (events != [] ==>
          && Allows(st, events[0], user) && (apart && events[0].Request? ==> st.tick.None?)
          && AllowsAll(EventStep(st, events[0]), events[1..], user, scalers, k, apart))
  }

  ghost function AfterEvents(st: State, events: seq<Event>): State
    decreases |events|
  {
    if events == [] then st else AfterEvents(EventStep(st, events[0]), events[1..])
  }

  // ---------- A tick with nothing in between is a tick ----------

  ghost function VisitsOf(ids: seq<string>, obs: string -> Observation): seq<Event>
  {
    seq(|ids|, i requires 0 <= i < |ids| => Visit(ids[i], obs(ids[i])))
  }

  /** A session that holds what the database holds. */
  ghost predicate Mirrors(w: World, rows: Agents) {
    forall id :: id in rows ==> id in w.agents && rows[id] == w.agents[id]
  }

  lemma MirrorView(w: World, rows: Agents)
    requires Mirrors(w, rows)
    ensures View(w.agents, rows) == w.agents
  {
  }

  lemma MirrorHeadroom(w: World, rows: Agents, id: string)
    requires Mirrors(w, rows) && id in rows
    ensures SessionHeadroom(w, rows, id) == Headroom(w, id)
  {
    MirrorView(w, rows);
  }

  lemma MirrorSync(w: World, rows: Agents, id: string, o: Observation)
    requires Mirrors(w, rows) && id in rows && Active(w.agents[id].status) && o.health.Report?
    ensures var v := StaleSync(w, rows, id, o);
            && v.world == SyncStep(Seen(w, id, o.live), id, o.health) && !v.aborted
            && Mirrors(v.world, v.rows) && v.rows.Keys == rows.Keys
            && (forall j :: j in rows && j != id ==> v.world.agents[j] == w.agents[j])
  {
  }

  /** A visit from such a session is the visit of a tick run alone. */
  lemma MirrorVisit(w: World, rows: Agents, id: string, o: Observation)
    requires Mirrors(w, rows) && id in rows && Active(w.agents[id].status)
    ensures var v, u := StaleVisit(w, rows, id, o), VisitStep(w, id, o, 0.0, 0.0);
            && v.world == u.world && v.aborted == u.aborted
            && (!v.aborted ==> Mirrors(v.world, v.rows) && v.rows.Keys == rows.Keys)
            && forall j :: j in rows && j != id ==> v.world.agents[j] == w.agents[j]
  {
    if o.health.Report? {
      var v := StaleSync(w, rows, id, o);
      MirrorSync(w, rows, id, o);
      MirrorHeadroom(v.world, v.rows, id);
    }
  }

  lemma {:induction false} MirrorTick(w: World, session: Session, ids: seq<string>, obs: string -> Observation)
    requires Mirrors(w, session.rows) && Distinct(ids) && AllActive(w, ids)
    requires forall i :: 0 <= i < |ids| ==> ids[i] in session.rows
    ensures AfterEvents(State(w, Some(session)), VisitsOf(ids, obs)).world == TickSteps(w, ids, obs, 0.0, 0.0).world
    decreases |ids|
  {
    if ids != [] {
      var st, events := State(w, Some(session)), VisitsOf(ids, obs);
      var v := StaleVisit(w, session.rows, ids[0], obs(ids[0]));
      MirrorVisit(w, session.rows, ids[0], obs(ids[0]));
      assert events[0] == Visit(ids[0], obs(ids[0])) && events[1..] == VisitsOf(ids[1..], obs);
      var next := EventStep(st, events[0]);
      if v.aborted {
        NoTickNoVisits(next, ids[1..], obs);
      } else {
        MirrorTick(v.world, Session(v.rows, session.todo - {ids[0]}), ids[1..], obs);
      }
    }
  }

  lemma {:induction false} NoTickNoVisits(st: State, ids: seq<string>, obs: string -> Observation)
    requires st.tick.None?
    ensures AfterEvents(st, VisitsOf(ids, obs)) == st
    decreases |ids|
  {
    if ids != [] {
      var events := VisitsOf(ids, obs);
      assert events[0] == Visit(ids[0], obs(ids[0])) && events[1..] == VisitsOf(ids[1..], obs);
      NoTickNoVisits(st, ids[1..], obs);
    }
  }

  /** A tick that nothing interrupts does what a tick run alone does. */
  lemma QuietTickIsTick(w: World, ids: seq<string>, obs: string -> Observation)
    requires Distinct(ids) && AllActive(w, ids)
    ensures AfterEvents(EventStep(State(w, None), BeginTick), VisitsOf(ids, obs)).world == TickSteps(w, ids, obs, 0.0, 0.0).world
  {
    MirrorTick(w, Session(Loaded(w.agents), Loaded(w.agents).Keys), ids, obs);
  }
}
