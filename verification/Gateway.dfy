/**
  The ingress gate and the usage meter running together: the halves of calls interleave with each other and
  with flushes that begin, commit, fail and are cancelled (routers/ingress.py, services/metering_service.py).
 */
module Gateway {
  import opened Limiter
  import opened Ingress
  import opened Metering

  /**
    The pending counter is the gate's.  `agentHits` (the hits made on the per-agent limiter) and `straddled`
    (requests metered in another hour than the one their rate limit was checked in) are history.
   */
  datatype State = State(
    floor: Floor, inFlight: seq<multiset<Key>>, table: UsageTable, agentHits: seq<Hit>, straddled: multiset<Key>)

  datatype Event = Serve(half: Half) | Meter(step: Step)

  const Boot := State(Open, [], map[], [], multiset{})

  function LedgerOf(st: State): Ledger {
    Ledger(st.floor.gate.pending, st.inFlight, st.table)
  }

  function WithLedger(st: State, l: Ledger): State {
    st.(floor := st.floor.(gate := st.floor.gate.(pending := l.pending)), inFlight := l.inFlight, table := l.table)
  }

  /** This half takes a waiting call past the caller's limit and on to the access key. */
  predicate GoesOn(f: Floor, calls: seq<Call>, h: Half)
    requires h.n < |calls|
  {
    h.Second? && h.n in f.waiting && Target(calls[h.n].d, calls[h.n].r).Some?
  }

  /** The half with which a call is routed. */
  predicate Routes(f: Floor, calls: seq<Call>, h: Half)
    requires h.n < |calls|
  {
    var c := calls[h.n];
    GoesOn(f, calls, h) && PastClient(f.gate, c.d, Target(c.d, c.r).value, c.r).1.Routed?
  }

  /** What a call is metered under, if it has a target. */
  function KeyOf(c: Call): Key
    requires Target(c.d, c.r).Some?
  {
    MeterKey(Target(c.d, c.r).value, c.r)
  }

  function HitOf(c: Call): Hit
    requires Target(c.d, c.r).Some?
  {
    var t := Target(c.d, c.r).value;
    Hit(c.r.agentNow, t.id, AgentLimit(t))
  }

  /** The half with which a call reaches the agent's own rate limit. */
  predicate ReachesAgentLimit(f: Floor, calls: seq<Call>, h: Half)
    requires h.n < |calls|
  {
    var c := calls[h.n];
    GoesOn(f, calls, h) && KeyAccepted(c.d, Target(c.d, c.r).value, c.r) && !Target(c.d, c.r).value.owner.admin
  }

  ghost function ServeStep(st: State, calls: seq<Call>, h: Half): State
    requires h.n < |calls|
  {
    var c := calls[h.n];
    st.(floor := HalfStep(st.floor, calls, h),
        agentHits := if ReachesAgentLimit(st.floor, calls, h) then st.agentHits + [HitOf(c)] else st.agentHits,
        straddled := if Routes(st.floor, calls, h) && HourOf(c.r.agentNow) != HourOf(c.r.meterNow)
                     then st.straddled + multiset{KeyOf(c)} else st.straddled)
  }

  ghost predicate Possible(st: State, calls: seq<Call>, e: Event) {
    match e
    case Serve(h) => h.n < |calls|
    case Meter(step) => !step.CountOne? && Enabled(LedgerOf(st), step)
  }

  ghost function Happen(st: State, calls: seq<Call>, e: Event): State
    requires Possible(st, calls, e)
  {
    match e
    case Serve(h) => ServeStep(st, calls, h)
    case Meter(step) => WithLedger(st, Apply(LedgerOf(st), step))
  }

  ghost predicate AllPossible(st: State, calls: seq<Call>, events: seq<Event>)
    decreases |events|
  {
    events == [] ||
    (Possible(st, calls, events[0]) && AllPossible(Happen(st, calls, events[0]), calls, events[1..]))
  }

  ghost function HappenAll(st: State, calls: seq<Call>, events: seq<Event>): State
    requires AllPossible(st, calls, events)
    decreases |events|
  {
    if events == [] then st else HappenAll(Happen(st, calls, events[0]), calls, events[1..])
  }

  // ---------- Every routed call is metered, once ----------

  /** What an event is to the meter: a routed call is counted, a meter step is itself. */
  ghost function StepsOf(st: State, calls: seq<Call>, e: Event): seq<Step>
    requires Possible(st, calls, e)
  {
    match e
    case Serve(h) => if Routes(st.floor, calls, h) then [CountOne(KeyOf(calls[h.n]))] else []
    case Meter(step) => [step]
  }

  ghost function AllSteps(st: State, calls: seq<Call>, events: seq<Event>): seq<Step>
    requires AllPossible(st, calls, events)
    decreases |events|
  {
    if events == [] then []
    else StepsOf(st, calls, events[0]) + AllSteps(Happen(st, calls, events[0]), calls, events[1..])
  }

  /** The meter keys of the calls routed in a run. */
  ghost function RoutedKeys(st: State, calls: seq<Call>, events: seq<Event>): multiset<Key>
    requires AllPossible(st, calls, events)
    decreases |events|
  {
    if events == [] then multiset{}
    else
      (if events[0].Serve? && Routes(st.floor, calls, events[0].half) then multiset{KeyOf(calls[events[0].half.n])}
       else multiset{})
      + RoutedKeys(Happen(st, calls, events[0]), calls, events[1..])
  }

  /** A half counts its call exactly when it routes it, and touches nothing else of the meter's. */
  lemma HalfCounts(f: Floor, calls: seq<Call>, h: Half)
    requires h.n < |calls|
    ensures HalfStep(f, calls, h).gate.pending ==
            f.gate.pending + if Routes(f, calls, h) then multiset{KeyOf(calls[h.n])} else multiset{}
  {
  }

  /** To the meter, an event is its steps. */
  lemma EventIsSteps(st: State, calls: seq<Call>, e: Event)
    requires Possible(st, calls, e)
    ensures Enables(LedgerOf(st), StepsOf(st, calls, e))
    ensures LedgerOf(Happen(st, calls, e)) == Run(LedgerOf(st), StepsOf(st, calls, e))
  {
    match e
    case Serve(h) =>
      HalfCounts(st.floor, calls, h);
      if Routes(st.floor, calls, h) {
        RunOne(LedgerOf(st), CountOne(KeyOf(calls[h.n])));
      }
    case Meter(step) => RunOne(LedgerOf(st), step);
  }

  lemma RunOne(l: Ledger, step: Step)
    requires Enabled(l, step)
    ensures Enables(l, [step]) && Run(l, [step]) == Apply(l, step)
  {
    assert [step][1..] == [];
  }

  lemma {:induction false} RunConcat(l: Ledger, a: seq<Step>, b: seq<Step>)
    requires Enables(l, a) && Enables(Run(l, a), b)
    ensures Enables(l, a + b) && Run(l, a + b) == Run(Run(l, a), b)
    decreases |a|
  {
    if a == [] {
      assert a + b == b;
    } else {
      assert (a + b)[1..] == a[1..] + b;
      RunConcat(Apply(l, a[0]), a[1..], b);
    }
  }

  lemma {:induction false} CountedConcat(a: seq<Step>, b: seq<Step>)
    ensures Counted(a + b) == Counted(a) + Counted(b)
    decreases |a|
  {
    if a == [] {
      assert a + b == b;
    } else {
      assert (a + b)[1..] == a[1..] + b;
      CountedConcat(a[1..], b);
    }
  }

  /** The gateway refines the meter: its ledger is a run of the meter's, which counts exactly the routed calls. */
  lemma {:induction false} GatewayIsMeterRun(st: State, calls: seq<Call>, events: seq<Event>)
    requires AllPossible(st, calls, events)
    ensures Enables(LedgerOf(st), AllSteps(st, calls, events))
    ensures LedgerOf(HappenAll(st, calls, events)) == Run(LedgerOf(st), AllSteps(st, calls, events))
    ensures Counted(AllSteps(st, calls, events)) == RoutedKeys(st, calls, events)
    decreases |events|
  {
    if events != [] {
      var next := Happen(st, calls, events[0]);
      var now, later := StepsOf(st, calls, events[0]), AllSteps(next, calls, events[1..]);
      EventIsSteps(st, calls, events[0]);
      GatewayIsMeterRun(next, calls, events[1..]);
      RunConcat(LedgerOf(st), now, later);
      CountedConcat(now, later);
      assert now != [] ==> now[1..] == [];
    }
  }

  /**
    Over every interleaving of calls, flushes, failures, cancellations and account deletions: the calls routed to
    an agent in an hour are those waiting, in flight or stored, and those the trace says were dropped, lost or erased.
   */
  lemma {:induction false} GatewayConserves(calls: seq<Call>, events: seq<Event>, s: Slot)
    requires AllPossible(Boot, calls, events)
    ensures Enables(Start, AllSteps(Boot, calls, events))
    ensures var steps := AllSteps(Boot, calls, events);
            CountAt(RoutedKeys(Boot, calls, events), s) ==
            Held(LedgerOf(HappenAll(Boot, calls, events)), s)
            + CountAt(Dropped(Start, steps), s) + CountAt(Lost(Start, steps), s) + Erased(Start, steps, s)
  {
    GatewayIsMeterRun(Boot, calls, events);
    RequestsConserved(AllSteps(Boot, calls, events), s);
  }

  // ---------- Metered requests are within the plan's rate ----------

  /** A call to `agent` finds an owner who is no admin and a plan that allows at most `limit` a minute. */
  predicate PlanCaps(c: Call, agent: string, limit: nat) {
    var t := Target(c.d, c.r);
    t.Some? && t.value.id == agent ==> !t.value.owner.admin && AgentLimit(t.value) <= limit
  }

  /** Second halves read the per-agent limiter's clock in order, none before `since`. */
  ghost predicate AgentClockRuns(calls: seq<Call>, events: seq<Event>, since: real) {
    && (forall i :: 0 <= i < |events| && events[i].Serve? && events[i].half.n < |calls| && events[i].half.Second? ==>
          since <= calls[events[i].half.n].r.agentNow)
    && (forall i, j :: 0 <= i < j < |events| && events[i].Serve? && events[j].Serve?
                       && events[i].half.n < |calls| && events[j].half.n < |calls|
                       && events[i].half.Second? && events[j].half.Second? ==>
          calls[events[i].half.n].r.agentNow <= calls[events[j].half.n].r.agentNow)
  }

  ghost predicate HitsUpTo(hits: seq<Hit>, now: real) {
    Monotone(hits) && forall i :: 0 <= i < |hits| ==> hits[i].now <= now
  }

  /** An hour is sixty windows. */
  lemma HourIsSixtyWindows(t: real, hour: int)
    ensures HourOf(t) == hour <==> 60 * hour <= WindowOf(t, WindowSeconds) < 60 * hour + 60
  {
    assert WindowSeconds as real == 60.0;
  }

  ghost predicate Capped(st: State, s: Slot, limit: nat, now: real) {
    && HitsUpTo(st.agentHits, now)
    && st.floor.gate.perAgent == Replay(WindowSeconds, st.agentHits)
    && (forall i :: 0 <= i < |st.agentHits| && st.agentHits[i].key == s.agent ==> st.agentHits[i].limit <= limit)
    && Held(LedgerOf(st), s) <=
       AdmittedInWindows(WindowSeconds, st.agentHits, s.agent, 60 * s.hour, 60 * s.hour + 60) + CountAt(st.straddled, s)
  }

  /** What a half does to the per-agent table: the hit of a call that reaches it, or nothing. */
  lemma HalfHits(f: Floor, calls: seq<Call>, h: Half)
    requires h.n < |calls|
    ensures !ReachesAgentLimit(f, calls, h) ==> HalfStep(f, calls, h).gate.perAgent == f.gate.perAgent
    ensures ReachesAgentLimit(f, calls, h) ==>
              var hit := HitOf(calls[h.n]);
              HalfStep(f, calls, h).gate.perAgent == HitTable(f.gate.perAgent, WindowSeconds, hit.now, hit.key, hit.limit)
  {
  }

  /** A call of a limited owner is routed by an admitted hit. */
  lemma RoutedByHit(f: Floor, calls: seq<Call>, h: Half)
    requires h.n < |calls| && Routes(f, calls, h) && !Target(calls[h.n].d, calls[h.n].r).value.owner.admin
    ensures ReachesAgentLimit(f, calls, h)
    ensures var hit := HitOf(calls[h.n]);
            HitVerdict(f.gate.perAgent, WindowSeconds, hit.now, hit.key, hit.limit).Admit?
  {
  }

  lemma ReplayOne(hits: seq<Hit>, h: Hit)
    ensures Replay(WindowSeconds, hits + [h]) == HitTable(Replay(WindowSeconds, hits), WindowSeconds, h.now, h.key, h.limit)
  {
    assert (hits + [h])[..|hits|] == hits;
  }

  /** The per-agent table stays the replay of its hits. */
  lemma ServeReplays(st: State, calls: seq<Call>, h: Half)
    requires h.n < |calls| && st.floor.gate.perAgent == Replay(WindowSeconds, st.agentHits)
    ensures var next := ServeStep(st, calls, h);
            next.floor.gate.perAgent == Replay(WindowSeconds, next.agentHits)
  {
    HalfHits(st.floor, calls, h);
    if ReachesAgentLimit(st.floor, calls, h) {
      ReplayOne(st.agentHits, HitOf(calls[h.n]));
    }
  }

  /** An admitted hit in one of the hour's windows shows up in the windows' counts. */
  lemma AdmittedHitCounts(hits: seq<Hit>, h: Hit, hour: int)
    requires Monotone(hits + [h]) && HourOf(h.now) == hour
    requires HitVerdict(Replay(WindowSeconds, hits), WindowSeconds, h.now, h.key, h.limit).Admit?
    ensures AdmittedInWindows(WindowSeconds, hits + [h], h.key, 60 * hour, 60 * hour + 60) >
            AdmittedInWindows(WindowSeconds, hits, h.key, 60 * hour, 60 * hour + 60)
  {
    var all := hits + [h];
    assert all[..|hits|] == hits;
    HourIsSixtyWindows(h.now, hour);
    LimiterRefinesHistory(WindowSeconds, all, |hits|);
    WindowsGrow(WindowSeconds, all, h.key, 60 * hour, 60 * hour + 60);
  }

  lemma MoreHitsCountMore(hits: seq<Hit>, h: Hit, key: string, hour: int)
    ensures AdmittedInWindows(WindowSeconds, hits + [h], key, 60 * hour, 60 * hour + 60) >=
            AdmittedInWindows(WindowSeconds, hits, key, 60 * hour, 60 * hour + 60)
  {
    assert (hits + [h])[..|hits|] == hits;
    WindowsGrow(WindowSeconds, hits + [h], key, 60 * hour, 60 * hour + 60);
  }

  /** A counted request is matched by an admitted hit in its hour, or it straddles. */
  lemma CountMatched(hits: seq<Hit>, after: seq<Hit>, k: Key, h: Hit, routed: bool, s: Slot)
    requires Monotone(hits + [h]) && h.key == k.agent
    requires after == hits || after == hits + [h]
    requires routed && k.agent == s.agent ==>
               && after == hits + [h]
               && HitVerdict(Replay(WindowSeconds, hits), WindowSeconds, h.now, h.key, h.limit).Admit?
    ensures (if routed && SlotOf(k) == s && HourOf(h.now) == k.hour then 1 else 0)
            + AdmittedInWindows(WindowSeconds, hits, s.agent, 60 * s.hour, 60 * s.hour + 60) <=
            AdmittedInWindows(WindowSeconds, after, s.agent, 60 * s.hour, 60 * s.hour + 60)
  {
    MoreHitsCountMore(hits, h, s.agent, s.hour);
    if routed && SlotOf(k) == s && HourOf(h.now) == s.hour {
      AdmittedHitCounts(hits, h, s.hour);
    }
  }

  /** One more pending request, and nothing else of the meter's. */
  lemma HeldOneMore(l: Ledger, k: Key, s: Slot)
    ensures Held(l.(pending := l.pending + multiset{k}), s) == Held(l, s) + (if SlotOf(k) == s then 1 else 0)
  {
    CountAtOne(l.pending, k, s);
  }

  /** What a half adds to a slot. */
  lemma ServeCounts(st: State, calls: seq<Call>, h: Half, s: Slot)
    requires h.n < |calls| && Target(calls[h.n].d, calls[h.n].r).Some?
    ensures var k, routed := KeyOf(calls[h.n]), Routes(st.floor, calls, h);
            Held(LedgerOf(ServeStep(st, calls, h)), s) == Held(LedgerOf(st), s) + (if routed && SlotOf(k) == s then 1 else 0)
  {
    var l, k := LedgerOf(st), KeyOf(calls[h.n]);
    HalfCounts(st.floor, calls, h);
    HeldOneMore(l, k, s);
    assert LedgerOf(ServeStep(st, calls, h)) ==
           if Routes(st.floor, calls, h) then l.(pending := l.pending + multiset{k}) else l;
  }

  lemma ServeStraddles(st: State, calls: seq<Call>, h: Half, s: Slot)
    requires h.n < |calls| && Target(calls[h.n].d, calls[h.n].r).Some?
    ensures var k, routed := KeyOf(calls[h.n]), Routes(st.floor, calls, h);
            CountAt(ServeStep(st, calls, h).straddled, s) ==
            CountAt(st.straddled, s)
            + (if routed && SlotOf(k) == s && HourOf(calls[h.n].r.agentNow) != k.hour then 1 else 0)
  {
    CountAtOne(st.straddled, KeyOf(calls[h.n]), s);
  }

  lemma CapStep(st: State, next: State, k: Key, h: Hit, routed: bool, s: Slot, limit: nat, now: real)
    requires Capped(st, s, limit, now) && now <= h.now && h.key == k.agent
    requires k.agent == s.agent ==> h.limit <= limit
    requires next.floor.gate.perAgent == Replay(WindowSeconds, next.agentHits)
    requires next.agentHits == st.agentHits || next.agentHits == st.agentHits + [h]
    requires routed && k.agent == s.agent ==>
               && next.agentHits == st.agentHits + [h]
               && HitVerdict(st.floor.gate.perAgent, WindowSeconds, h.now, h.key, h.limit).Admit?
    requires Held(LedgerOf(next), s) == Held(LedgerOf(st), s) + (if routed && SlotOf(k) == s then 1 else 0)
    requires CountAt(next.straddled, s) ==
             CountAt(st.straddled, s) + (if routed && SlotOf(k) == s && HourOf(h.now) != k.hour then 1 else 0)
    ensures Capped(next, s, limit, h.now)
  {
    CountMatched(st.agentHits, next.agentHits, k, h, routed, s);
  }

  /** A half that does not go on leaves the per-agent limiter, its history and the meter alone. */
  lemma QuietHalf(st: State, calls: seq<Call>, h: Half)
    requires h.n < |calls| && !GoesOn(st.floor, calls, h)
    ensures var next := ServeStep(st, calls, h);
            && next.agentHits == st.agentHits && next.straddled == st.straddled && LedgerOf(next) == LedgerOf(st)
            && next.floor.gate.perAgent == st.floor.gate.perAgent
  {
  }

  lemma ServeKeepsCap(st: State, calls: seq<Call>, h: Half, s: Slot, limit: nat, now: real)
    requires h.n < |calls| && Capped(st, s, limit, now) && PlanCaps(calls[h.n], s.agent, limit)
    requires h.Second? ==> now <= calls[h.n].r.agentNow
    ensures Capped(ServeStep(st, calls, h), s, limit, if h.Second? then calls[h.n].r.agentNow else now)
  {
    if GoesOn(st.floor, calls, h) {
      ServeReplays(st, calls, h);
      ServeCounts(st, calls, h, s);
      ServeStraddles(st, calls, h, s);
      if Routes(st.floor, calls, h) && KeyOf(calls[h.n]).agent == s.agent {
        RoutedByHit(st.floor, calls, h);
      }
      CapStep(st, ServeStep(st, calls, h), KeyOf(calls[h.n]), HitOf(calls[h.n]), Routes(st.floor, calls, h), s, limit, now);
    } else {
      QuietHalf(st, calls, h);
    }
  }

  /** No step of the meter's own adds to what is held. */
  lemma MeterAddsNothing(l: Ledger, step: Step, s: Slot)
    requires Enabled(l, step) && !step.CountOne?
    ensures Held(Apply(l, step), s) <= Held(l, s)
  {
    StepConserves(l, step, s);
  }

  lemma ClockTail(calls: seq<Call>, events: seq<Event>, now: real)
    requires events != [] && AgentClockRuns(calls, events, now)
    ensures var e := events[0];
            AgentClockRuns(calls, events[1..],
                           if e.Serve? && e.half.n < |calls| && e.half.Second? then calls[e.half.n].r.agentNow else now)
  {
    assert forall i :: 0 <= i < |events| - 1 ==> events[1..][i] == events[i + 1];
  }

  lemma {:induction false} RunKeepsCap(
      st: State, calls: seq<Call>, events: seq<Event>, s: Slot, limit: nat, now: real) returns (later: real)
    requires Capped(st, s, limit, now) && AllPossible(st, calls, events) && AgentClockRuns(calls, events, now)
    requires forall i :: 0 <= i < |calls| ==> PlanCaps(calls[i], s.agent, limit)
    ensures Capped(HappenAll(st, calls, events), s, limit, later)
    decreases |events|
  {
    later := now;
    if events != [] {
      var e := events[0];
      ClockTail(calls, events, now);
      match e {
        case Serve(h) =>
          ServeKeepsCap(st, calls, h, s, limit, now);
          later := if h.Second? then calls[h.n].r.agentNow else now;
        case Meter(step) =>
          MeterAddsNothing(LedgerOf(st), step, s);
      }
      later := RunKeepsCap(Happen(st, calls, e), calls, events[1..], s, limit, later);
    }
  }

  /**
    Metered requests are capped by the plan: what is held for one agent and hour, waiting, in flight or stored, is at
    most sixty minutes of the plan's rate, plus the calls that crossed the hour between the limiter and the meter.
   */
  lemma {:induction false} MeteredWithinPlan(calls: seq<Call>, events: seq<Event>, s: Slot, limit: nat, since: real)
    requires AllPossible(Boot, calls, events) && AgentClockRuns(calls, events, since)
    requires forall i :: 0 <= i < |calls| ==> PlanCaps(calls[i], s.agent, limit)
    ensures var end := HappenAll(Boot, calls, events);
            Held(LedgerOf(end), s) <= 60 * limit + CountAt(end.straddled, s)
  {
    BootIsCapped(s, limit, since);
    var later := RunKeepsCap(Boot, calls, events, s, limit, since);
    CapBounds(HappenAll(Boot, calls, events), s, limit, later);
  }

  lemma CapBounds(st: State, s: Slot, limit: nat, now: real)
    requires Capped(st, s, limit, now)
    ensures Held(LedgerOf(st), s) <= 60 * limit + CountAt(st.straddled, s)
  {
    WindowsWithinLimit(WindowSeconds, st.agentHits, s.agent, 60 * s.hour, 60 * s.hour + 60, limit);
  }

  lemma BootIsCapped(s: Slot, limit: nat, now: real)
    ensures Capped(Boot, s, limit, now)
  {
  }

  lemma {:induction false} OneInstantNeverStraddles(st: State, calls: seq<Call>, events: seq<Event>)
    requires AllPossible(st, calls, events) && st.straddled == multiset{}
    requires forall i :: 0 <= i < |calls| ==> calls[i].r.agentNow == calls[i].r.meterNow
    ensures HappenAll(st, calls, events).straddled == multiset{}
    decreases |events|
  {
    if events != [] {
      OneInstantNeverStraddles(Happen(st, calls, events[0]), calls, events[1..]);
    }
  }

  /** With one clock reading for limiter and meter, at most sixty times the plan's rate. */
  lemma {:induction false} MeteredWithinPlanOneInstant(calls: seq<Call>, events: seq<Event>, s: Slot, limit: nat, since: real)
    requires AllPossible(Boot, calls, events) && AgentClockRuns(calls, events, since)
    requires forall i :: 0 <= i < |calls| ==> PlanCaps(calls[i], s.agent, limit)
    requires forall i :: 0 <= i < |calls| ==> calls[i].r.agentNow == calls[i].r.meterNow
    ensures Held(LedgerOf(HappenAll(Boot, calls, events)), s) <= 60 * limit
  {
    MeteredWithinPlan(calls, events, s, limit, since);
    OneInstantNeverStraddles(Boot, calls, events);
  }

  /** In numbers: 18,000 requests an hour to an agent on the free plan, 180,000 on pro. */
  lemma HourlyCeiling(calls: seq<Call>, events: seq<Event>, s: Slot, plan: string, since: real)
    requires AllPossible(Boot, calls, events) && AgentClockRuns(calls, events, since)
    requires forall i :: 0 <= i < |calls| ==>
               var t := Target(calls[i].d, calls[i].r);
               t.Some? && t.value.id == s.agent ==> !t.value.owner.admin && t.value.owner.plan == plan
    requires forall i :: 0 <= i < |calls| ==> calls[i].r.agentNow == calls[i].r.meterNow
    ensures Held(LedgerOf(HappenAll(Boot, calls, events)), s) <= if plan == "pro" then 180000 else 18000
  {
    MeteredWithinPlanOneInstant(calls, events, s, if plan == "pro" then 3000 else 300, since);
  }
}
