/**
  What each call to the ingress gate is answered (routers/ingress.py), told from the calls and their order alone: the
  settings, the host, the access key, the calls admitted before it in the same window, and the agent's containers.
 */
module IngressAnswers {
  import opened Basics
  import opened Plans
  import opened Limiter
  import opened Ingress
  import Hostnames
  import Metering

  predicate TokenRight(c: Call) {
    c.d.token.Some? && c.d.token.value != "" && c.r.token == c.d.token.value
  }

  /** The agent whose public host the call names. */
  function Addressed(c: Call): Option<Site> {
    var slug := Hostnames.SlugFromHost(c.r.host, c.d.baseDomain);
    if slug.Some? && slug.value in c.d.sites then Some(c.d.sites[slug.value]) else None
  }

  /** The call's hit on the allowance of its caller with an agent. */
  function CallerHit(c: Call, s: Site): Hit {
    Hit(c.r.clientNow, s.id + "|" + (if c.r.clientIp == "" then "unknown" else c.r.clientIp),
        if s.rateLimitRpm == None || s.rateLimitRpm == Some(0) then c.d.defaultRpm else s.rateLimitRpm.value)
  }

  /** Its hit on the allowance that all callers of the agent share. */
  function AgentHit(c: Call, s: Site): Hit {
    Hit(c.r.agentNow, s.id, LimitsFor(s.owner.plan).maxAgentRpm)
  }

  /** The least whole number of seconds after `now` at which the next window has begun. */
  ghost predicate LeastWait(now: real, seconds: int) {
    && 1 <= seconds <= WindowSeconds
    && WindowOf(now + seconds as real, WindowSeconds) == WindowOf(now, WindowSeconds) + 1
    && forall k: nat :: InLaterWindow(now, k, WindowSeconds) <==> k >= seconds
  }

  /** The rule of an allowance: the hits admitted before in the same window are fewer than the limit. */
  ghost predicate Allowance(past: seq<Hit>, h: Hit) {
    AdmittedIn(WindowSeconds, past, h.key, WindowOf(h.now, WindowSeconds)) < h.limit
  }

  // ---------- The history of a schedule ----------

  /** The hits on the callers' allowances: every arrival that names an agent. */
  function CallerHits(calls: seq<Call>, schedule: seq<Half>): seq<Hit>
    requires ValidSchedule(calls, schedule)
  {
    if schedule == [] then []
    else
      var h := schedule[|schedule| - 1];
      var c := calls[h.n];
      CallerHits(calls, schedule[..|schedule| - 1])
      + if h.First? && TokenRight(c) && Addressed(c).Some? then [CallerHit(c, Addressed(c).value)] else []
  }

  /** The hits on the agents' allowances: every entitled call that was waiting, except to the agents of admins. */
  function AgentHits(calls: seq<Call>, schedule: seq<Half>): seq<Hit>
    requires ValidSchedule(calls, schedule)
  {
    if schedule == [] then []
    else
      var before, h := schedule[..|schedule| - 1], schedule[|schedule| - 1];
      var c := calls[h.n];
      AgentHits(calls, before)
      + if h.Second? && h.n in Play(Open, calls, before).waiting && Addressed(c).Some?
           && !Keyless(c, Addressed(c).value) && !Addressed(c).value.owner.admin
        then [AgentHit(c, Addressed(c).value)] else []
  }

  lemma {:induction false} PlayOneMore(f: Floor, calls: seq<Call>, schedule: seq<Half>, h: Half)
    requires ValidSchedule(calls, schedule) && h.n < |calls|
    ensures ValidSchedule(calls, schedule + [h])
    ensures Play(f, calls, schedule + [h]) == HalfStep(Play(f, calls, schedule), calls, h)
    decreases |schedule|
  {
    if schedule == [] {
      assert [] + [h] == [h] && [h][1..] == [];
      assert Play(f, calls, [h]) == Play(HalfStep(f, calls, h), calls, []);
    } else {
      assert (schedule + [h])[1..] == schedule[1..] + [h] && (schedule + [h])[0] == schedule[0];
      PlayOneMore(HalfStep(f, calls, schedule[0]), calls, schedule[1..], h);
    }
  }

  lemma LastHalf(calls: seq<Call>, schedule: seq<Half>)
    requires ValidSchedule(calls, schedule) && schedule != []
    ensures var before, h := schedule[..|schedule| - 1], schedule[|schedule| - 1];
            Play(Open, calls, schedule) == HalfStep(Play(Open, calls, before), calls, h)
  {
    var before, h := schedule[..|schedule| - 1], schedule[|schedule| - 1];
    PlayOneMore(Open, calls, before, h);
    assert before + [h] == schedule;
  }

  lemma ReplayMore(hits: seq<Hit>, h: Hit)
    ensures Replay(WindowSeconds, hits + [h]) == HitTable(Replay(WindowSeconds, hits), WindowSeconds, h.now, h.key, h.limit)
  {
    assert (hits + [h])[..|hits|] == hits;
  }

  lemma TargetIsAddressed(c: Call)
    ensures Target(c.d, c.r) == if TokenRight(c) then Addressed(c) else None
  {
  }

  lemma HitsMatch(c: Call, s: Site)
    ensures CallerHit(c, s) == Hit(c.r.clientNow, ClientKey(s, c.r), ClientLimit(c.d, s))
    ensures AgentHit(c, s) == Hit(c.r.agentNow, s.id, AgentLimit(s))
  {
  }

  /** A first half leaves the agents' table alone and hits the callers' once, if it names an agent. */
  lemma FirstTables(f: Floor, calls: seq<Call>, n: nat)
    requires n < |calls|
    ensures var c, g := calls[n], HalfStep(f, calls, First(n)).gate;
            && g.perAgent == f.gate.perAgent
            && g.perClient == if TokenRight(c) && Addressed(c).Some?
                              then var h := CallerHit(c, Addressed(c).value);
                                   HitTable(f.gate.perClient, WindowSeconds, h.now, h.key, h.limit)
                              else f.gate.perClient
  {
    TargetIsAddressed(calls[n]);
    if Addressed(calls[n]).Some? {
      HitsMatch(calls[n], Addressed(calls[n]).value);
    }
  }

  /** A second half leaves the callers' table alone and hits the agents' once, for an entitled call. */
  lemma SecondTables(f: Floor, calls: seq<Call>, n: nat)
    requires n < |calls| && (n in f.waiting ==> TokenRight(calls[n]) && Addressed(calls[n]).Some?)
    ensures var c, g := calls[n], HalfStep(f, calls, Second(n)).gate;
            && g.perClient == f.gate.perClient
            && g.perAgent == if n in f.waiting && !Keyless(c, Addressed(c).value) && !Addressed(c).value.owner.admin
                             then var h := AgentHit(c, Addressed(c).value);
                                  HitTable(f.gate.perAgent, WindowSeconds, h.now, h.key, h.limit)
                             else f.gate.perAgent
  {
    TargetIsAddressed(calls[n]);
    if Addressed(calls[n]).Some? {
      HitsMatch(calls[n], Addressed(calls[n]).value);
    }
  }

  /** What every schedule leaves: the tables are those of its hits, and waiting calls name an agent. */
  ghost predicate Tells(f: Floor, calls: seq<Call>, schedule: seq<Half>)
    requires ValidSchedule(calls, schedule)
  {
    && f.gate.perClient == Replay(WindowSeconds, CallerHits(calls, schedule))
    && f.gate.perAgent == Replay(WindowSeconds, AgentHits(calls, schedule))
    && forall n :: n in f.waiting ==> n < |calls| && TokenRight(calls[n]) && Addressed(calls[n]).Some?
  }

  lemma CallerHitsGrow(calls: seq<Call>, before: seq<Half>, h: Half)
    requires ValidSchedule(calls, before) && h.n < |calls|
    ensures ValidSchedule(calls, before + [h])
    ensures var c := calls[h.n];
            CallerHits(calls, before + [h]) ==
            if h.First? && TokenRight(c) && Addressed(c).Some?
            then CallerHits(calls, before) + [CallerHit(c, Addressed(c).value)] else CallerHits(calls, before)
  {
    assert (before + [h])[..|before|] == before;
    assert CallerHits(calls, before) + [] == CallerHits(calls, before);
  }

  lemma AgentHitsGrow(calls: seq<Call>, before: seq<Half>, h: Half)
    requires ValidSchedule(calls, before) && h.n < |calls|
    ensures ValidSchedule(calls, before + [h])
    ensures var c := calls[h.n];
            AgentHits(calls, before + [h]) ==
            if h.Second? && h.n in Play(Open, calls, before).waiting && Addressed(c).Some?
               && !Keyless(c, Addressed(c).value) && !Addressed(c).value.owner.admin
            then AgentHits(calls, before) + [AgentHit(c, Addressed(c).value)] else AgentHits(calls, before)
  {
    assert (before + [h])[..|before|] == before;
    assert AgentHits(calls, before) + [] == AgentHits(calls, before);
  }

  lemma HalfTells(calls: seq<Call>, before: seq<Half>, h: Half)
    requires ValidSchedule(calls, before) && h.n < |calls| && Tells(Play(Open, calls, before), calls, before)
    ensures ValidSchedule(calls, before + [h])
    ensures Tells(HalfStep(Play(Open, calls, before), calls, h), calls, before + [h])
  {
    var f, c := Play(Open, calls, before), calls[h.n];
    CallerHitsGrow(calls, before, h);
    AgentHitsGrow(calls, before, h);
    WaitingIsAddressed(f, calls, h);
    if h.First? {
      FirstTables(f, calls, h.n);
    } else {
      SecondTables(f, calls, h.n);
    }
    if Addressed(c).Some? {
      ReplayMore(CallerHits(calls, before), CallerHit(c, Addressed(c).value));
      ReplayMore(AgentHits(calls, before), AgentHit(c, Addressed(c).value));
    }
  }

  lemma {:induction false} ScheduleTells(calls: seq<Call>, schedule: seq<Half>)
    requires ValidSchedule(calls, schedule)
    ensures Tells(Play(Open, calls, schedule), calls, schedule)
    decreases |schedule|
  {
    if schedule != [] {
      var before, h := schedule[..|schedule| - 1], schedule[|schedule| - 1];
      ScheduleTells(calls, before);
      LastHalf(calls, schedule);
      HalfTells(calls, before, h);
      assert before + [h] == schedule;
    }
  }

  lemma WaitingIsAddressed(f: Floor, calls: seq<Call>, h: Half)
    requires h.n < |calls|
    requires forall n :: n in f.waiting ==> n < |calls| && TokenRight(calls[n]) && Addressed(calls[n]).Some?
    ensures forall n :: n in HalfStep(f, calls, h).waiting ==>
              n < |calls| && TokenRight(calls[n]) && Addressed(calls[n]).Some?
  {
    TargetIsAddressed(calls[h.n]);
  }

  /** The limiter on a replayed table follows the rule over the history, and a refusal names the least wait. */
  lemma VerdictFollowsRule(past: seq<Hit>, h: Hit)
    requires Monotone(past + [h])
    ensures var v := HitVerdict(Replay(WindowSeconds, past), WindowSeconds, h.now, h.key, h.limit);
            (v.Admit? <==> Allowance(past, h)) && (v.Retry? ==> LeastWait(h.now, v.seconds))
  {
    assert (past + [h])[..|past|] == past;
    LimiterRefinesHistory(WindowSeconds, past + [h], |past|);
    var v := HitVerdict(Replay(WindowSeconds, past), WindowSeconds, h.now, h.key, h.limit);
    if v.Retry? {
      RetryAfterIsExact(Replay(WindowSeconds, past), WindowSeconds, h.now, h.key, h.limit);
    }
  }

  // ---------- Answers ----------

  /** Call `n` gets a response; nothing else is answered, and no other call starts or stops waiting. */
  ghost predicate Gives(f: Floor, after: Floor, n: nat, response: Response) {
    after.waiting == f.waiting - {n} && after.responses == f.responses[n := response]
  }

  /**
    What an arriving call is answered after any schedule, however calls are interleaved: 403 without the token, 404
    without an agent at its host, 429 with the least wait when its caller's allowance with the agent is spent;
    otherwise it goes on.
   */
  lemma ArrivalAnswer(calls: seq<Call>, schedule: seq<Half>, n: nat)
    requires ValidSchedule(calls, schedule) && n < |calls| && n !in Play(Open, calls, schedule).waiting
    requires Monotone(CallerHits(calls, schedule + [First(n)]))
    ensures var f, after := Play(Open, calls, schedule), Play(Open, calls, schedule + [First(n)]);
            var c := calls[n];
            && after.gate.pending == f.gate.pending
            && if !TokenRight(c) then Gives(f, after, n, Forbidden)
               else if Addressed(c).None? then Gives(f, after, n, NoAgent)
               else if Allowance(CallerHits(calls, schedule), CallerHit(c, Addressed(c).value)) then
                 after.waiting == f.waiting + {n} && after.responses == f.responses
               else
                 && n in after.responses && after.responses[n].TooMany?
                 && Gives(f, after, n, after.responses[n]) && LeastWait(c.r.clientNow, after.responses[n].retryAfter)
  {
    var f, c := Play(Open, calls, schedule), calls[n];
    PlayOneMore(Open, calls, schedule, First(n));
    ScheduleTells(calls, schedule);
    TargetIsAddressed(c);
    assert f.waiting - {n} == f.waiting;
    if TokenRight(c) && Addressed(c).Some? {
      var past, h := CallerHits(calls, schedule), CallerHit(c, Addressed(c).value);
      CallerHitsGrow(calls, schedule, First(n));
      HitsMatch(c, Addressed(c).value);
      VerdictFollowsRule(past, h);
    }
  }

  /**
    What a call that went on is answered: 401 exactly when the agent is private and the call has none of its keys; 429
    with the least wait when the agent's allowance is spent, unless its owner is an admin; 503 when it has no
    container; and otherwise one of its containers, with one request metered for the agent, its owner and the hour.
   */
  lemma SecondAnswer(calls: seq<Call>, schedule: seq<Half>, n: nat)
    requires ValidSchedule(calls, schedule) && n < |calls| && n in Play(Open, calls, schedule).waiting
    requires Monotone(AgentHits(calls, schedule + [Second(n)]))
    ensures TokenRight(calls[n]) && Addressed(calls[n]).Some?
    ensures var f, after := Play(Open, calls, schedule), Play(Open, calls, schedule + [Second(n)]);
            var c, s := calls[n], Addressed(calls[n]).value;
            && n in after.responses && Gives(f, after, n, after.responses[n])
            && var answer := after.responses[n];
               && (answer == Unauthorized <==> Keyless(c, s))
               && (answer.Routed? ==> s.id in c.d.upstreams && answer.upstream in c.d.upstreams[s.id])
               && (answer.TooMany? ==> LeastWait(c.r.agentNow, answer.retryAfter))
               && (!Keyless(c, s) ==>
                     var spent := !s.owner.admin && !Allowance(AgentHits(calls, schedule), AgentHit(c, s));
                     var runs := s.id in c.d.upstreams && c.d.upstreams[s.id] != [];
                     && (answer.TooMany? <==> spent)
                     && (answer == NotRunning <==> !spent && !runs)
                     && (answer.Routed? <==> !spent && runs))
               && after.gate.pending == f.gate.pending
                  + if answer.Routed? then multiset{Metering.Key(s.id, s.user, Metering.HourOf(c.r.meterNow))} else multiset{}
  {
    var f, c := Play(Open, calls, schedule), calls[n];
    PlayOneMore(Open, calls, schedule, Second(n));
    ScheduleTells(calls, schedule);
    TargetIsAddressed(c);
    var s := Addressed(c).value;
    HitsMatch(c, s);
    if !Keyless(c, s) && !s.owner.admin {
      var past, h := AgentHits(calls, schedule), AgentHit(c, s);
      AgentHitsGrow(calls, schedule, Second(n));
      VerdictFollowsRule(past, h);
    }
    PastAnswer(f.gate, c, s);
  }

  /** The part of a call past the caller's limit, in terms of the limiter's verdict. */
  lemma PastAnswer(g: Gate, c: Call, s: Site)
    ensures var (g1, answer) := PastClient(g, c.d, s, c.r);
            var h := AgentHit(c, s);
            var v := HitVerdict(g.perAgent, WindowSeconds, h.now, h.key, h.limit);
            var runs := s.id in c.d.upstreams && c.d.upstreams[s.id] != [];
            && (answer == Unauthorized <==> Keyless(c, s))
            && (answer.TooMany? <==> !Keyless(c, s) && !s.owner.admin && v.Retry?)
            && (answer.TooMany? ==> answer.retryAfter == v.seconds)
            && (answer == NotRunning <==> !Keyless(c, s) && (s.owner.admin || v.Admit?) && !runs)
            && (answer.Routed? <==> !Keyless(c, s) && (s.owner.admin || v.Admit?) && runs)
            && (answer.Routed? ==> s.id in c.d.upstreams && answer.upstream in c.d.upstreams[s.id])
            && g1.pending == g.pending
               + if answer.Routed? then multiset{Metering.Key(s.id, s.user, Metering.HourOf(c.r.meterNow))} else multiset{}
  {
    HitsMatch(c, s);
  }

  // ---------- Whom a key lets in ----------

  /** What a response says of its call. */
  ghost predicate Just(c: Call, response: Response) {
    && (response == Forbidden <==> !TokenRight(c))
    && (response == NoAgent <==> TokenRight(c) && Addressed(c).None?)
    && (TokenRight(c) && Addressed(c).Some? ==>
          var s := Addressed(c).value;
          && (response.TooMany? || (response == Unauthorized <==> Keyless(c, s)))
          && (response.Routed? ==> s.id in c.d.upstreams && response.upstream in c.d.upstreams[s.id]))
  }

  ghost predicate AllJust(f: Floor, calls: seq<Call>) {
    forall n :: n in f.responses ==> n < |calls| && Just(calls[n], f.responses[n])
  }

  lemma HalfIsJust(f: Floor, calls: seq<Call>, h: Half)
    requires h.n < |calls| && AllJust(f, calls)
    requires forall n :: n in f.waiting ==> n < |calls| && TokenRight(calls[n]) && Addressed(calls[n]).Some?
    ensures AllJust(HalfStep(f, calls, h), calls)
  {
    var c := calls[h.n];
    TargetIsAddressed(c);
    if h.Second? && h.n in f.waiting {
      PastAnswer(f.gate, c, Addressed(c).value);
    }
  }

  lemma {:induction false} ScheduleIsJust(calls: seq<Call>, schedule: seq<Half>)
    requires ValidSchedule(calls, schedule)
    ensures AllJust(Play(Open, calls, schedule), calls)
    decreases |schedule|
  {
    if schedule != [] {
      var before := schedule[..|schedule| - 1];
      ScheduleIsJust(calls, before);
      ScheduleTells(calls, before);
      LastHalf(calls, schedule);
      HalfIsJust(Play(Open, calls, before), calls, schedule[|schedule| - 1]);
    }
  }

  /**
    Whatever the schedule: a call is routed only with the right token, to a container of the agent at its host, and
    only if that agent is public or the call carries one of its keys.  One that names an agent and is answered
    anything but 429 is answered 401 exactly when the agent is private and it carries none.
   */
  lemma OnlyTheEntitledGetIn(calls: seq<Call>, schedule: seq<Half>, n: nat)
    requires ValidSchedule(calls, schedule) && n in Play(Open, calls, schedule).responses
    ensures n < |calls|
    ensures var c, response := calls[n], Play(Open, calls, schedule).responses[n];
            && (response.Routed? ==>
                  && TokenRight(c) && Addressed(c).Some?
                  && var s := Addressed(c).value;
                     && (s.access == Public || (s.id, c.r.authorization) in c.d.authorized)
                     && s.id in c.d.upstreams && response.upstream in c.d.upstreams[s.id])
            && (TokenRight(c) && Addressed(c).Some? && !response.TooMany? ==>
                  var s := Addressed(c).value;
                  response == Unauthorized <==> s.access == Private && (s.id, c.r.authorization) !in c.d.authorized)
  {
    ScheduleIsJust(calls, schedule);
    assert Just(calls[n], Play(Open, calls, schedule).responses[n]);
  }
}
