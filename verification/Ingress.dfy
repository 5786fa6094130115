/**
  The gate every request to an agent passes (routers/ingress.py): token, host, the caller's own rate
  limit, the access key, the agent's rate limit, a running container, and then the meter.

  Looking up the access key waits for the database, so a call is two halves, and the halves of
  different calls interleave.
 */
module Ingress {
  import opened Basics
  import opened Plans
  import opened Limiter
  import Quota
  import Hostnames
  import Metering

  datatype Access = Public | Private

  datatype Site = Site(id: string, user: string, access: Access, rateLimitRpm: Option<int>, owner: Quota.User)

  /**
    What a call reads: the settings, the agents by slug, the (agent, Authorization header) pairs that
    carry a valid access key, and the addresses of each agent's containers.  It may differ per call.
   */
  datatype Directory = Directory(
    token: Option<string>, baseDomain: Option<string>, defaultRpm: int,
    sites: map<string, Site>, authorized: set<(string, string)>, upstreams: map<string, seq<string>>)

  /** A call, with the instants at which it reads the clock: for each limiter, and for the meter. */
  datatype Request = Request(
    host: string, token: string, clientIp: string, authorization: string, pick: nat,
    clientNow: real, agentNow: real, meterNow: real)

  datatype Response = Forbidden | NoAgent | TooMany(retryAfter: int) | Unauthorized | NotRunning | Routed(upstream: string)

  /** The two limiter tables and the pending request counter. */
  datatype Gate = Gate(perClient: Table, perAgent: Table, pending: multiset<Metering.Key>)

  const WindowSeconds := 60

  const Closed := Gate(Fresh, Fresh, multiset{})

  /** The agent a call is for, once its token and host are accepted. */
  function Target(d: Directory, r: Request): Option<Site> {
    if !Truthy(d.token) || r.token != d.token.value then None
    else
      var slug := Hostnames.SlugFromHost(r.host, d.baseDomain);
      if slug.Some? && slug.value in d.sites then Some(d.sites[slug.value]) else None
  }

  function CallerIp(r: Request): string {
    if r.clientIp == "" then "unknown" else r.clientIp
  }

  function ClientKey(s: Site, r: Request): string {
    s.id + "|" + CallerIp(r)
  }

  /** The agent's own limit per caller, or the platform's where that is unset or zero. */
  function ClientLimit(d: Directory, s: Site): int {
    if s.rateLimitRpm.Some? && s.rateLimitRpm.value != 0 then s.rateLimitRpm.value else d.defaultRpm
  }

  predicate KeyAccepted(d: Directory, s: Site, r: Request) {
    s.access == Public || (s.id, r.authorization) in d.authorized
  }

  function Upstreams(d: Directory, s: Site): seq<string> {
    if s.id in d.upstreams then d.upstreams[s.id] else []
  }

  function MeterKey(s: Site, r: Request): Metering.Key {
    Metering.Key(s.id, s.user, Metering.HourOf(r.meterNow))
  }

  function AgentLimit(s: Site): int {
    LimitsFor(s.owner.plan).maxAgentRpm
  }

  /** The end of `route`: an agent with containers is counted and routed to one of them. */
  function Deliver(g: Gate, d: Directory, s: Site, r: Request): (Gate, Response) {
    var ups := Upstreams(d, s);
    if ups == [] then (g, NotRunning)
    else (g.(pending := g.pending + multiset{MeterKey(s, r)}), Routed(ups[r.pick % |ups|]))
  }

  /** `route` past the caller's own rate limit. */
  function PastClient(g: Gate, d: Directory, s: Site, r: Request): (Gate, Response) {
    if !KeyAccepted(d, s, r) then (g, Unauthorized)
    else if s.owner.admin then Deliver(g, d, s, r)
    else
      var v := HitVerdict(g.perAgent, WindowSeconds, r.agentNow, s.id, AgentLimit(s));
      var g1 := g.(perAgent := HitTable(g.perAgent, WindowSeconds, r.agentNow, s.id, AgentLimit(s)));
      if v.Retry? then (g1, TooMany(v.seconds)) else Deliver(g1, d, s, r)
  }

  /** `route` up to the access key: the response if it is decided by then, None if the call goes on. */
  function Arrive(g: Gate, d: Directory, r: Request): (result: (Gate, Option<Response>))
    ensures result.1.None? ==> Target(d, r).Some?
  {
    if !Truthy(d.token) || r.token != d.token.value then (g, Some(Forbidden))
    else
      match Target(d, r)
      case None => (g, Some(NoAgent))
      case Some(s) =>
        var v := HitVerdict(g.perClient, WindowSeconds, r.clientNow, ClientKey(s, r), ClientLimit(d, s));
        var g1 := g.(perClient := HitTable(g.perClient, WindowSeconds, r.clientNow, ClientKey(s, r), ClientLimit(d, s)));
        (g1, if v.Retry? then Some(TooMany(v.seconds)) else None)
  }

  /** A call run alone. */
  function RouteStep(g: Gate, d: Directory, r: Request): (Gate, Response) {
    var (g1, early) := Arrive(g, d, r);
    if early.Some? then (g1, early.value) else PastClient(g1, d, Target(d, r).value, r)
  }

  class IngressGate {
    const perClient: FixedWindowLimiter
    const perAgent: FixedWindowLimiter
    const meter: Metering.UsageMeter

    ghost predicate Valid() {
      perClient != perAgent && perClient.size == WindowSeconds && perAgent.size == WindowSeconds
    }

    function State(): Gate
      reads perClient, perAgent, meter
    {
      Gate(perClient.Contents(), perAgent.Contents(), meter.pending)
    }

    constructor (meter: Metering.UsageMeter)
      ensures Valid() && fresh(perClient) && fresh(perAgent) && this.meter == meter
      ensures State() == Closed.(pending := meter.pending)
    {
      var client := new FixedWindowLimiter(WindowSeconds);
      var agent := new FixedWindowLimiter(WindowSeconds);
      perClient, perAgent, this.meter := client, agent, meter;
    }

    method ArriveCall(d: Directory, r: Request) returns (early: Option<Response>)
      requires Valid()
      modifies perClient
      ensures (State(), early) == Arrive(old(State()), d, r)
    {
      if !Truthy(d.token) || r.token != d.token.value {
        return Some(Forbidden);
      }
      var found := Target(d, r);
      if found.None? {
        return Some(NoAgent);
      }
      var site := found.value;
      var verdict := perClient.Hit(r.clientNow, ClientKey(site, r), ClientLimit(d, site));
      if verdict.Retry? {
        return Some(TooMany(verdict.seconds));
      }
      return None;
    }

    method FinishCall(d: Directory, site: Site, r: Request) returns (response: Response)
      requires Valid()
      modifies perAgent, meter`pending
      ensures (State(), response) == PastClient(old(State()), d, site, r)
    {
      if site.access == Private && (site.id, r.authorization) !in d.authorized {
        return Unauthorized;
      }
      if !site.owner.admin {
        var verdict := perAgent.Hit(r.agentNow, site.id, AgentLimit(site));
        if verdict.Retry? {
          return TooMany(verdict.seconds);
        }
      }
      var upstreams := Upstreams(d, site);
      if upstreams == [] {
        return NotRunning;
      }
      meter.CountRequest(site.id, site.user, r.meterNow);
      return Routed(upstreams[r.pick % |upstreams|]);
    }

    method Route(d: Directory, r: Request) returns (response: Response)
      requires Valid()
      modifies perClient, perAgent, meter`pending
      ensures (State(), response) == RouteStep(old(State()), d, r)
    {
      var early := ArriveCall(d, r);
      if early.Some? {
        return early.value;
      }
      response := FinishCall(d, Target(d, r).value, r);
    }
  }

  // ---------- Interleaved calls ----------

  datatype Call = Call(d: Directory, r: Request)

  /** Call `n` arrives, or goes on from the access key. */
  datatype Half = First(n: nat) | Second(n: nat)

  /** The gate, the calls that are between their halves, and the responses given so far. */
  datatype Floor = Floor(gate: Gate, waiting: set<nat>, responses: map<nat, Response>)

  const Open := Floor(Closed, {}, map[])

  function HalfStep(f: Floor, calls: seq<Call>, h: Half): Floor
    requires h.n < |calls|
  {
    var c := calls[h.n];
    match h
    case First(n) =>
      var (g, early) := Arrive(f.gate, c.d, c.r);
      if early.Some? then Floor(g, f.waiting, f.responses[n := early.value]) else Floor(g, f.waiting + {n}, f.responses)
    case Second(n) =>
      if n !in f.waiting || Target(c.d, c.r).None? then f
      else
        var (g, response) := PastClient(f.gate, c.d, Target(c.d, c.r).value, c.r);
        Floor(g, f.waiting - {n}, f.responses[n := response])
  }

  predicate ValidSchedule(calls: seq<Call>, schedule: seq<Half>) {
    forall i :: 0 <= i < |schedule| ==> schedule[i].n < |calls|
  }

  function Play(f: Floor, calls: seq<Call>, schedule: seq<Half>): Floor
    requires ValidSchedule(calls, schedule)
    decreases |schedule|
  {
    if schedule == [] then f else Play(HalfStep(f, calls, schedule[0]), calls, schedule[1..])
  }

  /** A call whose halves are not separated is a call run alone. */
  lemma UnsplitCallIsRoute(f: Floor, calls: seq<Call>, n: nat)
    requires n < |calls| && n !in f.waiting
    ensures var (g, response) := RouteStep(f.gate, calls[n].d, calls[n].r);
            Play(f, calls, [First(n), Second(n)]) == Floor(g, f.waiting, f.responses[n := response])
  {
    var mid := HalfStep(f, calls, First(n));
    assert [First(n), Second(n)][1..] == [Second(n)] && [Second(n)][1..] == [];
    assert Play(f, calls, [First(n), Second(n)]) == Play(mid, calls, [Second(n)]) == HalfStep(mid, calls, Second(n));
    assert n in mid.waiting ==> mid.waiting - {n} == f.waiting;
  }

  // ---------- Non-interference ----------

  /** The halves of the calls that are not dropped, in the same order. */
  function Keep(schedule: seq<Half>, dropped: set<nat>): (kept: seq<Half>)
    ensures forall i :: 0 <= i < |kept| ==> kept[i] in schedule
  {
    if schedule == [] then []
    else (if schedule[0].n in dropped then [] else [schedule[0]]) + Keep(schedule[1..], dropped)
  }

  /** The agent is private, and the call carries none of its access keys. */
  predicate Keyless(c: Call, s: Site) {
    s.access == Private && (s.id, c.r.authorization) !in c.d.authorized
  }

  /** A call that cannot get past the access key. */
  predicate Stranger(c: Call) {
    var t := Target(c.d, c.r);
    t.None? || Keyless(c, t.value)
  }

  predicate Spends(c: Call, key: string) {
    var t := Target(c.d, c.r);
    t.Some? && ClientKey(t.value, c.r) == key
  }

  predicate ClientClockRuns(calls: seq<Call>, schedule: seq<Half>)
    requires ValidSchedule(calls, schedule)
  {
    forall i, j :: 0 <= i < j < |schedule| && schedule[i].First? && schedule[j].First? ==>
      calls[schedule[i].n].r.clientNow <= calls[schedule[j].n].r.clientNow
  }

  /** No dropped call spends the allowance of a kept one. */
  ghost predicate Apart(calls: seq<Call>, dropped: set<nat>) {
    forall i, j, key :: 0 <= i < |calls| && 0 <= j < |calls| && i in dropped && j !in dropped ==>
      !Spends(calls[i], key) || !Spends(calls[j], key)
  }

  predicate Stale(t: Table, window: int) {
    t.window <= window || t.counts == map[]
  }

  /** Two tables that, from `window` on, count the same for every key a kept call spends. */
  ghost predicate Agree(t: Table, u: Table, window: int, calls: seq<Call>, dropped: set<nat>) {
    && Stale(t, window) && Stale(u, window)
    && (forall j, key :: 0 <= j < |calls| && j !in dropped && Spends(calls[j], key) ==>
          Count(Advance(t, window), key) == Count(Advance(u, window), key))
  }

  /** The clearing that comes with a new window does not tell the two tables apart. */
  lemma AgreeLater(t: Table, u: Table, window: int, later: int, calls: seq<Call>, dropped: set<nat>)
    requires Agree(t, u, window, calls, dropped) && window <= later
    ensures Agree(t, u, later, calls, dropped)
  {
  }

  /** A hit on one side only, of a key no kept call spends, goes unnoticed by the kept calls. */
  lemma ForeignHit(t: Table, u: Table, now: real, key: string, limit: int, calls: seq<Call>, dropped: set<nat>)
    requires Agree(t, u, WindowOf(now, WindowSeconds), calls, dropped)
    requires forall j :: 0 <= j < |calls| && j !in dropped ==> !Spends(calls[j], key)
    ensures Agree(HitTable(t, WindowSeconds, now, key, limit), u, WindowOf(now, WindowSeconds), calls, dropped)
  {
  }

  /** The same hit on both sides gets the same verdict and keeps them in agreement. */
  lemma SharedHit(t: Table, u: Table, now: real, key: string, limit: int, calls: seq<Call>, dropped: set<nat>)
    requires Agree(t, u, WindowOf(now, WindowSeconds), calls, dropped)
    requires Count(Advance(t, WindowOf(now, WindowSeconds)), key) == Count(Advance(u, WindowOf(now, WindowSeconds)), key)
    ensures HitVerdict(t, WindowSeconds, now, key, limit) == HitVerdict(u, WindowSeconds, now, key, limit)
    ensures Agree(HitTable(t, WindowSeconds, now, key, limit), HitTable(u, WindowSeconds, now, key, limit),
                  WindowOf(now, WindowSeconds), calls, dropped)
  {
    var w := WindowOf(now, WindowSeconds);
    var t', u' := HitTable(t, WindowSeconds, now, key, limit), HitTable(u, WindowSeconds, now, key, limit);
    forall j, k | 0 <= j < |calls| && j !in dropped && Spends(calls[j], k)
      ensures Count(Advance(t', w), k) == Count(Advance(u', w), k)
    {
      assert Count(Advance(t, w), k) == Count(Advance(u, w), k);
    }
  }

  /** Two floors that kept calls cannot tell apart: `f` with the dropped calls, `g` without. */
  ghost predicate Alike(f: Floor, g: Floor, window: int, calls: seq<Call>, dropped: set<nat>) {
    && f.gate.perAgent == g.gate.perAgent && f.gate.pending == g.gate.pending
    && Agree(f.gate.perClient, g.gate.perClient, window, calls, dropped)
    && (forall n :: n !in dropped ==> (n in f.waiting <==> n in g.waiting))
    && SameResponses(f, g, dropped)
  }

  ghost predicate SameResponses(f: Floor, g: Floor, dropped: set<nat>) {
    forall n :: n !in dropped ==>
      (n in f.responses <==> n in g.responses) && (n in f.responses ==> f.responses[n] == g.responses[n])
  }

  /** A dropped arrival leaves the agents' allowances and the meter alone, and the callers' as the kept calls see them. */
  lemma DroppedFirst(f: Floor, g: Floor, calls: seq<Call>, dropped: set<nat>, n: nat)
    requires n < |calls| && n in dropped && Apart(calls, dropped)
    requires Alike(f, g, WindowOf(calls[n].r.clientNow, WindowSeconds), calls, dropped)
    ensures Alike(HalfStep(f, calls, First(n)), g, WindowOf(calls[n].r.clientNow, WindowSeconds), calls, dropped)
  {
    var d, r := calls[n].d, calls[n].r;
    var t := Target(d, r);
    if t.Some? {
      var key := ClientKey(t.value, r);
      assert Spends(calls[n], key);
      ForeignHit(f.gate.perClient, g.gate.perClient, r.clientNow, key, ClientLimit(d, t.value), calls, dropped);
    }
  }

  lemma KeptFirst(f: Floor, g: Floor, calls: seq<Call>, dropped: set<nat>, n: nat)
    requires n < |calls| && n !in dropped
    requires Alike(f, g, WindowOf(calls[n].r.clientNow, WindowSeconds), calls, dropped)
    ensures Alike(HalfStep(f, calls, First(n)), HalfStep(g, calls, First(n)),
                  WindowOf(calls[n].r.clientNow, WindowSeconds), calls, dropped)
  {
    var d, r := calls[n].d, calls[n].r;
    var t := Target(d, r);
    if t.Some? {
      var key := ClientKey(t.value, r);
      assert Spends(calls[n], key);
      SharedHit(f.gate.perClient, g.gate.perClient, r.clientNow, key, ClientLimit(d, t.value), calls, dropped);
    }
    assert Arrive(f.gate, d, r).1 == Arrive(g.gate, d, r).1;
  }

  /** Past the callers' limits nothing depends on the callers' table, and nothing changes it. */
  lemma PastClientSame(g: Gate, h: Gate, d: Directory, s: Site, r: Request)
    requires g.perAgent == h.perAgent && g.pending == h.pending
    ensures var (g1, x), (h1, y) := PastClient(g, d, s, r), PastClient(h, d, s, r);
            && x == y && g1.perAgent == h1.perAgent && g1.pending == h1.pending
            && g1.perClient == g.perClient && h1.perClient == h.perClient
  {
  }

  lemma SecondsAlike(f: Floor, g: Floor, window: int, calls: seq<Call>, dropped: set<nat>, n: nat)
    requires n < |calls| && Alike(f, g, window, calls, dropped)
    requires n in dropped ==> Stranger(calls[n])
    ensures Alike(HalfStep(f, calls, Second(n)), if n in dropped then g else HalfStep(g, calls, Second(n)),
                  window, calls, dropped)
  {
    var t := Target(calls[n].d, calls[n].r);
    if t.Some? && n !in dropped {
      PastClientSame(f.gate, g.gate, calls[n].d, t.value, calls[n].r);
    }
  }

  /** No arrival of the schedule falls before `window`. */
  ghost predicate NotBefore(calls: seq<Call>, schedule: seq<Half>, window: int)
    requires ValidSchedule(calls, schedule)
  {
    forall i :: 0 <= i < |schedule| && schedule[i].First? ==>
      window <= WindowOf(calls[schedule[i].n].r.clientNow, WindowSeconds)
  }

  lemma {:induction false} FloorsAlike(
      f: Floor, g: Floor, window: int, calls: seq<Call>, schedule: seq<Half>, dropped: set<nat>)
    requires ValidSchedule(calls, schedule) && ClientClockRuns(calls, schedule) && NotBefore(calls, schedule, window)
    requires Apart(calls, dropped) && forall n :: n in dropped && n < |calls| ==> Stranger(calls[n])
    requires Alike(f, g, window, calls, dropped)
    ensures var full, part := Play(f, calls, schedule), Play(g, calls, Keep(schedule, dropped));
            && full.gate.perAgent == part.gate.perAgent && full.gate.pending == part.gate.pending
            && SameResponses(full, part, dropped)
    decreases |schedule|
  {
    if schedule != [] {
      var h := schedule[0];
      var g1 := if h.n in dropped then g else HalfStep(g, calls, h);
      var later := HalfAlike(f, g, window, calls, schedule, dropped);
      assert forall i :: 0 <= i < |schedule| - 1 ==> schedule[1..][i] == schedule[i + 1];
      FloorsAlike(HalfStep(f, calls, h), g1, later, calls, schedule[1..], dropped);
      PlayKept(g, calls, schedule, dropped);
    }
  }

  lemma PlayKept(g: Floor, calls: seq<Call>, schedule: seq<Half>, dropped: set<nat>)
    requires schedule != [] && ValidSchedule(calls, schedule)
    ensures Play(g, calls, Keep(schedule, dropped)) ==
            Play(if schedule[0].n in dropped then g else HalfStep(g, calls, schedule[0]), calls, Keep(schedule[1..], dropped))
  {
    var kept, rest := Keep(schedule, dropped), Keep(schedule[1..], dropped);
    if schedule[0].n in dropped {
      assert kept == rest;
    } else {
      assert kept[0] == schedule[0] && kept[1..] == rest;
    }
  }

  /** One half keeps two floors alike, from the window it leaves on. */
  lemma HalfAlike(f: Floor, g: Floor, window: int, calls: seq<Call>, schedule: seq<Half>, dropped: set<nat>) returns (later: int)
    requires schedule != [] && ValidSchedule(calls, schedule) && ClientClockRuns(calls, schedule) && NotBefore(calls, schedule, window)
    requires Apart(calls, dropped) && forall n :: n in dropped && n < |calls| ==> Stranger(calls[n])
    requires Alike(f, g, window, calls, dropped)
    ensures var h := schedule[0];
            Alike(HalfStep(f, calls, h), if h.n in dropped then g else HalfStep(g, calls, h), later, calls, dropped)
    ensures forall i :: 0 < i < |schedule| && schedule[i].First? ==>
              later <= WindowOf(calls[schedule[i].n].r.clientNow, WindowSeconds)
  {
    var h := schedule[0];
    if h.First? {
      later := WindowOf(calls[h.n].r.clientNow, WindowSeconds);
      AgreeLater(f.gate.perClient, g.gate.perClient, window, later, calls, dropped);
      forall i | 0 < i < |schedule| && schedule[i].First?
        ensures later <= WindowOf(calls[schedule[i].n].r.clientNow, WindowSeconds)
      {
        WindowMonotone(calls[h.n].r.clientNow, calls[schedule[i].n].r.clientNow, WindowSeconds);
      }
      if h.n in dropped {
        DroppedFirst(f, g, calls, dropped, h.n);
      } else {
        KeptFirst(f, g, calls, dropped, h.n);
      }
    } else {
      later := window;
      SecondsAlike(f, g, window, calls, dropped, h.n);
    }
  }

  /** A window that no arrival falls before. */
  lemma {:induction false} EarliestWindow(calls: seq<Call>, schedule: seq<Half>) returns (window: int)
    requires ValidSchedule(calls, schedule)
    ensures NotBefore(calls, schedule, window)
    decreases |schedule|
  {
    window := 0;
    if schedule != [] {
      window := EarliestWindow(calls, schedule[1..]);
      var own := WindowOf(calls[schedule[0].n].r.clientNow, WindowSeconds);
      window := if own < window then own else window;
      assert forall i :: 0 < i < |schedule| ==> schedule[1..][i - 1] == schedule[i];
    }
  }

  /**
    Calls that cannot get past the access key, from callers apart from the rest, might as well not have been made:
    however the halves of all the calls interleave, every other call gets the same response, and the agents'
    allowances and the meter are the same.
   */
  lemma {:induction false} NonInterference(calls: seq<Call>, schedule: seq<Half>, dropped: set<nat>)
    requires ValidSchedule(calls, schedule) && ClientClockRuns(calls, schedule) && Apart(calls, dropped)
    requires forall n :: n in dropped && n < |calls| ==> Stranger(calls[n])
    ensures var full, part := Play(Open, calls, schedule), Play(Open, calls, Keep(schedule, dropped));
            && SameResponses(full, part, dropped)
            && full.gate.perAgent == part.gate.perAgent && full.gate.pending == part.gate.pending
  {
    var window := EarliestWindow(calls, schedule);
    FloorsAlike(Open, Open, window, calls, schedule, dropped);
  }

  // ---------- Callers by address ----------

  /** A call to `agent` from one of `ips`. */
  predicate From(c: Call, agent: string, ips: set<string>) {
    var t := Target(c.d, c.r);
    t.Some? && t.value.id == agent && CallerIp(c.r) in ips
  }

  function CallsFrom(calls: seq<Call>, agent: string, ips: set<string>): set<nat> {
    set n: nat | n < |calls| && From(calls[n], agent, ips)
  }

  /** Agent ids have no bar in them, so a limiter key names one agent and one address. */
  predicate PlainIds(calls: seq<Call>) {
    forall i :: 0 <= i < |calls| ==>
      var t := Target(calls[i].d, calls[i].r); t.Some? ==> '|' !in t.value.id
  }

  lemma KeysAreInjective(a: string, ip: string, b: string, jp: string)
    requires '|' !in a && '|' !in b && a + "|" + ip == b + "|" + jp
    ensures a == b && ip == jp
  {
    var s := a + "|" + ip;
    assert s[|a|] == '|' && s[|b|] == '|';
    assert forall i :: 0 <= i < |a| ==> s[i] == a[i] && a[i] in a;
    assert forall i :: 0 <= i < |b| ==> s[i] == b[i] && b[i] in b;
    assert |a| == |b|;
    assert a == s[..|a|] && b == s[..|b|];
    assert ip == s[|a| + 1..] && jp == s[|b| + 1..];
  }

  /**
    For a private agent, keyless calls from a set of addresses change nothing for anyone else: not the
    responses to other addresses, not the requests metered, although all share the tables they clear.
   */
  lemma {:induction false} KeylessCallersDontInterfere(calls: seq<Call>, schedule: seq<Half>, agent: string, ips: set<string>)
    requires ValidSchedule(calls, schedule) && ClientClockRuns(calls, schedule) && PlainIds(calls)
    requires forall i :: 0 <= i < |calls| && From(calls[i], agent, ips) ==>
               Keyless(calls[i], Target(calls[i].d, calls[i].r).value)
    ensures var keyless := CallsFrom(calls, agent, ips);
            var full, part := Play(Open, calls, schedule), Play(Open, calls, Keep(schedule, keyless));
            SameResponses(full, part, keyless) && full.gate.pending == part.gate.pending
  {
    var keyless := CallsFrom(calls, agent, ips);
    forall i, j, key | 0 <= i < |calls| && 0 <= j < |calls| && i in keyless && j !in keyless
      ensures !Spends(calls[i], key) || !Spends(calls[j], key)
    {
      if Spends(calls[i], key) && Spends(calls[j], key) {
        var s, t := Target(calls[i].d, calls[i].r).value, Target(calls[j].d, calls[j].r).value;
        KeysAreInjective(s.id, CallerIp(calls[i].r), t.id, CallerIp(calls[j].r));
      }
    }
    NonInterference(calls, schedule, keyless);
  }
}
