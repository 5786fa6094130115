/**
  Usage metering (services/metering_service.py): requests counted in memory and flushed
  into hourly buckets, and running replicas recorded in the same buckets.

  `UsageMeter` is the mutable module state together with the usage_hours table.  A flush is
  several steps, because the process can count requests while it waits for the database;
  `Ledger` is the state machine of those steps, measured against what its trace of steps says.
 */
module Metering {
  import opened Basics
  import opened Sums

  /** A pending counter's key: (agent_id, user_id, hour_start). */
  datatype Key = Key(agent: string, user: string, hour: int)

  /** usage_hours has one row per agent and hour. */
  datatype Slot = Slot(agent: string, hour: int)

  datatype Amounts = Amounts(replicaSeconds: real, vcpuSeconds: real, memoryMbSeconds: real, requests: nat)

  datatype Row = Row(user: string, amounts: Amounts)

  type UsageTable = map<Slot, Row>

  /** One insert-or-add into usage_hours. */
  datatype Entry = Entry(agent: string, user: string, at: real, amounts: Amounts)

  /** The columns of an agent's row that metering reads. */
  datatype Metered = Metered(id: string, user: string, cpu: real, memoryMb: nat)

  const Nothing := Amounts(0.0, 0.0, 0.0, 0)

  /** The UTC hour of an instant, as a number of whole hours since the epoch. */
  function HourOf(at: real): int {
    (at / 3600.0).Floor
  }

  function HourStart(hour: int): real {
    hour as real * 3600.0
  }

  function SlotOf(k: Key): Slot {
    Slot(k.agent, k.hour)
  }

  function EntrySlot(e: Entry): Slot {
    Slot(e.agent, HourOf(e.at))
  }

  function Add(a: Amounts, b: Amounts): Amounts {
    Amounts(a.replicaSeconds + b.replicaSeconds, a.vcpuSeconds + b.vcpuSeconds,
            a.memoryMbSeconds + b.memoryMbSeconds, a.requests + b.requests)
  }

  /** INSERT ... ON CONFLICT (agent_id, hour_start) DO UPDATE: the row's owner stays the first writer's. */
  function Upsert(t: UsageTable, e: Entry): UsageTable {
    var s := EntrySlot(e);
    t[s := if s in t then Row(t[s].user, Add(t[s].amounts, e.amounts)) else Row(e.user, e.amounts)]
  }

  /** The entry `record` writes for `replicas` replicas running for `seconds`. */
  function UsageEntry(a: Metered, replicas: int, seconds: real, at: real): Entry {
    Entry(a.id, a.user, at,
          Amounts(replicas as real * seconds, replicas as real * a.cpu * seconds,
                  replicas as real * a.memoryMb as real * seconds, 0))
  }

  function RequestEntry(k: Key, count: nat): Entry {
    Entry(k.agent, k.user, HourStart(k.hour), Nothing.(requests := count))
  }

  class UsageMeter {
    var pending: multiset<Key>
    var table: UsageTable

    constructor ()
      ensures pending == multiset{} && table == map[]
    {
      pending, table := multiset{}, map[];
    }

    method CountRequest(agent: string, user: string, at: real)
      modifies this`pending
      ensures pending == old(pending) + multiset{Key(agent, user, HourOf(at))}
    {
      pending := pending + multiset{Key(agent, user, HourOf(at))};
    }

    /** `flush_requests` up to its first await: copy the counts and clear them. */
    method TakeBatch() returns (batch: multiset<Key>)
      modifies this`pending
      ensures batch == old(pending) && pending == multiset{}
    {
      batch := pending;
      pending := multiset{};
    }

    /**
      The transaction of `flush_requests`: one upsert per distinct key, in any order, leaving out
      accounts that no longer exist.  `entries` are the upserts made, `kept` the requests written.
     */
    method WriteBatch(batch: multiset<Key>, existing: set<string>)
      returns (written: nat, ghost kept: multiset<Key>, ghost entries: seq<Entry>)
      modifies this`table
      ensures Writes(batch, existing, kept, entries)
      ensures table == ApplyAll(old(table), entries)
      ensures written == |kept|
    {
      var rest := batch;
      written, kept, entries := 0, multiset{}, [];
      while rest != multiset{}
        invariant rest <= batch
        invariant forall k :: k in batch ==> rest[k] == 0 || rest[k] == batch[k]
        invariant forall k :: kept[k] == if rest[k] == 0 && k.user in existing then batch[k] else 0
        invariant RequestsOnly(entries) && UnitsOf(entries) == kept
        invariant table == ApplyAll(old(table), entries)
        invariant written == |kept|
        decreases |rest|
      {
        var k :| k in rest;
        var count := rest[k];
        rest := rest[k := 0];
        if k.user in existing {
          var e := RequestEntry(k, count);
          HourOfHourStart(k.hour);
          table := Upsert(table, e);
          written := written + count;
          ghost var units := multiset{}[k := count];
          assert kept !! units;
          assert |kept + units| == |kept| + count;
          kept := kept + units;
          UnitsOfAppend(entries, e);
          assert (entries + [e])[..|entries|] == entries;
          entries := entries + [e];
        }
      }
    }

    /** `flush_requests` after an exception, once the rollback is done: the counts go back and are retried later. */
    method RestoreBatch(batch: multiset<Key>)
      modifies this`pending
      ensures pending == old(pending) + batch
    {
      pending := pending + batch;
    }

    method Record(a: Metered, replicas: int, seconds: real, at: real)
      modifies this`table
      ensures replicas <= 0 || seconds <= 0.0 ==> table == old(table)
      ensures replicas > 0 && seconds > 0.0 ==> table == Upsert(old(table), UsageEntry(a, replicas, seconds, at))
    {
      if replicas <= 0 || seconds <= 0.0 {
        return;
      }
      table := Upsert(table, UsageEntry(a, replicas, seconds, at));
    }
  }

  lemma HourOfHourStart(hour: int)
    ensures HourOf(HourStart(hour)) == hour
  {
    assert HourStart(hour) / 3600.0 == hour as real;
  }

  // ---------- Counting the units of a multiset ----------

  /** How many units of a counter fall in a slot, over all users. */
  ghost function CountAt(m: multiset<Key>, s: Slot): nat
    decreases |m|
  {
    if m == multiset{} then 0
    else
      var k :| k in m;
      (if SlotOf(k) == s then 1 else 0) + CountAt(m - multiset{k}, s)
  }

  lemma {:induction false} CountAtRemove(m: multiset<Key>, s: Slot, k: Key)
    requires k in m
    ensures CountAt(m, s) == (if SlotOf(k) == s then 1 else 0) + CountAt(m - multiset{k}, s)
    decreases |m|
  {
    var j :| j in m && CountAt(m, s) == (if SlotOf(j) == s then 1 else 0) + CountAt(m - multiset{j}, s);
    if j != k {
      CountAtRemove(m - multiset{j}, s, k);
      CountAtRemove(m - multiset{k}, s, j);
      assert m - multiset{j} - multiset{k} == m - multiset{k} - multiset{j};
    }
  }

  lemma CountAtOne(m: multiset<Key>, k: Key, s: Slot)
    ensures CountAt(m + multiset{k}, s) == CountAt(m, s) + (if SlotOf(k) == s then 1 else 0)
  {
    assert m + multiset{k} - multiset{k} == m;
    CountAtRemove(m + multiset{k}, s, k);
  }

  lemma {:induction false} CountAtUnion(a: multiset<Key>, b: multiset<Key>, s: Slot)
    ensures CountAt(a + b, s) == CountAt(a, s) + CountAt(b, s)
    decreases |b|
  {
    if b == multiset{} {
      assert a + b == a;
    } else {
      var k :| k in b;
      var c := b - multiset{k};
      assert b == c + multiset{k} && a + b - multiset{k} == a + c;
      CountAtRemove(a + b, s, k);
      CountAtRemove(b, s, k);
      CountAtUnion(a, c, s);
    }
  }

  lemma {:induction false} CountAtRepeated(k: Key, n: nat, s: Slot)
    ensures CountAt(multiset{}[k := n], s) == if SlotOf(k) == s then n else 0
  {
    if n > 0 {
      assert multiset{}[k := n] - multiset{k} == multiset{}[k := n - 1];
      CountAtRemove(multiset{}[k := n], s, k);
      CountAtRepeated(k, n - 1, s);
    }
  }

  // ---------- The table and the log of upserts ----------

  ghost function ApplyAll(t: UsageTable, log: seq<Entry>): UsageTable {
    if log == [] then t else Upsert(ApplyAll(t, log[..|log| - 1]), log[|log| - 1])
  }

  /** The table left by a log of upserts. */
  ghost function TableOf(log: seq<Entry>): UsageTable {
    ApplyAll(map[], log)
  }

  lemma {:induction false} ApplyAllConcat(t: UsageTable, a: seq<Entry>, b: seq<Entry>)
    ensures ApplyAll(t, a + b) == ApplyAll(ApplyAll(t, a), b)
  {
    if b == [] {
      assert a + b == a;
    } else {
      assert (a + b)[..|a + b| - 1] == a + b[..|b| - 1];
      ApplyAllConcat(t, a, b[..|b| - 1]);
    }
  }

  /** The requests a log of upserts wrote, as units per (agent, user, hour). */
  ghost function UnitsOf(log: seq<Entry>): multiset<Key> {
    if log == [] then multiset{}
    else
      var e := log[|log| - 1];
      UnitsOf(log[..|log| - 1]) + multiset{}[Key(e.agent, e.user, HourOf(e.at)) := e.amounts.requests]
  }

  lemma UnitsOfAppend(log: seq<Entry>, e: Entry)
    ensures UnitsOf(log + [e]) == UnitsOf(log) + multiset{}[Key(e.agent, e.user, HourOf(e.at)) := e.amounts.requests]
  {
    assert (log + [e])[..|log|] == log;
  }

  ghost predicate RequestsOnly(log: seq<Entry>) {
    forall i :: 0 <= i < |log| ==> log[i].amounts == Nothing.(requests := log[i].amounts.requests)
  }

  /** `entries` write, once each, exactly the requests of `batch` whose account still exists. */
  ghost predicate Writes(batch: multiset<Key>, existing: set<string>, kept: multiset<Key>, entries: seq<Entry>) {
    && (forall k :: kept[k] == if k.user in existing then batch[k] else 0)
    && RequestsOnly(entries)
    && UnitsOf(entries) == kept
  }

  function RequestsAt(t: UsageTable, s: Slot): nat {
    if s in t then t[s].amounts.requests else 0
  }

  /** Upserts add to a bucket's request column the units they write to it. */
  lemma {:induction false} RequestsAdded(t: UsageTable, log: seq<Entry>, s: Slot)
    ensures RequestsAt(ApplyAll(t, log), s) == RequestsAt(t, s) + CountAt(UnitsOf(log), s)
  {
    if log != [] {
      var past, e := log[..|log| - 1], log[|log| - 1];
      var k := Key(e.agent, e.user, HourOf(e.at));
      RequestsAdded(t, past, s);
      CountAtUnion(UnitsOf(past), multiset{}[k := e.amounts.requests], s);
      CountAtRepeated(k, e.amounts.requests, s);
    }
  }

  // ---------- Counting, flushing, failing and cancelling in any order ----------

  /** The program's state, with one batch in flight for each flush that is waiting for the database. */
  datatype Ledger = Ledger(pending: multiset<Key>, inFlight: seq<multiset<Key>>, table: UsageTable)

  /** A flush commits, fails (and then its rollback may raise as well) or is cancelled. */
  datatype Step =
    | CountOne(key: Key)
    | BeginFlush
    | CommitFlush(i: nat, existing: set<string>, kept: multiset<Key>, entries: seq<Entry>)
    | FailFlush(i: nat, rollbackRaises: bool)
    | CancelFlush(i: nat)
    | RecordUsage(entry: Entry)
    | DeleteAccount(user: string)

  const Start := Ledger(multiset{}, [], map[])

  ghost predicate Enabled(l: Ledger, step: Step) {
    match step
    case CountOne(_) => true
    case BeginFlush => true
    case CommitFlush(i, existing, kept, entries) => i < |l.inFlight| && Writes(l.inFlight[i], existing, kept, entries)
    case FailFlush(i, _) => i < |l.inFlight|
    case CancelFlush(i) => i < |l.inFlight|
    case RecordUsage(e) => e.amounts.requests == 0
    case DeleteAccount(_) => true
  }

  function Without<T>(s: seq<T>, i: nat): seq<T>
    requires i < |s|
  {
    s[..i] + s[i + 1..]
  }

  /** Deleting an account cascades to its usage rows. */
  function Erase(t: UsageTable, user: string): UsageTable {
    map s | s in t && t[s].user != user :: t[s]
  }

  ghost function Apply(l: Ledger, step: Step): Ledger
    requires Enabled(l, step)
  {
    match step
    case CountOne(k) => l.(pending := l.pending + multiset{k})
    case BeginFlush => l.(pending := multiset{}, inFlight := l.inFlight + [l.pending])
    case CommitFlush(i, _, _, entries) => l.(inFlight := Without(l.inFlight, i), table := ApplyAll(l.table, entries))
    case FailFlush(i, rollbackRaises) =>
      l.(inFlight := Without(l.inFlight, i), pending := if rollbackRaises then l.pending else l.pending + l.inFlight[i])
    case CancelFlush(i) => l.(inFlight := Without(l.inFlight, i))
    case RecordUsage(e) => l.(table := Upsert(l.table, e))
    case DeleteAccount(user) => l.(table := Erase(l.table, user))
  }

  ghost predicate Enables(l: Ledger, steps: seq<Step>)
    decreases |steps|
  {
    steps == [] || (Enabled(l, steps[0]) && Enables(Apply(l, steps[0]), steps[1..]))
  }

  ghost function Run(l: Ledger, steps: seq<Step>): Ledger
    requires Enables(l, steps)
    decreases |steps|
  {
    if steps == [] then l else Run(Apply(l, steps[0]), steps[1..])
  }

  ghost function Together(batches: seq<multiset<Key>>): multiset<Key> {
    if batches == [] then multiset{} else batches[0] + Together(batches[1..])
  }

  lemma {:induction false} TogetherAppend(batches: seq<multiset<Key>>, b: multiset<Key>)
    ensures Together(batches + [b]) == Together(batches) + b
  {
    if batches != [] {
      assert (batches + [b])[1..] == batches[1..] + [b];
      TogetherAppend(batches[1..], b);
    }
  }

  lemma {:induction false} TogetherWithout(batches: seq<multiset<Key>>, i: nat)
    requires i < |batches|
    ensures Together(batches) == batches[i] + Together(Without(batches, i))
  {
    if i > 0 {
      assert Without(batches, i)[1..] == Without(batches[1..], i - 1);
      TogetherWithout(batches[1..], i - 1);
    } else {
      assert Without(batches, 0) == batches[1..];
    }
  }

  /** The requests of an agent and hour that the program still has: waiting, in flight or stored. */
  ghost function Held(l: Ledger, s: Slot): nat {
    CountAt(l.pending, s) + CountAt(Together(l.inFlight), s) + RequestsAt(l.table, s)
  }

  // What a trace of steps says was counted, and what it says is gone.

  function CountedBy(step: Step): multiset<Key> {
    if step.CountOne? then multiset{step.key} else multiset{}
  }

  function Counted(steps: seq<Step>): multiset<Key> {
    if steps == [] then multiset{} else CountedBy(steps[0]) + Counted(steps[1..])
  }

  /** The requests a commit leaves out. */
  ghost function DroppedBy(l: Ledger, step: Step): multiset<Key>
    requires Enabled(l, step)
  {
    if step.CommitFlush? then l.inFlight[step.i] - step.kept else multiset{}
  }

  /** The batch of a flush that ends without writing it or putting it back. */
  ghost function LostBy(l: Ledger, step: Step): multiset<Key>
    requires Enabled(l, step)
  {
    if step.CancelFlush? || (step.FailFlush? && step.rollbackRaises) then l.inFlight[step.i] else multiset{}
  }

  /** The stored requests that go with a deleted account. */
  ghost function ErasedBy(l: Ledger, step: Step, s: Slot): nat
    requires Enabled(l, step)
  {
    if step.DeleteAccount? && s in l.table && l.table[s].user == step.user then RequestsAt(l.table, s) else 0
  }

  ghost function Dropped(l: Ledger, steps: seq<Step>): multiset<Key>
    requires Enables(l, steps)
    decreases |steps|
  {
    if steps == [] then multiset{} else DroppedBy(l, steps[0]) + Dropped(Apply(l, steps[0]), steps[1..])
  }

  ghost function Lost(l: Ledger, steps: seq<Step>): multiset<Key>
    requires Enables(l, steps)
    decreases |steps|
  {
    if steps == [] then multiset{} else LostBy(l, steps[0]) + Lost(Apply(l, steps[0]), steps[1..])
  }

  ghost function Erased(l: Ledger, steps: seq<Step>, s: Slot): nat
    requires Enables(l, steps)
    decreases |steps|
  {
    if steps == [] then 0 else ErasedBy(l, steps[0], s) + Erased(Apply(l, steps[0]), steps[1..], s)
  }

  /** A flush that ends takes its batch out of those in flight. */
  lemma EndedBatch(l: Ledger, i: nat, s: Slot)
    requires i < |l.inFlight|
    ensures CountAt(Together(l.inFlight), s) == CountAt(l.inFlight[i], s) + CountAt(Together(Without(l.inFlight, i)), s)
  {
    TogetherWithout(l.inFlight, i);
    CountAtUnion(l.inFlight[i], Together(Without(l.inFlight, i)), s);
  }

  /** What is held, with what a step counts, is what is held after it, with what the trace says is gone. */
  ghost predicate Balances(l: Ledger, step: Step, s: Slot)
    requires Enabled(l, step)
  {
    Held(l, s) + CountAt(CountedBy(step), s) ==
    Held(Apply(l, step), s) + CountAt(DroppedBy(l, step), s) + CountAt(LostBy(l, step), s) + ErasedBy(l, step, s)
  }

  lemma CountConserves(l: Ledger, step: Step, s: Slot)
    requires Enabled(l, step) && (step.CountOne? || step.BeginFlush?)
    ensures Balances(l, step, s)
  {
    if step.CountOne? {
      CountAtUnion(l.pending, multiset{step.key}, s);
    } else {
      TogetherAppend(l.inFlight, l.pending);
      CountAtUnion(Together(l.inFlight), l.pending, s);
    }
  }

  lemma CommitConserves(l: Ledger, step: Step, s: Slot)
    requires Enabled(l, step) && step.CommitFlush?
    ensures Balances(l, step, s)
  {
    var batch := l.inFlight[step.i];
    EndedBatch(l, step.i, s);
    RequestsAdded(l.table, step.entries, s);
    assert batch == step.kept + (batch - step.kept);
    CountAtUnion(step.kept, batch - step.kept, s);
  }

  lemma EndedFlushHolds(l: Ledger, step: Step, s: Slot)
    requires Enabled(l, step) && (step.FailFlush? || step.CancelFlush?)
    ensures Held(l, s) == Held(Apply(l, step), s) + CountAt(LostBy(l, step), s)
  {
    EndedBatch(l, step.i, s);
    CountAtUnion(l.pending, l.inFlight[step.i], s);
    NoneAt(s);
  }

  lemma NoneAt(s: Slot)
    ensures CountAt(multiset{}, s) == 0
  {
  }

  lemma EndedFlushConserves(l: Ledger, step: Step, s: Slot)
    requires Enabled(l, step) && (step.FailFlush? || step.CancelFlush?)
    ensures Balances(l, step, s)
  {
    EndedFlushHolds(l, step, s);
    NoneAt(s);
  }

  lemma TableConserves(l: Ledger, step: Step, s: Slot)
    requires Enabled(l, step) && (step.RecordUsage? || step.DeleteAccount?)
    ensures Balances(l, step, s)
  {
  }

  /** Every step moves requests from one place to another, counts one, or takes out exactly what the trace says is gone. */
  lemma StepConserves(l: Ledger, step: Step, s: Slot)
    requires Enabled(l, step)
    ensures Balances(l, step, s)
  {
    if step.CommitFlush? {
      CommitConserves(l, step, s);
    } else if step.FailFlush? || step.CancelFlush? {
      EndedFlushConserves(l, step, s);
    } else if step.CountOne? || step.BeginFlush? {
      CountConserves(l, step, s);
    } else {
      TableConserves(l, step, s);
    }
  }

  lemma {:induction false} RunConserves(l: Ledger, steps: seq<Step>, s: Slot)
    requires Enables(l, steps)
    ensures Held(l, s) + CountAt(Counted(steps), s) ==
            Held(Run(l, steps), s) + CountAt(Dropped(l, steps), s) + CountAt(Lost(l, steps), s) + Erased(l, steps, s)
    decreases |steps|
  {
    if steps != [] {
      var step, rest := steps[0], steps[1..];
      var next := Apply(l, step);
      StepConserves(l, step, s);
      RunConserves(next, rest, s);
      CountAtUnion(CountedBy(step), Counted(rest), s);
      CountAtUnion(DroppedBy(l, step), Dropped(next, rest), s);
      CountAtUnion(LostBy(l, step), Lost(next, rest), s);
    }
  }

  /**
    Per agent and hour, over every interleaving of counting, flushing, failing, cancelling, recording and deleting:
    a counted request is waiting, in flight or stored, unless it was dropped with its account at a commit, lost with
    the batch of a flush that was cancelled or could not roll back, or erased with its account's rows.
   */
  lemma {:induction false} RequestsConserved(steps: seq<Step>, s: Slot)
    requires Enables(Start, steps)
    ensures CountAt(Counted(steps), s) ==
            Held(Run(Start, steps), s)
            + CountAt(Dropped(Start, steps), s) + CountAt(Lost(Start, steps), s) + Erased(Start, steps, s)
  {
    RunConserves(Start, steps, s);
  }

  lemma CountAtPositive(m: multiset<Key>, k: Key)
    requires k in m
    ensures CountAt(m, SlotOf(k)) > 0
  {
    CountAtRemove(m, SlotOf(k), k);
  }

  /** A flush that does not commit keeps every request exactly when its exception is handled and its rollback succeeds. */
  lemma FailedFlushRestoresIff(l: Ledger, step: Step)
    requires Enabled(l, step) && (step.FailFlush? || step.CancelFlush?)
    ensures (forall s :: Held(Apply(l, step), s) == Held(l, s)) <==>
            (step.FailFlush? && !step.rollbackRaises) || l.inFlight[step.i] == multiset{}
  {
    forall s: Slot ensures Held(l, s) == Held(Apply(l, step), s) + CountAt(LostBy(l, step), s) {
      EndedFlushHolds(l, step, s);
    }
    if LostBy(l, step) != multiset{} {
      var k :| k in LostBy(l, step);
      CountAtPositive(LostBy(l, step), k);
      assert Held(Apply(l, step), SlotOf(k)) != Held(l, SlotOf(k));
    }
  }

  /** Only requests of accounts missing at a commit are dropped. */
  lemma {:induction false} DroppedAccountsWereMissing(l: Ledger, steps: seq<Step>, user: string)
    requires Enables(l, steps)
    requires forall i :: 0 <= i < |steps| && steps[i].CommitFlush? ==> user in steps[i].existing
    ensures forall k :: k in Dropped(l, steps) ==> k.user != user
    decreases |steps|
  {
    if steps != [] {
      DroppedAccountsWereMissing(Apply(l, steps[0]), steps[1..], user);
    }
  }

  // ---------- Buckets refine the log ----------

  /** What the log's entries in one slot add up to. */
  ghost function SumAt(log: seq<Entry>, s: Slot): Amounts {
    if log == [] then Nothing
    else
      var e := log[|log| - 1];
      if EntrySlot(e) == s then Add(SumAt(log[..|log| - 1], s), e.amounts) else SumAt(log[..|log| - 1], s)
  }

  /** No agent changes hands: every entry of an agent is its owner's. */
  ghost predicate Owned(log: seq<Entry>, owner: string -> string) {
    forall i :: 0 <= i < |log| ==> log[i].user == owner(log[i].agent)
  }

  ghost predicate Touched(log: seq<Entry>, s: Slot) {
    exists i :: 0 <= i < |log| && EntrySlot(log[i]) == s
  }

  lemma {:induction false} BucketIsSum(log: seq<Entry>, owner: string -> string, s: Slot)
    requires Owned(log, owner)
    ensures s in TableOf(log) <==> Touched(log, s)
    ensures s in TableOf(log) ==> TableOf(log)[s] == Row(owner(s.agent), SumAt(log, s))
    ensures s !in TableOf(log) ==> SumAt(log, s) == Nothing
  {
    if log != [] {
      var n := |log| - 1;
      var past, e := log[..n], log[n];
      BucketIsSum(past, owner, s);
      assert Touched(log, s) <==> Touched(past, s) || EntrySlot(e) == s by {
        if Touched(past, s) {
          var i :| 0 <= i < n && EntrySlot(past[i]) == s;
          assert EntrySlot(log[i]) == s;
        }
        if Touched(log, s) {
          var i :| 0 <= i <= n && EntrySlot(log[i]) == s;
          assert i < n ==> EntrySlot(past[i]) == s;
        }
      }
    }
  }

  /** A bucket's owner is the first to write to it, whoever writes to it later. */
  lemma {:induction false} BucketKeepsItsOwner(log: seq<Entry>, i: nat)
    requires i < |log| && forall j :: 0 <= j < i ==> EntrySlot(log[j]) != EntrySlot(log[i])
    ensures EntrySlot(log[i]) in TableOf(log) && TableOf(log)[EntrySlot(log[i])].user == log[i].user
  {
    var n := |log| - 1;
    if i < n {
      BucketKeepsItsOwner(log[..n], i);
    } else {
      NoEntryNoBucket(log[..n], EntrySlot(log[n]));
    }
  }

  lemma {:induction false} NoEntryNoBucket(log: seq<Entry>, s: Slot)
    requires forall j :: 0 <= j < |log| ==> EntrySlot(log[j]) != s
    ensures s !in TableOf(log)
  {
    if log != [] {
      NoEntryNoBucket(log[..|log| - 1], s);
    }
  }

  lemma {:induction false} SumAtWithout(log: seq<Entry>, i: nat, s: Slot)
    requires i < |log|
    ensures SumAt(log, s) == if EntrySlot(log[i]) == s then Add(SumAt(Without(log, i), s), log[i].amounts)
                             else SumAt(Without(log, i), s)
  {
    var n := |log| - 1;
    if i < n {
      assert Without(log, i)[..n - 1] == Without(log[..n], i);
      SumAtWithout(log[..n], i, s);
    } else {
      assert Without(log, n) == log[..n];
    }
  }

  lemma WithoutMultiset(log: seq<Entry>, i: nat)
    requires i < |log|
    ensures multiset(Without(log, i)) == multiset(log) - multiset{log[i]}
  {
    assert log == log[..i] + [log[i]] + log[i + 1..];
    assert multiset(log) == multiset(log[..i]) + multiset{log[i]} + multiset(log[i + 1..]);
  }

  /** The last entry of one order is somewhere in the other; the rest are the same entries again. */
  lemma MatchLast(a: seq<Entry>, b: seq<Entry>) returns (i: nat)
    requires a != [] && multiset(a) == multiset(b)
    ensures i < |b| && b[i] == a[|a| - 1] && multiset(a[..|a| - 1]) == multiset(Without(b, i))
  {
    var n := |a| - 1;
    assert a[n] in multiset(b);
    i :| 0 <= i < |b| && b[i] == a[n];
    WithoutMultiset(a, n);
    WithoutMultiset(b, i);
    assert Without(a, n) == a[..n];
  }

  lemma {:induction false} SumAtPermutation(a: seq<Entry>, b: seq<Entry>, s: Slot)
    requires multiset(a) == multiset(b)
    ensures SumAt(a, s) == SumAt(b, s)
    decreases |a|
  {
    if a == [] {
      assert |multiset(b)| == 0;
    } else {
      var i := MatchLast(a, b);
      SumAtPermutation(a[..|a| - 1], Without(b, i), s);
      SumAtWithout(b, i, s);
    }
  }

  /** Whatever the order in which `record` and `flush_requests` write, the table is the same. */
  lemma InterleavingsAgree(a: seq<Entry>, b: seq<Entry>, owner: string -> string)
    requires multiset(a) == multiset(b) && Owned(a, owner) && Owned(b, owner)
    ensures TableOf(a) == TableOf(b)
  {
    forall s: Slot
      ensures s in TableOf(a) <==> s in TableOf(b)
      ensures s in TableOf(a) ==> TableOf(a)[s] == TableOf(b)[s]
    {
      BucketIsSum(a, owner, s);
      BucketIsSum(b, owner, s);
      SumAtPermutation(a, b, s);
      if Touched(a, s) {
        var i :| 0 <= i < |a| && EntrySlot(a[i]) == s;
        assert a[i] in multiset(a) && a[i] in multiset(b);
      }
      if Touched(b, s) {
        var i :| 0 <= i < |b| && EntrySlot(b[i]) == s;
        assert b[i] in multiset(b) && b[i] in multiset(a);
      }
    }
  }

  datatype Measure = ReplicaSeconds | VcpuSeconds | MemoryMbSeconds | Requests

  function Amount(a: Amounts, m: Measure): real {
    match m
    case ReplicaSeconds => a.replicaSeconds
    case VcpuSeconds => a.vcpuSeconds
    case MemoryMbSeconds => a.memoryMbSeconds
    case Requests => a.requests as real
  }

  predicate Within(t: real, start: real, end: Option<real>) {
    start <= t && (end.None? || t < end.value)
  }

  function RowWeight(user: string, start: real, end: Option<real>, m: Measure): (Slot, Row) -> real {
    (s: Slot, r: Row) => if r.user == user && Within(HourStart(s.hour), start, end) then Amount(r.amounts, m) else 0.0
  }

  /** The sums `period_totals` selects, before they are rounded for display. */
  ghost function PeriodTotal(t: UsageTable, user: string, start: real, end: Option<real>, m: Measure): real {
    Sum(t, RowWeight(user, start, end, m))
  }

  /** The same totals from the raw entries and their own instants. */
  ghost function LogTotal(log: seq<Entry>, user: string, start: real, end: Option<real>, m: Measure): real {
    if log == [] then 0.0
    else
      var e := log[|log| - 1];
      LogTotal(log[..|log| - 1], user, start, end, m)
      + (if e.user == user && Within(e.at, start, end) then Amount(e.amounts, m) else 0.0)
  }

  predicate OnTheHour(t: real) {
    t == HourStart(HourOf(t))
  }

  /** `month_start`: midnight UTC, `dayOfMonth - 1` days before the day of `now`. */
  function MonthStart(now: real, dayOfMonth: int): real {
    ((now / 86400.0).Floor - (dayOfMonth - 1)) as real * 86400.0
  }

  /** In the day that `now` falls in, counted from the epoch: the midnight that many days before it, less one. */
  lemma MonthStartCountsDays(now: real, dayOfMonth: int, day: int)
    requires day as real * 86400.0 <= now < (day + 1) as real * 86400.0
    ensures MonthStart(now, dayOfMonth) == (day - dayOfMonth + 1) as real * 86400.0
    ensures MonthStart(now, dayOfMonth) + (dayOfMonth - 1) as real * 86400.0 <= now
    ensures now < MonthStart(now, dayOfMonth) + dayOfMonth as real * 86400.0
  {
    DayOf(now, day);
    assert (day - dayOfMonth + 1) as real == day as real - (dayOfMonth as real - 1.0);
  }

  lemma DayOf(now: real, day: int)
    requires day as real * 86400.0 <= now < (day + 1) as real * 86400.0
    ensures (now / 86400.0).Floor == day
  {
    var q := now / 86400.0;
    assert q * 86400.0 == now && (day + 1) as real == day as real + 1.0;
    assert day as real <= q < day as real + 1.0;
  }

  lemma MonthStartIsOnTheHour(now: real, dayOfMonth: int)
    ensures OnTheHour(MonthStart(now, dayOfMonth))
  {
    var days := (now / 86400.0).Floor - (dayOfMonth - 1);
    assert MonthStart(now, dayOfMonth) == HourStart(24 * days);
    HourOfHourStart(24 * days);
  }

  /** On an hour-aligned bound, testing the bucket's start is testing the instant. */
  lemma HourAlignedBound(at: real, bound: real)
    requires OnTheHour(bound)
    ensures HourStart(HourOf(at)) >= bound <==> at >= bound
  {
  }

  /** Hour-aligned periods lose nothing to the buckets: table totals equal log totals. */
  lemma {:induction false} TotalsRefineLog(
      log: seq<Entry>, owner: string -> string, user: string, start: real, end: Option<real>, m: Measure)
    requires Owned(log, owner) && OnTheHour(start) && (end.Some? ==> OnTheHour(end.value))
    ensures PeriodTotal(TableOf(log), user, start, end, m) == LogTotal(log, user, start, end, m)
  {
    if log != [] {
      var n := |log| - 1;
      var past, e := log[..n], log[n];
      var s := EntrySlot(e);
      TotalsRefineLog(past, owner, user, start, end, m);
      BucketIsSum(past, owner, s);
      SumUpdate(TableOf(past), RowWeight(user, start, end, m), s, TableOf(log)[s]);
      HourAlignedBound(e.at, start);
      if end.Some? {
        HourAlignedBound(e.at, end.value);
      }
      assert Within(HourStart(s.hour), start, end) <==> Within(e.at, start, end);
      assert TableOf(log) == TableOf(past)[s := TableOf(log)[s]];
      var w := RowWeight(user, start, end, m);
      var gain := if e.user == user && Within(e.at, start, end) then Amount(e.amounts, m) else 0.0;
      if s in TableOf(past) {
        assert e.user == owner(s.agent) == TableOf(past)[s].user;
        assert TableOf(log)[s] == Row(e.user, Add(TableOf(past)[s].amounts, e.amounts));
        assert w(s, TableOf(log)[s]) == w(s, TableOf(past)[s]) + gain;
      }
      assert s !in TableOf(past) ==> w(s, TableOf(log)[s]) == gain;
    }
  }

  /** So the month's totals, which the usage endpoint reports, are those of the raw log since the month began. */
  lemma MonthTotalsRefineLog(
      log: seq<Entry>, owner: string -> string, user: string, now: real, dayOfMonth: int, m: Measure)
    requires Owned(log, owner)
    ensures PeriodTotal(TableOf(log), user, MonthStart(now, dayOfMonth), None, m) ==
            LogTotal(log, user, MonthStart(now, dayOfMonth), None, m)
  {
    MonthStartIsOnTheHour(now, dayOfMonth);
    TotalsRefineLog(log, owner, user, MonthStart(now, dayOfMonth), None, m);
  }

  /** Adjacent hour-aligned periods add up. */
  lemma PeriodsAddUp(
      log: seq<Entry>, owner: string -> string, user: string, start: real, mid: real, end: Option<real>, m: Measure)
    requires Owned(log, owner) && OnTheHour(start) && OnTheHour(mid) && (end.Some? ==> OnTheHour(end.value))
    requires start <= mid && (end.Some? ==> mid <= end.value)
    ensures PeriodTotal(TableOf(log), user, start, end, m) ==
            PeriodTotal(TableOf(log), user, start, Some(mid), m) + PeriodTotal(TableOf(log), user, mid, end, m)
  {
    TotalsRefineLog(log, owner, user, start, end, m);
    TotalsRefineLog(log, owner, user, start, Some(mid), m);
    TotalsRefineLog(log, owner, user, mid, end, m);
    LogTotalsSplit(log, user, start, mid, end, m);
  }

  lemma {:induction false} LogTotalsSplit(
      log: seq<Entry>, user: string, start: real, mid: real, end: Option<real>, m: Measure)
    requires start <= mid && (end.Some? ==> mid <= end.value)
    ensures LogTotal(log, user, start, end, m) ==
            LogTotal(log, user, start, Some(mid), m) + LogTotal(log, user, mid, end, m)
  {
    if log != [] {
      LogTotalsSplit(log[..|log| - 1], user, start, mid, end, m);
    }
  }
}
