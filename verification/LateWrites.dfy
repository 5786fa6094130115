/**
  Webhook events that wait for Stripe (services/billing_service.py): a created or updated event is applied from the
  subscription as fetched, and anything may happen between the fetch and the write.
 */
module LateWrites {
  import opened Basics
  import opened Billing

  /** The billing state and the events whose subscription has been fetched but not yet written. */
  datatype Desk = Desk(st: State, fetched: seq<Event>)

  /** `Whole` is a step without a gap; the other two are the halves of a delivery. */
  datatype Move = Whole(step: Step) | Fetch(event: Event) | Write(i: nat)

  /** Events that are applied from a fetched subscription. */
  predicate Fetches(e: Event) {
    e.kind == "customer.subscription.created" || e.kind == "customer.subscription.updated"
  }

  /** Stripe still holds the subscription as it was fetched. */
  predicate StillCurrent(stripe: Stripe, o: Object) {
    o.id.Some? && o.id.value in stripe && stripe[o.id.value] == Told(o)
  }

  /** Applying a fetched event; it counts as news of its subscription only if Stripe has not changed that since. */
  ghost function WriteStep(st: State, e: Event): State {
    var out := Handle(st.users, e, None);
    if out.Raised? then st
    else
      st.(users := out.users,
          synced := if Truthy(e.obj.id) && StillCurrent(st.stripe, e.obj) then st.synced + {e.obj.id.value} else st.synced)
  }

  ghost function Advance(d: Desk, m: Move): Desk {
    match m
    case Whole(step) => d.(st := Next(d.st, step))
    case Fetch(e) =>
      var current := Current(e.obj, Some(d.st.stripe));
      if current.None? then d else d.(fetched := d.fetched + [e.(obj := current.value)])
    case Write(i) =>
      if i >= |d.fetched| then d
      else Desk(WriteStep(d.st, d.fetched[i]), d.fetched[..i] + d.fetched[i + 1..])
  }

  /** With nothing between its halves, a delivery is the step without a gap. */
  lemma NoGapIsDelivery(d: Desk, e: Event)
    requires Fetches(e) && e.obj.id.Some? && e.obj.id.value != "" && e.obj.id.value in d.st.stripe
    ensures Advance(Advance(d, Fetch(e)), Write(|d.fetched|)) == d.(st := Next(d.st, Deliver(e)))
  {
    var current := Current(e.obj, Some(d.st.stripe)).value;
    var fetched := d.fetched + [e.(obj := current)];
    assert fetched[..|d.fetched|] + fetched[|d.fetched| + 1..] == d.fetched;
    FetchIsHandled(d.st, e);
  }

  lemma FetchIsHandled(st: State, e: Event)
    requires Fetches(e) && e.obj.id.Some? && e.obj.id.value != "" && e.obj.id.value in st.stripe
    ensures var o := Current(e.obj, Some(st.stripe)).value;
            && Handle(st.users, e.(obj := o), None) == Handle(st.users, e, Some(st.stripe))
            && StillCurrent(st.stripe, o) && o.id == e.obj.id && Subject(st, e) == e.obj.id
  {
    FetchedKinds(e);
  }

  lemma FetchedKinds(e: Event)
    requires Fetches(e)
    ensures SubscriptionKind(e.kind) && !Checkout(e) && e.kind != "customer.subscription.deleted"
  {
    assert "customer.subscription.created"[22] == 'c';
    assert "customer.subscription.updated"[22] == 'u' && "customer.subscription.deleted"[22] == 'd';
    assert "customer.subscription.updated"[1] == 'u' && "customer.subscription.created"[1] == 'u';
    assert "checkout.session.completed"[1] == 'h';
  }

  // ---------- Exactly when a late write is right ----------

  /** What a fetched event keeps of its fetch: a subscription Stripe holds, and whose it is. */
  ghost predicate Genuine(st: State, customers: map<string, string>, e: Event) {
    && Fetches(e) && e.obj.id.Some? && e.obj.id.value in st.stripe
    && Belongs(st, customers, Told(e.obj)) && SameOwner(st.users, st.stripe[e.obj.id.value], Told(e.obj))
  }

  /**
    News that a subscription is not paid may be written unless a later event has settled that it is paid.  News that
    it is paid may be written if it is paid now, or if events are still to come about it and about any paid one of the
    same user.
   */
  ghost predicate WriteFits(st: State, o: Object)
    requires o.id.Some? && o.id.value in st.stripe
  {
    var now := st.stripe[o.id.value];
    if Paid(o.status) then
      || Paid(now.status)
      || (&& o.id.value !in st.synced
          && forall t, u :: t in st.stripe && t in st.synced && PaidBy(st.users, st.stripe[t], u) ==> !BelongsTo(st.users, now, u))
    else Paid(now.status) ==> o.id.value !in st.synced
  }

  /** The row a late write leaves. */
  lemma WriteRow(st: State, customers: map<string, string>, e: Event) returns (u: string, id: string, row: User)
    requires Invariant(st, customers) && Genuine(st, customers, e)
    ensures e.obj.id == Some(id) && u in st.users && id != "" && BelongsTo(st.users, st.stripe[id], u)
    ensures if Superseded(st.users[u], Some(id), e.obj.status) then row == st.users[u]
            else row.subscription == Some(id) && row.status == e.obj.status && InStep(row)
    ensures KeepsCustomer(st, customers, u, row)
    ensures WriteStep(st, e) ==
            st.(users := st.users[u := row], synced := st.synced + if StillCurrent(st.stripe, e.obj) then {id} else {})
  {
    id, u := e.obj.id.value, OwnerOf(st, customers, Told(e.obj));
    FetchedKinds(e);
    OwnerIsFound(st, customers, Told(e.obj), u);
    assert BelongsTo(st.users, Told(e.obj), u);
    row := if Superseded(st.users[u], e.obj.id, e.obj.status) then st.users[u]
           else AfterSubscription(st.users[u], e.obj.id, e.obj.status, e.obj.customer);
    SaveSucceeds(st, customers, u, row);
    assert st.users[u := st.users[u]] == st.users && st.synced + {} == st.synced;
  }

  /** A row that takes an old status is good about the settled subscriptions exactly if the status fits. */
  lemma LateRowGoodIff(st: State, customers: map<string, string>, o: Object, u: string, id: string, row: User)
    requires Invariant(st, customers) && id in st.stripe && u in st.users && o.id == Some(id) && id != ""
    requires BelongsTo(st.users, st.stripe[id], u) && KeepsCustomer(st, customers, u, row)
    requires if Superseded(st.users[u], Some(id), o.status) then row == st.users[u]
             else row.subscription == Some(id) && row.status == o.status && InStep(row)
    ensures Good(st.(users := st.users[u := row]), u) <==> WriteFits(st, o)
  {
    assert Good(st, u);
    var next := st.(users := st.users[u := row]);
    RowKeepsWellFormed(st, customers, u, row);
    OwnerIsFound(st, customers, st.stripe[id], OwnerOf(st, customers, st.stripe[id]));
    if Paid(o.status) {
      PaidNewsGoodIff(st, customers, o, u, id, row);
    } else if row.subscription == Some(id) && id in st.synced {
      assert Good(next, u) ==> !Paid(st.stripe[id].status);
    }
  }

  lemma PaidNewsGoodIff(st: State, customers: map<string, string>, o: Object, u: string, id: string, row: User)
    requires Invariant(st, customers) && id in st.stripe && u in st.users && o.id == Some(id) && Paid(o.status)
    requires forall v :: BelongsTo(st.users, st.stripe[id], v) <==> v == u
    requires forall s :: s in st.stripe ==> SameOwners(st.users, st.users[u := row], st.stripe[s])
    requires row.subscription == Some(id) && row.status == o.status && InStep(row)
    ensures Good(st.(users := st.users[u := row]), u) <==> WriteFits(st, o)
  {
    var next := st.(users := st.users[u := row]);
    assert BelongsTo(next.users, next.stripe[id], u);
    if WriteFits(st, o) {
      forall t | t in next.stripe && t in next.synced && PaidBy(next.users, next.stripe[t], u) ensures t == id {
        assert BelongsTo(st.users, st.stripe[t], u);
        assert PaidBy(st.users, st.stripe[t], u) && BelongsTo(st.users, st.stripe[id], u);
        if Paid(st.stripe[id].status) {
          assert PaidBy(st.users, st.stripe[id], u);
        }
      }
    } else if id !in st.synced {
      var t, v :| t in st.stripe && t in st.synced && PaidBy(st.users, st.stripe[t], v) && BelongsTo(st.users, st.stripe[id], v);
      assert BelongsTo(next.users, next.stripe[t], u);
      assert PaidBy(next.users, next.stripe[t], u);
    }
  }

  /** A write keeps every row right about the settled subscriptions exactly when it fits, however late it comes. */
  lemma WriteKeepsIff(st: State, customers: map<string, string>, e: Event)
    requires Invariant(st, customers) && Genuine(st, customers, e)
    ensures Invariant(WriteStep(st, e), customers) <==> WriteFits(st, e.obj)
  {
    var u, id, row := WriteRow(st, customers, e);
    if StillCurrent(st.stripe, e.obj) {
      SubscriptionIsGood(st, customers, u, id, row);
      RowKeepsIff(st, customers, u, row, st.synced + {id});
    } else {
      LateRowGoodIff(st, customers, e.obj, u, id, row);
      RowKeepsIff(st, customers, u, row, st.synced);
      assert st.synced + {} == st.synced;
    }
  }

  /** As long as Stripe has not changed the subscription, its write fits. */
  lemma CurrentWriteFits(st: State, o: Object)
    requires StillCurrent(st.stripe, o)
    ensures WriteFits(st, o)
  {
  }

  /**
    As for the plan itself: with everything settled, a late write of a paid status leaves it right exactly when the
    user pays for something, and one of an unpaid status exactly when the subscription is not paid.
   */
  lemma WritePlanIff(st: State, customers: map<string, string>, e: Event, u: string)
    requires Invariant(st, customers) && AllSynced(st) && Genuine(st, customers, e)
    requires BelongsTo(st.users, st.stripe[e.obj.id.value], u)
    ensures u in WriteStep(st, e).users
    ensures PlanRight(WriteStep(st, e), u) <==>
            if Paid(e.obj.status) then Pays(st, u) else !Paid(st.stripe[e.obj.id.value].status)
  {
    var v, id, row := WriteRow(st, customers, e);
    OwnerIsFound(st, customers, st.stripe[id], OwnerOf(st, customers, st.stripe[id]));
    SyncedPlanIsRight(st, customers, u);
    assert Good(st, u);
    RowKeepsWellFormed(st, customers, u, row);
    PaysAlike(st, WriteStep(st, e), u);
    if Paid(st.stripe[id].status) {
      assert PaidBy(st.users, st.stripe[id], u);
    }
  }

  // ---------- Convergence ----------

  /** What a run assumes: of Stripe as before, of an event that something is fetched for it, and of a write that it fits. */
  ghost predicate HonestMove(d: Desk, customers: map<string, string>, m: Move) {
    match m
    case Whole(step) => Honest(d.st, customers, step)
    case Fetch(e) => Fetches(e) && Honest(d.st, customers, Deliver(e))
    case Write(i) => i < |d.fetched| && d.fetched[i].obj.id.Some? && d.fetched[i].obj.id.value in d.st.stripe
                     && WriteFits(d.st, d.fetched[i].obj)
  }

  ghost predicate DeskInvariant(d: Desk, customers: map<string, string>) {
    && Invariant(d.st, customers)
    && forall i :: 0 <= i < |d.fetched| ==> Genuine(d.st, customers, d.fetched[i])
  }

  lemma GenuineStays(st: State, customers: map<string, string>, step: Step, e: Event)
    requires Invariant(st, customers) && Genuine(st, customers, e) && Honest(st, customers, step)
    ensures Genuine(Next(st, step), customers, e)
  {
    match step
    case Change(id, to) =>
      assert Next(st, step).users == st.users;
    case Deliver(d) =>
      if Checkout(d) {
        if Buyer(st, d).Some? {
          var u, row, synced := CheckoutRow(st, customers, d);
          GenuineThroughRow(st, customers, u, row, synced, e);
        }
      } else if SubscriptionKind(d.kind) {
        var u, id, row := SubscriptionRow(st, customers, d);
        GenuineThroughRow(st, customers, u, row, st.synced + {id}, e);
      }
    case OpenAccount(u, customer) =>
      if u in st.users && !Truthy(st.users[u].customer) {
        GenuineThroughRow(st, customers, u, st.users[u].(customer := Some(customer)), st.synced, e);
      }
  }

  lemma GenuineThroughRow(st: State, customers: map<string, string>, u: string, row: User, synced: set<string>, e: Event)
    requires WellFormed(st, customers) && Genuine(st, customers, e) && u in st.users && KeepsCustomer(st, customers, u, row)
    ensures Genuine(st.(users := st.users[u := row], synced := synced), customers, e)
  {
    BelongingStays(st, customers, u, row, Told(e.obj));
    BelongingStays(st, customers, u, row, st.stripe[e.obj.id.value]);
    var users, now, told := st.users[u := row], st.stripe[e.obj.id.value], Told(e.obj);
    forall v ensures BelongsTo(users, now, v) <==> BelongsTo(users, told, v) {
      assert BelongsTo(st.users, now, v) <==> BelongsTo(st.users, told, v);
    }
  }

  lemma FetchIsGenuine(st: State, customers: map<string, string>, e: Event)
    requires Invariant(st, customers) && Fetches(e) && Honest(st, customers, Deliver(e))
    ensures Current(e.obj, Some(st.stripe)).Some?
    ensures Genuine(st, customers, e.(obj := Current(e.obj, Some(st.stripe)).value))
  {
    FetchedKinds(e);
    assert Belongs(st, customers, st.stripe[e.obj.id.value]);
  }

  lemma WholeKeeps(d: Desk, customers: map<string, string>, step: Step)
    requires DeskInvariant(d, customers) && Honest(d.st, customers, step)
    ensures DeskInvariant(d.(st := Next(d.st, step)), customers)
  {
    StepKeeps(d.st, customers, step);
    forall i | 0 <= i < |d.fetched| ensures Genuine(Next(d.st, step), customers, d.fetched[i]) {
      GenuineStays(d.st, customers, step, d.fetched[i]);
    }
  }

  /** A write leaves what else was fetched genuine. */
  lemma RestStaysGenuine(st: State, after: State, customers: map<string, string>, fetched: seq<Event>, i: nat)
    requires i < |fetched| && forall j :: 0 <= j < |fetched| ==> Genuine(st, customers, fetched[j])
    requires forall e :: Genuine(st, customers, e) ==> Genuine(after, customers, e)
    ensures var rest := fetched[..i] + fetched[i + 1..];
            forall j :: 0 <= j < |rest| ==> Genuine(after, customers, rest[j])
  {
    var rest := fetched[..i] + fetched[i + 1..];
    forall j | 0 <= j < |rest| ensures Genuine(after, customers, rest[j]) {
      assert rest[j] == fetched[if j < i then j else j + 1];
    }
  }

  lemma WriteStaysGenuine(st: State, customers: map<string, string>, written: Event, e: Event)
    requires Invariant(st, customers) && Genuine(st, customers, written) && Genuine(st, customers, e)
    ensures Genuine(WriteStep(st, written), customers, e)
  {
    var u, id, row := WriteRow(st, customers, written);
    GenuineThroughRow(st, customers, u, row, WriteStep(st, written).synced, e);
  }

  lemma WriteKeepsUsers(st: State, customers: map<string, string>, e: Event)
    requires Invariant(st, customers) && Genuine(st, customers, e)
    ensures WriteStep(st, e).users.Keys == st.users.Keys
  {
    var u, id, row := WriteRow(st, customers, e);
  }

  lemma WriteKeeps(d: Desk, customers: map<string, string>, i: nat)
    requires DeskInvariant(d, customers) && HonestMove(d, customers, Write(i))
    ensures DeskInvariant(Advance(d, Write(i)), customers)
    ensures Advance(d, Write(i)).st.users.Keys == d.st.users.Keys
  {
    var after := WriteStep(d.st, d.fetched[i]);
    WriteKeepsIff(d.st, customers, d.fetched[i]);
    forall e | Genuine(d.st, customers, e) ensures Genuine(after, customers, e) {
      WriteStaysGenuine(d.st, customers, d.fetched[i], e);
    }
    WriteKeepsUsers(d.st, customers, d.fetched[i]);
    RestStaysGenuine(d.st, after, customers, d.fetched, i);
  }

  lemma MoveKeeps(d: Desk, customers: map<string, string>, m: Move)
    requires DeskInvariant(d, customers) && HonestMove(d, customers, m)
    ensures DeskInvariant(Advance(d, m), customers)
    ensures Advance(d, m).st.users.Keys == d.st.users.Keys
  {
    match m
    case Whole(step) =>
      WholeKeeps(d, customers, step);
      NoUserComesOrGoes(d.st, step);
    case Fetch(e) => FetchIsGenuine(d.st, customers, e);
    case Write(i) => WriteKeeps(d, customers, i);
  }

  ghost predicate HonestMoves(d: Desk, customers: map<string, string>, moves: seq<Move>)
    decreases |moves|
  {
    moves == [] || (HonestMove(d, customers, moves[0]) && HonestMoves(Advance(d, moves[0]), customers, moves[1..]))
  }

  ghost function AfterMoves(d: Desk, moves: seq<Move>): Desk
    decreases |moves|
  {
    if moves == [] then d else AfterMoves(Advance(d, moves[0]), moves[1..])
  }

  lemma {:induction false} MovesKeep(d: Desk, customers: map<string, string>, moves: seq<Move>)
    requires DeskInvariant(d, customers) && HonestMoves(d, customers, moves)
    ensures DeskInvariant(AfterMoves(d, moves), customers)
    ensures AfterMoves(d, moves).st.users.Keys == d.st.users.Keys
    decreases |moves|
  {
    if moves != [] {
      MoveKeeps(d, customers, moves[0]);
      MovesKeep(Advance(d, moves[0]), customers, moves[1..]);
    }
  }

  /**
    Billing converges with any number of fetched events under way, written in any order, as long as each write fits:
    once all is settled, a user is on pro exactly when some subscription of theirs is paid.
   */
  lemma LateBillingConverges(users: Users, customers: map<string, string>, moves: seq<Move>, u: string)
    requires Unbilled(users, customers) && u in users
    requires HonestMoves(Desk(State(users, map[], {}), []), customers, moves)
    ensures var end := AfterMoves(Desk(State(users, map[], {}), []), moves).st;
            u in end.users && (AllSynced(end) ==> PlanRight(end, u))
  {
    var start := Desk(State(users, map[], {}), []);
    MovesKeep(start, customers, moves);
    if AllSynced(AfterMoves(start, moves).st) {
      SyncedPlanIsRight(AfterMoves(start, moves).st, customers, u);
    }
  }

  // ---------- A run in which a write does not fit ----------

  const Incomplete := Sub("incomplete")
  const Early :=
    SubscriptionEvent("updated", "A").(obj := Object(Some("A"), None, Some("incomplete"), Some("u"), None, None, None, None))

  /** The early event is fetched while the first payment is pending, which then goes through and is told of. */
  lemma PaymentGoesThrough()
    ensures var d := Desk(Lone(Newcomer, map["A" := Incomplete], {}), []);
            var moves := [Fetch(SubscriptionEvent("updated", "A")), Whole(Change("A", Sub("active"))),
                          Whole(Deliver(SubscriptionEvent("updated", "A")))];
            && HonestMoves(d, map[], moves)
            && AfterMoves(d, moves) == Desk(Lone(Subscriber, map["A" := Sub("active")], {"A"}), [Early])
  {
    var e := SubscriptionEvent("updated", "A");
    var d := Desk(Lone(Newcomer, map["A" := Incomplete], {}), []);
    var d1 := Desk(d.st, [Early]);
    var d2 := Desk(Lone(Newcomer, map["A" := Sub("active")], {}), [Early]);
    var d3 := Desk(Lone(Subscriber, map["A" := Sub("active")], {"A"}), [Early]);
    KindsDiffer();
    LoneSync(Newcomer, map["A" := Incomplete], {}, "updated", "A");
    assert Advance(d, Fetch(e)) == d1;
    LoneChange(Newcomer, map["A" := Incomplete], {}, "A", "active");
    assert map["A" := Incomplete]["A" := Sub("active")] == map["A" := Sub("active")] && {} - {"A"} == {};
    LoneSync(Newcomer, map["A" := Sub("active")], {}, "updated", "A");
    assert {} + {"A"} == {"A"};
    ThreeMoves(d, Fetch(e), d1, Whole(Change("A", Sub("active"))), d2, Whole(Deliver(e)), d3);
  }

  lemma ThreeMoves(d: Desk, a: Move, d1: Desk, b: Move, d2: Desk, c: Move, d3: Desk)
    requires HonestMove(d, map[], a) && Advance(d, a) == d1 && HonestMove(d1, map[], b) && Advance(d1, b) == d2
    requires HonestMove(d2, map[], c) && Advance(d2, c) == d3
    ensures HonestMoves(d, map[], [a, b, c]) && AfterMoves(d, [a, b, c]) == d3
  {
    assert [a, b, c][1..] == [b, c] && [b, c][1..] == [c] && [c][1..] == [];
    assert HonestMoves(d3, map[], []) && AfterMoves(d3, []) == d3;
    assert HonestMoves(d2, map[], [c]) && AfterMoves(d2, [c]) == d3;
    assert HonestMoves(d1, map[], [b, c]) && AfterMoves(d1, [b, c]) == d3;
  }

  /** Everything is settled and paid for, and the write of the early event puts the user on the free plan. */
  lemma LateWriteDropsPayingUser() returns (moves: seq<Move>)
    ensures Unbilled(map["u" := Newcomer], map[])
    ensures var start := Desk(State(map["u" := Newcomer], map[], {}), []);
            && HonestMoves(start, map[], moves)
            && var d := AfterMoves(start, moves);
               && |d.fetched| == 1
               && var end := Advance(d, Write(0)).st;
                  "u" in end.users && AllSynced(end) && Pays(end, "u") && end.users["u"].plan == "free"
  {
    var start := Desk(State(map["u" := Newcomer], map[], {}), []);
    var first := Whole(Change("A", Incomplete));
    var rest := [Fetch(SubscriptionEvent("updated", "A")), Whole(Change("A", Sub("active"))),
                 Whole(Deliver(SubscriptionEvent("updated", "A")))];
    moves := [first] + rest;
    LoneChange(Newcomer, map[], {}, "A", "incomplete");
    assert map[]["A" := Incomplete] == map["A" := Incomplete] && {} - {"A"} == {};
    PaymentGoesThrough();
    assert moves[1..] == rest;
    EarlyEventIsWritten();
  }

  lemma EarlyEventIsWritten()
    ensures var st := Lone(Subscriber, map["A" := Sub("active")], {"A"});
            var end := WriteStep(st, Early);
            "u" in end.users && AllSynced(end) && Pays(end, "u") && end.users["u"].plan == "free"
  {
    var st := Lone(Subscriber, map["A" := Sub("active")], {"A"});
    var end := WriteStep(st, Early);
    KindsDiffer();
    assert FindUser(st.users, Early.obj.metadataUser, Early.obj.customer) == Some("u");
    assert PaidBy(end.users, st.stripe["A"], "u");
  }
}
