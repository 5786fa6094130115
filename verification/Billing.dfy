/**
  Stripe events (services/billing_service.py): how a webhook event changes a user's subscription and plan,
  and what that comes to when events arrive late, twice and in any order.
 */
module Billing {
  import opened Basics

  datatype User = User(plan: string, customer: Option<string>, subscription: Option<string>, status: Option<string>)

  type Users = map<string, User>

  /** The fields of an event's object that the handler reads; absent ones are None. */
  datatype Object = Object(
    id: Option<string>, customer: Option<string>, status: Option<string>, metadataUser: Option<string>,
    clientReference: Option<string>, mode: Option<string>, subscription: Option<string>, paymentStatus: Option<string>)

  datatype Event = Event(kind: string, obj: Object)

  /** A subscription as Stripe holds it. */
  datatype Subscription = Subscription(customer: Option<string>, status: Option<string>, user: Option<string>)

  type Stripe = map<string, Subscription>

  /** What handling an event comes to: the users afterwards, or an error that leaves them and makes Stripe retry. */
  datatype Outcome = Handled(users: Users) | Raised

  predicate Paid(status: Option<string>) {
    status.Some? && status.value in {"active", "trialing", "past_due"}
  }

  function PlanForStatus(status: Option<string>): string {
    if Paid(status) then "pro" else "free"
  }

  /** The guard of `checkout_url`. */
  predicate CheckoutRefused(u: User) {
    Paid(u.status)
  }

  predicate SubscriptionKind(kind: string) {
    kind in {"customer.subscription.created", "customer.subscription.updated", "customer.subscription.deleted"}
  }

  /** stripe_customer_id is a unique column. */
  ghost predicate UniqueCustomers(users: Users) {
    forall u, v :: u in users && v in users && users[u].customer.Some? && users[u].customer == users[v].customer ==> u == v
  }

  ghost function ByCustomer(users: Users, customer: string): (found: Option<string>)
    ensures found.Some? ==> found.value in users && users[found.value].customer == Some(customer)
    ensures found.None? ==> forall u :: u in users ==> users[u].customer != Some(customer)
  {
    if u :| u in users && users[u].customer == Some(customer) then Some(u) else None
  }

  ghost function FindUser(users: Users, id: Option<string>, customer: Option<string>): (found: Option<string>)
    ensures found.Some? ==> found.value in users
  {
    if Truthy(id) && id.value in users then id
    else if Truthy(customer) then ByCustomer(users, customer.value)
    else None
  }

  /** The user an id names. */
  predicate Named(users: Users, id: Option<string>) {
    id.Some? && id.value != "" && id.value in users
  }

  /** Whose something is that carries an id and a customer: the named user's or, if none is named, the customer's holder's. */
  predicate Points(users: Users, id: Option<string>, customer: Option<string>, u: string) {
    if Named(users, id) then id == Some(u)
    else customer.Some? && customer.value != "" && u in users && users[u].customer == customer
  }

  lemma FindUserIff(users: Users, id: Option<string>, customer: Option<string>, u: string)
    requires UniqueCustomers(users)
    ensures FindUser(users, id, customer) == Some(u) <==> Points(users, id, customer, u)
  {
  }

  /** Commit one user's row; another user holding the same customer id makes the commit fail. */
  ghost function Save(users: Users, u: string, row: User): Outcome {
    if row.customer.Some? && (exists v :: v in users && v != u && users[v].customer == row.customer) then Raised
    else Handled(users[u := row])
  }

  /** Paid, or free with a promotion code. */
  predicate Settled(o: Object) {
    o.paymentStatus == Some("paid") || o.paymentStatus == Some("no_payment_required")
  }

  function AfterCheckout(row: User, o: Object): User {
    var linked := row.(customer := Or(o.customer, row.customer), subscription := Or(o.subscription, row.subscription));
    if Settled(o) then linked.(status := Some("active"), plan := "pro") else linked
  }

  /** Bad news about a subscription other than the user's current one. */
  predicate Superseded(row: User, id: Option<string>, status: Option<string>) {
    Truthy(row.subscription) && id != row.subscription && !Paid(status)
  }

  function AfterSubscription(row: User, id: Option<string>, status: Option<string>, customer: Option<string>): User {
    User(PlanForStatus(status), Or(customer, row.customer), id, status)
  }

  /** The object a created or updated event is applied from: the current one when there is a client to ask. */
  function Current(o: Object, client: Option<Stripe>): Option<Object> {
    if client.None? || !Truthy(o.id) then Some(o)
    else if o.id.value !in client.value then None
    else
      var s := client.value[o.id.value];
      Some(o.(customer := s.customer, status := s.status, metadataUser := s.user))
  }

  ghost function Handle(users: Users, e: Event, client: Option<Stripe>): Outcome {
    if e.kind == "checkout.session.completed" then
      var u := FindUser(users, e.obj.clientReference, e.obj.customer);
      if u.None? || e.obj.mode != Some("subscription") then Handled(users)
      else Save(users, u.value, AfterCheckout(users[u.value], e.obj))
    else if SubscriptionKind(e.kind) then
      var deleted := e.kind == "customer.subscription.deleted";
      var current := if deleted then Some(e.obj) else Current(e.obj, client);
      if current.None? then Raised
      else
        var o := current.value;
        var u := FindUser(users, o.metadataUser, o.customer);
        if u.None? then Handled(users)
        else
          var status := if deleted then Some("canceled") else o.status;
          if Superseded(users[u.value], o.id, status) then Handled(users)
          else Save(users, u.value, AfterSubscription(users[u.value], o.id, status, o.customer))
    else Handled(users)
  }

  class BillingService {
    var users: Users

    constructor ()
      ensures users == map[]
    {
      users := map[];
    }

    /** `_find_user`: by id, else by customer. */
    method Find(id: Option<string>, customer: Option<string>) returns (found: Option<string>)
      requires UniqueCustomers(users)
      ensures found == FindUser(users, id, customer)
      ensures forall u :: Points(users, id, customer, u) <==> found == Some(u)
    {
      forall u ensures Points(users, id, customer, u) <==> FindUser(users, id, customer) == Some(u) {
        FindUserIff(users, id, customer, u);
      }
      if Truthy(id) && id.value in users {
        return id;
      }
      if Truthy(customer) {
        var rest := users.Keys;
        while rest != {}
          invariant rest <= users.Keys
          invariant forall u :: u in users && u !in rest ==> users[u].customer != customer
          decreases |rest|
        {
          var u :| u in rest;
          if users[u].customer == customer {
            return Some(u);
          }
          rest := rest - {u};
        }
      }
      return None;
    }

    method Commit(u: string, row: User) returns (raised: bool)
      modifies this
      ensures Save(old(users), u, row) == if raised then Raised else Handled(users)
      ensures raised ==> users == old(users)
    {
      raised := row.customer.Some? && exists v :: v in users && v != u && users[v].customer == row.customer;
      if !raised {
        users := users[u := row];
      }
    }

    method HandleEvent(e: Event, client: Option<Stripe>) returns (raised: bool)
      requires UniqueCustomers(users)
      modifies this
      ensures Handle(old(users), e, client) == if raised then Raised else Handled(users)
      ensures raised ==> users == old(users)
      ensures UniqueCustomers(users)
    {
      raised := false;
      if e.kind == "checkout.session.completed" {
        var u := Find(e.obj.clientReference, e.obj.customer);
        if u.Some? && e.obj.mode == Some("subscription") {
          raised := Commit(u.value, AfterCheckout(users[u.value], e.obj));
        }
        return;
      }
      if SubscriptionKind(e.kind) {
        var deleted := e.kind == "customer.subscription.deleted";
        var current := if deleted then Some(e.obj) else Current(e.obj, client);
        if current.None? {
          return true;
        }
        var o := current.value;
        var u := Find(o.metadataUser, o.customer);
        if u.None? {
          return;
        }
        var status := if deleted then Some("canceled") else o.status;
        if Superseded(users[u.value], o.id, status) {
          return;
        }
        raised := Commit(u.value, AfterSubscription(users[u.value], o.id, status, o.customer));
      }
    }
  }

  // ---------- Plan and status stay in step ----------

  predicate InStep(u: User) {
    u.plan == PlanForStatus(u.status)
  }

  ghost predicate AllInStep(users: Users) {
    forall u :: u in users ==> InStep(users[u])
  }

  ghost function HandleAll(users: Users, events: seq<(Event, Option<Stripe>)>): Users
    decreases |events|
  {
    if events == [] then users
    else
      var o := Handle(users, events[0].0, events[0].1);
      HandleAll(if o.Handled? then o.users else users, events[1..])
  }

  /**
    Whatever events arrive, from whatever Stripe said at the time: the plan is the one the stored status earns,
    so checkout is refused to exactly the users on pro.
   */
  lemma {:induction false} PlanFollowsStatus(users: Users, events: seq<(Event, Option<Stripe>)>)
    requires AllInStep(users)
    ensures AllInStep(HandleAll(users, events))
    ensures forall u :: u in HandleAll(users, events) ==>
              var row := HandleAll(users, events)[u];
              && (CheckoutRefused(row) <==> row.plan == "pro")
              && (row.plan == "pro" <==>
                    row.status == Some("active") || row.status == Some("trialing") || row.status == Some("past_due"))
    decreases |events|
  {
    if events != [] {
      var o := Handle(users, events[0].0, events[0].1);
      PlanFollowsStatus(if o.Handled? then o.users else users, events[1..]);
    }
  }

  // ---------- Convergence ----------

  /** `synced` holds the subscriptions about which an event was handled since Stripe last changed them. */
  datatype State = State(users: Users, stripe: Stripe, synced: set<string>)

  /** Stripe changes a subscription, a webhook event arrives, or checkout gives a user a Stripe customer. */
  datatype Step = Change(id: string, to: Subscription) | Deliver(event: Event) | OpenAccount(user: string, customer: string)

  predicate Checkout(e: Event) {
    e.kind == "checkout.session.completed"
  }

  /** The user a completed checkout is applied to, if it is not ignored. */
  ghost function Buyer(st: State, e: Event): Option<string> {
    if e.obj.mode != Some("subscription") then None else FindUser(st.users, e.obj.clientReference, e.obj.customer)
  }

  /** The subscription whose status an event settles; a checkout settles one only if it is paid or free. */
  ghost function Subject(st: State, e: Event): Option<string> {
    if Checkout(e) then if Buyer(st, e).Some? && Settled(e.obj) then e.obj.subscription else None
    else if SubscriptionKind(e.kind) then e.obj.id
    else None
  }

  ghost function Next(st: State, step: Step): State {
    match step
    case Change(id, to) => st.(stripe := st.stripe[id := to], synced := st.synced - {id})
    case Deliver(e) =>
      var o := Handle(st.users, e, Some(st.stripe));
      if o.Raised? then st
      else st.(users := o.users, synced := if Truthy(Subject(st, e)) then st.synced + {Subject(st, e).value} else st.synced)
    case OpenAccount(u, customer) =>
      if u in st.users && !Truthy(st.users[u].customer)
      then st.(users := st.users[u := st.users[u].(customer := Some(customer))]) else st
  }

  /** A subscription is its user's, as its metadata or else its customer says. */
  predicate BelongsTo(users: Users, s: Subscription, u: string) {
    Points(users, s.user, s.customer, u)
  }

  predicate PaidBy(users: Users, s: Subscription, u: string) {
    BelongsTo(users, s, u) && Paid(s.status)
  }

  ghost predicate SameOwner(users: Users, s: Subscription, t: Subscription) {
    forall u :: BelongsTo(users, s, u) <==> BelongsTo(users, t, u)
  }

  /** `customers` says whose each Stripe customer is; users and subscriptions agree with it. */
  predicate CustomerOf(customers: map<string, string>, customer: Option<string>, u: string) {
    Truthy(customer) ==> customer.value in customers && customers[customer.value] == u
  }

  ghost predicate OnePaid(users: Users, stripe: Stripe) {
    forall s, t, u :: s in stripe && t in stripe && PaidBy(users, stripe[s], u) && PaidBy(users, stripe[t], u) ==> s == t
  }

  /** A user holds the customer, and no other customer is theirs. */
  ghost predicate Held(users: Users, customers: map<string, string>, customer: string) {
    && customer in customers && customers[customer] in users && users[customers[customer]].customer == Some(customer)
    && forall c :: c in customers && customers[c] == customers[customer] ==> c == customer
  }

  /** Every subscription is some user's: through its metadata or, if that names none, through a customer that is held. */
  ghost predicate Belongs(st: State, customers: map<string, string>, s: Subscription) {
    if Named(st.users, s.user) then CustomerOf(customers, s.customer, s.user.value)
    else Truthy(s.customer) && Held(st.users, customers, s.customer.value)
  }

  ghost function OwnerOf(st: State, customers: map<string, string>, s: Subscription): string
    requires Belongs(st, customers, s)
  {
    if Named(st.users, s.user) then s.user.value else customers[s.customer.value]
  }

  /** What the object of an event says about its subscription. */
  function Told(o: Object): Subscription {
    Subscription(o.customer, o.status, o.metadataUser)
  }

  /** Whose a checkout is, as if it were a subscription. */
  function Purchase(o: Object): Subscription {
    Subscription(o.customer, None, o.clientReference)
  }

  /**
    What the run assumes of Stripe: a user has at most one paid subscription at a time, and a subscription stays whose
    it is; `deleted` is sent only for cancelled subscriptions; a checkout that is not ignored is its user's own, and
    meets the exact condition under which it can be applied from its snapshot.  Created and updated events may be
    stale, repeated and out of order, with any snapshot.
   */
  ghost predicate Honest(st: State, customers: map<string, string>, step: Step) {
    match step
    case Change(id, to) =>
      && id != "" && Belongs(st, customers, to)
      && (id in st.stripe ==> SameOwner(st.users, st.stripe[id], to))
      && OnePaid(st.users, st.stripe[id := to])
    case Deliver(e) =>
      if Checkout(e) then
        Buyer(st, e).Some? ==>
          OwnCheckout(st, customers, e.obj) && CheckoutFits(st, e.obj, OwnerOf(st, customers, Purchase(e.obj)))
      else if e.kind == "customer.subscription.deleted" then
        && e.obj.id.Some? && e.obj.id.value in st.stripe
        && st.stripe[e.obj.id.value].status == Some("canceled")
        && Belongs(st, customers, Told(e.obj)) && SameOwner(st.users, st.stripe[e.obj.id.value], Told(e.obj))
      else SubscriptionKind(e.kind) ==> e.obj.id.Some? && e.obj.id.value in st.stripe
    case OpenAccount(u, customer) => customer != "" && CustomerOf(customers, Some(customer), u)
  }

  /** A completed subscription checkout of the user whose subscription it names, if it names one. */
  ghost predicate OwnCheckout(st: State, customers: map<string, string>, o: Object) {
    && o.mode == Some("subscription") && Belongs(st, customers, Purchase(o))
    && (Truthy(o.subscription) ==>
          o.subscription.value in st.stripe && SameOwner(st.users, st.stripe[o.subscription.value], Purchase(o)))
  }

  /**
    When a checkout's snapshot is safe to apply.  Paid or free: the subscription it makes current is paid now, as far
    as is known.  Unpaid: it names none or the current one, or the row is not paid, or there is an event to come about
    both the current subscription and the named one.
   */
  ghost predicate CheckoutFits(st: State, o: Object, u: string)
    requires u in st.users
    requires Truthy(o.subscription) ==> o.subscription.value in st.stripe
  {
    var row := st.users[u];
    if Settled(o) then
      if Truthy(o.subscription) then Paid(st.stripe[o.subscription.value].status)
      else
        && row.subscription.Some?
        && (row.subscription.value in st.stripe && row.subscription.value in st.synced ==> Paid(st.stripe[row.subscription.value].status))
    else
      || !Truthy(o.subscription) || row.subscription == o.subscription || !Paid(row.status)
      || (row.subscription.Some? && row.subscription.value !in st.synced && o.subscription.value !in st.synced)
  }

  ghost predicate WellFormed(st: State, customers: map<string, string>) {
    && (forall s :: s in st.stripe ==> s != "" && Belongs(st, customers, st.stripe[s]))
    && OnePaid(st.users, st.stripe)
    && (forall u :: u in st.users ==> u != "" && st.users[u].customer != Some("") && CustomerOf(customers, st.users[u].customer, u))
  }

  /** One user's row, as far as the synced subscriptions determine it. */
  ghost predicate Good(st: State, u: string)
    requires u in st.users
  {
    var row := st.users[u];
    && InStep(row)
    && (row.subscription.None? ==> !Paid(row.status))
    && (row.subscription.Some? ==> row.subscription.value in st.stripe && BelongsTo(st.users, st.stripe[row.subscription.value], u))
    && (row.subscription.Some? && row.subscription.value in st.synced ==>
          (Paid(row.status) <==> Paid(st.stripe[row.subscription.value].status)))
    && (forall s :: s in st.stripe && s in st.synced && PaidBy(st.users, st.stripe[s], u) ==> row.subscription == Some(s))
  }

  ghost predicate Invariant(st: State, customers: map<string, string>) {
    WellFormed(st, customers) && forall u :: u in st.users ==> Good(st, u)
  }

  lemma ChangeKeeps(st: State, customers: map<string, string>, id: string, to: Subscription)
    requires Invariant(st, customers) && Honest(st, customers, Change(id, to))
    ensures Invariant(Next(st, Change(id, to)), customers)
  {
    var next := Next(st, Change(id, to));
    forall u | u in next.users ensures Good(next, u) {
      assert Good(st, u);
    }
  }

  /** With customers kept apart, committing a user's own row never collides. */
  lemma SaveSucceeds(st: State, customers: map<string, string>, u: string, row: User)
    requires WellFormed(st, customers) && u in st.users && KeepsCustomer(st, customers, u, row)
    ensures Save(st.users, u, row) == Handled(st.users[u := row])
  {
  }

  /** A subscription that belongs to anyone belongs to one user, whom the handler finds. */
  lemma OwnerIsFound(st: State, customers: map<string, string>, s: Subscription, u: string)
    requires WellFormed(st, customers) && Belongs(st, customers, s) && u == OwnerOf(st, customers, s)
    ensures u in st.users && CustomerOf(customers, s.customer, u)
    ensures forall v :: BelongsTo(st.users, s, v) <==> v == u
    ensures FindUser(st.users, s.user, s.customer) == Some(u)
  {
    assert UniqueCustomers(st.users);
    forall v ensures BelongsTo(st.users, s, v) <==> v == u {
      assert BelongsTo(st.users, s, v) ==> v in st.users;
    }
    FindUserIff(st.users, s.user, s.customer, u);
  }

  /** A row that keeps to its user's customers leaves every subscription whose it was. */
  ghost predicate KeepsCustomer(st: State, customers: map<string, string>, u: string, row: User)
    requires u in st.users
  {
    && CustomerOf(customers, row.customer, u) && row.customer != Some("")
    && (st.users[u].customer.Some? ==> row.customer.Some?)
  }

  lemma BelongingStays(st: State, customers: map<string, string>, u: string, row: User, s: Subscription)
    requires WellFormed(st, customers) && u in st.users && KeepsCustomer(st, customers, u, row) && Belongs(st, customers, s)
    ensures var next := st.(users := st.users[u := row]);
            Belongs(next, customers, s) && SameOwners(st.users, next.users, s)
  {
    var next, owner := st.(users := st.users[u := row]), OwnerOf(st, customers, s);
    OwnerIsFound(st, customers, s, owner);
    assert Named(next.users, s.user) <==> Named(st.users, s.user);
    if !Named(st.users, s.user) {
      assert next.users[owner].customer == s.customer;
      forall v ensures BelongsTo(next.users, s, v) <==> v == owner {
        assert v in next.users && next.users[v].customer == s.customer ==> CustomerOf(customers, s.customer, v);
      }
    }
  }

  ghost predicate SameOwners(before: Users, after: Users, s: Subscription) {
    forall v :: BelongsTo(after, s, v) <==> BelongsTo(before, s, v)
  }

  /** Rewriting one user's row, and settling at most one subscription of theirs, is all right exactly if that row is good. */
  lemma RowKeepsIff(st: State, customers: map<string, string>, u: string, row: User, synced: set<string>)
    requires Invariant(st, customers) && u in st.users && KeepsCustomer(st, customers, u, row)
    requires forall s :: s in synced && s !in st.synced ==> s in st.stripe && BelongsTo(st.users, st.stripe[s], u)
    requires st.synced <= synced
    ensures var next := st.(users := st.users[u := row], synced := synced);
            Invariant(next, customers) <==> Good(next, u)
  {
    var next := st.(users := st.users[u := row], synced := synced);
    assert u in next.users;
    RowKeepsWellFormed(st, customers, u, row);
    if Good(next, u) {
      forall v | v in next.users ensures Good(next, v) {
        if v != u {
          OthersStayGood(st, customers, u, row, synced, v);
        }
      }
    }
  }

  lemma RowKeepsWellFormed(st: State, customers: map<string, string>, u: string, row: User)
    requires WellFormed(st, customers) && u in st.users && KeepsCustomer(st, customers, u, row)
    ensures WellFormed(st.(users := st.users[u := row]), customers)
    ensures forall s :: s in st.stripe ==> SameOwners(st.users, st.users[u := row], st.stripe[s])
  {
    forall s | s in st.stripe
      ensures Belongs(st.(users := st.users[u := row]), customers, st.stripe[s])
      ensures SameOwners(st.users, st.users[u := row], st.stripe[s])
    {
      BelongingStays(st, customers, u, row, st.stripe[s]);
    }
    OnePaidStays(st.users, st.users[u := row], st.stripe);
  }

  lemma OnePaidStays(before: Users, after: Users, stripe: Stripe)
    requires OnePaid(before, stripe) && forall s :: s in stripe ==> SameOwners(before, after, stripe[s])
    ensures OnePaid(after, stripe)
  {
    forall s, t, u | s in stripe && t in stripe && PaidBy(after, stripe[s], u) && PaidBy(after, stripe[t], u) ensures s == t {
      assert BelongsTo(before, stripe[s], u) && BelongsTo(before, stripe[t], u);
      assert PaidBy(before, stripe[s], u) && PaidBy(before, stripe[t], u);
    }
  }

  lemma OthersStayGood(
      st: State, customers: map<string, string>, u: string, row: User, synced: set<string>, v: string)
    requires Invariant(st, customers) && u in st.users && v in st.users && v != u
    requires forall s :: s in st.stripe ==> SameOwners(st.users, st.users[u := row], st.stripe[s])
    requires forall s :: s in synced && s !in st.synced ==> s in st.stripe && BelongsTo(st.users, st.stripe[s], u)
    ensures Good(st.(users := st.users[u := row], synced := synced), v)
  {
    assert Good(st, v);
    var next := st.(users := st.users[u := row], synced := synced);
    if st.users[v].subscription.Some? {
      var id := st.users[v].subscription.value;
      OwnerIsFound(st, customers, st.stripe[id], OwnerOf(st, customers, st.stripe[id]));
      assert id in synced ==> id in st.synced;
    }
    forall s | s in next.stripe && s in synced && PaidBy(next.users, next.stripe[s], v)
      ensures next.users[v].subscription == Some(s)
    {
      OwnerIsFound(st, customers, st.stripe[s], OwnerOf(st, customers, st.stripe[s]));
      assert BelongsTo(st.users, st.stripe[s], v);
    }
  }

  /** The row after a subscription's current status is applied, or rightly ignored, is good. */
  lemma SubscriptionIsGood(st: State, customers: map<string, string>, u: string, id: string, row: User)
    requires Invariant(st, customers) && id in st.stripe && u in st.users && BelongsTo(st.users, st.stripe[id], u)
    requires KeepsCustomer(st, customers, u, row)
    requires var status := st.stripe[id].status;
             if Superseded(st.users[u], Some(id), status) then row == st.users[u]
             else row.subscription == Some(id) && row.status == status && InStep(row)
    ensures Good(st.(users := st.users[u := row], synced := st.synced + {id}), u)
  {
    assert Good(st, u);
    RowKeepsWellFormed(st, customers, u, row);
  }

  /** What a subscription event is applied from, and to whom. */
  lemma SubscriptionFinds(st: State, customers: map<string, string>, e: Event) returns (u: string, o: Object)
    requires Invariant(st, customers) && Honest(st, customers, Deliver(e)) && SubscriptionKind(e.kind)
    ensures o.id == e.obj.id && o.id.Some? && o.id.value in st.stripe
    ensures u in st.users && BelongsTo(st.users, st.stripe[o.id.value], u) && CustomerOf(customers, o.customer, u)
    ensures var row, status := st.users[u], st.stripe[o.id.value].status;
            Handle(st.users, e, Some(st.stripe)) ==
            if Superseded(row, o.id, status) then Handled(st.users)
            else Save(st.users, u, AfterSubscription(row, o.id, status, o.customer))
  {
    var deleted := e.kind == "customer.subscription.deleted";
    o := if deleted then e.obj else Current(e.obj, Some(st.stripe)).value;
    assert !deleted ==> Told(o) == st.stripe[o.id.value];
    u := OwnerOf(st, customers, Told(o));
    OwnerIsFound(st, customers, Told(o), u);
    assert BelongsTo(st.users, Told(o), u);
  }

  /** The row a subscription event leaves: it is applied from the subscription's current state, or rightly ignored. */
  lemma SubscriptionRow(st: State, customers: map<string, string>, e: Event) returns (u: string, id: string, row: User)
    requires Invariant(st, customers) && Honest(st, customers, Deliver(e)) && SubscriptionKind(e.kind)
    ensures id in st.stripe && u in st.users && BelongsTo(st.users, st.stripe[id], u)
    ensures var status := st.stripe[id].status;
            if Superseded(st.users[u], Some(id), status) then row == st.users[u]
            else row.subscription == Some(id) && row.status == status && InStep(row)
    ensures KeepsCustomer(st, customers, u, row)
    ensures Next(st, Deliver(e)) == st.(users := st.users[u := row], synced := st.synced + {id})
  {
    var o;
    u, o := SubscriptionFinds(st, customers, e);
    id := o.id.value;
    var status := st.stripe[id].status;
    row := if Superseded(st.users[u], o.id, status) then st.users[u]
           else AfterSubscription(st.users[u], o.id, status, o.customer);
    SaveSucceeds(st, customers, u, row);
    assert st.users[u := st.users[u]] == st.users;
  }

  lemma SubscriptionKeeps(st: State, customers: map<string, string>, e: Event)
    requires Invariant(st, customers) && Honest(st, customers, Deliver(e)) && SubscriptionKind(e.kind)
    ensures Invariant(Next(st, Deliver(e)), customers)
  {
    var u, id, row := SubscriptionRow(st, customers, e);
    SubscriptionIsGood(st, customers, u, id, row);
    RowKeepsIff(st, customers, u, row, st.synced + {id});
  }

  /** The state a checkout of the user's own leaves. */
  lemma CheckoutRow(st: State, customers: map<string, string>, e: Event) returns (u: string, row: User, synced: set<string>)
    requires Invariant(st, customers) && Checkout(e) && OwnCheckout(st, customers, e.obj)
    ensures u == OwnerOf(st, customers, Purchase(e.obj)) && u in st.users && BelongsTo(st.users, Purchase(e.obj), u)
    ensures row == AfterCheckout(st.users[u], e.obj) && KeepsCustomer(st, customers, u, row)
    ensures synced == st.synced + if Settled(e.obj) && Truthy(e.obj.subscription) then {e.obj.subscription.value} else {}
    ensures Next(st, Deliver(e)) == st.(users := st.users[u := row], synced := synced)
  {
    u := OwnerOf(st, customers, Purchase(e.obj));
    OwnerIsFound(st, customers, Purchase(e.obj), u);
    assert BelongsTo(st.users, Purchase(e.obj), u);
    row := AfterCheckout(st.users[u], e.obj);
    synced := st.synced + if Settled(e.obj) && Truthy(e.obj.subscription) then {e.obj.subscription.value} else {};
    SaveSucceeds(st, customers, u, row);
    assert st.synced + {} == st.synced;
  }

  lemma SettledCheckoutGoodIff(st: State, customers: map<string, string>, o: Object, u: string)
    requires Invariant(st, customers) && OwnCheckout(st, customers, o) && Settled(o)
    requires u in st.users && BelongsTo(st.users, Purchase(o), u) && KeepsCustomer(st, customers, u, AfterCheckout(st.users[u], o))
    ensures var synced := st.synced + if Truthy(o.subscription) then {o.subscription.value} else {};
            Good(st.(users := st.users[u := AfterCheckout(st.users[u], o)], synced := synced), u) <==> CheckoutFits(st, o, u)
  {
    assert Good(st, u);
    RowKeepsWellFormed(st, customers, u, AfterCheckout(st.users[u], o));
  }

  lemma UnpaidCheckoutGoodIff(st: State, customers: map<string, string>, o: Object, u: string)
    requires Invariant(st, customers) && OwnCheckout(st, customers, o) && !Settled(o)
    requires u in st.users && BelongsTo(st.users, Purchase(o), u) && KeepsCustomer(st, customers, u, AfterCheckout(st.users[u], o))
    ensures Good(st.(users := st.users[u := AfterCheckout(st.users[u], o)]), u) <==> CheckoutFits(st, o, u)
  {
    assert Good(st, u);
    RowKeepsWellFormed(st, customers, u, AfterCheckout(st.users[u], o));
  }

  /** A completed checkout, paid, free or unpaid, keeps every row right about the settled subscriptions exactly when it fits. */
  lemma CheckoutKeepsIff(st: State, customers: map<string, string>, e: Event)
    requires Invariant(st, customers) && Checkout(e) && OwnCheckout(st, customers, e.obj)
    ensures OwnerOf(st, customers, Purchase(e.obj)) in st.users
    ensures Invariant(Next(st, Deliver(e)), customers) <==> CheckoutFits(st, e.obj, OwnerOf(st, customers, Purchase(e.obj)))
  {
    var u, row, synced := CheckoutRow(st, customers, e);
    RowKeepsIff(st, customers, u, row, synced);
    if Settled(e.obj) {
      SettledCheckoutGoodIff(st, customers, e.obj, u);
    } else {
      UnpaidCheckoutGoodIff(st, customers, e.obj, u);
      assert synced == st.synced;
    }
  }

  ghost predicate AllSynced(st: State) {
    forall s :: s in st.stripe ==> s in st.synced
  }

  ghost predicate Pays(st: State, u: string) {
    exists s :: s in st.stripe && PaidBy(st.users, st.stripe[s], u)
  }

  ghost predicate PlanRight(st: State, u: string)
    requires u in st.users
  {
    st.users[u].plan == "pro" <==> Pays(st, u)
  }

  lemma SyncedPlanIsRight(st: State, customers: map<string, string>, u: string)
    requires Invariant(st, customers) && AllSynced(st) && u in st.users
    ensures PlanRight(st, u)
  {
    assert Good(st, u);
    if st.users[u].plan == "pro" {
      assert PaidBy(st.users, st.stripe[st.users[u].subscription.value], u);
    }
  }

  lemma PaysAlike(st: State, next: State, u: string)
    requires next.stripe == st.stripe && forall s :: s in st.stripe ==> SameOwners(st.users, next.users, st.stripe[s])
    ensures Pays(next, u) <==> Pays(st, u)
  {
    if Pays(st, u) {
      var s :| s in st.stripe && PaidBy(st.users, st.stripe[s], u);
      assert BelongsTo(next.users, st.stripe[s], u);
      assert PaidBy(next.users, next.stripe[s], u);
    }
    if Pays(next, u) {
      var s :| s in next.stripe && PaidBy(next.users, next.stripe[s], u);
      assert BelongsTo(st.users, st.stripe[s], u);
      assert PaidBy(st.users, st.stripe[s], u);
    }
  }

  /** As for the plan itself: with everything settled, a checkout leaves it right exactly when it is unpaid or the user pays. */
  lemma CheckoutPlanIff(st: State, customers: map<string, string>, e: Event, u: string)
    requires Invariant(st, customers) && AllSynced(st)
    requires Checkout(e) && OwnCheckout(st, customers, e.obj) && BelongsTo(st.users, Purchase(e.obj), u)
    ensures u in Next(st, Deliver(e)).users
    ensures PlanRight(Next(st, Deliver(e)), u) <==> !Settled(e.obj) || Pays(st, u)
  {
    var v, row, synced := CheckoutRow(st, customers, e);
    OwnerIsFound(st, customers, Purchase(e.obj), v);
    SyncedPlanIsRight(st, customers, u);
    RowKeepsWellFormed(st, customers, u, row);
    PaysAlike(st, Next(st, Deliver(e)), u);
  }

  lemma StepKeeps(st: State, customers: map<string, string>, step: Step)
    requires Invariant(st, customers) && Honest(st, customers, step)
    ensures Invariant(Next(st, step), customers)
  {
    match step
    case Change(id, to) => ChangeKeeps(st, customers, id, to);
    case Deliver(e) =>
      if Checkout(e) {
        if Buyer(st, e).Some? {
          CheckoutKeepsIff(st, customers, e);
        }
      } else if SubscriptionKind(e.kind) {
        SubscriptionKeeps(st, customers, e);
      }
    case OpenAccount(u, customer) => AccountKeeps(st, customers, u, customer);
  }

  lemma AccountKeeps(st: State, customers: map<string, string>, u: string, customer: string)
    requires Invariant(st, customers) && Honest(st, customers, OpenAccount(u, customer))
    ensures Invariant(Next(st, OpenAccount(u, customer)), customers)
  {
    if u in st.users && !Truthy(st.users[u].customer) {
      var row := st.users[u].(customer := Some(customer));
      assert Good(st, u);
      RowKeepsWellFormed(st, customers, u, row);
      RowKeepsIff(st, customers, u, row, st.synced);
    }
  }

  lemma NoUserComesOrGoes(st: State, step: Step)
    ensures Next(st, step).users.Keys == st.users.Keys
  {
  }

  ghost predicate HonestRun(st: State, customers: map<string, string>, steps: seq<Step>)
    decreases |steps|
  {
    steps == [] || (Honest(st, customers, steps[0]) && HonestRun(Next(st, steps[0]), customers, steps[1..]))
  }

  ghost function After(st: State, steps: seq<Step>): State
    decreases |steps|
  {
    if steps == [] then st else After(Next(st, steps[0]), steps[1..])
  }

  lemma {:induction false} RunKeeps(st: State, customers: map<string, string>, steps: seq<Step>)
    requires Invariant(st, customers) && HonestRun(st, customers, steps)
    ensures Invariant(After(st, steps), customers)
    ensures After(st, steps).users.Keys == st.users.Keys
    decreases |steps|
  {
    if steps != [] {
      var next := Next(st, steps[0]);
      StepKeeps(st, customers, steps[0]);
      NoUserComesOrGoes(st, steps[0]);
      RunKeeps(next, customers, steps[1..]);
    }
  }

  /** Users before any subscription: on the free plan, perhaps with a Stripe customer of their own. */
  ghost predicate Unbilled(users: Users, customers: map<string, string>) {
    forall u :: u in users ==>
      && u != "" && users[u] == User("free", users[u].customer, None, None)
      && users[u].customer != Some("") && CustomerOf(customers, users[u].customer, u)
  }

  /**
    Billing converges: for any order and duplication of events, once every subscription has had an event handled
    after Stripe last changed it, a user is on pro exactly when some subscription of theirs is paid.
   */
  lemma BillingConverges(users: Users, customers: map<string, string>, steps: seq<Step>, u: string)
    requires Unbilled(users, customers) && u in users
    requires HonestRun(State(users, map[], {}), customers, steps)
    ensures var end := After(State(users, map[], {}), steps);
            u in end.users && (AllSynced(end) ==> PlanRight(end, u))
  {
    var start := State(users, map[], {});
    RunKeeps(start, customers, steps);
    if AllSynced(After(start, steps)) {
      SyncedPlanIsRight(After(start, steps), customers, u);
    }
  }

  // ---------- Runs in which a checkout does not fit ----------

  /** One user "u". */
  function Lone(row: User, stripe: Stripe, synced: set<string>): State {
    State(map["u" := row], stripe, synced)
  }

  function Sub(status: string): Subscription {
    Subscription(None, Some(status), Some("u"))
  }

  function SubscriptionEvent(kind: string, id: string): Event {
    Event("customer.subscription." + kind, Object(Some(id), None, None, Some("u"), None, None, None, None))
  }

  function CheckoutEvent(id: string, payment: string): Event {
    Event("checkout.session.completed", Object(None, None, None, None, Some("u"), Some("subscription"), Some(id), Some(payment)))
  }

  lemma LoneChange(row: User, stripe: Stripe, synced: set<string>, id: string, status: string)
    requires id != "" && (forall s :: s in stripe ==> stripe[s].user == Some("u"))
    requires forall s :: s in stripe && s != id ==> !Paid(stripe[s].status) || !Paid(Some(status))
    requires OnePaid(map["u" := row], stripe)
    ensures var step := Change(id, Sub(status));
            && Honest(Lone(row, stripe, synced), map[], step)
            && Next(Lone(row, stripe, synced), step) == Lone(row, stripe[id := Sub(status)], synced - {id})
  {
  }

  lemma LoneSync(row: User, stripe: Stripe, synced: set<string>, kind: string, id: string)
    requires kind == "updated" || kind == "deleted"
    requires id != "" && id in stripe && stripe[id].user == Some("u") && stripe[id].customer == None && row.customer == None
    requires kind == "deleted" ==> stripe[id].status == Some("canceled")
    ensures var e, status := SubscriptionEvent(kind, id), stripe[id].status;
            var after := if Superseded(row, Some(id), status) then row else AfterSubscription(row, Some(id), status, None);
            && Honest(Lone(row, stripe, synced), map[], Deliver(e))
            && Next(Lone(row, stripe, synced), Deliver(e)) == Lone(after, stripe, synced + {id})
  {
    var st, e, status := Lone(row, stripe, synced), SubscriptionEvent(kind, id), stripe[id].status;
    KindsDiffer();
    var o := if kind == "deleted" then e.obj else Current(e.obj, Some(stripe)).value;
    assert FindUser(st.users, o.metadataUser, o.customer) == Some("u");
    assert st.users["u" := row] == st.users;
    var after := AfterSubscription(row, Some(id), status, None);
    assert st.users["u" := after] == map["u" := after];
  }

  lemma KindsDiffer()
    ensures "customer.subscription." + "updated" == "customer.subscription.updated"
    ensures "customer.subscription." + "deleted" == "customer.subscription.deleted"
    ensures "customer.subscription.updated" != "customer.subscription.deleted"
    ensures "customer.subscription.updated" != "checkout.session.completed"
    ensures "customer.subscription.deleted" != "checkout.session.completed"
  {
    assert "customer.subscription.updated"[22] == 'u' && "customer.subscription.deleted"[22] == 'd';
    assert "customer.subscription.updated"[1] == 'u' && "customer.subscription.deleted"[1] == 'u';
    assert "checkout.session.completed"[1] == 'h';
  }

  lemma LoneCheckout(row: User, stripe: Stripe, synced: set<string>, id: string, payment: string)
    requires id != "" && id in stripe && stripe[id].user == Some("u") && row.customer == None
    ensures var e, st := CheckoutEvent(id, payment), Lone(row, stripe, synced);
            && OwnCheckout(st, map[], e.obj)
            && Next(st, Deliver(e)) ==
               Lone(AfterCheckout(row, e.obj), stripe, if Settled(e.obj) then synced + {id} else synced)
  {
    var st, e := Lone(row, stripe, synced), CheckoutEvent(id, payment);
    assert FindUser(st.users, e.obj.clientReference, e.obj.customer) == Some("u");
    var after := AfterCheckout(row, e.obj);
    assert st.users["u" := after] == map["u" := after];
  }

  lemma RunOfTwo(st: State, a: Step, mid: State, b: Step, end: State)
    requires Honest(st, map[], a) && Next(st, a) == mid && Honest(mid, map[], b) && Next(mid, b) == end
    ensures HonestRun(st, map[], [a, b]) && After(st, [a, b]) == end
  {
    assert [a, b][1..] == [b] && [b][1..] == [];
    assert HonestRun(end, map[], []) && After(end, []) == end;
    assert HonestRun(mid, map[], [b]) && After(mid, [b]) == end;
    assert HonestRun(st, map[], [a, b]) && After(st, [a, b]) == After(mid, [b]);
  }

  lemma {:induction false} RunConcat(st: State, a: seq<Step>, b: seq<Step>)
    requires HonestRun(st, map[], a) && HonestRun(After(st, a), map[], b)
    ensures HonestRun(st, map[], a + b) && After(st, a + b) == After(After(st, a), b)
    decreases |a|
  {
    if a == [] {
      assert a + b == b;
    } else {
      assert (a + b)[1..] == a[1..] + b;
      RunConcat(Next(st, a[0]), a[1..], b);
    }
  }

  /** Stripe changes a subscription and sends the matching event. */
  lemma LoneStory(row: User, stripe: Stripe, synced: set<string>, id: string, status: string, kind: string)
    requires kind == "updated" || (kind == "deleted" && status == "canceled")
    requires id != "" && row.customer == None && (forall s :: s in stripe ==> stripe[s].user == Some("u"))
    requires forall s :: s in stripe && s != id ==> !Paid(stripe[s].status) || !Paid(Some(status))
    requires OnePaid(map["u" := row], stripe)
    ensures var steps := Story(id, status, kind);
            var after := if Superseded(row, Some(id), Some(status)) then row else AfterSubscription(row, Some(id), Some(status), None);
            && HonestRun(Lone(row, stripe, synced), map[], steps)
            && After(Lone(row, stripe, synced), steps) == Lone(after, stripe[id := Sub(status)], synced + {id})
  {
    LoneChange(row, stripe, synced, id, status);
    var mid := Lone(row, stripe[id := Sub(status)], synced - {id});
    LoneSync(row, stripe[id := Sub(status)], synced - {id}, kind, id);
    assert synced - {id} + {id} == synced + {id};
    RunOfTwo(Lone(row, stripe, synced), Change(id, Sub(status)), mid, Deliver(SubscriptionEvent(kind, id)),
             Next(mid, Deliver(SubscriptionEvent(kind, id))));
  }

  /** The wrong end: everything is settled, nothing is paid, and the user is on pro. */
  ghost predicate ProForNothing(st: State) {
    "u" in st.users && st.users["u"].plan == "pro" && AllSynced(st) && !Pays(st, "u")
  }

  const Newcomer := User("free", None, None, None)

  const Subscriber := User("pro", None, Some("A"), Some("active"))

  function Story(id: string, status: string, kind: string): seq<Step> {
    [Change(id, Sub(status)), Deliver(SubscriptionEvent(kind, id))]
  }

  lemma Subscribes()
    ensures var start := Lone(Newcomer, map[], {});
            && HonestRun(start, map[], Story("A", "active", "updated"))
            && After(start, Story("A", "active", "updated")) == Lone(Subscriber, map["A" := Sub("active")], {"A"})
  {
    LoneStory(Newcomer, map[], {}, "A", "active", "updated");
    assert map[]["A" := Sub("active")] == map["A" := Sub("active")] && {} + {"A"} == {"A"};
  }

  lemma Cancels()
    ensures var start, steps := Lone(Newcomer, map[], {}), Story("A", "active", "updated") + Story("A", "canceled", "deleted");
            && HonestRun(start, map[], steps)
            && After(start, steps) == Lone(User("free", None, Some("A"), Some("canceled")), map["A" := Sub("canceled")], {"A"})
  {
    Subscribes();
    LoneStory(Subscriber, map["A" := Sub("active")], {"A"}, "A", "canceled", "deleted");
    assert map["A" := Sub("active")]["A" := Sub("canceled")] == map["A" := Sub("canceled")] && {"A"} + {"A"} == {"A"};
    RunConcat(Lone(Newcomer, map[], {}), Story("A", "active", "updated"), Story("A", "canceled", "deleted"));
  }

  /** A paid checkout that is delivered after its subscription was cancelled. */
  lemma LateCheckoutGrantsPro() returns (before: seq<Step>, late: Event)
    ensures Unbilled(map["u" := Newcomer], map[]) && Checkout(late) && Settled(late.obj)
    ensures var start := State(map["u" := Newcomer], map[], {});
            && HonestRun(start, map[], before) && OwnCheckout(After(start, before), map[], late.obj)
            && ProForNothing(Next(After(start, before), Deliver(late)))
  {
    before, late := Story("A", "active", "updated") + Story("A", "canceled", "deleted"), CheckoutEvent("A", "paid");
    Cancels();
    LoneCheckout(User("free", None, Some("A"), Some("canceled")), map["A" := Sub("canceled")], {"A"}, "A", "paid");
  }

  const Both: Stripe := map["A" := Sub("active"), "B" := Sub("incomplete_expired")]

  lemma TriesAnother()
    ensures var start, steps := Lone(Newcomer, map[], {}), Story("A", "active", "updated") + Story("B", "incomplete_expired", "updated");
            && HonestRun(start, map[], steps)
            && After(start, steps) == Lone(Subscriber, Both, {"A", "B"})
  {
    Subscribes();
    LoneStory(Subscriber, map["A" := Sub("active")], {"A"}, "B", "incomplete_expired", "updated");
    assert map["A" := Sub("active")]["B" := Sub("incomplete_expired")] == Both && {"A"} + {"B"} == {"A", "B"};
    RunConcat(Lone(Newcomer, map[], {}), Story("A", "active", "updated"), Story("B", "incomplete_expired", "updated"));
  }

  lemma EndsUnseen()
    ensures var st := Lone(Subscriber.(subscription := Some("B")), Both, {"A", "B"});
            HonestRun(st, map[], Story("A", "canceled", "deleted")) && ProForNothing(After(st, Story("A", "canceled", "deleted")))
  {
    var row := Subscriber.(subscription := Some("B"));
    LoneStory(row, Both, {"A", "B"}, "A", "canceled", "deleted");
    var end := Lone(row, Both["A" := Sub("canceled")], {"A", "B"} + {"A"});
    assert forall s :: s in end.stripe ==> s in {"A", "B"} && !PaidBy(end.users, end.stripe[s], "u");
  }

  /** An unpaid checkout that names another subscription hides the end of the paid one. */
  lemma UnpaidCheckoutKeepsPro() returns (before: seq<Step>, unpaid: Event, after: seq<Step>)
    ensures Unbilled(map["u" := Newcomer], map[]) && Checkout(unpaid) && !Settled(unpaid.obj)
    ensures var start := State(map["u" := Newcomer], map[], {});
            && HonestRun(start, map[], before) && OwnCheckout(After(start, before), map[], unpaid.obj)
            && HonestRun(Next(After(start, before), Deliver(unpaid)), map[], after)
            && ProForNothing(After(Next(After(start, before), Deliver(unpaid)), after))
  {
    before := Story("A", "active", "updated") + Story("B", "incomplete_expired", "updated");
    unpaid, after := CheckoutEvent("B", "unpaid"), Story("A", "canceled", "deleted");
    TriesAnother();
    LoneCheckout(Subscriber, Both, {"A", "B"}, "B", "unpaid");
    EndsUnseen();
  }
}
