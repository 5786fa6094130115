/**
  Users who are found by their Stripe customer (services/billing_service.py): subscriptions made outside checkout name
  no user, so whose they are depends on the customer column that earlier events have written.
 */
module CustomerRuns {
  import opened Basics
  import opened Billing
  import opened BillingAnswers

  /** The object an event is applied from. */
  function AppliedFrom(e: Event, client: Option<Stripe>): Option<Object> {
    if Checkout(e) then Some(e.obj) else News(e, client)
  }

  /** The event is applied to user `u`: it points to them, and is not one to be ignored. */
  ghost predicate AppliesTo(users: Users, e: Event, o: Object, u: string) {
    if Checkout(e) then o.mode == Some("subscription") && Points(users, o.clientReference, o.customer, u) && u in users
    else
      && SubscriptionKind(e.kind) && Points(users, o.metadataUser, o.customer, u) && u in users
      && !Superseded(users[u], o.id, if e.kind == "customer.subscription.deleted" then Some("canceled") else o.status)
  }

  /** A customer that one event brings is on record for the next: an event that names nobody then finds its user. */
  lemma LearnedCustomerFinds(users: Users, e: Event, client: Option<Stripe>, o: Object, u: string)
    requires UniqueCustomers(users) && AppliedFrom(e, client) == Some(o) && AppliesTo(users, e, o, u) && Truthy(o.customer)
    ensures var out := Handle(users, e, client);
            out.Handled? ==>
              && u in out.users && out.users[u].customer == o.customer
              && (forall v :: Points(out.users, None, o.customer, v) <==> v == u)
  {
    if Checkout(e) {
      CheckoutAnswers(users, e, client, u);
    } else {
      SubscriptionAnswers(users, e, client, u);
    }
  }

  /** An event leaves someone who was found by a customer so found exactly if it brings no other customer of theirs. */
  lemma CustomerKeptIff(users: Users, e: Event, client: Option<Stripe>, o: Object, u: string, customer: string)
    requires UniqueCustomers(users) && AppliedFrom(e, client) == Some(o) && AppliesTo(users, e, o, u)
    requires customer != "" && Points(users, None, Some(customer), u)
    ensures var out := Handle(users, e, client);
            out.Handled? ==>
              (Points(out.users, None, Some(customer), u) <==> !Truthy(o.customer) || o.customer.value == customer)
  {
    if Checkout(e) {
      CheckoutAnswers(users, e, client, u);
    } else {
      SubscriptionAnswers(users, e, client, u);
    }
  }

  // ---------- Runs ----------

  /** A subscription of customer "c", made outside checkout. */
  function Outside(status: string): Subscription {
    Subscription(Some("c"), Some(status), None)
  }

  function OutsideEvent(kind: string): Event {
    Event("customer.subscription." + kind, Object(Some("A"), Some("c"), None, None, None, None, None, None))
  }

  const Holder := User("free", Some("c"), None, None)
  const Subscribed := User("pro", Some("c"), Some("A"), Some("active"))
  const Customers := map["c" := "u"]

  lemma FoundByCustomer(row: User)
    ensures FindUser(map["u" := row], None, Some("c")) == if row.customer == Some("c") then Some("u") else None
  {
    if row.customer == Some("c") {
      FindUserIff(map["u" := row], None, Some("c"), "u");
    }
  }

  lemma OutsideIsApplied()
    ensures var st := Lone(Holder, map["A" := Outside("active")], {});
            && Honest(st, Customers, Deliver(OutsideEvent("updated")))
            && Next(st, Deliver(OutsideEvent("updated"))) == Lone(Subscribed, map["A" := Outside("active")], {"A"})
  {
    var st, e := Lone(Holder, map["A" := Outside("active")], {}), OutsideEvent("updated");
    KindsDiffer();
    FoundByCustomer(Holder);
    assert Current(e.obj, Some(st.stripe)).value == e.obj.(status := Some("active"));
    assert st.users["u" := Subscribed] == map["u" := Subscribed];
    assert {} + {"A"} == {"A"};
  }

  lemma OutsideIsMade()
    ensures var st := Lone(Holder, map[], {}); var step := Change("A", Outside("active"));
            && Honest(st, Customers, step)
            && Next(st, step) == Lone(Holder, map["A" := Outside("active")], {})
  {
    var st := Lone(Holder, map[], {});
    assert Held(st.users, Customers, "c");
    assert st.stripe["A" := Outside("active")] == map["A" := Outside("active")] && {} - {"A"} == {};
  }

  /** A new user who opens checkout and is then given a subscription by hand comes to be on pro. */
  lemma OutsideSubscriberGetsPro() returns (steps: seq<Step>)
    ensures var start := State(map["u" := Newcomer], map[], {});
            && Unbilled(start.users, Customers) && HonestRun(start, Customers, steps)
            && After(start, steps) == Lone(Subscribed, map["A" := Outside("active")], {"A"})
  {
    var open, make, tell := OpenAccount("u", "c"), Change("A", Outside("active")), Deliver(OutsideEvent("updated"));
    steps := [open, make, tell];
    var start := State(map["u" := Newcomer], map[], {});
    assert start.users["u" := Holder] == map["u" := Holder];
    var mid := Lone(Holder, map["A" := Outside("active")], {});
    OutsideIsMade();
    OutsideIsApplied();
    assert steps[1..] == [make, tell] && [make, tell][1..] == [tell] && [tell][1..] == [];
    assert After(mid, [tell]) == Next(mid, tell) && HonestRun(mid, Customers, [tell]);
    assert After(Lone(Holder, map[], {}), [make, tell]) == After(mid, [tell]);
    assert HonestRun(Lone(Holder, map[], {}), Customers, [make, tell]);
  }

  /** An unpaid checkout of theirs with another customer, and then the end of the subscription. */
  const Other :=
    Event("checkout.session.completed",
          Object(None, Some("d"), None, None, Some("u"), Some("subscription"), None, Some("unpaid")))

  lemma OtherIsApplied()
    ensures Next(Lone(Subscribed, map["A" := Outside("active")], {"A"}), Deliver(Other)) ==
            Lone(Subscribed.(customer := Some("d")), map["A" := Outside("active")], {"A"})
  {
    var st, row := Lone(Subscribed, map["A" := Outside("active")], {"A"}), Subscribed.(customer := Some("d"));
    assert FindUser(st.users, Some("u"), Some("d")) == Some("u");
    assert AfterCheckout(Subscribed, Other.obj) == row;
    assert st.users["u" := row] == map["u" := row];
  }

  /** With two customers, the end of what the first one pays for goes unnoticed: all is settled, and pro for nothing. */
  lemma SecondCustomerHidesTheFirst() returns (steps: seq<Step>)
    ensures ProForNothing(After(Lone(Subscribed, map["A" := Outside("active")], {"A"}), steps))
  {
    var st, row := Lone(Subscribed, map["A" := Outside("active")], {"A"}), Subscribed.(customer := Some("d"));
    var change, tell := Change("A", Outside("canceled")), Deliver(OutsideEvent("deleted"));
    steps := [Deliver(Other), change, tell];
    OtherIsApplied();
    var mid, late := Lone(row, map["A" := Outside("active")], {"A"}), Lone(row, map["A" := Outside("canceled")], {});
    assert mid.stripe["A" := Outside("canceled")] == late.stripe && {"A"} - {"A"} == {};
    assert Next(mid, change) == late;
    KindsDiffer();
    FoundByCustomer(row);
    assert Next(late, tell) == Lone(row, map["A" := Outside("canceled")], {} + {"A"});
    assert steps[1..] == [change, tell] && [change, tell][1..] == [tell] && [tell][1..] == [];
    assert After(late, [tell]) == Next(late, tell) && After(mid, [change, tell]) == After(late, [tell]);
  }
}
