/**
  What a webhook event does to whom (services/billing_service.py), in the terms of Stripe's own fields: for every set of
  users with customers of their own, and everything Stripe may hold.
 */
module BillingAnswers {
  import opened Basics
  import opened Billing

  /** Only the row of `u` has changed. */
  predicate OnlyRow(users: Users, after: Users, u: string) {
    after.Keys == users.Keys && forall v :: v in users && v != u ==> after[v] == users[v]
  }

  /** Someone else holds the customer. */
  predicate Collides(users: Users, customer: Option<string>, u: string) {
    exists v :: v in users && v != u && users[v].customer == customer
  }

  predicate Nobody(users: Users, id: Option<string>, customer: Option<string>) {
    forall u :: u in users ==> !Points(users, id, customer, u)
  }

  /** Points to a user who exists, if to anyone. */
  lemma NobodyIsNone(users: Users, id: Option<string>, customer: Option<string>)
    requires UniqueCustomers(users)
    ensures Nobody(users, id, customer) <==> FindUser(users, id, customer) == None
  {
    forall u ensures Points(users, id, customer, u) <==> FindUser(users, id, customer) == Some(u) {
      FindUserIff(users, id, customer, u);
    }
  }

  lemma SaveAnswers(users: Users, u: string, row: User)
    requires u in users
    ensures var out := Save(users, u, row);
            && (out == Raised <==> row.customer.Some? && Collides(users, row.customer, u))
            && (out.Handled? ==> OnlyRow(users, out.users, u) && out.users[u] == row)
  {
  }

  /**
    A completed checkout: without a user, or not for a subscription, nothing happens.  Otherwise its customer and
    subscription are linked, and the user is put on pro exactly when it is paid, or free with a promotion code; a
    customer that is someone else's fails it.
   */
  lemma CheckoutAnswers(users: Users, e: Event, client: Option<Stripe>, u: string)
    requires UniqueCustomers(users) && Checkout(e)
    ensures var o, out := e.obj, Handle(users, e, client);
            && (o.mode != Some("subscription") || Nobody(users, o.clientReference, o.customer) ==> out == Handled(users))
            && (o.mode == Some("subscription") && u in users && Points(users, o.clientReference, o.customer, u) ==>
                  var row := users[u];
                  var customer := if Truthy(o.customer) then o.customer else row.customer;
                  && (out == Raised <==> customer.Some? && Collides(users, customer, u))
                  && (out.Handled? ==>
                        && OnlyRow(users, out.users, u) && out.users[u].customer == customer
                        && out.users[u].subscription == (if Truthy(o.subscription) then o.subscription else row.subscription)
                        && (if o.paymentStatus == Some("paid") || o.paymentStatus == Some("no_payment_required")
                            then out.users[u].plan == "pro" && out.users[u].status == Some("active")
                            else out.users[u].plan == row.plan && out.users[u].status == row.status)))
  {
    var o := e.obj;
    NobodyIsNone(users, o.clientReference, o.customer);
    FindUserIff(users, o.clientReference, o.customer, u);
    if o.mode == Some("subscription") && u in users && Points(users, o.clientReference, o.customer, u) {
      SaveAnswers(users, u, AfterCheckout(users[u], o));
    }
  }

  /** What a subscription event is about: what Stripe holds now, or its own snapshot when that is not asked for. */
  function News(e: Event, client: Option<Stripe>): Option<Object> {
    if e.kind == "customer.subscription.deleted" || client == None || !Truthy(e.obj.id) then Some(e.obj)
    else if e.obj.id.value !in client.value then None
    else
      var s := client.value[e.obj.id.value];
      Some(e.obj.(customer := s.customer, status := s.status, metadataUser := s.user))
  }

  /**
    A subscription event: if Stripe cannot be asked, an error, so that it is sent again; without a user, nothing.  Bad
    news of a subscription that is not the user's current one, when they have one, is ignored.  Otherwise the row takes
    the subscription, its customer and its status, and the plan that the status earns.
   */
  lemma SubscriptionAnswers(users: Users, e: Event, client: Option<Stripe>, u: string)
    requires UniqueCustomers(users) && SubscriptionKind(e.kind) && !Checkout(e)
    ensures var news, out := News(e, client), Handle(users, e, client);
            && (news == None ==> out == Raised)
            && (news.Some? && Nobody(users, news.value.metadataUser, news.value.customer) ==> out == Handled(users))
            && (news.Some? && u in users && Points(users, news.value.metadataUser, news.value.customer, u) ==>
                  var o, row := news.value, users[u];
                  var status := if e.kind == "customer.subscription.deleted" then Some("canceled") else o.status;
                  var pays := status == Some("active") || status == Some("trialing") || status == Some("past_due");
                  var customer := if Truthy(o.customer) then o.customer else row.customer;
                  if row.subscription.Some? && row.subscription.value != "" && o.id != row.subscription && !pays
                  then out == Handled(users)
                  else
                    && (out == Raised <==> customer.Some? && Collides(users, customer, u))
                    && (out.Handled? ==>
                          && OnlyRow(users, out.users, u)
                          && out.users[u] == User(if pays then "pro" else "free", customer, o.id, status)))
  {
    var news := News(e, client);
    if news.Some? {
      var o := news.value;
      NobodyIsNone(users, o.metadataUser, o.customer);
      FindUserIff(users, o.metadataUser, o.customer, u);
      if u in users && Points(users, o.metadataUser, o.customer, u) {
        var status := if e.kind == "customer.subscription.deleted" then Some("canceled") else o.status;
        var row := AfterSubscription(users[u], o.id, status, o.customer);
        SaveAnswers(users, u, row);
        assert Handle(users, e, client) == if Superseded(users[u], o.id, status) then Handled(users) else Save(users, u, row);
      }
    }
  }

  /** Any other event changes nothing. */
  lemma OtherEventsAreIgnored(users: Users, e: Event, client: Option<Stripe>)
    requires !Checkout(e) && e.kind != "customer.subscription.created" && e.kind != "customer.subscription.updated"
    requires e.kind != "customer.subscription.deleted"
    ensures Handle(users, e, client) == Handled(users)
  {
  }
}
