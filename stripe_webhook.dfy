/**
 * The Stripe webhook of `app/api/webhooks/stripe/route.ts`: configuration and
 * signature guards, then a dispatch on the event type that updates the
 * subscription columns of the matching rows of the `users` table. The table
 * is a class whose rows the handler updates in place; the environment, the
 * request, signature verification (`constructEvent`) and the clock are
 * parameters.
 */
module StripeWebhook {
  import opened Wrappers
  import opened JsText

  /** The columns of a `users` row that the webhook reads or writes. */
  datatype UserRow = UserRow(
    id: string,
    stripeCustomerId: Option<string>,
    stripeSubscriptionId: Option<string>,
    subscriptionStatus: string,
    subscriptionTier: string,
    updatedAt: string)

  /**
   * `event.data.object`, of which each case reads what it needs: a
   * subscription's `id`, `status` and `customer`, an invoice's `subscription`.
   */
  datatype StripeObject = StripeObject(id: string, status: string, customer: string, subscription: Option<string>)

  datatype Event = Event(kind: string, data: StripeObject)

  datatype Response =
    | StripeNotConfigured        // 503
    | SecretNotConfigured        // 503
    | NoSignature                // 400
    | InvalidSignature           // 400
    | Received                   // 200, `{ received: true }`

  function Status(r: Response): (code: int)
    ensures code in {200, 400, 503}
    ensures code == 200 <==> r == Received
    ensures code == 503 <==> r.StripeNotConfigured? || r.SecretNotConfigured?
  {
    match r
    case StripeNotConfigured => 503
    case SecretNotConfigured => 503
    case NoSignature => 400
    case InvalidSignature => 400
    case Received => 200
  }

  const SUBSCRIPTION_CREATED := "customer.subscription.created"
  const SUBSCRIPTION_UPDATED := "customer.subscription.updated"
  const SUBSCRIPTION_DELETED := "customer.subscription.deleted"
  const PAYMENT_SUCCEEDED := "invoice.payment_succeeded"
  const PAYMENT_FAILED := "invoice.payment_failed"

  /** The tier every subscription event writes. */
  const TIER := "weekly"

  // ---------------------------------------------------------------- row updates

  /** `.eq('stripe_customer_id', customer)`: a row without a customer id never matches. */
  predicate OfCustomer(row: UserRow, customer: string) {
    row.stripeCustomerId == Some(customer)
  }

  /** `.eq('stripe_subscription_id', subscription)`. */
  predicate OfSubscription(row: UserRow, subscription: string) {
    row.stripeSubscriptionId == Some(subscription)
  }

  /** The columns a created or updated subscription writes. */
  function WithSubscription(row: UserRow, sub: StripeObject, now: string): UserRow {
    row.(subscriptionStatus := sub.status, subscriptionTier := TIER,
         stripeSubscriptionId := Some(sub.id), updatedAt := now)
  }

  /** The columns a status change writes. */
  function WithStatus(row: UserRow, status: string, now: string): UserRow {
    row.(subscriptionStatus := status, updatedAt := now)
  }

  /** A created or updated subscription, applied to every row of its customer. */
  function SetSubscription(rows: seq<UserRow>, sub: StripeObject, now: string): (r: seq<UserRow>)
    ensures |r| == |rows|
    ensures forall i :: 0 <= i < |rows| ==>
              r[i] == if OfCustomer(rows[i], sub.customer) then WithSubscription(rows[i], sub, now) else rows[i]
  {
    if rows == [] then []
    else
      [if OfCustomer(rows[0], sub.customer) then WithSubscription(rows[0], sub, now) else rows[0]]
      + SetSubscription(rows[1..], sub, now)
  }

  /** A status written to every row of a customer. */
  function SetStatusOfCustomer(rows: seq<UserRow>, customer: string, status: string, now: string): (r: seq<UserRow>)
    ensures |r| == |rows|
    ensures forall i :: 0 <= i < |rows| ==>
              r[i] == if OfCustomer(rows[i], customer) then WithStatus(rows[i], status, now) else rows[i]
  {
    if rows == [] then []
    else
      [if OfCustomer(rows[0], customer) then WithStatus(rows[0], status, now) else rows[0]]
      + SetStatusOfCustomer(rows[1..], customer, status, now)
  }

  /** A status written to every row holding a subscription. */
  function SetStatusOfSubscription(rows: seq<UserRow>, subscription: string, status: string, now: string): (r: seq<UserRow>)
    ensures |r| == |rows|
    ensures forall i :: 0 <= i < |rows| ==>
              r[i] == if OfSubscription(rows[i], subscription) then WithStatus(rows[i], status, now) else rows[i]
  {
    if rows == [] then []
    else
      [if OfSubscription(rows[0], subscription) then WithStatus(rows[0], status, now) else rows[0]]
      + SetStatusOfSubscription(rows[1..], subscription, status, now)
  }

  /**
   * The effect of a verified event on the table: the body of the `switch`.
   * Row ids and customer ids are never written: the table keeps its shape.
   */
  function Apply(rows: seq<UserRow>, e: Event, now: string): (r: seq<UserRow>)
    ensures |r| == |rows|
    ensures forall i :: 0 <= i < |rows| ==> r[i].id == rows[i].id && r[i].stripeCustomerId == rows[i].stripeCustomerId
  {
    if e.kind == SUBSCRIPTION_CREATED || e.kind == SUBSCRIPTION_UPDATED then
      SetSubscription(rows, e.data, now)
    else if e.kind == SUBSCRIPTION_DELETED then
      SetStatusOfCustomer(rows, e.data.customer, "cancelled", now)
    else if e.kind == PAYMENT_SUCCEEDED && Truthy(e.data.subscription) then
      SetStatusOfSubscription(rows, e.data.subscription.value, "active", now)
    else if e.kind == PAYMENT_FAILED && Truthy(e.data.subscription) then
      SetStatusOfSubscription(rows, e.data.subscription.value, "past_due", now)
    else rows
  }

  // ---------------------------------------------------------------- properties

  /**
   * A created or updated subscription gives every row of its customer the
   * subscription's status, the weekly tier and the subscription id; no other
   * row changes, and no row changes its identity or customer.
   */
  lemma SubscriptionEventUpdatesCustomerRows(rows: seq<UserRow>, e: Event, now: string)
    requires e.kind == SUBSCRIPTION_CREATED || e.kind == SUBSCRIPTION_UPDATED
    ensures |Apply(rows, e, now)| == |rows|
    ensures forall i :: 0 <= i < |rows| && OfCustomer(rows[i], e.data.customer) ==>
              var row := Apply(rows, e, now)[i];
              row.subscriptionStatus == e.data.status && row.subscriptionTier == TIER
              && row.stripeSubscriptionId == Some(e.data.id) && row.updatedAt == now
              && row.id == rows[i].id && row.stripeCustomerId == rows[i].stripeCustomerId
    ensures forall i :: 0 <= i < |rows| && !OfCustomer(rows[i], e.data.customer) ==>
              Apply(rows, e, now)[i] == rows[i]
  {
  }

  /**
   * A deleted subscription marks every row of its customer 'cancelled' and
   * keeps its tier and subscription id; no other row changes.
   */
  lemma DeletedSubscriptionCancels(rows: seq<UserRow>, e: Event, now: string)
    requires e.kind == SUBSCRIPTION_DELETED
    ensures |Apply(rows, e, now)| == |rows|
    ensures forall i :: 0 <= i < |rows| && OfCustomer(rows[i], e.data.customer) ==>
              Apply(rows, e, now)[i] == rows[i].(subscriptionStatus := "cancelled", updatedAt := now)
    ensures forall i :: 0 <= i < |rows| && !OfCustomer(rows[i], e.data.customer) ==>
              Apply(rows, e, now)[i] == rows[i]
  {
  }

  /**
   * An invoice event for a subscription sets the status of the rows holding
   * that subscription: 'active' when paid, 'past_due' when the payment failed.
   */
  lemma InvoiceEventSetsStatus(rows: seq<UserRow>, e: Event, now: string)
    requires e.kind == PAYMENT_SUCCEEDED || e.kind == PAYMENT_FAILED
    requires Truthy(e.data.subscription)
    ensures |Apply(rows, e, now)| == |rows|
    ensures forall i :: 0 <= i < |rows| && OfSubscription(rows[i], e.data.subscription.value) ==>
              Apply(rows, e, now)[i]
                == rows[i].(subscriptionStatus := if e.kind == PAYMENT_SUCCEEDED then "active" else "past_due",
                            updatedAt := now)
    ensures forall i :: 0 <= i < |rows| && !OfSubscription(rows[i], e.data.subscription.value) ==>
              Apply(rows, e, now)[i] == rows[i]
  {
  }

  /** An invoice without a subscription, or an event of any other type, leaves the table as it was. */
  lemma OtherEventsChangeNothing(rows: seq<UserRow>, e: Event, now: string)
    requires e.kind !in {SUBSCRIPTION_CREATED, SUBSCRIPTION_UPDATED, SUBSCRIPTION_DELETED}
    requires e.kind in {PAYMENT_SUCCEEDED, PAYMENT_FAILED} ==> !Truthy(e.data.subscription)
    ensures Apply(rows, e, now) == rows
  {
  }

  /**
   * Stripe may deliver an event more than once: handling it again at the same
   * time changes nothing more, because no update touches the column it
   * selects rows by.
   */
  lemma {:induction false} RedeliveryIsHarmless(rows: seq<UserRow>, e: Event, now: string)
    ensures Apply(Apply(rows, e, now), e, now) == Apply(rows, e, now)
  {
    var once := Apply(rows, e, now);
    var twice := Apply(once, e, now);
    assert |twice| == |once|;
    forall i | 0 <= i < |rows| ensures twice[i] == once[i] {
      if e.kind == SUBSCRIPTION_CREATED || e.kind == SUBSCRIPTION_UPDATED {
        assert OfCustomer(once[i], e.data.customer) == OfCustomer(rows[i], e.data.customer);
      } else if e.kind == SUBSCRIPTION_DELETED {
        assert OfCustomer(once[i], e.data.customer) == OfCustomer(rows[i], e.data.customer);
      } else if (e.kind == PAYMENT_SUCCEEDED || e.kind == PAYMENT_FAILED) && Truthy(e.data.subscription) {
        assert OfSubscription(once[i], e.data.subscription.value)
               == OfSubscription(rows[i], e.data.subscription.value);
      }
    }
  }

  // ---------------------------------------------------------------- the table and the handler

  /** The `users` table, updated in place. */
  class UsersTable {
    var rows: seq<UserRow>

    constructor(initial: seq<UserRow>)
      ensures rows == initial
    {
      rows := initial;
    }

    /** `update({status, tier: 'weekly', subscription id, updated_at}).eq('stripe_customer_id', ...)`. */
    method UpdateSubscription(sub: StripeObject, now: string)
      modifies this
      ensures rows == SetSubscription(old(rows), sub, now)
    {
      rows := SetSubscription(rows, sub, now);
    }

    /** `update({subscription_status, updated_at}).eq('stripe_customer_id', customer)`. */
    method UpdateStatusOfCustomer(customer: string, status: string, now: string)
      modifies this
      ensures rows == SetStatusOfCustomer(old(rows), customer, status, now)
    {
      rows := SetStatusOfCustomer(rows, customer, status, now);
    }

    /** `update({subscription_status, updated_at}).eq('stripe_subscription_id', subscription)`. */
    method UpdateStatusOfSubscription(subscription: string, status: string, now: string)
      modifies this
      ensures rows == SetStatusOfSubscription(old(rows), subscription, status, now)
    {
      rows := SetStatusOfSubscription(rows, subscription, status, now);
    }
  }

  /**
   * `POST /api/webhooks/stripe`. `stripeKey` and `webhookSecret` are the
   * environment, `signature` the `stripe-signature` header, `construct` the
   * signature check (`None` where `constructEvent` throws) and `now` the
   * clock. The table changes only for a verified event.
   */
  method Post(users: UsersTable, stripeKey: Option<string>, webhookSecret: Option<string>,
              body: string, signature: Option<string>,
              construct: (string, string, string) -> Option<Event>, now: string)
    returns (r: Response)
    modifies users
    ensures !Truthy(stripeKey) ==> r == StripeNotConfigured
    ensures Truthy(stripeKey) && !Truthy(webhookSecret) ==> r == SecretNotConfigured
    ensures Truthy(stripeKey) && Truthy(webhookSecret) && !Truthy(signature) ==> r == NoSignature
    ensures Truthy(stripeKey) && Truthy(webhookSecret) && Truthy(signature) ==>
              match construct(body, signature.value, webhookSecret.value)
              case None => r == InvalidSignature
              case Some(e) => r == Received && users.rows == Apply(old(users.rows), e, now)
    ensures r != Received ==> users.rows == old(users.rows)
  {
    if !Truthy(stripeKey) {
      return StripeNotConfigured;
    }
    if !Truthy(webhookSecret) {
      return SecretNotConfigured;
    }
    if !Truthy(signature) {
      return NoSignature;
    }
    var verified := construct(body, signature.value, webhookSecret.value);
    if verified.None? {
      return InvalidSignature;
    }
    var e := verified.value;
    if e.kind == SUBSCRIPTION_CREATED || e.kind == SUBSCRIPTION_UPDATED {
      users.UpdateSubscription(e.data, now);
    } else if e.kind == SUBSCRIPTION_DELETED {
      users.UpdateStatusOfCustomer(e.data.customer, "cancelled", now);
    } else if e.kind == PAYMENT_SUCCEEDED {
      if Truthy(e.data.subscription) {
        users.UpdateStatusOfSubscription(e.data.subscription.value, "active", now);
      }
    } else if e.kind == PAYMENT_FAILED {
      if Truthy(e.data.subscription) {
        users.UpdateStatusOfSubscription(e.data.subscription.value, "past_due", now);
      }
    }
    return Received;
  }
}
