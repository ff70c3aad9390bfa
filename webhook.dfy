/**
 * The Stripe webhook's event handlers and router (stripe_webhook.py): each
 * handler reads the event's `data.object` and drives the subscription ledger;
 * the endpoint maps a bad signature or body to 400, a failed handler to 500
 * and anything else to 200. Redelivered events are processed again: there is
 * no deduplication and no payment log.
 */
module Webhook {
  import opened Wrappers
  import opened Seqs
  import opened Accounts
  import opened BotConfig
  import opened UserState
  import opened WebhookSignature
  import opened FeedStore

  /**
   * The fields of `event["data"]["object"]` the handlers read; a missing
   * field (or a missing `data` or `object`) is `None`.
   */
  datatype EventObject = EventObject(
    userId: Option<string>,       // metadata.telegram_user_id
    tier: Option<string>,         // metadata.tier
    subscription: Option<string>, // subscription (checkout session)
    customer: Option<string>,     // customer
    id: Option<string>,           // id (subscription object)
    status: Option<string>,       // status
    periodEnd: Option<int>)       // current_period_end, seconds since the epoch

  datatype Event = Event(kind: Option<string>, obj: EventObject)

  /**
   * What `json.loads` makes of a body: not JSON at all (it raises
   * `JSONDecodeError`), JSON that is not an object (a list, a number, ...),
   * or an object, of which the fields the handlers read are kept.
   */
  datatype Decoded = NotJson | NotObject | JsonObject(event: Event)

  /**
   * How the endpoint ends: an HTTP status, or an exception that escapes it.
   * Flask answers an escaped exception with 500; the Lambda runtime reports
   * the invocation itself as failed.
   */
  datatype Outcome = Status(code: int) | Raised

  /** Python truthiness of an optional text: present and non-empty. */
  predicate Present(o: Option<string>)
  {
    o.Some? && o.value != ""
  }

  /** `timedelta(days=30)` in seconds. */
  const MonthSeconds := 30 * 86400

  /** The tier `subscription.updated` asks for: the metadata's, defaulting to "basic". */
  function UpdatedTier(o: EventObject): string
  {
    o.tier.GetOr("basic")
  }

  /** The expiry `subscription.updated` stores: the period end when it is non-zero, else thirty days from now. */
  function UpdatedExpiry(o: EventObject, now: int): (e: Expiry)
    ensures e.At?
    ensures o.periodEnd.Some? && o.periodEnd.value != 0 ==> e.time == o.periodEnd.value
    ensures o.periodEnd.None? || o.periodEnd == Some(0) ==> e.time == now + MonthSeconds
  {
    match o.periodEnd
    case Some(t) => if t != 0 then At(t) else At(now + MonthSeconds)
    case None => At(now + MonthSeconds)
  }

  /**
   * `handle_checkout_completed`: without a user id, tier and subscription id
   * it fails untouched; otherwise the upgrade's own result decides, with an
   * expiry thirty days from now.
   */
  function CheckoutCompleted(s: State, o: EventObject, now: int): (r: (bool, State))
    ensures r.0 <==> Present(o.userId) && Present(o.subscription) && o.tier.Some? && IsTier(o.tier.value)
    ensures !r.0 ==> r.1 == s
    ensures r.0 ==>
      && OnlyTouches(s, r.1, o.userId.value)
      && r.1.accounts[o.userId.value].sub
         == Subscription(o.tier.value, o.customer, o.subscription, At(now + MonthSeconds), Record(s, o.userId.value, now).sub.createdAt)
    ensures Valid(s) ==> Valid(r.1)
  {
    if !(Present(o.userId) && Present(o.tier) && Present(o.subscription)) then (false, s)
    else Upgrade(s, o.userId.value, o.tier.value, o.customer, o.subscription, At(now + MonthSeconds), now)
  }

  /**
   * `handle_subscription_updated`: no user id fails; a status other than
   * "active" succeeds without a change; an active subscription is upgraded
   * to its tier (default "basic"), which fails for a tier outside the table.
   */
  function SubscriptionUpdated(s: State, o: EventObject, now: int): (r: (bool, State))
    ensures !Present(o.userId) ==> r == (false, s)
    ensures Present(o.userId) && o.status != Some("active") ==> r == (true, s)
    ensures Present(o.userId) && o.status == Some("active") ==>
      && (r.0 <==> IsTier(UpdatedTier(o)))
      && (!r.0 ==> r.1 == s)
      && (r.0 ==> OnlyTouches(s, r.1, o.userId.value)
                  && r.1.accounts[o.userId.value].sub
                     == Subscription(UpdatedTier(o), o.customer, o.id, UpdatedExpiry(o, now), Record(s, o.userId.value, now).sub.createdAt))
    ensures Valid(s) ==> Valid(r.1)
  {
    if !Present(o.userId) then (false, s)
    else if o.status == Some("active") then
      Upgrade(s, o.userId.value, UpdatedTier(o), o.customer, o.id, UpdatedExpiry(o, now), now)
    else (true, s)
  }

  /** `handle_subscription_deleted`: no user id fails; otherwise the user is downgraded and the call succeeds. */
  function SubscriptionDeleted(s: State, c: Config, o: EventObject, now: int): (r: (bool, State))
    ensures r.0 <==> Present(o.userId)
    ensures !r.0 ==> r.1 == s
    ensures r.0 ==> r.1 == Downgrade(s, c, o.userId.value, now)
    ensures r.0 && !IsPrivileged(c, o.userId.value) ==> r.1.accounts[o.userId.value].sub.tier == "free"
    ensures Valid(s) ==> Valid(r.1)
  {
    if !Present(o.userId) then (false, s)
    else (true, Downgrade(s, c, o.userId.value, now))
  }

  /** Whether the record at position `i` of the insertion order carries the customer id. */
  predicate PaysAs(s: State, i: nat, customer: Option<string>)
    requires i < |s.order|
  {
    s.order[i] in s.accounts && s.accounts[s.order[i]].sub.customerId == customer
  }

  /** The first position, from `from` on, whose record carries the customer id. */
  function FirstPayerFrom(s: State, customer: Option<string>, from: nat): (r: Option<nat>)
    requires from <= |s.order|
    ensures r.Some? ==> from <= r.value < |s.order| && PaysAs(s, r.value, customer)
    ensures forall j :: from <= j < |s.order| && (r.None? || j < r.value) ==> !PaysAs(s, j, customer)
    decreases |s.order| - from
  {
    if from == |s.order| then None
    else if PaysAs(s, from, customer) then Some(from)
    else FirstPayerFrom(s, customer, from + 1)
  }

  /**
   * Who `handle_payment_failed` notifies: the first user, in insertion
   * order, whose stored customer id equals the invoice's (two missing ids
   * count as equal), provided that user id is non-empty.
   */
  function PaymentFailedRecipient(s: State, customer: Option<string>): (r: Option<string>)
    ensures r.Some? ==> r.value != "" && r.value in s.accounts && s.accounts[r.value].sub.customerId == customer
    ensures r.Some? ==> exists i :: 0 <= i < |s.order| && s.order[i] == r.value && forall j :: 0 <= j < i ==> !PaysAs(s, j, customer)
    ensures r.None? ==> forall j :: 0 <= j < |s.order| ==> !PaysAs(s, j, customer) || s.order[j] == "" || exists k :: 0 <= k < j && PaysAs(s, k, customer)
  {
    match FirstPayerFrom(s, customer, 0)
    case None => None
    case Some(i) => if s.order[i] != "" then Some(s.order[i]) else None
  }

  /** The four event types routed to a handler. */
  const CheckoutKind := "checkout.session.completed"
  const UpdatedKind := "customer.subscription.updated"
  const DeletedKind := "customer.subscription.deleted"
  const PaymentFailedKind := "invoice.payment_failed"

  predicate Routed(kind: string)
  {
    kind == CheckoutKind || kind == UpdatedKind || kind == DeletedKind || kind == PaymentFailedKind
  }

  /**
   * `process_webhook_event`: dispatch on the type (missing reads as ""); an
   * unrouted type and a payment failure succeed without touching the state.
   */
  function Process(s: State, c: Config, e: Event, now: int): (r: (bool, State))
    ensures !Routed(e.kind.GetOr("")) ==> r == (true, s)
    ensures e.kind == Some(PaymentFailedKind) ==> r == (true, s)
    ensures r.1 == s || (Present(e.obj.userId) && OnlyTouches(s, r.1, e.obj.userId.value))
    ensures !r.0 ==> r.1 == s
    ensures Valid(s) ==> Valid(r.1)
  {
    var kind := e.kind.GetOr("");
    if kind == CheckoutKind then CheckoutCompleted(s, e.obj, now)
    else if kind == UpdatedKind then SubscriptionUpdated(s, e.obj, now)
    else if kind == DeletedKind then SubscriptionDeleted(s, c, e.obj, now)
    else (true, s)
  }

  /**
   * The webhook endpoint (the Flask route and the Lambda handler answer
   * alike): a signature that does not verify is 400 before the body is read,
   * a body that is not JSON is 400, a failed handler 500, otherwise 200.
   * JSON that is not an object gets past `json.loads` and then raises in
   * `event.get("type", "")`, which neither endpoint catches. `parse` stands
   * for `json.loads`.
   */
  function Respond(s: State, c: Config, payload: Option<string>, header: string, secret: Option<string>, now: int,
                   mac: (string, string) -> string, parse: string -> Decoded): (r: (Outcome, State))
    ensures !Verify(payload, header, secret, now, mac) ==> r == (Status(400), s)
    ensures Verify(payload, header, secret, now, mac) && parse(payload.value).NotJson? ==> r == (Status(400), s)
    ensures Verify(payload, header, secret, now, mac) && parse(payload.value).NotObject? ==> r == (Raised, s)
    ensures Verify(payload, header, secret, now, mac) && parse(payload.value).JsonObject? ==>
      var p := Process(s, c, parse(payload.value).event, now);
      r.1 == p.1 && (r.0 == Status(200) <==> p.0) && (r.0 == Status(500) <==> !p.0)
    ensures r.0 == Status(200) || r.0 == Status(400) || r.0 == Status(500) || r.0 == Raised
    ensures r.0 != Status(200) ==> r.1 == s
  {
    if !Verify(payload, header, secret, now, mac) then (Status(400), s)
    else match parse(payload.value)
      case NotJson => (Status(400), s)
      case NotObject => (Raised, s)
      case JsonObject(e) =>
        var p := Process(s, c, e, now);
        (if p.0 then Status(200) else Status(500), p.1)
  }

  // ----- Properties of the ledger the webhook drives -----

  /**
   * Without deduplication, a checkout event delivered again later renews
   * the subscription from the later delivery time; everything else about
   * the record is as after the first delivery.
   */
  lemma {:induction false} CheckoutRedeliveryRenews(s: State, o: EventObject, first: int, again: int)
    requires CheckoutCompleted(s, o, first).0
    ensures var once := CheckoutCompleted(s, o, first).1;
      var twice := CheckoutCompleted(once, o, again);
      && twice.0
      && twice.1.accounts[o.userId.value] == once.accounts[o.userId.value].(sub := once.accounts[o.userId.value].sub.(expiresAt := At(again + MonthSeconds)))
      && twice.1.order == once.order
  {
    var uid := o.userId.value;
    var once := CheckoutCompleted(s, o, first).1;
    assert uid in once.accounts;
    assert Record(once, uid, again) == once.accounts[uid];
  }

  /**
   * "basic" is offered for checkout and is the default tier of subscription
   * updates, but it is not in the tier table: such events fail (HTTP 500)
   * and change nothing.
   */
  lemma BasicTierRefused(s: State, c: Config, o: EventObject, now: int)
    requires o.tier.None? || o.tier == Some("basic")
    ensures CheckoutCompleted(s, o, now) == (false, s)
    ensures Present(o.userId) && o.status == Some("active") ==> SubscriptionUpdated(s, o, now) == (false, s)
  {
    TierTableShape();
  }

  /** A failed handler makes the endpoint answer 500 with the state untouched; Stripe will retry. */
  lemma {:induction false} FailedHandlerIs500(s: State, c: Config, payload: string, header: string, secret: Option<string>, now: int,
                                              mac: (string, string) -> string, parse: string -> Decoded)
    requires Verify(Some(payload), header, secret, now, mac) && parse(payload).JsonObject?
    requires parse(payload).event.kind == Some(CheckoutKind)
    requires parse(payload).event.obj.tier == Some("basic")
    ensures Respond(s, c, Some(payload), header, secret, now, mac, parse) == (Status(500), s)
  {
    BasicTierRefused(s, c, parse(payload).event.obj, now);
  }

  /**
   * An invoice without a customer id matches the first user who has none,
   * typically a user who never paid, rather than nobody.
   */
  lemma MissingCustomerMatchesUnpaid(s: State, uid: string)
    requires |s.order| > 0 && s.order[0] == uid && uid != ""
    requires uid in s.accounts && s.accounts[uid].sub.customerId.None?
    ensures PaymentFailedRecipient(s, None) == Some(uid)
  {
    assert PaysAs(s, 0, None);
  }

  // ----- The handlers as they drive the store -----

  /** The loop of `handle_payment_failed`: scan the users in order and stop at the first match. */
  method FindPaymentFailedRecipient(store: Store, customer: Option<string>) returns (recipient: Option<string>)
    ensures recipient == PaymentFailedRecipient(store.Snapshot(), customer)
  {
    ghost var s := store.Snapshot();
    var order := store.order;
    var i := 0;
    while i < |order|
      invariant 0 <= i <= |order| && order == s.order && store.accounts == s.accounts
      invariant FirstPayerFrom(s, customer, 0) == FirstPayerFrom(s, customer, i)
    {
      var uid := order[i];
      if uid in store.accounts && store.accounts[uid].sub.customerId == customer {
        assert PaysAs(s, i, customer);
        if uid != "" {
          return Some(uid);
        }
        return None;
      }
      i := i + 1;
    }
    recipient := None;
  }

  method HandleCheckoutCompleted(store: Store, o: EventObject, now: int) returns (ok: bool)
    requires store.Valid()
    modifies store
    ensures store.Valid()
    ensures (ok, store.Snapshot()) == CheckoutCompleted(old(store.Snapshot()), o, now)
    ensures store.Settings() == old(store.Settings()) && store.directory == old(store.directory)
  {
    if !(Present(o.userId) && Present(o.tier) && Present(o.subscription)) {
      return false;
    }
    ok := store.UpgradeSubscription(o.userId.value, o.tier.value, o.customer, o.subscription, At(now + MonthSeconds), now);
  }

  method HandleSubscriptionUpdated(store: Store, o: EventObject, now: int) returns (ok: bool)
    requires store.Valid()
    modifies store
    ensures store.Valid()
    ensures (ok, store.Snapshot()) == SubscriptionUpdated(old(store.Snapshot()), o, now)
    ensures store.Settings() == old(store.Settings()) && store.directory == old(store.directory)
  {
    if !Present(o.userId) {
      return false;
    }
    if o.status == Some("active") {
      ok := store.UpgradeSubscription(o.userId.value, UpdatedTier(o), o.customer, o.id, UpdatedExpiry(o, now), now);
      return;
    }
    ok := true;
  }

  method HandleSubscriptionDeleted(store: Store, o: EventObject, now: int) returns (ok: bool)
    requires store.Valid()
    modifies store
    ensures store.Valid()
    ensures (ok, store.Snapshot()) == SubscriptionDeleted(old(store.Snapshot()), old(store.Settings()), o, now)
    ensures store.Settings() == old(store.Settings()) && store.directory == old(store.directory)
  {
    if !Present(o.userId) {
      return false;
    }
    store.DowngradeToFree(o.userId.value, now);
    ok := true;
  }

  method ProcessEvent(store: Store, e: Event, now: int) returns (ok: bool)
    requires store.Valid()
    modifies store
    ensures store.Valid()
    ensures (ok, store.Snapshot()) == Process(old(store.Snapshot()), old(store.Settings()), e, now)
    ensures store.Settings() == old(store.Settings()) && store.directory == old(store.directory)
  {
    var kind := e.kind.GetOr("");
    if kind == CheckoutKind {
      ok := HandleCheckoutCompleted(store, e.obj, now);
    } else if kind == UpdatedKind {
      ok := HandleSubscriptionUpdated(store, e.obj, now);
    } else if kind == DeletedKind {
      ok := HandleSubscriptionDeleted(store, e.obj, now);
    } else if kind == PaymentFailedKind {
      var _ := FindPaymentFailedRecipient(store, e.obj.customer);
      ok := true;
    } else {
      ok := true;
    }
  }

  /** The Lambda handler on the store; the Flask route is the same. */
  method HandleRequest(store: Store, payload: Option<string>, header: string, secret: Option<string>, now: int,
                       mac: (string, string) -> string, parse: string -> Decoded) returns (outcome: Outcome)
    requires store.Valid()
    modifies store
    ensures store.Valid()
    ensures (outcome, store.Snapshot()) == Respond(old(store.Snapshot()), old(store.Settings()), payload, header, secret, now, mac, parse)
    ensures store.Settings() == old(store.Settings()) && store.directory == old(store.directory)
  {
    if !Verify(payload, header, secret, now, mac) {
      return Status(400);
    }
    match parse(payload.value) {
      case NotJson =>
        return Status(400);
      case NotObject =>
        return Raised;
      case JsonObject(e) =>
        var ok := ProcessEvent(store, e, now);
        outcome := if ok then Status(200) else Status(500);
    }
  }
}
