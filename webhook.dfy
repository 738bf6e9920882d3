/** The payment webhook (src/controllers/webhook.ts): three guards in a
    fixed order (signature header, signature check, order id), then a
    dispatch on the event type to a status update. The decision is a pure
    function; `HandleStripeWebhook` applies it to the order table. */
module Webhook {
  import opened Wrappers
  import opened JsNumbers
  import opened Orders
  import opened StripeCheckout

  /** The reply: a 400 with an error message, or `{ received: true }`. */
  datatype WebhookResponse = Rejected(status: int, error: string) | Received

  datatype StatusUpdate = NoUpdate | SetStatus(orderId: nat, status: string)

  datatype WebhookOutcome = WebhookOutcome(response: WebhookResponse, update: StatusUpdate)

  const Paid: string := "paid"
  const Cancelled: string := "cancelled"

  /** The Stripe event types the handler acts on. */
  const SessionCompleted: string := "checkout.session.completed"
  const PaymentSucceeded: string := "checkout.session.async_payment_succeeded"
  const SessionExpired: string := "checkout.session.expired"
  const PaymentFailed: string := "checkout.session.async_payment_failed"

  /** The `switch` on `event.type`. */
  function StatusForEvent(eventType: string): (r: Option<string>)
    ensures r == Some(Paid) <==>
      eventType == SessionCompleted || eventType == PaymentSucceeded
    ensures r == Some(Cancelled) <==>
      eventType == SessionExpired || eventType == PaymentFailed
    ensures r.None? || r == Some(Paid) || r == Some(Cancelled)
  {
    if eventType == SessionCompleted || eventType == PaymentSucceeded then Some(Paid)
    else if eventType == SessionExpired || eventType == PaymentFailed then Some(Cancelled)
    else None
  }

  /** `parseInt(session.metadata?.orderId || '')`, kept only when it is a
      positive integer. */
  function OrderIdOf(metadataOrderId: Option<string>): (r: Option<nat>)
    ensures var text := if metadataOrderId.Some? then metadataOrderId.value else "";
      r.Some? <==> ParseInt(text).Some? && ParseInt(text).value > 0
    ensures var text := if metadataOrderId.Some? then metadataOrderId.value else "";
      r.Some? ==> r.value == ParseInt(text).value
    ensures r.Some? ==> r.value > 0
  {
    var text := match metadataOrderId case Some(s) => s case None => "";
    match ParseInt(text)
    case None => None
    case Some(n) => if n <= 0 then None else Some(n)
  }

  /** The whole handler as a decision: what it answers and which update it makes. */
  function StripeWebhook(sig: Option<string>, rawBody: string, webhookKey: string,
                         constructEvent: (string, string, string) -> Result<StripeEvent, string>)
    : (r: WebhookOutcome)
    ensures r.response.Rejected? ==> r.response.status == 400 && r.update == NoUpdate
    ensures r.update.SetStatus? ==> r.response == Received && r.update.orderId > 0
  {
    if sig.None? || sig.value == "" then
      WebhookOutcome(Rejected(400, "Missing stripe-signature header"), NoUpdate)
    else
      match GetConstructEvent(rawBody, sig.value, webhookKey, constructEvent)
      case None => WebhookOutcome(Rejected(400, "Invalid signature"), NoUpdate)
      case Some(event) =>
        match OrderIdOf(event.metadataOrderId)
        case None => WebhookOutcome(Rejected(400, "Invalid orderId in metadata"), NoUpdate)
        case Some(orderId) =>
          match StatusForEvent(event.eventType)
          case None => WebhookOutcome(Received, NoUpdate)
          case Some(status) => WebhookOutcome(Received, SetStatus(orderId, status))
  }

  function ApplyUpdate(orders: map<nat, Order>, update: StatusUpdate): map<nat, Order> {
    match update
    case NoUpdate => orders
    case SetStatus(id, status) => WithStatus(orders, id, status)
  }

  /** The guards, in order: the first one that fails decides the 400 and no
      update is made; an update is made only once all three pass, for the
      order id carried by the event. */
  lemma GuardsInOrder(sig: Option<string>, rawBody: string, webhookKey: string,
                      constructEvent: (string, string, string) -> Result<StripeEvent, string>)
    ensures var o := StripeWebhook(sig, rawBody, webhookKey, constructEvent);
      var verified := sig.Some? && sig.value != "" && constructEvent(rawBody, sig.value, webhookKey).Ok?;
      && (o.response.Rejected? ==> o.response.status == 400 && o.update == NoUpdate)
      && (sig.None? || sig.value == "" ==> o.response == Rejected(400, "Missing stripe-signature header"))
      && ((sig.Some? && sig.value != "" && constructEvent(rawBody, sig.value, webhookKey).Err?)
            ==> o.response == Rejected(400, "Invalid signature"))
      && ((verified && OrderIdOf(constructEvent(rawBody, sig.value, webhookKey).value.metadataOrderId).None?)
            ==> o.response == Rejected(400, "Invalid orderId in metadata"))
      && (o.response == Received <==>
            verified && OrderIdOf(constructEvent(rawBody, sig.value, webhookKey).value.metadataOrderId).Some?)
      && (o.update.SetStatus? ==>
            var event := constructEvent(rawBody, sig.value, webhookKey).value;
            && o.response == Received
            && Some(o.update.orderId) == OrderIdOf(event.metadataOrderId)
            && Some(o.update.status) == StatusForEvent(event.eventType))
  {
  }

  /** An accepted event marks its order paid or cancelled by its type, and any
      other type is answered without an update. */
  lemma DispatchOnType(sig: string, rawBody: string, webhookKey: string,
                       constructEvent: (string, string, string) -> Result<StripeEvent, string>)
    requires sig != "" && constructEvent(rawBody, sig, webhookKey).Ok?
    requires OrderIdOf(constructEvent(rawBody, sig, webhookKey).value.metadataOrderId).Some?
    ensures var event := constructEvent(rawBody, sig, webhookKey).value;
      var id := OrderIdOf(event.metadataOrderId).value;
      var o := StripeWebhook(Some(sig), rawBody, webhookKey, constructEvent);
      && (o.update == SetStatus(id, Paid) <==>
            event.eventType in {SessionCompleted, PaymentSucceeded})
      && (o.update == SetStatus(id, Cancelled) <==>
            event.eventType in {SessionExpired, PaymentFailed})
      && (o.update == NoUpdate <==> StatusForEvent(event.eventType).None?)
  {
  }

  /** The decimal text of a positive order id is read back as that id. */
  lemma OrderIdRoundTrip(orderId: nat)
    requires orderId > 0
    ensures OrderIdOf(Some(IntToString(orderId))) == Some(orderId)
  {
    ParseIntToString(orderId);
  }

  /** The order id written into the session metadata is read back by the
      webhook: a verified event for a session created for order `orderId`
      updates exactly that order. */
  lemma SessionMetadataReachesWebhook(session: SessionRequest, orderId: nat, sig: string, rawBody: string,
                                      webhookKey: string, eventType: string,
                                      constructEvent: (string, string, string) -> Result<StripeEvent, string>)
    requires orderId > 0 && session.metadataOrderId == IntToString(orderId) && sig != ""
    requires constructEvent(rawBody, sig, webhookKey) == Ok(StripeEvent(eventType, Some(session.metadataOrderId)))
    requires StatusForEvent(eventType).Some?
    ensures StripeWebhook(Some(sig), rawBody, webhookKey, constructEvent)
      == WebhookOutcome(Received, SetStatus(orderId, StatusForEvent(eventType).value))
  {
    OrderIdRoundTrip(orderId);
  }

  /** Delivering the same event twice leaves the orders as one delivery does. */
  lemma RedeliveryIsIdempotent(orders: map<nat, Order>, sig: Option<string>, rawBody: string, webhookKey: string,
                               constructEvent: (string, string, string) -> Result<StripeEvent, string>)
    ensures var u := StripeWebhook(sig, rawBody, webhookKey, constructEvent).update;
      ApplyUpdate(ApplyUpdate(orders, u), u) == ApplyUpdate(orders, u)
  {
    var u := StripeWebhook(sig, rawBody, webhookKey, constructEvent).update;
    if u.SetStatus? {
      WithStatusIdempotent(orders, u.orderId, u.status, u.status);
    }
  }

  /** The handler: decides, then applies the status update to the order table. */
  method HandleStripeWebhook(store: OrderStore, sig: Option<string>, rawBody: string, webhookKey: string,
                             constructEvent: (string, string, string) -> Result<StripeEvent, string>)
    returns (response: WebhookResponse)
    requires store.Valid()
    modifies store
    ensures store.Valid()
    ensures response == StripeWebhook(sig, rawBody, webhookKey, constructEvent).response
    ensures store.orders == ApplyUpdate(old(store.orders), StripeWebhook(sig, rawBody, webhookKey, constructEvent).update)
    ensures store.nextId == old(store.nextId)
  {
    var outcome := StripeWebhook(sig, rawBody, webhookKey, constructEvent);
    match outcome.update {
      case NoUpdate =>
      case SetStatus(id, status) =>
        store.UpdateOrderStatus(id, status);
    }
    response := outcome.response;
  }
}
