/** The payment-processor webhook and the order ledger it drives.

    The handler runs four guards in order (client configured, webhook secret
    configured, signature valid, not a test event) and then dispatches on the
    event type: a completed checkout inserts an order, a failed payment and a
    refund set the status of the orders holding the payment intent, and any
    other type is acknowledged. An exception anywhere in the dispatch (the
    insert breaking a constraint) becomes a 500 answer.

    The signature check is the input `sig`: the verified event, or the
    message of the verification error. The notification transport's outcome
    is `transportOk`. */
module Webhook {
  import opened Common
  import opened Schema
  import Env
  import Email
  import Db

  // ----------------------------------------------------------------------
  // Events and answers

  /** The fields of `event.data.object` the handler reads. For a checkout
      session `id` is the session id; for a payment intent it is the intent
      reference; for a charge `paymentIntent` is the intent it belongs to. */
  datatype EventObject = EventObject(
    id: string,
    metadata: Option<map<string, string>>,
    paymentIntent: Option<string>,
    amountTotal: Option<int>,
    customerEmail: Option<string>,
    lastPaymentError: Option<string>,
    receiptEmail: Option<string>)

  datatype Event = Event(id: string, eventType: string, data: EventObject)

  const CheckoutCompletedType := "checkout.session.completed"
  const PaymentFailedType := "payment_intent.payment_failed"
  const ChargeRefundedType := "charge.refunded"
  const TestEventPrefix := "evt_test_"

  datatype Body = ErrorBody(error: string) | VerifiedBody | ReceivedBody

  datatype Response = Response(status: nat, body: Body)

  const StripeNotConfigured := Response(500, ErrorBody("Stripe not configured"))
  const SecretNotConfigured := Response(500, ErrorBody("Webhook secret not configured"))
  const InternalError := Response(500, ErrorBody("Internal server error"))
  const Verified := Response(200, VerifiedBody)
  const Received := Response(200, ReceivedBody)

  function SignatureError(message: string): Response {
    Response(400, ErrorBody("Webhook Error: " + message))
  }

  /** The ledger after one delivery, the answer, and the owner notification
      attempted, if any. */
  datatype Step = Step(response: Response, orders: seq<Order>, nextId: nat, notice: Option<Email.Delivery>)

  // ----------------------------------------------------------------------
  // Metadata

  /** `parseInt(metadata[key])`: an absent key is `parseInt(undefined)`,
      which parses the text "undefined" and gives NaN. */
  function MetadataInt(m: map<string, string>, key: string): Option<int> {
    ParseInt(Rendered(Lookup(m, key)))
  }

  lemma MetadataIntOfKey(m: map<string, string>, key: string)
    requires key in m
    ensures MetadataInt(m, key) == ParseInt(m[key])
  {
  }

  /** A key holding the decimal string of `n` is read back as `n`. */
  lemma MetadataIntOfNumeral(m: map<string, string>, key: string, n: int)
    requires key in m && m[key] == IntToString(n)
    ensures MetadataInt(m, key) == Some(n)
  {
    MetadataIntOfKey(m, key);
    ParseIntOfIntToString(n);
  }

  /** The range of a MySQL `int` column. */
  predicate FitsInt(v: int) {
    -0x8000_0000 <= v < 0x8000_0000
  }

  // ----------------------------------------------------------------------
  // The three mutations

  /** The amount a session records: `amount_total`, or 0 when absent. */
  function SessionAmount(session: EventObject): Cents {
    session.amountTotal.GetOr(0)
  }

  /** The row a completed checkout inserts. */
  function CompletionRow(id: nat, userId: int, productId: int, session: EventObject): Order {
    Order(id, userId, productId, session.paymentIntent, SessionAmount(session), Completed, Some("stripe"),
          Some(OrderMetadata(session.id, session.customerEmail)))
  }

  /** Whether the insert of a completed checkout raises: a NaN or out-of-range
      id, an amount the decimal(10,2) column cannot hold, or a payment intent
      some row already holds (the unique key). */
  predicate InsertFails(orders: seq<Order>, userId: Option<int>, productId: Option<int>, session: EventObject) {
    || userId.None? || productId.None?
    || !FitsInt(userId.value) || !FitsInt(productId.value)
    || !FitsDecimal(SessionAmount(session), 10)
    || IntentTaken(orders, session.paymentIntent)
  }

  /** Whether an `UPDATE ... WHERE stripePaymentIntentId = intent` selects the
      row; a null intent selects nothing. */
  predicate Matches(o: Order, intent: Option<string>) {
    intent.Some? && o.stripePaymentIntentId == intent
  }

  /** Sets `status` on exactly the rows whose payment intent is `intent`. */
  function SetStatusWhere(orders: seq<Order>, intent: Option<string>, status: OrderStatus): (r: seq<Order>)
    ensures |r| == |orders|
    ensures forall i :: 0 <= i < |orders| ==>
      r[i] == (if Matches(orders[i], intent) then orders[i].(status := status) else orders[i])
  {
    if orders == [] then []
    else [if Matches(orders[0], intent) then orders[0].(status := status) else orders[0]]
         + SetStatusWhere(orders[1..], intent, status)
  }

  /** `checkout.session.completed` with a connection and metadata: either
      the insert fails, the answer is 500 and nothing changes, or the answer
      is 200, one row is appended, the counter advances with it and the
      new-order notice is sent. */
  function Complete(session: EventObject, transportOk: bool, orders: seq<Order>, nextId: nat): (r: Step)
    requires session.metadata.Some?
    ensures r.response == InternalError || r.response == Received
    ensures r.response == InternalError ==> r.orders == orders && r.nextId == nextId && r.notice.None?
    ensures r.response == Received ==> |r.orders| == |orders| + 1
    ensures r.notice.Some? <==> r.response == Received
    ensures |r.orders| - |orders| == r.nextId - nextId
  {
    var meta := session.metadata.value;
    var userId := MetadataInt(meta, "user_id");
    var productId := MetadataInt(meta, "product_id");
    if InsertFails(orders, userId, productId, session) then
      Step(InternalError, orders, nextId, None)
    else
      var customerEmail := OrElse(session.customerEmail, Lookup(meta, "customer_email"));
      var productName := OrDefault(Lookup(meta, "product_name"), "Digital Product");
      Step(Received, orders + [CompletionRow(nextId, userId.value, productId.value, session)], nextId + 1,
           Some(Email.NotifyNewOrder(userId.value, Rendered(customerEmail), productName,
                                     SessionAmount(session), transportOk)))
  }

  /** The notice of a failed payment: order number 0, the receipt address or
      "Unknown", and the processor's message or "Unknown reason". */
  function FailureNotice(intent: EventObject, transportOk: bool): Email.Delivery {
    Email.NotifyPaymentFailed(0, OrDefault(intent.receiptEmail, "Unknown"), "Digital Product",
                              OrDefault(intent.lastPaymentError, "Unknown reason"), transportOk)
  }

  /** The event switch, after the guards: the answer is 200 or 500, a 500
      changes nothing, and at most one row is added. */
  function Dispatch(dbUp: bool, event: Event, transportOk: bool, orders: seq<Order>, nextId: nat): (r: Step)
    ensures r.response == Received || r.response == InternalError
    ensures r.response == InternalError ==> r.orders == orders && r.nextId == nextId && r.notice.None?
    ensures |r.orders| == |orders| || |r.orders| == |orders| + 1
    ensures !dbUp ==> r == Step(Received, orders, nextId, None)
  {
    var obj := event.data;
    if event.eventType == CheckoutCompletedType then
      if dbUp && obj.metadata.Some? then Complete(obj, transportOk, orders, nextId)
      else Step(Received, orders, nextId, None)
    else if event.eventType == PaymentFailedType then
      if dbUp then Step(Received, SetStatusWhere(orders, Some(obj.id), Failed), nextId,
                        Some(FailureNotice(obj, transportOk)))
      else Step(Received, orders, nextId, None)
    else if event.eventType == ChargeRefundedType then
      if dbUp then Step(Received, SetStatusWhere(orders, obj.paymentIntent, Refunded), nextId, None)
      else Step(Received, orders, nextId, None)
    else Step(Received, orders, nextId, None)
  }

  /** One delivery to the webhook endpoint: a delivery that does not reach
      the event switch is answered without touching the ledger or sending a
      notice, and a delivery that does is answered 200 or 500. */
  function Handle(cfg: Env.Config, dbUp: bool, sig: Result<Event, string>, transportOk: bool,
                  orders: seq<Order>, nextId: nat): (r: Step)
    ensures !Accepted(cfg, sig) ==> r.orders == orders && r.nextId == nextId && r.notice.None?
    ensures !Accepted(cfg, sig) ==> r.response != Received && r.response != InternalError
    ensures Accepted(cfg, sig) ==> r == Dispatch(dbUp, sig.value, transportOk, orders, nextId)
  {
    if !Env.StripeConfigured(cfg) then Step(StripeNotConfigured, orders, nextId, None)
    else if cfg.stripeWebhookSecret == "" then Step(SecretNotConfigured, orders, nextId, None)
    else if sig.Err? then Step(SignatureError(sig.error), orders, nextId, None)
    else if StartsWith(sig.value.id, TestEventPrefix) then Step(Verified, orders, nextId, None)
    else Dispatch(dbUp, sig.value, transportOk, orders, nextId)
  }

  /** The delivery reaches the event switch. */
  predicate Accepted(cfg: Env.Config, sig: Result<Event, string>) {
    Env.StripeConfigured(cfg) && cfg.stripeWebhookSecret != "" && sig.Ok?
    && !StartsWith(sig.value.id, TestEventPrefix)
  }

  // ----------------------------------------------------------------------
  // The ledger

  class Ledger {
    var orders: seq<Order>
    var nextId: nat

    ghost predicate Valid()
      reads this
    {
      OrdersWellFormed(orders, nextId)
    }

    constructor ()
      ensures Valid() && orders == [] && nextId == 1
    {
      orders := [];
      nextId := 1;
    }

    /** `handleStripeWebhook`. */
    method HandleWebhook(cfg: Env.Config, dbUp: bool, sig: Result<Event, string>, transportOk: bool)
      returns (response: Response, notice: Option<Email.Delivery>)
      requires Valid()
      modifies this
      ensures Valid()
      ensures var s := Handle(cfg, dbUp, sig, transportOk, old(orders), old(nextId));
        response == s.response && notice == s.notice && orders == s.orders && nextId == s.nextId
    {
      HandleKeepsWellFormed(cfg, dbUp, sig, transportOk, orders, nextId);
      notice := None;
      if !Env.StripeConfigured(cfg) {
        return StripeNotConfigured, None;
      }
      if cfg.stripeWebhookSecret == "" {
        return SecretNotConfigured, None;
      }
      if sig.Err? {
        return SignatureError(sig.error), None;
      }
      var event := sig.value;
      if StartsWith(event.id, TestEventPrefix) {
        return Verified, None;
      }
      response, notice := Apply(dbUp, event, transportOk);
    }

    /** The event switch, applied to the ledger. */
    method Apply(dbUp: bool, event: Event, transportOk: bool)
      returns (response: Response, notice: Option<Email.Delivery>)
      requires Valid()
      modifies this
      ensures Valid()
      ensures var s := Dispatch(dbUp, event, transportOk, old(orders), old(nextId));
        response == s.response && notice == s.notice && orders == s.orders && nextId == s.nextId
    {
      var obj := event.data;
      if event.eventType == CheckoutCompletedType && dbUp && obj.metadata.Some? {
        response, notice := ApplyCompletion(obj, transportOk);
        return;
      }
      notice := None;
      if event.eventType == PaymentFailedType && dbUp {
        MarkStatus(Some(obj.id), Failed);
        notice := Some(FailureNotice(obj, transportOk));
      } else if event.eventType == ChargeRefundedType && dbUp {
        MarkStatus(obj.paymentIntent, Refunded);
      }
      response := Received;
    }

    /** `UPDATE orders SET status = status WHERE stripePaymentIntentId = intent`. */
    method MarkStatus(intent: Option<string>, status: OrderStatus)
      requires Valid()
      modifies this
      ensures Valid()
      ensures orders == SetStatusWhere(old(orders), intent, status) && nextId == old(nextId)
    {
      SetStatusKeepsWellFormed(orders, nextId, intent, status);
      orders := SetStatusWhere(orders, intent, status);
    }

    /** A completed checkout with a connection and metadata, applied to the
        ledger. */
    method ApplyCompletion(obj: EventObject, transportOk: bool)
      returns (response: Response, notice: Option<Email.Delivery>)
      requires Valid() && obj.metadata.Some?
      modifies this
      ensures Valid()
      ensures var s := Complete(obj, transportOk, old(orders), old(nextId));
        response == s.response && notice == s.notice && orders == s.orders && nextId == s.nextId
    {
      CompleteKeepsWellFormed(obj, transportOk, orders, nextId);
      var meta := obj.metadata.value;
      var userId := MetadataInt(meta, "user_id");
      var productId := MetadataInt(meta, "product_id");
      if InsertFails(orders, userId, productId, obj) {
        return InternalError, None;
      }
      var row := CompletionRow(nextId, userId.value, productId.value, obj);
      var customerEmail := OrElse(obj.customerEmail, Lookup(meta, "customer_email"));
      var productName := OrDefault(Lookup(meta, "product_name"), "Digital Product");
      notice := Some(Email.NotifyNewOrder(userId.value, Rendered(customerEmail), productName,
                                          SessionAmount(obj), transportOk));
      orders := orders + [row];
      nextId := nextId + 1;
      response := Received;
    }
  }

  // ----------------------------------------------------------------------
  // Properties of one delivery

  /** Changing only statuses keeps the ids, amounts and intents, hence the
      unique keys. */
  lemma SetStatusKeepsWellFormed(orders: seq<Order>, nextId: nat, intent: Option<string>, status: OrderStatus)
    requires OrdersWellFormed(orders, nextId)
    ensures OrdersWellFormed(SetStatusWhere(orders, intent, status), nextId)
  {
    var r := SetStatusWhere(orders, intent, status);
    assert forall i :: 0 <= i < |r| ==>
      r[i].id == orders[i].id && r[i].amount == orders[i].amount
      && r[i].stripePaymentIntentId == orders[i].stripePaymentIntentId;
  }

  /** Appending a row under the next id, with an amount the column holds and
      an intent no row holds yet, keeps the keys unique. */
  lemma AppendKeepsWellFormed(orders: seq<Order>, nextId: nat, row: Order)
    requires OrdersWellFormed(orders, nextId)
    requires row.id == nextId && FitsDecimal(row.amount, 10)
    requires !IntentTaken(orders, row.stripePaymentIntentId)
    ensures OrdersWellFormed(orders + [row], nextId + 1)
  {
    var r := orders + [row];
    forall i, j | 0 <= i < j < |r| && r[i].stripePaymentIntentId.Some?
      ensures r[i].stripePaymentIntentId != r[j].stripePaymentIntentId
    {
      if j == |orders| {
        assert r[i] == orders[i];
      }
    }
  }

  /** A successful completion appends one row under a fresh id and with an
      intent no row holds yet. */
  lemma CompleteKeepsWellFormed(session: EventObject, transportOk: bool, orders: seq<Order>, nextId: nat)
    requires session.metadata.Some?
    requires OrdersWellFormed(orders, nextId)
    ensures var s := Complete(session, transportOk, orders, nextId);
      OrdersWellFormed(s.orders, s.nextId) && nextId <= s.nextId
  {
    var meta := session.metadata.value;
    var userId := MetadataInt(meta, "user_id");
    var productId := MetadataInt(meta, "product_id");
    if !InsertFails(orders, userId, productId, session) {
      AppendKeepsWellFormed(orders, nextId, CompletionRow(nextId, userId.value, productId.value, session));
    }
  }

  lemma DispatchKeepsWellFormed(dbUp: bool, event: Event, transportOk: bool, orders: seq<Order>, nextId: nat)
    requires OrdersWellFormed(orders, nextId)
    ensures var s := Dispatch(dbUp, event, transportOk, orders, nextId);
      OrdersWellFormed(s.orders, s.nextId) && nextId <= s.nextId
  {
    var obj := event.data;
    var s := Dispatch(dbUp, event, transportOk, orders, nextId);
    if event.eventType == CheckoutCompletedType {
      if dbUp && obj.metadata.Some? {
        CompleteKeepsWellFormed(obj, transportOk, orders, nextId);
      }
    } else if event.eventType == PaymentFailedType {
      if dbUp {
        SetStatusKeepsWellFormed(orders, nextId, Some(obj.id), Failed);
        assert s.orders == SetStatusWhere(orders, Some(obj.id), Failed) && s.nextId == nextId;
      }
    } else if event.eventType == ChargeRefundedType {
      if dbUp {
        SetStatusKeepsWellFormed(orders, nextId, obj.paymentIntent, Refunded);
        assert s.orders == SetStatusWhere(orders, obj.paymentIntent, Refunded) && s.nextId == nextId;
      }
    }
  }

  /** Every delivery leaves the primary and unique keys intact. */
  lemma HandleKeepsWellFormed(cfg: Env.Config, dbUp: bool, sig: Result<Event, string>, transportOk: bool,
                              orders: seq<Order>, nextId: nat)
    requires OrdersWellFormed(orders, nextId)
    ensures var s := Handle(cfg, dbUp, sig, transportOk, orders, nextId);
      OrdersWellFormed(s.orders, s.nextId) && nextId <= s.nextId
  {
    if Accepted(cfg, sig) {
      DispatchKeepsWellFormed(dbUp, sig.value, transportOk, orders, nextId);
    }
  }

  /** Without a client or without a webhook secret the answer is 500 and
      nothing changes, whatever the signature; the client is checked first. */
  lemma ConfigurationGuards(cfg: Env.Config, dbUp: bool, sig: Result<Event, string>, transportOk: bool,
                            orders: seq<Order>, nextId: nat)
    ensures !Env.StripeConfigured(cfg) ==>
      Handle(cfg, dbUp, sig, transportOk, orders, nextId) == Step(StripeNotConfigured, orders, nextId, None)
    ensures Env.StripeConfigured(cfg) && cfg.stripeWebhookSecret == "" ==>
      Handle(cfg, dbUp, sig, transportOk, orders, nextId) == Step(SecretNotConfigured, orders, nextId, None)
  {
  }

  /** With the empty defaults of an unset environment every delivery is
      refused with 500. */
  lemma DefaultEnvironmentRefuses(dbUp: bool, sig: Result<Event, string>, transportOk: bool,
                                  orders: seq<Order>, nextId: nat)
    ensures var s := Handle(Env.FromEnvironment(map[]), dbUp, sig, transportOk, orders, nextId);
      s.response.status == 500 && s.orders == orders && s.nextId == nextId && s.notice.None?
  {
    Env.DefaultsWhenUnset();
  }

  /** A failed signature check answers 400 with the verification message and
      changes nothing, whatever the payload. */
  lemma BadSignatureChangesNothing(cfg: Env.Config, dbUp: bool, message: string, transportOk: bool,
                                   orders: seq<Order>, nextId: nat)
    requires Env.StripeConfigured(cfg) && cfg.stripeWebhookSecret != ""
    ensures Handle(cfg, dbUp, Err(message), transportOk, orders, nextId)
         == Step(Response(400, ErrorBody("Webhook Error: " + message)), orders, nextId, None)
  {
  }

  /** A test event is acknowledged with `{verified: true}` and applied to
      nothing, completions included. */
  lemma TestEventChangesNothing(cfg: Env.Config, dbUp: bool, event: Event, transportOk: bool,
                                orders: seq<Order>, nextId: nat)
    requires Env.StripeConfigured(cfg) && cfg.stripeWebhookSecret != ""
    requires StartsWith(event.id, TestEventPrefix)
    ensures Handle(cfg, dbUp, Ok(event), transportOk, orders, nextId) == Step(Verified, orders, nextId, None)
  {
  }

  /** A completed checkout whose insert succeeds appends exactly one row,
      carrying the parsed ids, the session's payment intent, its total (0 when
      absent), status completed and method "stripe"; the earlier rows stay as
      they were and the owner is told of the new order. */
  lemma CompletionAppendsOneRow(cfg: Env.Config, event: Event, transportOk: bool,
                                orders: seq<Order>, nextId: nat)
    requires Accepted(cfg, Ok(event)) && event.eventType == CheckoutCompletedType
    requires event.data.metadata.Some?
    requires var meta := event.data.metadata.value;
      !InsertFails(orders, MetadataInt(meta, "user_id"), MetadataInt(meta, "product_id"), event.data)
    ensures var s := Handle(cfg, true, Ok(event), transportOk, orders, nextId);
      var meta := event.data.metadata.value;
      var row := s.orders[|orders|];
      && s.response == Received
      && |s.orders| == |orders| + 1 && s.orders[..|orders|] == orders && s.nextId == nextId + 1
      && row.id == nextId
      && Some(row.userId) == MetadataInt(meta, "user_id")
      && Some(row.productId) == MetadataInt(meta, "product_id")
      && row.stripePaymentIntentId == event.data.paymentIntent
      && row.amount == (if event.data.amountTotal.Some? then event.data.amountTotal.value else 0)
      && row.status == Completed && row.paymentMethod == Some("stripe")
      && row.metadata == Some(OrderMetadata(event.data.id, event.data.customerEmail))
      && s.notice.Some? && s.notice.value.notice.title == "New Order Received"
  {
    var s := Handle(cfg, true, Ok(event), transportOk, orders, nextId);
    assert s.orders[..|orders|] == orders;
  }

  /** The new-order notice of a successful completion: the parsed user id as
      order number, the session's address or the metadata's, and the
      metadata's product name or "Digital Product". */
  lemma CompletionNotifies(cfg: Env.Config, event: Event, transportOk: bool, orders: seq<Order>, nextId: nat)
    requires Accepted(cfg, Ok(event)) && event.eventType == CheckoutCompletedType
    requires event.data.metadata.Some?
    requires var meta := event.data.metadata.value;
      !InsertFails(orders, MetadataInt(meta, "user_id"), MetadataInt(meta, "product_id"), event.data)
    ensures var meta := event.data.metadata.value;
      Handle(cfg, true, Ok(event), transportOk, orders, nextId).notice
      == Some(Email.NotifyNewOrder(MetadataInt(meta, "user_id").value,
                                   Rendered(OrElse(event.data.customerEmail, Lookup(meta, "customer_email"))),
                                   OrDefault(Lookup(meta, "product_name"), "Digital Product"),
                                   SessionAmount(event.data), transportOk))
  {
  }

  /** A completion for a payment intent that already has a row breaks the
      unique key: the answer is 500, nothing changes, no one is notified. */
  lemma DuplicateCompletionRejected(cfg: Env.Config, dbUp: bool, event: Event, transportOk: bool,
                                    orders: seq<Order>, nextId: nat)
    requires Accepted(cfg, Ok(event)) && event.eventType == CheckoutCompletedType
    requires dbUp && event.data.metadata.Some?
    requires IntentTaken(orders, event.data.paymentIntent)
    ensures Handle(cfg, dbUp, Ok(event), transportOk, orders, nextId) == Step(InternalError, orders, nextId, None)
  {
  }

  /** Ids that do not parse make the insert fail: 500 and no change. */
  lemma UnparsableIdsRejected(cfg: Env.Config, event: Event, transportOk: bool,
                              orders: seq<Order>, nextId: nat)
    requires Accepted(cfg, Ok(event)) && event.eventType == CheckoutCompletedType
    requires event.data.metadata.Some? && "user_id" !in event.data.metadata.value
    ensures Handle(cfg, true, Ok(event), transportOk, orders, nextId) == Step(InternalError, orders, nextId, None)
  {
    assert ParseInt("undefined") == None by {
      assert !IsWhitespace('u') && !IsDigit('u');
      TrimStartOfVisible("undefined");
    }
  }

  /** A failed payment marks exactly the rows holding the intent as failed,
      whatever their status was, touches no other field or row, answers
      `{received: true}` even when nothing matches, and notifies the owner
      with the processor's reason. */
  lemma FailedPaymentMarksMatchingRows(cfg: Env.Config, event: Event, transportOk: bool,
                                       orders: seq<Order>, nextId: nat)
    requires Accepted(cfg, Ok(event)) && event.eventType == PaymentFailedType
    ensures var s := Handle(cfg, true, Ok(event), transportOk, orders, nextId);
      && s.response == Received && |s.orders| == |orders| && s.nextId == nextId
      && (forall i :: 0 <= i < |orders| && orders[i].stripePaymentIntentId == Some(event.data.id) ==>
            s.orders[i] == orders[i].(status := Failed))
      && (forall i :: 0 <= i < |orders| && orders[i].stripePaymentIntentId != Some(event.data.id) ==>
            s.orders[i] == orders[i])
      && s.notice == Some(FailureNotice(event.data, transportOk))
      && s.notice.value.notice.title == "Payment Failed"
      && Contains(s.notice.value.notice.content,
                  Email.ReasonLine(OrDefault(event.data.lastPaymentError, "Unknown reason")))
  {
    var obj := event.data;
    Email.PaymentFailedMentionsReason(0, OrDefault(obj.receiptEmail, "Unknown"), "Digital Product",
                                      OrDefault(obj.lastPaymentError, "Unknown reason"), transportOk);
  }

  /** A refund marks the rows holding the charge's intent as refunded and
      notifies no one; a charge without an intent changes nothing. */
  lemma RefundMarksMatchingRows(cfg: Env.Config, event: Event, transportOk: bool,
                                orders: seq<Order>, nextId: nat)
    requires Accepted(cfg, Ok(event)) && event.eventType == ChargeRefundedType
    ensures var s := Handle(cfg, true, Ok(event), transportOk, orders, nextId);
      && s.response == Received && |s.orders| == |orders| && s.nextId == nextId && s.notice.None?
      && (forall i :: 0 <= i < |orders| ==>
            s.orders[i] == (if Matches(orders[i], event.data.paymentIntent)
                            then orders[i].(status := Refunded) else orders[i]))
    ensures event.data.paymentIntent.None? ==> Handle(cfg, true, Ok(event), transportOk, orders, nextId).orders == orders
  {
    if event.data.paymentIntent.None? {
      var r := SetStatusWhere(orders, None, Refunded);
      assert forall i :: 0 <= i < |orders| ==> r[i] == orders[i];
    }
  }

  /** Other event types, and every event when there is no connection or a
      completion has no metadata, are acknowledged without a change. */
  lemma IgnoredEventsChangeNothing(cfg: Env.Config, dbUp: bool, event: Event, transportOk: bool,
                                   orders: seq<Order>, nextId: nat)
    requires Accepted(cfg, Ok(event))
    requires || event.eventType !in {CheckoutCompletedType, PaymentFailedType, ChargeRefundedType}
             || !dbUp
             || (event.eventType == CheckoutCompletedType && event.data.metadata.None?)
    ensures Handle(cfg, dbUp, Ok(event), transportOk, orders, nextId) == Step(Received, orders, nextId, None)
  {
  }

  /** No delivery changes an existing row's id, amount or payment intent, and
      no delivery removes a row. */
  lemma AmountsNeverChange(cfg: Env.Config, dbUp: bool, sig: Result<Event, string>, transportOk: bool,
                           orders: seq<Order>, nextId: nat)
    ensures var s := Handle(cfg, dbUp, sig, transportOk, orders, nextId);
      && |orders| <= |s.orders|
      && forall i :: 0 <= i < |orders| ==>
           && s.orders[i].id == orders[i].id
           && s.orders[i].amount == orders[i].amount
           && s.orders[i].stripePaymentIntentId == orders[i].stripePaymentIntentId
  {
  }

  /** The transport's outcome changes neither the answer nor the ledger. */
  lemma TransportDoesNotMatter(cfg: Env.Config, dbUp: bool, sig: Result<Event, string>,
                               orders: seq<Order>, nextId: nat)
    ensures var a := Handle(cfg, dbUp, sig, false, orders, nextId);
      var b := Handle(cfg, dbUp, sig, true, orders, nextId);
      a.response == b.response && a.orders == b.orders && a.nextId == b.nextId
      && a.notice.Some? == b.notice.Some?
      && (a.notice.Some? ==> a.notice.value.notice == b.notice.value.notice)
  {
  }

  // ----------------------------------------------------------------------
  // Properties of several deliveries

  /** Delivering the same completion twice leaves exactly one row for its
      payment intent: the second insert is refused with 500. */
  lemma RedeliveryKeepsOneRow(cfg: Env.Config, event: Event, transportOk: bool,
                              orders: seq<Order>, nextId: nat)
    requires OrdersWellFormed(orders, nextId)
    requires Accepted(cfg, Ok(event)) && event.eventType == CheckoutCompletedType
    requires event.data.metadata.Some? && event.data.paymentIntent.Some?
    requires Handle(cfg, true, Ok(event), transportOk, orders, nextId).response == Received
    ensures var first := Handle(cfg, true, Ok(event), transportOk, orders, nextId);
      var second := Handle(cfg, true, Ok(event), transportOk, first.orders, first.nextId);
      && second == Step(InternalError, first.orders, first.nextId, None)
      && CountIntent(second.orders, event.data.paymentIntent.value) == 1
  {
    var first := Handle(cfg, true, Ok(event), transportOk, orders, nextId);
    var intent := event.data.paymentIntent;
    HandleKeepsWellFormed(cfg, true, Ok(event), transportOk, orders, nextId);
    assert first.orders[|orders|].stripePaymentIntentId == intent;
    assert IntentTaken(first.orders, intent);
    CountIntentAtMostOne(first.orders, intent.value);
  }

  /** An accepted completion appends its row to the unchanged ledger, and
      no earlier row held its intent. */
  lemma CompletionSucceeded(cfg: Env.Config, event: Event, transportOk: bool, orders: seq<Order>, nextId: nat)
    requires Accepted(cfg, Ok(event)) && event.eventType == CheckoutCompletedType
    requires event.data.metadata.Some?
    requires Handle(cfg, true, Ok(event), transportOk, orders, nextId).response == Received
    ensures var s := Handle(cfg, true, Ok(event), transportOk, orders, nextId);
      && |s.orders| == |orders| + 1 && s.orders == orders + [s.orders[|orders|]]
      && s.orders[|orders|].status == Completed
      && s.orders[|orders|].stripePaymentIntentId == event.data.paymentIntent
      && s.orders[|orders|].amount == SessionAmount(event.data)
      && !IntentTaken(orders, event.data.paymentIntent)
  {
  }

  /** Marking rows of an intent that only the appended row holds changes
      only that row. */
  lemma SetStatusOfAppended(orders: seq<Order>, row: Order, intent: Option<string>, status: OrderStatus)
    requires !IntentTaken(orders, intent) && Matches(row, intent)
    ensures SetStatusWhere(orders + [row], intent, status) == orders + [row.(status := status)]
  {
    var r := SetStatusWhere(orders + [row], intent, status);
    forall i | 0 <= i < |orders| ensures r[i] == orders[i] {
      assert (orders + [row])[i] == orders[i];
    }
  }

  /** A refund after a completion for the same intent turns that order from
      completed to refunded, keeps its amount, and takes it out of the total
      sales again. */
  lemma RefundAfterCompletion(cfg: Env.Config, completion: Event, refund: Event, transportOk: bool,
                              orders: seq<Order>, nextId: nat)
    requires Accepted(cfg, Ok(completion)) && completion.eventType == CheckoutCompletedType
    requires Accepted(cfg, Ok(refund)) && refund.eventType == ChargeRefundedType
    requires completion.data.metadata.Some? && completion.data.paymentIntent.Some?
    requires refund.data.paymentIntent == completion.data.paymentIntent
    requires Handle(cfg, true, Ok(completion), transportOk, orders, nextId).response == Received
    ensures var first := Handle(cfg, true, Ok(completion), transportOk, orders, nextId);
      var second := Handle(cfg, true, Ok(refund), transportOk, first.orders, first.nextId);
      && first.orders[|orders|].status == Completed
      && second.orders[|orders|].status == Refunded
      && second.orders[|orders|].amount == first.orders[|orders|].amount
      && Db.GetTotalSales(true, first.orders) == Db.GetTotalSales(true, orders) + first.orders[|orders|].amount
      && Db.GetTotalSales(true, second.orders) == Db.GetTotalSales(true, orders)
  {
    var first := Handle(cfg, true, Ok(completion), transportOk, orders, nextId);
    var intent := completion.data.paymentIntent;
    CompletionSucceeded(cfg, completion, transportOk, orders, nextId);
    var row := first.orders[|orders|];
    var second := Handle(cfg, true, Ok(refund), transportOk, first.orders, first.nextId);
    assert second.orders == SetStatusWhere(first.orders, intent, Refunded);
    SetStatusOfAppended(orders, row, intent, Refunded);
    Db.TotalSalesOfAppend(orders, row);
    Db.TotalSalesOfAppend(orders, row.(status := Refunded));
  }

  /** As written, a failed-payment event overwrites a refunded order: the
      handler has no guard on the prior status. */
  lemma FailedOverwritesRefunded(cfg: Env.Config, event: Event, transportOk: bool)
    requires Accepted(cfg, Ok(event)) && event.eventType == PaymentFailedType
    ensures var row := Order(1, 7, 3, Some(event.data.id), 500, Refunded, Some("stripe"), None);
      Handle(cfg, true, Ok(event), transportOk, [row], 2).orders == [row.(status := Failed)]
  {
  }
}
