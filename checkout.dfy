/** Checkout: the payment session request built for a signed-in user and a
    catalogue product, and the projection of a retrieved session.

    Session creation and retrieval at the payment processor are the
    function parameters `create` and `retrieve`. */
module Checkout {
  import opened Common
  import opened Schema
  import Env
  import Db
  import Webhook
  import Email

  datatype CheckoutInput = CheckoutInput(productId: int, quantity: int)

  /** The single line item of a session. */
  datatype LineItem = LineItem(
    currency: string,
    name: string,
    description: Option<string>,
    unitAmount: int,
    quantity: int)

  /** The argument of `checkout.sessions.create`. */
  datatype SessionRequest = SessionRequest(
    customerEmail: string,
    clientReferenceId: string,
    metadata: map<string, string>,
    lineItem: LineItem,
    mode: string,
    successUrl: string,
    cancelUrl: string,
    allowPromotionCodes: bool)

  datatype CreatedSession = CreatedSession(id: string, url: Option<string>)

  datatype CheckoutResult = CheckoutResult(sessionId: string, url: Option<string>)

  const EmailRequired := "User email is required"
  const CheckoutFailed := "Failed to create checkout session"

  /** The return pages, relative to the origin header of the request. */
  const SuccessPath := "/success?session_id={CHECKOUT_SESSION_ID}"
  const CancelPath := "/cancelled"

  /** `Math.round(parseFloat(price) * 100)` on the two-decimal text the
      price column yields: the price in cents, exactly. */
  function UnitAmount(price: Cents): (r: int)
    ensures r == price
  {
    ParseCentsOfFormatCents(price);
    ParseCents(FormatCents(price)).value
  }

  /** The metadata the webhook reads back when the session completes. */
  function SessionMetadata(user: User, email: string, input: CheckoutInput): map<string, string> {
    map[
      "user_id" := IntToString(user.id),
      "product_id" := IntToString(input.productId),
      "customer_email" := email,
      "customer_name" := OrDefault(user.name, "Customer")]
  }

  /** The session request for `user` (whose address is `email`) buying
      `quantity` of `product`: the ids as decimal strings, the address, the
      user's name or "Customer", one line item in euros carrying the
      product's name, its description unless empty, the price in cents and
      the quantity unchanged, a one-off payment, the return pages under the
      request's origin, and promotion codes allowed. */
  function BuildSessionRequest(user: User, email: string, input: CheckoutInput, product: Product,
                               origin: Option<string>): (req: SessionRequest)
    ensures req.metadata.Keys == {"user_id", "product_id", "customer_email", "customer_name"}
    ensures req.metadata["user_id"] == IntToString(user.id) == req.clientReferenceId
    ensures req.metadata["product_id"] == IntToString(input.productId)
    ensures req.metadata["customer_email"] == email == req.customerEmail
    ensures user.name.Some? && user.name.value != "" ==> req.metadata["customer_name"] == user.name.value
    ensures user.name.None? || user.name.value == "" ==> req.metadata["customer_name"] == "Customer"
    ensures req.lineItem.name == product.name
    ensures product.description.Some? && product.description.value != "" ==>
              req.lineItem.description == product.description
    ensures product.description.None? || product.description.value == "" ==> req.lineItem.description.None?
    ensures req.lineItem.unitAmount == product.price
    ensures req.lineItem.quantity == input.quantity
    ensures req.lineItem.currency == "eur" && req.mode == "payment"
    ensures req.successUrl == Rendered(origin) + SuccessPath
    ensures req.cancelUrl == Rendered(origin) + CancelPath
    ensures req.allowPromotionCodes
  {
    SessionRequest(
      customerEmail := email,
      clientReferenceId := IntToString(user.id),
      metadata := SessionMetadata(user, email, input),
      lineItem := LineItem("eur", product.name, OrElse(product.description, None),
                           UnitAmount(product.price), input.quantity),
      mode := "payment",
      successUrl := Rendered(origin) + SuccessPath,
      cancelUrl := Rendered(origin) + CancelPath,
      allowPromotionCodes := true)
  }

  /** The metadata keys, and the `product_name` key the webhook also reads,
      are pairwise distinct. */
  lemma MetadataKeysDistinct()
    ensures "user_id" != "product_id" && "user_id" != "customer_email" && "user_id" != "customer_name"
    ensures "product_id" != "customer_email" && "product_id" != "customer_name"
    ensures "customer_email" != "customer_name"
    ensures "product_name" != "user_id" && "product_name" != "product_id"
    ensures "product_name" != "customer_email" && "product_name" != "customer_name"
  {
    assert "user_id"[0] == 'u' && "product_id"[0] == 'p' && "product_name"[0] == 'p';
    assert "customer_email"[0] == 'c' && "customer_name"[0] == 'c';
    assert |"customer_email"| == 14 && |"customer_name"| == 13;
    assert |"product_id"| == 10 && |"product_name"| == 12;
  }

  lemma SessionMetadataLookups(user: User, email: string, input: CheckoutInput)
    ensures var meta := SessionMetadata(user, email, input);
      && "user_id" in meta && meta["user_id"] == IntToString(user.id)
      && "product_id" in meta && meta["product_id"] == IntToString(input.productId)
      && "customer_email" in meta && meta["customer_email"] == email
      && "product_name" !in meta
  {
    MetadataKeysDistinct();
  }

  /** The webhook's `parseInt` recovers the ids the request's metadata
      carries. */
  lemma MetadataRoundTrip(user: User, email: string, input: CheckoutInput)
    ensures var meta := SessionMetadata(user, email, input);
      && Webhook.MetadataInt(meta, "user_id") == Some(user.id as int)
      && Webhook.MetadataInt(meta, "product_id") == Some(input.productId)
      && "product_name" !in meta
  {
    var meta := SessionMetadata(user, email, input);
    SessionMetadataLookups(user, email, input);
    Webhook.MetadataIntOfNumeral(meta, "user_id", user.id);
    Webhook.MetadataIntOfNumeral(meta, "product_id", input.productId);
  }

  /** `createCheckoutSession`: a user without an address is refused first;
      every later failure (no client, no product, the processor's refusal)
      surfaces as one generic message. */
  function CreateCheckoutSession(user: Option<User>, input: CheckoutInput, cfg: Env.Config, dbUp: bool,
                                 products: seq<Product>, origin: Option<string>,
                                 create: SessionRequest -> Result<CreatedSession, string>)
    : (r: Result<CheckoutResult, string>)
    ensures user.None? || user.value.email.None? || user.value.email.value == "" ==> r == Err(EmailRequired)
    ensures r.Err? && user.Some? && user.value.email.Some? && user.value.email.value != "" ==>
              r.error == CheckoutFailed
    ensures r.Ok? ==>
      && Env.StripeConfigured(cfg)
      && var product := Db.GetProductById(dbUp, products, input.productId);
      && product.Some? && product.value.id == input.productId
      && var created := create(BuildSessionRequest(user.value, user.value.email.value, input, product.value, origin));
      && created.Ok? && r.value == CheckoutResult(created.value.id, created.value.url)
  {
    if user.None? || user.value.email.None? || user.value.email.value == "" then Err(EmailRequired)
    else if !Env.StripeConfigured(cfg) then Err(CheckoutFailed)
    else
      var product := Db.GetProductById(dbUp, products, input.productId);
      if product.None? then Err(CheckoutFailed)
      else
        var created := create(BuildSessionRequest(user.value, user.value.email.value, input, product.value, origin));
        if created.Err? then Err(CheckoutFailed)
        else Ok(CheckoutResult(created.value.id, created.value.url))
  }

  /** With a client, a product and an accepting processor the checkout
      succeeds; the unset environment makes every checkout fail. */
  lemma CheckoutSucceedsWhenEverythingIsThere(user: User, input: CheckoutInput, cfg: Env.Config,
                                              products: seq<Product>, origin: Option<string>,
                                              create: SessionRequest -> Result<CreatedSession, string>)
    requires user.email.Some? && user.email.value != ""
    ensures Env.StripeConfigured(cfg) && Db.GetProductById(true, products, input.productId).Some?
            && create(BuildSessionRequest(user, user.email.value, input,
                                          Db.GetProductById(true, products, input.productId).value, origin)).Ok? ==>
              CreateCheckoutSession(Some(user), input, cfg, true, products, origin, create).Ok?
    ensures CreateCheckoutSession(Some(user), input, Env.FromEnvironment(map[]), true, products, origin, create)
         == Err(CheckoutFailed)
  {
    Env.DefaultsWhenUnset();
  }

  /** A session the webhook later reports as completed, carrying the
      request's metadata, records an order for the buying user and the
      bought product under the default product name. */
  lemma CheckoutFeedsTheLedger(user: User, email: string, input: CheckoutInput, product: Product,
                               origin: Option<string>, cfg: Env.Config, event: Webhook.Event,
                               transportOk: bool, orders: seq<Order>, nextId: nat)
    requires Webhook.Accepted(cfg, Ok(event)) && event.eventType == Webhook.CheckoutCompletedType
    requires event.data.metadata == Some(BuildSessionRequest(user, email, input, product, origin).metadata)
    requires Webhook.FitsInt(user.id) && Webhook.FitsInt(input.productId)
    requires FitsDecimal(Webhook.SessionAmount(event.data), 10)
    requires !IntentTaken(orders, event.data.paymentIntent)
    ensures var s := Webhook.Handle(cfg, true, Ok(event), transportOk, orders, nextId);
      && s.response == Webhook.Received
      && |s.orders| == |orders| + 1
      && s.orders[|orders|].userId == user.id && s.orders[|orders|].productId == input.productId
      && s.notice.Some?
      && s.notice.value.notice.content
         == Email.NewOrderBody(user.id, if event.data.customerEmail.Some? && event.data.customerEmail.value != ""
                                        then event.data.customerEmail.value else email,
                               "Digital Product", Webhook.SessionAmount(event.data))
  {
    var meta := event.data.metadata.value;
    assert meta == SessionMetadata(user, email, input);
    SessionMetadataLookups(user, email, input);
    MetadataRoundTrip(user, email, input);
    assert Lookup(meta, "customer_email") == Some(email);
    assert Lookup(meta, "product_name") == None;
    assert !Webhook.InsertFails(orders, Some(user.id), Some(input.productId), event.data);
    Webhook.CompletionAppendsOneRow(cfg, event, transportOk, orders, nextId);
    Webhook.CompletionNotifies(cfg, event, transportOk, orders, nextId);
  }

  /** A session as the processor returns it; only some fields are read. */
  datatype SessionObject = SessionObject(
    id: string,
    paymentStatus: string,
    amountTotal: Option<int>,
    currency: Option<string>,
    customerEmail: Option<string>,
    url: Option<string>,
    metadata: map<string, string>)

  datatype SessionSummary = SessionSummary(
    id: string,
    status: string,
    amountTotal: Option<int>,
    currency: Option<string>,
    customerEmail: Option<string>)

  const RetrieveFailed := "Failed to retrieve session"

  /** `getSession`: the five projected fields, `status` being the payment
      status; any failure becomes one generic message. */
  function GetSession(cfg: Env.Config, sessionId: string, retrieve: string -> Result<SessionObject, string>)
    : (r: Result<SessionSummary, string>)
    ensures r.Err? ==> r.error == RetrieveFailed
    ensures r.Ok? <==> Env.StripeConfigured(cfg) && retrieve(sessionId).Ok?
    ensures r.Ok? ==> var s := retrieve(sessionId).value;
      && r.value.id == s.id && r.value.status == s.paymentStatus && r.value.amountTotal == s.amountTotal
      && r.value.currency == s.currency && r.value.customerEmail == s.customerEmail
  {
    if !Env.StripeConfigured(cfg) then Err(RetrieveFailed)
    else
      var s := retrieve(sessionId);
      if s.Err? then Err(RetrieveFailed)
      else Ok(SessionSummary(s.value.id, s.value.paymentStatus, s.value.amountTotal, s.value.currency,
                             s.value.customerEmail))
  }

  /** The projection reads nothing else: sessions that agree on the five
      fields give the same answer. */
  lemma GetSessionReadsOnlyProjectedFields(cfg: Env.Config, sessionId: string,
                                           a: string -> Result<SessionObject, string>,
                                           b: string -> Result<SessionObject, string>)
    requires a(sessionId).Ok? && b(sessionId).Ok?
    requires var x := a(sessionId).value; var y := b(sessionId).value;
      x.id == y.id && x.paymentStatus == y.paymentStatus && x.amountTotal == y.amountTotal
      && x.currency == y.currency && x.customerEmail == y.customerEmail
    ensures GetSession(cfg, sessionId, a) == GetSession(cfg, sessionId, b)
  {
  }
}
