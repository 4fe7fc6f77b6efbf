/** Owner notifications. Each `notify*` operation builds a title and a
    content string and hands them to the owner-notification transport inside
    a try/catch: a failing transport is logged and never reaches the caller.
    The transport itself is outside the model; its outcome is the parameter
    `transportOk`. */
module Email {
  import opened Common

  /** What is handed to the owner-notification transport. */
  datatype Notice = Notice(title: string, content: string)

  /** The result of a `notify*` call: the notice attempted and whether the
      transport accepted it. There is no error case: failures are swallowed. */
  datatype Delivery = Delivery(notice: Notice, sent: bool)

  /** The closing sentence of the new-order template. */
  const NewOrderFooter := "Please process this order and deliver the digital product to the customer."
  const NewUserFooter := "Welcome them and ensure their account is properly set up."
  const PaymentFailedFooter := "Please contact the customer to resolve the payment issue."

  /** The text between the template's opening newline and its closing
      indentation; `trim` leaves exactly this. */
  function NewOrderBody(orderId: int, customerEmail: string, productName: string, amountCents: int): string {
    NewOrderLines(orderId, customerEmail, productName, amountCents) + ("\n" + NewOrderFooter)
  }

  /** The four data lines of the new-order template. */
  function NewOrderLines(orderId: int, customerEmail: string, productName: string, amountCents: int): string {
    OrderLine(orderId) + NewOrderDetails(customerEmail, productName, amountCents)
  }

  function OrderLine(orderId: int): string {
    "Order #" + IntToString(orderId) + "\n"
  }

  function NewOrderDetails(customerEmail: string, productName: string, amountCents: int): string {
    "Customer: " + customerEmail + "\n"
    + "Product: " + productName + "\n"
    + "Amount: €" + FormatCents(amountCents) + "\n"
  }

  function NewUserBody(userId: int, userName: string, userEmail: string): string {
    "New user registered:\n"
    + "ID: " + IntToString(userId) + "\n"
    + "Name: " + userName + "\n"
    + "Email: " + userEmail + "\n"
    + "\n"
    + NewUserFooter
  }

  function PaymentFailedBody(orderId: int, customerEmail: string, productName: string, reason: string): string {
    PaymentFailedLines(orderId, customerEmail, productName) + ReasonLine(reason) + "\n" + PaymentFailedFooter
  }

  function PaymentFailedLines(orderId: int, customerEmail: string, productName: string): string {
    "Order #" + IntToString(orderId) + " payment failed\n"
    + "Customer: " + customerEmail + "\n"
    + "Product: " + productName + "\n"
  }

  function ReasonLine(reason: string): string {
    "Reason: " + reason + "\n"
  }

  /** The template literals open with a newline and close with a newline and
      six spaces of indentation before `.trim()` is applied. */
  function Template(body: string): string {
    "\n" + body + "\n      "
  }

  /** Trimming a template yields its body when the body starts and ends with
      visible characters. */
  lemma TrimTemplate(body: string)
    requires body != [] && !IsWhitespace(body[0]) && !IsWhitespace(body[|body| - 1])
    ensures Trim(Template(body)) == body
  {
    TrimPadded("\n", body, "\n      ");
  }

  function NotifyNewOrder(orderId: int, customerEmail: string, productName: string, amountCents: int,
                          transportOk: bool): (d: Delivery)
    ensures d.notice.title == "New Order Received"
    ensures d.notice.content == NewOrderBody(orderId, customerEmail, productName, amountCents)
    ensures d.sent == transportOk
  {
    var body := NewOrderBody(orderId, customerEmail, productName, amountCents);
    assert body == body[..|body| - |NewOrderFooter|] + NewOrderFooter;
    TrimTemplate(body);
    Delivery(Notice("New Order Received", Trim(Template(body))), transportOk)
  }

  function NotifyNewUser(userId: int, userName: string, userEmail: string, transportOk: bool): (d: Delivery)
    ensures d.notice.title == "New User Registration"
    ensures d.notice.content == NewUserBody(userId, userName, userEmail)
    ensures d.sent == transportOk
  {
    var body := NewUserBody(userId, userName, userEmail);
    assert body == body[..|body| - |NewUserFooter|] + NewUserFooter;
    TrimTemplate(body);
    Delivery(Notice("New User Registration", Trim(Template(body))), transportOk)
  }

  function NotifyPaymentFailed(orderId: int, customerEmail: string, productName: string, reason: string,
                               transportOk: bool): (d: Delivery)
    ensures d.notice.title == "Payment Failed"
    ensures d.notice.content == PaymentFailedBody(orderId, customerEmail, productName, reason)
    ensures d.sent == transportOk
  {
    var body := PaymentFailedBody(orderId, customerEmail, productName, reason);
    assert body == body[..|body| - |PaymentFailedFooter|] + PaymentFailedFooter;
    TrimTemplate(body);
    Delivery(Notice("Payment Failed", Trim(Template(body))), transportOk)
  }

  /** A system alert is not templated: the message is the content verbatim. */
  function NotifySystemAlert(title: string, message: string, transportOk: bool): (d: Delivery)
    ensures d.notice.title == "System Alert: " + title
    ensures d.notice.content == message
    ensures d.sent == transportOk
  {
    Delivery(Notice("System Alert: " + title, message), transportOk)
  }

  /** The new-order content opens with its four data lines, shows the
      amount with exactly two decimals, and has no surrounding whitespace. */
  lemma NewOrderContentShape(orderId: int, customerEmail: string, productName: string, amountCents: int,
                             transportOk: bool)
    ensures var c := NotifyNewOrder(orderId, customerEmail, productName, amountCents, transportOk).notice.content;
      && StartsWith(c, NewOrderLines(orderId, customerEmail, productName, amountCents))
      && StartsWith(c, OrderLine(orderId))
      && !IsWhitespace(c[0]) && !IsWhitespace(c[|c| - 1])
    ensures var a := FormatCents(amountCents);
      a[|a| - 3] == '.' && IsDigit(a[|a| - 2]) && IsDigit(a[|a| - 1])
    ensures ParseCents(FormatCents(amountCents)) == Some(amountCents)
  {
    NewOrderBodyShape(orderId, customerEmail, productName, amountCents);
    FormatCentsShape(amountCents);
    ParseCentsOfFormatCents(amountCents);
  }

  lemma NewOrderBodyShape(orderId: int, customerEmail: string, productName: string, amountCents: int)
    ensures var c := NewOrderBody(orderId, customerEmail, productName, amountCents);
      && StartsWith(c, NewOrderLines(orderId, customerEmail, productName, amountCents))
      && StartsWith(c, OrderLine(orderId))
      && !IsWhitespace(c[0]) && !IsWhitespace(c[|c| - 1])
  {
    var lines := NewOrderLines(orderId, customerEmail, productName, amountCents);
    var first := OrderLine(orderId);
    var closing := "\n" + NewOrderFooter;
    var c := lines + closing;
    PrefixOfConcat(lines, closing);
    PrefixOfConcat(first, NewOrderDetails(customerEmail, productName, amountCents));
    PrefixOfPrefix(c, lines, first);
    assert c[0] == first[0] == 'O';
    FooterEndsVisibly();
    assert c[|c| - 1] == closing[|closing| - 1];
  }

  lemma PrefixOfConcat(a: string, b: string)
    ensures StartsWith(a + b, a)
  {
    assert (a + b)[..|a|] == a;
  }

  lemma PrefixOfPrefix(s: string, p: string, q: string)
    requires StartsWith(s, p) && StartsWith(p, q)
    ensures StartsWith(s, q)
  {
    assert s[..|q|] == p[..|q|];
  }

  lemma FooterEndsVisibly()
    ensures var closing := "\n" + NewOrderFooter; closing[|closing| - 1] == '.'
  {
  }

  /** The payment-failed content carries the reason on its own line. */
  lemma PaymentFailedMentionsReason(orderId: int, customerEmail: string, productName: string, reason: string,
                                    transportOk: bool)
    ensures Contains(NotifyPaymentFailed(orderId, customerEmail, productName, reason, transportOk).notice.content,
                     ReasonLine(reason))
  {
    var before := PaymentFailedLines(orderId, customerEmail, productName);
    ContainsAt(before, ReasonLine(reason), "\n" + PaymentFailedFooter);
    assert PaymentFailedBody(orderId, customerEmail, productName, reason)
        == before + ReasonLine(reason) + ("\n" + PaymentFailedFooter);
  }

  lemma {:induction false} ContainsAt(before: string, part: string, after: string)
    ensures Contains(before + part + after, part)
    decreases |before|
  {
    var s := before + part + after;
    if before == [] {
      assert s[..|part|] == part;
    } else {
      assert s[1..] == before[1..] + part + after;
      ContainsAt(before[1..], part, after);
    }
  }

  /** The transport outcome decides only whether the notice was sent, never
      what was attempted: a failure is swallowed. */
  lemma TransportFailureIsSwallowed(orderId: int, customerEmail: string, productName: string,
                                    amountCents: int, reason: string, title: string, message: string)
    ensures NotifyNewOrder(orderId, customerEmail, productName, amountCents, false).notice
         == NotifyNewOrder(orderId, customerEmail, productName, amountCents, true).notice
    ensures NotifyPaymentFailed(orderId, customerEmail, productName, reason, false).notice
         == NotifyPaymentFailed(orderId, customerEmail, productName, reason, true).notice
    ensures NotifySystemAlert(title, message, false).notice == NotifySystemAlert(title, message, true).notice
  {
  }
}
